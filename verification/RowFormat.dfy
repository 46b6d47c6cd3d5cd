/** The bytes of a password row, written out: the alphabets, the layout, and exactly which rows are accepted. */
module RowFormat {
  import opened Wrappers
  import opened Phc

  // ----- The alphabets -----

  const DIGITS := "0123456789"

  const UPPER := "ABCDEFGHIJKLMNOPQRSTUVWXYZ"
  const LOWER := "abcdefghijklmnopqrstuvwxyz"

  /** Table 1 of RFC 4648. */
  const ALPHABET := UPPER + LOWER + DIGITS + "+/"

  lemma DigitIs(d: nat)
    requires d < 10
    ensures Digit(d) == DIGITS[d]
  {
  }

  lemma LetterIs(v: nat)
    requires v < 64
    ensures |ALPHABET| == 64 && Letter(v) == ALPHABET[v]
  {
    if v < 26 { UpperIs(v); }
    else if v < 52 { LowerIs(v - 26); assert ALPHABET[v] == LOWER[v - 26]; }
    else if v < 62 { DigitIs(v - 52); assert ALPHABET[v] == DIGITS[v - 52]; }
  }

  lemma UpperIs(v: nat)
    requires v < 26
    ensures Letter(v) == UPPER[v]
  {
  }

  lemma LowerIs(v: nat)
    requires v < 26
    ensures Letter(v + 26) == LOWER[v]
  {
  }

  /** A number is written without leading zeros, its last digit last. */
  lemma DecimalIs(n: nat)
    ensures Decimal(n) == if n < 10 then [DIGITS[n]] else Decimal(n / 10) + [DIGITS[n % 10]]
  {
    DigitIs(n % 10);
  }

  // ----- Base64 reads the bytes as one number -----

  /** The number that bytes write in base 256, after acc. */
  function Number(acc: nat, b: seq<byte>): nat
    decreases |b|
  {
    if b == [] then acc else Number(acc * 256 + b[0] as nat, b[1..])
  }

  /** The number that letters write in base 64, after acc. */
  function Read64(acc: nat, s: string): nat
    requires forall c | c in s :: Sextet(c).Some?
    decreases |s|
  {
    if s == "" then acc else
      assert s[0] in s;
      Read64(acc * 64 + Sextet(s[0]).value, s[1..])
  }

  lemma Read64Step(acc: nat, c: char, rest: string)
    requires forall x | x in [c] + rest :: Sextet(x).Some?
    ensures Sextet(c).Some? && (forall x | x in rest :: Sextet(x).Some?)
    ensures Read64(acc, [c] + rest) == Read64(acc * 64 + Sextet(c).value, rest)
  {
    assert ([c] + rest)[0] == c && ([c] + rest)[1..] == rest && c in [c] + rest;
    forall x | x in rest ensures Sextet(x).Some? { assert x in [c] + rest; }
  }

  lemma Read64Four(acc: nat, c0: char, c1: char, c2: char, c3: char, rest: string)
    requires forall x | x in [c0, c1, c2, c3] + rest :: Sextet(x).Some?
    ensures Sextet(c0).Some? && Sextet(c1).Some? && Sextet(c2).Some? && Sextet(c3).Some?
    ensures forall x | x in rest :: Sextet(x).Some?
    ensures Read64(acc, [c0, c1, c2, c3] + rest) ==
              Read64((((acc * 64 + Sextet(c0).value) * 64 + Sextet(c1).value) * 64 + Sextet(c2).value) * 64 + Sextet(c3).value, rest)
  {
    var s3, s2, s1 := [c3] + rest, [c2] + ([c3] + rest), [c1] + ([c2] + ([c3] + rest));
    assert [c0, c1, c2, c3] + rest == [c0] + s1;
    Read64Step(acc, c0, s1);
    var a1 := acc * 64 + Sextet(c0).value;
    Read64Step(a1, c1, s2);
    var a2 := a1 * 64 + Sextet(c1).value;
    Read64Step(a2, c2, s3);
    Read64Step(a2 * 64 + Sextet(c2).value, c3, rest);
  }

  /** Four letters read as the three bytes they were made from. */
  lemma QuadReads(acc: nat, b0: byte, b1: byte, b2: byte, rest: string)
    requires forall c | c in Quad(b0, b1, b2) + rest :: Sextet(c).Some?
    ensures forall c | c in rest :: Sextet(c).Some?
    ensures Read64(acc, Quad(b0, b1, b2) + rest) == Read64(Three(acc, b0, b1, b2), rest)
  {
    var q := Quad(b0, b1, b2);
    QuadNumber(acc, b0, b1, b2);
    Read64Four(acc, q[0], q[1], q[2], q[3], rest);
  }

  lemma QuadNumber(acc: nat, b0: byte, b1: byte, b2: byte)
    ensures var q := Quad(b0, b1, b2);
            && Sextet(q[0]).Some? && Sextet(q[1]).Some? && Sextet(q[2]).Some? && Sextet(q[3]).Some?
            && (((acc * 64 + Sextet(q[0]).value) * 64 + Sextet(q[1]).value) * 64 + Sextet(q[2]).value) * 64 + Sextet(q[3]).value
                 == Three(acc, b0, b1, b2)
  {
    var q := Quad(b0, b1, b2);
    QuadValues(b0, b1, b2);
    SameNumber(acc, b0 as nat, b1 as nat, b2 as nat, Sextet(q[0]).value, Sextet(q[1]).value, Sextet(q[2]).value, Sextet(q[3]).value);
  }

  function Three(acc: nat, b0: byte, b1: byte, b2: byte): nat { ((acc * 256 + b0 as nat) * 256 + b1 as nat) * 256 + b2 as nat }

  lemma NumberStep(acc: nat, b0: byte, rest: seq<byte>)
    ensures Number(acc, [b0] + rest) == Number(acc * 256 + b0 as nat, rest)
  {
    assert ([b0] + rest)[1..] == rest;
  }

  lemma NumberThree(acc: nat, b0: byte, b1: byte, b2: byte, rest: seq<byte>)
    ensures Number(acc, [b0, b1, b2] + rest) == Number(Three(acc, b0, b1, b2), rest)
  {
    NumberStep(acc, b0, [b1] + ([b2] + rest));
    NumberStep(acc * 256 + b0 as nat, b1, [b2] + rest);
    NumberStep((acc * 256 + b0 as nat) * 256 + b1 as nat, b2, rest);
    assert [b0, b1, b2] + rest == [b0] + ([b1] + ([b2] + rest));
  }

  lemma SameNumber(acc: nat, b0: nat, b1: nat, b2: nat, v0: nat, v1: nat, v2: nat, v3: nat)
    requires v1 < 64 && v2 < 64 && v3 < 64
    requires v0 * 4 + v1 / 16 == b0 && v1 % 16 * 16 + v2 / 4 == b1 && v2 % 4 * 64 + v3 == b2
    ensures (((acc * 64 + v0) * 64 + v1) * 64 + v2) * 64 + v3 == ((acc * 256 + b0) * 256 + b1) * 256 + b2
  {
  }

  /** Four zero bits fill up one byte left over, two fill up two. */
  function Padding(n: nat): nat { if n % 3 == 0 then 1 else if n % 3 == 1 then 16 else 4 }

  lemma SamePadding(n: nat)
    requires n > 2
    ensures Padding(n - 3) == Padding(n)
  {
  }

  lemma {:induction false} EncodeLength(b: seq<byte>)
    ensures |Encode(b)| == (4 * |b| + 2) / 3
    decreases |b|
  {
    if |b| > 2 {
      EncodeLength(b[3..]);
      assert |Encode(b)| == 4 + |Encode(b[3..])|;
    }
  }

  /** Base64 writes the number that the bytes write, most significant first: a letter for each six bits, the last padded with
      zero bits. */
  lemma {:induction false} EncodeReads(acc: nat, b: seq<byte>)
    ensures forall c | c in Encode(b) :: Sextet(c).Some?
    ensures Read64(acc, Encode(b)) == Number(acc, b) * Padding(|b|)
    decreases |b|
  {
    EncodeIsLetters(b);
    if |b| > 2 {
      ManyReads(acc, b);
      EncodeReads(Three(acc, b[0], b[1], b[2]), b[3..]);
      SamePadding(|b|);
    } else if |b| == 2 {
      TwoReads(acc, b[0], b[1]);
      assert b == [b[0], b[1]];
    } else if |b| == 1 {
      OneReads(acc, b[0]);
      assert b == [b[0]];
    }
  }

  lemma ManyReads(acc: nat, b: seq<byte>)
    requires |b| > 2
    ensures (forall c | c in Encode(b) :: Sextet(c).Some?) && (forall c | c in Encode(b[3..]) :: Sextet(c).Some?)
    ensures Read64(acc, Encode(b)) == Read64(Three(acc, b[0], b[1], b[2]), Encode(b[3..]))
    ensures Number(acc, b) == Number(Three(acc, b[0], b[1], b[2]), b[3..])
  {
    EncodeIsLetters(b);
    EncodeIsLetters(b[3..]);
    QuadReads(acc, b[0], b[1], b[2], Encode(b[3..]));
    NumberThree(acc, b[0], b[1], b[2], b[3..]);
    assert b == [b[0], b[1], b[2]] + b[3..];
  }

  lemma OneReads(acc: nat, b0: byte)
    ensures forall c | c in Encode([b0]) :: Sextet(c).Some?
    ensures Read64(acc, Encode([b0])) == (acc * 256 + b0 as nat) * 16 == Number(acc, [b0]) * 16
  {
    var v0, v1 := b0 as nat / 4, b0 as nat % 4 * 16;
    EncodeIsLetters([b0]);
    LetterReads(v0);
    LetterReads(v1);
    assert Encode([b0]) == [Letter(v0)] + ([Letter(v1)] + "");
    Read64Step(acc, Letter(v0), [Letter(v1)] + "");
    Read64Step(acc * 64 + v0, Letter(v1), "");
    assert [b0][1..] == [];
  }

  lemma TwoReads(acc: nat, b0: byte, b1: byte)
    ensures forall c | c in Encode([b0, b1]) :: Sextet(c).Some?
    ensures Read64(acc, Encode([b0, b1])) == ((acc * 256 + b0 as nat) * 256 + b1 as nat) * 4 == Number(acc, [b0, b1]) * 4
  {
    var v0, v1, v2 := b0 as nat / 4, b0 as nat % 4 * 16 + b1 as nat / 16, b1 as nat % 16 * 4;
    EncodeIsLetters([b0, b1]);
    EncodeOfTwo(b0, b1);
    LetterReads(v0);
    LetterReads(v1);
    LetterReads(v2);
    assert Encode([b0, b1]) == [Letter(v0)] + ([Letter(v1)] + ([Letter(v2)] + ""));
    Read64Step(acc, Letter(v0), [Letter(v1)] + ([Letter(v2)] + ""));
    Read64Step(acc * 64 + v0, Letter(v1), [Letter(v2)] + "");
    Read64Step((acc * 64 + v0) * 64 + v1, Letter(v2), "");
    NumberStep(acc, b0, [b1]);
    NumberStep(acc * 256 + b0 as nat, b1, []);
    assert [b0, b1] == [b0] + [b1] && [b1] + [] == [b1];
  }

  // ----- Exactly which rows are accepted -----

  function Joined(parts: seq<string>, sep: char): string
    requires parts != []
  {
    if |parts| == 1 then parts[0] else parts[0] + [sep] + Joined(parts[1..], sep)
  }

  /** The parts of a string hold no separator, and joined by it they are the string. */
  lemma {:induction false} SplitIs(s: string, sep: char)
    ensures (forall p | p in Split(s, sep) :: sep !in p) && Joined(Split(s, sep), sep) == s
  {
    if s != "" {
      var rest := Split(s[1..], sep);
      SplitIs(s[1..], sep);
      assert s == [s[0]] + s[1..] && rest == [rest[0]] + rest[1..];
      if s[0] == sep {
        assert ([""] + rest)[1..] == rest && "" + [sep] + Joined(rest, sep) == s;
      } else {
        assert ([[s[0]] + rest[0]] + rest[1..])[1..] == rest[1..];
      }
    }
  }

  lemma JoinedSix(p: seq<string>)
    requires |p| == 6
    ensures Joined(p, '$') == Field(p[0], Field(p[1], Field(p[2], Field(p[3], Field(p[4], p[5])))))
  {
    assert p[1..][1..] == p[2..] && p[2..][1..] == p[3..] && p[3..][1..] == p[4..] && p[4..][1..] == p[5..];
    assert Joined(p[5..], '$') == p[5];
    assert Joined(p[4..], '$') == Field(p[4], p[5]);
    assert Joined(p[3..], '$') == Field(p[3], Joined(p[4..], '$'));
    assert Joined(p[2..], '$') == Field(p[2], Joined(p[3..], '$'));
    assert Joined(p[1..], '$') == Field(p[1], Joined(p[2..], '$'));
  }

  /** A row with these fields. What precedes the first separator is ignored. */
  ghost predicate LaidOut(encoded: string, head: string, params: string, salt: string, key: string) {
    && encoded == head + ("$argon2id$v=19$" + (params + "$" + (salt + "$" + key)))
    && '$' !in head && '$' !in params && '$' !in salt && '$' !in key
  }

  lemma HeadedIs(head: string, params: string, salt: string, key: string)
    ensures Field(head, Field(ALGO, Field(VersionField(), Field(params, Field(salt, key))))) ==
              head + ("$argon2id$v=19$" + (params + "$" + (salt + "$" + key)))
  {
    var rest := Field(params, Field(salt, key));
    HeadIs(rest);
    Behind(head, Field(ALGO, Field(VersionField(), rest)));
  }

  lemma Behind(head: string, rest: string)
    ensures Field(head, rest) == head + Field("", rest)
  {
  }

  lemma SplitOfRow(encoded: string, head: string, params: string, salt: string, key: string)
    requires LaidOut(encoded, head, params, salt, key)
    ensures Split(encoded, '$') == [head, ALGO, VersionField(), params, salt, key]
  {
    var rest := Field(params, Field(salt, key));
    HeadedIs(head, params, salt, key);
    DecimalIsPlain(19);
    SplitFirst(head, '$', Field(ALGO, Field(VersionField(), rest)));
    SplitFirst(ALGO, '$', Field(VersionField(), rest));
    SplitFirst(VersionField(), '$', rest);
    SplitThree(params, salt, key);
  }

  /** What the fields of a row must be for it to be accepted as that row. */
  ghost predicate Holds(params: string, salt: string, key: string, row: Row) {
    && (forall kv | kv in Split(params, ',') :: WellFormed(kv))
    && row.costs == Costs(LastFor(Split(params, ','), "m"), LastFor(Split(params, ','), "t"), LastFor(Split(params, ','), "p"))
    && 0 < row.costs.memory && 0 < row.costs.time && 0 < row.costs.threads <= 255
    && Decode(salt) == Some(row.salt) && Decode(key) == Some(row.key)
  }

  /** The string is that row. */
  ghost predicate IsRow(encoded: string, row: Row) {
    exists head, params, salt, key :: LaidOut(encoded, head, params, salt, key) && Holds(params, salt, key, row)
  }

  lemma FieldsAre(params: string, salt: string, key: string, row: Row)
    ensures (match ReadParams(Split(params, ',')) case None => None case Some(c) => Complete(c, salt, key)) == Some(row)
            <==> Holds(params, salt, key, row)
  {
    ParamsReadAs(Split(params, ','));
  }

  lemma SplitIsLaidOut(encoded: string)
    requires var p := Split(encoded, '$'); |p| == 6 && p[1] == ALGO && p[2] == VersionField()
    ensures var p := Split(encoded, '$'); LaidOut(encoded, p[0], p[3], p[4], p[5])
  {
    var p := Split(encoded, '$');
    SplitIs(encoded, '$');
    JoinedSix(p);
    HeadedIs(p[0], p[3], p[4], p[5]);
    assert p[0] in p && p[3] in p && p[4] in p && p[5] in p;
  }

  /** A string is accepted, and as this row, if and only if it is laid out as a row whose fields hold it. */
  lemma ParsedExactly(encoded: string, row: Row)
    ensures Parsed(encoded) == Some(row) <==> IsRow(encoded, row)
  {
    var p := Split(encoded, '$');
    if Parsed(encoded) == Some(row) {
      SplitIsLaidOut(encoded);
      FieldsAre(p[3], p[4], p[5], row);
      assert LaidOut(encoded, p[0], p[3], p[4], p[5]) && Holds(p[3], p[4], p[5], row);
    }
    if head, params, salt, key :| LaidOut(encoded, head, params, salt, key) && Holds(params, salt, key, row) {
      SplitOfRow(encoded, head, params, salt, key);
      FieldsAre(params, salt, key, row);
    }
  }

  /** A nonempty password verifies if and only if it derives the key of the row that the string is, under that row's salt and
      costs; a string that is no row is an error, and an empty password or string neither. */
  lemma VerifiedExactly(kdf: Kdf, plain: string, encoded: string)
    ensures plain == "" || encoded == "" ==> Verified(kdf, plain, encoded) == Some(false)
    ensures plain != "" && encoded != "" ==> (Verified(kdf, plain, encoded) == None <==> !exists row :: IsRow(encoded, row))
    ensures plain != "" && encoded != "" ==>
              (Verified(kdf, plain, encoded) == Some(true) <==>
                 exists row :: IsRow(encoded, row)
                   && kdf(plain, row.salt, row.costs.time, row.costs.memory, row.costs.threads, |row.key| % 0x1_0000_0000) == row.key)
  {
    forall row: Row ensures IsRow(encoded, row) <==> Parsed(encoded) == Some(row) { ParsedExactly(encoded, row); }
    if Parsed(encoded).Some? { assert IsRow(encoded, Parsed(encoded).value); }
  }
}

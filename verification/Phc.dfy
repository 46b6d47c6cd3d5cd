/** Password rows in PHC string format (internal/password/password.go): the printer, the parser and the comparison.
    The key derivation function is a parameter; strconv, strings.Split and encoding/base64 are written out. */
module Phc {
  import opened Wrappers

  newtype byte = x: int | 0 <= x < 256

  const MEMORY_KIB := 65536
  const TIME_COST := 1
  const THREADS := 4
  const KEY_LEN := 32
  const MAX_UINT32 := 0xFFFF_FFFF

  /** plain, salt, time, memory, threads, key length */
  type Kdf = (string, seq<byte>, nat, nat, nat, nat) -> seq<byte>

  datatype Costs = Costs(memory: nat, time: nat, threads: nat)

  datatype Row = Row(salt: seq<byte>, key: seq<byte>, costs: Costs)

  /** What the three fields of a row can hold: two uint32 and a uint8, none zero. */
  predicate InRange(c: Costs) {
    0 < c.memory <= MAX_UINT32 && 0 < c.time <= MAX_UINT32 && 0 < c.threads <= 255
  }

  // ----- Decimal numbers -----

  function Digit(d: nat): char
    requires d < 10
  {
    ('0' as int + d) as char
  }

  /** %d of a number that is not negative. */
  function Decimal(n: nat): string {
    if n < 10 then [Digit(n)] else Decimal(n / 10) + [Digit(n % 10)]
  }

  predicate IsDigit(c: char) { '0' <= c <= '9' }

  function Value(s: string): nat
    requires forall c | c in s :: IsDigit(c)
  {
    if s == "" then 0 else
      assert IsDigit(s[|s| - 1]) by { assert s[|s| - 1] in s; }
      Value(s[..|s| - 1]) * 10 + (s[|s| - 1] as int - '0' as int)
  }

  /** strconv.ParseUint(s, 10, 32) */
  function ParseUint32(s: string): Option<nat> {
    if s == "" || exists c | c in s :: !IsDigit(c) then None
    else if Value(s) > MAX_UINT32 then None
    else Some(Value(s))
  }

  lemma {:induction false} DecimalReads(n: nat)
    ensures Decimal(n) != "" && (forall c | c in Decimal(n) :: IsDigit(c)) && Value(Decimal(n)) == n
  {
    if n >= 10 {
      DecimalReads(n / 10);
      assert Decimal(n)[..|Decimal(n)| - 1] == Decimal(n / 10);
    } else {
      assert Value(Decimal(n)[..0]) == 0;
    }
  }

  lemma ParseOfDecimal(n: nat)
    ensures ParseUint32(Decimal(n)) == if n <= MAX_UINT32 then Some(n) else None
  {
    DecimalReads(n);
  }

  // ----- Splitting -----

  /** strings.Split at one character */
  function Split(s: string, sep: char): (parts: seq<string>)
    ensures parts != []
  {
    if s == "" then [""]
    else
      var rest := Split(s[1..], sep);
      if s[0] == sep then [""] + rest else [[s[0]] + rest[0]] + rest[1..]
  }

  /** strings.Cut at one character */
  function Cut(s: string, sep: char): Option<(string, string)> {
    if s == "" then None
    else if s[0] == sep then Some(("", s[1..]))
    else match Cut(s[1..], sep)
      case None => None
      case Some((before, after)) => Some(([s[0]] + before, after))
  }

  lemma {:induction false} SplitOne(a: string, sep: char)
    requires sep !in a
    ensures Split(a, sep) == [a]
  {
    if a != "" {
      SplitOne(a[1..], sep);
      assert a == [a[0]] + a[1..];
    }
  }

  lemma {:induction false} SplitFirst(a: string, sep: char, b: string)
    requires sep !in a
    ensures Split(a + [sep] + b, sep) == [a] + Split(b, sep)
  {
    var s := a + [sep] + b;
    if a == "" {
      assert s[1..] == b;
    } else {
      assert s[1..] == a[1..] + [sep] + b;
      SplitFirst(a[1..], sep, b);
      assert a == [a[0]] + a[1..];
    }
  }

  lemma {:induction false} CutFirst(a: string, sep: char, b: string)
    requires sep !in a
    ensures Cut(a + [sep] + b, sep) == Some((a, b))
  {
    var s := a + [sep] + b;
    if a == "" {
      assert s[1..] == b;
    } else {
      assert s[1..] == a[1..] + [sep] + b;
      CutFirst(a[1..], sep, b);
      assert a == [a[0]] + a[1..];
    }
  }

  // ----- Base64 without padding: sections 3.2 and 4 of RFC 4648 -----

  function Letter(v: nat): char
    requires v < 64
  {
    if v < 26 then ('A' as int + v) as char
    else if v < 52 then ('a' as int + v - 26) as char
    else if v < 62 then ('0' as int + v - 52) as char
    else if v == 62 then '+' else '/'
  }

  function Sextet(c: char): Option<nat> {
    if 'A' <= c <= 'Z' then Some(c as int - 'A' as int)
    else if 'a' <= c <= 'z' then Some(c as int - 'a' as int + 26)
    else if '0' <= c <= '9' then Some(c as int - '0' as int + 52)
    else if c == '+' then Some(62) else if c == '/' then Some(63) else None
  }

  /** RawStdEncoding.EncodeToString */
  function Encode(b: seq<byte>): string {
    if |b| == 0 then ""
    else
      var b0 := b[0] as int;
      if |b| == 1 then [Letter(b0 / 4), Letter(b0 % 4 * 16)]
      else
        var b1 := b[1] as int;
        if |b| == 2 then [Letter(b0 / 4), Letter(b0 % 4 * 16 + b1 / 16), Letter(b1 % 16 * 4)]
        else
          Quad(b[0], b[1], b[2]) + Encode(b[3..])
  }

  function Quad(b0: byte, b1: byte, b2: byte): string {
    [Letter(b0 as int / 4), Letter(b0 as int % 4 * 16 + b1 as int / 16), Letter(b1 as int % 16 * 4 + b2 as int / 64),
     Letter(b2 as int % 64)]
  }

  /** Line breaks are skipped. */
  function WithoutBreaks(s: string): string {
    if s == "" then ""
    else (if s[0] == '\r' || s[0] == '\n' then "" else [s[0]]) + WithoutBreaks(s[1..])
  }

  /** Four letters make three bytes; two or three left over make one or two, and their unused bits are ignored. */
  function Octets(s: string): Option<seq<byte>>
    requires forall c | c in s :: Sextet(c).Some?
  {
    if |s| == 0 then Some([])
    else if |s| == 1 then None
    else
      var v0, v1 := Sextet(s[0]).value, Sextet(s[1]).value;
      var first := (v0 * 4 + v1 / 16) as byte;
      if |s| == 2 then Some([first])
      else
        var v2 := Sextet(s[2]).value;
        var second := (v1 % 16 * 16 + v2 / 4) as byte;
        if |s| == 3 then Some([first, second])
        else
          var third := (v2 % 4 * 64 + Sextet(s[3]).value) as byte;
          match Octets(s[4..])
          case None => None
          case Some(rest) => Some([first, second, third] + rest)
  }

  /** RawStdEncoding.DecodeString */
  function Decode(s: string): Option<seq<byte>> {
    var t := WithoutBreaks(s);
    if exists c | c in t :: Sextet(c).None? then None else Octets(t)
  }

  lemma LetterReads(v: nat)
    requires v < 64
    ensures Sextet(Letter(v)) == Some(v)
  {
  }

  lemma {:induction false} EncodeIsLetters(b: seq<byte>)
    ensures forall c | c in Encode(b) :: Sextet(c).Some?
  {
    if |b| > 2 { EncodeIsLetters(b[3..]); }
  }

  lemma Repacked(b0: int, b1: int)
    requires 0 <= b0 < 256 && 0 <= b1 < 256
    ensures 0 <= b0 / 4 < 64 && 0 <= b0 % 4 * 16 + b1 / 16 < 64 && b0 / 4 * 4 + (b0 % 4 * 16 + b1 / 16) / 16 == b0
    ensures (b0 % 4 * 16 + b1 / 16) % 16 * 16 + b1 % 16 == b1
    ensures 0 <= b0 % 16 * 4 + b1 / 64 < 64 && (b0 % 16 * 4 + b1 / 64) / 4 == b0 % 16
    ensures (b0 % 16 * 4 + b1 / 64) % 4 * 64 + b1 % 64 == b1
  {
  }

  /** The values of the four letters, and the bytes they make. */
  lemma QuadValues(b0: byte, b1: byte, b2: byte)
    ensures var q := Quad(b0, b1, b2);
            && Sextet(q[0]).Some? && Sextet(q[1]).Some? && Sextet(q[2]).Some? && Sextet(q[3]).Some?
            && Sextet(q[0]).value * 4 + Sextet(q[1]).value / 16 == b0 as int
            && Sextet(q[1]).value % 16 * 16 + Sextet(q[2]).value / 4 == b1 as int
            && Sextet(q[2]).value % 4 * 64 + Sextet(q[3]).value == b2 as int
  {
    Repacked(b0 as int, b1 as int);
    Repacked(b1 as int, b2 as int);
    LetterReads(b0 as int / 4);
    LetterReads(b0 as int % 4 * 16 + b1 as int / 16);
    LetterReads(b1 as int % 16 * 4 + b2 as int / 64);
    LetterReads(b2 as int % 64);
  }

  /** The bytes behind four letters. */
  lemma FourLetters(b0: byte, b1: byte, b2: byte, rest: string)
    requires forall c | c in Quad(b0, b1, b2) + rest :: Sextet(c).Some?
    requires forall c | c in rest :: Sextet(c).Some?
    ensures Octets(Quad(b0, b1, b2) + rest) ==
              match Octets(rest) case None => None case Some(bytes) => Some([b0, b1, b2] + bytes)
  {
    var q := Quad(b0, b1, b2);
    var s := q + rest;
    QuadValues(b0, b1, b2);
    assert s[4..] == rest && s[0] == q[0] && s[1] == q[1] && s[2] == q[2] && s[3] == q[3];
  }

  lemma {:induction false} OctetsOfEncode(b: seq<byte>)
    requires forall c | c in Encode(b) :: Sextet(c).Some?
    ensures Octets(Encode(b)) == Some(b)
  {
    if |b| > 2 {
      EncodeIsLetters(b[3..]);
      OctetsOfEncode(b[3..]);
      FourLetters(b[0], b[1], b[2], Encode(b[3..]));
      assert b == [b[0], b[1], b[2]] + b[3..];
    } else if |b| == 2 {
      ThreeLetters(b[0], b[1]);
      EncodeOfTwo(b[0], b[1]);
      assert b == [b[0], b[1]];
    } else if |b| == 1 {
      TwoLetters(b[0]);
      assert b == [b[0]];
    }
  }

  lemma EncodeOfTwo(b0: byte, b1: byte)
    ensures Encode([b0, b1]) ==
              [Letter(b0 as int / 4), Letter(b0 as int % 4 * 16 + b1 as int / 16), Letter(b1 as int % 16 * 4)]
  {
  }

  lemma TwoLetters(b0: byte)
    ensures Octets([Letter(b0 as int / 4), Letter(b0 as int % 4 * 16)]) == Some([b0])
  {
    Repacked(b0 as int, 0);
    LetterReads(b0 as int / 4);
    LetterReads(b0 as int % 4 * 16);
  }

  lemma ThreeLetters(b0: byte, b1: byte)
    ensures Octets([Letter(b0 as int / 4), Letter(b0 as int % 4 * 16 + b1 as int / 16), Letter(b1 as int % 16 * 4)]) ==
              Some([b0, b1])
  {
    Repacked(b0 as int, b1 as int);
    Repacked(b1 as int, 0);
    LetterReads(b0 as int / 4);
    LetterReads(b0 as int % 4 * 16 + b1 as int / 16);
    LetterReads(b1 as int % 16 * 4);
  }

  lemma {:induction false} NothingToSkip(s: string)
    requires forall c | c in s :: Sextet(c).Some?
    ensures WithoutBreaks(s) == s
  {
    if s != "" {
      assert s[0] in s;
      NothingToSkip(s[1..]);
    }
  }

  lemma DecodeOfEncode(b: seq<byte>)
    ensures Decode(Encode(b)) == Some(b)
  {
    EncodeIsLetters(b);
    NothingToSkip(Encode(b));
    OctetsOfEncode(b);
  }

  // ----- The row -----

  const ALGO := "argon2id"

  function VersionField(): string { "v=" + Decimal(19) }

  /** The parameters field. */
  function Params(c: Costs): string {
    KeyValue("m", c.memory) + "," + KeyValue("t", c.time) + "," + KeyValue("p", c.threads)
  }

  function KeyValue(k: string, n: nat): string { k + "=" + Decimal(n) }

  /** fmt.Sprintf("$%s$v=%d$m=%d,t=%d,p=%d$%s$%s", ...) with version 19 */
  function Print(row: Row): string {
    Field("", Field(ALGO, Field(VersionField(), Field(Params(row.costs), Field(Encode(row.salt), Encode(row.key))))))
  }

  /** A field, the separator, and the rest of the row. */
  function Field(f: string, rest: string): string { f + ['$'] + rest }

  /** One parameter read into the costs; an unknown key is ignored. */
  function Assigned(c: Costs, k: string, n: nat): Costs {
    if k == "m" then c.(memory := n) else if k == "t" then c.(time := n) else if k == "p" then c.(threads := n) else c
  }

  function ReadParam(c: Costs, kv: string): Option<Costs> {
    match Cut(kv, '=')
    case None => None
    case Some((k, v)) => match ParseUint32(v) case None => None case Some(n) => Some(Assigned(c, k, n))
  }

  function ReadParams(kvs: seq<string>): Option<Costs> {
    if kvs == [] then Some(Costs(0, 0, 0))
    else match ReadParams(kvs[..|kvs| - 1]) case None => None case Some(c) => ReadParam(c, kvs[|kvs| - 1])
  }

  function Complete(c: Costs, salt: string, key: string): Option<Row> {
    if c.memory == 0 || c.time == 0 || c.threads == 0 || c.threads > 255 then None
    else match (Decode(salt), Decode(key))
      case (Some(s), Some(k)) => Some(Row(s, k, c))
      case _ => None
  }

  function Parsed(encoded: string): Option<Row> {
    var parts := Split(encoded, '$');
    if |parts| != 6 || parts[1] != ALGO || parts[2] != VersionField() then None
    else match ReadParams(Split(parts[3], ',')) case None => None case Some(c) => Complete(c, parts[4], parts[5])
  }

  /** uint32(len(want)) */
  function Uint32(n: nat): nat { n % (MAX_UINT32 + 1) }

  /** None is an error. */
  function Verified(kdf: Kdf, plain: string, encoded: string): Option<bool> {
    if plain == "" || encoded == "" then Some(false)
    else match Parsed(encoded)
      case None => None
      case Some(row) =>
        Some(kdf(plain, row.salt, row.costs.time, row.costs.memory, row.costs.threads, Uint32(|row.key|)) == row.key)
  }

  method ParsePHC(encoded: string) returns (r: Option<Row>)
    ensures r == Parsed(encoded)
  {
    var parts := Split(encoded, '$');
    if |parts| != 6 || parts[1] != ALGO {
      return None;
    }
    if parts[2] != VersionField() {
      return None;
    }
    var memory, timeCost, p: nat := 0, 0, 0;
    var kvs := Split(parts[3], ',');
    for i := 0 to |kvs|
      invariant ReadParams(kvs[..i]) == Some(Costs(memory, timeCost, p))
    {
      assert kvs[..i + 1][..i] == kvs[..i];
      var cut := Cut(kvs[i], '=');
      if cut.None? {
        StaysUnread(kvs, i + 1);
        return None;
      }
      var (k, v) := cut.value;
      var n := ParseUint32(v);
      if n.None? {
        StaysUnread(kvs, i + 1);
        return None;
      }
      if k == "m" {
        memory := n.value;
      } else if k == "t" {
        timeCost := n.value;
      } else if k == "p" {
        p := n.value;
      }
    }
    assert kvs[..|kvs|] == kvs;
    if memory == 0 || timeCost == 0 || p == 0 || p > 255 {
      return None;
    }
    var salt := Decode(parts[4]);
    if salt.None? {
      return None;
    }
    var key := Decode(parts[5]);
    if key.None? {
      return None;
    }
    r := Some(Row(salt.value, key.value, Costs(memory, timeCost, p)));
  }

  /** A parameter list that fails to read fails however it goes on. */
  lemma {:induction false} StaysUnread(kvs: seq<string>, i: nat)
    requires i <= |kvs| && ReadParams(kvs[..i]) == None
    ensures ReadParams(kvs) == None
    decreases |kvs| - i
  {
    if i < |kvs| {
      assert kvs[..i + 1][..i] == kvs[..i];
      StaysUnread(kvs, i + 1);
    } else {
      assert kvs[..i] == kvs;
    }
  }

  method Verify(kdf: Kdf, plain: string, encoded: string) returns (r: Option<bool>)
    ensures r == Verified(kdf, plain, encoded)
  {
    if plain == "" || encoded == "" {
      return Some(false);
    }
    var row := ParsePHC(encoded);
    if row.None? {
      return None;
    }
    var got := kdf(plain, row.value.salt, row.value.costs.time, row.value.costs.memory, row.value.costs.threads, Uint32(|row.value.key|));
    r := Some(got == row.value.key);
  }

  // ----- Round trips -----

  /** The parser reads back what was printed: all salts, all keys, all costs in range; and nothing out of range. */
  lemma ParsedOfPrint(row: Row)
    ensures Parsed(Print(row)) == if InRange(row.costs) then Some(row) else None
  {
    SplitOfPrint(row);
    ReadParamsOfPrint(row.costs);
    DecodeOfEncode(row.salt);
    DecodeOfEncode(row.key);
  }

  /** Neither digits nor letters of the base64 alphabet separate anything. */
  lemma PlainField(s: string)
    requires (forall c | c in s :: IsDigit(c)) || (forall c | c in s :: Sextet(c).Some?)
    ensures '$' !in s && ',' !in s && '=' !in s
  {
  }

  lemma DecimalIsPlain(n: nat)
    ensures '$' !in Decimal(n) && ',' !in Decimal(n) && '=' !in Decimal(n)
  {
    DecimalReads(n);
    PlainField(Decimal(n));
  }

  lemma ParamsHaveNoDollar(c: Costs)
    ensures '$' !in Params(c)
  {
    DecimalIsPlain(c.memory);
    DecimalIsPlain(c.time);
    DecimalIsPlain(c.threads);
  }

  lemma SplitFields(a: string, b: string, c: string, d: string, e: string)
    requires '$' !in a && '$' !in b && '$' !in c && '$' !in d && '$' !in e
    ensures Split(Field("", Field(a, Field(b, Field(c, Field(d, e))))), '$') == ["", a, b, c, d, e]
  {
    var last := Field(c, Field(d, e));
    SplitFirst("", '$', Field(a, Field(b, last)));
    SplitFirst(a, '$', Field(b, last));
    SplitFirst(b, '$', last);
    SplitThree(c, d, e);
  }

  lemma SplitThree(c: string, d: string, e: string)
    requires '$' !in c && '$' !in d && '$' !in e
    ensures Split(Field(c, Field(d, e)), '$') == [c, d, e]
  {
    SplitFirst(c, '$', Field(d, e));
    SplitFirst(d, '$', e);
    SplitOne(e, '$');
  }

  lemma SplitOfPrint(row: Row)
    ensures Split(Print(row), '$') == ["", ALGO, VersionField(), Params(row.costs), Encode(row.salt), Encode(row.key)]
  {
    var salt, key, params, v := Encode(row.salt), Encode(row.key), Params(row.costs), VersionField();
    EncodeIsLetters(row.salt);
    EncodeIsLetters(row.key);
    PlainField(salt);
    PlainField(key);
    ParamsHaveNoDollar(row.costs);
    DecimalIsPlain(19);
    SplitFields(ALGO, v, params, salt, key);
  }

  lemma ReadThree(m: string, t: string, p: string)
    ensures ReadParams([m, t, p]) ==
              match ReadParam(Costs(0, 0, 0), m)
              case None => None
              case Some(a) => match ReadParam(a, t) case None => None case Some(b) => ReadParam(b, p)
  {
    assert [m][..0] == [] && [m, t][..1] == [m] && [m, t, p][..2] == [m, t];
    assert ReadParams([]) == Some(Costs(0, 0, 0));
    assert ReadParams([m]) == ReadParam(Costs(0, 0, 0), m);
    var two := ReadParams([m, t]);
    assert two == match ReadParam(Costs(0, 0, 0), m) case None => None case Some(a) => ReadParam(a, t);
  }

  lemma ReadParamsOfPrint(c: Costs)
    ensures ReadParams(Split(Params(c), ',')) ==
              if c.memory <= MAX_UINT32 && c.time <= MAX_UINT32 && c.threads <= MAX_UINT32 then Some(c) else None
  {
    SplitOfParams(c);
    ReadThree(KeyValue("m", c.memory), KeyValue("t", c.time), KeyValue("p", c.threads));
    ReadOfPrint(Costs(0, 0, 0), "m", c.memory);
    ReadOfPrint(Costs(c.memory, 0, 0), "t", c.time);
    ReadOfPrint(Costs(c.memory, c.time, 0), "p", c.threads);
  }

  lemma SplitOfParams(c: Costs)
    ensures Split(Params(c), ',') == [KeyValue("m", c.memory), KeyValue("t", c.time), KeyValue("p", c.threads)]
  {
    var m, t, p := KeyValue("m", c.memory), KeyValue("t", c.time), KeyValue("p", c.threads);
    DecimalIsPlain(c.memory);
    DecimalIsPlain(c.time);
    DecimalIsPlain(c.threads);
    assert Params(c) == m + [','] + (t + [','] + p);
    SplitFirst(m, ',', t + [','] + p);
    SplitFirst(t, ',', p);
    SplitOne(p, ',');
  }

  lemma ReadOfPrint(c: Costs, k: string, n: nat)
    requires '=' !in k
    ensures ReadParam(c, KeyValue(k, n)) == if n <= MAX_UINT32 then Some(Assigned(c, k, n)) else None
  {
    CutFirst(k, '=', Decimal(n));
    ParseOfDecimal(n);
  }

  /** A row verifies exactly the nonempty passwords that derive its key under the costs it was written with. */
  lemma VerifiesExactly(kdf: Kdf, plain: string, row: Row)
    requires InRange(row.costs)
    ensures Verified(kdf, plain, Print(row)) ==
              Some(plain != "" && kdf(plain, row.salt, row.costs.time, row.costs.memory, row.costs.threads, Uint32(|row.key|)) == row.key)
  {
    ParsedOfPrint(row);
  }

  /** A fresh row verifies its own password, under any key derivation that gives keys of the requested length, and any
      costs in range: raising the constants later does not invalidate the rows already written. */
  lemma HashVerifies(kdf: Kdf, plain: string, salt: seq<byte>, costs: Costs, keyLen: nat)
    requires plain != "" && InRange(costs) && keyLen <= MAX_UINT32
    requires |kdf(plain, salt, costs.time, costs.memory, costs.threads, keyLen)| == keyLen
    ensures Verified(kdf, plain, Print(Row(salt, kdf(plain, salt, costs.time, costs.memory, costs.threads, keyLen), costs))) == Some(true)
  {
    var key := kdf(plain, salt, costs.time, costs.memory, costs.threads, keyLen);
    assert Uint32(|key|) == keyLen;
    VerifiesExactly(kdf, plain, Row(salt, key, costs));
  }

  lemma Regrouped(a: string, b: string, c: string)
    ensures a + (b + c) == a + b + c
  {
  }

  /** A field in front of a row whose head is given. */
  lemma FieldInFront(f: string, head: string, rest: string)
    ensures Field(f, head + rest) == f + "$" + head + rest
  {
    Regrouped(f + "$", head, rest);
  }

  /** The fixed head of a row. */
  const HEAD := "$argon2id$v=19$"

  lemma HeadIs(rest: string)
    ensures Field("", Field(ALGO, Field(VersionField(), rest))) == HEAD + rest
  {
    assert Decimal(19) == Decimal(1) + [Digit(9)] == "19" && VersionField() == "v=19";
    FieldInFront(ALGO, "v=19$", rest);
    assert ALGO + "$" + "v=19$" == "argon2id$v=19$";
    FieldInFront("", "argon2id$v=19$", rest);
    assert "" + "$" + "argon2id$v=19$" == HEAD;
  }

  lemma KeyValuesAre(m: nat, t: nat, p: nat)
    ensures KeyValue("m", m) == "m=" + Decimal(m) && KeyValue("t", t) == "t=" + Decimal(t) && KeyValue("p", p) == "p=" + Decimal(p)
  {
    assert "m" + "=" == "m=" && "t" + "=" == "t=" && "p" + "=" == "p=";
  }

  /** The layout of a printed row. */
  lemma PrintIs(row: Row)
    ensures Print(row) == "$argon2id$v=19$" + ("m=" + Decimal(row.costs.memory) + "," + ("t=" + Decimal(row.costs.time)) + ","
                          + ("p=" + Decimal(row.costs.threads)) + "$" + (Encode(row.salt) + "$" + Encode(row.key)))
  {
    KeyValuesAre(row.costs.memory, row.costs.time, row.costs.threads);
    HeadIs(Field(Params(row.costs), Field(Encode(row.salt), Encode(row.key))));
  }

  lemma HashIs(salt: seq<byte>, key: seq<byte>)
    ensures Print(Row(salt, key, Costs(MEMORY_KIB, TIME_COST, THREADS))) ==
              "$argon2id$v=19$" + ("m=65536,t=1,p=4" + "$" + (Encode(salt) + "$" + Encode(key)))
  {
    PrintIs(Row(salt, key, Costs(MEMORY_KIB, TIME_COST, THREADS)));
    DecimalOfMemory();
    assert "m=" + "65536" + "," + ("t=" + "1") + "," + ("p=" + "4") == "m=65536,t=1,p=4";
  }

  lemma DecimalOfMemory()
    ensures Decimal(65536) == "65536" && Decimal(1) == "1" && Decimal(4) == "4"
  {
    assert Decimal(6) == "6";
    assert Decimal(65) == Decimal(6) + [Digit(5)] == "65";
    assert Decimal(655) == Decimal(65) + [Digit(5)] == "655";
    assert Decimal(6553) == Decimal(655) + [Digit(3)] == "6553";
    assert Decimal(65536) == Decimal(6553) + [Digit(6)] == "65536";
  }

  /** salt is what the random source returned. The row parses back to the salt, the derived key and the constants, and
      verifies the password it was made from. */
  method Hash(kdf: Kdf, plain: string, salt: seq<byte>) returns (r: Result<string>)
    ensures r.Err? <==> plain == ""
    ensures r.Ok? ==> var key := kdf(plain, salt, TIME_COST, MEMORY_KIB, THREADS, KEY_LEN);
                      && Parsed(r.value) == Some(Row(salt, key, Costs(MEMORY_KIB, TIME_COST, THREADS)))
                      && r.value == "$argon2id$v=19$" + ("m=65536,t=1,p=4" + "$" + (Encode(salt) + "$" + Encode(key)))
                      && (|key| == KEY_LEN ==> Verified(kdf, plain, r.value) == Some(true))
  {
    if plain == "" {
      return Err(Invalid);
    }
    var sum := kdf(plain, salt, TIME_COST, MEMORY_KIB, THREADS, KEY_LEN);
    r := Ok(Print(Row(salt, sum, Costs(MEMORY_KIB, TIME_COST, THREADS))));
    ParsedOfPrint(Row(salt, sum, Costs(MEMORY_KIB, TIME_COST, THREADS)));
    HashIs(salt, sum);
    if |sum| == KEY_LEN { HashVerifies(kdf, plain, salt, Costs(MEMORY_KIB, TIME_COST, THREADS), KEY_LEN); }
  }

  // ----- What else is accepted -----

  /** The last number given for a key; 0 if none is. */
  function LastFor(kvs: seq<string>, k: string): nat {
    if kvs == [] then 0
    else match Cut(kvs[|kvs| - 1], '=')
      case Some((key, v)) => if key == k && ParseUint32(v).Some? then ParseUint32(v).value else LastFor(kvs[..|kvs| - 1], k)
      case None => LastFor(kvs[..|kvs| - 1], k)
  }

  /** key=number */
  predicate WellFormed(kv: string) { Cut(kv, '=').Some? && ParseUint32(Cut(kv, '=').value.1).Some? }

  /** Parameters are accepted in any order, with unknown keys among them, and the last one for a key counts. */
  lemma {:induction false} ParamsReadAs(kvs: seq<string>)
    ensures ReadParams(kvs) == if forall kv | kv in kvs :: WellFormed(kv)
                               then Some(Costs(LastFor(kvs, "m"), LastFor(kvs, "t"), LastFor(kvs, "p"))) else None
    decreases |kvs|
  {
    if kvs != [] {
      var init, last := kvs[..|kvs| - 1], kvs[|kvs| - 1];
      ParamsReadAs(init);
      assert kvs == init + [last];
      assert last in kvs;
    }
  }

  /** What is accepted is in range. */
  lemma ParsedIsInRange(encoded: string)
    ensures Parsed(encoded).Some? ==> InRange(Parsed(encoded).value.costs)
  {
    var parts := Split(encoded, '$');
    if |parts| == 6 { ParamsBounded(Split(parts[3], ',')); }
  }

  lemma {:induction false} ParamsBounded(kvs: seq<string>)
    ensures ReadParams(kvs).Some? ==> ReadParams(kvs).value.memory <= MAX_UINT32 && ReadParams(kvs).value.time <= MAX_UINT32
    decreases |kvs|
  {
    if kvs != [] { ParamsBounded(kvs[..|kvs| - 1]); }
  }
}

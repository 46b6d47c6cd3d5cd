/** Scope strings (internal/oauth/scope.go). */
module Scopes {
  import opened Wrappers
  import opened Sorting

  const ALLOWED: set<string> := {"openid", "profile", "email", "offline_access", "org"}

  datatype ScopeError = Blank | Unsupported(name: string) | OpenidMissing
  datatype Outcome = Granted(scopes: seq<string>) | Rejected(reason: ScopeError)

  /** unicode.IsSpace */
  predicate IsSpace(c: char) {
    || c in {'\t', '\n', '\U{000B}', '\U{000C}', '\r', ' ', '\U{0085}', '\U{00A0}', '\U{1680}'}
    || '\U{2000}' <= c <= '\U{200A}'
    || c in {'\U{2028}', '\U{2029}', '\U{202F}', '\U{205F}', '\U{3000}'}
  }

  predicate IsBlank(raw: string) { forall c | c in raw :: IsSpace(c) }

  /** strings.Fields: word holds the letters of the field being read. */
  function FieldsFrom(word: string, rest: string): seq<string>
    decreases |rest|
  {
    if rest == [] then (if word == [] then [] else [word])
    else if IsSpace(rest[0]) then (if word == [] then [] else [word]) + FieldsFrom([], rest[1..])
    else FieldsFrom(word + [rest[0]], rest[1..])
  }

  function Fields(raw: string): seq<string> { FieldsFrom([], raw) }

  /** strings.Join(list, " ") */
  function JoinSpace(list: seq<string>): string {
    if list == [] then [] else if |list| == 1 then list[0] else list[0] + " " + JoinSpace(list[1..])
  }

  /** Keeps the first occurrence of every name that is not already in out. */
  function DedupOnto(out: seq<string>, names: seq<string>): seq<string>
    decreases |names|
  {
    if names == [] then out
    else DedupOnto(if names[0] in out then out else out + [names[0]], names[1..])
  }

  /** The first name that is not allowed. */
  function FirstUnknown(names: seq<string>): Option<string> {
    if names == [] then None else if names[0] !in ALLOWED then Some(names[0]) else FirstUnknown(names[1..])
  }

  function Normalize(raw: string, requireOpenid: bool): Outcome {
    var names := Fields(raw);
    if IsBlank(raw) then Rejected(Blank)
    else match FirstUnknown(names)
      case Some(name) => Rejected(Unsupported(name))
      case None =>
        if requireOpenid && "openid" !in names then Rejected(OpenidMissing)
        else Granted(Sort(AtMost, DedupOnto([], names)))
  }

  ghost predicate Canonical(scopes: seq<string>) {
    StrictlySorted(scopes) && Elements(scopes) <= ALLOWED
  }

  method NormalizeScopes(raw: string, requireOpenid: bool) returns (r: Outcome)
    ensures r == Normalize(raw, requireOpenid)
  {
    if IsBlank(raw) {
      return Rejected(Blank);
    }
    var names := Fields(raw);
    var seen: set<string> := {};
    var out: seq<string> := [];
    for i := 0 to |names|
      invariant seen == Elements(out)
      invariant forall x :: x in out <==> x in names[..i]
      invariant DedupOnto(out, names[i..]) == DedupOnto([], names)
      invariant FirstUnknown(names[i..]) == FirstUnknown(names)
    {
      var s := names[i];
      if s !in ALLOWED {
        return Rejected(Unsupported(s));
      }
      assert names[i..][1..] == names[i + 1..];
      if s in seen {
        continue;
      }
      seen := seen + {s};
      out := out + [s];
    }
    if requireOpenid && "openid" !in seen {
      return Rejected(OpenidMissing);
    }
    r := Granted(Sort(AtMost, out));
  }

  /** Contains */
  method Contains(scopes: seq<string>, name: string) returns (found: bool)
    ensures found <==> name in scopes
  {
    for i := 0 to |scopes|
      invariant name !in scopes[..i]
    {
      if scopes[i] == name {
        return true;
      }
    }
    found := false;
  }

  lemma {:induction false} DedupElements(out: seq<string>, names: seq<string>)
    requires NoDuplicates(out)
    ensures NoDuplicates(DedupOnto(out, names))
    ensures Elements(DedupOnto(out, names)) == Elements(out) + Elements(names)
    decreases |names|
  {
    if names != [] {
      var next := if names[0] in out then out else out + [names[0]];
      DedupElements(next, names[1..]);
      assert names == [names[0]] + names[1..];
    }
  }

  lemma {:induction false} FirstUnknownNone(names: seq<string>)
    ensures FirstUnknown(names).None? <==> Elements(names) <= ALLOWED
  {
    if names != [] {
      FirstUnknownNone(names[1..]);
      assert names == [names[0]] + names[1..];
      assert names[0] in Elements(names);
      assert Elements(names) == {names[0]} + Elements(names[1..]);
    }
  }

  lemma {:induction false} BlankHasNoFields(word: string, raw: string)
    ensures FieldsFrom(word, raw) == [] <==> word == [] && IsBlank(raw)
    decreases |raw|
  {
    if raw != [] {
      assert raw == [raw[0]] + raw[1..];
      BlankHasNoFields([], raw[1..]);
      BlankHasNoFields(word + [raw[0]], raw[1..]);
    }
  }

  /** Exactly when a scope string is accepted, and what the granted list is. */
  lemma NormalizeGrants(raw: string, requireOpenid: bool)
    ensures Normalize(raw, requireOpenid).Granted? <==>
              && Fields(raw) != []
              && Elements(Fields(raw)) <= {"openid", "profile", "email", "offline_access", "org"}
              && (requireOpenid ==> "openid" in Fields(raw))
    ensures var r := Normalize(raw, requireOpenid);
            r.Granted? ==> Canonical(r.scopes) && Elements(r.scopes) == Elements(Fields(raw))
  {
    BlankHasNoFields([], raw);
    FirstUnknownNone(Fields(raw));
    DedupElements([], Fields(raw));
    SortOfDistinct(DedupOnto([], Fields(raw)));
  }

  /** The outcome depends on the set of names alone: not on order, repetition or white space. */
  lemma NormalizeDependsOnSet(raw0: string, raw1: string, requireOpenid: bool)
    requires Elements(Fields(raw0)) == Elements(Fields(raw1))
    requires Normalize(raw0, requireOpenid).Granted?
    ensures Normalize(raw1, requireOpenid) == Normalize(raw0, requireOpenid)
  {
    NormalizeGrants(raw0, requireOpenid);
    NormalizeGrants(raw1, requireOpenid);
    assert Fields(raw0)[0] in Elements(Fields(raw1));
    assert "openid" in Elements(Fields(raw0)) <==> "openid" in Elements(Fields(raw1));
    StrictlySortedUnique(Normalize(raw0, requireOpenid).scopes, Normalize(raw1, requireOpenid).scopes);
  }

  ghost predicate IsWord(w: string) { w != [] && forall c | c in w :: !IsSpace(c) }

  lemma {:induction false} FieldsOfWord(word: string, w: string, rest: string)
    requires forall c | c in w :: !IsSpace(c)
    ensures FieldsFrom(word, w + rest) == FieldsFrom(word + w, rest)
    decreases |w|
  {
    if w == [] {
      assert w + rest == rest && word + w == word;
    } else {
      FieldsOfWord(word + [w[0]], w[1..], rest);
      assert (w + rest)[1..] == w[1..] + rest;
      assert word + [w[0]] + w[1..] == word + w;
    }
  }

  lemma {:induction false} FieldsOfJoin(list: seq<string>)
    requires forall w | w in list :: IsWord(w)
    ensures Fields(JoinSpace(list)) == list
  {
    if list != [] {
      assert IsWord(list[0]);
      assert [] + list[0] == list[0];
    }
    if |list| == 1 {
      FieldsOfWord([], list[0], []);
      assert list[0] + [] == list[0];
    } else if list != [] {
      var tail := JoinSpace(list[1..]);
      FieldsOfJoin(list[1..]);
      FieldsOfWord([], list[0], " " + tail);
      assert list[0] + " " + tail == list[0] + (" " + tail);
      assert (" " + tail)[1..] == tail;
    }
  }

  lemma AllowedAreWords()
    ensures forall w | w in ALLOWED :: IsWord(w)
  {
  }

  /** The "scope" member of a token response names exactly the granted list. */
  lemma ScopeStringRoundTrip(raw: string, requireOpenid: bool)
    requires Normalize(raw, requireOpenid).Granted?
    ensures var granted := Normalize(raw, requireOpenid).scopes;
            Fields(JoinSpace(granted)) == granted && Normalize(JoinSpace(granted), requireOpenid) == Granted(granted)
  {
    var granted := Normalize(raw, requireOpenid).scopes;
    NormalizeGrants(raw, requireOpenid);
    AllowedAreWords();
    assert forall w | w in granted :: w in Elements(granted);
    FieldsOfJoin(granted);
    NormalizeDependsOnSet(raw, JoinSpace(granted), requireOpenid);
  }
}

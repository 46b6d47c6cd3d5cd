/** The sliding-window login limiter (internal/ratelimit/limiter.go). Slices share backing arrays as in Go:
    prune compacts a slice in place, and append writes past its length while there is room. */
module RateLimit {
  import opened Wrappers

  type Time = int

  /** A Go slice that starts at the beginning of its backing array. */
  datatype Slice = Slice(data: array<Time>, len: nat)

  // ----- Lists of instants -----

  /** The instants later than cut. */
  function After(times: seq<Time>, cut: Time): seq<Time> {
    if times == [] then []
    else After(times[..|times| - 1], cut) + (if times[|times| - 1] > cut then [times[|times| - 1]] else [])
  }

  lemma AfterStep(times: seq<Time>, t: Time, cut: Time)
    ensures After(times + [t], cut) == After(times, cut) + (if t > cut then [t] else [])
  {
    assert (times + [t])[..|times|] == times;
  }

  lemma {:induction false} AfterAfter(times: seq<Time>, cut: Time, later: Time)
    requires cut <= later
    ensures After(After(times, cut), later) == After(times, later)
  {
    if times != [] {
      var init, t := times[..|times| - 1], times[|times| - 1];
      AfterAfter(init, cut, later);
      if t > cut { AfterStep(After(init, cut), t, later); }
      assert After(init, cut) + [] == After(init, cut);
    }
  }

  lemma {:induction false} AfterBounds(times: seq<Time>, cut: Time)
    ensures |After(times, cut)| <= |times|
  {
    if times != [] { AfterBounds(times[..|times| - 1], cut); }
  }

  /** What prune leaves of the stored lists. */
  function Pruned(lists: map<string, seq<Time>>, key: string, cut: Time): map<string, seq<Time>> {
    if key !in lists then lists
    else
      var kept := After(lists[key], cut);
      if kept == [] then lists - {key} else lists[key := kept]
  }

  function ListOf(lists: map<string, seq<Time>>, key: string): seq<Time> { if key in lists then lists[key] else [] }

  /** Keeps the instants of a later than cut, in order, at the front of the same array. */
  method Compact(a: array<Time>, len: nat, cut: Time) returns (n: nat)
    requires len <= a.Length
    modifies a
    ensures n <= len && a[..n] == After(old(a[..len]), cut)
  {
    n := 0;
    for i := 0 to len
      invariant n <= i && a[..n] == After(old(a[..i]), cut)
      invariant a[i..len] == old(a[i..len])
    {
      var t := a[i];
      assert t == old(a[i]) by { assert a[i..len][0] == t; }
      assert old(a[..i + 1]) == old(a[..i]) + [t];
      AfterStep(old(a[..i]), t, cut);
      ghost var before := a[..n];
      if t > cut {
        a[n] := t;
        n := n + 1;
        assert a[..n] == before + [t];
      }
      assert a[i + 1..len] == old(a[i + 1..len]);
    }
  }

  /** Go's append on one slice: in place while the array has room, else in a new array. */
  method Append(s: Slice, t: Time) returns (s': Slice)
    requires s.len <= s.data.Length
    modifies s.data
    ensures s'.len == s.len + 1 <= s'.data.Length && s'.data[..s'.len] == old(s.data[..s.len]) + [t]
    ensures s'.data == s.data || fresh(s'.data)
  {
    if s.len < s.data.Length {
      s.data[s.len] := t;
      s' := Slice(s.data, s.len + 1);
    } else {
      var data := new Time[2 * s.len + 1];
      for i := 0 to s.len
        invariant data[..i] == s.data[..i]
        invariant s.data[..s.len] == old(s.data[..s.len])
      {
        data[i] := s.data[i];
        assert data[..i + 1] == data[..i] + [data[i]] && s.data[..i + 1] == s.data[..i] + [s.data[i]];
      }
      data[s.len] := t;
      s' := Slice(data, s.len + 1);
      assert data[..s.len + 1] == data[..s.len] + [t];
    }
  }

  class Limiter {
    var hits: map<string, Slice>
    const window: int
    const max: nat
    /** The lists the slices hold, and whose slice is in each array. */
    ghost var lists: map<string, seq<Time>>
    ghost var owner: map<array<Time>, string>

    /** The slice of k is in an array of its own and holds the list of k. */
    ghost predicate SliceOk(k: string)
      reads this, owner.Keys
    {
      && k in hits && k in lists && hits[k].data in owner && owner[hits[k].data] == k
      && 0 < hits[k].len <= hits[k].data.Length && hits[k].data[..hits[k].len] == lists[k]
    }

    /** All slices but that of one key are as they should be. */
    ghost predicate ShapeBut(except: Option<string>)
      reads this, owner.Keys
    {
      && max > 0 && window > 0 && hits.Keys == lists.Keys
      && forall k | k in hits && except != Some(k) :: SliceOk(k)
    }

    ghost predicate Shape()
      reads this, owner.Keys
    {
      ShapeBut(None)
    }

    /** New: a nonpositive maximum or window takes its default (a minute, in nanoseconds). */
    constructor (maximum: int, win: int)
      ensures Shape() && lists == map[] && owner == map[]
      ensures max == (if maximum <= 0 then 5 else maximum) && window == (if win <= 0 then 60_000_000_000 else win)
    {
      max := if maximum <= 0 then 5 else maximum;
      window := if win <= 0 then 60_000_000_000 else win;
      hits, lists, owner := map[], map[], map[];
    }

    /** Makes s the slice of key. */
    method Put(key: string, s: Slice)
      requires ShapeBut(Some(key)) && 0 < s.len <= s.data.Length
      requires s.data !in owner || owner[s.data] == key
      modifies this`hits, this`lists, this`owner
      ensures Shape() && owner == old(owner)[s.data := key]
      ensures lists == old(lists)[key := s.data[..s.len]]
    {
      owner, hits, lists := owner[s.data := key], hits[key := s], lists[key := s.data[..s.len]];
      forall k | k in hits ensures SliceOk(k) {
        if k != key { assert old(SliceOk(k)) && hits[k] == old(hits[k]) && lists[k] == old(lists[k]); }
      }
    }

    method Drop(key: string)
      requires ShapeBut(Some(key))
      modifies this`hits, this`lists
      ensures Shape() && lists == old(lists) - {key}
    {
      hits, lists := hits - {key}, lists - {key};
      assert forall k | k in hits :: old(SliceOk(k));
    }

    method Prune(key: string, now: Time) returns (out: Option<Slice>)
      requires Shape()
      modifies this`hits, this`lists, this`owner, owner.Keys
      ensures Shape() && lists == Pruned(old(lists), key, now - window) && owner.Keys == old(owner.Keys)
      ensures out == if key in hits then Some(hits[key]) else None
    {
      var cut := now - window;
      if key !in hits {
        return None;
      }
      var s := hits[key];
      assert SliceOk(key);
      var n := Compact(s.data, s.len, cut);
      forall k | k in hits && k != key ensures SliceOk(k) { assert old(SliceOk(k)) && hits[k].data != s.data; }
      if n == 0 {
        Drop(key);
        return None;
      }
      Put(key, Slice(s.data, n));
      out := Some(hits[key]);
    }

    method Limited(key: string, now: Time) returns (limited: bool)
      requires Shape()
      modifies this`hits, this`lists, this`owner, owner.Keys
      ensures Shape() && owner.Keys == old(owner.Keys) && lists == Called(old(lists), window, Call.Limited(key, now))
      ensures limited <==> |ListOf(lists, key)| >= max
    {
      var out := Prune(key, now);
      assert out.Some? ==> SliceOk(key);
      limited := (if out.Some? then out.value.len else 0) >= max;
    }

    /** Failure: now is read before prune reads the clock again, at later. */
    method Failure(key: string, now: Time, later: Time)
      requires Shape()
      modifies this`hits, this`lists, this`owner, owner.Keys
      ensures Shape() && fresh(owner.Keys - old(owner.Keys))
      ensures lists == Called(old(lists), window, Call.Failure(key, now, later))
    {
      var out := Prune(key, later);
      Push(key, out, now);
    }

    /** l.hits[key] = append(s, t), where s is the slice of key. */
    method Push(key: string, s: Option<Slice>, t: Time)
      requires Shape() && s == if key in hits then Some(hits[key]) else None
      modifies this`hits, this`lists, this`owner, owner.Keys
      ensures Shape() && lists == old(lists)[key := ListOf(old(lists), key) + [t]] && fresh(owner.Keys - old(owner.Keys))
    {
      if s.None? {
        var data := new Time[1];
        data[0] := t;
        assert data[..1] == [t] && [] + [t] == [t];
        assert forall k | k in hits && k != key :: old(SliceOk(k));
        Put(key, Slice(data, 1));
      } else {
        assert SliceOk(key);
        var s' := Append(s.value, t);
        assert forall k | k in hits && k != key :: old(SliceOk(k));
        Put(key, s');
      }
    }

    method Success(key: string)
      requires Shape()
      modifies this`hits, this`lists
      ensures Shape() && lists == Called(old(lists), window, Call.Success(key))
    {
      Drop(key);
    }
  }

  /** Failure on the stored lists: the prune, then the new instant. */
  function Failed(lists: map<string, seq<Time>>, key: string, at: Time, cut: Time): map<string, seq<Time>> {
    Pruned(lists, key, cut)[key := ListOf(Pruned(lists, key, cut), key) + [at]]
  }

  // ----- The limiter refines the whole history -----

  /** A call and its clock readings; Failure reads the clock twice. */
  datatype Call = Limited(key: string, at: Time) | Failure(key: string, at: Time, later: Time) | Success(key: string)

  /** What a call leaves of the stored lists: the contracts of the methods. */
  function Called(lists: map<string, seq<Time>>, window: int, c: Call): map<string, seq<Time>> {
    match c
    case Limited(key, at) => Pruned(lists, key, at - window)
    case Failure(key, at, later) => Failed(lists, key, at, later - window)
    case Success(key) => lists - {key}
  }

  function Stored(calls: seq<Call>, window: int): map<string, seq<Time>> {
    if calls == [] then map[] else Called(Stored(calls[..|calls| - 1], window), window, calls[|calls| - 1])
  }

  function Recorded(history: seq<Time>, key: string, c: Call): seq<Time> {
    if c.key != key || c.Limited? then history else if c.Success? then [] else history + [c.at]
  }

  /** The failures of a key since its last success, oldest first: nothing is ever forgotten. */
  function Failures(calls: seq<Call>, key: string): seq<Time> {
    if calls == [] then [] else Recorded(Failures(calls[..|calls| - 1], key), key, calls[|calls| - 1])
  }

  /** The clock readings of the calls do not decrease, and none is later than now. */
  ghost predicate ClockUpTo(calls: seq<Call>, now: Time) {
    calls == [] ||
    match calls[|calls| - 1]
    case Limited(_, at) => at <= now && ClockUpTo(calls[..|calls| - 1], at)
    case Failure(_, at, later) => at <= later <= now && ClockUpTo(calls[..|calls| - 1], at)
    case Success(_) => ClockUpTo(calls[..|calls| - 1], now)
  }

  /** The stored list answers every window question from cut on as the whole history would. */
  ghost predicate Agrees(stored: seq<Time>, history: seq<Time>, cut: Time) {
    forall c | c >= cut :: After(stored, c) == After(history, c)
  }

  lemma PrunedAgrees(stored: seq<Time>, history: seq<Time>, cut: Time)
    requires Agrees(stored, history, cut)
    ensures Agrees(After(stored, cut), history, cut)
  {
    forall c | c >= cut ensures After(After(stored, cut), c) == After(history, c) { AfterAfter(stored, cut, c); }
  }

  lemma AppendAgrees(stored: seq<Time>, history: seq<Time>, t: Time, cut: Time)
    requires Agrees(stored, history, cut)
    ensures Agrees(stored + [t], history + [t], cut)
  {
    forall c | c >= cut ensures After(stored + [t], c) == After(history + [t], c) {
      AfterStep(stored, t, c);
      AfterStep(history, t, c);
    }
  }

  lemma AgreesLater(stored: seq<Time>, history: seq<Time>, cut: Time, later: Time)
    requires Agrees(stored, history, cut) && cut <= later
    ensures Agrees(stored, history, later)
  {
  }

  /** One call keeps the list and the history of a key in agreement, from its reading of the clock on. */
  lemma CallAgrees(lists: map<string, seq<Time>>, history: seq<Time>, window: int, c: Call, key: string, reading: Time)
    requires Agrees(ListOf(lists, key), history, reading - window)
    requires (c.Limited? ==> reading == c.at) && (c.Failure? ==> reading == c.later)
    ensures Agrees(ListOf(Called(lists, window, c), key), Recorded(history, key, c), reading - window)
  {
    var cut, stored := reading - window, ListOf(lists, key);
    CalledList(lists, window, c, key);
    if c.key != key {
      assert Recorded(history, key, c) == history;
    } else {
      PrunedAgrees(stored, history, cut);
      match c
      case Limited(_, at) => assert ListOf(Called(lists, window, c), key) == After(stored, cut);
      case Failure(_, at, later) => AppendAgrees(After(stored, cut), history, at, cut);
      case Success(_) => assert Recorded(history, key, c) == [];
    }
  }

  lemma CalledList(lists: map<string, seq<Time>>, window: int, c: Call, key: string)
    ensures ListOf(Called(lists, window, c), key) ==
              if c.key != key then ListOf(lists, key)
              else match c
                case Limited(_, at) => After(ListOf(lists, key), at - window)
                case Failure(_, at, later) => After(ListOf(lists, key), later - window) + [at]
                case Success(_) => []
  {
  }

  lemma {:induction false} StoredAgrees(calls: seq<Call>, window: int, now: Time, key: string)
    requires ClockUpTo(calls, now)
    ensures Agrees(ListOf(Stored(calls, window), key), Failures(calls, key), now - window)
  {
    if calls != [] {
      var init, c := calls[..|calls| - 1], calls[|calls| - 1];
      var reading := if c.Limited? then c.at else if c.Failure? then c.later else now;
      ClockLater(init, if c.Success? then now else c.at, reading);
      StoredAgrees(init, window, reading, key);
      CallAgrees(Stored(init, window), Failures(init, key), window, c, key, reading);
      AgreesLater(ListOf(Stored(calls, window), key), Failures(calls, key), reading - window, now - window);
    }
  }

  lemma {:induction false} ClockLater(calls: seq<Call>, now: Time, later: Time)
    requires ClockUpTo(calls, now) && now <= later
    ensures ClockUpTo(calls, later)
  {
    if calls != [] && calls[|calls| - 1].Success? { ClockLater(calls[..|calls| - 1], now, later); }
  }

  /** Limited answers as if no failure had ever been forgotten: after any calls, with a clock that does not go back,
      it is true at now exactly when at least max failures since the last success are later than now - window. */
  lemma LimiterRefinesHistory(calls: seq<Call>, window: int, max: nat, now: Time, key: string)
    requires ClockUpTo(calls, now)
    ensures |ListOf(Stored(calls + [Limited(key, now)], window), key)| >= max <==>
              |After(Failures(calls, key), now - window)| >= max
  {
    StoredAgrees(calls, window, now, key);
    assert (calls + [Limited(key, now)])[..|calls|] == calls;
  }
}

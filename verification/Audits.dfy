/** Paging through the audit trail: the in-memory list (internal/store/memory/store.go) and the Postgres query
    (internal/store/postgres/store.go), and a walk along the cursors. */
module Audits {
  import opened Wrappers
  import opened Sorting

  type Time = int

  datatype AuditEvent = AuditEvent(id: string, kind: string, at: Time, subject: string, clientID: string, ip: string, note: string)

  datatype AuditPage = AuditPage(items: seq<AuditEvent>, next: string)

  function ClampAuditLimit(limit: int): (n: nat)
    ensures 1 <= n <= 100 && (1 <= limit <= 100 ==> n == limit) && (limit <= 0 ==> n == 20) && (limit > 100 ==> n == 100)
  {
    if limit <= 0 then 20 else if limit > 100 then 100 else limit
  }

  // ----- Newest first -----

  /** e comes strictly before f in the trail: later, or at the same instant with the greater ID. */
  predicate Newer(e: AuditEvent, f: AuditEvent) { e.at > f.at || (e.at == f.at && Less(f.id, e.id)) }

  /** The order given to sort.SliceStable, and ORDER BY at DESC, id DESC. */
  predicate NotOlder(e: AuditEvent, f: AuditEvent) { !Newer(f, e) }

  ghost predicate Descending(s: seq<AuditEvent>) { forall i, j | 0 <= i < j < |s| :: Newer(s[i], s[j]) }

  ghost predicate DistinctIDs(s: seq<AuditEvent>) { forall i, j | 0 <= i < j < |s| :: s[i].id != s[j].id }

  function NewestFirst(s: seq<AuditEvent>): seq<AuditEvent> { Sort(NotOlder, s) }

  lemma NewerIsStrict(e: AuditEvent, f: AuditEvent, g: AuditEvent)
    ensures !Newer(e, e) && !(Newer(e, f) && Newer(f, e))
    ensures Newer(e, f) && Newer(f, g) ==> Newer(e, g)
    ensures e.id != f.id ==> Newer(e, f) || Newer(f, e)
    ensures NotOlder(e, f) && NotOlder(f, g) ==> NotOlder(e, g)
  {
    LessTrichotomy(e.id, e.id);
    LessTrichotomy(e.id, f.id);
    LessTrichotomy(f.id, g.id);
    LessTrichotomy(e.id, g.id);
    if Less(f.id, e.id) && Less(g.id, f.id) { LessTransitive(g.id, f.id, e.id); }
    if Less(e.id, f.id) && Less(f.id, g.id) { LessTransitive(e.id, f.id, g.id); }
    if Less(e.id, g.id) && Less(g.id, f.id) { LessTransitive(e.id, g.id, f.id); }
    if Less(f.id, e.id) && Less(e.id, g.id) { LessTransitive(f.id, e.id, g.id); }
  }

  lemma NotOlderIsPreorder()
    ensures TotalPreorder(NotOlder)
  {
    forall x, y ensures NotOlder(x, y) || NotOlder(y, x) { NewerIsStrict(x, y, x); }
    forall x, y, z | NotOlder(x, y) && NotOlder(y, z) ensures NotOlder(x, z) { NewerIsStrict(x, y, z); }
  }

  /** With distinct IDs the order is total: the sorted list descends strictly and holds the same events. */
  lemma SortedTrail(s: seq<AuditEvent>)
    requires DistinctIDs(s)
    ensures Descending(NewestFirst(s)) && Elements(NewestFirst(s)) == Elements(s)
  {
    NotOlderIsPreorder();
    SortSorts(NotOlder, s);
    var r := NewestFirst(s);
    assert NoDuplicates(s);
    ReorderingOfDistinct(s, r);
    forall i, j | 0 <= i < j < |r| ensures Newer(r[i], r[j]) {
      assert r[i] in Elements(s) && r[j] in Elements(s);
      var a :| 0 <= a < |s| && s[a] == r[i];
      var b :| 0 <= b < |s| && s[b] == r[j];
      assert a != b;
      NewerIsStrict(r[i], r[j], r[i]);
    }
  }

  /** A strictly descending list is determined by its elements. */
  lemma {:induction false} DescendingUnique(a: seq<AuditEvent>, b: seq<AuditEvent>)
    requires Descending(a) && Descending(b) && Elements(a) == Elements(b)
    ensures a == b
  {
    assert a != [] ==> a[0] in Elements(a);
    assert b != [] ==> b[0] in Elements(b);
    if a != [] && b != [] {
      HeadIsNewest(a, b[0]);
      HeadIsNewest(b, a[0]);
      NewerIsStrict(a[0], b[0], a[0]);
      assert a == [a[0]] + a[1..] && b == [b[0]] + b[1..];
      forall x ensures x in Elements(a[1..]) <==> x in Elements(b[1..]) {
        NewerIsStrict(a[0], a[0], a[0]);
        assert x in a <==> x in Elements(a);
        assert x in b <==> x in Elements(b);
      }
      DescendingUnique(a[1..], b[1..]);
    }
  }

  lemma HeadIsNewest(a: seq<AuditEvent>, x: AuditEvent)
    requires Descending(a) && x in Elements(a)
    ensures x == a[0] || Newer(a[0], x)
  {
  }

  // ----- In memory -----

  /** Where the event with that ID is in a list, or its length. */
  function IndexOf(s: seq<AuditEvent>, id: string): (i: nat)
    ensures i <= |s| && (i < |s| ==> s[i].id == id) && forall k | 0 <= k < i :: s[k].id != id
  {
    if s == [] then 0 else if s[0].id == id then 0 else IndexOf(s[1..], id) + 1
  }

  /** The window of at most n events from start on, and the cursor to go on with. */
  function WindowAt(sorted: seq<AuditEvent>, start: nat, n: nat): AuditPage
    requires n > 0
  {
    if start >= |sorted| then AuditPage([], "")
    else if start + n < |sorted| then AuditPage(sorted[start..start + n], sorted[start + n - 1].id)
    else AuditPage(sorted[start..], "")
  }

  class MemoryAudits {
    var audits: seq<AuditEvent>

    method AppendAudit(e: AuditEvent)
      modifies this
      ensures audits == old(audits) + [e]
    {
      audits := audits + [e];
    }

    method ListAudits(limit: int, afterID: string) returns (r: Result<AuditPage>)
      ensures r == MemoryPage(audits, limit, afterID)
    {
      var n := ClampAuditLimit(limit);
      var sorted := NewestFirst(audits);
      var start := 0;
      if afterID != "" {
        var found := false;
        for i := 0 to |sorted|
          invariant !found && start == 0
          invariant forall k | 0 <= k < i :: sorted[k].id != afterID
        {
          if sorted[i].id == afterID {
            FirstIs(sorted, afterID, i);
            start := i + 1;
            found := true;
            break;
          }
        }
        if !found {
          return Err(NotFound);
        }
      }
      if start >= |sorted| {
        return Ok(AuditPage([], ""));
      }
      var end := start + n;
      var hasMore := end < |sorted|;
      if end > |sorted| {
        end := |sorted|;
      }
      var items := sorted[start..end];
      assert !hasMore ==> items == sorted[start..];
      var next := "";
      if hasMore {
        next := items[|items| - 1].id;
      }
      r := Ok(AuditPage(items, next));
    }
  }

  lemma FirstIs(s: seq<AuditEvent>, id: string, i: nat)
    requires i < |s| && s[i].id == id && forall k | 0 <= k < i :: s[k].id != id
    ensures IndexOf(s, id) == i
  {
  }

  /** The page of a sorted trail after a cursor. */
  function PageOf(sorted: seq<AuditEvent>, limit: int, afterID: string): Result<AuditPage> {
    var n := ClampAuditLimit(limit);
    if afterID == "" then Ok(WindowAt(sorted, 0, n))
    else if IndexOf(sorted, afterID) == |sorted| then Err(NotFound)
    else Ok(WindowAt(sorted, IndexOf(sorted, afterID) + 1, n))
  }

  function MemoryPage(audits: seq<AuditEvent>, limit: int, afterID: string): Result<AuditPage> {
    PageOf(NewestFirst(audits), limit, afterID)
  }

  // ----- In Postgres -----

  /** (at, id) < (SELECT at, id ... WHERE id = after): no row qualifies when the inner query finds none. */
  predicate Below(table: seq<AuditEvent>, after: string, e: AuditEvent) {
    var i := IndexOf(table, after);
    i < |table| && Newer(table[i], e)
  }

  /** The rows that satisfy the WHERE clause, if there is one. */
  function Kept(rows: seq<AuditEvent>, table: seq<AuditEvent>, after: string): seq<AuditEvent> {
    if rows == [] then []
    else (if after == "" || Below(table, after, rows[0]) then [rows[0]] else []) + Kept(rows[1..], table, after)
  }

  /** What the query yields: the rows of the table, in whatever order it keeps them, that qualify, sorted, at most n. */
  function Query(table: seq<AuditEvent>, after: string, n: nat): seq<AuditEvent> {
    AtMostRows(NewestFirst(Kept(table, table, after)), n)
  }

  function AtMostRows(rows: seq<AuditEvent>, n: nat): seq<AuditEvent> { if |rows| <= n then rows else rows[..n] }

  function Trim(rows: seq<AuditEvent>, n: nat): AuditPage
    requires n > 0
  {
    if |rows| > n then AuditPage(rows[..n], rows[n - 1].id) else AuditPage(rows, "")
  }

  class PostgresAudits {
    var table: seq<AuditEvent>

    method ListAudits(limit: int, afterID: string) returns (r: Result<AuditPage>)
      ensures r == PostgresPage(table, limit, afterID)
    {
      var n := ClampAuditLimit(limit);
      var rows := Query(table, afterID, n + 1);
      var items: seq<AuditEvent> := [];
      for i := 0 to |rows|
        invariant items == rows[..i]
      {
        items := items + [rows[i]];
      }
      assert items == rows;
      if afterID != "" && |items| == 0 {
        if IndexOf(table, afterID) == |table| {
          return Err(NotFound);
        }
      }
      var next := "";
      if |items| > n {
        items := items[..n];
        next := items[|items| - 1].id;
      }
      r := Ok(AuditPage(items, next));
    }
  }

  function PostgresPage(table: seq<AuditEvent>, limit: int, afterID: string): Result<AuditPage> {
    var n := ClampAuditLimit(limit);
    var rows := Query(table, afterID, n + 1);
    if afterID != "" && rows == [] && IndexOf(table, afterID) == |table| then Err(NotFound)
    else Ok(Trim(rows, n))
  }

  // ----- The two agree -----

  lemma {:induction false} KeptElements(rows: seq<AuditEvent>, table: seq<AuditEvent>, after: string)
    requires DistinctIDs(rows)
    ensures DistinctIDs(Kept(rows, table, after))
    ensures forall e :: e in Kept(rows, table, after) <==> e in rows && (after == "" || Below(table, after, e))
  {
    if rows != [] {
      KeptElements(rows[1..], table, after);
      assert rows == [rows[0]] + rows[1..];
      var rest := Kept(rows[1..], table, after);
      forall i | 0 <= i < |rest| ensures rest[i].id != rows[0].id {
        assert rest[i] in rows[1..];
      }
    }
  }

  /** With distinct IDs an ID is one event, wherever the list keeps it. */
  lemma SameEventByID(s: seq<AuditEvent>, t: seq<AuditEvent>, id: string)
    requires DistinctIDs(s) && DistinctIDs(t) && Elements(s) == Elements(t)
    ensures IndexOf(s, id) < |s| <==> IndexOf(t, id) < |t|
    ensures IndexOf(s, id) < |s| ==> s[IndexOf(s, id)] == t[IndexOf(t, id)]
  {
    var i, j := IndexOf(s, id), IndexOf(t, id);
    if i < |s| {
      assert s[i] in Elements(t);
      var k :| 0 <= k < |t| && t[k] == s[i];
      assert t[k].id == id;
    }
    if j < |t| {
      assert t[j] in Elements(s);
      var k :| 0 <= k < |s| && s[k] == t[j];
      assert s[k].id == id;
    }
  }

  /** What the query yields is the sorted trail from the event after the cursor on. */
  lemma QueryIsSuffix(audits: seq<AuditEvent>, table: seq<AuditEvent>, after: string)
    requires DistinctIDs(audits) && DistinctIDs(table) && Elements(audits) == Elements(table)
    requires after == "" || IndexOf(table, after) < |table|
    ensures var sorted := NewestFirst(audits);
            && DistinctIDs(sorted) && (after != "" ==> IndexOf(sorted, after) < |sorted|)
            && NewestFirst(Kept(table, table, after)) == sorted[(if after == "" then 0 else IndexOf(sorted, after) + 1)..]
  {
    var sorted := NewestFirst(audits);
    SortedTrail(audits);
    DescendingHasDistinctIDs(audits, sorted);
    SameEventByID(sorted, table, after);
    var start := if after == "" then 0 else IndexOf(sorted, after) + 1;
    KeptElements(table, table, after);
    SortedTrail(Kept(table, table, after));
    forall e ensures e in Elements(Kept(table, table, after)) <==> e in Elements(sorted[start..]) {
      if after != "" { SuffixIsBelow(sorted, table, after, e); }
      assert e in Elements(table) <==> e in Elements(sorted);
    }
    DescendingUnique(NewestFirst(Kept(table, table, after)), sorted[start..]);
  }

  lemma DescendingHasDistinctIDs(s: seq<AuditEvent>, sorted: seq<AuditEvent>)
    requires DistinctIDs(s) && Descending(sorted) && Elements(sorted) == Elements(s)
    ensures DistinctIDs(sorted)
  {
    forall i, j | 0 <= i < j < |sorted| ensures sorted[i].id != sorted[j].id {
      NewerIsStrict(sorted[i], sorted[j], sorted[i]);
      assert sorted[i] in Elements(s) && sorted[j] in Elements(s);
      var a :| 0 <= a < |s| && s[a] == sorted[i];
      var b :| 0 <= b < |s| && s[b] == sorted[j];
    }
  }

  lemma SuffixIsOlder(sorted: seq<AuditEvent>, i: nat, e: AuditEvent)
    requires Descending(sorted) && i < |sorted|
    ensures e in sorted[i + 1..] <==> e in sorted && Newer(sorted[i], e)
  {
    if e in sorted {
      var k :| 0 <= k < |sorted| && sorted[k] == e;
      NewerIsStrict(sorted[i], e, sorted[i]);
      assert k > i ==> sorted[i + 1..][k - i - 1] == e;
    }
  }

  lemma SuffixIsBelow(sorted: seq<AuditEvent>, table: seq<AuditEvent>, after: string, e: AuditEvent)
    requires Descending(sorted) && DistinctIDs(sorted) && DistinctIDs(table) && Elements(sorted) == Elements(table)
    requires IndexOf(table, after) < |table| && IndexOf(sorted, after) < |sorted|
    ensures e in sorted[IndexOf(sorted, after) + 1..] <==> e in sorted && Below(table, after, e)
  {
    SameEventByID(sorted, table, after);
    SuffixIsOlder(sorted, IndexOf(sorted, after), e);
  }

  lemma NonemptyHasElements(s: seq<AuditEvent>)
    ensures s != [] ==> Elements(s) != {}
  {
    if s != [] { assert s[0] in Elements(s); }
  }

  lemma NothingBelow(table: seq<AuditEvent>, after: string)
    requires DistinctIDs(table) && after != "" && IndexOf(table, after) == |table|
    ensures NewestFirst(Kept(table, table, after)) == []
  {
    KeptElements(table, table, after);
    SortedTrail(Kept(table, table, after));
    var rows := NewestFirst(Kept(table, table, after));
    NonemptyHasElements(rows);
  }

  lemma UnknownCursorAgrees(audits: seq<AuditEvent>, table: seq<AuditEvent>, limit: int, after: string)
    requires DistinctIDs(audits) && DistinctIDs(table) && Elements(audits) == Elements(table)
    requires after != "" && IndexOf(table, after) == |table|
    ensures MemoryPage(audits, limit, after) == Err(NotFound) && PostgresPage(table, limit, after) == Err(NotFound)
  {
    var sorted := NewestFirst(audits);
    SortedTrail(audits);
    DescendingHasDistinctIDs(audits, sorted);
    SameEventByID(sorted, table, after);
    NothingBelow(table, after);
  }

  /** One row more than the limit, and a trim, is a window. */
  lemma TrimIsWindow(sorted: seq<AuditEvent>, start: nat, n: nat)
    requires start <= |sorted| && n > 0
    ensures WindowAt(sorted, start, n) == Trim(AtMostRows(sorted[start..], n + 1), n)
  {
    var rest := sorted[start..];
    if |rest| > n {
      assert AtMostRows(rest, n + 1)[..n] == sorted[start..start + n];
    }
  }

  lemma KnownCursorAgrees(audits: seq<AuditEvent>, table: seq<AuditEvent>, limit: int, after: string)
    requires DistinctIDs(audits) && DistinctIDs(table) && Elements(audits) == Elements(table)
    requires after == "" || IndexOf(table, after) < |table|
    ensures MemoryPage(audits, limit, after) == PostgresPage(table, limit, after)
  {
    var sorted, n := NewestFirst(audits), ClampAuditLimit(limit);
    QueryIsSuffix(audits, table, after);
    TrimIsWindow(sorted, if after == "" then 0 else IndexOf(sorted, after) + 1, n);
  }

  /** The two implementations give the same page, cursor and error for every limit and every cursor, whatever order
      the table keeps its rows in. */
  lemma ImplementationsAgree(audits: seq<AuditEvent>, table: seq<AuditEvent>, limit: int, after: string)
    requires DistinctIDs(audits) && DistinctIDs(table) && Elements(audits) == Elements(table)
    ensures MemoryPage(audits, limit, after) == PostgresPage(table, limit, after)
  {
    if after != "" && IndexOf(table, after) == |table| {
      UnknownCursorAgrees(audits, table, limit, after);
    } else {
      KnownCursorAgrees(audits, table, limit, after);
    }
  }

  /** Which page the in-memory list gives, and so the query too: an error exactly for a cursor that no event has; otherwise the
      newest events that come after the cursor's, at most as many as the limit, newest first. The next cursor is empty
      exactly when nothing is left, and else the last event's. */
  lemma PageIsExact(audits: seq<AuditEvent>, limit: int, after: string, c: AuditEvent)
    requires DistinctIDs(audits) && (forall e | e in audits :: e.id != "")
    requires after != "" && (exists e :: e in audits && e.id == after) ==> c in audits && c.id == after
    ensures var r := MemoryPage(audits, limit, after);
            var n := if limit <= 0 then 20 else if limit > 100 then 100 else limit;
            && (r == Err(NotFound) <==> after != "" && forall e | e in audits :: e.id != after)
            && (r.Ok? ==>
                  var items := r.value.items;
                  && (forall i, j | 0 <= i < j < |items| ::
                        items[i].at > items[j].at || (items[i].at == items[j].at && Less(items[j].id, items[i].id)))
                  && (forall e | e in items :: e in audits && (after == "" || IsAfter(c, e)))
                  && (forall e | e in audits && (after == "" || IsAfter(c, e)) && e !in items ::
                        |items| == n && r.value.next == items[n - 1].id && IsAfter(items[n - 1], e))
                  && |items| <= n
                  && (r.value.next != "" ==> exists e :: e in audits && (after == "" || IsAfter(c, e)) && e !in items))
  {
    var sorted := NewestFirst(audits);
    SortedTrail(audits);
    DescendingHasDistinctIDs(audits, sorted);
    SameEventByID(sorted, audits, after);
    forall e ensures e in sorted <==> e in audits { assert e in sorted <==> e in Elements(sorted); assert e in audits <==> e in Elements(audits); }
    if after != "" && IndexOf(sorted, after) == |sorted| {
      forall e | e in audits ensures e.id != after { assert e in sorted; }
    } else {
      var start := if after == "" then 0 else IndexOf(sorted, after) + 1;
      if after != "" {
        assert sorted[start - 1] in audits;
        SameByID(audits, c, sorted[start - 1]);
      }
      forall e ensures e in sorted[start..] <==> e in audits && (after == "" || IsAfter(c, e)) {
        if after != "" { SuffixIsOlder(sorted, start - 1, e); }
      }
      WindowIs(sorted, start, ClampAuditLimit(limit));
    }
  }

  /** Older, or at the same instant with the smaller ID. */
  predicate IsAfter(c: AuditEvent, e: AuditEvent) { c.at > e.at || (c.at == e.at && Less(e.id, c.id)) }

  lemma SameByID(s: seq<AuditEvent>, e: AuditEvent, f: AuditEvent)
    requires DistinctIDs(s) && e in s && f in s && e.id == f.id
    ensures e == f
  {
    var i :| 0 <= i < |s| && s[i] == e;
    var j :| 0 <= j < |s| && s[j] == f;
  }

  lemma WindowIs(sorted: seq<AuditEvent>, start: nat, n: nat)
    requires Descending(sorted) && start <= |sorted| && n > 0 && forall e | e in sorted :: e.id != ""
    ensures var page, rest := WindowAt(sorted, start, n), sorted[start..];
            && Descending(page.items) && |page.items| <= n && (forall e | e in page.items :: e in rest)
            && (forall e | e in rest && e !in page.items ::
                  |page.items| == n && page.next == page.items[n - 1].id && Newer(page.items[n - 1], e))
            && (page.next != "" ==> exists e :: e in rest && e !in page.items)
  {
    var page, rest := WindowAt(sorted, start, n), sorted[start..];
    if start + n < |sorted| {
      forall k | 0 <= k < n ensures rest[k] in page.items { assert page.items[k] == rest[k]; }
      forall k | 0 <= k < n ensures page.items[k] != rest[n] {
        NewerIsStrict(rest[n], rest[n], rest[n]);
        assert page.items[k] == sorted[start + k] && Newer(sorted[start + k], sorted[start + n]);
      }
      assert rest[n] in rest;
    }
  }

  // ----- A walk along the cursors -----

  datatype Walked = Walked(visited: seq<AuditEvent>, done: bool, failed: bool)

  /** One request of a walk: the trail at that instant, newest first, and the limit asked for. */
  datatype Hop = Hop(trail: seq<AuditEvent>, limit: int)

  /** Follows Next from the cursor until it is empty, the requests run out, or one fails. */
  function Walk(hops: seq<Hop>, cursor: string): Walked {
    if hops == [] then Walked([], false, false)
    else match PageOf(hops[0].trail, hops[0].limit, cursor)
      case Err(_) => Walked([], false, true)
      case Ok(page) => if page.next == "" then Walked(page.items, true, false) else Before(page.items, Walk(hops[1..], page.next))
  }

  function Before(items: seq<AuditEvent>, rest: Walked): Walked { rest.(visited := items + rest.visited) }

  ghost predicate IsTrail(t: seq<AuditEvent>) { Descending(t) && DistinctIDs(t) && forall e | e in t :: e.id != "" }

  ghost predicate Growing(hops: seq<Hop>) {
    && (forall h | h in hops :: IsTrail(h.trail))
    && (forall i, j | 0 <= i < j < |hops| :: forall e | e in hops[i].trail :: e in hops[j].trail)
  }

  /** The cursor stands just before position start of the trail. */
  ghost predicate StandsAt(t: seq<AuditEvent>, cursor: string, start: nat) {
    start <= |t| && if cursor == "" then start == 0 else start > 0 && t[start - 1].id == cursor
  }

  lemma PageFrom(t: seq<AuditEvent>, limit: int, cursor: string, start: nat)
    requires IsTrail(t) && StandsAt(t, cursor, start)
    ensures PageOf(t, limit, cursor) == Ok(WindowAt(t, start, ClampAuditLimit(limit)))
  {
    assert cursor != "" ==> IndexOf(t, cursor) == start - 1;
  }

  /** One request of a walk: the next events of the trail, and where the next request stands. */
  lemma {:induction false} FirstHop(hops: seq<Hop>, cursor: string, start: nat)
    requires hops != [] && IsTrail(hops[0].trail) && StandsAt(hops[0].trail, cursor, start)
    ensures var t, n := hops[0].trail, ClampAuditLimit(hops[0].limit);
            if start + n < |t|
            then t[start + n - 1].id != "" && Walk(hops, cursor) == Before(t[start..start + n], Walk(hops[1..], t[start + n - 1].id))
            else Walk(hops, cursor) == Walked(t[start..], true, false)
  {
    var t, n := hops[0].trail, ClampAuditLimit(hops[0].limit);
    PageFrom(t, hops[0].limit, cursor, start);
    assert start + n < |t| ==> t[start + n - 1] in t;
  }

  /** Where a trail that has grown since holds an event. */
  lemma PositionOf(t: seq<AuditEvent>, e: AuditEvent) returns (i: nat)
    requires e in t && e.id != ""
    ensures i < |t| && t[i] == e && StandsAt(t, e.id, i + 1)
  {
    i :| 0 <= i < |t| && t[i] == e;
  }

  /** The events of t from start on are visited, newest first, and nothing that is not after them in time. */
  ghost predicate Visits(w: Walked, t: seq<AuditEvent>, start: nat)
    requires start <= |t|
  {
    && !w.failed && Descending(w.visited)
    && (start > 0 ==> forall e | e in w.visited :: Newer(t[start - 1], e))
    && (w.done ==> forall e | e in t[start..] :: e in w.visited)
  }

  lemma {:induction false} WalkVisits(hops: seq<Hop>, cursor: string, start: nat) returns (w: Walked)
    requires Growing(hops) && hops != [] && StandsAt(hops[0].trail, cursor, start)
    ensures w == Walk(hops, cursor) && Visits(w, hops[0].trail, start)
    decreases |hops|
  {
    var t, n := hops[0].trail, ClampAuditLimit(hops[0].limit);
    FirstTrail(hops);
    FirstHop(hops, cursor, start);
    if start + n >= |t| {
      w := Walked(t[start..], true, false);
      LastPage(t, start);
    } else if |hops| == 1 {
      w := Before(t[start..start + n], Walked([], false, false));
      CutShort(t, start, n);
    } else {
      var last := t[start + n - 1];
      SecondTrail(hops);
      var i := PositionOf(hops[1].trail, last);
      GrowingTail(hops);
      var rest := WalkVisits(hops[1..], last.id, i + 1);
      w := Before(t[start..start + n], rest);
      JoinVisits(t, start, n, rest, hops[1].trail, i + 1);
    }
  }

  lemma {:induction false} FirstTrail(hops: seq<Hop>)
    requires Growing(hops) && hops != []
    ensures IsTrail(hops[0].trail)
  {
    assert hops[0] in hops;
  }

  lemma {:induction false} SecondTrail(hops: seq<Hop>)
    requires Growing(hops) && |hops| > 1
    ensures IsTrail(hops[1].trail) && forall e | e in hops[0].trail :: e in hops[1].trail
  {
    assert hops[1] in hops;
  }

  lemma {:induction false} GrowingTail(hops: seq<Hop>)
    requires Growing(hops) && hops != []
    ensures Growing(hops[1..])
  {
    assert forall h | h in hops[1..] :: h in hops;
  }

  lemma LastPage(t: seq<AuditEvent>, start: nat)
    requires IsTrail(t) && start <= |t|
    ensures Visits(Walked(t[start..], true, false), t, start)
  {
  }

  /** The requests ran out before the walk ended. */
  lemma CutShort(t: seq<AuditEvent>, start: nat, n: nat)
    requires IsTrail(t) && start + n <= |t|
    ensures Visits(Before(t[start..start + n], Walked([], false, false)), t, start)
  {
    assert t[start..start + n] + [] == t[start..start + n];
  }

  /** A page of t, and what was visited after it in a trail that has grown since. */
  lemma JoinVisits(t: seq<AuditEvent>, start: nat, n: nat, rest: Walked, t': seq<AuditEvent>, start': nat)
    requires IsTrail(t) && IsTrail(t') && n > 0 && start + n < |t| && 0 < start' <= |t'| && t'[start' - 1] == t[start + n - 1]
    requires (forall e | e in t :: e in t') && Visits(rest, t', start')
    ensures Visits(Before(t[start..start + n], rest), t, start)
  {
    var items, last := t[start..start + n], t[start + n - 1];
    var v := items + rest.visited;
    forall i, j | 0 <= i < j < |v| ensures Newer(v[i], v[j]) {
      if i < n <= j { assert v[j] in rest.visited; NewerIsStrict(v[i], last, v[j]); }
    }
    if start > 0 {
      forall e | e in v ensures Newer(t[start - 1], e) {
        if e in rest.visited { NewerIsStrict(t[start - 1], last, e); }
      }
    }
    if rest.done {
      forall e | e in t[start..] ensures e in v {
        if e !in items { StillAfter(t, start + n, t', start', e); }
      }
    }
  }

  lemma StillAfter(t: seq<AuditEvent>, k: nat, t': seq<AuditEvent>, k': nat, e: AuditEvent)
    requires IsTrail(t) && IsTrail(t') && 0 < k <= |t| && 0 < k' <= |t'| && t[k - 1] == t'[k' - 1]
    requires e in t[k..] && e in t'
    ensures e in t'[k'..]
  {
    var i :| k <= i < |t| && t[i] == e;
    var j :| 0 <= j < |t'| && t'[j] == e;
    NewerIsStrict(t[k - 1], e, t[k - 1]);
    assert t'[k'..][j - k'] == e;
  }

  ghost predicate AllAt(hops: seq<Hop>, t: seq<AuditEvent>) { forall i | 0 <= i < |hops| :: hops[i].trail == t }

  lemma {:induction false} AllAtTail(hops: seq<Hop>, t: seq<AuditEvent>)
    requires AllAt(hops, t) && hops != []
    ensures hops[0].trail == t && AllAt(hops[1..], t)
  {
  }

  lemma AfterPage(t: seq<AuditEvent>, k: nat)
    requires IsTrail(t) && 0 < k <= |t|
    ensures t[k - 1].id != "" && StandsAt(t, t[k - 1].id, k)
  {
    assert t[k - 1] in t;
  }

  lemma {:induction false} JoinQuiet(t: seq<AuditEvent>, start: nat, n: nat)
    requires start + n <= |t|
    ensures Before(t[start..start + n], Walked(t[start + n..], true, false)) == Walked(t[start..], true, false)
  {
    assert t[start..start + n] + t[start + n..] == t[start..];
  }

  /** With no appends a walk lists the rest of the trail and ends: every page leaves fewer events before it. */
  lemma {:induction false} QuietWalk(hops: seq<Hop>, t: seq<AuditEvent>, cursor: string, start: nat) returns (w: Walked)
    requires IsTrail(t) && AllAt(hops, t) && StandsAt(t, cursor, start) && |hops| > |t| - start
    ensures w == Walk(hops, cursor) && w == Walked(t[start..], true, false)
    decreases |hops|
  {
    AllAtTail(hops, t);
    FirstHop(hops, cursor, start);
    var n := ClampAuditLimit(hops[0].limit);
    if start + n < |t| {
      var next := t[start + n - 1].id;
      AfterPage(t, start + n);
      var rest := QuietWalk(hops[1..], t, next, start + n);
      JoinQuiet(t, start, n);
      w := Before(t[start..start + n], rest);
    } else {
      w := Walked(t[start..], true, false);
    }
  }

  // ----- The same, of the stored events -----

  /** One request of a walk: the stored events at that instant, and the limit asked for. */
  datatype Request = Request(audits: seq<AuditEvent>, limit: int)

  /** Follows Next through MemoryPage. */
  function Follow(requests: seq<Request>, cursor: string): Walked {
    if requests == [] then Walked([], false, false)
    else match MemoryPage(requests[0].audits, requests[0].limit, cursor)
      case Err(_) => Walked([], false, true)
      case Ok(page) => if page.next == "" then Walked(page.items, true, false) else Before(page.items, Follow(requests[1..], page.next))
  }

  function Trails(requests: seq<Request>): (hops: seq<Hop>)
    ensures |hops| == |requests|
    ensures forall i | 0 <= i < |hops| :: hops[i].trail == NewestFirst(requests[i].audits)
  {
    if requests == [] then []
    else [Hop(NewestFirst(requests[0].audits), requests[0].limit)] + Trails(requests[1..])
  }

  lemma {:induction false} FollowIsWalk(requests: seq<Request>, cursor: string)
    ensures Follow(requests, cursor) == Walk(Trails(requests), cursor)
    decreases |requests|
  {
    if requests != [] {
      var page := MemoryPage(requests[0].audits, requests[0].limit, cursor);
      if page.Ok? { FollowIsWalk(requests[1..], page.value.next); }
    }
  }

  ghost predicate ProperIDs(audits: seq<AuditEvent>) { DistinctIDs(audits) && forall e | e in audits :: e.id != "" }

  /** IDs are distinct and never empty, and between requests events are only appended. */
  ghost predicate OnlyAppends(requests: seq<Request>) {
    && (forall i | 0 <= i < |requests| :: ProperIDs(requests[i].audits))
    && (forall i, j | 0 <= i < j < |requests| :: requests[i].audits <= requests[j].audits)
  }

  lemma TrailOf(audits: seq<AuditEvent>)
    requires ProperIDs(audits)
    ensures IsTrail(NewestFirst(audits)) && forall e :: e in NewestFirst(audits) <==> e in audits
  {
    var t := NewestFirst(audits);
    SortedTrail(audits);
    DescendingHasDistinctIDs(audits, t);
    forall e ensures e in t <==> e in audits {
      assert e in t <==> e in Elements(t);
      assert e in audits <==> e in Elements(audits);
    }
  }

  lemma {:induction false} TrailsGrow(requests: seq<Request>)
    requires OnlyAppends(requests)
    ensures Growing(Trails(requests))
  {
    var hops := Trails(requests);
    forall i | 0 <= i < |requests| ensures IsTrail(hops[i].trail) { TrailOf(requests[i].audits); }
    forall i, j, e | 0 <= i < j < |hops| && e in hops[i].trail ensures e in hops[j].trail {
      TrailOf(requests[i].audits);
      TrailOf(requests[j].audits);
      var k :| 0 <= k < |requests[i].audits| && requests[i].audits[k] == e;
      assert requests[j].audits[k] == e;
    }
  }

  /** A walk from the start never fails and never repeats an event, going strictly back in time; when it ends it has
      visited every event that was present at its start, whatever was appended between its requests. */
  lemma {:induction false} WalkIsExact(requests: seq<Request>)
    requires OnlyAppends(requests) && requests != []
    ensures var w := Follow(requests, "");
            && !w.failed && NoDuplicates(w.visited)
            && (forall i, j | 0 <= i < j < |w.visited| ::
                  w.visited[i].at > w.visited[j].at || (w.visited[i].at == w.visited[j].at && Less(w.visited[j].id, w.visited[i].id)))
            && (w.done ==> forall e | e in requests[0].audits :: e in w.visited)
  {
    var hops := Trails(requests);
    FollowIsWalk(requests, "");
    TrailsGrow(requests);
    var w := WalkVisits(hops, "", 0);
    TrailOf(requests[0].audits);
    assert hops[0].trail[0..] == hops[0].trail;
    var v := Follow(requests, "").visited;
    forall i, j | 0 <= i < j < |v| ensures v[i] != v[j] { NewerIsStrict(v[i], v[i], v[i]); }
  }

  /** While nothing is appended, a walk of more requests than events ends, and lists exactly the sorted trail. */
  lemma {:induction false} QuietWalkEnds(requests: seq<Request>, audits: seq<AuditEvent>)
    requires ProperIDs(audits) && |requests| > |audits| && forall i | 0 <= i < |requests| :: requests[i].audits == audits
    ensures Follow(requests, "") == Walked(NewestFirst(audits), true, false)
  {
    var t := NewestFirst(audits);
    FollowIsWalk(requests, "");
    TrailOf(audits);
    NotOlderIsPreorder();
    SortSorts(NotOlder, audits);
    assert |multiset(t)| == |multiset(audits)|;
    var w := QuietWalk(Trails(requests), t, "", 0);
    assert t[0..] == t;
  }
}

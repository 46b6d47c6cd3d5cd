/** Seeding the public clients (internal/seed/seed.go). */
module Seed {
  import opened Wrappers
  import opened Sorting
  import opened Domain
  import opened MemoryStore

  /** replaceCallbackPath(redirect, path): URL parsing is not part of this model; None is its error. */
  type Rewrite = (string, string) -> Option<string>

  /** One call of upsertPublicClient. */
  datatype Args = Args(id: string, name: string, redirect: string, postLogout: string)

  datatype Outcome = Failed | Unchanged | Updated | Created

  // ----- unionExact and sameStrings -----

  function Union(have: seq<string>, add: seq<string>): seq<string> {
    if add == [] then have
    else
      var out := Union(have, add[..|add| - 1]);
      if add[|add| - 1] in out then out else out + [add[|add| - 1]]
  }

  method UnionExact(have: seq<string>, add: seq<string>) returns (out: seq<string>)
    ensures out == Union(have, add)
  {
    out := have;
    var seen: set<string> := {};
    for i := 0 to |out|
      invariant out == have && seen == Elements(out[..i])
    {
      assert out[..i + 1] == out[..i] + [out[i]];
      seen := seen + {out[i]};
    }
    assert out[..|out|] == out;
    for i := 0 to |add|
      invariant out == Union(have, add[..i]) && seen == Elements(out)
    {
      assert add[..i + 1][..i] == add[..i];
      if add[i] in seen {
        continue;
      }
      seen := seen + {add[i]};
      out := out + [add[i]];
    }
    assert add[..|add|] == add;
  }

  method SameStrings(a: seq<string>, b: seq<string>) returns (same: bool)
    ensures same <==> a == b
  {
    if |a| != |b| {
      return false;
    }
    for i := 0 to |a|
      invariant a[..i] == b[..i]
    {
      if a[i] != b[i] {
        return false;
      }
    }
    assert a[..|a|] == a && b[..|b|] == b;
    same := true;
  }

  /** The old list stays in front, what is new is the rest of the other list, and nothing appears twice that did not. */
  lemma {:induction false} UnionIs(have: seq<string>, add: seq<string>)
    ensures have <= Union(have, add)
    ensures Elements(Union(have, add)) == Elements(have) + Elements(add)
    ensures NoDuplicates(have) ==> NoDuplicates(Union(have, add))
    decreases |add|
  {
    if add != [] {
      var init, last := add[..|add| - 1], add[|add| - 1];
      UnionIs(have, init);
      assert add == init + [last];
      assert Elements(add) == Elements(init) + {last};
      var out := Union(have, init);
      assert Elements(out + [last]) == Elements(out) + {last};
    }
  }

  /** A list that already has everything is returned as it is. */
  lemma {:induction false} UnionOfKnown(have: seq<string>, add: seq<string>)
    requires forall x | x in add :: x in have
    ensures Union(have, add) == have
    decreases |add|
  {
    if add != [] { UnionOfKnown(have, add[..|add| - 1]); }
  }

  // ----- upsertPublicClient -----

  function Wanted(rewrite: Rewrite, a: Args): Option<Client> {
    var post := if a.postLogout == "" then rewrite(a.redirect, "/logged-out") else Some(a.postLogout);
    match (post, rewrite(a.redirect, "/frontchannel-logout"), rewrite(a.redirect, "/backchannel-logout"))
    case (Some(p), Some(front), Some(back)) => Some(Client(a.id, a.name, Public, "", [a.redirect], [p], front, back))
    case _ => None
  }

  /** What an existing client is patched to. */
  function Merged(existing: Client, want: Client): ClientPatch {
    ClientPatch(want.name, Union(existing.redirectURIs, want.redirectURIs), Union(existing.postLogoutURIs, want.postLogoutURIs),
                want.frontChannelURI, want.backChannelURI)
  }

  function Seeded(clients: map<string, Client>, rewrite: Rewrite, a: Args): (map<string, Client>, Outcome) {
    match Wanted(rewrite, a)
    case None => (clients, Failed)
    case Some(want) =>
      if a.id !in clients then (clients[a.id := want], Created)
      else
        var existing := clients[a.id];
        if Patched(existing, Merged(existing, want)) == existing then (clients, Unchanged)
        else if existing.id !in clients then (clients, Failed)
        else (clients[existing.id := Patched(clients[existing.id], Merged(existing, want))], Updated)
  }

  class Seeder {
    const store: Store
    const rewrite: Rewrite

    constructor (store: Store, rewrite: Rewrite)
      ensures this.store == store && this.rewrite == rewrite
    {
      this.store, this.rewrite := store, rewrite;
    }

    method UpsertPublicClient(a: Args) returns (r: Outcome)
      modifies store
      ensures store.View() == old(store.View()).(clients := Seeded(old(store.clients), rewrite, a).0)
      ensures r == Seeded(old(store.clients), rewrite, a).1
    {
      var post := Some(a.postLogout);
      if a.postLogout == "" {
        post := rewrite(a.redirect, "/logged-out");
        if post.None? {
          return Failed;
        }
      }
      var front := rewrite(a.redirect, "/frontchannel-logout");
      if front.None? {
        return Failed;
      }
      var back := rewrite(a.redirect, "/backchannel-logout");
      if back.None? {
        return Failed;
      }
      var want := Client(a.id, a.name, Public, "", [a.redirect], [post.value], front.value, back.value);
      assert Wanted(rewrite, a) == Some(want);
      var existing := store.GetClient(a.id);
      if existing.Ok? {
        r := Merge(existing.value, want);
        return;
      }
      var created := store.CreateClient(want);
      r := if created.Ok? then Created else Failed;
    }

    /** The branch for a client that exists. */
    method Merge(existing: Client, want: Client) returns (r: Outcome)
      modifies store
      ensures var now := Patched(existing, Merged(existing, want));
              && r == (if now == existing then Unchanged else if existing.id in old(store.clients) then Updated else Failed)
              && store.View() == if r != Updated then old(store.View()) else
                                   old(store.View()).(clients := old(store.clients)[existing.id :=
                                     Patched(old(store.clients)[existing.id], Merged(existing, want))])
    {
      var redirects := UnionExact(existing.redirectURIs, want.redirectURIs);
      var posts := UnionExact(existing.postLogoutURIs, want.postLogoutURIs);
      var sameRedirects := SameStrings(existing.redirectURIs, redirects);
      var samePosts := SameStrings(existing.postLogoutURIs, posts);
      if existing.name == want.name && sameRedirects && samePosts
         && existing.frontChannelURI == want.frontChannelURI && existing.backChannelURI == want.backChannelURI {
        return Unchanged;
      }
      var updated := store.UpdateClient(existing.id,
                                        ClientPatch(want.name, redirects, posts, want.frontChannelURI, want.backChannelURI));
      r := if updated.Ok? then Updated else Failed;
    }
  }

  // ----- Idempotent and monotone -----

  /** Each client is stored under its own ID. */
  ghost predicate Keyed(clients: map<string, Client>) { forall id | id in clients :: clients[id].id == id }

  /** Every registered client is still there, with every URI it had, in the same place. */
  ghost predicate Kept(before: map<string, Client>, after: map<string, Client>) {
    forall id | id in before ::
      && id in after
      && before[id].redirectURIs <= after[id].redirectURIs
      && before[id].postLogoutURIs <= after[id].postLogoutURIs
      && before[id].secretHash == after[id].secretHash && before[id].clientType == after[id].clientType
  }

  /** A repeated run changes nothing: it fails as the first one did, or finds nothing to update. */
  lemma SeedingIsIdempotent(clients: map<string, Client>, rewrite: Rewrite, a: Args)
    requires Keyed(clients)
    ensures var once := Seeded(clients, rewrite, a);
            Seeded(once.0, rewrite, a) == (once.0, if once.1 == Failed then Failed else Unchanged)
  {
    var wanted := Wanted(rewrite, a);
    if wanted.Some? {
      MergedTwice(if a.id in clients then clients[a.id] else wanted.value, wanted.value);
      assert a.id !in clients ==> Patched(wanted.value, Merged(wanted.value, wanted.value)) == wanted.value by {
        UnionOfKnown(wanted.value.redirectURIs, wanted.value.redirectURIs);
        UnionOfKnown(wanted.value.postLogoutURIs, wanted.value.postLogoutURIs);
      }
    }
  }

  lemma MergedTwice(existing: Client, want: Client)
    ensures var once := Patched(existing, Merged(existing, want)); Patched(once, Merged(once, want)) == once
  {
    UnionTwice(existing.redirectURIs, want.redirectURIs);
    UnionTwice(existing.postLogoutURIs, want.postLogoutURIs);
  }

  lemma UnionTwice(have: seq<string>, add: seq<string>)
    ensures Union(Union(have, add), add) == Union(have, add)
  {
    UnionIs(have, add);
    forall x | x in add ensures x in Union(have, add) { assert x in Elements(Union(have, add)); }
    UnionOfKnown(Union(have, add), add);
  }

  lemma SeedingKeeps(clients: map<string, Client>, rewrite: Rewrite, a: Args)
    requires Keyed(clients)
    ensures Keyed(Seeded(clients, rewrite, a).0) && Kept(clients, Seeded(clients, rewrite, a).0)
  {
    var wanted := Wanted(rewrite, a);
    if wanted.Some? && a.id in clients {
      UnionIs(clients[a.id].redirectURIs, wanted.value.redirectURIs);
      UnionIs(clients[a.id].postLogoutURIs, wanted.value.postLogoutURIs);
    }
  }

  /** A run fails exactly when a URI it needs cannot be rewritten, and then changes nothing. Otherwise a new client is public
      with the two logout URIs rewritten from its redirect URI, and an existing one gets the name and those two, and keeps
      the rest; what was asked for is registered behind what was, once. No other client changes. */
  lemma SeededIsRegistered(clients: map<string, Client>, rewrite: Rewrite, a: Args)
    requires Keyed(clients)
    ensures var post := if a.postLogout == "" then rewrite(a.redirect, "/logged-out") else Some(a.postLogout);
            var front, back := rewrite(a.redirect, "/frontchannel-logout"), rewrite(a.redirect, "/backchannel-logout");
            var (after, r) := Seeded(clients, rewrite, a);
            && (r == Failed <==> post.None? || front.None? || back.None?)
            && (r == Failed || r == Unchanged ==> after == clients)
            && (r == Created <==> r != Failed && a.id !in clients)
            && (r == Updated <==> r != Failed && a.id in clients && after != clients)
            && (r == Created ==> after == clients[a.id := Client(a.id, a.name, Public, "", [a.redirect], [post.value], front.value, back.value)])
            && (r != Failed && r != Created ==>
                  && a.id in after && var was, c := clients[a.id], after[a.id];
                  && after == clients[a.id := c] && c.id == a.id && c.name == a.name
                  && c.clientType == was.clientType && c.secretHash == was.secretHash
                  && c.redirectURIs == (if a.redirect in was.redirectURIs then was.redirectURIs else was.redirectURIs + [a.redirect])
                  && c.postLogoutURIs == (if post.value in was.postLogoutURIs then was.postLogoutURIs else was.postLogoutURIs + [post.value])
                  && c.frontChannelURI == front.value && c.backChannelURI == back.value)
  {
    var wanted := Wanted(rewrite, a);
    if wanted.Some? && a.id in clients {
      UnionOne(clients[a.id].redirectURIs, wanted.value.redirectURIs[0]);
      UnionOne(clients[a.id].postLogoutURIs, wanted.value.postLogoutURIs[0]);
    }
  }

  lemma UnionOne(have: seq<string>, x: string)
    ensures Union(have, [x]) == if x in have then have else have + [x]
  {
    assert [x][..0] == [] && Union(have, []) == have;
  }

  /** The clients after a sequence of runs, whatever each was configured with. */
  function SeededAll(clients: map<string, Client>, rewrite: Rewrite, runs: seq<Args>): map<string, Client> {
    if runs == [] then clients else Seeded(SeededAll(clients, rewrite, runs[..|runs| - 1]), rewrite, runs[|runs| - 1]).0
  }

  /** Over any sequence of runs no client and no registered URI is lost... */
  lemma {:induction false} NothingIsLost(clients: map<string, Client>, rewrite: Rewrite, runs: seq<Args>)
    requires Keyed(clients)
    ensures Keyed(SeededAll(clients, rewrite, runs)) && Kept(clients, SeededAll(clients, rewrite, runs))
    decreases |runs|
  {
    if runs != [] {
      var init := runs[..|runs| - 1];
      NothingIsLost(clients, rewrite, init);
      var mid := SeededAll(clients, rewrite, init);
      SeedingKeeps(mid, rewrite, runs[|runs| - 1]);
      KeptTransitive(clients, mid, SeededAll(clients, rewrite, runs));
    }
  }

  lemma KeptTransitive(a: map<string, Client>, b: map<string, Client>, c: map<string, Client>)
    requires Kept(a, b) && Kept(b, c)
    ensures Kept(a, c)
  {
  }

  /** ... and what any of the runs registered is still registered at the end. */
  lemma {:induction false} EveryRunStaysRegistered(clients: map<string, Client>, rewrite: Rewrite, runs: seq<Args>, i: nat)
    requires Keyed(clients) && i < |runs| && Wanted(rewrite, runs[i]).Some?
    ensures var end := SeededAll(clients, rewrite, runs);
            runs[i].id in end && runs[i].redirect in end[runs[i].id].redirectURIs
    decreases |runs|
  {
    var init, last := runs[..|runs| - 1], runs[|runs| - 1];
    var mid := SeededAll(clients, rewrite, init);
    NothingIsLost(clients, rewrite, init);
    if i == |runs| - 1 {
      SeededIsRegistered(mid, rewrite, last);
    } else {
      EveryRunStaysRegistered(clients, rewrite, init, i);
      SeedingKeeps(mid, rewrite, last);
    }
  }
}

/** The organisation service and the active-organisation claim (internal/org/service.go, internal/org/claims.go). */
module Organizations {
  import opened Wrappers
  import opened Sorting
  import opened Domain
  import opened MemoryStore
  import opened OrgAdmin

  datatype OrgView = OrgView(orgID: string, orgName: string, role: OrgRole)

  /** The claim, and all memberships. */
  datatype Primary = Primary(active: OrgView, all: seq<OrgView>)

  ghost predicate DistinctSIDs(sessions: map<string, Session>) {
    forall g, h | g in sessions && h in sessions && sessions[g].sid == sessions[h].sid :: g == h
  }

  /** Each organisation is stored under its own ID. */
  ghost predicate Keyed(orgs: map<string, Organization>) { forall o | o in orgs :: orgs[o].id == o }

  /** What the user is in one organisation, if anything. */
  function ViewOf(db: Db, userID: string, o: Organization): Option<OrgView> {
    var ms := db.Members(o.id);
    if userID in ms then Some(OrgView(o.id, o.name, ms[userID].role)) else None
  }

  function Views(db: Db, userID: string, list: seq<Organization>): seq<OrgView> {
    if list == [] then []
    else
      var last := list[|list| - 1];
      Views(db, userID, list[..|list| - 1]) + match ViewOf(db, userID, last) case Some(v) => [v] case None => []
  }

  /** The views of the user's organisations, in an order by creation. */
  ghost predicate ViewsListed(db: Db, userID: string, views: seq<OrgView>) {
    exists list :: OrgsListed(db.orgs, db.OrgsOf(userID), list) && views == Views(db, userID, list)
  }

  /** The cookie path. */
  function ActiveOrgSet(db: Db, userID: string, hash: string, orgID: string): (Db, Result<()>) {
    if userID !in db.Members(orgID) then (db, Err(Forbidden))
    else if hash !in db.sessions then (db, Err(NotFound))
    else (db.SetActiveOrg(hash, orgID), Ok(()))
  }

  /** The Bearer path; at is where the session with that SID is stored, if it is. */
  function ActiveOrgSetBySID(db: Db, userID: string, sid: string, at: Option<string>, orgID: string): (Db, Result<()>)
    requires at.Some? ==> at.value in db.sessions
  {
    if userID !in db.Members(orgID) then (db, Err(Forbidden))
    else if at.None? then (db, Err(NotFound))
    else if db.sessions[at.value].userID != userID then (db, Err(Forbidden))
    else if sid == "" then (db, Err(Invalid))
    else (db.SetActiveOrg(at.value, orgID), Ok(()))
  }

  ghost predicate Locates(sessions: map<string, Session>, sid: string, at: Option<string>) {
    match at
    case Some(h) => h in sessions && sessions[h].sid == sid
    case None => forall h | h in sessions :: sessions[h].sid != sid
  }

  lemma LocatedOnce(sessions: map<string, Session>, sid: string, at: Option<string>, also: Option<string>)
    requires DistinctSIDs(sessions) && Locates(sessions, sid, at) && Locates(sessions, sid, also)
    ensures at == also
  {
  }

  /** The organisation a session has chosen, or "". */
  function Chosen(sessions: map<string, Session>, sid: string, at: Option<string>): string
    requires at.Some? ==> at.value in sessions
  {
    if sid != "" && at.Some? then sessions[at.value].activeOrgID else ""
  }

  /** The first view of that organisation. */
  function Find(views: seq<OrgView>, orgID: string): Option<OrgView> {
    if views == [] then None else if views[0].orgID == orgID then Some(views[0]) else Find(views[1..], orgID)
  }

  function PrimaryOf(views: seq<OrgView>, chosen: string): Result<Primary> {
    if views == [] then Err(NotFound)
    else if chosen != "" && Find(views, chosen).Some? then Ok(Primary(Find(views, chosen).value, views))
    else Ok(Primary(views[0], views))
  }

  /** r is an answer of PrimaryOrg: organisations created at one instant may be listed either way. */
  ghost predicate Answers(db: Db, userID: string, chosen: string, r: Result<Primary>) {
    exists views :: ViewsListed(db, userID, views) && r == PrimaryOf(views, chosen)
  }

  class Service {
    const store: Store

    constructor (store: Store)
      ensures this.store == store
    {
      this.store := store;
    }

    method Create(actorID: string, id: string, name: string, now: Time) returns (r: Result<()>)
      modifies store
      ensures (store.View(), r) == Created(old(store.View()), id, name, actorID, now)
    {
      if name == "" || |name| > 120 {
        return Err(Invalid);
      }
      store.CreateOrganization(Organization(id, name, now));
      r := store.AddOrganizationMember(Membership(id, actorID, Owner, now));
    }

    method SetActiveOrg(userID: string, hash: string, orgID: string) returns (r: Result<()>)
      modifies store
      ensures (store.View(), r) == ActiveOrgSet(old(store.View()), userID, hash, orgID)
    {
      var member := store.GetOrganizationMembership(orgID, userID);
      if member.Err? {
        return Err(Forbidden);
      }
      r := store.SetSessionActiveOrg(hash, orgID);
    }

    method SetActiveOrgBySID(userID: string, sid: string, orgID: string) returns (r: Result<()>)
      modifies store
      ensures forall at | DistinctSIDs(old(store.sessions)) && Locates(old(store.sessions), sid, at) ::
                (store.View(), r) == ActiveOrgSetBySID(old(store.View()), userID, sid, at, orgID)
    {
      var member := store.GetOrganizationMembership(orgID, userID);
      if member.Err? {
        return Err(Forbidden);
      }
      var sess := store.GetSessionBySID(sid);
      if sess.Err? {
        return Err(NotFound);
      }
      if sess.value.userID != userID {
        return Err(Forbidden);
      }
      ghost var h :| h in store.sessions && store.sessions[h] == sess.value;
      ghost var hash;
      r, hash := store.SetSessionActiveOrgBySID(sid, orgID);
      forall at | DistinctSIDs(old(store.sessions)) && Locates(old(store.sessions), sid, at)
        ensures (store.View(), r) == ActiveOrgSetBySID(old(store.View()), userID, sid, at, orgID)
      {
        LocatedOnce(old(store.sessions), sid, at, Some(h));
        if r.Ok? {
          LocatedOnce(old(store.sessions), sid, at, Some(hash));
        } else {
          assert store.View().sessions == old(store.View()).sessions;
          assert sid == "";
        }
      }
    }

    method MembershipViews(userID: string) returns (views: seq<OrgView>)
      ensures ViewsListed(store.View(), userID, views)
    {
      var orgs := store.ListOrganizationsForUser(userID);
      views := [];
      for i := 0 to |orgs|
        invariant views == Views(store.View(), userID, orgs[..i])
      {
        assert orgs[..i + 1][..i] == orgs[..i];
        var m := store.GetOrganizationMembership(orgs[i].id, userID);
        if m.Err? {
          continue;
        }
        views := views + [OrgView(orgs[i].id, orgs[i].name, m.value.role)];
      }
      assert orgs[..|orgs|] == orgs;
    }

    method PrimaryOrg(userID: string, sid: string) returns (r: Result<Primary>)
      ensures forall at | DistinctSIDs(store.sessions) && Locates(store.sessions, sid, at) ::
                Answers(store.View(), userID, Chosen(store.sessions, sid, at), r)
    {
      var views := MembershipViews(userID);
      if |views| == 0 {
        return Err(NotFound);
      }
      var activeOrgID := "";
      if sid != "" {
        var sess := store.GetSessionBySID(sid);
        if sess.Ok? {
          activeOrgID := sess.value.activeOrgID;
        }
      }
      if activeOrgID != "" {
        for i := 0 to |views|
          invariant Find(views, activeOrgID) == Find(views[i..], activeOrgID)
        {
          assert views[i..][1..] == views[i + 1..];
          if views[i].orgID == activeOrgID {
            return Ok(Primary(views[i], views));
          }
        }
      }
      r := Ok(Primary(views[0], views));
    }
  }

  // ----- What the claim says -----

  lemma {:induction false} ViewsAre(db: Db, userID: string, ids: seq<string>, list: seq<Organization>)
    requires Keyed(db.orgs) && OrgRows(db.orgs, ids, list) && (forall o | o in ids :: userID in db.Members(o))
    ensures var views := Views(db, userID, list);
            |views| == |ids| && forall i | 0 <= i < |ids| ::
              ids[i] in db.orgs && views[i] == OrgView(ids[i], db.orgs[ids[i]].name, db.Members(ids[i])[userID].role)
    decreases |list|
  {
    if list != [] {
      var k := |list| - 1;
      ViewsAre(db, userID, ids[..k], list[..k]);
      assert ids[k] in ids;
    }
  }

  lemma {:induction false} FindFinds(views: seq<OrgView>, orgID: string)
    ensures match Find(views, orgID)
            case Some(v) => v in views && v.orgID == orgID
            case None => forall v | v in views :: v.orgID != orgID
  {
    if views != [] && views[0].orgID != orgID { FindFinds(views[1..], orgID); }
  }

  /** The row of v is a current membership of the user, with the current role. */
  ghost predicate Current(db: Db, userID: string, v: OrgView) {
    && v.orgID in db.OrgsOf(userID)
    && v == OrgView(v.orgID, db.orgs[v.orgID].name, db.Members(v.orgID)[userID].role)
  }

  ghost predicate Earliest(db: Db, userID: string, orgID: string) {
    orgID in db.orgs && forall o | o in db.OrgsOf(userID) :: db.orgs[orgID].createdAt <= db.orgs[o].createdAt
  }

  /** The claim is a current membership: the chosen organisation if the user is in it, and one of the earliest created
      otherwise. There is none exactly when the user is in no organisation. */
  lemma PrimaryIs(db: Db, userID: string, chosen: string, r: Result<Primary>)
    requires Keyed(db.orgs) && Answers(db, userID, chosen, r)
    ensures r == Err(NotFound) <==> db.OrgsOf(userID) == {}
    ensures r.Ok? ==>
              && Current(db, userID, r.value.active)
              && if chosen != "" && chosen in db.OrgsOf(userID) then r.value.active.orgID == chosen
                 else Earliest(db, userID, r.value.active.orgID)
  {
    var views :| ViewsListed(db, userID, views) && r == PrimaryOf(views, chosen);
    var list :| OrgsListed(db.orgs, db.OrgsOf(userID), list) && views == Views(db, userID, list);
    var ids :| OrgRows(db.orgs, ids, list) && Elements(ids) == db.OrgsOf(userID);
    PrimaryOfList(db, userID, ids, list, chosen);
  }

  lemma PrimaryOfList(db: Db, userID: string, ids: seq<string>, list: seq<Organization>, chosen: string)
    requires Keyed(db.orgs) && OrgRows(db.orgs, ids, list) && Elements(ids) == db.OrgsOf(userID)
    ensures var r := PrimaryOf(Views(db, userID, list), chosen);
            && (r == Err(NotFound) <==> db.OrgsOf(userID) == {})
            && (r.Ok? ==>
                  && Current(db, userID, r.value.active)
                  && if chosen != "" && chosen in db.OrgsOf(userID) then r.value.active.orgID == chosen
                     else Earliest(db, userID, r.value.active.orgID))
  {
    var views := Views(db, userID, list);
    forall o | o in ids ensures o in db.OrgsOf(userID) { assert o in Elements(ids); }
    ViewsAre(db, userID, ids, list);
    if views == [] {
      assert Elements(ids) == {};
    } else {
      assert ids[0] in db.OrgsOf(userID);
      FindFinds(views, chosen);
      FirstIsEarliest(db, userID, ids, list);
      if chosen in db.OrgsOf(userID) {
        var i :| 0 <= i < |ids| && ids[i] == chosen;
        assert views[i] in views;
      }
    }
  }

  lemma FirstIsEarliest(db: Db, userID: string, ids: seq<string>, list: seq<Organization>)
    requires OrgRows(db.orgs, ids, list) && Elements(ids) == db.OrgsOf(userID) && ids != []
    ensures Earliest(db, userID, ids[0])
  {
    forall o | o in db.OrgsOf(userID) ensures db.orgs[ids[0]].createdAt <= db.orgs[o].createdAt {
      var i :| 0 <= i < |ids| && ids[i] == o;
      assert list[0].createdAt <= list[i].createdAt;
    }
  }

  /** The list of views: each organisation of the user once, with its name and the current role, earliest first. */
  lemma ViewsAreCurrent(db: Db, userID: string, views: seq<OrgView>)
    requires Keyed(db.orgs) && ViewsListed(db, userID, views)
    ensures forall o :: o in db.orgs && userID in db.Members(o) <==> exists v :: v in views && v.orgID == o
    ensures forall v | v in views :: v.orgID in db.orgs && userID in db.Members(v.orgID)
              && v.orgName == db.orgs[v.orgID].name && v.role == db.Members(v.orgID)[userID].role
    ensures forall i, j | 0 <= i < j < |views| :: views[i].orgID != views[j].orgID
              && db.orgs[views[i].orgID].createdAt <= db.orgs[views[j].orgID].createdAt
  {
    var list: seq<Organization> :| OrgsListed(db.orgs, db.OrgsOf(userID), list) && views == Views(db, userID, list);
    var ids: seq<string> :| OrgRows(db.orgs, ids, list) && Elements(ids) == db.OrgsOf(userID);
    forall o | o in ids ensures userID in db.Members(o) { assert o in Elements(ids); }
    ViewsAre(db, userID, ids, list);
    forall o ensures o in db.orgs && userID in db.Members(o) <==> exists v :: v in views && v.orgID == o {
      assert o in db.OrgsOf(userID) <==> o in Elements(ids);
      if o in ids {
        var i :| 0 <= i < |ids| && ids[i] == o;
        assert views[i] in views && views[i].orgID == o;
      }
    }
    forall i, j | 0 <= i < j < |views| ensures views[i].orgID != views[j].orgID
        && db.orgs[views[i].orgID].createdAt <= db.orgs[views[j].orgID].createdAt
    {
      assert list[i].createdAt <= list[j].createdAt;
    }
  }

  /** Choosing by cookie: accepted exactly of a member with a stored session, and only that session's choice changes. */
  lemma ChoosesExactly(db: Db, userID: string, hash: string, orgID: string)
    ensures var (after, r) := ActiveOrgSet(db, userID, hash, orgID);
            && (r == Err(Forbidden) <==> userID !in db.Members(orgID))
            && (r == Err(NotFound) <==> userID in db.Members(orgID) && hash !in db.sessions)
            && (r.Err? ==> after == db && r.error in {Forbidden, NotFound})
            && (r.Ok? ==> hash in db.sessions
                          && after == db.(sessions := db.sessions[hash := db.sessions[hash].(activeOrgID := orgID)]))
  {
  }

  /** Choosing by SID: accepted exactly of a member, for a stored session of their own with a SID. */
  lemma ChoosesBySIDExactly(db: Db, userID: string, sid: string, at: Option<string>, orgID: string)
    requires Locates(db.sessions, sid, at)
    ensures var (after, r) := ActiveOrgSetBySID(db, userID, sid, at, orgID);
            && (r.Ok? <==> userID in db.Members(orgID) && at.Some? && db.sessions[at.value].userID == userID && sid != "")
            && (r == Err(NotFound) <==> userID in db.Members(orgID) && forall h | h in db.sessions :: db.sessions[h].sid != sid)
            && (r == Err(Invalid) <==> userID in db.Members(orgID) && at.Some? && db.sessions[at.value].userID == userID && sid == "")
            && (r.Err? ==> after == db && r.error in {Forbidden, NotFound, Invalid})
            && (r.Ok? ==> db.sessions[at.value].sid == sid
                          && after == db.(sessions := db.sessions[at.value := db.sessions[at.value].(activeOrgID := orgID)]))
  {
  }

  /** The two ways of choosing do the same to a session of the user's own; to another user's session only the path by SID
      refuses. */
  lemma SameByHashAndBySID(db: Db, userID: string, hash: string, at: Option<string>, orgID: string)
    requires DistinctSIDs(db.sessions) && hash in db.sessions && db.sessions[hash].sid != ""
    requires Locates(db.sessions, db.sessions[hash].sid, at)
    ensures ActiveOrgSetBySID(db, userID, db.sessions[hash].sid, at, orgID) == ActiveOrgSet(db, userID, hash, orgID)
            <==> db.sessions[hash].userID == userID || userID !in db.Members(orgID)
  {
    LocatedOnce(db.sessions, db.sessions[hash].sid, at, Some(hash));
  }
}

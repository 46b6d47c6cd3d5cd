/** Runs of the organisation handlers, each handled as one step: every organisation keeps an owner, and a session's
    active organisation is the one last chosen for its SID. */
module Tenancy {
  import opened Wrappers
  import opened Sorting
  import opened Domain
  import opened MemoryStore
  import opened OrgAdmin
  import opened Organizations

  /** The store, and what the run has done: the organisation last chosen for each SID, and the SIDs ever started. */
  datatype Sys = Sys(db: Db, last: map<string, string>, started: set<string>)

  datatype Event =
    | Create(actorID: string, id: string, name: string, now: Time)
    | AdminCreate(ownerID: string, id: string, name: string, now: Time)
    | Add(orgID: string, userID: string, role: string, now: Time)
    | ChangeRole(orgID: string, userID: string, role: string)
    | Remove(orgID: string, userID: string)
    | Choose(userID: string, hash: string, orgID: string)
    | ChooseBySID(userID: string, sid: string, at: Option<string>, orgID: string)
    | Start(session: Session)
    | End(hash: string)
    | Elsewhere(to: Db)

  ghost predicate Enabled(s: Sys, ev: Event) {
    match ev
    case Create(_, id, _, _) => id != ""
    case AdminCreate(_, id, _, _) => id != ""
    case ChooseBySID(_, sid, at, _) => Locates(s.db.sessions, sid, at)
    case Start(row) => row.sid != "" && row.sid !in s.started && row.tokenHash !in s.db.sessions && row.activeOrgID == ""
    case Elsewhere(to) => to.sessions == s.db.sessions && to.orgs == s.db.orgs && to.orgMembers == s.db.orgMembers
    case _ => true
  }

  /** The answer of the organisation handlers. */
  function Handled(db: Db, ev: Event): (Db, Result<()>)
    requires ev.ChooseBySID? && ev.at.Some? ==> ev.at.value in db.sessions
  {
    match ev
    case Create(actorID, id, name, now) => Created(db, id, name, actorID, now)
    case AdminCreate(ownerID, id, name, now) => CreatedByAdmin(db, id, name, ownerID, now)
    case Add(orgID, userID, role, now) => Added(db, orgID, userID, role, now)
    case ChangeRole(orgID, userID, role) => RoleChanged(db, orgID, userID, role)
    case Remove(orgID, userID) => Removed(db, orgID, userID)
    case Choose(userID, hash, orgID) => ActiveOrgSet(db, userID, hash, orgID)
    case ChooseBySID(userID, sid, at, orgID) => ActiveOrgSetBySID(db, userID, sid, at, orgID)
    case Start(row) => (db.PutSession(row), Ok(()))
    case End(hash) => (db.DeleteSession(hash), Ok(()))
    case Elsewhere(to) => (to, Ok(()))
  }

  ghost function Apply(s: Sys, ev: Event): Sys
    requires Enabled(s, ev)
  {
    var (db', r) := Handled(s.db, ev);
    Sys(db',
        if r.Ok? && ev.Choose? then s.last[s.db.sessions[ev.hash].sid := ev.orgID]
        else if r.Ok? && ev.ChooseBySID? then s.last[ev.sid := ev.orgID] else s.last,
        if ev.Start? then s.started + {ev.session.sid} else s.started)
  }

  /** Before the first event there are no sessions and no organisations. */
  ghost predicate Init(s: Sys) {
    s.db.sessions == map[] && s.db.orgs == map[] && s.db.orgMembers == map[] && s.last == map[] && s.started == {}
  }

  ghost predicate IsRun(s: Sys, evs: seq<Event>, t: Sys)
    decreases |evs|
  {
    if evs == [] then s == t
    else Enabled(s, evs[0]) && IsRun(Apply(s, evs[0]), evs[1..], t)
  }

  // ----- The invariant -----

  /** The organisation a session shows is the one last chosen for its SID. */
  ghost predicate ShowsLast(sessions: map<string, Session>, last: map<string, string>) {
    forall h | h in sessions :: sessions[h].activeOrgID == if sessions[h].sid in last then last[sessions[h].sid] else ""
  }

  ghost predicate Started(sessions: map<string, Session>, last: map<string, string>, started: set<string>) {
    && (forall h | h in sessions :: sessions[h].sid != "" && sessions[h].sid in started)
    && last.Keys <= started
  }

  ghost predicate SessionInv(sessions: map<string, Session>, last: map<string, string>, started: set<string>) {
    DistinctSIDs(sessions) && ShowsLast(sessions, last) && Started(sessions, last, started)
  }

  ghost predicate Named(orgs: map<string, Organization>) { Keyed(orgs) && "" !in orgs }

  ghost predicate OrgInv(db: Db) { Owned(db) && Named(db.orgs) }

  ghost predicate Inv(s: Sys) { SessionInv(s.db.sessions, s.last, s.started) && OrgInv(s.db) }

  lemma ChoosingKeeps(sessions: map<string, Session>, last: map<string, string>, started: set<string>, h: string, orgID: string)
    requires SessionInv(sessions, last, started) && h in sessions
    ensures SessionInv(sessions[h := sessions[h].(activeOrgID := orgID)], last[sessions[h].sid := orgID], started)
  {
  }

  lemma StartingKeeps(sessions: map<string, Session>, last: map<string, string>, started: set<string>, row: Session)
    requires SessionInv(sessions, last, started)
    requires row.sid != "" && row.sid !in started && row.tokenHash !in sessions && row.activeOrgID == ""
    ensures SessionInv(sessions[row.tokenHash := row], last, started + {row.sid})
  {
  }

  lemma EndingKeeps(sessions: map<string, Session>, last: map<string, string>, started: set<string>, h: string)
    requires SessionInv(sessions, last, started)
    ensures SessionInv(sessions - {h}, last, started)
  {
  }

  /** Only the session events and an accepted choice touch the sessions. */
  lemma OtherSessions(s: Sys, ev: Event)
    requires Enabled(s, ev) && !ev.Start? && !ev.End? && (ev.Choose? || ev.ChooseBySID? ==> Handled(s.db, ev).1.Err?)
    ensures Handled(s.db, ev).0.sessions == s.db.sessions
  {
  }

  lemma SessionStep(s: Sys, ev: Event)
    requires SessionInv(s.db.sessions, s.last, s.started) && Enabled(s, ev)
    ensures var t := Apply(s, ev); SessionInv(t.db.sessions, t.last, t.started)
  {
    var t := Apply(s, ev);
    if ev.Start? {
      StartingKeeps(s.db.sessions, s.last, s.started, ev.session);
    } else if ev.End? {
      EndingKeeps(s.db.sessions, s.last, s.started, ev.hash);
      assert t.db.sessions == s.db.sessions - {ev.hash};
    } else if ev.Choose? && Handled(s.db, ev).1.Ok? {
      ChoosingKeeps(s.db.sessions, s.last, s.started, ev.hash, ev.orgID);
    } else if ev.ChooseBySID? && Handled(s.db, ev).1.Ok? {
      ChoosingKeeps(s.db.sessions, s.last, s.started, ev.at.value, ev.orgID);
    } else {
      OtherSessions(s, ev);
      assert t.last == s.last && t.started == s.started;
    }
  }

  lemma SameOrgs(db: Db, to: Db)
    requires Owned(db) && to.orgs == db.orgs && to.orgMembers == db.orgMembers
    ensures Owned(to)
  {
    forall o | o in to.orgs ensures Owners(to.Members(o)) != {} { assert to.Members(o) == db.Members(o); }
  }

  lemma AddedKeepsOwned(db: Db, orgID: string, userID: string, role: string, now: Time)
    requires Owned(db)
    ensures Owned(Added(db, orgID, userID, role, now).0)
  {
    if orgID in db.orgs && (role == "" || ParseRole(role).Some?) && userID in db.users {
      AddingKeepsOwned(db, Membership(orgID, userID, if role == "" then Member else ParseRole(role).value, now));
    }
  }

  lemma OwnedStep(s: Sys, ev: Event)
    requires Owned(s.db) && Enabled(s, ev)
    ensures Owned(Handled(s.db, ev).0)
  {
    if ev.Create? {
      CreatingKeepsOwned(s.db, ev.id, ev.name, ev.actorID, ev.now);
    } else if ev.AdminCreate? {
      CreatingKeepsOwned(s.db, ev.id, ev.name, ev.ownerID, ev.now);
    } else if ev.Add? {
      AddedKeepsOwned(s.db, ev.orgID, ev.userID, ev.role, ev.now);
    } else if ev.ChangeRole? {
      ChangingRoleKeepsOwned(s.db, ev.orgID, ev.userID, ev.role);
    } else if ev.Remove? {
      RemovingKeepsOwned(s.db, ev.orgID, ev.userID);
    } else {
      SameOrgs(s.db, Handled(s.db, ev).0);
    }
  }

  /** Only a creation touches the organisations. */
  lemma OrgsAfter(s: Sys, ev: Event)
    requires Enabled(s, ev) && !ev.Create? && !ev.AdminCreate?
    ensures Handled(s.db, ev).0.orgs == s.db.orgs
  {
    if ev.Add? {
      AddedFrame(s.db, ev.orgID, ev.userID, ev.role, ev.now);
    } else if ev.ChangeRole? {
      assert Handled(s.db, ev) == RoleChanged(s.db, ev.orgID, ev.userID, ev.role);
    } else if ev.Remove? {
      assert Handled(s.db, ev) == Removed(s.db, ev.orgID, ev.userID);
    } else if ev.End? {
      EndFrame(s.db, ev.hash);
    }
  }

  lemma AddedFrame(db: Db, orgID: string, userID: string, role: string, now: Time)
    ensures var to := Added(db, orgID, userID, role, now).0; to == db.(orgMembers := to.orgMembers)
  {
  }

  lemma EndFrame(db: Db, hash: string)
    ensures var to := db.DeleteSession(hash); to == db.(sessions := to.sessions, sidRP := to.sidRP)
  {
  }

  lemma OrgsAfterCreate(db: Db, id: string, name: string, ownerID: string, now: Time)
    requires Named(db.orgs) && id != ""
    ensures Named(Created(db, id, name, ownerID, now).0.orgs)
  {
    var to := Created(db, id, name, ownerID, now).0.orgs;
    assert to == db.orgs || to == db.orgs[id := Organization(id, name, now)];
    NamingKeeps(db.orgs, Organization(id, name, now));
  }

  lemma NamedStep(s: Sys, ev: Event)
    requires Named(s.db.orgs) && Enabled(s, ev)
    ensures Named(Handled(s.db, ev).0.orgs)
  {
    if ev.Create? {
      OrgsAfterCreate(s.db, ev.id, ev.name, ev.actorID, ev.now);
    } else if ev.AdminCreate? {
      OrgsAfterCreate(s.db, ev.id, ev.name, ev.ownerID, ev.now);
    } else {
      OrgsAfter(s, ev);
    }
  }

  lemma NamingKeeps(orgs: map<string, Organization>, o: Organization)
    requires Named(orgs) && o.id != ""
    ensures Named(orgs[o.id := o])
  {
  }

  lemma StepKeeps(s: Sys, ev: Event)
    requires Inv(s) && Enabled(s, ev)
    ensures Inv(Apply(s, ev))
  {
    SessionStep(s, ev);
    OwnedStep(s, ev);
    NamedStep(s, ev);
  }

  lemma {:induction false} RunKeeps(s: Sys, evs: seq<Event>, t: Sys)
    requires Inv(s) && IsRun(s, evs, t)
    ensures Inv(t)
    decreases |evs|
  {
    if evs != [] {
      StepKeeps(s, evs[0]);
      RunKeeps(Apply(s, evs[0]), evs[1..], t);
    }
  }

  lemma InitInv(s: Sys)
    requires Init(s)
    ensures Inv(s)
  {
  }

  // ----- Results -----

  /** In every run each organisation that has been created has an owner. */
  lemma EveryOrganizationHasAnOwner(s: Sys, evs: seq<Event>, t: Sys, orgID: string)
    requires Init(s) && IsRun(s, evs, t) && orgID in t.db.orgs
    ensures exists u | u in t.db.Members(orgID) :: t.db.Members(orgID)[u].role == Owner
  {
    InitInv(s);
    RunKeeps(s, evs, t);
    var u :| u in Owners(t.db.Members(orgID));
  }

  /** In every run PrimaryOrg answers with a current membership and its current role; with the organisation last chosen
      for the SID while the session is stored and the user is still in it, and with one created earliest otherwise. */
  lemma PrimaryOrgFollowsTheLastChoice(s: Sys, evs: seq<Event>, t: Sys, userID: string, sid: string, at: Option<string>,
                                       r: Result<Primary>)
    requires Init(s) && IsRun(s, evs, t) && Locates(t.db.sessions, sid, at)
    requires Answers(t.db, userID, Chosen(t.db.sessions, sid, at), r)
    ensures DistinctSIDs(t.db.sessions) && (r == Err(NotFound) <==> t.db.OrgsOf(userID) == {})
    ensures r.Ok? ==>
              && Current(t.db, userID, r.value.active)
              && if at.Some? && sid in t.last && t.last[sid] in t.db.OrgsOf(userID)
                 then r.value.active.orgID == t.last[sid]
                 else Earliest(t.db, userID, r.value.active.orgID)
  {
    InitInv(s);
    RunKeeps(s, evs, t);
    assert "" !in t.db.OrgsOf(userID);
    PrimaryIs(t.db, userID, Chosen(t.db.sessions, sid, at), r);
  }
}

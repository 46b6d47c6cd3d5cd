/** The organisation handlers interleaved (internal/web/admin_orgs.go): a request is a sequence of store operations, and
    others may come between its owner check and its write. When an organisation can lose its last owner, exactly. */
module OrgRuns {
  import opened Wrappers
  import opened Domain
  import opened OrgAdmin
  import opened Runs

  /** What an update or a removal does to a member. */
  datatype Change = Drop | Become(role: OrgRole)

  /** A request before one of its store operations. */
  datatype Request =
    | AskingOwner(id: string, name: string, ownerID: string, now: Time)   // admin create: is the account there?
    | Creating(id: string, name: string, ownerID: string, now: Time)      // CreateOrganization
    | Owning(id: string, ownerID: string, now: Time)                      // AddOrganizationMember of the first owner
    | AskingOrg(m: Membership)                                            // add: is the organisation there?
    | AskingUser(m: Membership)                                           // add: is the account there?
    | Adding(m: Membership)                                               // AddOrganizationMember
    | Reading(orgID: string, userID: string, change: Change)              // GetOrganizationMembership
    | Counting(orgID: string, userID: string, change: Change)             // countOrgOwnersCtx
    | Writing(orgID: string, userID: string, change: Change)              // past its check
    | Finished

  /** completed holds the organisations whose first owner was stored. */
  datatype Sys = Sys(db: Db, requests: map<nat, Request>, completed: set<string>)

  function Changed(db: Db, orgID: string, userID: string, change: Change): Db {
    if userID !in db.Members(orgID) then db
    else match change case Drop => DropMember(db, orgID, userID) case Become(role) => SetRole(db, orgID, userID, role)
  }

  /** One store operation of a request, and where it goes on. */
  function Step(db: Db, r: Request): (Db, Request) {
    match r
    case AskingOwner(id, name, ownerID, now) => (db, if ownerID in db.users then Creating(id, name, ownerID, now) else Finished)
    case Creating(id, name, ownerID, now) =>
      if NameOk(name) then (CreateOrg(db, Organization(id, name, now)), Owning(id, ownerID, now)) else (db, Finished)
    case Owning(id, ownerID, now) => (AddMember(db, Membership(id, ownerID, Owner, now)).0, Finished)
    case AskingOrg(m) => (db, if m.orgID in db.orgs then AskingUser(m) else Finished)
    case AskingUser(m) => (db, if m.userID in db.users then Adding(m) else Finished)
    case Adding(m) => (AddMember(db, m).0, Finished)
    case Reading(o, u, change) =>
      var ms := db.Members(o);
      (db, if u !in ms then Finished else if ms[u].role == Owner && change != Become(Owner) then Counting(o, u, change) else Writing(o, u, change))
    case Counting(o, u, change) => (db, if |Owners(db.Members(o))| <= 1 then Finished else Writing(o, u, change))
    case Writing(o, u, change) => (Changed(db, o, u, change), Finished)
    case Finished => (db, Finished)
  }

  datatype Label = Arrive(tid: nat, r: Request) | Move(tid: nat) | Abort(tid: nat) | Elsewhere(to: Db)

  predicate IsStart(r: Request) { r.AskingOwner? || r.Creating? || r.AskingOrg? || r.Reading? }

  ghost predicate Enabled(s: Sys, l: Label) {
    match l
    case Arrive(tid, r) => tid !in s.requests && IsStart(r)
    case Move(tid) => tid in s.requests
    case Abort(tid) => tid in s.requests
    case Elsewhere(to) => to.orgs == s.db.orgs && to.orgMembers == s.db.orgMembers
  }

  /** The organisation whose first owner the step stores. */
  function Completes(db: Db, r: Request): set<string> {
    if r.Owning? && r.ownerID !in db.Members(r.id) then {r.id} else {}
  }

  ghost function Apply(s: Sys, l: Label): Sys
    requires Enabled(s, l)
  {
    match l
    case Arrive(tid, r) => s.(requests := s.requests[tid := r])
    case Move(tid) =>
      var (db', r') := Step(s.db, s.requests[tid]);
      Sys(db', s.requests[tid := r'], s.completed + Completes(s.db, s.requests[tid]))
    case Abort(tid) => s.(requests := s.requests[tid := Finished])
    case Elsewhere(to) => s.(db := to)
  }

  ghost predicate Init(s: Sys) { s.db.orgs == map[] && s.db.orgMembers == map[] && s.requests == map[] && s.completed == {} }

  // ----- The requests past their check -----

  predicate Unseats(r: Request, o: string, u: string) { r.Writing? && r.orgID == o && r.userID == u && r.change != Become(Owner) }

  /** The users that requests past their check are about to remove from o, or to make plain members. */
  ghost function Named(requests: map<nat, Request>, o: string): set<string> {
    set t | t in requests && requests[t].Writing? && Unseats(requests[t], o, requests[t].userID) :: requests[t].userID
  }

  lemma NamedBy(requests: map<nat, Request>, o: string, u: string)
    ensures u in Named(requests, o) <==> exists t :: t in requests && Unseats(requests[t], o, u)
  {
  }

  ghost function OwnersOf(db: Db, o: string): set<string> { Owners(db.Members(o)) }

  /** Some owner is not named by a request past its check. */
  ghost predicate Safe(s: Sys, o: string) { !(OwnersOf(s.db, o) <= Named(s.requests, o)) }

  lemma OwnersAfterChange(db: Db, o: string, u: string, change: Change, x: string)
    ensures OwnersOf(Changed(db, o, u, change), x) ==
              if x != o || u !in db.Members(o) then OwnersOf(db, x)
              else if change == Become(Owner) then OwnersOf(db, x) + {u} else OwnersOf(db, x) - {u}
  {
    var db' := Changed(db, o, u, change);
    if x != o { assert db'.Members(x) == db.Members(x); }
  }

  lemma OwnersOfPut(ms: map<string, Membership>, m: Membership)
    requires m.userID !in ms
    ensures Owners(ms[m.userID := m]) == Owners(ms) + if m.role == Owner then {m.userID} else {}
  {
  }

  lemma MembersAfterAdd(db: Db, m: Membership, x: string)
    ensures AddMember(db, m).0.Members(x) ==
              if x == m.orgID && m.userID !in db.Members(x) then db.Members(x)[m.userID := m] else db.Members(x)
  {
  }

  lemma OwnersAfterAdd(db: Db, m: Membership, x: string)
    ensures OwnersOf(AddMember(db, m).0, x) ==
              OwnersOf(db, x) + if x == m.orgID && m.userID !in db.Members(x) && m.role == Owner then {m.userID} else {}
  {
    MembersAfterAdd(db, m, x);
    if x == m.orgID && m.userID !in db.Members(x) { OwnersOfPut(db.Members(x), m); }
  }

  /** A request that moved: whom the requests past their check name afterwards. */
  lemma NamedAfter(requests: map<nat, Request>, tid: nat, r: Request, o: string)
    requires tid in requests
    ensures Named(requests[tid := r], o) <= Named(requests, o) + (if r.Writing? && Unseats(r, o, r.userID) then {r.userID} else {})
    ensures r.Writing? && Unseats(r, o, r.userID) && !requests[tid].Writing? ==> Named(requests[tid := r], o) == Named(requests, o) + {r.userID}
    ensures requests[tid].Writing? ==> Named(requests, o) - {requests[tid].userID} <= Named(requests[tid := r], o)
    ensures !requests[tid].Writing? ==> Named(requests, o) <= Named(requests[tid := r], o)
  {
    forall u | u in Named(requests, o) && (!requests[tid].Writing? || u != requests[tid].userID) ensures u in Named(requests[tid := r], o) {
      NamedBy(requests, o, u);
      var t :| t in requests && Unseats(requests[t], o, u);
      assert t != tid && requests[tid := r][t] == requests[t];
    }
    if r.Writing? && Unseats(r, o, r.userID) { assert requests[tid := r][tid] == r; }
  }

  // ----- What the pending writes can do -----

  /** A request past its check makes its write; nothing else happens. */
  ghost predicate WriteNext(s: Sys, s': Sys) { exists t :: t in s.requests && s.requests[t].Writing? && s' == Apply(s, Move(t)) }

  /** The writes that are pending can leave o without an owner. */
  ghost predicate CanBeEmptied(s: Sys, o: string) { exists s', n :: Steps(WriteNext, s, s', n) && OwnersOf(s'.db, o) == {} }

  ghost predicate KeepsSeat(s: Sys, o: string, u: string) { u in OwnersOf(s.db, o) && u !in Named(s.requests, o) }

  lemma UnnamedStays(s: Sys, t: nat, o: string, u: string)
    requires t in s.requests && s.requests[t].Writing? && KeepsSeat(s, o, u)
    ensures KeepsSeat(Apply(s, Move(t)), o, u)
  {
    var r := s.requests[t];
    OwnersAfterChange(s.db, r.orgID, r.userID, r.change, o);
    NamedAfter(s.requests, t, Finished, o);
    NamedBy(s.requests, o, u);
    assert !Unseats(r, o, u);
  }

  /** The write of a named owner unseats it, and leaves the others named. */
  lemma NamedIsUnseated(s: Sys, t: nat, o: string, u: string)
    requires t in s.requests && Unseats(s.requests[t], o, u) && u in OwnersOf(s.db, o)
    ensures var s' := Apply(s, Move(t));
            OwnersOf(s'.db, o) == OwnersOf(s.db, o) - {u} && Named(s.requests, o) - {u} <= Named(s'.requests, o)
  {
    OwnersAfterChange(s.db, o, u, s.requests[t].change, o);
    NamedAfter(s.requests, t, Finished, o);
  }

  lemma OneIsUnseated(s: Sys, o: string) returns (m: Sys)
    requires OwnersOf(s.db, o) <= Named(s.requests, o) && OwnersOf(s.db, o) != {}
    ensures WriteNext(s, m) && OwnersOf(m.db, o) <= Named(m.requests, o) && |OwnersOf(m.db, o)| < |OwnersOf(s.db, o)|
  {
    var u :| u in OwnersOf(s.db, o);
    NamedBy(s.requests, o, u);
    var t :| t in s.requests && Unseats(s.requests[t], o, u);
    m := Apply(s, Move(t));
    NamedIsUnseated(s, t, o, u);
  }

  ghost predicate AllNamed(s: Sys, o: string) { OwnersOf(s.db, o) <= Named(s.requests, o) }

  lemma AllNamedAreUnseated(s: Sys, o: string, next: (Sys, Sys) -> bool) returns (s': Sys, n: nat)
    requires AllNamed(s, o) && forall a, b | WriteNext(a, b) :: next(a, b)
    ensures Steps(next, s, s', n) && OwnersOf(s'.db, o) == {}
  {
    s', n := s, 0;
    while OwnersOf(s'.db, o) != {}
      invariant Steps(next, s, s', n) && AllNamed(s', o)
      decreases |OwnersOf(s'.db, o)|
    {
      var m := OneIsUnseated(s', o);
      StepsThen(next, s, s', m, n);
      s', n := m, n + 1;
    }
  }

  /** The pending writes can leave an organisation without an owner if and only if every owner is named by a request that
      is past its check. */
  lemma EmptiedExactlyWhenAllAreNamed(s: Sys, o: string)
    ensures CanBeEmptied(s, o) <==> OwnersOf(s.db, o) <= Named(s.requests, o)
  {
    if OwnersOf(s.db, o) <= Named(s.requests, o) {
      var s', n := AllNamedAreUnseated(s, o, WriteNext);
    } else if CanBeEmptied(s, o) {
      var s', n :| Steps(WriteNext, s, s', n) && OwnersOf(s'.db, o) == {};
      var u :| u in OwnersOf(s.db, o) && u !in Named(s.requests, o);
      var P := (x: Sys) => KeepsSeat(x, o, u);
      forall a, b | P(a) && WriteNext(a, b) ensures P(b) {
        var t :| t in a.requests && a.requests[t].Writing? && b == Apply(a, Move(t));
        UnnamedStays(a, t, o, u);
      }
      StepsInduction(WriteNext, s, s', n, P);
    }
  }

  // ----- Which steps are the dangerous ones -----

  /** Every organisation with a first owner has an owner that no request past its check names. */
  ghost predicate AllSafe(s: Sys) { forall o | o in s.completed :: Safe(s, o) }

  /** A check passes only when, without the member concerned, some owner is left that no request past its check names;
      and a first owner is not already named. */
  ghost predicate Careful(s: Sys, l: Label)
    requires Enabled(s, l)
  {
    l.Move? ==>
      match s.requests[l.tid]
      case Counting(o, u, change) =>
        o in s.completed && |OwnersOf(s.db, o)| > 1 && change != Become(Owner) ==> !(OwnersOf(s.db, o) <= Named(s.requests, o) + {u})
      case Owning(id, u, _) =>
        u !in s.db.Members(id) ==> !(OwnersOf(s.db, id) + {u} <= Named(s.requests, id))
      case _ => true
  }

  lemma WritingStaysSafe(s: Sys, t: nat, o: string)
    requires t in s.requests && s.requests[t].Writing? && Safe(s, o)
    ensures Safe(Apply(s, Move(t)), o)
  {
    var u :| u in OwnersOf(s.db, o) && u !in Named(s.requests, o);
    UnnamedStays(s, t, o, u);
  }

  lemma ReadingStaysSafe(s: Sys, t: nat, o: string)
    requires t in s.requests && s.requests[t].Reading? && Safe(s, o)
    ensures Safe(Apply(s, Move(t)), o)
  {
    var r := Step(s.db, s.requests[t]).1;
    NamedAfter(s.requests, t, r, o);
  }

  lemma CountingStep(s: Sys, t: nat, x: string)
    requires t in s.requests && s.requests[t].Counting?
    ensures var r := s.requests[t];
            Safe(Apply(s, Move(t)), x) <==>
              if x == r.orgID && |OwnersOf(s.db, x)| > 1 && r.change != Become(Owner)
              then !(OwnersOf(s.db, x) <= Named(s.requests, x) + {r.userID}) else Safe(s, x)
  {
    NamedAfter(s.requests, t, Step(s.db, s.requests[t]).1, x);
  }

  lemma AddingStep(s: Sys, t: nat, x: string)
    requires t in s.requests && (s.requests[t].Adding? || s.requests[t].Owning?)
    ensures Named(Apply(s, Move(t)).requests, x) == Named(s.requests, x)
    ensures OwnersOf(s.db, x) <= OwnersOf(Apply(s, Move(t)).db, x)
    ensures s.requests[t].Owning? && s.requests[t].ownerID !in s.db.Members(s.requests[t].id) ==>
              OwnersOf(Apply(s, Move(t)).db, s.requests[t].id) == OwnersOf(s.db, s.requests[t].id) + {s.requests[t].ownerID}
  {
    var r := s.requests[t];
    NamedAfter(s.requests, t, Finished, x);
    if r.Adding? {
      OwnersAfterAdd(s.db, r.m, x);
    } else {
      OwnersAfterAdd(s.db, Membership(r.id, r.ownerID, Owner, r.now), x);
      OwnersAfterAdd(s.db, Membership(r.id, r.ownerID, Owner, r.now), r.id);
    }
  }

  lemma AskingStep(s: Sys, t: nat, x: string)
    requires t in s.requests
    requires var r := s.requests[t]; r.AskingOwner? || r.Creating? || r.AskingOrg? || r.AskingUser? || r.Finished?
    ensures Safe(Apply(s, Move(t)), x) <==> Safe(s, x)
    ensures Apply(s, Move(t)).completed == s.completed
  {
    NamedAfter(s.requests, t, Step(s.db, s.requests[t]).1, x);
    assert Apply(s, Move(t)).db.Members(x) == s.db.Members(x);
  }

  lemma OtherStaysSafe(s: Sys, l: Label, o: string)
    requires Enabled(s, l) && !l.Move? && Safe(s, o)
    ensures Safe(Apply(s, l), o)
  {
    match l
    case Arrive(tid, r) => ArrivalNamesNobody(s.requests, tid, r, o);
    case Abort(tid) => NamedAfter(s.requests, tid, Finished, o);
    case Elsewhere(to) => assert to.Members(o) == s.db.Members(o);
  }

  lemma ArrivalNamesNobody(requests: map<nat, Request>, tid: nat, r: Request, o: string)
    requires tid !in requests && IsStart(r)
    ensures Named(requests[tid := r], o) <= Named(requests, o)
  {
  }

  lemma OwningStep(s: Sys, t: nat)
    requires AllSafe(s) && t in s.requests && s.requests[t].Owning?
    ensures AllSafe(Apply(s, Move(t))) <==> Careful(s, Move(t))
  {
    var r, s' := s.requests[t], Apply(s, Move(t));
    AddingStep(s, t, r.id);
    forall o | o in s.completed ensures Safe(s', o) { AddingStep(s, t, o); }
  }

  lemma CheckStep(s: Sys, t: nat)
    requires AllSafe(s) && t in s.requests && s.requests[t].Counting?
    ensures AllSafe(Apply(s, Move(t))) <==> Careful(s, Move(t))
  {
    forall o | o in s.completed
      ensures Safe(Apply(s, Move(t)), o) <==>
                if o == s.requests[t].orgID && |OwnersOf(s.db, o)| > 1 && s.requests[t].change != Become(Owner)
                then !(OwnersOf(s.db, o) <= Named(s.requests, o) + {s.requests[t].userID}) else true
    {
      CountingStep(s, t, o);
    }
  }

  lemma HarmlessStep(s: Sys, t: nat)
    requires AllSafe(s) && t in s.requests && !s.requests[t].Owning? && !s.requests[t].Counting?
    ensures AllSafe(Apply(s, Move(t)))
  {
    var r := s.requests[t];
    forall o | o in s.completed ensures Safe(Apply(s, Move(t)), o) {
      if r.Writing? { WritingStaysSafe(s, t, o); }
      else if r.Reading? { ReadingStaysSafe(s, t, o); }
      else if r.Adding? { AddingStep(s, t, o); }
      else { AskingStep(s, t, o); }
    }
  }

  /** A step out of a safe state leads to a safe state if and only if it is careful. */
  lemma SafeExactlyWhenCareful(s: Sys, l: Label)
    requires AllSafe(s) && Enabled(s, l)
    ensures AllSafe(Apply(s, l)) <==> Careful(s, l)
  {
    if l.Move? {
      if s.requests[l.tid].Owning? { OwningStep(s, l.tid); }
      else if s.requests[l.tid].Counting? { CheckStep(s, l.tid); }
      else { HarmlessStep(s, l.tid); }
    } else {
      forall o | o in s.completed ensures Safe(Apply(s, l), o) { OtherStaysSafe(s, l, o); }
    }
  }

  // ----- Runs -----

  ghost predicate Next(s: Sys, s': Sys) { exists l :: Enabled(s, l) && s' == Apply(s, l) }

  ghost predicate CarefulNext(s: Sys, s': Sys) { exists l :: Enabled(s, l) && Careful(s, l) && s' == Apply(s, l) }

  ghost predicate Reachable(s: Sys) { exists s0, n :: Init(s0) && Steps(Next, s0, s, n) }

  /** In a run of careful steps every organisation keeps an owner, in every state... */
  lemma CarefulRunsKeepAnOwner(s: Sys, s': Sys, n: nat, o: string)
    requires Init(s) && Steps(CarefulNext, s, s', n) && o in s'.completed
    ensures OwnersOf(s'.db, o) != {} && !CanBeEmptied(s', o)
  {
    var P := (x: Sys) => AllSafe(x);
    forall a, b | P(a) && CarefulNext(a, b) ensures P(b) {
      var l :| Enabled(a, l) && Careful(a, l) && b == Apply(a, l);
      SafeExactlyWhenCareful(a, l);
    }
    StepsInduction(CarefulNext, s, s', n, P);
    EmptiedExactlyWhenAllAreNamed(s', o);
    assert Safe(s', o);
  }

  /** ... and the first step of a run that is not careful leaves some organisation that its pending writes can empty. */
  lemma FirstCarelessStep(s: Sys, m: Sys, n: nat, l: Label) returns (o: string)
    requires Init(s) && Steps(CarefulNext, s, m, n) && Enabled(m, l) && !Careful(m, l)
    ensures o in Apply(m, l).completed && CanBeEmptied(Apply(m, l), o)
  {
    var P := (x: Sys) => AllSafe(x);
    forall a, b | P(a) && CarefulNext(a, b) ensures P(b) {
      var k :| Enabled(a, k) && Careful(a, k) && b == Apply(a, k);
      SafeExactlyWhenCareful(a, k);
    }
    StepsInduction(CarefulNext, s, m, n, P);
    SafeExactlyWhenCareful(m, l);
    o :| o in Apply(m, l).completed && !Safe(Apply(m, l), o);
    EmptiedExactlyWhenAllAreNamed(Apply(m, l), o);
  }

  // ----- It does happen -----

  lemma GoesOn(s: Sys, l: Label)
    requires Reachable(s) && Enabled(s, l)
    ensures Reachable(Apply(s, l))
  {
    var s0, n :| Init(s0) && Steps(Next, s0, s, n);
    assert Next(s, Apply(s, l));
    StepsThen(Next, s0, s, Apply(s, l), n);
  }

  lemma Moves(s: Sys, tid: nat, r: Request) returns (s': Sys)
    requires Reachable(s) && tid in s.requests && Step(s.db, s.requests[tid]) == (s.db, r) && Completes(s.db, s.requests[tid]) == {}
    ensures Reachable(s') && s' == s.(requests := s.requests[tid := r])
  {
    GoesOn(s, Move(tid));
    s' := Apply(s, Move(tid));
    assert s'.completed == s.completed;
  }

  lemma Arrives(s: Sys, tid: nat, r: Request) returns (s': Sys)
    requires Reachable(s) && tid !in s.requests && IsStart(r)
    ensures Reachable(s') && s' == s.(requests := s.requests[tid := r])
  {
    GoesOn(s, Arrive(tid, r));
    s' := Apply(s, Arrive(tid, r));
  }

  /** A member that is one of several owners: a request to remove or demote it passes its check. */
  lemma PassesCheck(s: Sys, tid: nat, o: string, u: string, change: Change) returns (s': Sys)
    requires Reachable(s) && tid !in s.requests && u in OwnersOf(s.db, o) && |OwnersOf(s.db, o)| > 1 && change != Become(Owner)
    ensures Reachable(s') && s' == s.(requests := s.requests[tid := Writing(o, u, change)])
  {
    var m1 := Arrives(s, tid, Reading(o, u, change));
    var m2 := Moves(m1, tid, Counting(o, u, change));
    s' := Moves(m2, tid, Writing(o, u, change));
    assert s'.requests == s.requests[tid := Writing(o, u, change)];
  }

  lemma Owns(s: Sys, tid: nat, id: string, ownerID: string, now: Time) returns (s': Sys)
    requires Reachable(s) && tid in s.requests && s.requests[tid] == Owning(id, ownerID, now) && ownerID !in s.db.Members(id)
    ensures Reachable(s') && s'.requests == s.requests[tid := Finished] && s'.completed == s.completed + {id}
    ensures s'.db.users == s.db.users && s'.db.orgs == s.db.orgs && OwnersOf(s'.db, id) == OwnersOf(s.db, id) + {ownerID}
    ensures s'.db.Members(id).Keys == s.db.Members(id).Keys + {ownerID}
  {
    GoesOn(s, Move(tid));
    s' := Apply(s, Move(tid));
    OwnersAfterAdd(s.db, Membership(id, ownerID, Owner, now), id);
  }

  lemma Creates(s: Sys, tid: nat, id: string, name: string, ownerID: string, now: Time) returns (s': Sys)
    requires Reachable(s) && tid in s.requests && s.requests[tid] == Creating(id, name, ownerID, now) && NameOk(name)
    ensures Reachable(s') && s'.requests == s.requests[tid := Owning(id, ownerID, now)] && s'.completed == s.completed
    ensures s'.db == s.db.(orgs := s.db.orgs[id := Organization(id, name, now)])
  {
    GoesOn(s, Move(tid));
    s' := Apply(s, Move(tid));
  }

  lemma Adds(s: Sys, tid: nat, m: Membership) returns (s': Sys)
    requires Reachable(s) && tid in s.requests && s.requests[tid] == Adding(m) && m.userID !in s.db.Members(m.orgID) && m.role == Owner
    ensures Reachable(s') && s'.requests == s.requests[tid := Finished] && s'.completed == s.completed
    ensures OwnersOf(s'.db, m.orgID) == OwnersOf(s.db, m.orgID) + {m.userID}
  {
    GoesOn(s, Move(tid));
    s' := Apply(s, Move(tid));
    OwnersAfterAdd(s.db, m, m.orgID);
  }

  lemma TwoAccounts() returns (s: Sys)
    ensures Reachable(s) && Init(s) && s.db.users.Keys == {"a", "b"}
  {
    var users := map["a" := User("a", false), "b" := User("b", false)];
    s := Sys(Db(users, map[], map[], map[], map[], map[], map[], map[], map[], map[]), map[], {});
    assert Steps(Next, s, s, 0);
  }

  lemma IsStored(s: Sys, tid: nat, id: string, name: string, ownerID: string) returns (s': Sys)
    requires Reachable(s) && tid !in s.requests && NameOk(name)
    ensures Reachable(s') && s'.requests == s.requests[tid := Owning(id, ownerID, 0)] && s'.completed == s.completed
    ensures s'.db == s.db.(orgs := s.db.orgs[id := Organization(id, name, 0)])
  {
    var m := Arrives(s, tid, Creating(id, name, ownerID, 0));
    s' := Creates(m, tid, id, name, ownerID, 0);
    assert s'.requests == s.requests[tid := Owning(id, ownerID, 0)];
  }

  /** A creation that runs through: the organisation is stored with its first owner. */
  lemma Founds(s: Sys, tid: nat, id: string, name: string, ownerID: string) returns (s': Sys)
    requires Reachable(s) && tid !in s.requests && NameOk(name) && ownerID !in s.db.Members(id)
    ensures Reachable(s') && s'.requests == s.requests[tid := Finished] && s'.completed == s.completed + {id}
    ensures s'.db.users == s.db.users && id in s'.db.orgs && OwnersOf(s'.db, id) == OwnersOf(s.db, id) + {ownerID}
    ensures s'.db.Members(id).Keys == s.db.Members(id).Keys + {ownerID}
  {
    var m := IsStored(s, tid, id, name, ownerID);
    assert m.db.Members(id) == s.db.Members(id);
    assert OwnersOf(m.db, id) == OwnersOf(s.db, id);
    s' := Owns(m, tid, id, ownerID, 0);
    assert m.requests[tid := Finished] == s.requests[tid := Finished];
  }

  lemma IsLetIn(s: Sys, tid: nat, m: Membership) returns (s': Sys)
    requires Reachable(s) && tid !in s.requests && m.orgID in s.db.orgs && m.userID in s.db.users
    ensures Reachable(s') && s' == s.(requests := s.requests[tid := Adding(m)])
  {
    var s1 := Arrives(s, tid, AskingOrg(m));
    var s2 := Moves(s1, tid, AskingUser(m));
    s' := Moves(s2, tid, Adding(m));
    assert s'.requests == s.requests[tid := Adding(m)];
  }

  /** An addition that runs through: one more owner. */
  lemma Joins(s: Sys, tid: nat, m: Membership) returns (s': Sys)
    requires Reachable(s) && tid !in s.requests && m.orgID in s.db.orgs && m.userID in s.db.users
    requires m.userID !in s.db.Members(m.orgID) && m.role == Owner
    ensures Reachable(s') && s'.requests == s.requests[tid := Finished] && s'.completed == s.completed
    ensures OwnersOf(s'.db, m.orgID) == OwnersOf(s.db, m.orgID) + {m.userID}
  {
    var s1 := IsLetIn(s, tid, m);
    s' := Adds(s1, tid, m);
    assert s1.requests[tid := Finished] == s.requests[tid := Finished];
  }

  lemma TwoOwners() returns (s: Sys)
    ensures Reachable(s) && s.completed == {"o"} && s.requests.Keys == {0, 1} && OwnersOf(s.db, "o") == {"a", "b"}
  {
    var s0 := TwoAccounts();
    s := TwoFound(s0, "o", "Org", "a", "b");
  }

  lemma TwoFound(s0: Sys, o: string, name: string, a: string, b: string) returns (s: Sys)
    requires Reachable(s0) && Init(s0) && NameOk(name) && a != b && b in s0.db.users
    ensures Reachable(s) && s.completed == {o} && s.requests.Keys == {0, 1} && OwnersOf(s.db, o) == {a, b}
  {
    assert s0.db.Members(o) == map[] && OwnersOf(s0.db, o) == {};
    var s1 := Founds(s0, 0, o, name, a);
    s := Joins(s1, 1, Membership(o, b, Owner, 0));
  }

  /** A run from the initial state: two owners, and two requests that remove or demote one each. Both pass their checks;
      when both have written, no owner is left. */
  lemma TwoRequestsInFlight(first: Change, second: Change) returns (s: Sys, s': Sys, n: nat)
    requires first != Become(Owner) && second != Become(Owner)
    ensures Reachable(s) && "o" in s.completed && OwnersOf(s.db, "o") == {"a", "b"}
    ensures Steps(Next, s, s', n) && OwnersOf(s'.db, "o") == {}
  {
    var s0 := TwoOwners();
    assert |OwnersOf(s0.db, "o")| > 1;
    var s1 := PassesCheck(s0, 2, "o", "a", first);
    s := PassesCheck(s1, 3, "o", "b", second);
    assert Unseats(s.requests[2], "o", "a") && Unseats(s.requests[3], "o", "b");
    NamedBy(s.requests, "o", "a");
    NamedBy(s.requests, "o", "b");
    forall a, b | WriteNext(a, b) ensures Next(a, b) {
      var t :| t in a.requests && a.requests[t].Writing? && b == Apply(a, Move(t));
      assert Enabled(a, Move(t));
    }
    s', n := AllNamedAreUnseated(s, "o", Next);
  }

  // ----- Served alone, a request does what its handler does -----

  function Rank(r: Request): nat {
    match r
    case AskingOwner(_, _, _, _) => 3
    case Creating(_, _, _, _) => 2
    case Owning(_, _, _) => 1
    case AskingOrg(_) => 3
    case AskingUser(_) => 2
    case Adding(_) => 1
    case Reading(_, _, _) => 3
    case Counting(_, _, _) => 2
    case Writing(_, _, _) => 1
    case Finished => 0
  }

  /** All the steps of a request with nothing in between. */
  function ServedAlone(db: Db, r: Request): Db
    decreases Rank(r)
  {
    if r.Finished? then db else ServedAlone(Step(db, r).0, Step(db, r).1)
  }

  lemma RemovalServedAlone(db: Db, o: string, u: string)
    ensures ServedAlone(db, Reading(o, u, Drop)) == Removed(db, o, u).0
  {
    ServedWriting(db, o, u, Drop);
  }

  lemma RoleChangeServedAlone(db: Db, o: string, u: string, role: string)
    requires ParseRole(role).Some?
    ensures ServedAlone(db, Reading(o, u, Become(ParseRole(role).value))) == RoleChanged(db, o, u, role).0
  {
    ServedWriting(db, o, u, Become(ParseRole(role).value));
  }

  lemma ServedWriting(db: Db, o: string, u: string, change: Change)
    ensures ServedAlone(db, Writing(o, u, change)) == Changed(db, o, u, change)
    ensures ServedAlone(db, Reading(o, u, change)) ==
              var ms := db.Members(o);
              if u !in ms || (ms[u].role == Owner && change != Become(Owner) && |Owners(ms)| <= 1) then db else Changed(db, o, u, change)
  {
    var changed := Changed(db, o, u, change);
    assert ServedAlone(changed, Finished) == changed && ServedAlone(db, Finished) == db;
    var next := Step(db, Reading(o, u, change)).1;
    assert next.Counting? ==> ServedAlone(db, next) == ServedAlone(db, Step(db, next).1);
  }

  lemma CreationServedAlone(db: Db, id: string, name: string, ownerID: string, now: Time)
    ensures ServedAlone(db, AskingOwner(id, name, ownerID, now)) == if ownerID in db.users then Created(db, id, name, ownerID, now).0 else db
    ensures ServedAlone(db, Creating(id, name, ownerID, now)) == Created(db, id, name, ownerID, now).0
  {
    var made := CreateOrg(db, Organization(id, name, now));
    var owned := AddMember(made, Membership(id, ownerID, Owner, now)).0;
    assert ServedAlone(owned, Finished) == owned && ServedAlone(db, Finished) == db;
    assert ServedAlone(made, Owning(id, ownerID, now)) == owned;
  }

  lemma AdditionServedAlone(db: Db, o: string, u: string, role: string, now: Time)
    requires role == "" || ParseRole(role).Some?
    ensures ServedAlone(db, AskingOrg(Membership(o, u, if role == "" then Member else ParseRole(role).value, now))) ==
              Added(db, o, u, role, now).0
  {
    var m := Membership(o, u, if role == "" then Member else ParseRole(role).value, now);
    var added := AddMember(db, m).0;
    assert ServedAlone(added, Finished) == added && ServedAlone(db, Finished) == db;
    assert ServedAlone(db, Adding(m)) == added;
    assert ServedAlone(db, AskingUser(m)) == if u in db.users then added else db;
  }
}

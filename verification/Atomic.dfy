/** Requests served one at a time, each at one instant: a request runs to its end with no other step between.
    Such runs are runs of the interleaved machine. */
module Atomic {
  import opened Wrappers
  import opened Domain
  import opened Ledger
  import opened Grants
  import opened Runs

  /** What the random source returns to one request: its first token, its second, and an id. */
  datatype Draws = Draws(first: string, second: string, id: string) {
    ghost predicate Fresh(used: set<string>) {
      && first != second && first != id && second != id && "" !in {first, second, id} && {first, second, id} !! used
    }
  }

  datatype Served = Served(db: Db, pending: map<string, PendingAuth>, events: seq<Event>, drawn: set<string>)

  function SessionRank(k: Cont, issue: nat, other: nat): nat { if k.ForIssue? then issue else other }

  function BrowserRank(b: BrowserThread): nat {
    match b
    case Authorize(_) => 12
    case Consenting(_, _, _) => 12
    case Lookup(_, k) => SessionRank(k, 5, 11)
    case Live(_, _, k) => SessionRank(k, 4, 10)
    case Forget(_, k) => SessionRank(k, 3, 9)
    case Account(_, _, _) => 9
    case Build(_, _, _, _) => 8
    case CheckConsent(_, _, _, _) => 7
    case Park(_, _) => 1
    case TakePending(_, _, _, _) => 8
    case Decide(_, _, _, _) => 7
    case SaveConsent(_, _, _, _) => 6
    case SaveCode(_, _, _, _) => 2
    case IndexClient(_, _) => 1
  }

  function TokenRank(t: TokenThread): nat {
    match t
    case CodeClient(_) => 7
    case CodeTake(_, _, _) => 6
    case CodeCheck(_, _, _) => 5
    case RefreshClient(_) => 7
    case RefreshTake(_, _) => 6
    case RefreshReuse(_) => 5
    case RefreshCheck(_, _) => 5
    case Revoke(_) => 1
    case GrantUser(_) => 4
    case GrantAccess(_) => 3
    case GrantRefresh(_, _) => 2
    case Respond(_, _, _) => 1
  }

  /** How many steps a request may still take. */
  function Rank(th: Thread): nat {
    match th
    case Browser(b) => BrowserRank(b)
    case Token(t) => TokenRank(t)
    case Done => 0
  }

  lemma BrowserProgress(cfg: Config, db: Db, pending: map<string, PendingAuth>, now: Time, b: BrowserThread, v: string)
    ensures Rank(BrowserStep(cfg, db, pending, now, b, v).next) < BrowserRank(b)
  {
  }

  lemma TokenProgress(cfg: Config, db: Db, now: Time, t: TokenThread, v: string, w: string)
    ensures Rank(TokenStep(cfg, db, now, t, v, w).next) < TokenRank(t)
  {
  }

  lemma Progress(cfg: Config, db: Db, pending: map<string, PendingAuth>, now: Time, th: Thread, v: string, w: string)
    requires th != Done
    ensures Rank(Body(cfg, db, pending, now, th, v, w).next) < Rank(th)
  {
    match th
    case Browser(b) => BrowserProgress(cfg, db, pending, now, b, v);
    case Token(t) => TokenProgress(cfg, db, now, t, v, w);
    case Done =>
  }

  /** The value a step is given as its token: a refresh token is the second a request draws. */
  function Drawing(th: Thread, d: Draws): string { if th.Token? && th.t.GrantRefresh? then d.second else d.first }

  /** The rest of a request, served at instant now. */
  function Serve(cfg: Config, db: Db, pending: map<string, PendingAuth>, now: Time, th: Thread, d: Draws): Served
    decreases Rank(th)
  {
    if th.Done? then Served(db, pending, [], {})
    else
      var r := Body(cfg, db, pending, now, th, Drawing(th, d), d.id);
      Progress(cfg, db, pending, now, th, Drawing(th, d), d.id);
      var rest := Serve(cfg, r.db, r.pending, now, r.next, d);
      rest.(events := r.events + rest.events, drawn := Drawn(th, Drawing(th, d), d.id) + rest.drawn)
  }

  /** The whole of a request as one step. */
  ghost function ServeRequest(cfg: Config, s: Sys, tid: nat, th: Thread, d: Draws): Sys {
    var r := Serve(cfg, s.db, s.pending, s.now, th, d);
    s.(db := r.db, pending := r.pending, threads := s.threads[tid := Done], log := s.log + r.events, used := s.used + r.drawn)
  }

  datatype AtomicLabel = Request(tid: nat, th: Thread, d: Draws) | Other(l: Label)

  ghost predicate AtomicEnabled(s: Sys, a: AtomicLabel) {
    match a
    case Request(tid, th, d) => IsStart(th) && tid !in s.threads && d.Fresh(s.used)
    case Other(l) => !l.Spawn? && !l.Step? && !l.Abort? && Enabled(s, l)
  }

  ghost function AtomicApply(cfg: Config, s: Sys, a: AtomicLabel): Sys
    requires AtomicEnabled(s, a)
  {
    match a
    case Request(tid, th, d) => ServeRequest(cfg, s, tid, th, d)
    case Other(l) => Apply(cfg, s, l)
  }

  /** One request served alone, or one step of anything else. */
  ghost predicate AtomicNext(cfg: Config, s: Sys, s': Sys) {
    exists a :: AtomicEnabled(s, a) && s' == AtomicApply(cfg, s, a)
  }

  ghost function AtomicNextOf(cfg: Config): (Sys, Sys) -> bool { (s: Sys, s': Sys) => AtomicNext(cfg, s, s') }

  ghost predicate AtomicLeads(cfg: Config, s: Sys, s': Sys, n: nat) { Steps(AtomicNextOf(cfg), s, s', n) }

  ghost predicate AtomicReachable(cfg: Config, s: Sys) { exists s0, n :: Init(s0) && AtomicLeads(cfg, s0, s, n) }

  /** Induction over atomic runs. */
  lemma AtomicInduction(cfg: Config, s: Sys, s': Sys, n: nat, P: Sys -> bool)
    requires forall a, b | P(a) && AtomicNext(cfg, a, b) :: P(b)
    requires P(s) && AtomicLeads(cfg, s, s', n)
    ensures P(s')
  {
    StepsInduction(AtomicNextOf(cfg), s, s', n, P);
  }

  lemma AtomicLeadsThen(cfg: Config, s: Sys, m: Sys, s': Sys, n: nat)
    requires AtomicLeads(cfg, s, m, n) && AtomicNext(cfg, m, s')
    ensures AtomicLeads(cfg, s, s', n + 1)
  {
    StepsThen(AtomicNextOf(cfg), s, m, s', n);
  }

  // ----- Atomic runs are runs -----

  /** The values a request may still draw. */
  ghost function ToDraw(th: Thread, d: Draws): set<string> {
    if th.Done? || (th.Browser? && th.b.IndexClient?) || (th.Token? && (th.t.Respond? || th.t.Revoke?)) then {}
    else if th.Token? && th.t.GrantRefresh? then {d.second, d.id}
    else {d.first, d.second, d.id}
  }

  lemma DrawsInTurn(cfg: Config, db: Db, pending: map<string, PendingAuth>, now: Time, th: Thread, d: Draws, used: set<string>)
    requires th != Done && d.Fresh({}) && ToDraw(th, d) !! used
    ensures var v := Drawing(th, d);
            Drawn(th, v, d.id) !! used && ToDraw(Body(cfg, db, pending, now, th, v, d.id).next, d) !! used + Drawn(th, v, d.id)
  {
    match th
    case Browser(b) => assert b.SaveCode? ==> BrowserStep(cfg, db, pending, now, b, d.first).next.b.IndexClient?;
    case Token(t) =>
    case Done =>
  }

  /** A request served alone is a run of its own steps. */
  lemma {:induction false} ServingIsARun(cfg: Config, s: Sys, tid: nat, d: Draws) returns (n: nat)
    requires tid in s.threads && d.Fresh({}) && ToDraw(s.threads[tid], d) !! s.used
    ensures Leads(cfg, s, ServeRequest(cfg, s, tid, s.threads[tid], d), n)
    decreases Rank(s.threads[tid])
  {
    var th := s.threads[tid];
    var end := ServeRequest(cfg, s, tid, th, d);
    if th.Done? {
      assert end == s by { assert s.log + [] == s.log && s.threads[tid := Done] == s.threads && s.used + {} == s.used; }
      return 0;
    }
    var v := Drawing(th, d);
    DrawsInTurn(cfg, s.db, s.pending, s.now, th, d, s.used);
    Progress(cfg, s.db, s.pending, s.now, th, v, d.id);
    assert Enabled(s, Step(tid, v, d.id));
    var m := Apply(cfg, s, Step(tid, v, d.id));
    var k := ServingIsARun(cfg, m, tid, d);
    OneStepServed(cfg, s, tid, d);
    assert Next(cfg, s, m);
    ThenLeads(cfg, s, m, end, k);
    return k + 1;
  }

  lemma OneStepServed(cfg: Config, s: Sys, tid: nat, d: Draws)
    requires tid in s.threads && s.threads[tid] != Done && Enabled(s, Step(tid, Drawing(s.threads[tid], d), d.id))
    ensures var m := Apply(cfg, s, Step(tid, Drawing(s.threads[tid], d), d.id));
            ServeRequest(cfg, s, tid, s.threads[tid], d) == ServeRequest(cfg, m, tid, m.threads[tid], d)
  {
    var th := s.threads[tid];
    var m := Apply(cfg, s, Step(tid, Drawing(th, d), d.id));
    var r := Body(cfg, s.db, s.pending, s.now, th, Drawing(th, d), d.id);
    var rest := Serve(cfg, r.db, r.pending, s.now, r.next, d);
    assert s.log + (r.events + rest.events) == (s.log + r.events) + rest.events;
    assert s.threads[tid := Done] == m.threads[tid := Done];
  }

  lemma SpawnThenServe(cfg: Config, s: Sys, tid: nat, th: Thread, d: Draws)
    requires IsStart(th) && tid !in s.threads
    ensures Next(cfg, s, s.(threads := s.threads[tid := th]))
    ensures ServeRequest(cfg, s.(threads := s.threads[tid := th]), tid, th, d) == ServeRequest(cfg, s, tid, th, d)
  {
    assert Enabled(s, Spawn(tid, th));
    assert s.threads[tid := th][tid := Done] == s.threads[tid := Done];
  }

  lemma RequestIsARun(cfg: Config, s: Sys, tid: nat, th: Thread, d: Draws) returns (n: nat)
    requires IsStart(th) && tid !in s.threads && d.Fresh(s.used)
    ensures Leads(cfg, s, ServeRequest(cfg, s, tid, th, d), n)
  {
    var m := s.(threads := s.threads[tid := th]);
    SpawnThenServe(cfg, s, tid, th, d);
    n := ServingIsARun(cfg, m, tid, d);
    ThenLeads(cfg, s, m, ServeRequest(cfg, s, tid, th, d), n);
    n := n + 1;
  }

  lemma AtomicStepIsARun(cfg: Config, s: Sys, s': Sys) returns (n: nat)
    requires AtomicNext(cfg, s, s')
    ensures Leads(cfg, s, s', n)
  {
    var a :| AtomicEnabled(s, a) && s' == AtomicApply(cfg, s, a);
    match a
    case Request(tid, th, d) => n := RequestIsARun(cfg, s, tid, th, d);
    case Other(l) =>
      assert Next(cfg, s, s') && Leads(cfg, s', s', 0);
      ThenLeads(cfg, s, s', s', 0);
      n := 1;
  }

  lemma AtomicRunIsARun(cfg: Config, s: Sys, s': Sys, n: nat) returns (k: nat)
    requires AtomicLeads(cfg, s, s', n)
    ensures Leads(cfg, s, s', k)
  {
    assert Leads(cfg, s, s, 0);
    var P := x => exists i :: Leads(cfg, s, x, i);
    forall a, b | P(a) && AtomicNext(cfg, a, b) ensures P(b) {
      var i :| Leads(cfg, s, a, i);
      var j := AtomicStepIsARun(cfg, a, b);
      LeadsJoin(cfg, s, a, b, i, j);
    }
    AtomicInduction(cfg, s, s', n, P);
    k :| Leads(cfg, s, s', k);
  }

  /** Every state that requests served one at a time reach is a state of the interleaved machine. */
  lemma AtomicIsReachable(cfg: Config, s: Sys)
    requires AtomicReachable(cfg, s)
    ensures Reachable(cfg, s)
  {
    var s0, n :| Init(s0) && AtomicLeads(cfg, s0, s, n);
    var k := AtomicRunIsARun(cfg, s0, s, n);
  }

  ghost predicate AllDone(s: Sys) { forall t | t in s.threads :: s.threads[t] == Done }

  /** Between requests none is in flight. */
  lemma NothingInFlight(cfg: Config, s: Sys)
    requires AtomicReachable(cfg, s)
    ensures AllDone(s)
  {
    var s0, n :| Init(s0) && AtomicLeads(cfg, s0, s, n);
    var P := x => AllDone(x);
    forall a, b | P(a) && AtomicNext(cfg, a, b) ensures P(b) { AtomicStaysDone(cfg, a, b); }
    AtomicInduction(cfg, s0, s, n, P);
  }

  lemma AtomicStaysDone(cfg: Config, s: Sys, s': Sys)
    requires AllDone(s) && AtomicNext(cfg, s, s')
    ensures AllDone(s')
  {
  }
}

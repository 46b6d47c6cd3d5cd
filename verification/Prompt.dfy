/** How long after its authorize request a grant can be exchanged: when each request is served at one instant, and interleaved. */
module Prompt {
  import opened Wrappers
  import opened Domain
  import opened Grants
  import opened Atomic
  import opened Scene
  import Accounts
  import Flows
  import Frames
  import Lineage
  import Soundness

  /** The instant of a session lookup's decision, if it is made to issue a code. */
  ghost predicate ContNow(k: Cont, now: Time) { k.ForIssue? ==> k.decidedAt == now }

  /** Whatever the request has decided, it decided now. */
  ghost predicate DecidedNow(th: Thread, now: Time) {
    th.Browser? ==>
      match th.b
      case Lookup(_, k) => ContNow(k, now)
      case Live(_, _, k) => ContNow(k, now)
      case Forget(_, k) => ContNow(k, now)
      case Account(_, _, k) => ContNow(k, now)
      case CheckConsent(_, _, _, builtAt) => builtAt == now
      case SaveConsent(_, _, _, decidedAt) => decidedAt == now
      case SaveCode(_, _, _, decidedAt) => decidedAt == now
      case _ => true
  }

  /** A code issued at the instant of the decision. */
  ghost predicate IssuedAtOnce(e: Event) { e.CodeIssued? ==> e.decidedAt == e.at }

  ghost predicate AllAtOnce(log: seq<Event>) { forall e | e in log :: IssuedAtOnce(e) }

  lemma BrowserDecidesNow(cfg: Config, db: Db, pending: map<string, PendingAuth>, now: Time, b: BrowserThread, v: string)
    requires DecidedNow(Browser(b), now)
    ensures var r := BrowserStep(cfg, db, pending, now, b, v); DecidedNow(r.next, now) && AllAtOnce(r.events)
  {
  }

  lemma TokenDecidesNothing(cfg: Config, db: Db, now: Time, t: TokenThread, v: string, w: string)
    ensures var r := TokenStep(cfg, db, now, t, v, w); !r.next.Browser? && AllAtOnce(r.events)
  {
  }

  lemma {:induction false} ServedAtOnce(cfg: Config, db: Db, pending: map<string, PendingAuth>, now: Time, th: Thread, d: Draws)
    requires DecidedNow(th, now)
    ensures AllAtOnce(Serve(cfg, db, pending, now, th, d).events)
    decreases Rank(th)
  {
    if !th.Done? {
      var v := Drawing(th, d);
      var r := Body(cfg, db, pending, now, th, v, d.id);
      if th.Browser? { BrowserDecidesNow(cfg, db, pending, now, th.b, v); } else { TokenDecidesNothing(cfg, db, now, th.t, v, d.id); }
      Progress(cfg, db, pending, now, th, v, d.id);
      ServedAtOnce(cfg, r.db, r.pending, now, r.next, d);
    }
  }

  lemma StepAtOnce(cfg: Config, s: Sys, s': Sys)
    requires AllAtOnce(s.log) && AtomicNext(cfg, s, s')
    ensures AllAtOnce(s'.log)
  {
    var a :| AtomicEnabled(s, a) && s' == AtomicApply(cfg, s, a);
    match a
    case Request(tid, th, d) => ServedAtOnce(cfg, s.db, s.pending, s.now, th, d);
    case Other(l) =>
  }

  lemma CodesIssuedAtOnce(cfg: Config, s: Sys)
    requires AtomicReachable(cfg, s)
    ensures AllAtOnce(s.log)
  {
    var s0, n :| Init(s0) && AtomicLeads(cfg, s0, s, n);
    var P := (x: Sys) => AllAtOnce(x.log);
    forall a, b | P(a) && AtomicNext(cfg, a, b) ensures P(b) { StepAtOnce(cfg, a, b); }
    AtomicInduction(cfg, s0, s, n, P);
  }

  /** When requests are served one at a time, an exchange comes less than eleven code lifetimes after the authorize request
      it rests on was built. */
  lemma GrantsAreShortLived(cfg: Config, s: Sys, k: nat) returns (p: PendingAuth)
    requires AtomicReachable(cfg, s) && k < |s.log| && s.log[k].Exchanged?
    ensures var builtAt := Soundness.BuiltAt(cfg, p);
            && RequestBuilt(p, builtAt) in s.log[..k] && p.clientID == s.log[k].clientID && p.redirectURI == s.log[k].redirectURI
            && builtAt <= s.log[k].at < builtAt + 11 * cfg.codeTTL
  {
    AtomicIsReachable(cfg, s);
    CodesIssuedAtOnce(cfg, s);
    var registered, consent, code, decidedAt;
    p, registered, consent, code, decidedAt := Soundness.GrantSoundness(cfg, s, k);
    var issued := CodeIssued(code.(used := false), p, decidedAt, code.expiresAt - cfg.codeTTL);
    assert issued in s.log && IssuedAtOnce(issued);
  }

  // ----- Interleaved: the exact condition -----

  /** The rows of the codes keep everything but the mark of use. */
  ghost predicate SameButUsed(codes: map<string, AuthCode>, codes': map<string, AuthCode>) {
    forall h | h in codes :: h in codes' && codes'[h].(used := false) == codes[h].(used := false)
  }

  lemma TakenSameButUsed(db: Db, h: string)
    ensures SameButUsed(db.codes, db.TakeCode(h).0.codes)
  {
    if h in db.codes && !db.codes[h].used { MarkedSameButUsed(db.codes, h); }
  }

  lemma MarkedSameButUsed(codes: map<string, AuthCode>, h: string)
    requires h in codes
    ensures SameButUsed(codes, codes[h := codes[h].(used := true)])
  {
  }

  lemma TokenKeepsRows(cfg: Config, db: Db, now: Time, t: TokenThread, v: string, w: string)
    ensures SameButUsed(db.codes, TokenStep(cfg, db, now, t, v, w).db.codes)
  {
    Frames.TokenFrame(cfg, db, now, t, v, w);
    Frames.TokenWrites(cfg, db, now, t, v, w);
    if t.CodeTake? { TakenSameButUsed(db, t.hash); }
  }

  lemma BrowserKeepsRows(cfg: Config, db: Db, pending: map<string, PendingAuth>, now: Time, b: BrowserThread, v: string)
    requires b.SaveCode? ==> v !in db.codes
    ensures SameButUsed(db.codes, BrowserStep(cfg, db, pending, now, b, v).db.codes)
  {
    Frames.BrowserFrame(cfg, db, pending, now, b, v);
  }

  lemma StepKeepsRows(cfg: Config, s: Sys, l: Label)
    requires Lineage.Inv(s) && Enabled(s, l)
    ensures SameButUsed(s.db.codes, Apply(cfg, s, l).db.codes)
  {
    if l.Step? {
      match s.threads[l.tid]
      case Browser(b) => BrowserKeepsRows(cfg, s.db, s.pending, s.now, b, l.v);
      case Token(t) => TokenKeepsRows(cfg, s.db, s.now, t, l.v, l.w);
      case Done =>
    }
  }

  /** An exchange comes before the code it takes expires. */
  ghost predicate InTime(codes: map<string, AuthCode>, e: Event) {
    e.Exchanged? ==> e.codeHash in codes && e.at < codes[e.codeHash].expiresAt
  }

  lemma TokenInTime(cfg: Config, db: Db, now: Time, t: TokenThread, v: string, w: string)
    requires Soundness.TokenOk(db, t)
    ensures forall e | e in TokenStep(cfg, db, now, t, v, w).events :: InTime(db.codes, e)
  {
  }

  lemma BrowserInTime(cfg: Config, db: Db, pending: map<string, PendingAuth>, now: Time, b: BrowserThread, v: string)
    ensures forall e | e in BrowserStep(cfg, db, pending, now, b, v).events :: !e.Exchanged?
  {
  }

  lemma InTimeKept(codes: map<string, AuthCode>, codes': map<string, AuthCode>, e: Event)
    requires InTime(codes, e) && SameButUsed(codes, codes')
    ensures InTime(codes', e)
  {
    if e.Exchanged? { assert codes'[e.codeHash].(used := false) == codes[e.codeHash].(used := false); }
  }

  ghost predicate AllInTime(codes: map<string, AuthCode>, log: seq<Event>) { forall e | e in log :: InTime(codes, e) }

  lemma StepInTime(cfg: Config, s: Sys, l: Label)
    requires Lineage.Inv(s) && Soundness.Inv(cfg, s) && AllInTime(s.db.codes, s.log) && Enabled(s, l)
    ensures var s' := Apply(cfg, s, l); AllInTime(s'.db.codes, s'.log)
  {
    var s' := Apply(cfg, s, l);
    StepKeepsRows(cfg, s, l);
    if l.Step? {
      match s.threads[l.tid]
      case Browser(b) => BrowserInTime(cfg, s.db, s.pending, s.now, b, l.v);
      case Token(t) =>
        assert Soundness.ThreadOk(cfg, s.db, s.log, s.now, s.threads[l.tid]);
        TokenInTime(cfg, s.db, s.now, t, l.v, l.w);
      case Done =>
    }
    forall e | e in s'.log ensures InTime(s'.db.codes, e) {
      assert InTime(s.db.codes, e);
      InTimeKept(s.db.codes, s'.db.codes, e);
    }
  }

  /** In every run from a state on, the rows of its codes stay, and every exchange is in time. */
  lemma RunsInTime(cfg: Config, m: Sys, s': Sys)
    requires Reachable(cfg, m) && Reaches(cfg, m, s')
    ensures SameButUsed(m.db.codes, s'.db.codes) && AllInTime(s'.db.codes, s'.log)
  {
    AlwaysInTime(cfg, m);
    Soundness.ReachableInv(cfg, m);
    var n :| Leads(cfg, m, s', n);
    var P := (x: Sys) => Soundness.Inv(cfg, x) && Lineage.Inv(x) && AllInTime(x.db.codes, x.log) && SameButUsed(m.db.codes, x.db.codes);
    forall a, b | P(a) && Next(cfg, a, b) ensures P(b) {
      var l :| Enabled(a, l) && b == Apply(cfg, a, l);
      Soundness.StepKeeps(cfg, a, l);
      Lineage.StepKeeps(cfg, a, l);
      StepInTime(cfg, a, l);
      StepKeepsRows(cfg, a, l);
      SameTwice(m.db.codes, a.db.codes, b.db.codes);
    }
    RunInduction(cfg, m, s', n, P);
  }

  lemma SameTwice(a: map<string, AuthCode>, b: map<string, AuthCode>, c: map<string, AuthCode>)
    requires SameButUsed(a, b) && SameButUsed(b, c)
    ensures SameButUsed(a, c)
  {
    forall h | h in a ensures h in c && c[h].(used := false) == a[h].(used := false) { assert h in b; }
  }

  lemma AlwaysInTime(cfg: Config, s: Sys)
    requires Reachable(cfg, s)
    ensures AllInTime(s.db.codes, s.log)
  {
    var s0, n :| Init(s0) && Leads(cfg, s0, s, n);
    assert Leads(cfg, s0, s0, 0);
    Soundness.ReachableInv(cfg, s0);
    var P := (x: Sys) => Soundness.Inv(cfg, x) && Lineage.Inv(x) && AllInTime(x.db.codes, x.log);
    forall a, b | P(a) && Next(cfg, a, b) ensures P(b) {
      var l :| Enabled(a, l) && b == Apply(cfg, a, l);
      Soundness.StepKeeps(cfg, a, l);
      Lineage.StepKeeps(cfg, a, l);
      StepInTime(cfg, a, l);
    }
    RunInduction(cfg, s0, s, n, P);
  }

  /** In some run from m, code h is exchanged, and that is event k of the log. */
  ghost predicate ExchangedIn(cfg: Config, m: Sys, s': Sys, k: nat, h: string) {
    Reaches(cfg, m, s') && k < |s'.log| && s'.log[k].Exchanged? && s'.log[k].codeHash == h
  }

  /** A code can be exchanged at every instant before it expires, by a client that has the verifier. */
  lemma ExchangedAt(cfg: Config, m: Sys, h: string, verifier: string, at: Time) returns (s': Sys, k: nat)
    requires h in m.db.codes && m.db.codes[h].hash == h && !m.db.codes[h].used && m.db.codes[h].terms.clientID != ""
    requires m.now <= at < m.db.codes[h].expiresAt && VerifyS256(cfg, verifier, m.db.codes[h].challenge)
    ensures ExchangedIn(cfg, m, s', k, h) && s'.log[k].at == at
  {
    var code := m.db.codes[h];
    var client := Client(code.terms.clientID, "", Public, "", [], [], "", "");
    Happens(cfg, m, Tick(at));
    var m1 := Apply(cfg, m, Tick(at));
    Happens(cfg, m1, SetClient(client));
    var m2 := Apply(cfg, m1, SetClient(client));
    Then(cfg, m, m1, m2);
    var creq := CodeRequest(client.id, "", Some(h), code.redirectURI, verifier);
    var tid, g;
    s', tid, g := Flows.Redeems(cfg, m2, creq, client);
    Then(cfg, m, m2, s');
    k := |s'.log| - 1;
  }

  /** At the step that issues a code: every exchange of it, in every run, comes less than eleven code lifetimes after its
      authorize request was built if and only if it is issued no later than that request expires. */
  lemma ElevenLifetimesExactly(cfg: Config, s: Sys, tid: nat, v: string, w: string, verifier: string)
    requires Reachable(cfg, s) && Enabled(s, Step(tid, v, w)) && cfg.codeTTL > 0
    requires s.threads[tid].Browser? && s.threads[tid].b.SaveCode? && VerifyS256(cfg, verifier, s.threads[tid].b.p.challenge)
    ensures var m, p := Apply(cfg, s, Step(tid, v, w)), s.threads[tid].b.p;
            (forall s', k: nat :: ExchangedIn(cfg, m, s', k, v) ==> s'.log[k].at < Soundness.BuiltAt(cfg, p) + 11 * cfg.codeTTL)
            <==> s.now <= p.expiresAt
  {
    var m, p := Apply(cfg, s, Step(tid, v, w)), s.threads[tid].b.p;
    Happens(cfg, s, Step(tid, v, w));
    StillReachable(cfg, s, m);
    var row := NewCode(cfg, v, s.threads[tid].b.userID, s.threads[tid].b.sid, p, s.now);
    assert v in m.db.codes && m.db.codes[v] == row && m.now == s.now;
    if s.now <= p.expiresAt {
      forall s', k: nat | ExchangedIn(cfg, m, s', k, v) ensures s'.log[k].at < row.expiresAt {
        ExchangeIsInTime(cfg, m, s', k, v);
      }
    } else {
      Accounts.ReachableSound(cfg, s);
      Accounts.IssuerIsNamed(cfg, s, tid);
      var bound := Soundness.BuiltAt(cfg, p) + 11 * cfg.codeTTL;
      var s', k := ExchangedAt(cfg, m, v, verifier, if s.now < bound then bound else s.now);
    }
  }

  lemma ExchangeIsInTime(cfg: Config, m: Sys, s': Sys, k: nat, h: string)
    requires Reachable(cfg, m) && ExchangedIn(cfg, m, s', k, h) && h in m.db.codes
    ensures s'.log[k].at < m.db.codes[h].expiresAt
  {
    RunsInTime(cfg, m, s');
    assert s'.log[k] in s'.log && InTime(s'.db.codes, s'.log[k]);
    assert s'.db.codes[h].(used := false) == m.db.codes[h].(used := false);
  }

  /** A code issued long after its authorize request was built. */
  lemma IssuedLate(cfg: Config, uri: string, verifier: string, challenge: string, late: Time) returns (s: Sys, code: AuthCode, p: PendingAuth)
    requires Flows.Usable(cfg, uri, verifier, challenge) && late >= 0
    ensures Reachable(cfg, s) && s.now == late && Soundness.BuiltAt(cfg, p) == 0 && CodeIssued(code, p, 0, late) in s.log
    ensures code.hash in s.db.codes && s.db.codes[code.hash] == code && !code.used && code.expiresAt > late
    ensures code.terms.clientID == "app" && code.redirectURI == uri && code.challenge == challenge
    ensures "app" in s.db.clients && s.db.clients["app"] == Flows.PublicClient(uri)
  {
    var s0, tid, cookie, sid;
    s0, tid, cookie, sid, p := Flows.FirstCode(cfg, uri, verifier, challenge, ["openid"]);
    Happens(cfg, s0, Tick(late));
    var s1 := Apply(cfg, s0, Tick(late));
    var v, w;
    s, v, w := Moves(cfg, s1, tid);
    code := NewCode(cfg, v, "ann", sid, p, late);
    assert s.log == s1.log + [CodeIssued(code, p, 0, late)];
    Then(cfg, s0, s1, s);
    StillReachable(cfg, s0, s);
  }

  /** Nothing bounds how late that can be: for every instant there is a run, from the initial state, in which a code is
      exchanged at that instant or later, and past the eleven lifetimes. */
  lemma AnExchangePastTheBound(cfg: Config, uri: string, verifier: string, challenge: string, t: Time)
    returns (s: Sys, k: nat, code: AuthCode, p: PendingAuth, decidedAt: Time, issuedAt: Time)
    requires Flows.Usable(cfg, uri, verifier, challenge)
    ensures Reachable(cfg, s) && CodeIssued(code, p, decidedAt, issuedAt) in s.log
    ensures k < |s.log| && s.log[k].Exchanged? && s.log[k].codeHash == code.hash
    ensures s.log[k].at >= t && s.log[k].at >= Soundness.BuiltAt(cfg, p) + 11 * cfg.codeTTL
  {
    decidedAt, issuedAt := 0, if t < 11 * cfg.codeTTL then 11 * cfg.codeTTL else t;
    var m;
    m, code, p := IssuedLate(cfg, uri, verifier, challenge, issuedAt);
    var b, g;
    s, b, g := Flows.Exchanges(cfg, m, code.hash, uri, verifier, challenge);
    k := |s.log| - 1;
    StillReachable(cfg, m, s);
  }
}

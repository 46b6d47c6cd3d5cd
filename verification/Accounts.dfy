/** Every grant is for an account that exists: accounts are stored and changed but never removed. */
module Accounts {
  import opened Wrappers
  import opened Domain
  import opened Ledger
  import opened Grants
  import Fanout
  import Frames
  import Lineage
  import Provenance
  import Rotation
  import Soundness

  ghost predicate KnownCont(k: Cont, users: map<string, User>) { k.ForIssue? ==> k.userID in users }

  /** A request that has found its user, or is about to issue a code for one. */
  ghost predicate KnownBrowser(b: BrowserThread, users: map<string, User>) {
    match b
    case Lookup(_, k) => KnownCont(k, users)
    case Live(_, _, k) => KnownCont(k, users)
    case Forget(_, k) => KnownCont(k, users)
    case Build(_, userID, _, _) => userID in users
    case CheckConsent(_, userID, _, _) => userID in users
    case TakePending(_, userID, _, _) => userID in users
    case Decide(_, userID, _, _) => userID in users
    case SaveConsent(_, userID, _, _) => userID in users
    case SaveCode(userID, _, _, _) => userID in users
    case _ => true
  }

  ghost predicate KnownThread(th: Thread, users: map<string, User>) { th.Browser? ==> KnownBrowser(th.b, users) }

  ghost predicate KnownCodes(codes: map<string, AuthCode>, users: map<string, User>) {
    forall h | h in codes :: codes[h].terms.userID in users
  }

  ghost predicate Inv(s: Sys) {
    KnownCodes(s.db.codes, s.db.users) && forall t | t in s.threads :: KnownThread(s.threads[t], s.db.users)
  }

  lemma BrowserKnows(cfg: Config, db: Db, pending: map<string, PendingAuth>, now: Time, b: BrowserThread, v: string)
    requires KnownBrowser(b, db.users)
    ensures KnownThread(BrowserStep(cfg, db, pending, now, b, v).next, db.users)
  {
  }

  lemma TokenIsNoBrowser(cfg: Config, db: Db, now: Time, t: TokenThread, v: string, w: string)
    ensures !TokenStep(cfg, db, now, t, v, w).next.Browser?
  {
  }

  lemma SameTermsKnown(codes: map<string, AuthCode>, codes': map<string, AuthCode>, users: map<string, User>)
    requires KnownCodes(codes, users) && Fanout.SameTerms(codes, codes')
    ensures KnownCodes(codes', users)
  {
    forall h | h in codes' ensures codes'[h].terms.userID in users { assert h in codes.Keys; }
  }

  lemma ThreadMoved(s: Sys, s': Sys, tid: nat, th: Thread)
    requires Inv(s) && s'.threads == s.threads[tid := th] && KnownThread(th, s'.db.users)
    requires s.db.users.Keys <= s'.db.users.Keys && KnownCodes(s'.db.codes, s'.db.users)
    ensures Inv(s')
  {
    forall t | t in s'.threads ensures KnownThread(s'.threads[t], s'.db.users) {
      assert t != tid ==> KnownThread(s.threads[t], s.db.users);
    }
  }

  lemma RequestKnows(cfg: Config, s: Sys, tid: nat, v: string, w: string)
    requires Inv(s) && Enabled(s, Step(tid, v, w))
    ensures Inv(Apply(cfg, s, Step(tid, v, w)))
  {
    var s' := Apply(cfg, s, Step(tid, v, w));
    assert KnownThread(s.threads[tid], s.db.users);
    match s.threads[tid]
    case Browser(b) =>
      BrowserKnows(cfg, s.db, s.pending, s.now, b, v);
      Frames.BrowserFrame(cfg, s.db, s.pending, s.now, b, v);
      ThreadMoved(s, s', tid, s'.threads[tid]);
    case Token(t) =>
      TokenIsNoBrowser(cfg, s.db, s.now, t, v, w);
      Frames.TokenFrame(cfg, s.db, s.now, t, v, w);
      Fanout.TokenKeepsCodeTerms(cfg, s.db, s.now, t, v, w);
      SameTermsKnown(s.db.codes, s'.db.codes, s.db.users);
      ThreadMoved(s, s', tid, s'.threads[tid]);
    case Done => ThreadMoved(s, s', tid, Done);
  }

  lemma OtherKnows(cfg: Config, s: Sys, l: Label)
    requires Inv(s) && Enabled(s, l) && !l.Step?
    ensures Inv(Apply(cfg, s, l))
  {
    var s' := Apply(cfg, s, l);
    match l
    case Spawn(tid, th) => ThreadMoved(s, s', tid, th);
    case Abort(tid) => ThreadMoved(s, s', tid, Done);
    case SetUser(user) => UsersGrow(s, s');
    case _ => UsersGrow(s, s');
  }

  lemma UsersGrow(s: Sys, s': Sys)
    requires Inv(s) && s'.threads == s.threads && s'.db.codes == s.db.codes && s.db.users.Keys <= s'.db.users.Keys
    ensures Inv(s')
  {
    forall t | t in s'.threads ensures KnownThread(s'.threads[t], s'.db.users) { assert KnownThread(s.threads[t], s.db.users); }
  }

  lemma ReachableInv(cfg: Config, s: Sys)
    requires Reachable(cfg, s)
    ensures Inv(s)
  {
    var s0, n :| Init(s0) && Leads(cfg, s0, s, n);
    var P := x => Inv(x);
    forall a, b | P(a) && Next(cfg, a, b) ensures P(b) {
      var l :| Enabled(a, l) && b == Apply(cfg, a, l);
      if l.Step? { RequestKnows(cfg, a, l.tid, l.v, l.w); } else { OtherKnows(cfg, a, l); }
    }
    RunInduction(cfg, s0, s, n, P);
  }

  /** The user of every stored refresh token is an account. */
  lemma RefreshUserIsKnown(cfg: Config, s: Sys, h: string)
    requires Reachable(cfg, s) && h in s.db.refresh
    ensures s.db.refresh[h].terms.userID in s.db.users
  {
    ReachableInv(cfg, s);
    Provenance.RefreshTokenProvenance(cfg, s, h);
  }

  /** So is the user of a request that can still store a token of a family. */
  lemma GrantUserIsKnown(cfg: Config, s: Sys, tid: nat, g: Grant)
    requires Reachable(cfg, s) && tid in s.threads && g.src.FromRefresh?
    requires s.threads[tid].Token? && (s.threads[tid].t.GrantUser? || s.threads[tid].t.GrantAccess? || s.threads[tid].t.GrantRefresh?)
    requires s.threads[tid].t.g == g
    ensures g.terms.userID in s.db.users
  {
    Provenance.ReachableInv(cfg, s);
    assert Provenance.TokenOk(s.db, s.threads[tid].t) && Provenance.GrantOk(s.db, g);
    RefreshUserIsKnown(cfg, s, g.src.hash);
  }

  // ----- Clients -----

  /** Every client is stored under its own ID, which is not empty, and every authorize request was a registered client's. */
  ghost predicate ClientsOk(s: Sys) {
    && (forall id | id in s.db.clients :: s.db.clients[id].id == id && id != "")
    && (forall e | e in s.log && e.AuthorizeSeen? :: e.clientID in s.db.clients)
  }

  lemma BrowserAsks(cfg: Config, db: Db, pending: map<string, PendingAuth>, now: Time, b: BrowserThread, v: string)
    ensures var r := BrowserStep(cfg, db, pending, now, b, v);
            r.db.clients == db.clients && forall e | e in r.events && e.AuthorizeSeen? :: e.clientID in db.clients
  {
    Frames.BrowserFrame(cfg, db, pending, now, b, v);
  }

  lemma TokenAsksNothing(cfg: Config, db: Db, now: Time, t: TokenThread, v: string, w: string)
    ensures var r := TokenStep(cfg, db, now, t, v, w);
            r.db.clients == db.clients && forall e | e in r.events :: !e.AuthorizeSeen?
  {
    Frames.TokenFrame(cfg, db, now, t, v, w);
  }

  lemma ClientsStep(cfg: Config, s: Sys, l: Label)
    requires ClientsOk(s) && Enabled(s, l)
    ensures ClientsOk(Apply(cfg, s, l))
  {
    if l.Step? {
      match s.threads[l.tid]
      case Browser(b) => BrowserAsks(cfg, s.db, s.pending, s.now, b, l.v);
      case Token(t) => TokenAsksNothing(cfg, s.db, s.now, t, l.v, l.w);
      case Done =>
    }
  }

  lemma ReachableClients(cfg: Config, s: Sys)
    requires Reachable(cfg, s)
    ensures ClientsOk(s)
  {
    var s0, n :| Init(s0) && Leads(cfg, s0, s, n);
    var P := x => ClientsOk(x);
    forall a, b | P(a) && Next(cfg, a, b) ensures P(b) {
      var l :| Enabled(a, l) && b == Apply(cfg, a, l);
      ClientsStep(cfg, a, l);
    }
    RunInduction(cfg, s0, s, n, P);
  }

  // ----- What later invariants rest on -----

  ghost predicate Sound(cfg: Config, s: Sys) { Soundness.Inv(cfg, s) && Lineage.Inv(s) && ClientsOk(s) }

  lemma SoundStep(cfg: Config, s: Sys, l: Label)
    requires Sound(cfg, s) && Enabled(s, l)
    ensures Sound(cfg, Apply(cfg, s, l))
  {
    Soundness.StepKeeps(cfg, s, l);
    Lineage.StepKeeps(cfg, s, l);
    ClientsStep(cfg, s, l);
  }

  lemma ReachableSound(cfg: Config, s: Sys)
    requires Reachable(cfg, s)
    ensures Sound(cfg, s)
  {
    Soundness.ReachableInv(cfg, s);
    ReachableClients(cfg, s);
  }

  /** The client of a request that is about to issue a code was registered, so its ID is not empty. */
  lemma IssuerIsNamed(cfg: Config, s: Sys, tid: nat)
    requires Sound(cfg, s) && tid in s.threads && s.threads[tid].Browser? && s.threads[tid].b.SaveCode?
    ensures s.threads[tid].b.p.clientID != ""
  {
    var p := s.threads[tid].b.p;
    assert Soundness.ThreadOk(cfg, s.db, s.log, s.now, s.threads[tid]);
    assert Soundness.Asked(s.log, p.clientID, p.redirectURI, p.challenge, p.scopes);
  }
}

/** The index from OP session to clients, when requests are served one at a time: it is exactly what the codes say. */
module Fanout {
  import opened Wrappers
  import opened Domain
  import opened Ledger
  import opened Grants
  import Frames
  import opened Atomic
  import Provenance
  import Soundness

  /** The clients that codes were issued to under a session. */
  ghost function ClientsOf(codes: map<string, AuthCode>, sid: string): set<string> {
    set h | h in codes && codes[h].terms.sid == sid :: codes[h].terms.clientID
  }

  ghost predicate Stored(sessions: map<string, Session>, sid: string) { exists h :: h in sessions && sessions[h].sid == sid }

  ghost predicate SessionsKeyed(sessions: map<string, Session>) {
    && (forall h | h in sessions :: sessions[h].tokenHash == h && sessions[h].sid != "")
    && (forall h, h' | h in sessions && h' in sessions && sessions[h].sid == sessions[h'].sid :: h == h')
  }

  /** Each stored session's fan-out set is the set of clients its codes were issued to, and there are no other sets. */
  ghost predicate Exact(db: Db) {
    && SessionsKeyed(db.sessions)
    && (forall sid | sid in db.sidRP :: Stored(db.sessions, sid))
    && (forall h | h in db.sessions :: FanOut(db.sidRP, db.sessions[h].sid) == ClientsOf(db.codes, db.sessions[h].sid))
  }

  ghost predicate SidsUsed(db: Db, used: set<string>) {
    && db.codes.Keys <= used && db.sessions.Keys <= used && "" !in used
    && (forall h | h in db.sessions :: db.sessions[h].sid in used)
    && (forall h | h in db.codes :: db.codes[h].terms.sid == "" || db.codes[h].terms.sid in used)
  }

  /** Registered clients, and so requests for them, have an ID. */
  ghost predicate Named(db: Db, pending: map<string, PendingAuth>) {
    "" !in db.clients && forall r | r in pending :: pending[r].clientID != ""
  }

  ghost predicate Inv(s: Sys) { Exact(s.db) && SidsUsed(s.db, s.used) && Named(s.db, s.pending) }

  // ----- Inside a request -----

  ghost predicate LiveCookie(db: Db, now: Time, cookie: string) { cookie in db.sessions && db.sessions[cookie].expiresAt > now }

  ghost predicate ContMid(db: Db, now: Time, browser: Option<string>, k: Cont) {
    match k
    case ForAuthorize(q, _) => q.clientID != ""
    case ForConsent(_, _) => true
    case ForIssue(_, p, _) => p.clientID != "" && browser.Some? && LiveCookie(db, now, browser.value)
  }

  /** A request served alone, at one instant, finds the same live session again when it issues a code. */
  ghost predicate BrowserMid(db: Db, now: Time, b: BrowserThread) {
    match b
    case Authorize(_) => true
    case Consenting(_, _, _) => true
    case Lookup(browser, k) => ContMid(db, now, browser, k)
    case Live(cookie, sess, k) => ContMid(db, now, Some(cookie), k) && cookie in db.sessions && sess == db.sessions[cookie]
    case Forget(_, k) => !k.ForIssue?
    case Account(cookie, _, k) => ContMid(db, now, Some(cookie), k) && LiveCookie(db, now, cookie) && !k.ForIssue?
    case Build(cookie, _, q, _) => LiveCookie(db, now, cookie) && q.clientID != ""
    case CheckConsent(cookie, _, p, _) => LiveCookie(db, now, cookie) && p.clientID != ""
    case Park(_, p) => p.clientID != ""
    case TakePending(cookie, _, _, _) => LiveCookie(db, now, cookie)
    case Decide(cookie, _, p, _) => LiveCookie(db, now, cookie) && p.clientID != ""
    case SaveConsent(cookie, _, p, _) => LiveCookie(db, now, cookie) && p.clientID != ""
    case SaveCode(_, sid, p, _) => Stored(db.sessions, sid) && p.clientID != ""
    case IndexClient(sid, clientID) => Stored(db.sessions, sid) && clientID != ""
  }

  ghost predicate Mid(db: Db, now: Time, th: Thread) { th.Browser? ==> BrowserMid(db, now, th.b) }

  /** Between PutCode and AddSessionClient the index lacks the one client. */
  ghost function Settled(db: Db, th: Thread): Db {
    if th.Browser? && th.b.IndexClient? then db.AddSessionClient(th.b.sid, th.b.clientID) else db
  }

  lemma DeleteKeepsExact(db: Db, h: string)
    requires Exact(db)
    ensures Exact(db.DeleteSession(h))
  {
    if h in db.sessions {
      var gone := db.sessions[h].sid;
      var db' := db.DeleteSession(h);
      assert db'.sessions == db.sessions - {h} && db'.sidRP == db.sidRP - {gone} && db'.codes == db.codes;
      forall sid | sid in db'.sidRP ensures Stored(db'.sessions, sid) {
        assert sid in db.sidRP && sid != gone;
        var k :| k in db.sessions && db.sessions[k].sid == sid;
        assert k in db'.sessions;
      }
      forall k | k in db'.sessions ensures FanOut(db'.sidRP, db'.sessions[k].sid) == FanOut(db.sidRP, db.sessions[k].sid) {
        assert db.sessions[k].sid != gone;
      }
    }
  }

  lemma CodePut(codes: map<string, AuthCode>, c: AuthCode, sid: string)
    requires c.hash !in codes
    ensures ClientsOf(codes[c.hash := c], sid) == ClientsOf(codes, sid) + (if c.terms.sid == sid then {c.terms.clientID} else {})
  {
    var codes' := codes[c.hash := c];
    forall x | x in ClientsOf(codes, sid) ensures x in ClientsOf(codes', sid) {
      var h :| h in codes && codes[h].terms.sid == sid && codes[h].terms.clientID == x;
      assert codes'[h].terms.clientID == x;
    }
    if c.terms.sid == sid { assert codes'[c.hash].terms.clientID in ClientsOf(codes', sid); }
  }

  /** PutCode followed by AddSessionClient keeps the index exact. */
  lemma IssueKeepsExact(db: Db, c: AuthCode)
    requires Exact(db) && c.hash !in db.codes && Stored(db.sessions, c.terms.sid) && c.terms.clientID != ""
    ensures Exact(db.PutCode(c).AddSessionClient(c.terms.sid, c.terms.clientID))
  {
    var db' := db.PutCode(c).AddSessionClient(c.terms.sid, c.terms.clientID);
    forall h | h in db'.sessions ensures FanOut(db'.sidRP, db'.sessions[h].sid) == ClientsOf(db'.codes, db'.sessions[h].sid) {
      CodePut(db.codes, c, db.sessions[h].sid);
    }
  }

  lemma SameCodesExact(db: Db, db': Db)
    requires Exact(db) && db'.sessions == db.sessions && db'.sidRP == db.sidRP && SameTerms(db.codes, db'.codes)
    ensures Exact(db')
  {
    forall h | h in db.sessions ensures ClientsOf(db'.codes, db.sessions[h].sid) == ClientsOf(db.codes, db.sessions[h].sid) {
      SameClients(db.codes, db'.codes, db.sessions[h].sid);
      SameClients(db'.codes, db.codes, db.sessions[h].sid);
    }
  }

  lemma SameClients(codes: map<string, AuthCode>, codes': map<string, AuthCode>, sid: string)
    requires SameTerms(codes, codes')
    ensures ClientsOf(codes, sid) <= ClientsOf(codes', sid)
  {
    forall x | x in ClientsOf(codes, sid) ensures x in ClientsOf(codes', sid) {
      var h :| h in codes && codes[h].terms.sid == sid && codes[h].terms.clientID == x;
      assert codes'[h].terms.clientID == x;
    }
  }

  // ----- One step inside a request -----

  /** Where a browser step leads. */
  lemma BrowserNextMid(cfg: Config, db: Db, pending: map<string, PendingAuth>, now: Time, b: BrowserThread, v: string)
    requires BrowserMid(db, now, b) && Named(db, pending)
    ensures var r := BrowserStep(cfg, db, pending, now, b, v); Mid(r.db, now, r.next) && Named(r.db, r.pending)
  {
  }

  /** What a browser step does to the rows the index is about. */
  lemma BrowserRowsMid(cfg: Config, db: Db, pending: map<string, PendingAuth>, now: Time, b: BrowserThread, v: string)
    requires !b.Forget? && !b.SaveCode? && !b.IndexClient?
    ensures var r := BrowserStep(cfg, db, pending, now, b, v);
            && r.db.sessions == db.sessions && r.db.sidRP == db.sidRP && r.db.codes == db.codes
            && Settled(r.db, r.next) == r.db
  {
    Frames.BrowserFrame(cfg, db, pending, now, b, v);
    Frames.BrowserWrites(cfg, db, pending, now, b, v);
  }

  lemma BrowserStepExact(cfg: Config, db: Db, pending: map<string, PendingAuth>, now: Time, b: BrowserThread, v: string)
    requires BrowserMid(db, now, b) && Exact(Settled(db, Browser(b))) && (b.SaveCode? ==> v !in db.codes)
    ensures var r := BrowserStep(cfg, db, pending, now, b, v); Exact(Settled(r.db, r.next))
  {
    var r := BrowserStep(cfg, db, pending, now, b, v);
    if b.Forget? { DeleteKeepsExact(db, b.tokenHash); }
    else if b.SaveCode? { IssueKeepsExact(db, NewCode(cfg, v, b.userID, b.sid, b.p, now)); }
    else if !b.IndexClient? { BrowserRowsMid(cfg, db, pending, now, b, v); SameCodesExact(db, r.db); }
  }

  lemma TokenKeepsBrowserState(cfg: Config, db: Db, now: Time, t: TokenThread, v: string, w: string)
    ensures var r := TokenStep(cfg, db, now, t, v, w);
            r.db.sessions == db.sessions && r.db.sidRP == db.sidRP && r.db.clients == db.clients && !r.next.Browser?
  {
    Frames.TokenFrame(cfg, db, now, t, v, w);
  }

  ghost predicate SameTerms(codes: map<string, AuthCode>, codes': map<string, AuthCode>) {
    codes'.Keys == codes.Keys && forall h | h in codes :: codes'[h].terms == codes[h].terms
  }

  lemma UpdateKeepsTerms(codes: map<string, AuthCode>, h: string, c: AuthCode)
    requires h in codes && c.terms == codes[h].terms
    ensures SameTerms(codes, codes[h := c])
  {
  }

  lemma TakeKeepsTerms(db: Db, h: string)
    ensures SameTerms(db.codes, db.TakeCode(h).0.codes)
  {
    if h in db.codes && !db.codes[h].used { UpdateKeepsTerms(db.codes, h, db.codes[h].(used := true)); }
  }

  lemma TokenKeepsCodeTerms(cfg: Config, db: Db, now: Time, t: TokenThread, v: string, w: string)
    ensures SameTerms(db.codes, TokenStep(cfg, db, now, t, v, w).db.codes)
  {
    if t.CodeTake? { TakeKeepsTerms(db, t.hash); } else { Soundness.TokenLeavesBrowserRows(cfg, db, now, t, v, w); }
  }

  lemma TokenStepExact(cfg: Config, db: Db, now: Time, t: TokenThread, v: string, w: string)
    requires Exact(db)
    ensures var r := TokenStep(cfg, db, now, t, v, w); Exact(Settled(r.db, r.next))
  {
    TokenKeepsBrowserState(cfg, db, now, t, v, w);
    TokenKeepsCodeTerms(cfg, db, now, t, v, w);
    SameCodesExact(db, TokenStep(cfg, db, now, t, v, w).db);
  }

  lemma TokenSidsUsed(cfg: Config, db: Db, now: Time, t: TokenThread, v: string, w: string, used: set<string>)
    requires SidsUsed(db, used)
    ensures SidsUsed(TokenStep(cfg, db, now, t, v, w).db, used)
  {
    TokenKeepsBrowserState(cfg, db, now, t, v, w);
    TokenKeepsCodeTerms(cfg, db, now, t, v, w);
  }

  lemma IssueSidsUsed(db: Db, c: AuthCode, used: set<string>)
    requires SidsUsed(db, used) && Stored(db.sessions, c.terms.sid) && c.hash != ""
    ensures SidsUsed(db.PutCode(c), used + {c.hash})
  {
  }

  ghost predicate Shrunk(sessions: map<string, Session>, sessions': map<string, Session>) {
    forall h | h in sessions' :: h in sessions && sessions'[h] == sessions[h]
  }

  lemma SidsUsedKept(db: Db, db': Db, used: set<string>, used': set<string>)
    requires SidsUsed(db, used) && used <= used' && "" !in used' && db'.codes == db.codes && Shrunk(db.sessions, db'.sessions)
    ensures SidsUsed(db', used')
  {
  }

  lemma BrowserKeepsSids(cfg: Config, db: Db, pending: map<string, PendingAuth>, now: Time, b: BrowserThread, v: string)
    requires !b.SaveCode?
    ensures var db' := BrowserStep(cfg, db, pending, now, b, v).db; db'.codes == db.codes && Shrunk(db.sessions, db'.sessions)
  {
    if b.Forget? { DeleteShrinks(db, b.tokenHash); }
    else if b.IndexClient? { AddKeepsSessions(db, b.sid, b.clientID); }
    else { BrowserRowsMid(cfg, db, pending, now, b, v); }
  }

  lemma DeleteShrinks(db: Db, h: string)
    ensures db.DeleteSession(h).codes == db.codes && Shrunk(db.sessions, db.DeleteSession(h).sessions)
  {
    RemovalShrinks(db.sessions, h);
  }

  lemma RemovalShrinks(sessions: map<string, Session>, h: string)
    ensures Shrunk(sessions, sessions - {h}) && Shrunk(sessions, sessions)
  {
  }

  lemma AddKeepsSessions(db: Db, sid: string, clientID: string)
    ensures db.AddSessionClient(sid, clientID).codes == db.codes && db.AddSessionClient(sid, clientID).sessions == db.sessions
  {
  }

  /** The codes a step adds are under issued SIDs. */
  lemma BrowserSidsUsed(cfg: Config, db: Db, pending: map<string, PendingAuth>, now: Time, b: BrowserThread, v: string, used: set<string>)
    requires SidsUsed(db, used) && BrowserMid(db, now, b) && v != ""
    ensures SidsUsed(BrowserStep(cfg, db, pending, now, b, v).db, used + Drawn(Browser(b), v, v))
  {
    if b.SaveCode? {
      IssueSidsUsed(db, NewCode(cfg, v, b.userID, b.sid, b.p, now), used);
    } else {
      BrowserKeepsSids(cfg, db, pending, now, b, v);
      SidsUsedKept(db, BrowserStep(cfg, db, pending, now, b, v).db, used, used + Drawn(Browser(b), v, v));
    }
  }

  // ----- A whole request, and a run -----

  ghost predicate MidOk(db: Db, pending: map<string, PendingAuth>, now: Time, th: Thread, d: Draws, used: set<string>) {
    && Mid(db, now, th) && Exact(Settled(db, th)) && SidsUsed(db, used) && Named(db, pending)
    && (th.Browser? && !th.b.IndexClient? ==> d.first !in db.codes) && d.Fresh({})
  }

  lemma StepMid(cfg: Config, db: Db, pending: map<string, PendingAuth>, now: Time, th: Thread, d: Draws, used: set<string>)
    requires MidOk(db, pending, now, th, d, used) && th != Done
    ensures var r := Body(cfg, db, pending, now, th, Drawing(th, d), d.id);
            MidOk(r.db, r.pending, now, r.next, d, used + Drawn(th, Drawing(th, d), d.id))
  {
    match th
    case Browser(b) =>
      BrowserNextMid(cfg, db, pending, now, b, d.first);
      BrowserStepExact(cfg, db, pending, now, b, d.first);
      BrowserSidsUsed(cfg, db, pending, now, b, d.first, used);
      if !b.IndexClient? { CodeStaysUndrawn(cfg, db, pending, now, b, d.first); }
    case Token(t) =>
      TokenStepExact(cfg, db, now, t, Drawing(th, d), d.id);
      TokenSidsUsed(cfg, db, now, t, Drawing(th, d), d.id, used);
      TokenKeepsBrowserState(cfg, db, now, t, Drawing(th, d), d.id);
    case Done =>
  }

  lemma CodeStaysUndrawn(cfg: Config, db: Db, pending: map<string, PendingAuth>, now: Time, b: BrowserThread, v: string)
    requires v !in db.codes
    ensures var r := BrowserStep(cfg, db, pending, now, b, v);
            r.next.Browser? && !r.next.b.IndexClient? ==> v !in r.db.codes
  {
    if !b.SaveCode? && !b.Forget? && !b.IndexClient? { BrowserRowsMid(cfg, db, pending, now, b, v); }
  }

  lemma {:induction false} ServeKeeps(cfg: Config, db: Db, pending: map<string, PendingAuth>, now: Time, th: Thread, d: Draws, used: set<string>)
    requires MidOk(db, pending, now, th, d, used)
    ensures var r := Serve(cfg, db, pending, now, th, d);
            Exact(r.db) && SidsUsed(r.db, used + r.drawn) && Named(r.db, r.pending)
    decreases Rank(th)
  {
    if th.Done? {
      assert used + {} == used;
    } else {
      var r := Body(cfg, db, pending, now, th, Drawing(th, d), d.id);
      var drawn := Drawn(th, Drawing(th, d), d.id);
      StepMid(cfg, db, pending, now, th, d, used);
      Progress(cfg, db, pending, now, th, Drawing(th, d), d.id);
      ServeKeeps(cfg, r.db, r.pending, now, r.next, d, used + drawn);
      var rest := Serve(cfg, r.db, r.pending, now, r.next, d).drawn;
      assert used + drawn + rest == used + (drawn + rest);
    }
  }

  lemma RequestKeeps(cfg: Config, s: Sys, tid: nat, th: Thread, d: Draws)
    requires Inv(s) && IsStart(th) && d.Fresh(s.used)
    ensures Inv(ServeRequest(cfg, s, tid, th, d))
  {
    assert d.first !in s.db.codes;
    ServeKeeps(cfg, s.db, s.pending, s.now, th, d, s.used);
  }

  lemma NoClientsYet(db: Db, sid: string, used: set<string>)
    requires Exact(db) && SidsUsed(db, used) && sid != "" && sid !in used
    ensures !Stored(db.sessions, sid) && ClientsOf(db.codes, sid) == {} && FanOut(db.sidRP, sid) == {}
  {
  }

  lemma LoginKeepsExact(db: Db, sess: Session, used: set<string>)
    requires Exact(db) && SidsUsed(db, used) && "" !in {sess.tokenHash, sess.sid} && {sess.tokenHash, sess.sid} !! used
    ensures Exact(db.PutSession(sess)) && SidsUsed(db.PutSession(sess), used + {sess.tokenHash, sess.sid})
  {
    var db' := db.PutSession(sess);
    assert db'.sessions == db.sessions[sess.tokenHash := sess] && db'.sidRP == db.sidRP && db'.codes == db.codes;
    NoClientsYet(db, sess.sid, used);
    forall sid | sid in db'.sidRP ensures Stored(db'.sessions, sid) {
      var h :| h in db.sessions && db.sessions[h].sid == sid;
      assert db'.sessions[h].sid == sid;
    }
  }

  lemma DropKeeps(cfg: Config, s: Sys, h: string)
    requires Inv(s)
    ensures Inv(Apply(cfg, s, DropSession(h)))
  {
    DeleteKeepsExact(s.db, h);
    DeleteShrinks(s.db, h);
    SidsUsedKept(s.db, s.db.DeleteSession(h), s.used, s.used);
    assert s.db.DeleteSession(h).clients == s.db.clients;
  }

  lemma LoginKeeps(cfg: Config, s: Sys, userID: string, tokenHash: string, sid: string)
    requires Inv(s) && Enabled(s, Login(userID, tokenHash, sid))
    ensures Inv(Apply(cfg, s, Login(userID, tokenHash, sid)))
  {
    var sess := Session(tokenHash, userID, sid, "", s.now + cfg.sessionTTL);
    var s' := Apply(cfg, s, Login(userID, tokenHash, sid));
    assert s'.db == s.db.PutSession(sess) && s'.used == s.used + {tokenHash, sid} && s'.pending == s.pending;
    LoginKeepsExact(s.db, sess, s.used);
  }

  lemma OtherKeeps(cfg: Config, s: Sys, l: Label)
    requires Inv(s) && Enabled(s, l) && !l.Spawn? && !l.Step? && !l.Abort?
    ensures Inv(Apply(cfg, s, l))
  {
    if l.Login? { LoginKeeps(cfg, s, l.userID, l.tokenHash, l.sid); }
    else if l.DropSession? { DropKeeps(cfg, s, l.tokenHash); }
    else { BystanderKeeps(s, Apply(cfg, s, l)); }
  }

  lemma BystanderKeeps(s: Sys, s': Sys)
    requires Inv(s) && s'.db.sessions == s.db.sessions && s'.db.sidRP == s.db.sidRP && s'.db.codes == s.db.codes
    requires s'.pending == s.pending && s'.used == s.used && "" !in s'.db.clients
    ensures Inv(s')
  {
    SameCodesExact(s.db, s'.db);
    SidsUsedKept(s.db, s'.db, s.used, s.used);
  }

  lemma AtomicKeeps(cfg: Config, s: Sys, s': Sys)
    requires Inv(s) && AtomicNext(cfg, s, s')
    ensures Inv(s')
  {
    var a :| AtomicEnabled(s, a) && s' == AtomicApply(cfg, s, a);
    match a
    case Request(tid, th, d) => RequestKeeps(cfg, s, tid, th, d);
    case Other(l) => OtherKeeps(cfg, s, l);
  }

  lemma AtomicInv(cfg: Config, s: Sys)
    requires AtomicReachable(cfg, s)
    ensures Inv(s)
  {
    var s0, n :| Init(s0) && AtomicLeads(cfg, s0, s, n);
    var P := x => Inv(x);
    forall a, b | P(a) && AtomicNext(cfg, a, b) ensures P(b) { AtomicKeeps(cfg, a, b); }
    AtomicInduction(cfg, s0, s, n, P);
  }

  /** In every state, the fan-out set of a stored session is the set of clients its codes were issued to,
      and no set outlives its session. */
  lemma FanOutIsExact(cfg: Config, s: Sys)
    requires AtomicReachable(cfg, s)
    ensures forall h | h in s.db.sessions ::
              FanOut(s.db.sidRP, s.db.sessions[h].sid) == ClientsOf(s.db.codes, s.db.sessions[h].sid)
    ensures forall sid | sid in s.db.sidRP :: Stored(s.db.sessions, sid)
  {
    AtomicInv(cfg, s);
  }

  /** Every client holding a token tied to a stored session is on that session's logout list. */
  lemma TokenHoldersAreListed(cfg: Config, s: Sys, h: string)
    requires AtomicReachable(cfg, s) && h in s.db.sessions
    ensures forall a | a in s.db.access && s.db.access[a].terms.sid == s.db.sessions[h].sid ::
              s.db.access[a].terms.clientID in FanOut(s.db.sidRP, s.db.sessions[h].sid)
    ensures forall r | r in s.db.refresh && s.db.refresh[r].terms.sid == s.db.sessions[h].sid ::
              s.db.refresh[r].terms.clientID in FanOut(s.db.sidRP, s.db.sessions[h].sid)
  {
    FanOutIsExact(cfg, s);
    AtomicIsReachable(cfg, s);
    forall a | a in s.db.access && s.db.access[a].terms.sid == s.db.sessions[h].sid
      ensures s.db.access[a].terms.clientID in FanOut(s.db.sidRP, s.db.sessions[h].sid)
    {
      var src, root := Provenance.AccessTokenProvenance(cfg, s, a);
      assert s.db.codes[root].terms.clientID in ClientsOf(s.db.codes, s.db.sessions[h].sid);
    }
    forall r | r in s.db.refresh && s.db.refresh[r].terms.sid == s.db.sessions[h].sid
      ensures s.db.refresh[r].terms.clientID in FanOut(s.db.sidRP, s.db.sessions[h].sid)
    {
      Provenance.RefreshTokenProvenance(cfg, s, r);
      assert s.db.codes[Provenance.RootCode(s, FromRefresh(r))].terms.clientID in ClientsOf(s.db.codes, s.db.sessions[h].sid);
    }
  }
}

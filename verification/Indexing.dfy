/** The fan-out index in interleaved runs: exact for every stored session up to the requests that have stored their code
    and not yet entered it, and never more than the codes. */
module Indexing {
  import opened Wrappers
  import opened Domain
  import opened Ledger
  import opened Grants
  import opened Fanout
  import Accounts
  import Frames
  import Provenance

  /** The clients of requests between PutCode and AddSessionClient. */
  ghost function Entering(threads: map<nat, Thread>, sid: string): set<string> {
    set t | t in threads && IsIndexing(threads[t]) && threads[t].b.sid == sid :: threads[t].b.clientID
  }

  /** In the index, or about to be. */
  ghost function Listed(sidRP: map<string, set<string>>, threads: map<nat, Thread>, sid: string): set<string> {
    FanOut(sidRP, sid) + Entering(threads, sid)
  }

  ghost predicate SidOk(sid: string, used: set<string>) { sid == "" || sid in used }

  ghost predicate ThreadSidOk(th: Thread, used: set<string>) {
    th.Browser? ==>
      match th.b
      case Live(_, sess, _) => SidOk(sess.sid, used)
      case SaveCode(_, sid, _, _) => SidOk(sid, used)
      case IndexClient(sid, clientID) => SidOk(sid, used) && clientID != ""
      case _ => true
  }

  /** No value is in the index or on its way there that was not issued. */
  ghost predicate Known(s: Sys) {
    && SidsUsed(s.db, s.used) && s.db.sidRP.Keys <= s.used
    && ThreadsOk(s.threads, s.used)
  }

  ghost predicate ThreadsOk(threads: map<nat, Thread>, used: set<string>) { forall t | t in threads :: ThreadSidOk(threads[t], used) }

  ghost predicate IndexOk(codes: map<string, AuthCode>, sessions: map<string, Session>, sidRP: map<string, set<string>>, threads: map<nat, Thread>) {
    && (forall h | h in sessions :: Listed(sidRP, threads, sessions[h].sid) == ClientsOf(codes, sessions[h].sid))
    && (forall sid | sid != "" :: Listed(sidRP, threads, sid) <= ClientsOf(codes, sid))
  }

  ghost predicate Inv(s: Sys) {
    SessionsKeyed(s.db.sessions) && Known(s) && IndexOk(s.db.codes, s.db.sessions, s.db.sidRP, s.threads)
  }

  // ----- The sets follow a step -----

  lemma EnteringAfter(threads: map<nat, Thread>, tid: nat, th: Thread, sid: string)
    requires !IsIndexing(th) && (tid in threads ==> !IsIndexing(threads[tid]))
    ensures Entering(threads[tid := th], sid) == Entering(threads, sid)
  {
    forall x | x in Entering(threads, sid) ensures x in Entering(threads[tid := th], sid) {
      var t :| t in threads && IsIndexing(threads[t]) && threads[t].b.sid == sid && threads[t].b.clientID == x;
      assert threads[tid := th][t] == threads[t];
    }
  }

  lemma EnteringBegins(threads: map<nat, Thread>, tid: nat, sid: string, clientID: string, x: string)
    requires tid in threads && !IsIndexing(threads[tid])
    ensures Entering(threads[tid := Browser(IndexClient(sid, clientID))], x) == Entering(threads, x) + if x == sid then {clientID} else {}
  {
    var threads' := threads[tid := Browser(IndexClient(sid, clientID))];
    forall y | y in Entering(threads, x) ensures y in Entering(threads', x) {
      var t :| t in threads && IsIndexing(threads[t]) && threads[t].b.sid == x && threads[t].b.clientID == y;
      assert threads'[t] == threads[t];
    }
    assert threads'[tid].b.clientID == clientID;
  }

  lemma EnteringEnds(threads: map<nat, Thread>, tid: nat, x: string)
    requires tid in threads && IsIndexing(threads[tid])
    ensures var b := threads[tid].b;
            Entering(threads[tid := Done], x) + (if x == b.sid then {b.clientID} else {}) == Entering(threads, x)
  {
    var threads' := threads[tid := Done];
    forall y | y in Entering(threads, x) && (x != threads[tid].b.sid || y != threads[tid].b.clientID) ensures y in Entering(threads', x) {
      var t :| t in threads && IsIndexing(threads[t]) && threads[t].b.sid == x && threads[t].b.clientID == y;
      assert threads'[t] == threads[t];
    }
  }

  lemma SameTermsSameClients(codes: map<string, AuthCode>, codes': map<string, AuthCode>, sid: string)
    requires SameTerms(codes, codes')
    ensures ClientsOf(codes', sid) == ClientsOf(codes, sid)
  {
    SameClients(codes, codes', sid);
    SameClients(codes', codes, sid);
  }

  /** A step that neither stores a code nor enters one. */
  lemma OrdinaryStep(s: Sys, s': Sys, tid: nat, th: Thread)
    requires Inv(s) && s'.threads == s.threads[tid := th] && !IsIndexing(th) && (tid in s.threads ==> !IsIndexing(s.threads[tid]))
    requires SameTerms(s.db.codes, s'.db.codes) && s'.db.sidRP == s.db.sidRP && s'.db.sessions == s.db.sessions
    ensures IndexOk(s'.db.codes, s'.db.sessions, s'.db.sidRP, s'.threads)
  {
    forall sid ensures Listed(s'.db.sidRP, s'.threads, sid) == Listed(s.db.sidRP, s.threads, sid) && ClientsOf(s'.db.codes, sid) == ClientsOf(s.db.codes, sid) {
      EnteringAfter(s.threads, tid, th, sid);
      SameTermsSameClients(s.db.codes, s'.db.codes, sid);
    }
  }

  lemma StoringStep(s: Sys, s': Sys, tid: nat, c: AuthCode)
    requires Inv(s) && tid in s.threads && !IsIndexing(s.threads[tid]) && c.hash !in s.db.codes
    requires s'.threads == s.threads[tid := Browser(IndexClient(c.terms.sid, c.terms.clientID))]
    requires s'.db.codes == s.db.codes[c.hash := c] && s'.db.sidRP == s.db.sidRP && s'.db.sessions == s.db.sessions
    ensures IndexOk(s'.db.codes, s'.db.sessions, s'.db.sidRP, s'.threads)
  {
    forall sid
      ensures var more := if c.terms.sid == sid then {c.terms.clientID} else {};
              Listed(s'.db.sidRP, s'.threads, sid) == Listed(s.db.sidRP, s.threads, sid) + more
              && ClientsOf(s'.db.codes, sid) == ClientsOf(s.db.codes, sid) + more
    {
      EnteringBegins(s.threads, tid, c.terms.sid, c.terms.clientID, sid);
      CodePut(s.db.codes, c, sid);
    }
  }

  lemma FanOutAfterAdd(db: Db, sid: string, clientID: string, x: string)
    requires clientID != "" && x != ""
    ensures FanOut(db.AddSessionClient(sid, clientID).sidRP, x) == FanOut(db.sidRP, x) + if x == sid then {clientID} else {}
    ensures db.AddSessionClient(sid, clientID).sidRP.Keys <= db.sidRP.Keys + (if sid == "" then {} else {sid})
  {
  }

  lemma EnteringStep(s: Sys, sidRP': map<string, set<string>>, tid: nat)
    requires Inv(s) && tid in s.threads && IsIndexing(s.threads[tid])
    requires sidRP' == s.db.AddSessionClient(s.threads[tid].b.sid, s.threads[tid].b.clientID).sidRP
    ensures IndexOk(s.db.codes, s.db.sessions, sidRP', s.threads[tid := Done]) && sidRP'.Keys <= s.used
  {
    var b, threads' := s.threads[tid].b, s.threads[tid := Done];
    assert ThreadSidOk(s.threads[tid], s.used);
    FanOutAfterAdd(s.db, b.sid, b.clientID, "x");
    forall sid | sid != "" ensures Listed(sidRP', threads', sid) == Listed(s.db.sidRP, s.threads, sid) {
      EnteringEnds(s.threads, tid, sid);
      FanOutAfterAdd(s.db, b.sid, b.clientID, sid);
    }
  }

  lemma DeletingStep(db: Db, threads: map<nat, Thread>, h: string)
    requires SessionsKeyed(db.sessions) && IndexOk(db.codes, db.sessions, db.sidRP, threads)
    ensures var db' := db.DeleteSession(h);
            && SessionsKeyed(db'.sessions) && IndexOk(db'.codes, db'.sessions, db'.sidRP, threads)
            && db'.sidRP.Keys <= db.sidRP.Keys
  {
    Frames.DeleteFrame(db, h);
    if h in db.sessions { SessionGone(db.codes, db.sessions, db.sidRP, threads, h); }
  }

  lemma SessionGone(codes: map<string, AuthCode>, sessions: map<string, Session>, sidRP: map<string, set<string>>, threads: map<nat, Thread>, h: string)
    requires SessionsKeyed(sessions) && h in sessions && IndexOk(codes, sessions, sidRP, threads)
    ensures SessionsKeyed(sessions - {h}) && IndexOk(codes, sessions - {h}, sidRP - {sessions[h].sid}, threads)
  {
    var sidRP' := sidRP - {sessions[h].sid};
    forall k | k in sessions - {h} ensures Listed(sidRP', threads, sessions[k].sid) == Listed(sidRP, threads, sessions[k].sid) {
      assert sessions[k].sid != sessions[h].sid;
    }
    forall sid | sid != "" ensures Listed(sidRP', threads, sid) <= Listed(sidRP, threads, sid) {}
  }

  lemma StartingStep(s: Sys, sess: Session)
    requires Inv(s) && "" !in {sess.tokenHash, sess.sid} && {sess.tokenHash, sess.sid} !! s.used
    ensures SessionsKeyed(s.db.PutSession(sess).sessions)
    ensures IndexOk(s.db.codes, s.db.PutSession(sess).sessions, s.db.sidRP, s.threads)
  {
    assert s.db.PutSession(sess).sessions == s.db.sessions[sess.tokenHash := sess];
    assert FanOut(s.db.sidRP, sess.sid) == {} && ClientsOf(s.db.codes, sess.sid) == {};
    forall t | t in s.threads && IsIndexing(s.threads[t]) ensures s.threads[t].b.sid != sess.sid { assert ThreadSidOk(s.threads[t], s.used); }
    assert Entering(s.threads, sess.sid) == {};
  }

  // ----- Steps and runs -----

  lemma SidsKept(db: Db, db': Db, used: set<string>, used': set<string>)
    requires SidsUsed(db, used) && used <= used' && "" !in used' && SameTerms(db.codes, db'.codes) && db'.sessions.Keys <= db.sessions.Keys
    requires forall h | h in db'.sessions :: db'.sessions[h] == db.sessions[h]
    ensures SidsUsed(db', used')
  {
    forall h | h in db'.codes ensures h in used' && SidOk(db'.codes[h].terms.sid, used') { assert h in db.codes; }
  }

  lemma ThreadsStillOk(threads: map<nat, Thread>, tid: nat, th: Thread, used: set<string>, used': set<string>)
    requires ThreadsOk(threads, used) && used <= used' && ThreadSidOk(th, used')
    ensures ThreadsOk(threads[tid := th], used')
  {
    var threads' := threads[tid := th];
    forall t | t in threads' ensures ThreadSidOk(threads'[t], used') {
      if t != tid { assert ThreadSidOk(threads[t], used); }
    }
  }

  /** Where a browser step leads. */
  lemma BrowserNextOk(cfg: Config, db: Db, pending: map<string, PendingAuth>, now: Time, b: BrowserThread, v: string, used: set<string>)
    requires SidsUsed(db, used) && ThreadSidOk(Browser(b), used) && (b.SaveCode? ==> b.p.clientID != "")
    ensures ThreadSidOk(BrowserStep(cfg, db, pending, now, b, v).next, used)
    ensures IsIndexing(BrowserStep(cfg, db, pending, now, b, v).next) <==> b.SaveCode?
  {
  }

  lemma BrowserKeeps(cfg: Config, s: Sys, tid: nat, v: string, w: string, b: BrowserThread)
    requires Inv(s) && Enabled(s, Step(tid, v, w)) && s.threads[tid] == Browser(b) && (b.SaveCode? ==> b.p.clientID != "")
    ensures Inv(Apply(cfg, s, Step(tid, v, w)))
  {
    var s' := Apply(cfg, s, Step(tid, v, w));
    assert ThreadSidOk(s.threads[tid], s.used);
    BrowserNextOk(cfg, s.db, s.pending, s.now, b, v, s.used);
    ThreadsStillOk(s.threads, tid, s'.threads[tid], s.used, s.used);
    Frames.BrowserFrame(cfg, s.db, s.pending, s.now, b, v);
    Frames.BrowserWrites(cfg, s.db, s.pending, s.now, b, v);
    if b.SaveCode? {
      SavingKeeps(cfg, s, s', tid, v, b);
    } else if b.IndexClient? {
      IndexingKeeps(s, s', tid, b);
    } else if b.Forget? {
      ForgettingKeeps(s, s', tid, b);
    } else {
      OrdinaryKeeps(s, s', tid, s'.threads[tid]);
    }
  }

  lemma OrdinaryKeeps(s: Sys, s': Sys, tid: nat, th: Thread)
    requires Inv(s) && s'.threads == s.threads[tid := th] && !IsIndexing(th) && (tid in s.threads ==> !IsIndexing(s.threads[tid]))
    requires s.used <= s'.used && "" !in s'.used && ThreadSidOk(th, s'.used)
    requires SameTerms(s.db.codes, s'.db.codes) && s'.db.sidRP == s.db.sidRP && s'.db.sessions == s.db.sessions
    ensures Inv(s')
  {
    OrdinaryStep(s, s', tid, th);
    SidsKept(s.db, s'.db, s.used, s'.used);
    ThreadsStillOk(s.threads, tid, th, s.used, s'.used);
  }

  lemma SavingKeeps(cfg: Config, s: Sys, s': Sys, tid: nat, v: string, b: BrowserThread)
    requires Inv(s) && tid in s.threads && s.threads[tid] == Browser(b) && b.SaveCode? && v !in s.used && v != "" && b.p.clientID != ""
    requires s'.db == s.db.PutCode(NewCode(cfg, v, b.userID, b.sid, b.p, s.now)) && s'.used == s.used + {v}
    requires s'.threads == s.threads[tid := Browser(IndexClient(b.sid, b.p.clientID))]
    ensures Inv(s')
  {
    var c := NewCode(cfg, v, b.userID, b.sid, b.p, s.now);
    assert ThreadSidOk(s.threads[tid], s.used);
    StoringStep(s, s', tid, c);
    ThreadsStillOk(s.threads, tid, Browser(IndexClient(b.sid, b.p.clientID)), s.used, s'.used);
  }

  lemma IndexingKeeps(s: Sys, s': Sys, tid: nat, b: BrowserThread)
    requires Inv(s) && tid in s.threads && s.threads[tid] == Browser(b) && b.IndexClient?
    requires s'.db == s.db.AddSessionClient(b.sid, b.clientID) && s'.used == s.used && s'.threads == s.threads[tid := Done]
    ensures Inv(s')
  {
    Frames.IndexFrame(s.db, b.sid, b.clientID);
    EnteringStep(s, s'.db.sidRP, tid);
    ThreadsStillOk(s.threads, tid, Done, s.used, s.used);
  }

  lemma ForgettingKeeps(s: Sys, s': Sys, tid: nat, b: BrowserThread)
    requires Inv(s) && tid in s.threads && s.threads[tid] == Browser(b) && b.Forget?
    requires s'.db == s.db.DeleteSession(b.tokenHash) && s'.used == s.used
    requires tid in s'.threads && s'.threads == s.threads[tid := s'.threads[tid]] && ThreadSidOk(s'.threads[tid], s.used) && !IsIndexing(s'.threads[tid])
    ensures Inv(s')
  {
    var m := s.(db := s'.db);
    DroppingKeeps(s, m, b.tokenHash);
    OrdinaryKeeps(m, s', tid, s'.threads[tid]);
  }

  lemma DroppingKeeps(s: Sys, s': Sys, h: string)
    requires Inv(s) && s'.db == s.db.DeleteSession(h) && s'.threads == s.threads && s'.used == s.used
    ensures Inv(s')
  {
    DeletingStep(s.db, s.threads, h);
    DeleteShrinks(s.db, h);
    SidsUsedKept(s.db, s'.db, s.used, s.used);
  }

  lemma TokenKeeps(cfg: Config, s: Sys, tid: nat, v: string, w: string, t: TokenThread)
    requires Inv(s) && Enabled(s, Step(tid, v, w)) && s.threads[tid] == Token(t)
    ensures Inv(Apply(cfg, s, Step(tid, v, w)))
  {
    var s' := Apply(cfg, s, Step(tid, v, w));
    TokenKeepsBrowserState(cfg, s.db, s.now, t, v, w);
    TokenKeepsCodeTerms(cfg, s.db, s.now, t, v, w);
    OrdinaryKeeps(s, s', tid, s'.threads[tid]);
  }

  lemma OtherLabelKeeps(cfg: Config, s: Sys, l: Label)
    requires Inv(s) && Enabled(s, l) && !l.Step?
    ensures Inv(Apply(cfg, s, l))
  {
    var s' := Apply(cfg, s, l);
    if l.Spawn? { OrdinaryKeeps(s, s', l.tid, l.th); }
    else if l.Abort? { OrdinaryKeeps(s, s', l.tid, Done); }
    else if l.DropSession? { DroppingKeeps(s, s', l.tokenHash); }
    else if l.Login? { StartingKeeps(cfg, s, l.userID, l.tokenHash, l.sid); }
    else { SidsKept(s.db, s'.db, s.used, s.used); }
  }

  lemma StartingKeeps(cfg: Config, s: Sys, userID: string, tokenHash: string, sid: string)
    requires Inv(s) && Enabled(s, Login(userID, tokenHash, sid))
    ensures Inv(Apply(cfg, s, Login(userID, tokenHash, sid)))
  {
    var s', sess := Apply(cfg, s, Login(userID, tokenHash, sid)), Session(tokenHash, userID, sid, "", s.now + cfg.sessionTTL);
    StartingStep(s, sess);
    assert s'.db == s.db.PutSession(sess) && s'.db.sessions == s.db.sessions[tokenHash := sess];
    forall t | t in s.threads ensures ThreadSidOk(s.threads[t], s'.used) { assert ThreadSidOk(s.threads[t], s.used); }
  }

  lemma StepKeeps(cfg: Config, s: Sys, l: Label)
    requires Inv(s) && Accounts.Sound(cfg, s) && Enabled(s, l)
    ensures Inv(Apply(cfg, s, l))
  {
    if l.Step? {
      match s.threads[l.tid]
      case Browser(b) =>
        if b.SaveCode? { Accounts.IssuerIsNamed(cfg, s, l.tid); }
        BrowserKeeps(cfg, s, l.tid, l.v, l.w, b);
      case Token(t) => TokenKeeps(cfg, s, l.tid, l.v, l.w, t);
      case Done => OrdinaryKeeps(s, Apply(cfg, s, l), l.tid, Done);
    } else {
      OtherLabelKeeps(cfg, s, l);
    }
  }

  lemma InitOk(s: Sys)
    requires Init(s)
    ensures Inv(s)
  {
  }

  lemma ReachableInv(cfg: Config, s: Sys)
    requires Reachable(cfg, s)
    ensures Inv(s)
  {
    var s0, n :| Init(s0) && Leads(cfg, s0, s, n);
    assert Leads(cfg, s0, s0, 0);
    Accounts.ReachableSound(cfg, s0);
    InitOk(s0);
    var P := (x: Sys) => Inv(x) && Accounts.Sound(cfg, x);
    forall a, b | P(a) && Next(cfg, a, b) ensures P(b) {
      var l :| Enabled(a, l) && b == Apply(cfg, a, l);
      StepKeeps(cfg, a, l);
      Accounts.SoundStep(cfg, a, l);
    }
    RunInduction(cfg, s0, s, n, P);
  }

  /** In every interleaved run: the clients of the codes issued under a stored session are those in its fan-out set and
      those of requests that are about to enter it; and no set, of a stored session or of one that is gone, holds a
      client without a code. */
  lemma FanOutUpToEntering(cfg: Config, s: Sys)
    requires Reachable(cfg, s)
    ensures forall h | h in s.db.sessions ::
              ClientsOf(s.db.codes, s.db.sessions[h].sid) == FanOut(s.db.sidRP, s.db.sessions[h].sid) + Entering(s.threads, s.db.sessions[h].sid)
    ensures forall sid | sid != "" :: FanOut(s.db.sidRP, sid) <= ClientsOf(s.db.codes, sid)
  {
    ReachableInv(cfg, s);
    forall h | h in s.db.sessions
      ensures ClientsOf(s.db.codes, s.db.sessions[h].sid) == FanOut(s.db.sidRP, s.db.sessions[h].sid) + Entering(s.threads, s.db.sessions[h].sid)
    {
      assert Listed(s.db.sidRP, s.threads, s.db.sessions[h].sid) == ClientsOf(s.db.codes, s.db.sessions[h].sid);
    }
    forall sid | sid != "" ensures FanOut(s.db.sidRP, sid) <= ClientsOf(s.db.codes, sid) {
      assert Listed(s.db.sidRP, s.threads, sid) <= ClientsOf(s.db.codes, sid);
    }
  }

  /** So every client that holds an access token of a stored session is on its logout list, or is about to be. */
  lemma TokenHoldersAreListedOrEntering(cfg: Config, s: Sys, h: string, a: string)
    requires Reachable(cfg, s) && h in s.db.sessions && a in s.db.access && s.db.access[a].terms.sid == s.db.sessions[h].sid
    ensures s.db.access[a].terms.clientID in FanOut(s.db.sidRP, s.db.sessions[h].sid) + Entering(s.threads, s.db.sessions[h].sid)
  {
    var src, root := Provenance.AccessTokenProvenance(cfg, s, a);
    FanOutUpToEntering(cfg, s);
    assert s.db.codes[root].terms.clientID in ClientsOf(s.db.codes, s.db.sessions[h].sid);
  }
}

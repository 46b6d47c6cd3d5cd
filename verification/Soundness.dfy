/** Why a code may be exchanged: every code, and so every exchange, is backed by what happened before it. */
module Soundness {
  import opened Wrappers
  import opened Sorting
  import opened Domain
  import opened Ledger
  import opened Grants
  import Frames
  import Scopes
  import Lineage
  import Rotation

  // ----- What the log says -----

  ghost predicate GoodScopes(scopes: seq<string>) { Scopes.Canonical(scopes) && "openid" in scopes }

  /** The browser cookie was set for that user. */
  ghost predicate Known(log: seq<Event>, cookie: string, userID: string) {
    exists sid :: SessionStarted(cookie, userID, sid) in log
  }

  ghost predicate StartedFor(log: seq<Event>, userID: string, sid: string) {
    exists tokenHash :: SessionStarted(tokenHash, userID, sid) in log
  }

  /** An authorize request with these terms was accepted, its redirect URI being registered at that instant. */
  ghost predicate Asked(log: seq<Event>, clientID: string, redirectURI: string, challenge: string, scopes: seq<string>) {
    exists registered :: AuthorizeSeen(clientID, redirectURI, challenge, scopes, registered) in log && redirectURI in registered
  }

  /** The instant an authorize request was turned into p. */
  function BuiltAt(cfg: Config, p: PendingAuth): Time { p.expiresAt - cfg.codeTTL * 10 }

  ghost predicate PendingOk(cfg: Config, log: seq<Event>, p: PendingAuth) {
    && GoodScopes(p.scopes) && Asked(log, p.clientID, p.redirectURI, p.challenge, p.scopes)
    && RequestBuilt(p, BuiltAt(cfg, p)) in log
  }

  /** The user once put a consent for this client that covers the scopes. */
  ghost predicate Agreed(log: seq<Event>, userID: string, clientID: string, scopes: seq<string>) {
    exists c :: ConsentPut(c) in log && c.userID == userID && c.clientID == clientID && Covers(c.scopes, scopes)
  }

  /** The request was decided on at once, or before it expired. */
  ghost predicate DecidedOk(cfg: Config, p: PendingAuth, decidedAt: Time) {
    BuiltAt(cfg, p) <= decidedAt && (decidedAt == BuiltAt(cfg, p) || decidedAt < p.expiresAt)
  }

  ghost predicate Ready(cfg: Config, log: seq<Event>, now: Time, userID: string, p: PendingAuth, decidedAt: Time) {
    && PendingOk(cfg, log, p) && DecidedOk(cfg, p, decidedAt) && decidedAt <= now
    && Agreed(log, userID, p.clientID, p.scopes)
  }

  /** The code repeats the request p, and was issued for it. */
  ghost predicate IssuedFor(cfg: Config, log: seq<Event>, code: AuthCode, p: PendingAuth, decidedAt: Time) {
    && CodeIssued(code.(used := false), p, decidedAt, code.expiresAt - cfg.codeTTL) in log
    && Ready(cfg, log, code.expiresAt - cfg.codeTTL, code.terms.userID, p, decidedAt)
    && code.terms.clientID == p.clientID && code.terms.scopes == p.scopes
    && code.redirectURI == p.redirectURI && code.challenge == p.challenge
    && (code.terms.sid != "" ==> StartedFor(log, code.terms.userID, code.terms.sid))
  }

  ghost predicate CodeOk(cfg: Config, log: seq<Event>, now: Time, code: AuthCode) {
    && code.expiresAt - cfg.codeTTL <= now
    && exists p, decidedAt :: IssuedFor(cfg, log, code, p, decidedAt)
  }

  // ----- The invariant -----

  ghost predicate QueryOk(log: seq<Event>, q: AuthQuery, scopes: seq<string>) {
    GoodScopes(scopes) && Asked(log, q.clientID, q.redirectURI, q.challenge, scopes)
  }

  ghost predicate ContOk(cfg: Config, log: seq<Event>, now: Time, k: Cont) {
    match k
    case ForAuthorize(q, scopes) => QueryOk(log, q, scopes)
    case ForConsent(_, _) => true
    case ForIssue(userID, p, d) => Ready(cfg, log, now, userID, p, d)
  }

  /** A request that issues a code looks up the very cookie its user was found by. */
  ghost predicate SameBrowser(log: seq<Event>, browser: Option<string>, k: Cont) {
    k.ForIssue? ==> browser.Some? && Known(log, browser.value, k.userID)
  }

  ghost predicate UserOk(log: seq<Event>, cookie: string, userID: string) { Known(log, cookie, userID) && '|' !in userID }

  ghost predicate BrowserOk(cfg: Config, log: seq<Event>, now: Time, b: BrowserThread) {
    match b
    case Authorize(_) => true
    case Consenting(_, _, _) => true
    case Lookup(browser, k) => ContOk(cfg, log, now, k) && SameBrowser(log, browser, k)
    case Live(cookie, sess, k) =>
      ContOk(cfg, log, now, k) && SameBrowser(log, Some(cookie), k) && SessionStarted(cookie, sess.userID, sess.sid) in log
    case Forget(_, k) => ContOk(cfg, log, now, k)
    case Account(cookie, userID, k) => ContOk(cfg, log, now, k) && Known(log, cookie, userID)
    case Build(cookie, userID, q, scopes) => UserOk(log, cookie, userID) && QueryOk(log, q, scopes)
    case CheckConsent(cookie, userID, p, builtAt) =>
      UserOk(log, cookie, userID) && PendingOk(cfg, log, p) && builtAt == BuiltAt(cfg, p) && builtAt <= now
    case Park(_, p) => PendingOk(cfg, log, p) && BuiltAt(cfg, p) <= now
    case TakePending(cookie, userID, _, _) => UserOk(log, cookie, userID)
    case Decide(cookie, userID, p, _) => UserOk(log, cookie, userID) && PendingOk(cfg, log, p) && BuiltAt(cfg, p) <= now
    case SaveConsent(cookie, userID, p, d) =>
      UserOk(log, cookie, userID) && PendingOk(cfg, log, p) && DecidedOk(cfg, p, d) && d <= now
    case SaveCode(userID, sid, p, d) =>
      Ready(cfg, log, now, userID, p, d) && (sid != "" ==> StartedFor(log, userID, sid))
    case IndexClient(_, _) => true
  }

  ghost predicate SessionsOk(db: Db, log: seq<Event>) {
    forall h | h in db.sessions :: SessionStarted(h, db.sessions[h].userID, db.sessions[h].sid) in log
  }

  ghost predicate ConsentOk(log: seq<Event>, key: string, c: Consent) {
    ConsentPut(c) in log && key == ConsentKey(c.userID, c.clientID) && '|' !in c.userID
  }

  ghost predicate DbOk(cfg: Config, db: Db, log: seq<Event>, now: Time) {
    && SessionsOk(db, log)
    && (forall u | u in db.users :: '|' !in u)
    && (forall k | k in db.consent :: ConsentOk(log, k, db.consent[k]))
    && (forall h | h in db.codes :: CodeOk(cfg, log, now, db.codes[h]))
  }

  ghost predicate PendingsOk(cfg: Config, pending: map<string, PendingAuth>, log: seq<Event>, now: Time) {
    forall r | r in pending :: PendingOk(cfg, log, pending[r]) && BuiltAt(cfg, pending[r]) <= now
  }

  /** A session cookie is set once. */
  ghost predicate StartedOnce(log: seq<Event>, used: set<string>) {
    && (forall e, e' | e in log && e' in log && e.SessionStarted? && e'.SessionStarted? && e.tokenHash == e'.tokenHash :: e == e')
    && (forall e | e in log && e.SessionStarted? :: e.tokenHash in used)
  }

  /** What justifies an exchange, in the log before it. */
  ghost predicate Justified(cfg: Config, before: seq<Event>, e: Event, code: AuthCode, p: PendingAuth, decidedAt: Time)
    requires e.Exchanged?
  {
    && IssuedFor(cfg, before, code, p, decidedAt) && code.hash == e.codeHash
    && e.clientID == code.terms.clientID && e.redirectURI == code.redirectURI && VerifyS256(cfg, e.verifier, code.challenge)
    && code.expiresAt - cfg.codeTTL <= e.at < code.expiresAt
  }

  ghost predicate ExchangeOk(cfg: Config, before: seq<Event>, e: Event) {
    e.Exchanged? ==> exists code, p, decidedAt :: Justified(cfg, before, e, code, p, decidedAt)
  }

  ghost predicate Exchanges(cfg: Config, log: seq<Event>) {
    forall k | 0 <= k < |log| :: ExchangeOk(cfg, log[..k], log[k])
  }

  ghost predicate TokenOk(db: Db, t: TokenThread) {
    t.CodeCheck? ==> t.code.hash in db.codes && db.codes[t.code.hash] == t.code && t.code.used
  }

  ghost predicate ThreadOk(cfg: Config, db: Db, log: seq<Event>, now: Time, th: Thread) {
    match th
    case Browser(b) => BrowserOk(cfg, log, now, b)
    case Token(t) => TokenOk(db, t)
    case Done => true
  }

  ghost predicate Inv(cfg: Config, s: Sys) {
    && DbOk(cfg, s.db, s.log, s.now) && PendingsOk(cfg, s.pending, s.log, s.now)
    && StartedOnce(s.log, s.used) && Exchanges(cfg, s.log)
    && (forall t | t in s.threads :: ThreadOk(cfg, s.db, s.log, s.now, s.threads[t]))
  }

  // ----- Facts stay true as the log and the clock grow -----

  ghost predicate Extends(log: seq<Event>, log': seq<Event>) { forall e | e in log :: e in log' }

  lemma AskedGrows(log: seq<Event>, log': seq<Event>, clientID: string, redirectURI: string, challenge: string, scopes: seq<string>)
    requires Extends(log, log') && Asked(log, clientID, redirectURI, challenge, scopes)
    ensures Asked(log', clientID, redirectURI, challenge, scopes)
  {
    var registered :| AuthorizeSeen(clientID, redirectURI, challenge, scopes, registered) in log && redirectURI in registered;
    assert AuthorizeSeen(clientID, redirectURI, challenge, scopes, registered) in log';
  }

  lemma PendingGrows(cfg: Config, log: seq<Event>, log': seq<Event>, p: PendingAuth)
    requires Extends(log, log') && PendingOk(cfg, log, p)
    ensures PendingOk(cfg, log', p)
  {
    AskedGrows(log, log', p.clientID, p.redirectURI, p.challenge, p.scopes);
  }

  lemma KnownGrows(log: seq<Event>, log': seq<Event>, cookie: string, userID: string)
    requires Extends(log, log') && Known(log, cookie, userID)
    ensures Known(log', cookie, userID)
  {
    var sid :| SessionStarted(cookie, userID, sid) in log;
    assert SessionStarted(cookie, userID, sid) in log';
  }

  lemma StartedGrows(log: seq<Event>, log': seq<Event>, userID: string, sid: string)
    requires Extends(log, log') && StartedFor(log, userID, sid)
    ensures StartedFor(log', userID, sid)
  {
    var h :| SessionStarted(h, userID, sid) in log;
    assert SessionStarted(h, userID, sid) in log';
  }

  lemma ReadyGrows(cfg: Config, log: seq<Event>, log': seq<Event>, now: Time, now': Time, userID: string, p: PendingAuth, d: Time)
    requires Extends(log, log') && now <= now' && Ready(cfg, log, now, userID, p, d)
    ensures Ready(cfg, log', now', userID, p, d)
  {
    PendingGrows(cfg, log, log', p);
    var c :| ConsentPut(c) in log && c.userID == userID && c.clientID == p.clientID && Covers(c.scopes, p.scopes);
    assert ConsentPut(c) in log';
  }

  lemma IssuedForGrows(cfg: Config, log: seq<Event>, log': seq<Event>, code: AuthCode, p: PendingAuth, d: Time)
    requires Extends(log, log') && IssuedFor(cfg, log, code, p, d)
    ensures IssuedFor(cfg, log', code, p, d)
  {
    var at := code.expiresAt - cfg.codeTTL;
    ReadyGrows(cfg, log, log', at, at, code.terms.userID, p, d);
    if code.terms.sid != "" { StartedGrows(log, log', code.terms.userID, code.terms.sid); }
  }

  lemma CodeGrows(cfg: Config, log: seq<Event>, log': seq<Event>, now: Time, now': Time, code: AuthCode)
    requires Extends(log, log') && now <= now' && CodeOk(cfg, log, now, code)
    ensures CodeOk(cfg, log', now', code)
  {
    var p, d :| IssuedFor(cfg, log, code, p, d);
    IssuedForGrows(cfg, log, log', code, p, d);
  }

  lemma ContGrows(cfg: Config, log: seq<Event>, log': seq<Event>, now: Time, now': Time, browser: Option<string>, k: Cont)
    requires Extends(log, log') && now <= now' && ContOk(cfg, log, now, k)
    ensures ContOk(cfg, log', now', k) && (SameBrowser(log, browser, k) ==> SameBrowser(log', browser, k))
  {
    match k
    case ForAuthorize(q, scopes) => AskedGrows(log, log', q.clientID, q.redirectURI, q.challenge, scopes);
    case ForConsent(_, _) =>
    case ForIssue(userID, p, d) =>
      ReadyGrows(cfg, log, log', now, now', userID, p, d);
      if SameBrowser(log, browser, k) { KnownGrows(log, log', browser.value, userID); }
  }

  lemma BrowserGrows(cfg: Config, log: seq<Event>, log': seq<Event>, now: Time, now': Time, b: BrowserThread)
    requires Extends(log, log') && now <= now' && BrowserOk(cfg, log, now, b)
    ensures BrowserOk(cfg, log', now', b)
  {
    match b
    case Authorize(_) =>
    case Consenting(_, _, _) =>
    case Lookup(browser, k) => ContGrows(cfg, log, log', now, now', browser, k);
    case Live(cookie, sess, k) => ContGrows(cfg, log, log', now, now', Some(cookie), k);
    case Forget(_, k) => ContGrows(cfg, log, log', now, now', None, k);
    case Account(cookie, userID, k) => ContGrows(cfg, log, log', now, now', Some(cookie), k); KnownGrows(log, log', cookie, userID);
    case Build(cookie, userID, q, scopes) =>
      KnownGrows(log, log', cookie, userID); AskedGrows(log, log', q.clientID, q.redirectURI, q.challenge, scopes);
    case CheckConsent(cookie, userID, p, _) => KnownGrows(log, log', cookie, userID); PendingGrows(cfg, log, log', p);
    case Park(_, p) => PendingGrows(cfg, log, log', p);
    case TakePending(cookie, userID, _, _) => KnownGrows(log, log', cookie, userID);
    case Decide(cookie, userID, p, _) => KnownGrows(log, log', cookie, userID); PendingGrows(cfg, log, log', p);
    case SaveConsent(cookie, userID, p, _) => KnownGrows(log, log', cookie, userID); PendingGrows(cfg, log, log', p);
    case SaveCode(userID, sid, p, d) =>
      ReadyGrows(cfg, log, log', now, now', userID, p, d);
      if sid != "" { StartedGrows(log, log', userID, sid); }
    case IndexClient(_, _) =>
  }

  lemma DbGrows(cfg: Config, db: Db, log: seq<Event>, log': seq<Event>, now: Time, now': Time)
    requires Extends(log, log') && now <= now' && DbOk(cfg, db, log, now)
    ensures DbOk(cfg, db, log', now')
  {
    forall h | h in db.codes ensures CodeOk(cfg, log', now', db.codes[h]) { CodeGrows(cfg, log, log', now, now', db.codes[h]); }
  }

  lemma PendingsGrow(cfg: Config, pending: map<string, PendingAuth>, log: seq<Event>, log': seq<Event>, now: Time, now': Time)
    requires Extends(log, log') && now <= now' && PendingsOk(cfg, pending, log, now)
    ensures PendingsOk(cfg, pending, log', now')
  {
    forall r | r in pending ensures PendingOk(cfg, log', pending[r]) { PendingGrows(cfg, log, log', pending[r]); }
  }

  // ----- Preservation -----

  /** "user|client" is a pair key, because user IDs hold no '|'. */
  lemma {:induction false} ConsentKeyIsPairKey(userID: string, clientID: string, userID': string, clientID': string)
    requires '|' !in userID && '|' !in userID'
    ensures ConsentKey(userID, clientID) == ConsentKey(userID', clientID') <==> userID == userID' && clientID == clientID'
    decreases |userID|
  {
    var k, k' := ConsentKey(userID, clientID), ConsentKey(userID', clientID');
    assert userID == [] ==> k[0] == '|' && clientID == k[1..];
    assert userID' == [] ==> k'[0] == '|' && clientID' == k'[1..];
    assert userID != [] ==> userID[0] in userID && k[0] == userID[0] && k[1..] == ConsentKey(userID[1..], clientID);
    assert userID' != [] ==> userID'[0] in userID' && k'[0] == userID'[0] && k'[1..] == ConsentKey(userID'[1..], clientID');
    if userID != [] && userID' != [] {
      ConsentKeyIsPairKey(userID[1..], clientID, userID'[1..], clientID');
      assert userID == [userID[0]] + userID[1..] && userID' == [userID'[0]] + userID'[1..];
    }
  }

  /** What a browser step must establish, in the log it leaves. */
  ghost predicate StepOk(cfg: Config, r: StepResult, log': seq<Event>, now: Time) {
    && DbOk(cfg, r.db, log', now) && PendingsOk(cfg, r.pending, log', now)
    && (r.next.Browser? ==> BrowserOk(cfg, log', now, r.next.b)) && !r.next.Token?
    && |r.events| <= 1 && (forall e | e in r.events :: !e.SessionStarted? && !e.Exchanged?)
  }

  lemma DeleteSessionOk(cfg: Config, db: Db, log: seq<Event>, now: Time, h: string)
    requires DbOk(cfg, db, log, now)
    ensures DbOk(cfg, db.DeleteSession(h), log, now)
  {
  }

  /** Two sessions of one cookie are of one user. */
  lemma OneUserPerCookie(log: seq<Event>, used: set<string>, cookie: string, sess: Session, userID: string)
    requires StartedOnce(log, used) && SessionStarted(cookie, sess.userID, sess.sid) in log && Known(log, cookie, userID)
    ensures userID == sess.userID && StartedFor(log, userID, sess.sid) && Known(log, cookie, sess.userID)
  {
    var sid :| SessionStarted(cookie, userID, sid) in log;
  }

  /** Where the steps that find the session and the user of a request lead. */
  lemma SessionNextOk(cfg: Config, db: Db, pending: map<string, PendingAuth>, log: seq<Event>, used: set<string>,
                      now: Time, b: BrowserThread, v: string)
    requires SessionsOk(db, log) && (forall u | u in db.users :: '|' !in u)
    requires StartedOnce(log, used) && BrowserOk(cfg, log, now, b)
    requires b.Consenting? || b.Lookup? || b.Live? || b.Forget? || b.Account?
    ensures var r := BrowserStep(cfg, db, pending, now, b, v);
            && (r.next.Browser? ==> BrowserOk(cfg, log, now, r.next.b)) && !r.next.Token?
            && |r.events| <= 1 && (forall e | e in r.events :: e.UserSeen?)
            && r.pending == pending && r.db == (if b.Forget? then db.DeleteSession(b.tokenHash) else db)
  {
    match b
    case Live(cookie, sess, k) =>
      assert Known(log, cookie, sess.userID);
      if k.ForIssue? { OneUserPerCookie(log, used, cookie, sess, k.userID); }
    case _ =>
  }

  lemma SessionStepsOk(cfg: Config, db: Db, pending: map<string, PendingAuth>, log: seq<Event>, used: set<string>,
                       now: Time, b: BrowserThread, v: string)
    requires DbOk(cfg, db, log, now) && PendingsOk(cfg, pending, log, now) && StartedOnce(log, used) && BrowserOk(cfg, log, now, b)
    requires b.Consenting? || b.Lookup? || b.Live? || b.Forget? || b.Account?
    ensures var r := BrowserStep(cfg, db, pending, now, b, v); StepOk(cfg, r, log + r.events, now)
  {
    var r := BrowserStep(cfg, db, pending, now, b, v);
    SessionNextOk(cfg, db, pending, log, used, now, b, v);
    if b.Forget? { DeleteSessionOk(cfg, db, log, now, b.tokenHash); }
    DbGrows(cfg, r.db, log, log + r.events, now, now);
    PendingsGrow(cfg, pending, log, log + r.events, now, now);
    if r.next.Browser? { BrowserGrows(cfg, log, log + r.events, now, now, r.next.b); }
  }

  lemma AuthorizeStepOk(cfg: Config, db: Db, pending: map<string, PendingAuth>, log: seq<Event>, now: Time, q: AuthQuery, v: string)
    requires DbOk(cfg, db, log, now) && PendingsOk(cfg, pending, log, now)
    ensures var r := BrowserStep(cfg, db, pending, now, Authorize(q), v); StepOk(cfg, r, log + r.events, now)
  {
    var r := BrowserStep(cfg, db, pending, now, Authorize(q), v);
    DbGrows(cfg, db, log, log + r.events, now, now);
    PendingsGrow(cfg, pending, log, log + r.events, now, now);
    Scopes.NormalizeGrants(q.scope, true);
    if r.events != [] {
      var scopes := Scopes.Normalize(q.scope, true).scopes;
      assert "openid" in Elements(Scopes.Fields(q.scope)) && "openid" in Elements(scopes);
      assert r.events[0] in log + r.events;
    }
  }

  lemma RequestStepsOk(cfg: Config, db: Db, pending: map<string, PendingAuth>, log: seq<Event>, now: Time, b: BrowserThread, v: string)
    requires DbOk(cfg, db, log, now) && PendingsOk(cfg, pending, log, now) && BrowserOk(cfg, log, now, b)
    requires b.Build? || b.Park? || b.TakePending? || b.Decide?
    ensures var r := BrowserStep(cfg, db, pending, now, b, v); StepOk(cfg, r, log + r.events, now)
  {
    var r := BrowserStep(cfg, db, pending, now, b, v);
    DbGrows(cfg, db, log, log + r.events, now, now);
    PendingsGrow(cfg, pending, log, log + r.events, now, now);
    BrowserGrows(cfg, log, log + r.events, now, now, b);
    assert r.events != [] ==> r.events[0] in log + r.events;
  }

  lemma CheckConsentOk(cfg: Config, db: Db, pending: map<string, PendingAuth>, log: seq<Event>, now: Time, b: BrowserThread, v: string)
    requires DbOk(cfg, db, log, now) && PendingsOk(cfg, pending, log, now) && BrowserOk(cfg, log, now, b) && b.CheckConsent?
    ensures var r := BrowserStep(cfg, db, pending, now, b, v); StepOk(cfg, r, log + r.events, now)
  {
    assert log + [] == log;
    var key := ConsentKey(b.userID, b.p.clientID);
    if key in db.consent {
      var c := db.consent[key];
      assert ConsentOk(log, key, c);
      ConsentKeyIsPairKey(b.userID, b.p.clientID, c.userID, c.clientID);
    }
  }

  lemma PutConsentOk(cfg: Config, db: Db, log: seq<Event>, now: Time, c: Consent)
    requires DbOk(cfg, db, log, now) && ConsentPut(c) in log && '|' !in c.userID
    ensures DbOk(cfg, db.PutConsent(c), log, now)
  {
  }

  lemma PutCodeOk(cfg: Config, db: Db, log: seq<Event>, now: Time, c: AuthCode)
    requires DbOk(cfg, db, log, now) && CodeOk(cfg, log, now, c)
    ensures DbOk(cfg, db.PutCode(c), log, now)
  {
  }

  lemma SaveConsentOk(cfg: Config, db: Db, pending: map<string, PendingAuth>, log: seq<Event>, now: Time, b: BrowserThread, v: string)
    requires DbOk(cfg, db, log, now) && PendingsOk(cfg, pending, log, now) && BrowserOk(cfg, log, now, b) && b.SaveConsent?
    ensures var r := BrowserStep(cfg, db, pending, now, b, v); StepOk(cfg, r, log + r.events, now)
  {
    var c := Consent(b.userID, b.p.clientID, b.p.scopes);
    var log' := log + [ConsentPut(c)];
    DbGrows(cfg, db, log, log', now, now);
    PendingsGrow(cfg, pending, log, log', now, now);
    BrowserGrows(cfg, log, log', now, now, b);
    assert ConsentPut(c) in log';
    PutConsentOk(cfg, db, log', now, c);
  }

  lemma NewCodeOk(cfg: Config, log: seq<Event>, now: Time, b: BrowserThread, v: string)
    requires b.SaveCode? && BrowserOk(cfg, log, now, b)
    requires CodeIssued(NewCode(cfg, v, b.userID, b.sid, b.p, now), b.p, b.decidedAt, now) in log
    ensures CodeOk(cfg, log, now, NewCode(cfg, v, b.userID, b.sid, b.p, now))
  {
    var c := NewCode(cfg, v, b.userID, b.sid, b.p, now);
    assert c.(used := false) == c && c.expiresAt - cfg.codeTTL == now;
    assert IssuedFor(cfg, log, c, b.p, b.decidedAt);
  }

  lemma SaveCodeOk(cfg: Config, db: Db, pending: map<string, PendingAuth>, log: seq<Event>, now: Time, b: BrowserThread, v: string)
    requires DbOk(cfg, db, log, now) && PendingsOk(cfg, pending, log, now) && BrowserOk(cfg, log, now, b) && b.SaveCode?
    ensures var r := BrowserStep(cfg, db, pending, now, b, v); StepOk(cfg, r, log + r.events, now)
  {
    var c := NewCode(cfg, v, b.userID, b.sid, b.p, now);
    var log' := log + [CodeIssued(c, b.p, b.decidedAt, now)];
    PendingsGrow(cfg, pending, log, log', now, now);
    SavedCodeOk(cfg, db, log, now, b, v);
  }

  lemma SavedCodeOk(cfg: Config, db: Db, log: seq<Event>, now: Time, b: BrowserThread, v: string)
    requires DbOk(cfg, db, log, now) && BrowserOk(cfg, log, now, b) && b.SaveCode?
    ensures var c := NewCode(cfg, v, b.userID, b.sid, b.p, now);
            DbOk(cfg, db.PutCode(c), log + [CodeIssued(c, b.p, b.decidedAt, now)], now)
  {
    var c := NewCode(cfg, v, b.userID, b.sid, b.p, now);
    var log' := log + [CodeIssued(c, b.p, b.decidedAt, now)];
    DbGrows(cfg, db, log, log', now, now);
    BrowserGrows(cfg, log, log', now, now, b);
    NewCodeOk(cfg, log', now, b, v);
    PutCodeOk(cfg, db, log', now, c);
  }

  lemma SameDbOk(cfg: Config, db: Db, db': Db, log: seq<Event>, now: Time)
    requires DbOk(cfg, db, log, now) && db'.sessions == db.sessions && db'.users == db.users
    requires db'.consent == db.consent && db'.codes == db.codes
    ensures DbOk(cfg, db', log, now)
  {
  }

  lemma AddSessionClientOk(cfg: Config, db: Db, log: seq<Event>, now: Time, sid: string, clientID: string)
    requires DbOk(cfg, db, log, now)
    ensures DbOk(cfg, db.AddSessionClient(sid, clientID), log, now)
  {
    Frames.IndexFrame(db, sid, clientID);
    SameDbOk(cfg, db, db.(sidRP := db.AddSessionClient(sid, clientID).sidRP), log, now);
  }

  lemma IndexClientOk(cfg: Config, db: Db, pending: map<string, PendingAuth>, log: seq<Event>, now: Time, sid: string, clientID: string, v: string)
    requires DbOk(cfg, db, log, now) && PendingsOk(cfg, pending, log, now)
    ensures var r := BrowserStep(cfg, db, pending, now, IndexClient(sid, clientID), v); StepOk(cfg, r, log + r.events, now)
  {
    assert log + [] == log;
    AddSessionClientOk(cfg, db, log, now, sid, clientID);
  }

  lemma BrowserStepOk(cfg: Config, db: Db, pending: map<string, PendingAuth>, log: seq<Event>, used: set<string>,
                      now: Time, b: BrowserThread, v: string)
    requires DbOk(cfg, db, log, now) && PendingsOk(cfg, pending, log, now) && StartedOnce(log, used) && BrowserOk(cfg, log, now, b)
    ensures var r := BrowserStep(cfg, db, pending, now, b, v); StepOk(cfg, r, log + r.events, now)
  {
    if b.Authorize? { AuthorizeStepOk(cfg, db, pending, log, now, b.q, v); }
    else if b.CheckConsent? { CheckConsentOk(cfg, db, pending, log, now, b, v); }
    else if b.SaveConsent? { SaveConsentOk(cfg, db, pending, log, now, b, v); }
    else if b.SaveCode? { SaveCodeOk(cfg, db, pending, log, now, b, v); }
    else if b.IndexClient? { IndexClientOk(cfg, db, pending, log, now, b.sid, b.clientID, v); }
    else if b.Build? || b.Park? || b.TakePending? || b.Decide? { RequestStepsOk(cfg, db, pending, log, now, b, v); }
    else { SessionStepsOk(cfg, db, pending, log, used, now, b, v); }
  }

  // ----- Token requests -----

  lemma TakeCodeOk(cfg: Config, db: Db, log: seq<Event>, now: Time, h: string)
    requires DbOk(cfg, db, log, now)
    ensures DbOk(cfg, db.TakeCode(h).0, log, now)
  {
    if db.TakeCode(h).1.Ok? {
      var c := db.codes[h];
      var p, d :| IssuedFor(cfg, log, c, p, d);
      assert c.(used := true).(used := false) == c.(used := false);
      assert IssuedFor(cfg, log, c.(used := true), p, d);
      assert forall k | k in db.codes :: CodeOk(cfg, log, now, db.codes[k]);
    }
  }

  lemma TokenLeavesBrowserRows(cfg: Config, db: Db, now: Time, t: TokenThread, v: string, w: string)
    ensures var db' := TokenStep(cfg, db, now, t, v, w).db;
            && db'.sessions == db.sessions && db'.users == db.users && db'.consent == db.consent
            && (!t.CodeTake? ==> db'.codes == db.codes)
  {
    Frames.TokenFrame(cfg, db, now, t, v, w);
  }

  lemma TokenDbOk(cfg: Config, db: Db, log: seq<Event>, now: Time, t: TokenThread, v: string, w: string)
    requires DbOk(cfg, db, log, now)
    ensures DbOk(cfg, TokenStep(cfg, db, now, t, v, w).db, log, now)
  {
    if t.CodeTake? { TakeCodeOk(cfg, db, log, now, t.hash); }
    else {
      TokenLeavesBrowserRows(cfg, db, now, t, v, w);
      SameDbOk(cfg, db, TokenStep(cfg, db, now, t, v, w).db, log, now);
    }
  }

  /** A code row never changes once it is used. */
  ghost predicate UsedCodesKept(db: Db, db': Db) {
    forall h | h in db.codes && db.codes[h].used :: h in db'.codes && db'.codes[h] == db.codes[h]
  }

  lemma TokenKeepsUsedCodes(cfg: Config, db: Db, now: Time, t: TokenThread, v: string, w: string)
    ensures UsedCodesKept(db, TokenStep(cfg, db, now, t, v, w).db)
  {
    if t.CodeTake? { TakeKeepsUsedCodes(db, t.hash); } else { TokenLeavesBrowserRows(cfg, db, now, t, v, w); }
  }

  lemma TakeKeepsUsedCodes(db: Db, h: string)
    ensures UsedCodesKept(db, db.TakeCode(h).0)
  {
  }

  lemma TokenGoesOn(cfg: Config, db: Db, now: Time, t: TokenThread, v: string, w: string)
    requires forall h | h in db.codes :: db.codes[h].hash == h
    ensures var r := TokenStep(cfg, db, now, t, v, w); !r.next.Browser? && (r.next.Token? ==> TokenOk(r.db, r.next.t))
  {
  }

  lemma TokenLogs(cfg: Config, db: Db, now: Time, t: TokenThread, v: string, w: string)
    ensures var ev := TokenStep(cfg, db, now, t, v, w).events;
            |ev| <= 1 && forall e | e in ev :: !e.SessionStarted? && (e.Exchanged? ==> t.CodeCheck?)
  {
  }

  /** The exchange a code request logs is justified by what the log holds at that instant. */
  lemma ExchangeIsJustified(cfg: Config, db: Db, log: seq<Event>, now: Time, t: TokenThread, v: string, w: string)
    requires DbOk(cfg, db, log, now) && TokenOk(db, t) && t.CodeCheck?
    ensures forall e | e in TokenStep(cfg, db, now, t, v, w).events :: ExchangeOk(cfg, log, e)
  {
    if CodeAccepted(cfg, t.creq, t.clientID, t.code, now) {
      assert CodeOk(cfg, log, now, db.codes[t.code.hash]);
      var p, d :| IssuedFor(cfg, log, t.code, p, d);
      var e := Exchanged(t.code.hash, t.clientID, t.creq.redirectURI, t.creq.verifier, now);
      assert Justified(cfg, log, e, t.code, p, d);
    }
  }

  lemma ExchangesGrow(cfg: Config, log: seq<Event>, ev: seq<Event>)
    requires Exchanges(cfg, log) && |ev| <= 1 && forall e | e in ev :: ExchangeOk(cfg, log, e)
    ensures Exchanges(cfg, log + ev)
  {
    forall k | 0 <= k < |log + ev| ensures ExchangeOk(cfg, (log + ev)[..k], (log + ev)[k]) {
      if k < |log| {
        assert (log + ev)[..k] == log[..k] && ExchangeOk(cfg, log[..k], log[k]);
      } else {
        assert (log + ev)[..k] == log && (log + ev)[k] == ev[0];
      }
    }
  }

  // ----- The whole step -----

  /** The threads that did not move still are as they must be. */
  lemma ThreadsGrow(cfg: Config, s: Sys, s': Sys, except: nat)
    requires forall t | t in s.threads :: ThreadOk(cfg, s.db, s.log, s.now, s.threads[t])
    requires Extends(s.log, s'.log) && s.now <= s'.now && UsedCodesKept(s.db, s'.db)
    ensures forall t | t in s.threads && t != except :: ThreadOk(cfg, s'.db, s'.log, s'.now, s.threads[t])
  {
    forall t | t in s.threads && t != except ensures ThreadOk(cfg, s'.db, s'.log, s'.now, s.threads[t]) {
      assert ThreadOk(cfg, s.db, s.log, s.now, s.threads[t]);
      if s.threads[t].Browser? { BrowserGrows(cfg, s.log, s'.log, s.now, s'.now, s.threads[t].b); }
    }
  }

  lemma RequestMoves(cfg: Config, s: Sys, s': Sys, tid: nat, next: Thread, ev: seq<Event>)
    requires Inv(cfg, s) && s'.threads == s.threads[tid := next] && s'.log == s.log + ev && |ev| <= 1 && s.now <= s'.now
    requires (forall e | e in ev :: !e.SessionStarted? && ExchangeOk(cfg, s.log, e)) && s.used <= s'.used
    requires DbOk(cfg, s'.db, s'.log, s'.now) && PendingsOk(cfg, s'.pending, s'.log, s'.now)
    requires UsedCodesKept(s.db, s'.db) && ThreadOk(cfg, s'.db, s'.log, s'.now, next)
    ensures Inv(cfg, s')
  {
    ThreadsGrow(cfg, s, s', tid);
    ExchangesGrow(cfg, s.log, ev);
  }

  lemma StepKeeps(cfg: Config, s: Sys, l: Label)
    requires Inv(cfg, s) && Lineage.Sound(s.db, s.used) && Enabled(s, l)
    ensures Inv(cfg, Apply(cfg, s, l))
  {
    match l
    case Step(tid, v, w) =>
      match s.threads[tid] {
        case Browser(b) => BrowserMoves(cfg, s, tid, b, v, w);
        case Token(t) => TokenMoves(cfg, s, tid, t, v, w);
        case Done => assert Apply(cfg, s, l) == s;
      }
    case _ => OtherKeeps(cfg, s, l);
  }

  lemma BrowserMoves(cfg: Config, s: Sys, tid: nat, b: BrowserThread, v: string, w: string)
    requires Inv(cfg, s) && Lineage.Sound(s.db, s.used) && Enabled(s, Step(tid, v, w)) && s.threads[tid] == Browser(b)
    ensures Inv(cfg, Apply(cfg, s, Step(tid, v, w)))
  {
    var r := BrowserStep(cfg, s.db, s.pending, s.now, b, v);
    assert ThreadOk(cfg, s.db, s.log, s.now, s.threads[tid]);
    BrowserStepOk(cfg, s.db, s.pending, s.log, s.used, s.now, b, v);
    FreshCodeKeepsUsed(cfg, s.db, s.pending, s.now, b, v, s.used);
    RequestMoves(cfg, s, Apply(cfg, s, Step(tid, v, w)), tid, r.next, r.events);
  }

  lemma FreshCodeKeepsUsed(cfg: Config, db: Db, pending: map<string, PendingAuth>, now: Time, b: BrowserThread, v: string, used: set<string>)
    requires db.codes.Keys <= used && (b.SaveCode? ==> v !in used)
    ensures UsedCodesKept(db, BrowserStep(cfg, db, pending, now, b, v).db)
  {
    Frames.BrowserFrame(cfg, db, pending, now, b, v);
  }

  lemma TokenMoves(cfg: Config, s: Sys, tid: nat, t: TokenThread, v: string, w: string)
    requires Inv(cfg, s) && Lineage.Sound(s.db, s.used) && Enabled(s, Step(tid, v, w)) && s.threads[tid] == Token(t)
    ensures Inv(cfg, Apply(cfg, s, Step(tid, v, w)))
  {
    var r := TokenStep(cfg, s.db, s.now, t, v, w);
    var log' := s.log + r.events;
    assert ThreadOk(cfg, s.db, s.log, s.now, s.threads[tid]);
    TokenKeepsUsedCodes(cfg, s.db, s.now, t, v, w);
    TokenGoesOn(cfg, s.db, s.now, t, v, w);
    TokenLogs(cfg, s.db, s.now, t, v, w);
    if t.CodeCheck? { ExchangeIsJustified(cfg, s.db, s.log, s.now, t, v, w); }
    TokenDbOk(cfg, s.db, s.log, s.now, t, v, w);
    DbGrows(cfg, r.db, s.log, log', s.now, s.now);
    PendingsGrow(cfg, s.pending, s.log, log', s.now, s.now);
    RequestMoves(cfg, s, Apply(cfg, s, Step(tid, v, w)), tid, r.next, r.events);
  }

  lemma OtherKeeps(cfg: Config, s: Sys, l: Label)
    requires Inv(cfg, s) && Enabled(s, l) && !l.Step?
    ensures Inv(cfg, Apply(cfg, s, l))
  {
    var s' := Apply(cfg, s, l);
    assert s.log + [] == s.log;
    DbGrows(cfg, s.db, s.log, s'.log, s.now, s'.now);
    PendingsGrow(cfg, s.pending, s.log, s'.log, s.now, s'.now);
    match l
    case Tick(_) => ThreadsGrow(cfg, s, s', 0); ThreadsGrow(cfg, s, s', 1);
    case Spawn(tid, th) => RequestMoves(cfg, s, s', tid, th, []);
    case Abort(tid) => RequestMoves(cfg, s, s', tid, Done, []);
    case Login(userID, tokenHash, sid) => LoginKeeps(cfg, s, userID, tokenHash, sid);
    case DropSession(h) => DeleteSessionOk(cfg, s.db, s.log, s.now, h); ThreadsGrow(cfg, s, s', 0); ThreadsGrow(cfg, s, s', 1);
    case SetClient(_) => SameDbOk(cfg, s.db, s'.db, s.log, s.now); ThreadsGrow(cfg, s, s', 0); ThreadsGrow(cfg, s, s', 1);
    case SetUser(_) => ThreadsGrow(cfg, s, s', 0); ThreadsGrow(cfg, s, s', 1);
  }

  lemma LoginKeeps(cfg: Config, s: Sys, userID: string, tokenHash: string, sid: string)
    requires Inv(cfg, s) && Enabled(s, Login(userID, tokenHash, sid))
    ensures Inv(cfg, Apply(cfg, s, Login(userID, tokenHash, sid)))
  {
    var s', e := Apply(cfg, s, Login(userID, tokenHash, sid)), SessionStarted(tokenHash, userID, sid);
    DbGrows(cfg, s.db, s.log, s'.log, s.now, s.now);
    PendingsGrow(cfg, s.pending, s.log, s'.log, s.now, s.now);
    ThreadsGrow(cfg, s, s', 0);
    ThreadsGrow(cfg, s, s', 1);
    ExchangesGrow(cfg, s.log, [e]);
    PutSessionOk(cfg, s.db, s'.log, s.now, Session(tokenHash, userID, sid, "", s.now + cfg.sessionTTL));
    LoginStartsOnce(s.log, s.used, userID, tokenHash, sid);
  }

  lemma PutSessionOk(cfg: Config, db: Db, log: seq<Event>, now: Time, row: Session)
    requires DbOk(cfg, db, log, now) && SessionStarted(row.tokenHash, row.userID, row.sid) in log
    ensures DbOk(cfg, db.PutSession(row), log, now)
  {
  }

  lemma LoginStartsOnce(log: seq<Event>, used: set<string>, userID: string, tokenHash: string, sid: string)
    requires StartedOnce(log, used) && tokenHash !in used
    ensures StartedOnce(log + [SessionStarted(tokenHash, userID, sid)], used + {tokenHash, sid})
  {
  }

  // ----- The theorem -----

  lemma ReachableInv(cfg: Config, s: Sys)
    requires Reachable(cfg, s)
    ensures Inv(cfg, s) && Lineage.Inv(s)
  {
    var s0, n :| Init(s0) && Leads(cfg, s0, s, n);
    Rotation.InitHolds(s0);
    var P := x => Inv(cfg, x) && Lineage.Inv(x);
    forall a, b | P(a) && Next(cfg, a, b) ensures P(b) {
      Rotation.NextKeeps(cfg, a, b);
      var l :| Enabled(a, l) && b == Apply(cfg, a, l);
      StepKeeps(cfg, a, l);
    }
    RunInduction(cfg, s0, s, n, P);
  }

  lemma ExchangesHold(cfg: Config, s: Sys)
    requires Reachable(cfg, s)
    ensures Exchanges(cfg, s.log)
  {
    ReachableInv(cfg, s);
  }

  lemma JustifiedGives(cfg: Config, before: seq<Event>, e: Event, code: AuthCode, p: PendingAuth, decidedAt: Time)
    returns (registered: seq<string>, consent: Consent)
    requires e.Exchanged? && Justified(cfg, before, e, code, p, decidedAt)
    ensures AuthorizeSeen(e.clientID, e.redirectURI, p.challenge, p.scopes, registered) in before && e.redirectURI in registered
    ensures cfg.s256(e.verifier) == p.challenge && p.challenge != "" && 43 <= |e.verifier| <= 128
    ensures RequestBuilt(p, BuiltAt(cfg, p)) in before && p.clientID == e.clientID && p.redirectURI == e.redirectURI
    ensures ConsentPut(consent) in before && consent.userID == code.terms.userID && consent.clientID == e.clientID
            && Elements(p.scopes) <= Elements(consent.scopes)
    ensures code.hash == e.codeHash && code.terms.scopes == p.scopes && e.at < code.expiresAt
            && CodeIssued(code.(used := false), p, decidedAt, code.expiresAt - cfg.codeTTL) in before
    ensures var issuedAt := code.expiresAt - cfg.codeTTL;
            BuiltAt(cfg, p) <= decidedAt <= issuedAt <= e.at < BuiltAt(cfg, p) + 11 * cfg.codeTTL + (issuedAt - decidedAt)
  {
    registered :| AuthorizeSeen(p.clientID, p.redirectURI, p.challenge, p.scopes, registered) in before && p.redirectURI in registered;
    consent :| ConsentPut(consent) in before && consent.userID == code.terms.userID && consent.clientID == p.clientID
               && Covers(consent.scopes, p.scopes);
    forall x | x in Elements(p.scopes) ensures x in Elements(consent.scopes) { assert x in p.scopes; }
  }

  lemma ExchangeAt(cfg: Config, s: Sys, k: nat) returns (code: AuthCode, p: PendingAuth, decidedAt: Time)
    requires Reachable(cfg, s) && k < |s.log| && s.log[k].Exchanged?
    ensures Justified(cfg, s.log[..k], s.log[k], code, p, decidedAt)
  {
    ExchangesHold(cfg, s);
    assert ExchangeOk(cfg, s.log[..k], s.log[k]);
    code, p, decidedAt :| Justified(cfg, s.log[..k], s.log[k], code, p, decidedAt);
  }

  /** Every accepted exchange, in any interleaving, follows
      - an authorize request of the same client whose redirect URI was registered at that instant, is the one
        presented, and whose challenge is the S256 image of the verifier, which has 43 to 128 characters;
      - a consent by the code's user for that client that covers the granted scopes;
      and comes before the code expires, and so less than 11 code lifetimes after the authorize request was built, not
      counting the time the issuing request itself took between its decision and its issue of the code. */
  lemma GrantSoundness(cfg: Config, s: Sys, k: nat)
    returns (p: PendingAuth, registered: seq<string>, consent: Consent, code: AuthCode, decidedAt: Time)
    requires Reachable(cfg, s) && k < |s.log| && s.log[k].Exchanged?
    ensures var e, before := s.log[k], s.log[..k];
            && AuthorizeSeen(e.clientID, e.redirectURI, p.challenge, p.scopes, registered) in before
            && e.redirectURI in registered
            && cfg.s256(e.verifier) == p.challenge && p.challenge != "" && 43 <= |e.verifier| <= 128
            && RequestBuilt(p, BuiltAt(cfg, p)) in before && p.clientID == e.clientID && p.redirectURI == e.redirectURI
            && ConsentPut(consent) in before && consent.userID == code.terms.userID && consent.clientID == e.clientID
            && Elements(code.terms.scopes) <= Elements(consent.scopes)
            && code.hash == e.codeHash && code.terms.scopes == p.scopes && e.at < code.expiresAt
            && CodeIssued(code.(used := false), p, decidedAt, code.expiresAt - cfg.codeTTL) in before
    ensures var e, issuedAt := s.log[k], code.expiresAt - cfg.codeTTL;
            BuiltAt(cfg, p) <= decidedAt <= issuedAt <= e.at < BuiltAt(cfg, p) + 11 * cfg.codeTTL + (issuedAt - decidedAt)
  {
    code, p, decidedAt := ExchangeAt(cfg, s, k);
    registered, consent := JustifiedGives(cfg, s.log[..k], s.log[k], code, p, decidedAt);
  }

  /** Every stored code was issued with canonical scopes holding openid, and a session that was started for its user. */
  lemma CodesAreSound(cfg: Config, s: Sys, h: string)
    requires Reachable(cfg, s) && h in s.db.codes
    ensures var terms := s.db.codes[h].terms;
            GoodScopes(terms.scopes) && (terms.sid != "" ==> StartedFor(s.log, terms.userID, terms.sid))
  {
    ReachableInv(cfg, s);
    assert CodeOk(cfg, s.log, s.now, s.db.codes[h]);
  }
}

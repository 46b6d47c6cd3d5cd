/** The grant flows as a state machine of interleaved requests: GET /authorize, POST /consent and POST /token
    (internal/web/authorize.go, token.go). A thread is a request between two of its store operations.
    A step is one store operation, or one clock read whose value the request then tests; a clock read whose value
    is only stored belongs to the step that stores it. The log records what happened; no step reads it. */
module Grants {
  import opened Wrappers
  import opened Domain
  import opened Ledger
  import opened Runs
  import Scopes

  /** Durations, and the library functions the flows call. */
  datatype Config = Config(codeTTL: int, accessTTL: int, refreshTTL: int, sessionTTL: int,
                           s256: string -> string, parsesURI: string -> bool,
                           secretMatches: (string, string) -> bool)

  datatype AuthQuery = AuthQuery(clientID: string, redirectURI: string, responseType: string,
                                 challengeMethod: string, challenge: string, scope: string, nonce: string,
                                 browser: Option<string>)

  datatype PendingAuth = PendingAuth(clientID: string, redirectURI: string, nonce: string,
                                     scopes: seq<string>, challenge: string, expiresAt: Time)

  datatype CodeRequest = CodeRequest(clientID: string, secret: string, code: Option<string>,
                                     redirectURI: string, verifier: string)

  datatype RefreshRequest = RefreshRequest(clientID: string, secret: string, token: string)

  /** The arguments of writeTokenResponse; family "" asks for a new one. */
  datatype Grant = Grant(terms: Terms, withRefresh: bool, family: string, src: Src)

  /** What a session lookup is for. */
  datatype Cont =
    | ForAuthorize(q: AuthQuery, scopes: seq<string>)
    | ForConsent(reqID: string, allow: bool)
    | ForIssue(userID: string, p: PendingAuth, decidedAt: Time)

  /** GET /authorize and POST /consent. */
  datatype BrowserThread =
    | Authorize(q: AuthQuery)
    | Consenting(browser: Option<string>, reqID: string, allow: bool)
    | Lookup(browser: Option<string>, k: Cont)
    | Live(cookie: string, session: Session, k: Cont)
    | Forget(tokenHash: string, k: Cont)
    | Account(cookie: string, userID: string, k: Cont)
    | Build(cookie: string, userID: string, q: AuthQuery, scopes: seq<string>)
    | CheckConsent(cookie: string, userID: string, p: PendingAuth, builtAt: Time)
    | Park(userID: string, p: PendingAuth)
    | TakePending(cookie: string, userID: string, reqID: string, allow: bool)
    | Decide(cookie: string, userID: string, p: PendingAuth, allow: bool)
    | SaveConsent(cookie: string, userID: string, p: PendingAuth, decidedAt: Time)
    | SaveCode(userID: string, sid: string, p: PendingAuth, decidedAt: Time)
    | IndexClient(sid: string, clientID: string)

  /** POST /token. */
  datatype TokenThread =
    | CodeClient(creq: CodeRequest)
    | CodeTake(hash: string, creq: CodeRequest, clientID: string)
    | CodeCheck(creq: CodeRequest, clientID: string, code: AuthCode)
    | RefreshClient(rreq: RefreshRequest)
    | RefreshTake(rreq: RefreshRequest, clientID: string)
    | RefreshReuse(rreq: RefreshRequest)
    | RefreshCheck(clientID: string, token: RefreshToken)
    | Revoke(familyID: string)
    | GrantUser(g: Grant)
    | GrantAccess(g: Grant)
    | GrantRefresh(g: Grant, accessHash: string)
    | Respond(g: Grant, accessHash: string, refreshed: Option<RefreshToken>)

  datatype Thread = Browser(b: BrowserThread) | Token(t: TokenThread) | Done

  datatype Event =
    | SessionStarted(tokenHash: string, userID: string, sid: string)
    | AuthorizeSeen(clientID: string, redirectURI: string, challenge: string, scopes: seq<string>, registered: seq<string>)
    | RequestBuilt(p: PendingAuth, at: Time)
    | UserSeen(userID: string, user: User)
    | Parked(reqID: string, p: PendingAuth, userID: string)
    | ConsentPut(consent: Consent)
    | CodeIssued(code: AuthCode, p: PendingAuth, decidedAt: Time, at: Time)
    | ClientSeen(client: Client, secret: string)
    | Exchanged(codeHash: string, clientID: string, redirectURI: string, verifier: string, at: Time)
    | AccessPut(access: AccessToken, src: Src)
    | RefreshPut(token: RefreshToken, src: Src)
    | FamilyRevoked(familyID: string)
    | Responded(src: Src, accessHash: string, refreshed: Option<RefreshToken>)

  /** used holds every value random.Token and id.New have returned (tokens by their hash). */
  datatype Sys = Sys(db: Db, pending: map<string, PendingAuth>, threads: map<nat, Thread>,
                     log: seq<Event>, now: Time, used: set<string>)

  datatype StepResult = StepResult(db: Db, pending: map<string, PendingAuth>, next: Thread, events: seq<Event>)

  /** authenticateClient, token.go:180-202 */
  function Authenticated(cfg: Config, db: Db, id: string, secret: string): Option<Client> {
    if id !in db.clients then None
    else
      var c := db.clients[id];
      if c.clientType == Confidential then (if cfg.secretMatches(secret, c.secretHash) then Some(c) else None)
      else if secret != "" then None else Some(c)
  }

  /** oauth.VerifyS256 */
  predicate VerifyS256(cfg: Config, verifier: string, challenge: string) {
    verifier != "" && challenge != "" && 43 <= |verifier| <= 128 && cfg.s256(verifier) == challenge
  }

  /** The tests of handleAuthorize before the session is read. */
  predicate QueryAccepted(cfg: Config, q: AuthQuery, client: Client) {
    && q.responseType == "code" && q.challengeMethod == "S256" && q.challenge != ""
    && cfg.parsesURI(q.redirectURI) && q.redirectURI != "" && q.redirectURI in client.redirectURIs
    && Scopes.Normalize(q.scope, true).Granted?
  }

  /** The tests of tokenAuthCode on the row it took. */
  predicate CodeAccepted(cfg: Config, creq: CodeRequest, clientID: string, code: AuthCode, now: Time) {
    && code.expiresAt > now && code.terms.clientID == clientID
    && code.redirectURI == creq.redirectURI && VerifyS256(cfg, creq.verifier, code.challenge)
  }

  function NewCode(cfg: Config, hash: string, userID: string, sid: string, p: PendingAuth, now: Time): AuthCode {
    AuthCode(hash, Terms(p.clientID, userID, p.scopes, sid), p.redirectURI, p.nonce, p.challenge, now + cfg.codeTTL, false)
  }

  function NewPending(cfg: Config, clientID: string, q: AuthQuery, scopes: seq<string>, now: Time): PendingAuth {
    PendingAuth(clientID, q.redirectURI, q.nonce, scopes, q.challenge, now + cfg.codeTTL * 10)
  }

  /** Where a request goes when the browser has no usable session. */
  function NoSession(k: Cont): Thread {
    match k
    case ForIssue(userID, p, d) => Browser(SaveCode(userID, "", p, d))
    case _ => Done
  }

  /** Where a request goes with a live session. */
  function WithSession(cookie: string, sess: Session, k: Cont): BrowserThread {
    match k
    case ForIssue(userID, p, d) => SaveCode(userID, sess.sid, p, d)
    case _ => Account(cookie, sess.userID, k)
  }

  /** Where a request goes with an enabled user. */
  function WithUser(cookie: string, userID: string, k: Cont): Thread {
    match k
    case ForAuthorize(q, scopes) => Browser(Build(cookie, userID, q, scopes))
    case ForConsent(reqID, allow) => Browser(TakePending(cookie, userID, reqID, allow))
    case ForIssue(_, _, _) => Done
  }

  /** One step of a browser request; v is the value random.Token returns, if the step draws one. */
  function BrowserStep(cfg: Config, db: Db, pending: map<string, PendingAuth>, now: Time, b: BrowserThread, v: string): StepResult {
    match b
    case Authorize(q) =>
      if q.clientID !in db.clients || !QueryAccepted(cfg, q, db.clients[q.clientID]) then StepResult(db, pending, Done, [])
      else
        var scopes := Scopes.Normalize(q.scope, true).scopes;
        StepResult(db, pending, Browser(Lookup(q.browser, ForAuthorize(q, scopes))),
          [AuthorizeSeen(q.clientID, q.redirectURI, q.challenge, scopes, db.clients[q.clientID].redirectURIs)])
    case Consenting(browser, reqID, allow) => StepResult(db, pending, Browser(Lookup(browser, ForConsent(reqID, allow))), [])
    case Lookup(browser, k) =>
      if browser.Some? && browser.value in db.sessions then
        StepResult(db, pending, Browser(Live(browser.value, db.sessions[browser.value], k)), [])
      else StepResult(db, pending, NoSession(k), [])
    case Live(cookie, sess, k) =>
      StepResult(db, pending,
        Browser(if sess.expiresAt <= now then Forget(sess.tokenHash, k) else WithSession(cookie, sess, k)), [])
    case Forget(hash, k) => StepResult(db.DeleteSession(hash), pending, NoSession(k), [])
    case Account(cookie, userID, k) =>
      if userID !in db.users || db.users[userID].disabled then StepResult(db, pending, Done, [])
      else StepResult(db, pending, WithUser(cookie, userID, k), [UserSeen(userID, db.users[userID])])
    case Build(cookie, userID, q, scopes) =>
      var p := NewPending(cfg, q.clientID, q, scopes, now);
      StepResult(db, pending, Browser(CheckConsent(cookie, userID, p, now)), [RequestBuilt(p, now)])
    case CheckConsent(cookie, userID, p, builtAt) =>
      var c := db.GetConsent(userID, p.clientID);
      if c.Some? && Covers(c.value.scopes, p.scopes) then
        StepResult(db, pending, Browser(Lookup(Some(cookie), ForIssue(userID, p, builtAt))), [])
      else StepResult(db, pending, Browser(Park(userID, p)), [])
    case Park(userID, p) => StepResult(db, pending[v := p], Done, [Parked(v, p, userID)])
    case TakePending(cookie, userID, reqID, allow) =>
      if reqID !in pending then StepResult(db, pending, Done, [])
      else StepResult(db, pending - {reqID}, Browser(Decide(cookie, userID, pending[reqID], allow)), [])
    case Decide(cookie, userID, p, allow) =>
      StepResult(db, pending,
        if p.expiresAt <= now || !allow then Done else Browser(SaveConsent(cookie, userID, p, now)), [])
    case SaveConsent(cookie, userID, p, d) =>
      var c := Consent(userID, p.clientID, p.scopes);
      StepResult(db.PutConsent(c), pending, Browser(Lookup(Some(cookie), ForIssue(userID, p, d))), [ConsentPut(c)])
    case SaveCode(userID, sid, p, d) =>
      var c := NewCode(cfg, v, userID, sid, p, now);
      StepResult(db.PutCode(c), pending, Browser(IndexClient(sid, p.clientID)), [CodeIssued(c, p, d, now)])
    case IndexClient(sid, clientID) => StepResult(db.AddSessionClient(sid, clientID), pending, Done, [])
  }

  datatype TokenResult = TokenResult(db: Db, next: Thread, events: seq<Event>)

  /** One step of a token request; v and w are the values random.Token and id.New return, if the step draws any. */
  function TokenStep(cfg: Config, db: Db, now: Time, t: TokenThread, v: string, w: string): TokenResult {
    match t
    case CodeClient(creq) =>
      var c := Authenticated(cfg, db, creq.clientID, creq.secret);
      if c.None? || creq.code.None? then TokenResult(db, Done, [])
      else TokenResult(db, Token(CodeTake(creq.code.value, creq, c.value.id)), [ClientSeen(c.value, creq.secret)])
    case CodeTake(hash, creq, clientID) =>
      var (db', r) := db.TakeCode(hash);
      TokenResult(db', if r.Ok? then Token(CodeCheck(creq, clientID, r.value)) else Done, [])
    case CodeCheck(creq, clientID, code) =>
      if !CodeAccepted(cfg, creq, clientID, code, now) then TokenResult(db, Done, [])
      else
        var terms := Terms(clientID, code.terms.userID, code.terms.scopes, code.terms.sid);
        TokenResult(db, Token(GrantUser(Grant(terms, "offline_access" in terms.scopes, "", FromCode(code.hash)))),
          [Exchanged(code.hash, clientID, creq.redirectURI, creq.verifier, now)])
    case RefreshClient(rreq) =>
      var c := Authenticated(cfg, db, rreq.clientID, rreq.secret);
      if c.None? then TokenResult(db, Done, [])
      else TokenResult(db, Token(RefreshTake(rreq, c.value.id)), [ClientSeen(c.value, rreq.secret)])
    case RefreshTake(rreq, clientID) =>
      var (db', r) := db.TakeRefresh(rreq.token);
      TokenResult(db', Token(if r.Ok? then RefreshCheck(clientID, r.value) else RefreshReuse(rreq)), [])
    case RefreshReuse(rreq) =>
      TokenResult(db, if rreq.token in db.refresh then Token(Revoke(db.refresh[rreq.token].familyID)) else Done, [])
    case RefreshCheck(clientID, token) =>
      if token.expiresAt <= now || token.terms.clientID != clientID then TokenResult(db, Token(Revoke(token.familyID)), [])
      else
        var terms := Terms(clientID, token.terms.userID, token.terms.scopes, token.terms.sid);
        TokenResult(db, Token(GrantUser(Grant(terms, true, token.familyID, FromRefresh(token.hash)))), [])
    case Revoke(familyID) => TokenResult(db.RevokeFamily(familyID), Done, [FamilyRevoked(familyID)])
    case GrantUser(g) => TokenResult(db, if g.terms.userID in db.users then Token(GrantAccess(g)) else Done, [])
    case GrantAccess(g) =>
      var t := AccessToken(v, g.terms, now + cfg.accessTTL);
      TokenResult(db.PutAccess(t), Token(if g.withRefresh then GrantRefresh(g, v) else Respond(g, v, None)), [AccessPut(t, g.src)])
    case GrantRefresh(g, accessHash) =>
      var t := NewRefresh(cfg, v, w, g, now);
      TokenResult(db.PutRefresh(t), Token(Respond(g, accessHash, Some(t))), [RefreshPut(t, g.src)])
    case Respond(g, accessHash, refreshed) => TokenResult(db, Done, [Responded(g.src, accessHash, refreshed)])
  }

  function NewRefresh(cfg: Config, v: string, w: string, g: Grant, now: Time): RefreshToken {
    RefreshToken(v, if g.family == "" then w else g.family, g.terms, now + cfg.refreshTTL, false)
  }

  function Body(cfg: Config, db: Db, pending: map<string, PendingAuth>, now: Time, th: Thread, v: string, w: string): StepResult {
    match th
    case Browser(b) => BrowserStep(cfg, db, pending, now, b, v)
    case Token(t) => var r := TokenStep(cfg, db, now, t, v, w); StepResult(r.db, pending, r.next, r.events)
    case Done => StepResult(db, pending, Done, [])
  }

  /** The values a step draws from the random source. */
  function Drawn(th: Thread, v: string, w: string): set<string> {
    match th
    case Browser(b) => if b.Park? || b.SaveCode? then {v} else {}
    case Token(t) =>
      if t.GrantAccess? then {v} else if !t.GrantRefresh? then {} else if t.g.family == "" then {v, w} else {v}
    case Done => {}
  }

  datatype Label =
    | Tick(to: Time)
    | Spawn(tid: nat, th: Thread)
    | Step(tid: nat, v: string, w: string)
    | Abort(tid: nat)                                              // an internal error ends the request
    | Login(userID: string, tokenHash: string, sid: string)         // session.Service.Start
    | DropSession(tokenHash: string)                                // logout, or an expired session found elsewhere
    | SetClient(client: Client)                                     // client administration and seeding
    | SetUser(user: User)                                           // registration and account administration

  predicate IsStart(th: Thread) {
    match th
    case Browser(b) => b.Authorize? || b.Consenting?
    case Token(t) => t.CodeClient? || t.RefreshClient?
    case Done => false
  }

  /** The request has stored its code: nothing but the fan-out index is left, and an error of that is ignored. */
  predicate IsIndexing(th: Thread) { th.Browser? && th.b.IndexClient? }

  ghost predicate Enabled(s: Sys, l: Label) {
    match l
    case Tick(to) => s.now <= to
    case Spawn(tid, th) => tid !in s.threads && IsStart(th)
    case Step(tid, v, w) => tid in s.threads && v != w && "" !in {v, w} && Drawn(s.threads[tid], v, w) !! s.used
    case Abort(tid) => tid in s.threads && !IsIndexing(s.threads[tid])
    case Login(_, tokenHash, sid) => tokenHash != sid && "" !in {tokenHash, sid} && {tokenHash, sid} !! s.used
    case DropSession(_) => true
    case SetClient(client) => client.id != ""
    case SetUser(user) => '|' !in user.id
  }

  ghost function Apply(cfg: Config, s: Sys, l: Label): Sys
    requires Enabled(s, l)
  {
    match l
    case Tick(to) => s.(now := to)
    case Spawn(tid, th) => s.(threads := s.threads[tid := th])
    case Step(tid, v, w) =>
      var r := Body(cfg, s.db, s.pending, s.now, s.threads[tid], v, w);
      s.(db := r.db, pending := r.pending, threads := s.threads[tid := r.next], log := s.log + r.events,
         used := s.used + Drawn(s.threads[tid], v, w))
    case Abort(tid) => s.(threads := s.threads[tid := Done])
    case Login(userID, tokenHash, sid) =>
      s.(db := s.db.PutSession(Session(tokenHash, userID, sid, "", s.now + cfg.sessionTTL)),
         log := s.log + [SessionStarted(tokenHash, userID, sid)], used := s.used + {tokenHash, sid})
    case DropSession(tokenHash) => s.(db := s.db.DeleteSession(tokenHash))
    case SetClient(client) => s.(db := s.db.(clients := s.db.clients[client.id := client]))
    case SetUser(user) => s.(db := s.db.(users := s.db.users[user.id := user]))
  }

  ghost predicate Init(s: Sys) {
    && s.db == Db(map[], map[], map[], map[], map[], map[], map[], map[], map[], map[])
    && s.pending == map[] && s.threads == map[] && s.log == [] && s.used == {}
  }

  ghost predicate Next(cfg: Config, s: Sys, s': Sys) { exists l :: Enabled(s, l) && s' == Apply(cfg, s, l) }

  ghost function NextOf(cfg: Config): (Sys, Sys) -> bool { (s: Sys, s': Sys) => Next(cfg, s, s') }

  /** n steps lead from s to s'. */
  ghost predicate Leads(cfg: Config, s: Sys, s': Sys, n: nat) { Steps(NextOf(cfg), s, s', n) }

  ghost predicate Reachable(cfg: Config, s: Sys) { exists s0, n :: Init(s0) && Leads(cfg, s0, s, n) }

  lemma ThenLeads(cfg: Config, s: Sys, m: Sys, s': Sys, n: nat)
    requires Next(cfg, s, m) && Leads(cfg, m, s', n)
    ensures Leads(cfg, s, s', n + 1)
  {
    StepsFrom(NextOf(cfg), s, m, s', n);
  }

  lemma LeadsThen(cfg: Config, s: Sys, m: Sys, s': Sys, n: nat)
    requires Leads(cfg, s, m, n) && Next(cfg, m, s')
    ensures Leads(cfg, s, s', n + 1)
  {
    StepsThen(NextOf(cfg), s, m, s', n);
  }

  lemma LeadsJoin(cfg: Config, s: Sys, m: Sys, s': Sys, i: nat, j: nat)
    requires Leads(cfg, s, m, i) && Leads(cfg, m, s', j)
    ensures Leads(cfg, s, s', i + j)
  {
    StepsJoin(NextOf(cfg), s, m, s', i, j);
  }

  /** Induction over runs. */
  lemma RunInduction(cfg: Config, s: Sys, s': Sys, n: nat, P: Sys -> bool)
    requires forall a, b | P(a) && Next(cfg, a, b) :: P(b)
    requires P(s) && Leads(cfg, s, s', n)
    ensures P(s')
  {
    StepsInduction(NextOf(cfg), s, s', n, P);
  }
}

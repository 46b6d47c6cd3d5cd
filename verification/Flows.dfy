/** The grant flows walked through: from a signed-in browser to a code, and from a code to its tokens. Each lemma gives a
    run in which one request gets that far, whatever else is in flight. */
module Flows {
  import opened Wrappers
  import opened Sorting
  import opened Domain
  import opened Ledger
  import opened Grants
  import opened Runs
  import opened Scene
  import Scopes

  /** The browser holds the cookie of a live session of an enabled account. */
  ghost predicate SignedIn(s: Sys, cookie: string, userID: string) {
    && cookie in s.db.sessions && s.db.sessions[cookie].userID == userID && s.db.sessions[cookie].expiresAt > s.now
    && userID in s.db.users && !s.db.users[userID].disabled
  }

  // ----- A browser request -----

  lemma FindsUser(cfg: Config, s: Sys, tid: nat, cookie: string, userID: string, k: Cont) returns (s': Sys)
    requires tid in s.threads && s.threads[tid] == Browser(Lookup(Some(cookie), k)) && !k.ForIssue? && SignedIn(s, cookie, userID)
    ensures Reaches(cfg, s, s') && Quietly(s, s', tid, WithUser(cookie, userID, k))
  {
    var m1 := Looks(cfg, s, tid, Browser(Live(cookie, s.db.sessions[cookie], k)));
    var m2 := Looks(cfg, m1, tid, Browser(Account(cookie, userID, k)));
    s' := Notes(cfg, m2, tid, WithUser(cookie, userID, k), UserSeen(userID, s.db.users[userID]));
    Then(cfg, s, m1, m2);
    Then(cfg, s, m2, s');
    OnlyTwice(s, m1, m2, tid, m1.threads[tid], m2.threads[tid]);
    QuietlyTwice(s, m2, s', tid, m2.threads[tid], s'.threads[tid]);
  }

  lemma FindsSession(cfg: Config, s: Sys, tid: nat, cookie: string, userID: string, p: PendingAuth, d: Time) returns (s': Sys)
    requires tid in s.threads && s.threads[tid] == Browser(Lookup(Some(cookie), ForIssue(userID, p, d))) && SignedIn(s, cookie, userID)
    ensures Reaches(cfg, s, s') && Only(s, s', tid, Browser(SaveCode(userID, s.db.sessions[cookie].sid, p, d)))
  {
    var m := Looks(cfg, s, tid, Browser(Live(cookie, s.db.sessions[cookie], ForIssue(userID, p, d))));
    s' := Looks(cfg, m, tid, Browser(SaveCode(userID, s.db.sessions[cookie].sid, p, d)));
    Then(cfg, s, m, s');
    OnlyTwice(s, m, s', tid, m.threads[tid], s'.threads[tid]);
  }

  /** An accepted query and its granted scopes. */
  ghost predicate Accepted(cfg: Config, s: Sys, q: AuthQuery, scopes: seq<string>) {
    && q.clientID in s.db.clients && QueryAccepted(cfg, q, s.db.clients[q.clientID])
    && Scopes.Normalize(q.scope, true) == Scopes.Granted(scopes)
  }

  lemma IsSeen(cfg: Config, s: Sys, tid: nat, q: AuthQuery, scopes: seq<string>) returns (s': Sys)
    requires tid in s.threads && s.threads[tid] == Browser(Authorize(q)) && Accepted(cfg, s, q, scopes)
    ensures Reaches(cfg, s, s') && Quietly(s, s', tid, Browser(Lookup(q.browser, ForAuthorize(q, scopes))))
  {
    var v, w;
    s', v, w := Moves(cfg, s, tid);
  }

  lemma IsBuilt(cfg: Config, s: Sys, tid: nat, cookie: string, userID: string, q: AuthQuery, scopes: seq<string>) returns (s': Sys)
    requires tid in s.threads && s.threads[tid] == Browser(Build(cookie, userID, q, scopes))
    ensures var p := NewPending(cfg, q.clientID, q, scopes, s.now);
            Reaches(cfg, s, s') && Quietly(s, s', tid, Browser(CheckConsent(cookie, userID, p, s.now)))
  {
    var v, w;
    s', v, w := Moves(cfg, s, tid);
  }

  /** GET /authorize, up to the session lookup. */
  lemma StartsToAsk(cfg: Config, s: Sys, q: AuthQuery, scopes: seq<string>) returns (s': Sys, tid: nat)
    requires Accepted(cfg, s, q, scopes)
    ensures tid !in s.threads && Reaches(cfg, s, s')
    ensures Quietly(s, s', tid, Browser(Lookup(q.browser, ForAuthorize(q, scopes))))
  {
    var m;
    m, tid := Starts(cfg, s, Browser(Authorize(q)));
    s' := IsSeen(cfg, m, tid, q, scopes);
    Then(cfg, s, m, s');
    QuietlyTwice(s, m, s', tid, m.threads[tid], s'.threads[tid]);
  }

  lemma Finds(cfg: Config, s: Sys, tid: nat, cookie: string, userID: string, q: AuthQuery, scopes: seq<string>) returns (s': Sys)
    requires tid in s.threads && s.threads[tid] == Browser(Lookup(Some(cookie), ForAuthorize(q, scopes))) && SignedIn(s, cookie, userID)
    ensures var p := NewPending(cfg, q.clientID, q, scopes, s.now);
            Reaches(cfg, s, s') && Quietly(s, s', tid, Browser(CheckConsent(cookie, userID, p, s.now)))
  {
    var m := FindsUser(cfg, s, tid, cookie, userID, ForAuthorize(q, scopes));
    s' := IsBuilt(cfg, m, tid, cookie, userID, q, scopes);
    Then(cfg, s, m, s');
    QuietlyTwice(s, m, s', tid, m.threads[tid], s'.threads[tid]);
  }

  /** GET /authorize, up to the consent lookup. */
  lemma Asks(cfg: Config, s: Sys, cookie: string, userID: string, q: AuthQuery, scopes: seq<string>) returns (s': Sys, tid: nat)
    requires SignedIn(s, cookie, userID) && q.browser == Some(cookie) && Accepted(cfg, s, q, scopes)
    ensures tid !in s.threads && Reaches(cfg, s, s')
    ensures Quietly(s, s', tid, Browser(CheckConsent(cookie, userID, NewPending(cfg, q.clientID, q, scopes, s.now), s.now)))
  {
    var m;
    m, tid := StartsToAsk(cfg, s, q, scopes);
    s' := Finds(cfg, m, tid, cookie, userID, q, scopes);
    Then(cfg, s, m, s');
    QuietlyTwice(s, m, s', tid, m.threads[tid], s'.threads[tid]);
  }

  /** The stored consent does not cover the request: it is parked. */
  lemma IsParked(cfg: Config, s: Sys, tid: nat, cookie: string, userID: string, p: PendingAuth, builtAt: Time) returns (s': Sys, reqID: string)
    requires tid in s.threads && s.threads[tid] == Browser(CheckConsent(cookie, userID, p, builtAt))
    requires var c := s.db.GetConsent(userID, p.clientID); c.None? || !Covers(c.value.scopes, p.scopes)
    ensures Reaches(cfg, s, s') && s'.db == s.db && s'.pending == s.pending[reqID := p] && s'.threads == s.threads[tid := Done]
    ensures s.log <= s'.log && s'.now == s.now && s.used <= s'.used
  {
    var w;
    var m := Looks(cfg, s, tid, Browser(Park(userID, p)));
    s', reqID, w := Moves(cfg, m, tid);
    Then(cfg, s, m, s');
    assert s'.threads == s.threads[tid := Done];
  }

  lemma TakesPending(cfg: Config, s: Sys, tid: nat, cookie: string, userID: string, reqID: string) returns (s': Sys)
    requires tid in s.threads && s.threads[tid] == Browser(TakePending(cookie, userID, reqID, true)) && reqID in s.pending
    requires s.pending[reqID].expiresAt > s.now
    ensures Reaches(cfg, s, s') && s'.db == s.db && s'.pending == s.pending - {reqID} && s'.log == s.log && s'.now == s.now && s.used <= s'.used
    ensures s'.threads == s.threads[tid := Browser(SaveConsent(cookie, userID, s.pending[reqID], s.now))]
  {
    var v, w;
    var m;
    m, v, w := Moves(cfg, s, tid);
    assert s.log + [] == s.log;
    s' := Looks(cfg, m, tid, Browser(SaveConsent(cookie, userID, s.pending[reqID], s.now)));
    Then(cfg, s, m, s');
    assert s'.threads == s.threads[tid := s'.threads[tid]];
  }

  lemma SavesConsent(cfg: Config, s: Sys, tid: nat, cookie: string, userID: string, p: PendingAuth, d: Time) returns (s': Sys)
    requires tid in s.threads && s.threads[tid] == Browser(SaveConsent(cookie, userID, p, d))
    ensures Reaches(cfg, s, s') && s'.db == s.db.PutConsent(Consent(userID, p.clientID, p.scopes)) && s'.pending == s.pending
    ensures s.log <= s'.log && s'.now == s.now && s.used <= s'.used
    ensures s'.threads == s.threads[tid := Browser(Lookup(Some(cookie), ForIssue(userID, p, d)))]
  {
    var v, w;
    s', v, w := Moves(cfg, s, tid);
  }

  /** POST /consent with the decision "allow", up to the pending request. */
  lemma StartsToAllow(cfg: Config, s: Sys, cookie: string, userID: string, reqID: string) returns (s': Sys, tid: nat)
    requires SignedIn(s, cookie, userID)
    ensures tid !in s.threads && Reaches(cfg, s, s') && Quietly(s, s', tid, Browser(TakePending(cookie, userID, reqID, true)))
  {
    var m1, m2;
    m1, tid := Starts(cfg, s, Browser(Consenting(Some(cookie), reqID, true)));
    m2 := Looks(cfg, m1, tid, Browser(Lookup(Some(cookie), ForConsent(reqID, true))));
    s' := FindsUser(cfg, m2, tid, cookie, userID, ForConsent(reqID, true));
    Then(cfg, s, m1, m2);
    Then(cfg, s, m2, s');
    QuietlyTwice(s, m1, m2, tid, m1.threads[tid], m2.threads[tid]);
    QuietlyTwice(s, m2, s', tid, m2.threads[tid], s'.threads[tid]);
  }

  lemma SavesAndFinds(cfg: Config, s: Sys, tid: nat, cookie: string, userID: string, p: PendingAuth, d: Time) returns (s': Sys)
    requires tid in s.threads && s.threads[tid] == Browser(SaveConsent(cookie, userID, p, d)) && SignedIn(s, cookie, userID)
    ensures Reaches(cfg, s, s') && s'.db == s.db.PutConsent(Consent(userID, p.clientID, p.scopes)) && s'.pending == s.pending
    ensures s.log <= s'.log && s'.now == s.now && s.used <= s'.used
    ensures s'.threads == s.threads[tid := Browser(SaveCode(userID, s.db.sessions[cookie].sid, p, d))]
  {
    var m := SavesConsent(cfg, s, tid, cookie, userID, p, d);
    s' := FindsSession(cfg, m, tid, cookie, userID, p, d);
    Then(cfg, s, m, s');
    assert s'.threads == s.threads[tid := s'.threads[tid]];
  }

  /** The consent is stored, the pending request is gone, and request tid is about to issue the code. */
  ghost predicate Allowed(s: Sys, s': Sys, tid: nat, cookie: string, userID: string, reqID: string) {
    && cookie in s.db.sessions && reqID in s.pending
    && var p := s.pending[reqID];
    && s'.db == s.db.PutConsent(Consent(userID, p.clientID, p.scopes))
    && s'.pending == s.pending - {reqID} && s.log <= s'.log && s'.now == s.now && s.used <= s'.used
    && s'.threads == s.threads[tid := Browser(SaveCode(userID, s.db.sessions[cookie].sid, p, s.now))]
  }

  lemma AllowedFrom(s: Sys, m: Sys, s': Sys, tid: nat, th: Thread, cookie: string, userID: string, reqID: string)
    requires Quietly(s, m, tid, th) && Allowed(m, s', tid, cookie, userID, reqID)
    ensures Allowed(s, s', tid, cookie, userID, reqID)
  {
  }

  lemma TakesAndSaves(cfg: Config, s: Sys, tid: nat, cookie: string, userID: string, reqID: string) returns (s': Sys)
    requires tid in s.threads && s.threads[tid] == Browser(TakePending(cookie, userID, reqID, true)) && SignedIn(s, cookie, userID)
    requires reqID in s.pending && s.pending[reqID].expiresAt > s.now
    ensures Reaches(cfg, s, s') && Allowed(s, s', tid, cookie, userID, reqID)
  {
    var m := TakesPending(cfg, s, tid, cookie, userID, reqID);
    s' := SavesAndFinds(cfg, m, tid, cookie, userID, s.pending[reqID], s.now);
    Then(cfg, s, m, s');
    assert s'.threads == s.threads[tid := s'.threads[tid]];
  }

  /** POST /consent with the decision "allow", up to the code. */
  lemma Allows(cfg: Config, s: Sys, cookie: string, userID: string, reqID: string) returns (s': Sys, tid: nat)
    requires SignedIn(s, cookie, userID) && reqID in s.pending && s.pending[reqID].expiresAt > s.now
    ensures tid !in s.threads && Reaches(cfg, s, s') && Allowed(s, s', tid, cookie, userID, reqID)
  {
    var m;
    m, tid := StartsToAllow(cfg, s, cookie, userID, reqID);
    s' := TakesAndSaves(cfg, m, tid, cookie, userID, reqID);
    Then(cfg, s, m, s');
    AllowedFrom(s, m, s', tid, m.threads[tid], cookie, userID, reqID);
  }

  /** The code is stored; the request that stored it is left at the fan-out index. */
  lemma Issues(cfg: Config, s: Sys, tid: nat, userID: string, sid: string, p: PendingAuth, d: Time) returns (s': Sys, h: string)
    requires tid in s.threads && s.threads[tid] == Browser(SaveCode(userID, sid, p, d))
    ensures Reaches(cfg, s, s') && s'.pending == s.pending && s'.now == s.now && s.used <= s'.used && s.log <= s'.log
    ensures s'.db == s.db.PutCode(NewCode(cfg, h, userID, sid, p, s.now)) && h !in s.used
    ensures s'.threads == s.threads[tid := Browser(IndexClient(sid, p.clientID))]
  {
    var w;
    s', h, w := Moves(cfg, s, tid);
  }

  // ----- A code request -----

  lemma StartsToRedeem(cfg: Config, s: Sys, creq: CodeRequest, client: Client) returns (s': Sys, tid: nat)
    requires Authenticated(cfg, s.db, creq.clientID, creq.secret) == Some(client) && creq.code.Some?
    ensures tid !in s.threads && Reaches(cfg, s, s') && Quietly(s, s', tid, Token(CodeTake(creq.code.value, creq, client.id)))
  {
    var m;
    m, tid := Starts(cfg, s, Token(CodeClient(creq)));
    s' := Notes(cfg, m, tid, Token(CodeTake(creq.code.value, creq, client.id)), ClientSeen(client, creq.secret));
    Then(cfg, s, m, s');
  }

  /** The code is used, the exchange is logged, and request tid is about to answer with the grant of the code. */
  ghost predicate Redeemed(s: Sys, s': Sys, tid: nat, creq: CodeRequest, id: string, g: Grant) {
    && creq.code.Some? && creq.code.value in s.db.codes
    && var code := s.db.codes[creq.code.value];
    && s'.threads == s.threads[tid := Token(GrantUser(g))]
    && s'.db == s.db.(codes := s.db.codes[code.hash := code.(used := true)]) && s'.now == s.now && s.used <= s'.used
    && s.log <= s'.log && s'.log != []
    && s'.log[|s'.log| - 1] == Exchanged(code.hash, id, creq.redirectURI, creq.verifier, s.now)
    && g.terms == Terms(id, code.terms.userID, code.terms.scopes, code.terms.sid) && g.family == ""
    && g.withRefresh == ("offline_access" in code.terms.scopes)
  }

  lemma RedeemedFrom(s: Sys, m: Sys, s': Sys, tid: nat, th: Thread, creq: CodeRequest, id: string, g: Grant)
    requires Quietly(s, m, tid, th) && Redeemed(m, s', tid, creq, id, g)
    ensures Redeemed(s, s', tid, creq, id, g)
  {
  }

  lemma TakesAndPasses(cfg: Config, s: Sys, tid: nat, creq: CodeRequest, id: string) returns (s': Sys, g: Grant)
    requires creq.code.Some? && creq.code.value in s.db.codes && tid in s.threads
    requires var code := s.db.codes[creq.code.value];
             !code.used && code.hash == creq.code.value && CodeAccepted(cfg, creq, id, code, s.now)
    requires s.threads[tid] == Token(CodeTake(creq.code.value, creq, id))
    ensures Reaches(cfg, s, s') && Redeemed(s, s', tid, creq, id, g)
  {
    var m := TakesCode(cfg, s, tid, creq, id);
    s', g := PassesChecks(cfg, m, tid, creq, id, s.db.codes[creq.code.value].(used := true));
    Then(cfg, s, m, s');
    assert s'.threads == s.threads[tid := s'.threads[tid]];
  }

  /** POST /token with a code, up to the user lookup of the response. */
  lemma Redeems(cfg: Config, s: Sys, creq: CodeRequest, client: Client) returns (s': Sys, tid: nat, g: Grant)
    requires Authenticated(cfg, s.db, creq.clientID, creq.secret) == Some(client) && creq.code.Some? && creq.code.value in s.db.codes
    requires var code := s.db.codes[creq.code.value];
             !code.used && code.hash == creq.code.value && CodeAccepted(cfg, creq, client.id, code, s.now)
    ensures tid !in s.threads && Reaches(cfg, s, s') && Redeemed(s, s', tid, creq, client.id, g)
  {
    var m;
    m, tid := StartsToRedeem(cfg, s, creq, client);
    s', g := TakesAndPasses(cfg, m, tid, creq, client.id);
    Then(cfg, s, m, s');
    RedeemedFrom(s, m, s', tid, m.threads[tid], creq, client.id, g);
  }

  lemma TakesCode(cfg: Config, s: Sys, tid: nat, creq: CodeRequest, id: string) returns (s': Sys)
    requires creq.code.Some? && creq.code.value in s.db.codes && !s.db.codes[creq.code.value].used
    requires tid in s.threads && s.threads[tid] == Token(CodeTake(creq.code.value, creq, id))
    ensures var code := s.db.codes[creq.code.value].(used := true);
            && Reaches(cfg, s, s') && s'.threads == s.threads[tid := Token(CodeCheck(creq, id, code))]
            && s'.db == s.db.(codes := s.db.codes[creq.code.value := code]) && s'.log == s.log && s'.now == s.now && s.used <= s'.used
  {
    var v, w;
    s', v, w := Moves(cfg, s, tid);
    assert s.log + [] == s.log;
  }

  lemma PassesChecks(cfg: Config, s: Sys, tid: nat, creq: CodeRequest, id: string, code: AuthCode) returns (s': Sys, g: Grant)
    requires tid in s.threads && s.threads[tid] == Token(CodeCheck(creq, id, code)) && CodeAccepted(cfg, creq, id, code, s.now)
    ensures Reaches(cfg, s, s') && s'.db == s.db && s'.now == s.now && s.used <= s'.used
    ensures s'.threads == s.threads[tid := Token(GrantUser(g))]
    ensures s'.log == s.log + [Exchanged(code.hash, id, creq.redirectURI, creq.verifier, s.now)]
    ensures g.terms == Terms(id, code.terms.userID, code.terms.scopes, code.terms.sid) && g.family == ""
    ensures g.withRefresh == ("offline_access" in code.terms.scopes)
  {
    var v, w;
    s', v, w := Moves(cfg, s, tid);
    g := s'.threads[tid].t.g;
  }

  // ----- A first state -----

  /** A configuration some client can use: positive lifetimes, a URI that parses, and a verifier for the challenge. */
  ghost predicate Usable(cfg: Config, uri: string, verifier: string, challenge: string) {
    && cfg.codeTTL > 0 && cfg.refreshTTL > 0 && cfg.sessionTTL > 0
    && uri != "" && cfg.parsesURI(uri) && VerifyS256(cfg, verifier, challenge)
  }

  function PublicClient(uri: string): Client { Client("app", "App", Public, "", [uri], [], "", "") }

  function Query(cookie: string, uri: string, challenge: string, scope: string): AuthQuery {
    AuthQuery("app", uri, "code", "S256", challenge, scope, "", Some(cookie))
  }

  /** One public client, one account, one session, and nothing else. */
  ghost predicate Opened(cfg: Config, s: Sys, uri: string, cookie: string) {
    && Reachable(cfg, s) && SignedIn(s, cookie, "ann") && s.pending == map[] && s.threads == map[] && s.db.consent == map[]
    && "app" in s.db.clients && s.db.clients["app"] == PublicClient(uri) && s.now == 0
  }

  lemma Opens(cfg: Config, uri: string) returns (s: Sys, cookie: string)
    requires cfg.sessionTTL > 0
    ensures Opened(cfg, s, uri, cookie)
  {
    var s0 := Sys(Db(map[], map[], map[], map[], map[], map[], map[], map[], map[], map[]), map[], map[], [], 0, {});
    assert Init(s0) && Leads(cfg, s0, s0, 0);
    Happens(cfg, s0, SetClient(PublicClient(uri)));
    var s1 := Apply(cfg, s0, SetClient(PublicClient(uri)));
    Happens(cfg, s1, SetUser(User("ann", false)));
    var s2 := Apply(cfg, s1, SetUser(User("ann", false)));
    assert s2.used == {};
    cookie := "c";
    Happens(cfg, s2, Login("ann", "c", "i"));
    s := Apply(cfg, s2, Login("ann", "c", "i"));
    Then(cfg, s0, s1, s2);
    Then(cfg, s0, s2, s);
    StillReachable(cfg, s0, s);
  }

  /** A scope string for any list of supported scopes that holds openid. */
  lemma ScopeString(list: seq<string>) returns (raw: string, scopes: seq<string>)
    requires Elements(list) <= Scopes.ALLOWED && "openid" in list
    ensures Scopes.Normalize(raw, true) == Scopes.Granted(scopes) && Elements(scopes) == Elements(list)
  {
    raw := Scopes.JoinSpace(list);
    Scopes.AllowedAreWords();
    forall w | w in list ensures Scopes.IsWord(w) { assert w in Elements(list); }
    Scopes.FieldsOfJoin(list);
    Scopes.NormalizeGrants(raw, true);
    scopes := Scopes.Normalize(raw, true).scopes;
  }

  /** A signed-in user without a covering consent is asked, agrees, and comes to be issued a code. */
  lemma AsksAndAllows(cfg: Config, s: Sys, cookie: string, userID: string, q: AuthQuery, scopes: seq<string>)
    returns (s': Sys, tid: nat)
    requires cfg.codeTTL > 0 && SignedIn(s, cookie, userID) && q.browser == Some(cookie) && Accepted(cfg, s, q, scopes)
    requires var c := s.db.GetConsent(userID, q.clientID); c.None? || !Covers(c.value.scopes, scopes)
    ensures var p := NewPending(cfg, q.clientID, q, scopes, s.now);
            && Reaches(cfg, s, s') && s'.now == s.now && s.used <= s'.used && s.log <= s'.log
            && s'.db == s.db.PutConsent(Consent(userID, q.clientID, scopes))
            && tid !in s.threads && tid in s'.threads && s'.threads[tid] == Browser(SaveCode(userID, s.db.sessions[cookie].sid, p, s.now))
  {
    var p := NewPending(cfg, q.clientID, q, scopes, s.now);
    var m1, a := Asks(cfg, s, cookie, userID, q, scopes);
    var m2, reqID := IsParked(cfg, m1, a, cookie, userID, p, s.now);
    s', tid := Allows(cfg, m2, cookie, userID, reqID);
    Then(cfg, s, m1, m2);
    Then(cfg, s, m2, s');
  }

  lemma AcceptsQuery(cfg: Config, s: Sys, uri: string, cookie: string, verifier: string, challenge: string, raw: string, scopes: seq<string>)
    requires Opened(cfg, s, uri, cookie) && Usable(cfg, uri, verifier, challenge)
    requires Scopes.Normalize(raw, true) == Scopes.Granted(scopes)
    ensures Accepted(cfg, s, Query(cookie, uri, challenge, raw), scopes)
  {
  }

  /** A first request of the first account, for any list of supported scopes: it comes to be issued a code. */
  lemma FirstCode(cfg: Config, uri: string, verifier: string, challenge: string, list: seq<string>)
    returns (s: Sys, tid: nat, cookie: string, sid: string, p: PendingAuth)
    requires Usable(cfg, uri, verifier, challenge) && Elements(list) <= Scopes.ALLOWED && "openid" in list
    ensures Reachable(cfg, s) && SignedIn(s, cookie, "ann") && "app" in s.db.clients && s.db.clients["app"] == PublicClient(uri)
    ensures tid in s.threads && s.threads[tid] == Browser(SaveCode("ann", sid, p, 0)) && s.now == 0
    ensures p.clientID == "app" && p.redirectURI == uri && p.challenge == challenge && p.expiresAt == cfg.codeTTL * 10
    ensures Elements(p.scopes) == Elements(list)
    ensures s.db.GetConsent("ann", "app") == Some(Consent("ann", "app", p.scopes))
  {
    var s0;
    s0, cookie := Opens(cfg, uri);
    var raw, scopes := ScopeString(list);
    AcceptsQuery(cfg, s0, uri, cookie, verifier, challenge, raw, scopes);
    s, tid := AsksAndAllows(cfg, s0, cookie, "ann", Query(cookie, uri, challenge, raw), scopes);
    StillReachable(cfg, s0, s);
    sid := s0.db.sessions[cookie].sid;
    p := NewPending(cfg, "app", Query(cookie, uri, challenge, raw), scopes, 0);
  }

  /** A public client presents a code with the right verifier. */
  lemma Exchanges(cfg: Config, s: Sys, h: string, uri: string, verifier: string, challenge: string) returns (s': Sys, tid: nat, g: Grant)
    requires VerifyS256(cfg, verifier, challenge) && "app" in s.db.clients && s.db.clients["app"] == PublicClient(uri)
    requires h in s.db.codes && s.db.codes[h].hash == h && !s.db.codes[h].used && s.db.codes[h].expiresAt > s.now
    requires s.db.codes[h].terms.clientID == "app" && s.db.codes[h].redirectURI == uri && s.db.codes[h].challenge == challenge
    ensures Reaches(cfg, s, s') && Redeemed(s, s', tid, CodeRequest("app", "", Some(h), uri, verifier), "app", g)
  {
    s', tid, g := Redeems(cfg, s, CodeRequest("app", "", Some(h), uri, verifier), PublicClient(uri));
  }
}

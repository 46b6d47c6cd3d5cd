/** The handlers of GET /authorize, POST /consent and POST /token (internal/web/authorize.go, token.go) as they run
    when nothing else does. Each is proved to do what the request's thread does when it is served alone. */
module WebServer {
  import opened Wrappers
  import opened Sorting
  import opened Domain
  import opened Ledger
  import opened Grants
  import opened Atomic
  import opened MemoryStore
  import opened SessionService
  import opened Ends
  import opened Answers
  import Scopes

  class Server {
    const store: Store
    const sessions: Service
    var pending: map<string, PendingAuth>

    ghost predicate Valid() { sessions.store == store }

    ghost function State(answer: Answer): End
      reads this, store
    {
      End(store.View(), pending, answer)
    }

    constructor (store: Store, sessions: Service)
      requires sessions.store == store
      ensures Valid() && pending == map[] && this.store == store
    {
      this.store, this.sessions, pending := store, sessions, map[];
    }

    method CurrentUser(browser: Option<string>, now: Time) returns (r: Option<string>)
      requires Valid()
      modifies store
      ensures (store.View(), r) == UserFound(old(store.View()), browser, now)
      ensures r.Some? <==>
                && browser.Some? && browser.value in old(store.sessions) && old(store.sessions)[browser.value].expiresAt > now
                && var u := old(store.sessions)[browser.value].userID; u in old(store.users) && !old(store.users)[u].disabled
      ensures r.Some? ==> r.value == old(store.sessions)[browser.value].userID && store.View() == old(store.View())
    {
      var sess := sessions.LookupSession(browser, now);
      if sess.None? {
        return None;
      }
      var u := store.GetByID(sess.value.userID);
      if u.Err? || u.value.disabled {
        return None;
      }
      r := Some(sess.value.userID);
    }

    method CurrentSID(browser: Option<string>, now: Time) returns (sid: string)
      requires Valid()
      modifies store
      ensures var (db, sess) := LookedUp(old(store.View()), browser, now);
              store.View() == db && sid == if sess.None? then "" else sess.value.sid
    {
      var sess := sessions.LookupSession(browser, now);
      sid := if sess.None? then "" else sess.value.sid;
    }

    method HasConsent(userID: string, clientID: string, want: seq<string>) returns (ok: bool)
      ensures var c := store.View().GetConsent(userID, clientID);
              && (ok <==> c.Some? && Covers(c.value.scopes, want))
              && (ok <==> c.Some? && Elements(want) <= Elements(c.value.scopes))
    {
      var c := store.GetConsent(userID, clientID);
      if c.None? {
        return false;
      }
      CoversIs(c.value.scopes, want);
      for i := 0 to |want|
        invariant forall s | s in want[..i] :: s in c.value.scopes
      {
        var found := Scopes.Contains(c.value.scopes, want[i]);
        if !found {
          return false;
        }
      }
      ok := true;
    }

    /** d.first is the code that is drawn. */
    method IssueCodeRedirect(cfg: Config, now: Time, browser: Option<string>, userID: string, p: PendingAuth, d: Draws)
      returns (r: Answer)
      requires Valid()
      modifies store
      ensures State(r) == EndOf(cfg, old(store.View()), old(pending), now, Browser(Lookup(browser, ForIssue(userID, p, now))), d)
    {
      IssueGoes(cfg, store.View(), pending, now, browser, userID, p, d);
      var sid := CurrentSID(browser, now);
      var row := NewCode(cfg, d.first, userID, sid, p, now);
      store.PutCode(row);
      store.AddSessionClient(sid, p.clientID);
      r := Redirect(d.first);
    }

    /** The rest of handleAuthorize, once the user is known. */
    method AuthorizeUser(cfg: Config, now: Time, q: AuthQuery, cookie: string, userID: string, scopes: seq<string>, d: Draws)
      returns (r: Answer)
      requires Valid() && q.browser == Some(cookie)
      modifies this`pending, store
      ensures State(r) == EndOf(cfg, old(store.View()), old(pending), now, Browser(Build(cookie, userID, q, scopes)), d)
    {
      BrowserGoes(cfg, store.View(), pending, now, Build(cookie, userID, q, scopes), d);
      var p := NewPending(cfg, q.clientID, q, scopes, now);
      BrowserGoes(cfg, store.View(), pending, now, CheckConsent(cookie, userID, p, now), d);
      var agreed := HasConsent(userID, q.clientID, p.scopes);
      if agreed {
        r := IssueCodeRedirect(cfg, now, q.browser, userID, p, d);
        return;
      }
      ParkGoes(cfg, store.View(), pending, now, userID, p, d);
      pending := pending[d.first := p];
      r := ConsentPage(d.first);
    }

    /** d.first is the request ID or the code that is drawn. */
    method HandleAuthorize(cfg: Config, now: Time, q: AuthQuery, d: Draws) returns (r: Answer)
      requires Valid()
      modifies this`pending, store
      ensures State(r) == EndOf(cfg, old(store.View()), old(pending), now, Browser(Authorize(q)), d)
      ensures var db := old(store.View());
              HasSession(db, q.browser, now) && (var u := db.sessions[q.browser.value].userID; u in db.users ==> db.users[u].disabled) ==>
                r == Refused && store.View() == db && pending == old(pending)
    {
      BrowserGoes(cfg, store.View(), pending, now, Authorize(q), d);
      if q.responseType != "code" {
        return Refused;
      }
      if q.challengeMethod != "S256" || q.challenge == "" {
        return Refused;
      }
      var client := store.GetClient(q.clientID);
      if client.Err? {
        return Refused;
      }
      if !cfg.parsesURI(q.redirectURI) || q.redirectURI == "" || q.redirectURI !in client.value.redirectURIs {
        return Refused;
      }
      var scopes := Scopes.NormalizeScopes(q.scope, true);
      if scopes.Rejected? {
        return Refused;
      }
      UserGoes(cfg, store.View(), pending, now, q.browser, ForAuthorize(q, scopes.scopes), d);
      var user := CurrentUser(q.browser, now);
      if user.None? {
        return Refused;
      }
      r := AuthorizeUser(cfg, now, q, q.browser.value, user.value, scopes.scopes, d);
    }

    /** The rest of handleConsent, once the user is known. */
    method ConsentOfUser(cfg: Config, now: Time, cookie: string, userID: string, reqID: string, allow: bool, d: Draws)
      returns (r: Answer)
      requires Valid()
      modifies this`pending, store
      ensures State(r) == EndOf(cfg, old(store.View()), old(pending), now, Browser(TakePending(cookie, userID, reqID, allow)), d)
    {
      DecisionGoes(cfg, store.View(), pending, now, cookie, userID, reqID, allow, d);
      if reqID !in pending {
        return Refused;
      }
      var p := pending[reqID];
      pending := pending - {reqID};
      if p.expiresAt <= now {
        return Refused;
      }
      if !allow {
        return Refused;
      }
      store.PutConsent(Consent(userID, p.clientID, p.scopes));
      IssueGoes(cfg, store.View(), pending, now, Some(cookie), userID, p, d);
      r := IssueCodeRedirect(cfg, now, Some(cookie), userID, p, d);
    }

    method HandleConsent(cfg: Config, now: Time, browser: Option<string>, reqID: string, allow: bool, d: Draws) returns (r: Answer)
      requires Valid()
      modifies this`pending, store
      ensures State(r) == EndOf(cfg, old(store.View()), old(pending), now, Browser(Consenting(browser, reqID, allow)), d)
      ensures var db := old(store.View());
              HasSession(db, browser, now) && (var u := db.sessions[browser.value].userID; u in db.users ==> db.users[u].disabled) ==>
                r == Refused && store.View() == db && pending == old(pending)
    {
      BrowserGoes(cfg, store.View(), pending, now, Consenting(browser, reqID, allow), d);
      UserGoes(cfg, store.View(), pending, now, browser, ForConsent(reqID, allow), d);
      var user := CurrentUser(browser, now);
      if user.None? {
        return Refused;
      }
      r := ConsentOfUser(cfg, now, browser.value, user.value, reqID, allow, d);
    }

    /** The client is stored, and presents its secret if it is confidential, and none if it is public. */
    ghost predicate Proves(cfg: Config, id: string, secret: string)
      reads store
    {
      && id in store.clients
      && var c := store.clients[id];
      if c.clientType == Confidential then cfg.secretMatches(secret, c.secretHash) else secret == ""
    }

    method AuthenticateClient(cfg: Config, id: string, secret: string) returns (r: Option<Client>)
      ensures r == Authenticated(cfg, store.View(), id, secret)
      ensures r.Some? <==>
                && id in store.clients
                && (store.clients[id].clientType == Confidential ==> cfg.secretMatches(secret, store.clients[id].secretHash))
                && (store.clients[id].clientType == Public ==> secret == "")
      ensures r.Some? ==> r.value == store.clients[id]
    {
      var c := store.GetClient(id);
      if c.Err? {
        return None;
      }
      if c.value.clientType == Confidential {
        if !cfg.secretMatches(secret, c.value.secretHash) {
          return None;
        }
        return Some(c.value);
      }
      if secret != "" {
        return None;
      }
      r := Some(c.value);
    }

    /** d gives the access token, the refresh token and the ID of a new family. */
    method WriteTokenResponse(cfg: Config, now: Time, g: Grant, d: Draws) returns (r: Answer)
      modifies store
      ensures State(r) == EndOf(cfg, old(store.View()), old(pending), now, Token(GrantUser(g)), d)
    {
      GrantGoes(cfg, store.View(), pending, now, g, d);
      var user := store.GetByID(g.terms.userID);
      if user.Err? {
        return Refused;
      }
      store.PutAccess(AccessToken(d.first, g.terms, now + cfg.accessTTL));
      if !g.withRefresh {
        return Tokens(d.first, None);
      }
      var familyID := g.family;
      if familyID == "" {
        familyID := d.id;
      }
      var t := RefreshToken(d.second, familyID, g.terms, now + cfg.refreshTTL, false);
      store.PutRefresh(t);
      r := Tokens(d.first, Some(t));
    }

    method TokenAuthCode(cfg: Config, now: Time, creq: CodeRequest, d: Draws) returns (r: Answer)
      modifies store
      ensures State(r) == EndOf(cfg, old(store.View()), old(pending), now, Token(CodeClient(creq)), d)
      ensures !old(Proves(cfg, creq.clientID, creq.secret)) ==> r == Refused && store.View() == old(store.View())
    {
      TokenGoes(cfg, store.View(), pending, now, CodeClient(creq), d);
      var client := AuthenticateClient(cfg, creq.clientID, creq.secret);
      if client.None? {
        return Refused;
      }
      if creq.code.None? {
        return Refused;
      }
      TokenGoes(cfg, store.View(), pending, now, CodeTake(creq.code.value, creq, client.value.id), d);
      var row := store.TakeCode(creq.code.value);
      if row.Err? {
        return Refused;
      }
      r := RedeemCode(cfg, now, creq, client.value, row.value, d);
    }

    /** The rest of tokenAuthCode, once the code is taken. */
    method RedeemCode(cfg: Config, now: Time, creq: CodeRequest, client: Client, row: AuthCode, d: Draws) returns (r: Answer)
      modifies store
      ensures State(r) == EndOf(cfg, old(store.View()), old(pending), now, Token(CodeCheck(creq, client.id, row)), d)
    {
      TokenGoes(cfg, store.View(), pending, now, CodeCheck(creq, client.id, row), d);
      if row.expiresAt <= now {
        return Refused;
      }
      if row.terms.clientID != client.id {
        return Refused;
      }
      if row.redirectURI != creq.redirectURI {
        return Refused;
      }
      if !VerifyS256(cfg, creq.verifier, row.challenge) {
        return Refused;
      }
      var terms := Terms(client.id, row.terms.userID, row.terms.scopes, row.terms.sid);
      var offline := Scopes.Contains(row.terms.scopes, "offline_access");
      r := WriteTokenResponse(cfg, now, Grant(terms, offline, "", FromCode(row.hash)), d);
    }

    method TokenRefresh(cfg: Config, now: Time, rreq: RefreshRequest, d: Draws) returns (r: Answer)
      modifies store
      ensures State(r) == EndOf(cfg, old(store.View()), old(pending), now, Token(RefreshClient(rreq)), d)
      ensures !old(Proves(cfg, rreq.clientID, rreq.secret)) ==> r == Refused && store.View() == old(store.View())
    {
      TokenGoes(cfg, store.View(), pending, now, RefreshClient(rreq), d);
      var client := AuthenticateClient(cfg, rreq.clientID, rreq.secret);
      if client.None? {
        return Refused;
      }
      TokenGoes(cfg, store.View(), pending, now, RefreshTake(rreq, client.value.id), d);
      var row := store.TakeRefresh(rreq.token);
      if row.Err? {
        ReuseGoes(cfg, store.View(), pending, now, rreq, d);
        var existing := store.GetRefresh(rreq.token);
        if existing.Ok? {
          store.RevokeFamily(existing.value.familyID);
        }
        return Refused;
      }
      r := Rotate(cfg, now, client.value, row.value, d);
    }

    /** The rest of tokenRefresh, once an unused token is taken. */
    method Rotate(cfg: Config, now: Time, client: Client, row: RefreshToken, d: Draws) returns (r: Answer)
      modifies store
      ensures State(r) == EndOf(cfg, old(store.View()), old(pending), now, Token(RefreshCheck(client.id, row)), d)
    {
      TokenGoes(cfg, store.View(), pending, now, RefreshCheck(client.id, row), d);
      if row.expiresAt <= now || row.terms.clientID != client.id {
        RevokeGoes(cfg, store.View(), pending, now, row.familyID, d);
        store.RevokeFamily(row.familyID);
        return Refused;
      }
      var terms := Terms(client.id, row.terms.userID, row.terms.scopes, row.terms.sid);
      r := WriteTokenResponse(cfg, now, Grant(terms, true, row.familyID, FromRefresh(row.hash)), d);
    }
  }
}

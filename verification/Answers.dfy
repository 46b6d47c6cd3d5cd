/** Exactly how each request of the grant flows is answered when it is served alone, and exactly what it leaves, in terms of
    the stored rows and of what the request carries. */
module Answers {
  import opened Wrappers
  import opened Sorting
  import opened Domain
  import opened Ledger
  import opened Grants
  import opened Atomic
  import opened SessionService
  import opened Ends
  import Consents
  import Scopes
  import Soundness

  // ----- POST /token with a code -----

  /** Of an unknown client, of a confidential one without its secret, or of a public one with a secret: refused, and the
      code is not even taken. */
  lemma UnprovedCodeRequest(cfg: Config, db: Db, pending: map<string, PendingAuth>, now: Time, creq: CodeRequest, d: Draws)
    requires creq.clientID in db.clients ==>
               var c := db.clients[creq.clientID];
               if c.clientType == Confidential then !cfg.secretMatches(creq.secret, c.secretHash) else creq.secret != ""
    ensures EndOf(cfg, db, pending, now, Token(CodeClient(creq)), d) == End(db, pending, Refused)
  {
    TokenGoes(cfg, db, pending, now, CodeClient(creq), d);
  }

  lemma UnknownCodeRequest(cfg: Config, db: Db, pending: map<string, PendingAuth>, now: Time, creq: CodeRequest, d: Draws)
    requires creq.code.Some? && creq.code.value in db.codes ==> db.codes[creq.code.value].used
    ensures EndOf(cfg, db, pending, now, Token(CodeClient(creq)), d) == End(db, pending, Refused)
  {
    TokenGoes(cfg, db, pending, now, CodeClient(creq), d);
    var c := Authenticated(cfg, db, creq.clientID, creq.secret);
    if c.Some? && creq.code.Some? { TokenGoes(cfg, db, pending, now, CodeTake(creq.code.value, creq, c.value.id), d); }
  }

  /** A code that is stored and unused is used up by whatever proved client presents it. Then it is answered exactly if it
      has not expired, was issued to that client and for that redirect URI, has a challenge that is the S256 image of a
      verifier of 43 to 128 characters, and its user still exists. */
  lemma ProvedCodeRequest(cfg: Config, db: Db, pending: map<string, PendingAuth>, now: Time, creq: CodeRequest, d: Draws)
    requires creq.clientID in db.clients
    requires var c := db.clients[creq.clientID];
             if c.clientType == Confidential then cfg.secretMatches(creq.secret, c.secretHash) else creq.secret == ""
    requires creq.code.Some? && creq.code.value in db.codes && !db.codes[creq.code.value].used
    ensures var row, client := db.codes[creq.code.value], db.clients[creq.clientID];
            var taken := db.(codes := db.codes[creq.code.value := row.(used := true)]);
            var access := db.access[d.first := AccessToken(d.first, row.terms, now + cfg.accessTTL)];
            var t := RefreshToken(d.second, d.id, row.terms, now + cfg.refreshTTL, false);
            EndOf(cfg, db, pending, now, Token(CodeClient(creq)), d) ==
              if row.expiresAt <= now || row.terms.clientID != client.id || row.redirectURI != creq.redirectURI
                 || row.challenge == "" || cfg.s256(creq.verifier) != row.challenge || !(43 <= |creq.verifier| <= 128)
                 || row.terms.userID !in db.users
              then End(taken, pending, Refused)
              else if "offline_access" in row.terms.scopes
              then End(taken.(access := access, refresh := db.refresh[d.second := t]), pending, Tokens(d.first, Some(t)))
              else End(taken.(access := access), pending, Tokens(d.first, None))
  {
    var row, client := db.codes[creq.code.value], db.clients[creq.clientID];
    var taken, marked := db.TakeCode(creq.code.value).0, row.(used := true);
    TokenGoes(cfg, db, pending, now, CodeClient(creq), d);
    TokenGoes(cfg, db, pending, now, CodeTake(creq.code.value, creq, client.id), d);
    CheckedCode(cfg, taken, pending, now, creq, client.id, marked, d);
  }

  lemma CheckedCode(cfg: Config, db: Db, pending: map<string, PendingAuth>, now: Time, creq: CodeRequest, id: string, row: AuthCode, d: Draws)
    ensures var t := RefreshToken(d.second, d.id, row.terms, now + cfg.refreshTTL, false);
            var db' := db.PutAccess(AccessToken(d.first, row.terms, now + cfg.accessTTL));
            EndOf(cfg, db, pending, now, Token(CodeCheck(creq, id, row)), d) ==
              if row.expiresAt <= now || row.terms.clientID != id || row.redirectURI != creq.redirectURI
                 || row.challenge == "" || cfg.s256(creq.verifier) != row.challenge || !(43 <= |creq.verifier| <= 128)
                 || row.terms.userID !in db.users
              then End(db, pending, Refused)
              else if "offline_access" in row.terms.scopes then End(db'.PutRefresh(t), pending, Tokens(d.first, Some(t)))
              else End(db', pending, Tokens(d.first, None))
  {
    TokenGoes(cfg, db, pending, now, CodeCheck(creq, id, row), d);
    if CodeAccepted(cfg, creq, id, row, now) {
      var terms := Terms(id, row.terms.userID, row.terms.scopes, row.terms.sid);
      assert terms == row.terms;
      GrantGoes(cfg, db, pending, now, Grant(terms, "offline_access" in terms.scopes, "", FromCode(row.hash)), d);
    }
  }

  /** A code request is answered with tokens if and only if all of that holds. */
  lemma CodeAnsweredExactly(cfg: Config, db: Db, pending: map<string, PendingAuth>, now: Time, creq: CodeRequest, d: Draws)
    ensures var e := EndOf(cfg, db, pending, now, Token(CodeClient(creq)), d);
            && e.answer.Tokens? != e.answer.Refused?
            && (e.answer.Tokens? <==>
                  && creq.clientID in db.clients
                  && var c := db.clients[creq.clientID];
                  && (c.clientType == Confidential ==> cfg.secretMatches(creq.secret, c.secretHash))
                  && (c.clientType == Public ==> creq.secret == "")
                  && creq.code.Some? && creq.code.value in db.codes
                  && var row := db.codes[creq.code.value];
                  && !row.used && row.expiresAt > now && row.terms.clientID == c.id && row.redirectURI == creq.redirectURI
                  && row.challenge != "" && cfg.s256(creq.verifier) == row.challenge && 43 <= |creq.verifier| <= 128
                  && row.terms.userID in db.users)
  {
    var c := if creq.clientID in db.clients then Some(db.clients[creq.clientID]) else None;
    if c.None? || (if c.value.clientType == Confidential then !cfg.secretMatches(creq.secret, c.value.secretHash) else creq.secret != "") {
      UnprovedCodeRequest(cfg, db, pending, now, creq, d);
    } else if creq.code.None? || creq.code.value !in db.codes || db.codes[creq.code.value].used {
      UnknownCodeRequest(cfg, db, pending, now, creq, d);
    } else {
      ProvedCodeRequest(cfg, db, pending, now, creq, d);
    }
  }

  // ----- POST /token with a refresh token -----

  lemma UnprovedRefreshRequest(cfg: Config, db: Db, pending: map<string, PendingAuth>, now: Time, rreq: RefreshRequest, d: Draws)
    requires rreq.clientID in db.clients ==>
               var c := db.clients[rreq.clientID];
               if c.clientType == Confidential then !cfg.secretMatches(rreq.secret, c.secretHash) else rreq.secret != ""
    ensures EndOf(cfg, db, pending, now, Token(RefreshClient(rreq)), d) == End(db, pending, Refused)
  {
    TokenGoes(cfg, db, pending, now, RefreshClient(rreq), d);
  }

  function FamilyRevokedIn(refresh: map<string, RefreshToken>, f: string): map<string, RefreshToken> {
    map h | h in refresh :: if refresh[h].familyID == f then refresh[h].(revoked := true) else refresh[h]
  }

  /** A proved client rotates a token that is unrevoked, unexpired, its own and of a user that exists. Of a user that does not
      it only uses the token up. Any other stored token costs its whole family, whoever's it is. */
  lemma ProvedRefreshRequest(cfg: Config, db: Db, pending: map<string, PendingAuth>, now: Time, rreq: RefreshRequest, d: Draws)
    requires rreq.clientID in db.clients
    requires var c := db.clients[rreq.clientID];
             if c.clientType == Confidential then cfg.secretMatches(rreq.secret, c.secretHash) else rreq.secret == ""
    requires rreq.token in db.refresh
    ensures var row := db.refresh[rreq.token];
            var access := db.access[d.first := AccessToken(d.first, row.terms, now + cfg.accessTTL)];
            var t := RefreshToken(d.second, if row.familyID == "" then d.id else row.familyID, row.terms, now + cfg.refreshTTL, false);
            var used := db.refresh[rreq.token := row.(revoked := true)];
            EndOf(cfg, db, pending, now, Token(RefreshClient(rreq)), d) ==
              if row.revoked || row.expiresAt <= now || row.terms.clientID != db.clients[rreq.clientID].id
              then End(db.(refresh := map h | h in db.refresh ::
                             if db.refresh[h].familyID == row.familyID then db.refresh[h].(revoked := true) else db.refresh[h]), pending, Refused)
              else if row.terms.userID !in db.users then End(db.(refresh := used), pending, Refused)
              else End(db.(access := access, refresh := used[d.second := t]), pending, Tokens(d.first, Some(t)))
  {
    TokenGoes(cfg, db, pending, now, RefreshClient(rreq), d);
    if db.refresh[rreq.token].revoked {
      PresentsUsed(cfg, db, pending, now, rreq, db.clients[rreq.clientID].id, d);
    } else {
      PresentsLive(cfg, db, pending, now, rreq, db.clients[rreq.clientID].id, d);
    }
  }

  lemma PresentsUsed(cfg: Config, db: Db, pending: map<string, PendingAuth>, now: Time, rreq: RefreshRequest, id: string, d: Draws)
    requires rreq.token in db.refresh && db.refresh[rreq.token].revoked
    ensures EndOf(cfg, db, pending, now, Token(RefreshTake(rreq, id)), d) ==
              End(db.(refresh := FamilyRevokedIn(db.refresh, db.refresh[rreq.token].familyID)), pending, Refused)
  {
    TokenGoes(cfg, db, pending, now, RefreshTake(rreq, id), d);
    ReuseGoes(cfg, db, pending, now, rreq, d);
  }

  lemma PresentsLive(cfg: Config, db: Db, pending: map<string, PendingAuth>, now: Time, rreq: RefreshRequest, id: string, d: Draws)
    requires rreq.token in db.refresh && !db.refresh[rreq.token].revoked
    ensures var row := db.refresh[rreq.token];
            var access := db.access[d.first := AccessToken(d.first, row.terms, now + cfg.accessTTL)];
            var t := RefreshToken(d.second, if row.familyID == "" then d.id else row.familyID, row.terms, now + cfg.refreshTTL, false);
            var used := db.refresh[rreq.token := row.(revoked := true)];
            EndOf(cfg, db, pending, now, Token(RefreshTake(rreq, id)), d) ==
              if row.expiresAt <= now || row.terms.clientID != id
              then End(db.(refresh := FamilyRevokedIn(db.refresh, row.familyID)), pending, Refused)
              else if row.terms.userID !in db.users then End(db.(refresh := used), pending, Refused)
              else End(db.(access := access, refresh := used[d.second := t]), pending, Tokens(d.first, Some(t)))
  {
    var row, taken := db.refresh[rreq.token], db.TakeRefresh(rreq.token).0;
    TokenGoes(cfg, db, pending, now, RefreshTake(rreq, id), d);
    CheckedRefresh(cfg, taken, pending, now, id, row.(revoked := true), d);
    RevokedAnyway(db.refresh, rreq.token);
  }

  /** Taking a token before its family is revoked leaves what revoking alone would. */
  lemma RevokedAnyway(refresh: map<string, RefreshToken>, h: string)
    requires h in refresh
    ensures FamilyRevokedIn(refresh[h := refresh[h].(revoked := true)], refresh[h].familyID) == FamilyRevokedIn(refresh, refresh[h].familyID)
  {
  }

  lemma CheckedRefresh(cfg: Config, db: Db, pending: map<string, PendingAuth>, now: Time, id: string, row: RefreshToken, d: Draws)
    ensures var t := RefreshToken(d.second, if row.familyID == "" then d.id else row.familyID, row.terms, now + cfg.refreshTTL, false);
            EndOf(cfg, db, pending, now, Token(RefreshCheck(id, row)), d) ==
              if row.expiresAt <= now || row.terms.clientID != id
              then End(db.(refresh := FamilyRevokedIn(db.refresh, row.familyID)), pending, Refused)
              else if row.terms.userID !in db.users then End(db, pending, Refused)
              else End(db.PutAccess(AccessToken(d.first, row.terms, now + cfg.accessTTL)).PutRefresh(t), pending, Tokens(d.first, Some(t)))
  {
    TokenGoes(cfg, db, pending, now, RefreshCheck(id, row), d);
    if row.expiresAt <= now || row.terms.clientID != id {
      RevokeGoes(cfg, db, pending, now, row.familyID, d);
    } else {
      var terms := Terms(id, row.terms.userID, row.terms.scopes, row.terms.sid);
      assert terms == row.terms;
      GrantGoes(cfg, db, pending, now, Grant(terms, true, row.familyID, FromRefresh(row.hash)), d);
    }
  }

  lemma UnknownRefreshRequest(cfg: Config, db: Db, pending: map<string, PendingAuth>, now: Time, rreq: RefreshRequest, d: Draws)
    requires rreq.token !in db.refresh
    ensures EndOf(cfg, db, pending, now, Token(RefreshClient(rreq)), d) == End(db, pending, Refused)
  {
    TokenGoes(cfg, db, pending, now, RefreshClient(rreq), d);
    var c := Authenticated(cfg, db, rreq.clientID, rreq.secret);
    if c.Some? {
      TokenGoes(cfg, db, pending, now, RefreshTake(rreq, c.value.id), d);
      ReuseGoes(cfg, db, pending, now, rreq, d);
    }
  }

  /** A refresh request is answered with tokens if and only if its client proves itself and the token is stored, unrevoked,
      unexpired, that client's and of a user that exists. */
  lemma RefreshAnsweredExactly(cfg: Config, db: Db, pending: map<string, PendingAuth>, now: Time, rreq: RefreshRequest, d: Draws)
    ensures var e := EndOf(cfg, db, pending, now, Token(RefreshClient(rreq)), d);
            && e.answer.Tokens? != e.answer.Refused?
            && (e.answer.Tokens? <==>
                  && rreq.clientID in db.clients
                  && var c := db.clients[rreq.clientID];
                  && (c.clientType == Confidential ==> cfg.secretMatches(rreq.secret, c.secretHash))
                  && (c.clientType == Public ==> rreq.secret == "")
                  && rreq.token in db.refresh
                  && var row := db.refresh[rreq.token];
                  && !row.revoked && row.expiresAt > now && row.terms.clientID == c.id && row.terms.userID in db.users)
  {
    var c := if rreq.clientID in db.clients then Some(db.clients[rreq.clientID]) else None;
    if c.None? || (if c.value.clientType == Confidential then !cfg.secretMatches(rreq.secret, c.value.secretHash) else rreq.secret != "") {
      UnprovedRefreshRequest(cfg, db, pending, now, rreq, d);
    } else if rreq.token !in db.refresh {
      UnknownRefreshRequest(cfg, db, pending, now, rreq, d);
    } else {
      ProvedRefreshRequest(cfg, db, pending, now, rreq, d);
    }
  }

  // ----- GET /authorize -----

  ghost predicate Accepted(cfg: Config, db: Db, q: AuthQuery) {
    q.clientID in db.clients && QueryAccepted(cfg, q, db.clients[q.clientID])
  }

  /** The tests on the query, written out. */
  lemma AcceptedIs(cfg: Config, db: Db, q: AuthQuery)
    ensures Accepted(cfg, db, q) <==>
              && q.responseType == "code" && q.challengeMethod == "S256" && q.challenge != ""
              && q.clientID in db.clients && q.redirectURI in db.clients[q.clientID].redirectURIs
              && q.redirectURI != "" && cfg.parsesURI(q.redirectURI)
              && "openid" in Scopes.Fields(q.scope)
              && Elements(Scopes.Fields(q.scope)) <= {"openid", "profile", "email", "offline_access", "org"}
    ensures Accepted(cfg, db, q) ==> var scopes := Scopes.Normalize(q.scope, true).scopes;
                                     StrictlySorted(scopes) && Elements(scopes) == Elements(Scopes.Fields(q.scope))
  {
    Scopes.NormalizeGrants(q.scope, true);
  }

  lemma RefusedQuery(cfg: Config, db: Db, pending: map<string, PendingAuth>, now: Time, q: AuthQuery, d: Draws)
    requires !Accepted(cfg, db, q)
    ensures EndOf(cfg, db, pending, now, Browser(Authorize(q)), d) == End(db, pending, Refused)
  {
    BrowserGoes(cfg, db, pending, now, Authorize(q), d);
  }

  /** The browser holds the cookie of a live session. */
  ghost predicate HasSession(db: Db, browser: Option<string>, now: Time) {
    browser.Some? && browser.value in db.sessions && db.sessions[browser.value].expiresAt > now
  }

  /** No live session: refused; the expired one, if there is one, is deleted with its fan-out set. */
  lemma NobodyAsks(cfg: Config, db: Db, pending: map<string, PendingAuth>, now: Time, q: AuthQuery, d: Draws)
    requires Accepted(cfg, db, q) && !HasSession(db, q.browser, now)
    ensures EndOf(cfg, db, pending, now, Browser(Authorize(q)), d) ==
              End(if q.browser.Some? && q.browser.value in db.sessions then db.DeleteSession(db.sessions[q.browser.value].tokenHash) else db,
                  pending, Refused)
  {
    var scopes := Scopes.Normalize(q.scope, true).scopes;
    BrowserGoes(cfg, db, pending, now, Authorize(q), d);
    UserGoes(cfg, db, pending, now, q.browser, ForAuthorize(q, scopes), d);
    EndOfDone(cfg, UserFound(db, q.browser, now).0, pending, now, d);
  }

  /** A live session of a missing or disabled account: refused, and nothing changes. */
  lemma DisabledUserAsks(cfg: Config, db: Db, pending: map<string, PendingAuth>, now: Time, q: AuthQuery, d: Draws)
    requires HasSession(db, q.browser, now)
    requires var u := db.sessions[q.browser.value].userID; u in db.users ==> db.users[u].disabled
    ensures EndOf(cfg, db, pending, now, Browser(Authorize(q)), d) == End(db, pending, Refused)
  {
    BrowserGoes(cfg, db, pending, now, Authorize(q), d);
    if Accepted(cfg, db, q) {
      UserGoes(cfg, db, pending, now, q.browser, ForAuthorize(q, Scopes.Normalize(q.scope, true).scopes), d);
      EndOfDone(cfg, db, pending, now, d);
    }
  }

  /** What the consent check leads to: a code for exactly what was asked if the stored consent of the user and the client
      holds every scope of the request, and otherwise the page that asks, with the request parked and nothing issued. */
  lemma SignedInUserAsks(cfg: Config, db: Db, pending: map<string, PendingAuth>, now: Time, q: AuthQuery, d: Draws)
    requires Accepted(cfg, db, q) && HasSession(db, q.browser, now)
    requires var u := db.sessions[q.browser.value].userID; u in db.users && !db.users[u].disabled
    ensures var sess, scopes := db.sessions[q.browser.value], Scopes.Normalize(q.scope, true).scopes;
            var key := sess.userID + "|" + q.clientID;
            var code := AuthCode(d.first, Terms(q.clientID, sess.userID, scopes, sess.sid), q.redirectURI, q.nonce, q.challenge,
                                 now + cfg.codeTTL, false);
            var request := PendingAuth(q.clientID, q.redirectURI, q.nonce, scopes, q.challenge, now + 10 * cfg.codeTTL);
            EndOf(cfg, db, pending, now, Browser(Authorize(q)), d) ==
              if key in db.consent && Elements(scopes) <= Elements(db.consent[key].scopes)
              then End(db.(codes := db.codes[d.first := code]).AddSessionClient(sess.sid, q.clientID), pending, Redirect(d.first))
              else End(db, pending[d.first := request], ConsentPage(d.first))
  {
    var sess, scopes := db.sessions[q.browser.value], Scopes.Normalize(q.scope, true).scopes;
    var p := PendingAuth(q.clientID, q.redirectURI, q.nonce, scopes, q.challenge, now + 10 * cfg.codeTTL);
    SignedInGoesOn(cfg, db, pending, now, q, d);
    ConsentChecked(cfg, db, pending, now, q.browser.value, sess.userID, p, d);
  }

  lemma FindsEnabled(cfg: Config, db: Db, pending: map<string, PendingAuth>, now: Time, browser: Option<string>, k: Cont, d: Draws)
    requires HasSession(db, browser, now) && !k.ForIssue?
    requires var u := db.sessions[browser.value].userID; u in db.users && !db.users[u].disabled
    ensures EndOf(cfg, db, pending, now, Browser(Lookup(browser, k)), d) ==
              EndOf(cfg, db, pending, now, WithUser(browser.value, db.sessions[browser.value].userID, k), d)
  {
    UserGoes(cfg, db, pending, now, browser, k, d);
  }

  lemma SignedInGoesOn(cfg: Config, db: Db, pending: map<string, PendingAuth>, now: Time, q: AuthQuery, d: Draws)
    requires Accepted(cfg, db, q) && HasSession(db, q.browser, now)
    requires var u := db.sessions[q.browser.value].userID; u in db.users && !db.users[u].disabled
    ensures var u, scopes := db.sessions[q.browser.value].userID, Scopes.Normalize(q.scope, true).scopes;
            var p := PendingAuth(q.clientID, q.redirectURI, q.nonce, scopes, q.challenge, now + 10 * cfg.codeTTL);
            EndOf(cfg, db, pending, now, Browser(Authorize(q)), d) ==
              EndOf(cfg, db, pending, now, Browser(CheckConsent(q.browser.value, u, p, now)), d)
  {
    var u, scopes := db.sessions[q.browser.value].userID, Scopes.Normalize(q.scope, true).scopes;
    BrowserGoes(cfg, db, pending, now, Authorize(q), d);
    FindsEnabled(cfg, db, pending, now, q.browser, ForAuthorize(q, scopes), d);
    BuildGoes(cfg, db, pending, now, q.browser.value, u, q, scopes, d);
  }

  lemma BuildGoes(cfg: Config, db: Db, pending: map<string, PendingAuth>, now: Time, cookie: string, userID: string, q: AuthQuery,
                  scopes: seq<string>, d: Draws)
    ensures var p := PendingAuth(q.clientID, q.redirectURI, q.nonce, scopes, q.challenge, now + 10 * cfg.codeTTL);
            EndOf(cfg, db, pending, now, Browser(Build(cookie, userID, q, scopes)), d) ==
              EndOf(cfg, db, pending, now, Browser(CheckConsent(cookie, userID, p, now)), d)
  {
    BrowserGoes(cfg, db, pending, now, Build(cookie, userID, q, scopes), d);
  }

  lemma IssuedIs(cfg: Config, db: Db, pending: map<string, PendingAuth>, now: Time, cookie: string, userID: string, p: PendingAuth, d: Draws)
    requires HasSession(db, Some(cookie), now)
    ensures var sid := db.sessions[cookie].sid;
            var code := AuthCode(d.first, Terms(p.clientID, userID, p.scopes, sid), p.redirectURI, p.nonce, p.challenge, now + cfg.codeTTL, false);
            Issued(cfg, db, pending, now, Some(cookie), userID, p, d) ==
              End(db.(codes := db.codes[d.first := code]).AddSessionClient(sid, p.clientID), pending, Redirect(d.first))
  {
  }

  lemma ConsentChecked(cfg: Config, db: Db, pending: map<string, PendingAuth>, now: Time, cookie: string, userID: string,
                       p: PendingAuth, d: Draws)
    requires HasSession(db, Some(cookie), now)
    ensures var sid, key := db.sessions[cookie].sid, userID + "|" + p.clientID;
            EndOf(cfg, db, pending, now, Browser(CheckConsent(cookie, userID, p, now)), d) ==
              if key in db.consent && Elements(p.scopes) <= Elements(db.consent[key].scopes)
              then End(db.(codes := db.codes[d.first := AuthCode(d.first, Terms(p.clientID, userID, p.scopes, sid), p.redirectURI, p.nonce,
                                                                 p.challenge, now + cfg.codeTTL, false)]).AddSessionClient(sid, p.clientID),
                       pending, Redirect(d.first))
              else End(db, pending[d.first := p], ConsentPage(d.first))
  {
    BrowserGoes(cfg, db, pending, now, CheckConsent(cookie, userID, p, now), d);
    var c := db.GetConsent(userID, p.clientID);
    if c.Some? { CoversIs(c.value.scopes, p.scopes); }
    if c.Some? && Covers(c.value.scopes, p.scopes) {
      IssueGoes(cfg, db, pending, now, Some(cookie), userID, p, d);
      IssuedIs(cfg, db, pending, now, cookie, userID, p, d);
    } else {
      ParkGoes(cfg, db, pending, now, userID, p, d);
    }
  }

  lemma CoversIs(have: seq<string>, want: seq<string>)
    ensures Covers(have, want) <==> Elements(want) <= Elements(have)
  {
    if Elements(want) <= Elements(have) {
      forall s | s in want ensures s in have { assert s in Elements(want); }
    }
  }

  /** An authorize request is answered with a code, or with the consent page, if and only if: it asks for a code with an
      S256 challenge, for a stored client, a registered redirect URI and supported scopes with openid; the browser holds the
      cookie of a live session of a stored account that is not disabled; and every scope asked for is in the stored
      consent, or not. */
  lemma AuthorizeAnsweredExactly(cfg: Config, db: Db, pending: map<string, PendingAuth>, now: Time, q: AuthQuery, d: Draws)
    ensures var answer, asked := EndOf(cfg, db, pending, now, Browser(Authorize(q)), d).answer, Elements(Scopes.Fields(q.scope));
            (answer == Redirect(d.first) || answer == ConsentPage(d.first) || answer == Refused)
            && (answer != Refused <==>
                  && q.responseType == "code" && q.challengeMethod == "S256" && q.challenge != ""
                  && q.clientID in db.clients && q.redirectURI in db.clients[q.clientID].redirectURIs
                  && q.redirectURI != "" && cfg.parsesURI(q.redirectURI)
                  && "openid" in asked && asked <= {"openid", "profile", "email", "offline_access", "org"}
                  && q.browser.Some? && q.browser.value in db.sessions
                  && var sess := db.sessions[q.browser.value];
                  && sess.expiresAt > now && sess.userID in db.users && !db.users[sess.userID].disabled)
            && (answer == Redirect(d.first) <==>
                  && answer != Refused
                  && var key := db.sessions[q.browser.value].userID + "|" + q.clientID;
                  key in db.consent && asked <= Elements(db.consent[key].scopes))
  {
    AcceptedIs(cfg, db, q);
    if !Accepted(cfg, db, q) {
      RefusedQuery(cfg, db, pending, now, q, d);
    } else if !HasSession(db, q.browser, now) {
      NobodyAsks(cfg, db, pending, now, q, d);
    } else if var u := db.sessions[q.browser.value].userID; u !in db.users || db.users[u].disabled {
      DisabledUserAsks(cfg, db, pending, now, q, d);
    } else {
      SignedInUserAsks(cfg, db, pending, now, q, d);
    }
  }

  // ----- POST /consent -----

  lemma NobodyDecides(cfg: Config, db: Db, pending: map<string, PendingAuth>, now: Time, browser: Option<string>, reqID: string,
                      allow: bool, d: Draws)
    requires !HasSession(db, browser, now)
    ensures EndOf(cfg, db, pending, now, Browser(Consenting(browser, reqID, allow)), d) ==
              End(if browser.Some? && browser.value in db.sessions then db.DeleteSession(db.sessions[browser.value].tokenHash) else db,
                  pending, Refused)
  {
    BrowserGoes(cfg, db, pending, now, Consenting(browser, reqID, allow), d);
    UserGoes(cfg, db, pending, now, browser, ForConsent(reqID, allow), d);
    EndOfDone(cfg, UserFound(db, browser, now).0, pending, now, d);
  }

  /** A live session of a missing or disabled account: refused, and nothing changes; the request stays pending. */
  lemma DisabledUserDecides(cfg: Config, db: Db, pending: map<string, PendingAuth>, now: Time, browser: Option<string>, reqID: string,
                            allow: bool, d: Draws)
    requires HasSession(db, browser, now)
    requires var u := db.sessions[browser.value].userID; u in db.users ==> db.users[u].disabled
    ensures EndOf(cfg, db, pending, now, Browser(Consenting(browser, reqID, allow)), d) == End(db, pending, Refused)
  {
    BrowserGoes(cfg, db, pending, now, Consenting(browser, reqID, allow), d);
    UserGoes(cfg, db, pending, now, browser, ForConsent(reqID, allow), d);
    EndOfDone(cfg, db, pending, now, d);
  }

  /** A signed-in user's decision takes the request, whichever it is. Allowing one that has not expired stores a consent to
      exactly its scopes, by that user, and issues a code for exactly its terms; nothing else does either. */
  lemma SignedInUserDecides(cfg: Config, db: Db, pending: map<string, PendingAuth>, now: Time, browser: Option<string>, reqID: string,
                            allow: bool, d: Draws)
    requires HasSession(db, browser, now)
    requires var u := db.sessions[browser.value].userID; u in db.users && !db.users[u].disabled
    ensures var e, sess := EndOf(cfg, db, pending, now, Browser(Consenting(browser, reqID, allow)), d), db.sessions[browser.value];
            if reqID !in pending then e == End(db, pending, Refused)
            else if pending[reqID].expiresAt <= now || !allow then e == End(db, pending - {reqID}, Refused)
            else var p := pending[reqID];
              var code := AuthCode(d.first, Terms(p.clientID, sess.userID, p.scopes, sess.sid), p.redirectURI, p.nonce, p.challenge,
                                   now + cfg.codeTTL, false);
              e == End(db.(consent := db.consent[sess.userID + "|" + p.clientID := Consent(sess.userID, p.clientID, p.scopes)],
                           codes := db.codes[d.first := code]).AddSessionClient(sess.sid, p.clientID), pending - {reqID}, Redirect(d.first))
  {
    var u := db.sessions[browser.value].userID;
    BrowserGoes(cfg, db, pending, now, Consenting(browser, reqID, allow), d);
    FindsEnabled(cfg, db, pending, now, browser, ForConsent(reqID, allow), d);
    DecisionGoes(cfg, db, pending, now, browser.value, u, reqID, allow, d);
    if reqID in pending && pending[reqID].expiresAt > now && allow {
      AgreedIs(cfg, db, pending - {reqID}, now, browser.value, u, pending[reqID], d);
    }
  }

  lemma AgreedIs(cfg: Config, db: Db, pending: map<string, PendingAuth>, now: Time, cookie: string, userID: string, p: PendingAuth, d: Draws)
    requires HasSession(db, Some(cookie), now)
    ensures var sid := db.sessions[cookie].sid;
            var code := AuthCode(d.first, Terms(p.clientID, userID, p.scopes, sid), p.redirectURI, p.nonce, p.challenge, now + cfg.codeTTL, false);
            Issued(cfg, db.PutConsent(Consent(userID, p.clientID, p.scopes)), pending, now, Some(cookie), userID, p, d) ==
              End(db.(consent := db.consent[userID + "|" + p.clientID := Consent(userID, p.clientID, p.scopes)],
                      codes := db.codes[d.first := code]).AddSessionClient(sid, p.clientID), pending, Redirect(d.first))
  {
    IssuedIs(cfg, db.PutConsent(Consent(userID, p.clientID, p.scopes)), pending, now, cookie, userID, p, d);
  }

  /** A decision is answered with a code if and only if the browser holds the cookie of a live session of a stored account
      that is not disabled, the request is pending and has not expired, and the decision is to allow it. */
  lemma ConsentAnsweredExactly(cfg: Config, db: Db, pending: map<string, PendingAuth>, now: Time, browser: Option<string>, reqID: string,
                               allow: bool, d: Draws)
    ensures var answer := EndOf(cfg, db, pending, now, Browser(Consenting(browser, reqID, allow)), d).answer;
            (answer == Redirect(d.first) || answer == Refused)
            && (answer == Redirect(d.first) <==>
                  && browser.Some? && browser.value in db.sessions
                  && var sess := db.sessions[browser.value];
                  && sess.expiresAt > now && sess.userID in db.users && !db.users[sess.userID].disabled
                  && reqID in pending && pending[reqID].expiresAt > now && allow)
  {
    if !HasSession(db, browser, now) {
      NobodyDecides(cfg, db, pending, now, browser, reqID, allow, d);
    } else if var u := db.sessions[browser.value].userID; u !in db.users || db.users[u].disabled {
      DisabledUserDecides(cfg, db, pending, now, browser, reqID, allow, d);
    } else {
      SignedInUserDecides(cfg, db, pending, now, browser, reqID, allow, d);
    }
  }

  // ----- Over runs -----

  /** In every state of every run: an accepted request of a signed-in user, served alone, is answered with a code if and only
      if every scope it asks for is in the last consent put for the user and the client; otherwise the user is asked, and
      no code is issued. */
  lemma AskedUnlessAgreed(cfg: Config, s: Sys, q: AuthQuery, d: Draws)
    requires Reachable(cfg, s) && Accepted(cfg, s.db, q) && HasSession(s.db, q.browser, s.now)
    requires var u := s.db.sessions[q.browser.value].userID; u in s.db.users && !s.db.users[u].disabled
    ensures var e := EndOf(cfg, s.db, s.pending, s.now, Browser(Authorize(q)), d);
            var last := Consents.LastPut(s.log, s.db.sessions[q.browser.value].userID, q.clientID);
            if last.Some? && Elements(Scopes.Fields(q.scope)) <= Elements(last.value.scopes) then e.answer == Redirect(d.first)
            else e.answer == ConsentPage(d.first) && e.db == s.db
  {
    var u := s.db.sessions[q.browser.value].userID;
    Soundness.ReachableInv(cfg, s);
    Consents.StoredConsentIsTheLastPut(cfg, s, u, q.clientID);
    AcceptedIs(cfg, s.db, q);
    SignedInUserAsks(cfg, s.db, s.pending, s.now, q, d);
  }
}

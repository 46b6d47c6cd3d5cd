/** How a request of the grant machine ends when it is served alone: what it leaves, and how it is answered. */
module Ends {
  import opened Wrappers
  import opened Domain
  import opened Ledger
  import opened Grants
  import opened Atomic
  import opened SessionService

  /** Refused stands for every error page, error redirect and redirect to the login page. */
  datatype Answer =
    | Refused
    | ConsentPage(reqID: string)
    | Redirect(codeHash: string)
    | Tokens(accessHash: string, refreshed: Option<RefreshToken>)

  function AnswerOf(e: Event): Option<Answer> {
    match e
    case Parked(reqID, _, _) => Some(ConsentPage(reqID))
    case CodeIssued(code, _, _, _) => Some(Redirect(code.hash))
    case Responded(_, accessHash, refreshed) => Some(Tokens(accessHash, refreshed))
    case _ => None
  }

  /** What is left when the rest of a request has been served alone, and how it is answered. */
  datatype End = End(db: Db, pending: map<string, PendingAuth>, answer: Answer)

  /** The answer among the events of a request: the first that is one. */
  function AnswerIn(events: seq<Event>): Answer {
    if events == [] then Refused
    else match AnswerOf(events[0]) case Some(answer) => answer case None => AnswerIn(events[1..])
  }

  /** The state machine's request, or the rest of it, served alone: what it leaves, and the answer its events hold. */
  function EndOf(cfg: Config, db: Db, pending: map<string, PendingAuth>, now: Time, th: Thread, d: Draws): End {
    var r := Serve(cfg, db, pending, now, th, d);
    End(r.db, r.pending, AnswerIn(r.events))
  }

  /** The end of a request is the end of what is left of it after one step, unless the step answers. */
  lemma EndAfterStep(cfg: Config, db: Db, pending: map<string, PendingAuth>, now: Time, th: Thread, d: Draws)
    requires th != Done
    ensures var r := Body(cfg, db, pending, now, th, Drawing(th, d), d.id);
            var rest := EndOf(cfg, r.db, r.pending, now, r.next, d);
            && (r.events == [] ==> EndOf(cfg, db, pending, now, th, d) == rest)
            && (|r.events| == 1 ==> EndOf(cfg, db, pending, now, th, d) ==
                                      match AnswerOf(r.events[0]) case Some(answer) => rest.(answer := answer) case None => rest)
  {
    var r := Body(cfg, db, pending, now, th, Drawing(th, d), d.id);
    Progress(cfg, db, pending, now, th, Drawing(th, d), d.id);
    var rest := Serve(cfg, r.db, r.pending, now, r.next, d);
    assert Serve(cfg, db, pending, now, th, d).events == r.events + rest.events;
    if r.events == [] {
      assert r.events + rest.events == rest.events;
    } else if |r.events| == 1 {
      assert (r.events + rest.events)[0] == r.events[0] && (r.events + rest.events)[1..] == rest.events;
    }
  }

  lemma EndOfDone(cfg: Config, db: Db, pending: map<string, PendingAuth>, now: Time, d: Draws)
    ensures EndOf(cfg, db, pending, now, Done, d) == End(db, pending, Refused)
  {
  }

  lemma BrowserGoes(cfg: Config, db: Db, pending: map<string, PendingAuth>, now: Time, b: BrowserThread, d: Draws)
    requires !b.Park? && !b.SaveCode?
    ensures var r := BrowserStep(cfg, db, pending, now, b, d.first);
            && EndOf(cfg, db, pending, now, Browser(b), d) == EndOf(cfg, r.db, r.pending, now, r.next, d)
            && (r.next.Done? ==> EndOf(cfg, db, pending, now, Browser(b), d) == End(r.db, r.pending, Refused))
  {
    EndAfterStep(cfg, db, pending, now, Browser(b), d);
    var r := BrowserStep(cfg, db, pending, now, b, d.first);
    EndOfDone(cfg, r.db, r.pending, now, d);
  }

  lemma TokenGoes(cfg: Config, db: Db, pending: map<string, PendingAuth>, now: Time, t: TokenThread, d: Draws)
    requires !t.Respond?
    ensures var r := TokenStep(cfg, db, now, t, Drawing(Token(t), d), d.id);
            && EndOf(cfg, db, pending, now, Token(t), d) == EndOf(cfg, r.db, pending, now, r.next, d)
            && (r.next.Done? ==> EndOf(cfg, db, pending, now, Token(t), d) == End(r.db, pending, Refused))
  {
    EndAfterStep(cfg, db, pending, now, Token(t), d);
    EndOfDone(cfg, TokenStep(cfg, db, now, t, Drawing(Token(t), d), d.id).db, pending, now, d);
  }

  /** What answering a grant comes to, all at one instant. */
  function Answered(cfg: Config, db: Db, pending: map<string, PendingAuth>, now: Time, g: Grant, d: Draws): End {
    var db' := db.PutAccess(AccessToken(d.first, g.terms, now + cfg.accessTTL));
    var t := NewRefresh(cfg, d.second, d.id, g, now);
    if g.terms.userID !in db.users then End(db, pending, Refused)
    else if !g.withRefresh then End(db', pending, Tokens(d.first, None))
    else End(db'.PutRefresh(t), pending, Tokens(d.first, Some(t)))
  }

  lemma RespondEnds(cfg: Config, db: Db, pending: map<string, PendingAuth>, now: Time, g: Grant, a: string,
                    t: Option<RefreshToken>, d: Draws)
    ensures EndOf(cfg, db, pending, now, Token(Respond(g, a, t)), d) == End(db, pending, Tokens(a, t))
  {
    EndAfterStep(cfg, db, pending, now, Token(Respond(g, a, t)), d);
    EndOfDone(cfg, db, pending, now, d);
  }

  lemma RefreshEnds(cfg: Config, db: Db, pending: map<string, PendingAuth>, now: Time, g: Grant, a: string, d: Draws)
    ensures var t := NewRefresh(cfg, d.second, d.id, g, now);
            EndOf(cfg, db, pending, now, Token(GrantRefresh(g, a)), d) == End(db.PutRefresh(t), pending, Tokens(a, Some(t)))
  {
    var t := NewRefresh(cfg, d.second, d.id, g, now);
    TokenGoes(cfg, db, pending, now, GrantRefresh(g, a), d);
    RespondEnds(cfg, db.PutRefresh(t), pending, now, g, a, Some(t), d);
  }

  lemma AccessStep(cfg: Config, db: Db, pending: map<string, PendingAuth>, now: Time, g: Grant, d: Draws)
    ensures EndOf(cfg, db, pending, now, Token(GrantAccess(g)), d) ==
              EndOf(cfg, db.PutAccess(AccessToken(d.first, g.terms, now + cfg.accessTTL)), pending, now,
                    Token(if g.withRefresh then GrantRefresh(g, d.first) else Respond(g, d.first, None)), d)
  {
    TokenGoes(cfg, db, pending, now, GrantAccess(g), d);
  }

  lemma AccessGoes(cfg: Config, db: Db, pending: map<string, PendingAuth>, now: Time, g: Grant, d: Draws)
    requires g.terms.userID in db.users
    ensures EndOf(cfg, db, pending, now, Token(GrantAccess(g)), d) == Answered(cfg, db, pending, now, g, d)
  {
    var db' := db.PutAccess(AccessToken(d.first, g.terms, now + cfg.accessTTL));
    AccessStep(cfg, db, pending, now, g, d);
    if g.withRefresh { RefreshEnds(cfg, db', pending, now, g, d.first, d); }
    else { RespondEnds(cfg, db', pending, now, g, d.first, None, d); }
  }

  lemma GrantGoes(cfg: Config, db: Db, pending: map<string, PendingAuth>, now: Time, g: Grant, d: Draws)
    ensures EndOf(cfg, db, pending, now, Token(GrantUser(g)), d) == Answered(cfg, db, pending, now, g, d)
  {
    TokenGoes(cfg, db, pending, now, GrantUser(g), d);
    if g.terms.userID in db.users { AccessGoes(cfg, db, pending, now, g, d); }
  }

  /** LookupSession is the session lookup of the thread. */
  lemma LookupGoes(cfg: Config, db: Db, pending: map<string, PendingAuth>, now: Time, browser: Option<string>, k: Cont, d: Draws)
    ensures var (db', sess) := LookedUp(db, browser, now);
            EndOf(cfg, db, pending, now, Browser(Lookup(browser, k)), d) ==
              EndOf(cfg, db', pending, now, if sess.Some? then Browser(WithSession(browser.value, sess.value, k)) else NoSession(k), d)
  {
    BrowserGoes(cfg, db, pending, now, Lookup(browser, k), d);
    if browser.Some? && browser.value in db.sessions {
      var sess := db.sessions[browser.value];
      BrowserGoes(cfg, db, pending, now, Live(browser.value, sess, k), d);
      if sess.expiresAt <= now { BrowserGoes(cfg, db, pending, now, Forget(sess.tokenHash, k), d); }
    }
  }

  /** currentUser: the enabled user of the live session. */
  function UserFound(db: Db, browser: Option<string>, now: Time): (Db, Option<string>) {
    var (db', sess) := LookedUp(db, browser, now);
    if sess.None? || sess.value.userID !in db'.users || db'.users[sess.value.userID].disabled then (db', None)
    else (db', Some(sess.value.userID))
  }

  /** currentUser is the session lookup and the account check of the thread. */
  lemma UserGoes(cfg: Config, db: Db, pending: map<string, PendingAuth>, now: Time, browser: Option<string>, k: Cont, d: Draws)
    requires !k.ForIssue?
    ensures var (db', user) := UserFound(db, browser, now);
            EndOf(cfg, db, pending, now, Browser(Lookup(browser, k)), d) ==
              EndOf(cfg, db', pending, now, if user.Some? then WithUser(browser.value, user.value, k) else Done, d)
  {
    LookupGoes(cfg, db, pending, now, browser, k, d);
    var (db', sess) := LookedUp(db, browser, now);
    if sess.Some? { BrowserGoes(cfg, db', pending, now, Account(browser.value, sess.value.userID, k), d); }
  }

  /** What issuing a code comes to. */
  function Issued(cfg: Config, db: Db, pending: map<string, PendingAuth>, now: Time, browser: Option<string>, userID: string,
                  p: PendingAuth, d: Draws): End
  {
    var (db', sess) := LookedUp(db, browser, now);
    var sid := if sess.None? then "" else sess.value.sid;
    End(db'.PutCode(NewCode(cfg, d.first, userID, sid, p, now)).AddSessionClient(sid, p.clientID), pending, Redirect(d.first))
  }

  lemma CodeGoes(cfg: Config, db: Db, pending: map<string, PendingAuth>, now: Time, userID: string, sid: string, p: PendingAuth, d: Draws)
    ensures EndOf(cfg, db, pending, now, Browser(SaveCode(userID, sid, p, now)), d) ==
              End(db.PutCode(NewCode(cfg, d.first, userID, sid, p, now)).AddSessionClient(sid, p.clientID), pending, Redirect(d.first))
  {
    EndAfterStep(cfg, db, pending, now, Browser(SaveCode(userID, sid, p, now)), d);
    BrowserGoes(cfg, db.PutCode(NewCode(cfg, d.first, userID, sid, p, now)), pending, now, IndexClient(sid, p.clientID), d);
  }

  lemma IssueGoes(cfg: Config, db: Db, pending: map<string, PendingAuth>, now: Time, browser: Option<string>, userID: string,
                  p: PendingAuth, d: Draws)
    ensures EndOf(cfg, db, pending, now, Browser(Lookup(browser, ForIssue(userID, p, now))), d) ==
              Issued(cfg, db, pending, now, browser, userID, p, d)
  {
    LookupGoes(cfg, db, pending, now, browser, ForIssue(userID, p, now), d);
    var (db', sess) := LookedUp(db, browser, now);
    CodeGoes(cfg, db', pending, now, userID, if sess.None? then "" else sess.value.sid, p, d);
  }

  lemma ParkGoes(cfg: Config, db: Db, pending: map<string, PendingAuth>, now: Time, userID: string, p: PendingAuth, d: Draws)
    ensures EndOf(cfg, db, pending, now, Browser(Park(userID, p)), d) == End(db, pending[d.first := p], ConsentPage(d.first))
  {
    EndAfterStep(cfg, db, pending, now, Browser(Park(userID, p)), d);
    EndOfDone(cfg, db, pending[d.first := p], now, d);
  }

  /** What deciding on a pending request comes to. */
  function Decided(cfg: Config, db: Db, pending: map<string, PendingAuth>, now: Time, cookie: string, userID: string,
                   reqID: string, allow: bool, d: Draws): End
  {
    if reqID !in pending then End(db, pending, Refused)
    else
      var p := pending[reqID];
      if p.expiresAt <= now || !allow then End(db, pending - {reqID}, Refused)
      else Issued(cfg, db.PutConsent(Consent(userID, p.clientID, p.scopes)), pending - {reqID}, now, Some(cookie), userID, p, d)
  }

  lemma ConsentGoes(cfg: Config, db: Db, pending: map<string, PendingAuth>, now: Time, cookie: string, userID: string,
                    p: PendingAuth, allow: bool, d: Draws)
    ensures EndOf(cfg, db, pending, now, Browser(Decide(cookie, userID, p, allow)), d) ==
              if p.expiresAt <= now || !allow then End(db, pending, Refused)
              else Issued(cfg, db.PutConsent(Consent(userID, p.clientID, p.scopes)), pending, now, Some(cookie), userID, p, d)
  {
    BrowserGoes(cfg, db, pending, now, Decide(cookie, userID, p, allow), d);
    if p.expiresAt > now && allow {
      BrowserGoes(cfg, db, pending, now, SaveConsent(cookie, userID, p, now), d);
      IssueGoes(cfg, db.PutConsent(Consent(userID, p.clientID, p.scopes)), pending, now, Some(cookie), userID, p, d);
    }
  }

  lemma DecisionGoes(cfg: Config, db: Db, pending: map<string, PendingAuth>, now: Time, cookie: string, userID: string,
                     reqID: string, allow: bool, d: Draws)
    ensures EndOf(cfg, db, pending, now, Browser(TakePending(cookie, userID, reqID, allow)), d) ==
              Decided(cfg, db, pending, now, cookie, userID, reqID, allow, d)
  {
    BrowserGoes(cfg, db, pending, now, TakePending(cookie, userID, reqID, allow), d);
    if reqID in pending { ConsentGoes(cfg, db, pending - {reqID}, now, cookie, userID, pending[reqID], allow, d); }
  }

  lemma RevokeGoes(cfg: Config, db: Db, pending: map<string, PendingAuth>, now: Time, f: string, d: Draws)
    ensures EndOf(cfg, db, pending, now, Token(Revoke(f)), d) == End(db.RevokeFamily(f), pending, Refused)
  {
    TokenGoes(cfg, db, pending, now, Revoke(f), d);
  }

  lemma ReuseGoes(cfg: Config, db: Db, pending: map<string, PendingAuth>, now: Time, rreq: RefreshRequest, d: Draws)
    ensures EndOf(cfg, db, pending, now, Token(RefreshReuse(rreq)), d) ==
              End(if rreq.token in db.refresh then db.RevokeFamily(db.refresh[rreq.token].familyID) else db, pending, Refused)
  {
    TokenGoes(cfg, db, pending, now, RefreshReuse(rreq), d);
    if rreq.token in db.refresh { RevokeGoes(cfg, db, pending, now, db.refresh[rreq.token].familyID, d); }
  }
}

/** Logout and its fan-out (internal/web/end_session.go). The methods are Server's; they live here beside what they promise. */
module Logout {
  import opened Wrappers
  import opened Sorting
  import opened Domain
  import opened Grants
  import opened Atomic
  import opened MemoryStore
  import opened SessionService
  import opened Ends
  import opened WebServer
  import Accounts
  import Fanout

  /** The library calls of logout. frame is a front-channel URI with iss and sid added, None where it does not parse;
      parses is oauth.ParseRedirectURI; works says that random, signing and request building succeed for a client. */
  datatype Library = Library(frame: (string, string) -> Option<string>, parses: string -> bool, works: string -> bool)

  datatype LogoutToken = LogoutToken(audience: string, subject: string, sid: string, jti: string, issuedAt: Time)

  /** The clients of the session that are notified over the back channel. */
  ghost function BackChannelTargets(lib: Library, db: Db, sid: string): set<string> {
    set id | id in FanOut(db.sidRP, sid) && id in db.clients && db.clients[id].backChannelURI != ""
             && lib.parses(db.clients[id].backChannelURI) && lib.works(id)
  }

  predicate HasFrame(lib: Library, clients: map<string, Client>, sid: string, id: string) {
    id in clients && clients[id].frontChannelURI != "" && lib.frame(clients[id].frontChannelURI, sid).Some?
  }

  /** The front-channel URLs of the clients of the session. */
  ghost function Frames(lib: Library, clients: map<string, Client>, sid: string, ids: set<string>): set<string> {
    set id | id in ids && HasFrame(lib, clients, sid, id) :: lib.frame(clients[id].frontChannelURI, sid).value
  }

  /** One token for each listed client: that client as audience, this session, and a jti of its own. */
  ghost predicate OneTokenEach(db: Db, ids: seq<string>, sent: seq<LogoutToken>, sid: string, subject: string, now: Time) {
    && |sent| == |ids| && StrictlySorted(ids)
    && (forall i | 0 <= i < |ids| :: ids[i] in db.clients && sent[i].audience == db.clients[ids[i]].id
                                     && sent[i].sid == sid && sent[i].subject == subject && sent[i].issuedAt == now)
    && (forall i, j | 0 <= i < j < |sent| :: sent[i].jti != sent[j].jti)
  }

  ghost predicate Injective(jti: nat -> string) { forall i, j | i < j :: jti(i) != jti(j) }

  lemma NextTarget(lib: Library, db: Db, sid: string, clients: seq<string>, i: nat)
    requires i < |clients| && StrictlySorted(clients) && Elements(clients) == FanOut(db.sidRP, sid)
    ensures forall x | x in clients[..i] :: Less(x, clients[i])
    ensures var targets := BackChannelTargets(lib, db, sid);
            targets * Elements(clients[..i + 1]) ==
              targets * Elements(clients[..i]) + if clients[i] in targets then {clients[i]} else {}
    ensures var id := clients[i];
            id in BackChannelTargets(lib, db, sid) <==>
              id in db.clients && db.clients[id].backChannelURI != "" && lib.parses(db.clients[id].backChannelURI) && lib.works(id)
  {
    assert clients[..i + 1] == clients[..i] + [clients[i]] && clients[i] in Elements(clients);
  }

  lemma OneTokenMore(db: Db, ids: seq<string>, sent: seq<LogoutToken>, sid: string, subject: string, now: Time, id: string, jti: string)
    requires OneTokenEach(db, ids, sent, sid, subject, now) && id in db.clients
    requires (forall x | x in ids :: Less(x, id)) && forall k | 0 <= k < |sent| :: sent[k].jti != jti
    ensures OneTokenEach(db, ids + [id], sent + [LogoutToken(db.clients[id].id, subject, sid, jti, now)], sid, subject, now)
  {
  }

  /** One token for each of these clients, in client order. */
  ghost predicate SentTo(db: Db, targets: set<string>, sent: seq<LogoutToken>, sid: string, subject: string, now: Time) {
    exists ids :: OneTokenEach(db, ids, sent, sid, subject, now) && Elements(ids) == targets
  }

  /** notifyBackChannel: one attempt for each target, in client order. jti is the supply of random tokens. */
  method NotifyBackChannel(server: Server, lib: Library, sid: string, subject: string, now: Time, jti: nat -> string)
    returns (sent: seq<LogoutToken>)
    requires Injective(jti)
    ensures var db := server.store.View();
            SentTo(db, if sid == "" then {} else BackChannelTargets(lib, db, sid), sent, sid, subject, now)
  {
    sent := [];
    ghost var ids: seq<string> := [];
    ghost var db := server.store.View();
    if sid == "" {
      assert OneTokenEach(db, ids, sent, sid, subject, now);
      return;
    }
    var clients := server.store.ListSessionClients(sid);
    for i := 0 to |clients|
      invariant OneTokenEach(db, ids, sent, sid, subject, now)
      invariant forall k | 0 <= k < |sent| :: sent[k].jti == jti(k)
      invariant Elements(ids) == BackChannelTargets(lib, db, sid) * Elements(clients[..i])
    {
      var cid := clients[i];
      NextTarget(lib, db, sid, clients, i);
      var c := server.store.GetClient(cid);
      if c.Err? || c.value.backChannelURI == "" {
        continue;
      }
      if !lib.parses(c.value.backChannelURI) {
        continue;
      }
      if !lib.works(cid) {
        continue;
      }
      forall x | x in ids ensures Less(x, cid) { assert x in Elements(ids) && x in Elements(clients[..i]); }
      assert Elements(ids + [cid]) == Elements(ids) + {cid};
      OneTokenMore(db, ids, sent, sid, subject, now, cid, jti(|sent|));
      sent := sent + [LogoutToken(c.value.id, subject, sid, jti(|sent|), now)];
      ids := ids + [cid];
    }
    AllListed(lib, db, sid, clients);
  }

  lemma AllListed(lib: Library, db: Db, sid: string, clients: seq<string>)
    requires Elements(clients) == FanOut(db.sidRP, sid)
    ensures BackChannelTargets(lib, db, sid) * Elements(clients[..|clients|]) == BackChannelTargets(lib, db, sid)
  {
    assert clients[..|clients|] == clients;
  }

  /** frontChannelIFrames */
  method FrontChannelIFrames(server: Server, lib: Library, sid: string) returns (out: seq<string>)
    ensures NoDuplicates(out)
    ensures var db := server.store.View();
            && Elements(out) == (if sid == "" then {} else Frames(lib, db.clients, sid, FanOut(db.sidRP, sid)))
            && forall url :: url in out <==>
                 sid != "" && exists id :: id in FanOut(db.sidRP, sid) && id in db.clients && db.clients[id].frontChannelURI != ""
                                           && lib.frame(db.clients[id].frontChannelURI, sid) == Some(url)
  {
    out := [];
    if sid == "" {
      return;
    }
    var ids := server.store.ListSessionClients(sid);
    var seen: set<string> := {};
    for i := 0 to |ids|
      invariant NoDuplicates(out) && seen == Elements(out)
      invariant Elements(out) == Frames(lib, server.store.clients, sid, Elements(ids[..i]))
    {
      var id := ids[i];
      NextFrame(lib, server.store.clients, sid, ids, i);
      var c := server.store.GetClient(id);
      if c.Err? || c.value.frontChannelURI == "" {
        continue;
      }
      var src := lib.frame(c.value.frontChannelURI, sid);
      if src.None? {
        continue;
      }
      if src.value in seen {
        continue;
      }
      seen := seen + {src.value};
      ghost var was := out;
      out := out + [src.value];
      assert Elements(out) == Elements(was) + {src.value};
    }
    assert ids[..|ids|] == ids;
    FramesAre(lib, server.store.clients, sid, FanOut(server.store.sidRP, sid), out);
  }

  lemma FramesAre(lib: Library, clients: map<string, Client>, sid: string, ids: set<string>, out: seq<string>)
    requires Elements(out) == Frames(lib, clients, sid, ids)
    ensures forall url :: url in out <==>
              exists id :: id in ids && id in clients && clients[id].frontChannelURI != ""
                           && lib.frame(clients[id].frontChannelURI, sid) == Some(url)
  {
    forall url ensures url in out <==> url in Frames(lib, clients, sid, ids) { assert url in out <==> url in Elements(out); }
  }

  lemma NextFrame(lib: Library, clients: map<string, Client>, sid: string, ids: seq<string>, i: nat)
    requires i < |ids|
    ensures Frames(lib, clients, sid, Elements(ids[..i + 1])) ==
              Frames(lib, clients, sid, Elements(ids[..i]))
              + (if HasFrame(lib, clients, sid, ids[i]) then {lib.frame(clients[ids[i]].frontChannelURI, sid).value} else {})
  {
    assert ids[..i + 1] == ids[..i] + [ids[i]];
    assert Elements(ids[..i + 1]) == Elements(ids[..i]) + {ids[i]};
  }

  /** endBrowserSession */
  method EndBrowserSession(server: Server, browser: Option<string>, now: Time) returns (sid: string)
    requires server.Valid() && Fanout.SessionsKeyed(server.store.sessions)
    modifies server.store
    ensures server.store.View() == if browser.None? then old(server.store.View()) else old(server.store.View()).DeleteSession(browser.value)
    ensures var sess := LookedUp(old(server.store.View()), browser, now).1; sid == if sess.Some? then sess.value.sid else ""
  {
    sid := "";
    if browser.Some? {
      var sess := server.sessions.LookupSession(browser, now);
      if sess.Some? {
        sid := sess.value.sid;
      }
      server.sessions.End(browser);
      DeletedTwice(old(server.store.View()), browser.value);
    }
  }

  lemma DeletedTwice(db: Db, h: string)
    requires h in db.sessions ==> db.sessions[h].tokenHash == h
    ensures db.DeleteSession(h).DeleteSession(h) == db.DeleteSession(h)
  {
  }

  /** The session a browser has at the instant of its logout. */
  function LiveSID(db: Db, browser: Option<string>, now: Time): string {
    var sess := LookedUp(db, browser, now).1;
    if sess.Some? then sess.value.sid else ""
  }

  /** The user of the live session, as the subject of logout tokens. */
  ghost function SubjectOf(db: Db, browser: Option<string>, now: Time): string {
    var user := UserFound(db, browser, now).1;
    if user.Some? then user.value else ""
  }

  /** finishLogout, up to the page it renders. */
  method FinishLogout(server: Server, lib: Library, browser: Option<string>, now: Time, jti: nat -> string)
    returns (sent: seq<LogoutToken>, frames: seq<string>)
    requires server.Valid() && Fanout.SessionsKeyed(server.store.sessions) && Injective(jti)
    modifies server.store
    ensures server.store.View() == if browser.None? then old(server.store.View()) else old(server.store.View()).DeleteSession(browser.value)
    ensures var db := old(server.store.View());
            var sid, subject := LiveSID(db, browser, now), SubjectOf(db, browser, now);
            && SentTo(db, if sid == "" then {} else BackChannelTargets(lib, db, sid), sent, sid, subject, now)
            && NoDuplicates(frames)
            && Elements(frames) == (if sid == "" then {} else Frames(lib, db.clients, sid, FanOut(db.sidRP, sid)))
  {
    ghost var db := server.store.View();
    var sid := server.CurrentSID(browser, now);
    LookupLeaves(db, browser, now);
    var user := server.CurrentUser(browser, now);
    var subject := if user.Some? then user.value else "";
    sent := NotifyBackChannel(server, lib, sid, subject, now, jti);
    frames := FrontChannelIFrames(server, lib, sid);
    var gone := EndBrowserSession(server, browser, now);
  }

  /** Looking a session up deletes at most that session, and then only if it has expired. */
  lemma LookupLeaves(db: Db, browser: Option<string>, now: Time)
    requires Fanout.SessionsKeyed(db.sessions)
    ensures var (db', sess) := LookedUp(db, browser, now);
            && Fanout.SessionsKeyed(db'.sessions) && (sess.Some? ==> db' == db)
            && LookedUp(db', browser, now) == (db', sess)
            && (browser.Some? ==> db'.DeleteSession(browser.value) == db.DeleteSession(browser.value))
            && (browser.None? ==> db' == db)
  {
  }

  /** What the notifications name: the SID and the user of a live session, the user only while the account is enabled. */
  lemma LogoutReads(db: Db, browser: Option<string>, now: Time)
    ensures var live := browser.Some? && browser.value in db.sessions && db.sessions[browser.value].expiresAt > now;
            && LiveSID(db, browser, now) == (if live then db.sessions[browser.value].sid else "")
            && SubjectOf(db, browser, now) ==
                 if live && db.sessions[browser.value].userID in db.users && !db.users[db.sessions[browser.value].userID].disabled
                 then db.sessions[browser.value].userID else ""
  {
  }

  // ----- What logout promises, when requests are served one at a time -----

  /** After logout the session and its fan-out set are gone; every other session and set is as it was. */
  lemma LogoutEndsOneSession(cfg: Config, s: Sys, h: string)
    requires AtomicReachable(cfg, s) && h in s.db.sessions
    ensures var db', sid := s.db.DeleteSession(h), s.db.sessions[h].sid;
            && h !in db'.sessions && sid !in db'.sidRP && !Fanout.Stored(db'.sessions, sid)
            && (forall k | k in s.db.sessions && k != h ::
                  && k in db'.sessions && db'.sessions[k] == s.db.sessions[k]
                  && FanOut(db'.sidRP, s.db.sessions[k].sid) == FanOut(s.db.sidRP, s.db.sessions[k].sid))
            && (forall k | k in db'.sessions :: k in s.db.sessions)
  {
    Fanout.AtomicInv(cfg, s);
    DeletesOne(s.db, h);
  }

  lemma DeletesOne(db: Db, h: string)
    requires Fanout.Exact(db) && h in db.sessions
    ensures var db', sid := db.DeleteSession(h), db.sessions[h].sid;
            && h !in db'.sessions && sid !in db'.sidRP && !Fanout.Stored(db'.sessions, sid)
            && (forall k | k in db.sessions && k != h ::
                  && k in db'.sessions && db'.sessions[k] == db.sessions[k]
                  && FanOut(db'.sidRP, db.sessions[k].sid) == FanOut(db.sidRP, db.sessions[k].sid))
            && (forall k | k in db'.sessions :: k in db.sessions)
  {
    var db' := db.DeleteSession(h);
    assert db'.sessions == db.sessions - {h} && db'.sidRP == db.sidRP - {db.sessions[h].sid};
    OneGone(db.sessions, h);
    forall k | k in db.sessions && k != h ensures FanOut(db'.sidRP, db.sessions[k].sid) == FanOut(db.sidRP, db.sessions[k].sid) {
      assert db.sessions[k].sid != db.sessions[h].sid;
    }
  }

  lemma OneGone(sessions: map<string, Session>, h: string)
    requires Fanout.SessionsKeyed(sessions) && h in sessions
    ensures !Fanout.Stored(sessions - {h}, sessions[h].sid)
    ensures forall k | k in sessions && k != h :: sessions[k].sid != sessions[h].sid
  {
  }

  /** Every client that holds an access token tied to the session, and has a usable back channel, is sent a logout token:
      in whatever is sent to the targets of the session, one token has that client as its audience. */
  lemma TokenHoldersAreNotified(cfg: Config, s: Sys, lib: Library, h: string, a: string, sent: seq<LogoutToken>, subject: string)
    requires AtomicReachable(cfg, s) && h in s.db.sessions
    requires a in s.db.access && s.db.access[a].terms.sid == s.db.sessions[h].sid
    requires var id := s.db.access[a].terms.clientID;
             id in s.db.clients && s.db.clients[id].backChannelURI != "" && lib.parses(s.db.clients[id].backChannelURI) && lib.works(id)
    requires var sid := s.db.sessions[h].sid;
             SentTo(s.db, if sid == "" then {} else BackChannelTargets(lib, s.db, sid), sent, sid, subject, s.now)
    ensures exists i :: 0 <= i < |sent| && sent[i].audience == s.db.access[a].terms.clientID && sent[i].sid == s.db.sessions[h].sid
  {
    var id, sid := s.db.access[a].terms.clientID, s.db.sessions[h].sid;
    Fanout.TokenHoldersAreListed(cfg, s, h);
    Fanout.AtomicInv(cfg, s);
    AtomicIsReachable(cfg, s);
    Accounts.ReachableClients(cfg, s);
    assert sid != "" && id in BackChannelTargets(lib, s.db, sid) && s.db.clients[id].id == id;
    SentToEach(s.db, BackChannelTargets(lib, s.db, sid), sent, sid, subject, s.now, id);
  }

  /** In every state of every run: what is sent when the session with that SID ends goes exactly to the listed clients that
      have a back channel that parses and for which a request can be built, to each once, with a jti of its own. */
  lemma NotifiedExactly(cfg: Config, s: Sys, lib: Library, sid: string, sent: seq<LogoutToken>, subject: string, id: string)
    requires Reachable(cfg, s) && sid != "" && SentTo(s.db, BackChannelTargets(lib, s.db, sid), sent, sid, subject, s.now)
    ensures (exists i :: 0 <= i < |sent| && sent[i].audience == id) <==>
              && id in FanOut(s.db.sidRP, sid) && id in s.db.clients
              && s.db.clients[id].backChannelURI != "" && lib.parses(s.db.clients[id].backChannelURI) && lib.works(id)
    ensures forall i | 0 <= i < |sent| :: sent[i].sid == sid && sent[i].subject == subject && sent[i].issuedAt == s.now
    ensures forall i, j | 0 <= i < j < |sent| :: sent[i].audience != sent[j].audience && sent[i].jti != sent[j].jti
  {
    Accounts.ReachableClients(cfg, s);
    var targets := BackChannelTargets(lib, s.db, sid);
    var ids :| OneTokenEach(s.db, ids, sent, sid, subject, s.now) && Elements(ids) == targets;
    if i: nat :| i < |sent| && sent[i].audience == id { assert ids[i] == id && id in Elements(ids); }
    if id in targets { SentToEach(s.db, targets, sent, sid, subject, s.now, id); }
    forall i, j | 0 <= i < j < |sent| ensures sent[i].audience != sent[j].audience { LessTrichotomy(ids[i], ids[j]); }
  }

  lemma SentToEach(db: Db, targets: set<string>, sent: seq<LogoutToken>, sid: string, subject: string, now: Time, id: string)
    requires SentTo(db, targets, sent, sid, subject, now) && id in targets && id in db.clients && db.clients[id].id == id
    ensures exists i :: 0 <= i < |sent| && sent[i].audience == id && sent[i].sid == sid
  {
    var ids :| OneTokenEach(db, ids, sent, sid, subject, now) && Elements(ids) == targets;
    var i :| 0 <= i < |ids| && ids[i] == id;
    assert sent[i].audience == id;
  }
}

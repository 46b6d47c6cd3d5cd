/** POST /token with a refresh token, when requests are served one at a time: it rotates the token, or the family is dead. */
module Replay {
  import opened Wrappers
  import opened Domain
  import opened Ledger
  import opened Grants
  import opened Atomic
  import Lineage
  import Rotation

  /** The presented token is rotated: it is unrevoked, unexpired, presented by its own client, and its user exists. */
  ghost predicate Rotates(db: Db, now: Time, h: string, clientID: string) {
    && h in db.refresh && !db.refresh[h].revoked && db.refresh[h].expiresAt > now
    && db.refresh[h].terms.clientID == clientID && db.refresh[h].terms.userID in db.users
  }

  lemma ServeOn(cfg: Config, db: Db, pending: map<string, PendingAuth>, now: Time, t: TokenThread, d: Draws)
    ensures var r := TokenStep(cfg, db, now, t, Drawing(Token(t), d), d.id);
            Serve(cfg, db, pending, now, Token(t), d).db == Serve(cfg, r.db, pending, now, r.next, d).db
  {
  }

  lemma ServeDone(cfg: Config, db: Db, pending: map<string, PendingAuth>, now: Time, d: Draws)
    ensures Serve(cfg, db, pending, now, Done, d).db == db
  {
  }

  lemma ServeRevoke(cfg: Config, db: Db, pending: map<string, PendingAuth>, now: Time, f: string, d: Draws)
    ensures Serve(cfg, db, pending, now, Token(Revoke(f)), d).db == db.RevokeFamily(f)
  {
    ServeOn(cfg, db, pending, now, Revoke(f), d);
    ServeDone(cfg, db.RevokeFamily(f), pending, now, d);
  }

  lemma ServeChild(cfg: Config, db: Db, pending: map<string, PendingAuth>, now: Time, g: Grant, a: string, d: Draws)
    ensures Serve(cfg, db, pending, now, Token(GrantRefresh(g, a)), d).db == db.PutRefresh(NewRefresh(cfg, d.second, d.id, g, now))
  {
    var row := NewRefresh(cfg, d.second, d.id, g, now);
    ServeOn(cfg, db, pending, now, GrantRefresh(g, a), d);
    ServeOn(cfg, db.PutRefresh(row), pending, now, Respond(g, a, Some(row)), d);
    ServeDone(cfg, db.PutRefresh(row), pending, now, d);
  }

  /** The rest of a rotation that passed its checks. */
  lemma ServeGrant(cfg: Config, db: Db, pending: map<string, PendingAuth>, now: Time, g: Grant, d: Draws)
    requires g.withRefresh && g.family != ""
    ensures Serve(cfg, db, pending, now, Token(GrantUser(g)), d).db.refresh ==
              if g.terms.userID in db.users then db.refresh[d.second := NewRefresh(cfg, d.second, d.id, g, now)] else db.refresh
  {
    ServeOn(cfg, db, pending, now, GrantUser(g), d);
    if g.terms.userID in db.users { ServeTokens(cfg, db, pending, now, g, d); } else { ServeDone(cfg, db, pending, now, d); }
  }

  lemma ServeTokens(cfg: Config, db: Db, pending: map<string, PendingAuth>, now: Time, g: Grant, d: Draws)
    requires g.withRefresh
    ensures Serve(cfg, db, pending, now, Token(GrantAccess(g)), d).db.refresh ==
              db.refresh[d.second := NewRefresh(cfg, d.second, d.id, g, now)]
  {
    ServeOn(cfg, db, pending, now, GrantAccess(g), d);
    ServeChild(cfg, db.PutAccess(AccessToken(d.first, g.terms, now + cfg.accessTTL)), pending, now, g, d.first, d);
  }

  ghost predicate Presents(cfg: Config, db: Db, rreq: RefreshRequest, client: string) {
    && Authenticated(cfg, db, rreq.clientID, rreq.secret).Some? && Authenticated(cfg, db, rreq.clientID, rreq.secret).value.id == client
    && rreq.token in db.refresh && db.refresh[rreq.token].familyID != "" && db.refresh[rreq.token].hash == rreq.token
  }

  /** A used token. */
  lemma ServeReplay(cfg: Config, db: Db, pending: map<string, PendingAuth>, now: Time, rreq: RefreshRequest, client: string, d: Draws)
    requires Presents(cfg, db, rreq, client) && db.refresh[rreq.token].revoked
    ensures Serve(cfg, db, pending, now, Token(RefreshClient(rreq)), d).db == db.RevokeFamily(db.refresh[rreq.token].familyID)
  {
    ServeOn(cfg, db, pending, now, RefreshClient(rreq), d);
    ServeOn(cfg, db, pending, now, RefreshTake(rreq, client), d);
    ServeOn(cfg, db, pending, now, RefreshReuse(rreq), d);
    ServeRevoke(cfg, db, pending, now, db.refresh[rreq.token].familyID, d);
  }

  /** An unused token is taken, and then checked. */
  lemma ServeLive(cfg: Config, db: Db, pending: map<string, PendingAuth>, now: Time, rreq: RefreshRequest, client: string, d: Draws)
    requires Presents(cfg, db, rreq, client) && !db.refresh[rreq.token].revoked
    ensures Serve(cfg, db, pending, now, Token(RefreshClient(rreq)), d).db ==
              Serve(cfg, db.TakeRefresh(rreq.token).0, pending, now,
                    Token(RefreshCheck(client, db.refresh[rreq.token].(revoked := true))), d).db
  {
    ServeOn(cfg, db, pending, now, RefreshClient(rreq), d);
    ServeOn(cfg, db, pending, now, RefreshTake(rreq, client), d);
  }

  lemma ServeCheck(cfg: Config, db: Db, pending: map<string, PendingAuth>, now: Time, client: string, token: RefreshToken, d: Draws)
    requires token.familyID != ""
    ensures Serve(cfg, db, pending, now, Token(RefreshCheck(client, token)), d).db.refresh ==
              if token.expiresAt <= now || token.terms.clientID != client then db.RevokeFamily(token.familyID).refresh
              else if token.terms.userID !in db.users then db.refresh
              else db.refresh[d.second := RefreshToken(d.second, token.familyID, token.terms, now + cfg.refreshTTL, false)]
  {
    ServeOn(cfg, db, pending, now, RefreshCheck(client, token), d);
    if token.expiresAt <= now || token.terms.clientID != client {
      ServeRevoke(cfg, db, pending, now, token.familyID, d);
    } else {
      var terms := Terms(client, token.terms.userID, token.terms.scopes, token.terms.sid);
      assert terms == token.terms;
      ServeGrant(cfg, db, pending, now, Grant(terms, true, token.familyID, FromRefresh(token.hash)), d);
    }
  }

  function RefreshedRows(cfg: Config, db: Db, now: Time, h: string, client: string, child: string): map<string, RefreshToken>
    requires h in db.refresh
  {
    var row := db.refresh[h];
    if row.revoked then db.RevokeFamily(row.familyID).refresh
    else
      var taken := db.TakeRefresh(h).0;
      if row.expiresAt <= now || row.terms.clientID != client then taken.RevokeFamily(row.familyID).refresh
      else if row.terms.userID !in db.users then taken.refresh
      else taken.refresh[child := RefreshToken(child, row.familyID, row.terms, now + cfg.refreshTTL, false)]
  }

  /** The refresh rows after the whole request. */
  lemma ServeRefresh(cfg: Config, db: Db, pending: map<string, PendingAuth>, now: Time, rreq: RefreshRequest, client: string, d: Draws)
    requires Presents(cfg, db, rreq, client)
    ensures Serve(cfg, db, pending, now, Token(RefreshClient(rreq)), d).db.refresh ==
              RefreshedRows(cfg, db, now, rreq.token, client, d.second)
  {
    if db.refresh[rreq.token].revoked {
      ServeReplay(cfg, db, pending, now, rreq, client, d);
    } else {
      ServeLive(cfg, db, pending, now, rreq, client, d);
      ServeCheck(cfg, db.TakeRefresh(rreq.token).0, pending, now, client, db.refresh[rreq.token].(revoked := true), d);
    }
  }

  lemma RevokeKillsOne(db: Db, f: string)
    ensures Rotation.AllRevoked(db.RevokeFamily(f).refresh, f) && OthersSame(db.refresh, db.RevokeFamily(f).refresh, f)
  {
  }

  lemma UpdateIsOwn(refresh: map<string, RefreshToken>, h: string, row: RefreshToken)
    requires h in refresh ==> refresh[h].familyID == row.familyID
    ensures OthersSame(refresh, refresh[h := row], row.familyID)
  {
  }

  lemma OthersSameTrans(r0: map<string, RefreshToken>, r1: map<string, RefreshToken>, r2: map<string, RefreshToken>, f: string)
    requires OthersSame(r0, r1, f) && OthersSame(r1, r2, f)
    ensures OthersSame(r0, r2, f)
  {
  }

  /** Whether the family survives, and that no other family is touched. */
  lemma RefreshedFamilies(cfg: Config, db: Db, now: Time, h: string, client: string, child: string)
    requires h in db.refresh && child !in db.refresh
    requires !db.refresh[h].revoked ==> Rotation.AllRevoked(db.TakeRefresh(h).0.refresh, db.refresh[h].familyID)
    ensures var refresh', f := RefreshedRows(cfg, db, now, h, client, child), db.refresh[h].familyID;
            (Rotation.AllRevoked(refresh', f) <==> !Rotates(db, now, h, client)) && OthersSame(db.refresh, refresh', f)
  {
    if db.refresh[h].revoked {
      RevokeKillsOne(db, db.refresh[h].familyID);
    } else {
      TakenFamilies(cfg, db, now, h, client, child);
    }
  }

  lemma TakenFamilies(cfg: Config, db: Db, now: Time, h: string, client: string, child: string)
    requires h in db.refresh && child !in db.refresh && !db.refresh[h].revoked
    requires Rotation.AllRevoked(db.TakeRefresh(h).0.refresh, db.refresh[h].familyID)
    ensures var refresh', f := RefreshedRows(cfg, db, now, h, client, child), db.refresh[h].familyID;
            (Rotation.AllRevoked(refresh', f) <==> !Rotates(db, now, h, client)) && OthersSame(db.refresh, refresh', f)
  {
    var row, taken := db.refresh[h], db.TakeRefresh(h).0;
    var born := RefreshToken(child, row.familyID, row.terms, now + cfg.refreshTTL, false);
    assert taken.refresh == db.refresh[h := row.(revoked := true)];
    UpdateIsOwn(db.refresh, h, row.(revoked := true));
    if row.expiresAt <= now || row.terms.clientID != client {
      RevokeKillsOne(taken, row.familyID);
      OthersSameTrans(db.refresh, taken.refresh, taken.RevokeFamily(row.familyID).refresh, row.familyID);
    } else if row.terms.userID in db.users {
      UpdateIsOwn(taken.refresh, child, born);
      OthersSameTrans(db.refresh, taken.refresh, taken.refresh[child := born], row.familyID);
      BornIsLive(taken.refresh, child, born);
    }
  }

  lemma BornIsLive(refresh: map<string, RefreshToken>, h: string, row: RefreshToken)
    requires !row.revoked
    ensures !Rotation.AllRevoked(refresh[h := row], row.familyID)
  {
    assert refresh[h := row][h] == row;
  }

  ghost predicate OthersSame(refresh: map<string, RefreshToken>, refresh': map<string, RefreshToken>, f: string) {
    && (forall h | h in refresh && refresh[h].familyID != f :: h in refresh' && refresh'[h] == refresh[h])
    && (forall h | h in refresh' && refresh'[h].familyID != f :: h in refresh && refresh[h] == refresh'[h])
  }

  lemma TakingTheLiveOne(s: Sys, h: string)
    requires Lineage.Inv(s) && h in s.db.refresh && !s.db.refresh[h].revoked
    ensures Rotation.AllRevoked(s.db.TakeRefresh(h).0.refresh, s.db.refresh[h].familyID)
  {
    var w := Lineage.ForestOf(s);
    LiveIsNewest(w, h);
    forall k | k in s.db.refresh && s.db.refresh[k].familyID == s.db.refresh[h].familyID && !s.db.refresh[k].revoked
      ensures k == h
    {
      assert w.rows[k] == Row(s.db.refresh[k].familyID, false) && w.rows[h] == Row(s.db.refresh[h].familyID, false);
      LiveIsNewest(w, k);
    }
  }

  /** Presenting any stored token of a family, by a client that authenticates, rotates it or leaves the whole family
      revoked: it rotates exactly when the token is live, unexpired, the client's own, and its user exists.
      No other family changes. */
  lemma PresentedTokenRotatesOrKills(cfg: Config, s: Sys, tid: nat, rreq: RefreshRequest, d: Draws)
    requires AtomicReachable(cfg, s) && tid !in s.threads && d.Fresh(s.used)
    requires Authenticated(cfg, s.db, rreq.clientID, rreq.secret).Some? && rreq.token in s.db.refresh
    ensures var s' := ServeRequest(cfg, s, tid, Token(RefreshClient(rreq)), d);
            var f := s.db.refresh[rreq.token].familyID;
            && (Rotation.AllRevoked(s'.db.refresh, f) <==>
                  !Rotates(s.db, s.now, rreq.token, Authenticated(cfg, s.db, rreq.clientID, rreq.secret).value.id))
            && OthersSame(s.db.refresh, s'.db.refresh, f)
  {
    AtomicIsReachable(cfg, s);
    Rotation.ReachableInv(cfg, s);
    var client := Authenticated(cfg, s.db, rreq.clientID, rreq.secret).value.id;
    assert s.db.refresh[rreq.token].familyID in s.used;
    ServeRefresh(cfg, s.db, s.pending, s.now, rreq, client, d);
    if !s.db.refresh[rreq.token].revoked { TakingTheLiveOne(s, rreq.token); }
    RefreshedFamilies(cfg, s.db, s.now, rreq.token, client, d.second);
  }

  lemma ReplayKills(cfg: Config, s: Sys, tid: nat, rreq: RefreshRequest, d: Draws)
    requires AtomicReachable(cfg, s) && tid !in s.threads && d.Fresh(s.used)
    requires Authenticated(cfg, s.db, rreq.clientID, rreq.secret).Some?
    requires rreq.token in s.db.refresh && s.db.refresh[rreq.token].revoked
    ensures var s', f := ServeRequest(cfg, s, tid, Token(RefreshClient(rreq)), d), s.db.refresh[rreq.token].familyID;
            AtomicReachable(cfg, s') && Rotation.Dead(s', f) && Rotation.Silent(s', f)
  {
    PresentedTokenRotatesOrKills(cfg, s, tid, rreq, d);
    ServedIsReachable(cfg, s, tid, Token(RefreshClient(rreq)), d);
    AtomicIsReachable(cfg, s);
    ReplayedIsStored(cfg, s, tid, rreq, d);
    KilledIsDead(cfg, ServeRequest(cfg, s, tid, Token(RefreshClient(rreq)), d), s.db.refresh[rreq.token].familyID, rreq.token);
  }

  /** Replaying a token that was already used kills its family for ever: in every later state every token of the family
      is revoked, none has been added, and no response carries one. */
  lemma ReplayKillsFamilyForEver(cfg: Config, s: Sys, tid: nat, rreq: RefreshRequest, d: Draws, s'': Sys, n: nat)
    requires AtomicReachable(cfg, s) && tid !in s.threads && d.Fresh(s.used)
    requires Authenticated(cfg, s.db, rreq.clientID, rreq.secret).Some?
    requires rreq.token in s.db.refresh && s.db.refresh[rreq.token].revoked
    requires AtomicLeads(cfg, ServeRequest(cfg, s, tid, Token(RefreshClient(rreq)), d), s'', n)
    ensures var s', f := ServeRequest(cfg, s, tid, Token(RefreshClient(rreq)), d), s.db.refresh[rreq.token].familyID;
            && Rotation.AllRevoked(s''.db.refresh, f)
            && Chain(Lineage.Mints(s''.log), f) == Chain(Lineage.Mints(s'.log), f)
            && Rotation.Carried(s''.log, f) == Rotation.Carried(s'.log, f)
  {
    ReplayKills(cfg, s, tid, rreq, d);
    DeadForAtomicRuns(cfg, ServeRequest(cfg, s, tid, Token(RefreshClient(rreq)), d), s'', n, s.db.refresh[rreq.token].familyID);
  }

  lemma DeadForAtomicRuns(cfg: Config, s: Sys, s': Sys, n: nat, f: string)
    requires AtomicReachable(cfg, s) && Rotation.Dead(s, f) && Rotation.Silent(s, f) && AtomicLeads(cfg, s, s', n)
    ensures Rotation.Dead(s', f) && Chain(Lineage.Mints(s'.log), f) == Chain(Lineage.Mints(s.log), f)
    ensures Rotation.Carried(s'.log, f) == Rotation.Carried(s.log, f)
  {
    AtomicIsReachable(cfg, s);
    var k := AtomicRunIsARun(cfg, s, s', n);
    Rotation.FamilyDeathIsPermanent(cfg, s, s', k, f);
    Rotation.DeadFamilyIsNeverAnswered(cfg, s, s', k, f);
  }

  lemma ReplayedIsStored(cfg: Config, s: Sys, tid: nat, rreq: RefreshRequest, d: Draws)
    requires Reachable(cfg, s) && rreq.token in s.db.refresh && s.db.refresh[rreq.token].revoked
    requires Authenticated(cfg, s.db, rreq.clientID, rreq.secret).Some?
    ensures var s' := ServeRequest(cfg, s, tid, Token(RefreshClient(rreq)), d);
            rreq.token in s'.db.refresh && s'.db.refresh[rreq.token].familyID == s.db.refresh[rreq.token].familyID
  {
    Rotation.ReachableInv(cfg, s);
    assert s.db.refresh[rreq.token].familyID in s.used;
    ServeReplay(cfg, s.db, s.pending, s.now, rreq, Authenticated(cfg, s.db, rreq.clientID, rreq.secret).value.id, d);
  }

  lemma KilledIsDead(cfg: Config, s: Sys, f: string, h: string)
    requires AtomicReachable(cfg, s) && h in s.db.refresh && s.db.refresh[h].familyID == f && Rotation.AllRevoked(s.db.refresh, f)
    ensures Rotation.Dead(s, f) && Rotation.Silent(s, f)
  {
    NothingInFlight(cfg, s);
    AtomicIsReachable(cfg, s);
    Rotation.RotationLineage(cfg, s, f);
    assert InChain(Chain(Lineage.Mints(s.log), f), h);
  }

  lemma ServedIsReachable(cfg: Config, s: Sys, tid: nat, th: Thread, d: Draws)
    requires AtomicReachable(cfg, s) && IsStart(th) && tid !in s.threads && d.Fresh(s.used)
    ensures AtomicReachable(cfg, ServeRequest(cfg, s, tid, th, d))
  {
    var s0, n :| Init(s0) && AtomicLeads(cfg, s0, s, n);
    assert AtomicEnabled(s, Request(tid, th, d));
    assert AtomicNext(cfg, s, AtomicApply(cfg, s, Request(tid, th, d)));
    AtomicLeadsThen(cfg, s0, s, ServeRequest(cfg, s, tid, th, d), n);
  }
}

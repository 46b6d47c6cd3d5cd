/** When a revoked refresh family can come back: exactly while a rotation that can still pass its checks is in flight. */
module Revival {
  import opened Wrappers
  import opened Sorting
  import opened Domain
  import opened Ledger
  import opened Grants
  import opened Scene
  import Accounts
  import Flows
  import Lineage
  import Rotation

  // ----- A rotation in flight can go on to store a token -----

  lemma Passes(cfg: Config, s: Sys, tid: nat, f: string) returns (s': Sys, g: Grant)
    requires tid in s.threads && s.threads[tid].Token? && s.threads[tid].t.RefreshCheck?
    requires Rotation.CanRevive(s.threads[tid], s.now, f)
    ensures Reaches(cfg, s, s') && Only(s, s', tid, Token(GrantUser(g))) && g.family == f
  {
    var token := s.threads[tid].t.token;
    g := Grant(Terms(token.terms.clientID, token.terms.userID, token.terms.scopes, token.terms.sid), true, f, FromRefresh(token.hash));
    s' := Looks(cfg, s, tid, Token(GrantUser(g)));
  }

  lemma StoresUnrevoked(cfg: Config, s: Sys, tid: nat, g: Grant, a: string) returns (s': Sys)
    requires tid in s.threads && s.threads[tid] == Token(GrantRefresh(g, a)) && g.family != ""
    ensures Reaches(cfg, s, s') && !Rotation.AllRevoked(s'.db.refresh, g.family)
  {
    var t;
    s', t := PastRefresh(cfg, s, tid, g, a);
    assert t.hash in s'.db.refresh && s'.db.refresh[t.hash] == t;
  }

  /** The shape of a request that carries a family: it rotates a token, and its user is an account. */
  lemma RotatingShape(cfg: Config, s: Sys, tid: nat, g: Grant)
    requires Reachable(cfg, s) && tid in s.threads && s.threads[tid].Token? && g.family != ""
    requires var t := s.threads[tid].t; (t.GrantUser? || t.GrantAccess? || t.GrantRefresh?) && t.g == g
    ensures g.withRefresh && g.terms.userID in s.db.users
  {
    Rotation.ReachableInv(cfg, s);
    assert Lineage.ThreadShape(s.threads[tid], s.used);
    Accounts.GrantUserIsKnown(cfg, s, tid, g);
  }

  lemma GoesOn(cfg: Config, s: Sys, tid: nat, f: string) returns (s': Sys)
    requires Reachable(cfg, s) && tid in s.threads && f != ""
    requires s.threads[tid].Token? && !s.threads[tid].t.RefreshCheck? && Rotation.CanRevive(s.threads[tid], s.now, f)
    ensures Reaches(cfg, s, s') && !Rotation.AllRevoked(s'.db.refresh, f)
  {
    var t := s.threads[tid].t;
    RotatingShape(cfg, s, tid, t.g);
    if t.GrantRefresh? {
      s' := StoresUnrevoked(cfg, s, tid, t.g, t.accessHash);
    } else if t.GrantAccess? {
      var m, a := PastAccess(cfg, s, tid, t.g);
      s' := StoresUnrevoked(cfg, m, tid, t.g, a);
      Then(cfg, s, m, s');
    } else {
      var row;
      s', row := Granted(cfg, s, tid, t.g);
      assert row.hash in s'.db.refresh && s'.db.refresh[row.hash] == row;
    }
  }

  lemma Revives(cfg: Config, s: Sys, tid: nat, f: string) returns (s': Sys)
    requires Reachable(cfg, s) && tid in s.threads && Rotation.CanRevive(s.threads[tid], s.now, f) && f != ""
    ensures Reaches(cfg, s, s') && !Rotation.AllRevoked(s'.db.refresh, f)
  {
    if s.threads[tid].t.RefreshCheck? {
      var m, g := Passes(cfg, s, tid, f);
      StillReachable(cfg, s, m);
      s' := GoesOn(cfg, m, tid, f);
      Then(cfg, s, m, s');
    } else {
      s' := GoesOn(cfg, s, tid, f);
    }
  }

  // ----- The exact condition -----

  /** Some later state, in some run, has an unrevoked token of f. */
  ghost predicate ComesBack(cfg: Config, s: Sys, f: string) {
    exists s' :: Reaches(cfg, s, s') && !Rotation.AllRevoked(s'.db.refresh, f)
  }

  /** A family whose tokens are all revoked can come back if and only if a request in flight has taken a token of it and
      is past its checks, or is at its checks with an unexpired token of its own client. */
  lemma RevivedOnlyByRotationInFlight(cfg: Config, s: Sys, f: string)
    requires Reachable(cfg, s) && Chain(Lineage.Mints(s.log), f) != [] && Rotation.AllRevoked(s.db.refresh, f)
    ensures ComesBack(cfg, s, f) <==> Rotation.RevivalInFlight(s, f)
  {
    if Rotation.RevivalInFlight(s, f) {
      var tid :| tid in s.threads && Rotation.CanRevive(s.threads[tid], s.now, f);
      Rotation.ReachableInv(cfg, s);
      Rotation.MintedIsUsed(s, f);
      var s' := Revives(cfg, s, tid, f);
    } else if ComesBack(cfg, s, f) {
      var s' :| Reaches(cfg, s, s') && !Rotation.AllRevoked(s'.db.refresh, f);
      var n :| Leads(cfg, s, s', n);
      Rotation.FamilyDeathIsPermanent(cfg, s, s', n, f);
    }
  }

  /** After RevokeFamily itself: the family it revoked comes back in some run if and only if such a rotation was in flight
      when it ran. */
  lemma RevocationIsFinalUnlessOvertaken(cfg: Config, s: Sys, tid: nat, v: string, w: string, f: string)
    requires Reachable(cfg, s) && Chain(Lineage.Mints(s.log), f) != []
    requires Enabled(s, Step(tid, v, w)) && s.threads[tid] == Token(Revoke(f))
    ensures var m := Apply(cfg, s, Step(tid, v, w));
            && FamilyRevoked(f) in m.log && Rotation.AllRevoked(m.db.refresh, f)
            && (ComesBack(cfg, m, f) <==> Rotation.RevivalInFlight(s, f))
  {
    var m := Apply(cfg, s, Step(tid, v, w));
    Happens(cfg, s, Step(tid, v, w));
    StillReachable(cfg, s, m);
    RightAfterRevoke(cfg, s, tid, v, w, f);
    RevivedOnlyByRotationInFlight(cfg, m, f);
    RevokerDoesNotRevive(s, m, tid, f);
  }

  lemma RightAfterRevoke(cfg: Config, s: Sys, tid: nat, v: string, w: string, f: string)
    requires Enabled(s, Step(tid, v, w)) && s.threads[tid] == Token(Revoke(f))
    ensures var m := Apply(cfg, s, Step(tid, v, w));
            && FamilyRevoked(f) in m.log && Rotation.AllRevoked(m.db.refresh, f) && Lineage.Mints(m.log) == Lineage.Mints(s.log)
            && m.threads == s.threads[tid := Done] && m.now == s.now
  {
    var m := Apply(cfg, s, Step(tid, v, w));
    Rotation.RevokedAll(s.db, f);
    Lineage.LogGrows(s.log, [FamilyRevoked(f)]);
    assert m.log == s.log + [FamilyRevoked(f)] && Lineage.Mints(s.log) + [] == Lineage.Mints(s.log);
  }

  lemma RevokerDoesNotRevive(s: Sys, m: Sys, tid: nat, f: string)
    requires tid in s.threads && s.threads[tid] == Token(Revoke(f)) && m.threads == s.threads[tid := Done] && m.now == s.now
    ensures Rotation.RevivalInFlight(m, f) <==> Rotation.RevivalInFlight(s, f)
  {
    forall t | t in m.threads && Rotation.CanRevive(m.threads[t], m.now, f) ensures Rotation.RevivalInFlight(s, f) {
      assert t in s.threads && m.threads[t] == s.threads[t];
    }
    forall t | t in s.threads && Rotation.CanRevive(s.threads[t], s.now, f) ensures Rotation.RevivalInFlight(m, f) {
      assert m.threads[t] == s.threads[t];
    }
  }

  // ----- It does happen -----

  /** A client presents a token: it is authenticated, and comes to take it. */
  lemma Presents(cfg: Config, s: Sys, rreq: RefreshRequest, client: Client) returns (s': Sys, tid: nat)
    requires Authenticated(cfg, s.db, rreq.clientID, rreq.secret) == Some(client)
    ensures tid !in s.threads && Reaches(cfg, s, s') && Quietly(s, s', tid, Token(RefreshTake(rreq, client.id)))
  {
    var m;
    m, tid := Starts(cfg, s, Token(RefreshClient(rreq)));
    s' := Notes(cfg, m, tid, Token(RefreshTake(rreq, client.id)), ClientSeen(client, rreq.secret));
    Then(cfg, s, m, s');
  }

  lemma Takes(cfg: Config, s: Sys, tid: nat, rreq: RefreshRequest, id: string) returns (s': Sys)
    requires tid in s.threads && s.threads[tid] == Token(RefreshTake(rreq, id))
    requires rreq.token in s.db.refresh && !s.db.refresh[rreq.token].revoked
    ensures var row := s.db.refresh[rreq.token].(revoked := true);
            && Reaches(cfg, s, s') && s'.threads == s.threads[tid := Token(RefreshCheck(id, row))]
            && s'.db == s.db.(refresh := s.db.refresh[rreq.token := row]) && s'.log == s.log && s'.now == s.now
  {
    var v, w;
    s', v, w := Moves(cfg, s, tid);
    assert s.log + [] == s.log;
  }

  lemma FindsUsed(cfg: Config, s: Sys, tid: nat, rreq: RefreshRequest, id: string) returns (s': Sys)
    requires tid in s.threads && s.threads[tid] == Token(RefreshTake(rreq, id))
    requires rreq.token in s.db.refresh && s.db.refresh[rreq.token].revoked
    ensures Reaches(cfg, s, s') && Only(s, s', tid, Token(Revoke(s.db.refresh[rreq.token].familyID)))
  {
    var m := Looks(cfg, s, tid, Token(RefreshReuse(rreq)));
    s' := Looks(cfg, m, tid, Token(Revoke(s.db.refresh[rreq.token].familyID)));
    Then(cfg, s, m, s');
    OnlyTwice(s, m, s', tid, m.threads[tid], s'.threads[tid]);
  }

  lemma RevokesNow(cfg: Config, s: Sys, tid: nat, f: string) returns (s': Sys)
    requires tid in s.threads && s.threads[tid] == Token(Revoke(f))
    ensures Reaches(cfg, s, s') && s'.threads == s.threads[tid := Done] && s'.now == s.now
    ensures FamilyRevoked(f) in s'.log && Rotation.AllRevoked(s'.db.refresh, f)
  {
    var v, w;
    s', v, w := Moves(cfg, s, tid);
    Rotation.RevokedAll(s.db, f);
    assert s'.log == s.log + [FamilyRevoked(f)];
  }

  /** From every reachable state with a live token: two requests present it, the second finds it used and revokes the
      family, and the first then stores its child. m is the state right after RevokeFamily. */
  lemma RevocationOvertaken(cfg: Config, s: Sys, rreq: RefreshRequest, client: Client) returns (m: Sys, s': Sys)
    requires Reachable(cfg, s) && Authenticated(cfg, s.db, rreq.clientID, rreq.secret) == Some(client)
    requires rreq.token in s.db.refresh && !s.db.refresh[rreq.token].revoked
    requires s.db.refresh[rreq.token].expiresAt > s.now && s.db.refresh[rreq.token].terms.clientID == client.id
    ensures var f := s.db.refresh[rreq.token].familyID;
            && Reaches(cfg, s, m) && FamilyRevoked(f) in m.log && Rotation.AllRevoked(m.db.refresh, f)
            && Reaches(cfg, m, s') && !Rotation.AllRevoked(s'.db.refresh, f)
  {
    var f := s.db.refresh[rreq.token].familyID;
    Rotation.ReachableInv(cfg, s);
    assert s.db.refresh[rreq.token].hash == rreq.token && f in s.used && f != "";
    var s1, a := Presents(cfg, s, rreq, client);
    var s2 := Takes(cfg, s1, a, rreq, client.id);
    var s3, b := Presents(cfg, s2, rreq, client);
    var s4 := FindsUsed(cfg, s3, b, rreq, client.id);
    m := RevokesNow(cfg, s4, b, f);
    Then(cfg, s, s1, s2);
    Then(cfg, s, s2, s3);
    Then(cfg, s, s3, s4);
    Then(cfg, s, s4, m);
    StillReachable(cfg, s, m);
    assert Rotation.CanRevive(m.threads[a], m.now, f);
    s' := Revives(cfg, m, a, f);
  }

  /** A reachable state with a live token, in any configuration a client can use. */
  lemma ALiveToken(cfg: Config, uri: string, verifier: string, challenge: string) returns (s: Sys, t: RefreshToken)
    requires Flows.Usable(cfg, uri, verifier, challenge)
    ensures Reachable(cfg, s) && t.hash in s.db.refresh && s.db.refresh[t.hash] == t && !t.revoked && t.expiresAt > s.now
    ensures t.terms.clientID == "app" && Authenticated(cfg, s.db, "app", "") == Some(Flows.PublicClient(uri))
  {
    var s0, a, cookie, sid, p := Flows.FirstCode(cfg, uri, verifier, challenge, ["openid", "offline_access"]);
    var s1, h := Flows.Issues(cfg, s0, a, "ann", sid, p, 0);
    var s2, b, g := Flows.Exchanges(cfg, s1, h, uri, verifier, challenge);
    assert "offline_access" in p.scopes by { assert "offline_access" in Elements(p.scopes); }
    s, t := Granted(cfg, s2, b, g);
    Then(cfg, s0, s1, s2);
    Then(cfg, s0, s2, s);
    StillReachable(cfg, s0, s);
  }

  /** So it does happen, from the initial state: a run in which RevokeFamily(f) has run and f then has an unrevoked token. */
  lemma ARevokedFamilyReturns(cfg: Config, uri: string, verifier: string, challenge: string) returns (m: Sys, s': Sys, f: string)
    requires Flows.Usable(cfg, uri, verifier, challenge)
    ensures Reachable(cfg, m) && FamilyRevoked(f) in m.log && Rotation.AllRevoked(m.db.refresh, f)
    ensures Reaches(cfg, m, s') && !Rotation.AllRevoked(s'.db.refresh, f)
  {
    var s, t := ALiveToken(cfg, uri, verifier, challenge);
    m, s' := RevocationOvertaken(cfg, s, RefreshRequest("app", "", t.hash), Flows.PublicClient(uri));
    StillReachable(cfg, s, m);
    f := t.familyID;
  }
}

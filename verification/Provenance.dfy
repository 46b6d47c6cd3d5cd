/** Every stored token repeats the terms of the authorization code at the root of its chain. */
module Provenance {
  import opened Wrappers
  import opened Sorting
  import opened Domain
  import opened Ledger
  import opened Grants
  import Frames
  import Lineage
  import Rotation
  import Soundness

  function TermsOf(db: Db, src: Src): Option<Terms> {
    match src
    case FromCode(h) => if h in db.codes then Some(db.codes[h].terms) else None
    case FromRefresh(h) => if h in db.refresh then Some(db.refresh[h].terms) else None
  }

  ghost predicate GrantOk(db: Db, g: Grant) {
    TermsOf(db, g.src) == Some(g.terms) && (g.withRefresh ==> "offline_access" in g.terms.scopes)
  }

  ghost predicate TokenOk(db: Db, t: TokenThread) {
    && (t.CodeCheck? ==> TermsOf(db, FromCode(t.code.hash)) == Some(t.code.terms))
    && (t.RefreshCheck? ==> TermsOf(db, FromRefresh(t.token.hash)) == Some(t.token.terms) && "offline_access" in t.token.terms.scopes)
    && (t.GrantUser? || t.GrantAccess? || t.GrantRefresh? ==> GrantOk(db, t.g))
    && (t.GrantRefresh? ==> t.g.withRefresh)
  }

  ghost predicate MintOk(db: Db, m: Mint) {
    TermsOf(db, FromRefresh(m.hash)).Some? && TermsOf(db, FromRefresh(m.hash)) == TermsOf(db, m.src)
  }

  ghost predicate AccessOk(db: Db, log: seq<Event>, a: AccessToken) {
    exists src :: AccessPut(a, src) in log && TermsOf(db, src) == Some(a.terms)
  }

  ghost predicate Inv(s: Sys) {
    && (forall t | t in s.threads && s.threads[t].Token? :: TokenOk(s.db, s.threads[t].t))
    && (forall m | m in Lineage.Mints(s.log) :: MintOk(s.db, m))
    && (forall h | h in s.db.access :: AccessOk(s.db, s.log, s.db.access[h]))
    && (forall h | h in s.db.refresh :: "offline_access" in s.db.refresh[h].terms.scopes)
  }

  /** The terms of a stored row never change. */
  ghost predicate TermsKept(db: Db, db': Db) {
    forall src | TermsOf(db, src).Some? :: TermsOf(db', src) == TermsOf(db, src)
  }

  lemma TokenKeepsTerms(cfg: Config, db: Db, now: Time, t: TokenThread, v: string, w: string)
    requires Lineage.HashKeyed(db) && (t.GrantRefresh? ==> v !in db.refresh)
    ensures TermsKept(db, TokenStep(cfg, db, now, t, v, w).db)
  {
  }

  lemma BrowserKeepsAccess(cfg: Config, db: Db, pending: map<string, PendingAuth>, now: Time, b: BrowserThread, v: string)
    ensures BrowserStep(cfg, db, pending, now, b, v).db.access == db.access
  {
  }

  lemma BrowserKeepsCodes(cfg: Config, db: Db, pending: map<string, PendingAuth>, now: Time, b: BrowserThread, v: string)
    requires !b.SaveCode?
    ensures BrowserStep(cfg, db, pending, now, b, v).db.codes == db.codes
  {
  }

  lemma BrowserKeepsTerms(cfg: Config, db: Db, pending: map<string, PendingAuth>, now: Time, b: BrowserThread, v: string)
    requires b.SaveCode? ==> v !in db.codes
    ensures var db' := BrowserStep(cfg, db, pending, now, b, v).db; TermsKept(db, db') && db'.refresh == db.refresh && db'.access == db.access
  {
    Rotation.BrowserKeepsRefresh(cfg, db, pending, now, b, v);
    BrowserKeepsAccess(cfg, db, pending, now, b, v);
    if b.SaveCode? {
      FreshCodeKeepsTerms(db, NewCode(cfg, v, b.userID, b.sid, b.p, now));
    } else {
      BrowserKeepsCodes(cfg, db, pending, now, b, v);
    }
  }

  lemma FreshCodeKeepsTerms(db: Db, c: AuthCode)
    requires c.hash !in db.codes
    ensures TermsKept(db, db.PutCode(c))
  {
  }

  lemma TokenOkKept(db: Db, db': Db, t: TokenThread)
    requires TermsKept(db, db') && TokenOk(db, t)
    ensures TokenOk(db', t)
  {
  }

  lemma AccessOkKept(db: Db, db': Db, log: seq<Event>, log': seq<Event>, a: AccessToken)
    requires TermsKept(db, db') && AccessOk(db, log, a) && Soundness.Extends(log, log')
    ensures AccessOk(db', log', a)
  {
    var src :| AccessPut(a, src) in log && TermsOf(db, src) == Some(a.terms);
    assert AccessPut(a, src) in log';
  }

  /** Where a token request goes next. */
  lemma TokenNextOk(cfg: Config, db: Db, now: Time, t: TokenThread, v: string, w: string)
    requires Lineage.HashKeyed(db) && TokenOk(db, t)
    requires forall h | h in db.refresh :: "offline_access" in db.refresh[h].terms.scopes
    ensures var r := TokenStep(cfg, db, now, t, v, w); (r.next.Token? ==> TokenOk(db, r.next.t)) && |r.events| <= 1
  {
  }

  /** Only a step that stores a refresh token mints one or adds a row. */
  lemma OnlyGrantRefreshMints(cfg: Config, db: Db, now: Time, t: TokenThread, v: string, w: string)
    requires !t.GrantRefresh?
    ensures Lineage.MintIn(TokenStep(cfg, db, now, t, v, w).events) == []
  {
  }

  ghost predicate NothingAdded(rows: map<string, RefreshToken>, rows': map<string, RefreshToken>) {
    forall h | h in rows' :: h in rows && rows'[h].terms == rows[h].terms
  }

  lemma OnlyGrantRefreshAdds(cfg: Config, db: Db, now: Time, t: TokenThread, v: string, w: string)
    requires !t.GrantRefresh?
    ensures NothingAdded(db.refresh, TokenStep(cfg, db, now, t, v, w).db.refresh)
  {
    Frames.TokenWrites(cfg, db, now, t, v, w);
    if t.Revoke? { RevokeAdds(db, t.familyID); }
    else if t.RefreshTake? { TakeAdds(db, t.rreq.token); }
    else { Frames.TokenFrame(cfg, db, now, t, v, w); }
  }

  lemma RevokeAdds(db: Db, f: string)
    ensures NothingAdded(db.refresh, db.RevokeFamily(f).refresh)
  {
  }

  lemma TakeAdds(db: Db, h: string)
    ensures NothingAdded(db.refresh, db.TakeRefresh(h).0.refresh)
  {
    var rows := db.refresh;
    assert db.TakeRefresh(h).0.refresh == if h in rows && !rows[h].revoked then rows[h := rows[h].(revoked := true)] else rows;
  }

  lemma MintedOk(cfg: Config, db: Db, now: Time, g: Grant, v: string, w: string)
    requires GrantOk(db, g) && g.withRefresh && v !in db.refresh
    requires forall h | h in db.refresh :: "offline_access" in db.refresh[h].terms.scopes
    ensures var t := NewRefresh(cfg, v, w, g, now);
            && MintOk(db.PutRefresh(t), Mint(t.familyID, v, g.src))
            && forall h | h in db.PutRefresh(t).refresh :: "offline_access" in db.PutRefresh(t).refresh[h].terms.scopes
  {
    var db' := db.PutRefresh(NewRefresh(cfg, v, w, g, now));
    assert TermsOf(db', g.src) == Some(g.terms) == TermsOf(db', FromRefresh(v));
  }

  /** The refresh token a request stores. */
  lemma MintNextOk(cfg: Config, db: Db, now: Time, t: TokenThread, v: string, w: string)
    requires TokenOk(db, t) && (t.GrantRefresh? ==> v !in db.refresh)
    requires forall h | h in db.refresh :: "offline_access" in db.refresh[h].terms.scopes
    ensures var r := TokenStep(cfg, db, now, t, v, w);
            && (forall m | m in Lineage.MintIn(r.events) :: MintOk(r.db, m))
            && (forall h | h in r.db.refresh :: "offline_access" in r.db.refresh[h].terms.scopes)
  {
    if t.GrantRefresh? { MintedOk(cfg, db, now, t.g, v, w); } else {
      OnlyGrantRefreshMints(cfg, db, now, t, v, w);
      OnlyGrantRefreshAdds(cfg, db, now, t, v, w);
    }
  }

  /** The access token a request stores. */
  lemma AccessNextOk(cfg: Config, db: Db, now: Time, t: TokenThread, v: string, w: string)
    ensures var r := TokenStep(cfg, db, now, t, v, w);
            forall h | h in r.db.access ::
              || (h in db.access && r.db.access[h] == db.access[h])
              || (t.GrantAccess? && r.events == [AccessPut(r.db.access[h], t.g.src)] && r.db.access[h].terms == t.g.terms)
  {
  }

  lemma RowsKept(s: Sys, s': Sys, ev: seq<Event>)
    requires Inv(s) && TermsKept(s.db, s'.db) && s'.log == s.log + ev && |ev| <= 1
    requires forall m | m in Lineage.MintIn(ev) :: MintOk(s'.db, m)
    ensures forall m | m in Lineage.Mints(s'.log) :: MintOk(s'.db, m)
    ensures forall h | h in s.db.access :: AccessOk(s'.db, s'.log, s.db.access[h])
  {
    Lineage.LogGrows(s.log, ev);
    forall m | m in Lineage.Mints(s'.log) ensures MintOk(s'.db, m) {
      if m in Lineage.Mints(s.log) { assert MintOk(s.db, m); }
    }
    forall h | h in s.db.access ensures AccessOk(s'.db, s'.log, s.db.access[h]) {
      AccessOkKept(s.db, s'.db, s.log, s'.log, s.db.access[h]);
    }
  }

  lemma ThreadsKept(s: Sys, s': Sys)
    requires Inv(s) && TermsKept(s.db, s'.db)
    requires forall t | t in s'.threads && s'.threads[t].Token? ::
               (t in s.threads && s'.threads[t] == s.threads[t]) || TokenOk(s.db, s'.threads[t].t)
    ensures forall t | t in s'.threads && s'.threads[t].Token? :: TokenOk(s'.db, s'.threads[t].t)
  {
    forall t | t in s'.threads && s'.threads[t].Token? ensures TokenOk(s'.db, s'.threads[t].t) {
      TokenOkKept(s.db, s'.db, s'.threads[t].t);
    }
  }

  lemma TokenMoves(cfg: Config, s: Sys, tid: nat, t: TokenThread, v: string, w: string)
    requires Inv(s) && Lineage.Sound(s.db, s.used) && Enabled(s, Step(tid, v, w)) && s.threads[tid] == Token(t)
    ensures Inv(Apply(cfg, s, Step(tid, v, w)))
  {
    var s' := Apply(cfg, s, Step(tid, v, w));
    var r := TokenStep(cfg, s.db, s.now, t, v, w);
    TokenKeepsTerms(cfg, s.db, s.now, t, v, w);
    TokenNextOk(cfg, s.db, s.now, t, v, w);
    MintNextOk(cfg, s.db, s.now, t, v, w);
    AccessNextOk(cfg, s.db, s.now, t, v, w);
    RowsKept(s, s', r.events);
    ThreadsKept(s, s');
    forall h | h in s'.db.access ensures AccessOk(s'.db, s'.log, s'.db.access[h]) {
      if !(h in s.db.access && s'.db.access[h] == s.db.access[h]) {
        assert AccessPut(s'.db.access[h], t.g.src) in s'.log;
        assert TermsOf(s.db, t.g.src) == Some(t.g.terms);
      }
    }
  }

  lemma OtherMoves(cfg: Config, s: Sys, l: Label)
    requires Inv(s) && Lineage.Sound(s.db, s.used) && Enabled(s, l)
    requires l.Step? ==> !s.threads[l.tid].Token?
    ensures Inv(Apply(cfg, s, l))
  {
    var s' := Apply(cfg, s, l);
    assert s.log + [] == s.log;
    var ev := if l.Step? then Body(cfg, s.db, s.pending, s.now, s.threads[l.tid], l.v, l.w).events
              else if l.Login? then [SessionStarted(l.tokenHash, l.userID, l.sid)] else [];
    if l.Step? && s.threads[l.tid].Browser? {
      BrowserKeepsTerms(cfg, s.db, s.pending, s.now, s.threads[l.tid].b, l.v);
      BrowserAddsNoToken(cfg, s.db, s.pending, s.now, s.threads[l.tid].b, l.v);
    }
    RowsKept(s, s', ev);
    ThreadsKept(s, s');
  }

  lemma BrowserAddsNoToken(cfg: Config, db: Db, pending: map<string, PendingAuth>, now: Time, b: BrowserThread, v: string)
    ensures var r := BrowserStep(cfg, db, pending, now, b, v); !r.next.Token? && |r.events| <= 1 && Lineage.MintIn(r.events) == []
  {
  }

  lemma StepKeeps(cfg: Config, s: Sys, l: Label)
    requires Inv(s) && Lineage.Sound(s.db, s.used) && Enabled(s, l)
    ensures Inv(Apply(cfg, s, l))
  {
    if l.Step? && s.threads[l.tid].Token? { TokenMoves(cfg, s, l.tid, s.threads[l.tid].t, l.v, l.w); } else { OtherMoves(cfg, s, l); }
  }

  lemma ReachableInv(cfg: Config, s: Sys)
    requires Reachable(cfg, s)
    ensures Inv(s) && Lineage.Inv(s)
  {
    var s0, n :| Init(s0) && Leads(cfg, s0, s, n);
    Rotation.InitHolds(s0);
    var P := x => Inv(x) && Lineage.Inv(x);
    forall a, b | P(a) && Next(cfg, a, b) ensures P(b) {
      Rotation.NextKeeps(cfg, a, b);
      var l :| Enabled(a, l) && b == Apply(cfg, a, l);
      StepKeeps(cfg, a, l);
    }
    RunInduction(cfg, s0, s, n, P);
  }

  // ----- The theorem -----

  /** The code a token descends from: the presented code, or the one its family was started with. */
  ghost function RootCode(s: Sys, src: Src): string
    requires src.FromRefresh? ==> src.hash in s.db.refresh && Chain(Lineage.Mints(s.log), s.db.refresh[src.hash].familyID) != []
  {
    match src
    case FromCode(h) => h
    case FromRefresh(h) => Chain(Lineage.Mints(s.log), s.db.refresh[h].familyID)[0].src.hash
  }

  lemma {:induction false} ChainSharesTerms(s: Sys, c: seq<Mint>, i: nat)
    requires i < |c| && IsPath(c) && forall m | m in c :: MintOk(s.db, m)
    ensures TermsOf(s.db, FromRefresh(c[i].hash)).Some? && TermsOf(s.db, FromRefresh(c[i].hash)) == TermsOf(s.db, c[0].src)
  {
    assert MintOk(s.db, c[i]);
    if i > 0 {
      assert c[i].src == FromRefresh(c[i - 1].hash);
      ChainSharesTerms(s, c, i - 1);
    }
  }

  /** Every stored refresh token has the terms of the code at the root of its family, and that code is used. The scopes
      are canonical, hold openid and ask for offline access; a named session was started for the same user. */
  lemma RefreshTokenProvenance(cfg: Config, s: Sys, h: string)
    requires Reachable(cfg, s) && h in s.db.refresh
    ensures Chain(Lineage.Mints(s.log), s.db.refresh[h].familyID) != []
    ensures var root := RootCode(s, FromRefresh(h));
            root in s.db.codes && s.db.codes[root].used && s.db.refresh[h].terms == s.db.codes[root].terms
    ensures var terms := s.db.refresh[h].terms;
            && "offline_access" in terms.scopes && Soundness.GoodScopes(terms.scopes)
            && (terms.sid != "" ==> Soundness.StartedFor(s.log, terms.userID, terms.sid))
  {
    ReachableInv(cfg, s);
    var f := s.db.refresh[h].familyID;
    var c := Chain(Lineage.Mints(s.log), f);
    Rotation.RotationLineage(cfg, s, f);
    assert InChain(c, h);
    var i :| 0 <= i < |c| && c[i].hash == h;
    Rotation.FamiliesHaveDistinctCodes(cfg, s, f, f);
    Rotation.ChainIsMinted(Lineage.Mints(s.log), f);
    ChainSharesTerms(s, c, i);
    Soundness.CodesAreSound(cfg, s, RootCode(s, FromRefresh(h)));
  }

  /** Every stored access token has the terms of a used code: the one presented for it, or the root of the family
      that was refreshed. The scopes are canonical and hold openid; a named session was started for the same user. */
  lemma AccessTokenProvenance(cfg: Config, s: Sys, h: string) returns (src: Src, root: string)
    requires Reachable(cfg, s) && h in s.db.access
    ensures AccessPut(s.db.access[h], src) in s.log
    ensures src.FromRefresh? ==> src.hash in s.db.refresh && Chain(Lineage.Mints(s.log), s.db.refresh[src.hash].familyID) != []
    ensures root == RootCode(s, src)
    ensures root in s.db.codes && s.db.codes[root].used && s.db.access[h].terms == s.db.codes[root].terms
    ensures var terms := s.db.access[h].terms;
            Soundness.GoodScopes(terms.scopes) && (terms.sid != "" ==> Soundness.StartedFor(s.log, terms.userID, terms.sid))
  {
    ReachableInv(cfg, s);
    assert AccessOk(s.db, s.log, s.db.access[h]);
    src :| AccessPut(s.db.access[h], src) in s.log && TermsOf(s.db, src) == Some(s.db.access[h].terms);
    if src.FromRefresh? {
      RefreshTokenProvenance(cfg, s, src.hash);
    } else {
      AccessSrcIsSpent(s, s.db.access[h], src);
    }
    root := RootCode(s, src);
    Soundness.CodesAreSound(cfg, s, root);
  }

  lemma AccessSrcIsSpent(s: Sys, a: AccessToken, src: Src)
    requires Lineage.Inv(s) && AccessPut(a, src) in s.log
    ensures src in Lineage.Spent(s.db)
  {
    var i :| 0 <= i < |s.log| && s.log[i] == AccessPut(a, src);
    Rotation.MarkOfEarlier(s.log, i);
  }
}

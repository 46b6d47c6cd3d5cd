/** Theorems about every reachable state, and every run, of the interleaved grant flows:
    single use, rotation lineage, and the death of a revoked family. */
module Rotation {
  import opened Wrappers
  import opened Sorting
  import opened Domain
  import opened Ledger
  import opened Grants
  import opened Lineage
  import Frames

  lemma InitHolds(s: Sys)
    requires Init(s)
    ensures Inv(s)
  {
    assert Claims(s.threads) == map[] && Turns(s.threads) == map[] && Rows(s.db) == map[];
  }

  lemma NextKeeps(cfg: Config, s: Sys, s': Sys)
    requires Inv(s) && Next(cfg, s, s')
    ensures Inv(s') && Spent(s.db) <= Spent(s'.db)
  {
    var l :| Enabled(s, l) && s' == Apply(cfg, s, l);
    StepKeeps(cfg, s, l);
    StepSpends(cfg, s, l);
  }

  lemma RunKeeps(cfg: Config, s: Sys, s': Sys, n: nat)
    requires Inv(s) && Leads(cfg, s, s', n)
    ensures Inv(s') && Spent(s.db) <= Spent(s'.db)
  {
    var P := x => Inv(x) && Spent(s.db) <= Spent(x.db);
    forall a, b | P(a) && Next(cfg, a, b) ensures P(b) { NextKeeps(cfg, a, b); }
    RunInduction(cfg, s, s', n, P);
  }

  lemma ReachableInv(cfg: Config, s: Sys)
    requires Reachable(cfg, s)
    ensures Inv(s)
  {
    var s0, n :| Init(s0) && Leads(cfg, s0, s, n);
    InitHolds(s0);
    RunKeeps(cfg, s0, s, n);
  }

  // ----- Single use -----

  lemma {:induction false} MarksOfLog(log: seq<Event>, i: nat, j: nat)
    requires i < j < |log| && NoDuplicates(Marks(log)) && MarkOf(log[i]) != []
    ensures MarkOf(log[i]) != MarkOf(log[j])
  {
    var n := |log| - 1;
    MarksSplit(log);
    if j < n {
      MarksOfLog(log[..n], i, j);
    } else {
      MarkOfEarlier(log[..n], i);
      assert MarkOf(log[i])[0] in Marks(log[..n]);
    }
  }

  lemma NoDuplicatesApart<T>(a: seq<T>, b: seq<T>)
    requires NoDuplicates(a + b)
    ensures NoDuplicates(a) && forall x | x in b :: x !in a
  {
    var s := a + b;
    forall i, j | 0 <= i < j < |a| ensures a[i] != a[j] { assert s[i] == a[i] && s[j] == a[j]; }
    forall x | x in b ensures x !in a {
      var j :| 0 <= j < |b| && b[j] == x;
      assert s[|a| + j] == x;
      assert forall i | 0 <= i < |a| :: s[i] == a[i];
    }
  }

  /** The last mark, if the last event makes one, is not an earlier one. */
  lemma MarksSplit(log: seq<Event>)
    requires log != [] && NoDuplicates(Marks(log))
    ensures NoDuplicates(Marks(log[..|log| - 1]))
    ensures MarkOf(log[|log| - 1]) != [] ==> MarkOf(log[|log| - 1])[0] !in Marks(log[..|log| - 1])
  {
    NoDuplicatesApart(Marks(log[..|log| - 1]), MarkOf(log[|log| - 1]));
  }

  lemma {:induction false} MarkOfEarlier(log: seq<Event>, i: nat)
    requires i < |log| && MarkOf(log[i]) != []
    ensures MarkOf(log[i])[0] in Marks(log)
  {
    var n := |log| - 1;
    if i < n { MarkOfEarlier(log[..n], i); }
  }

  /** A code or refresh token yields at most one access token, one refresh token and one response, in any interleaving;
      whatever was yielded, the code is used or the refresh token revoked. */
  lemma GrantsAnsweredOnce(cfg: Config, s: Sys, i: nat, j: nat)
    requires Reachable(cfg, s) && i < j < |s.log|
    ensures s.log[i].Responded? && s.log[j].Responded? ==> s.log[i].src != s.log[j].src
    ensures s.log[i].RefreshPut? && s.log[j].RefreshPut? ==> s.log[i].src != s.log[j].src
    ensures s.log[i].AccessPut? && s.log[j].AccessPut? ==> s.log[i].src != s.log[j].src
    ensures MarkOf(s.log[i]) != [] ==> MarkOf(s.log[i])[0].src in Spent(s.db)
  {
    ReachableInv(cfg, s);
    if MarkOf(s.log[i]) != [] {
      MarksOfLog(s.log, i, j);
      MarkOfEarlier(s.log, i);
    }
  }

  lemma {:induction false} MintHasMark(log: seq<Event>, m: Mint)
    requires m in Mints(log)
    ensures Claim(m.src, 2) in Marks(log)
  {
    var n := |log| - 1;
    if m in Mints(log[..n]) { MintHasMark(log[..n], m); }
  }

  lemma {:induction false} MintBySrc(log: seq<Event>, m: Mint, m': Mint)
    requires NoDuplicates(Marks(log)) && m in Mints(log) && m' in Mints(log) && m.src == m'.src
    ensures m == m'
  {
    var n := |log| - 1;
    MarksSplit(log);
    if m in Mints(log[..n]) { MintHasMark(log[..n], m); }
    if m' in Mints(log[..n]) { MintHasMark(log[..n], m'); }
    if m in Mints(log[..n]) && m' in Mints(log[..n]) { MintBySrc(log[..n], m, m'); }
  }

  lemma {:induction false} ChainIsMinted(mints: seq<Mint>, f: string)
    ensures forall m | m in Chain(mints, f) :: m in mints && m.family == f
  {
    if mints != [] { ChainIsMinted(mints[..|mints| - 1], f); }
  }

  lemma RootIsUsedCode(s: Sys, f: string)
    requires Balanced(BookOf(s)) && FamilyOk(Mints(s.log), Rows(s.db), f) && Chain(Mints(s.log), f) != []
    ensures var src := Chain(Mints(s.log), f)[0].src;
            src.FromCode? && src.hash in s.db.codes && s.db.codes[src.hash].used
  {
    var root := Chain(Mints(s.log), f)[0];
    ChainIsMinted(Mints(s.log), f);
    MintHasMark(s.log, root);
    assert root.src in Spent(s.db);
  }

  /** Every family starts from a used authorization code, and two families never start from the same one. */
  lemma FamiliesHaveDistinctCodes(cfg: Config, s: Sys, f: string, f': string)
    requires Reachable(cfg, s) && Chain(Mints(s.log), f) != []
    ensures var src := Chain(Mints(s.log), f)[0].src;
            src.FromCode? && src.hash in s.db.codes && s.db.codes[src.hash].used
    ensures f != f' && Chain(Mints(s.log), f') != [] ==>
              Chain(Mints(s.log), f)[0].src != Chain(Mints(s.log), f')[0].src
  {
    ReachableInv(cfg, s);
    RootIsUsedCode(s, f);
    var c, c' := Chain(Mints(s.log), f), Chain(Mints(s.log), f');
    ChainIsMinted(Mints(s.log), f);
    ChainIsMinted(Mints(s.log), f');
    if f != f' && c' != [] && c[0].src == c'[0].src { MintBySrc(s.log, c[0], c'[0]); }
  }

  /** Once used, always used: a code that was taken is never redeemable again, whether or not it passed the later checks. */
  lemma CodeStaysUsed(cfg: Config, s: Sys, s': Sys, n: nat, h: string)
    requires Reachable(cfg, s) && Leads(cfg, s, s', n) && h in s.db.codes && s.db.codes[h].used
    ensures h in s'.db.codes && s'.db.codes[h].used
  {
    ReachableInv(cfg, s);
    RunKeeps(cfg, s, s', n);
    assert FromCode(h) in Spent(s.db);
    assert FromCode(h) in Spent(s'.db);
  }

  lemma StepSpends(cfg: Config, s: Sys, l: Label)
    requires Inv(s) && Enabled(s, l)
    ensures Spent(s.db) <= Spent(Apply(cfg, s, l).db)
  {
    if l.Step? {
      match s.threads[l.tid]
      case Browser(b) => BrowserSpendsNothing(cfg, s.db, s.pending, s.now, b, l.v);
      case Token(t) => TokenSpendsOnce(cfg, s.db, s.now, t, l.v, l.w);
      case Done =>
    }
  }

  // ----- Rotation lineage -----

  ghost function LiveTokens(s: Sys, f: string): set<string> {
    set h | h in s.db.refresh && s.db.refresh[h].familyID == f && !s.db.refresh[h].revoked
  }

  /** Requests between TakeRefresh and PutRefresh of family f. */
  ghost function InRotation(s: Sys, f: string): set<nat> {
    set t | t in s.threads && TurnOf(s.threads[t]).Some? && TurnOf(s.threads[t]).value.family == f
  }

  lemma AtMostOne<T>(s: set<T>)
    requires forall x, y | x in s && y in s :: x == y
    ensures |s| <= 1
  {
    if s != {} {
      var x :| x in s;
      assert s == {x};
    }
  }

  /** The tokens of a family are one path from one code. Unrevoked tokens and rotations in flight
      together number at most one, and the token concerned is the newest. */
  lemma RotationLineage(cfg: Config, s: Sys, f: string)
    requires Reachable(cfg, s)
    ensures IsPath(Chain(Mints(s.log), f))
    ensures forall h | h in s.db.refresh && s.db.refresh[h].familyID == f :: InChain(Chain(Mints(s.log), f), h)
    ensures forall h | h in LiveTokens(s, f) :: Newest(Chain(Mints(s.log), f), FromRefresh(h))
    ensures forall t | t in InRotation(s, f) :: Newest(Chain(Mints(s.log), f), TurnOf(s.threads[t]).value.src)
    ensures |LiveTokens(s, f)| + |InRotation(s, f)| <= 1
  {
    ReachableInv(cfg, s);
    var w, b := ForestOf(s), BookOf(s);
    assert FamilyOk(w.mints, w.rows, f);
    forall h | h in s.db.refresh && s.db.refresh[h].familyID == f ensures InChain(Chain(w.mints, f), h) {
      assert RowOk(w.mints, h, w.rows[h]);
    }
    forall h | h in LiveTokens(s, f) ensures Newest(Chain(w.mints, f), FromRefresh(h)) {
      assert w.rows[h] == Row(f, false);
      LiveIsNewest(w, h);
    }
    forall t | t in InRotation(s, f)
      ensures Newest(Chain(w.mints, f), TurnOf(s.threads[t]).value.src)
      ensures t in b.claims && b.claims[t].src == TurnOf(s.threads[t]).value.src
    {
      assert TurnOk(w.mints, w.turns[t]);
      TurnIsClaim(s.threads[t]);
    }
    AtMostOne(LiveTokens(s, f));
    AtMostOne(InRotation(s, f));
    if h, t :| h in LiveTokens(s, f) && t in InRotation(s, f) {
      assert b.claims[t].src == FromRefresh(h);
      assert b.claims[t].src in Spent(s.db);
    }
  }

  // ----- The death of a family -----

  ghost predicate AllRevoked(refresh: map<string, RefreshToken>, f: string) {
    forall h | h in refresh && refresh[h].familyID == f :: refresh[h].revoked
  }

  /** The request has taken a token of f and can still store its child: it is past the checks of its rotation, or would
      pass them now. */
  ghost predicate CanRevive(th: Thread, now: Time, f: string) {
    && th.Token?
    && ((th.t.RefreshCheck? && th.t.token.familyID == f && th.t.token.expiresAt > now && th.t.token.terms.clientID == th.t.clientID)
        || ((th.t.GrantUser? || th.t.GrantAccess? || th.t.GrantRefresh?) && th.t.g.family == f))
  }

  ghost predicate RevivalInFlight(s: Sys, f: string) { exists t :: t in s.threads && CanRevive(s.threads[t], s.now, f) }

  /** Family f exists, all its tokens are revoked, and no request in flight can still store one. */
  ghost predicate Dead(s: Sys, f: string) {
    Chain(Mints(s.log), f) != [] && AllRevoked(s.db.refresh, f) && !RevivalInFlight(s, f)
  }

  /** The request has stored a token of f and not answered yet. */
  ghost predicate Answering(th: Thread, f: string) {
    th.Token? && th.t.Respond? && th.t.refreshed.Some? && th.t.refreshed.value.familyID == f
  }

  ghost predicate Silent(s: Sys, f: string) { forall t | t in s.threads :: !Answering(s.threads[t], f) }

  ghost predicate Carries(e: Event, f: string) {
    e.Responded? && e.refreshed.Some? && e.refreshed.value.familyID == f
  }

  /** The responses so far that carried a token of f. */
  ghost function Carried(log: seq<Event>, f: string): seq<Event> {
    if log == [] then [] else Carried(log[..|log| - 1], f) + CarriedBy(log[|log| - 1], f)
  }

  ghost function CarriedBy(e: Event, f: string): seq<Event> { if Carries(e, f) then [e] else [] }

  lemma CarriedGrows(log: seq<Event>, ev: seq<Event>, f: string)
    requires |ev| <= 1 && (ev == [] || !Carries(ev[0], f))
    ensures Carried(log + ev, f) == Carried(log, f)
  {
    if ev == [] { assert log + ev == log; } else { assert (log + ev)[..|log|] == log; }
  }

  lemma RevokedAll(db: Db, f: string)
    ensures AllRevoked(db.RevokeFamily(f).refresh, f)
  {
  }

  /** RevokeFamily with no rotation of the family in flight that can still pass its checks kills it. */
  lemma RevokeKills(cfg: Config, s: Sys, tid: nat, v: string, w: string, f: string)
    requires Inv(s) && Enabled(s, Step(tid, v, w)) && s.threads[tid] == Token(Revoke(f))
    requires Chain(Mints(s.log), f) != [] && !RevivalInFlight(s, f)
    ensures Dead(Apply(cfg, s, Step(tid, v, w)), f)
  {
    var s' := Apply(cfg, s, Step(tid, v, w));
    assert s'.db == s.db.RevokeFamily(f) && s'.threads == s.threads[tid := Done] && s'.log == s.log + [FamilyRevoked(f)];
    RevokedAll(s.db, f);
    SameChain(s.log, f);
  }

  lemma SameChain(log: seq<Event>, f: string)
    ensures Chain(Mints(log + [FamilyRevoked(f)]), f) == Chain(Mints(log), f)
  {
    LogGrows(log, [FamilyRevoked(f)]);
    assert Mints(log) + [] == Mints(log);
  }

  /** What a token request can do to family f while every token of f is revoked and it cannot store another. */
  lemma TokenLeavesRevoked(cfg: Config, db: Db, now: Time, t: TokenThread, v: string, w: string, f: string)
    requires HashKeyed(db) && AllRevoked(db.refresh, f)
    requires !CanRevive(Token(t), now, f) && f != ""
    requires t.GrantRefresh? ==> (t.g.family == "" ==> w != f) && (t.g.src.FromCode? <==> t.g.family == "")
    ensures var r := TokenStep(cfg, db, now, t, v, w);
            && |r.events| <= 1 && AllRevoked(r.db.refresh, f)
            && !CanRevive(r.next, now, f)
            && (MintIn(r.events) == [] || MintIn(r.events)[0].family != f)
            && (Answering(r.next, f) ==> Answering(Token(t), f))
            && (forall e | e in r.events && Carries(e, f) :: Answering(Token(t), f))
  {
  }

  lemma BrowserKeepsRefresh(cfg: Config, db: Db, pending: map<string, PendingAuth>, now: Time, b: BrowserThread, v: string)
    ensures BrowserStep(cfg, db, pending, now, b, v).db.refresh == db.refresh
  {
    Frames.BrowserFrame(cfg, db, pending, now, b, v);
  }

  lemma BrowserLeavesRevoked(cfg: Config, db: Db, pending: map<string, PendingAuth>, now: Time, b: BrowserThread, v: string, f: string)
    requires AllRevoked(db.refresh, f)
    ensures var r := BrowserStep(cfg, db, pending, now, b, v);
            && |r.events| <= 1 && AllRevoked(r.db.refresh, f) && !r.next.Token? && MintIn(r.events) == []
            && (forall e | e in r.events :: !e.Responded?)
  {
    Frames.BrowserFrame(cfg, db, pending, now, b, v);
  }

  /** One request moved, and neither revived, rotated nor lengthened family f. */
  ghost predicate Inert(s: Sys, s': Sys, tid: nat, th': Thread, ev: seq<Event>, f: string) {
    && s'.threads == s.threads[tid := th'] && s'.log == s.log + ev && |ev| <= 1
    && AllRevoked(s'.db.refresh, f) && s.now <= s'.now && !CanRevive(th', s'.now, f) && (MintIn(ev) == [] || MintIn(ev)[0].family != f)
  }

  lemma InertKeepsDead(s: Sys, s': Sys, tid: nat, th': Thread, ev: seq<Event>, f: string)
    requires Dead(s, f) && Inert(s, s', tid, th', ev, f)
    ensures Dead(s', f) && Chain(Mints(s'.log), f) == Chain(Mints(s.log), f)
  {
    LogGrows(s.log, ev);
    if MintIn(ev) == [] {
      assert Mints(s'.log) == Mints(s.log);
    } else {
      ChainGrows(Mints(s.log), MintIn(ev)[0], f);
      assert MintIn(ev) == [MintIn(ev)[0]];
    }
    forall t | t in s'.threads ensures !CanRevive(s'.threads[t], s'.now, f) {
      assert t != tid ==> !CanRevive(s.threads[t], s.now, f);
    }
  }

  lemma MintedIsUsed(s: Sys, f: string)
    requires Inv(s) && Chain(Mints(s.log), f) != []
    ensures f in s.used && f != ""
  {
    ChainIsMinted(Mints(s.log), f);
    assert Chain(Mints(s.log), f)[0] in Mints(s.log);
  }

  /** A step of some request is inert for a dead family. */
  lemma RequestIsInert(cfg: Config, s: Sys, tid: nat, v: string, w: string, f: string)
    requires Inv(s) && Dead(s, f) && Enabled(s, Step(tid, v, w))
    ensures var r := Body(cfg, s.db, s.pending, s.now, s.threads[tid], v, w);
            Inert(s, Apply(cfg, s, Step(tid, v, w)), tid, r.next, r.events, f)
  {
    match s.threads[tid]
    case Browser(b) => BrowserLeavesRevoked(cfg, s.db, s.pending, s.now, b, v, f);
    case Token(t) =>
      assert !CanRevive(s.threads[tid], s.now, f) && ThreadShape(s.threads[tid], s.used);
      MintedIsUsed(s, f);
      TokenLeavesRevoked(cfg, s.db, s.now, t, v, w, f);
    case Done =>
  }

  lemma RequestStaysDead(cfg: Config, s: Sys, tid: nat, v: string, w: string, f: string)
    requires Inv(s) && Dead(s, f) && Enabled(s, Step(tid, v, w))
    ensures var s' := Apply(cfg, s, Step(tid, v, w)); Dead(s', f) && Chain(Mints(s'.log), f) == Chain(Mints(s.log), f)
  {
    var r := Body(cfg, s.db, s.pending, s.now, s.threads[tid], v, w);
    RequestIsInert(cfg, s, tid, v, w, f);
    InertKeepsDead(s, Apply(cfg, s, Step(tid, v, w)), tid, r.next, r.events, f);
  }

  lemma OtherStaysDead(cfg: Config, s: Sys, l: Label, f: string)
    requires Dead(s, f) && Enabled(s, l) && !l.Step?
    ensures var s' := Apply(cfg, s, l); Dead(s', f) && Chain(Mints(s'.log), f) == Chain(Mints(s.log), f)
  {
    assert s.log + [] == s.log && Mints(s.log) + [] == Mints(s.log);
    match l
    case Spawn(tid, th) => InertKeepsDead(s, Apply(cfg, s, l), tid, th, [], f);
    case Abort(tid) => InertKeepsDead(s, Apply(cfg, s, l), tid, Done, [], f);
    case Login(userID, tokenHash, sid) => LogGrows(s.log, [SessionStarted(tokenHash, userID, sid)]);
    case _ =>
  }

  /** No step revives a dead family or lengthens it. */
  lemma NextStaysDead(cfg: Config, s: Sys, s': Sys, f: string)
    requires Inv(s) && Dead(s, f) && Next(cfg, s, s')
    ensures Dead(s', f) && Chain(Mints(s'.log), f) == Chain(Mints(s.log), f)
  {
    var l :| Enabled(s, l) && s' == Apply(cfg, s, l);
    if l.Step? { RequestStaysDead(cfg, s, l.tid, l.v, l.w, f); } else { OtherStaysDead(cfg, s, l, f); }
  }

  lemma RequestStaysSilent(cfg: Config, s: Sys, tid: nat, v: string, w: string, f: string)
    requires Inv(s) && Dead(s, f) && Silent(s, f) && Enabled(s, Step(tid, v, w))
    ensures var r := Body(cfg, s.db, s.pending, s.now, s.threads[tid], v, w);
            !Answering(r.next, f) && |r.events| <= 1 && (r.events == [] || !Carries(r.events[0], f))
  {
    match s.threads[tid]
    case Browser(b) => BrowserLeavesRevoked(cfg, s.db, s.pending, s.now, b, v, f);
    case Token(t) =>
      assert !CanRevive(s.threads[tid], s.now, f) && ThreadShape(s.threads[tid], s.used) && !Answering(s.threads[tid], f);
      MintedIsUsed(s, f);
      TokenLeavesRevoked(cfg, s.db, s.now, t, v, w, f);
    case Done =>
  }

  lemma SilenceKept(s: Sys, s': Sys, tid: nat, th': Thread, ev: seq<Event>, f: string)
    requires Silent(s, f) && s'.threads == s.threads[tid := th'] && s'.log == s.log + ev && |ev| <= 1
    requires !Answering(th', f) && (ev == [] || !Carries(ev[0], f))
    ensures Silent(s', f) && Carried(s'.log, f) == Carried(s.log, f)
  {
    CarriedGrows(s.log, ev, f);
  }

  lemma OtherStaysSilent(cfg: Config, s: Sys, l: Label, f: string)
    requires Silent(s, f) && Enabled(s, l) && !l.Step?
    ensures var s' := Apply(cfg, s, l); Silent(s', f) && Carried(s'.log, f) == Carried(s.log, f)
  {
    assert s.log + [] == s.log;
    match l
    case Spawn(tid, th) => SilenceKept(s, Apply(cfg, s, l), tid, th, [], f);
    case Abort(tid) => SilenceKept(s, Apply(cfg, s, l), tid, Done, [], f);
    case Login(userID, tokenHash, sid) => CarriedGrows(s.log, [SessionStarted(tokenHash, userID, sid)], f);
    case _ =>
  }

  /** Nor does a step begin to answer with it. */
  lemma NextStaysSilent(cfg: Config, s: Sys, s': Sys, f: string)
    requires Inv(s) && Dead(s, f) && Silent(s, f) && Next(cfg, s, s')
    ensures Silent(s', f) && Carried(s'.log, f) == Carried(s.log, f)
  {
    var l :| Enabled(s, l) && s' == Apply(cfg, s, l);
    if l.Step? {
      var r := Body(cfg, s.db, s.pending, s.now, s.threads[l.tid], l.v, l.w);
      RequestStaysSilent(cfg, s, l.tid, l.v, l.w, f);
      SilenceKept(s, s', l.tid, r.next, r.events, f);
    } else {
      OtherStaysSilent(cfg, s, l, f);
    }
  }

  /** Revocation is permanent: every run from a state where family f is dead leaves it dead, with the same tokens. */
  lemma FamilyDeathIsPermanent(cfg: Config, s: Sys, s': Sys, n: nat, f: string)
    requires Reachable(cfg, s) && Dead(s, f) && Leads(cfg, s, s', n)
    ensures Dead(s', f) && Chain(Mints(s'.log), f) == Chain(Mints(s.log), f)
  {
    ReachableInv(cfg, s);
    var c := Chain(Mints(s.log), f);
    var P := x => Inv(x) && Dead(x, f) && Chain(Mints(x.log), f) == c;
    forall a, b | P(a) && Next(cfg, a, b) ensures P(b) {
      NextKeeps(cfg, a, b);
      NextStaysDead(cfg, a, b, f);
    }
    RunInduction(cfg, s, s', n, P);
  }

  /** If moreover no request was about to answer with a token of f, no response ever carries one again. */
  lemma DeadFamilyIsNeverAnswered(cfg: Config, s: Sys, s': Sys, n: nat, f: string)
    requires Reachable(cfg, s) && Dead(s, f) && Silent(s, f) && Leads(cfg, s, s', n)
    ensures Carried(s'.log, f) == Carried(s.log, f)
  {
    ReachableInv(cfg, s);
    var c := Carried(s.log, f);
    var P := x => Inv(x) && Dead(x, f) && Silent(x, f) && Carried(x.log, f) == c;
    forall a, b | P(a) && Next(cfg, a, b) ensures P(b) {
      NextKeeps(cfg, a, b);
      NextStaysDead(cfg, a, b, f);
      NextStaysSilent(cfg, a, b, f);
    }
    RunInduction(cfg, s, s', n, P);
  }
}

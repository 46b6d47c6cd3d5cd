/** What every interleaved run keeps about spending codes and rotating refresh tokens:
    the state machine keeps the ledger and the forest. */
module Lineage {
  import opened Wrappers
  import opened Domain
  import opened Ledger
  import opened Grants
  import Frames

  // ----- The ledger and the forest of a state -----

  /** The grant a request has taken and is still answering, and the write it comes to next. */
  ghost function TokenClaim(t: TokenThread): Option<Claim> {
    match t
    case CodeCheck(_, _, code) => Some(Claim(FromCode(code.hash), 1))
    case RefreshCheck(_, token) => Some(Claim(FromRefresh(token.hash), 1))
    case GrantUser(g) => Some(Claim(g.src, 1))
    case GrantAccess(g) => Some(Claim(g.src, 1))
    case GrantRefresh(g, _) => Some(Claim(g.src, 2))
    case Respond(g, _, _) => Some(Claim(g.src, 3))
    case _ => None
  }

  ghost function GrantTurn(g: Grant): Option<Turn> {
    if g.src.FromRefresh? then Some(Turn(g.family, g.src)) else None
  }

  /** The rotation a request has begun and not finished. */
  ghost function TokenTurn(t: TokenThread): Option<Turn> {
    match t
    case RefreshCheck(_, token) => Some(Turn(token.familyID, FromRefresh(token.hash)))
    case GrantUser(g) => GrantTurn(g)
    case GrantAccess(g) => GrantTurn(g)
    case GrantRefresh(g, _) => GrantTurn(g)
    case _ => None
  }

  ghost function ClaimOf(th: Thread): Option<Claim> { if th.Token? then TokenClaim(th.t) else None }

  ghost function TurnOf(th: Thread): Option<Turn> { if th.Token? then TokenTurn(th.t) else None }

  ghost function MarkOf(e: Event): seq<Claim> {
    match e
    case AccessPut(_, src) => [Claim(src, 1)]
    case RefreshPut(_, src) => [Claim(src, 2)]
    case Responded(src, _, _) => [Claim(src, 3)]
    case _ => []
  }

  ghost function MintOf(e: Event): seq<Mint> {
    if e.RefreshPut? then [Mint(e.token.familyID, e.token.hash, e.src)] else []
  }

  ghost function Marks(log: seq<Event>): seq<Claim> {
    if log == [] then [] else Marks(log[..|log| - 1]) + MarkOf(log[|log| - 1])
  }

  ghost function Mints(log: seq<Event>): seq<Mint> {
    if log == [] then [] else Mints(log[..|log| - 1]) + MintOf(log[|log| - 1])
  }

  ghost function Claims(threads: map<nat, Thread>): map<nat, Claim> {
    map t | t in threads && ClaimOf(threads[t]).Some? :: ClaimOf(threads[t]).value
  }

  ghost function Turns(threads: map<nat, Thread>): map<nat, Turn> {
    map t | t in threads && TurnOf(threads[t]).Some? :: TurnOf(threads[t]).value
  }

  ghost function Spent(db: Db): set<Src> {
    (set h | h in db.codes && db.codes[h].used :: FromCode(h))
    + (set h | h in db.refresh && db.refresh[h].revoked :: FromRefresh(h))
  }

  ghost function Rows(db: Db): map<string, Row> {
    map h | h in db.refresh :: Row(db.refresh[h].familyID, db.refresh[h].revoked)
  }

  ghost function BookOf(s: Sys): Book { Book(Claims(s.threads), Marks(s.log), Spent(s.db)) }

  ghost function ForestOf(s: Sys): Forest { Forest(Mints(s.log), Rows(s.db), Turns(s.threads)) }

  // ----- The invariant -----

  ghost predicate HashKeyed(db: Db) {
    && (forall h | h in db.codes :: db.codes[h].hash == h)
    && (forall h | h in db.refresh :: db.refresh[h].hash == h)
  }

  /** Every stored hash and family was issued. */
  ghost predicate Issued(db: Db, used: set<string>) {
    && db.codes.Keys <= used && db.refresh.Keys <= used && "" !in used
    && (forall h | h in db.refresh :: db.refresh[h].familyID in used)
  }

  ghost predicate Sound(db: Db, used: set<string>) { HashKeyed(db) && Issued(db, used) }

  /** A family is passed on exactly when a refresh token was presented. */
  ghost predicate GrantShape(g: Grant, used: set<string>) {
    && (g.src.FromCode? <==> g.family == "")
    && (g.src.FromRefresh? ==> g.withRefresh && g.family in used)
  }

  ghost predicate TokenShape(t: TokenThread, used: set<string>) {
    && (t.GrantUser? || t.GrantAccess? || t.GrantRefresh? || t.Respond? ==> GrantShape(t.g, used))
    && (t.RefreshCheck? ==> t.token.familyID in used && t.token.familyID != "")
  }

  ghost predicate ThreadShape(th: Thread, used: set<string>) { th.Token? ==> TokenShape(th.t, used) }

  ghost predicate Inv(s: Sys) {
    && Sound(s.db, s.used) && Balanced(BookOf(s)) && Grown(ForestOf(s))
    && (forall m | m in Mints(s.log) :: m.family in s.used)
    && (forall t | t in s.threads :: ThreadShape(s.threads[t], s.used))
  }

  // ----- Projections follow a step -----

  lemma LogGrows(log: seq<Event>, ev: seq<Event>)
    requires |ev| <= 1
    ensures Marks(log + ev) == Marks(log) + (if ev == [] then [] else MarkOf(ev[0]))
    ensures Mints(log + ev) == Mints(log) + (if ev == [] then [] else MintOf(ev[0]))
  {
    if ev == [] { assert log + ev == log; } else { assert (log + ev)[..|log|] == log; }
  }

  lemma ThreadMoves(threads: map<nat, Thread>, tid: nat, th: Thread)
    ensures Claims(threads[tid := th]) == Assign(Claims(threads), tid, ClaimOf(th))
    ensures Turns(threads[tid := th]) == Assign(Turns(threads), tid, TurnOf(th))
  {
  }

  lemma UnknownFamily(mints: seq<Mint>, f: string)
    requires forall m | m in mints :: m.family != f
    ensures Chain(mints, f) == []
  {
  }

  // ----- Preservation -----

  ghost function MarkIn(ev: seq<Event>): seq<Claim> { if ev == [] then [] else MarkOf(ev[0]) }

  ghost function MintIn(ev: seq<Event>): seq<Mint> { if ev == [] then [] else MintOf(ev[0]) }

  /** What a step does to the claim of the request that takes it, and to the spent grants. */
  ghost predicate SpendsOnce(db: Db, th: Thread, db': Db, th': Thread, ev: seq<Event>) {
    var c, c', mark := ClaimOf(th), ClaimOf(th'), MarkIn(ev);
    && |ev| <= 1 && |mark| <= 1 && Spent(db) <= Spent(db')
    && (mark != [] ==> Some(mark[0]) == c)
    && (c'.Some? ==>
          || (c.Some? && c'.value.src == c.value.src && c'.value.stage >= c.value.stage
              && (mark != [] ==> c'.value.stage > c.value.stage))
          || (mark == [] && c'.value.src in Spent(db') - Spent(db)))
  }

  lemma StepKeepsBook(s: Sys, s': Sys, tid: nat, th': Thread, ev: seq<Event>)
    requires Balanced(BookOf(s)) && tid in s.threads && SpendsOnce(s.db, s.threads[tid], s'.db, th', ev)
    requires s'.threads == s.threads[tid := th'] && s'.log == s.log + ev
    ensures Balanced(BookOf(s'))
  {
    LogGrows(s.log, ev);
    ThreadMoves(s.threads, tid, th');
    BookStep(BookOf(s), tid, ClaimOf(th'), MarkIn(ev), Spent(s'.db));
  }

  lemma TakeCodeSpends(db: Db, h: string)
    requires db.TakeCode(h).1.Ok?
    ensures Spent(db) <= Spent(db.TakeCode(h).0) && FromCode(h) in Spent(db.TakeCode(h).0) - Spent(db)
  {
    var db' := db.TakeCode(h).0;
    assert h in db'.codes && db'.codes[h].used;
  }

  lemma TakeRefreshSpends(db: Db, h: string)
    requires db.TakeRefresh(h).1.Ok?
    ensures Spent(db) <= Spent(db.TakeRefresh(h).0) && FromRefresh(h) in Spent(db.TakeRefresh(h).0) - Spent(db)
  {
    var db' := db.TakeRefresh(h).0;
    assert h in db'.refresh && db'.refresh[h].revoked;
  }

  lemma PutRefreshSpends(db: Db, t: RefreshToken)
    requires t.hash !in db.refresh
    ensures Spent(db) <= Spent(db.PutRefresh(t))
  {
  }

  lemma RevokeSpends(db: Db, f: string)
    ensures Spent(db) <= Spent(db.RevokeFamily(f))
  {
  }

  lemma TokenKeepsSpent(cfg: Config, db: Db, now: Time, t: TokenThread, v: string, w: string)
    requires t.GrantRefresh? ==> v !in db.refresh
    ensures Spent(db) <= Spent(TokenStep(cfg, db, now, t, v, w).db)
  {
    Frames.TokenWrites(cfg, db, now, t, v, w);
    if t.CodeTake? {
      if db.TakeCode(t.hash).1.Ok? { TakeCodeSpends(db, t.hash); }
    } else if t.RefreshTake? {
      if db.TakeRefresh(t.rreq.token).1.Ok? { TakeRefreshSpends(db, t.rreq.token); }
    } else if t.Revoke? {
      RevokeSpends(db, t.familyID);
    } else if t.GrantRefresh? {
      PutRefreshSpends(db, NewRefresh(cfg, v, w, t.g, now));
    }
  }

  /** A token request marks only the grant it has claimed. */
  lemma TokenMarks(cfg: Config, db: Db, now: Time, t: TokenThread, v: string, w: string)
    ensures var ev := TokenStep(cfg, db, now, t, v, w).events;
            |ev| <= 1 && |MarkIn(ev)| <= 1 && (MarkIn(ev) != [] ==> Some(MarkIn(ev)[0]) == ClaimOf(Token(t)))
  {
  }

  /** A claim begins when a grant is taken, and moves on with each mark. */
  lemma TokenClaims(cfg: Config, db: Db, now: Time, t: TokenThread, v: string, w: string)
    requires HashKeyed(db)
    ensures var r := TokenStep(cfg, db, now, t, v, w);
            var c, c', mark := ClaimOf(Token(t)), ClaimOf(r.next), MarkIn(r.events);
            c'.Some? ==>
              || (c.Some? && c'.value.src == c.value.src && c'.value.stage >= c.value.stage
                  && (mark != [] ==> c'.value.stage > c.value.stage))
              || (mark == [] && c'.value.src in Spent(r.db) - Spent(db))
  {
    if t.CodeTake? {
      if db.TakeCode(t.hash).1.Ok? { TakeCodeSpends(db, t.hash); }
    } else if t.RefreshTake? {
      if db.TakeRefresh(t.rreq.token).1.Ok? { TakeRefreshSpends(db, t.rreq.token); }
    }
  }

  lemma TokenSpendsOnce(cfg: Config, db: Db, now: Time, t: TokenThread, v: string, w: string)
    requires HashKeyed(db) && (t.GrantRefresh? ==> v !in db.refresh)
    ensures var r := TokenStep(cfg, db, now, t, v, w); SpendsOnce(db, Token(t), r.db, r.next, r.events)
  {
    TokenKeepsSpent(cfg, db, now, t, v, w);
    TokenMarks(cfg, db, now, t, v, w);
    TokenClaims(cfg, db, now, t, v, w);
  }

  /** Browser requests neither claim a grant nor leave a mark. */
  lemma BrowserClaims(cfg: Config, db: Db, pending: map<string, PendingAuth>, now: Time, b: BrowserThread, v: string)
    ensures var r := BrowserStep(cfg, db, pending, now, b, v);
            |r.events| <= 1 && MarkIn(r.events) == [] && ClaimOf(r.next) == None
  {
  }

  lemma BrowserSpendsNothing(cfg: Config, db: Db, pending: map<string, PendingAuth>, now: Time, b: BrowserThread, v: string)
    requires b.SaveCode? ==> v !in db.codes
    ensures var r := BrowserStep(cfg, db, pending, now, b, v); SpendsOnce(db, Browser(b), r.db, r.next, r.events)
  {
    Frames.BrowserFrame(cfg, db, pending, now, b, v);
    BrowserClaims(cfg, db, pending, now, b, v);
  }

  /** A step that stores no refresh token: rows stay in their family and revoked, and the only turn it can begin
      is of an unrevoked token. */
  ghost predicate TurnsOnly(db: Db, th: Thread, db': Db, th': Thread, ev: seq<Event>) {
    && |ev| <= 1 && MintIn(ev) == [] && Rows(db').Keys == Rows(db).Keys
    && (forall h | h in Rows(db) :: Rows(db')[h].family == Rows(db)[h].family && (Rows(db)[h].revoked ==> Rows(db')[h].revoked))
    && (TurnOf(th').Some? && TurnOf(th') != TurnOf(th) ==>
          var h := TurnOf(th').value.src.hash;
          h in Rows(db) && !Rows(db)[h].revoked && TurnOf(th').value == Turn(Rows(db)[h].family, FromRefresh(h)))
  }

  /** A request keeps its turn, drops it, or begins one of a live token. */
  lemma TurnMoves(w: Forest, tid: nat, turn: Option<Turn>, turn': Option<Turn>)
    requires Grown(w) && turn == Get(w.turns, tid)
    requires turn'.Some? && turn' != turn ==>
               var h := turn'.value.src.hash;
               h in w.rows && !w.rows[h].revoked && turn'.value == Turn(w.rows[h].family, FromRefresh(h))
    ensures forall t | t in Assign(w.turns, tid, turn') :: TurnOk(w.mints, Assign(w.turns, tid, turn')[t])
  {
    if turn'.Some? && turn' != turn { LiveIsNewest(w, turn'.value.src.hash); }
  }

  lemma StepKeepsForest(s: Sys, s': Sys, tid: nat, th': Thread, ev: seq<Event>)
    requires Grown(ForestOf(s)) && tid in s.threads && TurnsOnly(s.db, s.threads[tid], s'.db, th', ev)
    requires s'.threads == s.threads[tid := th'] && s'.log == s.log + ev
    ensures Grown(ForestOf(s'))
  {
    var w := ForestOf(s);
    LogGrows(s.log, ev);
    ThreadMoves(s.threads, tid, th');
    TurnMoves(w, tid, if tid in w.turns then Some(w.turns[tid]) else None, TurnOf(th'));
    ForestKept(w, Rows(s'.db), Assign(w.turns, tid, TurnOf(th')));
    assert Mints(s'.log) == w.mints;
  }

  lemma RevokeRows(db: Db, f: string)
    ensures Rows(db.RevokeFamily(f)) == map h | h in Rows(db) :: Row(Rows(db)[h].family, Rows(db)[h].revoked || Rows(db)[h].family == f)
  {
  }

  lemma TakeRefreshRows(db: Db, h: string)
    requires db.TakeRefresh(h).1.Ok?
    ensures h in Rows(db) && !Rows(db)[h].revoked
    ensures Rows(db.TakeRefresh(h).0) == Rows(db)[h := Row(Rows(db)[h].family, true)]
  {
  }

  lemma TokenTurnsOnly(cfg: Config, db: Db, now: Time, t: TokenThread, v: string, w: string)
    requires HashKeyed(db) && !t.GrantRefresh?
    ensures var r := TokenStep(cfg, db, now, t, v, w); TurnsOnly(db, Token(t), r.db, r.next, r.events)
  {
    TokenRows(cfg, db, now, t, v, w);
    TokenBegins(cfg, db, now, t, v, w);
  }

  /** A step that stores no refresh token keeps the rows, and revokes at most. */
  lemma TokenRows(cfg: Config, db: Db, now: Time, t: TokenThread, v: string, w: string)
    requires !t.GrantRefresh?
    ensures var rows, rows' := Rows(db), Rows(TokenStep(cfg, db, now, t, v, w).db);
            rows'.Keys == rows.Keys
            && forall h | h in rows :: rows'[h].family == rows[h].family && (rows[h].revoked ==> rows'[h].revoked)
  {
    Frames.TokenWrites(cfg, db, now, t, v, w);
    if t.RefreshTake? {
      if db.TakeRefresh(t.rreq.token).1.Ok? { TakeRefreshRows(db, t.rreq.token); }
    } else if t.Revoke? {
      RevokeRows(db, t.familyID);
    } else {
      Frames.TokenFrame(cfg, db, now, t, v, w);
    }
  }

  /** It begins a rotation only of an unrevoked token. */
  lemma TokenBegins(cfg: Config, db: Db, now: Time, t: TokenThread, v: string, w: string)
    requires HashKeyed(db) && !t.GrantRefresh?
    ensures var r := TokenStep(cfg, db, now, t, v, w);
            && |r.events| <= 1 && MintIn(r.events) == []
            && (TurnOf(r.next).Some? && TurnOf(r.next) != TurnOf(Token(t)) ==>
                  var h := TurnOf(r.next).value.src.hash;
                  h in Rows(db) && !Rows(db)[h].revoked && TurnOf(r.next).value == Turn(Rows(db)[h].family, FromRefresh(h)))
  {
  }

  lemma BrowserTurnsOnly(cfg: Config, db: Db, pending: map<string, PendingAuth>, now: Time, b: BrowserThread, v: string)
    ensures var r := BrowserStep(cfg, db, pending, now, b, v); TurnsOnly(db, Browser(b), r.db, r.next, r.events)
  {
    Frames.BrowserFrame(cfg, db, pending, now, b, v);
    BrowserMintsNothing(cfg, db, pending, now, b, v);
  }

  /** The forest is ready for the token a request is about to store. */
  lemma ReadyToMint(s: Sys, tid: nat, g: Grant, t: RefreshToken)
    requires Inv(s) && tid in s.threads && TurnOf(s.threads[tid]) == GrantTurn(g) && ClaimOf(s.threads[tid]) == Some(Claim(g.src, 2))
    requires GrantShape(g, s.used) && t.hash !in s.used
    requires if g.family == "" then t.familyID !in s.used else t.familyID == g.family
    ensures MayMint(ForestOf(s), Mint(t.familyID, t.hash, g.src))
  {
    var w, b := ForestOf(s), BookOf(s);
    if g.src.FromCode? {
      UnknownFamily(w.mints, t.familyID);
    } else {
      assert w.turns[tid] == Turn(g.family, g.src);
      assert TurnOk(w.mints, w.turns[tid]);
      assert b.claims[tid].src in b.spent;
    }
  }

  /** The step that stores a refresh token. */
  lemma MintStep(s: Sys, s': Sys, tid: nat, g: Grant, t: RefreshToken, th': Thread)
    requires Grown(ForestOf(s)) && Balanced(BookOf(s)) && MayMint(ForestOf(s), Mint(t.familyID, t.hash, g.src))
    requires tid in s.threads && ClaimOf(s.threads[tid]) == Some(Claim(g.src, 2)) && !t.revoked
    requires Rows(s'.db) == Rows(s.db)[t.hash := Row(t.familyID, false)] && s'.log == s.log + [RefreshPut(t, g.src)]
    requires s'.threads == s.threads[tid := th'] && TurnOf(th') == None
    ensures Grown(ForestOf(s'))
  {
    var m := Mint(t.familyID, t.hash, g.src);
    var w, b := ForestOf(s), BookOf(s);
    LogGrows(s.log, [RefreshPut(t, g.src)]);
    ThreadMoves(s.threads, tid, th');
    assert b.claims[tid] == Claim(g.src, 2);
    var turns' := Assign(w.turns, tid, None);
    forall u | u in turns' ensures turns'[u] == w.turns[u] && turns'[u].src != m.src {
      TurnIsClaim(s.threads[u]);
      assert u in b.claims && b.claims[u].src == turns'[u].src;
    }
    MintKept(w, m, turns');
  }

  lemma TurnIsClaim(th: Thread)
    requires TurnOf(th).Some?
    ensures ClaimOf(th).Some? && ClaimOf(th).value.src == TurnOf(th).value.src
  {
  }

  lemma SameRows(db: Db, db': Db, used: set<string>, used': set<string>)
    requires Sound(db, used) && db'.codes == db.codes && db'.refresh == db.refresh
    requires used <= used' && "" !in used'
    ensures Sound(db', used')
  {
  }

  lemma CodeRowChanged(db: Db, db': Db, used: set<string>, used': set<string>, c: AuthCode)
    requires Sound(db, used) && db'.codes == db.codes[c.hash := c] && db'.refresh == db.refresh
    requires used <= used' && "" !in used' && c.hash in used'
    ensures Sound(db', used')
  {
  }

  lemma RefreshRowChanged(db: Db, db': Db, used: set<string>, used': set<string>, t: RefreshToken)
    requires Sound(db, used) && db'.codes == db.codes && db'.refresh == db.refresh[t.hash := t]
    requires used <= used' && "" !in used' && t.hash in used' && t.familyID in used'
    ensures Sound(db', used')
  {
  }

  lemma RevokeIsSound(db: Db, used: set<string>, f: string)
    requires Sound(db, used)
    ensures Sound(db.RevokeFamily(f), used)
  {
  }

  lemma TakeCodeIsSound(db: Db, used: set<string>, h: string)
    requires Sound(db, used)
    ensures Sound(db.TakeCode(h).0, used)
  {
    if db.TakeCode(h).1.Ok? { CodeRowChanged(db, db.TakeCode(h).0, used, used, db.TakeCode(h).1.value); }
  }

  lemma TakeRefreshIsSound(db: Db, used: set<string>, h: string)
    requires Sound(db, used)
    ensures Sound(db.TakeRefresh(h).0, used)
  {
    if db.TakeRefresh(h).1.Ok? { RefreshRowChanged(db, db.TakeRefresh(h).0, used, used, db.TakeRefresh(h).1.value); }
  }

  lemma MintIsSound(cfg: Config, db: Db, used: set<string>, now: Time, g: Grant, v: string, w: string)
    requires Sound(db, used) && GrantShape(g, used) && "" !in {v, w}
    ensures Sound(db.PutRefresh(NewRefresh(cfg, v, w, g, now)), used + (if g.family == "" then {v, w} else {v}))
  {
    var t := NewRefresh(cfg, v, w, g, now);
    RefreshRowChanged(db, db.PutRefresh(t), used, used + (if g.family == "" then {v, w} else {v}), t);
  }

  lemma TokenStaysSound(cfg: Config, db: Db, used: set<string>, now: Time, t: TokenThread, v: string, w: string)
    requires Sound(db, used) && TokenShape(t, used) && "" !in {v, w}
    ensures Sound(TokenStep(cfg, db, now, t, v, w).db, used + Drawn(Token(t), v, w))
  {
    var used' := used + Drawn(Token(t), v, w);
    match t
    case CodeTake(h, _, _) => TakeCodeIsSound(db, used, h);
    case RefreshTake(rreq, _) => TakeRefreshIsSound(db, used, rreq.token);
    case Revoke(f) => RevokeIsSound(db, used, f);
    case GrantRefresh(g, _) => MintIsSound(cfg, db, used, now, g, v, w);
    case GrantAccess(_) => SameRows(db, TokenStep(cfg, db, now, t, v, w).db, used, used');
    case _ =>
    assert t.GrantAccess? || t.GrantRefresh? || used' == used;
  }

  /** A token request passes on only issued families. */
  lemma TokenKeepsShape(cfg: Config, db: Db, used: set<string>, now: Time, t: TokenThread, v: string, w: string)
    requires Sound(db, used) && TokenShape(t, used) && "" !in {v, w}
    ensures var r := TokenStep(cfg, db, now, t, v, w);
            && ThreadShape(r.next, used + Drawn(Token(t), v, w))
            && forall m | m in MintIn(r.events) :: m.family in used + Drawn(Token(t), v, w)
  {
  }

  lemma BrowserRows(cfg: Config, db: Db, pending: map<string, PendingAuth>, now: Time, b: BrowserThread, v: string)
    ensures var r := BrowserStep(cfg, db, pending, now, b, v);
            && r.db.refresh == db.refresh && (!b.SaveCode? ==> r.db.codes == db.codes)
            && (b.SaveCode? ==> v in r.db.codes && r.db.codes[v].hash == v && r.db.codes == db.codes[v := r.db.codes[v]])
  {
    Frames.BrowserFrame(cfg, db, pending, now, b, v);
  }

  lemma BrowserMintsNothing(cfg: Config, db: Db, pending: map<string, PendingAuth>, now: Time, b: BrowserThread, v: string)
    ensures var r := BrowserStep(cfg, db, pending, now, b, v); !r.next.Token? && MintIn(r.events) == []
  {
  }

  lemma BrowserStaysSound(cfg: Config, db: Db, pending: map<string, PendingAuth>, used: set<string>, now: Time, b: BrowserThread, v: string)
    requires Sound(db, used) && v != ""
    ensures Sound(BrowserStep(cfg, db, pending, now, b, v).db, used + Drawn(Browser(b), v, v))
  {
    var db' := BrowserStep(cfg, db, pending, now, b, v).db;
    var used' := used + Drawn(Browser(b), v, v);
    BrowserRows(cfg, db, pending, now, b, v);
    if b.SaveCode? { CodeRowChanged(db, db', used, used', db'.codes[v]); } else { SameRows(db, db', used, used'); }
  }

  lemma StepKeeps(cfg: Config, s: Sys, l: Label)
    requires Inv(s) && Enabled(s, l)
    ensures Inv(Apply(cfg, s, l))
  {
    if l.Step? { RequestStepKeeps(cfg, s, l.tid, l.v, l.w); } else { OtherStepKeeps(cfg, s, l); }
  }

  /** The rest of the invariant, once the ledger and the forest are known to be kept. */
  lemma ShapesKept(s: Sys, s': Sys, tid: nat, th': Thread, ev: seq<Event>)
    requires Inv(s) && Sound(s'.db, s'.used) && ThreadShape(th', s'.used) && s.used <= s'.used
    requires s'.threads == s.threads[tid := th'] && s'.log == s.log + ev && |ev| <= 1
    requires forall m | m in MintIn(ev) :: m.family in s'.used
    requires Balanced(BookOf(s')) && Grown(ForestOf(s'))
    ensures Inv(s')
  {
    LogGrows(s.log, ev);
    forall t | t in s'.threads ensures ThreadShape(s'.threads[t], s'.used) {
      assert t != tid ==> ThreadShape(s.threads[t], s.used);
    }
  }

  lemma RequestStepKeeps(cfg: Config, s: Sys, tid: nat, v: string, w: string)
    requires Inv(s) && Enabled(s, Step(tid, v, w))
    ensures Inv(Apply(cfg, s, Step(tid, v, w)))
  {
    match s.threads[tid]
    case Done => assert Apply(cfg, s, Step(tid, v, w)) == s;
    case Browser(b) => BrowserStepKeeps(cfg, s, tid, b, v, w);
    case Token(t) => if t.GrantRefresh? { MintStepKeeps(cfg, s, tid, t, v, w); } else { TokenStepKeeps(cfg, s, tid, t, v, w); }
  }

  lemma BrowserStepKeeps(cfg: Config, s: Sys, tid: nat, b: BrowserThread, v: string, w: string)
    requires Inv(s) && Enabled(s, Step(tid, v, w)) && s.threads[tid] == Browser(b)
    ensures Inv(Apply(cfg, s, Step(tid, v, w)))
  {
    var s' := Apply(cfg, s, Step(tid, v, w));
    var r := BrowserStep(cfg, s.db, s.pending, s.now, b, v);
    BrowserStaysSound(cfg, s.db, s.pending, s.used, s.now, b, v);
    BrowserMintsNothing(cfg, s.db, s.pending, s.now, b, v);
    BrowserSpendsNothing(cfg, s.db, s.pending, s.now, b, v);
    BrowserTurnsOnly(cfg, s.db, s.pending, s.now, b, v);
    StepKeepsBook(s, s', tid, r.next, r.events);
    StepKeepsForest(s, s', tid, r.next, r.events);
    ShapesKept(s, s', tid, r.next, r.events);
  }

  lemma TokenStepKeeps(cfg: Config, s: Sys, tid: nat, t: TokenThread, v: string, w: string)
    requires Inv(s) && Enabled(s, Step(tid, v, w)) && s.threads[tid] == Token(t) && !t.GrantRefresh?
    ensures Inv(Apply(cfg, s, Step(tid, v, w)))
  {
    var s' := Apply(cfg, s, Step(tid, v, w));
    var r := TokenStep(cfg, s.db, s.now, t, v, w);
    assert ThreadShape(s.threads[tid], s.used);
    TokenStaysSound(cfg, s.db, s.used, s.now, t, v, w);
    TokenKeepsShape(cfg, s.db, s.used, s.now, t, v, w);
    TokenSpendsOnce(cfg, s.db, s.now, t, v, w);
    TokenTurnsOnly(cfg, s.db, s.now, t, v, w);
    StepKeepsBook(s, s', tid, r.next, r.events);
    StepKeepsForest(s, s', tid, r.next, r.events);
    ShapesKept(s, s', tid, r.next, r.events);
  }

  lemma PutRefreshRows(db: Db, t: RefreshToken)
    ensures Rows(db.PutRefresh(t)) == Rows(db)[t.hash := Row(t.familyID, t.revoked)]
  {
  }

  lemma MintKeepsForest(s: Sys, s': Sys, tid: nat, g: Grant, accessHash: string, t: RefreshToken)
    requires Inv(s) && tid in s.threads && s.threads[tid] == Token(GrantRefresh(g, accessHash))
    requires t.hash !in s.used && !t.revoked && (if g.family == "" then t.familyID !in s.used else t.familyID == g.family)
    requires s'.db == s.db.PutRefresh(t) && s'.log == s.log + [RefreshPut(t, g.src)]
    requires s'.threads == s.threads[tid := Token(Respond(g, accessHash, Some(t)))]
    ensures Grown(ForestOf(s'))
  {
    assert ThreadShape(s.threads[tid], s.used);
    ReadyToMint(s, tid, g, t);
    PutRefreshRows(s.db, t);
    MintStep(s, s', tid, g, t, s'.threads[tid]);
  }

  lemma NewTokenKeepsForest(cfg: Config, s: Sys, tid: nat, t: TokenThread, v: string, w: string)
    requires Inv(s) && Enabled(s, Step(tid, v, w)) && s.threads[tid] == Token(t) && t.GrantRefresh?
    ensures Grown(ForestOf(Apply(cfg, s, Step(tid, v, w))))
  {
    MintKeepsForest(s, Apply(cfg, s, Step(tid, v, w)), tid, t.g, t.accessHash, NewRefresh(cfg, v, w, t.g, s.now));
  }

  lemma MintStepKeeps(cfg: Config, s: Sys, tid: nat, t: TokenThread, v: string, w: string)
    requires Inv(s) && Enabled(s, Step(tid, v, w)) && s.threads[tid] == Token(t) && t.GrantRefresh?
    ensures Inv(Apply(cfg, s, Step(tid, v, w)))
  {
    var s' := Apply(cfg, s, Step(tid, v, w));
    var r := TokenStep(cfg, s.db, s.now, t, v, w);
    assert ThreadShape(s.threads[tid], s.used);
    TokenStaysSound(cfg, s.db, s.used, s.now, t, v, w);
    TokenKeepsShape(cfg, s.db, s.used, s.now, t, v, w);
    TokenSpendsOnce(cfg, s.db, s.now, t, v, w);
    StepKeepsBook(s, s', tid, r.next, r.events);
    NewTokenKeepsForest(cfg, s, tid, t, v, w);
    ShapesKept(s, s', tid, r.next, r.events);
  }

  lemma OtherStepKeeps(cfg: Config, s: Sys, l: Label)
    requires Inv(s) && Enabled(s, l) && !l.Step?
    ensures Inv(Apply(cfg, s, l))
  {
    var s' := Apply(cfg, s, l);
    SameRows(s.db, s'.db, s.used, s'.used);
    match l
    case Spawn(tid, th) => ThreadChanged(s, s', tid, th);
    case Abort(tid) => ThreadChanged(s, s', tid, Done);
    case Login(userID, tokenHash, sid) => LogGrows(s.log, [SessionStarted(tokenHash, userID, sid)]); ViewsSame(s, s');
    case _ => ViewsSame(s, s');
  }

  lemma ThreadChanged(s: Sys, s': Sys, tid: nat, th: Thread)
    requires Inv(s) && s' == s.(threads := s.threads[tid := th]) && (th == Done || (tid !in s.threads && IsStart(th)))
    ensures Inv(s')
  {
    ThreadMoves(s.threads, tid, th);
    var b, w := BookOf(s), ForestOf(s);
    BookStep(b, tid, None, [], b.spent);
    ForestKept(w, w.rows, w.turns - {tid});
    assert b.marks + [] == b.marks;
    ShapesKept(s, s', tid, th, []);
  }

  lemma ViewsSame(s: Sys, s': Sys)
    requires Inv(s) && Sound(s'.db, s'.used) && s.used <= s'.used && s'.threads == s.threads
    requires s'.db.codes == s.db.codes && s'.db.refresh == s.db.refresh
    requires Marks(s'.log) == Marks(s.log) && Mints(s'.log) == Mints(s.log)
    ensures Inv(s')
  {
    assert BookOf(s') == BookOf(s) && ForestOf(s') == ForestOf(s);
    forall t | t in s'.threads ensures ThreadShape(s'.threads[t], s'.used) {
      assert ThreadShape(s.threads[t], s.used);
    }
  }
}

/** Two small invariants behind refresh-token rotation, apart from the requests that keep them:
    a ledger of spent grants, and the forest of refresh tokens. */
module Ledger {
  import opened Wrappers
  import opened Sorting

  /** The code or refresh token that a token response is given for. */
  datatype Src = FromCode(hash: string) | FromRefresh(hash: string)

  // ----- The ledger: a grant is answered once -----

  /** As a claim: some request is answering src and comes next to write number stage (1 access token,
      2 refresh token, 3 response). As a mark: that write was done for src. */
  datatype Claim = Claim(src: Src, stage: nat)

  datatype Book = Book(claims: map<nat, Claim>, marks: seq<Claim>, spent: set<Src>)

  ghost predicate Balanced(b: Book) {
    && (forall t | t in b.claims :: b.claims[t].src in b.spent)
    && (forall t, u | t in b.claims && u in b.claims && t != u :: b.claims[t].src != b.claims[u].src)
    && (forall m | m in b.marks :: m.src in b.spent)
    && (forall t, m | t in b.claims && m in b.marks && m.src == b.claims[t].src :: m.stage < b.claims[t].stage)
    && NoDuplicates(b.marks)
  }

  function Get<V>(m: map<nat, V>, t: nat): Option<V> { if t in m then Some(m[t]) else None }

  function Assign<V>(m: map<nat, V>, t: nat, o: Option<V>): map<nat, V> {
    if o.Some? then m[t := o.value] else m - {t}
  }

  /** Request t makes at most the write it came to, and then drops its claim, moves it on, or claims an unspent grant. */
  lemma BookStep(b: Book, t: nat, c': Option<Claim>, mark: seq<Claim>, spent': set<Src>)
    requires Balanced(b) && b.spent <= spent' && |mark| <= 1
    requires mark != [] ==> Get(b.claims, t) == Some(mark[0])
    requires c'.Some? ==>
               || (t in b.claims && c'.value.src == b.claims[t].src && c'.value.stage >= b.claims[t].stage
                   && (mark != [] ==> c'.value.stage > b.claims[t].stage))
               || (mark == [] && c'.value.src in spent' - b.spent)
    ensures Balanced(Book(Assign(b.claims, t, c'), b.marks + mark, spent'))
  {
    var b' := Book(Assign(b.claims, t, c'), b.marks + mark, spent');
    forall i, j | 0 <= i < j < |b'.marks| ensures b'.marks[i] != b'.marks[j] {
      assert b'.marks[i] in b.marks;
    }
  }

  // ----- The forest: the tokens of a family form one path -----

  datatype Mint = Mint(family: string, hash: string, src: Src)

  datatype Row = Row(family: string, revoked: bool)

  /** A rotation begun and not finished. */
  datatype Turn = Turn(family: string, src: Src)

  datatype Forest = Forest(mints: seq<Mint>, rows: map<string, Row>, turns: map<nat, Turn>)

  ghost function OfFamily(m: Mint, f: string): seq<Mint> { if m.family == f then [m] else [] }

  /** The refresh tokens of family f in the order they were stored. */
  ghost function Chain(mints: seq<Mint>, f: string): seq<Mint> {
    if mints == [] then [] else Chain(mints[..|mints| - 1], f) + OfFamily(mints[|mints| - 1], f)
  }

  lemma ChainGrows(mints: seq<Mint>, m: Mint, f: string)
    ensures Chain(mints + [m], f) == if m.family == f then Chain(mints, f) + [m] else Chain(mints, f)
  {
    assert (mints + [m])[..|mints|] == mints;
  }

  /** A path from one code: each token after the first was given for the token just before it. */
  ghost predicate IsPath(c: seq<Mint>) {
    && (c != [] ==> c[0].src.FromCode?)
    && (forall i, j | 0 <= i < j < |c| && j == i + 1 :: c[j].src == FromRefresh(c[i].hash))
    && (forall i, j | 0 <= i < j < |c| :: c[i].hash != c[j].hash)
  }

  /** Every token of the chain is stored in family f, and all but the newest are revoked. */
  ghost predicate OnlyNewestLive(rows: map<string, Row>, f: string, c: seq<Mint>) {
    && (forall i | 0 <= i < |c| :: c[i].hash in rows && rows[c[i].hash].family == f)
    && (forall i | 0 <= i < |c| - 1 :: rows[c[i].hash].revoked)
  }

  ghost predicate InChain(c: seq<Mint>, h: string) { exists i :: 0 <= i < |c| && c[i].hash == h }

  /** The token a rotation of family f would be of. */
  ghost predicate Newest(c: seq<Mint>, src: Src) { c != [] && src == FromRefresh(c[|c| - 1].hash) }

  ghost predicate FamilyOk(mints: seq<Mint>, rows: map<string, Row>, f: string) {
    IsPath(Chain(mints, f)) && OnlyNewestLive(rows, f, Chain(mints, f))
  }

  ghost predicate RowOk(mints: seq<Mint>, h: string, row: Row) { InChain(Chain(mints, row.family), h) }

  ghost predicate TurnOk(mints: seq<Mint>, turn: Turn) { Newest(Chain(mints, turn.family), turn.src) }

  ghost predicate Grown(w: Forest) {
    && (forall f :: FamilyOk(w.mints, w.rows, f))
    && (forall h | h in w.rows :: RowOk(w.mints, h, w.rows[h]))
    && (forall t | t in w.turns :: TurnOk(w.mints, w.turns[t]))
  }

  /** Revoking rows, and beginning or ending turns of newest tokens, keeps the forest. */
  lemma ForestKept(w: Forest, rows': map<string, Row>, turns': map<nat, Turn>)
    requires Grown(w) && rows'.Keys == w.rows.Keys
    requires forall h | h in w.rows :: rows'[h].family == w.rows[h].family && (w.rows[h].revoked ==> rows'[h].revoked)
    requires forall t | t in turns' :: TurnOk(w.mints, turns'[t])
    ensures Grown(Forest(w.mints, rows', turns'))
  {
    forall f ensures FamilyOk(w.mints, rows', f) {
      assert FamilyOk(w.mints, w.rows, f);
    }
    forall h | h in rows' ensures RowOk(w.mints, h, rows'[h]) {
      assert RowOk(w.mints, h, w.rows[h]);
    }
  }

  /** An unrevoked token is the newest of its family. */
  lemma LiveIsNewest(w: Forest, h: string)
    requires Grown(w) && h in w.rows && !w.rows[h].revoked
    ensures Newest(Chain(w.mints, w.rows[h].family), FromRefresh(h))
  {
    var c := Chain(w.mints, w.rows[h].family);
    assert RowOk(w.mints, h, w.rows[h]) && FamilyOk(w.mints, w.rows, w.rows[h].family);
    var i :| 0 <= i < |c| && c[i].hash == h;
  }

  lemma PathExtended(rows: map<string, Row>, c: seq<Mint>, m: Mint)
    requires IsPath(c) && OnlyNewestLive(rows, m.family, c) && m.hash !in rows
    requires if c == [] then m.src.FromCode? else Newest(c, m.src) && rows[c[|c| - 1].hash].revoked
    ensures IsPath(c + [m]) && OnlyNewestLive(rows[m.hash := Row(m.family, false)], m.family, c + [m])
  {
  }

  lemma StillInChain(c: seq<Mint>, m: Mint, h: string)
    requires InChain(c, h) || h == m.hash
    ensures InChain(c + [m], h)
  {
    if InChain(c, h) {
      var i :| 0 <= i < |c| && c[i].hash == h;
      assert (c + [m])[i].hash == h;
    } else {
      assert (c + [m])[|c|].hash == h;
    }
  }

  /** m may be stored next: the first token of a new family, or the child of the newest token of a family. */
  ghost predicate MayMint(w: Forest, m: Mint) {
    && m.hash !in w.rows
    && if m.src.FromCode? then Chain(w.mints, m.family) == [] else
         Newest(Chain(w.mints, m.family), m.src) && m.src.hash in w.rows && w.rows[m.src.hash].revoked
  }

  lemma MintKeepsFamily(w: Forest, m: Mint, f: string)
    requires FamilyOk(w.mints, w.rows, f) && MayMint(w, m)
    ensures FamilyOk(w.mints + [m], w.rows[m.hash := Row(m.family, false)], f)
  {
    ChainGrows(w.mints, m, f);
    if f == m.family { PathExtended(w.rows, Chain(w.mints, f), m); }
  }

  lemma MintKeepsRow(w: Forest, m: Mint, h: string, row: Row)
    requires RowOk(w.mints, h, row) || (h == m.hash && row.family == m.family)
    ensures RowOk(w.mints + [m], h, row)
  {
    ChainGrows(w.mints, m, row.family);
    if row.family == m.family { StillInChain(Chain(w.mints, row.family), m, h); }
  }

  lemma MintKeepsTurn(w: Forest, m: Mint, turn: Turn)
    requires TurnOk(w.mints, turn) && MayMint(w, m) && turn.src != m.src
    ensures TurnOk(w.mints + [m], turn)
  {
    ChainGrows(w.mints, m, turn.family);
  }

  /** Storing a token ends the turn it was made in; every other turn is of another family. */
  lemma MintKept(w: Forest, m: Mint, turns': map<nat, Turn>)
    requires Grown(w) && MayMint(w, m)
    requires forall t | t in turns' :: t in w.turns && turns'[t] == w.turns[t] && turns'[t].src != m.src
    ensures Grown(Forest(w.mints + [m], w.rows[m.hash := Row(m.family, false)], turns'))
  {
    var rows' := w.rows[m.hash := Row(m.family, false)];
    forall f ensures FamilyOk(w.mints + [m], rows', f) { MintKeepsFamily(w, m, f); }
    forall h | h in rows' ensures RowOk(w.mints + [m], h, rows'[h]) { MintKeepsRow(w, m, h, rows'[h]); }
    forall t | t in turns' ensures TurnOk(w.mints + [m], turns'[t]) { MintKeepsTurn(w, m, turns'[t]); }
  }
}

/** Putting runs of the grant machine together: what is needed to exhibit a run with given behaviour. */
module Scene {
  import opened Wrappers
  import opened Domain
  import opened Grants
  import opened Runs

  /** Some run leads from s to s'. */
  ghost predicate Reaches(cfg: Config, s: Sys, s': Sys) { exists n :: Leads(cfg, s, s', n) }

  lemma Stays(cfg: Config, s: Sys)
    ensures Reaches(cfg, s, s)
  {
    assert Leads(cfg, s, s, 0);
  }

  lemma Then(cfg: Config, s: Sys, m: Sys, s': Sys)
    requires Reaches(cfg, s, m) && Reaches(cfg, m, s')
    ensures Reaches(cfg, s, s')
  {
    var i :| Leads(cfg, s, m, i);
    var j :| Leads(cfg, m, s', j);
    LeadsJoin(cfg, s, m, s', i, j);
  }

  lemma StillReachable(cfg: Config, s: Sys, s': Sys)
    requires Reachable(cfg, s) && Reaches(cfg, s, s')
    ensures Reachable(cfg, s')
  {
    var s0, n :| Init(s0) && Leads(cfg, s0, s, n);
    var j :| Leads(cfg, s, s', j);
    LeadsJoin(cfg, s0, s, s', n, j);
  }

  lemma Happens(cfg: Config, s: Sys, l: Label)
    requires Enabled(s, l)
    ensures Reaches(cfg, s, Apply(cfg, s, l))
  {
    assert Leads(cfg, s, s, 0) && Next(cfg, s, Apply(cfg, s, l));
    LeadsThen(cfg, s, s, Apply(cfg, s, l), 0);
  }

  // ----- There are always new values and new requests -----

  lemma {:induction false} LongerThanAll(used: set<string>) returns (n: nat)
    ensures forall x | x in used :: |x| < n
    decreases |used|
  {
    if used == {} {
      n := 1;
    } else {
      var x :| x in used;
      var m := LongerThanAll(used - {x});
      n := if |x| < m then m else |x| + 1;
    }
  }

  lemma FreshValues(used: set<string>) returns (v: string, w: string)
    ensures v != w && v !in used && w !in used && v != "" && w != ""
  {
    var n := LongerThanAll(used);
    v := seq(n + 1, i => 'x');
    w := seq(n + 2, i => 'x');
    assert |v| == n + 1 && |w| == n + 2;
  }

  lemma {:induction false} LargerThanAll(used: set<nat>) returns (n: nat)
    ensures n !in used && forall x | x in used :: x < n
    decreases |used|
  {
    if used == {} {
      n := 0;
    } else {
      var x :| x in used;
      var m := LargerThanAll(used - {x});
      n := if x < m then m else x + 1;
      forall y | y in used ensures y < n { assert y == x || y in used - {x}; }
    }
  }

  lemma FreshRequest(s: Sys) returns (tid: nat)
    ensures tid !in s.threads
  {
    tid := LargerThanAll(s.threads.Keys);
  }

  // ----- One step of one request -----

  /** s' is s after request tid made the step with result r. */
  ghost predicate After(s: Sys, s': Sys, tid: nat, r: StepResult) {
    && s'.db == r.db && s'.pending == r.pending && s'.threads == s.threads[tid := r.next]
    && s'.log == s.log + r.events && s'.now == s.now && s.used <= s'.used
  }

  /** A request in flight can always take its next step, with new values. */
  lemma Moves(cfg: Config, s: Sys, tid: nat) returns (s': Sys, v: string, w: string)
    requires tid in s.threads
    ensures Reaches(cfg, s, s') && After(s, s', tid, Body(cfg, s.db, s.pending, s.now, s.threads[tid], v, w))
    ensures v != w && v !in s.used && w !in s.used && v != "" && w != ""
  {
    v, w := FreshValues(s.used);
    var l := Step(tid, v, w);
    assert Drawn(s.threads[tid], v, w) <= {v, w};
    assert Enabled(s, l);
    Happens(cfg, s, l);
    s' := Apply(cfg, s, l);
  }

  /** Nothing changed but the request itself. */
  ghost predicate Only(s: Sys, s': Sys, tid: nat, th: Thread) {
    && s'.db == s.db && s'.pending == s.pending && s'.threads == s.threads[tid := th]
    && s'.log == s.log && s'.now == s.now && s.used <= s'.used
  }

  /** The request moved and the log may have grown; nothing else changed. */
  ghost predicate Quietly(s: Sys, s': Sys, tid: nat, th: Thread) {
    && s'.db == s.db && s'.pending == s.pending && s'.threads == s.threads[tid := th]
    && s.log <= s'.log && s'.now == s.now && s.used <= s'.used
  }

  /** Steps that only look. */
  lemma Looks(cfg: Config, s: Sys, tid: nat, th: Thread) returns (s': Sys)
    requires tid in s.threads
    requires forall v, w :: Body(cfg, s.db, s.pending, s.now, s.threads[tid], v, w) == StepResult(s.db, s.pending, th, [])
    ensures Reaches(cfg, s, s') && Only(s, s', tid, th)
  {
    var v, w;
    s', v, w := Moves(cfg, s, tid);
    assert s.log + [] == s.log;
  }

  /** A step that only logs what it saw. */
  lemma Notes(cfg: Config, s: Sys, tid: nat, th: Thread, e: Event) returns (s': Sys)
    requires tid in s.threads
    requires forall v, w :: Body(cfg, s.db, s.pending, s.now, s.threads[tid], v, w) == StepResult(s.db, s.pending, th, [e])
    ensures Reaches(cfg, s, s') && Quietly(s, s', tid, th)
  {
    var v, w;
    s', v, w := Moves(cfg, s, tid);
  }

  lemma QuietlyTwice(s: Sys, m: Sys, s': Sys, tid: nat, th: Thread, th': Thread)
    requires Quietly(s, m, tid, th) && Quietly(m, s', tid, th')
    ensures Quietly(s, s', tid, th')
  {
  }

  lemma OnlyTwice(s: Sys, m: Sys, s': Sys, tid: nat, th: Thread, th': Thread)
    requires Only(s, m, tid, th) && Only(m, s', tid, th')
    ensures Only(s, s', tid, th')
  {
  }

  lemma Starts(cfg: Config, s: Sys, th: Thread) returns (s': Sys, tid: nat)
    requires IsStart(th)
    ensures tid !in s.threads && Reaches(cfg, s, s') && s' == s.(threads := s.threads[tid := th])
  {
    tid := FreshRequest(s);
    Happens(cfg, s, Spawn(tid, th));
    s' := Apply(cfg, s, Spawn(tid, th));
  }

  // ----- A token request past its checks -----

  lemma PastUser(cfg: Config, s: Sys, tid: nat, g: Grant) returns (s': Sys)
    requires tid in s.threads && s.threads[tid] == Token(GrantUser(g)) && g.terms.userID in s.db.users
    ensures Reaches(cfg, s, s') && Only(s, s', tid, Token(GrantAccess(g)))
  {
    s' := Looks(cfg, s, tid, Token(GrantAccess(g)));
  }

  lemma PastAccess(cfg: Config, s: Sys, tid: nat, g: Grant) returns (s': Sys, a: string)
    requires tid in s.threads && s.threads[tid] == Token(GrantAccess(g)) && g.withRefresh
    ensures Reaches(cfg, s, s') && s'.threads == s.threads[tid := Token(GrantRefresh(g, a))]
    ensures s'.db == s.db.(access := s'.db.access) && s'.pending == s.pending && s'.now == s.now && s.used <= s'.used
    ensures s.log <= s'.log
  {
    var w;
    s', a, w := Moves(cfg, s, tid);
  }

  /** The new refresh token: unrevoked, in the family of the grant, or in a new one. */
  lemma PastRefresh(cfg: Config, s: Sys, tid: nat, g: Grant, a: string) returns (s': Sys, t: RefreshToken)
    requires tid in s.threads && s.threads[tid] == Token(GrantRefresh(g, a))
    ensures Reaches(cfg, s, s') && s'.threads == s.threads[tid := Token(Respond(g, a, Some(t)))]
    ensures s'.db == s.db.PutRefresh(t) && s'.pending == s.pending && s'.now == s.now && s.used <= s'.used && s.log <= s'.log
    ensures t.hash !in s.used && t.hash != "" && t.terms == g.terms && !t.revoked && t.expiresAt == s.now + cfg.refreshTTL
    ensures if g.family == "" then t.familyID !in s.used else t.familyID == g.family
  {
    var v, w;
    s', v, w := Moves(cfg, s, tid);
    t := NewRefresh(cfg, v, w, g, s.now);
  }

  /** From the user lookup of writeTokenResponse to the stored refresh token. */
  lemma Granted(cfg: Config, s: Sys, tid: nat, g: Grant) returns (s': Sys, t: RefreshToken)
    requires tid in s.threads && s.threads[tid] == Token(GrantUser(g)) && g.withRefresh && g.terms.userID in s.db.users
    ensures Reaches(cfg, s, s') && s'.threads.Keys == s.threads.Keys && s.log <= s'.log && s'.now == s.now && s.used <= s'.used
    ensures s'.db == s.db.(access := s'.db.access, refresh := s.db.refresh[t.hash := t]) && s'.pending == s.pending
    ensures t.hash !in s.used && t.hash != "" && t.terms == g.terms && !t.revoked && t.expiresAt == s.now + cfg.refreshTTL
    ensures if g.family == "" then t.familyID !in s.used else t.familyID == g.family
    ensures forall k | k in s.threads && k != tid :: s'.threads[k] == s.threads[k]
  {
    var m1 := PastUser(cfg, s, tid, g);
    var m2, a := PastAccess(cfg, m1, tid, g);
    s', t := PastRefresh(cfg, m2, tid, g, a);
    Then(cfg, s, m1, m2);
    Then(cfg, s, m2, s');
  }
}

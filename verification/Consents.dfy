/** What the stored consent of a user and a client is: the last one put, which need not be the one a code rests on. */
module Consents {
  import opened Wrappers
  import opened Sorting
  import opened Domain
  import opened Grants
  import opened Scene
  import Flows
  import Frames
  import Lineage
  import Soundness

  ghost predicate IsPutOf(e: Event, userID: string, clientID: string) {
    e.ConsentPut? && e.consent.userID == userID && e.consent.clientID == clientID
  }

  /** The last consent put for the pair. */
  ghost function LastPut(log: seq<Event>, userID: string, clientID: string): Option<Consent> {
    if log == [] then None
    else if IsPutOf(log[|log| - 1], userID, clientID) then Some(log[|log| - 1].consent)
    else LastPut(log[..|log| - 1], userID, clientID)
  }

  function StoredFor(consent: map<string, Consent>, userID: string, clientID: string): Option<Consent> {
    var k := ConsentKey(userID, clientID);
    if k in consent then Some(consent[k]) else None
  }

  ghost predicate Tracks(consent: map<string, Consent>, log: seq<Event>) {
    forall u, c | '|' !in u :: StoredFor(consent, u, c) == LastPut(log, u, c)
  }

  ghost predicate ProperUsers(log: seq<Event>) { forall e | e in log && e.ConsentPut? :: '|' !in e.consent.userID }

  ghost predicate Inv(s: Sys) { Tracks(s.db.consent, s.log) && ProperUsers(s.log) }

  lemma LastPutGrows(log: seq<Event>, ev: seq<Event>, u: string, c: string)
    requires |ev| <= 1
    ensures LastPut(log + ev, u, c) == if ev != [] && IsPutOf(ev[0], u, c) then Some(ev[0].consent) else LastPut(log, u, c)
  {
    if ev == [] { assert log + ev == log; } else { assert (log + ev)[..|log|] == log; }
  }

  lemma NothingPut(consent: map<string, Consent>, log: seq<Event>, ev: seq<Event>)
    requires Tracks(consent, log) && |ev| <= 1 && (ev == [] || !ev[0].ConsentPut?)
    ensures Tracks(consent, log + ev)
  {
    forall u, c | '|' !in u ensures StoredFor(consent, u, c) == LastPut(log + ev, u, c) { LastPutGrows(log, ev, u, c); }
  }

  /** A put changes the stored consent of its own pair only: the joined key is a pair key. */
  lemma PutTracked(consent: map<string, Consent>, log: seq<Event>, put: Consent)
    requires Tracks(consent, log) && '|' !in put.userID
    ensures Tracks(consent[ConsentKey(put.userID, put.clientID) := put], log + [ConsentPut(put)])
  {
    forall u, c | '|' !in u
      ensures StoredFor(consent[ConsentKey(put.userID, put.clientID) := put], u, c) == LastPut(log + [ConsentPut(put)], u, c)
    {
      LastPutGrows(log, [ConsentPut(put)], u, c);
      Soundness.ConsentKeyIsPairKey(u, c, put.userID, put.clientID);
    }
  }

  lemma BrowserPuts(cfg: Config, db: Db, pending: map<string, PendingAuth>, now: Time, b: BrowserThread, v: string)
    ensures var r := BrowserStep(cfg, db, pending, now, b, v);
            && |r.events| <= 1 && (!b.SaveConsent? ==> r.db.consent == db.consent && (r.events == [] || !r.events[0].ConsentPut?))
            && (b.SaveConsent? ==> var c := Consent(b.userID, b.p.clientID, b.p.scopes);
                                   r.events == [ConsentPut(c)] && r.db == db.PutConsent(c))
  {
    Frames.BrowserFrame(cfg, db, pending, now, b, v);
  }

  lemma TokenPutsNothing(cfg: Config, db: Db, now: Time, t: TokenThread, v: string, w: string)
    ensures var r := TokenStep(cfg, db, now, t, v, w);
            |r.events| <= 1 && r.db.consent == db.consent && (r.events == [] || !r.events[0].ConsentPut?)
  {
    Frames.TokenFrame(cfg, db, now, t, v, w);
  }

  lemma RequestKeeps(cfg: Config, s: Sys, tid: nat, v: string, w: string)
    requires Inv(s) && Soundness.Inv(cfg, s) && Enabled(s, Step(tid, v, w))
    ensures Inv(Apply(cfg, s, Step(tid, v, w)))
  {
    match s.threads[tid]
    case Browser(b) =>
      assert Soundness.ThreadOk(cfg, s.db, s.log, s.now, s.threads[tid]);
      BrowserKeeps(cfg, s, b, v);
    case Token(t) =>
      TokenPutsNothing(cfg, s.db, s.now, t, v, w);
      NothingPut(s.db.consent, s.log, TokenStep(cfg, s.db, s.now, t, v, w).events);
    case Done => NothingPut(s.db.consent, s.log, []);
  }

  lemma BrowserKeeps(cfg: Config, s: Sys, b: BrowserThread, v: string)
    requires Inv(s) && Soundness.BrowserOk(cfg, s.log, s.now, b)
    ensures var r := BrowserStep(cfg, s.db, s.pending, s.now, b, v); Tracks(r.db.consent, s.log + r.events) && ProperUsers(s.log + r.events)
  {
    BrowserPuts(cfg, s.db, s.pending, s.now, b, v);
    if b.SaveConsent? {
      PutTracked(s.db.consent, s.log, Consent(b.userID, b.p.clientID, b.p.scopes));
    } else {
      NothingPut(s.db.consent, s.log, BrowserStep(cfg, s.db, s.pending, s.now, b, v).events);
    }
  }

  lemma OtherKeeps(cfg: Config, s: Sys, l: Label)
    requires Inv(s) && Enabled(s, l) && !l.Step?
    ensures Inv(Apply(cfg, s, l))
  {
    if l.Login? {
      NothingPut(s.db.consent, s.log, [SessionStarted(l.tokenHash, l.userID, l.sid)]);
    } else if l.DropSession? {
      Frames.DeleteFrame(s.db, l.tokenHash);
    }
  }

  lemma ReachableInv(cfg: Config, s: Sys)
    requires Reachable(cfg, s)
    ensures Inv(s) && Soundness.Inv(cfg, s)
  {
    var s0, n :| Init(s0) && Leads(cfg, s0, s, n);
    assert Leads(cfg, s0, s0, 0);
    Soundness.ReachableInv(cfg, s0);
    var P := (x: Sys) => Inv(x) && Soundness.Inv(cfg, x) && Lineage.Inv(x);
    forall a, b | P(a) && Next(cfg, a, b) ensures P(b) {
      var l :| Enabled(a, l) && b == Apply(cfg, a, l);
      Soundness.StepKeeps(cfg, a, l);
      Lineage.StepKeeps(cfg, a, l);
      if l.Step? { RequestKeeps(cfg, a, l.tid, l.v, l.w); } else { OtherKeeps(cfg, a, l); }
    }
    RunInduction(cfg, s0, s, n, P);
  }

  // ----- Results -----

  /** In every reachable state the stored consent of a user and a client is the last one put for them. */
  lemma StoredConsentIsTheLastPut(cfg: Config, s: Sys, userID: string, clientID: string)
    requires Reachable(cfg, s) && '|' !in userID
    ensures s.db.GetConsent(userID, clientID) == LastPut(s.log, userID, clientID)
  {
    ReachableInv(cfg, s);
    assert StoredFor(s.db.consent, userID, clientID) == LastPut(s.log, userID, clientID);
  }

  /** A code rests on some consent put by its user for its client that covers it. The stored consent covers it as long as
      the last one put for the pair does, and only so long. */
  lemma CodeStaysCoveredExactly(cfg: Config, s: Sys, h: string)
    requires Reachable(cfg, s) && h in s.db.codes
    ensures var t := s.db.codes[h].terms;
            var stored, last := s.db.GetConsent(t.userID, t.clientID), LastPut(s.log, t.userID, t.clientID);
            && (exists c :: ConsentPut(c) in s.log && c.userID == t.userID && c.clientID == t.clientID
                            && Elements(t.scopes) <= Elements(c.scopes))
            && stored.Some? && last.Some?
            && (Elements(t.scopes) <= Elements(stored.value.scopes) <==> Elements(t.scopes) <= Elements(last.value.scopes))
  {
    ReachableInv(cfg, s);
    var code := s.db.codes[h];
    assert Soundness.CodeOk(cfg, s.log, s.now, code);
    var c :| ConsentPut(c) in s.log && c.userID == code.terms.userID && c.clientID == code.terms.clientID && Covers(c.scopes, code.terms.scopes);
    assert '|' !in c.userID;
    forall x | x in Elements(code.terms.scopes) ensures x in Elements(c.scopes) { assert x in code.terms.scopes; }
    StoredConsentIsTheLastPut(cfg, s, code.terms.userID, code.terms.clientID);
    SomeLastPut(s.log, ConsentPut(c));
  }

  lemma {:induction false} SomeLastPut(log: seq<Event>, e: Event)
    requires e in log && e.ConsentPut?
    ensures LastPut(log, e.consent.userID, e.consent.clientID).Some?
  {
    var n := |log| - 1;
    if !IsPutOf(log[n], e.consent.userID, e.consent.clientID) { SomeLastPut(log[..n], e); }
  }

  /** It does stop: a run from the initial state in which a second authorize request with other scopes overwrites the
      consent that an unused, unexpired code rests on. */
  lemma AConsentOverwritten(cfg: Config, uri: string, verifier: string, challenge: string) returns (s: Sys, h: string)
    requires Flows.Usable(cfg, uri, verifier, challenge)
    ensures Reachable(cfg, s) && h in s.db.codes && !s.db.codes[h].used && s.db.codes[h].expiresAt > s.now
    ensures var t := s.db.codes[h].terms;
            var stored := s.db.GetConsent(t.userID, t.clientID);
            stored.Some? && !(Elements(t.scopes) <= Elements(stored.value.scopes))
  {
    var s0, a, cookie, sid, p := Flows.FirstCode(cfg, uri, verifier, challenge, ["openid", "offline_access"]);
    assert "offline_access" in Elements(p.scopes) && "email" !in Elements(p.scopes);
    var s1;
    s1, h := Flows.Issues(cfg, s0, a, "ann", sid, p, 0);
    var raw, scopes := Flows.ScopeString(["openid", "email"]);
    assert "email" in Elements(scopes) && "offline_access" !in Elements(scopes);
    var q := Flows.Query(cookie, uri, challenge, raw);
    assert Flows.Accepted(cfg, s1, q, scopes);
    assert s1.db.GetConsent("ann", "app") == Some(Consent("ann", "app", p.scopes));
    var b;
    s, b := Flows.AsksAndAllows(cfg, s1, cookie, "ann", q, scopes);
    Then(cfg, s0, s1, s);
    StillReachable(cfg, s0, s);
    assert s.db.GetConsent("ann", "app") == Some(Consent("ann", "app", scopes));
  }
}

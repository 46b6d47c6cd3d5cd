/** Who is behind what a request does: an account that was found stored and enabled, a client that proved itself. */
module Vetting {
  import opened Wrappers
  import opened Domain
  import opened Ledger
  import opened Grants

  /** A lookup found the account of that user, enabled. */
  ghost predicate Found(log: seq<Event>, userID: string) { exists user :: UserSeen(userID, user) in log && !user.disabled }

  /** A confidential client presented its secret, or a public one none. */
  ghost predicate Admits(cfg: Config, client: Client, secret: string) {
    if client.clientType == Confidential then cfg.secretMatches(secret, client.secretHash) else secret == ""
  }

  ghost predicate Proved(cfg: Config, log: seq<Event>, clientID: string) {
    exists client, secret :: ClientSeen(client, secret) in log && client.id == clientID && Admits(cfg, client, secret)
  }

  ghost predicate ContVetted(log: seq<Event>, k: Cont) { k.ForIssue? ==> Found(log, k.userID) }

  ghost predicate BrowserVetted(log: seq<Event>, b: BrowserThread) {
    match b
    case Lookup(_, k) => ContVetted(log, k)
    case Live(_, _, k) => ContVetted(log, k)
    case Forget(_, k) => ContVetted(log, k)
    case Build(_, userID, _, _) => Found(log, userID)
    case CheckConsent(_, userID, _, _) => Found(log, userID)
    case Park(userID, _) => Found(log, userID)
    case TakePending(_, userID, _, _) => Found(log, userID)
    case Decide(_, userID, _, _) => Found(log, userID)
    case SaveConsent(_, userID, _, _) => Found(log, userID)
    case SaveCode(userID, _, _, _) => Found(log, userID)
    case _ => true
  }

  /** The client a token request has authenticated as, or is answering. */
  function ClientOf(t: TokenThread): Option<string> {
    match t
    case CodeTake(_, _, id) => Some(id)
    case CodeCheck(_, id, _) => Some(id)
    case RefreshTake(_, id) => Some(id)
    case RefreshCheck(id, _) => Some(id)
    case GrantUser(g) => Some(g.terms.clientID)
    case GrantAccess(g) => Some(g.terms.clientID)
    case GrantRefresh(g, _) => Some(g.terms.clientID)
    case _ => None
  }

  ghost predicate ThreadVetted(cfg: Config, log: seq<Event>, th: Thread) {
    match th
    case Browser(b) => BrowserVetted(log, b)
    case Token(t) => ClientOf(t).Some? ==> Proved(cfg, log, ClientOf(t).value)
    case Done => true
  }

  /** The user an event acts for. */
  function UserOf(e: Event): Option<string> {
    match e
    case Parked(_, _, userID) => Some(userID)
    case ConsentPut(c) => Some(c.userID)
    case CodeIssued(code, _, _, _) => Some(code.terms.userID)
    case _ => None
  }

  /** The client an event serves. */
  function ServedBy(e: Event): Option<string> {
    match e
    case Exchanged(_, id, _, _, _) => Some(id)
    case AccessPut(access, _) => Some(access.terms.clientID)
    case RefreshPut(token, _) => Some(token.terms.clientID)
    case _ => None
  }

  ghost predicate EventVetted(cfg: Config, before: seq<Event>, e: Event) {
    && (UserOf(e).Some? ==> Found(before, UserOf(e).value))
    && (ServedBy(e).Some? ==> Proved(cfg, before, ServedBy(e).value))
  }

  ghost predicate LogVetted(cfg: Config, log: seq<Event>) { forall k | 0 <= k < |log| :: EventVetted(cfg, log[..k], log[k]) }

  ghost predicate Inv(cfg: Config, s: Sys) {
    LogVetted(cfg, s.log) && forall t | t in s.threads :: ThreadVetted(cfg, s.log, s.threads[t])
  }

  lemma FoundGrows(log: seq<Event>, ev: seq<Event>, userID: string)
    requires Found(log, userID)
    ensures Found(log + ev, userID)
  {
    var user :| UserSeen(userID, user) in log && !user.disabled;
    assert UserSeen(userID, user) in log + ev;
  }

  lemma ProvedGrows(cfg: Config, log: seq<Event>, ev: seq<Event>, clientID: string)
    requires Proved(cfg, log, clientID)
    ensures Proved(cfg, log + ev, clientID)
  {
    var client, secret :| ClientSeen(client, secret) in log && client.id == clientID && Admits(cfg, client, secret);
    assert ClientSeen(client, secret) in log + ev;
  }

  lemma ContGrows(log: seq<Event>, ev: seq<Event>, k: Cont)
    requires ContVetted(log, k)
    ensures ContVetted(log + ev, k)
  {
    if k.ForIssue? { FoundGrows(log, ev, k.userID); }
  }

  lemma ThreadGrows(cfg: Config, log: seq<Event>, ev: seq<Event>, th: Thread)
    requires ThreadVetted(cfg, log, th)
    ensures ThreadVetted(cfg, log + ev, th)
  {
    match th
    case Browser(b) =>
      match b {
        case Lookup(_, k) => ContGrows(log, ev, k);
        case Live(_, _, k) => ContGrows(log, ev, k);
        case Forget(_, k) => ContGrows(log, ev, k);
        case Build(_, userID, _, _) => FoundGrows(log, ev, userID);
        case CheckConsent(_, userID, _, _) => FoundGrows(log, ev, userID);
        case Park(userID, _) => FoundGrows(log, ev, userID);
        case TakePending(_, userID, _, _) => FoundGrows(log, ev, userID);
        case Decide(_, userID, _, _) => FoundGrows(log, ev, userID);
        case SaveConsent(_, userID, _, _) => FoundGrows(log, ev, userID);
        case SaveCode(userID, _, _, _) => FoundGrows(log, ev, userID);
        case _ =>
      }
    case Token(t) => if ClientOf(t).Some? { ProvedGrows(cfg, log, ev, ClientOf(t).value); }
    case Done =>
  }

  lemma LogGrows(cfg: Config, log: seq<Event>, ev: seq<Event>)
    requires LogVetted(cfg, log) && |ev| <= 1 && forall e | e in ev :: EventVetted(cfg, log, e)
    ensures LogVetted(cfg, log + ev)
  {
    forall k | 0 <= k < |log + ev| ensures EventVetted(cfg, (log + ev)[..k], (log + ev)[k]) {
      if k < |log| {
        assert (log + ev)[..k] == log[..k] && EventVetted(cfg, log[..k], log[k]);
      } else {
        assert (log + ev)[..k] == log && (log + ev)[k] == ev[0];
      }
    }
  }

  /** The account check is what finds a user. */
  lemma BrowserVets(cfg: Config, db: Db, pending: map<string, PendingAuth>, log: seq<Event>, now: Time, b: BrowserThread, v: string)
    requires BrowserVetted(log, b)
    ensures var r := BrowserStep(cfg, db, pending, now, b, v);
            && |r.events| <= 1 && (forall e | e in r.events :: EventVetted(cfg, log, e))
            && ThreadVetted(cfg, log + r.events, r.next)
  {
    var r := BrowserStep(cfg, db, pending, now, b, v);
    if b.Account? {
      if r.events != [] { assert UserSeen(b.userID, db.users[b.userID]) in log + r.events; }
    } else {
      ThreadGrows(cfg, log, r.events, r.next);
    }
  }

  lemma AuthenticatedAdmits(cfg: Config, db: Db, log: seq<Event>, id: string, secret: string)
    requires Authenticated(cfg, db, id, secret).Some?
    ensures var c := Authenticated(cfg, db, id, secret).value; Proved(cfg, log + [ClientSeen(c, secret)], c.id)
  {
    var c := Authenticated(cfg, db, id, secret).value;
    assert ClientSeen(c, secret) in log + [ClientSeen(c, secret)] && Admits(cfg, c, secret);
  }

  /** Authentication is what proves a client. */
  lemma TokenVets(cfg: Config, db: Db, log: seq<Event>, now: Time, t: TokenThread, v: string, w: string)
    requires ThreadVetted(cfg, log, Token(t))
    ensures var r := TokenStep(cfg, db, now, t, v, w);
            && |r.events| <= 1 && (forall e | e in r.events :: EventVetted(cfg, log, e))
            && ThreadVetted(cfg, log + r.events, r.next)
  {
    var r := TokenStep(cfg, db, now, t, v, w);
    if t.CodeClient? {
      if r.events != [] { AuthenticatedAdmits(cfg, db, log, t.creq.clientID, t.creq.secret); }
    } else if t.RefreshClient? {
      if r.events != [] { AuthenticatedAdmits(cfg, db, log, t.rreq.clientID, t.rreq.secret); }
    } else {
      ThreadGrows(cfg, log, r.events, r.next);
    }
  }

  lemma Moved(cfg: Config, s: Sys, s': Sys, tid: nat, next: Thread, ev: seq<Event>)
    requires Inv(cfg, s) && s'.threads == s.threads[tid := next] && s'.log == s.log + ev && |ev| <= 1
    requires (forall e | e in ev :: EventVetted(cfg, s.log, e)) && ThreadVetted(cfg, s'.log, next)
    ensures Inv(cfg, s')
  {
    LogGrows(cfg, s.log, ev);
    forall t | t in s'.threads ensures ThreadVetted(cfg, s'.log, s'.threads[t]) {
      if t != tid { ThreadGrows(cfg, s.log, ev, s.threads[t]); }
    }
  }

  lemma StepKeeps(cfg: Config, s: Sys, l: Label)
    requires Inv(cfg, s) && Enabled(s, l)
    ensures Inv(cfg, Apply(cfg, s, l))
  {
    var s' := Apply(cfg, s, l);
    assert s.log + [] == s.log;
    match l
    case Step(tid, v, w) =>
      var r := Body(cfg, s.db, s.pending, s.now, s.threads[tid], v, w);
      assert ThreadVetted(cfg, s.log, s.threads[tid]);
      match s.threads[tid] {
        case Browser(b) => BrowserVets(cfg, s.db, s.pending, s.log, s.now, b, v);
        case Token(t) => TokenVets(cfg, s.db, s.log, s.now, t, v, w);
        case Done =>
      }
      Moved(cfg, s, s', tid, r.next, r.events);
    case Spawn(tid, th) => Moved(cfg, s, s', tid, th, []);
    case Abort(tid) => Moved(cfg, s, s', tid, Done, []);
    case Login(userID, tokenHash, sid) => Started(cfg, s, s', SessionStarted(tokenHash, userID, sid));
    case _ =>
  }

  lemma Started(cfg: Config, s: Sys, s': Sys, e: Event)
    requires Inv(cfg, s) && e.SessionStarted? && s'.threads == s.threads && s'.log == s.log + [e]
    ensures Inv(cfg, s')
  {
    LogGrows(cfg, s.log, [e]);
    forall t | t in s'.threads ensures ThreadVetted(cfg, s'.log, s'.threads[t]) { ThreadGrows(cfg, s.log, [e], s.threads[t]); }
  }

  lemma ReachableInv(cfg: Config, s: Sys)
    requires Reachable(cfg, s)
    ensures Inv(cfg, s)
  {
    var s0, n :| Init(s0) && Leads(cfg, s0, s, n);
    var P := x => Inv(cfg, x);
    forall a, b | P(a) && Next(cfg, a, b) ensures P(b) {
      var l :| Enabled(a, l) && b == Apply(cfg, a, l);
      StepKeeps(cfg, a, l);
    }
    RunInduction(cfg, s0, s, n, P);
  }

  // ----- Results -----

  lemma BrowserSees(cfg: Config, db: Db, pending: map<string, PendingAuth>, now: Time, b: BrowserThread, v: string)
    ensures forall e | e in BrowserStep(cfg, db, pending, now, b, v).events ::
              !e.ClientSeen? && (e.UserSeen? ==> e.userID in db.users && db.users[e.userID] == e.user)
  {
  }

  lemma TokenSees(cfg: Config, db: Db, now: Time, t: TokenThread, v: string, w: string)
    ensures forall e | e in TokenStep(cfg, db, now, t, v, w).events ::
              !e.UserSeen? && (e.ClientSeen? ==> exists id :: id in db.clients && db.clients[id] == e.client)
  {
  }

  /** What a step logs as seen is stored as it makes the step. */
  lemma SeenIsStored(cfg: Config, s: Sys, l: Label, e: Event)
    requires Enabled(s, l) && e in Apply(cfg, s, l).log && e !in s.log
    ensures e.UserSeen? ==> e.userID in s.db.users && s.db.users[e.userID] == e.user
    ensures e.ClientSeen? ==> exists id :: id in s.db.clients && s.db.clients[id] == e.client
  {
    if l.Step? {
      match s.threads[l.tid]
      case Browser(b) => BrowserSees(cfg, s.db, s.pending, s.now, b, l.v);
      case Token(t) => TokenSees(cfg, s.db, s.now, t, l.v, l.w);
      case Done =>
    }
  }

  /** In every run, behind every parked request, consent and code lies a lookup, before it, that found the account of its
      user stored and not disabled. */
  lemma EnabledUserBehind(cfg: Config, s: Sys, k: nat, userID: string) returns (user: User)
    requires Reachable(cfg, s) && k < |s.log|
    requires match s.log[k]
             case Parked(_, _, u) => u == userID
             case ConsentPut(c) => c.userID == userID
             case CodeIssued(code, _, _, _) => code.terms.userID == userID
             case _ => false
    ensures UserSeen(userID, user) in s.log[..k] && !user.disabled
  {
    ReachableInv(cfg, s);
    assert EventVetted(cfg, s.log[..k], s.log[k]);
    user :| UserSeen(userID, user) in s.log[..k] && !user.disabled;
  }

  /** In every run, behind every exchange and every stored access or refresh token lies a request, before it, in which its
      client was found stored and presented its secret if it is confidential, and none if it is public. */
  lemma ProvedClientBehind(cfg: Config, s: Sys, k: nat, clientID: string) returns (client: Client, secret: string)
    requires Reachable(cfg, s) && k < |s.log|
    requires match s.log[k]
             case Exchanged(_, id, _, _, _) => id == clientID
             case AccessPut(access, _) => access.terms.clientID == clientID
             case RefreshPut(token, _) => token.terms.clientID == clientID
             case _ => false
    ensures ClientSeen(client, secret) in s.log[..k] && client.id == clientID
    ensures client.clientType == Confidential ==> cfg.secretMatches(secret, client.secretHash)
    ensures client.clientType == Public ==> secret == ""
  {
    ReachableInv(cfg, s);
    assert EventVetted(cfg, s.log[..k], s.log[k]);
    client, secret :| ClientSeen(client, secret) in s.log[..k] && client.id == clientID && Admits(cfg, client, secret);
  }
}

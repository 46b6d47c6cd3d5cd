/** Browser sessions (internal/session/service.go). A cookie is modelled by the hash of its value;
    None stands for an absent or empty one. */
module SessionService {
  import opened Wrappers
  import opened Domain
  import opened MemoryStore

  /** LookupSession: the live session of a cookie; an expired one is deleted on the way. */
  function LookedUp(db: Db, browser: Option<string>, now: Time): (Db, Option<Session>) {
    if browser.None? || browser.value !in db.sessions then (db, None)
    else
      var row := db.sessions[browser.value];
      if row.expiresAt <= now then (db.DeleteSession(row.tokenHash), None) else (db, Some(row))
  }

  class Service {
    const store: Store
    const ttl: int

    constructor (store: Store, ttl: int)
      ensures this.store == store && this.ttl == ttl
    {
      this.store, this.ttl := store, ttl;
    }

    /** tokenHash is the hash of the first token the random source returns, sid the second token. */
    method Start(userID: string, now: Time, tokenHash: string, sid: string)
      modifies store
      ensures store.View() == old(store.View()).PutSession(Session(tokenHash, userID, sid, "", now + ttl))
    {
      var exp := now + ttl;
      store.PutSession(Session(tokenHash, userID, sid, "", exp));
    }

    method LookupSession(browser: Option<string>, now: Time) returns (r: Option<Session>)
      modifies store
      ensures (store.View(), r) == LookedUp(old(store.View()), browser, now)
    {
      if browser.None? {
        return None;
      }
      var row := store.GetSession(browser.value);
      if row.Err? {
        return None;
      }
      if row.value.expiresAt <= now {
        store.DeleteSession(row.value.tokenHash);
        return None;
      }
      r := Some(row.value);
    }

    method End(browser: Option<string>)
      modifies store
      ensures store.View() == if browser.None? then old(store.View()) else old(store.View()).DeleteSession(browser.value)
    {
      if browser.Some? {
        store.DeleteSession(browser.value);
      }
    }
  }
}

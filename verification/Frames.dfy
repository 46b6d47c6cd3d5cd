/** The one store operation of each step of the grant machine, and the rows it leaves alone. */
module Frames {
  import opened Wrappers
  import opened Domain
  import opened Ledger
  import opened Grants

  function TokenWrite(cfg: Config, db: Db, now: Time, t: TokenThread, v: string, w: string): Db {
    if t.CodeTake? then db.TakeCode(t.hash).0
    else if t.RefreshTake? then db.TakeRefresh(t.rreq.token).0
    else if t.Revoke? then db.RevokeFamily(t.familyID)
    else if t.GrantAccess? then db.PutAccess(AccessToken(v, t.g.terms, now + cfg.accessTTL))
    else if t.GrantRefresh? then db.PutRefresh(NewRefresh(cfg, v, w, t.g, now))
    else db
  }

  function BrowserWrite(cfg: Config, db: Db, now: Time, b: BrowserThread, v: string): Db {
    if b.Forget? then db.DeleteSession(b.tokenHash)
    else if b.SaveConsent? then db.PutConsent(Consent(b.userID, b.p.clientID, b.p.scopes))
    else if b.SaveCode? then db.PutCode(NewCode(cfg, v, b.userID, b.sid, b.p, now))
    else if b.IndexClient? then db.AddSessionClient(b.sid, b.clientID)
    else db
  }

  lemma TokenWrites(cfg: Config, db: Db, now: Time, t: TokenThread, v: string, w: string)
    ensures TokenStep(cfg, db, now, t, v, w).db == TokenWrite(cfg, db, now, t, v, w)
  {
  }

  lemma BrowserWrites(cfg: Config, db: Db, pending: map<string, PendingAuth>, now: Time, b: BrowserThread, v: string)
    ensures BrowserStep(cfg, db, pending, now, b, v).db == BrowserWrite(cfg, db, now, b, v)
  {
  }

  lemma TakeCodeFrame(db: Db, h: string)
    ensures db.TakeCode(h).0 == db.(codes := db.TakeCode(h).0.codes)
  {
  }

  lemma TakeRefreshFrame(db: Db, h: string)
    ensures db.TakeRefresh(h).0 == db.(refresh := db.TakeRefresh(h).0.refresh)
  {
  }

  lemma RevokeFrame(db: Db, f: string)
    ensures db.RevokeFamily(f) == db.(refresh := db.RevokeFamily(f).refresh)
  {
  }

  lemma DeleteFrame(db: Db, h: string)
    ensures db.DeleteSession(h) == db.(sessions := db.DeleteSession(h).sessions, sidRP := db.DeleteSession(h).sidRP)
  {
  }

  lemma IndexFrame(db: Db, sid: string, clientID: string)
    ensures db.AddSessionClient(sid, clientID) == db.(sidRP := db.AddSessionClient(sid, clientID).sidRP)
  {
  }

  /** A token request touches codes, refresh tokens and access tokens only; codes only when it takes one. */
  lemma TokenFrame(cfg: Config, db: Db, now: Time, t: TokenThread, v: string, w: string)
    ensures var db' := TokenStep(cfg, db, now, t, v, w).db;
            && db' == db.(codes := db'.codes, refresh := db'.refresh, access := db'.access)
            && (!t.CodeTake? ==> db'.codes == db.codes)
            && (!t.RefreshTake? && !t.Revoke? && !t.GrantRefresh? ==> db'.refresh == db.refresh)
  {
    TokenWrites(cfg, db, now, t, v, w);
    if t.CodeTake? { TakeCodeFrame(db, t.hash); }
    else if t.RefreshTake? { TakeRefreshFrame(db, t.rreq.token); }
    else if t.Revoke? { RevokeFrame(db, t.familyID); }
  }

  /** An authorize or consent request touches sessions, codes, consents and the fan-out index only. */
  lemma BrowserFrame(cfg: Config, db: Db, pending: map<string, PendingAuth>, now: Time, b: BrowserThread, v: string)
    ensures var db' := BrowserStep(cfg, db, pending, now, b, v).db;
            && db' == db.(sessions := db'.sessions, codes := db'.codes, consent := db'.consent, sidRP := db'.sidRP)
            && (!b.Forget? ==> db'.sessions == db.sessions)
            && (!b.SaveConsent? ==> db'.consent == db.consent)
            && db'.codes == if b.SaveCode? then db.codes[v := NewCode(cfg, v, b.userID, b.sid, b.p, now)] else db.codes
  {
    BrowserWrites(cfg, db, pending, now, b, v);
    if b.Forget? { DeleteFrame(db, b.tokenHash); }
    else if b.IndexClient? { IndexFrame(db, b.sid, b.clientID); }
  }
}

/** The rows of internal/domain/domain.go, and the store's maps as one value.
    Instants are integers; a stored secret is the hash of the value handed out. */
module Domain {
  import opened Wrappers

  type Time = int

  datatype User = User(id: string, disabled: bool)

  datatype ClientType = Confidential | Public

  datatype Client = Client(id: string, name: string, clientType: ClientType, secretHash: string,
                           redirectURIs: seq<string>, postLogoutURIs: seq<string>,
                           frontChannelURI: string, backChannelURI: string)

  datatype ClientPatch = ClientPatch(name: string, redirectURIs: seq<string>, postLogoutURIs: seq<string>,
                                     frontChannelURI: string, backChannelURI: string)

  datatype Session = Session(tokenHash: string, userID: string, sid: string, activeOrgID: string, expiresAt: Time)

  /** What a grant is for: the part of a code that every token descending from it must repeat. */
  datatype Terms = Terms(clientID: string, userID: string, scopes: seq<string>, sid: string)

  datatype AuthCode = AuthCode(hash: string, terms: Terms, redirectURI: string, nonce: string,
                               challenge: string, expiresAt: Time, used: bool)

  datatype RefreshToken = RefreshToken(hash: string, familyID: string, terms: Terms, expiresAt: Time, revoked: bool)

  datatype AccessToken = AccessToken(hash: string, terms: Terms, expiresAt: Time)

  datatype Consent = Consent(userID: string, clientID: string, scopes: seq<string>)

  datatype OrgRole = Owner | Member

  datatype Organization = Organization(id: string, name: string, createdAt: Time)

  datatype Membership = Membership(orgID: string, userID: string, role: OrgRole, joinedAt: Time)

  /** The key of the consent map, memory/store.go:314. */
  function ConsentKey(userID: string, clientID: string): string { userID + "|" + clientID }

  function FanOut(sidRP: map<string, set<string>>, sid: string): set<string> {
    if sid in sidRP then sidRP[sid] else {}
  }

  /** Every map of the store; each operation below is atomic (one mutex, or one SQL statement). */
  datatype Db = Db(users: map<string, User>, sessions: map<string, Session>, clients: map<string, Client>,
                   codes: map<string, AuthCode>, refresh: map<string, RefreshToken>,
                   access: map<string, AccessToken>, consent: map<string, Consent>,
                   sidRP: map<string, set<string>>, orgs: map<string, Organization>,
                   orgMembers: map<string, map<string, Membership>>)
  {
    function PutSession(s: Session): Db { this.(sessions := sessions[s.tokenHash := s]) }

    function DeleteSession(hash: string): Db {
      if hash !in sessions then this
      else this.(sessions := sessions - {hash},
                 sidRP := if sessions[hash].sid != "" then sidRP - {sessions[hash].sid} else sidRP)
    }

    function AddSessionClient(sid: string, clientID: string): Db {
      if sid == "" || clientID == "" then this
      else this.(sidRP := sidRP[sid := FanOut(sidRP, sid) + {clientID}])
    }

    function PutCode(c: AuthCode): Db { this.(codes := codes[c.hash := c]) }

    function TakeCode(hash: string): (Db, Result<AuthCode>) {
      if hash !in codes then (this, Err(NotFound))
      else if codes[hash].used then (this, Err(Used))
      else
        var c := codes[hash].(used := true);
        (this.(codes := codes[hash := c]), Ok(c))
    }

    function PutRefresh(t: RefreshToken): Db { this.(refresh := refresh[t.hash := t]) }

    function TakeRefresh(hash: string): (Db, Result<RefreshToken>) {
      if hash !in refresh then (this, Err(NotFound))
      else if refresh[hash].revoked then (this, Err(Used))
      else
        var t := refresh[hash].(revoked := true);
        (this.(refresh := refresh[hash := t]), Ok(t))
    }

    function RevokeFamily(familyID: string): Db {
      this.(refresh := map h | h in refresh ::
                         if refresh[h].familyID == familyID then refresh[h].(revoked := true) else refresh[h])
    }

    function PutAccess(t: AccessToken): Db { this.(access := access[t.hash := t]) }

    function PutConsent(c: Consent): Db { this.(consent := consent[ConsentKey(c.userID, c.clientID) := c]) }

    function GetConsent(userID: string, clientID: string): Option<Consent> {
      var k := ConsentKey(userID, clientID);
      if k in consent then Some(consent[k]) else None
    }

    function SetActiveOrg(hash: string, orgID: string): Db
      requires hash in sessions
    {
      this.(sessions := sessions[hash := sessions[hash].(activeOrgID := orgID)])
    }

    function Members(orgID: string): map<string, Membership> {
      if orgID in orgMembers then orgMembers[orgID] else map[]
    }

    function OrgsOf(userID: string): set<string> {
      set o | o in orgMembers && userID in orgMembers[o] && o in orgs
    }
  }

  /** The loop of hasConsent, authorize.go:151-162. */
  predicate Covers(have: seq<string>, want: seq<string>) { forall s | s in want :: s in have }
}

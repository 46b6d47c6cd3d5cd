/** The organisation handlers of the admin API (internal/web/admin_orgs.go). Strings reach a handler already trimmed;
    an account is named by its ID. */
module OrgAdmin {
  import opened Wrappers
  import opened Sorting
  import opened Domain
  import opened MemoryStore

  function Owners(members: map<string, Membership>): set<string> {
    set u | u in members && members[u].role == Owner
  }

  /** The two role names the handlers accept. */
  function ParseRole(s: string): Option<OrgRole> {
    if s == "owner" then Some(Owner) else if s == "member" then Some(Member) else None
  }

  predicate NameOk(name: string) { 0 < |name| <= 120 }

  function CreateOrg(db: Db, o: Organization): Db { db.(orgs := db.orgs[o.id := o]) }

  function AddMember(db: Db, m: Membership): (Db, Result<()>) {
    var ms := db.Members(m.orgID);
    if m.userID in ms then (db, Err(Conflict))
    else (db.(orgMembers := db.orgMembers[m.orgID := ms[m.userID := m]]), Ok(()))
  }

  function SetRole(db: Db, orgID: string, userID: string, role: OrgRole): Db
    requires userID in db.Members(orgID)
  {
    var ms := db.Members(orgID);
    db.(orgMembers := db.orgMembers[orgID := ms[userID := ms[userID].(role := role)]])
  }

  function DropMember(db: Db, orgID: string, userID: string): Db {
    db.(orgMembers := db.orgMembers[orgID := db.Members(orgID) - {userID}])
  }

  /** An organisation and its first owner: org/service.go:20-36 and, after checking the account, admin_orgs.go:93-104. */
  function Created(db: Db, id: string, name: string, ownerID: string, now: Time): (Db, Result<()>) {
    if !NameOk(name) then (db, Err(Invalid))
    else AddMember(CreateOrg(db, Organization(id, name, now)), Membership(id, ownerID, Owner, now))
  }

  function CreatedByAdmin(db: Db, id: string, name: string, ownerID: string, now: Time): (Db, Result<()>) {
    if !NameOk(name) then (db, Err(Invalid))
    else if ownerID !in db.users then (db, Err(NotFound))
    else Created(db, id, name, ownerID, now)
  }

  function Added(db: Db, orgID: string, userID: string, role: string, now: Time): (Db, Result<()>) {
    var parsed := if role == "" then Some(Member) else ParseRole(role);
    if orgID !in db.orgs then (db, Err(NotFound))
    else if parsed.None? then (db, Err(Invalid))
    else if userID !in db.users then (db, Err(NotFound))
    else AddMember(db, Membership(orgID, userID, parsed.value, now))
  }

  function RoleChanged(db: Db, orgID: string, userID: string, role: string): (Db, Result<()>) {
    var ms := db.Members(orgID);
    if ParseRole(role).None? then (db, Err(Invalid))
    else if userID !in ms then (db, Err(NotFound))
    else if ms[userID].role == Owner && role != "owner" && |Owners(ms)| <= 1 then (db, Err(Forbidden))
    else (SetRole(db, orgID, userID, ParseRole(role).value), Ok(()))
  }

  function Removed(db: Db, orgID: string, userID: string): (Db, Result<()>) {
    var ms := db.Members(orgID);
    if userID !in ms then (db, Err(NotFound))
    else if ms[userID].role == Owner && |Owners(ms)| <= 1 then (db, Err(Forbidden))
    else (DropMember(db, orgID, userID), Ok(()))
  }

  class Admin {
    const store: Store

    constructor (store: Store)
      ensures this.store == store
    {
      this.store := store;
    }

    method HandleCreate(id: string, name: string, ownerID: string, now: Time) returns (r: Result<()>)
      modifies store
      ensures (store.View(), r) == CreatedByAdmin(old(store.View()), id, name, ownerID, now)
    {
      if name == "" || |name| > 120 {
        return Err(Invalid);
      }
      var owner := store.GetByID(ownerID);
      if owner.Err? {
        return Err(NotFound);
      }
      store.CreateOrganization(Organization(id, name, now));
      r := store.AddOrganizationMember(Membership(id, ownerID, Owner, now));
    }

    method HandleAddMember(orgID: string, userID: string, role: string, now: Time) returns (r: Result<()>)
      modifies store
      ensures (store.View(), r) == Added(old(store.View()), orgID, userID, role, now)
    {
      var org := store.GetOrganization(orgID);
      if org.Err? {
        return Err(NotFound);
      }
      var name := role;
      if name == "" {
        name := "member";
      }
      if name != "owner" && name != "member" {
        return Err(Invalid);
      }
      var user := store.GetByID(userID);
      if user.Err? {
        return Err(NotFound);
      }
      r := store.AddOrganizationMember(Membership(orgID, userID, if name == "owner" then Owner else Member, now));
    }

    method HandleUpdateMember(orgID: string, userID: string, role: string) returns (r: Result<()>)
      modifies store
      ensures (store.View(), r) == RoleChanged(old(store.View()), orgID, userID, role)
    {
      if role != "owner" && role != "member" {
        return Err(Invalid);
      }
      var current := store.GetOrganizationMembership(orgID, userID);
      if current.Err? {
        return Err(NotFound);
      }
      if current.value.role == Owner && role != "owner" {
        var owners := CountOwners(orgID);
        if owners <= 1 {
          return Err(Forbidden);
        }
      }
      r := store.UpdateOrganizationMemberRole(orgID, userID, if role == "owner" then Owner else Member);
    }

    method HandleRemoveMember(orgID: string, userID: string) returns (r: Result<()>)
      modifies store
      ensures (store.View(), r) == Removed(old(store.View()), orgID, userID)
    {
      var current := store.GetOrganizationMembership(orgID, userID);
      if current.Err? {
        return Err(NotFound);
      }
      if current.value.role == Owner {
        var owners := CountOwners(orgID);
        if owners <= 1 {
          return Err(Forbidden);
        }
      }
      r := store.RemoveOrganizationMember(orgID, userID);
    }

    /** The counting loop gives the number of owners in the membership map. */
    method CountOwners(orgID: string) returns (n: nat)
      ensures n == |Owners(store.View().Members(orgID))|
    {
      ghost var ms := store.View().Members(orgID);
      var members := store.ListOrganizationMembers(orgID);
      ghost var users := ListedUsers(ms, members);
      n := 0;
      for i := 0 to |members|
        invariant n == |Owners(ms) * Elements(users[..i])|
      {
        OneMore(ms, users, i);
        if members[i].role == Owner {
          n := n + 1;
        }
      }
      AllOwners(ms, users);
    }
  }

  lemma ListedUsers(ms: map<string, Membership>, members: seq<Membership>) returns (users: seq<string>)
    requires MembersListed(ms, members)
    ensures Rows(ms, users, members) && Elements(users) == ms.Keys
  {
    users :| Rows(ms, users, members) && Elements(users) == ms.Keys;
  }

  lemma AllOwners(ms: map<string, Membership>, users: seq<string>)
    requires Elements(users) == ms.Keys
    ensures Owners(ms) * Elements(users[..|users|]) == Owners(ms)
  {
    assert users[..|users|] == users;
  }

  lemma OneMore(ms: map<string, Membership>, users: seq<string>, i: nat)
    requires i < |users| && NoDuplicates(users) && users[i] in ms
    ensures |Owners(ms) * Elements(users[..i + 1])| ==
              |Owners(ms) * Elements(users[..i])| + if ms[users[i]].role == Owner then 1 else 0
  {
    var before, after := Owners(ms) * Elements(users[..i]), Owners(ms) * Elements(users[..i + 1]);
    assert users[..i + 1] == users[..i] + [users[i]];
    assert users[i] !in users[..i];
    assert after == if ms[users[i]].role == Owner then before + {users[i]} else before;
  }

  // ----- The last owner -----

  /** Every organisation has an owner, and only organisations have members. */
  ghost predicate Owned(db: Db) {
    && (forall o | o in db.orgs :: Owners(db.Members(o)) != {})
    && db.orgMembers.Keys <= db.orgs.Keys
  }

  lemma AnotherOne<T>(s: set<T>, x: T) returns (y: T)
    requires |s| > 1
    ensures y in s && y != x
  {
    var rest := s - {x};
    assert |rest| >= |s| - 1;
    y :| y in rest;
  }

  lemma AddingKeepsOwners(db: Db, m: Membership, o: string)
    ensures Owners(db.Members(o)) <= Owners(AddMember(db, m).0.Members(o))
    ensures AddMember(db, m).1.Ok? && m.role == Owner ==> m.userID in Owners(AddMember(db, m).0.Members(m.orgID))
  {
  }

  lemma AddingKeepsOwned(db: Db, m: Membership)
    requires Owned(db) && m.orgID in db.orgs
    ensures Owned(AddMember(db, m).0)
  {
    forall o | o in db.orgs ensures Owners(AddMember(db, m).0.Members(o)) != {} { AddingKeepsOwners(db, m, o); }
  }

  lemma FounderOwns(db: Db, org: Organization, m: Membership, o: string)
    requires Owned(db) && m.orgID == org.id && m.role == Owner && (o in db.orgs || o == org.id)
    ensures Owners(AddMember(CreateOrg(db, org), m).0.Members(o)) != {}
  {
    var with := CreateOrg(db, org);
    AddingKeepsOwners(with, m, o);
    assert with.Members(o) == db.Members(o);
    if o !in db.orgs { assert m.userID !in with.Members(o); }
  }

  lemma AddedRows(db: Db, m: Membership)
    ensures var all := AddMember(db, m).0; all.orgs == db.orgs && all.orgMembers.Keys <= db.orgMembers.Keys + {m.orgID}
  {
  }

  lemma FoundingKeepsOwned(db: Db, org: Organization, m: Membership)
    requires Owned(db) && m.orgID == org.id && m.role == Owner
    ensures Owned(AddMember(CreateOrg(db, org), m).0)
  {
    var all := AddMember(CreateOrg(db, org), m).0;
    AddedRows(CreateOrg(db, org), m);
    forall o | o in all.orgs ensures Owners(all.Members(o)) != {} { FounderOwns(db, org, m, o); }
  }

  lemma CreatingKeepsOwned(db: Db, id: string, name: string, ownerID: string, now: Time)
    requires Owned(db)
    ensures Owned(Created(db, id, name, ownerID, now).0)
  {
    FoundingKeepsOwned(db, Organization(id, name, now), Membership(id, ownerID, Owner, now));
  }

  lemma ChangingRoleKeepsOwned(db: Db, orgID: string, userID: string, role: string)
    requires Owned(db)
    ensures Owned(RoleChanged(db, orgID, userID, role).0)
  {
    var ms, r := db.Members(orgID), RoleChanged(db, orgID, userID, role);
    if r.1.Ok? {
      forall o | o in r.0.orgs ensures Owners(r.0.Members(o)) != {} {
        var u :| u in Owners(db.Members(o));
        if o == orgID && |Owners(ms)| > 1 { u := AnotherOne(Owners(ms), userID); }
        assert u in Owners(r.0.Members(o));
      }
    }
  }

  lemma RemovingKeepsOwned(db: Db, orgID: string, userID: string)
    requires Owned(db)
    ensures Owned(Removed(db, orgID, userID).0)
  {
    var ms, r := db.Members(orgID), Removed(db, orgID, userID);
    if r.1.Ok? {
      forall o | o in r.0.orgs ensures Owners(r.0.Members(o)) != {} {
        var u :| u in Owners(db.Members(o));
        if o == orgID && |Owners(ms)| > 1 { u := AnotherOne(Owners(ms), userID); }
        assert u in Owners(r.0.Members(o));
      }
    }
  }

  // ----- What each handler does, exactly -----

  ghost predicate OneOwner(members: map<string, Membership>, userID: string) {
    forall u | u in members && members[u].role == Owner :: u == userID
  }

  lemma OneOwnerIs(members: map<string, Membership>, userID: string)
    requires userID in members && members[userID].role == Owner
    ensures |Owners(members)| <= 1 <==> OneOwner(members, userID)
  {
    if |Owners(members)| <= 1 {
      forall u | u in members && members[u].role == Owner ensures u == userID { OnlyOwner(members, u, userID); }
    } else {
      var other := AnotherOne(Owners(members), userID);
    }
  }

  /** An organisation is created if its name has 1 to 120 bytes and its owner is stored; the first owner joins it at that
      instant, unless already in it. */
  lemma CreatesExactly(db: Db, id: string, name: string, ownerID: string, now: Time)
    ensures var (after, r) := CreatedByAdmin(db, id, name, ownerID, now);
            var fits, with := 0 < |name| <= 120, db.(orgs := db.orgs[id := Organization(id, name, now)]);
            && (r == Err(Invalid) <==> !fits) && (r == Err(NotFound) <==> fits && ownerID !in db.users)
            && (r == Err(Conflict) <==> fits && ownerID in db.users && ownerID in db.Members(id))
            && (r == Err(Invalid) || r == Err(NotFound) ==> after == db) && (r == Err(Conflict) ==> after == with)
            && (r == Ok(()) ==> after == with.(orgMembers :=
                  db.orgMembers[id := db.Members(id)[ownerID := Membership(id, ownerID, OrgRole.Owner, now)]]))
            && (r.Ok? || r == Err(Invalid) || r == Err(NotFound) || r == Err(Conflict))
  {
  }

  /** A member is added if the organisation and the account are stored, the role is "owner", "member" or empty, and the account
      is not in it yet; only the role "owner" makes an owner. */
  lemma AddsExactly(db: Db, orgID: string, userID: string, role: string, now: Time)
    ensures var (after, r) := Added(db, orgID, userID, role, now);
            && (r == Ok(()) <==> orgID in db.orgs && role in {"", "owner", "member"} && userID in db.users && userID !in db.Members(orgID))
            && (r == Err(Invalid) <==> orgID in db.orgs && role !in {"", "owner", "member"})
            && (r == Err(Conflict) <==> orgID in db.orgs && role in {"", "owner", "member"} && userID in db.users && userID in db.Members(orgID))
            && (r.Err? ==> after == db && r.error in {NotFound, Invalid, Conflict})
            && (r.Ok? ==> var m := Membership(orgID, userID, if role == "owner" then Owner else Member, now);
                          after == db.(orgMembers := db.orgMembers[orgID := db.Members(orgID)[userID := m]]))
  {
  }

  /** A role is changed to "owner" or "member", of a member, unless it would make the only owner a member. */
  lemma ChangesExactly(db: Db, orgID: string, userID: string, role: string)
    ensures var (after, r) := RoleChanged(db, orgID, userID, role);
            var ms, known := db.Members(orgID), role in {"owner", "member"};
            && (r == Err(Invalid) <==> !known) && (r == Err(NotFound) <==> known && userID !in ms)
            && (r == Err(Forbidden) <==> role == "member" && userID in ms && ms[userID].role == Owner
                                         && forall u | u in ms && ms[u].role == Owner :: u == userID)
            && (r.Err? ==> after == db && r.error in {Invalid, NotFound, Forbidden})
            && (r.Ok? ==> known && userID in ms && after == db.(orgMembers :=
                  db.orgMembers[orgID := ms[userID := ms[userID].(role := if role == "owner" then Owner else Member)]]))
  {
    var ms := db.Members(orgID);
    if userID in ms && ms[userID].role == Owner { OneOwnerIs(ms, userID); }
  }

  /** A member is removed, unless it is the only owner. */
  lemma RemovesExactly(db: Db, orgID: string, userID: string)
    ensures var (after, r) := Removed(db, orgID, userID);
            var ms := db.Members(orgID);
            && (r == Err(NotFound) <==> userID !in ms)
            && (r == Err(Forbidden) <==> userID in ms && ms[userID].role == Owner
                                         && forall u | u in ms && ms[u].role == Owner :: u == userID)
            && (r.Err? ==> after == db && r.error in {NotFound, Forbidden})
            && (r.Ok? ==> after == db.(orgMembers := db.orgMembers[orgID := ms - {userID}]))
  {
    var ms := db.Members(orgID);
    if userID in ms && ms[userID].role == Owner { OneOwnerIs(ms, userID); }
  }

  lemma OnlyOwner(ms: map<string, Membership>, a: string, b: string)
    requires a in Owners(ms) && b in Owners(ms) && |Owners(ms)| <= 1
    ensures a == b
  {
    if a != b { SubsetSize({a, b}, Owners(ms)); }
  }

  /** A refusal changes nothing, and the last owner is refused: a handler that would leave an organisation without an
      owner answers Forbidden, and it does so only then. */
  lemma RefusedExactlyForTheLastOwner(db: Db, orgID: string, userID: string)
    requires userID in db.Members(orgID)
    ensures Removed(db, orgID, userID) == (db, Err(Forbidden)) <==> Owners(db.Members(orgID)) == {userID}
    ensures RoleChanged(db, orgID, userID, "member") == (db, Err(Forbidden)) <==> Owners(db.Members(orgID)) == {userID}
  {
    var owners := Owners(db.Members(orgID));
    if userID in owners && |owners| <= 1 {
      forall u | u in owners ensures u == userID { OnlyOwner(db.Members(orgID), u, userID); }
      assert owners == {userID};
    }
  }
}

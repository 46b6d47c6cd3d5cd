/** The in-memory repositories (internal/store/memory/store.go and orgs.go).
    A method body runs under the store's mutex, so each is one atomic step; its contract gives the whole new state. */
module MemoryStore {
  import opened Wrappers
  import opened Sorting
  import opened Domain

  class Store {
    var users: map<string, User>
    var sessions: map<string, Session>
    var clients: map<string, Client>
    var codes: map<string, AuthCode>
    var refresh: map<string, RefreshToken>
    var access: map<string, AccessToken>
    var consent: map<string, Consent>
    var sidRP: map<string, set<string>>
    var orgs: map<string, Organization>
    var orgMembers: map<string, map<string, Membership>>

    ghost function View(): Db
      reads this
    {
      Db(users, sessions, clients, codes, refresh, access, consent, sidRP, orgs, orgMembers)
    }

    constructor ()
      ensures View() == Db(map[], map[], map[], map[], map[], map[], map[], map[], map[], map[])
    {
      users, sessions, clients, codes, refresh := map[], map[], map[], map[], map[];
      access, consent, sidRP, orgs, orgMembers := map[], map[], map[], map[], map[];
    }

    method GetByID(id: string) returns (r: Result<User>)
      ensures r == if id in users then Ok(users[id]) else Err(NotFound)
    {
      r := if id in users then Ok(users[id]) else Err(NotFound);
    }

    method PutSession(s: Session)
      modifies this
      ensures View() == old(View()).PutSession(s)
    {
      sessions := sessions[s.tokenHash := s];
    }

    method GetSession(hash: string) returns (r: Result<Session>)
      ensures r == if hash in sessions then Ok(sessions[hash]) else Err(NotFound)
    {
      r := if hash in sessions then Ok(sessions[hash]) else Err(NotFound);
    }

    /** Any session with that SID: Go map iteration has no order. */
    method GetSessionBySID(sid: string) returns (r: Result<Session>)
      ensures r.Ok? ==> r.value in sessions.Values && r.value.sid == sid
      ensures r.Err? ==> r.error == NotFound && forall h | h in sessions :: sessions[h].sid != sid
    {
      var todo := sessions.Keys;
      while todo != {}
        invariant todo <= sessions.Keys
        invariant forall h | h in sessions && h !in todo :: sessions[h].sid != sid
      {
        var h :| h in todo;
        if sessions[h].sid == sid {
          return Ok(sessions[h]);
        }
        todo := todo - {h};
      }
      r := Err(NotFound);
    }

    method DeleteSession(hash: string)
      modifies this
      ensures View() == old(View()).DeleteSession(hash)
    {
      if hash in sessions && sessions[hash].sid != "" {
        sidRP := sidRP - {sessions[hash].sid};
      }
      sessions := sessions - {hash};
      assert hash !in old(sessions) ==> sessions == old(sessions);
    }

    method AddSessionClient(sid: string, clientID: string)
      modifies this
      ensures View() == old(View()).AddSessionClient(sid, clientID)
    {
      if sid == "" || clientID == "" {
        return;
      }
      if sid !in sidRP {
        sidRP := sidRP[sid := {}];
      }
      sidRP := sidRP[sid := sidRP[sid] + {clientID}];
    }

    /** The fan-out set as a sorted list. */
    method ListSessionClients(sid: string) returns (out: seq<string>)
      ensures StrictlySorted(out) && Elements(out) == FanOut(sidRP, sid)
    {
      var ids := FanOut(sidRP, sid);
      var todo := ids;
      out := [];
      while todo != {}
        invariant todo <= ids && NoDuplicates(out) && Elements(out) == ids - todo
      {
        var id :| id in todo;
        assert id !in Elements(out);
        ghost var was := out;
        out := out + [id];
        assert Elements(out) == Elements(was) + {id};
        todo := todo - {id};
      }
      SortOfDistinct(out);
      out := Sort(AtMost, out);
    }

    method CreateClient(c: Client) returns (r: Result<()>)
      modifies this
      ensures r == if c.id in old(clients) then Err(Conflict) else Ok(())
      ensures View() == if r.Ok? then old(View()).(clients := old(clients)[c.id := c]) else old(View())
    {
      if c.id in clients {
        return Err(Conflict);
      }
      clients := clients[c.id := c];
      r := Ok(());
    }

    method GetClient(id: string) returns (r: Result<Client>)
      ensures r == if id in clients then Ok(clients[id]) else Err(NotFound)
    {
      r := if id in clients then Ok(clients[id]) else Err(NotFound);
    }

    method UpdateClient(id: string, patch: ClientPatch) returns (r: Result<()>)
      modifies this
      ensures r == if id in old(clients) then Ok(()) else Err(NotFound)
      ensures View() == if r.Err? then old(View()) else
                          old(View()).(clients := old(clients)[id := Patched(old(clients)[id], patch)])
    {
      if id !in clients {
        return Err(NotFound);
      }
      var c := clients[id];
      c := c.(name := patch.name);
      c := c.(redirectURIs := patch.redirectURIs, postLogoutURIs := patch.postLogoutURIs);
      c := c.(frontChannelURI := patch.frontChannelURI, backChannelURI := patch.backChannelURI);
      clients := clients[id := c];
      r := Ok(());
    }

    method PutCode(c: AuthCode)
      modifies this
      ensures View() == old(View()).PutCode(c)
    {
      codes := codes[c.hash := c];
    }

    method TakeCode(hash: string) returns (r: Result<AuthCode>)
      modifies this
      ensures (View(), r) == old(View()).TakeCode(hash)
    {
      if hash !in codes {
        return Err(NotFound);
      }
      var c := codes[hash];
      if c.used {
        return Err(Used);
      }
      c := c.(used := true);
      codes := codes[hash := c];
      r := Ok(c);
    }

    method PutRefresh(t: RefreshToken)
      modifies this
      ensures View() == old(View()).PutRefresh(t)
    {
      refresh := refresh[t.hash := t];
    }

    method GetRefresh(hash: string) returns (r: Result<RefreshToken>)
      ensures r == if hash in refresh then Ok(refresh[hash]) else Err(NotFound)
    {
      r := if hash in refresh then Ok(refresh[hash]) else Err(NotFound);
    }

    method TakeRefresh(hash: string) returns (r: Result<RefreshToken>)
      modifies this
      ensures (View(), r) == old(View()).TakeRefresh(hash)
    {
      if hash !in refresh {
        return Err(NotFound);
      }
      var t := refresh[hash];
      if t.revoked {
        return Err(Used);
      }
      t := t.(revoked := true);
      refresh := refresh[hash := t];
      r := Ok(t);
    }

    method RevokeFamily(familyID: string)
      modifies this`refresh
      ensures View() == old(View()).RevokeFamily(familyID)
    {
      var todo := refresh.Keys;
      ghost var goal := old(View()).RevokeFamily(familyID).refresh;
      while todo != {}
        invariant refresh.Keys == old(refresh).Keys && todo <= refresh.Keys
        invariant forall h | h in refresh :: refresh[h] == if h in todo then old(refresh)[h] else goal[h]
      {
        var k :| k in todo;
        var t := refresh[k];
        if t.familyID == familyID {
          t := t.(revoked := true);
          refresh := refresh[k := t];
        }
        todo := todo - {k};
      }
      assert refresh == goal;
    }

    method PutAccess(t: AccessToken)
      modifies this
      ensures View() == old(View()).PutAccess(t)
    {
      access := access[t.hash := t];
    }

    method PutConsent(c: Consent)
      modifies this
      ensures View() == old(View()).PutConsent(c)
    {
      consent := consent[c.userID + "|" + c.clientID := c];
    }

    method GetConsent(userID: string, clientID: string) returns (r: Option<Consent>)
      ensures r == View().GetConsent(userID, clientID)
    {
      var k := userID + "|" + clientID;
      r := if k in consent then Some(consent[k]) else None;
    }

    method CreateOrganization(o: Organization)
      modifies this`orgs
      ensures View() == old(View()).(orgs := old(orgs)[o.id := o])
    {
      orgs := orgs[o.id := o];
    }

    method GetOrganization(id: string) returns (r: Result<Organization>)
      ensures r == if id in orgs then Ok(orgs[id]) else Err(NotFound)
    {
      r := if id in orgs then Ok(orgs[id]) else Err(NotFound);
    }

    /** Each organisation of the user once, earliest first; those of one instant in any order. */
    method ListOrganizationsForUser(userID: string) returns (out: seq<Organization>)
      ensures OrgsListed(orgs, View().OrgsOf(userID), out)
    {
      var todo := orgMembers.Keys;
      var keys: seq<string> := [];
      while todo != {}
        invariant todo <= orgMembers.Keys && NoDuplicates(keys) && Elements(keys) == View().OrgsOf(userID) - todo
      {
        var o :| o in todo;
        if userID in orgMembers[o] && o in orgs {
          assert o !in keys by { assert o !in Elements(keys); }
          ghost var was := keys;
          keys := keys + [o];
          assert Elements(keys) == Elements(was) + {o};
        }
        todo := todo - {o};
      }
      var table := orgs;
      var byCreation := (a: string, b: string) => CreatedAt(table, a) <= CreatedAt(table, b);
      SortSorts(byCreation, keys);
      var order := Sort(byCreation, keys);
      ReorderingOfDistinct(keys, order);
      assert forall i | 0 <= i < |order| :: order[i] in Elements(order);
      out := seq(|order|, i requires 0 <= i < |order| => table[order[i]]);
      assert OrgRows(orgs, order, out);
    }

    method AddOrganizationMember(m: Membership) returns (r: Result<()>)
      modifies this`orgMembers
      ensures r == if m.userID in old(View()).Members(m.orgID) then Err(Conflict) else Ok(())
      ensures View() == if r.Err? then old(View()) else
                          old(View()).(orgMembers := old(orgMembers)[m.orgID := old(View()).Members(m.orgID)[m.userID := m]])
    {
      if m.orgID in orgMembers && m.userID in orgMembers[m.orgID] {
        return Err(Conflict);
      }
      if m.orgID !in orgMembers {
        orgMembers := orgMembers[m.orgID := map[]];
      }
      orgMembers := orgMembers[m.orgID := orgMembers[m.orgID][m.userID := m]];
      r := Ok(());
    }

    method GetOrganizationMembership(orgID: string, userID: string) returns (r: Result<Membership>)
      ensures r == if userID in View().Members(orgID) then Ok(View().Members(orgID)[userID]) else Err(NotFound)
    {
      if orgID !in orgMembers || userID !in orgMembers[orgID] {
        return Err(NotFound);
      }
      r := Ok(orgMembers[orgID][userID]);
    }

    method UpdateOrganizationMemberRole(orgID: string, userID: string, role: OrgRole) returns (r: Result<()>)
      modifies this`orgMembers
      ensures r == if userID in old(View()).Members(orgID) then Ok(()) else Err(NotFound)
      ensures View() == if r.Err? then old(View()) else
                          var ms := old(View()).Members(orgID);
                          old(View()).(orgMembers := old(orgMembers)[orgID := ms[userID := ms[userID].(role := role)]])
    {
      if orgID !in orgMembers || userID !in orgMembers[orgID] {
        return Err(NotFound);
      }
      var m := orgMembers[orgID][userID];
      m := m.(role := role);
      orgMembers := orgMembers[orgID := orgMembers[orgID][userID := m]];
      r := Ok(());
    }

    method RemoveOrganizationMember(orgID: string, userID: string) returns (r: Result<()>)
      modifies this`orgMembers
      ensures r == if userID in old(View()).Members(orgID) then Ok(()) else Err(NotFound)
      ensures View() == if r.Err? then old(View()) else
                          old(View()).(orgMembers := old(orgMembers)[orgID := old(View()).Members(orgID) - {userID}])
    {
      if orgID !in orgMembers || userID !in orgMembers[orgID] {
        return Err(NotFound);
      }
      orgMembers := orgMembers[orgID := orgMembers[orgID] - {userID}];
      r := Ok(());
    }

    /** Each member row once; Go's map order and unstable sort leave rows of one instant in any order. */
    method ListOrganizationMembers(orgID: string) returns (out: seq<Membership>)
      ensures MembersListed(View().Members(orgID), out)
    {
      var members: map<string, Membership> := if orgID in orgMembers then orgMembers[orgID] else map[];
      var todo := members.Keys;
      var keys: seq<string> := [];
      while todo != {}
        invariant todo <= members.Keys && NoDuplicates(keys) && Elements(keys) == members.Keys - todo
      {
        var u :| u in todo;
        assert u !in keys by { assert u !in Elements(keys); }
        ghost var was := keys;
        keys := keys + [u];
        assert Elements(keys) == Elements(was) + {u};
        todo := todo - {u};
      }
      var byJoining := (a: string, b: string) => JoinedAt(members, a) <= JoinedAt(members, b);
      SortSorts(byJoining, keys);
      var order := Sort(byJoining, keys);
      ReorderingOfDistinct(keys, order);
      assert forall i | 0 <= i < |order| :: order[i] in Elements(order);
      out := seq(|order|, i requires 0 <= i < |order| => members[order[i]]);
      assert Rows(members, order, out);
    }

    method SetSessionActiveOrg(hash: string, orgID: string) returns (r: Result<()>)
      modifies this`sessions
      ensures r == if hash in old(sessions) then Ok(()) else Err(NotFound)
      ensures View() == if r.Err? then old(View()) else
                          old(View()).SetActiveOrg(hash, orgID)
    {
      if hash !in sessions {
        return Err(NotFound);
      }
      sessions := sessions[hash := sessions[hash].(activeOrgID := orgID)];
      r := Ok(());
    }

    /** Updates one session with that SID, whichever the map yields first. */
    method SetSessionActiveOrgBySID(sid: string, orgID: string) returns (r: Result<()>, ghost hash: string)
      modifies this`sessions
      ensures r.Ok? ==> r == Ok(()) && sid != "" && hash in old(sessions) && old(sessions)[hash].sid == sid
                        && View() == old(View()).SetActiveOrg(hash, orgID)
      ensures r.Err? ==> View() == old(View())
      ensures r.Err? ==> if sid == "" then r.error == Invalid else
                           r.error == NotFound && forall h | h in sessions :: sessions[h].sid != sid
    {
      hash := "";
      if sid == "" {
        return Err(Invalid), hash;
      }
      var todo := sessions.Keys;
      while todo != {}
        invariant sessions == old(sessions) && todo <= sessions.Keys
        invariant forall h | h in sessions && h !in todo :: sessions[h].sid != sid
      {
        var k :| k in todo;
        var sess := sessions[k];
        if sess.sid == sid {
          sess := sess.(activeOrgID := orgID);
          sessions := sessions[k := sess];
          return Ok(()), k;
        }
        todo := todo - {k};
      }
      r := Err(NotFound);
    }
  }

  /** out lists the rows of the distinct users, by joining instant. */
  ghost predicate Rows(members: map<string, Membership>, users: seq<string>, out: seq<Membership>) {
    && |out| == |users| && NoDuplicates(users)
    && (forall i | 0 <= i < |out| :: users[i] in members && out[i] == members[users[i]])
    && (forall i, j | 0 <= i < j < |out| :: out[i].joinedAt <= out[j].joinedAt)
  }

  /** out lists every member row once, by joining instant. */
  ghost predicate MembersListed(members: map<string, Membership>, out: seq<Membership>) {
    exists users :: Rows(members, users, out) && Elements(users) == members.Keys
  }

  /** A list of members holds every row, as often as there are members, by the instant of joining. */
  lemma MembersListedIs(members: map<string, Membership>, out: seq<Membership>)
    requires MembersListed(members, out)
    ensures |out| == |members| && forall u | u in members :: members[u] in out
    ensures forall i, j | 0 <= i < j < |out| :: out[i].joinedAt <= out[j].joinedAt
  {
    var users :| Rows(members, users, out) && Elements(users) == members.Keys;
    CountElements(users);
    assert |members| == |members.Keys|;
    forall u | u in members ensures members[u] in out {
      assert u in Elements(users);
      var i :| 0 <= i < |users| && users[i] == u;
      assert out[i] == members[u];
    }
  }

  /** out lists the rows of the distinct organisations, by creation instant. */
  ghost predicate OrgRows(orgs: map<string, Organization>, ids: seq<string>, out: seq<Organization>) {
    && |out| == |ids| && NoDuplicates(ids)
    && (forall i | 0 <= i < |out| :: ids[i] in orgs && out[i] == orgs[ids[i]])
    && (forall i, j | 0 <= i < j < |out| :: out[i].createdAt <= out[j].createdAt)
  }

  /** out lists each of those organisations once, by creation instant. */
  ghost predicate OrgsListed(orgs: map<string, Organization>, which: set<string>, out: seq<Organization>) {
    exists ids :: OrgRows(orgs, ids, out) && Elements(ids) == which
  }

  function CreatedAt(orgs: map<string, Organization>, o: string): Time {
    if o in orgs then orgs[o].createdAt else 0
  }

  function JoinedAt(members: map<string, Membership>, u: string): Time {
    if u in members then members[u].joinedAt else 0
  }

  function Patched(c: Client, patch: ClientPatch): Client {
    c.(name := patch.name, redirectURIs := patch.redirectURIs, postLogoutURIs := patch.postLogoutURIs,
       frontChannelURI := patch.frontChannelURI, backChannelURI := patch.backChannelURI)
  }
}

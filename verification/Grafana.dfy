/** Bringing a user's memberships in the organisations of a Grafana server in line with what is asked for. */
module Grafana {
  import opened Wrappers

  /** A number the server gives out: to users, organisations and teams alike. */
  datatype Id = Id(number: int)

  datatype Org = Org(name: string, id: Id)

  const MAIN := "Main Org."
  const MAIN_ID := Id(1)

  /** A membership change, with the organisation that was current when it was made. */
  datatype MemberChange = Joined(org: Id, user: Id, role: string) | Left(org: Id, user: Id)

  datatype TeamChange = TeamJoined(org: Id, team: Id, user: Id) | TeamLeft(org: Id, team: Id, user: Id)

  /** Roles by the name of the organisation. */
  type Roles = map<string, string>

  type Members = map<Id, map<Id, string>>

  function Get<K, V>(m: map<K, V>, k: K): Option<V> {
    if k in m then Some(m[k]) else None
  }

  function RoleOf(members: Members, org: Id, user: Id): Option<string> {
    if org in members then Get(members[org], user) else None
  }

  ghost predicate DistinctOrgs(orgs: seq<Org>) {
    forall i, j :: 0 <= i < j < |orgs| ==> orgs[i].name != orgs[j].name && orgs[i].id != orgs[j].id
  }

  /** The user's roles by organisation name. */
  function RolesOf(orgs: seq<Org>, members: Members, user: Id): (roles: Roles)
    requires DistinctOrgs(orgs)
    ensures forall i :: 0 <= i < |orgs| ==> Get(roles, orgs[i].name) == RoleOf(members, orgs[i].id, user)
  {
    map i | 0 <= i < |orgs| && RoleOf(members, orgs[i].id, user).Some?
      :: orgs[i].name := RoleOf(members, orgs[i].id, user).value
  }

  // ---------------------------------------------------------------- what a run does

  /** Changes of one organisation's membership. */
  function ChangesFor(org: Org, user: Id, before: Option<string>, wanted: Option<string>): seq<MemberChange> {
    if org.name == MAIN || before == wanted then []
    else
      var out := if before.Some? then [Left(org.id, user)] else [];
      if wanted.Some? then out + [Joined(org.id, user, wanted.value)] else out
  }

  function Changes(orgs: seq<Org>, user: Id, before: Roles, wanted: Roles): seq<MemberChange> {
    if orgs == [] then []
    else
      var last := orgs[|orgs| - 1];
      Changes(orgs[..|orgs| - 1], user, before, wanted) +
          ChangesFor(last, user, Get(before, last.name), Get(wanted, last.name))
  }

  /** The user's teams after one organisation. For an organisation the user is in and stays in, the team is
      left out if the user is in a team whose number is that of the organisation. */
  function TeamsStep(mine: set<Id>, org: Org, teams: map<string, Id>, before: Roles, wanted: Roles): set<Id> {
    if org.name == MAIN || org.name !in teams then mine
    else if org.name in wanted then
      if org.name in before && org.id in mine && org.id in teams.Values then mine else mine + {teams[org.name]}
    else if org.name in before then mine - {teams[org.name]}
    else mine
  }

  function TeamsAfter(mine: set<Id>, orgs: seq<Org>, teams: map<string, Id>, before: Roles,
                      wanted: Roles): set<Id> {
    if orgs == [] then mine
    else TeamsStep(TeamsAfter(mine, orgs[..|orgs| - 1], teams, before, wanted), orgs[|orgs| - 1], teams, before, wanted)
  }

  /** The teams a user is in. */
  function TeamsOf(teamMembers: map<Id, set<Id>>, user: Id): set<Id> {
    set t | t in teamMembers && user in teamMembers[t]
  }

  /** The memberships of an organisation with another role, or none, for the user. */
  function WithRole(members: map<Id, string>, user: Id, role: Option<string>): map<Id, string> {
    if role.None? then members - {user} else members[user := role.value]
  }

  function MembersAfter(members: Members, orgs: seq<Org>, user: Id, wanted: Roles): Members {
    if orgs == [] then members
    else
      var before := MembersAfter(members, orgs[..|orgs| - 1], user, wanted);
      var last := orgs[|orgs| - 1];
      if last.name == MAIN || last.id !in before then before
      else before[last.id := WithRole(before[last.id], user, Get(wanted, last.name))]
  }

  ghost predicate OtherUsersKept(before: Members, after: Members, user: Id) {
    after.Keys == before.Keys && forall id :: id in before ==> after[id] - {user} == before[id] - {user}
  }

  ghost predicate OtherTeamMembersKept(before: map<Id, set<Id>>, after: map<Id, set<Id>>, user: Id) {
    after.Keys == before.Keys && forall t :: t in before ==> after[t] - {user} == before[t] - {user}
  }

  lemma {:induction false} OtherMembersStay(members: Members, orgs: seq<Org>, user: Id, wanted: Roles)
    ensures OtherUsersKept(members, MembersAfter(members, orgs, user, wanted), user)
  {
    if orgs != [] { OtherMembersStay(members, orgs[..|orgs| - 1], user, wanted); }
  }

  ghost predicate IsListed(orgs: seq<Org>, id: Id) {
    exists i :: 0 <= i < |orgs| && orgs[i].id == id
  }

  lemma {:induction false} UnlistedStay(members: Members, orgs: seq<Org>, user: Id, wanted: Roles, id: Id)
    requires !IsListed(orgs, id)
    ensures RoleOf(MembersAfter(members, orgs, user, wanted), id, user) == RoleOf(members, id, user)
  {
    if orgs != [] {
      var front, last := orgs[..|orgs| - 1], orgs[|orgs| - 1];
      assert last.id != id;
      assert forall i :: 0 <= i < |front| ==> front[i] == orgs[i];
      UnlistedStay(members, front, user, wanted, id);
    }
  }

  /** The user ends with the wanted role, or none, in every organisation but the main one, and with the role
      of before there. */
  lemma {:induction false} RoleAfter(members: Members, orgs: seq<Org>, user: Id, wanted: Roles, i: nat)
    requires DistinctOrgs(orgs) && i < |orgs| && orgs[i].id in members
    ensures RoleOf(MembersAfter(members, orgs, user, wanted), orgs[i].id, user) ==
            if orgs[i].name == MAIN then RoleOf(members, orgs[i].id, user) else Get(wanted, orgs[i].name)
  {
    var n := |orgs| - 1;
    var front, last := orgs[..n], orgs[n];
    OtherMembersStay(members, front, user, wanted);
    if i == n {
      assert !IsListed(front, last.id) by { assert forall j :: 0 <= j < n ==> front[j] == orgs[j]; }
      UnlistedStay(members, front, user, wanted, last.id);
    } else {
      assert front[i] == orgs[i];
      RoleAfter(members, front, user, wanted, i);
    }
  }

  datatype Snapshot = Snapshot(members: Members, teamMembers: map<Id, set<Id>>, memberLog: seq<MemberChange>)

  class Server {
    const orgs: seq<Org>
    /** Teams by organisation and name. */
    const teams: map<Id, map<string, Id>>
    const logins: map<string, Id>
    /** What calls without an organisation refer to. */
    var current: Id
    var members: Members
    var teamMembers: map<Id, set<Id>>
    ghost var memberLog: seq<MemberChange>
    ghost var teamLog: seq<TeamChange>

    ghost predicate Valid()
      reads this
    {
      && DistinctOrgs(orgs)
      && (forall i :: 0 <= i < |orgs| ==> orgs[i].id in members)
      && MAIN_ID in members && MAIN_ID in teams
      && current in members
      && (forall name :: name in teams[MAIN_ID] ==> teams[MAIN_ID][name] in teamMembers)
    }

    constructor (orgs: seq<Org>, teams: map<Id, map<string, Id>>, logins: map<string, Id>, members: Members,
                 teamMembers: map<Id, set<Id>>)
      requires DistinctOrgs(orgs) && MAIN_ID in members && MAIN_ID in teams
      requires forall i :: 0 <= i < |orgs| ==> orgs[i].id in members
      requires forall name :: name in teams[MAIN_ID] ==> teams[MAIN_ID][name] in teamMembers
      ensures Valid() && this.orgs == orgs && this.teams == teams && this.logins == logins
      ensures this.members == members && this.teamMembers == teamMembers && current == MAIN_ID
    {
      this.orgs, this.teams, this.logins, this.members, this.teamMembers := orgs, teams, logins, members, teamMembers;
      current, memberLog, teamLog := MAIN_ID, [], [];
    }

    method SwitchOrganization(id: Id)
      requires Valid() && id in members
      modifies this`current
      ensures Valid() && current == id
    {
      current := id;
    }

    /** The server refuses an unknown login and one that is a member already. */
    method AddToOrg(role: string, login: string)
      requires Valid() && login in logins && RoleOf(members, current, logins[login]).None?
      modifies this`members, this`memberLog
      ensures Valid() && members == old(members)[current := old(members)[current][logins[login] := role]]
      ensures memberLog == old(memberLog) + [Joined(current, logins[login], role)]
    {
      members := members[current := members[current][logins[login] := role]];
      memberLog := memberLog + [Joined(current, logins[login], role)];
    }

    /** The server refuses to remove who is not a member. */
    method RemoveFromOrg(user: Id)
      requires Valid() && RoleOf(members, current, user).Some?
      modifies this`members, this`memberLog
      ensures Valid() && members == old(members)[current := old(members)[current] - {user}]
      ensures memberLog == old(memberLog) + [Left(current, user)]
    {
      members := members[current := members[current] - {user}];
      memberLog := memberLog + [Left(current, user)];
    }

    /** Only teams of the current organisation are seen. */
    predicate IsInTeam(team: Id, user: Id)
      requires current in teams
      reads this
    {
      team in teams[current].Values && team in teamMembers && user in teamMembers[team]
    }

    method AddToTeam(orgName: string, user: Id)
      requires Valid() && current == MAIN_ID
      modifies this`teamMembers, this`teamLog
      ensures Valid() && TeamLogGrows(old(teamLog), teamLog)
      ensures TeamsOf(teamMembers, user) ==
              TeamsOf(old(teamMembers), user) + if orgName in teams[MAIN_ID] then {teams[MAIN_ID][orgName]} else {}
      ensures OtherTeamMembersKept(old(teamMembers), teamMembers, user)
    {
      if orgName in teams[current] {
        var team := teams[current][orgName];
        if !IsInTeam(team, user) {
          teamMembers := teamMembers[team := teamMembers[team] + {user}];
          teamLog := teamLog + [TeamJoined(current, team, user)];
        }
      }
    }

    method RemoveFromTeam(orgName: string, user: Id)
      requires Valid() && current == MAIN_ID
      modifies this`teamMembers, this`teamLog
      ensures Valid() && TeamLogGrows(old(teamLog), teamLog)
      ensures TeamsOf(teamMembers, user) ==
              TeamsOf(old(teamMembers), user) - if orgName in teams[MAIN_ID] then {teams[MAIN_ID][orgName]} else {}
      ensures OtherTeamMembersKept(old(teamMembers), teamMembers, user)
    {
      if orgName in teams[current] {
        var team := teams[current][orgName];
        if IsInTeam(team, user) {
          teamMembers := teamMembers[team := teamMembers[team] - {user}];
          teamLog := teamLog + [TeamLeft(current, team, user)];
        }
      }
    }

    method GetOrgs(user: Id) returns (roles: Roles)
      requires Valid()
      ensures roles == RolesOf(orgs, members, user)
    {
      roles := RolesOf(orgs, members, user);
    }

    /** The user's role in every organisation but the main one becomes the wanted one, or none; nothing else
        about memberships changes, and no call is made that the server refuses. */
    method UpdateOrgs(user: Id, login: string, wanted: Roles)
      requires Valid() && login in logins && logins[login] == user
      modifies this
      ensures Valid()
      ensures forall i :: 0 <= i < |orgs| && orgs[i].name != "Main Org." ==>
              RoleOf(members, orgs[i].id, user) == Get(wanted, orgs[i].name)
      ensures forall i :: 0 <= i < |orgs| && orgs[i].name == "Main Org." ==>
              RoleOf(members, orgs[i].id, user) == old(RoleOf(members, orgs[i].id, user))
      ensures OtherUsersKept(old(members), members, user) && OtherTeamMembersKept(old(teamMembers), teamMembers, user)
      ensures var roles := RolesOf(orgs, old(members), user);
              && memberLog == old(memberLog) + Changes(orgs, user, roles, wanted)
              && TeamsOf(teamMembers, user) ==
                  TeamsAfter(TeamsOf(old(teamMembers), user), orgs, teams[Id(1)], roles, wanted)
      ensures TeamLogGrows(old(teamLog), teamLog)
    {
      var roles := GetOrgs(user);
      UpdateAll(user, login, roles, wanted);
      OtherMembersStay(old(members), orgs, user, wanted);
      forall i | 0 <= i < |orgs|
        ensures RoleOf(members, orgs[i].id, user) ==
                if orgs[i].name == MAIN then RoleOf(old(members), orgs[i].id, user) else Get(wanted, orgs[i].name)
      {
        RoleAfter(old(members), orgs, user, wanted, i);
      }
    }

    /** The loop over all organisations. */
    method UpdateAll(user: Id, login: string, roles: Roles, wanted: Roles)
      requires Valid() && login in logins && logins[login] == user
      requires roles == RolesOf(orgs, members, user)
      modifies this
      ensures Valid() && TeamLogGrows(old(teamLog), teamLog)
      ensures members == MembersAfter(old(members), orgs, user, wanted)
      ensures OtherTeamMembersKept(old(teamMembers), teamMembers, user)
      ensures memberLog == old(memberLog) + Changes(orgs, user, roles, wanted)
      ensures TeamsOf(teamMembers, user) ==
              TeamsAfter(TeamsOf(old(teamMembers), user), orgs, teams[MAIN_ID], roles, wanted)
    {
      var add := wanted.Keys - roles.Keys;
      var update := roles.Keys * wanted.Keys;
      var delete := roles.Keys - wanted.Keys - {MAIN};
      ghost var start := Snapshot(members, teamMembers, memberLog);
      for i := 0 to |orgs|
        invariant Valid() && TeamLogGrows(old(teamLog), teamLog)
        invariant UpTo(i, user, roles, wanted, start, Snapshot(members, teamMembers, memberLog))
      {
        ghost var before := Snapshot(members, teamMembers, memberLog);
        assert orgs[..i + 1][..i] == orgs[..i];
        if orgs[i].name != MAIN {
          RoleStillThere(start.members, orgs, i, user, wanted);
          UpdateOrg(orgs[i], user, login, roles, wanted, add, update, delete);
        }
        OneMoreOrg(i, user, roles, wanted, start, before, Snapshot(members, teamMembers, memberLog));
      }
      assert orgs[..|orgs|] == orgs;
    }

    /** The first `i` organisations have been seen to. */
    ghost predicate UpTo(i: nat, user: Id, roles: Roles, wanted: Roles, start: Snapshot,
                         now: Snapshot)
      requires i <= |orgs| && MAIN_ID in teams
    {
      && now.members == MembersAfter(start.members, orgs[..i], user, wanted)
      && now.memberLog == start.memberLog + Changes(orgs[..i], user, roles, wanted)
      && OtherTeamMembersKept(start.teamMembers, now.teamMembers, user)
      && TeamsOf(now.teamMembers, user) ==
          TeamsAfter(TeamsOf(start.teamMembers, user), orgs[..i], teams[MAIN_ID], roles, wanted)
    }

    lemma OneMoreOrg(i: nat, user: Id, roles: Roles, wanted: Roles,
                     start: Snapshot, before: Snapshot, now: Snapshot)
      requires i < |orgs| && MAIN_ID in teams && UpTo(i, user, roles, wanted, start, before)
      requires if orgs[i].name == MAIN then now == before else
                 && orgs[i].id in before.members
                 && now.members ==
                     before.members[orgs[i].id := WithRole(before.members[orgs[i].id], user, Get(wanted, orgs[i].name))]
                 && now.memberLog ==
                     before.memberLog + ChangesFor(orgs[i], user, Get(roles, orgs[i].name), Get(wanted, orgs[i].name))
                 && OtherTeamMembersKept(before.teamMembers, now.teamMembers, user)
                 && TeamsOf(now.teamMembers, user) ==
                     TeamsStep(TeamsOf(before.teamMembers, user), orgs[i], teams[MAIN_ID], roles, wanted)
      ensures UpTo(i + 1, user, roles, wanted, start, now)
    {
      assert orgs[..i + 1][..i] == orgs[..i];
    }

    /** One organisation. */
    method UpdateOrg(org: Org, user: Id, login: string, roles: Roles, wanted: Roles,
                     add: set<string>, update: set<string>, delete: set<string>)
      requires Valid() && login in logins && logins[login] == user
      requires org.name != MAIN && org.id in members && RoleOf(members, org.id, user) == Get(roles, org.name)
      requires add == wanted.Keys - roles.Keys && update == roles.Keys * wanted.Keys &&
               delete == roles.Keys - wanted.Keys - {MAIN}
      modifies this
      ensures Valid() && TeamLogGrows(old(teamLog), teamLog)
      ensures members == old(members)[org.id := WithRole(old(members)[org.id], user, Get(wanted, org.name))]
      ensures OtherTeamMembersKept(old(teamMembers), teamMembers, user)
      ensures memberLog == old(memberLog) + ChangesFor(org, user, Get(roles, org.name), Get(wanted, org.name))
      ensures TeamsOf(teamMembers, user) ==
              TeamsStep(TeamsOf(old(teamMembers), user), org, teams[MAIN_ID], roles, wanted)
    {
      SwitchOrganization(org.id);
      if org.name in add {
        AddToOrg(wanted[org.name], login);
        SwitchOrganization(MAIN_ID);
        AddToTeam(org.name, user);
      } else if org.name in update {
        if wanted[org.name] != roles[org.name] {
          ReplaceRole(wanted[org.name], user, login);
        } else {
          SameRole(members, org.id, user);
        }
        SwitchOrganization(MAIN_ID);
        if !IsInTeam(org.id, user) { AddToTeam(org.name, user); }
      } else if org.name in delete {
        RemoveFromOrg(user);
        SwitchOrganization(MAIN_ID);
        RemoveFromTeam(org.name, user);
      } else {
        SameRole(members, org.id, user);
      }
    }

    /** The server does not change roles of externally synchronised users: out and in again. */
    method ReplaceRole(role: string, user: Id, login: string)
      requires Valid() && login in logins && logins[login] == user && RoleOf(members, current, user).Some?
      modifies this`members, this`memberLog
      ensures Valid() && members == old(members)[current := old(members)[current][user := role]]
      ensures memberLog == old(memberLog) + [Left(current, user), Joined(current, user, role)]
    {
      RemoveFromOrg(user);
      AddToOrg(role, login);
      assert (old(members)[current] - {user})[user := role] == old(members)[current][user := role];
      assert members[current] == old(members)[current][user := role];
    }
  }

  lemma SameRole(members: Members, org: Id, user: Id)
    requires org in members
    ensures members[org := WithRole(members[org], user, RoleOf(members, org, user))] == members
  {
    assert WithRole(members[org], user, RoleOf(members, org, user)) == members[org];
  }

  lemma RoleStillThere(members: Members, orgs: seq<Org>, i: nat, user: Id, wanted: Roles)
    requires DistinctOrgs(orgs) && i < |orgs| && orgs[i].id in members
    ensures RoleOf(MembersAfter(members, orgs[..i], user, wanted), orgs[i].id, user) ==
            RoleOf(members, orgs[i].id, user)
    ensures orgs[i].id in MembersAfter(members, orgs[..i], user, wanted)
  {
    OtherMembersStay(members, orgs[..i], user, wanted);
    UnlistedStay(members, orgs[..i], user, wanted, orgs[i].id);
  }

  /** Only changes made while the main organisation was current have been added. */
  ghost predicate TeamLogGrows(before: seq<TeamChange>, after: seq<TeamChange>) {
    before <= after && forall i :: |before| <= i < |after| ==> after[i].org == MAIN_ID
  }

  ghost predicate Agree(orgs: seq<Org>, roles: Roles, wanted: Roles) {
    forall i :: 0 <= i < |orgs| && orgs[i].name != MAIN ==> Get(roles, orgs[i].name) == Get(wanted, orgs[i].name)
  }

  /** Memberships are changed exactly where the role differs. */
  lemma {:induction false} NoChangesIffAgree(orgs: seq<Org>, user: Id, roles: Roles, wanted: Roles)
    ensures Changes(orgs, user, roles, wanted) == [] <==> Agree(orgs, roles, wanted)
  {
    if orgs != [] {
      var n := |orgs| - 1;
      var front, last := orgs[..n], orgs[n];
      NoChangesIffAgree(front, user, roles, wanted);
      assert ChangesFor(last, user, Get(roles, last.name), Get(wanted, last.name)) == []
        <==> last.name == MAIN || Get(roles, last.name) == Get(wanted, last.name);
      assert Agree(orgs, roles, wanted) <==>
          Agree(front, roles, wanted) && (last.name == MAIN || Get(roles, last.name) == Get(wanted, last.name)) by {
        assert forall i :: 0 <= i < n ==> front[i] == orgs[i];
      }
    }
  }

  /** A second run changes no membership. */
  method UpdateOrgsTwice(server: Server, user: Id, login: string, wanted: Roles)
      returns (ghost between: seq<MemberChange>)
    requires server.Valid() && login in server.logins && server.logins[login] == user
    modifies server
    ensures server.memberLog == between &&
            between == old(server.memberLog) +
                Changes(server.orgs, user, RolesOf(server.orgs, old(server.members), user), wanted)
  {
    server.UpdateOrgs(user, login, wanted);
    between := server.memberLog;
    NoChangesIffAgree(server.orgs, user, RolesOf(server.orgs, server.members, user), wanted);
    server.UpdateOrgs(user, login, wanted);
  }

  ghost predicate DistinctTeams(teams: map<string, Id>) {
    forall a, b :: a in teams && b in teams && teams[a] == teams[b] ==> a == b
  }

  lemma {:induction false} OtherTeamsStay(mine: set<Id>, orgs: seq<Org>, teams: map<string, Id>, before: Roles,
                                          wanted: Roles, name: string)
    requires DistinctTeams(teams) && name in teams
    requires name == MAIN || forall i :: 0 <= i < |orgs| ==> orgs[i].name != name
    ensures teams[name] in TeamsAfter(mine, orgs, teams, before, wanted) <==> teams[name] in mine
  {
    if orgs != [] {
      var n := |orgs| - 1;
      assert forall i :: 0 <= i < n ==> orgs[..n][i] == orgs[i];
      assert name == MAIN || orgs[n].name != name;
      OtherTeamsStay(mine, orgs[..n], teams, before, wanted, name);
    }
  }

  lemma {:induction false} TeamAfterLoop(mine: set<Id>, orgs: seq<Org>, teams: map<string, Id>, before: Roles,
                                         wanted: Roles, i: nat)
    requires DistinctOrgs(orgs) && DistinctTeams(teams) && i < |orgs| && orgs[i].name != MAIN && orgs[i].name in teams
    ensures var name := orgs[i].name;
            var there := teams[name] in TeamsAfter(mine, orgs, teams, before, wanted);
            && (name in wanted && name !in before ==> there)
            && (name !in wanted && name in before ==> !there)
            && (name !in wanted && name !in before ==> (there <==> teams[name] in mine))
            && (name in wanted && name in before ==>
                  (!there <==> teams[name] !in mine && orgs[i].id in teams.Values
                               && orgs[i].id in TeamsAfter(mine, orgs[..i], teams, before, wanted)))
  {
    var n := |orgs| - 1;
    var front := orgs[..n];
    assert forall j :: 0 <= j < n ==> front[j] == orgs[j];
    if i == n {
      OtherTeamsStay(mine, front, teams, before, wanted, orgs[n].name);
    } else {
      TeamAfterLoop(mine, front, teams, before, wanted, i);
      assert front[..i] == orgs[..i];
    }
  }

  /** Organisation `j` has the team of that number. */
  predicate Owns(orgs: seq<Org>, teams: map<string, Id>, j: nat, team: Id) {
    j < |orgs| && orgs[j].name != MAIN && orgs[j].name in teams && teams[orgs[j].name] == team
  }

  /** The number of organisation `i` is that of a team that the user is in when the loop comes to it. If an
      organisation in front of it has that team, it depends on what became of the user there; otherwise the
      teams of before decide. */
  ghost predicate InByNumber(mine: set<Id>, orgs: seq<Org>, teams: map<string, Id>, before: Roles, wanted: Roles,
                             i: nat)
    requires i < |orgs|
    decreases i
  {
    var team := orgs[i].id;
    team in teams.Values &&
    if j: nat :| j < i && Owns(orgs, teams, j, team) then
      var name := orgs[j].name;
      if name in wanted && name in before then team in mine || !InByNumber(mine, orgs, teams, before, wanted, j)
      else if name in wanted then true
      else if name in before then false
      else team in mine
    else team in mine
  }

  lemma {:induction false} NumberAtThatMoment(mine: set<Id>, orgs: seq<Org>, teams: map<string, Id>, before: Roles,
                                              wanted: Roles, i: nat)
    requires DistinctOrgs(orgs) && DistinctTeams(teams) && i < |orgs|
    ensures InByNumber(mine, orgs, teams, before, wanted, i) <==>
            orgs[i].id in teams.Values && orgs[i].id in TeamsAfter(mine, orgs[..i], teams, before, wanted)
    decreases i
  {
    var team, front := orgs[i].id, orgs[..i];
    if team in teams.Values {
      var owner :| owner in teams && teams[owner] == team;
      if exists j: nat :: j < i && Owns(orgs, teams, j, team) {
        forall j: nat | j < i && Owns(orgs, teams, j, team)
          ensures InByNumber(mine, orgs, teams, before, wanted, j) <==>
                  orgs[j].id in teams.Values && orgs[j].id in TeamsAfter(mine, orgs[..j], teams, before, wanted)
        {
          NumberAtThatMoment(mine, orgs, teams, before, wanted, j);
        }
        var j: nat :| j < i && Owns(orgs, teams, j, team);
        assert orgs[j].name == owner && front[..j] == orgs[..j];
        TeamAfterLoop(mine, front, teams, before, wanted, j);
      } else {
        forall j | 0 <= j < i ensures owner == MAIN || front[j].name != owner {
          assert !Owns(orgs, teams, j, team);
        }
        OtherTeamsStay(mine, front, teams, before, wanted, owner);
      }
    }
  }

  /** Where the user stands with the team of an organisation after a run: in it when added, out of it when
      removed. When kept, the user misses the team exactly if it was missing before and the number of the
      organisation is that of a team that the user is in by then. */
  lemma TeamAfter(mine: set<Id>, orgs: seq<Org>, teams: map<string, Id>, before: Roles, wanted: Roles, i: nat)
    requires DistinctOrgs(orgs) && DistinctTeams(teams) && i < |orgs| && orgs[i].name != MAIN && orgs[i].name in teams
    ensures var name := orgs[i].name;
            var there := teams[name] in TeamsAfter(mine, orgs, teams, before, wanted);
            && (name in wanted && name !in before ==> there)
            && (name !in wanted && name in before ==> !there)
            && (name !in wanted && name !in before ==> (there <==> teams[name] in mine))
            && (name in wanted && name in before ==>
                  (!there <==> teams[name] !in mine && InByNumber(mine, orgs, teams, before, wanted, i)))
  {
    TeamAfterLoop(mine, orgs, teams, before, wanted, i);
    NumberAtThatMoment(mine, orgs, teams, before, wanted, i);
  }

  /** The mix-up of numbers: a user who stays in organisation 5 and is in another team numbered 5 is not
      put into the team of the organisation; without that other team, it is. */
  lemma TeamMissedByNumber(orgs: seq<Org>, teams: map<string, Id>, roles: Roles)
    requires orgs == [Org("hydro", Id(5))] && teams == map["hydro" := Id(9), "other" := Id(5)] &&
             roles == map["hydro" := "Viewer"]
    ensures TeamsAfter({Id(5)}, orgs, teams, roles, roles) == {Id(5)}
    ensures TeamsAfter({}, orgs, teams, roles, roles) == {Id(9)}
  {
    assert orgs[..0] == [];
    assert teams["other"] == Id(5) && Id(5) in teams.Values;
    assert "hydro" != MAIN;
  }
}

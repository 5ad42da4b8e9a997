/** The channel service over its tables: each call is one step, and keeps what every run of them keeps. */
module ChannelServices {
  import opened Channels
  import opened ChannelRules

  class ChannelService {
    var users: set<UserId>
    var channels: map<Id, Channel>
    var members: map<Id, map<UserId, Role>>
    var issued: set<Id>

    function Abs(): Directory
      reads this
    {
      Directory(users, channels, members, issued)
    }

    /** Direct messages, pairs, names and rows are as the rules of the service keep them. */
    ghost predicate Valid()
      reads this
    {
      Inv(Abs())
    }

    constructor (users: set<UserId>)
      ensures Valid() && Abs() == Empty(users)
    {
      this.users := users;
      channels, members, issued := map[], map[], {};
    }

    method CreateChannel(user: UserId, name: string, topic: string, newId: Id) returns (r: Outcome)
      requires Valid() && Enabled(Abs(), Create(user, name, topic, newId))
      modifies this
      ensures Valid() && (Abs(), r) == Do(old(Abs()), Create(user, name, topic, newId))
      ensures r == Err(InvalidChannelName) <==> !ValidName(name)
      ensures r.Ok? <==>
        ValidName(name) && '\0' !in topic && user in users
        && forall c :: c in old(channels) ==> old(channels)[c].name != name
      ensures r.Ok? ==>
        && channels == old(channels)[newId := Channel(name, topic, false, user)]
        && members == old(members)[newId := map[user := Owner]]
      ensures r.Err? ==> Abs() == old(Abs())
    {
      StepKeepsInv(Abs(), Create(user, name, topic, newId));
      hide Inv;
      if !ValidName(name) {
        return Err(InvalidChannelName);
      }
      if '\0' in topic {
        return Err(DatabaseError);
      }
      if NameTaken(Abs(), name, {}) {
        return Err(ChannelNameTaken);
      }
      if user !in users {
        return Err(DatabaseError);
      }
      channels := channels[newId := Channel(name, topic, false, user)];
      members := members[newId := map[user := Owner]];
      issued := issued + {newId};
      return Ok(newId);
    }

    method UpdateChannel(c: Id, user: UserId, name: string, topic: string) returns (r: Outcome)
      requires Valid()
      modifies this
      ensures Valid() && (Abs(), r) == Do(old(Abs()), Update(c, user, name, topic))
      ensures r == Err(DatabaseError) <==>
        old(IsOwner(Abs(), c, user)) && (name == "" || ValidName(name)) && '\0' in topic
      ensures r.Ok? <==>
        old(IsOwner(Abs(), c, user)) && (name == "" || ValidName(name)) && '\0' !in topic
        && forall o :: o in old(channels) && o != c ==> old(channels)[o].name != name
      ensures r.Ok? ==>
        && c in old(channels) && members == old(members)
        && channels == old(channels)[c := Channel(name, topic, old(channels[c].dm), old(channels[c].createdBy))]
      ensures r.Err? ==> Abs() == old(Abs())
    {
      StepKeepsInv(Abs(), Update(c, user, name, topic));
      assert c in members ==> c in channels;
      hide Inv;
      var role := RoleOf(Abs(), c, user);
      if role.None? {
        return Err(NotChannelMember);
      }
      if role.value != Owner {
        return Err(InsufficientPermissions);
      }
      if name != "" && !ValidName(name) {
        return Err(InvalidChannelName);
      }
      if '\0' in topic || c !in channels {
        return Err(DatabaseError);
      }
      if NameTaken(Abs(), name, {c}) {
        return Err(ChannelNameTaken);
      }
      channels := channels[c := channels[c].(name := name, topic := topic)];
      return Ok(c);
    }

    method DeleteChannel(c: Id, user: UserId) returns (r: Outcome)
      requires Valid()
      modifies this
      ensures Valid() && (Abs(), r) == Do(old(Abs()), Delete(c, user))
      ensures r.Ok? <==> old(IsOwner(Abs(), c, user))
      ensures r.Ok? ==> channels == old(channels) - {c} && members == old(members) - {c}
      ensures r.Err? ==> Abs() == old(Abs())
    {
      StepKeepsInv(Abs(), Delete(c, user));
      hide Inv;
      var role := RoleOf(Abs(), c, user);
      if role.None? {
        return Err(NotChannelMember);
      }
      if role.value != Owner {
        return Err(InsufficientPermissions);
      }
      channels := channels - {c};
      members := members - {c};
      return Ok(c);
    }

    method AddChannelMember(c: Id, target: UserId, requester: UserId, roleName: string) returns (r: Outcome)
      requires Valid()
      modifies this
      ensures Valid() && (Abs(), r) == Do(old(Abs()), AddMember(c, target, requester, roleName))
      ensures r.Ok? <==>
        && (old(IsOwner(Abs(), c, requester)) || (old(HasRole(Abs(), c, requester, Admin)) && roleName != "owner"))
        && target in users && old(RoleOf(Abs(), c, target)).None?
      ensures r.Ok? ==>
        && (HasRole(Abs(), c, target, Owner) <==> roleName == "owner")
        && (HasRole(Abs(), c, target, Admin) <==> roleName == "admin")
        && (HasRole(Abs(), c, target, Member) <==> roleName !in {"owner", "admin"})
        && (forall o, u :: (o, u) != (c, target) ==> RoleOf(Abs(), o, u) == old(RoleOf(Abs(), o, u)))
      ensures r.Err? ==> Abs() == old(Abs())
      ensures channels == old(channels)
    {
      StepKeepsInv(Abs(), AddMember(c, target, requester, roleName));
      hide Inv;
      var requesterRole := RoleOf(Abs(), c, requester);
      if requesterRole.None? {
        return Err(NotChannelMember);
      }
      if requesterRole.value != Owner && requesterRole.value != Admin {
        return Err(InsufficientPermissions);
      }
      var validRoles := ["member", "admin", "owner"];
      var isValid, i := false, 0;
      while i < |validRoles|
        invariant 0 <= i <= |validRoles|
        invariant !isValid && roleName !in validRoles[..i]
      {
        if roleName == validRoles[i] {
          isValid := true;
          break;
        }
        i := i + 1;
      }
      var role := if isValid then roleName else "member";
      assert !isValid ==> validRoles[..i] == validRoles;
      assert RequestedRole(role) == RequestedRole(roleName);
      if role == "owner" && requesterRole.value != Owner {
        return Err(InsufficientPermissions);
      }
      if target in members[c] {
        return Err(AlreadyChannelMember);
      }
      if target !in users {
        return Err(DatabaseError);
      }
      members := members[c := members[c][target := RequestedRole(role)]];
      return Ok(c);
    }

    method RemoveChannelMember(c: Id, target: UserId, requester: UserId) returns (r: Outcome)
      requires Valid()
      modifies this
      ensures Valid() && (Abs(), r) == Do(old(Abs()), RemoveMember(c, target, requester))
      ensures r.Ok? <==>
        || (requester == target && old(RoleOf(Abs(), c, target)).Some?)
        || (old(IsOwner(Abs(), c, requester)) && old(RoleOf(Abs(), c, target)).Some?
            && old(RoleOf(Abs(), c, target)).value in {Admin, Member})
        || (old(HasRole(Abs(), c, requester, Admin)) && old(HasRole(Abs(), c, target, Member)))
      ensures r.Ok? ==>
        && RoleOf(Abs(), c, target).None?
        && (forall o, u :: (o, u) != (c, target) ==> RoleOf(Abs(), o, u) == old(RoleOf(Abs(), o, u)))
      ensures r.Err? ==> Abs() == old(Abs())
      ensures channels == old(channels)
    {
      StepKeepsInv(Abs(), RemoveMember(c, target, requester));
      hide Inv;
      var requesterRole := RoleOf(Abs(), c, requester);
      if requesterRole.None? {
        return Err(NotChannelMember);
      }
      var targetRole := RoleOf(Abs(), c, target);
      if targetRole.None? {
        return Err(NotChannelMember);
      }
      var canRemove := false;
      if requester == target {
        canRemove := true;
      } else if requesterRole.value == Owner && targetRole.value != Owner {
        canRemove := true;
      } else if requesterRole.value == Admin && targetRole.value == Member {
        canRemove := true;
      }
      if !canRemove {
        return Err(InsufficientPermissions);
      }
      members := members[c := members[c] - {target}];
      return Ok(c);
    }

    method CreateOrGetDMChannel(u: UserId, v: UserId, newId: Id, found: Id) returns (r: Outcome)
      requires Valid() && Enabled(Abs(), CreateOrGetDM(u, v, newId, found))
      modifies this
      ensures Valid() && (Abs(), r) == Do(old(Abs()), CreateOrGetDM(u, v, newId, found))
      ensures r.Ok? ==> u != v && IsPairDM(Abs(), r.id, u, v)
      ensures r == Err(InvalidDMTarget) <==> u == v
      ensures r.Ok? <==>
        u != v && (old(HasPairDM(Abs(), u, v)) || (!old(NameTaken(Abs(), DmName(u, v), {})) && {u, v} <= users))
      ensures r.Ok? && !old(HasPairDM(Abs(), u, v)) ==>
        && channels == old(channels)[newId := Channel(DmName(u, v), "", true, u)]
        && members == old(members)[newId := map[u := Member, v := Member]]
      ensures r.Err? || old(HasPairDM(Abs(), u, v)) ==> Abs() == old(Abs())
    {
      if Do(Abs(), CreateOrGetDM(u, v, newId, found)).1.Ok? {
        OpenedDm(Abs(), CreateOrGetDM(u, v, newId, found));
      }
      StepKeepsInv(Abs(), CreateOrGetDM(u, v, newId, found));
      hide Inv;
      if u == v {
        return Err(InvalidDMTarget);
      }
      if HasPairDM(Abs(), u, v) {
        return Ok(found);
      }
      if NameTaken(Abs(), DmName(u, v), {}) || u !in users || v !in users {
        return Err(DatabaseError);
      }
      channels := channels[newId := Channel(DmName(u, v), "", true, u)];
      members := members[newId := map[u := Member, v := Member]];
      issued := issued + {newId};
      return Ok(newId);
    }
  }
}

/**
  Channels, members and direct messages. Each service call is one atomic step on the tables; a fresh id and
  the row a LIMIT 1 query picks are choices made outside.
*/
module Channels {
  import opened Sequences

  type Id = string
  type UserId = string

  datatype Role = Member | Admin | Owner

  datatype Channel = Channel(name: string, topic: string, dm: bool, createdBy: UserId)

  /** The tables: `members[c]` holds the rows of channel `c`; `issued` the channel ids ever generated. */
  datatype Directory = Directory(
    users: set<UserId>, channels: map<Id, Channel>, members: map<Id, map<UserId, Role>>, issued: set<Id>)

  datatype Error =
    | InvalidChannelName
    | ChannelNameTaken
    | NotChannelMember
    | InsufficientPermissions
    | AlreadyChannelMember
    | InvalidDMTarget
    | DatabaseError

  datatype Outcome = Ok(id: Id) | Err(error: Error)

  datatype Op =
    | Register(user: UserId)
    | Create(user: UserId, name: string, topic: string, newId: Id)
    | Update(channel: Id, user: UserId, name: string, topic: string)
    | Delete(channel: Id, user: UserId)
    | AddMember(channel: Id, target: UserId, requester: UserId, role: string)
    | RemoveMember(channel: Id, target: UserId, requester: UserId)
    | CreateOrGetDM(user: UserId, target: UserId, newId: Id, found: Id)
    | WelcomeDM(user: UserId, target: UserId, newId: Id, found: Id)

  // ---- Queries ----

  function RoleOf(d: Directory, c: Id, u: UserId): Option<Role> {
    if c in d.members && u in d.members[c] then Some(d.members[c][u]) else None
  }

  predicate HasRole(d: Directory, c: Id, u: UserId, role: Role) {
    c in d.members && u in d.members[c] && d.members[c][u] == role
  }

  predicate IsOwner(d: Directory, c: Id, u: UserId) {
    HasRole(d, c, u, Owner)
  }

  predicate ValidName(name: string) {
    && 2 <= |name| <= 32
    && forall i :: 0 <= i < |name| ==> 'a' <= name[i] <= 'z' || '0' <= name[i] <= '9' || name[i] == '-'
  }

  const LETTERS := "abcdefghijklmnopqrstuvwxyz"
  const DIGITS := "0123456789"

  lemma IsLetter(ch: char)
    ensures ch in LETTERS <==> 'a' <= ch <= 'z'
  {
    if 'a' <= ch <= 'z' {
      assert LETTERS[ch as int - 'a' as int] == ch;
    }
  }

  lemma IsDigit(ch: char)
    ensures ch in DIGITS <==> '0' <= ch <= '9'
  {
    if '0' <= ch <= '9' {
      assert DIGITS[ch as int - '0' as int] == ch;
    }
  }

  /** A name is 2 to 32 characters, each a lower-case letter, a digit or a hyphen. */
  lemma ValidNameIff(name: string)
    ensures ValidName(name)
       <==> 2 <= |name| <= 32 && forall ch :: ch in name ==> ch in LETTERS || ch in DIGITS || ch == '-'
  {
    forall ch: char
      ensures ch in LETTERS || ch in DIGITS <==> 'a' <= ch <= 'z' || '0' <= ch <= '9'
    {
      IsLetter(ch);
      IsDigit(ch);
    }
    assert forall i :: 0 <= i < |name| ==> name[i] in name;
  }

  predicate NameTaken(d: Directory, name: string, except: set<Id>) {
    exists c :: c in d.channels && c !in except && d.channels[c].name == name
  }

  /** The first eight characters; a user id is a UUID, so there always are eight. */
  function Short(u: UserId): string {
    if |u| < 8 then u else u[..8]
  }

  function DmName(u: UserId, v: UserId): string {
    "dm-" + Short(u) + "-" + Short(v)
  }

  /** Names tell apart only the first eight characters: two ordered pairs share one exactly if these agree. */
  lemma DmNamesCollideIff(a: UserId, b: UserId, c: UserId, d: UserId)
    requires |a| >= 8 && |b| >= 8 && |c| >= 8 && |d| >= 8
    ensures DmName(a, b) == DmName(c, d) <==> a[..8] == c[..8] && b[..8] == d[..8]
    ensures DmName(a, b)[..3] == "dm-" && |DmName(a, b)| == 20
  {
    var x, y := DmName(a, b), DmName(c, d);
    assert x[3..11] == a[..8] && y[3..11] == c[..8] && x[12..] == b[..8] && y[12..] == d[..8];
  }

  predicate IsPairDM(d: Directory, c: Id, u: UserId, v: UserId) {
    && c in d.channels && d.channels[c].dm && c in d.members
    && u in d.members[c] && v in d.members[c] && |d.members[c]| == 2
  }

  predicate HasPairDM(d: Directory, u: UserId, v: UserId) {
    exists c :: c in d.channels && IsPairDM(d, c, u, v)
  }

  // ---- Steps: the database takes no zero character in a topic ----

  predicate Enabled(d: Directory, op: Op) {
    match op
    case Create(_, _, _, newId) => newId !in d.issued
    case CreateOrGetDM(u, v, newId, found) => newId !in d.issued && (HasPairDM(d, u, v) ==> IsPairDM(d, found, u, v))
    case WelcomeDM(u, v, newId, found) => newId !in d.issued && (HasPairDM(d, u, v) ==> IsPairDM(d, found, u, v))
    case _ => true
  }

  function AddChannel(d: Directory, id: Id, ch: Channel, rows: map<UserId, Role>): Directory {
    d.(channels := d.channels[id := ch], members := d.members[id := rows], issued := d.issued + {id})
  }

  function SetRows(d: Directory, c: Id, rows: map<UserId, Role>): Directory {
    d.(members := d.members[c := rows])
  }

  /** The role asked for; anything unknown means an ordinary member. */
  function RequestedRole(role: string): Role {
    if role == "owner" then Owner else if role == "admin" then Admin else Member
  }

  predicate MayRemove(requester: UserId, requesterRole: Role, target: UserId, targetRole: Role) {
    || requester == target
    || (requesterRole.Owner? && !targetRole.Owner?)
    || (requesterRole.Admin? && targetRole.Member?)
  }

  /** The repository's find-or-create transaction. */
  function GetOrCreateDM(d: Directory, u: UserId, v: UserId, newId: Id, found: Id): (Directory, Outcome) {
    if HasPairDM(d, u, v) then (d, Ok(found))
    else if NameTaken(d, DmName(u, v), {}) || u !in d.users || v !in d.users || u == v then (d, Err(DatabaseError))
    else (AddChannel(d, newId, Channel(DmName(u, v), "", true, u), map[u := Member, v := Member]), Ok(newId))
  }

  function Created(d: Directory, user: UserId, name: string, topic: string, newId: Id): (Directory, Outcome) {
    if !ValidName(name) then (d, Err(InvalidChannelName))
    else if '\0' in topic then (d, Err(DatabaseError))
    else if NameTaken(d, name, {}) then (d, Err(ChannelNameTaken))
    else if user !in d.users then (d, Err(DatabaseError))
    else (AddChannel(d, newId, Channel(name, topic, false, user), map[user := Owner]), Ok(newId))
  }

  function Updated(d: Directory, c: Id, user: UserId, name: string, topic: string): (Directory, Outcome) {
    var role := RoleOf(d, c, user);
    if role.None? then (d, Err(NotChannelMember))
    else if !role.value.Owner? then (d, Err(InsufficientPermissions))
    else if name != "" && !ValidName(name) then (d, Err(InvalidChannelName))
    else if '\0' in topic || c !in d.channels then (d, Err(DatabaseError))
    else if NameTaken(d, name, {c}) then (d, Err(ChannelNameTaken))
    else (d.(channels := d.channels[c := d.channels[c].(name := name, topic := topic)]), Ok(c))
  }

  function Deleted(d: Directory, c: Id, user: UserId): (Directory, Outcome) {
    var role := RoleOf(d, c, user);
    if role.None? then (d, Err(NotChannelMember))
    else if !role.value.Owner? then (d, Err(InsufficientPermissions))
    else (d.(channels := d.channels - {c}, members := d.members - {c}), Ok(c))
  }

  function Added(d: Directory, c: Id, target: UserId, requester: UserId, roleName: string): (Directory, Outcome) {
    var role := RoleOf(d, c, requester);
    if role.None? then (d, Err(NotChannelMember))
    else if role.value.Member? then (d, Err(InsufficientPermissions))
    else if RequestedRole(roleName).Owner? && !role.value.Owner? then (d, Err(InsufficientPermissions))
    else if target in d.members[c] then (d, Err(AlreadyChannelMember))
    else if target !in d.users then (d, Err(DatabaseError))
    else (SetRows(d, c, d.members[c][target := RequestedRole(roleName)]), Ok(c))
  }

  function Removed(d: Directory, c: Id, target: UserId, requester: UserId): (Directory, Outcome) {
    var role, targetRole := RoleOf(d, c, requester), RoleOf(d, c, target);
    if role.None? || targetRole.None? then (d, Err(NotChannelMember))
    else if !MayRemove(requester, role.value, target, targetRole.value) then (d, Err(InsufficientPermissions))
    else (SetRows(d, c, d.members[c] - {target}), Ok(c))
  }

  function Do(d: Directory, op: Op): (Directory, Outcome)
    requires Enabled(d, op)
  {
    match op
    case Register(user) => (d.(users := d.users + {user}), Ok(user))
    case Create(user, name, topic, newId) => Created(d, user, name, topic, newId)
    case Update(c, user, name, topic) => Updated(d, c, user, name, topic)
    case Delete(c, user) => Deleted(d, c, user)
    case AddMember(c, target, requester, role) => Added(d, c, target, requester, role)
    case RemoveMember(c, target, requester) => Removed(d, c, target, requester)
    case CreateOrGetDM(u, v, newId, found) =>
      if u == v then (d, Err(InvalidDMTarget)) else GetOrCreateDM(d, u, v, newId, found)
    case WelcomeDM(u, v, newId, found) => GetOrCreateDM(d, u, v, newId, found)
  }
}

/**
  What the channel service keeps over every run of operations by every user: direct messages, and ownership.
*/
module ChannelRules {
  import opened Channels

  // ---- Runs ----

  ghost predicate RunFrom(d: Directory, ops: seq<Op>)
    decreases |ops|, 0
  {
    ops == [] || (RunFrom(d, ops[..|ops| - 1]) && Enabled(AfterFrom(d, ops[..|ops| - 1]), ops[|ops| - 1]))
  }

  ghost function AfterFrom(d: Directory, ops: seq<Op>): Directory
    requires RunFrom(d, ops)
    decreases |ops|, 1
  {
    if ops == [] then d else Do(AfterFrom(d, ops[..|ops| - 1]), ops[|ops| - 1]).0
  }

  /** A workspace with some registered users and no channel. */
  function Empty(users: set<UserId>): Directory {
    Directory(users, map[], map[], {})
  }

  // ---- The invariant ----

  ghost predicate Inv(d: Directory) {
    Tables(d) && DmsOk(d) && PairsUnique(d) && NamesUnique(d)
  }

  /** Member rows belong to existing channels, whose ids were all issued. */
  ghost predicate Tables(d: Directory) {
    d.members.Keys == d.channels.Keys && d.channels.Keys <= d.issued
  }

  ghost predicate DmsOk(d: Directory) {
    forall c :: c in d.channels && d.channels[c].dm && c in d.members ==> DmRowsOk(d.members[c])
  }

  ghost predicate PairsUnique(d: Directory) {
    forall a, b :: SamePair(d, a, b) ==> a == b
  }

  ghost predicate NamesUnique(d: Directory) {
    forall a, b :: a in d.channels && b in d.channels && d.channels[a].name == d.channels[b].name ==> a == b
  }

  /** At most two members, all with role `member`. */
  ghost predicate DmRowsOk(rows: map<UserId, Role>) {
    |rows| <= 2 && forall u :: u in rows ==> rows[u].Member?
  }

  /** Two direct messages between exactly the same two people. */
  ghost predicate SamePair(d: Directory, a: Id, b: Id) {
    && a in d.channels && b in d.channels && d.channels[a].dm && d.channels[b].dm
    && a in d.members && b in d.members
    && |d.members[a]| == 2 && d.members[a].Keys == d.members[b].Keys
  }

  lemma TwoKeys(rows: map<UserId, Role>, u: UserId, v: UserId)
    requires u in rows && v in rows && u != v && |rows| == 2
    ensures rows.Keys == {u, v}
  {
    var rest := rows.Keys - {u, v};
    assert rows.Keys == rest + {u, v};
    assert |rows.Keys| == |rest| + 2;
  }

  /** A new direct message between `u` and `v` duplicates none, unless there is one the query would have found. */
  lemma NewDmIsTheOnlyOne(d: Directory, e: Directory, ch: Channel, u: UserId, v: UserId, newId: Id)
    requires PairsUnique(d) && newId !in d.channels && u != v && !HasPairDM(d, u, v)
    requires e == AddChannel(d, newId, ch, map[u := Member, v := Member])
    ensures PairsUnique(e)
  {
    assert e.members[newId].Keys == {u, v};
    forall a, b | SamePair(e, a, b)
      ensures a == b
    {
      assert a == newId || b == newId || SamePair(d, a, b);
      assert b == newId && a != newId ==> IsPairDM(d, a, u, v);
      assert a == newId ==> |e.members[b].Keys| == 2;
      assert a == newId && b != newId ==> IsPairDM(d, b, u, v);
    }
  }

  /** No new pair comes from touching only direct messages that are left with fewer than two people. */
  lemma FewerPairs(d: Directory, e: Directory)
    requires PairsUnique(d)
    requires forall c :: c in e.channels && e.channels[c].dm ==> c in d.channels && d.channels[c].dm
    requires forall c :: c in e.channels && e.channels[c].dm && c in e.members && |e.members[c]| == 2 ==>
      c in d.members && e.members[c] == d.members[c]
    ensures PairsUnique(e)
  {
    forall a, b | SamePair(e, a, b)
      ensures a == b
    {
      assert |e.members[b].Keys| == 2;
      assert SamePair(d, a, b);
    }
  }

  lemma StepKeepsTables(d: Directory, op: Op)
    requires Tables(d) && Enabled(d, op)
    ensures Tables(Do(d, op).0)
  {
    hide ValidName, NameTaken, HasPairDM, DmName, MayRemove, RequestedRole;
  }

  lemma StepKeepsNames(d: Directory, op: Op)
    requires NamesUnique(d)
    requires Enabled(d, op)
    ensures NamesUnique(Do(d, op).0)
  {
    hide ValidName, HasPairDM, DmName, MayRemove, RequestedRole;
  }

  lemma FewerRowsOk(rows: map<UserId, Role>, u: UserId)
    requires DmRowsOk(rows) && u in rows
    ensures DmRowsOk(rows - {u}) && |rows - {u}| < |rows|
  {
    assert (rows - {u}).Keys == rows.Keys - {u};
  }

  lemma RemoveKeepsDms(d: Directory, c: Id, target: UserId, requester: UserId)
    requires Tables(d) && DmsOk(d) && PairsUnique(d)
    ensures DmsOk(Removed(d, c, target, requester).0) && PairsUnique(Removed(d, c, target, requester).0)
  {
    hide MayRemove, DmRowsOk, PairsUnique;
    var e := Removed(d, c, target, requester).0;
    if e != d && d.channels[c].dm {
      FewerRowsOk(d.members[c], target);
      assert |e.members[c]| < 2 by {
        assert DmRowsOk(d.members[c]);
        FewestRows(d.members[c]);
      }
    }
    FewerPairs(d, e);
  }

  lemma FewestRows(rows: map<UserId, Role>)
    requires DmRowsOk(rows)
    ensures |rows| <= 2
  {
  }

  lemma AddKeepsDms(d: Directory, c: Id, target: UserId, requester: UserId, role: string)
    requires Tables(d) && DmsOk(d) && PairsUnique(d)
    ensures DmsOk(Added(d, c, target, requester, role).0) && PairsUnique(Added(d, c, target, requester, role).0)
  {
    hide RequestedRole, PairsUnique;
    FewerPairs(d, Added(d, c, target, requester, role).0);
  }

  lemma OpenKeepsDms(d: Directory, u: UserId, v: UserId, newId: Id, found: Id)
    requires Tables(d) && DmsOk(d) && PairsUnique(d) && newId !in d.issued
    ensures DmsOk(GetOrCreateDM(d, u, v, newId, found).0) && PairsUnique(GetOrCreateDM(d, u, v, newId, found).0)
  {
    hide NameTaken, DmName, HasPairDM, PairsUnique;
    var e := GetOrCreateDM(d, u, v, newId, found).0;
    if e != d {
      NewDmIsTheOnlyOne(d, e, e.channels[newId], u, v, newId);
    }
  }

  lemma CreateKeepsDms(d: Directory, user: UserId, name: string, topic: string, newId: Id)
    requires Tables(d) && DmsOk(d) && PairsUnique(d) && newId !in d.issued
    ensures DmsOk(Created(d, user, name, topic, newId).0) && PairsUnique(Created(d, user, name, topic, newId).0)
  {
    hide ValidName, NameTaken, PairsUnique, DmRowsOk;
    FewerPairs(d, Created(d, user, name, topic, newId).0);
  }

  lemma UpdateKeepsDms(d: Directory, c: Id, user: UserId, name: string, topic: string)
    requires Tables(d) && DmsOk(d) && PairsUnique(d)
    ensures DmsOk(Updated(d, c, user, name, topic).0) && PairsUnique(Updated(d, c, user, name, topic).0)
  {
    hide ValidName, NameTaken, PairsUnique, DmRowsOk;
    FewerPairs(d, Updated(d, c, user, name, topic).0);
  }

  lemma StepKeepsDms(d: Directory, op: Op)
    requires Tables(d) && DmsOk(d) && PairsUnique(d) && Enabled(d, op)
    ensures DmsOk(Do(d, op).0) && PairsUnique(Do(d, op).0)
  {
    hide ValidName, NameTaken, HasPairDM, Created, Updated, Removed, Added, GetOrCreateDM, PairsUnique, DmRowsOk;
    match op {
      case Create(user, name, topic, newId) => CreateKeepsDms(d, user, name, topic, newId);
      case Update(c, user, name, topic) => UpdateKeepsDms(d, c, user, name, topic);
      case CreateOrGetDM(u, v, newId, found) => OpenKeepsDms(d, u, v, newId, found);
      case WelcomeDM(u, v, newId, found) => OpenKeepsDms(d, u, v, newId, found);
      case RemoveMember(c, target, requester) => RemoveKeepsDms(d, c, target, requester);
      case AddMember(c, target, requester, role) => AddKeepsDms(d, c, target, requester, role);
      case _ => FewerPairs(d, Do(d, op).0);
    }
  }

  /** Every operation, whoever asks and whatever it answers, keeps the invariant. */
  lemma StepKeepsInv(d: Directory, op: Op)
    requires Inv(d) && Enabled(d, op)
    ensures Inv(Do(d, op).0)
  {
    hide Do, Enabled, Tables, DmsOk, PairsUnique, NamesUnique;
    StepKeepsTables(d, op);
    StepKeepsNames(d, op);
    StepKeepsDms(d, op);
  }

  lemma {:induction false} RunKeepsInv(d: Directory, ops: seq<Op>)
    requires Inv(d) && RunFrom(d, ops)
    ensures Inv(AfterFrom(d, ops))
  {
    hide Do, Tables, DmsOk, PairsUnique, NamesUnique, Enabled;
    if ops != [] {
      RunKeepsInv(d, ops[..|ops| - 1]);
      StepKeepsInv(AfterFrom(d, ops[..|ops| - 1]), ops[|ops| - 1]);
    }
  }

  /** A channel that appears has an id never issued before; no id is forgotten. */
  lemma ChannelsAreFresh(d: Directory, op: Op)
    requires Tables(d) && Enabled(d, op)
    ensures d.issued <= Do(d, op).0.issued
    ensures forall c :: c in Do(d, op).0.channels && c !in d.channels ==> c !in d.issued
  {
    hide ValidName, NameTaken, HasPairDM, DmName, MayRemove, RequestedRole;
  }

  // ---- Roles and ownership ----

  predicate IsDmWith(op: Op, c: Id, u: UserId) {
    (op.CreateOrGetDM? || op.WelcomeDM?) && op.newId == c && (op.user == u || op.target == u)
  }

  /** This step gives `u` that role in `c`. An owner is its creator or is added under the name "owner" by an owner; an
      admin is added under the name "admin" by an owner or admin; a member is added by one of these under any other
      name, or is one of the two for whom the channel is made as a direct message. */
  ghost predicate Grants(d: Directory, op: Op, c: Id, u: UserId, role: Role)
    requires Enabled(d, op)
  {
    && Do(d, op).1 == Ok(c)
    && match role
       case Owner =>
         || (op.Create? && op.user == u)
         || (op.AddMember? && op.target == u && op.role == "owner" && HasRole(d, c, op.requester, Owner))
       case Admin =>
         && op.AddMember? && op.target == u && op.role == "admin"
         && (HasRole(d, c, op.requester, Owner) || HasRole(d, c, op.requester, Admin))
       case Member =>
         || IsDmWith(op, c, u)
         || (op.AddMember? && op.target == u && op.role != "owner" && op.role != "admin"
             && (HasRole(d, c, op.requester, Owner) || HasRole(d, c, op.requester, Admin)))
  }

  /** This step ends `u`'s membership of `c`: `u` leaves, an owner removes a non-owner, an admin removes a plain
      member, or an owner deletes the channel. */
  ghost predicate Ends(d: Directory, op: Op, c: Id, u: UserId, role: Role) {
    || (op.Delete? && op.channel == c && HasRole(d, c, op.user, Owner))
    || (op.RemoveMember? && op.channel == c && op.target == u
        && (op.requester == u || (HasRole(d, c, op.requester, Owner) && role != Owner)
            || (HasRole(d, c, op.requester, Admin) && role == Member)))
  }

  lemma GainStep(d: Directory, op: Op, c: Id, u: UserId, role: Role)
    requires Tables(d) && Enabled(d, op) && !HasRole(d, c, u, role) && HasRole(Do(d, op).0, c, u, role)
    ensures Grants(d, op, c, u, role)
  {
    hide ValidName, NameTaken, HasPairDM, DmName, MayRemove;
  }

  lemma LossStep(d: Directory, op: Op, c: Id, u: UserId, role: Role)
    requires Tables(d) && Enabled(d, op) && HasRole(d, c, u, role) && !HasRole(Do(d, op).0, c, u, role)
    ensures Ends(d, op, c, u, role)
  {
    hide ValidName, NameTaken, HasPairDM, DmName, RequestedRole;
  }

  /** Nobody owns the channel. */
  ghost predicate Ownerless(d: Directory, c: Id) {
    c in d.channels && forall u :: !IsOwner(d, c, u)
  }

  /** Only an owner can rename a channel, change its topic or delete it. */
  lemma ChangedByOwner(d: Directory, op: Op, c: Id)
    requires Tables(d) && Enabled(d, op) && c in d.channels
    requires c !in Do(d, op).0.channels || Do(d, op).0.channels[c] != d.channels[c]
    ensures (op.Update? || op.Delete?) && op.channel == c && IsOwner(d, c, op.user)
  {
    hide ValidName, NameTaken, HasPairDM, DmName, MayRemove, RequestedRole;
  }

  /** A channel with no owner keeps its name and topic, and nobody becomes an owner. */
  lemma OwnerlessStep(d: Directory, op: Op, c: Id)
    requires Inv(d) && Enabled(d, op) && Ownerless(d, c)
    ensures Ownerless(Do(d, op).0, c) && Do(d, op).0.channels[c] == d.channels[c]
  {
    if c !in Do(d, op).0.channels || Do(d, op).0.channels[c] != d.channels[c] {
      ChangedByOwner(d, op, c);
    }
    assert op.Create? ==> op.newId != c;
    forall u
      ensures !IsOwner(Do(d, op).0, c, u)
    {
      if IsOwner(Do(d, op).0, c, u) {
        assert !IsOwner(d, c, u) && (op.AddMember? ==> !IsOwner(d, c, op.requester));
        GainStep(d, op, c, u, Owner);
      }
    }
  }

  // ---- Direct messages ----

  lemma {:induction false} OwnerlessForever(d: Directory, ops: seq<Op>, c: Id)
    requires Inv(d) && RunFrom(d, ops) && Ownerless(d, c)
    ensures Ownerless(AfterFrom(d, ops), c) && AfterFrom(d, ops).channels[c] == d.channels[c]
  {
    hide Do, Tables, DmsOk, PairsUnique, NamesUnique, Enabled;
    if ops != [] {
      OwnerlessForever(d, ops[..|ops| - 1], c);
      RunKeepsInv(d, ops[..|ops| - 1]);
      OwnerlessStep(AfterFrom(d, ops[..|ops| - 1]), ops[|ops| - 1], c);
    }
  }

  lemma DmStep(d: Directory, op: Op, c: Id)
    requires Tables(d) && DmsOk(d) && Enabled(d, op) && c in d.channels && d.channels[c].dm
    requires c in Do(d, op).0.members
    ensures Do(d, op).0.members[c].Keys <= d.members[c].Keys
  {
    hide ValidName, NameTaken, HasPairDM, DmName, RequestedRole, MayRemove;
  }

  /** A direct message is never renamed or deleted, and the people in it only ever become fewer. */
  lemma {:induction false} DmForever(d: Directory, ops: seq<Op>, c: Id)
    requires Inv(d) && RunFrom(d, ops) && c in d.channels && d.channels[c].dm
    ensures c in AfterFrom(d, ops).channels && AfterFrom(d, ops).channels[c] == d.channels[c]
    ensures c in AfterFrom(d, ops).members && DmRowsOk(AfterFrom(d, ops).members[c])
    ensures AfterFrom(d, ops).members[c].Keys <= d.members[c].Keys
  {
    OwnerlessForever(d, ops, c);
    RunKeepsInv(d, ops);
    if ops != [] {
      var init := ops[..|ops| - 1];
      DmForever(d, init, c);
      RunKeepsInv(d, init);
      DmStep(AfterFrom(d, init), ops[|ops| - 1], c);
    }
  }

  /** Two people never have more than one direct message that still holds both and nobody else. */
  lemma OneDmPerPair(users: set<UserId>, ops: seq<Op>, u: UserId, v: UserId, a: Id, b: Id)
    requires RunFrom(Empty(users), ops) && u != v
    requires IsPairDM(AfterFrom(Empty(users), ops), a, u, v) && IsPairDM(AfterFrom(Empty(users), ops), b, v, u)
    ensures a == b
  {
    RunKeepsInv(Empty(users), ops);
    var d := AfterFrom(Empty(users), ops);
    TwoKeys(d.members[a], u, v);
    TwoKeys(d.members[b], u, v);
    assert SamePair(d, a, b);
  }

  lemma OpenedDm(d: Directory, op: Op)
    requires Inv(d) && op.CreateOrGetDM? && Enabled(d, op) && Do(d, op).1.Ok?
    ensures Inv(Do(d, op).0) && IsPairDM(Do(d, op).0, Do(d, op).1.id, op.user, op.target) && op.user != op.target
  {
    StepKeepsInv(d, op);
    assert Do(d, op).0 != d ==> Do(d, op).0.members[op.newId].Keys == {op.user, op.target};
  }

  lemma FoundAgain(d: Directory, c: Id, u: UserId, v: UserId, op: Op)
    requires Inv(d) && IsPairDM(d, c, u, v) && u != v
    requires op.CreateOrGetDM? && Enabled(d, op) && ((op.user, op.target) == (u, v) || (op.user, op.target) == (v, u))
    ensures Do(d, op) == (d, Ok(c))
  {
    assert IsPairDM(d, c, op.user, op.target);
    assert HasPairDM(d, op.user, op.target);
    TwoKeys(d.members[c], u, v);
    TwoKeys(d.members[op.found], u, v);
    assert SamePair(d, c, op.found);
  }

  /** Whoever asks, and however much later: while both people are still in it, they get the same one, and nothing
      changes. */
  lemma FoundFromEitherSide(d: Directory, first: Op, ops: seq<Op>, again: Op)
    requires Inv(d) && first.CreateOrGetDM? && Enabled(d, first) && Do(d, first).1.Ok?
    requires RunFrom(Do(d, first).0, ops)
    requires again.CreateOrGetDM? && Enabled(AfterFrom(Do(d, first).0, ops), again)
    requires (again.user, again.target) == (first.user, first.target)
          || (again.user, again.target) == (first.target, first.user)
    requires RoleOf(AfterFrom(Do(d, first).0, ops), Do(d, first).1.id, first.user).Some?
    requires RoleOf(AfterFrom(Do(d, first).0, ops), Do(d, first).1.id, first.target).Some?
    ensures Do(AfterFrom(Do(d, first).0, ops), again) == (AfterFrom(Do(d, first).0, ops), Do(d, first).1)
  {
    OpenedDm(d, first);
    var (e, r) := Do(d, first);
    hide Do, Enabled, Inv, HasPairDM, DmRowsOk;
    DmForever(e, ops, r.id);
    RunKeepsInv(e, ops);
    var f := AfterFrom(e, ops);
    TwoKeys(e.members[r.id], first.user, first.target);
    assert f.members[r.id].Keys == {first.user, first.target};
    assert |f.members[r.id].Keys| == 2;
    FoundAgain(f, r.id, first.user, first.target, again);
  }

  /**
    The name of a direct message is unique and stays taken: once somebody has left one that `u` opened with `v`,
    `u` can never open another with `v`, unless `v` does it first.
  */
  lemma ReopenSucceedsIff(d: Directory, c: Id, ops: seq<Op>, again: Op)
    requires Inv(d) && c in d.channels && d.channels[c].dm && RunFrom(d, ops)
    requires again.CreateOrGetDM? && again.user != again.target && Enabled(AfterFrom(d, ops), again)
    requires d.channels[c].name == DmName(again.user, again.target)
    ensures Do(AfterFrom(d, ops), again).1.Ok? <==> HasPairDM(AfterFrom(d, ops), again.target, again.user)
    ensures Do(AfterFrom(d, ops), again).0 == AfterFrom(d, ops)
  {
    DmForever(d, ops, c);
    var f := AfterFrom(d, ops);
    assert NameTaken(f, DmName(again.user, again.target), {});
    assert forall x :: IsPairDM(f, x, again.user, again.target) <==> IsPairDM(f, x, again.target, again.user);
  }

  /** No step changes the role of somebody who is a member before and after it. */
  lemma RoleStep(d: Directory, op: Op, c: Id, u: UserId)
    requires Tables(d) && Enabled(d, op)
    requires RoleOf(d, c, u).Some? && RoleOf(Do(d, op).0, c, u).Some?
    ensures RoleOf(Do(d, op).0, c, u) == RoleOf(d, c, u)
  {
    hide ValidName, NameTaken, HasPairDM, DmName, RequestedRole, MayRemove;
  }

  ghost predicate StepAt(d: Directory, ops: seq<Op>, k: nat) {
    k < |ops| && RunFrom(d, ops[..k]) && Enabled(AfterFrom(d, ops[..k]), ops[k])
  }

  /** Step `k` gave `u` that role, and `u` has had it ever since. */
  ghost predicate RoleSince(d: Directory, ops: seq<Op>, k: nat, c: Id, u: UserId, role: Role) {
    && StepAt(d, ops, k)
    && Grants(AfterFrom(d, ops[..k]), ops[k], c, u, role)
    && forall j :: k < j <= |ops| ==> RunFrom(d, ops[..j]) && HasRole(AfterFrom(d, ops[..j]), c, u, role)
  }

  lemma RoleStill(d: Directory, ops: seq<Op>, k: nat, c: Id, u: UserId, role: Role)
    requires ops != [] && RoleSince(d, ops[..|ops| - 1], k, c, u, role)
    requires RunFrom(d, ops) && HasRole(AfterFrom(d, ops), c, u, role)
    ensures RoleSince(d, ops, k, c, u, role)
  {
    hide RunFrom, AfterFrom, Do, Inv, Enabled, Grants, HasRole;
    var n := |ops| - 1;
    var init := ops[..n];
    assert forall j :: 0 <= j <= n ==> init[..j] == ops[..j];
    assert ops[..n + 1] == ops;
  }

  lemma RoleNew(d: Directory, ops: seq<Op>, c: Id, u: UserId, role: Role)
    requires ops != [] && RunFrom(d, ops) && Inv(AfterFrom(d, ops[..|ops| - 1]))
    requires !HasRole(AfterFrom(d, ops[..|ops| - 1]), c, u, role) && HasRole(AfterFrom(d, ops), c, u, role)
    ensures RoleSince(d, ops, |ops| - 1, c, u, role)
  {
    hide Do, Tables, DmsOk, PairsUnique, NamesUnique, Enabled, Grants, HasRole;
    var n := |ops| - 1;
    assert ops[..n + 1] == ops;
    GainStep(AfterFrom(d, ops[..n]), ops[n], c, u, role);
  }

  /** Every owner, admin and member was given that very role at some step, by somebody who then could, and has had it
      ever since. */
  lemma {:induction false} RoleHasAGrant(users: set<UserId>, ops: seq<Op>, c: Id, u: UserId, role: Role)
    requires RunFrom(Empty(users), ops) && HasRole(AfterFrom(Empty(users), ops), c, u, role)
    ensures exists k: nat :: RoleSince(Empty(users), ops, k, c, u, role)
  {
    var d := Empty(users);
    assert Inv(d) && !HasRole(d, c, u, role);
    hide Do, Inv, Enabled, Grants, HasRole, RoleSince;
    if ops != [] {
      var n := |ops| - 1;
      var init := ops[..n];
      RunKeepsInv(d, init);
      if HasRole(AfterFrom(d, init), c, u, role) {
        RoleHasAGrant(users, init, c, u, role);
        var k: nat :| RoleSince(d, init, k, c, u, role);
        RoleStill(d, ops, k, c, u, role);
      } else {
        RoleNew(d, ops, c, u, role);
      }
    }
  }

  ghost predicate EndsAt(d: Directory, ops: seq<Op>, k: nat, c: Id, u: UserId, role: Role) {
    && StepAt(d, ops, k) && HasRole(AfterFrom(d, ops[..k]), c, u, role)
    && Ends(AfterFrom(d, ops[..k]), ops[k], c, u, role)
  }

  /** Somebody who has lost their role left by themselves, was removed by somebody who then could, or an owner deleted
      the channel: an owner is removed by nobody else, an admin by no other admin. */
  lemma {:induction false} MembershipEndsBy(d: Directory, ops: seq<Op>, c: Id, u: UserId, role: Role)
    requires Inv(d) && RunFrom(d, ops) && HasRole(d, c, u, role) && !HasRole(AfterFrom(d, ops), c, u, role)
    ensures exists k: nat :: EndsAt(d, ops, k, c, u, role)
  {
    hide Do, Tables, DmsOk, PairsUnique, NamesUnique, Enabled, Grants, Ends, HasRole;
    var n := |ops| - 1;
    var init := ops[..n];
    RunKeepsInv(d, init);
    if HasRole(AfterFrom(d, init), c, u, role) {
      LossStep(AfterFrom(d, init), ops[n], c, u, role);
      assert EndsAt(d, ops, n, c, u, role);
    } else {
      MembershipEndsBy(d, init, c, u, role);
      var k: nat :| EndsAt(d, init, k, c, u, role);
      assert init[..k] == ops[..k];
      assert EndsAt(d, ops, k, c, u, role);
    }
  }

  ghost predicate MemberThroughout(d: Directory, ops: seq<Op>, c: Id, u: UserId) {
    forall j :: 0 <= j <= |ops| && RunFrom(d, ops[..j]) ==> RoleOf(AfterFrom(d, ops[..j]), c, u).Some?
  }

  lemma {:induction false} RoleIsFixed(d: Directory, ops: seq<Op>, c: Id, u: UserId)
    requires Inv(d) && RunFrom(d, ops) && MemberThroughout(d, ops, c, u)
    ensures RoleOf(AfterFrom(d, ops), c, u) == RoleOf(d, c, u)
  {
    hide Do, Tables, DmsOk, PairsUnique, NamesUnique, Enabled, Grants, Ends, RoleOf;
    if ops != [] {
      var n := |ops| - 1;
      var init := ops[..n];
      assert forall j :: 0 <= j <= n ==> init[..j] == ops[..j];
      assert ops[..n + 1] == ops && init[..n] == init;
      assert RunFrom(d, ops[..n + 1]) && RunFrom(d, ops[..n]);
      RoleIsFixed(d, init, c, u);
      RunKeepsInv(d, init);
      RoleStep(AfterFrom(d, init), ops[n], c, u);
    }
  }
}

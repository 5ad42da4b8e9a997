/**
  Unread counts. Two queries compute them, by different joins; over any run of operations both count the
  surviving messages of others that appeared since the user last marked the channel read.
*/
module Unread {
  import ChannelRules
  import opened Messages

  // ---- The two queries, as joins over rows ----

  datatype MemberRow = MemberRow(channel: Id, user: UserId)

  datatype ReadRow = ReadRow(user: UserId, channel: Id, at: int)

  /** UNIQUE (channel_id, user_id). */
  ghost predicate MembersUnique(rows: seq<MemberRow>) {
    forall i, j :: 0 <= i < j < |rows| ==> rows[i] != rows[j]
  }

  /** PRIMARY KEY (user_id, channel_id). */
  ghost predicate ReadsUnique(rows: seq<ReadRow>) {
    forall i, j :: 0 <= i < j < |rows| ==> (rows[i].user, rows[i].channel) != (rows[j].user, rows[j].channel)
  }

  /** Read markers joined to a message: the rows of this user for its channel. */
  function ReadMatches(rows: seq<ReadRow>, u: UserId, c: Id): seq<ReadRow> {
    if rows == [] then []
    else (if rows[0].user == u && rows[0].channel == c then [rows[0]] else []) + ReadMatches(rows[1..], u, c)
  }

  function CountSince(matches: seq<ReadRow>, time: int): nat {
    if matches == [] then 0 else (if time > matches[0].at then 1 else 0) + CountSince(matches[1..], time)
  }

  /** Rows the left join of a message with the markers leaves after the time filter; no marker means the epoch. */
  function JoinedRows(m: Message, u: UserId, readRows: seq<ReadRow>): nat {
    var matches := ReadMatches(readRows, u, m.channel);
    if matches == [] then if m.createdAt > 0 then 1 else 0 else CountSince(matches, m.createdAt)
  }

  /** The subquery of the channel list. */
  function ListCount(ms: seq<Message>, readRows: seq<ReadRow>, u: UserId, c: Id): nat {
    if ms == [] then 0
    else
      (if ms[0].channel == c && ms[0].author != u then JoinedRows(ms[0], u, readRows) else 0)
      + ListCount(ms[1..], readRows, u, c)
  }

  function MemberMatches(rows: seq<MemberRow>, u: UserId, c: Id): nat {
    if rows == [] then 0 else (if rows[0] == MemberRow(c, u) then 1 else 0) + MemberMatches(rows[1..], u, c)
  }

  /** The grouped query: how many joined rows have channel `c`; a group without rows is absent. */
  function GroupCount(ms: seq<Message>, memberRows: seq<MemberRow>, readRows: seq<ReadRow>, u: UserId, c: Id): nat {
    if ms == [] then 0
    else
      (if ms[0].channel == c && ms[0].author != u
       then MemberMatches(memberRows, u, c) * JoinedRows(ms[0], u, readRows) else 0)
      + GroupCount(ms[1..], memberRows, readRows, u, c)
  }

  lemma {:induction false} OneMemberRow(rows: seq<MemberRow>, u: UserId, c: Id)
    requires MembersUnique(rows)
    ensures MemberMatches(rows, u, c) == if MemberRow(c, u) in rows then 1 else 0
  {
    if rows != [] {
      OneMemberRow(rows[1..], u, c);
      assert rows[0] == MemberRow(c, u) ==> MemberRow(c, u) !in rows[1..];
    }
  }

  /** The grouped query answers what the list's subquery does for a member, and nothing for anybody else. */
  lemma {:induction false} QueriesAgree(
      ms: seq<Message>, memberRows: seq<MemberRow>, readRows: seq<ReadRow>, u: UserId, c: Id)
    requires MembersUnique(memberRows)
    ensures GroupCount(ms, memberRows, readRows, u, c)
         == if MemberRow(c, u) in memberRows then ListCount(ms, readRows, u, c) else 0
  {
    if ms != [] {
      QueriesAgree(ms[1..], memberRows, readRows, u, c);
      OneMemberRow(memberRows, u, c);
    }
  }

  // ---- What they count ----

  function LastRead(s: Store, u: UserId, c: Id): int {
    if (u, c) in s.lastRead then s.lastRead[(u, c)] else 0
  }

  predicate Counts(s: Store, m: Message, u: UserId, c: Id) {
    m.channel == c && m.author != u && m.createdAt > LastRead(s, u, c)
  }

  ghost function UnreadIds(s: Store, u: UserId, c: Id): set<Id> {
    set id | id in s.messages && Counts(s, s.messages[id], u, c)
  }

  /** The rows of a table, in any order. */
  ghost predicate ListsMessages(ms: seq<Message>, t: Table) {
    && Distinct(ms)
    && (forall i :: 0 <= i < |ms| ==> ms[i].id in t && t[ms[i].id] == ms[i])
    && (forall id :: id in t ==> exists i :: 0 <= i < |ms| && ms[i].id == id)
  }

  ghost predicate ListsReads(rows: seq<ReadRow>, lastRead: map<(UserId, Id), int>) {
    && ReadsUnique(rows)
    && (forall i :: 0 <= i < |rows| ==>
          (rows[i].user, rows[i].channel) in lastRead && lastRead[(rows[i].user, rows[i].channel)] == rows[i].at)
    && (forall k :: k in lastRead ==> exists i :: 0 <= i < |rows| && (rows[i].user, rows[i].channel) == k)
  }

  lemma {:induction false} OneReadRow(rows: seq<ReadRow>, u: UserId, c: Id)
    requires ReadsUnique(rows)
    ensures |ReadMatches(rows, u, c)| <= 1
    ensures forall i :: 0 <= i < |rows| && rows[i].user == u && rows[i].channel == c ==>
      ReadMatches(rows, u, c) == [rows[i]]
    ensures ReadMatches(rows, u, c) != [] ==> exists i :: 0 <= i < |rows| && rows[i].user == u && rows[i].channel == c
  {
    if rows != [] {
      OneReadRow(rows[1..], u, c);
      assert forall i :: 0 <= i < |rows[1..]| ==> rows[1..][i] == rows[i + 1];
    }
  }

  lemma JoinIsTheFilter(s: Store, m: Message, u: UserId, readRows: seq<ReadRow>)
    requires ListsReads(readRows, s.lastRead)
    ensures JoinedRows(m, u, readRows) == if m.createdAt > LastRead(s, u, m.channel) then 1 else 0
  {
    OneReadRow(readRows, u, m.channel);
    if (u, m.channel) in s.lastRead {
      var i :| 0 <= i < |readRows| && (readRows[i].user, readRows[i].channel) == (u, m.channel);
      assert ReadMatches(readRows, u, m.channel) == [readRows[i]];
      assert CountSince([readRows[i]], m.createdAt) == if m.createdAt > readRows[i].at then 1 else 0;
    }
  }

  ghost function UnreadAmong(s: Store, ms: seq<Message>, u: UserId, c: Id): set<Id> {
    set i | 0 <= i < |ms| && Counts(s, ms[i], u, c) :: ms[i].id
  }

  lemma UnreadAmongCons(s: Store, ms: seq<Message>, u: UserId, c: Id)
    requires ms != [] && Distinct(ms)
    ensures UnreadAmong(s, ms, u, c)
         == (if Counts(s, ms[0], u, c) then {ms[0].id} else {}) + UnreadAmong(s, ms[1..], u, c)
    ensures ms[0].id !in UnreadAmong(s, ms[1..], u, c)
  {
    hide LastRead;
    var rest := ms[1..];
    assert forall i :: 0 <= i < |rest| ==> rest[i] == ms[i + 1];
  }

  lemma {:induction false} ListCountsUnread(s: Store, ms: seq<Message>, readRows: seq<ReadRow>, u: UserId, c: Id)
    requires Distinct(ms) && ListsReads(readRows, s.lastRead)
    ensures ListCount(ms, readRows, u, c) == |UnreadAmong(s, ms, u, c)|
  {
    if ms == [] {
      assert UnreadAmong(s, ms, u, c) == {};
    } else {
      hide ListsReads, JoinedRows, UnreadAmong;
      ListCountsUnread(s, ms[1..], readRows, u, c);
      JoinIsTheFilter(s, ms[0], u, readRows);
      UnreadAmongCons(s, ms, u, c);
    }
  }

  lemma QueryCountsUnread(s: Store, ms: seq<Message>, readRows: seq<ReadRow>, u: UserId, c: Id)
    requires ListsMessages(ms, s.messages) && ListsReads(readRows, s.lastRead)
    ensures ListCount(ms, readRows, u, c) == |UnreadIds(s, u, c)|
  {
    ListCountsUnread(s, ms, readRows, u, c);
    assert UnreadAmong(s, ms, u, c) == UnreadIds(s, u, c);
  }

  /** What the grouped query may answer: one row per channel that has unread messages, in any order. */
  ghost predicate ListsGroups(
      groups: seq<(Id, nat)>, ms: seq<Message>, memberRows: seq<MemberRow>, readRows: seq<ReadRow>, u: UserId)
  {
    && (forall i, j :: 0 <= i < j < |groups| ==> groups[i].0 != groups[j].0)
    && (forall i :: 0 <= i < |groups| ==>
          groups[i].1 > 0 && groups[i].1 == GroupCount(ms, memberRows, readRows, u, groups[i].0))
    && (forall c :: GroupCount(ms, memberRows, readRows, u, c) > 0 ==>
          exists i :: 0 <= i < |groups| && groups[i].0 == c)
  }

  /** The counts map: for each channel of the user what the list shows for it, a missing key meaning zero. */
  method GetUnreadCounts(
      groups: seq<(Id, nat)>, ghost ms: seq<Message>, ghost memberRows: seq<MemberRow>, ghost readRows: seq<ReadRow>,
      ghost u: UserId)
    returns (counts: map<Id, nat>)
    requires MembersUnique(memberRows) && ListsGroups(groups, ms, memberRows, readRows, u)
    ensures forall c :: MemberRow(c, u) in memberRows ==>
      ListCount(ms, readRows, u, c) == if c in counts then counts[c] else 0
    ensures forall c :: c in counts ==> MemberRow(c, u) in memberRows && counts[c] > 0
  {
    counts := map[];
    var i := 0;
    while i < |groups|
      invariant 0 <= i <= |groups|
      invariant forall j :: 0 <= j < i ==> groups[j].0 in counts && counts[groups[j].0] == groups[j].1
      invariant forall c :: c in counts ==> exists j :: 0 <= j < i && groups[j].0 == c
    {
      var (c, n) := groups[i];
      counts := counts[c := n];
      i := i + 1;
    }
    forall c
      ensures GroupCount(ms, memberRows, readRows, u, c)
           == if MemberRow(c, u) in memberRows then ListCount(ms, readRows, u, c) else 0
    {
      QueriesAgree(ms, memberRows, readRows, u, c);
    }
  }

  // ---- Runs ----

  ghost predicate RunFrom(s: Store, ops: seq<Op>)
    decreases |ops|, 0
  {
    ops == [] || (RunFrom(s, ops[..|ops| - 1]) && Enabled(AfterFrom(s, ops[..|ops| - 1]), ops[|ops| - 1]))
  }

  ghost function AfterFrom(s: Store, ops: seq<Op>): Store
    requires RunFrom(s, ops)
    decreases |ops|, 1
  {
    if ops == [] then s else Do(AfterFrom(s, ops[..|ops| - 1]), ops[|ops| - 1]).0
  }

  ghost predicate WellFormed(s: Store) {
    && ChannelRules.Tables(s.dir)
    && 0 <= s.clock
    && s.messages.Keys <= s.issued
    && Keyed(s.messages)
    && (forall id :: id in s.messages ==>
          0 < s.messages[id].createdAt <= s.clock && s.messages[id].channel in s.dir.channels)
  }

  predicate Marks(s: Store, op: Op, u: UserId, c: Id) {
    op.MarkRead? && op.user == u && op.channel == c && IsMember(s, c, u)
  }

  /** No step of the run marks `c` read for `u`. */
  ghost predicate NeverMarks(s: Store, ops: seq<Op>, u: UserId, c: Id) {
    forall k :: 0 <= k < |ops| && RunFrom(s, ops[..k]) ==> !Marks(AfterFrom(s, ops[..k]), ops[k], u, c)
  }

  /** The marker of `u` in `c` separates the messages in `base` from all others. */
  ghost predicate Separates(s: Store, base: set<Id>, at: int, u: UserId, c: Id) {
    && base <= s.issued && 0 <= at <= s.clock && (at > 0 ==> c in s.dir.issued)
    && (c in s.dir.channels || at == 0 ==> LastRead(s, u, c) == at)
    && (forall id :: id in s.messages && s.messages[id].channel == c ==>
          (id in base <==> s.messages[id].createdAt <= at))
  }

  lemma ChannelStep(s: Store, op: Op, base: set<Id>, at: int, u: UserId, c: Id)
    requires WellFormed(s) && Enabled(s, op) && op.OnChannels?
    ensures WellFormed(Do(s, op).0)
    ensures Separates(s, base, at, u, c) ==> Separates(Do(s, op).0, base, at, u, c)
  {
    ChannelRules.StepKeepsTables(s.dir, op.op);
    ChannelRules.ChannelsAreFresh(s.dir, op.op);
    hide Channels.Do, Channels.Enabled;
  }

  lemma InsertStaysWellFormed(s: Store, m: Message)
    requires WellFormed(s) && m.id !in s.issued && m.id != "" && s.clock < m.createdAt
    ensures WellFormed(Insert(s, m).0.(clock := m.createdAt))
  {
    hide FitsTable;
  }

  lemma InsertStep(s: Store, m: Message, base: set<Id>, at: int, u: UserId, c: Id)
    requires WellFormed(s) && m.id !in s.issued && m.id != "" && s.clock < m.createdAt
    ensures WellFormed(Insert(s, m).0.(clock := m.createdAt))
    ensures Separates(s, base, at, u, c) ==> Separates(Insert(s, m).0.(clock := m.createdAt), base, at, u, c)
  {
    InsertStaysWellFormed(s, m);
    hide FitsTable, WellFormed;
  }

  lemma LaterStep(s: Store, t: Store, now: int, base: set<Id>, at: int, u: UserId, c: Id)
    requires WellFormed(s) && s.clock < now
    requires t.dir == s.dir && t.issued == s.issued && t.clock == now
    requires forall id :: id in t.messages ==>
      id in s.messages && t.messages[id].(text := "") == s.messages[id].(text := "")
    ensures WellFormed(t)
    ensures Separates(s, base, at, u, c) && LastRead(t, u, c) == LastRead(s, u, c) ==> Separates(t, base, at, u, c)
  {
  }

  lemma MessageStep(s: Store, op: Op, base: set<Id>, at: int, u: UserId, c: Id)
    requires WellFormed(s) && Enabled(s, op) && !op.OnChannels?
    ensures WellFormed(Do(s, op).0)
    ensures Separates(s, base, at, u, c) && !Marks(s, op, u, c) ==> Separates(Do(s, op).0, base, at, u, c)
  {
    hide ValidText, MayChange, IsAgentOwner, Insert, WellFormed, Separates;
    var t := Do(s, op).0;
    if t == s.(clock := op.now) {
      LaterStep(s, t, op.now, base, at, u, c);
    } else {
      match op {
        case Send(ch, user, text, now, newId) =>
          InsertStep(s, Message(newId, ch, user, false, text, "", now), base, at, u, c);
        case SendAsAgent(ch, _, agent, text, now, newId) =>
          InsertStep(s, Message(newId, ch, agent, true, text, "", now), base, at, u, c);
        case SendWithAttachment(draft, agentCtx, now, newId) =>
          InsertStep(s, Stamped(draft, agentCtx, now, newId), base, at, u, c);
        case Welcome(ch, agent, now, newId) =>
          InsertStep(s, Message(newId, ch, agent, true, WELCOME_TEXT, "", now), base, at, u, c);
        case _ => LaterStep(s, t, op.now, base, at, u, c);
      }
    }
  }

  lemma StepStaysWellFormed(s: Store, op: Op)
    requires WellFormed(s) && Enabled(s, op)
    ensures WellFormed(Do(s, op).0)
  {
    hide WellFormed, Do, Enabled, Separates;
    if op.OnChannels? {
      ChannelStep(s, op, {}, 0, "", "");
    } else {
      MessageStep(s, op, {}, 0, "", "");
    }
  }

  lemma {:induction false} RunStaysWellFormed(s: Store, ops: seq<Op>)
    requires WellFormed(s) && RunFrom(s, ops)
    ensures WellFormed(AfterFrom(s, ops))
  {
    if ops != [] {
      hide Do, Enabled, WellFormed;
      var n := |ops| - 1;
      RunStaysWellFormed(s, ops[..n]);
      StepStaysWellFormed(AfterFrom(s, ops[..n]), ops[n]);
    }
  }

  lemma MemberHasChannel(s: Store, c: Id)
    requires WellFormed(s)
    ensures c in s.dir.members ==> c in s.dir.channels
  {
  }

  lemma {:induction false} RunSeparates(s: Store, ops: seq<Op>, base: set<Id>, at: int, u: UserId, c: Id)
    requires WellFormed(s) && RunFrom(s, ops) && Separates(s, base, at, u, c) && NeverMarks(s, ops, u, c)
    ensures WellFormed(AfterFrom(s, ops)) && Separates(AfterFrom(s, ops), base, at, u, c)
  {
    if ops != [] {
      hide Do, Enabled, Separates, WellFormed, Marks;
      var n := |ops| - 1;
      var init := ops[..n];
      assert forall k :: 0 <= k < n ==> init[..k] == ops[..k];
      RunSeparates(s, init, base, at, u, c);
      assert !Marks(AfterFrom(s, init), ops[n], u, c);
      if ops[n].OnChannels? {
        ChannelStep(AfterFrom(s, init), ops[n], base, at, u, c);
      } else {
        MessageStep(AfterFrom(s, init), ops[n], base, at, u, c);
      }
    }
  }

  /** Messages of others in the channel now that are not in `before`. */
  ghost function NewSince(s: Store, before: set<Id>, u: UserId, c: Id): set<Id> {
    set id | id in s.messages && s.messages[id].channel == c && s.messages[id].author != u && id !in before
  }

  /** After a mark-read, both queries count the messages of others that have come since and are still there. */
  lemma UnreadSinceMark(
      s: Store, mark: Op, ops: seq<Op>, u: UserId, c: Id,
      ms: seq<Message>, memberRows: seq<MemberRow>, readRows: seq<ReadRow>)
    requires WellFormed(s) && Enabled(s, mark) && Marks(s, mark, u, c)
    requires RunFrom(Do(s, mark).0, ops) && NeverMarks(Do(s, mark).0, ops, u, c)
    requires ListsMessages(ms, AfterFrom(Do(s, mark).0, ops).messages)
    requires ListsReads(readRows, AfterFrom(Do(s, mark).0, ops).lastRead)
    requires MembersUnique(memberRows) && MemberRow(c, u) in memberRows
    ensures ListCount(ms, readRows, u, c) == |NewSince(AfterFrom(Do(s, mark).0, ops), s.messages.Keys, u, c)|
    ensures GroupCount(ms, memberRows, readRows, u, c)
         == |NewSince(AfterFrom(Do(s, mark).0, ops), s.messages.Keys, u, c)|
  {
    var t := Do(s, mark).0;
    RunSeparates(t, ops, s.messages.Keys, mark.now, u, c);
    var v := AfterFrom(t, ops);
    QueriesAgree(ms, memberRows, readRows, u, c);
    QueryCountsUnread(v, ms, readRows, u, c);
    assert UnreadIds(v, u, c) == NewSince(v, s.messages.Keys, u, c);
  }

  /** Before the first one, they count every message of others. */
  lemma UnreadBeforeMark(
      s: Store, ops: seq<Op>, u: UserId, c: Id, ms: seq<Message>, memberRows: seq<MemberRow>, readRows: seq<ReadRow>)
    requires WellFormed(s) && (u, c) !in s.lastRead && RunFrom(s, ops) && NeverMarks(s, ops, u, c)
    requires ListsMessages(ms, AfterFrom(s, ops).messages) && ListsReads(readRows, AfterFrom(s, ops).lastRead)
    requires MembersUnique(memberRows) && MemberRow(c, u) in memberRows
    ensures ListCount(ms, readRows, u, c) == |NewSince(AfterFrom(s, ops), {}, u, c)|
    ensures GroupCount(ms, memberRows, readRows, u, c) == |NewSince(AfterFrom(s, ops), {}, u, c)|
  {
    RunSeparates(s, ops, {}, 0, u, c);
    var v := AfterFrom(s, ops);
    QueriesAgree(ms, memberRows, readRows, u, c);
    QueryCountsUnread(v, ms, readRows, u, c);
    assert UnreadIds(v, u, c) == NewSince(v, {}, u, c);
  }
}

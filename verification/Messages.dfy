/**
  Messages and read markers on top of the channel tables: the service's guards, and one page of a channel.
  Every step carries the time it happens at, and a fresh id where a row is inserted.
*/
module Messages {
  import Channels
  import opened Sequences

  type Id = Channels.Id
  type UserId = Channels.UserId

  const MAX_TEXT: nat := 10000
  const DEFAULT_PAGE: nat := 50
  const MAX_PAGE: nat := 100
  const WELCOME_TEXT: string := "I'm here. What do you need?"

  /** `author` is a user's id, or an agent's when `byAgent`; both are UUIDs. */
  datatype Message = Message(
    id: Id, channel: Id, author: Id, byAgent: bool, text: string, attachment: string, createdAt: int)

  type Table = map<Id, Message>

  /** `lastRead[(u, c)]` is when `u` last marked `c` read; `agents` says who owns an agent. */
  datatype Store = Store(
    dir: Channels.Directory, messages: Table, lastRead: map<(UserId, Id), int>, agents: map<Id, UserId>,
    issued: set<Id>, clock: int)

  datatype Error =
    | InvalidMessageText
    | NotChannelMember
    | MessageNotFound
    | UnauthorizedMessageEdit
    | UnauthorizedMessageDelete
    | DatabaseError

  datatype Outcome = Ok(id: Id) | Err(error: Error)

  datatype Op =
    | OnChannels(op: Channels.Op, now: int)
    | Send(channel: Id, user: UserId, text: string, now: int, newId: Id)
    | SendAsAgent(channel: Id, owner: UserId, agent: Id, text: string, now: int, newId: Id)
    | SendWithAttachment(draft: Message, agentCtx: Option<Id>, now: int, newId: Id)
    | Welcome(channel: Id, agent: Id, now: int, newId: Id)
    | Edit(id: Id, user: UserId, text: string, now: int)
    | DeleteMessage(id: Id, user: UserId, now: int)
    | MarkRead(channel: Id, user: UserId, now: int)

  // ---- Steps ----

  /** Bytes of a text in UTF-8: never fewer than its characters. */
  function Utf8Length(text: string): (n: nat)
    ensures |text| <= n <= 4 * |text|
  {
    if text == "" then 0
    else
      var c := text[0] as int;
      (if c < 0x80 then 1 else if c < 0x800 then 2 else if c < 0x1_0000 then 3 else 4) + Utf8Length(text[1..])
  }

  /** The service counts bytes. */
  predicate ValidText(text: string) {
    0 < Utf8Length(text) <= MAX_TEXT
  }

  /** The table counts characters, and takes no zero character. */
  predicate FitsTable(text: string) {
    0 < |text| <= MAX_TEXT && '\0' !in text
  }

  predicate IsMember(s: Store, c: Id, u: UserId) {
    c in s.dir.members && u in s.dir.members[c]
  }

  predicate IsAgentOwner(s: Store, agent: Id, user: UserId) {
    agent in s.agents && s.agents[agent] == user
  }

  predicate MayChange(s: Store, m: Message, user: UserId) {
    if m.byAgent then IsAgentOwner(s, m.author, user) else m.author == user
  }

  /** The table refuses a text that is empty, as that of an attachment alone is, too long or with a zero character,
      and an unknown channel. */
  function Insert(s: Store, m: Message): (Store, Outcome) {
    if !FitsTable(m.text) || '\0' in m.attachment || m.channel !in s.dir.channels then (s, Err(DatabaseError))
    else (s.(messages := s.messages[m.id := m], issued := s.issued + {m.id}), Ok(m.id))
  }

  /** The row a draft becomes. */
  function Stamped(draft: Message, agentCtx: Option<Id>, now: int, newId: Id): Message {
    var m := draft.(id := newId, createdAt := now);
    if agentCtx.Some? then m.(author := agentCtx.value, byAgent := true) else m
  }

  /** Deleting a channel takes its messages and read markers with it. */
  function Cascade(s: Store, dir: Channels.Directory): Store {
    s.(dir := dir,
       messages := map id | id in s.messages && s.messages[id].channel in dir.channels :: s.messages[id],
       lastRead := map k | k in s.lastRead && k.1 in dir.channels :: s.lastRead[k])
  }

  predicate Enabled(s: Store, op: Op) {
    && s.clock < op.now
    && (op.OnChannels? ==> Channels.Enabled(s.dir, op.op))
    && (op.Send? || op.SendAsAgent? || op.SendWithAttachment? || op.Welcome? ==>
          op.newId !in s.issued && op.newId != "")
  }

  function Act(s: Store, op: Op): (Store, Outcome)
    requires Enabled(s, op)
  {
    match op
    case OnChannels(o, _) => (Cascade(s, Channels.Do(s.dir, o).0), Ok(""))
    case Send(c, user, text, now, newId) =>
      if !ValidText(text) then (s, Err(InvalidMessageText))
      else if !IsMember(s, c, user) then (s, Err(NotChannelMember))
      else Insert(s, Message(newId, c, user, false, text, "", now))
    case SendAsAgent(c, owner, agent, text, now, newId) =>
      if !ValidText(text) then (s, Err(InvalidMessageText))
      else if !IsMember(s, c, owner) then (s, Err(NotChannelMember))
      else Insert(s, Message(newId, c, agent, true, text, "", now))
    case SendWithAttachment(draft, agentCtx, now, newId) =>
      if !IsMember(s, draft.channel, draft.author) then (s, Err(NotChannelMember))
      else if draft.text != "" && !ValidText(draft.text) then (s, Err(InvalidMessageText))
      else if draft.text == "" && draft.attachment == "" then (s, Err(InvalidMessageText))
      else Insert(s, Stamped(draft, agentCtx, now, newId))
    case Welcome(c, agent, now, newId) => Insert(s, Message(newId, c, agent, true, WELCOME_TEXT, "", now))
    case Edit(id, user, text, _) =>
      if !ValidText(text) then (s, Err(InvalidMessageText))
      else if id !in s.messages then (s, Err(MessageNotFound))
      else if !MayChange(s, s.messages[id], user) then (s, Err(UnauthorizedMessageEdit))
      else if !IsMember(s, s.messages[id].channel, user) then (s, Err(NotChannelMember))
      else if !FitsTable(text) then (s, Err(DatabaseError))
      else (s.(messages := s.messages[id := s.messages[id].(text := text)]), Ok(id))
    case DeleteMessage(id, user, _) =>
      if id !in s.messages then (s, Err(MessageNotFound))
      else if !MayChange(s, s.messages[id], user) then (s, Err(UnauthorizedMessageDelete))
      else if !IsMember(s, s.messages[id].channel, user) then (s, Err(NotChannelMember))
      else (s.(messages := s.messages - {id}), Ok(id))
    case MarkRead(c, user, now) =>
      if !IsMember(s, c, user) then (s, Err(NotChannelMember))
      else (s.(lastRead := s.lastRead[(user, c) := now]), Ok(c))
  }

  function Do(s: Store, op: Op): (Store, Outcome)
    requires Enabled(s, op)
  {
    var (t, r) := Act(s, op);
    (t.(clock := op.now), r)
  }

  // ---- One page ----

  /** Rows are stored under their ids, and no id is empty: an empty cursor means none. */
  ghost predicate Keyed(t: Table) {
    "" !in t && forall id :: id in t ==> t[id].id == id
  }

  /** The messages a page is taken from; a cursor that no longer exists matches nothing. */
  ghost function Matching(t: Table, channel: Id, before: Id): set<Id> {
    set id | id in t && t[id].channel == channel
             && (before == "" || (before in t && t[id].createdAt < t[before].createdAt))
  }

  ghost predicate NewestFirst(rows: seq<Message>) {
    forall i, j :: 0 <= i < j < |rows| ==> rows[i].createdAt >= rows[j].createdAt
  }

  ghost predicate Distinct(rows: seq<Message>) {
    forall i, j :: 0 <= i < j < |rows| ==> rows[i].id != rows[j].id
  }

  ghost predicate StoredIn(rows: seq<Message>, t: Table, ids: set<Id>) {
    forall i :: 0 <= i < |rows| ==> rows[i].id in ids && rows[i].id in t && t[rows[i].id] == rows[i]
  }

  ghost function IdsOf(rows: seq<Message>): set<Id> {
    set i | 0 <= i < |rows| :: rows[i].id
  }

  /** Nothing left out is newer than anything taken. */
  ghost predicate NewestTaken(rows: seq<Message>, t: Table, ids: set<Id>) {
    forall id, i :: id in ids && id in t && id !in IdsOf(rows) && 0 <= i < |rows| ==>
      t[id].createdAt <= rows[i].createdAt
  }

  /**
    What ORDER BY created_at DESC LIMIT n may answer: the n newest matching rows, newest first; rows with
    equal times come in any order and any of them may be the ones cut off.
  */
  ghost predicate IsQueryResult(t: Table, channel: Id, before: Id, n: nat, rows: seq<Message>) {
    var ids := Matching(t, channel, before);
    && StoredIn(rows, t, ids) && Distinct(rows) && NewestFirst(rows) && NewestTaken(rows, t, ids)
    && |rows| == if |ids| < n then |ids| else n
  }

  /** A page holds the `limit` newest matching messages, and says whether there were more. */
  ghost predicate IsPage(t: Table, channel: Id, before: Id, limit: nat, page: seq<Message>, hasMore: bool) {
    && IsQueryResult(t, channel, before, limit, page)
    && (hasMore <==> |Matching(t, channel, before)| > limit)
  }

  lemma FirstRowsArePage(t: Table, channel: Id, before: Id, limit: nat, rows: seq<Message>)
    requires IsQueryResult(t, channel, before, limit + 1, rows)
    ensures IsPage(t, channel, before, limit, if |rows| > limit then rows[..limit] else rows, |rows| > limit)
  {
    if |rows| > limit {
      var page := rows[..limit];
      var ids := Matching(t, channel, before);
      assert forall k :: 0 <= k < limit ==> page[k] == rows[k] && rows[k].id in IdsOf(page);
      forall id, i | id in ids && id in t && id !in IdsOf(page) && 0 <= i < |page|
        ensures t[id].createdAt <= page[i].createdAt
      {
        if id in IdsOf(rows) {
          var j :| 0 <= j < |rows| && rows[j].id == id;
        }
      }
    }
  }

  /** How many messages a request for `limit` gets at most. */
  function PageSize(limit: int): (n: nat)
    ensures 1 <= n <= MAX_PAGE && (1 <= limit <= MAX_PAGE ==> n == limit)
  {
    if limit <= 0 then DEFAULT_PAGE else if limit > MAX_PAGE then MAX_PAGE else limit
  }
}

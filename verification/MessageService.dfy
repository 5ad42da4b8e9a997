/**
  The message service over its tables: each call is one step, and keeps what every run of them keeps. A text the
  service lets through is refused by the table exactly if it has a zero character, or is empty beside an attachment.
*/
module MessageServices {
  import opened Messages
  import opened Sequences
  import opened Unread
  import opened MessageRules

  /** A message on its way into the table. */
  class Draft {
    var id: Id
    var channel: Id
    var author: Id
    var byAgent: bool
    var text: string
    var attachment: string
    var createdAt: int

    function View(): Message
      reads this
    {
      Message(id, channel, author, byAgent, text, attachment, createdAt)
    }

    constructor (channel: Id, author: Id, text: string, attachment: string)
      ensures View() == Message("", channel, author, false, text, attachment, 0)
    {
      id, byAgent, createdAt := "", false, 0;
      this.channel, this.author, this.text, this.attachment := channel, author, text, attachment;
    }
  }

  /** What the service checks of a draft, and what of that the table still refuses. */
  predicate ServiceTakes(m: Message) {
    if m.text == "" then m.attachment != "" else ValidText(m.text)
  }

  predicate TableRefuses(m: Message) {
    m.text == "" || '\0' in m.text || '\0' in m.attachment
  }

  lemma AttachmentAlone(s: Store, m: Message, agentCtx: Option<Id>, now: int, newId: Id)
    requires WellFormed(s) && Enabled(s, SendWithAttachment(m, agentCtx, now, newId))
    ensures Do(s, SendWithAttachment(m, agentCtx, now, newId)).1 == Err(DatabaseError)
       <==> IsMember(s, m.channel, m.author) && ServiceTakes(m) && TableRefuses(m)
  {
    MemberHasChannel(s, m.channel);
  }

  datatype Listing = Page(messages: seq<Message>, hasMore: bool) | Refused(error: Error)

  class MessageService {
    var dir: Channels.Directory
    var messages: Table
    var lastRead: map<(UserId, Id), int>
    var agents: map<Id, UserId>
    var issued: set<Id>
    var clock: int

    function Abs(): Store
      reads this
    {
      Store(dir, messages, lastRead, agents, issued, clock)
    }

    /** Rows belong to existing channels, and no message is from the future. */
    ghost predicate Valid()
      reads this
    {
      WellFormed(Abs())
    }

    constructor (s: Store)
      requires WellFormed(s)
      ensures Valid() && Abs() == s
    {
      dir, messages, lastRead, agents, issued, clock := s.dir, s.messages, s.lastRead, s.agents, s.issued, s.clock;
    }

    method Create(m: Message) returns (r: Outcome)
      modifies this
      ensures (Abs(), r) == Insert(old(Abs()), m)
    {
      if !FitsTable(m.text) || '\0' in m.attachment || m.channel !in dir.channels {
        return Err(DatabaseError);
      }
      messages := messages[m.id := m];
      issued := issued + {m.id};
      return Ok(m.id);
    }

    method SendText(c: Id, user: UserId, text: string, now: int, newId: Id) returns (r: Outcome)
      requires Valid() && Enabled(Abs(), Send(c, user, text, now, newId))
      modifies this
      ensures Valid() && (Abs(), r) == Do(old(Abs()), Send(c, user, text, now, newId))
      ensures r == Err(DatabaseError) <==> old(IsMember(Abs(), c, user)) && ValidText(text) && '\0' in text
      ensures r == Err(InvalidMessageText) <==> !ValidText(text)
      ensures r.Ok? <==> old(IsMember(Abs(), c, user)) && ValidText(text) && '\0' !in text
      ensures r.Ok? ==> messages == old(messages)[newId := Message(newId, c, user, false, text, "", now)]
      ensures r.Err? ==> messages == old(messages)
    {
      StepStaysWellFormed(Abs(), Send(c, user, text, now, newId));
      MemberHasChannel(Abs(), c);
      hide WellFormed;
      clock := now;
      if !ValidText(text) {
        return Err(InvalidMessageText);
      }
      if !IsMember(Abs(), c, user) {
        return Err(NotChannelMember);
      }
      r := Create(Message(newId, c, user, false, text, "", now));
    }

    method SendForAgent(c: Id, owner: UserId, agent: Id, text: string, now: int, newId: Id) returns (r: Outcome)
      requires Valid() && Enabled(Abs(), SendAsAgent(c, owner, agent, text, now, newId))
      modifies this
      ensures Valid() && (Abs(), r) == Do(old(Abs()), SendAsAgent(c, owner, agent, text, now, newId))
      ensures r == Err(DatabaseError) <==> old(IsMember(Abs(), c, owner)) && ValidText(text) && '\0' in text
      ensures r == Err(InvalidMessageText) <==> !ValidText(text)
      ensures r.Ok? <==> old(IsMember(Abs(), c, owner)) && ValidText(text) && '\0' !in text
      ensures r.Ok? ==> messages == old(messages)[newId := Message(newId, c, agent, true, text, "", now)]
      ensures r.Err? ==> messages == old(messages)
    {
      StepStaysWellFormed(Abs(), SendAsAgent(c, owner, agent, text, now, newId));
      MemberHasChannel(Abs(), c);
      hide WellFormed;
      clock := now;
      if !ValidText(text) {
        return Err(InvalidMessageText);
      }
      if !IsMember(Abs(), c, owner) {
        return Err(NotChannelMember);
      }
      r := Create(Message(newId, c, agent, true, text, "", now));
    }

    method SendMessageWithAttachment(m: Draft, agentCtx: Option<Id>, now: int, newId: Id) returns (r: Outcome)
      requires Valid() && Enabled(Abs(), SendWithAttachment(m.View(), agentCtx, now, newId))
      modifies this, m
      ensures Valid() && (Abs(), r) == Do(old(Abs()), SendWithAttachment(old(m.View()), agentCtx, now, newId))
      ensures r.Ok? ==> newId in messages && messages[newId] == m.View()
      ensures r == Err(DatabaseError) <==>
        old(IsMember(Abs(), m.channel, m.author) && ServiceTakes(m.View()) && TableRefuses(m.View()))
    {
      StepStaysWellFormed(Abs(), SendWithAttachment(m.View(), agentCtx, now, newId));
      AttachmentAlone(Abs(), m.View(), agentCtx, now, newId);
      hide WellFormed, ValidText, FitsTable, IsMember, ServiceTakes, TableRefuses;
      clock := now;
      if !IsMember(Abs(), m.channel, m.author) {
        return Err(NotChannelMember);
      }
      if m.text != "" && !ValidText(m.text) {
        return Err(InvalidMessageText);
      }
      if m.text == "" && m.attachment == "" {
        return Err(InvalidMessageText);
      }
      m.createdAt := now;
      if agentCtx.Some? {
        m.author := agentCtx.value;
        m.byAgent := true;
      }
      m.id := newId;
      r := Create(m.View());
    }

    method EditMessage(id: Id, user: UserId, text: string, now: int) returns (r: Outcome)
      requires Valid() && Enabled(Abs(), Edit(id, user, text, now))
      modifies this
      ensures Valid() && (Abs(), r) == Do(old(Abs()), Edit(id, user, text, now))
      ensures r == Err(DatabaseError) ==> ValidText(text) && '\0' in text
      ensures r.Ok? <==>
        ValidText(text) && '\0' !in text && id in old(messages) && old(Controls(Abs(), messages[id], user))
      ensures r.Ok? ==> messages == old(messages)[id := old(messages)[id].(text := text)]
      ensures r.Err? ==> messages == old(messages)
    {
      StepStaysWellFormed(Abs(), Edit(id, user, text, now));
      hide WellFormed;
      clock := now;
      if !ValidText(text) {
        return Err(InvalidMessageText);
      }
      if id !in messages {
        return Err(MessageNotFound);
      }
      var existing := messages[id];
      var isAuthor := existing.author == user && !existing.byAgent;
      if !isAuthor && existing.byAgent {
        isAuthor := IsAgentOwner(Abs(), existing.author, user);
      }
      if !isAuthor {
        return Err(UnauthorizedMessageEdit);
      }
      if !IsMember(Abs(), existing.channel, user) {
        return Err(NotChannelMember);
      }
      if !FitsTable(text) {
        return Err(DatabaseError);
      }
      messages := messages[id := existing.(text := text)];
      return Ok(id);
    }

    method Delete(id: Id, user: UserId, now: int) returns (r: Outcome)
      requires Valid() && Enabled(Abs(), DeleteMessage(id, user, now))
      modifies this
      ensures Valid() && (Abs(), r) == Do(old(Abs()), DeleteMessage(id, user, now))
      ensures r.Ok? <==> id in old(messages) && old(Controls(Abs(), messages[id], user))
      ensures r.Ok? ==> messages == old(messages) - {id}
      ensures r.Err? ==> messages == old(messages)
    {
      StepStaysWellFormed(Abs(), DeleteMessage(id, user, now));
      hide WellFormed;
      clock := now;
      if id !in messages {
        return Err(MessageNotFound);
      }
      var existing := messages[id];
      var isAuthor := existing.author == user && !existing.byAgent;
      if !isAuthor && existing.byAgent {
        isAuthor := IsAgentOwner(Abs(), existing.author, user);
      }
      if !isAuthor {
        return Err(UnauthorizedMessageDelete);
      }
      if !IsMember(Abs(), existing.channel, user) {
        return Err(NotChannelMember);
      }
      messages := messages - {id};
      return Ok(id);
    }

    method MarkChannelRead(c: Id, user: UserId, now: int) returns (r: Outcome)
      requires Valid() && Enabled(Abs(), MarkRead(c, user, now))
      modifies this
      ensures Valid() && (Abs(), r) == Do(old(Abs()), MarkRead(c, user, now))
      ensures r.Ok? <==> old(IsMember(Abs(), c, user))
      ensures lastRead == if r.Ok? then old(lastRead)[(user, c) := now] else old(lastRead)
    {
      StepStaysWellFormed(Abs(), MarkRead(c, user, now));
      hide WellFormed;
      clock := now;
      if !IsMember(Abs(), c, user) {
        return Err(NotChannelMember);
      }
      lastRead := lastRead[(user, c) := now];
      return Ok(c);
    }

    /** `rows` is what the database answers to the query with one row more than the page. */
    method GetByChannel(channel: Id, limit: nat, before: Id, rows: seq<Message>)
      returns (page: seq<Message>, hasMore: bool)
      requires IsQueryResult(messages, channel, before, limit + 1, rows)
      ensures IsPage(messages, channel, before, limit, page, hasMore)
    {
      page := [];
      var i := 0;
      while i < |rows|
        invariant 0 <= i <= |rows|
        invariant page == rows[..i]
      {
        page := page + [rows[i]];
        i := i + 1;
      }
      assert page == rows;
      hasMore := |page| > limit;
      if hasMore {
        page := page[..limit];
      }
      FirstRowsArePage(messages, channel, before, limit, rows);
    }

    method GetMessages(channel: Id, user: UserId, limit: int, before: Id, rows: seq<Message>) returns (r: Listing)
      requires IsQueryResult(messages, channel, before, PageSize(limit) + 1, rows)
      ensures r.Refused? <==> !IsMember(Abs(), channel, user)
      ensures r.Refused? ==> r.error == NotChannelMember
      ensures r.Page? ==> IsPage(messages, channel, before, PageSize(limit), r.messages, r.hasMore)
      ensures r.Page? ==> |r.messages| <= MAX_PAGE
      ensures r.Page? && limit <= 0 ==> IsPage(messages, channel, before, 50, r.messages, r.hasMore)
      ensures r.Page? && limit > 100 ==> IsPage(messages, channel, before, 100, r.messages, r.hasMore)
    {
      if !IsMember(Abs(), channel, user) {
        return Refused(NotChannelMember);
      }
      var n := limit;
      if n <= 0 {
        n := DEFAULT_PAGE;
      }
      if n > MAX_PAGE {
        n := MAX_PAGE;
      }
      var page, hasMore := GetByChannel(channel, n, before, rows);
      return Page(page, hasMore);
    }
  }
}

/** What a stored message is and how it goes, over every run of the services by every user. */
module MessageRules {
  import opened Messages
  import opened Unread

  /** The user has a role in the channel, whichever. */
  predicate InChannel(s: Store, c: Id, u: UserId) {
    Channels.RoleOf(s.dir, c, u).Some?
  }

  /** The user wrote the message, or owns the agent that did, and is still in its channel. */
  predicate Controls(s: Store, m: Message, u: UserId) {
    && InChannel(s, m.channel, u)
    && ((!m.byAgent && m.author == u) || (m.byAgent && m.author in s.agents && s.agents[m.author] == u))
  }

  /** The step puts exactly this message into its channel, on behalf of somebody in it or as the welcome. */
  predicate Posts(s: Store, op: Op, m: Message) {
    match op
    case Send(c, user, text, now, newId) =>
      InChannel(s, c, user) && ValidText(text) && m == Message(newId, c, user, false, text, "", now)
    case SendAsAgent(c, owner, agent, text, now, newId) =>
      InChannel(s, c, owner) && ValidText(text) && m == Message(newId, c, agent, true, text, "", now)
    case SendWithAttachment(d, agentCtx, now, newId) =>
      && InChannel(s, d.channel, d.author) && ValidText(d.text)
      && m.id == newId && m.channel == d.channel && m.text == d.text && m.attachment == d.attachment
      && m.createdAt == now
      && (agentCtx.Some? ==> m.author == agentCtx.value && m.byAgent)
      && (agentCtx.None? ==> m.author == d.author && m.byAgent == d.byAgent)
    case Welcome(c, agent, now, newId) => m == Message(newId, c, agent, true, WELCOME_TEXT, "", now)
    case _ => false
  }

  /** The step gives a stored message this text and leaves the rest of it alone. */
  predicate Rewrites(s: Store, op: Op, m: Message) {
    && op.Edit? && op.id == m.id && op.text == m.text && ValidText(op.text)
    && m.id in s.messages && m == s.messages[m.id].(text := op.text) && Controls(s, s.messages[m.id], op.user)
  }

  /** The step removes the message: somebody who controls it deletes it, or an owner deletes its channel. */
  predicate Removes(s: Store, op: Op, m: Message) {
    || (op.DeleteMessage? && op.id == m.id && Controls(s, m, op.user))
    || (op.OnChannels? && op.op.Delete? && op.op.channel == m.channel
        && Channels.HasRole(s.dir, m.channel, op.op.user, Channels.Owner))
  }

  predicate Stored(s: Store, m: Message) {
    m.id in s.messages && s.messages[m.id] == m
  }

  lemma ChannelsStay(s: Store, op: Channels.Op, c: Id)
    requires WellFormed(s) && Channels.Enabled(s.dir, op)
    requires c in s.dir.channels && c !in Channels.Do(s.dir, op).0.channels
    ensures op.Delete? && op.channel == c && Channels.HasRole(s.dir, c, op.user, Channels.Owner)
  {
    hide Channels.ValidName, Channels.NameTaken, Channels.HasPairDM, Channels.DmName, Channels.MayRemove,
      Channels.RequestedRole;
  }

  /** A row that appears or changes was posted or rewritten as it now is. */
  lemma WriteStep(s: Store, op: Op, m: Message)
    requires WellFormed(s) && Enabled(s, op) && !Stored(s, m) && Stored(Do(s, op).0, m)
    ensures if m.id in s.messages then Rewrites(s, op, m) else Posts(s, op, m)
  {
    hide Channels.Do, Channels.Enabled, Utf8Length;
    assert op.OnChannels? ==> m.id in s.messages;
  }

  lemma RemoveStep(s: Store, op: Op, m: Message)
    requires WellFormed(s) && Enabled(s, op) && Stored(s, m) && m.id !in Do(s, op).0.messages
    ensures Removes(s, op, m)
  {
    if op.OnChannels? {
      ChannelsStay(s, op.op, m.channel);
    }
    hide Channels.Do, Channels.Enabled, ValidText, FitsTable;
  }

  // ---- Over runs ----

  ghost predicate StepAt(s: Store, ops: seq<Op>, k: nat) {
    k < |ops| && RunFrom(s, ops[..k]) && Enabled(AfterFrom(s, ops[..k]), ops[k])
  }

  /** Step `k` wrote this row, and it has been stored unchanged ever since. */
  ghost predicate WrittenAt(s: Store, ops: seq<Op>, k: nat, m: Message) {
    && StepAt(s, ops, k)
    && (Posts(AfterFrom(s, ops[..k]), ops[k], m) || Rewrites(AfterFrom(s, ops[..k]), ops[k], m))
    && forall j :: k < j <= |ops| ==> RunFrom(s, ops[..j]) && Stored(AfterFrom(s, ops[..j]), m)
  }

  lemma StillWritten(s: Store, ops: seq<Op>, k: nat, m: Message)
    requires ops != [] && WrittenAt(s, ops[..|ops| - 1], k, m) && RunFrom(s, ops) && Stored(AfterFrom(s, ops), m)
    ensures WrittenAt(s, ops, k, m)
  {
    hide RunFrom, AfterFrom, Enabled, Posts, Rewrites, Stored;
    var n := |ops| - 1;
    var init := ops[..n];
    assert forall j :: 0 <= j <= n ==> init[..j] == ops[..j];
    assert ops[..n + 1] == ops;
  }

  lemma NewlyWritten(s: Store, ops: seq<Op>, m: Message)
    requires ops != [] && RunFrom(s, ops) && WellFormed(AfterFrom(s, ops[..|ops| - 1]))
    requires !Stored(AfterFrom(s, ops[..|ops| - 1]), m) && Stored(AfterFrom(s, ops), m)
    ensures WrittenAt(s, ops, |ops| - 1, m)
  {
    var n := |ops| - 1;
    hide Do, WellFormed, Enabled, Posts, Rewrites, Stored;
    assert ops[..n + 1] == ops;
    WriteStep(AfterFrom(s, ops[..n]), ops[n], m);
  }

  /** Every row that was not there from the start was written just as it is by one step, a send by somebody in the
      channel or an edit by somebody who controls the message, and nothing has touched it since. */
  lemma {:induction false} RowIsWritten(s: Store, ops: seq<Op>, m: Message)
    requires WellFormed(s) && RunFrom(s, ops) && !Stored(s, m) && Stored(AfterFrom(s, ops), m)
    ensures exists k: nat :: WrittenAt(s, ops, k, m)
    decreases |ops|
  {
    hide Do, WellFormed, Enabled, Stored, WrittenAt;
    if ops != [] {
      var init := ops[..|ops| - 1];
      RunStaysWellFormed(s, init);
      if Stored(AfterFrom(s, init), m) {
        RowIsWritten(s, init, m);
        var k: nat :| WrittenAt(s, init, k, m);
        StillWritten(s, ops, k, m);
      } else {
        NewlyWritten(s, ops, m);
      }
    }
  }

  /** Step `k` posted the message: all but its text is still what was sent then. */
  ghost predicate PostedAt(s: Store, ops: seq<Op>, k: nat, m: Message) {
    StepAt(s, ops, k) && exists text :: Posts(AfterFrom(s, ops[..k]), ops[k], m.(text := text))
  }

  lemma RewriteKeepsRest(s: Store, op: Op, m: Message)
    requires WellFormed(s) && Enabled(s, op) && Stored(Do(s, op).0, m)
    ensures m.id in s.messages ==> s.messages[m.id] == m.(text := s.messages[m.id].text)
    ensures m.id !in s.messages ==> Posts(s, op, m)
  {
    if !Stored(s, m) {
      WriteStep(s, op, m);
    }
    hide Do, Posts;
  }

  /** Every message keeps for good the channel, author, attachment and time it was sent with. */
  lemma {:induction false} MessageIsAsSent(s: Store, ops: seq<Op>, m: Message)
    requires WellFormed(s) && RunFrom(s, ops) && m.id !in s.messages && Stored(AfterFrom(s, ops), m)
    ensures exists k: nat :: PostedAt(s, ops, k, m)
    decreases |ops|
  {
    hide Do, Enabled, Posts;
    if ops != [] {
      var n := |ops| - 1;
      var init := ops[..n];
      RunStaysWellFormed(s, init);
      hide WellFormed;
      RewriteKeepsRest(AfterFrom(s, init), ops[n], m);
      if m.id in AfterFrom(s, init).messages {
        var was := AfterFrom(s, init).messages[m.id];
        MessageIsAsSent(s, init, was);
        var k: nat :| PostedAt(s, init, k, was);
        assert init[..k] == ops[..k];
        var text :| Posts(AfterFrom(s, init[..k]), init[k], was.(text := text));
        assert was.(text := text) == m.(text := text);
        assert PostedAt(s, ops, k, m);
      } else {
        assert m.(text := m.text) == m;
        assert PostedAt(s, ops, n, m);
      }
    }
  }

  ghost predicate RemovedAt(s: Store, ops: seq<Op>, k: nat, id: Id) {
    && StepAt(s, ops, k) && id in AfterFrom(s, ops[..k]).messages
    && Removes(AfterFrom(s, ops[..k]), ops[k], AfterFrom(s, ops[..k]).messages[id])
  }

  /** A message that is gone was deleted by somebody who controlled it, or with its channel by an owner. */
  lemma {:induction false} MessageEndsBy(s: Store, ops: seq<Op>, id: Id)
    requires WellFormed(s) && RunFrom(s, ops) && id in s.messages && id !in AfterFrom(s, ops).messages
    ensures exists k: nat :: RemovedAt(s, ops, k, id)
    decreases |ops|
  {
    hide Do, Enabled, Removes;
    var n := |ops| - 1;
    var init := ops[..n];
    RunStaysWellFormed(s, init);
    if id in AfterFrom(s, init).messages {
      RemoveStep(AfterFrom(s, init), ops[n], AfterFrom(s, init).messages[id]);
      assert RemovedAt(s, ops, n, id);
    } else {
      MessageEndsBy(s, init, id);
      var k: nat :| RemovedAt(s, init, k, id);
      assert init[..k] == ops[..k];
      assert RemovedAt(s, ops, k, id);
    }
  }
}

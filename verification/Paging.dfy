/**
  Following the cursor through a channel, page after page, while others keep writing: what the pages together
  return, and exactly what they miss.
*/
module Paging {
  import Channels
  import opened Messages
  import Unread

  /** One request: the table it saw, and what it answered. */
  datatype Step = Step(table: Table, page: seq<Message>, more: bool)

  function Last(page: seq<Message>): Message
    requires page != []
  {
    page[|page| - 1]
  }

  /** The messages of the channel from before a given time. */
  ghost function Older(t: Table, channel: Id, time: int): set<Id> {
    set id | id in t && t[id].channel == channel && t[id].createdAt < time
  }

  /**
    Between two requests anything may be written, edited or deleted, even the cursor message `last`, as long as
    no message older than it appears or moves: new messages are stamped with the time they are written at.
  */
  ghost predicate NothingOlderAppears(t: Table, u: Table, channel: Id, last: Message) {
    && Older(u, channel, last.createdAt) <= Older(t, channel, last.createdAt)
    && (last.id in u ==> u[last.id].createdAt == last.createdAt)
    && forall id :: id in Older(t, channel, last.createdAt) && id in u ==>
         (id in t && u[id].channel == channel && u[id].createdAt == t[id].createdAt)
  }

  /** Each request but the last was told there is more, and the next one continues from its last message. */
  ghost predicate Walk(w: seq<Step>, channel: Id, limit: nat, before: Id) {
    w != [] ==>
      && Keyed(w[0].table)
      && IsPage(w[0].table, channel, before, limit, w[0].page, w[0].more)
      && (|w| > 1 ==>
        && w[0].more && w[0].page != []
        && NothingOlderAppears(w[0].table, w[1].table, channel, Last(w[0].page))
        && Walk(w[1..], channel, limit, Last(w[0].page).id))
  }

  /** Everything the walk returned, in order. */
  ghost function Returned(w: seq<Step>): seq<Message> {
    if w == [] then [] else w[0].page + Returned(w[1..])
  }

  // ---- One request after another ----

  lemma NextPageMatches(t: Table, u: Table, channel: Id, before: Id, last: Message)
    requires NothingOlderAppears(t, u, channel, last) && Keyed(t)
    requires last.id in Matching(t, channel, before) && t[last.id] == last
    ensures Matching(u, channel, last.id) == if last.id in u then Older(u, channel, last.createdAt) else {}
    ensures Matching(u, channel, last.id) <= Older(t, channel, last.createdAt) <= Matching(t, channel, before)
  {
    assert last.id != "";
  }

  /** Whatever is returned was there, with the same time, when the walk began. */
  lemma {:induction false} ReturnedFromStart(w: seq<Step>, channel: Id, limit: nat, before: Id, m: Message)
    requires w != [] && Walk(w, channel, limit, before) && m in Returned(w)
    ensures m.id in Matching(w[0].table, channel, before) && w[0].table[m.id].createdAt == m.createdAt
  {
    if m !in w[0].page {
      var last := Last(w[0].page);
      NextPageMatches(w[0].table, w[1].table, channel, before, last);
      ReturnedFromStart(w[1..], channel, limit, last.id, m);
    }
  }

  /** Later pages hold only messages strictly older than the last one of the first page. */
  lemma LaterIsOlder(w: seq<Step>, channel: Id, limit: nat, before: Id, m: Message)
    requires |w| > 1 && Walk(w, channel, limit, before) && m in Returned(w[1..])
    ensures m.id in Older(w[0].table, channel, Last(w[0].page).createdAt) && m.createdAt < Last(w[0].page).createdAt
  {
    var last := Last(w[0].page);
    NextPageMatches(w[0].table, w[1].table, channel, before, last);
    ReturnedFromStart(w[1..], channel, limit, last.id, m);
  }

  lemma OlderAppended(t: Table, a: seq<Message>, b: seq<Message>)
    requires NewestFirst(a) && Distinct(a) && NewestFirst(b) && Distinct(b)
    requires forall i :: 0 <= i < |a| ==> a[i].id in t && t[a[i].id].createdAt == a[i].createdAt
    requires a == [] ==> b == []
    requires forall j :: 0 <= j < |b| ==> b[j].id in t && t[b[j].id].createdAt == b[j].createdAt < Last(a).createdAt
    ensures NewestFirst(a + b) && Distinct(a + b)
  {
    forall i, j | 0 <= i < |a| && 0 <= j < |b|
      ensures a[i].createdAt > b[j].createdAt && a[i].id != b[j].id
    {
      assert a[i].createdAt >= Last(a).createdAt;
    }
  }

  lemma {:induction false} ReturnedInOrder(w: seq<Step>, channel: Id, limit: nat, before: Id)
    requires Walk(w, channel, limit, before)
    ensures NewestFirst(Returned(w)) && Distinct(Returned(w))
  {
    if |w| == 1 {
      assert Returned(w) == w[0].page;
    } else if |w| > 1 {
      var t, first, rest := w[0].table, w[0].page, Returned(w[1..]);
      ReturnedInOrder(w[1..], channel, limit, Last(first).id);
      forall j | 0 <= j < |rest|
        ensures rest[j].id in t && t[rest[j].id].createdAt == rest[j].createdAt < Last(first).createdAt
      {
        assert rest[j] in rest && rest[j] in Returned(w);
        LaterIsOlder(w, channel, limit, before, rest[j]);
        ReturnedFromStart(w, channel, limit, before, rest[j]);
      }
      OlderAppended(t, first, rest);
    }
  }

  lemma {:induction false} DistinctCount(rows: seq<Message>)
    requires Distinct(rows)
    ensures |IdsOf(rows)| == |rows|
  {
    if rows != [] {
      var n := |rows| - 1;
      DistinctCount(rows[..n]);
      assert forall i :: 0 <= i < n ==> rows[..n][i] == rows[i];
      assert IdsOf(rows) == IdsOf(rows[..n]) + {rows[n].id};
    }
  }

  lemma SubsetCount(a: set<Id>, b: set<Id>)
    requires a <= b
    ensures |a| <= |b|
    ensures |a| == |b| ==> a == b
  {
    assert b == a + (b - a);
    assert |b| == |a| + |b - a|;
  }

  lemma {:induction false} FullPages(w: seq<Step>, channel: Id, limit: nat, before: Id)
    requires w != [] && Walk(w, channel, limit, before)
    ensures limit * (|w| - 1) <= |Returned(w)|
  {
    hide Matching, NothingOlderAppears, Keyed, StoredIn, Distinct, NewestFirst, NewestTaken;
    if |w| > 1 {
      FullPages(w[1..], channel, limit, Last(w[0].page).id);
      assert limit * (|w| - 1) == limit + limit * (|w| - 2);
    }
  }

  /**
    A walk ends: with pages of `limit` there are never more full ones than the channel has messages for. And it
    returns no message twice, newest first, whatever the ties.
  */
  lemma WalkIsBounded(w: seq<Step>, channel: Id, limit: nat)
    requires w != [] && Walk(w, channel, limit, "")
    ensures limit * (|w| - 1) <= |Returned(w)| <= |Matching(w[0].table, channel, "")|
    ensures NewestFirst(Returned(w)) && Distinct(Returned(w))
  {
    FullPages(w, channel, limit, "");
    ReturnedInOrder(w, channel, limit, "");
    DistinctCount(Returned(w));
    forall id | id in IdsOf(Returned(w))
      ensures id in Matching(w[0].table, channel, "")
    {
      var i :| 0 <= i < |Returned(w)| && Returned(w)[i].id == id;
      ReturnedFromStart(w, channel, limit, "", Returned(w)[i]);
    }
    SubsetCount(IdsOf(Returned(w)), Matching(w[0].table, channel, ""));
  }

  // ---- What is missed ----

  /** A page other than the last ends at this message's time without holding it. */
  ghost predicate CutOffAt(w: seq<Step>, k: nat, id: Id, time: int) {
    k < |w| - 1 && w[k].page != [] && Last(w[k].page).createdAt == time && id !in IdsOf(w[k].page)
  }

  ghost predicate CutOff(w: seq<Step>, id: Id, time: int) {
    exists k: nat :: CutOffAt(w, k, id, time)
  }

  /** A cursor message is deleted before it is used, with this older message still to come. */
  ghost predicate LostAt(w: seq<Step>, k: nat, time: int) {
    k < |w| - 1 && w[k].page != [] && Last(w[k].page).id !in w[k + 1].table && time < Last(w[k].page).createdAt
  }

  ghost predicate Lost(w: seq<Step>, time: int) {
    exists k: nat :: LostAt(w, k, time)
  }

  ghost predicate Finished(w: seq<Step>) {
    w != [] && !w[|w| - 1].more
  }

  /** No cursor message is deleted before it is used. */
  ghost predicate CursorsKept(w: seq<Step>) {
    forall k :: 0 <= k < |w| - 1 && w[k].page != [] ==> Last(w[k].page).id in w[k + 1].table
  }

  /** The message is there at every request of the walk. */
  ghost predicate Survives(w: seq<Step>, id: Id) {
    forall k :: 0 <= k < |w| ==> id in w[k].table
  }

  lemma LastPageIsAll(t: Table, channel: Id, before: Id, limit: nat, page: seq<Message>)
    requires IsPage(t, channel, before, limit, page, false)
    ensures IdsOf(page) == Matching(t, channel, before)
  {
    DistinctCount(page);
    SubsetCount(IdsOf(page), Matching(t, channel, before));
  }

  lemma CutOffLater(w: seq<Step>, channel: Id, limit: nat, before: Id, id: Id, time: int)
    requires |w| > 1 && Walk(w, channel, limit, before)
    ensures CutOff(w, id, time) <==> CutOffAt(w, 0, id, time) || CutOff(w[1..], id, time)
    ensures CutOff(w[1..], id, time) ==> time < Last(w[0].page).createdAt
  {
    forall k: nat | CutOffAt(w[1..], k, id, time)
      ensures CutOffAt(w, k + 1, id, time) && time < Last(w[0].page).createdAt
    {
      LastIsReturned(w[1..], k);
      LaterIsOlder(w, channel, limit, before, Last(w[1..][k].page));
    }
    forall k: nat | k > 0 && CutOffAt(w, k, id, time)
      ensures CutOff(w[1..], id, time)
    {
      assert CutOffAt(w[1..], k - 1, id, time);
    }
  }

  lemma LostLater(w: seq<Step>, channel: Id, limit: nat, before: Id, time: int)
    requires |w| > 1 && Walk(w, channel, limit, before)
    ensures Lost(w, time) <==> LostAt(w, 0, time) || Lost(w[1..], time)
    ensures Lost(w[1..], time) ==> time < Last(w[0].page).createdAt
  {
    forall k: nat | LostAt(w[1..], k, time)
      ensures LostAt(w, k + 1, time) && time < Last(w[0].page).createdAt
    {
      LastIsReturned(w[1..], k);
      LaterIsOlder(w, channel, limit, before, Last(w[1..][k].page));
    }
    forall k: nat | k > 0 && LostAt(w, k, time)
      ensures Lost(w[1..], time)
    {
      assert LostAt(w[1..], k - 1, time);
    }
  }

  lemma {:induction false} LastIsReturned(w: seq<Step>, k: nat)
    requires k < |w| && w[k].page != []
    ensures Last(w[k].page) in Returned(w)
  {
    if k > 0 {
      LastIsReturned(w[1..], k - 1);
    } else {
      assert w[0].page[|w[0].page| - 1] in w[0].page;
    }
  }

  /** A page takes everything newer than its last message, and nothing older. */
  lemma PageCutsAtLast(t: Table, channel: Id, before: Id, limit: nat, page: seq<Message>, more: bool, id: Id)
    requires IsPage(t, channel, before, limit, page, more) && page != [] && id in Matching(t, channel, before)
    ensures t[id].createdAt > Last(page).createdAt ==> id in IdsOf(page)
    ensures t[id].createdAt < Last(page).createdAt ==> id !in IdsOf(page)
  {
  }

  lemma MissedLater(w: seq<Step>, channel: Id, limit: nat, before: Id, id: Id)
    requires |w| > 1 && Walk(w, channel, limit, before) && id in Matching(w[0].table, channel, before)
    requires w[0].table[id].createdAt >= Last(w[0].page).createdAt
    ensures id !in IdsOf(Returned(w[1..]))
  {
    hide IsPage;
    var rest := Returned(w[1..]);
    if id in IdsOf(rest) {
      var i :| 0 <= i < |rest| && rest[i].id == id;
      LaterIsOlder(w, channel, limit, before, rest[i]);
    }
  }

  /** With its cursor gone, the rest of a walk returns nothing. */
  lemma NothingAfterLoss(w: seq<Step>, channel: Id, limit: nat, before: Id, id: Id)
    requires |w| > 1 && Walk(w, channel, limit, before) && Last(w[0].page).id !in w[1].table
    ensures id !in IdsOf(Returned(w[1..]))
  {
    var last, rest := Last(w[0].page), Returned(w[1..]);
    NextPageMatches(w[0].table, w[1].table, channel, before, last);
    if id in IdsOf(rest) {
      var i :| 0 <= i < |rest| && rest[i].id == id;
      ReturnedFromStart(w[1..], channel, limit, last.id, rest[i]);
    }
  }

  lemma {:induction false} MissedFrom(w: seq<Step>, channel: Id, limit: nat, before: Id, id: Id)
    requires Walk(w, channel, limit, before) && Finished(w)
    requires Survives(w, id) && id in Matching(w[0].table, channel, before)
    ensures
      var time := w[0].table[id].createdAt;
      id !in IdsOf(Returned(w)) <==> CutOff(w, id, time) || Lost(w, time)
  {
    var t, page := w[0].table, w[0].page;
    if |w| == 1 {
      LastPageIsAll(t, channel, before, limit, page);
      assert Returned(w) == page;
    } else {
      var u, last, time := w[1].table, Last(page), t[id].createdAt;
      assert last.id in Matching(t, channel, before) && t[last.id] == last;
      assert id in u;
      assert Survives(w[1..], id) by {
        assert forall k :: 0 <= k < |w| - 1 ==> w[1..][k] == w[k + 1];
      }
      assert LostAt(w, 0, time) <==> last.id !in u && time < last.createdAt;
      PageCutsAtLast(t, channel, before, limit, page, true, id);
      hide IsPage, IdsOf, CutOff, Lost, LostAt, Survives;
      IdsOfConcat(page, Returned(w[1..]));
      CutOffLater(w, channel, limit, before, id, time);
      LostLater(w, channel, limit, before, time);
      NextPageMatches(t, u, channel, before, last);
      if time >= last.createdAt {
        MissedLater(w, channel, limit, before, id);
      } else if last.id in u {
        assert id in Older(t, channel, last.createdAt) && id in Older(u, channel, last.createdAt);
        MissedFrom(w[1..], channel, limit, last.id, id);
      } else {
        NothingAfterLoss(w, channel, limit, before, id);
      }
    }
  }

  lemma IdsOfConcat(a: seq<Message>, b: seq<Message>)
    ensures IdsOf(a + b) == IdsOf(a) + IdsOf(b)
  {
    var all := a + b;
    assert forall i :: 0 <= i < |a| ==> all[i].id == a[i].id;
    assert forall i :: 0 <= i < |b| ==> all[|a| + i].id == b[i].id;
  }

  /**
    A finished walk misses a message that is there throughout exactly when a page ends in the middle of the
    messages of its time, or a cursor newer than it is deleted before it is used. Only the first can happen while
    the cursors are kept.
  */
  lemma MissedIff(w: seq<Step>, channel: Id, limit: nat)
    requires Walk(w, channel, limit, "") && Finished(w)
    ensures forall id :: id in Matching(w[0].table, channel, "") && Survives(w, id) ==>
      var time := w[0].table[id].createdAt;
      && (id !in IdsOf(Returned(w)) <==> CutOff(w, id, time) || Lost(w, time))
      && (CursorsKept(w) ==> !Lost(w, time))
  {
    forall id | id in Matching(w[0].table, channel, "") && Survives(w, id)
      ensures id !in IdsOf(Returned(w)) <==>
        CutOff(w, id, w[0].table[id].createdAt) || Lost(w, w[0].table[id].createdAt)
    {
      MissedFrom(w, channel, limit, "", id);
    }
  }

  /** With distinct times only a deleted cursor makes a walk miss anything, and it misses all that is older. */
  lemma DistinctTimesMissNothing(w: seq<Step>, channel: Id, limit: nat)
    requires Walk(w, channel, limit, "") && Finished(w)
    requires forall a, b ::
      a in Matching(w[0].table, channel, "") && b in Matching(w[0].table, channel, "") && a != b ==>
      w[0].table[a].createdAt != w[0].table[b].createdAt
    ensures IdsOf(Returned(w)) <= Matching(w[0].table, channel, "")
    ensures forall id :: id in Matching(w[0].table, channel, "") && Survives(w, id) ==>
      (id in IdsOf(Returned(w)) <==> !Lost(w, w[0].table[id].createdAt))
    ensures forall i, j :: 0 <= i < j < |Returned(w)| ==> Returned(w)[i].createdAt > Returned(w)[j].createdAt
  {
    var all, t, rows := Matching(w[0].table, channel, ""), w[0].table, Returned(w);
    forall m | m in rows
      ensures m.id in all && t[m.id].createdAt == m.createdAt
    {
      ReturnedFromStart(w, channel, limit, "", m);
    }
    forall id | id in all && Survives(w, id)
      ensures id in IdsOf(rows) <==> !Lost(w, t[id].createdAt)
    {
      MissedFrom(w, channel, limit, "", id);
      if k: nat :| CutOffAt(w, k, id, t[id].createdAt) {
        LastIsReturned(w, k);
      }
    }
    ReturnedInOrder(w, channel, limit, "");
    forall i, j | 0 <= i < j < |rows|
      ensures rows[i].createdAt > rows[j].createdAt
    {
      assert rows[i] in rows && rows[j] in rows && rows[i].id != rows[j].id;
    }
  }

  /** A walk that loses a message: pages of one, and the newer of two messages is deleted after it was returned. */
  lemma DeletedCursorLosesTheRest() returns (w: seq<Step>)
    ensures Walk(w, "c", 1, "") && Finished(w) && Survives(w, "old") && "old" in Matching(w[0].table, "c", "")
    ensures "old" !in IdsOf(Returned(w)) && !CutOff(w, "old", 1)
  {
    var older, newer := Message("old", "c", "u", false, "x", "", 1), Message("new", "c", "u", false, "y", "", 2);
    var t, u := map["old" := older, "new" := newer], map["old" := older];
    w := [Step(t, [newer], true), Step(u, [], false)];
    assert Matching(t, "c", "") == {"old", "new"} && |{"old", "new"}| == 2;
    assert IsPage(t, "c", "", 1, [newer], true) by {
      assert IdsOf([newer]) == {"new"} by { assert [newer][0].id in IdsOf([newer]); }
    }
    assert Matching(u, "c", "new") == {};
    assert w[1..] == [Step(u, [], false)];
    assert Walk(w[1..], "c", 1, "new");
    assert LostAt(w, 0, 1);
    MissedFrom(w, "c", 1, "", "old");
    forall k: nat
      ensures !CutOffAt(w, k, "old", 1)
    {
    }
  }

  // ---- Writing mid-walk ----

  /** `u` is `t` with messages added at or after a given time. */
  ghost predicate GrownAfter(t: Table, u: Table, time: int) {
    && t.Keys <= u.Keys
    && (forall id :: id in t ==> u[id] == t[id])
    && (forall id :: id in u && id !in t ==> u[id].createdAt >= time)
  }

  /** Messages written since the cursor's time never change what the next page may be. */
  lemma NewerMessagesChangeNothing(
      t: Table, u: Table, channel: Id, cursor: Id, limit: nat, page: seq<Message>, more: bool)
    requires cursor != "" && cursor in t && GrownAfter(t, u, t[cursor].createdAt)
    ensures IsPage(t, channel, cursor, limit, page, more) <==> IsPage(u, channel, cursor, limit, page, more)
  {
    var ids := Matching(t, channel, cursor);
    assert Matching(u, channel, cursor) == ids;
    assert StoredIn(page, t, ids) <==> StoredIn(page, u, ids);
    assert NewestTaken(page, t, ids) <==> NewestTaken(page, u, ids);
  }

  /** A cursor message deleted between two requests ends the walk there, whatever is left. */
  lemma DeletedCursorEndsTheWalk(t: Table, channel: Id, cursor: Id, limit: nat, page: seq<Message>, more: bool)
    requires cursor != "" && cursor !in t
    ensures IsPage(t, channel, cursor, limit, page, more) <==> page == [] && !more
  {
    assert Matching(t, channel, cursor) == {};
  }

  // ---- Walks over the service's runs ----

  /** The requests of a walk, without any promise about what happens between them. */
  ghost predicate Requests(w: seq<Step>, channel: Id, limit: nat, before: Id) {
    w != [] ==>
      && IsPage(w[0].table, channel, before, limit, w[0].page, w[0].more)
      && (|w| > 1 ==>
        && w[0].more && w[0].page != []
        && Requests(w[1..], channel, limit, Last(w[0].page).id))
  }

  /** Request `k` is answered in store `k`, and `between[k]` is what everybody does until the next one. */
  ghost predicate Served(w: seq<Step>, stores: seq<Store>, between: seq<seq<Op>>) {
    && |w| == |stores| == |between|
    && (forall k :: 0 <= k < |w| ==> w[k].table == stores[k].messages)
    && (forall k :: 0 <= k < |w| - 1 ==>
          Unread.RunFrom(stores[k], between[k]) && stores[k + 1] == Unread.AfterFrom(stores[k], between[k]))
  }

  /** One operation writes a message now, under an id never used, or leaves every message it keeps where it is. */
  lemma MessagesStayPut(s: Store, op: Op)
    requires Enabled(s, op)
    ensures
      var t := Do(s, op).0;
      && s.issued <= t.issued && s.clock <= t.clock
      && forall id :: id in t.messages ==>
           (id !in s.issued && t.messages[id].createdAt > s.clock)
           || (id in s.messages && t.messages[id].channel == s.messages[id].channel
               && t.messages[id].createdAt == s.messages[id].createdAt)
  {
    hide ValidText, FitsTable, MayChange, IsMember, Channels.Do, Channels.Enabled;
  }

  lemma StepAddsNothingOlder(s: Store, op: Op, channel: Id, last: Message, first: Table)
    requires Enabled(s, op) && last.createdAt <= s.clock && last.id in s.issued
    requires NothingOlderAppears(first, s.messages, channel, last)
    requires forall id :: id in first ==> id in s.issued
    ensures NothingOlderAppears(first, Do(s, op).0.messages, channel, last)
    ensures s.issued <= Do(s, op).0.issued && s.clock <= Do(s, op).0.clock
  {
    MessagesStayPut(s, op);
    hide Do, Enabled;
    assert Older(Do(s, op).0.messages, channel, last.createdAt) <= Older(s.messages, channel, last.createdAt);
  }

  /** Over any run of the services by anybody, no message older than one already there appears or moves. */
  lemma {:induction false} RunAddsNothingOlder(s: Store, ops: seq<Op>, channel: Id, last: Message)
    requires Unread.WellFormed(s) && Unread.RunFrom(s, ops) && last.id in s.messages && s.messages[last.id] == last
    ensures
      var t := Unread.AfterFrom(s, ops);
      NothingOlderAppears(s.messages, t.messages, channel, last) && s.issued <= t.issued && s.clock <= t.clock
    decreases |ops|
  {
    if ops != [] {
      var n := |ops| - 1;
      RunAddsNothingOlder(s, ops[..n], channel, last);
      Unread.RunStaysWellFormed(s, ops[..n]);
      hide NothingOlderAppears, Do, Enabled;
      StepAddsNothingOlder(Unread.AfterFrom(s, ops[..n]), ops[n], channel, last, s.messages);
    }
  }

  /** So whatever the services do between the requests, the pages make up a walk. */
  lemma {:induction false} ServiceWalks(
      w: seq<Step>, stores: seq<Store>, between: seq<seq<Op>>, channel: Id, limit: nat, before: Id)
    requires Served(w, stores, between) && Requests(w, channel, limit, before)
    requires w != [] ==> Unread.WellFormed(stores[0])
    ensures Walk(w, channel, limit, before)
    decreases |w|
  {
    if |w| > 1 {
      var last := Last(w[0].page);
      RunAddsNothingOlder(stores[0], between[0], channel, last);
      Unread.RunStaysWellFormed(stores[0], between[0]);
      ServiceWalks(w[1..], stores[1..], between[1..], channel, limit, last.id);
    }
  }
}

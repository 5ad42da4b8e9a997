/**
  The workspace's end of the tunnel: the dispatcher, the goroutine each request gets, and the
  table of local websockets. The local API is the environment: it chooses replies, stream bodies
  and how they are split into reads.
*/
module RelayClient {
  import opened Sequences
  import opened Base64
  import opened Protocol

  const READ_BUFFER: nat := 4096

  // ---- The table of local websockets ----

  /** What the table holds for one id: nothing, or a socket and the messages passed to it. */
  datatype SocketView = Missing | Live(written: seq<WsMessage>)

  /** A data frame goes to the live socket if it decodes, and is dropped otherwise. */
  function Pass(v: SocketView, f: DataFrame): SocketView {
    if v.Live? && Decode(f.data, Std).ok then Live(v.written + [ToMessage(f)]) else v
  }

  class Socket {
    var written: seq<WsMessage>
    var closes: nat

    constructor ()
      ensures written == [] && closes == 0
    {
      written, closes := [], 0;
    }
  }

  class Client {
    var wsConns: map<Id, Socket>

    ghost predicate Valid()
      reads this
    {
      forall a, b :: a in wsConns && b in wsConns && a != b ==> wsConns[a] != wsConns[b]
    }

    function View(id: Id): SocketView
      reads this, if id in wsConns then {wsConns[id]} else {}
    {
      if id in wsConns then Live(wsConns[id].written) else Missing
    }

    constructor ()
      ensures Valid() && forall id :: View(id) == Missing
    {
      wsConns := map[];
    }

    method Store(id: Id, conn: Socket)
      requires Valid() && conn !in wsConns.Values && conn.written == []
      modifies this
      ensures Valid() && wsConns == old(wsConns)[id := conn]
      ensures forall other :: View(other) == if other == id then Live([]) else old(View(other))
    {
      wsConns := wsConns[id := conn];
    }

    method HandleWSData(d: DataFrame)
      requires Valid()
      modifies if d.id in wsConns then {wsConns[d.id]} else {}
      ensures Valid() && wsConns == old(wsConns)
      ensures forall id :: View(id) == if id == d.id then Pass(old(View(id)), d) else old(View(id))
      ensures d.id in wsConns ==> wsConns[d.id].closes == old(wsConns[d.id].closes)
    {
      if d.id in wsConns {
        var payload := Decode(d.data, Std);
        if payload.ok {
          var conn := wsConns[d.id];
          conn.written := conn.written + [WsMessage(d.messageType, payload.data)];
        }
      }
    }

    /** The entry is removed with the socket it named, so a socket is never closed here twice. */
    method HandleWSClose(id: Id)
      requires Valid()
      modifies this, if id in wsConns then {wsConns[id]} else {}
      ensures Valid() && wsConns == old(wsConns) - {id}
      ensures forall other :: View(other) == if other == id then Missing else old(View(other))
      ensures id in old(wsConns) ==>
                var conn := old(wsConns[id]);
                conn.closes == old(conn.closes) + 1 && conn.written == old(conn.written) && conn !in wsConns.Values
    {
      if id in wsConns {
        var conn := wsConns[id];
        wsConns := wsConns - {id};
        conn.closes := conn.closes + 1;
      }
    }
  }

  // ---- One request as steps ----

  /** Where the goroutine of one id stands. Forwarding reads the local body; Ending has `sse_end` to
      write; Joined has stored the socket but not reported it; Hanging has its deferred close to run. */
  datatype Task =
    | Absent
    | Calling
    | Forwarding
    | Ending
    | Dialing
    | Joined
    | Relaying
    | Hanging
    | Done

  datatype Reply = NoReply | Reply(status: int, body: Bytes)

  /** The status the local API answered, its whole body, the blocks of it sent so far, whether `sse_end` was sent,
      and whether the last read failed. */
  datatype Stream = Stream(status: int, body: Bytes, blocks: seq<Bytes>, ended: bool, failed: bool)

  /** One id's row of the socket table with its history: every message passed, every data frame that
      found no entry, whether one came before the entry was stored, and how often the entry closed a socket. */
  datatype Table = Table(
    socket: SocketView, stored: bool, passed: seq<WsMessage>, missed: seq<DataFrame>, early: bool, closes: nat)

  datatype ClientSide = ClientSide(
    task: Task, origin: Option<Frame>, called: Option<HttpCall>, reply: Reply, stream: Stream, table: Table,
    heard: seq<WsMessage>, got: seq<Frame>, sent: seq<Frame>)

  const EMPTY_TABLE := Table(Missing, false, [], [], false, 0)
  const UNSEEN := ClientSide(Absent, None, None, NoReply, Stream(0, [], [], false, false), EMPTY_TABLE, [], [], [])

  /** What a read reports beside its bytes: nothing yet, the end of the body, or an error. */
  datatype ReadResult = GoesOn | AtEnd | ReadFails

  datatype ClientAction =
    | Receive(f: Frame)
    | Unroutable(ok: bool)
    | LocalFail(ok: bool)
    | LocalReply(status: int, headers: Headers, body: Bytes, ok: bool)
    | LocalStream(status: int, headers: Headers, body: Bytes, ok: bool)
    | ReadBlock(n: nat, result: ReadResult, ok: bool)
    | SendEnd(ok: bool)
    | DialFail(error: string, ok: bool)
    | DialOk
    | SendOpened(ok: bool)
    | LocalMessage(m: WsMessage, ok: bool)
    | LocalError(ok: bool)
    | DeferredClose

  predicate Streams(c: ClientSide) {
    c.origin.Some? && c.origin.value.Request? && AcceptsStream(c.origin.value.headers)
  }

  /** How much of the local body has been read and sent. */
  function Pos(s: Stream): nat {
    |Flatten(s.blocks)|
  }

  /** A read may return any number of bytes up to the buffer's size. It reports the end only there, and may fail
      anywhere. */
  predicate Readable(s: Stream, n: nat, result: ReadResult) {
    n <= READ_BUFFER && Pos(s) + n <= |s.body| && (result.AtEnd? ==> Pos(s) + n == |s.body|)
  }

  /** The call made to the local API for this id's request. */
  function LocalCall(c: ClientSide): Option<HttpCall> {
    if c.origin.Some? && c.origin.value.Request? then Some(CallOf(c.origin.value)) else None
  }

  function NextBlock(s: Stream, n: nat): Bytes
    requires Pos(s) + n <= |s.body|
  {
    s.body[Pos(s)..Pos(s) + n]
  }

  predicate ClientEnabled(c: ClientSide, id: Id, a: ClientAction) {
    match a
    case Receive(f) => HasId(f, id)
    case Unroutable(_) => c.task.Calling?
    case LocalFail(_) => c.task.Calling?
    case LocalReply(_, _, _, _) => c.task.Calling? && !Streams(c)
    case LocalStream(_, _, _, _) => c.task.Calling? && Streams(c)
    case ReadBlock(n, result, _) => c.task.Forwarding? && Readable(c.stream, n, result)
    case SendEnd(_) => c.task.Ending?
    case DialFail(_, _) => c.task.Dialing?
    case DialOk => c.task.Dialing?
    case SendOpened(_) => c.task.Joined?
    case LocalMessage(_, _) => c.task.Relaying?
    case LocalError(_) => c.task.Relaying?
    case DeferredClose => c.task.Hanging?
  }

  function ClientWrites(c: ClientSide, id: Id, a: ClientAction): (r: seq<Frame>)
    requires ClientEnabled(c, id, a)
    ensures |r| <= 1 && forall f :: f in r ==> HasId(f, id)
  {
    match a
    case Unroutable(ok) => if ok then [Response(id, 500, map[], "")] else []
    case LocalFail(ok) => if ok then [Response(id, 502, map[], "")] else []
    case LocalReply(status, headers, body, ok) => if ok then [Response(id, status, headers, Encode(body, Std))] else []
    case LocalStream(status, headers, _, ok) => if ok then [SSEStart(id, status, headers)] else []
    case ReadBlock(n, _, ok) => if n > 0 && ok then [SSEChunk(id, Encode(NextBlock(c.stream, n), Std))] else []
    case SendEnd(ok) => if ok then [SSEEnd(id)] else []
    case DialFail(error, ok) => if ok then [WSOpened(id, false, error)] else []
    case SendOpened(ok) => if ok then [WSOpened(id, true, "")] else []
    case LocalMessage(m, ok) => if ok then [ToFrame(id, m)] else []
    case LocalError(ok) => if ok then [WSClose(id)] else []
    case _ => []
  }

  function PassData(t: Table, f: DataFrame): Table {
    t.(socket := Pass(t.socket, f),
       passed := if t.socket.Live? && Decode(f.data, Std).ok then t.passed + [ToMessage(f)] else t.passed,
       missed := if t.socket.Missing? then t.missed + [f] else t.missed,
       early := t.early || !t.stored)
  }

  function CloseEntry(t: Table): Table {
    t.(socket := Missing, closes := if t.socket.Live? then t.closes + 1 else t.closes)
  }

  /** The dispatcher's share: start a goroutine, pass data on, or close. */
  function Dispatch(c: ClientSide, f: Frame): ClientSide {
    match f
    case Request(_, _, _, _, _) => if c.task.Absent? then c.(task := Calling, origin := Some(f)) else c
    case WSOpen(_, _, _) => if c.task.Absent? then c.(task := Dialing, origin := Some(f)) else c
    case WSData(_, _, _) => c.(table := PassData(c.table, f))
    case WSClose(_) => c.(table := CloseEntry(c.table))
    case _ => c
  }

  function Work(c: ClientSide, id: Id, a: ClientAction): ClientSide
    requires ClientEnabled(c, id, a)
  {
    var st := c.stream;
    match a
    case Receive(f) => Dispatch(c, f).(got := c.got + [f])
    case Unroutable(_) => c.(task := Done, reply := Reply(500, []))
    case LocalFail(_) => c.(task := Done, called := LocalCall(c), reply := Reply(502, []))
    case LocalReply(status, _, body, _) => c.(task := Done, called := LocalCall(c), reply := Reply(status, body))
    case LocalStream(status, _, body, ok) =>
      c.(task := if ok then Forwarding else Done, called := LocalCall(c),
         stream := Stream(status, body, [], false, false))
    case ReadBlock(n, result, ok) =>
      if n > 0 && !ok then c.(task := Done)
      else
        var read := if n > 0 then st.(blocks := st.blocks + [NextBlock(st, n)]) else st;
        if result.GoesOn? then c.(stream := read)
        else c.(task := Ending, stream := read.(failed := result.ReadFails?))
    case SendEnd(ok) => c.(task := Done, stream := st.(ended := ok))
    case DialFail(_, _) => c.(task := Done)
    case DialOk => c.(task := Joined, table := c.table.(socket := Live([]), stored := true))
    case SendOpened(_) => c.(task := Relaying)
    case LocalMessage(m, _) => c.(heard := c.heard + [m])
    case LocalError(_) => c.(task := Hanging)
    case DeferredClose => c.(task := Done, table := CloseEntry(c.table))
  }

  function ClientNext(c: ClientSide, id: Id, a: ClientAction): ClientSide
    requires ClientEnabled(c, id, a)
  {
    Work(c, id, a).(sent := c.sent + ClientWrites(c, id, a))
  }

  // ---- Streams: the frames written open the stream, carry the blocks in order, and perhaps end it ----

  function StreamScript(start: Frame, id: Id, blocks: seq<Bytes>, ended: bool): seq<Frame> {
    [start] + ChunkFrames(id, blocks) + (if ended then [SSEEnd(id)] else [])
  }

  ghost predicate StreamOk(s: Stream, sent: seq<Frame>, id: Id) {
    && sent != [] && sent[0].SSEStart? && sent[0].id == id && sent[0].status == s.status
    && sent == StreamScript(sent[0], id, s.blocks, s.ended)
    && Flatten(s.blocks) <= s.body
    && (forall i :: 0 <= i < |s.blocks| ==> 0 < |s.blocks[i]| <= READ_BUFFER)
    && (s.ended ==> LeftOff(s))
  }

  /** Forwarding is over: the blocks are the whole body, unless the last read failed. */
  ghost predicate LeftOff(s: Stream) {
    !s.failed ==> Flatten(s.blocks) == s.body
  }

  /** A read failed with part of the body still to come. */
  predicate CutShort(s: Stream) {
    s.failed && Pos(s) < |s.body|
  }

  lemma BlockSent(s: Stream, sent: seq<Frame>, id: Id, n: nat)
    requires StreamOk(s, sent, id) && Readable(s, n, GoesOn) && 0 < n && !s.ended
    ensures
      var b := NextBlock(s, n);
      var s' := s.(blocks := s.blocks + [b]);
      StreamOk(s', sent + [SSEChunk(id, Encode(b, Std))], id)
      && Flatten(s'.blocks) == s.body[..Pos(s) + n]
  {
    hide Encode, LeftOff;
    var b := NextBlock(s, n);
    FlattenSnoc(s.blocks, b);
    ChunkFramesSnoc(id, s.blocks, b);
    hide ChunkFrames, Flatten;
    assert StreamScript(sent[0], id, s.blocks + [b], false)
        == StreamScript(sent[0], id, s.blocks, false) + [SSEChunk(id, Encode(b, Std))];
    assert Flatten(s.blocks) + b == s.body[..Pos(s) + n];
  }

  lemma EndSent(s: Stream, sent: seq<Frame>, id: Id)
    requires StreamOk(s, sent, id) && !s.ended && LeftOff(s)
    ensures StreamOk(s.(ended := true), sent + [SSEEnd(id)], id)
  {
    assert StreamScript(sent[0], id, s.blocks, true) == StreamScript(sent[0], id, s.blocks, false) + [SSEEnd(id)];
  }

  // ---- Replies: at most one response frame, carrying what the local API answered ----

  ghost predicate ReplyOk(reply: Reply, sent: seq<Frame>, id: Id) {
    && |sent| <= 1
    && forall f :: f in sent ==>
         f.Response? && f.id == id && reply.Reply? && f.status == reply.status && f.body == Encode(reply.body, Std)
  }

  // ---- Sockets ----

  ghost predicate Decodable(fs: seq<DataFrame>) {
    forall f :: f in fs ==> Decode(f.data, Std).ok
  }

  /** From the moment it is stored until it is closed, the entry passes on every message, and it closes once. */
  ghost predicate TableOk(t: Table, data: seq<DataFrame>) {
    && (!t.stored ==> t.socket.Missing? && t.passed == [] && t.closes == 0)
    && (t.socket.Live? ==> t.socket.written == t.passed && t.closes == 0)
    && (t.stored && t.socket.Missing? ==> t.closes == 1)
    && (!t.early ==>
          && (t.missed != [] ==> t.stored && t.socket.Missing?)
          && (!t.stored ==> data == [])
          && (Decodable(data) ==> t.passed + Messages(t.missed) == Messages(data)))
  }

  lemma TableTakesData(t: Table, data: seq<DataFrame>, f: DataFrame)
    requires TableOk(t, data)
    ensures TableOk(PassData(t, f), data + [f])
  {
    hide Decode, ToMessage;
    if !t.early && t.stored && Decodable(data + [f]) {
      assert f in data + [f] && Decode(f.data, Std).ok;
      assert forall g :: g in data ==> g in data + [f];
      MessagesSnoc(data, f);
      if t.socket.Live? {
        assert t.missed == [] && Messages(t.missed) == [];
        assert t.passed + [ToMessage(f)] + [] == t.passed + [] + [ToMessage(f)];
      } else {
        MessagesSnoc(t.missed, f);
        assert t.passed + (Messages(t.missed) + [ToMessage(f)]) == t.passed + Messages(t.missed) + [ToMessage(f)];
      }
    }
    hide Messages, Decodable;
  }

  lemma TableCloses(t: Table, data: seq<DataFrame>)
    requires TableOk(t, data)
    ensures TableOk(CloseEntry(t), data)
  {
  }

  /** What the goroutine has said about its socket: success only once stored, and only messages it heard. */
  ghost predicate SocketOk(sent: seq<Frame>, stored: bool, heard: seq<WsMessage>) {
    && (forall f :: f in sent ==> f.WSOpened? || f.WSData? || f.WSClose?)
    && (HasOpened(sent) ==> stored)
    && Subseq(Messages(DataOf(sent)), heard)
  }

  lemma SocketSays(sent: seq<Frame>, stored: bool, heard: seq<WsMessage>, f: Frame)
    requires SocketOk(sent, stored, heard) && (f.WSClose? || (f.WSOpened? && (f.success ==> stored)))
    ensures SocketOk(sent + [f], stored, heard)
  {
    DataSnoc(sent, f);
  }

  lemma SocketHears(sent: seq<Frame>, stored: bool, heard: seq<WsMessage>, id: Id, m: WsMessage)
    requires SocketOk(sent, stored, heard)
    ensures SocketOk(sent, stored, heard + [m])
    ensures SocketOk(sent + [ToFrame(id, m)], stored, heard + [m])
  {
    SubseqSkip(Messages(DataOf(sent)), heard, m);
    DataSnoc(sent, ToFrame(id, m));
    MessagesSnoc(DataOf(sent), ToFrame(id, m));
    FrameRoundTrip(id, m);
    SubseqSnoc(Messages(DataOf(sent)), heard, m);
  }

  // ---- The workspace end as a whole ----

  ghost predicate RequestInv(c: ClientSide, id: Id) {
    && !c.table.stored
    && (c.task.Calling? || c.task.Forwarding? || c.task.Ending? || c.task.Done?)
    && (c.task.Calling? ==> c.sent == [] && c.reply.NoReply?)
    && (c.task.Forwarding? || c.task.Ending? ==>
          Streams(c) && c.reply.NoReply? && StreamOk(c.stream, c.sent, id) && !c.stream.ended)
    && (c.task.Ending? ==> LeftOff(c.stream))
    && ((Streams(c) && c.reply.NoReply? && StreamOk(c.stream, c.sent, id))
        || (ReplyOk(c.reply, c.sent, id) && c.stream.blocks == []))
  }

  ghost predicate SocketInv(c: ClientSide) {
    && (c.task.Dialing? || c.task.Joined? || c.task.Relaying? || c.task.Hanging? || c.task.Done?)
    && (c.task.Dialing? ==> !c.table.stored)
    && (c.task.Joined? || c.task.Relaying? ==> c.table.stored)
    && c.stream.blocks == []
    && SocketOk(c.sent, c.table.stored, c.heard)
  }

  ghost predicate ClientInv(c: ClientSide, id: Id) {
    && TableOk(c.table, DataOf(c.got))
    && match c.origin
       case None =>
         c.task.Absent? && c.sent == [] && c.reply.NoReply? && !c.table.stored && c.stream.blocks == [] && c.heard == []
       case Some(o) =>
         if o.Request? then RequestInv(c, id) else o.WSOpen? && SocketInv(c)
  }

  lemma TableReceives(c: ClientSide, f: Frame)
    requires TableOk(c.table, DataOf(c.got))
    ensures TableOk(Dispatch(c, f).table, DataOf(c.got + [f]))
  {
    hide Decode, Pass, TableOk, PassData, CloseEntry;
    DataSnoc(c.got, f);
    if f.WSData? {
      TableTakesData(c.table, DataOf(c.got), f);
    } else if f.WSClose? {
      TableCloses(c.table, DataOf(c.got));
    }
  }

  lemma NothingSaid(id: Id)
    ensures SocketOk([], false, []) && ReplyOk(NoReply, [], id)
  {
  }

  lemma FreshReceives(c: ClientSide, id: Id, f: Frame)
    requires ClientInv(c, id) && HasId(f, id) && c.origin.None?
    ensures ClientInv(ClientNext(c, id, Receive(f)), id)
  {
    hide Decode, Pass, TableOk, StreamOk, ReplyOk, SocketOk, AcceptsStream, DataOf;
    TableReceives(c, f);
    NothingSaid(id);
    assert c.sent + [] == [];
  }

  lemma ReceiveWritesNothing(c: ClientSide, id: Id, f: Frame)
    requires ClientEnabled(c, id, Receive(f))
    ensures ClientWrites(c, id, Receive(f)) == []
  {
  }

  lemma BusyReceives(c: ClientSide, id: Id, f: Frame)
    requires ClientInv(c, id) && HasId(f, id) && c.origin.Some?
    ensures ClientInv(ClientNext(c, id, Receive(f)), id)
  {
    hide Decode, Pass, TableOk, StreamOk, ReplyOk, SocketOk, AcceptsStream, LeftOff, ClientWrites;
    TableReceives(c, f);
    assert c.sent + [] == c.sent;
    assert ClientWrites(c, id, Receive(f)) == [] by { ReceiveWritesNothing(c, id, f); }
    assert ClientNext(c, id, Receive(f)) == c.(table := Dispatch(c, f).table, got := c.got + [f]);
    assert Dispatch(c, f).table.stored == c.table.stored;
    hide Dispatch, ClientNext;
  }

  lemma RequestWorks(c: ClientSide, id: Id, a: ClientAction)
    requires ClientInv(c, id) && ClientEnabled(c, id, a)
    requires a.Unroutable? || a.LocalFail? || a.LocalReply? || a.LocalStream?
    ensures ClientInv(ClientNext(c, id, a), id)
  {
    hide Decode, TableOk, SocketOk;
    var w := ClientWrites(c, id, a);
    assert c.sent + w == w;
  }

  /** The stream after one read: the block, if any, is appended; after the last one it may be incomplete. */
  lemma BlockRead(s: Stream, sent: seq<Frame>, id: Id, n: nat, result: ReadResult)
    requires StreamOk(s, sent, id) && Readable(s, n, result) && !s.ended
    ensures
      var written := if n > 0 then [SSEChunk(id, Encode(NextBlock(s, n), Std))] else [];
      var read := if n > 0 then s.(blocks := s.blocks + [NextBlock(s, n)]) else s;
      var t := if result.GoesOn? then read else read.(failed := result.ReadFails?);
      StreamOk(t, sent + written, id) && !t.ended && (!result.GoesOn? ==> LeftOff(t))
  {
    hide Encode;
    if n > 0 {
      BlockSent(s, sent, id, n);
    } else {
      assert sent + [] == sent;
    }
    hide StreamScript;
  }

  lemma ReadWorks(c: ClientSide, id: Id, a: ClientAction)
    requires ClientInv(c, id) && ClientEnabled(c, id, a) && a.ReadBlock?
    ensures ClientInv(ClientNext(c, id, a), id)
  {
    BlockRead(c.stream, c.sent, id, a.n, a.result);
    assert c.sent + [] == c.sent;
    hide StreamOk, TableOk, ReplyOk, SocketOk, LeftOff, Encode, DataOf, AcceptsStream;
  }

  lemma EndWorks(c: ClientSide, id: Id, a: ClientAction)
    requires ClientInv(c, id) && ClientEnabled(c, id, a) && a.SendEnd?
    ensures ClientInv(ClientNext(c, id, a), id)
  {
    EndSent(c.stream, c.sent, id);
    assert c.sent + [] == c.sent;
    hide StreamOk, TableOk, ReplyOk, SocketOk, LeftOff, Encode, DataOf, AcceptsStream;
  }

  lemma SocketWorks(c: ClientSide, id: Id, a: ClientAction)
    requires ClientInv(c, id) && ClientEnabled(c, id, a)
    requires a.DialFail? || a.DialOk? || a.SendOpened? || a.LocalMessage? || a.LocalError? || a.DeferredClose?
    ensures ClientInv(ClientNext(c, id, a), id)
  {
    var w := ClientWrites(c, id, a);
    assert c.sent + [] == c.sent;
    if a.LocalMessage? {
      SocketHears(c.sent, c.table.stored, c.heard, id, a.m);
    } else if w != [] {
      assert w == [w[0]];
      SocketSays(c.sent, c.table.stored, c.heard, w[0]);
    }
  }

  /** Every step of the workspace end keeps its promises. A second opening frame under a known id is passed over
      here; none ever comes over a tunnel. */
  lemma ClientStep(c: ClientSide, id: Id, a: ClientAction)
    requires ClientInv(c, id) && ClientEnabled(c, id, a)
    ensures ClientInv(ClientNext(c, id, a), id)
  {
    match a
    case Receive(f) => if c.origin.None? { FreshReceives(c, id, f); } else { BusyReceives(c, id, f); }
    case Unroutable(_) => RequestWorks(c, id, a);
    case LocalFail(_) => RequestWorks(c, id, a);
    case LocalReply(_, _, _, _) => RequestWorks(c, id, a);
    case LocalStream(_, _, _, _) => RequestWorks(c, id, a);
    case ReadBlock(_, _, _) => ReadWorks(c, id, a);
    case SendEnd(_) => EndWorks(c, id, a);
    case _ => SocketWorks(c, id, a);
  }
}

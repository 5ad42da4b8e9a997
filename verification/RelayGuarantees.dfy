/** What a public client can rely on, for every run of a tunnel and every request in it. */
module RelayGuarantees {
  import opened Sequences
  import opened Base64
  import opened Protocol
  import opened RelayServer
  import opened RelayHandlers
  import opened RelayClient
  import opened Tunnel

  // ---- What the workspace end wrote, by kind of frame ----

  lemma ScriptChunks(start: Frame, id: Id, blocks: seq<Bytes>, ended: bool)
    requires start.SSEStart?
    ensures ChunksOf(StreamScript(start, id, blocks, ended)) == ChunkFrames(id, blocks)
    ensures DataOf(StreamScript(start, id, blocks, ended)) == []
  {
    ScriptWithoutEnd(start, id, blocks);
    var script := [start] + ChunkFrames(id, blocks);
    ChunksSnoc(script, SSEEnd(id));
    DataSnoc(script, SSEEnd(id));
    assert StreamScript(start, id, blocks, ended) == if ended then script + [SSEEnd(id)] else script;
  }

  lemma {:induction false} ScriptWithoutEnd(start: Frame, id: Id, blocks: seq<Bytes>)
    requires start.SSEStart?
    ensures ChunksOf([start] + ChunkFrames(id, blocks)) == ChunkFrames(id, blocks)
    ensures DataOf([start] + ChunkFrames(id, blocks)) == []
    decreases |blocks|
  {
    hide Encode;
    if blocks == [] {
      assert [start] + ChunkFrames(id, blocks) == [] + [start];
      ChunksSnoc([], start);
      DataSnoc([], start);
    } else {
      var k := |blocks| - 1;
      ScriptWithoutEnd(start, id, blocks[..k]);
      var f := SSEChunk(id, Encode(blocks[k], Std));
      var init := [start] + ChunkFrames(id, blocks[..k]);
      assert [start] + ChunkFrames(id, blocks) == init + [f];
      ChunksSnoc(init, f);
      DataSnoc(init, f);
    }
  }

  lemma {:induction false} NoChunks(fs: seq<Frame>)
    requires forall f :: f in fs ==> !f.SSEChunk?
    ensures ChunksOf(fs) == []
    decreases |fs|
  {
    if fs != [] {
      NoChunks(fs[..|fs| - 1]);
    }
  }

  lemma {:induction false} NoData(fs: seq<Frame>)
    requires forall f :: f in fs ==> !f.WSData?
    ensures DataOf(fs) == []
    decreases |fs|
  {
    if fs != [] {
      NoData(fs[..|fs| - 1]);
    }
  }

  lemma ScriptFrames(start: Frame, id: Id, blocks: seq<Bytes>, ended: bool)
    requires start.SSEStart?
    ensures forall f :: f in StreamScript(start, id, blocks, ended) ==> f.SSEStart? || f.SSEChunk? || f.SSEEnd?
  {
  }

  /** Chunk frames on the way up are the blocks the client has sent, whatever the request was. */
  lemma ClientChunks(c: ClientSide, id: Id)
    requires ClientInv(c, id)
    ensures ChunksOf(c.sent) == ChunkFrames(id, c.stream.blocks)
  {
    hide TableOk, Encode, StreamScript;
    if c.origin.Some? && c.origin.value.Request? && StreamOk(c.stream, c.sent, id) {
      ScriptChunks(c.sent[0], id, c.stream.blocks, c.stream.ended);
    } else {
      NoChunks(c.sent);
    }
  }

  lemma ClientData(c: ClientSide, id: Id)
    requires ClientInv(c, id)
    ensures Subseq(Messages(DataOf(c.sent)), c.heard)
  {
    hide TableOk, Encode, StreamScript;
    if c.origin.Some? && c.origin.value.Request? {
      if StreamOk(c.stream, c.sent, id) {
        ScriptChunks(c.sent[0], id, c.stream.blocks, c.stream.ended);
      } else {
        NoData(c.sent);
      }
    }
  }

  lemma ClientResponses(c: ClientSide, id: Id, f: Frame)
    requires ClientInv(c, id) && f in c.sent && f.Response?
    ensures c.reply == Reply(f.status, Decode(f.body, Std).data)
  {
    hide TableOk, Decode, Encode, StreamScript;
    if StreamOk(c.stream, c.sent, id) {
      ScriptFrames(c.sent[0], id, c.stream.blocks, c.stream.ended);
    }
    RoundTrip(c.reply.body, Std);
  }

  // ---- HTTP ----

  /** A public request is answered at most once, and a relayed answer is what the local API replied to it. */
  lemma HttpEndToEnd(es: seq<Event>, id: Id)
    requires Run(es) && ServerOf(After(es), id).handler.Http?
    ensures
      var answers, reply := ServerOf(After(es), id).handler.answers, ClientOf(After(es), id).reply;
      |answers| <= 1 && forall r :: r in answers && r.Relayed? ==> reply == Reply(r.status, r.body)
  {
    hide Decode, TableOk, SseOk, WsFlowOk, WsPumpOk, SseAnswersOk;
    ReachableInv(es);
    var v := See(After(es), id);
    assert ViewInv(v, id);
    hide ClientInv;
    forall r | r in v.server.handler.answers && r.Relayed?
      ensures v.client.reply == Reply(r.status, r.body)
    {
      assert r.source in v.client.sent;
      ClientResponses(v.client, id, r.source);
    }
  }

  // ---- Server-sent events ----

  /** Blocks of a prefix of the chunk frames are the matching prefix of the blocks. */
  lemma {:induction false} BlocksOfPrefix(cs: seq<ChunkFrame>, id: Id, blocks: seq<Bytes>)
    requires cs <= ChunkFrames(id, blocks)
    ensures |cs| <= |blocks| && Blocks(cs) == blocks[..|cs|]
    decreases |blocks|
  {
    ChunkFramesLength(id, blocks);
    if |cs| == |blocks| {
      BlocksOfChunkFrames(id, blocks);
      assert cs == ChunkFrames(id, blocks);
    } else {
      var k := |blocks| - 1;
      ChunkFramesLength(id, blocks[..k]);
      assert ChunkFrames(id, blocks)[..k] == ChunkFrames(id, blocks[..k]);
      BlocksOfPrefix(cs, id, blocks[..k]);
    }
  }

  /** The blocks written to the public client are, in order, blocks the workspace read; if no chunk was
      ever refused by a full channel, the bytes written are a prefix of the local body. */
  lemma SseInOrder(es: seq<Event>, id: Id)
    requires Run(es) && ServerOf(After(es), id).handler.Sse?
    ensures
      var s, stream := ServerOf(After(es), id), ClientOf(After(es), id).stream;
      && Subseq(s.handler.writes, stream.blocks)
      && Flatten(stream.blocks) <= stream.body
      && (forall i :: 0 <= i < |stream.blocks| ==> 0 < |stream.blocks[i]| <= READ_BUFFER)
      && (ChunksOf(s.refused) == [] ==> Flatten(s.handler.writes) <= stream.body)
  {
    hide Decode, TableOk, HttpOk, WsFlowOk, WsPumpOk, SseAnswersOk, Encode, StreamScript;
    ReachableInv(es);
    var v := See(After(es), id);
    assert ViewInv(v, id);
    var s, c := v.server, v.client;
    var blocks := c.stream.blocks;
    BlocksWithinBody(c, id);
    hide ClientInv;
    ClientChunks(c, id);
    assert s.got <= c.sent;
    ChunksPrefix(s.got, c.sent);
    var frames := ChunkFrames(id, blocks);
    assert frames == ChunksOf(s.got) + frames[|ChunksOf(s.got)|..];
    SubseqExtend(s.handler.taken, ChunksOf(s.got), frames[|ChunksOf(s.got)|..]);
    BlocksSubseq(s.handler.taken, id, blocks);
    if ChunksOf(s.refused) == [] {
      BlocksOfPrefix(s.handler.taken, id, blocks);
      FlattenPrefix(s.handler.writes, blocks);
    }
  }

  /** The stream is opened for the public client with the status the local API answered. */
  lemma SseStatus(es: seq<Event>, id: Id, r: Answer)
    requires Run(es) && ServerOf(After(es), id).handler.Sse?
    requires r in ServerOf(After(es), id).handler.answers && r.StreamOpened?
    ensures r.status == ClientOf(After(es), id).stream.status
  {
    hide Decode, TableOk, HttpOk, SseOk, WsFlowOk, WsPumpOk, Encode;
    ReachableInv(es);
    var v := See(After(es), id);
    assert ViewInv(v, id);
    var c := v.client;
    var f :| f in v.server.got && f.SSEStart? && f.status == r.status;
    assert f in c.sent;
    assert StreamOk(c.stream, c.sent, id);
    assert c.sent == [c.sent[0]] + ChunkFrames(id, c.stream.blocks) + (if c.stream.ended then [SSEEnd(id)] else []);
  }

  lemma BlocksWithinBody(c: ClientSide, id: Id)
    requires ClientInv(c, id)
    ensures Flatten(c.stream.blocks) <= c.stream.body
    ensures forall i :: 0 <= i < |c.stream.blocks| ==> 0 < |c.stream.blocks[i]| <= READ_BUFFER
  {
    hide TableOk, StreamScript;
  }

  /** Once `sse_end` is among the frames, nothing written is missing from them, and the chunks make up the whole
      local body unless a read failed with some of it still to come: the client ends such a stream like any other. */
  lemma EndMeansAll(c: ClientSide, id: Id, got: seq<Frame>)
    requires ClientInv(c, id) && got <= c.sent && SSEEnd(id) in got
    ensures got == c.sent && (Flatten(c.stream.blocks) == c.stream.body <==> !CutShort(c.stream))
  {
    hide TableOk, Encode;
    assert SSEEnd(id) in c.sent;
    assert c.origin.Some? && c.origin.value.Request? && StreamOk(c.stream, c.sent, id);
    var script := [c.sent[0]] + ChunkFrames(id, c.stream.blocks);
    assert SSEEnd(id) !in script;
    assert c.sent == script + [SSEEnd(id)];
    assert |got| <= |script| ==> forall f :: f in got ==> f in script;
  }

  /** When the handler leaves its loop by `end`, the client has the whole body exactly when no chunk was refused by
      a full channel, none was still queued, and no read failed with some of the body still to come. */
  lemma SseEndIsWhole(es: seq<Event>, id: Id)
    requires Run(es) && ServerOf(After(es), id).handler.Sse?
    requires ServerOf(After(es), id).handler.ending.EndTaken?
    ensures
      var h, stream := ServerOf(After(es), id).handler, ClientOf(After(es), id).stream;
      Flatten(h.writes) == stream.body <==>
        ChunksOf(h.ending.refusedThen) == [] && h.ending.left == [] && !CutShort(stream)
  {
    hide Decode, TableOk, HttpOk, WsFlowOk, WsPumpOk, SseAnswersOk, Encode, StreamScript;
    ReachableInv(es);
    var v := See(After(es), id);
    assert ViewInv(v, id);
    var h, c := v.server.handler, v.client;
    var blocks := c.stream.blocks;
    BlocksWithinBody(c, id);
    hide ClientInv;
    assert h.ending.gotThen <= v.server.got <= c.sent;
    EndMeansAll(c, id, h.ending.gotThen);
    ClientChunks(c, id);
    ChunkFramesLength(id, blocks);
    SubseqPrefix(h.taken + h.ending.left, |h.taken|, ChunkFrames(id, blocks));
    assert (h.taken + h.ending.left)[..|h.taken|] == h.taken;
    BlocksSubseq(h.taken, id, blocks);
    FlattenSubseqShorter(h.writes, blocks);
  }

  /** A local call that fails before the stream opens is never seen as a failure by the public client:
      the reply frame finds no listener, nothing is written, and only the timeout can answer. */
  lemma SseFailureTimesOut(es: seq<Event>, id: Id)
    requires Run(es) && ServerOf(After(es), id).handler.Sse? && ClientOf(After(es), id).reply.Reply?
    ensures
      var h := ServerOf(After(es), id).handler;
      h.writes == [] && !h.phase.Streaming? && forall r :: r in h.answers ==> r.GatewayTimeout?
  {
    hide Decode, TableOk, HttpOk, WsFlowOk, WsPumpOk, Encode, StreamScript;
    ReachableInv(es);
    var v := See(After(es), id);
    assert ViewInv(v, id);
    var s, c := v.server, v.client;
    assert forall f :: f in c.sent ==> !f.SSEStart?;
    assert forall f :: f in s.got ==> f in c.sent;
    assert s.sent != [] by {
      OriginWasReceived(es, id);
    }
  }

  /** A goroutine exists only for a frame received, and calls the local API only as that frame asks. */
  ghost predicate OriginOk(c: ClientSide) {
    && (c.origin.Some? ==> c.origin.value in c.got && !c.task.Absent?)
    && (c.called.Some? ==> c.origin.Some? && c.origin.value.Request? && c.called.value == CallOf(c.origin.value))
  }

  lemma OriginStep(c: ClientSide, id: Id, a: ClientAction)
    requires OriginOk(c) && ClientEnabled(c, id, a)
    ensures OriginOk(ClientNext(c, id, a))
  {
    hide Decode, CallOf, ClientWrites, PassData, CloseEntry, NextBlock;
    if a.Receive? {
      assert forall f :: f in c.got ==> f in c.got + [a.f];
      assert a.f in c.got + [a.f];
    }
  }

  lemma {:induction false} OriginWasReceived(es: seq<Event>, id: Id)
    requires Run(es)
    ensures OriginOk(ClientOf(After(es), id))
    decreases |es|
  {
    if es != [] {
      var n := |es| - 1;
      OriginWasReceived(es[..n], id);
      if es[n].ClientDoes? && es[n].id == id {
        OriginStep(ClientOf(After(es[..n]), id), id, es[n].ca);
      }
      hide OriginOk, ServerNext, ServerEnabled, ClientNext, ClientEnabled, ServerWrites, ClientWrites;
    }
  }

  /** A frame that opens a request or a socket is the first the workspace ever gets under its id. */
  lemma OpeningComesFirst(es: seq<Event>, id: Id)
    requires Run(es) && See(After(es), id).down != []
    requires See(After(es), id).down[0].Request? || See(After(es), id).down[0].WSOpen?
    ensures ClientOf(After(es), id).task.Absent?
  {
    hide Decode, TableOk, SseAnswersOk, WsFlowOk, Encode, SlotsGenuine;
    ReachableInv(es);
    OriginWasReceived(es, id);
    var v := See(After(es), id);
    assert ViewInv(v, id);
    var s, c := v.server, v.client;
    if c.got != [] {
      assert s.sent[|c.got|] == v.down[0];
      if s.handler.Ws? {
        ScriptOpensOnce(s.handler.first, id, s.handler.heard[..s.handler.forwarded], s.handler.hungUp, |c.got|);
      }
    }
  }

  // ---- The call ----

  /** The server takes up the public request `call` under `id`. */
  predicate TakesUp(e: Event, id: Id, call: HttpCall) {
    e == ServerDoes(id, BeginHttp(call)) || e == ServerDoes(id, BeginSse(call))
  }

  lemma TookUpStep(s: ServerSide, id: Id, a: ServerAction, first: Frame)
    requires ServerEnabled(s, id, a) && (s.handler.Http? || s.handler.Sse?) && s.handler.first == first
    ensures
      var h := ServerNext(s, id, a).handler;
      (h.Http? || h.Sse?) && h.first == first
  {
    hide Decode, Deliver;
  }

  lemma {:induction false} TookUp(es: seq<Event>, id: Id, call: HttpCall, k: nat)
    requires Run(es) && k < |es| && TakesUp(es[k], id, call)
    ensures
      var h := ServerOf(After(es), id).handler;
      (h.Http? || h.Sse?) && h.first == ToRequest(id, call)
    decreases |es|
  {
    hide Encode, Decode;
    var n := |es| - 1;
    if k < n {
      TookUp(es[..n], id, call, k);
      if es[n].ServerDoes? && es[n].id == id {
        TookUpStep(ServerOf(After(es[..n]), id), id, es[n].sa, ToRequest(id, call));
      }
      hide ServerNext, ServerEnabled, ClientNext, ClientEnabled, ServerWrites, ClientWrites, ToRequest;
    }
  }

  /** Whenever the local API is called for a public request, the call has that request's method, path, headers
      and body, byte for byte. */
  lemma CallEndToEnd(es: seq<Event>, id: Id, call: HttpCall, k: nat)
    requires Run(es) && k < |es| && TakesUp(es[k], id, call)
    ensures ClientOf(After(es), id).called.Some? ==> ClientOf(After(es), id).called.value == call
  {
    hide Decode, CallOf, ToRequest, TableOk, SseAnswersOk, WsFlowOk, WsPumpOk, SlotsGenuine, ClientInv, Encode;
    ReachableInv(es);
    var v := See(After(es), id);
    assert ViewInv(v, id);
    OriginWasReceived(es, id);
    TookUp(es, id, call, k);
    CallRoundTrip(id, call);
    var s, c := v.server, v.client;
    if c.called.Some? {
      assert c.origin.value in s.sent;
      assert s.sent == [s.handler.first];
    }
  }

  // ---- Websockets ----

  /** Public to local: what reaches the local socket is a prefix of what the public socket said, a data
      frame misses its entry only after that entry was closed, and the entry closes at most one socket.
      Local to public: what the public socket is told is, in order, part of what the local one said. */
  lemma WsInOrder(es: seq<Event>, id: Id)
    requires Run(es) && ServerOf(After(es), id).handler.Ws?
    ensures
      var h, c := ServerOf(After(es), id).handler, ClientOf(After(es), id);
      && c.table.passed <= h.heard
      && (c.table.missed != [] ==> c.table.stored && c.table.socket.Missing? && c.table.closes == 1)
      && c.table.closes <= 1
      && Subseq(h.told, c.heard)
  {
    hide Decode, HttpOk, SseOk, SseAnswersOk, Encode, WsScript, RequestInv, SocketInv;
    ReachableInv(es);
    var v := See(After(es), id);
    assert ViewInv(v, id);
    PassedIsPrefix(v, id);
    ToldIsSubseq(v, id);
  }

  lemma PassedIsPrefix(v: View, id: Id)
    requires ViewInv(v, id) && v.server.handler.Ws?
    ensures v.client.table.passed <= v.server.handler.heard
  {
    hide Decode, HttpOk, SseOk, SseAnswersOk, WsFlowOk, Encode, WsScript, RequestInv, SocketInv;
    var s, c, h := v.server, v.client, v.server.handler;
    assert c.got <= s.sent;
    if s.sent != [] {
      var ms := h.heard[..h.forwarded];
      ScriptCarries(h.first, id, ms, h.hungUp);
      DataPrefix(c.got, s.sent);
      assert Decodable(DataOf(c.got));
      MessagesPrefix(DataOf(c.got), DataOf(s.sent));
      assert c.table.passed <= Messages(DataOf(c.got)) <= ms <= h.heard;
    } else {
      assert c.got == [] && DataOf(c.got) == [];
      assert c.table.passed + Messages(c.table.missed) == [];
    }
  }

  lemma ToldIsSubseq(v: View, id: Id)
    requires ViewInv(v, id) && v.server.handler.Ws?
    ensures Subseq(v.server.handler.told, v.client.heard)
  {
    hide Decode, HttpOk, SseOk, SseAnswersOk, WsPumpOk, TableOk, Encode;
    var s, c, h := v.server, v.client, v.server.handler;
    assert s.got <= c.sent;
    DataPrefix(s.got, c.sent);
    var later := DataOf(c.sent)[|DataOf(s.got)|..];
    assert DataOf(c.sent) == DataOf(s.got) + later;
    SubseqExtend(h.relayed, DataOf(s.got), later);
    MessagesSubseq(h.relayed, DataOf(c.sent));
    ClientData(c, id);
    SubseqTransitive(h.told, Messages(DataOf(c.sent)), c.heard);
  }

  // ---- The end of a stream can overtake its data ----

  lemma ServerExtends(es: seq<Event>, id: Id, a: ServerAction) returns (more: seq<Event>)
    requires Run(es) && ServerEnabled(ServerOf(After(es), id), id, a)
    requires a.Read? ==> After(es).up != [] && After(es).up[0] == a.f
    ensures Run(more)
    ensures ServerOf(After(more), id) == ServerNext(ServerOf(After(es), id), id, a)
    ensures ClientOf(After(more), id) == ClientOf(After(es), id)
    ensures After(more).down == After(es).down + ServerWrites(ServerOf(After(es), id), id, a)
    ensures After(more).up == if a.Read? then After(es).up[1..] else After(es).up
  {
    more := es + [ServerDoes(id, a)];
    assert more[..|es|] == es;
    hide ServerNext, ServerWrites, ServerEnabled;
  }

  lemma ClientExtends(es: seq<Event>, id: Id, a: ClientAction) returns (more: seq<Event>)
    requires Run(es) && ClientEnabled(ClientOf(After(es), id), id, a)
    requires a.Receive? ==> After(es).down != [] && After(es).down[0] == a.f
    ensures Run(more)
    ensures ClientOf(After(more), id) == ClientNext(ClientOf(After(es), id), id, a)
    ensures ServerOf(After(more), id) == ServerOf(After(es), id)
    ensures After(more).up == After(es).up + ClientWrites(ClientOf(After(es), id), id, a)
    ensures After(more).down == if a.Receive? then After(es).down[1..] else After(es).down
  {
    more := es + [ClientDoes(id, a)];
    assert more[..|es|] == es;
    hide ClientNext, ClientWrites, ClientEnabled;
  }

  const ONE: Id := "req_1"
  const ASK := HttpCall("GET", "/events", map["Accept" := ["text/event-stream"]], [])
  const FIRST := ToRequest(ONE, ASK)
  const CHUNK: ChunkFrame := SSEChunk(ONE, Encode([65], Std))
  const UPWARD: seq<Frame> := [SSEStart(ONE, 200, map[]), CHUNK, SSEEnd(ONE)]
  const WAITING := ServerSide(Slots(None, Some([]), Some([]), Some(0), None, None, None),
                              Sse(FIRST, Waiting, [], [], [], StillOpen), [], [FIRST], [])

  /** The server's side after each of its steps, from the request written to `end` taken. */
  function Progress(k: nat): ServerSide {
    var slots := WAITING.slots;
    if k == 0 then WAITING
    else if k == 1 then WAITING.(slots := slots.(sseStart := Some([UPWARD[0]])), got := UPWARD[..1])
    else if k == 2 then
      WAITING.(slots := slots.(sseStart := Some([UPWARD[0]]), sseChunk := Some([CHUNK])), got := UPWARD[..2])
    else if k == 3 then
      WAITING.(slots := slots.(sseStart := Some([UPWARD[0]]), sseChunk := Some([CHUNK]), sseEnd := Some(1)),
               got := UPWARD)
    else if k == 4 then
      WAITING.(slots := slots.(sseChunk := Some([CHUNK]), sseEnd := Some(1)), got := UPWARD,
               handler := Sse(FIRST, Streaming, [StreamOpened(200)], [], [], StillOpen))
    else
      WAITING.(slots := slots.(sseChunk := Some([CHUNK])), got := UPWARD,
               handler := Sse(FIRST, Finished, [StreamOpened(200)], [], [], EndTaken([CHUNK], UPWARD, [])))
  }

  function StepAt(k: nat): ServerAction {
    if k < 3 then Read(UPWARD[k]) else if k == 3 then TakeStart else TakeEnd
  }

  lemma ProgressReadsStart()
    ensures ServerNext(Progress(0), ONE, Read(UPWARD[0])) == Progress(1)
  {
    hide Encode, Decode;
    assert UPWARD[..0] + [UPWARD[0]] == UPWARD[..1] && UPWARD[..0] == [];
    var f: StartFrame, starts: seq<StartFrame> := UPWARD[0], [];
    assert starts + [f] == [f];
    assert Offer(Progress(0).slots.sseStart, SIGNAL_CAP, f) == Some(starts + [f]);
  }

  lemma ProgressReadsChunk()
    ensures ServerNext(Progress(1), ONE, Read(UPWARD[1])) == Progress(2)
  {
    hide Encode, Decode;
    assert UPWARD[..1] + [UPWARD[1]] == UPWARD[..2];
    var chunks: seq<ChunkFrame> := [];
    assert chunks + [CHUNK] == [CHUNK];
    assert Offer(Progress(1).slots.sseChunk, SSE_CHUNK_CAP, CHUNK) == Some(chunks + [CHUNK]);
  }

  lemma ProgressReadsEnd()
    ensures ServerNext(Progress(2), ONE, Read(UPWARD[2])) == Progress(3)
  {
    hide Encode, Decode;
    assert UPWARD[..2] + [UPWARD[2]] == UPWARD[..3] == UPWARD;
  }

  lemma ProgressReads(k: nat)
    requires k < 3
    ensures ServerNext(Progress(k), ONE, Read(UPWARD[k])) == Progress(k + 1)
  {
    hide ServerNext, Progress;
    if k == 0 {
      ProgressReadsStart();
    } else if k == 1 {
      ProgressReadsChunk();
    } else {
      ProgressReadsEnd();
    }
  }

  lemma ProgressTakes(k: nat)
    requires 3 <= k < 5
    ensures ServerEnabled(Progress(k), ONE, StepAt(k))
    ensures ServerNext(Progress(k), ONE, StepAt(k)) == Progress(k + 1)
  {
    hide Encode, Decode, Deliver;
    var f: StartFrame, starts: seq<StartFrame>, none: seq<Answer> := UPWARD[0], [], [];
    assert [f][1..] == starts && none + [StreamOpened(200)] == [StreamOpened(200)];
    assert WAITING.sent + [] == WAITING.sent;
  }

  lemma ReadsAreEnabled(k: nat)
    ensures k < 3 ==> ServerEnabled(Progress(k), ONE, StepAt(k))
  {
    hide Encode;
  }

  const ASKED := WAITING.(handler := Sse(FIRST, Registering, [], [], [], StillOpen), sent := [])

  lemma ServerTakesUp() returns (es: seq<Event>)
    ensures Run(es) && ServerOf(After(es), ONE) == ASKED && ClientOf(After(es), ONE) == UNSEEN
    ensures After(es).down == [] && After(es).up == []
  {
    hide Encode, Decode;
    assert AcceptsStream(ASK.headers) by {
      assert OccursAt("text/event-stream", "text/event-stream", 0);
    }
    hide AcceptsStream;
    es := ServerExtends([], ONE, BeginSse(ASK));
  }

  lemma ServerAsks() returns (es: seq<Event>)
    ensures Run(es) && ServerOf(After(es), ONE) == WAITING && ClientOf(After(es), ONE) == UNSEEN
    ensures After(es).down == [FIRST] && After(es).up == []
  {
    hide Encode, Decode, Run, After, AcceptsStream, ToRequest;
    es := ServerTakesUp();
    es := ServerExtends(es, ONE, WriteFirst(true));
  }

  const CALLED := UNSEEN.(task := Calling, origin := Option.Some(FIRST), got := [FIRST])
  const OPEN := CALLED.(
    task := Forwarding, called := LocalCall(CALLED), stream := Stream(200, [65], [], false, false), sent := UPWARD[..1])

  lemma WorkspaceCalls(before: seq<Event>) returns (es: seq<Event>)
    requires Run(before) && ServerOf(After(before), ONE) == WAITING && ClientOf(After(before), ONE) == UNSEEN
    requires After(before).down == [FIRST] && After(before).up == []
    ensures Run(es) && ServerOf(After(es), ONE) == WAITING && ClientOf(After(es), ONE) == CALLED
    ensures After(es).up == []
  {
    hide Encode, Run, After;
    assert OccursAt("text/event-stream", "text/event-stream", 0);
    es := ClientExtends(before, ONE, Receive(FIRST));
  }

  lemma WorkspaceOpens(before: seq<Event>) returns (es: seq<Event>)
    requires Run(before) && ServerOf(After(before), ONE) == WAITING && ClientOf(After(before), ONE) == CALLED
    requires After(before).up == []
    ensures Run(es) && ServerOf(After(es), ONE) == WAITING && ClientOf(After(es), ONE) == OPEN
    ensures After(es).up == UPWARD[..1]
  {
    hide Encode, Run, After;
    assert OccursAt("text/event-stream", "text/event-stream", 0);
    es := ClientExtends(before, ONE, LocalStream(200, map[], [65], true));
  }

  const READ := OPEN.(task := Ending, stream := Stream(200, [65], [[65]], false, false), sent := UPWARD[..2])

  lemma WorkspaceReads(before: seq<Event>) returns (es: seq<Event>)
    requires Run(before) && ServerOf(After(before), ONE) == WAITING && ClientOf(After(before), ONE) == OPEN
    requires After(before).up == UPWARD[..1]
    ensures Run(es) && ServerOf(After(es), ONE) == WAITING && ClientOf(After(es), ONE) == READ
    ensures After(es).up == UPWARD[..2]
  {
    hide Encode, Decode, Run, After, ToRequest, AcceptsStream;
    assert Flatten<Byte>([]) == [] && NextBlock(OPEN.stream, 1) == [65];
    es := ClientExtends(before, ONE, ReadBlock(1, AtEnd, true));
  }

  lemma WorkspaceStreams(before: seq<Event>) returns (es: seq<Event>)
    requires Run(before) && ServerOf(After(before), ONE) == WAITING && ClientOf(After(before), ONE) == UNSEEN
    requires After(before).down == [FIRST] && After(before).up == []
    ensures Run(es) && ServerOf(After(es), ONE) == WAITING && ClientOf(After(es), ONE).stream.body == [65]
    ensures After(es).up == UPWARD
  {
    hide Encode, Decode, Run, After, ToRequest, AcceptsStream;
    es := WorkspaceCalls(before);
    es := WorkspaceOpens(es);
    es := WorkspaceReads(es);
    es := ClientExtends(es, ONE, SendEnd(true));
  }

  lemma {:induction false} EndOvertakes(before: seq<Event>, k: nat) returns (es: seq<Event>)
    requires k <= 5 && Run(before) && ServerOf(After(before), ONE) == Progress(k)
    requires After(before).up == if k < 3 then UPWARD[k..] else []
    ensures Run(es) && ServerOf(After(es), ONE) == Progress(5)
    ensures ClientOf(After(es), ONE) == ClientOf(After(before), ONE)
    decreases 5 - k
  {
    hide Run, After, Progress, ServerEnabled, ServerNext, ServerWrites;
    es := before;
    if k < 5 {
      if k < 3 { ProgressReads(k); } else { ProgressTakes(k); }
      assert ServerEnabled(Progress(k), ONE, StepAt(k)) by { ReadsAreEnabled(k); }
      es := ServerExtends(es, ONE, StepAt(k));
      es := EndOvertakes(es, k + 1);
    }
  }

  /** A run in which `end` is chosen while a chunk is queued: the client gets none of the one-byte body. */
  lemma SseEndCanTruncate() returns (es: seq<Event>)
    ensures Run(es) && ServerOf(After(es), ONE).handler.Sse? && ServerOf(After(es), ONE).handler.ending.EndTaken?
    ensures Flatten(ServerOf(After(es), ONE).handler.writes) == [] && ClientOf(After(es), ONE).stream.body == [65]
  {
    hide Encode, Run, After;
    es := ServerAsks();
    es := WorkspaceStreams(es);
    es := EndOvertakes(es, 0);
  }
}

/**
  The handlers of one public request as steps, under arbitrary frames from the tunnel.
  A handler's state records its program point (`phase`) and what it has done for the public client.
*/
module RelayHandlers {
  import opened Sequences
  import opened Base64
  import opened Protocol
  import opened RelayServer

  /** Registering: channels stored, first frame not yet written. Waiting: in the first `select`.
      Streaming: in the stream loop. Finished: returned, deferred deletes pending. Returned: gone. */
  datatype Phase = Registering | Waiting | Streaming | Finished | Returned

  datatype Answer =
    | BadGateway
    | GatewayTimeout
    | Relayed(source: ResponseFrame, status: int, body: Bytes)
    | StreamOpened(status: int)

  /** How a stream handler left its loop; `left` is what was still queued when `end` was chosen. */
  datatype Ending =
    | StillOpen
    | Abandoned
    | EndTaken(left: seq<ChunkFrame>, gotThen: seq<Frame>, refusedThen: seq<Frame>)

  /** The goroutine that reads the public websocket; Failed means its error waits in `errCh`. */
  datatype Pump = Off | Running | Failed | Stopped

  datatype Handler =
    | Idle
    | Http(first: Frame, phase: Phase, answers: seq<Answer>)
    | Sse(first: Frame, phase: Phase, answers: seq<Answer>, taken: seq<ChunkFrame>, writes: seq<Bytes>, ending: Ending)
    | Ws(first: Frame, phase: Phase, pump: Pump, heard: seq<WsMessage>, forwarded: nat, hungUp: bool,
         relayed: seq<DataFrame>, told: seq<WsMessage>)

  datatype ServerSide = ServerSide(
    slots: Slots, handler: Handler, got: seq<Frame>, sent: seq<Frame>, refused: seq<Frame>)

  const FRESH := ServerSide(NO_SLOTS, Idle, [], [], [])

  datatype ServerAction =
    | Read(f: Frame)
    | BeginHttp(call: HttpCall)
    | BeginSse(call: HttpCall)
    | BeginWs(first: Frame)
    | WriteFirst(ok: bool)
    | TakeResponse
    | TakeStart
    | TakeChunk
    | TakeEnd
    | TakeOpened
    | TakeData(ok: bool)
    | TakeClosed
    | TakePumpError(ok: bool)
    | Timeout
    | PublicGone
    | PumpMessage(m: WsMessage, ok: bool)
    | PumpError
    | Return

  predicate Ready<T>(ch: Option<seq<T>>) {
    ch.Some? && ch.value != []
  }

  predicate Signalled(ch: Option<nat>) {
    ch.Some? && ch.value > 0
  }

  predicate Active(h: Handler) {
    !h.Idle? && h.phase != Finished && h.phase != Returned
  }

  predicate ServerEnabled(s: ServerSide, id: Id, a: ServerAction) {
    var h := s.handler;
    match a
    case Read(f) => HasId(f, id)
    case BeginHttp(call) => h.Idle? && s.got == [] && !AcceptsStream(call.headers)
    case BeginSse(call) => h.Idle? && s.got == [] && AcceptsStream(call.headers)
    case BeginWs(first) => h.Idle? && s.got == [] && first.WSOpen? && first.id == id
    case WriteFirst(_) => !h.Idle? && h.phase.Registering?
    case TakeResponse => h.Http? && h.phase.Waiting? && Ready(s.slots.pending)
    case TakeStart => h.Sse? && h.phase.Waiting? && Ready(s.slots.sseStart)
    case TakeChunk => h.Sse? && h.phase.Streaming? && Ready(s.slots.sseChunk)
    case TakeEnd => h.Sse? && h.phase.Streaming? && s.slots.sseChunk.Some? && Signalled(s.slots.sseEnd)
    case TakeOpened => h.Ws? && h.phase.Waiting? && Ready(s.slots.wsOpen)
    case TakeData(_) => h.Ws? && h.phase.Streaming? && Ready(s.slots.wsData)
    case TakeClosed => h.Ws? && h.phase.Streaming? && Signalled(s.slots.wsClosed)
    case TakePumpError(_) => h.Ws? && h.phase.Streaming? && h.pump.Failed?
    case Timeout => !h.Idle? && h.phase.Waiting?
    case PublicGone => h.Sse? && (h.phase.Waiting? || h.phase.Streaming?)
    case PumpMessage(_, _) => h.Ws? && h.pump.Running?
    case PumpError => h.Ws? && h.pump.Running?
    case Return => !h.Idle? && h.phase.Finished?
  }

  /** The frame an action writes to the tunnel, if any. */
  function ServerWrites(s: ServerSide, id: Id, a: ServerAction): (r: seq<Frame>)
    requires ServerEnabled(s, id, a)
  {
    match a
    case WriteFirst(ok) => if ok then [s.handler.first] else []
    case PumpMessage(m, ok) => if ok then [ToFrame(id, m)] else []
    case TakePumpError(ok) => if ok then [WSClose(id)] else []
    case _ => []
  }

  function Finish(h: Handler, answers: seq<Answer>): Handler
    requires !h.Idle?
  {
    if h.Ws? then h.(phase := Finished) else h.(phase := Finished, answers := h.answers + answers)
  }

  /** What an action does to channels and handler. */
  function Act(s: ServerSide, id: Id, a: ServerAction): ServerSide
    requires ServerEnabled(s, id, a)
  {
    var sl, h := s.slots, s.handler;
    match a
    case Read(f) =>
      s.(slots := Deliver(sl, f), got := s.got + [f],
         refused := if Refuses(sl, f) then s.refused + [f] else s.refused)
    case BeginHttp(call) => s.(slots := sl.(pending := Some([])), handler := Http(ToRequest(id, call), Registering, []))
    case BeginSse(call) =>
      s.(slots := sl.(sseStart := Some([]), sseChunk := Some([]), sseEnd := Some(0)),
         handler := Sse(ToRequest(id, call), Registering, [], [], [], StillOpen))
    case BeginWs(first) =>
      s.(slots := sl.(wsOpen := Some([]), wsData := Some([]), wsClosed := Some(0)),
         handler := Ws(first, Registering, Off, [], 0, false, [], []))
    case WriteFirst(ok) => s.(handler := if ok then h.(phase := Waiting) else Finish(h, [BadGateway]))
    case TakeResponse =>
      var f := sl.pending.value[0];
      s.(slots := sl.(pending := Some(sl.pending.value[1..])),
         handler := Finish(h, [Relayed(f, f.status, Decode(f.body, Std).data)]))
    case TakeStart =>
      var f := sl.sseStart.value[0];
      s.(slots := sl.(sseStart := Some(sl.sseStart.value[1..])),
         handler := h.(phase := Streaming, answers := h.answers + [StreamOpened(f.status)]))
    case TakeChunk =>
      var f := sl.sseChunk.value[0];
      var d := Decode(f.data, Std);
      s.(slots := sl.(sseChunk := Some(sl.sseChunk.value[1..])),
         handler := h.(taken := h.taken + [f], writes := if d.ok then h.writes + [d.data] else h.writes))
    case TakeEnd =>
      s.(slots := sl.(sseEnd := Some(sl.sseEnd.value - 1)),
         handler := h.(phase := Finished, ending := EndTaken(sl.sseChunk.value, s.got, s.refused)))
    case TakeOpened =>
      var f := sl.wsOpen.value[0];
      s.(slots := sl.(wsOpen := Some(sl.wsOpen.value[1..])),
         handler := if f.success then h.(phase := Streaming, pump := Running) else Finish(h, []))
    case TakeData(ok) =>
      var f := sl.wsData.value[0];
      s.(slots := sl.(wsData := Some(sl.wsData.value[1..])),
         handler := h.(phase := if ok then h.phase else Finished,
                       relayed := h.relayed + [f], told := h.told + [ToMessage(f)]))
    case TakeClosed => s.(slots := sl.(wsClosed := Some(sl.wsClosed.value - 1)), handler := Finish(h, []))
    case TakePumpError(ok) => s.(handler := h.(phase := Finished, pump := Stopped, hungUp := ok))
    case Timeout => s.(handler := Finish(h, [GatewayTimeout]))
    case PublicGone => s.(handler := h.(phase := Finished, ending := Abandoned))
    case PumpMessage(m, ok) =>
      s.(handler := h.(heard := h.heard + [m], forwarded := if ok then h.forwarded + 1 else h.forwarded,
                       pump := if ok then Running else Failed))
    case PumpError => s.(handler := h.(pump := Failed))
    case Return => s.(slots := NO_SLOTS, handler := h.(phase := Returned))
  }

  function ServerNext(s: ServerSide, id: Id, a: ServerAction): ServerSide
    requires ServerEnabled(s, id, a)
  {
    Act(s, id, a).(sent := s.sent + ServerWrites(s, id, a))
  }

  // ---- What every step keeps ----

  /** Frames waiting in a channel came over the tunnel under this id. */
  ghost predicate SlotsGenuine(s: ServerSide, id: Id) {
    && (s.slots.pending.Some? ==> forall f: ResponseFrame :: f in s.slots.pending.value ==> f in s.got && f.id == id)
    && (s.slots.wsOpen.Some? ==> forall f: OpenedFrame :: f in s.slots.wsOpen.value ==> f in s.got && f.id == id)
    && (Signalled(s.slots.sseEnd) ==> SSEEnd(id) in s.got)
    && (s.slots.sseStart.Some? ==> forall f: StartFrame :: f in s.slots.sseStart.value ==> HasStart(s.got, f.status))
  }

  ghost predicate HasStart(fs: seq<Frame>, status: int) {
    exists f :: f in fs && f.SSEStart? && f.status == status
  }

  ghost predicate HasAnyStart(fs: seq<Frame>) {
    exists status :: HasStart(fs, status)
  }

  /** A stream is opened for the public client only by a start frame, and refused only while unsent or silent. */
  ghost predicate SseAnswersOk(s: ServerSide) {
    var h := s.handler;
    h.Sse? ==>
      && (h.phase.Streaming? || h.taken != [] ==> HasAnyStart(s.got))
      && (forall r :: r in h.answers ==>
            (r.StreamOpened? && HasStart(s.got, r.status)) || r.GatewayTimeout? || (r.BadGateway? && s.sent == []))
      && (h.phase.Registering? ==> s.sent == [])
      && (BadGateway in h.answers ==> !Active(h))
  }

  /** One answer at most, and a relayed one repeats a response frame that came under this id. */
  ghost predicate HttpOk(s: ServerSide, id: Id) {
    var h := s.handler;
    h.Http? ==>
      && |h.answers| <= 1
      && (h.answers == [] <==> Active(h))
      && !h.phase.Streaming?
      && (s.slots.pending.Some? <==> h.phase != Returned)
      && (forall r :: r in h.answers && r.Relayed? ==>
            r.source in s.got && r.source.id == id
            && r.status == r.source.status && r.body == Decode(r.source.body, Std).data)
      && (forall r :: r in h.answers ==> !r.StreamOpened?)
      && h.first.Request? && h.first.id == id && !AcceptsStream(h.first.headers)
      && (s.sent == [] || s.sent == [h.first])
      && (h.phase.Registering? ==> s.sent == [])
  }

  /** Nothing is duplicated, reordered or invented between the tunnel and the public stream. */
  ghost predicate SseOk(s: ServerSide, id: Id) {
    var h := s.handler;
    h.Sse? ==>
      && h.writes == Blocks(h.taken)
      && Subseq(h.taken, ChunksOf(s.got))
      && (ChunksOf(s.refused) == [] ==> h.taken <= ChunksOf(s.got))
      && h.first.Request? && h.first.id == id && AcceptsStream(h.first.headers)
      && (s.sent == [] || s.sent == [h.first])
      && (h.phase.Registering? ==> s.sent == [])
      && (s.slots.sseChunk.Some? <==> h.phase != Returned)
      && (Active(h) ==> Balanced(h.taken, s.slots.sseChunk.value, s.got, s.refused))
      && (h.ending.EndTaken? ==>
            && !Active(h)
            && SSEEnd(id) in h.ending.gotThen && h.ending.gotThen <= s.got && h.ending.refusedThen <= s.refused
            && Balanced(h.taken, h.ending.left, h.ending.gotThen, h.ending.refusedThen))
      && (h.ending.Abandoned? ==> !Active(h))
  }

  /** Every chunk received was written, is queued, or was refused. */
  ghost predicate Balanced(taken: seq<ChunkFrame>, queue: seq<ChunkFrame>, got: seq<Frame>, refused: seq<Frame>) {
    && Subseq(taken + queue, ChunksOf(got))
    && |ChunksOf(got)| == |taken| + |queue| + |ChunksOf(refused)|
  }

  /** What the public websocket is told is, in order, part of what the tunnel delivered. */
  ghost predicate WsFlowOk(s: ServerSide) {
    var h := s.handler;
    h.Ws? ==>
      && h.told == Messages(h.relayed)
      && Subseq(h.relayed, DataOf(s.got))
      && (s.slots.wsData.Some? <==> h.phase != Returned)
      && (Active(h) ==> Subseq(h.relayed + s.slots.wsData.value, DataOf(s.got)))
  }

  /** The pump starts only after a successful `ws_opened`, and writes what it hears, in order. */
  ghost predicate WsPumpOk(s: ServerSide, id: Id) {
    var h := s.handler;
    h.Ws? ==>
      && (h.pump.Off? ==> h.heard == [])
      && (!h.pump.Off? ==> HasOpened(s.got) && s.sent != [])
      && (h.phase.Registering? ==> s.sent == [] && h.pump.Off?)
      && (h.phase.Waiting? ==> s.sent != [] && h.pump.Off?)
      && (h.hungUp ==> h.pump.Stopped?)
      && h.forwarded <= |h.heard| <= h.forwarded + 1
      && (h.pump.Running? ==> h.forwarded == |h.heard|)
      && h.first.WSOpen? && h.first.id == id
      && (s.sent == [] || s.sent == WsScript(h.first, id, h.heard[..h.forwarded], h.hungUp))
  }

  ghost predicate ServerInv(s: ServerSide, id: Id) {
    && SlotsGenuine(s, id)
    && IdleOk(s)
    && HttpOk(s, id)
    && SseOk(s, id)
    && SseAnswersOk(s)
    && WsFlowOk(s)
    && WsPumpOk(s, id)
  }

  /** Equally long subsequences are the whole sequence; shorter prefixes of it stay prefixes. */
  lemma {:induction false} BalancedUnrefused(
      taken: seq<ChunkFrame>, queue: seq<ChunkFrame>, got: seq<Frame>, refused: seq<Frame>)
    requires Balanced(taken, queue, got, refused) && ChunksOf(refused) == []
    ensures taken + queue == ChunksOf(got)
  {
    SubseqLength(taken + queue, ChunksOf(got));
  }

  lemma SseReadsOther(s: ServerSide, id: Id, f: Frame)
    requires SseOk(s, id) && s.handler.Sse? && HasId(f, id) && !f.SSEChunk?
    ensures SseOk(ServerNext(s, id, Read(f)), id)
  {
    ChunksSnoc(s.got, f);
    assert Deliver(s.slots, f).sseChunk == s.slots.sseChunk;
  }

  lemma SseReadsChunk(s: ServerSide, id: Id, f: Frame)
    requires SseOk(s, id) && s.handler.Sse? && HasId(f, id) && f.SSEChunk?
    ensures SseOk(ServerNext(s, id, Read(f)), id)
  {
    var h, t := s.handler, ServerNext(s, id, Read(f));
    ChunksSnoc(s.got, f);
    ChunksSnoc(s.refused, f);
    SubseqSkip<ChunkFrame>(h.taken, ChunksOf(s.got), f);
    if Active(h) {
      ReadStaysBalanced(s, id, f);
    }
    SseOkAfterRead(s, t, id);
  }

  lemma ReadStaysBalanced(s: ServerSide, id: Id, f: ChunkFrame)
    requires s.handler.Sse? && s.slots.sseChunk.Some? && HasId(f, id)
    requires Balanced(s.handler.taken, s.slots.sseChunk.value, s.got, s.refused)
    ensures
      var t := ServerNext(s, id, Read(f));
      t.slots.sseChunk.Some? && Balanced(s.handler.taken, t.slots.sseChunk.value, t.got, t.refused)
  {
    BalancedRefuses(s.handler.taken, s.slots.sseChunk.value, s.got, s.refused, f);
    BalancedQueues(s.handler.taken, s.slots.sseChunk.value, s.got, s.refused, f);
    hide Balanced;
  }

  /** Receiving leaves the handler alone, so only what is known of its queue has to be carried over. */
  lemma SseOkAfterRead(s: ServerSide, t: ServerSide, id: Id)
    requires SseOk(s, id) && s.handler.Sse? && t.handler == s.handler && t.sent == s.sent
    requires s.got <= t.got && s.refused <= t.refused
    requires t.slots.sseChunk.Some? <==> s.slots.sseChunk.Some?
    requires Subseq(s.handler.taken, ChunksOf(t.got))
    requires ChunksOf(t.refused) == [] ==> ChunksOf(s.refused) == []
    requires ChunksOf(s.got) <= ChunksOf(t.got)
    requires Active(s.handler) && t.slots.sseChunk.Some? ==>
      Balanced(s.handler.taken, t.slots.sseChunk.value, t.got, t.refused)
    ensures SseOk(t, id)
  {
    hide Balanced, Subseq, ChunksOf, Blocks, AcceptsStream;
  }

  lemma BalancedRefuses(taken: seq<ChunkFrame>, q: seq<ChunkFrame>, got: seq<Frame>, refused: seq<Frame>, f: ChunkFrame)
    requires Balanced(taken, q, got, refused)
    ensures Balanced(taken, q, got + [f], refused + [f])
  {
    ChunksSnoc(got, f);
    ChunksSnoc(refused, f);
    hide ChunksOf;
    SubseqSkip(taken + q, ChunksOf(got), f);
    hide Subseq;
  }

  lemma BalancedQueues(taken: seq<ChunkFrame>, q: seq<ChunkFrame>, got: seq<Frame>, refused: seq<Frame>, f: ChunkFrame)
    requires Balanced(taken, q, got, refused)
    ensures Balanced(taken, q + [f], got + [f], refused)
  {
    ChunksSnoc(got, f);
    hide ChunksOf;
    SubseqSnoc(taken + q, ChunksOf(got), f);
    hide Subseq;
    assert taken + q + [f] == taken + (q + [f]);
  }

  lemma HttpAnswers(s: ServerSide, id: Id, a: ServerAction)
    requires SlotsGenuine(s, id) && HttpOk(s, id) && ServerEnabled(s, id, a) && s.handler.Http?
    requires a.WriteFirst? || a.TakeResponse? || a.Timeout? || a.Return?
    ensures HttpOk(ServerNext(s, id, a), id)
  {
    hide Decode, AcceptsStream, HasStart;
    assert s.sent + [] == s.sent;
  }

  lemma StepKeepsHttp(s: ServerSide, id: Id, a: ServerAction)
    requires SlotsGenuine(s, id) && HttpOk(s, id) && ServerEnabled(s, id, a)
    requires IdleOk(s)
    ensures HttpOk(ServerNext(s, id, a), id)
  {
    if s.handler.Http? && !a.Read? {
      HttpAnswers(s, id, a);
    } else {
      hide Decode, ToMessage, ToFrame, SlotsGenuine, AcceptsStream;
      assert s.sent + [] == s.sent;
    }
  }

  lemma SseTakesChunk(s: ServerSide, id: Id)
    requires SseOk(s, id) && ServerEnabled(s, id, TakeChunk)
    ensures SseOk(ServerNext(s, id, TakeChunk), id)
  {
    var h, q := s.handler, s.slots.sseChunk.value;
    BlocksSnoc(h.taken, q[0]);
    SubseqTake(h.taken, q, ChunksOf(s.got));
    if ChunksOf(s.refused) == [] {
      BalancedUnrefused(h.taken, q, s.got, s.refused);
    }
  }

  lemma SseBegins(s: ServerSide, id: Id, call: HttpCall)
    requires s.handler.Idle? && IdleOk(s) && ServerEnabled(s, id, BeginSse(call))
    ensures SseOk(ServerNext(s, id, BeginSse(call)), id)
  {
    hide Decode;
    assert ChunksOf([]) == [] && Blocks([]) == [];
  }

  lemma StartKeepsSse(s: ServerSide, id: Id, a: ServerAction)
    requires SseOk(s, id) && s.handler.Sse? && ServerEnabled(s, id, a) && (a.WriteFirst? || a.TakeStart?)
    ensures SseOk(ServerNext(s, id, a), id)
  {
    assert s.sent + [] == s.sent;
    hide Balanced, Subseq, Blocks, ChunksOf, AcceptsStream;
  }

  lemma ActKeepsSse(s: ServerSide, id: Id, a: ServerAction)
    requires SlotsGenuine(s, id) && SseOk(s, id) && s.handler.Sse? && ServerEnabled(s, id, a)
    requires !a.TakeChunk? && !a.Read?
    ensures SseOk(ServerNext(s, id, a), id)
  {
    if a.WriteFirst? || a.TakeStart? {
      StartKeepsSse(s, id, a);
    } else {
      assert s.sent + [] == s.sent;
      assert a.TakeEnd? || a.Timeout? || a.PublicGone? || a.Return?;
      hide Decode, ToMessage, ToFrame, Balanced, Subseq, Blocks, ChunksOf, HasStart, HasAnyStart, Deliver,
        AcceptsStream;
    }
  }

  lemma OthersAreNotSse(s: ServerSide, id: Id, a: ServerAction)
    requires !s.handler.Sse? && ServerEnabled(s, id, a) && !a.BeginSse?
    ensures !ServerNext(s, id, a).handler.Sse?
  {
    hide Decode, ToMessage, ToFrame, Deliver;
  }

  lemma StartsKept(fs: seq<Frame>, f: Frame)
    ensures forall status :: HasStart(fs, status) ==> HasStart(fs + [f], status)
    ensures HasAnyStart(fs) ==> HasAnyStart(fs + [f])
    ensures f.SSEStart? ==> HasStart(fs + [f], f.status)
  {
    assert forall g :: g in fs ==> g in fs + [f];
    assert f in fs + [f];
  }

  lemma ReadKeepsSseAnswers(s: ServerSide, id: Id, f: Frame)
    requires SseAnswersOk(s) && HasId(f, id)
    ensures SseAnswersOk(ServerNext(s, id, Read(f)))
  {
    hide Deliver;
    StartsKept(s.got, f);
    assert s.sent + [] == s.sent;
  }

  lemma TakeStartKeepsSseAnswers(s: ServerSide, id: Id)
    requires SlotsGenuine(s, id) && SseAnswersOk(s) && ServerEnabled(s, id, TakeStart)
    ensures SseAnswersOk(ServerNext(s, id, TakeStart))
  {
    var f := s.slots.sseStart.value[0];
    assert HasStart(s.got, f.status);
    assert s.sent + [] == s.sent;
    hide HasStart, SlotsGenuine;
  }

  lemma OwnKeepsSseAnswers(s: ServerSide, id: Id, a: ServerAction)
    requires SseAnswersOk(s) && ServerEnabled(s, id, a) && s.handler.Sse? && !a.Read? && !a.TakeStart?
    ensures SseAnswersOk(ServerNext(s, id, a))
  {
    hide Decode, ToMessage, ToFrame, Deliver, HasStart, HasAnyStart, AcceptsStream;
    assert s.sent + [] == s.sent;
    match a {
      case WriteFirst(_) =>
      case TakeChunk =>
      case TakeEnd =>
      case Timeout =>
      case PublicGone =>
      case Return =>
      case _ =>
    }
  }

  lemma ActKeepsSseAnswers(s: ServerSide, id: Id, a: ServerAction)
    requires SseAnswersOk(s) && ServerEnabled(s, id, a) && IdleOk(s) && !a.Read? && !a.TakeStart?
    ensures SseAnswersOk(ServerNext(s, id, a))
  {
    if s.handler.Sse? {
      OwnKeepsSseAnswers(s, id, a);
    } else if !a.BeginSse? {
      OthersAreNotSse(s, id, a);
      hide ServerNext, ServerEnabled;
    }
  }

  lemma StepKeepsSseAnswers(s: ServerSide, id: Id, a: ServerAction)
    requires SlotsGenuine(s, id) && SseAnswersOk(s) && ServerEnabled(s, id, a)
    requires IdleOk(s)
    ensures SseAnswersOk(ServerNext(s, id, a))
  {
    assert a.Read? ==> HasId(a.f, id);
    hide SlotsGenuine, SseAnswersOk, ServerNext, ServerEnabled, IdleOk;
    if a.Read? {
      ReadKeepsSseAnswers(s, id, a.f);
    } else if a.TakeStart? {
      TakeStartKeepsSseAnswers(s, id);
    } else {
      ActKeepsSseAnswers(s, id, a);
    }
  }

  lemma WsReadsData(s: ServerSide, id: Id, f: Frame)
    requires WsFlowOk(s) && s.handler.Ws? && HasId(f, id) && f.WSData?
    ensures WsFlowOk(ServerNext(s, id, Read(f)))
  {
    var h := s.handler;
    DataSnoc(s.got, f);
    SubseqSkip<DataFrame>(h.relayed, DataOf(s.got), f);
    if Active(h) {
      var q := s.slots.wsData.value;
      SubseqSkip<DataFrame>(h.relayed + q, DataOf(s.got), f);
      SubseqSnoc<DataFrame>(h.relayed + q, DataOf(s.got), f);
      assert h.relayed + q + [f] == h.relayed + (q + [f]);
    }
  }

  lemma WsTakesData(s: ServerSide, id: Id, ok: bool)
    requires WsFlowOk(s) && ServerEnabled(s, id, TakeData(ok))
    ensures WsFlowOk(ServerNext(s, id, TakeData(ok)))
  {
    var h, q := s.handler, s.slots.wsData.value;
    MessagesSnoc(h.relayed, q[0]);
    SubseqTake(h.relayed, q, DataOf(s.got));
  }

  lemma StepKeepsWsFlow(s: ServerSide, id: Id, a: ServerAction)
    requires WsFlowOk(s) && ServerEnabled(s, id, a)
    ensures WsFlowOk(ServerNext(s, id, a))
  {
    if a.TakeData? {
      WsTakesData(s, id, a.ok);
    } else if a.Read? {
      DataSnoc(s.got, a.f);
      if s.handler.Ws? && a.f.WSData? {
        WsReadsData(s, id, a.f);
      }
    }
    hide Decode, ToMessage, ToFrame, Subseq, ChunksOf;
  }

  lemma WsPumps(s: ServerSide, id: Id, m: WsMessage, ok: bool)
    requires WsPumpOk(s, id) && ServerEnabled(s, id, PumpMessage(m, ok))
    ensures WsPumpOk(ServerNext(s, id, PumpMessage(m, ok)), id)
  {
    var h, h' := s.handler, ServerNext(s, id, PumpMessage(m, ok)).handler;
    assert h'.heard[..h.forwarded] == h.heard[..h.forwarded] == h.heard;
    if ok {
      assert h'.heard[..h'.forwarded] == h.heard + [m];
      ScriptGrows(h.first, id, h.heard, m);
    }
  }

  lemma StepKeepsWsPump(s: ServerSide, id: Id, a: ServerAction)
    requires SlotsGenuine(s, id) && WsPumpOk(s, id) && ServerEnabled(s, id, a)
    requires IdleOk(s)
    ensures WsPumpOk(ServerNext(s, id, a), id)
  {
    hide Decode, ToMessage, Deliver;
    if a.PumpMessage? {
      WsPumps(s, id, a.m, a.ok);
    } else if a.TakeOpened? {
      assert s.slots.wsOpen.value[0] in s.slots.wsOpen.value;
    }
  }

  lemma ReadKeepsSlots(s: ServerSide, id: Id, f: Frame)
    requires SlotsGenuine(s, id) && HasId(f, id)
    ensures SlotsGenuine(ServerNext(s, id, Read(f)), id)
  {
    hide Decode;
    assert f in s.got + [f];
    StartsKept(s.got, f);
  }

  lemma StepKeepsSlots(s: ServerSide, id: Id, a: ServerAction)
    requires SlotsGenuine(s, id) && ServerEnabled(s, id, a)
    ensures SlotsGenuine(ServerNext(s, id, a), id)
  {
    if a.Read? {
      ReadKeepsSlots(s, id, a.f);
    }
    hide Decode, ToMessage, ToFrame, Deliver, HasStart, HasAnyStart;
  }

  ghost predicate IdleOk(s: ServerSide) {
    s.handler.Idle? ==> s.slots == NO_SLOTS && s.sent == [] && s.refused == []
  }

  lemma StepKeepsIdle(s: ServerSide, id: Id, a: ServerAction)
    requires IdleOk(s) && ServerEnabled(s, id, a)
    ensures IdleOk(ServerNext(s, id, a))
  {
    hide Decode, ToMessage, ToFrame;
  }

  lemma StepKeepsSse(s: ServerSide, id: Id, a: ServerAction)
    requires ServerInv(s, id) && ServerEnabled(s, id, a)
    ensures SseOk(ServerNext(s, id, a), id)
  {
    if a.TakeChunk? {
      SseTakesChunk(s, id);
    } else if a.BeginSse? {
      SseBegins(s, id, a.call);
    } else if !s.handler.Sse? {
      OthersAreNotSse(s, id, a);
    } else if !a.Read? {
      ActKeepsSse(s, id, a);
    } else if a.f.SSEChunk? {
      SseReadsChunk(s, id, a.f);
    } else {
      SseReadsOther(s, id, a.f);
    }
  }

  /** Every step of a handler, and every frame whatsoever, keeps what the handlers promise. */
  lemma ServerStep(s: ServerSide, id: Id, a: ServerAction)
    requires ServerInv(s, id) && ServerEnabled(s, id, a)
    ensures ServerInv(ServerNext(s, id, a), id)
  {
    hide Act, ServerWrites, Decode;
    StepKeepsSlots(s, id, a);
    StepKeepsIdle(s, id, a);
    StepKeepsHttp(s, id, a);
    StepKeepsSse(s, id, a);
    StepKeepsSseAnswers(s, id, a);
    StepKeepsWsFlow(s, id, a);
    StepKeepsWsPump(s, id, a);
  }

  // ---- All requests of one connection, under arbitrary frames ----

  type Hub = map<Id, ServerSide>

  datatype HubEvent = HubEvent(id: Id, action: ServerAction)

  function At(hub: Hub, id: Id): ServerSide {
    if id in hub then hub[id] else FRESH
  }

  predicate HubEnabled(hub: Hub, e: HubEvent) {
    ServerEnabled(At(hub, e.id), e.id, e.action)
  }

  function HubNext(hub: Hub, e: HubEvent): Hub
    requires HubEnabled(hub, e)
  {
    hub[e.id := ServerNext(At(hub, e.id), e.id, e.action)]
  }

  ghost predicate HubRun(es: seq<HubEvent>)
    decreases |es|, 0
  {
    es == [] || (HubRun(es[..|es| - 1]) && HubEnabled(HubAfter(es[..|es| - 1]), es[|es| - 1]))
  }

  ghost function HubAfter(es: seq<HubEvent>): Hub
    requires HubRun(es)
    decreases |es|, 1
  {
    if es == [] then map[] else HubNext(HubAfter(es[..|es| - 1]), es[|es| - 1])
  }

  ghost predicate HubInv(hub: Hub) {
    forall id :: ServerInv(At(hub, id), id)
  }

  lemma {:induction false} HubKeepsInv(es: seq<HubEvent>)
    requires HubRun(es)
    ensures HubInv(HubAfter(es))
    decreases |es|
  {
    hide ServerNext, ServerEnabled;
    if es == [] {
      forall id ensures ServerInv(At(map[], id), id) {}
    } else {
      var init, e := es[..|es| - 1], es[|es| - 1];
      HubKeepsInv(init);
      hide ServerInv;
      assert ServerInv(At(HubAfter(init), e.id), e.id);
      ServerStep(At(HubAfter(init), e.id), e.id, e.action);
      forall id ensures ServerInv(At(HubAfter(es), id), id) {
        assert ServerInv(At(HubAfter(init), id), id);
      }
    }
  }

  /** The ids found in the `pending` registry. */
  function PendingIds(hub: Hub): set<Id> {
    set id | id in hub && hub[id].slots.pending.Some?
  }

  /** The HTTP handlers that have started and not yet returned. */
  function InFlight(hub: Hub): set<Id> {
    set id | id in hub && hub[id].handler.Http? && hub[id].handler.phase != Returned
  }

  predicate OnlyPendingForHttp(s: ServerSide) {
    s.slots.pending.Some? ==> s.handler.Http?
  }

  lemma {:induction false} PendingBelongsToHttp(es: seq<HubEvent>)
    requires HubRun(es)
    ensures forall id :: OnlyPendingForHttp(At(HubAfter(es), id))
    decreases |es|
  {
    hide Decode, ServerInv;
    if es != [] {
      var init, e := es[..|es| - 1], es[|es| - 1];
      PendingBelongsToHttp(init);
      HubKeepsInv(init);
      assert ServerInv(At(HubAfter(init), e.id), e.id);
      IdleHasNoChannels(At(HubAfter(init), e.id), e.id);
      PendingStep(At(HubAfter(init), e.id), e.id, e.action);
      hide ServerNext, ServerEnabled, OnlyPendingForHttp;
      forall id ensures OnlyPendingForHttp(At(HubAfter(es), id)) {
        assert OnlyPendingForHttp(At(HubAfter(init), id));
      }
    }
  }

  lemma PendingStep(s: ServerSide, id: Id, a: ServerAction)
    requires OnlyPendingForHttp(s) && ServerEnabled(s, id, a) && (s.handler.Idle? ==> s.slots == NO_SLOTS)
    ensures OnlyPendingForHttp(ServerNext(s, id, a))
  {
    hide Decode;
  }

  lemma IdleHasNoChannels(s: ServerSide, id: Id)
    requires ServerInv(s, id)
    ensures s.handler.Idle? ==> s.slots == NO_SLOTS
  {
  }

  /** Over all interleavings, with timeouts and duplicate, late or foreign frames: one answer at most,
      under its own id, and exactly the handlers in flight are registered as pending. */
  lemma ResponseMatching(es: seq<HubEvent>)
    requires HubRun(es)
    ensures
      var hub := HubAfter(es);
      && PendingIds(hub) == InFlight(hub)
      && forall id :: id in hub && hub[id].handler.Http? ==>
           var answers := hub[id].handler.answers;
           |answers| <= 1
           && forall r :: r in answers && r.Relayed? ==>
                r.source in hub[id].got && r.source.id == id && r.status == r.source.status
                && r.body == Decode(r.source.body, Std).data
  {
    hide Decode;
    HubKeepsInv(es);
    PendingBelongsToHttp(es);
    var hub := HubAfter(es);
    forall id | id in hub
      ensures HttpOk(hub[id], id) && OnlyPendingForHttp(hub[id])
    {
      assert ServerInv(At(hub, id), id) && OnlyPendingForHttp(At(hub, id));
    }
  }

  function Own(es: seq<HubEvent>, id: Id): seq<HubEvent> {
    if es == [] then []
    else
      var init := Own(es[..|es| - 1], id);
      if es[|es| - 1].id == id then init + [es[|es| - 1]] else init
  }

  /** For any frame sequence and any interleaving of handlers: deleting every frame and step of the
      other ids leaves an id with the same channels, handler and answers. */
  lemma {:induction false} HubIsolation(es: seq<HubEvent>, id: Id)
    requires HubRun(es)
    ensures HubRun(Own(es, id)) && At(HubAfter(Own(es, id)), id) == At(HubAfter(es), id)
    decreases |es|
  {
    hide ServerNext, ServerEnabled;
    if es != [] {
      HubIsolation(es[..|es| - 1], id);
      var own := Own(es, id);
      if es[|es| - 1].id == id {
        assert own[..|own| - 1] == Own(es[..|es| - 1], id);
      }
    }
  }
}

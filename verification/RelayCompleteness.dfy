/**
  That the handlers withhold nothing: what one does is decided by the first frame of the right kind, by its timer and
  by its writes, and every data frame is told, queued or was refused by a full channel.
*/
module RelayCompleteness {
  import opened Sequences
  import opened Base64
  import opened Protocol
  import opened RelayServer
  import opened RelayHandlers

  // ---- The first frame of a kind ----

  datatype Kind = AResponse | AStart | AnOpened

  predicate Is(f: Frame, k: Kind) {
    match k
    case AResponse => f.Response?
    case AStart => f.SSEStart?
    case AnOpened => f.WSOpened?
  }

  function FirstOf(fs: seq<Frame>, k: Kind): (r: Option<Frame>)
    ensures r.Some? ==> r.value in fs && Is(r.value, k)
    ensures r.None? ==> forall f :: f in fs ==> !Is(f, k)
  {
    if fs == [] then None
    else
      var init, last := FirstOf(fs[..|fs| - 1], k), fs[|fs| - 1];
      if init.Some? then init else if Is(last, k) then Some(last) else None
  }

  lemma FirstOfSnoc(fs: seq<Frame>, f: Frame, k: Kind)
    ensures FirstOf(fs + [f], k) ==
      if FirstOf(fs, k).Some? then FirstOf(fs, k) else if Is(f, k) then Some(f) else None
  {
    assert (fs + [f])[..|fs|] == fs;
  }

  /** A channel of capacity one that holds the first frame of its kind, if there has been one. */
  predicate QueueIs(q: seq<Frame>, first: Option<Frame>) {
    if first.Some? then q == [first.value] else q == []
  }

  // ---- HTTP ----

  /** While the handler waits, the first response is queued; then its answer is decided by what it got first. */
  ghost predicate HttpFull(s: ServerSide, timedOut: bool) {
    var h := s.handler;
    h.Http? ==>
      && (Active(h) ==>
            !timedOut && (h.phase.Waiting? ==> s.sent != []) && s.slots.pending.Some?
            && QueueIs(s.slots.pending.value, FirstOf(s.got, AResponse)))
      && (!Active(h) ==> HttpAnswered(s, timedOut))
  }

  ghost predicate HttpAnswered(s: ServerSide, timedOut: bool)
    requires s.handler.Http?
  {
    var answers, first := s.handler.answers, FirstOf(s.got, AResponse);
    if s.sent == [] then answers == [BadGateway]
    else if timedOut then answers == [GatewayTimeout]
    else
      && first.Some?
      && |answers| == 1 && answers[0].Relayed? && answers[0].source == first.value
      && answers[0].status == first.value.status && answers[0].body == Decode(first.value.body, Std).data
  }

  lemma ReadEffect(s: ServerSide, id: Id, f: Frame)
    requires HasId(f, id)
    ensures
      var t := ServerNext(s, id, Read(f));
      && t.handler == s.handler && t.sent == s.sent && t.got == s.got + [f] && t.slots == Deliver(s.slots, f)
      && t.refused == if Refuses(s.slots, f) then s.refused + [f] else s.refused
  {
    assert s.sent + [] == s.sent;
    hide Deliver, Refuses;
  }

  /** Receiving leaves the handler alone, so only its channel has to be followed. */
  lemma HttpFullAfterRead(s: ServerSide, t: ServerSide, f: Frame, timedOut: bool)
    requires HttpFull(s, timedOut) && t.handler == s.handler && t.sent == s.sent && t.got == s.got + [f]
    requires t.slots.pending ==
      if f.Response? then Offer<ResponseFrame>(s.slots.pending, SIGNAL_CAP, f) else s.slots.pending
    ensures HttpFull(t, timedOut)
  {
    FirstOfSnoc(s.got, f, AResponse);
    hide Decode, FirstOf;
  }

  lemma HttpReads(s: ServerSide, id: Id, f: Frame, timedOut: bool)
    requires HttpFull(s, timedOut) && HasId(f, id)
    ensures HttpFull(ServerNext(s, id, Read(f)), timedOut)
  {
    ReadEffect(s, id, f);
    assert Deliver(s.slots, f).pending ==
      if f.Response? then Offer<ResponseFrame>(s.slots.pending, SIGNAL_CAP, f) else s.slots.pending;
    HttpFullAfterRead(s, ServerNext(s, id, Read(f)), f, timedOut);
    hide HttpFull, ServerNext, Deliver, Refuses;
  }

  lemma HttpRuns(s: ServerSide, id: Id, a: ServerAction, timedOut: bool)
    requires HttpFull(s, timedOut) && HttpOk(s, id) && ServerEnabled(s, id, a) && s.handler.Http?
    requires a.WriteFirst? || a.TakeResponse? || a.Timeout? || a.Return?
    ensures HttpFull(ServerNext(s, id, a), timedOut || a.Timeout?)
  {
    hide Decode, FirstOf, AcceptsStream;
    assert s.sent + [] == s.sent;
    if Active(s.handler) {
      assert forall r: Answer :: s.handler.answers + [r] == [r];
    }
  }

  lemma HttpActs(s: ServerSide, id: Id, a: ServerAction, timedOut: bool)
    requires HttpFull(s, timedOut) && HttpOk(s, id) && ServerEnabled(s, id, a) && !a.Read?
    requires s.handler.Idle? ==> !timedOut
    ensures HttpFull(ServerNext(s, id, a), timedOut || a.Timeout?)
  {
    if s.handler.Http? {
      HttpRuns(s, id, a, timedOut);
    } else {
      assert FirstOf([], AResponse).None?;
      hide Decode, FirstOf, ToRequest, AcceptsStream, HttpAnswered;
    }
  }

  // ---- Server-sent events ----

  /** The stream opens with the first start frame, and its end is signalled once an end frame has come. */
  ghost predicate SseFull(s: ServerSide, id: Id, timedOut: bool) {
    var h := s.handler;
    h.Sse? ==>
      && (h.phase.Registering? || h.phase.Waiting? ==>
            !timedOut && h.answers == [] && h.taken == [] && (h.phase.Waiting? ==> s.sent != [])
            && s.slots.sseStart.Some? && QueueIs(s.slots.sseStart.value, FirstOf(s.got, AStart)))
      && (Active(h) ==> s.slots.sseEnd == Some(if SSEEnd(id) in s.got then 1 else 0))
      && (h.phase.Streaming? ==> s.sent != [] && !timedOut && h.answers != [])
      && (h.phase.Streaming? || !Active(h) ==> SseAnswered(s, timedOut))
  }

  ghost predicate SseAnswered(s: ServerSide, timedOut: bool)
    requires s.handler.Sse?
  {
    var h, first := s.handler, FirstOf(s.got, AStart);
    if s.sent == [] then h.answers == [BadGateway]
    else if timedOut then h.answers == [GatewayTimeout]
    else if h.answers == [] then h.ending.Abandoned? && h.taken == []
    else first.Some? && h.answers == [StreamOpened(first.value.status)]
  }

  lemma DeliverStream(sl: Slots, f: Frame)
    ensures Deliver(sl, f).sseStart ==
      if f.SSEStart? then Offer<StartFrame>(sl.sseStart, SIGNAL_CAP, f) else sl.sseStart
    ensures Deliver(sl, f).sseEnd == if f.SSEEnd? then Signal(sl.sseEnd) else sl.sseEnd
  {
  }

  lemma SseAnsweredStays(s: ServerSide, t: ServerSide, timedOut: bool)
    requires s.handler.Sse? && SseAnswered(s, timedOut) && t.handler == s.handler && t.sent == s.sent
    requires FirstOf(s.got, AStart).Some? ==> FirstOf(t.got, AStart) == FirstOf(s.got, AStart)
    ensures SseAnswered(t, timedOut)
  {
    hide FirstOf;
  }

  /** Receiving leaves the handler alone, so only its channels have to be followed. */
  lemma SseFullAfterRead(s: ServerSide, t: ServerSide, id: Id, f: Frame, timedOut: bool)
    requires SseFull(s, id, timedOut) && HasId(f, id)
    requires t.handler == s.handler && t.sent == s.sent && t.got == s.got + [f]
    requires t.slots.sseStart ==
      if f.SSEStart? then Offer<StartFrame>(s.slots.sseStart, SIGNAL_CAP, f) else s.slots.sseStart
    requires t.slots.sseEnd == if f.SSEEnd? then Signal(s.slots.sseEnd) else s.slots.sseEnd
    ensures SseFull(t, id, timedOut)
  {
    FirstOfSnoc(s.got, f, AStart);
    assert SSEEnd(id) in s.got + [f] <==> SSEEnd(id) in s.got || f.SSEEnd?;
    hide FirstOf;
    if s.handler.Sse? && SseAnswered(s, timedOut) {
      SseAnsweredStays(s, t, timedOut);
    }
    hide SseAnswered;
  }

  lemma SseReads(s: ServerSide, id: Id, f: Frame, timedOut: bool)
    requires SseFull(s, id, timedOut) && HasId(f, id)
    ensures SseFull(ServerNext(s, id, Read(f)), id, timedOut)
  {
    ReadEffect(s, id, f);
    DeliverStream(s.slots, f);
    SseFullAfterRead(s, ServerNext(s, id, Read(f)), id, f, timedOut);
    hide SseFull, ServerNext, Deliver, Refuses;
  }

  lemma SseWaits(s: ServerSide, id: Id, a: ServerAction, timedOut: bool)
    requires SseFull(s, id, timedOut) && SseOk(s, id) && ServerEnabled(s, id, a) && !a.Read?
    requires s.handler.Sse? && (s.handler.phase.Registering? || s.handler.phase.Waiting?)
    ensures SseFull(ServerNext(s, id, a), id, timedOut || a.Timeout?)
  {
    hide Decode, FirstOf, ToRequest, AcceptsStream, Balanced, Subseq, Blocks, ChunksOf;
    assert s.sent + [] == s.sent;
    assert forall r: Answer :: s.handler.answers + [r] == [r];
  }

  lemma SseActs(s: ServerSide, id: Id, a: ServerAction, timedOut: bool)
    requires SseFull(s, id, timedOut) && SseOk(s, id) && ServerEnabled(s, id, a) && !a.Read?
    requires s.handler.Idle? ==> !timedOut
    ensures SseFull(ServerNext(s, id, a), id, timedOut || a.Timeout?)
  {
    assert FirstOf([], AStart).None?;
    hide Decode, FirstOf, ToRequest, AcceptsStream, Balanced, Subseq, Blocks, ChunksOf;
    assert s.sent + [] == s.sent;
    if s.handler.Sse? {
      if s.handler.phase.Registering? || s.handler.phase.Waiting? {
        SseWaits(s, id, a, timedOut);
      }
    } else if !a.BeginSse? {
      OthersAreNotSse(s, id, a);
    }
  }

  // ---- Websockets, from the workspace to the public ----

  /** The socket opens for the first report of success, and its end is signalled once a close frame has come. */
  ghost predicate WsSignals(s: ServerSide, id: Id) {
    var h := s.handler;
    h.Ws? ==>
      && (h.phase.Registering? || h.phase.Waiting? ==>
            s.slots.wsOpen.Some? && QueueIs(s.slots.wsOpen.value, FirstOf(s.got, AnOpened)))
      && (h.phase.Streaming? ==>
            FirstOf(s.got, AnOpened).Some? && FirstOf(s.got, AnOpened).value.success
            && (h.pump.Running? || h.pump.Failed?))
      && (Active(h) ==> s.slots.wsClosed == Some(if WSClose(id) in s.got then 1 else 0))
  }

  /** Every data frame was told, is queued, or was refused. */
  ghost predicate WsAccount(s: ServerSide) {
    var h := s.handler;
    h.Ws? ==>
      && (Active(h) ==>
            s.slots.wsData.Some?
            && |DataOf(s.got)| == |h.relayed| + |s.slots.wsData.value| + |DataOf(s.refused)|)
      && (DataOf(s.refused) == [] ==> h.relayed <= DataOf(s.got))
  }

  ghost predicate WsFull(s: ServerSide, id: Id) {
    WsSignals(s, id) && WsAccount(s)
  }

  lemma DeliverSocket(sl: Slots, f: Frame)
    ensures Deliver(sl, f).wsOpen == if f.WSOpened? then Offer<OpenedFrame>(sl.wsOpen, SIGNAL_CAP, f) else sl.wsOpen
    ensures Deliver(sl, f).wsClosed == if f.WSClose? then Signal(sl.wsClosed) else sl.wsClosed
    ensures Deliver(sl, f).wsData == if f.WSData? then Offer<DataFrame>(sl.wsData, WS_DATA_CAP, f) else sl.wsData
  {
  }

  /** A data frame that comes is queued or refused, and so stays accounted for. */
  lemma DataAccount(s: ServerSide, id: Id, f: Frame)
    requires HasId(f, id) && s.slots.wsData.Some?
    ensures
      var t := ServerNext(s, id, Read(f));
      && t.slots.wsData.Some?
      && |DataOf(t.got)| - |t.slots.wsData.value| - |DataOf(t.refused)|
           == |DataOf(s.got)| - |s.slots.wsData.value| - |DataOf(s.refused)|
  {
    ReadEffect(s, id, f);
    DeliverSocket(s.slots, f);
    DataSnoc(s.got, f);
    DataSnoc(s.refused, f);
    hide ServerNext, Deliver, DataOf;
  }

  lemma WsSignalsAfterRead(s: ServerSide, t: ServerSide, id: Id, f: Frame)
    requires WsSignals(s, id) && HasId(f, id) && t.handler == s.handler && t.got == s.got + [f]
    requires t.slots.wsOpen == if f.WSOpened? then Offer<OpenedFrame>(s.slots.wsOpen, SIGNAL_CAP, f) else s.slots.wsOpen
    requires t.slots.wsClosed == if f.WSClose? then Signal(s.slots.wsClosed) else s.slots.wsClosed
    ensures WsSignals(t, id)
  {
    FirstOfSnoc(s.got, f, AnOpened);
    assert WSClose(id) in s.got + [f] <==> WSClose(id) in s.got || f.WSClose?;
    hide FirstOf;
  }

  lemma WsSignalsRead(s: ServerSide, id: Id, f: Frame)
    requires WsSignals(s, id) && HasId(f, id)
    ensures WsSignals(ServerNext(s, id, Read(f)), id)
  {
    ReadEffect(s, id, f);
    DeliverSocket(s.slots, f);
    WsSignalsAfterRead(s, ServerNext(s, id, Read(f)), id, f);
    hide WsSignals, ServerNext, Deliver, Refuses;
  }

  lemma WsAccountRead(s: ServerSide, id: Id, f: Frame)
    requires WsAccount(s) && HasId(f, id)
    ensures WsAccount(ServerNext(s, id, Read(f)))
  {
    ReadEffect(s, id, f);
    DataSnoc(s.got, f);
    DataSnoc(s.refused, f);
    if s.slots.wsData.Some? {
      DataAccount(s, id, f);
    }
    hide DataOf, ServerNext, Deliver, Refuses;
  }

  lemma WsReads(s: ServerSide, id: Id, f: Frame)
    requires WsFull(s, id) && HasId(f, id)
    ensures WsFull(ServerNext(s, id, Read(f)), id)
  {
    WsSignalsRead(s, id, f);
    WsAccountRead(s, id, f);
    hide WsSignals, WsAccount, ServerNext;
  }

  lemma WsTakes(s: ServerSide, id: Id, ok: bool)
    requires WsFull(s, id) && WsFlowOk(s) && ServerEnabled(s, id, TakeData(ok))
    ensures WsFull(ServerNext(s, id, TakeData(ok)), id)
  {
    hide Decode, Messages, FirstOf;
    var h, q := s.handler, s.slots.wsData.value;
    if DataOf(s.refused) == [] {
      SubseqLength(h.relayed + q, DataOf(s.got));
      assert h.relayed + [q[0]] <= h.relayed + q;
    }
    hide Subseq, DataOf;
  }

  lemma WsActs(s: ServerSide, id: Id, a: ServerAction)
    requires WsFull(s, id) && ServerEnabled(s, id, a) && !a.Read? && !a.TakeData? && IdleOk(s)
    ensures WsFull(ServerNext(s, id, a), id)
  {
    assert FirstOf([], AnOpened).None? && DataOf([]) == [];
    hide Decode, FirstOf, DataOf, ToRequest, AcceptsStream;
  }

  /** Something outside the protocol went wrong: a timer, a failed write, or the public socket's own error. */
  predicate Fault(a: ServerAction) {
    match a
    case Timeout => true
    case PumpError => true
    case WriteFirst(ok) => !ok
    case TakeData(ok) => !ok
    case PumpMessage(_, ok) => !ok
    case _ => false
  }

  /** Without such a fault the public socket is read on, and closed only if the workspace could not open its own
      or has closed it. */
  ghost predicate WsRuns(s: ServerSide, id: Id, faulty: bool) {
    var h, first := s.handler, FirstOf(s.got, AnOpened);
    h.Ws? && !faulty ==>
      && (h.pump.Off? || h.pump.Running?)
      && (!Active(h) ==> WSClose(id) in s.got || (first.Some? && !first.value.success))
  }

  lemma WsRunsReads(s: ServerSide, id: Id, f: Frame, faulty: bool)
    requires WsRuns(s, id, faulty) && HasId(f, id)
    ensures WsRuns(ServerNext(s, id, Read(f)), id, faulty)
  {
    ReadEffect(s, id, f);
    FirstOfSnoc(s.got, f, AnOpened);
    assert WSClose(id) in s.got ==> WSClose(id) in s.got + [f];
    hide FirstOf, ServerNext, Deliver, Refuses;
  }

  lemma WsRunsActs(s: ServerSide, id: Id, a: ServerAction, faulty: bool)
    requires WsRuns(s, id, faulty) && WsFull(s, id) && ServerEnabled(s, id, a) && !a.Read?
    requires s.handler.Idle? ==> !faulty
    ensures WsRuns(ServerNext(s, id, a), id, faulty || Fault(a))
  {
    hide Decode, FirstOf, DataOf, ToRequest, AcceptsStream;
  }

  /** The messages written to the tunnel for the public socket are those of `written`. */
  ghost predicate Forwards(s: ServerSide, written: seq<WsMessage>) {
    if s.handler.Ws? then s.handler.forwarded <= |s.handler.heard| && s.handler.heard[..s.handler.forwarded] == written
    else written == []
  }

  /** The message an action takes from the public socket and writes to the tunnel, if any. */
  function Pumped(a: ServerAction): seq<WsMessage> {
    if a.PumpMessage? && a.ok then [a.m] else []
  }

  lemma ForwardsStep(s: ServerSide, id: Id, a: ServerAction, written: seq<WsMessage>)
    requires Forwards(s, written) && WsPumpOk(s, id) && ServerEnabled(s, id, a)
    ensures Forwards(ServerNext(s, id, a), written + Pumped(a))
  {
    if a.PumpMessage? {
      ForwardsPump(s, id, a, written);
    } else {
      assert written + [] == written;
      hide Decode, Deliver, ToRequest, AcceptsStream, WsPumpOk;
    }
  }

  lemma ForwardsPump(s: ServerSide, id: Id, a: ServerAction, written: seq<WsMessage>)
    requires Forwards(s, written) && WsPumpOk(s, id) && ServerEnabled(s, id, a) && a.PumpMessage?
    ensures Forwards(ServerNext(s, id, a), written + Pumped(a))
  {
    hide WsScript, HasOpened;
    var h, h' := s.handler, ServerNext(s, id, a).handler;
    assert h.heard[..h.forwarded] == h.heard;
    assert h'.heard == h.heard + [a.m] && h'.heard[..|h.heard|] == h.heard && written + [] == written;
  }

  // ---- Nothing is left registered ----

  ghost predicate NoLeak(s: ServerSide) {
    !s.handler.Idle? && s.handler.phase.Returned? ==> s.slots == NO_SLOTS
  }

  lemma NoLeakStep(s: ServerSide, id: Id, a: ServerAction)
    requires NoLeak(s) && ServerEnabled(s, id, a)
    ensures NoLeak(ServerNext(s, id, a))
  {
    hide Decode, ToRequest, AcceptsStream;
  }

  // ---- One side, any step ----

  /** The messages written to the tunnel for the public socket. */
  function PumpedBy(acts: seq<ServerAction>): seq<WsMessage> {
    if acts == [] then [] else PumpedBy(acts[..|acts| - 1]) + Pumped(acts[|acts| - 1])
  }

  predicate Faulty(acts: seq<ServerAction>) {
    exists k: nat :: k < |acts| && Fault(acts[k])
  }

  /** What an id's side has come to by the actions `acts`, in this order. */
  ghost predicate ServerFull(s: ServerSide, id: Id, acts: seq<ServerAction>) {
    && HttpFull(s, Timeout in acts)
    && SseFull(s, id, Timeout in acts)
    && WsFull(s, id)
    && WsRuns(s, id, Faulty(acts))
    && Forwards(s, PumpedBy(acts))
    && NoLeak(s)
    && (TakePumpError(true) in acts ==> WSClose(id) in s.sent)
    && (s.handler.Idle? ==> Timeout !in acts && !Faulty(acts))
  }

  lemma ActsGrow(acts: seq<ServerAction>, a: ServerAction)
    ensures forall b :: b in acts + [a] <==> b in acts || b == a
    ensures Faulty(acts + [a]) <==> Faulty(acts) || Fault(a)
    ensures PumpedBy(acts + [a]) == PumpedBy(acts) + Pumped(a)
  {
    var all := acts + [a];
    assert all[..|acts|] == acts;
    assert forall k: nat :: k < |acts| ==> all[k] == acts[k];
    if Fault(a) {
      assert Fault(all[|acts|]);
    }
    if Faulty(acts) {
      var k: nat :| k < |acts| && Fault(acts[k]);
      assert Fault(all[k]);
    }
  }

  /** What has been written stays written, and the end of the public socket is written as a close. */
  lemma HangUpIsSaid(s: ServerSide, id: Id, a: ServerAction)
    requires ServerEnabled(s, id, a)
    ensures s.sent <= ServerNext(s, id, a).sent
    ensures a == TakePumpError(true) ==> WSClose(id) in ServerNext(s, id, a).sent
  {
    hide Decode, Deliver, ToRequest, AcceptsStream, ToFrame;
  }

  lemma StaysBegun(s: ServerSide, id: Id, a: ServerAction)
    requires ServerEnabled(s, id, a)
    ensures ServerNext(s, id, a).handler.Idle? ==> s.handler.Idle? && !Fault(a)
  {
    hide Decode, Deliver, ToRequest, AcceptsStream;
  }

  /** Every step of a handler, whatever frame comes, keeps what it does decided by what it got. */
  lemma ServerFullStep(s: ServerSide, id: Id, a: ServerAction, acts: seq<ServerAction>)
    requires ServerInv(s, id) && ServerFull(s, id, acts) && ServerEnabled(s, id, a)
    ensures ServerFull(ServerNext(s, id, a), id, acts + [a])
  {
    assert a.Read? ==> HasId(a.f, id);
    ActsGrow(acts, a);
    hide ServerNext, ServerEnabled, HttpFull, SseFull, WsFull, WsRuns, Forwards, NoLeak, SlotsGenuine, IdleOk, HttpOk,
      SseOk, SseAnswersOk, WsFlowOk, WsPumpOk, Faulty, PumpedBy, Pumped;
    NoLeakStep(s, id, a);
    StaysBegun(s, id, a);
    HangUpIsSaid(s, id, a);
    ForwardsStep(s, id, a, PumpedBy(acts));
    if a.Read? {
      HttpReads(s, id, a.f, Timeout in acts);
      SseReads(s, id, a.f, Timeout in acts);
      WsReads(s, id, a.f);
      WsRunsReads(s, id, a.f, Faulty(acts));
    } else {
      HttpActs(s, id, a, Timeout in acts);
      SseActs(s, id, a, Timeout in acts);
      WsRunsActs(s, id, a, Faulty(acts));
      if a.TakeData? {
        WsTakes(s, id, a.ok);
      } else {
        WsActs(s, id, a);
      }
    }
  }

  lemma FreshIsFull(id: Id)
    ensures ServerFull(FRESH, id, [])
  {
    assert FirstOf([], AResponse).None?;
  }

  // ---- A connection under arbitrary frames ----

  /** What was done under one id, in order. */
  function HubActs(es: seq<HubEvent>, id: Id): seq<ServerAction> {
    if es == [] then []
    else
      var init, e := HubActs(es[..|es| - 1], id), es[|es| - 1];
      if e.id == id then init + [e.action] else init
  }

  lemma {:induction false} HubStaysFull(es: seq<HubEvent>, id: Id)
    requires HubRun(es)
    ensures ServerFull(At(HubAfter(es), id), id, HubActs(es, id))
    decreases |es|
  {
    if es == [] {
      FreshIsFull(id);
    } else {
      var n := |es| - 1;
      HubStaysFull(es[..n], id);
      HubKeepsInv(es[..n]);
      assert ServerInv(At(HubAfter(es[..n]), id), id);
      hide ServerFull, ServerInv, ServerNext, ServerEnabled;
      if es[n].id == id {
        ServerFullStep(At(HubAfter(es[..n]), id), id, es[n].action, HubActs(es[..n], id));
      }
    }
  }

  /** What every HTTP handler of a connection answers, in every interleaving and under any frames: while it waits,
      its registered channel holds exactly the first response there has been; when it is done, it has answered once,
      and with that response, unless its request could not be written or its timer fired first. */
  lemma FirstResponseAnswers(es: seq<HubEvent>, id: Id)
    requires HubRun(es) && At(HubAfter(es), id).handler.Http?
    ensures
      var s := At(HubAfter(es), id);
      && (Active(s.handler) ==>
            s.slots.pending.Some? && QueueIs(s.slots.pending.value, FirstOf(s.got, AResponse)))
      && (!Active(s.handler) ==> HttpAnswered(s, Timeout in HubActs(es, id)))
  {
    HubStaysFull(es, id);
  }

  /** A request that is gone has left nothing in any registry. */
  lemma NothingLeftRegistered(es: seq<HubEvent>, id: Id)
    requires HubRun(es) && !At(HubAfter(es), id).handler.Idle? && At(HubAfter(es), id).handler.phase.Returned?
    ensures At(HubAfter(es), id).slots == NO_SLOTS
  {
    HubStaysFull(es, id);
  }
}

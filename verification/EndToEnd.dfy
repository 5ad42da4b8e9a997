/**
  That a tunnel withholds nothing, for every run and every request: answers, messages and hang-ups of one end are
  with the other, in one of its channels, or on the wire.
*/
module EndToEnd {
  import opened Sequences
  import opened Base64
  import opened Protocol
  import opened RelayHandlers
  import opened RelayClient
  import opened Tunnel
  import opened RelayGuarantees
  import opened RelayCompleteness
  import opened ClientCompleteness

  // ---- Both ends of one id ----

  /** What the handler of one id and its reader did, in order. */
  function ServerActs(es: seq<Event>, id: Id): seq<ServerAction> {
    if es == [] then []
    else
      var init, e := ServerActs(es[..|es| - 1], id), es[|es| - 1];
      if e.ServerDoes? && e.id == id then init + [e.sa] else init
  }

  /** What the goroutine of one id, its environment and the dispatcher did, in order. */
  function ClientActs(es: seq<Event>, id: Id): seq<ClientAction> {
    if es == [] then []
    else
      var init, e := ClientActs(es[..|es| - 1], id), es[|es| - 1];
      if e.ClientDoes? && e.id == id then init + [e.ca] else init
  }

  /** A close that came from the public end has taken the socket out of the table. */
  ghost predicate HungUp(c: ClientSide, id: Id) {
    WSClose(id) in c.got ==> c.table.stored && c.table.socket.Missing?
  }

  /** A frame that asks for something has started a goroutine. */
  ghost predicate Heeds(c: ClientSide) {
    forall f :: f in c.got && (f.Request? || f.WSOpen?) ==> c.origin.Some?
  }

  lemma HeedsStep(c: ClientSide, id: Id, a: ClientAction)
    requires ClientInv(c, id) && Heeds(c) && ClientEnabled(c, id, a)
    ensures Heeds(ClientNext(c, id, a))
  {
    hide Decode, ClientWrites, NextBlock, PassData, CloseEntry, TableOk, StreamOk, ReplyOk, SocketOk, AcceptsStream;
    assert forall f, g :: f in c.got + [g] ==> f in c.got || f == g;
  }

  ghost predicate Full(v: View, id: Id, sas: seq<ServerAction>, cas: seq<ClientAction>) {
    ServerFull(v.server, id, sas) && ClientFull(v.client, id, cas) && HungUp(v.client, id) && Heeds(v.client)
  }

  lemma StartIsFull(id: Id)
    ensures Full(See(START, id), id, [], [])
  {
    FreshIsFull(id);
  }

  /** A close frame travels down a websocket only if the workspace has stored its socket. */
  lemma CloseOnlyAfterOpened(v: View, id: Id)
    requires ViewInv(v, id) && v.down != [] && v.down[0].WSClose?
    ensures v.client.table.stored
  {
    hide Decode, Encode, TableOk, WsFlowOk;
    var s, c := v.server, v.client;
    assert v.down[0] in s.sent;
    var h := s.handler;
    assert h.Ws?;
    CloseNeedsHangUp(h.first, id, h.heard[..h.forwarded], h.hungUp, v.down[0]);
    var f :| f in s.got && f.WSOpened? && f.success;
    assert f in c.sent;
    assert HasOpened(c.sent);
  }

  lemma CloseNeedsHangUp(first: Frame, id: Id, ms: seq<WsMessage>, hungUp: bool, f: Frame)
    requires !first.WSClose? && f.WSClose? && f in WsScript(first, id, ms, hungUp)
    ensures hungUp
  {
    assert forall g :: g in DataFrames(id, ms) ==> g.WSData? by { OnlyData(id, ms); }
  }

  lemma {:induction false} OnlyData(id: Id, ms: seq<WsMessage>)
    ensures forall g :: g in DataFrames(id, ms) ==> g.WSData?
    decreases |ms|
  {
    if ms != [] {
      OnlyData(id, ms[..|ms| - 1]);
    }
  }

  lemma HungUpStep(c: ClientSide, id: Id, a: ClientAction)
    requires ClientInv(c, id) && HungUp(c, id) && ClientEnabled(c, id, a)
    requires a.Receive? && a.f.WSClose? ==> c.table.stored
    ensures HungUp(ClientNext(c, id, a), id)
  {
    hide Decode, ClientWrites, NextBlock, StreamOk, ReplyOk, SocketOk, AcceptsStream, LeftOff;
    assert forall f: Frame :: WSClose(id) in c.got + [f] <==> WSClose(id) in c.got || f == WSClose(id);
  }

  lemma FullStep(v: View, id: Id, e: Event, sas: seq<ServerAction>, cas: seq<ClientAction>)
    requires ViewInv(v, id) && Concerns(e, id) && ViewEnabled(v, id, e) && Full(v, id, sas, cas)
    ensures
      Full(ViewNext(v, id, e), id, if e.ServerDoes? then sas + [e.sa] else sas,
           if e.ClientDoes? then cas + [e.ca] else cas)
  {
    match e
    case ServerDoes(_, a) =>
      ServerFullStep(v.server, id, a, sas);
      hide ServerFull, ClientFull, HungUp, Heeds, ServerInv, ClientInv, ServerEnabled, ServerNext, ServerWrites;
    case ClientDoes(_, a) =>
      ClientFullStep(v.client, id, a, cas);
      if a.Receive? && a.f.WSClose? {
        CloseOnlyAfterOpened(v, id);
      }
      HungUpStep(v.client, id, a);
      HeedsStep(v.client, id, a);
      hide ServerFull, ClientFull, HungUp, Heeds, ServerInv, ClientInv, ClientEnabled, ClientNext, ClientWrites;
  }

  lemma {:induction false} StaysFull(es: seq<Event>, id: Id)
    requires Run(es)
    ensures Full(See(After(es), id), id, ServerActs(es, id), ClientActs(es, id))
    decreases |es|
  {
    hide Next, ViewNext, ViewEnabled, Enabled, See, ViewInv, Full;
    if es == [] {
      StartIsFull(id);
    } else {
      var init, e := es[..|es| - 1], es[|es| - 1];
      StaysFull(init, id);
      ReachableInv(init);
      assert ViewInv(See(After(init), id), id);
      EventSeen(After(init), e, id);
      if Concerns(e, id) {
        FullStep(See(After(init), id), id, e, ServerActs(init, id), ClientActs(init, id));
      }
    }
  }

  // ---- The call ----

  lemma FirstStartsIt(v: View, id: Id)
    requires ViewInv(v, id) && Heeds(v.client) && OriginOk(v.client) && v.client.got != []
    requires v.server.handler.Http? || v.server.handler.Sse?
    ensures v.client.origin == Some(v.server.handler.first) && !v.client.task.Absent?
  {
    var s, c := v.server, v.client;
    assert c.got[0] == s.sent[0] && c.got <= s.sent;
    SentIsFirst(s, id);
    hide ServerInv, ClientInv;
    assert c.got[0] in c.got && c.got[0].Request?;
    assert c.origin.value in c.got;
  }

  lemma CallsAreHeeded(c: ClientSide, id: Id, acts: seq<ClientAction>)
    requires Answered(c, id, acts)
    ensures forall a :: a in acts && Calls(a) ==> c.called.Some?
  {
    hide Calls, ReplyFrame;
    forall a | a in acts && Calls(a)
      ensures c.called.Some?
    {
      assert Heeded(c, id, a);
    }
  }

  /** The first frame that the workspace gets of a public request starts its goroutine with exactly that request, and
      once the local API has been called, it was called with the request's method, path, headers and body. */
  lemma CallIsMade(es: seq<Event>, id: Id, call: HttpCall, k: nat)
    requires Run(es) && k < |es| && TakesUp(es[k], id, call)
    ensures
      var c := ClientOf(After(es), id);
      && (c.got != [] ==> c.origin == Some(ToRequest(id, call)) && !c.task.Absent?)
      && forall a :: a in ClientActs(es, id) && Calls(a) ==> c.called == Some(call)
  {
    StaysFull(es, id);
    ReachableInv(es);
    OriginWasReceived(es, id);
    TookUp(es, id, call, k);
    CallEndToEnd(es, id, call, k);
    var v := See(After(es), id);
    assert ViewInv(v, id);
    CallsAreHeeded(v.client, id, ClientActs(es, id));
    if v.client.got != [] {
      FirstStartsIt(v, id);
    }
    hide ViewInv, Full, Run, After, ToRequest, Calls, OriginOk, TakesUp;
  }

  lemma SentIsFirst(s: ServerSide, id: Id)
    requires ServerInv(s, id) && (s.handler.Http? || s.handler.Sse?)
    ensures s.sent == [] || s.sent == [s.handler.first]
    ensures s.handler.first.Request?
  {
  }

  lemma SocketFirst(s: ServerSide, id: Id, a: ServerAction, first: Frame)
    requires ServerEnabled(s, id, a) && (a == BeginWs(first) || (s.handler.Ws? && s.handler.first == first))
    ensures ServerNext(s, id, a).handler.Ws? && ServerNext(s, id, a).handler.first == first
  {
    hide Decode, AcceptsStream, ToRequest;
  }

  lemma {:induction false} SocketTakenUp(es: seq<Event>, id: Id, first: Frame, k: nat)
    requires Run(es) && k < |es| && es[k] == ServerDoes(id, BeginWs(first))
    ensures ServerOf(After(es), id).handler.Ws? && ServerOf(After(es), id).handler.first == first
    decreases |es|
  {
    var n := |es| - 1;
    if k < n {
      SocketTakenUp(es[..n], id, first, k);
    }
    if es[n].ServerDoes? && es[n].id == id {
      SocketFirst(ServerOf(After(es[..n]), id), id, es[n].sa, first);
    }
    hide ServerNext, ServerEnabled, ClientNext, ClientEnabled, ServerWrites, ClientWrites;
  }

  lemma ScriptStartsIt(v: View, id: Id)
    requires ViewInv(v, id) && Heeds(v.client) && OriginOk(v.client) && v.client.got != [] && v.server.handler.Ws?
    ensures v.client.origin == Some(v.server.handler.first) && !v.client.task.Absent?
  {
    var s, c, h := v.server, v.client, v.server.handler;
    var ms := h.heard[..h.forwarded];
    assert s.sent == WsScript(h.first, id, ms, h.hungUp) && h.first.WSOpen?;
    assert c.got[0] == s.sent[0] == h.first && c.got[0] in c.got && c.origin.Some?;
    assert c.got <= s.sent;
    var i :| 0 <= i < |c.got| && c.got[i] == c.origin.value;
    OriginOpens(c, id);
    assert s.sent[i] == c.origin.value;
    if i > 0 {
      ScriptOpensOnce(h.first, id, ms, h.hungUp, i);
    }
  }

  lemma OriginOpens(c: ClientSide, id: Id)
    requires ClientInv(c, id) && c.origin.Some?
    ensures c.origin.value.Request? || c.origin.value.WSOpen?
  {
    hide TableOk, RequestInv, SocketInv;
  }

  /** A public websocket is dialled as it was asked for: the first frame the workspace gets of it starts a goroutine
      with exactly its path and headers. */
  lemma DialIsMade(es: seq<Event>, id: Id, first: Frame, k: nat)
    requires Run(es) && k < |es| && es[k] == ServerDoes(id, BeginWs(first))
    ensures ClientOf(After(es), id).got != [] ==>
      ClientOf(After(es), id).origin == Some(first) && !ClientOf(After(es), id).task.Absent?
  {
    StaysFull(es, id);
    ReachableInv(es);
    OriginWasReceived(es, id);
    SocketTakenUp(es, id, first, k);
    var v := See(After(es), id);
    assert ViewInv(v, id);
    if v.client.got != [] {
      ScriptStartsIt(v, id);
    }
    hide ViewInv, Full, Run, After, OriginOk;
  }

  // ---- HTTP ----

  lemma ReplyArrives(v: View, id: Id, a: ClientAction, timedOut: bool)
    requires ViewInv(v, id) && OriginOk(v.client) && HttpFull(v.server, timedOut) && Heeded(v.client, id, a)
    requires v.server.handler.Http? && ReplyFrame(id, a).Some?
    ensures
      var f := ReplyFrame(id, a).value;
      && v.server.got + v.up == [f]
      && (Active(v.server.handler) ==> v.server.slots.pending == Some(if v.server.got == [] then [] else [f]))
      && (!Active(v.server.handler) && !timedOut ==>
            v.server.handler.answers == [Relayed(f, f.status, Decode(f.body, Std).data)])
  {
    var f := ReplyFrame(id, a).value;
    hide Decode, Encode, ServerInv, Calls, FirstOf;
    assert v.server.got <= [f];
    FirstOfOne(v.server.got, f);
    assert v.client.origin.Some? by { SpokenHasOrigin(v.client, id); }
    assert v.client.origin.value in v.client.got && v.server.sent != [];
    hide ClientInv, ReplyFrame;
  }

  lemma SpokenHasOrigin(c: ClientSide, id: Id)
    requires ClientInv(c, id) && c.sent != []
    ensures c.origin.Some?
  {
    hide TableOk;
  }

  /** The reply of the local API, once written, is with the server or on the wire, waits in the handler's channel
      once it has come, and is what the handler answers unless its timer fired first. */
  lemma HttpComplete(es: seq<Event>, id: Id, a: ClientAction)
    requires Run(es) && ServerOf(After(es), id).handler.Http?
    requires a in ClientActs(es, id) && ReplyFrame(id, a).Some?
    ensures
      var v, f := See(After(es), id), ReplyFrame(id, a).value;
      && v.server.got + v.up == [f]
      && (Active(v.server.handler) ==>
            v.server.slots.pending == Some(if v.server.got == [] then [] else [f]))
      && (!Active(v.server.handler) && Timeout !in ServerActs(es, id) ==>
            v.server.handler.answers == [Relayed(f, f.status, Decode(f.body, Std).data)])
  {
    StaysFull(es, id);
    ReachableInv(es);
    OriginWasReceived(es, id);
    var v := See(After(es), id);
    assert ViewInv(v, id);
    assert Heeded(v.client, id, a);
    ReplyArrives(v, id, a, Timeout in ServerActs(es, id));
    hide *;
  }

  lemma FirstOfOne(got: seq<Frame>, f: Frame)
    requires got <= [f] && f.Response?
    ensures FirstOf(got, AResponse) == if got == [] then None else Some(f)
  {
    if got != [] {
      assert got == [] + [f];
      FirstOfSnoc([], f, AResponse);
    }
  }

  /** A reply frame carries the status and the body that were replied. */
  lemma ReplyCarries(id: Id, a: ClientAction)
    requires a.LocalReply? && a.ok
    ensures
      var f := ReplyFrame(id, a);
      f.Some? && f.value.Response? && f.value.status == a.status && f.value.headers == a.headers
      && Decode(f.value.body, Std).data == a.body
  {
    RoundTrip(a.body, Std);
  }

  // ---- Server-sent events ----

  /** A stream that the local API opens is what is forwarded, and opens the public one with its status, unless the
      timer fired or the public client left before that. */
  lemma SseComplete(es: seq<Event>, id: Id, a: ClientAction)
    requires Run(es) && ServerOf(After(es), id).handler.Sse?
    requires a in ClientActs(es, id) && a.LocalStream?
    ensures
      var s, stream := ServerOf(After(es), id), ClientOf(After(es), id).stream;
      var h, got := s.handler, s.got;
      && stream.status == a.status && stream.body == a.body
      && (a.ok && got != [] ==> got[0] == SSEStart(id, a.status, a.headers))
      && (h.phase.Streaming? || !Active(h) ==>
            || h.answers == [StreamOpened(a.status)]
            || (h.answers == [GatewayTimeout] && Timeout in ServerActs(es, id))
            || (h.answers == [] && h.ending.Abandoned? && h.writes == []))
  {
    StaysFull(es, id);
    ReachableInv(es);
    OriginWasReceived(es, id);
    var v := See(After(es), id);
    var h := v.server.handler;
    assert ViewInv(v, id);
    assert Heeded(v.client, id, a);
    assert v.server.got != [] ==> v.server.got[0] == v.client.sent[0];
    assert v.server.sent != [] by {
      hide Decode, Encode, FirstOf, ReplyFrame, SseFull, WsFull, WsRuns, Forwards, NoLeak, OriginFull, Said, TableOk;
      assert v.client.task.Calling? || v.client.origin.Some?;
    }
    if h.answers != [] && h.answers[0].StreamOpened? {
      SseStatus(es, id, h.answers[0]);
    }
    assert Blocks([]) == [];
    hide Decode, Encode, FirstOf, ReplyFrame, HttpFull, WsFull, WsRuns, Forwards, NoLeak, ClientFull, ClientInv,
      TableOk;
  }

  // ---- Websockets ----

  lemma {:induction false} DataAppend(fs: seq<Frame>, gs: seq<Frame>)
    ensures DataOf(fs + gs) == DataOf(fs) + DataOf(gs)
    decreases |gs|
  {
    if gs == [] {
      assert fs + gs == fs;
    } else {
      var n := |gs| - 1;
      DataAppend(fs, gs[..n]);
      assert fs + gs == fs + gs[..n] + [gs[n]];
      DataSnoc(fs + gs[..n], gs[n]);
    }
  }

  lemma {:induction false} MessagesAppend(fs: seq<DataFrame>, gs: seq<DataFrame>)
    ensures Messages(fs + gs) == Messages(fs) + Messages(gs)
    decreases |gs|
  {
    hide ToMessage;
    if gs == [] {
      assert fs + gs == fs;
    } else {
      var n := |gs| - 1;
      MessagesAppend(fs, gs[..n]);
      assert fs + gs == fs + gs[..n] + [gs[n]];
      MessagesSnoc(fs + gs[..n], gs[n]);
    }
  }

  lemma ToldAndQueued(s: ServerSide, id: Id)
    requires ServerInv(s, id) && WsFull(s, id) && s.handler.Ws? && DataOf(s.refused) == []
    ensures s.handler.told <= Messages(DataOf(s.got))
    ensures Active(s.handler) ==>
      s.slots.wsData.Some? && s.handler.told + Messages(s.slots.wsData.value) == Messages(DataOf(s.got))
  {
    var h := s.handler;
    MessagesPrefix(h.relayed, DataOf(s.got));
    if Active(h) {
      SubseqLength(h.relayed + s.slots.wsData.value, DataOf(s.got));
      MessagesAppend(h.relayed, s.slots.wsData.value);
    }
  }

  /** As long as the full channel has refused nothing, what the public socket is told is a prefix of what the local
      one said and the workspace wrote; and while the handler is active, the rest is in its channel or on the wire. */
  lemma WsToldComplete(es: seq<Event>, id: Id)
    requires Run(es) && ServerOf(After(es), id).handler.Ws? && DataOf(ServerOf(After(es), id).refused) == []
    ensures
      var v, said := See(After(es), id), UtteredBy(ClientActs(es, id));
      && v.server.handler.told <= said
      && (Active(v.server.handler) ==>
            v.server.slots.wsData.Some?
            && v.server.handler.told + Messages(v.server.slots.wsData.value) + Messages(DataOf(v.up)) == said)
  {
    StaysFull(es, id);
    ReachableInv(es);
    var v := See(After(es), id);
    assert ViewInv(v, id);
    ToldAndQueued(v.server, id);
    DataAppend(v.server.got, v.up);
    MessagesAppend(DataOf(v.server.got), DataOf(v.up));
    hide ServerInv, ClientInv, Messages, DataOf, ServerFull, UtteredBy, Answered, OriginFull;
  }

  /** What the public socket said and the server wrote has been passed to the local socket, came after that was
      closed, or is on the wire. */
  lemma WsPassedComplete(es: seq<Event>, id: Id)
    requires Run(es) && ServerOf(After(es), id).handler.Ws?
    ensures
      var v, said := See(After(es), id), PumpedBy(ServerActs(es, id));
      v.client.table.passed + Messages(v.client.table.missed) + Messages(DataOf(v.down)) == said
  {
    StaysFull(es, id);
    ReachableInv(es);
    var v, said := See(After(es), id), PumpedBy(ServerActs(es, id));
    assert ViewInv(v, id);
    var s, c := v.server, v.client;
    if s.sent == [] {
      assert said == [] by { hide PumpedBy; SilentPump(s, id, said); }
      assert c.got == [] && v.down == [] && DataOf([]) == [];
    } else {
      ScriptCarries(s.handler.first, id, said, s.handler.hungUp);
      DataAppend(c.got, v.down);
      MessagesAppend(DataOf(c.got), DataOf(v.down));
      assert Decodable(DataOf(c.got));
    }
  }

  lemma SilentPump(s: ServerSide, id: Id, said: seq<WsMessage>)
    requires WsPumpOk(s, id) && s.handler.Ws? && Forwards(s, said) && s.sent == []
    ensures said == []
  {
  }

  lemma SocketGoneIsSaid(c: ClientSide, id: Id, broken: bool)
    requires SocketInv(c) && SocketFull(c, id, broken) && c.table.stored && c.task.Done?
    ensures c.table.socket.Missing? && (!broken ==> WSClose(id) in c.sent)
  {
    hide SocketOk;
  }

  lemma ClosedOnce(t: Table, data: seq<DataFrame>)
    requires TableOk(t, data) && t.stored && t.socket.Missing?
    ensures t.closes == 1
  {
  }

  lemma CloseIsReady(s: ServerSide, id: Id)
    requires WsFull(s, id) && s.handler.Ws? && s.handler.phase.Streaming? && WSClose(id) in s.got
    ensures ServerEnabled(s, id, TakeClosed)
  {
    hide FirstOf, DataOf;
  }

  /** Either end's hang-up is heard by the other. What ends the public socket is written to the workspace, and once
      that close has come the local socket is out of the table. A local socket that ended is out of it too, and its
      close was written unless some write failed; once that has come, the streaming handler can leave its loop. */
  lemma HangUpIsHeard(es: seq<Event>, id: Id)
    requires Run(es) && ServerOf(After(es), id).handler.Ws?
    ensures
      var s, c := ServerOf(After(es), id), ClientOf(After(es), id);
      && (TakePumpError(true) in ServerActs(es, id) ==> WSClose(id) in c.got || WSClose(id) in See(After(es), id).down)
      && (WSClose(id) in c.got ==> c.table.stored && c.table.socket.Missing? && c.table.closes == 1)
      && (c.table.stored && c.task.Done? ==> c.table.socket.Missing? && c.table.closes == 1)
      && (c.table.stored && c.task.Done? && !Broken(ClientActs(es, id)) ==> WSClose(id) in c.sent)
      && (WSClose(id) in s.got && s.handler.phase.Streaming? ==> ServerEnabled(s, id, TakeClosed))
  {
    StaysFull(es, id);
    ReachableInv(es);
    var v := See(After(es), id);
    assert ViewInv(v, id);
    var s, c := v.server, v.client;
    var broken := Broken(ClientActs(es, id));
    if WSClose(id) in s.got && s.handler.phase.Streaming? {
      CloseIsReady(s, id);
    }
    if c.table.stored {
      assert c.origin.Some? && !c.origin.value.Request? by { StoredIsSocket(c, id); }
      if c.task.Done? {
        SocketGoneIsSaid(c, id, broken);
      }
      if c.table.socket.Missing? {
        ClosedOnce(c.table, DataOf(c.got));
      }
    }
    hide ServerInv, ServerFull, Said, Answered, SocketFull, SocketInv, RequestInv, TableOk, Linked, OriginOk,
      ServerEnabled, Broken, After, ClientActs, ServerActs;
  }

  lemma StoredIsSocket(c: ClientSide, id: Id)
    requires ClientInv(c, id) && c.table.stored
    ensures c.origin.Some? && !c.origin.value.Request?
  {
    hide TableOk, StreamOk, ReplyOk, SocketOk;
  }

  /** A websocket handler whose writes succeed, whose timer does not fire and whose public socket does not fail ends
      only because the workspace could not open a local socket or has closed it. */
  lemma WsEndsOnlyIf(es: seq<Event>, id: Id)
    requires Run(es) && ServerOf(After(es), id).handler.Ws? && !Active(ServerOf(After(es), id).handler)
    requires !Faulty(ServerActs(es, id))
    ensures
      var got := ServerOf(After(es), id).got;
      WSClose(id) in got || (FirstOf(got, AnOpened).Some? && !FirstOf(got, AnOpened).value.success)
  {
    StaysFull(es, id);
    hide HttpFull, SseFull, WsFull, Forwards, NoLeak, ClientFull, HungUp;
  }
}

/**
  One tunnel as a whole: every public request's handler, every workspace goroutine, and the two
  ordered wires between them. A run is any sequence of enabled events, so it covers every
  interleaving of handlers, goroutines, readers, timers, heartbeats and failed writes.
*/
module Tunnel {
  import opened Base64
  import opened Protocol
  import opened RelayServer
  import opened RelayHandlers
  import opened RelayClient

  datatype Tunnel = Tunnel(server: map<Id, ServerSide>, client: map<Id, ClientSide>, down: seq<Frame>, up: seq<Frame>)

  const START := Tunnel(map[], map[], [], [])

  datatype Event =
    | ServerDoes(id: Id, sa: ServerAction)
    | ClientDoes(id: Id, ca: ClientAction)
    | ServerSendsControl(f: Frame, ok: bool)
    | ServerReadsControl
    | ClientReadsControl(ok: bool)

  function ServerOf(t: Tunnel, id: Id): ServerSide {
    if id in t.server then t.server[id] else FRESH
  }

  function ClientOf(t: Tunnel, id: Id): ClientSide {
    if id in t.client then t.client[id] else UNSEEN
  }

  predicate Control(f: Frame) {
    f.Registered? || f.Ping? || f.Pong?
  }

  predicate Enabled(t: Tunnel, e: Event) {
    match e
    case ServerDoes(id, a) =>
      ServerEnabled(ServerOf(t, id), id, a) && (a.Read? ==> t.up != [] && t.up[0] == a.f)
    case ClientDoes(id, a) =>
      ClientEnabled(ClientOf(t, id), id, a) && (a.Receive? ==> t.down != [] && t.down[0] == a.f)
    case ServerSendsControl(f, _) => f.Registered? || f.Ping?
    case ServerReadsControl => t.up != [] && Control(t.up[0])
    case ClientReadsControl(_) => t.down != [] && Control(t.down[0])
  }

  function Next(t: Tunnel, e: Event): Tunnel
    requires Enabled(t, e)
  {
    match e
    case ServerDoes(id, a) =>
      var s := ServerOf(t, id);
      Tunnel(t.server[id := ServerNext(s, id, a)], t.client,
             t.down + ServerWrites(s, id, a), if a.Read? then t.up[1..] else t.up)
    case ClientDoes(id, a) =>
      var c := ClientOf(t, id);
      Tunnel(t.server, t.client[id := ClientNext(c, id, a)],
             if a.Receive? then t.down[1..] else t.down, t.up + ClientWrites(c, id, a))
    case ServerSendsControl(f, ok) => t.(down := if ok then t.down + [f] else t.down)
    case ServerReadsControl => t.(up := t.up[1..])
    case ClientReadsControl(ok) =>
      t.(down := t.down[1..], up := if ok && t.down[0].Ping? then t.up + [Pong] else t.up)
  }

  /** `es` is a run from the start of the tunnel. */
  ghost predicate Run(es: seq<Event>)
    decreases |es|, 0
  {
    es == [] || (Run(es[..|es| - 1]) && Enabled(After(es[..|es| - 1]), es[|es| - 1]))
  }

  ghost function After(es: seq<Event>): Tunnel
    requires Run(es)
    decreases |es|, 1
  {
    if es == [] then START else Next(After(es[..|es| - 1]), es[|es| - 1])
  }

  // ---- What one id sees of the tunnel ----

  datatype View = View(server: ServerSide, client: ClientSide, down: seq<Frame>, up: seq<Frame>)

  function See(t: Tunnel, id: Id): View {
    View(ServerOf(t, id), ClientOf(t, id), Only(t.down, id), Only(t.up, id))
  }

  predicate Concerns(e: Event, id: Id) {
    (e.ServerDoes? || e.ClientDoes?) && e.id == id
  }

  predicate ViewEnabled(v: View, id: Id, e: Event)
    requires Concerns(e, id)
  {
    match e
    case ServerDoes(_, a) => ServerEnabled(v.server, id, a) && (a.Read? ==> v.up != [] && v.up[0] == a.f)
    case ClientDoes(_, a) => ClientEnabled(v.client, id, a) && (a.Receive? ==> v.down != [] && v.down[0] == a.f)
  }

  function ViewNext(v: View, id: Id, e: Event): View
    requires Concerns(e, id) && ViewEnabled(v, id, e)
  {
    match e
    case ServerDoes(_, a) =>
      View(ServerNext(v.server, id, a), v.client,
           v.down + ServerWrites(v.server, id, a), if a.Read? then v.up[1..] else v.up)
    case ClientDoes(_, a) =>
      View(v.server, ClientNext(v.client, id, a),
           if a.Receive? then v.down[1..] else v.down, v.up + ClientWrites(v.client, id, a))
  }

  // ---- The invariant of one view ----

  /** Each end has read exactly a prefix of what the other wrote; the rest is on the wire. */
  ghost predicate Linked(v: View) {
    && v.client.sent == v.server.got + v.up
    && v.server.sent == v.client.got + v.down
  }

  ghost predicate ViewInv(v: View, id: Id) {
    && ServerInv(v.server, id)
    && ClientInv(v.client, id)
    && Linked(v)
    && !v.client.table.early
  }

  lemma ServerSpeaksForItself(s: ServerSide, id: Id, a: ServerAction)
    requires ServerInv(s, id) && ServerEnabled(s, id, a)
    ensures |ServerWrites(s, id, a)| <= 1
    ensures forall f :: f in ServerWrites(s, id, a) ==> HasId(f, id)
  {
    hide Encode;
  }

  /** A data frame is on its way down only if the workspace has reported its socket stored. */
  lemma DataOnlyAfterOpened(v: View, id: Id)
    requires ViewInv(v, id) && v.down != [] && v.down[0].WSData?
    ensures v.client.table.stored
  {
    hide Decode, Encode, TableOk, WsFlowOk;
    var s, c := v.server, v.client;
    assert v.down[0] in s.sent;
    var h := s.handler;
    assert h.Ws?;
    DataNeedsMessages(h.first, id, h.heard[..h.forwarded], h.hungUp, v.down[0]);
    var f :| f in s.got && f.WSOpened? && f.success;
    assert f in c.sent;
    assert HasOpened(c.sent);
  }

  lemma ServerLinked(v: View, id: Id, a: ServerAction)
    requires Linked(v) && ViewEnabled(v, id, ServerDoes(id, a))
    ensures Linked(ViewNext(v, id, ServerDoes(id, a)))
  {
    hide Decode, Encode, Deliver, ToMessage, ToFrame, ServerWrites;
    var w := ServerWrites(v.server, id, a);
    assert v.client.got + v.down + w == v.client.got + (v.down + w);
    if a.Read? {
      assert v.up == [v.up[0]] + v.up[1..];
      assert v.server.got + [v.up[0]] + v.up[1..] == v.server.got + v.up;
    }
  }

  lemma ClientLinked(v: View, id: Id, a: ClientAction)
    requires Linked(v) && ViewEnabled(v, id, ClientDoes(id, a))
    ensures Linked(ViewNext(v, id, ClientDoes(id, a)))
  {
    hide Decode, Encode, PassData, CloseEntry, NextBlock, ClientWrites;
    var w := ClientWrites(v.client, id, a);
    assert v.server.got + v.up + w == v.server.got + (v.up + w);
    if a.Receive? {
      assert v.down == [v.down[0]] + v.down[1..];
      assert v.client.got + [v.down[0]] + v.down[1..] == v.client.got + v.down;
    }
  }

  lemma EarlyStep(c: ClientSide, id: Id, a: ClientAction)
    requires ClientEnabled(c, id, a) && !c.table.early && (a.Receive? && a.f.WSData? ==> c.table.stored)
    ensures !ClientNext(c, id, a).table.early
  {
    hide Decode, Encode, Pass, NextBlock, ClientWrites;
  }

  lemma ViewStep(v: View, id: Id, e: Event)
    requires ViewInv(v, id) && Concerns(e, id) && ViewEnabled(v, id, e)
    ensures ViewInv(ViewNext(v, id, e), id)
  {
    match e
    case ServerDoes(_, a) =>
      ServerLinked(v, id, a);
      ServerStep(v.server, id, a);
      hide ServerInv, ClientInv, Linked, ServerNext, ServerWrites, ServerEnabled;
    case ClientDoes(_, a) =>
      ClientLinked(v, id, a);
      ClientStep(v.client, id, a);
      if a.Receive? && a.f.WSData? {
        DataOnlyAfterOpened(v, id);
      }
      EarlyStep(v.client, id, a);
      hide ServerInv, ClientInv, Linked, ClientNext, ClientWrites, ClientEnabled;
  }

  // ---- From one view to the whole tunnel ----

  ghost predicate Inv(t: Tunnel) {
    forall id :: ViewInv(See(t, id), id)
  }

  /** Frames written under one id show in that id's view of the wire and in no other. */
  lemma WireWritten(wire: seq<Frame>, added: seq<Frame>, writer: Id, id: Id)
    requires |added| <= 1 && forall f :: f in added ==> HasId(f, writer)
    ensures Only(wire + added, id) == if writer == id then Only(wire, id) + added else Only(wire, id)
  {
    if added == [] {
      assert wire + added == wire;
      assert Only(wire, id) + added == Only(wire, id);
    } else {
      assert added == [added[0]] && added[0] in added;
      OnlySnoc(wire, added[0], id);
    }
  }

  lemma WireRead(wire: seq<Frame>, reader: Id, id: Id)
    requires wire != [] && HasId(wire[0], reader)
    ensures Only(wire[1..], id) == if reader == id then Only(wire, id)[1..] else Only(wire, id)
    ensures reader == id ==> Only(wire, id) != [] && Only(wire, id)[0] == wire[0]
  {
    OnlyTail(wire, id);
  }

  /** An event under `writer` as the view of `id` shows it: its own step, or nothing at all. */
  lemma ServerEventSeen(t: Tunnel, writer: Id, a: ServerAction, id: Id)
    requires ServerInv(ServerOf(t, writer), writer) && Enabled(t, ServerDoes(writer, a))
    ensures
      var e, v, v' := ServerDoes(writer, a), See(t, id), See(Next(t, ServerDoes(writer, a)), id);
      if writer == id then ViewEnabled(v, id, e) && v' == ViewNext(v, id, e) else v' == v
  {
    hide Decode, Encode, ServerInv, ServerNext, ServerWrites, ServerEnabled, Only;
    ServerSpeaksForItself(ServerOf(t, writer), writer, a);
    WireWritten(t.down, ServerWrites(ServerOf(t, writer), writer, a), writer, id);
    if a.Read? {
      ReadIsOwn(ServerOf(t, writer), writer, a);
      WireRead(t.up, writer, id);
    }
  }

  lemma ClientEventSeen(t: Tunnel, writer: Id, a: ClientAction, id: Id)
    requires Enabled(t, ClientDoes(writer, a))
    ensures
      var e, v, v' := ClientDoes(writer, a), See(t, id), See(Next(t, ClientDoes(writer, a)), id);
      if writer == id then ViewEnabled(v, id, e) && v' == ViewNext(v, id, e) else v' == v
  {
    hide Decode, Encode, ClientNext, ClientWrites, Only;
    WireWritten(t.up, ClientWrites(ClientOf(t, writer), writer, a), writer, id);
    if a.Receive? {
      assert HasId(a.f, writer) by { ReceiveIsOwn(ClientOf(t, writer), writer, a); }
      WireRead(t.down, writer, id);
    }
    hide ClientEnabled;
  }

  lemma ReadIsOwn(s: ServerSide, id: Id, a: ServerAction)
    requires ServerEnabled(s, id, a)
    ensures a.Read? ==> HasId(a.f, id)
  {
  }

  lemma ReceiveIsOwn(c: ClientSide, id: Id, a: ClientAction)
    requires ClientEnabled(c, id, a)
    ensures a.Receive? ==> HasId(a.f, id)
  {
  }

  lemma ControlUnseen(t: Tunnel, e: Event, id: Id)
    requires Enabled(t, e) && !e.ServerDoes? && !e.ClientDoes?
    ensures See(Next(t, e), id) == See(t, id)
  {
    match e
    case ServerSendsControl(f, _) => OnlySnoc(t.down, f, id);
    case ServerReadsControl => OnlyTail(t.up, id);
    case ClientReadsControl(_) =>
      OnlyTail(t.down, id);
      OnlySnoc(t.up, Pong, id);
  }

  lemma EventSeen(t: Tunnel, e: Event, id: Id)
    requires Inv(t) && Enabled(t, e)
    ensures
      if Concerns(e, id) then ViewEnabled(See(t, id), id, e) && See(Next(t, e), id) == ViewNext(See(t, id), id, e)
      else See(Next(t, e), id) == See(t, id)
  {
    match e
    case ServerDoes(writer, a) =>
      assert ViewInv(See(t, writer), writer);
      ServerEventSeen(t, writer, a, id);
      hide *;
    case ClientDoes(writer, a) =>
      ClientEventSeen(t, writer, a, id);
      hide *;
    case _ =>
      ControlUnseen(t, e, id);
      hide *;
  }

  lemma StepKeepsInv(t: Tunnel, e: Event)
    requires Inv(t) && Enabled(t, e)
    ensures Inv(Next(t, e))
  {
    hide ViewInv, ViewNext, Next, See, Enabled;
    forall id ensures ViewInv(See(Next(t, e), id), id) {
      assert ViewInv(See(t, id), id);
      EventSeen(t, e, id);
      if Concerns(e, id) {
        ViewStep(See(t, id), id, e);
      }
    }
  }

  lemma StartInv()
    ensures Inv(START)
  {
    forall id ensures ViewInv(See(START, id), id) {
    }
  }

  /** Every reachable tunnel keeps every promise, for every id at once. */
  lemma {:induction false} ReachableInv(es: seq<Event>)
    requires Run(es)
    ensures Inv(After(es))
    decreases |es|
  {
    hide Inv, Next;
    if es == [] {
      StartInv();
    } else {
      ReachableInv(es[..|es| - 1]);
      StepKeepsInv(After(es[..|es| - 1]), es[|es| - 1]);
    }
  }

  // ---- Isolation ----

  /** The events of one id alone: all events, and so all frames, of other ids and of the heartbeat deleted. */
  function Mine(es: seq<Event>, id: Id): seq<Event> {
    if es == [] then []
    else
      var init := Mine(es[..|es| - 1], id);
      if Concerns(es[|es| - 1], id) then init + [es[|es| - 1]] else init
  }

  /** The tunnel carries nothing but this id's frames, and shows this id what `v` shows. */
  ghost predicate Alone(t: Tunnel, id: Id, v: View) {
    ServerOf(t, id) == v.server && ClientOf(t, id) == v.client && t.down == v.down && t.up == v.up
  }

  lemma AloneStep(t: Tunnel, id: Id, v: View, e: Event)
    requires Alone(t, id, v) && Concerns(e, id) && ViewEnabled(v, id, e)
    ensures Enabled(t, e) && Alone(Next(t, e), id, ViewNext(v, id, e))
  {
    hide ServerNext, ClientNext, ServerWrites, ClientWrites, ServerEnabled, ClientEnabled;
  }

  /** No other request can change what a request sees: delete everything else from a run, and what is
      left is a run that brings this id to exactly the same state. */
  lemma {:induction false} Isolation(es: seq<Event>, id: Id)
    requires Run(es)
    ensures Run(Mine(es, id))
    ensures Alone(After(Mine(es, id)), id, See(After(es), id))
    decreases |es|
  {
    hide Next, ViewNext, ViewEnabled, Enabled, See, Inv;
    if es == [] {
      assert Alone(START, id, See(START, id)) by { StartAlone(id); }
    } else {
      var init, e := es[..|es| - 1], es[|es| - 1];
      Isolation(init, id);
      ReachableInv(init);
      EventSeen(After(init), e, id);
      if Concerns(e, id) {
        AloneStep(After(Mine(init, id)), id, See(After(init), id), e);
        var mine := Mine(es, id);
        assert mine[..|mine| - 1] == Mine(init, id);
      }
    }
  }

  lemma StartAlone(id: Id)
    ensures Alone(START, id, See(START, id))
  {
  }
}

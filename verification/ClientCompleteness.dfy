/**
  What the workspace end writes, from the actions of its goroutines: every answer of the local API, every message of
  a local socket, the opening of a socket and its end, unless a write to the tunnel fails.
*/
module ClientCompleteness {
  import opened Sequences
  import opened Base64
  import opened Protocol
  import opened RelayClient

  /** The action's write to the tunnel, if it makes one, fails. */
  predicate WriteFails(a: ClientAction) {
    match a
    case Receive(_) => false
    case DialOk => false
    case DeferredClose => false
    case ReadBlock(n, _, ok) => n > 0 && !ok
    case _ => !a.ok
  }

  /** The data frames on the tunnel carry the messages of `written`, one each and in this order. */
  ghost predicate Said(c: ClientSide, written: seq<WsMessage>) {
    Messages(DataOf(c.sent)) == written
  }

  /** The message an action takes from the local socket and writes to the tunnel, if any. */
  function Uttered(a: ClientAction): seq<WsMessage> {
    if a.LocalMessage? && a.ok then [a.m] else []
  }

  /** A finished request has been answered, or its stream ended, unless a write failed. */
  ghost predicate RequestFull(c: ClientSide, broken: bool) {
    && (!c.task.Done? ==> !broken)
    && (c.task.Done? && !broken ==> (c.reply.Reply? && c.sent != []) || c.stream.ended)
  }

  /** A dialled socket has been reported, a hung-up one too and is out of the table, unless a write failed. */
  ghost predicate SocketFull(c: ClientSide, id: Id, broken: bool) {
    && (c.task.Dialing? ==> c.sent == [] && !broken)
    && (c.task.Hanging? ==> c.table.stored)
    && (c.table.stored && !c.task.Joined? && !broken ==> HasOpened(c.sent))
    && (c.table.stored && (c.task.Hanging? || c.task.Done?) && !broken ==> WSClose(id) in c.sent)
    && (c.table.stored && c.task.Done? ==> c.table.socket.Missing?)
    && (!c.table.stored && c.task.Done? && !broken ==> c.sent != [] && c.sent[0].WSOpened? && !c.sent[0].success)
  }

  ghost predicate OriginFull(c: ClientSide, id: Id, broken: bool) {
    match c.origin
    case None => !broken
    case Some(o) => if o.Request? then RequestFull(c, broken) else SocketFull(c, id, broken)
  }

  predicate Broken(acts: seq<ClientAction>) {
    exists k: nat :: k < |acts| && WriteFails(acts[k])
  }

  /** The messages of the local socket written to the tunnel. */
  function UtteredBy(acts: seq<ClientAction>): seq<WsMessage> {
    if acts == [] then [] else UtteredBy(acts[..|acts| - 1]) + Uttered(acts[|acts| - 1])
  }

  /** The response frame an action writes, if any. */
  function ReplyFrame(id: Id, a: ClientAction): Option<Frame> {
    match a
    case Unroutable(true) => Some(Response(id, 500, map[], ""))
    case LocalFail(true) => Some(Response(id, 502, map[], ""))
    case LocalReply(status, headers, body, true) => Some(Response(id, status, headers, Encode(body, Std)))
    case _ => None
  }

  /** The local API has been called: it replied, streams, or could not be reached. */
  predicate Calls(a: ClientAction) {
    a.LocalFail? || a.LocalReply? || a.LocalStream?
  }

  /** What the local API has answered by this action is on the tunnel, or is the stream being forwarded. */
  ghost predicate Heeded(c: ClientSide, id: Id, a: ClientAction) {
    && (Calls(a) || ReplyFrame(id, a).Some? ==> !c.task.Absent? && !c.task.Calling?)
    && (Calls(a) ==> c.called.Some?)
    && (ReplyFrame(id, a).Some? ==> c.sent == [ReplyFrame(id, a).value] && c.task.Done?)
    && (a.LocalStream? ==> c.stream.status == a.status && c.stream.body == a.body)
    && (a.LocalStream? && a.ok ==> c.sent != [] && c.sent[0] == SSEStart(id, a.status, a.headers))
  }

  ghost predicate Answered(c: ClientSide, id: Id, acts: seq<ClientAction>) {
    forall a :: a in acts ==> Heeded(c, id, a)
  }

  /** What an id's goroutine has come to by the actions `acts`, in this order. */
  ghost predicate ClientFull(c: ClientSide, id: Id, acts: seq<ClientAction>) {
    OriginFull(c, id, Broken(acts)) && Said(c, UtteredBy(acts)) && Answered(c, id, acts)
  }

  lemma ClientActsGrow(acts: seq<ClientAction>, a: ClientAction)
    ensures Broken(acts + [a]) <==> Broken(acts) || WriteFails(a)
    ensures UtteredBy(acts + [a]) == UtteredBy(acts) + Uttered(a)
  {
    var all := acts + [a];
    assert all[..|acts|] == acts;
    assert forall k: nat :: k < |acts| ==> all[k] == acts[k];
    if WriteFails(a) {
      assert WriteFails(all[|acts|]);
    }
    if Broken(acts) {
      var k: nat :| k < |acts| && WriteFails(acts[k]);
      assert WriteFails(all[k]);
    }
  }

  lemma CallingIsSilent(c: ClientSide, id: Id)
    requires ClientInv(c, id) && c.task.Calling?
    ensures c.sent == [] && LocalCall(c).Some?
  {
    hide TableOk, StreamOk, ReplyOk, SocketOk;
  }

  lemma NewlyHeeded(c: ClientSide, id: Id, a: ClientAction)
    requires ClientEnabled(c, id, a) && (c.task.Calling? ==> c.sent == [] && LocalCall(c).Some?)
    ensures Heeded(ClientNext(c, id, a), id, a)
  {
    hide Decode, Encode, PassData, CloseEntry, NextBlock, AcceptsStream, Readable, ToFrame, LocalCall;
    assert c.sent == [] ==> forall f: Frame :: c.sent + [f] == [f];
  }

  lemma StillHeeded(c: ClientSide, id: Id, a: ClientAction, b: ClientAction)
    requires ClientEnabled(c, id, a) && Heeded(c, id, b)
    ensures Heeded(ClientNext(c, id, a), id, b)
  {
    hide Decode, Encode, PassData, CloseEntry, NextBlock, AcceptsStream, Readable, ToFrame, LocalCall, ReplyFrame;
    assert c.sent + [] == c.sent;
    assert c.sent != [] ==> (c.sent + ClientWrites(c, id, a))[0] == c.sent[0];
  }

  lemma AnsweredStep(c: ClientSide, id: Id, a: ClientAction, acts: seq<ClientAction>)
    requires Answered(c, id, acts) && ClientEnabled(c, id, a)
    requires c.task.Calling? ==> c.sent == [] && LocalCall(c).Some?
    ensures Answered(ClientNext(c, id, a), id, acts + [a])
  {
    hide ClientNext, ClientEnabled, Heeded;
    forall b | b in acts + [a]
      ensures Heeded(ClientNext(c, id, a), id, b)
    {
      if b in acts {
        StillHeeded(c, id, a, b);
      } else {
        NewlyHeeded(c, id, a);
      }
    }
  }

  lemma DataWritten(c: ClientSide, id: Id, a: ClientAction)
    requires ClientEnabled(c, id, a)
    ensures
      var w := ClientWrites(c, id, a);
      if a.LocalMessage? && a.ok then w == [ToFrame(id, a.m)] else w == [] || (|w| == 1 && !w[0].WSData?)
  {
    hide Encode, NextBlock;
  }

  lemma SaidStep(c: ClientSide, id: Id, a: ClientAction, written: seq<WsMessage>)
    requires Said(c, written) && ClientEnabled(c, id, a)
    ensures Said(ClientNext(c, id, a), written + Uttered(a))
  {
    var w := ClientWrites(c, id, a);
    DataWritten(c, id, a);
    assert ClientNext(c, id, a).sent == c.sent + w;
    hide ClientNext, ClientWrites, ClientEnabled, DataOf, Messages, ToFrame, ToMessage;
    assert c.sent + [] == c.sent && written + [] == written;
    if w != [] {
      assert w == [w[0]];
      DataSnoc(c.sent, w[0]);
      if a.LocalMessage? {
        MessagesSnoc(DataOf(c.sent), ToFrame(id, a.m));
        FrameRoundTrip(id, a.m);
      }
    }
  }

  lemma RequestFullStep(c: ClientSide, id: Id, a: ClientAction, broken: bool)
    requires ClientEnabled(c, id, a) && RequestFull(c, broken) && RequestInv(c, id)
    requires c.origin.Some? && c.origin.value.Request?
    ensures RequestFull(ClientNext(c, id, a), broken || WriteFails(a))
  {
    hide Decode, Encode, PassData, CloseEntry, NextBlock, StreamOk, ReplyOk, AcceptsStream, LeftOff;
    assert forall f: Frame :: c.sent + [f] != [];
    assert c.sent + [] == c.sent;
  }

  lemma StillSaid(sent: seq<Frame>, w: seq<Frame>, id: Id)
    ensures HasOpened(sent) ==> HasOpened(sent + w)
    ensures WSClose(id) in sent ==> WSClose(id) in sent + w
    ensures sent != [] ==> (sent + w) != [] && (sent + w)[0] == sent[0]
  {
    assert forall f :: f in sent ==> f in sent + w;
  }

  lemma SocketReports(c: ClientSide, id: Id, ok: bool, broken: bool)
    requires ClientEnabled(c, id, SendOpened(ok)) && SocketFull(c, id, broken) && SocketInv(c)
    ensures SocketFull(ClientNext(c, id, SendOpened(ok)), id, broken || WriteFails(SendOpened(ok)))
  {
    var report := WSOpened(id, true, "");
    StillSaid(c.sent, [report], id);
    assert report in c.sent + [report] && HasOpened(c.sent + [report]);
    assert c.sent + [] == c.sent;
    hide HasOpened, SocketOk;
  }

  lemma SocketHearsOn(c: ClientSide, id: Id, m: WsMessage, ok: bool, broken: bool)
    requires ClientEnabled(c, id, LocalMessage(m, ok)) && SocketFull(c, id, broken) && SocketInv(c)
    ensures SocketFull(ClientNext(c, id, LocalMessage(m, ok)), id, broken || WriteFails(LocalMessage(m, ok)))
  {
    StillSaid(c.sent, [ToFrame(id, m)], id);
    assert c.sent + [] == c.sent;
    hide HasOpened, SocketOk, ToFrame;
  }

  lemma SocketHangsUp(c: ClientSide, id: Id, ok: bool, broken: bool)
    requires ClientEnabled(c, id, LocalError(ok)) && SocketFull(c, id, broken) && SocketInv(c)
    ensures SocketFull(ClientNext(c, id, LocalError(ok)), id, broken || WriteFails(LocalError(ok)))
  {
    StillSaid(c.sent, [WSClose(id)], id);
    assert WSClose(id) in c.sent + [WSClose(id)];
    assert c.sent + [] == c.sent;
    hide HasOpened, SocketOk;
  }

  lemma SocketDials(c: ClientSide, id: Id, a: ClientAction, broken: bool)
    requires ClientEnabled(c, id, a) && SocketFull(c, id, broken) && SocketInv(c)
    requires a.DialFail? || a.DialOk? || a.DeferredClose?
    ensures SocketFull(ClientNext(c, id, a), id, broken || WriteFails(a))
  {
    assert c.sent + [] == c.sent;
    assert c.sent == [] ==> forall f: Frame :: c.sent + [f] == [f];
    hide HasOpened, SocketOk;
  }

  lemma SocketGets(c: ClientSide, id: Id, f: Frame, broken: bool)
    requires HasId(f, id) && SocketFull(c, id, broken) && SocketInv(c) && !c.task.Absent?
    ensures SocketFull(ClientNext(c, id, Receive(f)), id, broken || WriteFails(Receive(f)))
  {
    assert c.sent + [] == c.sent;
    hide HasOpened, SocketOk, Pass;
  }

  lemma OriginFullStep(c: ClientSide, id: Id, a: ClientAction, broken: bool)
    requires ClientInv(c, id) && OriginFull(c, id, broken) && ClientEnabled(c, id, a)
    ensures OriginFull(ClientNext(c, id, a), id, broken || WriteFails(a))
  {
    if c.origin.None? {
      FirstFrame(c, id, a);
    } else {
      OriginStays(c, id, a);
      hide ClientNext, ClientEnabled, RequestFull, SocketFull, RequestInv, SocketInv, TableOk;
      if c.origin.value.Request? {
        RequestFullStep(c, id, a, broken);
      } else {
        SocketStep(c, id, a, broken);
      }
    }
  }

  /** Every step of an id's goroutine and of the dispatcher keeps what has been said decided by what was done. */
  lemma ClientFullStep(c: ClientSide, id: Id, a: ClientAction, acts: seq<ClientAction>)
    requires ClientInv(c, id) && ClientFull(c, id, acts) && ClientEnabled(c, id, a)
    ensures ClientFull(ClientNext(c, id, a), id, acts + [a])
  {
    OriginFullStep(c, id, a, Broken(acts));
    SaidStep(c, id, a, UtteredBy(acts));
    if c.task.Calling? {
      CallingIsSilent(c, id);
    }
    AnsweredStep(c, id, a, acts);
    ClientActsGrow(acts, a);
    hide OriginFull, Said, Answered, ClientInv, LocalCall, ClientEnabled, ClientNext, WriteFails, Uttered,
      Broken, UtteredBy;
  }

  lemma SocketStep(c: ClientSide, id: Id, a: ClientAction, broken: bool)
    requires ClientEnabled(c, id, a) && SocketFull(c, id, broken) && SocketInv(c)
    requires c.origin.Some? && c.origin.value.WSOpen?
    ensures SocketFull(ClientNext(c, id, a), id, broken || WriteFails(a))
  {
    hide ClientNext, SocketFull;
    match a {
      case Receive(f) => SocketGets(c, id, f, broken);
      case SendOpened(ok) => SocketReports(c, id, ok, broken);
      case LocalMessage(m, ok) => SocketHearsOn(c, id, m, ok, broken);
      case LocalError(ok) => SocketHangsUp(c, id, ok, broken);
      case _ => SocketDials(c, id, a, broken);
    }
  }

  lemma OriginStays(c: ClientSide, id: Id, a: ClientAction)
    requires ClientInv(c, id) && ClientEnabled(c, id, a) && c.origin.Some?
    ensures ClientNext(c, id, a).origin == c.origin
  {
    hide Decode, ClientWrites, PassData, CloseEntry, NextBlock, TableOk, StreamOk, ReplyOk, SocketOk;
  }

  lemma FirstFrame(c: ClientSide, id: Id, a: ClientAction)
    requires ClientInv(c, id) && ClientEnabled(c, id, a) && c.origin.None?
    ensures OriginFull(ClientNext(c, id, a), id, false) && !WriteFails(a)
  {
    hide Decode, PassData, CloseEntry, TableOk, AcceptsStream;
    assert c.sent + [] == c.sent;
    assert a.Receive?;
  }
}

/**
  The public side of the relay: per-request registries, the read loop that fills them, and the
  handlers that wait on them. Everything here holds whatever frames the tunnel delivers.
  A goroutine's program point is its `phase`; `select` and timers are free choices of the next action.
  `got`, `sent` and `refused` record what has passed for one id and are never branched on.
*/
module RelayServer {
  import opened Sequences
  import opened Protocol

  const SIGNAL_CAP: nat := 1
  const SSE_CHUNK_CAP: nat := 256
  const WS_DATA_CAP: nat := 64

  /** The channels registered under one id: `None` where the registry has no entry. */
  datatype Slots = Slots(
    pending: Option<seq<ResponseFrame>>,
    sseStart: Option<seq<StartFrame>>,
    sseChunk: Option<seq<ChunkFrame>>,
    sseEnd: Option<nat>,
    wsOpen: Option<seq<OpenedFrame>>,
    wsData: Option<seq<DataFrame>>,
    wsClosed: Option<nat>)

  const NO_SLOTS := Slots(None, None, None, None, None, None, None)

  /** Non-blocking send into a channel that may not exist. */
  function Offer<T>(ch: Option<seq<T>>, cap: nat, x: T): Option<seq<T>> {
    if ch.Some? && |ch.value| < cap then Some(ch.value + [x]) else ch
  }

  function Signal(ch: Option<nat>): Option<nat> {
    if ch.Some? && ch.value < SIGNAL_CAP then Some(ch.value + 1) else ch
  }

  /** What one frame does to the channels of its own id. */
  function Deliver(sl: Slots, f: Frame): Slots {
    match f
    case Response(_, _, _, _) => sl.(pending := Offer<ResponseFrame>(sl.pending, SIGNAL_CAP, f))
    case SSEStart(_, _, _) => sl.(sseStart := Offer<StartFrame>(sl.sseStart, SIGNAL_CAP, f))
    case SSEChunk(_, _) => sl.(sseChunk := Offer<ChunkFrame>(sl.sseChunk, SSE_CHUNK_CAP, f))
    case SSEEnd(_) => sl.(sseEnd := Signal(sl.sseEnd))
    case WSOpened(_, _, _) => sl.(wsOpen := Offer<OpenedFrame>(sl.wsOpen, SIGNAL_CAP, f))
    case WSData(_, _, _) => sl.(wsData := Offer<DataFrame>(sl.wsData, WS_DATA_CAP, f))
    case WSClose(_) => sl.(wsClosed := Signal(sl.wsClosed))
    case _ => sl
  }

  function DeliverAll(sl: Slots, fs: seq<Frame>): Slots {
    if fs == [] then sl else Deliver(DeliverAll(sl, fs[..|fs| - 1]), fs[|fs| - 1])
  }

  lemma DeliverAllSnoc(sl: Slots, fs: seq<Frame>, f: Frame)
    ensures DeliverAll(sl, fs + [f]) == Deliver(DeliverAll(sl, fs), f)
  {
    assert (fs + [f])[..|fs|] == fs;
  }

  /** A chunk or data frame that finds its channel full is thrown away. */
  predicate Refuses(sl: Slots, f: Frame) {
    || (f.SSEChunk? && sl.sseChunk.Some? && |sl.sseChunk.value| >= SSE_CHUNK_CAP)
    || (f.WSData? && sl.wsData.Some? && |sl.wsData.value| >= WS_DATA_CAP)
  }

  // ---- The registries as the server keeps them, and its read loop ----

  function Lookup<T>(m: map<Id, T>, id: Id): Option<T> {
    if id in m then Some(m[id]) else None
  }

  /** The `select` with a `default`: send to the channel registered under `id`, if there is one with room. */
  function TrySend<T>(m: map<Id, seq<T>>, id: Id, cap: nat, x: T): (r: map<Id, seq<T>>)
    ensures forall k :: Lookup(r, k) == if k == id then Offer(Lookup(m, k), cap, x) else Lookup(m, k)
  {
    if id in m && |m[id]| < cap then m[id := m[id] + [x]] else m
  }

  function TrySignal(m: map<Id, nat>, id: Id): (r: map<Id, nat>)
    ensures forall k :: Lookup(r, k) == if k == id then Signal(Lookup(m, k)) else Lookup(m, k)
  {
    if id in m && m[id] < SIGNAL_CAP then m[id := m[id] + 1] else m
  }

  class ClientConn {
    var pending: map<Id, seq<ResponseFrame>>
    var sseStart: map<Id, seq<StartFrame>>
    var sseChunk: map<Id, seq<ChunkFrame>>
    var sseEnd: map<Id, nat>
    var wsOpen: map<Id, seq<OpenedFrame>>
    var wsData: map<Id, seq<DataFrame>>
    var wsClosed: map<Id, nat>

    constructor ()
      ensures forall id :: SlotsOf(id) == NO_SLOTS
    {
      pending, sseStart, sseChunk, sseEnd := map[], map[], map[], map[];
      wsOpen, wsData, wsClosed := map[], map[], map[];
    }

    function SlotsOf(id: Id): Slots
      reads this
    {
      Slots(Lookup(pending, id), Lookup(sseStart, id), Lookup(sseChunk, id), Lookup(sseEnd, id),
            Lookup(wsOpen, id), Lookup(wsData, id), Lookup(wsClosed, id))
    }

    /** One turn of the read loop: a full or missing channel is passed over, and no other id is touched. */
    method Dispatch(f: Frame)
      modifies this
      ensures forall id :: SlotsOf(id) == if HasId(f, id) then Deliver(old(SlotsOf(id)), f) else old(SlotsOf(id))
    {
      hide Lookup, Offer, Signal;
      match f
      case Response(id, _, _, _) => pending := TrySend<ResponseFrame>(pending, id, SIGNAL_CAP, f);
      case SSEStart(id, _, _) => sseStart := TrySend<StartFrame>(sseStart, id, SIGNAL_CAP, f);
      case SSEChunk(id, _) => sseChunk := TrySend<ChunkFrame>(sseChunk, id, SSE_CHUNK_CAP, f);
      case SSEEnd(id) => sseEnd := TrySignal(sseEnd, id);
      case WSOpened(id, _, _) => wsOpen := TrySend<OpenedFrame>(wsOpen, id, SIGNAL_CAP, f);
      case WSData(id, _, _) => wsData := TrySend<DataFrame>(wsData, id, WS_DATA_CAP, f);
      case WSClose(id) => wsClosed := TrySignal(wsClosed, id);
      case _ =>
    }

    /** Reading any frame sequence to its end leaves each id as if only its own frames had been there. */
    method ReadLoop(frames: seq<Frame>)
      modifies this
      ensures forall id :: SlotsOf(id) == DeliverAll(old(SlotsOf(id)), Only(frames, id))
    {
      var i := 0;
      while i < |frames|
        invariant 0 <= i <= |frames|
        invariant forall id :: SlotsOf(id) == DeliverAll(old(SlotsOf(id)), Only(frames[..i], id))
      {
        ghost var before := frames[..i];
        Dispatch(frames[i]);
        assert frames[..i + 1] == before + [frames[i]];
        forall id ensures SlotsOf(id) == DeliverAll(old(SlotsOf(id)), Only(frames[..i + 1], id)) {
          OnlySnoc(before, frames[i], id);
          if HasId(frames[i], id) {
            DeliverAllSnoc(old(SlotsOf(id)), Only(before, id), frames[i]);
          }
        }
        i := i + 1;
      }
      assert frames[..i] == frames;
    }
  }
}

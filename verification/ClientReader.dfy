/**
  Whether the workspace's one read loop can go on. It handles frames itself: a pong waits for the lock that every
  writer of the tunnel takes, and a data frame waits for the local socket it is written to. The tunnel takes `cap`
  frames upward before a write to it waits; the server's read loop never waits, so it always takes the next one.
*/
module ClientReader {
  import opened Base64
  import opened Protocol

  /** Free: about to read. Passing: in a write to a local socket. Ponging: waiting for the lock or writing under it. */
  datatype Point = Free | Passing(f: DataFrame) | Ponging

  datatype Holder = Nobody | Goroutine | Reader

  /** `live` holds the ids with a local socket, `stalled` those whose socket takes nothing for now. */
  datatype Loop = Loop(
    point: Point, arrived: seq<Frame>, handled: seq<Frame>, down: seq<Frame>, lock: Holder, up: nat,
    live: set<Id>, stalled: set<Id>)

  const START := Loop(Free, [], [], [], Nobody, 0, {}, {})

  datatype Event =
    | Arrives(f: Frame)
    | Fetch
    | PassDone
    | ReaderLocks
    | GoroutineLocks
    | WriteDone
    | ServerReads
    | Opens(id: Id)
    | Closes(id: Id)
    | LocalTurns(id: Id, stalled: bool)

  predicate Enabled(s: Loop, e: Event, cap: nat) {
    match e
    case Fetch => s.point.Free? && s.down != []
    case PassDone => s.point.Passing? && s.point.f.id !in s.stalled
    case ReaderLocks => s.point.Ponging? && s.lock.Nobody?
    case GoroutineLocks => s.lock.Nobody?
    case WriteDone => !s.lock.Nobody? && s.up < cap
    case ServerReads => s.up > 0
    case _ => true
  }

  /** The socket of an id is closed: it leaves the table, and a write waiting for it fails at once. */
  function Closed(s: Loop, id: Id): Loop {
    s.(live := s.live - {id}, stalled := s.stalled - {id})
  }

  function Next(s: Loop, e: Event, cap: nat): Loop
    requires Enabled(s, e, cap)
  {
    match e
    case Arrives(f) => s.(arrived := s.arrived + [f], down := s.down + [f])
    case Fetch =>
      var f, t := s.down[0], s.(down := s.down[1..]);
      if f.Ping? then t.(point := Ponging)
      else if f.WSClose? then Closed(t, f.id).(handled := s.handled + [f])
      else if f.WSData? && f.id in s.live && Decode(f.data, Std).ok then t.(point := Passing(f))
      else t.(handled := s.handled + [f])
    case PassDone => s.(point := Free, handled := s.handled + [s.point.f])
    case ReaderLocks => s.(lock := Reader)
    case GoroutineLocks => s.(lock := Goroutine)
    case WriteDone =>
      if s.lock.Reader? then s.(point := Free, handled := s.handled + [Ping], lock := Nobody, up := s.up + 1)
      else s.(lock := Nobody, up := s.up + 1)
    case ServerReads => s.(up := s.up - 1)
    case Opens(id) => s.(live := s.live + {id})
    case Closes(id) => Closed(s, id)
    case LocalTurns(id, stalled) => s.(stalled := if stalled then s.stalled + {id} else s.stalled - {id})
  }

  ghost predicate RunFrom(s: Loop, es: seq<Event>, cap: nat)
    decreases |es|, 0
  {
    es == [] || (RunFrom(s, es[..|es| - 1], cap) && Enabled(AfterFrom(s, es[..|es| - 1], cap), es[|es| - 1], cap))
  }

  ghost function AfterFrom(s: Loop, es: seq<Event>, cap: nat): Loop
    requires RunFrom(s, es, cap)
    decreases |es|, 1
  {
    if es == [] then s else Next(AfterFrom(s, es[..|es| - 1], cap), es[|es| - 1], cap)
  }

  // ---- Order ----

  /** The frame in hand, if any. */
  function InHand(p: Point): seq<Frame> {
    match p
    case Free => []
    case Passing(f) => [f]
    case Ponging => [Ping]
  }

  ghost predicate LoopInv(s: Loop, cap: nat) {
    s.arrived == s.handled + InHand(s.point) + s.down && (s.lock.Reader? ==> s.point.Ponging?) && s.up <= cap
  }

  lemma FetchStep(s: Loop, cap: nat)
    requires LoopInv(s, cap) && Enabled(s, Fetch, cap)
    ensures LoopInv(Next(s, Fetch, cap), cap)
  {
    hide Decode;
    var f, rest := s.down[0], s.down[1..];
    assert s.arrived == s.handled + [f] + rest by {
      assert s.down == [f] + rest && s.handled + [] == s.handled;
    }
    assert s.handled + [f] + [] + rest == s.handled + [f] + rest;
  }

  lemma LoopStep(s: Loop, e: Event, cap: nat)
    requires LoopInv(s, cap) && Enabled(s, e, cap)
    ensures LoopInv(Next(s, e, cap), cap)
  {
    hide Decode;
    match e {
      case Fetch => FetchStep(s, cap);
      case Arrives(f) => assert s.handled + InHand(s.point) + (s.down + [f]) == s.arrived + [f];
      case PassDone => assert s.handled + [s.point.f] + [] == s.handled + [s.point.f];
      case WriteDone => assert s.handled + [Ping] + [] == s.handled + [Ping];
      case _ =>
    }
  }

  /** Frames are handled one after the other in the order they arrive, whoever they are for: while one is in hand,
      none behind it has been handled. */
  lemma {:induction false} HandledInOrder(es: seq<Event>, cap: nat)
    requires RunFrom(START, es, cap)
    ensures LoopInv(AfterFrom(START, es, cap), cap)
    decreases |es|
  {
    if es != [] {
      var n := |es| - 1;
      HandledInOrder(es[..n], cap);
      LoopStep(AfterFrom(START, es[..n], cap), es[n], cap);
    }
  }

  // ---- Progress ----

  /** A continuation in which no local socket starts or stops taking data, or is closed from its own side. */
  ghost predicate Quiet(s: Loop, es: seq<Event>, cap: nat) {
    RunFrom(s, es, cap) && forall e :: e in es ==> !e.LocalTurns? && !e.Closes?
  }

  /** Nothing that can happen short of a local socket's turn or close brings the loop back to reading. */
  ghost predicate Stuck(s: Loop, cap: nat) {
    forall es :: Quiet(s, es, cap) ==> !AfterFrom(s, es, cap).point.Free?
  }

  lemma {:induction false} StallHolds(s: Loop, es: seq<Event>, cap: nat)
    requires LoopInv(s, cap) && s.point.Passing? && s.point.f.id in s.stalled && Quiet(s, es, cap)
    ensures
      var t := AfterFrom(s, es, cap);
      t.point == s.point && t.handled == s.handled && t.stalled == s.stalled && LoopInv(t, cap)
    decreases |es|
  {
    hide Decode;
    if es != [] {
      var n := |es| - 1;
      assert forall e :: e in es[..n] ==> e in es;
      assert es[n] in es;
      StallHolds(s, es[..n], cap);
      LoopStep(AfterFrom(s, es[..n], cap), es[n], cap);
    }
  }

  /** The step that brings the loop closer to reading again. */
  function Helping(s: Loop, cap: nat): Event {
    if s.point.Passing? then PassDone
    else if s.lock.Nobody? then ReaderLocks
    else if s.up < cap then WriteDone
    else ServerReads
  }

  function Distance(s: Loop, cap: nat): nat {
    if s.point.Free? then 0
    else if s.point.Passing? then 1
    else (if s.lock.Reader? then 1 else if s.lock.Nobody? then 4 else 6) + (if s.up < cap then 0 else 1)
  }

  lemma {:induction false} GoesOn(s: Loop, cap: nat) returns (es: seq<Event>)
    requires cap > 0 && LoopInv(s, cap) && (s.point.Passing? ==> s.point.f.id !in s.stalled)
    ensures Quiet(s, es, cap) && AfterFrom(s, es, cap).point.Free?
    decreases Distance(s, cap)
  {
    if s.point.Free? {
      es := [];
    } else {
      var e := Helping(s, cap);
      var t := Next(s, e, cap);
      LoopStep(s, e, cap);
      var rest := GoesOn(t, cap);
      es := [e] + rest;
      Prepend(s, e, rest, cap);
    }
  }

  lemma {:induction false} Prepend(s: Loop, e: Event, rest: seq<Event>, cap: nat)
    requires Enabled(s, e, cap) && RunFrom(Next(s, e, cap), rest, cap)
    ensures RunFrom(s, [e] + rest, cap) && AfterFrom(s, [e] + rest, cap) == AfterFrom(Next(s, e, cap), rest, cap)
    decreases |rest|
  {
    hide Next, Enabled;
    var es := [e] + rest;
    if rest == [] {
      assert es[..0] == [] && es[0] == e && es == [e];
    } else {
      var n := |rest| - 1;
      Prepend(s, e, rest[..n], cap);
      assert es[..|es| - 1] == [e] + rest[..n] && es[|es| - 1] == rest[n];
    }
  }

  /** In every state the loop reaches, it is stuck exactly while it is writing to a local socket that takes nothing:
      waiting for the lock never sticks, because the server always takes what the holder writes. */
  lemma StuckIff(before: seq<Event>, cap: nat)
    requires cap > 0 && RunFrom(START, before, cap)
    ensures
      var s := AfterFrom(START, before, cap);
      Stuck(s, cap) <==> s.point.Passing? && s.point.f.id in s.stalled
  {
    HandledInOrder(before, cap);
    var s := AfterFrom(START, before, cap);
    hide RunFrom, AfterFrom, LoopInv;
    if s.point.Passing? && s.point.f.id in s.stalled {
      forall es | Quiet(s, es, cap)
        ensures !AfterFrom(s, es, cap).point.Free?
      {
        StallHolds(s, es, cap);
      }
    } else {
      var es := GoesOn(s, cap);
    }
  }

  /** And while it is stuck no frame is handled, for this request or any other. */
  lemma {:induction false} StuckHoldsAll(before: seq<Event>, es: seq<Event>, cap: nat)
    requires cap > 0 && RunFrom(START, before, cap) && Stuck(AfterFrom(START, before, cap), cap)
    requires Quiet(AfterFrom(START, before, cap), es, cap)
    ensures AfterFrom(AfterFrom(START, before, cap), es, cap).handled == AfterFrom(START, before, cap).handled
  {
    HandledInOrder(before, cap);
    StuckIff(before, cap);
    hide LoopInv, Stuck;
    StallHolds(AfterFrom(START, before, cap), es, cap);
  }
}

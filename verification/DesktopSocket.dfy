/**
  The desktop client's websocket service. The browser is the environment: it opens, fails and closes
  sockets (also ones the service has forgotten, whose callbacks still fire) and runs timers.
*/
module DesktopSocket {
  import opened Backoff
  import opened Sequences

  datatype ReadyState = Connecting | Open | Closing | Closed

  datatype Config = Config(reconnectInterval: nat, maxReconnectAttempts: nat)

  const MAX_DELAY: nat := 30000

  function Min(a: nat, b: nat): nat {
    if a < b then a else b
  }

  /** The wait before the reconnect attempt that follows `k` failed ones. */
  function Delay(config: Config, k: nat): nat {
    Min(config.reconnectInterval * Pow2(k), MAX_DELAY)
  }

  /** The first wait is the interval, each further one twice the one before, and none is longer than 30 seconds. */
  lemma DelayDoubles(config: Config, k: nat)
    ensures Delay(config, 0) == if config.reconnectInterval < 30000 then config.reconnectInterval else 30000
    ensures Delay(config, k + 1) == if 2 * Delay(config, k) < 30000 then 2 * Delay(config, k) else 30000
  {
    assert Pow2(0) == 1;
    assert config.reconnectInterval * Pow2(k + 1) == 2 * (config.reconnectInterval * Pow2(k));
  }

  /** `ws`, `reconnectAttempts`, `reconnectTimer` and `isConnecting` are the service's fields; `sockets` and
      `timers` are the browser's: every socket ever made, and the delay of every timer not yet run. */
  datatype State = State(
    ws: Option<nat>,
    reconnectAttempts: nat,
    reconnectTimer: Option<nat>,
    isConnecting: bool,
    sockets: seq<ReadyState>,
    timers: map<nat, nat>,
    nextTimer: nat)

  const FRESH := State(None, 0, None, false, [], map[], 0)

  datatype Event =
    | Connect(throws: bool)
    | Disconnect
    | Opened(socket: nat)
    | Errored(socket: nat)
    | ClosedBy(socket: nat, wasClean: bool)
    | TimerFires(timer: nat, throws: bool)

  predicate IsOpen(s: State) {
    s.ws.Some? && s.ws.value < |s.sockets| && s.sockets[s.ws.value].Open?
  }

  function Scheduled(s: State, config: Config): State {
    if s.reconnectTimer.Some? then s
    else
      s.(reconnectTimer := Some(s.nextTimer), nextTimer := s.nextTimer + 1,
         timers := s.timers[s.nextTimer := Delay(config, s.reconnectAttempts)])
  }

  function Connected(s: State, config: Config, throws: bool): State {
    if IsOpen(s) || s.isConnecting then s
    else if throws then Scheduled(s, config)
    else s.(isConnecting := true, ws := Some(|s.sockets|), sockets := s.sockets + [Connecting])
  }

  function CloseSocket(sockets: seq<ReadyState>, socket: nat): seq<ReadyState> {
    if socket < |sockets| && !sockets[socket].Closed? then sockets[socket := Closing] else sockets
  }

  function Disconnected(s: State): State {
    var timers := if s.reconnectTimer.Some? then s.timers - {s.reconnectTimer.value} else s.timers;
    s.(reconnectTimer := None, timers := timers, ws := None,
       sockets := if s.ws.Some? then CloseSocket(s.sockets, s.ws.value) else s.sockets)
  }

  predicate Enabled(s: State, e: Event) {
    match e
    case Connect(_) => true
    case Disconnect => true
    case Opened(k) => k < |s.sockets| && s.sockets[k].Connecting?
    case Errored(k) => k < |s.sockets| && !s.sockets[k].Closed?
    case ClosedBy(k, _) => k < |s.sockets| && !s.sockets[k].Closed?
    case TimerFires(t, _) => t in s.timers
  }

  function Next(s: State, e: Event, config: Config): State
    requires Enabled(s, e)
  {
    match e
    case Connect(throws) => Connected(s, config, throws)
    case Disconnect => Disconnected(s)
    case Opened(k) => s.(sockets := s.sockets[k := Open], isConnecting := false, reconnectAttempts := 0)
    case Errored(_) => s.(isConnecting := false)
    case ClosedBy(k, wasClean) =>
      var c := s.(sockets := s.sockets[k := Closed], isConnecting := false);
      if !wasClean && c.reconnectAttempts < config.maxReconnectAttempts then Scheduled(c, config) else c
    case TimerFires(t, throws) =>
      Connected(s.(timers := s.timers - {t}, reconnectTimer := None, reconnectAttempts := s.reconnectAttempts + 1),
                config, throws)
  }

  ghost function TimerDelay(s: State): nat {
    if s.reconnectTimer.Some? && s.reconnectTimer.value in s.timers then s.timers[s.reconnectTimer.value] else 0
  }

  /** The browser holds the timer the service knows of, and no other. */
  ghost predicate OneTimer(s: State) {
    s.timers == match s.reconnectTimer case None => map[] case Some(t) => map[t := TimerDelay(s)]
  }

  lemma OneTimerStep(s: State, e: Event, config: Config)
    requires Enabled(s, e) && OneTimer(s)
    ensures OneTimer(Next(s, e, config))
  {
    hide Delay;
  }

  class WebSocketService {
    const config: Config
    var ws: Option<nat>
    var reconnectAttempts: nat
    var reconnectTimer: Option<nat>
    var isConnecting: bool
    var sockets: seq<ReadyState>
    var timers: map<nat, nat>
    var nextTimer: nat

    ghost function Abs(): State
      reads this
    {
      State(ws, reconnectAttempts, reconnectTimer, isConnecting, sockets, timers, nextTimer)
    }

    ghost predicate Valid()
      reads this
    {
      OneTimer(Abs())
    }

    constructor (config: Config)
      ensures Valid() && this.config == config && Abs() == FRESH
    {
      this.config := config;
      ws, reconnectAttempts, reconnectTimer, isConnecting := None, 0, None, false;
      sockets, timers, nextTimer := [], map[], 0;
    }

    method ScheduleReconnect()
      modifies this
      ensures Abs() == Scheduled(old(Abs()), config)
    {
      if reconnectTimer.Some? {
        return;
      }
      var delay := Min(config.reconnectInterval * Pow2(reconnectAttempts), MAX_DELAY);
      timers := timers[nextTimer := delay];
      reconnectTimer := Some(nextTimer);
      nextTimer := nextTimer + 1;
    }

    method Connect(throws: bool)
      requires Valid()
      modifies this
      ensures Valid() && Abs() == Next(old(Abs()), Event.Connect(throws), config)
      ensures
        if old(IsOpen(Abs())) || old(isConnecting) then Abs() == old(Abs())
        else if throws then reconnectTimer.Some? && !isConnecting && sockets == old(sockets) && ws == old(ws)
        else isConnecting && ws == Some(|old(sockets)|) && sockets == old(sockets) + [Connecting]
    {
      OneTimerStep(Abs(), Event.Connect(throws), config);
      if (ws.Some? && ws.value < |sockets| && sockets[ws.value].Open?) || isConnecting {
        return;
      }
      isConnecting := true;
      if throws {
        isConnecting := false;
        ScheduleReconnect();
      } else {
        ws := Some(|sockets|);
        sockets := sockets + [Connecting];
      }
    }

    method Disconnect()
      requires Valid()
      modifies this
      ensures Valid() && Abs() == Next(old(Abs()), Event.Disconnect, config)
      ensures reconnectTimer.None? && timers == map[] && ws.None? && |sockets| == |old(sockets)|
      ensures forall k :: 0 <= k < |sockets| ==>
        if old(ws) == Some(k) then sockets[k] in {Closing, Closed} else sockets[k] == old(sockets)[k]
    {
      OneTimerStep(Abs(), Event.Disconnect, config);
      if reconnectTimer.Some? {
        timers := timers - {reconnectTimer.value};
        reconnectTimer := None;
      }
      if ws.Some? {
        sockets := CloseSocket(sockets, ws.value);
        ws := None;
      }
    }

    method OnOpen(k: nat)
      requires Valid() && Enabled(Abs(), Opened(k))
      modifies this
      ensures Valid() && Abs() == Next(old(Abs()), Opened(k), config)
      ensures sockets == old(sockets)[k := Open] && !isConnecting && reconnectAttempts == 0
      ensures ws == old(ws) && reconnectTimer == old(reconnectTimer) && timers == old(timers)
    {
      OneTimerStep(Abs(), Opened(k), config);
      sockets := sockets[k := Open];
      isConnecting := false;
      reconnectAttempts := 0;
    }

    method OnError(k: nat)
      requires Valid() && Enabled(Abs(), Errored(k))
      modifies this
      ensures Valid() && Abs() == Next(old(Abs()), Errored(k), config)
      ensures !isConnecting && sockets == old(sockets) && timers == old(timers) && ws == old(ws)
    {
      OneTimerStep(Abs(), Errored(k), config);
      isConnecting := false;
    }

    method OnClose(k: nat, wasClean: bool)
      requires Valid() && Enabled(Abs(), ClosedBy(k, wasClean))
      modifies this
      ensures Valid() && Abs() == Next(old(Abs()), ClosedBy(k, wasClean), config)
      ensures sockets == old(sockets)[k := Closed] && !isConnecting && reconnectAttempts == old(reconnectAttempts)
      ensures reconnectTimer.Some? <==>
        old(reconnectTimer).Some? || (!wasClean && reconnectAttempts < config.maxReconnectAttempts)
    {
      OneTimerStep(Abs(), ClosedBy(k, wasClean), config);
      sockets := sockets[k := Closed];
      isConnecting := false;
      if !wasClean && reconnectAttempts < config.maxReconnectAttempts {
        ScheduleReconnect();
      }
    }

    method OnTimer(t: nat, throws: bool)
      requires Valid() && Enabled(Abs(), TimerFires(t, throws))
      modifies this
      ensures Valid() && Abs() == Next(old(Abs()), TimerFires(t, throws), config)
      ensures reconnectAttempts == old(reconnectAttempts) + 1 && (!throws ==> timers == old(timers) - {t})
    {
      OneTimerStep(Abs(), TimerFires(t, throws), config);
      timers := timers - {t};
      reconnectTimer := None;
      reconnectAttempts := reconnectAttempts + 1;
      Connect(throws);
    }
  }

  // ---- Runs ----

  ghost predicate Run(es: seq<Event>, config: Config)
    decreases |es|, 0
  {
    es == [] || (Run(es[..|es| - 1], config) && Enabled(After(es[..|es| - 1], config), es[|es| - 1]))
  }

  ghost function After(es: seq<Event>, config: Config): State
    requires Run(es, config)
    decreases |es|, 1
  {
    if es == [] then FRESH else Next(After(es[..|es| - 1], config), es[|es| - 1], config)
  }

  predicate NeverThrows(es: seq<Event>) {
    forall e :: e in es ==> !(e.Connect? && e.throws) && !(e.TimerFires? && e.throws)
  }

  /** The delays of the timers that have fired since a socket last opened, in order. */
  ghost function Fired(es: seq<Event>, config: Config): seq<nat>
    requires Run(es, config)
  {
    if es == [] then []
    else
      var init, e := es[..|es| - 1], es[|es| - 1];
      match e
      case Opened(_) => []
      case TimerFires(t, _) => Fired(init, config) + [After(init, config).timers[t]]
      case _ => Fired(init, config)
  }

  /** If the timer pending when a socket last opened is still pending: the attempts that had been made when it was
      set. */
  ghost function LeftOver(es: seq<Event>, config: Config): Option<nat>
    requires Run(es, config)
  {
    if es == [] then None
    else
      var init, e := es[..|es| - 1], es[|es| - 1];
      match e
      case Opened(_) =>
        if After(init, config).reconnectTimer.None? then None
        else if LeftOver(init, config).Some? then LeftOver(init, config)
        else Some(After(init, config).reconnectAttempts)
      case TimerFires(_, _) => None
      case Disconnect => None
      case _ => LeftOver(init, config)
  }

  /** If the first timer to fire since a socket last opened was left over from before: the attempts it was set at. */
  ghost function FirstLeftOver(es: seq<Event>, config: Config): Option<nat>
    requires Run(es, config)
  {
    if es == [] then None
    else
      var init, e := es[..|es| - 1], es[|es| - 1];
      match e
      case Opened(_) => None
      case TimerFires(_, _) => if Fired(init, config) == [] then LeftOver(init, config) else FirstLeftOver(init, config)
      case _ => FirstLeftOver(init, config)
  }

  /** The wait before the timer-driven connect number `j` since an open. */
  function Wait(config: Config, leftOver: Option<nat>, j: nat): nat {
    Delay(config, if j == 0 && leftOver.Some? then leftOver.value else j)
  }

  /** One timer at most, and every delay tells how many attempts it was set after. */
  ghost predicate TimersOk(s: State, fired: seq<nat>, left: Option<nat>, first: Option<nat>, config: Config) {
    && OneTimer(s)
    && s.reconnectAttempts == |fired|
    && (s.reconnectTimer.Some? ==> TimerDelay(s) == Wait(config, left, |fired|))
    && (left.Some? ==> s.reconnectTimer.Some? && fired == [])
    && (fired == [] ==> first.None?)
    && (forall j :: 0 <= j < |fired| ==> fired[j] == Wait(config, first, j))
  }

  ghost predicate TimersInv(es: seq<Event>, config: Config)
    requires Run(es, config)
  {
    TimersOk(After(es, config), Fired(es, config), LeftOver(es, config), FirstLeftOver(es, config), config)
  }

  lemma OtherEvent(s: State, e: Event, fired: seq<nat>, left: Option<nat>, first: Option<nat>, config: Config)
    requires Enabled(s, e) && TimersOk(s, fired, left, first, config) && !e.TimerFires? && !e.Opened?
    ensures TimersOk(Next(s, e, config), fired, if e.Disconnect? then None else left, first, config)
  {
    OneTimerStep(s, e, config);
    hide Delay, OneTimer;
  }

  lemma TimerStep(init: seq<Event>, e: Event, config: Config)
    requires Run(init + [e], config) && Run(init, config) && TimersInv(init, config) && e.TimerFires?
    ensures TimersInv(init + [e], config)
  {
    var es := init + [e];
    assert es[..|es| - 1] == init && es[|es| - 1] == e;
    OneTimerStep(After(init, config), e, config);
    hide Delay;
  }

  lemma OpenedStep(init: seq<Event>, e: Event, config: Config)
    requires Run(init + [e], config) && Run(init, config) && TimersInv(init, config) && e.Opened?
    ensures TimersInv(init + [e], config)
  {
    var es := init + [e];
    assert es[..|es| - 1] == init && es[|es| - 1] == e;
    hide Delay;
  }

  lemma OtherStep(init: seq<Event>, e: Event, config: Config)
    requires Run(init + [e], config) && Run(init, config) && TimersInv(init, config) && !e.TimerFires? && !e.Opened?
    ensures TimersInv(init + [e], config)
  {
    var es := init + [e];
    assert es[..|es| - 1] == init && es[|es| - 1] == e;
    hide Delay, TimersOk, Next;
    OtherEvent(
      After(init, config), e, Fired(init, config), LeftOver(init, config), FirstLeftOver(init, config), config);
  }

  lemma {:induction false} TimersKept(es: seq<Event>, config: Config)
    requires Run(es, config)
    ensures TimersInv(es, config)
    decreases |es|
  {
    if es != [] {
      var init, e := es[..|es| - 1], es[|es| - 1];
      assert es == init + [e];
      TimersKept(init, config);
      hide Delay, TimersInv;
      if e.TimerFires? {
        TimerStep(init, e, config);
      } else if e.Opened? {
        OpenedStep(init, e, config);
      } else {
        OtherStep(init, e, config);
      }
    } else {
      hide Delay;
    }
  }

  // ---- The limit on attempts ----

  /** A pending timer means attempts are left. */
  predicate WithinLimit(s: State, config: Config) {
    s.timers != map[] ==> s.reconnectAttempts < config.maxReconnectAttempts
  }

  /** A construction is tried with the attempts used up, and throws: the one place that never looks at the limit. */
  predicate Exceeds(s: State, e: Event, config: Config) {
    && !IsOpen(s) && !s.isConnecting
    && match e
       case Connect(throws) => throws && s.reconnectTimer.None? && s.reconnectAttempts >= config.maxReconnectAttempts
       case TimerFires(_, throws) => throws && s.reconnectAttempts + 1 >= config.maxReconnectAttempts
       case _ => false
  }

  /** Attempts are left whenever a timer is pending, at every instant of the run. */
  ghost predicate LimitKept(es: seq<Event>, config: Config)
    requires Run(es, config)
  {
    WithinLimit(After(es, config), config) && (es != [] ==> LimitKept(es[..|es| - 1], config))
  }

  ghost predicate NeverExceeds(es: seq<Event>, config: Config)
    requires Run(es, config)
  {
    es != [] ==>
      NeverExceeds(es[..|es| - 1], config) && !Exceeds(After(es[..|es| - 1], config), es[|es| - 1], config)
  }

  lemma LimitStep(s: State, e: Event, config: Config)
    requires Enabled(s, e) && OneTimer(s) && WithinLimit(s, config)
    ensures WithinLimit(Next(s, e, config), config) <==> !Exceeds(s, e, config)
  {
    hide Delay;
    var t := Next(s, e, config);
    assert t.reconnectTimer.Some? ==> t.reconnectTimer.value in t.timers;
    assert s.reconnectTimer.Some? ==> s.reconnectTimer.value in s.timers;
  }

  /** The limit is kept throughout a run exactly when no construction throws with the attempts used up. */
  lemma {:induction false} LimitKeptIff(es: seq<Event>, config: Config)
    requires Run(es, config)
    ensures LimitKept(es, config) <==> NeverExceeds(es, config)
    decreases |es|
  {
    if es != [] {
      LimitKeptIff(es[..|es| - 1], config);
      TimersKept(es[..|es| - 1], config);
      hide Exceeds, WithinLimit, Next;
      if LimitKept(es[..|es| - 1], config) {
        LimitStep(After(es[..|es| - 1], config), es[|es| - 1], config);
      }
    }
  }

  lemma {:induction false} NeverThrowsKeepsLimit(es: seq<Event>, config: Config)
    requires Run(es, config) && NeverThrows(es)
    ensures LimitKept(es, config)
    decreases |es|
  {
    LimitKeptIff(es, config);
    if es != [] {
      var init := es[..|es| - 1];
      assert forall x :: x in init ==> x in es;
      assert es[|es| - 1] in es;
      NeverThrowsKeepsLimit(init, config);
      LimitKeptIff(init, config);
    }
  }

  lemma {:induction false} FiredWithinLimit(es: seq<Event>, config: Config)
    requires Run(es, config) && LimitKept(es, config)
    ensures |Fired(es, config)| <= config.maxReconnectAttempts
    decreases |es|
  {
    if es != [] {
      var init := es[..|es| - 1];
      FiredWithinLimit(init, config);
      TimersKept(init, config);
      hide Delay;
    }
  }

  /** In every run at most one timer is pending, and the timers that fire between two opens wait as long as the
      attempts they were set after say. While the limit is kept, as it is when making a socket never throws, a
      pending timer means attempts are left and at most the maximum of timers fire between two opens. */
  lemma ReconnectBounds(es: seq<Event>, config: Config)
    requires Run(es, config)
    ensures
      var s, fired := After(es, config), Fired(es, config);
      && |s.timers| <= 1
      && (forall j :: 0 <= j < |fired| ==> fired[j] == Wait(config, FirstLeftOver(es, config), j))
      && (NeverThrows(es) ==> LimitKept(es, config))
      && (LimitKept(es, config) ==> |fired| <= config.maxReconnectAttempts)
      && (LimitKept(es, config) && s.timers != map[] ==> s.reconnectAttempts < config.maxReconnectAttempts)
  {
    TimersKept(es, config);
    if NeverThrows(es) {
      NeverThrowsKeepsLimit(es, config);
    }
    if LimitKept(es, config) {
      FiredWithinLimit(es, config);
    }
  }

  // ---- The whole wait ----

  function Total(waits: seq<nat>): nat {
    if waits == [] then 0 else Total(waits[..|waits| - 1]) + waits[|waits| - 1]
  }

  /** The sum of the first `n` back-off delays. */
  function TotalDelay(config: Config, n: nat): nat {
    if n == 0 then 0 else TotalDelay(config, n - 1) + Delay(config, n - 1)
  }

  lemma {:induction false} TotalOfWaits(config: Config, leftOver: Option<nat>, waits: seq<nat>)
    requires forall j :: 0 <= j < |waits| ==> waits[j] == Wait(config, leftOver, j)
    ensures leftOver.None? || waits == [] ==> Total(waits) == TotalDelay(config, |waits|)
    ensures leftOver.Some? && waits != [] ==>
      Total(waits) + Delay(config, 0) == TotalDelay(config, |waits|) + Delay(config, leftOver.value)
    decreases |waits|
  {
    hide Delay;
    if waits != [] {
      TotalOfWaits(config, leftOver, waits[..|waits| - 1]);
    }
  }

  /** The whole wait over a run of failures is the sum of the back-off delays, but for a first timer left over
      from before the open: that one waited for the attempts made by then. So the sum is exact if and only if
      there was none, or its delay was the first one anyway. */
  lemma FailureWait(es: seq<Event>, config: Config)
    requires Run(es, config)
    ensures
      var fired, first := Fired(es, config), FirstLeftOver(es, config);
      && (first.Some? ==> Total(fired) + Delay(config, 0) == TotalDelay(config, |fired|) + Delay(config, first.value))
      && (Total(fired) == TotalDelay(config, |fired|)
          <==> (first.Some? ==> Delay(config, first.value) == Delay(config, 0)))
  {
    TimersKept(es, config);
    TotalOfWaits(config, FirstLeftOver(es, config), Fired(es, config));
    hide Delay;
  }

  // ---- Runs that show it ----

  lemma Extend(es: seq<Event>, config: Config, e: Event) returns (more: seq<Event>)
    requires Run(es, config) && Enabled(After(es, config), e)
    ensures more == es + [e] && Run(more, config) && After(more, config) == Next(After(es, config), e, config)
    ensures e.Opened? ==> Fired(more, config) == []
    ensures e.TimerFires? ==> Fired(more, config) == Fired(es, config) + [After(es, config).timers[e.timer]]
    ensures !e.Opened? && !e.TimerFires? ==> Fired(more, config) == Fired(es, config)
  {
    more := es + [e];
    assert more[..|es|] == es;
  }

  const DEFAULTS := Config(1000, 10)

  lemma DefaultDelays()
    ensures Delay(DEFAULTS, 0) == 1000 && Delay(DEFAULTS, 1) == 2000
  {
    assert Pow2(0) == 1 && Pow2(1) == 2;
  }

  lemma FirstConnect() returns (es: seq<Event>)
    ensures Run(es, DEFAULTS)
    ensures After(es, DEFAULTS) == State(Some(0), 0, None, true, [Connecting], map[], 0)
  {
    hide Delay;
    es := Extend([], DEFAULTS, Connect(false));
  }

  /** One failed connect, and the timer's retry failing too: a timer set after one attempt is pending. */
  lemma TwiceClosed() returns (es: seq<Event>)
    ensures Run(es, DEFAULTS)
    ensures After(es, DEFAULTS) == State(Some(1), 1, Some(1), false, [Closed, Closed], map[1 := 2000], 2)
  {
    hide Run, After, Fired, Delay;
    DefaultDelays();
    es := FirstConnect();
    es := Extend(es, DEFAULTS, ClosedBy(0, false));
    assert After(es, DEFAULTS) == State(Some(0), 0, Some(0), false, [Closed], map[0 := 1000], 1);
    es := Extend(es, DEFAULTS, TimerFires(0, false));
    assert After(es, DEFAULTS) == State(Some(1), 1, None, true, [Closed, Connecting], map[], 1);
    es := Extend(es, DEFAULTS, ClosedBy(1, false));
  }

  /** A socket connected by hand opens while that timer is pending: the next wait is the second delay, not the first. */
  lemma LeftOverWaitsLonger() returns (es: seq<Event>)
    ensures Run(es, DEFAULTS) && Fired(es, DEFAULTS) == [2000] && Delay(DEFAULTS, 0) == 1000
  {
    hide Run, After, Fired, Delay;
    DefaultDelays();
    es := TwiceClosed();
    es := Extend(es, DEFAULTS, Connect(false));
    var connecting := State(Some(2), 1, Some(1), true, [Closed, Closed, Connecting], map[1 := 2000], 2);
    assert After(es, DEFAULTS) == connecting;
    es := Extend(es, DEFAULTS, Opened(2));
    assert After(es, DEFAULTS).timers == map[1 := 2000] && Fired(es, DEFAULTS) == [];
    es := Extend(es, DEFAULTS, TimerFires(1, false));
  }

  /** A construction that always throws goes on for ever, whatever the limit: any number of attempts is reached
      with a timer pending. */
  lemma {:induction false} ThrowIgnoresLimit(config: Config, n: nat) returns (es: seq<Event>)
    ensures Run(es, config) && After(es, config).timers != map[] && After(es, config).reconnectAttempts == n
    ensures After(es, config).reconnectTimer.Some? && After(es, config).ws.None? && !After(es, config).isConnecting
    decreases n
  {
    hide Delay;
    if n == 0 {
      es := Extend([], config, Connect(true));
      assert After(es, config).reconnectTimer.value in After(es, config).timers;
    } else {
      var before := ThrowIgnoresLimit(config, n - 1);
      TimersKept(before, config);
      es := Extend(before, config, TimerFires(After(before, config).reconnectTimer.value, true));
      assert After(es, config).reconnectTimer.value in After(es, config).timers;
    }
  }

  /** Whatever came before: when a socket closes after a disconnect, a reconnect is pending exactly if it closed
      uncleanly with attempts left. A socket still connecting always closes uncleanly. */
  lemma DisconnectMayReconnect(es: seq<Event>, config: Config, k: nat, clean: bool) returns (more: seq<Event>)
    requires Run(es, config) && k < |After(es, config).sockets| && !After(es, config).sockets[k].Closed?
    ensures more == es + [Disconnect, ClosedBy(k, clean)] && Run(more, config)
    ensures After(more, config).timers != map[]
       <==> !clean && After(es, config).reconnectAttempts < config.maxReconnectAttempts
  {
    hide Delay;
    TimersKept(es, config);
    more := Extend(es, config, Disconnect);
    more := Extend(more, config, ClosedBy(k, clean));
    assert After(more, config).reconnectTimer.Some? ==>
      After(more, config).reconnectTimer.value in After(more, config).timers;
  }
}

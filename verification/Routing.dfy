/**
  From a subdomain to a live tunnel: the relay's table of connections and the leased Redis mapping,
  as steps of any number of tunnel goroutines, heartbeats and the clock. A key is present strictly
  before its deadline.
*/
module Routing {
  import opened Sequences
  import opened HostNames

  type ConnId = string

  /** Milliseconds. */
  const LEASE: nat := 120_000
  const HEARTBEAT: nat := 30_000

  datatype Entry = Entry(conn: ConnId, deadline: nat)

  /** `accepted` remembers the subdomain of every connection ever accepted, `published` those whose
      registration has run. */
  datatype Relay = Relay(
    clients: map<ConnId, string>,
    redis: map<string, Entry>,
    now: nat,
    accepted: map<ConnId, string>,
    published: set<ConnId>)

  const EMPTY := Relay(map[], map[], 0, map[], {})

  datatype Event =
    | Accept(conn: ConnId, sub: string)
    | Publish(conn: ConnId, ok: bool)
    | Renew(conn: ConnId)
    | Remove(conn: ConnId)
    | Pass(ms: nat)

  predicate Enabled(r: Relay, e: Event) {
    match e
    case Accept(conn, _) => conn !in r.accepted
    case Publish(conn, _) => conn in r.accepted && conn !in r.published
    case Renew(conn) => conn in r.accepted
    case Remove(_) => true
    case Pass(_) => true
  }

  predicate Present(r: Relay, sub: string) {
    sub in r.redis && r.now < r.redis[sub].deadline
  }

  function Next(r: Relay, e: Event): Relay
    requires Enabled(r, e)
  {
    match e
    case Accept(conn, sub) => r.(clients := r.clients[conn := sub], accepted := r.accepted[conn := sub])
    case Publish(conn, ok) =>
      var sub := r.accepted[conn];
      r.(redis := if ok then r.redis[sub := Entry(conn, r.now + LEASE)] else r.redis, published := r.published + {conn})
    case Renew(conn) =>
      var sub := r.accepted[conn];
      if Present(r, sub) then r.(redis := r.redis[sub := r.redis[sub].(deadline := r.now + LEASE)]) else r
    case Remove(conn) => r.(clients := r.clients - {conn})
    case Pass(ms) => r.(now := r.now + ms)
  }

  /** The connection a public request for `sub` is sent to. */
  function Route(r: Relay, sub: string): Option<ConnId> {
    if Present(r, sub) && r.redis[sub].conn in r.clients then Some(r.redis[sub].conn) else None
  }

  function RouteHost(r: Relay, host: string, domain: string): Option<ConnId> {
    var sub := SubdomainFromHost(host, domain);
    if sub.Some? then Route(r, sub.value) else None
  }

  // ---- The relay process ----

  /** Every entry names the subdomain its connection was accepted for. */
  ghost predicate Sound(r: Relay) {
    && (forall c :: c in r.clients ==> c in r.accepted && r.clients[c] == r.accepted[c])
    && (forall sub :: sub in r.redis ==> r.redis[sub].conn in r.accepted && r.accepted[r.redis[sub].conn] == sub)
  }

  lemma SoundStep(r: Relay, e: Event)
    requires Sound(r) && Enabled(r, e)
    ensures Sound(Next(r, e))
  {
  }

  /** The connection table under its lock, with the part of Redis and the clock it depends on. */
  class Server {
    var clients: map<ConnId, string>
    var redis: map<string, Entry>
    var now: nat
    var accepted: map<ConnId, string>
    var published: set<ConnId>

    function Abs(): Relay
      reads this
    {
      Relay(clients, redis, now, accepted, published)
    }

    ghost predicate Valid()
      reads this
    {
      Sound(Abs())
    }

    constructor ()
      ensures Valid() && Abs() == EMPTY
    {
      clients, redis, now, accepted, published := map[], map[], 0, map[], {};
    }

    method HandleTunnel(conn: ConnId, sub: string)
      requires Valid() && Enabled(Abs(), Event.Accept(conn, sub))
      modifies this
      ensures Valid() && Abs() == Next(old(Abs()), Event.Accept(conn, sub))
      ensures clients == old(clients)[conn := sub] && redis == old(redis) && accepted[conn] == sub
    {
      SoundStep(Abs(), Event.Accept(conn, sub));
      clients := clients[conn := sub];
      accepted := accepted[conn := sub];
    }

    /** The write to Redis that follows; its failure is ignored. */
    method Register(conn: ConnId, ok: bool)
      requires Valid() && Enabled(Abs(), Event.Publish(conn, ok))
      modifies this
      ensures Valid() && Abs() == Next(old(Abs()), Event.Publish(conn, ok))
      ensures redis == if ok then old(redis)[accepted[conn] := Entry(conn, now + 120_000)] else old(redis)
      ensures clients == old(clients) && accepted == old(accepted)
    {
      SoundStep(Abs(), Event.Publish(conn, ok));
      if ok {
        redis := redis[accepted[conn] := Entry(conn, now + LEASE)];
      }
      published := published + {conn};
    }

    /** One beat: it extends whatever mapping the subdomain has, and cannot bring a lapsed one back. */
    method Heartbeat(conn: ConnId)
      requires Valid() && Enabled(Abs(), Event.Renew(conn))
      modifies this
      ensures Valid() && Abs() == Next(old(Abs()), Event.Renew(conn))
      ensures clients == old(clients) && redis.Keys == old(redis).Keys
      ensures forall sub :: sub in redis ==>
        && redis[sub].conn == old(redis)[sub].conn
        && redis[sub].deadline ==
             if sub == accepted[conn] && now < old(redis)[sub].deadline then now + 120_000 else old(redis)[sub].deadline
    {
      SoundStep(Abs(), Event.Renew(conn));
      var sub := accepted[conn];
      if sub in redis && now < redis[sub].deadline {
        redis := redis[sub := redis[sub].(deadline := now + LEASE)];
      }
    }

    /** Redis keeps its mapping. */
    method RemoveClient(conn: ConnId)
      requires Valid()
      modifies this
      ensures Valid() && Abs() == Next(old(Abs()), Event.Remove(conn))
      ensures clients == old(clients) - {conn} && redis == old(redis)
    {
      SoundStep(Abs(), Event.Remove(conn));
      if conn in clients {
        clients := clients - {conn};
      }
    }

    method GetClient(conn: ConnId) returns (r: Option<ConnId>)
      ensures r == if conn in clients then Some(conn) else None
    {
      if conn in clients {
        return Some(conn);
      }
      return None;
    }

    /** The tunnel a public request is handed to: a live one, accepted for the very subdomain of the host. */
    method FindTunnel(host: string, domain: string) returns (r: Option<ConnId>)
      requires Valid()
      ensures r.Some? ==> r.value in clients && SubdomainFromHost(host, domain) == Some(clients[r.value])
      ensures r == RouteHost(Abs(), host, domain)
    {
      var sub := SubdomainFromHost(host, domain);
      if sub.None? {
        return None;
      }
      if sub.value !in redis || now >= redis[sub.value].deadline {
        return None;
      }
      r := GetClient(redis[sub.value].conn);
    }
  }

  // ---- Runs ----

  ghost predicate Run(es: seq<Event>)
    decreases |es|, 0
  {
    es == [] || (Run(es[..|es| - 1]) && Enabled(After(es[..|es| - 1]), es[|es| - 1]))
  }

  ghost function After(es: seq<Event>): Relay
    requires Run(es)
    decreases |es|, 1
  {
    if es == [] then EMPTY else Next(After(es[..|es| - 1]), es[|es| - 1])
  }

  // ---- The same questions answered from the history alone ----

  /** The last connection to have registered `sub` in Redis. */
  ghost function LastPublisher(es: seq<Event>, sub: string): Option<ConnId>
    requires Run(es)
  {
    if es == [] then None
    else
      var init, e := es[..|es| - 1], es[|es| - 1];
      if e.Publish? && e.ok && After(init).accepted[e.conn] == sub then Some(e.conn) else LastPublisher(init, sub)
  }

  /** The instants at which the lease of `sub` was granted or asked to be renewed, from its last registration on. */
  ghost function Refreshes(es: seq<Event>, sub: string): seq<nat>
    requires Run(es)
  {
    if es == [] then []
    else
      var init, e := es[..|es| - 1], es[|es| - 1];
      var before, ts := After(init), Refreshes(init, sub);
      if e.Publish? && e.ok && before.accepted[e.conn] == sub then [before.now]
      else if e.Renew? && before.accepted[e.conn] == sub && ts != [] then ts + [before.now]
      else ts
  }

  /** No two successive instants are a whole lease apart. */
  ghost predicate Unbroken(ts: seq<nat>) {
    forall i :: 0 <= i < |ts| - 1 ==> ts[i + 1] < ts[i] + LEASE
  }

  ghost predicate Leased(es: seq<Event>, sub: string)
    requires Run(es)
  {
    var ts := Refreshes(es, sub);
    ts != [] && Unbroken(ts) && After(es).now < ts[|ts| - 1] + LEASE
  }

  ghost predicate LeaseInv(es: seq<Event>, sub: string)
    requires Run(es)
  {
    var r, ts := After(es), Refreshes(es, sub);
    && (sub in r.redis <==> ts != [])
    && (ts != [] ==> ts[|ts| - 1] <= r.now)
    && (ts != [] && Unbroken(ts) ==> r.redis[sub].deadline == ts[|ts| - 1] + LEASE)
    && (ts != [] && !Unbroken(ts) ==> r.redis[sub].deadline <= r.now)
  }

  lemma UnbrokenSnoc(ts: seq<nat>, t: nat)
    requires ts != []
    ensures Unbroken(ts + [t]) <==> Unbroken(ts) && t < ts[|ts| - 1] + LEASE
  {
    var us := ts + [t];
    if Unbroken(us) {
      forall i | 0 <= i < |ts| - 1 ensures ts[i + 1] < ts[i] + LEASE {
        assert us[i + 1] < us[i] + LEASE;
      }
      assert us[|ts| - 1 + 1] < us[|ts| - 1] + LEASE;
    }
  }

  lemma LeaseStep(init: seq<Event>, e: Event, sub: string)
    requires Run(init + [e]) && Run(init) && LeaseInv(init, sub)
    ensures LeaseInv(init + [e], sub)
  {
    var es := init + [e];
    assert es[..|es| - 1] == init;
    var ts := Refreshes(init, sub);
    if ts != [] {
      UnbrokenSnoc(ts, After(init).now);
    }
    hide Unbroken;
  }

  lemma {:induction false} LeaseKept(es: seq<Event>, sub: string)
    requires Run(es)
    ensures LeaseInv(es, sub)
    decreases |es|
  {
    if es != [] {
      var init, e := es[..|es| - 1], es[|es| - 1];
      assert es == init + [e];
      LeaseKept(init, sub);
      LeaseStep(init, e, sub);
    }
  }

  /** At every instant of every run the mapping is there exactly when it has been registered and, since the
      last registration, asked for again before each lease ran out. So once a gap reaches a whole lease no
      heartbeat brings the mapping back; only a new registration, which starts the instants afresh, does. */
  lemma PresentIffLeased(es: seq<Event>, sub: string)
    requires Run(es)
    ensures Present(After(es), sub) <==> Leased(es, sub)
  {
    LeaseKept(es, sub);
  }

  /** On-time heartbeats keep a lease exactly when never three in a row are missed. */
  lemma MissedHeartbeats(ts: seq<nat>, missed: seq<nat>)
    requires |missed| + 1 == |ts|
    requires forall i :: 0 <= i < |missed| ==> ts[i + 1] == ts[i] + HEARTBEAT * (missed[i] + 1)
    ensures Unbroken(ts) <==> forall i :: 0 <= i < |missed| ==> missed[i] <= 2
  {
    forall i | 0 <= i < |missed|
      ensures ts[i + 1] < ts[i] + LEASE <==> missed[i] <= 2
    {
    }
    if Unbroken(ts) {
      forall i | 0 <= i < |missed| ensures missed[i] <= 2 {
        assert ts[i + 1] < ts[i] + LEASE;
      }
    }
  }

  // ---- Routing ----

  ghost predicate RouteInv(es: seq<Event>, sub: string)
    requires Run(es)
  {
    var r, last := After(es), LastPublisher(es, sub);
    && Sound(r)
    && (sub in r.redis <==> last.Some?)
    && (last.Some? ==> r.redis[sub].conn == last.value)
  }

  lemma {:induction false} RouteKept(es: seq<Event>, sub: string)
    requires Run(es)
    ensures RouteInv(es, sub)
    decreases |es|
  {
    if es != [] {
      RouteKept(es[..|es| - 1], sub);
      SoundStep(After(es[..|es| - 1]), es[|es| - 1]);
    }
  }

  /** Connections taken out of the table after they were accepted. */
  ghost predicate Removed(es: seq<Event>, conn: ConnId) {
    es != [] && (es[|es| - 1] == Remove(conn) || (Removed(es[..|es| - 1], conn) && !es[|es| - 1].Accept?)
                 || (Removed(es[..|es| - 1], conn) && es[|es| - 1].Accept? && es[|es| - 1].conn != conn))
  }

  lemma {:induction false} LiveIffNotRemoved(es: seq<Event>, conn: ConnId)
    requires Run(es)
    ensures conn in After(es).clients <==> conn in After(es).accepted && !Removed(es, conn)
    decreases |es|
  {
    if es != [] {
      LiveIffNotRemoved(es[..|es| - 1], conn);
    }
  }

  /** A request is sent to a connection exactly when that connection was the last to register the subdomain,
      has not been removed, and the lease has not lapsed; so never to a superseded tunnel or another's. */
  lemma RouteIsLatest(es: seq<Event>, sub: string, conn: ConnId)
    requires Run(es)
    ensures Route(After(es), sub) == Some(conn)
       <==> LastPublisher(es, sub) == Some(conn) && !Removed(es, conn) && Leased(es, sub)
    ensures Route(After(es), sub) == Some(conn) ==> After(es).clients[conn] == sub
  {
    RouteKept(es, sub);
    PresentIffLeased(es, sub);
    LiveIffNotRemoved(es, conn);
  }

  /** The host announced to a tunnel leads, with or without a port, to the latest tunnel of the same token. */
  lemma AnnouncedHostRoutes(es: seq<Event>, digest: seq<int>, domain: string, port: string)
    requires Run(es)
    requires |digest| == DIGEST_SIZE && (forall i :: 0 <= i < |digest| ==> 0 <= digest[i] < 256)
    requires ':' !in domain && OptionalPort(port)
    ensures
      var sub := DeterministicSubdomain(digest);
      RouteHost(After(es), PublicHost(sub, domain) + port, domain) == Route(After(es), sub)
  {
    PrintedHostParses(digest, domain, port);
  }

  lemma Extend(es: seq<Event>, e: Event) returns (more: seq<Event>)
    requires Run(es) && Enabled(After(es), e)
    ensures Run(more) && After(more) == Next(After(es), e)
  {
    more := es + [e];
    assert more[..|es|] == es;
  }

  /** Registration errors are ignored: a run in which the second tunnel's write to Redis fails leaves
      requests going to the first, although the second was accepted later and both are live. */
  lemma FailedRegistrationKeepsOld() returns (es: seq<Event>)
    ensures Run(es) && Route(After(es), "w") == Some("old")
    ensures "new" in After(es).clients && After(es).clients["new"] == "w"
  {
    es := Extend([], Accept("old", "w"));
    es := Extend(es, Publish("old", true));
    es := Extend(es, Accept("new", "w"));
    es := Extend(es, Publish("new", false));
  }
}

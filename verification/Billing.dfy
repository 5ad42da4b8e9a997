/**
  The billing webhook: Stripe events turned into subscription rows, an idempotency key per event, and a
  copy of each row for the relay. Every outside call may fail; deliveries may repeat in any order.
*/
module Billing {
  import opened Sequences

  /** How long an idempotency key lives, in seconds. */
  const KEY_TTL: nat := 86400
  const INT64_MAX: int := 0x7fff_ffff_ffff_ffff

  datatype Json = Str(s: string) | Num(r: real) | Obj(fields: map<string, Json>) | Other

  datatype Kind =
    | CheckoutCompleted
    | SubscriptionCreated
    | SubscriptionUpdated
    | SubscriptionDeleted
    | InvoicePaid
    | InvoiceFailed
    | Unhandled

  datatype StripeEvent = StripeEvent(id: string, kind: Kind, data: map<string, Json>)

  datatype Record = Record(
    workspaceId: string, customerId: string, subscriptionId: string, plan: string, status: string,
    periodEnd: Option<int>, relayTier: string, bandwidthMb: int, entityLimit: int, relayEnabled: bool)

  // ---- Reading an event ----

  function StrVal(m: map<string, Json>, k: string): string {
    if k in m && m[k].Str? then m[k].s else ""
  }

  function MapVal(m: map<string, Json>, k: string): map<string, Json> {
    if k in m && m[k].Obj? then m[k].fields else map[]
  }

  predicate OnlyDigits(s: string) {
    forall i :: 0 <= i < |s| ==> '0' <= s[i] <= '9'
  }

  function DigitsValue(s: string): nat
    requires OnlyDigits(s)
  {
    if s == "" then 0 else DigitsValue(s[..|s| - 1]) * 10 + (s[|s| - 1] as int - '0' as int)
  }

  /** Decimal text of a signed 64-bit integer. */
  function ParseInt(s: string): Option<int> {
    var signed := s != "" && (s[0] == '-' || s[0] == '+');
    var digits := if signed then s[1..] else s;
    if digits == "" || !OnlyDigits(digits) then None
    else
      var magnitude: int := DigitsValue(digits);
      var v := if signed && s[0] == '-' then -magnitude else magnitude;
      if -INT64_MAX - 1 <= v <= INT64_MAX then Some(v) else None
  }

  function ToInt64(v: Json): Option<int> {
    match v
    case Num(r) => Some(if r >= 0.0 then r.Floor else -(-r).Floor)
    case Str(s) => ParseInt(s)
    case _ => None
  }

  const PLANS := {"free", "pro", "team", "enterprise"}
  const STATUSES := {"active", "past_due", "canceled", "trialing"}

  function NormalizePlan(p: string): (r: string)
    ensures r in PLANS && (p in PLANS ==> r == p)
  {
    if p == "pro" || p == "team" || p == "enterprise" then p else "free"
  }

  function NormalizeStatus(s: string): (r: string)
    ensures r in STATUSES && (s in STATUSES ==> r == s)
  {
    if s == "active" || s == "past_due" || s == "canceled" || s == "trialing" then s else "active"
  }

  datatype Limits = Limits(tier: string, bandwidthMb: int, entities: int, enabled: bool)

  /** What a plan entitles a workspace to; -1 entities means no limit. */
  function PlanLimits(plan: string): Limits {
    if plan == "team" || plan == "enterprise" then Limits("team", 50 * 1024, -1, true)
    else if plan == "pro" then Limits("pro", 10 * 1024, 10, true)
    else Limits("free", 1024, 3, false)
  }

  predicate OfSubscription(k: Kind) {
    k.SubscriptionCreated? || k.SubscriptionUpdated? || k.SubscriptionDeleted?
  }

  function WorkspaceOf(e: StripeEvent): string {
    match e.kind
    case Unhandled => ""
    case CheckoutCompleted => StrVal(e.data, "client_reference_id")
    case _ => StrVal(MapVal(e.data, "metadata"), "workspace_id")
  }

  /** A completed checkout always buys a paid plan; invoices and deletions leave the free one. */
  function PlanOf(e: StripeEvent): string {
    var named := NormalizePlan(StrVal(MapVal(e.data, "metadata"), "plan"));
    match e.kind
    case CheckoutCompleted => if named == "free" then "pro" else named
    case SubscriptionCreated => named
    case SubscriptionUpdated => named
    case _ => "free"
  }

  function StatusOf(e: StripeEvent): string {
    match e.kind
    case SubscriptionCreated => NormalizeStatus(StrVal(e.data, "status"))
    case SubscriptionUpdated => NormalizeStatus(StrVal(e.data, "status"))
    case SubscriptionDeleted => "canceled"
    case InvoiceFailed => "past_due"
    case _ => "active"
  }

  function PeriodEndOf(e: StripeEvent): Option<int> {
    if !OfSubscription(e.kind) || "current_period_end" !in e.data then None
    else
      var v := ToInt64(e.data["current_period_end"]);
      if v.Some? && v.value > 0 then v else None
  }

  /** The row an event asks for, field by field; `None` if it names no workspace. */
  function Wanted(e: StripeEvent): Option<Record> {
    var limits := PlanLimits(PlanOf(e));
    if WorkspaceOf(e) == "" then None
    else Some(Record(
      WorkspaceOf(e),
      if e.kind.CheckoutCompleted? || OfSubscription(e.kind) then StrVal(e.data, "customer") else "",
      StrVal(e.data, if OfSubscription(e.kind) then "id" else "subscription"),
      PlanOf(e), StatusOf(e), PeriodEndOf(e), limits.tier, limits.bandwidthMb, limits.entities, limits.enabled))
  }

  // ---- What an event says, read off its data ----

  predicate Given(m: map<string, Json>, k: string, v: Json) {
    k in m && m[k] == v
  }

  predicate Says(m: map<string, Json>, k: string, v: string) {
    Given(m, k, Str(v))
  }

  predicate Noted(e: StripeEvent, k: string, v: string) {
    "metadata" in e.data && e.data["metadata"].Obj? && Says(e.data["metadata"].fields, k, v)
  }

  /** A field of the row holds the text found under `k`, or none where there is no text. */
  predicate Holds(field: string, e: StripeEvent, k: string) {
    if k in e.data && e.data[k].Str? then Says(e.data, k, field) else field == ""
  }

  /** The workspace an event is for: a checkout refers to it, every other event notes it in its metadata. */
  predicate IsFor(e: StripeEvent, ws: string) {
    ws != "" && !e.kind.Unhandled?
    && if e.kind.CheckoutCompleted? then Says(e.data, "client_reference_id", ws) else Noted(e, "workspace_id", ws)
  }

  const PAID := {"pro", "team", "enterprise"}

  /** A checkout buys the paid plan it names, and pro if it names none. */
  ghost predicate Bought(e: StripeEvent, r: Record) {
    && r.plan in PAID && (forall p :: p in PAID && Noted(e, "plan", p) ==> r.plan == p)
    && ((forall p :: p in PAID ==> !Noted(e, "plan", p)) ==> r.plan == "pro")
    && r.status == "active" && r.periodEnd.None?
    && Holds(r.customerId, e, "customer") && Holds(r.subscriptionId, e, "subscription")
  }

  /** A new or changed subscription has the plan and the status it names: free and active for none that is known. */
  ghost predicate Subscribed(e: StripeEvent, r: Record) {
    && (forall p :: p in PAID && Noted(e, "plan", p) ==> r.plan == p)
    && ((forall p :: p in PAID ==> !Noted(e, "plan", p)) ==> r.plan == "free")
    && (forall t :: t in STATUSES && Says(e.data, "status", t) ==> r.status == t)
    && ((forall t :: t in STATUSES ==> !Says(e.data, "status", t)) ==> r.status == "active")
  }

  /** The period ends at the positive number of seconds given, as a number or in decimal digits. */
  ghost predicate PeriodRead(e: StripeEvent, r: Record) {
    && (forall n: int, x: real ::
          (n > 0 && n as real <= x < n as real + 1.0 && Given(e.data, "current_period_end", Num(x))) ==>
            r.periodEnd == Some(n))
    && (forall n: int :: 0 < n <= INT64_MAX && Says(e.data, "current_period_end", Decimal(n)) ==>
          r.periodEnd == Some(n))
    && (r.periodEnd.Some? ==> "current_period_end" in e.data && r.periodEnd.value > 0)
  }

  /** The row an event leaves, by kind of event. */
  ghost predicate Leaves(e: StripeEvent, r: Record) {
    match e.kind
    case CheckoutCompleted => Bought(e, r)
    case SubscriptionCreated =>
      Subscribed(e, r) && PeriodRead(e, r) && Holds(r.customerId, e, "customer") && Holds(r.subscriptionId, e, "id")
    case SubscriptionUpdated =>
      Subscribed(e, r) && PeriodRead(e, r) && Holds(r.customerId, e, "customer") && Holds(r.subscriptionId, e, "id")
    case SubscriptionDeleted =>
      && r.plan == "free" && r.status == "canceled"
      && PeriodRead(e, r) && Holds(r.customerId, e, "customer") && Holds(r.subscriptionId, e, "id")
    case InvoicePaid =>
      && r.plan == "free" && r.status == "active"
      && r.periodEnd.None? && r.customerId == "" && Holds(r.subscriptionId, e, "subscription")
    case InvoiceFailed =>
      && r.plan == "free" && r.status == "past_due"
      && r.periodEnd.None? && r.customerId == "" && Holds(r.subscriptionId, e, "subscription")
    case Unhandled => false
  }

  function Decimal(n: nat): string {
    if n < 10 then [('0' as int + n) as char] else Decimal(n / 10) + [('0' as int + n % 10) as char]
  }

  lemma {:induction false} DecimalReads(n: nat)
    ensures Decimal(n) != "" && OnlyDigits(Decimal(n)) && DigitsValue(Decimal(n)) == n
    decreases n
  {
    var d := Decimal(n);
    if n >= 10 {
      DecimalReads(n / 10);
      assert d[..|d| - 1] == Decimal(n / 10);
    } else {
      assert d[..|d| - 1] == "" && DigitsValue("") == 0;
    }
  }

  /** Reading the decimal digits of a number gives it back, with either sign, as long as it fits 64 bits. */
  lemma ParseIntRoundTrip(n: int)
    requires n >= 0
    ensures ParseInt(Decimal(n)) == if n <= INT64_MAX then Some(n) else None
    ensures ParseInt("+" + Decimal(n)) == ParseInt(Decimal(n))
    ensures ParseInt("-" + Decimal(n)) == if n <= INT64_MAX + 1 then Some(-n) else None
  {
    DecimalReads(n);
    var d := Decimal(n);
    assert d[0] != '-' && d[0] != '+';
    assert ("+" + d)[1..] == d && ("-" + d)[1..] == d;
    hide OnlyDigits, DigitsValue, Decimal;
  }

  lemma PeriodIsRead(e: StripeEvent, r: Record)
    requires OfSubscription(e.kind) && r.periodEnd == PeriodEndOf(e)
    ensures PeriodRead(e, r)
  {
    forall n: int | 0 < n <= INT64_MAX && Says(e.data, "current_period_end", Decimal(n))
      ensures r.periodEnd == Some(n)
    {
      ParseIntRoundTrip(n);
    }
    hide ParseInt, Decimal;
  }

  lemma PlanIsNamed(e: StripeEvent, r: Record)
    requires e.kind.SubscriptionCreated? || e.kind.SubscriptionUpdated?
    requires r.plan == PlanOf(e) && r.status == StatusOf(e)
    ensures Subscribed(e, r)
  {
  }

  lemma PlanIsBought(e: StripeEvent, r: Record)
    requires e.kind.CheckoutCompleted? && Wanted(e) == Some(r)
    ensures Bought(e, r)
  {
  }

  /** An event asks for a row exactly if it is for a workspace, and then for the one that its data says. */
  lemma WantedSays(e: StripeEvent)
    ensures Wanted(e).Some? <==> exists ws :: IsFor(e, ws)
    ensures Wanted(e).Some? ==> IsFor(e, Wanted(e).value.workspaceId) && Leaves(e, Wanted(e).value)
  {
    if Wanted(e).Some? {
      var r := Wanted(e).value;
      assert IsFor(e, r.workspaceId);
      if OfSubscription(e.kind) {
        PeriodIsRead(e, r);
      }
      match e.kind {
        case CheckoutCompleted => PlanIsBought(e, r);
        case SubscriptionCreated => PlanIsNamed(e, r);
        case SubscriptionUpdated => PlanIsNamed(e, r);
        case _ =>
      }
      hide Bought, Subscribed, PeriodRead, IsFor;
    }
  }

  method ApplyPlanLimits(sub: Record) returns (r: Record)
    ensures r == sub.(plan := NormalizePlan(sub.plan), relayTier := PlanLimits(sub.plan).tier,
                      bandwidthMb := PlanLimits(sub.plan).bandwidthMb, entityLimit := PlanLimits(sub.plan).entities,
                      relayEnabled := PlanLimits(sub.plan).enabled)
  {
    r := sub;
    if r.plan == "team" || r.plan == "enterprise" {
      r := r.(relayTier := "team", bandwidthMb := 50 * 1024, entityLimit := -1, relayEnabled := true);
    } else if r.plan == "pro" {
      r := r.(relayTier := "pro", bandwidthMb := 10 * 1024, entityLimit := 10, relayEnabled := true);
    } else {
      r := r.(plan := "free", relayTier := "free", bandwidthMb := 1024, entityLimit := 3, relayEnabled := false);
    }
  }

  method Extract(e: StripeEvent) returns (result: Option<Record>)
    ensures result == Wanted(e)
    ensures result.Some? <==> exists ws :: IsFor(e, ws)
    ensures result.Some? ==> IsFor(e, result.value.workspaceId) && Leaves(e, result.value)
  {
    WantedSays(e);
    hide IsFor, Leaves;
    var metadata := MapVal(e.data, "metadata");
    var wsId := "";
    var sub := Record("", "", "", "free", "active", None, "free", 1024, 3, false);
    match e.kind {
    case CheckoutCompleted =>
      wsId := StrVal(e.data, "client_reference_id");
      sub := sub.(plan := NormalizePlan(StrVal(metadata, "plan")));
      if sub.plan == "free" {
        sub := sub.(plan := "pro");
      }
      sub := sub.(status := "active", customerId := StrVal(e.data, "customer"),
                  subscriptionId := StrVal(e.data, "subscription"));
    case Unhandled =>
      return None;
    case InvoicePaid =>
      wsId := StrVal(metadata, "workspace_id");
      sub := sub.(subscriptionId := StrVal(e.data, "subscription"), status := "active");
    case InvoiceFailed =>
      wsId := StrVal(metadata, "workspace_id");
      sub := sub.(subscriptionId := StrVal(e.data, "subscription"), status := "past_due");
    case _ =>
      wsId := StrVal(metadata, "workspace_id");
      sub := sub.(plan := NormalizePlan(StrVal(metadata, "plan")), status := NormalizeStatus(StrVal(e.data, "status")),
                  customerId := StrVal(e.data, "customer"), subscriptionId := StrVal(e.data, "id"));
      if e.kind.SubscriptionDeleted? {
        sub := sub.(plan := "free", status := "canceled");
      }
      if "current_period_end" in e.data {
        var v := ToInt64(e.data["current_period_end"]);
        if v.Some? && v.value > 0 {
          sub := sub.(periodEnd := v);
        }
      }
    }
    if wsId == "" {
      return None;
    }
    sub := sub.(workspaceId := wsId);
    sub := ApplyPlanLimits(sub);
    return Some(sub);
  }

  // ---- One delivery ----

  /** The relay's copy of a row. */
  datatype RelayPlan = RelayPlan(
    plan: string, status: string, relayTier: string, bandwidthMb: int, entityLimit: int, relayEnabled: bool,
    customerId: string, subscriptionId: string)

  function RelayPlanOf(r: Record): RelayPlan {
    RelayPlan(
      r.plan, r.status, r.relayTier, r.bandwidthMb, r.entityLimit, r.relayEnabled, r.customerId, r.subscriptionId)
  }

  datatype Email = Email(eventId: string, workspaceId: string, plan: string)

  /** Which of the calls made for a delivery fail. */
  datatype Faults = Faults(check: bool, upsert: bool, cache: bool, mark: bool, lookup: bool)

  datatype Delivery = Delivery(event: StripeEvent, at: nat, faults: Faults)

  /** Rows by workspace, idempotency keys with their expiry, the relay's copies, and the mails attempted. */
  datatype Service = Service(
    table: map<string, Record>, processed: map<string, nat>, relay: map<string, RelayPlan>, emails: seq<Email>)

  const EMPTY := Service(map[], map[], map[], [])

  predicate Skipped(s: Service, d: Delivery) {
    !d.faults.check && d.event.id in s.processed && d.at < s.processed[d.event.id]
  }

  /** The delivery gets as far as a successful upsert. */
  predicate Applies(s: Service, d: Delivery) {
    !Skipped(s, d) && Wanted(d.event).Some? && !d.faults.upsert
  }

  function Deliver(s: Service, d: Delivery): Service {
    if !Applies(s, d) then s
    else
      var sub := Wanted(d.event).value;
      Service(
        s.table[sub.workspaceId := sub],
        if d.faults.mark then s.processed else s.processed[d.event.id := d.at + KEY_TTL],
        if d.faults.cache then s.relay else s.relay[sub.workspaceId := RelayPlanOf(sub)],
        if d.event.kind.CheckoutCompleted? && !d.faults.lookup
        then s.emails + [Email(d.event.id, sub.workspaceId, sub.plan)] else s.emails)
  }

  class Handler {
    var table: map<string, Record>
    var processed: map<string, nat>
    var relay: map<string, RelayPlan>
    var emails: seq<Email>

    ghost function Abs(): Service
      reads this
    {
      Service(table, processed, relay, emails)
    }

    constructor ()
      ensures Abs() == EMPTY
    {
      table, processed, relay, emails := map[], map[], map[], [];
    }

    /** Returns the HTTP status of the response to a delivery whose signature was accepted. */
    method StripeWebhook(d: Delivery) returns (code: int)
      modifies this
      ensures Abs() == Deliver(old(Abs()), d)
      ensures code == if !Skipped(old(Abs()), d) && Wanted(d.event).Some? && d.faults.upsert then 500 else 200
    {
      if !d.faults.check {
        var key := d.event.id;
        if key in processed && d.at < processed[key] {
          return 200;
        }
      }
      var extracted := Extract(d.event);
      if extracted.None? {
        return 200;
      }
      var sub := extracted.value;
      if d.faults.upsert {
        return 500;
      }
      table := table[sub.workspaceId := sub];
      if !d.faults.cache {
        relay := relay[sub.workspaceId := RelayPlanOf(sub)];
      }
      if !d.faults.mark {
        processed := processed[d.event.id := d.at + KEY_TTL];
      }
      if d.event.kind == CheckoutCompleted && !d.faults.lookup {
        emails := emails + [Email(d.event.id, sub.workspaceId, sub.plan)];
      }
      return 200;
    }
  }

  function DeliverAll(ds: seq<Delivery>): Service {
    if ds == [] then EMPTY else Deliver(DeliverAll(ds[..|ds| - 1]), ds[|ds| - 1])
  }

  // ---- Each event counts once ----

  function Ids(es: seq<StripeEvent>): set<string> {
    set e | e in es :: e.id
  }

  /** A delivery whose upsert succeeds if it gets that far. */
  predicate CanSucceed(d: Delivery) {
    Wanted(d.event).Some? && !d.faults.upsert
  }

  /** Each event once, in the order of its first delivery that could succeed. */
  function FirstSuccesses(ds: seq<Delivery>): seq<StripeEvent> {
    if ds == [] then []
    else
      var init, d := FirstSuccesses(ds[..|ds| - 1]), ds[|ds| - 1];
      if CanSucceed(d) && d.event.id !in Ids(init) then init + [d.event] else init
  }

  /** The events whose rows were written, once for every time they were, in order. */
  function AppliedEvents(ds: seq<Delivery>): seq<StripeEvent> {
    if ds == [] then []
    else
      var init, d := ds[..|ds| - 1], ds[|ds| - 1];
      if Applies(DeliverAll(init), d) then AppliedEvents(init) + [d.event] else AppliedEvents(init)
  }

  /** The rows left by applying events one after the other. */
  function Applied(es: seq<StripeEvent>): map<string, Record> {
    if es == [] then map[]
    else
      var init, sub := Applied(es[..|es| - 1]), Wanted(es[|es| - 1]);
      if sub.Some? then init[sub.value.workspaceId := sub.value] else init
  }

  /** The first delivery of an event that could succeed. */
  function FirstDelivery(ds: seq<Delivery>, id: string): Option<Delivery> {
    if ds == [] then None
    else
      var init, d := FirstDelivery(ds[..|ds| - 1], id), ds[|ds| - 1];
      if init.Some? then init else if CanSucceed(d) && d.event.id == id then Some(d) else None
  }

  /** The key of a first success stops a repeat: it was written, is looked up, and has not expired. */
  predicate Guards(first: Delivery, again: Delivery) {
    !first.faults.mark && !again.faults.check && again.at < first.at + KEY_TTL
  }

  /** Every delivery that could apply an event a second time finds the key of the first. */
  ghost predicate Reliable(ds: seq<Delivery>) {
    forall j :: 0 <= j < |ds| && CanSucceed(ds[j]) && FirstDelivery(ds[..j], ds[j].event.id).Some? ==>
      Guards(FirstDelivery(ds[..j], ds[j].event.id).value, ds[j])
  }

  ghost predicate Distinct(es: seq<StripeEvent>) {
    forall i, j :: 0 <= i < j < |es| ==> es[i].id != es[j].id
  }

  function EmailsFor(emails: seq<Email>, id: string): nat {
    if emails == [] then 0
    else EmailsFor(emails[..|emails| - 1], id) + (if emails[|emails| - 1].eventId == id then 1 else 0)
  }

  /** A key is held for each event whose first success wrote one, and lives on from that delivery. */
  ghost predicate KeysOk(s: Service, ds: seq<Delivery>) {
    forall id ::
      var first := FirstDelivery(ds, id);
      && (id in s.processed <==> first.Some? && !first.value.faults.mark)
      && (id in s.processed ==> s.processed[id] == first.value.at + KEY_TTL)
  }

  lemma IdsSnoc(es: seq<StripeEvent>, e: StripeEvent)
    ensures Ids(es + [e]) == Ids(es) + {e.id}
  {
    assert forall x :: x in es + [e] <==> x in es || x == e;
  }

  lemma {:induction false} FirstSuccessesAreFirst(ds: seq<Delivery>, id: string)
    ensures id in Ids(FirstSuccesses(ds)) <==> FirstDelivery(ds, id).Some?
    decreases |ds|
  {
    if ds != [] {
      hide Ids, CanSucceed;
      FirstSuccessesAreFirst(ds[..|ds| - 1], id);
      FirstSuccessesAreFirst(ds[..|ds| - 1], ds[|ds| - 1].event.id);
      IdsSnoc(FirstSuccesses(ds[..|ds| - 1]), ds[|ds| - 1].event);
    } else {
      assert Ids([]) == {};
    }
  }

  /** Whatever fails, no key exists for an event that never had a chance to succeed. */
  lemma {:induction false} KeyNeedsSuccess(ds: seq<Delivery>, id: string)
    ensures id in DeliverAll(ds).processed ==> FirstDelivery(ds, id).Some?
    decreases |ds|
  {
    if ds != [] {
      hide Wanted, Skipped;
      KeyNeedsSuccess(ds[..|ds| - 1], id);
    }
  }

  /** So the first delivery that could succeed is always applied. */
  lemma FirstApplies(ds: seq<Delivery>, d: Delivery)
    requires CanSucceed(d) && FirstDelivery(ds, d.event.id).None?
    ensures Applies(DeliverAll(ds), d)
  {
    KeyNeedsSuccess(ds, d.event.id);
    hide Wanted, DeliverAll, FirstDelivery;
  }

  /** Events are applied at least once each; if no more often in total, then exactly once, in that order. */
  lemma {:induction false} AppliedAtLeastOnce(ds: seq<Delivery>)
    ensures |FirstSuccesses(ds)| <= |AppliedEvents(ds)|
    ensures |FirstSuccesses(ds)| == |AppliedEvents(ds)| ==> FirstSuccesses(ds) == AppliedEvents(ds)
    decreases |ds|
  {
    if ds != [] {
      var init, d := ds[..|ds| - 1], ds[|ds| - 1];
      AppliedAtLeastOnce(init);
      FirstSuccessesAreFirst(init, d.event.id);
      if CanSucceed(d) && FirstDelivery(init, d.event.id).None? {
        FirstApplies(init, d);
      }
      hide CanSucceed, Applies, FirstDelivery, DeliverAll, Ids;
    }
  }

  lemma ReliableSnoc(ds: seq<Delivery>)
    requires ds != []
    ensures
      var init, d := ds[..|ds| - 1], ds[|ds| - 1];
      Reliable(ds) <==> Reliable(init) && (CanSucceed(d) && FirstDelivery(init, d.event.id).Some? ==>
        Guards(FirstDelivery(init, d.event.id).value, d))
  {
    hide CanSucceed, FirstDelivery, Guards;
    var n := |ds| - 1;
    assert forall j :: 0 <= j < n ==> ds[..n][..j] == ds[..j] && ds[..n][j] == ds[j];
  }

  /** One more delivery, after a list in which every event was applied once. */
  lemma OneMore(init: seq<Delivery>, d: Delivery)
    requires KeysOk(DeliverAll(init), init)
    ensures
      var first := FirstDelivery(init, d.event.id);
      && (Applies(DeliverAll(init), d) <==> CanSucceed(d) && (first.Some? ==> !Guards(first.value, d)))
      && (first.None? || !Applies(DeliverAll(init), d) ==> KeysOk(DeliverAll(init + [d]), init + [d]))
  {
    hide Wanted;
    assert (init + [d])[..|init|] == init;
    if CanSucceed(d) && FirstDelivery(init, d.event.id).None? {
      FirstApplies(init, d);
    }
    hide DeliverAll;
    assert DeliverAll(init + [d]) == Deliver(DeliverAll(init), d) by { DeliverSnoc(init, d); }
    forall id
      ensures FirstDelivery(init + [d], id) == FirstDelivery(init, id)
        || (FirstDelivery(init, id).None? && CanSucceed(d) && d.event.id == id
            && FirstDelivery(init + [d], id) == Some(d))
      ensures FirstDelivery(init + [d], id).None? && d.event.id == id ==> !CanSucceed(d)
    {
    }
    hide FirstDelivery;
  }

  lemma DeliverSnoc(init: seq<Delivery>, d: Delivery)
    ensures DeliverAll(init + [d]) == Deliver(DeliverAll(init), d)
  {
    assert (init + [d])[..|init|] == init;
  }

  lemma {:induction false} OnceEachKeepsKeys(ds: seq<Delivery>)
    ensures AppliedEvents(ds) == FirstSuccesses(ds) <==> Reliable(ds)
    ensures Reliable(ds) ==> KeysOk(DeliverAll(ds), ds)
    decreases |ds|
  {
    if ds != [] {
      var init, d := ds[..|ds| - 1], ds[|ds| - 1];
      InitLast(ds);
      OnceEachKeepsKeys(init);
      ReliableSnoc(ds);
      AppliedAtLeastOnce(init);
      AppliedAtLeastOnce(ds);
      FirstSuccessesAreFirst(init, d.event.id);
      if Reliable(init) {
        OneMore(init, d);
      } else if CanSucceed(d) && FirstDelivery(init, d.event.id).None? {
        FirstApplies(init, d);
      }
      hide Applies, DeliverAll, FirstDelivery, Ids, Guards, KeysOk, Reliable, CanSucceed;
    }
  }

  /** Exactly when an event counts once: the rows are written for each event once, in the order of its first
      success, if and only if every later delivery that could apply it again finds its key. */
  lemma AppliedOnceIff(ds: seq<Delivery>)
    ensures AppliedEvents(ds) == FirstSuccesses(ds) <==> Reliable(ds)
  {
    OnceEachKeepsKeys(ds);
  }

  /** Then the keys held are those written by the first successes. */
  lemma KeysKept(ds: seq<Delivery>)
    requires Reliable(ds)
    ensures KeysOk(DeliverAll(ds), ds)
  {
    OnceEachKeepsKeys(ds);
  }

  /** With reliable keys a delivery is applied exactly when its event has not been applied before. */
  lemma AppliesIffNew(ds: seq<Delivery>)
    requires Reliable(ds) && ds != []
    ensures
      var init, d := ds[..|ds| - 1], ds[|ds| - 1];
      Applies(DeliverAll(init), d) <==> CanSucceed(d) && d.event.id !in Ids(FirstSuccesses(init))
  {
    var init, d := ds[..|ds| - 1], ds[|ds| - 1];
    ReliableSnoc(ds);
    KeysKept(init);
    OneMore(init, d);
    FirstSuccessesAreFirst(init, d.event.id);
    hide *;
  }

  /** The list of first successes holds no event twice, by its construction. */
  lemma {:induction false} FirstSuccessesDistinct(ds: seq<Delivery>)
    ensures Distinct(FirstSuccesses(ds))
    decreases |ds|
  {
    hide CanSucceed;
    if ds != [] {
      FirstSuccessesDistinct(ds[..|ds| - 1]);
    }
  }

  /** Whatever fails, the table is what the applied events leave. */
  lemma {:induction false} TableIsApplied(ds: seq<Delivery>)
    ensures DeliverAll(ds).table == Applied(AppliedEvents(ds))
    decreases |ds|
  {
    if ds != [] {
      var init, d := ds[..|ds| - 1], ds[|ds| - 1];
      TableIsApplied(init);
      assert (AppliedEvents(init) + [d.event])[..|AppliedEvents(init)|] == AppliedEvents(init);
      hide Wanted, Skipped;
    }
  }

  /** For any list of deliveries with duplicates and failures in which the keys hold, the table is what applying
      each event once would leave, in the order of first success. */
  lemma CountsOnce(ds: seq<Delivery>)
    requires Reliable(ds)
    ensures DeliverAll(ds).table == Applied(FirstSuccesses(ds))
    ensures Distinct(FirstSuccesses(ds))
  {
    AppliedOnceIff(ds);
    TableIsApplied(ds);
    FirstSuccessesDistinct(ds);
  }

  lemma EmailsSnoc(emails: seq<Email>, m: Email, id: string)
    ensures EmailsFor(emails + [m], id) == EmailsFor(emails, id) + (if m.eventId == id then 1 else 0)
  {
    assert (emails + [m])[..|emails|] == emails;
  }

  /** Under the same conditions an upgrade mail is attempted at most once per event, and only for applied events. */
  lemma {:induction false} OneMailPerEvent(ds: seq<Delivery>, id: string)
    requires Reliable(ds)
    ensures EmailsFor(DeliverAll(ds).emails, id) <= if id in Ids(FirstSuccesses(ds)) then 1 else 0
    decreases |ds|
  {
    if ds != [] {
      var init, d := ds[..|ds| - 1], ds[|ds| - 1];
      ReliableSnoc(ds);
      OneMailPerEvent(init, id);
      AppliesIffNew(ds);
      IdsSnoc(FirstSuccesses(init), d.event);
      if Wanted(d.event).Some? {
        var sub := Wanted(d.event).value;
        EmailsSnoc(DeliverAll(init).emails, Email(d.event.id, sub.workspaceId, sub.plan), id);
      }
      hide Wanted, Applies, Ids, EmailsFor, Reliable, CanSucceed;
    }
  }

  // ---- Rows and copies, whatever fails ----

  ghost predicate RowOk(ws: string, r: Record) {
    && ws != "" && r.workspaceId == ws && r.plan in PLANS && r.status in STATUSES
    && PlanLimits(r.plan) == Limits(r.relayTier, r.bandwidthMb, r.entityLimit, r.relayEnabled)
  }

  lemma WantedRowOk(e: StripeEvent)
    requires Wanted(e).Some?
    ensures RowOk(WorkspaceOf(e), Wanted(e).value)
  {
  }

  /** The relay's copy tells the same of a workspace as its row. */
  ghost predicate Agrees(copy: RelayPlan, r: Record) {
    && copy.plan == r.plan && copy.status == r.status && copy.relayTier == r.relayTier
    && copy.bandwidthMb == r.bandwidthMb && copy.entityLimit == r.entityLimit && copy.relayEnabled == r.relayEnabled
    && copy.customerId == r.customerId && copy.subscriptionId == r.subscriptionId
  }

  /** Whether the relay's copy was written when the workspace's row was last written. */
  function LastCopied(ds: seq<Delivery>, ws: string): bool {
    if ds == [] then false
    else
      var init, d := ds[..|ds| - 1], ds[|ds| - 1];
      if Applies(DeliverAll(init), d) && WorkspaceOf(d.event) == ws then !d.faults.cache else LastCopied(init, ws)
  }

  /** In every reachable state, under any faults, each row's limits are those of its plan, and the relay's copy
      agrees with the row of every workspace whose latest cache write succeeded. */
  lemma {:induction false} RowsConsistent(ds: seq<Delivery>, ws: string)
    ensures
      var s := DeliverAll(ds);
      && (ws in s.table ==> RowOk(ws, s.table[ws]))
      && (LastCopied(ds, ws) ==> ws in s.table && ws in s.relay && Agrees(s.relay[ws], s.table[ws]))
    decreases |ds|
  {
    if ds != [] {
      var init, d := ds[..|ds| - 1], ds[|ds| - 1];
      RowsConsistent(init, ws);
      if Wanted(d.event).Some? {
        WantedRowOk(d.event);
        assert Wanted(d.event).value.workspaceId == WorkspaceOf(d.event);
      }
      hide Wanted, RowOk, WorkspaceOf, Skipped;
    }
  }

  /** The order of the plans: free, pro, and above them team and enterprise alike. */
  function Rank(plan: string): nat {
    if plan == "team" || plan == "enterprise" then 2 else if plan == "pro" then 1 else 0
  }

  /** In every reachable state the relay is enabled for exactly the paid plans, a higher plan has strictly more
      bandwidth and admits strictly more entities, and equally high ones are entitled to the same. */
  lemma EntitlementsRise(ds: seq<Delivery>, a: string, b: string)
    requires a in DeliverAll(ds).table && b in DeliverAll(ds).table
    ensures
      var ra, rb := DeliverAll(ds).table[a], DeliverAll(ds).table[b];
      && (ra.relayEnabled <==> ra.plan in PAID)
      && (Rank(ra.plan) < Rank(rb.plan) ==>
            ra.bandwidthMb < rb.bandwidthMb
            && 0 < ra.entityLimit && (rb.entityLimit == -1 || ra.entityLimit < rb.entityLimit))
      && (Rank(ra.plan) == Rank(rb.plan) ==>
            ra.bandwidthMb == rb.bandwidthMb && ra.entityLimit == rb.entityLimit && ra.relayTier == rb.relayTier)
  {
    RowsConsistent(ds, a);
    RowsConsistent(ds, b);
    hide DeliverAll;
  }

  /** After any deliveries, one more that gets past the key and the database leaves the row its data says, for the
      workspace it is for and no other; a first purchase is confirmed by one mail that names the plan bought; and
      any other delivery changes nothing. */
  lemma DeliveryLeaves(ds: seq<Delivery>, d: Delivery, ws: string)
    requires IsFor(d.event, ws)
    ensures
      var before, after := DeliverAll(ds), DeliverAll(ds + [d]);
      if Skipped(before, d) || d.faults.upsert then after == before
      else
        && ws in after.table && Leaves(d.event, after.table[ws])
        && (forall other :: other != ws ==> (other in before.table <==> other in after.table))
        && (forall other :: other in before.table && other != ws ==> after.table[other] == before.table[other])
        && after.emails == before.emails
             + if d.event.kind.CheckoutCompleted? && !d.faults.lookup
               then [Email(d.event.id, ws, after.table[ws].plan)] else []
  {
    DeliverSnoc(ds, d);
    WantedSays(d.event);
    IsForOne(d.event, ws, Wanted(d.event).value.workspaceId);
    var s := DeliverAll(ds);
    assert s.emails + [] == s.emails;
    hide Wanted, DeliverAll, Leaves, IsFor, Skipped;
  }

  lemma IsForOne(e: StripeEvent, a: string, b: string)
    requires IsFor(e, a) && IsFor(e, b)
    ensures a == b
  {
  }

  /** An event that is for no workspace changes nothing. */
  lemma StrayEventIgnored(ds: seq<Delivery>, d: Delivery)
    requires forall ws :: !IsFor(d.event, ws)
    ensures DeliverAll(ds + [d]) == DeliverAll(ds)
  {
    DeliverSnoc(ds, d);
    WantedSays(d.event);
    hide Wanted, DeliverAll, IsFor, Leaves;
  }

  predicate SameEntitlement(a: Record, b: Record) {
    && a.plan == b.plan && a.relayTier == b.relayTier && a.bandwidthMb == b.bandwidthMb
    && a.entityLimit == b.entityLimit && a.relayEnabled == b.relayEnabled
  }

  /** After any deliveries, an invoice event that is applied puts its workspace on the free plan and forgets its
      customer and period. So what the workspace is entitled to stays as it was exactly if its plan was free
      already; no other workspace is touched. */
  lemma InvoiceKeepsPlanIff(ds: seq<Delivery>, d: Delivery)
    requires d.event.kind.InvoicePaid? || d.event.kind.InvoiceFailed?
    requires Applies(DeliverAll(ds), d)
    ensures
      var ws, before, after := WorkspaceOf(d.event), DeliverAll(ds).table, DeliverAll(ds + [d]).table;
      && ws in after && after[ws].plan == "free" && after[ws].customerId == "" && after[ws].periodEnd.None?
      && (ws in before ==> (SameEntitlement(before[ws], after[ws]) <==> before[ws].plan == "free"))
      && (forall other :: other != ws ==> (other in before <==> other in after))
      && (forall other :: other in before && other != ws ==> after[other] == before[other])
  {
    var ws, s := WorkspaceOf(d.event), DeliverAll(ds);
    DeliverSnoc(ds, d);
    RowsConsistent(ds, ws);
    WantedRowOk(d.event);
    assert Wanted(d.event).value.workspaceId == ws && Wanted(d.event).value.plan == "free";
    assert Wanted(d.event).value.customerId == "" && Wanted(d.event).value.periodEnd.None?;
    assert Deliver(s, d).table == s.table[ws := Wanted(d.event).value];
    hide Wanted, DeliverAll, Deliver, WorkspaceOf;
  }

  const BOUGHT := StripeEvent("evt_1", CheckoutCompleted, map["client_reference_id" := Str("ws")])
  const CANCELED := StripeEvent("evt_2", SubscriptionDeleted, map["metadata" := Obj(map["workspace_id" := Str("ws")])])
  const FINE := Faults(false, false, false, false, false)

  lemma BoughtThenCanceled()
    ensures Wanted(BOUGHT).Some? && Wanted(BOUGHT).value.workspaceId == "ws" && Wanted(BOUGHT).value.plan == "pro"
    ensures Wanted(CANCELED).Some?
      && Wanted(CANCELED).value.workspaceId == "ws" && Wanted(CANCELED).value.plan == "free"
  {
  }

  /** When writing the key fails, a repeated old event overwrites a newer one: the canceled plan is back. */
  lemma LostKeyReplays() returns (ds: seq<Delivery>)
    ensures "ws" in DeliverAll(ds).table && DeliverAll(ds).table["ws"].plan == "pro"
    ensures "ws" in Applied(FirstSuccesses(ds)) && Applied(FirstSuccesses(ds))["ws"].plan == "free"
    ensures !Reliable(ds)
  {
    hide Wanted;
    BoughtThenCanceled();
    var d1, d2, d3 := Delivery(BOUGHT, 0, FINE.(mark := true)), Delivery(CANCELED, 1, FINE), Delivery(BOUGHT, 2, FINE);
    ds := [d1, d2, d3];
    assert ds[..2] == [d1, d2] && [d1, d2][..1] == [d1] && [d1][..0] == [];
    assert FirstSuccesses([d1]) == [BOUGHT];
    assert FirstSuccesses([d1, d2]) == [BOUGHT, CANCELED];
    assert BOUGHT.id in Ids([BOUGHT, CANCELED]) by { assert BOUGHT in [BOUGHT, CANCELED]; }
    assert FirstSuccesses(ds) == [BOUGHT, CANCELED];
    assert [BOUGHT, CANCELED][..1] == [BOUGHT] && [BOUGHT][..0] == [];
    assert DeliverAll([d1]).processed == map[];
    assert Applies(DeliverAll([d1]), d2);
    assert DeliverAll([d1, d2]).processed == map["evt_2" := 1 + KEY_TTL];
    assert Applies(DeliverAll([d1, d2]), d3);
    if Reliable(ds) {
      CountsOnce(ds);
    }
  }
}

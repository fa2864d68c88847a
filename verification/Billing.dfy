/**
 The billing ledger: subscriptions, host counters, transactions, billing records and the plan cache, and what
 payment-provider events and lookups do to them. Times are in seconds.
 */
module Billing {
  import opened Text

  type HostId = string
  type PlanId = string

  const DAY := 24 * 3600
  const PLAN_TTL := 3600
  const FREE_PLAN_TTL := 600
  const RESET_AFTER := 31 * DAY

  datatype SubStatus = Active | PastDue | Canceled | InGrace | AwaitingPayment | OtherStatus(name: string)

  /** The product ids and the trial terms of a plan, which its JSON form leaves out. */
  datatype Terms = Terms(
    monthlyProduct: string, yearlyProduct: string, trialEnabled: bool, trialDays: int, trialToken: string)

  const NO_TERMS := Terms("", "", false, 0, "")

  datatype Plan = Plan(name: string, tier: string, isFree: bool, maxQueuesPerMonth: int, terms: Terms)

  /** A plan after the cache has encoded and decoded it. */
  function Encoded(p: Plan): Plan { p.(terms := NO_TERMS) }

  datatype Subscription = Subscription(
    planId: PlanId, status: SubStatus, cycle: string, graceUntil: Option<int>,
    cancelledAt: Option<int>, cancelAtPeriodEnd: bool)

  /** `resetAt` is None while the counters were never reset. */
  datatype Host = Host(tier: string, monthlyCount: int, totalCount: int, resetAt: Option<int>)

  datatype TxStatus = Pending | Succeeded | Failed

  datatype Transaction = Transaction(
    id: string, host: HostId, planId: PlanId, status: TxStatus, amount: int, total: int,
    paymentId: string, reason: string)

  datatype Record = Record(id: string, txId: string, host: HostId, planId: PlanId, planName: string, amount: int)

  datatype Cached = Cached(plan: Plan, until: int)

  datatype Books = Books(
    plans: map<PlanId, Plan>, freePlan: Option<Plan>,
    subs: map<HostId, Subscription>, hosts: map<HostId, Host>,
    txs: seq<Transaction>, records: seq<Record>, cache: map<HostId, Cached>)

  datatype Kind =
    | PaymentSucceeded | PaymentFailed | SubscriptionActive | SubscriptionRenewed | SubscriptionUpdated
    | SubscriptionFailed | SubscriptionCancelled | SubscriptionPending | Unrecognized

  datatype Event = Event(
    kind: Kind, host: HostId, planId: PlanId, cycle: string, amount: int, total: int, paymentId: string,
    status: SubStatus, previousBillingDate: int, cancelledAt: int, cancelAtPeriodEnd: bool)

  /** What the surroundings supply while an event is handled: the clock, fresh ids, the configured grace days. */
  datatype Stamp = Stamp(now: int, txId: string, recordId: string, graceDays: int)

  // ----- Elementary writes

  function Invalidated(b: Books, host: HostId): Books { if host == "" then b else b.(cache := b.cache - {host}) }

  function CachedPlan(b: Books, host: HostId, plan: Plan, until: int): Books {
    if host == "" then b else b.(cache := b.cache[host := Cached(Encoded(plan), until)])
  }

  /** An insert whose id is taken fails, and the failure is only logged. */
  function WithTx(b: Books, tx: Transaction): Books {
    if exists t :: t in b.txs && t.id == tx.id then b else b.(txs := b.txs + [tx])
  }

  function WithRecord(b: Books, r: Record): Books {
    if exists x :: x in b.records && x.id == r.id then b else b.(records := b.records + [r])
  }

  function WithTier(b: Books, host: HostId, tier: string): Books {
    if host in b.hosts then b.(hosts := b.hosts[host := b.hosts[host].(tier := tier)]) else b
  }

  function WithSub(b: Books, host: HostId, sub: Subscription): Books { b.(subs := b.subs[host := sub]) }

  function Reset(h: Host, now: int): Host { h.(monthlyCount := 0, resetAt := Some(now)) }

  function WithReset(b: Books, host: HostId, now: int): Books {
    if host in b.hosts then b.(hosts := b.hosts[host := Reset(b.hosts[host], now)]) else b
  }

  // ----- Checkout

  /** Opening a checkout leaves a pending transaction that no later event touches. */
  function PendingTx(host: HostId, planId: PlanId, session: string, txId: string): Transaction {
    Transaction(txId, host, planId, Pending, 0, 0, session, "")
  }

  // ----- Event handlers

  function GraceSeconds(graceDays: int): int { (if graceDays > 0 then graceDays else 3) * DAY }

  function FailedTx(e: Event, st: Stamp, amount: int, reason: string): Transaction {
    Transaction(st.txId, e.host, e.planId, Failed, amount, 0, e.paymentId, reason)
  }

  function FailureReason(k: Kind): string {
    if k == PaymentFailed then "payment.failed" else "subscription.failed"
  }

  function FailedPaymentHandled(b: Books, e: Event, st: Stamp): Books {
    var b1 := WithTx(b, FailedTx(e, st, e.amount, FailureReason(e.kind)));
    if e.host !in b1.subs then b1
    else
      var sub := b1.subs[e.host].(status := InGrace, graceUntil := Some(st.now + GraceSeconds(st.graceDays)));
      Invalidated(WithSub(b1, e.host, sub), e.host)
  }

  function CancellationHandled(b: Books, e: Event, st: Stamp): Books {
    var b1 := WithTx(b, FailedTx(e, st, 0, "cancelled"));
    var b2 := if e.host in b1.subs
              then WithSub(b1, e.host, b1.subs[e.host].(status := Canceled, cancelledAt := Some(st.now))) else b1;
    Invalidated(WithTier(b2, e.host, "free"), e.host)
  }

  function SucceededTx(e: Event, st: Stamp): Transaction {
    Transaction(st.txId, e.host, e.planId, Succeeded, e.amount, e.total, e.paymentId, "")
  }

  function RecordOf(b: Books, e: Event, st: Stamp): Record {
    Record(st.recordId, st.txId, e.host, e.planId, if e.planId in b.plans then b.plans[e.planId].name else "", e.total)
  }

  function PaidSubscription(b: Books, e: Event): Subscription {
    Subscription(e.planId, Active, e.cycle, if e.host in b.subs then b.subs[e.host].graceUntil else None, None, false)
  }

  function PaymentHandled(b: Books, e: Event, st: Stamp): Books {
    var b1 := WithRecord(WithTx(b, SucceededTx(e, st)), RecordOf(b, e, st));
    var b2 := WithSub(b1, e.host, PaidSubscription(b1, e));
    WithTier(b2, e.host, if e.planId in b.plans then b.plans[e.planId].tier else "free")
  }

  function StateUpdateHandled(b: Books, e: Event, st: Stamp): Books {
    var sub := if e.host in b.subs then b.subs[e.host] else Subscription(e.planId, e.status, "", None, None, false);
    var b1 := WithSub(b, e.host, sub.(
      status := e.status,
      cancelledAt := if e.status == Canceled then Some(st.now) else None,
      cycle := if e.cycle != "" then e.cycle else sub.cycle));
    if e.kind == SubscriptionActive || e.kind == SubscriptionRenewed then WithReset(b1, e.host, st.now) else b1
  }

  function UpdateHandled(b: Books, e: Event): Books {
    var b1 :=
      if e.host !in b.subs then b
      else
        var sub := b.subs[e.host];
        WithSub(b, e.host, sub.(
          cancelAtPeriodEnd := e.cancelAtPeriodEnd,
          planId := if e.planId != "" then e.planId else sub.planId,
          cycle := if e.cycle != "" then e.cycle else sub.cycle,
          cancelledAt := if e.cancelledAt > 0 then Some(e.cancelledAt) else sub.cancelledAt));
    var b2 := if e.planId != "" && e.planId in b1.plans then WithTier(b1, e.host, b1.plans[e.planId].tier) else b1;
    Invalidated(b2, e.host)
  }

  function Processed(b: Books, e: Event, st: Stamp): Books {
    var b1 := Invalidated(b, e.host);
    match e.kind
    case PaymentSucceeded => PaymentHandled(b1, e, st)
    case PaymentFailed => FailedPaymentHandled(b1, e, st)
    case SubscriptionActive => StateUpdateHandled(b1, e, st)
    case SubscriptionRenewed => if e.previousBillingDate == 0 then b1 else StateUpdateHandled(b1, e, st)
    case SubscriptionUpdated => UpdateHandled(b1, e)
    case SubscriptionFailed => FailedPaymentHandled(b1, e, st)
    case SubscriptionCancelled => CancellationHandled(b1, e, st)
    case SubscriptionPending => StateUpdateHandled(b1, e, st)
    case Unrecognized => b1
  }

  // ----- Lookups

  predicate GraceOver(s: Subscription, now: int) {
    s.status == InGrace && s.graceUntil.Some? && now > s.graceUntil.value
  }

  /** The host has a subscription that still counts. */
  predicate Entitled(b: Books, host: HostId, now: int) {
    host in b.subs && b.subs[host].cancelledAt.None? && !GraceOver(b.subs[host], now)
  }

  /** The subscription found; one whose grace period is over is cancelled on the way. */
  function SubscriptionLooked(b: Books, host: HostId, now: int): (Books, Option<Subscription>) {
    if host !in b.subs || b.subs[host].cancelledAt.Some? then (b, None)
    else
      var sub := b.subs[host];
      if GraceOver(sub, now) then
        (WithTier(WithSub(b, host, sub.(status := Canceled, cancelledAt := Some(now))), host, "free"), None)
      else (b, Some(sub))
  }

  /** The plan without any cache: the subscription's, or the free plan. */
  function PlanOf(b: Books, host: HostId, now: int): Option<Plan> {
    if Entitled(b, host, now) then
      if b.subs[host].planId in b.plans then Some(b.plans[b.subs[host].planId]) else None
    else b.freePlan
  }

  function HostPlanLooked(b: Books, host: HostId, now: int): (Books, Option<Plan>) {
    if host in b.cache && now < b.cache[host].until then (b, Some(b.cache[host].plan))
    else
      match SubscriptionLooked(b, host, now)
      case (b1, None) =>
        (if b1.freePlan.Some? then CachedPlan(b1, host, b1.freePlan.value, now + FREE_PLAN_TTL) else b1, b1.freePlan)
      case (b1, Some(sub)) =>
        if sub.planId in b1.plans
        then (CachedPlan(b1, host, b1.plans[sub.planId], now + PLAN_TTL), Some(b1.plans[sub.planId]))
        else (b1, None)
  }

  // ----- Events keep to their host

  /** Everything the books hold about one host. */
  ghost predicate SameAccount(b: Books, b': Books, host: HostId) {
    && (host in b.subs <==> host in b'.subs) && (host in b.subs ==> b'.subs[host] == b.subs[host])
    && (host in b.hosts <==> host in b'.hosts) && (host in b.hosts ==> b'.hosts[host] == b.hosts[host])
    && (host in b.cache <==> host in b'.cache) && (host in b.cache ==> b'.cache[host] == b.cache[host])
    && b'.plans == b.plans && b'.freePlan == b.freePlan
  }

  /** What handling an event of `host` may do as seen from any other host, and to its own cached plan. */
  ghost predicate KeepsToHost(b: Books, b': Books, host: HostId, other: HostId) {
    && (other != host ==> SameAccount(b, b', other))
    && b'.plans == b.plans && b'.freePlan == b.freePlan
    && (host in b'.cache ==> host in b.cache)
  }

  lemma FailedPaymentKeepsToHost(b: Books, e: Event, st: Stamp, other: HostId)
    ensures KeepsToHost(b, FailedPaymentHandled(b, e, st), e.host, other)
  {
  }

  lemma CancellationKeepsToHost(b: Books, e: Event, st: Stamp, other: HostId)
    ensures KeepsToHost(b, CancellationHandled(b, e, st), e.host, other)
  {
    var b1 := WithTx(b, FailedTx(e, st, 0, "cancelled"));
    assert b1.(txs := b.txs) == b;
  }

  lemma PaymentKeepsToHost(b: Books, e: Event, st: Stamp, other: HostId)
    ensures KeepsToHost(b, PaymentHandled(b, e, st), e.host, other)
  {
    var b1 := WithRecord(WithTx(b, SucceededTx(e, st)), RecordOf(b, e, st));
    assert b1.(txs := b.txs, records := b.records) == b;
  }

  lemma StateUpdateKeepsToHost(b: Books, e: Event, st: Stamp, other: HostId)
    ensures KeepsToHost(b, StateUpdateHandled(b, e, st), e.host, other)
  {
  }

  lemma UpdateKeepsToHost(b: Books, e: Event, other: HostId)
    ensures KeepsToHost(b, UpdateHandled(b, e), e.host, other)
  {
  }

  lemma EventKeepsToHost(b: Books, e: Event, st: Stamp, other: HostId)
    ensures KeepsToHost(Invalidated(b, e.host), Processed(b, e, st), e.host, other)
  {
    var b1 := Invalidated(b, e.host);
    match e.kind
    case PaymentSucceeded => PaymentKeepsToHost(b1, e, st, other);
    case PaymentFailed => FailedPaymentKeepsToHost(b1, e, st, other);
    case SubscriptionActive => StateUpdateKeepsToHost(b1, e, st, other);
    case SubscriptionRenewed => StateUpdateKeepsToHost(b1, e, st, other);
    case SubscriptionUpdated => UpdateKeepsToHost(b1, e, other);
    case SubscriptionFailed => FailedPaymentKeepsToHost(b1, e, st, other);
    case SubscriptionCancelled => CancellationKeepsToHost(b1, e, st, other);
    case SubscriptionPending => StateUpdateKeepsToHost(b1, e, st, other);
    case Unrecognized =>
  }

  /** Handling one host's event leaves every other host's subscription, counters and cached plan alone. */
  lemma EventTouchesOneAccount(b: Books, e: Event, st: Stamp, other: HostId)
    requires other != e.host
    ensures SameAccount(b, Processed(b, e, st), other)
  {
    EventKeepsToHost(b, e, st, other);
  }

  lemma LookupTouchesOneAccount(b: Books, host: HostId, now: int, other: HostId)
    requires other != host
    ensures SameAccount(b, SubscriptionLooked(b, host, now).0, other)
  {
  }

  lemma PlanLookupTouchesOneAccount(b: Books, host: HostId, now: int, other: HostId)
    requires other != host
    ensures SameAccount(b, HostPlanLooked(b, host, now).0, other)
  {
    var (b1, _) := SubscriptionLooked(b, host, now);
    LookupTouchesOneAccount(b, host, now, other);
    var b2 := HostPlanLooked(b, host, now).0;
    assert b2 == b || b2 == b1.(cache := b2.cache);
    assert b2.cache - {host} == b.cache - {host};
  }

  /** Handling an event, whatever it is, drops the host's cached plan and caches nothing. */
  lemma EventEmptiesCache(b: Books, e: Event, st: Stamp)
    requires e.host != ""
    ensures e.host !in Processed(b, e, st).cache
    ensures Processed(b, e, st).plans == b.plans && Processed(b, e, st).freePlan == b.freePlan
  {
    EventKeepsToHost(b, e, st, e.host);
  }

  // ----- Host counters

  function Incremented(h: Host): Host { h.(monthlyCount := h.monthlyCount + 1, totalCount := h.totalCount + 1) }

  /** Created in the current cycle: not before the last reset. */
  predicate InCycle(h: Host, createdAt: int) { h.resetAt.Some? ==> createdAt >= h.resetAt.value }

  function Decremented(h: Host, createdAt: int): Host {
    h.(totalCount := if h.totalCount > 0 then h.totalCount - 1 else h.totalCount,
       monthlyCount := if h.monthlyCount > 0 && InCycle(h, createdAt) then h.monthlyCount - 1 else h.monthlyCount)
  }

  function DecrementedOneByOne(h: Host, createdAts: seq<int>): Host
    decreases |createdAts|
  {
    if createdAts == [] then h else DecrementedOneByOne(Decremented(h, createdAts[0]), createdAts[1..])
  }

  function CountInCycle(h: Host, createdAts: seq<int>): nat {
    if createdAts == [] then 0
    else (if InCycle(h, createdAts[|createdAts| - 1]) then 1 else 0) + CountInCycle(h, createdAts[..|createdAts| - 1])
  }

  predicate NeedsReset(h: Host, now: int) { h.resetAt.None? || now - h.resetAt.value > RESET_AFTER }

  /** The quota check for the next queue of a registered host under a monthly maximum. */
  predicate QuotaExceeded(usage: int, maximum: int) { maximum > 0 && usage >= maximum }

  class BillingService {
    const plans: map<PlanId, Plan>
    const freePlan: Option<Plan>
    var subs: map<HostId, Subscription>
    var hosts: map<HostId, Host>
    var txs: seq<Transaction>
    var records: seq<Record>
    var cache: map<HostId, Cached>

    function View(): Books
      reads this
    {
      Books(plans, freePlan, subs, hosts, txs, records, cache)
    }

    constructor (plans: map<PlanId, Plan>, freePlan: Option<Plan>, hosts: map<HostId, Host>)
      ensures View() == Books(plans, freePlan, map[], hosts, [], [], map[])
    {
      this.plans, this.freePlan, subs, this.hosts := plans, freePlan, map[], hosts;
      txs, records, cache := [], [], map[];
    }

    method InvalidateHostPlanCache(host: HostId)
      modifies this
      ensures View() == Invalidated(old(View()), host)
    {
      if host == "" { return; }
      cache := cache - {host};
    }

    method InsertTx(tx: Transaction)
      modifies this
      ensures View() == WithTx(old(View()), tx)
    {
      if exists t :: t in txs && t.id == tx.id { return; }
      txs := txs + [tx];
    }

    method RecordCheckout(host: HostId, planId: PlanId, session: string, txId: string)
      modifies this
      ensures View() == WithTx(old(View()), PendingTx(host, planId, session, txId))
    {
      InsertTx(PendingTx(host, planId, session, txId));
    }

    method InsertRecord(r: Record)
      modifies this
      ensures View() == WithRecord(old(View()), r)
    {
      if exists x :: x in records && x.id == r.id { return; }
      records := records + [r];
    }

    method SetTier(host: HostId, tier: string)
      modifies this
      ensures View() == WithTier(old(View()), host, tier)
    {
      if host in hosts { hosts := hosts[host := hosts[host].(tier := tier)]; }
    }

    method ResetMonthlyLimits(host: HostId, now: int)
      modifies this
      ensures View() == WithReset(old(View()), host, now)
    {
      if host in hosts { hosts := hosts[host := hosts[host].(monthlyCount := 0, resetAt := Some(now))]; }
    }

    method HandleFailedPayment(e: Event, st: Stamp)
      modifies this
      ensures View() == FailedPaymentHandled(old(View()), e, st)
    {
      InsertTx(FailedTx(e, st, e.amount, FailureReason(e.kind)));
      var graceDays := 3;
      if st.graceDays > 0 { graceDays := st.graceDays; }
      if e.host !in subs { return; }
      subs := subs[e.host := subs[e.host].(status := InGrace, graceUntil := Some(st.now + graceDays * DAY))];
      InvalidateHostPlanCache(e.host);
    }

    method HandleCancellation(e: Event, st: Stamp)
      modifies this
      ensures View() == CancellationHandled(old(View()), e, st)
    {
      InsertTx(FailedTx(e, st, 0, "cancelled"));
      if e.host in subs { subs := subs[e.host := subs[e.host].(status := Canceled, cancelledAt := Some(st.now))]; }
      SetTier(e.host, "free");
      InvalidateHostPlanCache(e.host);
    }

    method HandlePaymentSucceeded(e: Event, st: Stamp)
      modifies this
      ensures View() == PaymentHandled(old(View()), e, st)
    {
      InsertTx(SucceededTx(e, st));
      var planName, tier := "", "free";
      if e.planId in plans { planName, tier := plans[e.planId].name, plans[e.planId].tier; }
      InsertRecord(Record(st.recordId, st.txId, e.host, e.planId, planName, e.total));
      subs := subs[e.host := PaidSubscription(View(), e)];
      SetTier(e.host, tier);
    }

    method HandleSubscriptionStateUpdate(e: Event, st: Stamp)
      modifies this
      ensures View() == StateUpdateHandled(old(View()), e, st)
    {
      var sub := Subscription(e.planId, e.status, "", None, None, false);
      if e.host in subs { sub := subs[e.host]; }
      sub := sub.(status := e.status, cancelledAt := None);
      if e.status == Canceled { sub := sub.(cancelledAt := Some(st.now)); }
      if e.cycle != "" { sub := sub.(cycle := e.cycle); }
      subs := subs[e.host := sub];
      if e.kind == SubscriptionActive || e.kind == SubscriptionRenewed { ResetMonthlyLimits(e.host, st.now); }
    }

    method HandleSubscriptionUpdated(e: Event)
      modifies this
      ensures View() == UpdateHandled(old(View()), e)
    {
      if e.host in subs {
        var sub := subs[e.host].(cancelAtPeriodEnd := e.cancelAtPeriodEnd);
        if e.planId != "" { sub := sub.(planId := e.planId); }
        if e.cycle != "" { sub := sub.(cycle := e.cycle); }
        if e.cancelledAt > 0 { sub := sub.(cancelledAt := Some(e.cancelledAt)); }
        subs := subs[e.host := sub];
      }
      if e.planId != "" && e.planId in plans { SetTier(e.host, plans[e.planId].tier); }
      InvalidateHostPlanCache(e.host);
    }

    method ProcessBillingEvent(e: Event, st: Stamp)
      modifies this
      ensures View() == Processed(old(View()), e, st)
    {
      InvalidateHostPlanCache(e.host);
      match e.kind
      case PaymentSucceeded => HandlePaymentSucceeded(e, st);
      case PaymentFailed => HandleFailedPayment(e, st);
      case SubscriptionActive => HandleSubscriptionStateUpdate(e, st);
      case SubscriptionRenewed => if e.previousBillingDate != 0 { HandleSubscriptionStateUpdate(e, st); }
      case SubscriptionUpdated => HandleSubscriptionUpdated(e);
      case SubscriptionFailed => HandleFailedPayment(e, st);
      case SubscriptionCancelled => HandleCancellation(e, st);
      case SubscriptionPending => HandleSubscriptionStateUpdate(e, st);
      case Unrecognized =>
    }

    method GetSubscription(host: HostId, now: int) returns (r: Option<Subscription>)
      modifies this
      ensures (View(), r) == SubscriptionLooked(old(View()), host, now)
    {
      if host !in subs || subs[host].cancelledAt.Some? { return None; }
      var sub := subs[host];
      if sub.status == InGrace && sub.graceUntil.Some? && now > sub.graceUntil.value {
        subs := subs[host := sub.(status := Canceled, cancelledAt := Some(now))];
        SetTier(host, "free");
        return None;
      }
      return Some(sub);
    }

    method GetHostPlan(host: HostId, now: int) returns (r: Option<Plan>)
      modifies this
      ensures (View(), r) == HostPlanLooked(old(View()), host, now)
    {
      if host in cache && now < cache[host].until { return Some(cache[host].plan); }
      var sub := GetSubscription(host, now);
      if sub.None? {
        if freePlan.Some? && host != "" {
          cache := cache[host := Cached(Encoded(freePlan.value), now + FREE_PLAN_TTL)];
        }
        return freePlan;
      }
      if sub.value.planId !in plans { return None; }
      var plan := plans[sub.value.planId];
      if host != "" { cache := cache[host := Cached(Encoded(plan), now + PLAN_TTL)]; }
      return Some(plan);
    }

    method IncrementMonthlyQueueCount(host: HostId)
      modifies this
      ensures View() == if host != "" && host in old(hosts)
                        then old(View()).(hosts := old(hosts)[host := Incremented(old(hosts)[host])]) else old(View())
    {
      if host == "" || host !in hosts { return; }
      hosts := hosts[host := Incremented(hosts[host])];
    }

    method DecrementMonthlyQueueCount(host: HostId, createdAt: int)
      modifies this
      ensures View() == if host != "" && host in old(hosts)
                        then old(View()).(hosts := old(hosts)[host := Decremented(old(hosts)[host], createdAt)])
                        else old(View())
    {
      if host == "" || host !in hosts { return; }
      var h := hosts[host];
      var total, monthly := 0, 0;
      if h.totalCount > 0 { total := -1; }
      if h.monthlyCount > 0 && InCycle(h, createdAt) { monthly := -1; }
      hosts := hosts[host := h.(totalCount := h.totalCount + total, monthlyCount := h.monthlyCount + monthly)];
    }

    /** The bulk form writes the host once and equals the single form applied queue by queue. */
    method DecrementMonthlyQueueCountBulk(host: HostId, createdAts: seq<int>)
      modifies this
      ensures View() == if host != "" && host in old(hosts)
                        then old(View()).(hosts :=
                               old(hosts)[host := DecrementedOneByOne(old(hosts)[host], createdAts)])
                        else old(View())
    {
      if host == "" || |createdAts| == 0 || host !in hosts { return; }
      var h := hosts[host];
      var monthlyDecr := 0;
      for i := 0 to |createdAts|
        invariant monthlyDecr == CountInCycle(h, createdAts[..i])
      {
        assert createdAts[..i + 1][..i] == createdAts[..i];
        if InCycle(h, createdAts[i]) { monthlyDecr := monthlyDecr + 1; }
      }
      assert createdAts[..|createdAts|] == createdAts;
      var totalDecr := |createdAts|;
      if h.totalCount < totalDecr { totalDecr := h.totalCount; }
      if totalDecr < 0 { totalDecr := 0; }
      if monthlyDecr > 0 {
        if h.monthlyCount < monthlyDecr { monthlyDecr := h.monthlyCount; }
        if monthlyDecr < 0 { monthlyDecr := 0; }
      }
      BulkEqualsSingles(h, createdAts);
      hosts := hosts[host := h.(totalCount := h.totalCount - totalDecr, monthlyCount := h.monthlyCount - monthlyDecr)];
    }

    /** `usage` as passed by the caller, or -1 to read the host's counter, which a stale host first resets. */
    method IsMonthlyLimitExceeded(host: HostId, now: int, currentVal: int) returns (exceeded: Option<bool>)
      modifies this
      ensures var b := HostPlanLooked(old(View()), host, now).0;
              var plan := HostPlanLooked(old(View()), host, now).1;
              if plan.None? then exceeded == None && View() == b
              else if plan.value.maxQueuesPerMonth <= 0 then exceeded == Some(false) && View() == b
              else if currentVal != -1 || host !in b.hosts then
                exceeded == Some(QuotaExceeded(currentVal, plan.value.maxQueuesPerMonth)) && View() == b
              else if NeedsReset(b.hosts[host], now) then exceeded == Some(false) && View() == WithReset(b, host, now)
              else exceeded == Some(QuotaExceeded(b.hosts[host].monthlyCount, plan.value.maxQueuesPerMonth))
                   && View() == b
    {
      var plan := GetHostPlan(host, now);
      if plan.None? { return None; }
      if plan.value.maxQueuesPerMonth <= 0 { return Some(false); }
      var usage := currentVal;
      if usage == -1 && host in hosts {
        if NeedsReset(hosts[host], now) {
          ResetMonthlyLimits(host, now);
          usage := 0;
        } else {
          usage := hosts[host].monthlyCount;
        }
      }
      return Some(usage >= plan.value.maxQueuesPerMonth);
    }
  }

  // ----- The bulk decrement refines the single one

  function Capped(current: int, amount: nat): int {
    if current <= 0 then current else if current < amount then 0 else current - amount
  }

  lemma {:induction false} BulkEqualsSingles(h: Host, createdAts: seq<int>)
    ensures DecrementedOneByOne(h, createdAts)
         == h.(totalCount := Capped(h.totalCount, |createdAts|),
               monthlyCount := Capped(h.monthlyCount, CountInCycle(h, createdAts)))
    decreases |createdAts|
  {
    if createdAts != [] {
      var h1 := Decremented(h, createdAts[0]);
      BulkEqualsSingles(h1, createdAts[1..]);
      CountFromFront(h, createdAts);
      SameCount(h, h1, createdAts[1..]);
    }
  }

  lemma {:induction false} CountFromFront(h: Host, createdAts: seq<int>)
    requires createdAts != []
    ensures CountInCycle(h, createdAts)
         == (if InCycle(h, createdAts[0]) then 1 else 0) + CountInCycle(h, createdAts[1..])
  {
    var n := |createdAts| - 1;
    if n > 0 {
      CountFromFront(h, createdAts[..n]);
      assert createdAts[..n][1..] == createdAts[1..][..n - 1];
    }
  }

  lemma {:induction false} SameCount(h: Host, h1: Host, createdAts: seq<int>)
    requires h.resetAt == h1.resetAt
    ensures CountInCycle(h, createdAts) == CountInCycle(h1, createdAts)
  {
    if createdAts != [] { SameCount(h, h1, createdAts[..|createdAts| - 1]); }
  }
}

/** Which plan a host is on: cancellation that stays, and the plan cache against the lookup it stands for. */
module PlanAccess {
  import opened Text
  import opened Billing

  // ----- Sequential runs of events and lookups

  datatype Step =
    | Handle(e: Event, st: Stamp)
    | AskPlan(host: HostId)
    | AskSubscription(host: HostId)
    | ScheduleCancellation(host: HostId)
    | Pass(seconds: nat)

  datatype World = World(now: int, books: Books)

  /** Cancelling at the period's end marks the subscription and drops the cached plan. */
  function CancellationScheduled(b: Books, host: HostId, now: int): Books {
    match SubscriptionLooked(b, host, now)
    case (b1, None) => b1
    case (b1, Some(sub)) =>
      if sub.cancelAtPeriodEnd then b1
      else Invalidated(WithSub(b1, host, b1.subs[host].(cancelAtPeriodEnd := true)), host)
  }

  function Next(w: World, step: Step): World {
    match step
    case Handle(e, st) => w.(books := Processed(w.books, e, st.(now := w.now)))
    case AskPlan(h) => w.(books := HostPlanLooked(w.books, h, w.now).0)
    case AskSubscription(h) => w.(books := SubscriptionLooked(w.books, h, w.now).0)
    case ScheduleCancellation(h) => w.(books := CancellationScheduled(w.books, h, w.now))
    case Pass(s) => w.(now := w.now + s)
  }

  function After(w: World, steps: seq<Step>): World
    decreases |steps|
  {
    if steps == [] then w else After(Next(w, steps[0]), steps[1..])
  }

  lemma SchedulingTouchesOneAccount(b: Books, host: HostId, now: int, other: HostId)
    requires other != host
    ensures SameAccount(b, CancellationScheduled(b, host, now), other)
  {
  }

  /** Scheduling marks the subscription found and drops the cached plan; the host stays on its plan. */
  lemma SchedulingMeans(b: Books, host: HostId, now: int)
    ensures var b' := CancellationScheduled(b, host, now);
            && PlanOf(b', host, now) == PlanOf(b, host, now)
            && (Entitled(b, host, now) ==>
                  && b'.subs == b.subs[host := b.subs[host].(cancelAtPeriodEnd := true)]
                  && b'.hosts == b.hosts && b'.txs == b.txs && b'.records == b.records
                  && b'.cache == if b.subs[host].cancelAtPeriodEnd || host == "" then b.cache else b.cache - {host})
            && (!Entitled(b, host, now) ==> b' == SubscriptionLooked(b, host, now).0)
  {
  }

  // ----- Cancelled stays cancelled

  /** No subscription that a lookup could find. */
  predicate Dormant(b: Books, host: HostId) { host in b.subs ==> b.subs[host].cancelledAt.Some? }

  /** The events that write a subscription without a cancellation time. */
  predicate Revives(e: Event) {
    || e.kind == PaymentSucceeded
    || (e.status != Canceled
        && (e.kind == SubscriptionActive || e.kind == SubscriptionPending
            || (e.kind == SubscriptionRenewed && e.previousBillingDate != 0)))
  }

  lemma CancellationMakesDormant(b: Books, e: Event, st: Stamp)
    ensures Dormant(CancellationHandled(b, e, st), e.host)
  {
  }

  lemma PaymentWritesSub(b: Books, e: Event, st: Stamp)
    ensures PaymentHandled(b, e, st).subs == b.subs[e.host := PaidSubscription(b, e)]
  {
    var b1 := WithRecord(WithTx(b, SucceededTx(e, st)), RecordOf(b, e, st));
    assert b1.(txs := b.txs, records := b.records) == b;
  }

  /** A status update cancels exactly when it says so, and keeps an old grace deadline. */
  lemma StateUpdateWritesSub(b: Books, e: Event, st: Stamp)
    ensures var s := StateUpdateHandled(b, e, st).subs;
            && e.host in s && s[e.host].status == e.status && (s[e.host].cancelledAt.Some? <==> e.status == Canceled)
            && s[e.host].graceUntil == if e.host in b.subs then b.subs[e.host].graceUntil else None
  {
  }

  lemma FailureKeepsDormant(b: Books, e: Event, st: Stamp)
    requires Dormant(b, e.host)
    ensures Dormant(FailedPaymentHandled(b, e, st), e.host)
  {
  }

  lemma UpdateKeepsDormant(b: Books, e: Event)
    requires Dormant(b, e.host)
    ensures Dormant(UpdateHandled(b, e), e.host)
  {
  }

  /** From a dormant account, one event makes it findable again exactly when it is one of the reviving kinds. */
  lemma RevivalExact(b: Books, e: Event, st: Stamp)
    requires Dormant(b, e.host)
    ensures Dormant(Processed(b, e, st), e.host) <==> !Revives(e)
  {
    var b1 := Invalidated(b, e.host);
    match e.kind
    case PaymentSucceeded => PaymentWritesSub(b1, e, st);
    case PaymentFailed => FailureKeepsDormant(b1, e, st);
    case SubscriptionFailed => FailureKeepsDormant(b1, e, st);
    case SubscriptionUpdated => UpdateKeepsDormant(b1, e);
    case SubscriptionCancelled => CancellationMakesDormant(b1, e, st);
    case Unrecognized =>
    case _ => StateUpdateWritesSub(b1, e, st);
  }

  lemma LookupFindsEntitled(b: Books, host: HostId, now: int)
    ensures SubscriptionLooked(b, host, now).1.Some? <==> Entitled(b, host, now)
  {
  }

  /** An old deadline that a reviving status update takes over with the status "in grace". */
  predicate RevivedTooLate(b: Books, e: Event, now: int) {
    && e.kind != PaymentSucceeded && e.status == InGrace
    && e.host in b.subs && b.subs[e.host].graceUntil.Some? && now > b.subs[e.host].graceUntil.value
  }

  /** What a lookup right after the event finds: a reviving one, unless it says "in grace" with an old deadline over. */
  lemma FoundAfterEventExact(b: Books, e: Event, st: Stamp)
    requires Dormant(b, e.host)
    ensures SubscriptionLooked(Processed(b, e, st), e.host, st.now).1.Some? <==>
            Revives(e) && !RevivedTooLate(b, e, st.now)
  {
    LookupFindsEntitled(Processed(b, e, st), e.host, st.now);
    RevivalExact(b, e, st);
    PaymentWritesSub(Invalidated(b, e.host), e, st);
    StateUpdateWritesSub(Invalidated(b, e.host), e, st);
  }

  /** The same plan, or both times none, up to the terms that the cache leaves out. */
  predicate SameAnswer(p: Option<Plan>, q: Option<Plan>) {
    (p.None? <==> q.None?) && (p.Some? && q.Some? ==> Encoded(p.value) == Encoded(q.value))
  }

  /** Dormant, and at most the free plan cached. */
  ghost predicate OnFreePlan(b: Books, host: HostId) {
    && Dormant(b, host)
    && (host in b.cache ==> SameAnswer(b.freePlan, Some(b.cache[host].plan)))
  }

  predicate NoRevival(step: Step, host: HostId) { step.Handle? && step.e.host == host ==> !Revives(step.e) }

  lemma StepStaysCancelled(w: World, step: Step, host: HostId)
    requires host != "" && OnFreePlan(w.books, host) && NoRevival(step, host)
    ensures OnFreePlan(Next(w, step).books, host) && Next(w, step).books.freePlan == w.books.freePlan
  {
    match step
    case Handle(e, st) =>
      if e.host == host {
        RevivalExact(w.books, e, st.(now := w.now));
        EventEmptiesCache(w.books, e, st.(now := w.now));
      } else {
        EventTouchesOneAccount(w.books, e, st.(now := w.now), host);
      }
    case AskPlan(h) => if h != host { PlanLookupTouchesOneAccount(w.books, h, w.now, host); }
    case AskSubscription(h) => if h != host { LookupTouchesOneAccount(w.books, h, w.now, host); }
    case ScheduleCancellation(h) => if h != host { SchedulingTouchesOneAccount(w.books, h, w.now, host); }
    case Pass(_) =>
  }

  lemma {:induction false} RunStaysCancelled(w: World, steps: seq<Step>, host: HostId)
    requires host != "" && OnFreePlan(w.books, host)
    requires forall i :: 0 <= i < |steps| ==> NoRevival(steps[i], host)
    ensures OnFreePlan(After(w, steps).books, host) && After(w, steps).books.freePlan == w.books.freePlan
    decreases |steps|
  {
    if steps != [] {
      StepStaysCancelled(w, steps[0], host);
      RunStaysCancelled(Next(w, steps[0]), steps[1..], host);
    }
  }

  /**
   After a cancellation, whatever follows for any host short of a reviving event for this one: no subscription
   is found, and the host plan, cached or not, is the free plan (without its terms when cached).
   */
  lemma CancelledStaysCancelled(w: World, e: Event, st: Stamp, steps: seq<Step>)
    requires e.kind == SubscriptionCancelled && e.host != ""
    requires forall i :: 0 <= i < |steps| ==> NoRevival(steps[i], e.host)
    ensures var end := After(Next(w, Handle(e, st)), steps);
            && SubscriptionLooked(end.books, e.host, end.now).1 == None
            && SameAnswer(HostPlanLooked(end.books, e.host, end.now).1, w.books.freePlan)
  {
    var w1 := Next(w, Handle(e, st));
    CancellationMakesDormant(Invalidated(w.books, e.host), e, st.(now := w.now));
    EventEmptiesCache(w.books, e, st.(now := w.now));
    RunStaysCancelled(w1, steps, e.host);
  }

  // ----- The cache against the lookup

  /** A grace deadline of the host has passed since `start`, and `until` is at most the cache time after it. */
  predicate GracePassedSince(b: Books, host: HostId, start: int, now: int, until: int) {
    && host in b.subs && b.subs[host].graceUntil.Some?
    && start <= b.subs[host].graceUntil.value < now && until <= b.subs[host].graceUntil.value + PLAN_TTL
  }

  predicate Live(b: Books, host: HostId, now: int) { host in b.cache && now < b.cache[host].until }

  /**
   A cached plan is an encoded one and lives no longer than the cache time. While it lives it is right for an entitled
   host, and wrong for another only after a grace deadline passed.
   */
  ghost predicate Honest(b: Books, host: HostId, start: int, now: int) {
    && (host in b.cache ==>
          b.cache[host].until <= now + PLAN_TTL && Encoded(b.cache[host].plan) == b.cache[host].plan)
    && (Live(b, host, now) && !SameAnswer(PlanOf(b, host, now), Some(b.cache[host].plan)) ==>
          !Entitled(b, host, now) && GracePassedSince(b, host, start, now, b.cache[host].until))
  }

  lemma AskKeepsHonest(b: Books, host: HostId, start: int, now: int)
    requires Honest(b, host, start, now) && start <= now
    ensures Honest(SubscriptionLooked(b, host, now).0, host, start, now)
    ensures Honest(HostPlanLooked(b, host, now).0, host, start, now)
    ensures host != "" ==> Honest(CancellationScheduled(b, host, now), host, start, now)
  {
  }

  lemma StepKeepsHonest(w: World, step: Step, host: HostId, start: int)
    requires host != "" && start <= w.now && Honest(w.books, host, start, w.now)
    ensures start <= Next(w, step).now && Honest(Next(w, step).books, host, start, Next(w, step).now)
  {
    match step
    case Handle(e, st) =>
      if e.host == host { EventEmptiesCache(w.books, e, st.(now := w.now)); }
      else { EventTouchesOneAccount(w.books, e, st.(now := w.now), host); }
    case AskPlan(h) =>
      if h == host { AskKeepsHonest(w.books, host, start, w.now); }
      else { PlanLookupTouchesOneAccount(w.books, h, w.now, host); }
    case AskSubscription(h) =>
      if h == host { AskKeepsHonest(w.books, host, start, w.now); }
      else { LookupTouchesOneAccount(w.books, h, w.now, host); }
    case ScheduleCancellation(h) =>
      if h == host { AskKeepsHonest(w.books, host, start, w.now); }
      else { SchedulingTouchesOneAccount(w.books, h, w.now, host); }
    case Pass(_) =>
  }

  lemma {:induction false} RunKeepsHonest(w: World, steps: seq<Step>, host: HostId, start: int)
    requires host != "" && start <= w.now && Honest(w.books, host, start, w.now)
    ensures Honest(After(w, steps).books, host, start, After(w, steps).now)
    decreases |steps|
  {
    if steps != [] {
      StepKeepsHonest(w, steps[0], host, start);
      RunKeepsHonest(Next(w, steps[0]), steps[1..], host, start);
    }
  }

  /** A live cached plan that is not the plan of a host without a subscription that counts: the free plan. */
  predicate Stale(b: Books, host: HostId, now: int) {
    Live(b, host, now) && !Entitled(b, host, now) && !SameAnswer(b.freePlan, Some(b.cache[host].plan))
  }

  /**
   Over every run from an empty cache: the answer of GetHostPlan is the uncached plan, up to the terms, exactly when no
   paid plan outlives its subscription in the cache; and it is that plan with its terms exactly when, besides, the
   answer is not from the cache or there are no terms to lose.
   */
  lemma CacheAgreesWithLookup(w: World, steps: seq<Step>, host: HostId)
    requires host != "" && host !in w.books.cache
    ensures var end := After(w, steps);
            var b, answer, plan :=
              end.books, HostPlanLooked(end.books, host, end.now).1, PlanOf(end.books, host, end.now);
            && (SameAnswer(answer, plan) <==> !Stale(b, host, end.now))
            && (answer == plan <==>
                  !Stale(b, host, end.now)
                  && (Live(b, host, end.now) ==> plan.Some? && plan.value.terms == NO_TERMS))
  {
    RunKeepsHonest(w, steps, host, w.now);
  }

  /** A wrong answer is one within an hour of a grace deadline of the host that passed during the run. */
  lemma StaleUnderAnHour(w: World, steps: seq<Step>, host: HostId)
    requires host != "" && host !in w.books.cache && Stale(After(w, steps).books, host, After(w, steps).now)
    ensures var end := After(w, steps);
            && host in end.books.subs && end.books.subs[host].graceUntil.Some?
            && w.now <= end.books.subs[host].graceUntil.value < end.now
            && end.now - end.books.subs[host].graceUntil.value < 3600
  {
    RunKeepsHonest(w, steps, host, w.now);
  }

  /** The exception is real: cached just before the deadline, a paid plan is still answered just after it. */
  lemma StaleAfterGrace(b: Books, host: HostId, deadline: int)
    requires host != "" && host !in b.cache && host in b.subs && b.subs[host].planId in b.plans
    requires b.subs[host].cancelledAt.None? && b.subs[host].status == InGrace
    requires b.subs[host].graceUntil == Some(deadline)
    requires !SameAnswer(b.freePlan, Some(b.plans[b.subs[host].planId]))
    ensures var end := After(World(deadline, b), [AskPlan(host), Pass(1)]);
            && Stale(end.books, host, end.now)
            && !SameAnswer(HostPlanLooked(end.books, host, end.now).1, PlanOf(end.books, host, end.now))
  {
    var steps := [AskPlan(host), Pass(1)];
    var w := World(deadline, b);
    var w1 := Next(w, steps[0]);
    assert steps[1..] == [Pass(1)] && [Pass(1)][1..] == [];
    assert After(w1, [Pass(1)]) == Next(w1, Pass(1));
  }
}

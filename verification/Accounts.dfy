/**
 What each kind of billing event, each lookup and each count does to a host's account, stated on the account alone:
 the subscription, the plan answered afterwards, the tier, the counters and the ledger entries.
 */
module Accounts {
  import opened Text
  import opened Billing

  // ----- Events and the plan the host is on afterwards

  /** A payment puts the host on the plan paid for: found at once, answered by both lookups, and on its tier. */
  lemma PaymentGivesPlan(b: Books, e: Event, st: Stamp, now: int)
    requires e.kind == PaymentSucceeded && e.host != ""
    ensures var b' := Processed(b, e, st);
            var sub := SubscriptionLooked(b', e.host, now).1;
            && sub.Some? && sub.value.status == Active
            && sub.value.planId == e.planId && sub.value.cycle == e.cycle
            && sub.value.cancelledAt == None && !sub.value.cancelAtPeriodEnd
            && (e.host in b.subs ==> sub.value.graceUntil == b.subs[e.host].graceUntil)
            && (e.planId in b.plans ==>
                  PlanOf(b', e.host, now) == HostPlanLooked(b', e.host, now).1 == Some(b.plans[e.planId]))
            && (e.planId !in b.plans ==> PlanOf(b', e.host, now) == HostPlanLooked(b', e.host, now).1 == None)
  {
    PaymentWrites(b, e, st);
  }

  /** The subscription and the host a payment leaves. */
  lemma PaymentWrites(b: Books, e: Event, st: Stamp)
    requires e.kind == PaymentSucceeded && e.host != ""
    ensures var b' := Processed(b, e, st);
            && b'.plans == b.plans && b'.freePlan == b.freePlan && b'.cache == b.cache - {e.host}
            && b'.subs == b.subs[e.host := Subscription(e.planId, Active, e.cycle,
                            if e.host in b.subs then b.subs[e.host].graceUntil else None, None, false)]
  {
    var b1 := Invalidated(b, e.host);
    var b2 := WithRecord(WithTx(b1, SucceededTx(e, st)), RecordOf(b1, e, st));
    assert b2.(txs := b1.txs, records := b1.records) == b1;
  }

  /** The tier of the plan paid for, or "free" for an unknown plan; the counters stay. */
  lemma PaymentSetsTier(b: Books, e: Event, st: Stamp)
    requires e.kind == PaymentSucceeded && e.host in b.hosts
    ensures e.host in Processed(b, e, st).hosts
    ensures Processed(b, e, st).hosts[e.host]
         == b.hosts[e.host].(tier := if e.planId in b.plans then b.plans[e.planId].tier else "free")
  {
    var b1 := Invalidated(b, e.host);
    var b2 := WithRecord(WithTx(b1, SucceededTx(e, st)), RecordOf(b1, e, st));
    assert b2.(txs := b1.txs, records := b1.records) == b1;
  }

  predicate Fails(e: Event) { e.kind == PaymentFailed || e.kind == SubscriptionFailed }

  function Deadline(st: Stamp): int { st.now + 86400 * if st.graceDays > 0 then st.graceDays else 3 }

  lemma FailureWrites(b: Books, e: Event, st: Stamp)
    requires Fails(e)
    ensures var b' := Processed(b, e, st);
            && b'.plans == b.plans && b'.freePlan == b.freePlan && b'.hosts == b.hosts
            && b'.subs == if e.host in b.subs
                          then b.subs[e.host := b.subs[e.host].(status := InGrace, graceUntil := Some(Deadline(st)))]
                          else b.subs
  {
    var b1 := Invalidated(b, e.host);
    var b2 := WithTx(b1, FailedTx(e, st, e.amount, FailureReason(e.kind)));
    assert b2.(txs := b1.txs) == b1;
  }

  /**
   A failure leaves a counting subscription findable, in grace and on its plan, up to the deadline and not a second
   longer: then the lookup ends it and the host is on the free plan and tier.
   */
  lemma FailureStartsGrace(b: Books, e: Event, st: Stamp, now: int)
    requires Fails(e) && e.host in b.subs && b.subs[e.host].cancelledAt.None?
    ensures var b' := Processed(b, e, st);
            var (b'', sub) := SubscriptionLooked(b', e.host, now);
            if now <= Deadline(st)
            then
              && sub == Some(b.subs[e.host].(status := InGrace, graceUntil := Some(Deadline(st))))
              && PlanOf(b', e.host, now)
                 == if b.subs[e.host].planId in b.plans then Some(b.plans[b.subs[e.host].planId]) else None
            else
              && sub == None && PlanOf(b', e.host, now) == b.freePlan
              && b''.subs[e.host].status == Canceled && b''.subs[e.host].cancelledAt == Some(now)
              && (e.host in b.hosts ==> e.host in b''.hosts && b''.hosts[e.host] == b.hosts[e.host].(tier := "free"))
  {
    FailureWrites(b, e, st);
  }

  /** A cancellation takes effect at once: nothing is found, the free plan is answered, and the tier is "free". */
  lemma CancellationEndsPlan(b: Books, e: Event, st: Stamp, now: int)
    requires e.kind == SubscriptionCancelled
    ensures var b' := Processed(b, e, st);
            && SubscriptionLooked(b', e.host, now).1 == None && PlanOf(b', e.host, now) == b.freePlan
            && (e.host in b.subs ==>
                  e.host in b'.subs
                  && b'.subs[e.host] == b.subs[e.host].(status := Canceled, cancelledAt := Some(st.now)))
            && (e.host !in b.subs ==> b'.subs == b.subs)
            && (e.host in b.hosts ==> e.host in b'.hosts && b'.hosts[e.host] == b.hosts[e.host].(tier := "free"))
  {
    var b1 := Invalidated(b, e.host);
    var b2 := WithTx(b1, FailedTx(e, st, 0, "cancelled"));
    assert b2.(txs := b1.txs) == b1;
  }

  predicate SetsStatus(e: Event) {
    e.kind == SubscriptionActive || e.kind == SubscriptionPending
    || (e.kind == SubscriptionRenewed && e.previousBillingDate != 0)
  }

  lemma StatusEventRouted(b: Books, e: Event, st: Stamp)
    requires SetsStatus(e)
    ensures Processed(b, e, st) == StateUpdateHandled(Invalidated(b, e.host), e, st)
  {
  }

  lemma StateUpdateSubs(b: Books, e: Event, st: Stamp)
    ensures var cancelledAt := if e.status == Canceled then Some(st.now) else None;
            StateUpdateHandled(b, e, st).subs
            == b.subs[e.host :=
                 if e.host !in b.subs then Subscription(e.planId, e.status, e.cycle, None, cancelledAt, false)
                 else
                   var was := b.subs[e.host];
                   Subscription(was.planId, e.status, if e.cycle != "" then e.cycle else was.cycle,
                                was.graceUntil, cancelledAt, was.cancelAtPeriodEnd)]
  {
  }

  /**
   A status event writes the status and the cancellation time. On an existing subscription it keeps the plan, the
   deadline and, if it names none, the cycle; where there is none it opens one on the event's plan.
   */
  lemma StatusEventWrites(b: Books, e: Event, st: Stamp)
    requires SetsStatus(e)
    ensures var cancelledAt := if e.status == Canceled then Some(st.now) else None;
            Processed(b, e, st).subs
            == b.subs[e.host :=
                 if e.host !in b.subs then Subscription(e.planId, e.status, e.cycle, None, cancelledAt, false)
                 else
                   var was := b.subs[e.host];
                   Subscription(was.planId, e.status, if e.cycle != "" then e.cycle else was.cycle,
                                was.graceUntil, cancelledAt, was.cancelAtPeriodEnd)]
  {
    StatusEventRouted(b, e, st);
    StateUpdateSubs(Invalidated(b, e.host), e, st);
  }

  lemma StateUpdateHosts(b: Books, e: Event, st: Stamp)
    ensures StateUpdateHandled(b, e, st).hosts
         == if (e.kind == SubscriptionActive || e.kind == SubscriptionRenewed) && e.host in b.hosts
            then b.hosts[e.host := b.hosts[e.host].(monthlyCount := 0, resetAt := Some(st.now))] else b.hosts
  {
  }

  /** An active or renewed event starts a new cycle of the monthly count, a pending one does not; none sets the tier. */
  lemma StatusEventCounts(b: Books, e: Event, st: Stamp)
    requires SetsStatus(e)
    ensures Processed(b, e, st).hosts
         == if e.kind != SubscriptionPending && e.host in b.hosts
            then b.hosts[e.host := b.hosts[e.host].(monthlyCount := 0, resetAt := Some(st.now))] else b.hosts
  {
    StatusEventRouted(b, e, st);
    StateUpdateHosts(Invalidated(b, e.host), e, st);
  }

  /** A renewal without a previous billing date, or an unrecognized event, does nothing but drop the cached plan. */
  lemma IdleEvents(b: Books, e: Event, st: Stamp)
    requires e.kind == Unrecognized || (e.kind == SubscriptionRenewed && e.previousBillingDate == 0)
    ensures Processed(b, e, st) == if e.host == "" then b else b.(cache := b.cache - {e.host})
  {
  }

  /** An update merges what it names into an existing subscription and opens none. */
  lemma UpdateWrites(b: Books, e: Event, st: Stamp)
    requires e.kind == SubscriptionUpdated
    ensures e.host !in b.subs ==> Processed(b, e, st).subs == b.subs
    ensures e.host in b.subs ==>
              var was := b.subs[e.host];
              Processed(b, e, st).subs == b.subs[e.host := Subscription(
                if e.planId != "" then e.planId else was.planId, was.status,
                if e.cycle != "" then e.cycle else was.cycle, was.graceUntil,
                if e.cancelledAt > 0 then Some(e.cancelledAt) else was.cancelledAt, e.cancelAtPeriodEnd)]
  {
  }

  /** It sets the tier of a known plan it names, and no counter. */
  lemma UpdateSetsTier(b: Books, e: Event, st: Stamp)
    requires e.kind == SubscriptionUpdated && e.host in b.hosts
    ensures e.host in Processed(b, e, st).hosts
    ensures Processed(b, e, st).hosts[e.host]
         == b.hosts[e.host].(tier := if e.planId != "" && e.planId in b.plans then b.plans[e.planId].tier
                                     else b.hosts[e.host].tier)
  {
  }

  // ----- Ledger entries, field by field

  lemma EntriesSpelled(b: Books, e: Event, st: Stamp, amount: int, reason: string)
    ensures var t, f, r := SucceededTx(e, st), FailedTx(e, st, amount, reason), RecordOf(b, e, st);
            && t.id == f.id == r.txId == st.txId && r.id == st.recordId
            && t.host == f.host == r.host == e.host && t.planId == f.planId == r.planId == e.planId
            && t.status == Succeeded && f.status == Failed
            && t.amount == e.amount && t.total == e.total && f.amount == amount && f.total == 0 && r.amount == e.total
            && t.paymentId == f.paymentId == e.paymentId && t.reason == "" && f.reason == reason
            && r.planName == if e.planId in b.plans then b.plans[e.planId].name else ""
    ensures FailureReason(PaymentFailed) == "payment.failed"
    ensures FailureReason(SubscriptionFailed) == "subscription.failed"
  {
  }

  /** A failure enters one failed transaction with the amount due and its kind in words, and no record. */
  lemma FailureEntry(b: Books, e: Event, st: Stamp)
    requires Fails(e) && forall t :: t in b.txs ==> t.id != st.txId
    ensures Processed(b, e, st).records == b.records
    ensures Processed(b, e, st).txs
         == b.txs + [Transaction(st.txId, e.host, e.planId, Failed, e.amount, 0, e.paymentId,
                                 if e.kind == PaymentFailed then "payment.failed" else "subscription.failed")]
  {
    var b1 := Invalidated(b, e.host);
    var tx := FailedTx(e, st, e.amount, FailureReason(e.kind));
    assert WithTx(b1, tx) == b1.(txs := b1.txs + [tx]);
  }

  /** A cancellation enters one failed transaction of no amount. */
  lemma CancellationEntry(b: Books, e: Event, st: Stamp)
    requires e.kind == SubscriptionCancelled && forall t :: t in b.txs ==> t.id != st.txId
    ensures Processed(b, e, st).records == b.records
    ensures Processed(b, e, st).txs
         == b.txs + [Transaction(st.txId, e.host, e.planId, Failed, 0, 0, e.paymentId, "cancelled")]
  {
    var b1 := Invalidated(b, e.host);
    var tx := FailedTx(e, st, 0, "cancelled");
    assert WithTx(b1, tx) == b1.(txs := b1.txs + [tx]);
  }

  lemma CheckoutEntrySpelled(host: HostId, planId: PlanId, session: string, txId: string)
    ensures var t := PendingTx(host, planId, session, txId);
            && t.id == txId && t.host == host && t.planId == planId && t.paymentId == session
            && t.status == Pending && t.amount == 0 && t.total == 0 && t.reason == ""
  {
  }

  // ----- Lookups

  /** The deadline of a subscription in grace is over. */
  predicate RunOut(b: Books, host: HostId, now: int) {
    && host in b.subs && b.subs[host].cancelledAt.None? && b.subs[host].status == InGrace
    && b.subs[host].graceUntil.Some? && now > b.subs[host].graceUntil.value
  }

  /** A lookup finds the uncancelled subscription as it is; one that has run out it cancels, with the tier, instead. */
  lemma LookupMeans(b: Books, host: HostId, now: int)
    ensures var (b', sub) := SubscriptionLooked(b, host, now);
            && (sub.Some? <==> host in b.subs && b.subs[host].cancelledAt.None? && !RunOut(b, host, now))
            && (sub.Some? ==> sub == Some(b.subs[host]))
            && (!RunOut(b, host, now) ==> b' == b)
            && (RunOut(b, host, now) ==>
                  && b'.subs == b.subs[host := b.subs[host].(status := Canceled, cancelledAt := Some(now))]
                  && b'.cache == b.cache && b'.hosts.Keys == b.hosts.Keys
                  && (host in b.hosts ==> b'.hosts[host] == b.hosts[host].(tier := "free")))
  {
  }

  /** Without a live cache entry: the plan of the subscription found, kept 3600 s, or the free plan, kept 600 s. */
  lemma PlanLookupMeans(b: Books, host: HostId, now: int)
    requires !(host in b.cache && now < b.cache[host].until)
    ensures var (b', plan) := HostPlanLooked(b, host, now);
            var sub := SubscriptionLooked(b, host, now).1;
            && plan == (if sub.None? then b.freePlan
                        else if sub.value.planId in b.plans then Some(b.plans[sub.value.planId]) else None)
            && b'.subs == SubscriptionLooked(b, host, now).0.subs
            && b'.cache == if plan.None? || host == "" then b.cache
                           else b.cache[host := Cached(plan.value.(terms := NO_TERMS),
                                                       now + if sub.None? then 600 else 3600)]
  {
  }

  lemma LivePlanAnswered(b: Books, host: HostId, now: int)
    requires host in b.cache && now < b.cache[host].until
    ensures HostPlanLooked(b, host, now) == (b, Some(b.cache[host].plan))
  {
  }

  // ----- Counters

  /** Deleting a queue right after creating it gives both counts back, unless the monthly one was reset in between. */
  lemma CreateThenDelete(h: Host, createdAt: int)
    requires h.monthlyCount >= 0 && h.totalCount >= 0
    ensures var h' := Incremented(h);
            && h'.monthlyCount == h.monthlyCount + 1 && h'.totalCount == h.totalCount + 1
            && h'.tier == h.tier && h'.resetAt == h.resetAt
            && Decremented(h', createdAt)
               == if h.resetAt.Some? && createdAt < h.resetAt.value then h.(monthlyCount := h.monthlyCount + 1) else h
  {
  }

  /** A deletion takes one off each count that is positive, the monthly one only for a queue of the current cycle. */
  lemma DeletionMeans(h: Host, createdAt: int)
    ensures var h' := Decremented(h, createdAt);
            && h'.tier == h.tier && h'.resetAt == h.resetAt
            && h'.totalCount == (if h.totalCount > 0 then h.totalCount - 1 else h.totalCount)
            && h'.monthlyCount
               == if h.monthlyCount <= 0 || (h.resetAt.Some? && createdAt < h.resetAt.value) then h.monthlyCount
                  else h.monthlyCount - 1
  {
  }

  /** A reset starts a cycle: no count, nothing older counts against it, and 31 days pass before the next. */
  lemma ResetMeans(h: Host, now: int, later: int)
    ensures var h' := Reset(h, now);
            && h'.monthlyCount == 0 && h'.totalCount == h.totalCount && h'.tier == h.tier
            && (InCycle(h', later) <==> later >= now)
            && (NeedsReset(h', later) <==> later - now > 31 * 24 * 3600)
    ensures h.resetAt.None? ==> NeedsReset(h, now)
  {
  }
}

/**
 The monthly queue quota: the guarded creation as one sequential call, and then every creation and deletion
 broken into its single storage calls and interleaved. Times are in seconds.
 */
module Quota {
  import opened Text
  import opened Billing
  import opened RedisLocks

  const LEASE := 10

  datatype Outcome = ConcurrentCreation | ActiveQueueExists | CheckFailed | LimitReached | Created

  /** The count a creation is checked against: a host not reset for over 31 days counts from zero. */
  function Usage(h: Host, now: int): int { if NeedsReset(h, now) then 0 else h.monthlyCount }

  /** The guard with the creation it lets through, for a registered host; `active` answers the active-queue check. */
  method CreateQueue(svc: BillingService, lock: Lock, host: HostId, now: int, active: bool) returns (outcome: Outcome)
    requires host != "" && host in svc.hosts
    modifies svc, lock.key
    ensures var plan := HostPlanLooked(old(svc.View()), host, now).1;
            var h := old(svc.hosts)[host];
            && host in svc.hosts
            && (outcome == ConcurrentCreation <==> Holder(old(lock.key.value), now).Some?)
            && (outcome == ConcurrentCreation ==> lock.key.value == old(lock.key.value))
            && (outcome != ConcurrentCreation ==> lock.key.value == None)
            && (outcome != ConcurrentCreation ==> (outcome == ActiveQueueExists <==> active))
            && (outcome != ConcurrentCreation && !active ==>
                  && (outcome == CheckFailed <==> plan.None?)
                  && (outcome == LimitReached <==>
                        plan.Some? && plan.value.maxQueuesPerMonth > 0
                        && Usage(h, now) >= plan.value.maxQueuesPerMonth))
            && (outcome == Created ==>
                  && svc.hosts[host].totalCount == h.totalCount + 1
                  && (plan.value.maxQueuesPerMonth > 0 ==>
                        && svc.hosts[host].monthlyCount == Usage(h, now) + 1
                        && svc.hosts[host].monthlyCount <= plan.value.maxQueuesPerMonth))
            && (outcome != Created ==>
                  && svc.hosts[host].monthlyCount == h.monthlyCount && svc.hosts[host].totalCount == h.totalCount)
  {
    var acquired := lock.Acquire(now, LEASE);
    if !acquired { return ConcurrentCreation; }
    if active {
      lock.Release(now);
      return ActiveQueueExists;
    }
    ghost var before := svc.View();
    var exceeded := svc.IsMonthlyLimitExceeded(host, now, -1);
    LookupKeepsCounters(before, host, now);
    if exceeded.None? {
      outcome := CheckFailed;
    } else if exceeded.value {
      outcome := LimitReached;
    } else {
      svc.IncrementMonthlyQueueCount(host);
      outcome := Created;
    }
    lock.Release(now);
  }

  predicate SameCounters(b: Books, b': Books) {
    && b'.hosts.Keys == b.hosts.Keys
    && forall h :: h in b.hosts ==> b'.hosts[h] == b.hosts[h].(tier := b'.hosts[h].tier)
  }

  lemma SubscriptionLookupKeepsCounters(b: Books, host: HostId, now: int)
    ensures SameCounters(b, SubscriptionLooked(b, host, now).0)
  {
  }

  lemma LookupKeepsCounters(b: Books, host: HostId, now: int)
    ensures SameCounters(b, HostPlanLooked(b, host, now).0)
  {
    SubscriptionLookupKeepsCounters(b, host, now);
    var b1 := SubscriptionLooked(b, host, now).0;
    assert HostPlanLooked(b, host, now).0.hosts in {b.hosts, b1.hosts};
  }

  lemma UsageMeans(h: Host, now: int)
    ensures Usage(h, now)
         == if h.resetAt.Some? && now - h.resetAt.value <= 31 * 24 * 3600 then h.monthlyCount else 0
  {
  }

  // ----- The interleaving, for one registered host under a fixed maximum

  /** A deletion between its read and its write holds the amounts it is going to subtract. */
  datatype Owed = Owed(total: int, monthly: int)

  datatype Stage = ReadHost | SelfHeal | Cleared | Leave

  datatype Call = Inside(until: int, stage: Stage) | Finished

  datatype State = State(now: int, key: Option<Lease>, host: Host, calls: map<Owner, Call>, deletions: map<nat, Owed>)

  datatype Step =
    | Enter(r: Owner)
    | Proceed(r: Owner)
    | GiveUp(r: Owner)
    | Exit(r: Owner)
    | ReadForDelete(d: nat, createdAts: seq<int>)
    | WriteForDelete(d: nat)
    | DeleteAtOnce(createdAts: seq<int>)
    | BillingReset
    | SetTier(tier: string)
    | Pass(span: nat)

  predicate At(s: State, r: Owner) { r in s.calls && s.calls[r].Inside? }

  predicate Enabled(s: State, step: Step) {
    match step
    case Enter(r) => r !in s.calls
    case Proceed(r) => At(s, r) && !s.calls[r].stage.Leave?
    case GiveUp(r) => At(s, r)
    case Exit(r) => At(s, r) && s.calls[r].stage.Leave?
    case ReadForDelete(d, _) => d !in s.deletions
    case WriteForDelete(d) => d in s.deletions
    case _ => true
  }

  function To(s: State, r: Owner, stage: Stage): State
    requires At(s, r)
  {
    s.(calls := s.calls[r := Inside(s.calls[r].until, stage)])
  }

  function Subtracted(h: Host, p: Owed): Host {
    h.(totalCount := h.totalCount - p.total, monthlyCount := h.monthlyCount - p.monthly)
  }

  /** What a deletion that reads the host now will subtract. */
  function Amounts(h: Host, createdAts: seq<int>): Owed {
    var h' := DecrementedOneByOne(h, createdAts);
    Owed(h.totalCount - h'.totalCount, h.monthlyCount - h'.monthlyCount)
  }

  function Next(s: State, maximum: int, step: Step): State
    requires Enabled(s, step)
  {
    match step
    case Enter(r) =>
      if Holder(s.key, s.now).None?
      then s.(key := Acquired(s.key, r, s.now, LEASE), calls := s.calls[r := Inside(s.now + LEASE, ReadHost)])
      else s.(calls := s.calls[r := Finished])
    case Proceed(r) =>
      (match s.calls[r].stage
       case ReadHost =>
         To(s, r, if NeedsReset(s.host, s.now) then SelfHeal
                  else if QuotaExceeded(s.host.monthlyCount, maximum) then Leave else Cleared)
       case SelfHeal => To(s, r, if QuotaExceeded(0, maximum) then Leave else Cleared).(host := Reset(s.host, s.now))
       case _ => To(s, r, Leave).(host := Incremented(s.host)))
    case GiveUp(r) => To(s, r, Leave)
    case Exit(r) => s.(key := Released(s.key, r, s.now), calls := s.calls[r := Finished])
    case ReadForDelete(d, cs) => s.(deletions := s.deletions[d := Amounts(s.host, cs)])
    case WriteForDelete(d) => s.(host := Subtracted(s.host, s.deletions[d]), deletions := s.deletions - {d})
    case DeleteAtOnce(cs) => s.(host := DecrementedOneByOne(s.host, cs))
    case BillingReset => s.(host := Reset(s.host, s.now))
    case SetTier(t) => s.(host := s.host.(tier := t))
    case Pass(span) => s.(now := s.now + span)
  }

  predicate Possible(s: State, maximum: int, steps: seq<Step>)
    decreases |steps|
  {
    steps == [] || (Enabled(s, steps[0]) && Possible(Next(s, maximum, steps[0]), maximum, steps[1..]))
  }

  function After(s: State, maximum: int, steps: seq<Step>): State
    requires Possible(s, maximum, steps)
    decreases |steps|
  {
    if steps == [] then s else After(Next(s, maximum, steps[0]), maximum, steps[1..])
  }

  /** No creation is still inside when its lease lapses. */
  ghost predicate LeasesOutlive(s: State) { forall r :: At(s, r) ==> s.now < s.calls[r].until }

  ghost predicate LeasesOutliveThroughout(s: State, maximum: int, steps: seq<Step>)
    requires Possible(s, maximum, steps)
    decreases |steps|
  {
    LeasesOutlive(s) && (steps == [] || LeasesOutliveThroughout(Next(s, maximum, steps[0]), maximum, steps[1..]))
  }

  /** A creation inside owns the key; one that passed the check has room; pending amounts are not negative. */
  ghost predicate Sound(s: State, maximum: int) {
    && (forall r :: At(s, r) ==> s.key == Some(Lease(r, s.calls[r].until)))
    && (forall r :: At(s, r) && s.calls[r].stage == Cleared ==> s.host.monthlyCount < maximum)
    && (forall d :: d in s.deletions ==> s.deletions[d].monthly >= 0)
    && s.host.monthlyCount <= maximum
  }

  lemma {:induction false} DecrementsOnlyLower(h: Host, createdAts: seq<int>)
    ensures DecrementedOneByOne(h, createdAts).monthlyCount <= h.monthlyCount
    ensures h.monthlyCount >= 0 ==> DecrementedOneByOne(h, createdAts).monthlyCount >= 0
    ensures h.totalCount >= 0 ==> DecrementedOneByOne(h, createdAts).totalCount >= 0
    decreases |createdAts|
  {
    if createdAts != [] { DecrementsOnlyLower(Decremented(h, createdAts[0]), createdAts[1..]); }
  }

  lemma AloneInside(s: State, maximum: int, r: Owner, o: Owner)
    requires Sound(s, maximum) && At(s, r) && At(s, o)
    ensures r == o
  {
  }

  lemma StepKeepsSound(s: State, maximum: int, step: Step)
    requires maximum > 0 && Sound(s, maximum) && LeasesOutlive(s) && Enabled(s, step)
    ensures Sound(Next(s, maximum, step), maximum)
  {
    match step
    case Enter(r) =>
      if Holder(s.key, s.now).None? { assert forall o: Owner :: At(s, o) ==> Holder(s.key, s.now) == Some(o); }
    case Proceed(r) =>
      forall o | At(s, o) ensures o == r { AloneInside(s, maximum, r, o); }
    case GiveUp(_) =>
    case Exit(r) =>
      forall o | At(s, o) ensures o == r { AloneInside(s, maximum, r, o); }
    case ReadForDelete(_, cs) => DecrementsOnlyLower(s.host, cs);
    case WriteForDelete(_) =>
    case DeleteAtOnce(cs) => DecrementsOnlyLower(s.host, cs);
    case _ =>
  }

  lemma {:induction false} RunKeepsSound(s: State, maximum: int, steps: seq<Step>)
    requires maximum > 0 && Sound(s, maximum)
    requires Possible(s, maximum, steps) && LeasesOutliveThroughout(s, maximum, steps)
    ensures Sound(After(s, maximum, steps), maximum)
    decreases |steps|
  {
    if steps != [] {
      StepKeepsSound(s, maximum, steps[0]);
      RunKeepsSound(Next(s, maximum, steps[0]), maximum, steps[1..]);
    }
  }

  /**
   The quota: over every interleaving of creations whose leases last, deletions in one step or two, resets and
   tier changes, the monthly count never passes the plan's maximum.
   */
  lemma QuotaHolds(s: State, maximum: int, steps: seq<Step>)
    requires s.calls == map[] && s.deletions == map[] && s.host.monthlyCount <= maximum && maximum > 0
    requires Possible(s, maximum, steps) && LeasesOutliveThroughout(s, maximum, steps)
    ensures After(s, maximum, steps).host.monthlyCount <= maximum
  {
    RunKeepsSound(s, maximum, steps);
  }

  predicate NoDebt(h: Host) { h.monthlyCount >= 0 && h.totalCount >= 0 }

  /** The write of a two-step deletion finds at least what it is going to subtract; every other step is free. */
  predicate Covered(s: State, step: Step) {
    step.WriteForDelete? && step.d in s.deletions ==>
      s.deletions[step.d].monthly <= s.host.monthlyCount && s.deletions[step.d].total <= s.host.totalCount
  }

  predicate CoveredRun(s: State, maximum: int, steps: seq<Step>)
    requires Possible(s, maximum, steps)
    decreases |steps|
  {
    steps == [] || (Covered(s, steps[0]) && CoveredRun(Next(s, maximum, steps[0]), maximum, steps[1..]))
  }

  predicate NoDebtThroughout(s: State, maximum: int, steps: seq<Step>)
    requires Possible(s, maximum, steps)
    decreases |steps|
  {
    NoDebt(s.host) && (steps == [] || NoDebtThroughout(Next(s, maximum, steps[0]), maximum, steps[1..]))
  }

  /** One step leaves both counts non-negative exactly when it is not a delayed write that owes more than is there. */
  lemma StepNoDebtExact(s: State, maximum: int, step: Step)
    requires NoDebt(s.host) && Enabled(s, step)
    ensures NoDebt(Next(s, maximum, step).host) <==> Covered(s, step)
  {
    if step.DeleteAtOnce? { DecrementsOnlyLower(s.host, step.createdAts); }
  }

  /**
   Over every interleaving, leases or not: no state has a negative count exactly when every delayed write finds at
   least what it read it would subtract.
   */
  lemma {:induction false} NeverNegativeExact(s: State, maximum: int, steps: seq<Step>)
    requires Possible(s, maximum, steps) && NoDebt(s.host)
    ensures NoDebtThroughout(s, maximum, steps) <==> CoveredRun(s, maximum, steps)
    decreases |steps|
  {
    if steps != [] {
      StepNoDebtExact(s, maximum, steps[0]);
      if Covered(s, steps[0]) { NeverNegativeExact(Next(s, maximum, steps[0]), maximum, steps[1..]); }
    }
  }

  lemma {:induction false} EndsWithoutDebt(s: State, maximum: int, steps: seq<Step>)
    requires Possible(s, maximum, steps) && NoDebtThroughout(s, maximum, steps)
    ensures NoDebt(After(s, maximum, steps).host)
    decreases |steps|
  {
    if steps != [] { EndsWithoutDebt(Next(s, maximum, steps[0]), maximum, steps[1..]); }
  }

  lemma {:induction false} OneStepDeletionsCovered(s: State, maximum: int, steps: seq<Step>)
    requires Possible(s, maximum, steps) && forall i :: 0 <= i < |steps| ==> !steps[i].WriteForDelete?
    ensures CoveredRun(s, maximum, steps)
    decreases |steps|
  {
    if steps != [] { OneStepDeletionsCovered(Next(s, maximum, steps[0]), maximum, steps[1..]); }
  }

  /** While every deletion reads and writes in one step, neither counter is ever negative, leases or not. */
  lemma NeverNegative(s: State, maximum: int, steps: seq<Step>)
    requires Possible(s, maximum, steps) && NoDebt(s.host)
    requires forall i :: 0 <= i < |steps| ==> !steps[i].WriteForDelete?
    ensures NoDebtThroughout(s, maximum, steps) && NoDebt(After(s, maximum, steps).host)
  {
    OneStepDeletionsCovered(s, maximum, steps);
    NeverNegativeExact(s, maximum, steps);
    EndsWithoutDebt(s, maximum, steps);
  }

  /** Read and write with nothing in between is the one-step deletion. */
  lemma ReadThenWrite(s: State, maximum: int, d: nat, createdAts: seq<int>)
    requires d !in s.deletions
    ensures Next(Next(s, maximum, ReadForDelete(d, createdAts)), maximum, WriteForDelete(d))
         == Next(s, maximum, DeleteAtOnce(createdAts))
  {
    BulkEqualsSingles(s.host, createdAts);
    assert s.deletions[d := Amounts(s.host, createdAts)] - {d} == s.deletions;
  }

  lemma Unfold(s: State, maximum: int, step: Step, rest: seq<Step>) returns (all: seq<Step>)
    requires Enabled(s, step) && Possible(Next(s, maximum, step), maximum, rest)
    ensures all == [step] + rest
    ensures Possible(s, maximum, all) && After(s, maximum, all) == After(Next(s, maximum, step), maximum, rest)
  {
    all := [step] + rest;
    assert all[1..] == rest;
  }

  /** Two deletions that both read a count of one before either writes leave it at minus one. */
  lemma InterleavedDeletionsGoNegative(now: int, maximum: int) returns (s: State, steps: seq<Step>)
    ensures s.host.monthlyCount == 1 && s.calls == map[] && s.deletions == map[]
    ensures Possible(s, maximum, steps) && After(s, maximum, steps).host.monthlyCount == -1
  {
    s := State(now, None, Host("free", 1, 2, Some(now)), map[], map[]);
    assert [now][1..] == [];
    assert DecrementedOneByOne(s.host, [now]) == Decremented(s.host, now);
    var s1 := Next(s, maximum, ReadForDelete(0, [now]));
    var s2 := Next(s1, maximum, ReadForDelete(1, [now]));
    var s3 := Next(s2, maximum, WriteForDelete(0));
    var s4 := Next(s3, maximum, WriteForDelete(1));
    assert s4.host.monthlyCount == -1;
    steps := Unfold(s3, maximum, WriteForDelete(1), []);
    steps := Unfold(s2, maximum, WriteForDelete(0), steps);
    steps := Unfold(s1, maximum, ReadForDelete(1, [now]), steps);
    steps := Unfold(s, maximum, ReadForDelete(0, [now]), steps);
  }

  /** A reset between the read and the write of one deletion does the same. */
  lemma ResetDuringDeletionGoesNegative(now: int, maximum: int) returns (s: State, steps: seq<Step>)
    ensures s.host.monthlyCount == 1 && s.calls == map[] && s.deletions == map[]
    ensures Possible(s, maximum, steps) && After(s, maximum, steps).host.monthlyCount == -1
  {
    s := State(now, None, Host("free", 1, 2, Some(now)), map[], map[]);
    assert [now][1..] == [];
    assert DecrementedOneByOne(s.host, [now]) == Decremented(s.host, now);
    var s1 := Next(s, maximum, ReadForDelete(0, [now]));
    var s2 := Next(s1, maximum, BillingReset);
    assert Next(s2, maximum, WriteForDelete(0)).host.monthlyCount == -1;
    steps := Unfold(s2, maximum, WriteForDelete(0), []);
    steps := Unfold(s1, maximum, BillingReset, steps);
    steps := Unfold(s, maximum, ReadForDelete(0, [now]), steps);
  }

  /**
   A creation let in and left alone is admitted exactly when there is no maximum or the usage is below it, and then
   counted once in both counts; either way a stale host is reset, and the key is free again.
   */
  lemma UndisturbedCreation(s: State, maximum: int, r: Owner) returns (steps: seq<Step>)
    requires r !in s.calls && Holder(s.key, s.now).None?
    ensures Possible(s, maximum, steps)
    ensures var end := After(s, maximum, steps);
            var h := if NeedsReset(s.host, s.now) then Reset(s.host, s.now) else s.host;
            && end.key == None && end.calls == s.calls[r := Finished] && end.deletions == s.deletions
            && end.host == if maximum > 0 && Usage(s.host, s.now) >= maximum then h
                           else h.(monthlyCount := h.monthlyCount + 1, totalCount := h.totalCount + 1)
  {
    var s1 := Next(s, maximum, Enter(r));
    var s2 := Next(s1, maximum, Proceed(r));
    if NeedsReset(s.host, s.now) {
      var s3 := Next(s2, maximum, Proceed(r));
      steps := CreateAndLeave(s3, maximum, r);
      steps := Unfold(s2, maximum, Proceed(r), steps);
    } else if s2.calls[r].stage == Cleared {
      steps := CreateAndLeave(s2, maximum, r);
    } else {
      steps := Unfold(s2, maximum, Exit(r), []);
    }
    assert s2.calls[r := Finished] == s.calls[r := Finished];
    steps := Unfold(s1, maximum, Proceed(r), steps);
    steps := Unfold(s, maximum, Enter(r), steps);
  }

  lemma CreateAndLeave(s: State, maximum: int, r: Owner) returns (steps: seq<Step>)
    requires At(s, r) && s.calls[r].stage == Cleared && Holder(s.key, s.now) == Some(r)
    ensures Possible(s, maximum, steps)
    ensures After(s, maximum, steps)
         == s.(host := Incremented(s.host), key := None, calls := s.calls[r := Finished])
  {
    var s1 := Next(s, maximum, Proceed(r));
    assert s1.calls[r := Finished] == s.calls[r := Finished];
    steps := Unfold(s1, maximum, Exit(r), []);
    steps := Unfold(s, maximum, Proceed(r), steps);
  }

  /** While one creation is inside, another is let in exactly when ten seconds are over. */
  lemma CreationLeaseExact(s: State, maximum: int, r: Owner, other: Owner, span: nat)
    requires r !in s.calls && other !in s.calls && other != r && Holder(s.key, s.now).None?
    ensures var s1 := Next(Next(s, maximum, Enter(r)), maximum, Step.Pass(span));
            At(s1, r) && (At(Next(s1, maximum, Enter(other)), other) <==> span >= 10)
  {
  }

  /** The lease assumption is needed: two creations past the check, the first one's lease lapsed, overspend. */
  lemma LapsedLeaseOverspends(now: int, maximum: int) returns (s: State, steps: seq<Step>)
    requires maximum > 0
    ensures s.host.monthlyCount < maximum && s.calls == map[] && s.deletions == map[]
    ensures Possible(s, maximum, steps) && After(s, maximum, steps).host.monthlyCount == maximum + 1
  {
    s := State(now, None, Host("free", maximum - 1, maximum, Some(now)), map[], map[]);
    var s1 := Next(s, maximum, Enter(0));
    var s2 := Next(s1, maximum, Proceed(0));
    var s3 := Next(s2, maximum, Step.Pass(LEASE));
    var s4 := Next(s3, maximum, Enter(1));
    var s5 := Next(s4, maximum, Proceed(1));
    var s6 := Next(s5, maximum, Proceed(1));
    steps := Unfold(s6, maximum, Proceed(0), []);
    steps := Unfold(s5, maximum, Proceed(1), steps);
    steps := Unfold(s4, maximum, Proceed(1), steps);
    steps := Unfold(s3, maximum, Enter(1), steps);
    steps := Unfold(s2, maximum, Step.Pass(LEASE), steps);
    steps := Unfold(s1, maximum, Proceed(0), steps);
    steps := Unfold(s, maximum, Enter(0), steps);
  }
}

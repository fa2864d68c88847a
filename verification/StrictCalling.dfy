/**
 "Call next" under strict mode. First the handler as one sequential call on its stores, then every request
 broken into its single storage calls and interleaved with the others and with all other entry traffic.
 */
module StrictCalling {
  import opened Text
  import opened SortedSets
  import opened QueueEngine
  import opened RedisLocks

  const LEASE_MS := 3000

  /** What the handler reads of a queue record. */
  datatype Queue = Queue(running: bool, expiresAt: int, strict: bool)

  /** The lookup finds only running, unexpired queues; the strict check is skipped when it finds none. */
  predicate ChecksStrict(q: Queue, now: int) { q.running && now < q.expiresAt && q.strict }

  predicate HasCalled(entries: map<Id, Entry>) { exists id :: id in entries && entries[id].status == CALLED }

  datatype Outcome = Busy | Conflict | NoGuests | Called(id: Id)

  /** What a call alone on its stores does to the entries, with `order` the ids it works through. */
  function WholeCall(e: Engine, q: Queue, now: int, order: seq<Id>): (Outcome, Engine) {
    if ChecksStrict(q, now) && HasCalled(e.entries) then (Conflict, e)
    else
      match CalledGuest(e, order)
      case Some(id) => (Called(id), CalledNext(e, order))
      case None => (NoGuests, CalledNext(e, order))
  }

  method CallEntry(svc: QueueService, lock: Lock, q: Queue, now: int, ranged: seq<Id>, listing: seq<Id>)
    returns (outcome: Outcome)
    requires IsRange(ranged, svc.index) && IsListing(listing, svc.View())
    modifies svc, lock.key
    ensures outcome == Busy <==> Holder(old(lock.key.value), now).Some?
    ensures outcome == Busy ==> unchanged(svc) && lock.key.value == old(lock.key.value)
    ensures outcome != Busy ==>
              && (outcome, svc.View()) == WholeCall(old(svc.View()), q, now, if |ranged| != 0 then ranged else listing)
              && lock.key.value == None
  {
    var acquired := lock.Acquire(now, LEASE_MS);
    if !acquired { return Busy; }
    if ChecksStrict(q, now) {
      var hasActive := HasCalled(svc.entries);
      if hasActive {
        lock.Release(now);
        return Conflict;
      }
    }
    var called := svc.CallNextUser(ranged, listing);
    outcome := if called.Some? then Called(called.value) else NoGuests;
    lock.Release(now);
  }

  /** The ids to warn: the first two WAITING ones among the first five of the range, the called one left out. */
  function Warned(entries: map<Id, Entry>, ids: seq<Id>, called: Id, room: nat): seq<Id> {
    if ids == [] || room == 0 then []
    else if ids[0] != called && ids[0] in entries && entries[ids[0]].status == WAITING
    then [ids[0]] + Warned(entries, ids[1..], called, room - 1)
    else Warned(entries, ids[1..], called, room)
  }

  lemma WarnedFrom(entries: map<Id, Entry>, ids: seq<Id>, i: nat, called: Id, nextUp: seq<Id>)
    requires i < |ids| && |nextUp| < 2
    ensures var taken := ids[i] != called && ids[i] in entries && entries[ids[i]].status == WAITING;
            var nextUp' := if taken then nextUp + [ids[i]] else nextUp;
            nextUp + Warned(entries, ids[i..], called, 2 - |nextUp|)
            == nextUp' + Warned(entries, ids[i + 1..], called, 2 - |nextUp'|)
  {
    assert ids[i..][1..] == ids[i + 1..];
  }

  method NextUp(entries: map<Id, Entry>, range: seq<Id>, called: Id) returns (nextUp: seq<Id>)
    ensures nextUp == Warned(entries, if |range| <= 5 then range else range[..5], called, 2)
    ensures |nextUp| <= 2 && called !in nextUp
    ensures forall id :: id in nextUp ==> id in range && id in entries && entries[id].status == WAITING
  {
    var ids := if |range| <= 5 then range else range[..5];
    nextUp := [];
    var i := 0;
    while i < |ids| && |nextUp| < 2
      invariant i <= |ids| && |nextUp| <= 2
      invariant nextUp + Warned(entries, ids[i..], called, 2 - |nextUp|) == Warned(entries, ids, called, 2)
    {
      WarnedFrom(entries, ids, i, called, nextUp);
      if ids[i] != called && ids[i] in entries && entries[ids[i]].status == WAITING {
        nextUp := nextUp + [ids[i]];
      }
      i := i + 1;
    }
    WarnedIsSound(entries, ids, called, 2);
  }

  lemma {:induction false} WarnedIsSound(entries: map<Id, Entry>, ids: seq<Id>, called: Id, room: nat)
    ensures |Warned(entries, ids, called, room)| <= room && called !in Warned(entries, ids, called, room)
    ensures forall id :: id in Warned(entries, ids, called, room) ==>
              id in ids && id in entries && entries[id].status == WAITING
  {
    if ids != [] && room > 0 {
      var taken := ids[0] != called && ids[0] in entries && entries[ids[0]].status == WAITING;
      WarnedIsSound(entries, ids[1..], called, if taken then room - 1 else room);
    }
  }

  /** The waiting guests of a range other than the one called, in order. */
  function WaitingOthers(entries: map<Id, Entry>, ids: seq<Id>, called: Id): seq<Id> {
    if ids == [] then []
    else (if ids[0] != called && ids[0] in entries && entries[ids[0]].status == WAITING then [ids[0]] else [])
         + WaitingOthers(entries, ids[1..], called)
  }

  /** The warned are the first of them, as many as there is room for. */
  lemma {:induction false} WarnedExact(entries: map<Id, Entry>, ids: seq<Id>, called: Id, room: nat)
    ensures var others := WaitingOthers(entries, ids, called);
            Warned(entries, ids, called, room) == if |others| <= room then others else others[..room]
  {
    if ids != [] && room > 0 {
      var taken := ids[0] != called && ids[0] in entries && entries[ids[0]].status == WAITING;
      WarnedExact(entries, ids[1..], called, if taken then room - 1 else room);
    }
  }

  /** What a lone call answers and does, by the queue's record and the entries alone. */
  lemma WholeCallMeans(e: Engine, q: Queue, now: int, order: seq<Id>)
    requires Consistent(e) && Offers(order, e)
    ensures var (outcome, e') := WholeCall(e, q, now, order);
            var checked := q.running && now < q.expiresAt && q.strict;
            && (outcome == Conflict <==> checked && exists id :: id in e.entries && e.entries[id].status == CALLED)
            && (outcome == Conflict ==> e' == e)
            && (outcome == NoGuests ==> e'.entries == e.entries && forall id :: id in e'.index ==> !Waiting(e, id))
            && (outcome.Called? ==>
                  && Waiting(e, outcome.id) && outcome.id in e'.index
                  && e'.entries == e.entries[outcome.id := Entry(CALLED, e.entries[outcome.id].created)]
                  && forall o :: o in e'.index && Waiting(e, o) ==>
                       e.entries[outcome.id].created <= e.entries[o].created)
            && outcome != Busy
  {
    CallIsFifo(e, order);
  }

  /** A lone call adds a second CALLED entry exactly when somebody waits and the strict check does not apply. */
  lemma LoneCallExact(e: Engine, q: Queue, now: int, order: seq<Id>, called: Id)
    requires Consistent(e) && Offers(order, e) && called in e.entries && e.entries[called].status == CALLED
    ensures (exists id :: id != called && id in e.entries && e.entries[id].status != CALLED
              && WholeCall(e, q, now, order).1.entries[id].status == CALLED)
            <==> !(q.running && now < q.expiresAt && q.strict)
                 && exists id :: id in Scanned(e).index && Waiting(e, id)
  {
    CallIsFifo(e, order);
    if !ChecksStrict(q, now) && CalledGuest(e, order).Some? {
      var id := CalledGuest(e, order).value;
      assert WholeCall(e, q, now, order).1.entries[id].status == CALLED;
    }
  }

  // ----- The interleaving

  datatype Stage =
    | LookUpQueue
    | CountCalled
    | FetchIds
    | FindLive
    | AddBulk(listing: seq<Id>, members: Index)
    | Scan(ids: seq<Id>)
    | Write(id: Id)
    | Leave

  datatype Call = Inside(until: int, stage: Stage) | Finished

  datatype State = State(now: int, key: Option<Lease>, queue: Queue, engine: Engine, calls: map<Owner, Call>)

  datatype Step =
    | Enter(r: Owner)
    | Proceed(r: Owner)
    | ProceedWith(r: Owner, reply: seq<Id>)
    | Exit(r: Owner)
    | Traffic(engine: Engine)
    | Edit(queue: Queue)
    | Pass(ms: nat)

  /** Any other entry traffic: joins, finishes, timers, arrivals, index loss; nobody becomes CALLED. */
  predicate NobodyNewlyCalled(e: Engine, e': Engine) {
    forall id :: id in e'.entries && e'.entries[id].status == CALLED ==>
      id in e.entries && e.entries[id].status == CALLED
  }

  predicate At(s: State, r: Owner) { r in s.calls && s.calls[r].Inside? }

  predicate NeedsReply(stage: Stage) { stage.FetchIds? || stage.FindLive? }

  ghost predicate Enabled(s: State, step: Step) {
    match step
    case Enter(r) => r !in s.calls
    case Proceed(r) => At(s, r) && !NeedsReply(s.calls[r].stage) && !s.calls[r].stage.Leave?
    case ProceedWith(r, reply) =>
      && At(s, r) && NeedsReply(s.calls[r].stage)
      && (s.calls[r].stage.FetchIds? ==> IsRange(reply, s.engine.index))
      && (s.calls[r].stage.FindLive? ==> IsListing(reply, s.engine))
    case Exit(r) => At(s, r) && s.calls[r].stage.Leave?
    case Traffic(e) => NobodyNewlyCalled(s.engine, e)
    case Edit(_) => true
    case Pass(_) => true
  }

  function To(s: State, r: Owner, stage: Stage): State
    requires At(s, r)
  {
    s.(calls := s.calls[r := Inside(s.calls[r].until, stage)])
  }

  /** The storage calls without a reply list: queue lookup, count, bulk add, one entry read, the status write. */
  function Proceeded(s: State, r: Owner): State
    requires At(s, r)
  {
    match s.calls[r].stage
    case LookUpQueue => To(s, r, if ChecksStrict(s.queue, s.now) then CountCalled else FetchIds)
    case CountCalled => To(s, r, if HasCalled(s.engine.entries) then Leave else FetchIds)
    case AddBulk(listing, members) =>
      To(s, r, Scan(listing)).(engine := s.engine.(index := s.engine.index + members))
    case Scan(ids) =>
      if ids == [] then To(s, r, Leave)
      else if Waiting(s.engine, ids[0]) then To(s, r, Write(ids[0]))
      else To(s, r, Scan(ids[1..]))
    case Write(id) => To(s, r, Leave).(engine := WithStatus(s.engine, id, CALLED))
    case _ => s
  }

  function Next(s: State, step: Step): State
    requires Enabled(s, step)
  {
    match step
    case Enter(r) =>
      if Holder(s.key, s.now).None?
      then s.(key := Acquired(s.key, r, s.now, LEASE_MS), calls := s.calls[r := Inside(s.now + LEASE_MS, LookUpQueue)])
      else s.(calls := s.calls[r := Finished])
    case Proceed(r) => Proceeded(s, r)
    case ProceedWith(r, reply) =>
      if s.calls[r].stage.FetchIds? then
        if reply == [] then To(s, r, FindLive).(engine := s.engine.(sentinel := true)) else To(s, r, Scan(reply))
      else To(s, r, if reply == [] then Leave else AddBulk(reply, LiveIndex(s.engine)))
    case Exit(r) => s.(key := Released(s.key, r, s.now), calls := s.calls[r := Finished])
    case Traffic(e) => s.(engine := e)
    case Edit(q) => s.(queue := q)
    case Pass(ms) => s.(now := s.now + ms)
  }

  ghost predicate Possible(s: State, steps: seq<Step>)
    decreases |steps|
  {
    steps == [] || (Enabled(s, steps[0]) && Possible(Next(s, steps[0]), steps[1..]))
  }

  ghost function After(s: State, steps: seq<Step>): State
    requires Possible(s, steps)
    decreases |steps|
  {
    if steps == [] then s else After(Next(s, steps[0]), steps[1..])
  }

  /** Strict mode applies, and no request is still inside when its lease lapses. */
  ghost predicate Assumed(s: State) {
    ChecksStrict(s.queue, s.now) && forall r :: At(s, r) ==> s.now < s.calls[r].until
  }

  ghost predicate AssumedThroughout(s: State, steps: seq<Step>)
    requires Possible(s, steps)
    decreases |steps|
  {
    Assumed(s) && (steps == [] || AssumedThroughout(Next(s, steps[0]), steps[1..]))
  }

  ghost predicate AtMostOneCalled(e: Engine) {
    forall a, b | a in e.entries && b in e.entries ::
      e.entries[a].status == CALLED && e.entries[b].status == CALLED ==> a == b
  }

  predicate PastCheck(stage: Stage) { !stage.LookUpQueue? && !stage.CountCalled? && !stage.Leave? }

  ghost predicate Sound(s: State) {
    && (forall r :: At(s, r) ==> s.key == Some(Lease(r, s.calls[r].until)))
    && (forall r :: At(s, r) && PastCheck(s.calls[r].stage) ==> !HasCalled(s.engine.entries))
    && AtMostOneCalled(s.engine)
  }

  lemma AloneInside(s: State, r: Owner, o: Owner)
    requires Sound(s) && At(s, r) && At(s, o)
    ensures r == o
  {
  }

  lemma StepKeepsSound(s: State, step: Step)
    requires Sound(s) && Assumed(s) && Enabled(s, step)
    ensures Sound(Next(s, step))
  {
  }

  lemma {:induction false} RunKeepsSound(s: State, steps: seq<Step>)
    requires Sound(s) && Possible(s, steps) && AssumedThroughout(s, steps)
    ensures Sound(After(s, steps))
    decreases |steps|
  {
    if steps != [] {
      StepKeepsSound(s, steps[0]);
      RunKeepsSound(Next(s, steps[0]), steps[1..]);
    }
  }

  /** Strict mode: over every assumed run from a state with no request under way, at most one entry is CALLED. */
  lemma StrictModeHolds(s: State, steps: seq<Step>)
    requires s.calls == map[] && AtMostOneCalled(s.engine)
    requires Possible(s, steps) && AssumedThroughout(s, steps)
    ensures AtMostOneCalled(After(s, steps).engine)
    ensures forall r, o :: At(After(s, steps), r) && At(After(s, steps), o) ==> r == o
  {
    RunKeepsSound(s, steps);
    forall r, o | At(After(s, steps), r) && At(After(s, steps), o) ensures r == o {
      AloneInside(After(s, steps), r, o);
    }
  }

  /** Every service step but a call and a direct recall is traffic in this sense. */
  lemma OtherStepsAreTraffic(e: Engine, step: QueueEngine.Step)
    requires QueueEngine.Enabled(e, step) && !step.CallNext? && !step.Recall?
    ensures NobodyNewlyCalled(e, QueueEngine.Next(e, step))
  {
  }

  lemma Prepend(s: State, step: Step, rest: seq<Step>) returns (all: seq<Step>)
    requires Enabled(s, step) && Possible(Next(s, step), rest)
    ensures Possible(s, all) && After(s, all) == After(Next(s, step), rest)
  {
    all := [step] + rest;
    assert all[1..] == rest;
  }

  lemma {:induction false} Concatenate(s: State, xs: seq<Step>, ys: seq<Step>)
    requires Possible(s, xs) && Possible(After(s, xs), ys)
    ensures Possible(s, xs + ys) && After(s, xs + ys) == After(After(s, xs), ys)
    decreases |xs|
  {
    if xs == [] {
      assert xs + ys == ys;
    } else {
      Concatenate(Next(s, xs[0]), xs[1..], ys);
      assert (xs + ys)[1..] == xs[1..] + ys;
    }
  }

  // Undisturbed, the steps of a request amount to the whole call.

  lemma {:induction false} ScanUndisturbed(s: State, r: Owner, ids: seq<Id>) returns (steps: seq<Step>)
    requires At(s, r) && s.calls[r].stage == Scan(ids)
    ensures Possible(s, steps)
    ensures var i := FirstWaiting(s.engine.entries, ids);
            After(s, steps)
            == To(s, r, Leave).(engine := if i < |ids| then WithStatus(s.engine, ids[i], CALLED) else s.engine)
    decreases |ids|
  {
    var s1 := Next(s, Proceed(r));
    if ids == [] {
      steps := Prepend(s, Proceed(r), []);
    } else if Waiting(s.engine, ids[0]) {
      steps := Prepend(s1, Proceed(r), []);
      steps := Prepend(s, Proceed(r), steps);
    } else {
      steps := ScanUndisturbed(s1, r, ids[1..]);
      steps := Prepend(s, Proceed(r), steps);
    }
  }

  /** The rebuild inside a request, from the database query on. */
  lemma RebuildUndisturbed(s: State, r: Owner, listing: seq<Id>) returns (steps: seq<Step>)
    requires At(s, r) && s.calls[r].stage == FindLive && IsListing(listing, s.engine)
    requires s.engine.index == map[] && s.engine.sentinel
    ensures Possible(s, steps)
    ensures After(s, steps) == To(s, r, Leave).(engine := CalledNext(s.engine, listing))
  {
    var s1 := Next(s, ProceedWith(r, listing));
    if listing == [] {
      assert forall id :: id !in LiveIndex(s.engine);
      assert s.engine == CalledNext(s.engine, []);
      steps := Prepend(s, ProceedWith(r, listing), []);
    } else {
      var s2 := Next(s1, Proceed(r));
      assert s2.engine == Rehydrated(s.engine);
      steps := ScanUndisturbed(s2, r, listing);
      assert After(s2, steps) == To(s, r, Leave).(engine := CalledNext(s.engine, listing));
      steps := Prepend(s1, Proceed(r), steps);
      steps := Prepend(s, ProceedWith(r, listing), steps);
    }
  }

  lemma SentinelUnseen(e: Engine, e': Engine, listing: seq<Id>)
    requires e.index == map[] && e' == e.(sentinel := true) && IsListing(listing, e)
    ensures IsListing(listing, e') && CalledNext(e', listing) == CalledNext(e, listing)
  {
    assert LiveIndex(e') == LiveIndex(e);
  }

  lemma UnindexedUndisturbed(s: State, r: Owner, listing: seq<Id>) returns (steps: seq<Step>)
    requires At(s, r) && s.calls[r].stage == FetchIds && s.engine.index == map[] && IsListing(listing, s.engine)
    ensures Possible(s, steps)
    ensures After(s, steps) == To(s, r, Leave).(engine := CalledNext(s.engine, listing))
  {
    var s1 := Next(s, ProceedWith(r, []));
    SentinelUnseen(s.engine, s1.engine, listing);
    steps := RebuildUndisturbed(s1, r, listing);
    steps := Prepend(s, ProceedWith(r, []), steps);
  }

  lemma IndexedUndisturbed(s: State, r: Owner, ranged: seq<Id>) returns (steps: seq<Step>)
    requires At(s, r) && s.calls[r].stage == FetchIds && IsRange(ranged, s.engine.index)
    requires ranged != [] && s.engine.index != map[]
    ensures Possible(s, steps)
    ensures After(s, steps) == To(s, r, Leave).(engine := CalledNext(s.engine, ranged))
  {
    var s1 := Next(s, ProceedWith(r, ranged));
    steps := ScanUndisturbed(s1, r, ranged);
    steps := Prepend(s, ProceedWith(r, ranged), steps);
  }

  /** From the fetch of the ids on. */
  lemma CallUndisturbed(s: State, r: Owner, ranged: seq<Id>, listing: seq<Id>) returns (steps: seq<Step>)
    requires At(s, r) && s.calls[r].stage == FetchIds
    requires IsRange(ranged, s.engine.index) && IsListing(listing, s.engine)
    ensures Possible(s, steps)
    ensures After(s, steps)
         == To(s, r, Leave).(engine := CalledNext(s.engine, if |ranged| != 0 then ranged else listing))
  {
    RangeLength(ranged, s.engine.index);
    if |ranged| != 0 { steps := IndexedUndisturbed(s, r, ranged); }
    else { steps := UnindexedUndisturbed(s, r, listing); }
  }

  /** Leaving after the call. */
  lemma CallAndLeave(s: State, r: Owner, ranged: seq<Id>, listing: seq<Id>) returns (steps: seq<Step>)
    requires At(s, r) && s.calls[r].stage == FetchIds && Holder(s.key, s.now) == Some(r)
    requires IsRange(ranged, s.engine.index) && IsListing(listing, s.engine)
    ensures Possible(s, steps)
    ensures After(s, steps)
         == s.(engine := CalledNext(s.engine, if |ranged| != 0 then ranged else listing),
               key := None, calls := s.calls[r := Finished])
  {
    steps := CallUndisturbed(s, r, ranged, listing);
    var s' := After(s, steps);
    var left := Prepend(s', Exit(r), []);
    Concatenate(s, steps, left);
    steps := steps + left;
    assert s'.calls[r := Finished] == s.calls[r := Finished];
  }

  /** The check of a request let in. */
  lemma CheckUndisturbed(s: State, r: Owner, ranged: seq<Id>, listing: seq<Id>) returns (steps: seq<Step>)
    requires At(s, r) && s.calls[r].stage == LookUpQueue && Holder(s.key, s.now) == Some(r)
    requires IsRange(ranged, s.engine.index) && IsListing(listing, s.engine)
    ensures Possible(s, steps)
    ensures var order := if |ranged| != 0 then ranged else listing;
            After(s, steps) == s.(engine := WholeCall(s.engine, s.queue, s.now, order).1,
                                  key := None, calls := s.calls[r := Finished])
  {
    var s1 := Next(s, Proceed(r));
    if !ChecksStrict(s.queue, s.now) {
      steps := CallAndLeave(s1, r, ranged, listing);
    } else {
      var s2 := Next(s1, Proceed(r));
      if HasCalled(s.engine.entries) {
        steps := Prepend(s2, Exit(r), []);
      } else {
        steps := CallAndLeave(s2, r, ranged, listing);
      }
      assert s2.calls[r := Finished] == s.calls[r := Finished];
      steps := Prepend(s1, Proceed(r), steps);
    }
    assert s1.calls[r := Finished] == s.calls[r := Finished];
    steps := Prepend(s, Proceed(r), steps);
  }

  /** A request let in and left alone does to the entries and the lock what the whole call does. */
  lemma UndisturbedRequestIsWholeCall(s: State, r: Owner, ranged: seq<Id>, listing: seq<Id>)
    returns (steps: seq<Step>)
    requires r !in s.calls && Holder(s.key, s.now).None?
    requires IsRange(ranged, s.engine.index) && IsListing(listing, s.engine)
    ensures Possible(s, steps)
    ensures var order := if |ranged| != 0 then ranged else listing;
            && After(s, steps).engine == WholeCall(s.engine, s.queue, s.now, order).1
            && After(s, steps).key == None && After(s, steps).calls == s.calls[r := Finished]
  {
    var s1 := Next(s, Enter(r));
    steps := CheckUndisturbed(s1, r, ranged, listing);
    assert s1.calls[r := Finished] == s.calls[r := Finished];
    steps := Prepend(s, Enter(r), steps);
  }

  /** While one request is inside, another is let in exactly when three seconds are over. */
  lemma RequestLeaseExact(s: State, r: Owner, other: Owner, ms: nat)
    requires r !in s.calls && other !in s.calls && other != r && Holder(s.key, s.now).None?
    ensures var s1 := Next(Next(s, Enter(r)), Step.Pass(ms));
            At(s1, r) && (At(Next(s1, Enter(other)), other) <==> ms >= 3000)
  {
  }

  // A request passes the check, its lease lapses, another one calls "a", and then the first one calls "b".

  const BOTH_WAIT :=
    Engine(false, map["a" := Entry(WAITING, 1), "b" := Entry(WAITING, 2)], map["a" := 1, "b" := 2], false)
  const QUEUE := Queue(true, 100000, true)
  const AT_START := State(0, None, QUEUE, BOTH_WAIT, map[])
  const LAPSED := State(3000, Some(Lease(0, 3000)), QUEUE, BOTH_WAIT, map[0 := Inside(3000, FetchIds)])
  const OTHER_CHECKED := State(3000, Some(Lease(1, 6000)), QUEUE, BOTH_WAIT,
                               map[0 := Inside(3000, FetchIds), 1 := Inside(6000, FetchIds)])
  const OTHER_CALLED := State(3000, Some(Lease(1, 6000)), QUEUE, WithStatus(BOTH_WAIT, "a", CALLED),
                              map[0 := Inside(3000, FetchIds), 1 := Inside(6000, Leave)])

  lemma FirstPassesCheck() returns (steps: seq<Step>)
    ensures Possible(AT_START, steps) && After(AT_START, steps) == LAPSED
  {
    var s1 := Next(AT_START, Enter(0));
    var s2 := Next(s1, Proceed(0));
    var s3 := Next(s2, Proceed(0));
    assert Next(s3, Step.Pass(3000)) == LAPSED;
    steps := [];
    steps := Prepend(s3, Step.Pass(3000), steps);
    steps := Prepend(s2, Proceed(0), steps);
    steps := Prepend(s1, Proceed(0), steps);
    steps := Prepend(AT_START, Enter(0), steps);
  }

  lemma OtherPassesCheck() returns (steps: seq<Step>)
    ensures Possible(LAPSED, steps) && After(LAPSED, steps) == OTHER_CHECKED
  {
    var s1 := Next(LAPSED, Enter(1));
    var s2 := Next(s1, Proceed(1));
    assert Next(s2, Proceed(1)) == OTHER_CHECKED;
    steps := [];
    steps := Prepend(s2, Proceed(1), steps);
    steps := Prepend(s1, Proceed(1), steps);
    steps := Prepend(LAPSED, Enter(1), steps);
  }

  lemma OtherCalls() returns (steps: seq<Step>)
    ensures Possible(OTHER_CHECKED, steps) && After(OTHER_CHECKED, steps) == OTHER_CALLED
  {
    var order := ["a", "b"];
    assert IsRange(order, BOTH_WAIT.index);
    var s1 := Next(OTHER_CHECKED, ProceedWith(1, order));
    var s2 := Next(s1, Proceed(1));
    assert Next(s2, Proceed(1)) == OTHER_CALLED;
    steps := [];
    steps := Prepend(s2, Proceed(1), steps);
    steps := Prepend(s1, Proceed(1), steps);
    steps := Prepend(OTHER_CHECKED, ProceedWith(1, order), steps);
  }

  lemma FirstCallsToo() returns (steps: seq<Step>)
    ensures Possible(OTHER_CALLED, steps) && !AtMostOneCalled(After(OTHER_CALLED, steps).engine)
  {
    var order := ["a", "b"];
    assert IsRange(order, OTHER_CALLED.engine.index);
    var s1 := Next(OTHER_CALLED, ProceedWith(0, order));
    var s2 := Next(s1, Proceed(0));
    assert order[1..] == ["b"];
    var s3 := Next(s2, Proceed(0));
    var s4 := Next(s3, Proceed(0));
    assert s4.engine.entries["a"].status == CALLED && s4.engine.entries["b"].status == CALLED;
    steps := [];
    steps := Prepend(s3, Proceed(0), steps);
    steps := Prepend(s2, Proceed(0), steps);
    steps := Prepend(s1, Proceed(0), steps);
    steps := Prepend(OTHER_CALLED, ProceedWith(0, order), steps);
  }

  /**
   The lease assumption is needed: a request that outlives its lease after the check calls a second entry,
   although strict mode applies all along and everybody waits at the start.
   */
  lemma LapsedLeaseBreaksStrictMode() returns (steps: seq<Step>)
    ensures AT_START.calls == map[] && !HasCalled(AT_START.engine.entries)
    ensures Possible(AT_START, steps) && !AtMostOneCalled(After(AT_START, steps).engine)
  {
    var first := FirstPassesCheck();
    var checked := OtherPassesCheck();
    var other := OtherCalls();
    var last := FirstCallsToo();
    Concatenate(AT_START, first, checked);
    Concatenate(AT_START, first + checked, other);
    Concatenate(AT_START, first + checked + other, last);
    steps := first + checked + other + last;
  }
}

/**
 What the delivery protocol does for whom, over every run: whom a publication reaches, who is left open by
 unsubscribing and shutdown, what pays for a wake-up, and the single steps against the whole operations.
 */
module Publication {
  import opened Text
  import opened Subscribers
  import opened Brokers
  import opened Delivery

  // ----- The steps of a send against the whole send

  /** With nothing in between, the steps of one send leave the subscriber as the whole send does. */
  lemma UndisturbedSend(s: State, t: Tid)
    requires Sending(s, t) && !s.streams[PcOf(s, t).todo[0]].chan.closed
    ensures var pc, id := PcOf(s, t), PcOf(s, t).todo[0];
            var whole := Sent(s.streams[id].chan, pc.frame, pc.eventType);
            if IsCoalescing(pc.eventType)
            then Next(Next(s, SendStore(t)), SendSignal(t)).streams[id].chan == whole
            else Next(s, SendFifo(t)).streams[id].chan == whole
  {
  }

  /** Likewise a wake-up and its drain: the signal is taken, the map emptied, and all of it remembered as drained. */
  lemma UndisturbedWake(s: State, id: SubId)
    requires Enabled(s, WriterWake(id))
    ensures var st, st' := s.streams[id], Next(Next(s, WriterWake(id)), WriterDrain(id)).streams[id];
            && !st'.chan.signal && st'.chan.latest == map[] && st'.chan.fifo == st.chan.fifo
            && st'.chan.closed == st.chan.closed && st'.writer == AtSelect
            && st'.lastDrained == st.lastDrained + st.chan.latest
  {
  }

  /** A drain empties the map and nothing else, so a signal that came in since the wake-up stays. */
  lemma DrainKeepsSignal(s: State, id: SubId)
    requires Enabled(s, WriterDrain(id))
    ensures var c, c' := s.streams[id].chan, Next(s, WriterDrain(id)).streams[id].chan;
            c'.signal == c.signal && c'.latest == map[] && c'.fifo == c.fifo && c'.closed == c.closed
  {
  }

  /** A subscriber enters open, empty, last on its topic's list, with a buffer of 16, or of 4 under overload. */
  lemma SubscribeEnters(s: State, id: SubId, topic: Topic, overloaded: bool)
    requires Enabled(s, Subscribe(id, topic, overloaded))
    ensures var s' := Next(s, Subscribe(id, topic, overloaded));
            && s'.topics == s.topics[topic := (if topic in s.topics then s.topics[topic] else []) + [id]]
            && s'.streams.Keys == s.streams.Keys + {id}
            && s'.streams[id].topic == topic && s'.streams[id].writer == AtSelect
            && s'.streams[id].chan == Channels([], if overloaded then 4 else 16, map[], false, false)
  {
  }

  lemma UnsubscribeRemoves(s: State, t: Tid, id: SubId)
    requires Enabled(s, BeginUnsubscribe(t, id)) && id in Delivery.Members(s, s.streams[id].topic)
    ensures var s1 := Next(Next(s, BeginUnsubscribe(t, id)), Remove(t));
            && s1.topics == Removed(s.topics, s.streams[id].topic, id) && PcOf(s1, t) == Closing(id)
            && s1.streams == s.streams[id := s.streams[id].(unsubscribed := true)]
  {
  }

  /** With nothing in between, the steps of an unsubscribe take the subscriber off its list, close it and unlock. */
  lemma UndisturbedUnsubscribe(s: State, t: Tid, id: SubId)
    requires Enabled(s, BeginUnsubscribe(t, id)) && id in Delivery.Members(s, s.streams[id].topic)
    ensures var s1 := Next(Next(s, BeginUnsubscribe(t, id)), Remove(t));
            && Enabled(s1, CloseRemoved(t))
            && var s' := Next(s1, CloseRemoved(t));
            && s'.topics == Removed(s.topics, s.streams[id].topic, id) && s'.owner == None
            && s'.streams == s.streams[id := s.streams[id].(unsubscribed := true,
                                                            chan := s.streams[id].chan.(closed := true))]
  {
    UnsubscribeRemoves(s, t, id);
  }

  // ----- Whom a publication reaches

  /** What one publisher did at a subscriber. */
  function By(log: seq<Deed>, t: Tid): seq<Deed> {
    if log == [] then []
    else By(log[..|log| - 1], t) + if log[|log| - 1].who == t then [log[|log| - 1]] else []
  }

  lemma ByMore(log: seq<Deed>, d: Deed, t: Tid)
    ensures By(log + [d], t) == By(log, t) + if d.who == t then [d] else []
  {
    assert (log + [d])[..|log|] == log;
  }

  /** One frame sent whole: a store followed by its signal, or an offer. */
  function WholeSend(t: Tid, eventType: string, frame: Frame): seq<Deed> {
    if eventType == "position_update" || eventType == "waiting_count_updated" || eventType == "heads_up"
    then [Stores(t, eventType, frame), Signals(t)] else [Offers(t, frame)]
  }

  /** What a publication under way has done at a subscriber so far. */
  function SoFar(pc: Pc, id: SubId, t: Tid, targets: seq<SubId>): seq<Deed>
    requires Reads(pc)
  {
    if id !in targets then []
    else if id in pc.todo then if pc.Signalling? && id == pc.todo[0] then [Stores(t, pc.eventType, pc.frame)] else []
    else WholeSend(t, pc.eventType, pc.frame)
  }

  /** The publication of `frame` by t that began in `s0` for `targets`. */
  ghost predicate Underway(s0: State, s: State, t: Tid, frame: Frame, eventType: string, targets: seq<SubId>) {
    var pc := PcOf(s, t);
    && Reads(pc) && pc.frame == frame && pc.eventType == eventType && Distinct(pc.todo)
    && (pc.Signalling? ==> pc.todo != [] && IsCoalescing(eventType))
    && (forall id :: id in pc.todo ==> id in targets)
    && s.streams.Keys == s0.streams.Keys
    && forall id :: id in s.streams ==>
         By(s.streams[id].log, t) == By(s0.streams[id].log, t) + SoFar(pc, id, t, targets)
  }

  predicate PublishStep(step: Step) { step.SendStore? || step.SendSignal? || step.SendFifo? }

  /** The goroutine that takes a step; writers and subscribers take theirs on nobody's behalf here. */
  predicate TakenBy(step: Step, t: Tid) {
    match step
    case Subscribe(_, _, _) => false
    case WriterWake(_) => false
    case WriterDrain(_) => false
    case WriterReceive(_) => false
    case WriterLeave(_) => false
    case _ => step.t == t
  }

  lemma LogsKept(s: State, step: Step)
    requires Enabled(s, step) && !PublishStep(step)
    ensures forall id :: id in s.streams ==>
              id in Next(s, step).streams && Next(s, step).streams[id].log == s.streams[id].log
  {
  }

  lemma PlaceKept(s: State, step: Step, t: Tid)
    requires Enabled(s, step) && !TakenBy(step, t)
    ensures PcOf(Next(s, step), t) == PcOf(s, t)
  {
  }

  lemma NobodyArrives(s: State, step: Step, t: Tid)
    requires LockAgrees(s) && Enabled(s, step) && Reads(PcOf(s, t))
    ensures Next(s, step).streams.Keys == s.streams.Keys
  {
    assert t in s.readers;
  }

  /** The deed of a publisher's step at the head of its list. */
  function DeedOf(step: Step, pc: Pc): Deed
    requires PublishStep(step) && Reads(pc)
  {
    if step.SendStore? then Stores(step.t, pc.eventType, pc.frame)
    else if step.SendSignal? then Signals(step.t)
    else Offers(step.t, pc.frame)
  }

  /** A publisher's step adds its deed at the head of its list, and nothing elsewhere. */
  lemma PublishStepDeed(s: State, step: Step)
    requires Disciplined(s) && Enabled(s, step) && PublishStep(step)
    ensures var pc, s' := PcOf(s, step.t), Next(s, step);
            var id := pc.todo[0];
            && id in s.streams && id in s'.streams
            && s'.streams[id].log == s.streams[id].log + [DeedOf(step, pc)]
            && forall o :: o in s.streams && o != id ==> o in s'.streams && s'.streams[o] == s.streams[o]
  {
    HeadOpen(s, step.t);
  }

  /** While t publishes, what the others do neither moves t nor adds to its deeds, and nobody comes or goes. */
  lemma OthersLeaveAlone(s: State, step: Step, t: Tid)
    requires Disciplined(s) && Enabled(s, step) && Reads(PcOf(s, t)) && !TakenBy(step, t)
    ensures PcOf(Next(s, step), t) == PcOf(s, t) && Next(s, step).streams.Keys == s.streams.Keys
    ensures forall id :: id in s.streams ==> By(Next(s, step).streams[id].log, t) == By(s.streams[id].log, t)
  {
    PlaceKept(s, step, t);
    NobodyArrives(s, step, t);
    if PublishStep(step) {
      PublishStepDeed(s, step);
      ByMore(s.streams[PcOf(s, step.t).todo[0]].log, DeedOf(step, PcOf(s, step.t)), t);
    } else {
      LogsKept(s, step);
    }
  }

  lemma DistinctTail<T>(xs: seq<T>)
    requires xs != [] && Distinct(xs)
    ensures Distinct(xs[1..]) && xs[0] !in xs[1..] && forall x :: x in xs <==> x == xs[0] || x in xs[1..]
  {
    assert xs == [xs[0]] + xs[1..];
  }

  /** Where a publisher's step takes it. */
  lemma PublisherMoves(s: State, step: Step)
    requires Disciplined(s) && Enabled(s, step) && PublishStep(step)
    ensures var pc, pc' := PcOf(s, step.t), PcOf(Next(s, step), step.t);
            && Reads(pc') && pc'.frame == pc.frame && pc'.eventType == pc.eventType
            && (pc'.Signalling? <==> step.SendStore?) && pc'.todo == if step.SendStore? then pc.todo else pc.todo[1..]
  {
    HeadOpen(s, step.t);
  }

  /** What is done so far grows by the deed of the step, at the head of the list only. */
  lemma SoFarGrows(step: Step, pc: Pc, pc': Pc, id: SubId, targets: seq<SubId>)
    requires PublishStep(step) && Reads(pc) && Reads(pc') && Distinct(pc.todo) && pc.todo != [] && pc.todo[0] in targets
    requires pc'.frame == pc.frame && pc'.eventType == pc.eventType
    requires pc'.Signalling? <==> step.SendStore?
    requires pc'.todo == if step.SendStore? then pc.todo else pc.todo[1..]
    requires step.SendSignal? <==> pc.Signalling?
    requires step.SendFifo? <==> !IsCoalescing(pc.eventType)
    ensures SoFar(pc', id, step.t, targets)
         == SoFar(pc, id, step.t, targets) + if id == pc.todo[0] then [DeedOf(step, pc)] else []
  {
    DistinctTail(pc.todo);
  }

  /** The deeds of a publisher after its own step. */
  lemma OwnDeeds(s: State, step: Step)
    requires Disciplined(s) && Enabled(s, step) && PublishStep(step)
    ensures var pc, s' := PcOf(s, step.t), Next(s, step);
            forall id :: id in s.streams ==>
              id in s'.streams
              && By(s'.streams[id].log, step.t)
                 == By(s.streams[id].log, step.t) + if id == pc.todo[0] then [DeedOf(step, pc)] else []
  {
    PublishStepDeed(s, step);
    ByMore(s.streams[PcOf(s, step.t).todo[0]].log, DeedOf(step, PcOf(s, step.t)), step.t);
  }

  lemma Regrouped(a: seq<Deed>, b: seq<Deed>, c: seq<Deed>)
    ensures (a + b) + c == a + (b + c)
  {
  }

  lemma UnderwayFrom(
    s0: State, s: State, s': State, step: Step, frame: Frame, eventType: string, targets: seq<SubId>)
    requires PublishStep(step) && Underway(s0, s, step.t, frame, eventType, targets)
    requires PcOf(s, step.t).todo != [] && s'.streams.Keys == s.streams.Keys && Reads(PcOf(s', step.t))
    requires var pc, pc' := PcOf(s, step.t), PcOf(s', step.t);
             && pc'.frame == pc.frame && pc'.eventType == pc.eventType
             && (pc'.Signalling? <==> step.SendStore?)
             && pc'.todo == (if step.SendStore? then pc.todo else pc.todo[1..])
             && (step.SendSignal? <==> pc.Signalling?) && (step.SendFifo? <==> !IsCoalescing(pc.eventType))
             && forall id :: id in s.streams ==>
                  By(s'.streams[id].log, step.t)
                  == By(s.streams[id].log, step.t) + if id == pc.todo[0] then [DeedOf(step, pc)] else []
    ensures Underway(s0, s', step.t, frame, eventType, targets)
  {
    var pc, pc', t := PcOf(s, step.t), PcOf(s', step.t), step.t;
    DistinctTail(pc.todo);
    assert pc.todo[0] in pc.todo;
    forall id | id in s'.streams
      ensures By(s'.streams[id].log, t) == By(s0.streams[id].log, t) + SoFar(pc', id, t, targets)
    {
      assert id in s.streams.Keys;
      SoFarGrows(step, pc, pc', id, targets);
      Regrouped(By(s0.streams[id].log, t), SoFar(pc, id, t, targets),
                if id == pc.todo[0] then [DeedOf(step, pc)] else []);
    }
  }

  lemma OwnStepUnderway(
    s0: State, s: State, step: Step, frame: Frame, eventType: string, targets: seq<SubId>)
    requires Disciplined(s) && Enabled(s, step) && PublishStep(step)
    requires Underway(s0, s, step.t, frame, eventType, targets)
    ensures Underway(s0, Next(s, step), step.t, frame, eventType, targets)
  {
    NobodyArrives(s, step, step.t);
    PublisherMoves(s, step);
    OwnDeeds(s, step);
    UnderwayFrom(s0, s, Next(s, step), step, frame, eventType, targets);
  }

  lemma StepUnderway(s0: State, s: State, step: Step, t: Tid, frame: Frame, eventType: string, targets: seq<SubId>)
    requires Disciplined(s) && Enabled(s, step) && step != EndPublish(t)
    requires Underway(s0, s, t, frame, eventType, targets)
    ensures Underway(s0, Next(s, step), t, frame, eventType, targets)
  {
    if TakenBy(step, t) {
      assert PublishStep(step) by { assert t in s.readers; }
      OwnStepUnderway(s0, s, step, frame, eventType, targets);
    } else {
      OthersLeaveAlone(s, step, t);
    }
  }

  lemma {:induction false} RunUnderway(
    s0: State, s: State, steps: seq<Step>, t: Tid, frame: Frame, eventType: string, targets: seq<SubId>)
    requires Sound(s) && Possible(s, steps) && EndPublish(t) !in steps
    requires Underway(s0, s, t, frame, eventType, targets)
    ensures Underway(s0, After(s, steps), t, frame, eventType, targets)
    decreases |steps|
  {
    if steps != [] {
      StepUnderway(s0, s, steps[0], t, frame, eventType, targets);
      StepKeepsDisciplined(s, steps[0]);
      StepKeepsStreams(s, steps[0]);
      RunUnderway(s0, Next(s, steps[0]), steps[1..], t, frame, eventType, targets);
    }
  }

  lemma BeginsUnderway(s: State, step: Step)
    requires Disciplined(s) && Enabled(s, step) && step.BeginPublish?
    ensures Underway(s, Next(s, step), step.t, step.frame, step.eventType, Delivery.Members(s, step.topic))
    ensures forall id :: id in Delivery.Members(s, step.topic) ==> id in s.streams
  {
  }

  lemma EndsWhole(s0: State, s: State, t: Tid, frame: Frame, eventType: string, targets: seq<SubId>)
    requires Underway(s0, s, t, frame, eventType, targets) && PcOf(s, t).todo == []
    ensures forall id :: id in s0.streams ==>
              id in s.streams
              && By(s.streams[id].log, t)
                 == By(s0.streams[id].log, t) + if id in targets then WholeSend(t, eventType, frame) else []
  {
    forall id | id in s0.streams ensures id in s.streams { assert id in s0.streams.Keys; }
  }

  /**
   In every reachable state, whatever else happens between the beginning of a publication and its end: each
   subscriber listed under the topic at the beginning is sent the frame whole and exactly once, and nobody else is
   sent anything by it.
   */
  lemma PublicationReachesItsTopic(
    before: seq<Step>, t: Tid, topic: Topic, frame: Frame, eventType: string, steps: seq<Step>)
    requires Possible(INITIAL, before) && Enabled(After(INITIAL, before), BeginPublish(t, topic, frame, eventType))
    requires Possible(Next(After(INITIAL, before), BeginPublish(t, topic, frame, eventType)), steps)
    requires EndPublish(t) !in steps
    requires var s1 := Next(After(INITIAL, before), BeginPublish(t, topic, frame, eventType));
             Enabled(After(s1, steps), EndPublish(t))
    ensures var s0 := After(INITIAL, before);
            var end := After(Next(s0, BeginPublish(t, topic, frame, eventType)), steps);
            var listed := if topic in s0.topics then s0.topics[topic] else [];
            && (forall id :: id in listed ==> id in s0.streams)
            && forall id :: id in s0.streams ==>
                 id in end.streams
                 && By(end.streams[id].log, t)
                    == By(s0.streams[id].log, t) + if id in listed then WholeSend(t, eventType, frame) else []
  {
    RunKeepsSound(INITIAL, before);
    var s0 := After(INITIAL, before);
    var step := BeginPublish(t, topic, frame, eventType);
    StepKeepsDisciplined(s0, step);
    StepKeepsStreams(s0, step);
    BeginsUnderway(s0, step);
    RunUnderway(s0, Next(s0, step), steps, t, frame, eventType, Delivery.Members(s0, topic));
    EndsWhole(s0, After(Next(s0, step), steps), t, frame, eventType, Delivery.Members(s0, topic));
  }

  // ----- Who is left open

  /** A subscriber about to be closed by its own unsubscribe. */
  predicate AboutToClose(s: State, id: SubId) { s.owner.Some? && PcOf(s, s.owner.value) == Closing(id) }

  predicate InShutdown(s: State) {
    s.owner.Some? && (PcOf(s, s.owner.value).ShuttingDown? || PcOf(s, s.owner.value).ClosingTopic?)
  }

  /** Every open subscriber is listed, where no shutdown has reached, or about to close; a shutdown is marked. */
  ghost predicate OpenListed(s: State) {
    && (forall id :: id in s.streams && !s.streams[id].chan.closed ==>
          id in Unclosed(s, s.streams[id].topic) || AboutToClose(s, id))
    && (InShutdown(s) ==> s.closed)
  }

  /** Steps that move nobody on a list and close nobody. */
  predicate KeepsListing(step: Step) {
    !step.Subscribe? && !step.Remove? && !step.CloseRemoved? && !step.CloseMember? && !step.DeleteTopic?
  }

  predicate ByReader(step: Step) { PublishStep(step) || step.BeginPublish? || step.EndPublish? }

  lemma ReaderKeepsListing(s: State, step: Step, topic: Topic)
    requires LockAgrees(s) && Enabled(s, step) && ByReader(step)
    ensures Next(s, step).topics == s.topics && Unclosed(Next(s, step), topic) == Unclosed(s, topic)
  {
  }

  lemma LockerKeepsListing(s: State, step: Step, topic: Topic)
    requires LockAgrees(s) && Enabled(s, step)
    requires step.BeginUnsubscribe? || step.BeginShutdown? || step.EnterTopic? || step.EndShutdown?
    ensures Next(s, step).topics == s.topics && Unclosed(Next(s, step), topic) == Unclosed(s, topic)
  {
  }

  lemma WriterKeepsListing(s: State, step: Step, topic: Topic)
    requires Enabled(s, step) && OfWriter(step)
    ensures Next(s, step).topics == s.topics && Unclosed(Next(s, step), topic) == Unclosed(s, topic)
  {
  }

  lemma ListingKept(s: State, step: Step, topic: Topic)
    requires LockAgrees(s) && Enabled(s, step) && KeepsListing(step)
    ensures Next(s, step).topics == s.topics && Unclosed(Next(s, step), topic) == Unclosed(s, topic)
  {
    if ByReader(step) { ReaderKeepsListing(s, step, topic); }
    else if OfWriter(step) { WriterKeepsListing(s, step, topic); }
    else { LockerKeepsListing(s, step, topic); }
  }

  lemma ClosingKept(s: State, step: Step, id: SubId)
    requires LockAgrees(s) && Enabled(s, step) && KeepsListing(step) && AboutToClose(s, id)
    ensures AboutToClose(Next(s, step), id)
  {
  }

  /** A stream that keeps its topic and its being open or closed. */
  predicate SamePlace(s: State, s': State, id: SubId) {
    id in s'.streams ==>
      id in s.streams && s'.streams[id].topic == s.streams[id].topic
      && s'.streams[id].chan.closed == s.streams[id].chan.closed
  }

  lemma ReaderKeepsPlaces(s: State, step: Step, id: SubId)
    requires Enabled(s, step) && ByReader(step)
    ensures SamePlace(s, Next(s, step), id)
  {
  }

  lemma WriterKeepsPlaces(s: State, step: Step, id: SubId)
    requires Enabled(s, step) && OfWriter(step)
    ensures SamePlace(s, Next(s, step), id)
  {
  }

  lemma StreamKeepsPlace(s: State, step: Step, id: SubId)
    requires Enabled(s, step) && KeepsListing(step)
    ensures SamePlace(s, Next(s, step), id)
  {
    if ByReader(step) { ReaderKeepsPlaces(s, step, id); }
    else if OfWriter(step) { WriterKeepsPlaces(s, step, id); }
  }

  lemma QuietKeepsOpenListed(s: State, step: Step)
    requires Disciplined(s) && OpenListed(s) && Enabled(s, step) && KeepsListing(step)
    ensures OpenListed(Next(s, step))
  {
    var s' := Next(s, step);
    forall id | id in s'.streams && !s'.streams[id].chan.closed
      ensures id in Unclosed(s', s'.streams[id].topic) || AboutToClose(s', id)
    {
      StreamKeepsPlace(s, step, id);
      ListingKept(s, step, s.streams[id].topic);
      if AboutToClose(s, id) { ClosingKept(s, step, id); }
    }
  }

  lemma RemoveListedKeepsOpenListed(s: State, step: Step)
    requires Disciplined(s) && OpenListed(s) && Enabled(s, step) && step.Remove?
    requires PcOf(s, step.t).id in Delivery.Members(s, s.streams[PcOf(s, step.t).id].topic)
    ensures OpenListed(Next(s, step))
  {
    assert s.owner == Some(step.t);
    RemovedKeepsOthers(s.topics, s.streams[PcOf(s, step.t).id].topic, PcOf(s, step.t).id);
  }

  lemma RemoveUnlistedKeepsOpenListed(s: State, step: Step)
    requires Disciplined(s) && OpenListed(s) && Enabled(s, step) && step.Remove?
    requires PcOf(s, step.t).id !in Delivery.Members(s, s.streams[PcOf(s, step.t).id].topic)
    ensures OpenListed(Next(s, step))
  {
    assert s.owner == Some(step.t);
  }

  lemma CloseKeepsOpenListed(s: State, step: Step)
    requires Disciplined(s) && OpenListed(s) && Enabled(s, step) && (step.CloseRemoved? || step.CloseMember?)
    ensures OpenListed(Next(s, step))
  {
    assert s.owner == Some(step.t);
  }

  lemma DeleteKeepsOpenListed(s: State, step: Step)
    requires Disciplined(s) && OpenListed(s) && Enabled(s, step) && step.DeleteTopic?
    ensures OpenListed(Next(s, step))
  {
    assert s.owner == Some(step.t);
  }

  lemma SubscribeKeepsOpenListed(s: State, step: Step)
    requires Disciplined(s) && OpenListed(s) && Enabled(s, step) && step.Subscribe?
    ensures OpenListed(Next(s, step))
  {
  }

  lemma StepKeepsOpenListed(s: State, step: Step)
    requires Disciplined(s) && OpenListed(s) && Enabled(s, step)
    ensures OpenListed(Next(s, step))
  {
    if KeepsListing(step) {
      QuietKeepsOpenListed(s, step);
    } else if step.Subscribe? {
      SubscribeKeepsOpenListed(s, step);
    } else if step.Remove? {
      var id := PcOf(s, step.t).id;
      if id in Delivery.Members(s, s.streams[id].topic) { RemoveListedKeepsOpenListed(s, step); }
      else { RemoveUnlistedKeepsOpenListed(s, step); }
    } else if step.DeleteTopic? {
      DeleteKeepsOpenListed(s, step);
    } else {
      CloseKeepsOpenListed(s, step);
    }
  }

  lemma {:induction false} RunKeepsOpenListed(s: State, steps: seq<Step>)
    requires Sound(s) && OpenListed(s) && Possible(s, steps)
    ensures OpenListed(After(s, steps)) && Sound(After(s, steps))
    decreases |steps|
  {
    if steps != [] {
      StepKeepsDisciplined(s, steps[0]);
      StepKeepsStreams(s, steps[0]);
      StepKeepsOpenListed(s, steps[0]);
      RunKeepsOpenListed(Next(s, steps[0]), steps[1..]);
    }
  }

  /** Over every run: when nobody is inside the broker, the open subscribers are exactly the listed ones. */
  lemma OpenExactlyWhenListed(steps: seq<Step>, id: SubId)
    requires Possible(INITIAL, steps) && After(INITIAL, steps).owner.None? && id in After(INITIAL, steps).streams
    ensures var s := After(INITIAL, steps);
            !s.streams[id].chan.closed <==> s.streams[id].topic in s.topics && id in s.topics[s.streams[id].topic]
  {
    RunKeepsOpenListed(INITIAL, steps);
  }

  /** A shutdown that is about to end has closed every subscriber. */
  lemma ShutdownClosesAll(steps: seq<Step>, t: Tid, id: SubId)
    requires Possible(INITIAL, steps) && Enabled(After(INITIAL, steps), EndShutdown(t))
    requires id in After(INITIAL, steps).streams
    ensures After(INITIAL, steps).streams[id].chan.closed && After(INITIAL, steps).closed
  {
    RunKeepsOpenListed(INITIAL, steps);
  }

  // ----- What pays for a wake-up

  function SignalsIn(log: seq<Deed>): nat {
    if log == [] then 0 else SignalsIn(log[..|log| - 1]) + if log[|log| - 1].Signals? then 1 else 0
  }

  /** Each wake-up of an open subscriber has taken a signal of its own. */
  predicate Paid(st: Stream) { st.wakes + (if st.chan.signal then 1 else 0) <= SignalsIn(st.log) }

  lemma SignalsMore(log: seq<Deed>, d: Deed)
    ensures SignalsIn(log + [d]) == SignalsIn(log) + if d.Signals? then 1 else 0
  {
    assert (log + [d])[..|log|] == log;
  }

  lemma StepKeepsPaid(s: State, step: Step)
    requires Disciplined(s) && Enabled(s, step) && forall id :: id in s.streams ==> Paid(s.streams[id])
    ensures forall id :: id in Next(s, step).streams ==> Paid(Next(s, step).streams[id])
  {
    if PublishStep(step) {
      HeadOpen(s, step.t);
      var id, pc := PcOf(s, step.t).todo[0], PcOf(s, step.t);
      SignalsMore(s.streams[id].log, Stores(step.t, pc.eventType, pc.frame));
      SignalsMore(s.streams[id].log, Signals(step.t));
      SignalsMore(s.streams[id].log, Offers(step.t, pc.frame));
    }
  }

  lemma {:induction false} RunKeepsPaid(s: State, steps: seq<Step>)
    requires Sound(s) && Possible(s, steps) && forall id :: id in s.streams ==> Paid(s.streams[id])
    ensures forall id :: id in After(s, steps).streams ==> Paid(After(s, steps).streams[id])
    decreases |steps|
  {
    if steps != [] {
      StepKeepsDisciplined(s, steps[0]);
      StepKeepsStreams(s, steps[0]);
      StepKeepsPaid(s, steps[0]);
      RunKeepsPaid(Next(s, steps[0]), steps[1..]);
    }
  }

  /** Over every run a writer wakes for coalescing frames at most as often as publishers signalled. */
  lemma WakesArePaid(steps: seq<Step>, id: SubId)
    requires Possible(INITIAL, steps) && id in After(INITIAL, steps).streams
    ensures After(INITIAL, steps).streams[id].wakes <= SignalsIn(After(INITIAL, steps).streams[id].log)
  {
    RunKeepsPaid(INITIAL, steps);
  }
}

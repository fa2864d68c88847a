/**
 The delivery protocol as an interleaving of any number of publishers, subscribers, unsubscribes and
 shutdowns with one stream writer per subscriber. Every lock, map and channel operation is a step of its own.
 A run is any sequence of enabled steps; the results below hold after every run.
 */
module Delivery {
  import opened Text
  import opened Subscribers
  import opened Brokers

  type Topic = string
  type SubId = nat
  type Tid = nat

  /** What became of one ordered frame: how full the buffer was, and whether it was taken. */
  datatype Offer = Offer(frame: Frame, occupancy: nat, taken: bool)

  /** What a publisher did at one subscriber. */
  datatype Deed = Stores(who: Tid, eventType: string, frame: Frame) | Signals(who: Tid) | Offers(who: Tid, frame: Frame)

  /** The writer goroutine: at its select, between a signal and the drain, or returned. */
  datatype Writer = AtSelect | Woken | Gone

  /** A subscriber with its writer, and the history that the results speak about. */
  datatype Stream = Stream(
    topic: Topic, chan: Channels, writer: Writer, unsubscribed: bool,
    offers: seq<Offer>, delivered: seq<Frame>,
    lastSent: map<string, Frame>, lastDrained: map<string, Frame>,
    log: seq<Deed>, wakes: nat)

  /** Where a goroutine stands inside a broker operation. */
  datatype Pc =
    | Idle
    | Publishing(topic: Topic, frame: Frame, eventType: string, todo: seq<SubId>)
    | Signalling(topic: Topic, frame: Frame, eventType: string, todo: seq<SubId>)
    | Removing(id: SubId)
    | Closing(id: SubId)
    | ShuttingDown
    | ClosingTopic(topic: Topic, todo: seq<SubId>)

  predicate Reads(pc: Pc) { pc.Publishing? || pc.Signalling? }

  predicate Writes(pc: Pc) { !pc.Idle? && !Reads(pc) }

  datatype State = State(
    readers: set<Tid>, owner: Option<Tid>, closed: bool, panicked: bool,
    topics: map<Topic, seq<SubId>>, streams: map<SubId, Stream>, threads: map<Tid, Pc>)

  const INITIAL := State({}, None, false, false, map[], map[], map[])

  function PcOf(s: State, t: Tid): Pc { if t in s.threads then s.threads[t] else Idle }

  function Members(s: State, topic: Topic): seq<SubId> { Brokers.Members(s.topics, topic) }

  // ----- Steps

  datatype Step =
    | Subscribe(id: SubId, topic: Topic, overloaded: bool)
    | BeginPublish(t: Tid, topic: Topic, frame: Frame, eventType: string)
    | SendStore(t: Tid)
    | SendSignal(t: Tid)
    | SendFifo(t: Tid)
    | EndPublish(t: Tid)
    | BeginUnsubscribe(t: Tid, id: SubId)
    | Remove(t: Tid)
    | CloseRemoved(t: Tid)
    | BeginShutdown(t: Tid)
    | EnterTopic(t: Tid, topic: Topic)
    | CloseMember(t: Tid)
    | DeleteTopic(t: Tid)
    | EndShutdown(t: Tid)
    | WriterWake(id: SubId)
    | WriterDrain(id: SubId)
    | WriterReceive(id: SubId)
    | WriterLeave(id: SubId)

  /** A publisher about to send to the subscriber at the head of its list. */
  predicate Sending(s: State, t: Tid) {
    PcOf(s, t).Publishing? && PcOf(s, t).todo != [] && PcOf(s, t).todo[0] in s.streams
  }

  predicate LockFree(s: State) { s.owner.None? && s.readers == {} }

  predicate Enabled(s: State, step: Step) {
    match step
    case Subscribe(id, topic, _) => LockFree(s) && id !in s.streams
    case BeginPublish(t, _, _, _) => PcOf(s, t).Idle? && s.owner.None?
    case SendStore(t) => Sending(s, t) && IsCoalescing(PcOf(s, t).eventType)
    case SendSignal(t) => PcOf(s, t).Signalling? && PcOf(s, t).todo != [] && PcOf(s, t).todo[0] in s.streams
    case SendFifo(t) => Sending(s, t) && !IsCoalescing(PcOf(s, t).eventType)
    case EndPublish(t) => PcOf(s, t).Publishing? && PcOf(s, t).todo == []
    case BeginUnsubscribe(t, id) => PcOf(s, t).Idle? && LockFree(s) && id in s.streams && !s.streams[id].unsubscribed
    case Remove(t) => PcOf(s, t).Removing? && PcOf(s, t).id in s.streams
    case CloseRemoved(t) => PcOf(s, t).Closing? && PcOf(s, t).id in s.streams
    case BeginShutdown(t) => PcOf(s, t).Idle? && LockFree(s)
    case EnterTopic(t, topic) => PcOf(s, t).ShuttingDown? && topic in s.topics
    case CloseMember(t) => PcOf(s, t).ClosingTopic? && PcOf(s, t).todo != [] && PcOf(s, t).todo[0] in s.streams
    case DeleteTopic(t) => PcOf(s, t).ClosingTopic? && PcOf(s, t).todo == []
    case EndShutdown(t) => PcOf(s, t).ShuttingDown? && s.topics == map[]
    case WriterWake(id) =>
      id in s.streams && s.streams[id].writer.AtSelect? && (s.streams[id].chan.signal || s.streams[id].chan.closed)
    case WriterDrain(id) => id in s.streams && s.streams[id].writer.Woken?
    case WriterReceive(id) => id in s.streams && s.streams[id].writer.AtSelect? && s.streams[id].chan.fifo != []
    case WriterLeave(id) => id in s.streams && s.streams[id].writer.AtSelect?
  }

  function Go(s: State, t: Tid, pc: Pc): State { s.(threads := s.threads[t := pc]) }

  function With(s: State, id: SubId, st: Stream): State { s.(streams := s.streams[id := st]) }

  function StreamSend(st: Stream, t: Tid, eventType: string, frame: Frame): Stream {
    if st.chan.closed then st
    else st.(chan := Stored(st.chan, eventType, frame), lastSent := st.lastSent[eventType := frame],
             log := st.log + [Stores(t, eventType, frame)])
  }

  function StreamSignal(st: Stream, t: Tid): Stream
    requires !st.chan.closed
  {
    st.(chan := Signalled(st.chan), log := st.log + [Signals(t)])
  }

  function StreamOffer(st: Stream, t: Tid, frame: Frame): Stream
    requires !st.chan.closed
  {
    var n := |st.chan.fifo|;
    st.(chan := Offered(st.chan, frame), offers := st.offers + [Offer(frame, n, n < st.chan.capacity)],
        log := st.log + [Offers(t, frame)])
  }

  function Next(s: State, step: Step): State
    requires Enabled(s, step)
  {
    match step
    case Subscribe(id, topic, overloaded) =>
      var st := Stream(topic, Opened(BufferSize(overloaded)), AtSelect, false, [], [], map[], map[], [], 0);
      With(s, id, st).(topics := s.topics[topic := Members(s, topic) + [id]])
    case BeginPublish(t, topic, frame, eventType) =>
      Go(s, t, Publishing(topic, frame, eventType, Members(s, topic))).(readers := s.readers + {t})
    case SendStore(t) =>
      var pc, id := PcOf(s, t), PcOf(s, t).todo[0];
      var s' := With(s, id, StreamSend(s.streams[id], t, pc.eventType, pc.frame));
      if s.streams[id].chan.closed then Go(s', t, Publishing(pc.topic, pc.frame, pc.eventType, pc.todo[1..]))
      else Go(s', t, Signalling(pc.topic, pc.frame, pc.eventType, pc.todo))
    case SendSignal(t) =>
      var pc, id := PcOf(s, t), PcOf(s, t).todo[0];
      var s' := Go(s, t, Publishing(pc.topic, pc.frame, pc.eventType, pc.todo[1..]));
      if s.streams[id].chan.closed then s'.(panicked := true)
      else With(s', id, StreamSignal(s.streams[id], t))
    case SendFifo(t) =>
      var pc, id := PcOf(s, t), PcOf(s, t).todo[0];
      var s' := Go(s, t, Publishing(pc.topic, pc.frame, pc.eventType, pc.todo[1..]));
      if s.streams[id].chan.closed then s'.(panicked := true)
      else With(s', id, StreamOffer(s.streams[id], t, pc.frame))
    case EndPublish(t) => Go(s, t, Idle).(readers := s.readers - {t})
    case BeginUnsubscribe(t, id) =>
      Go(With(s, id, s.streams[id].(unsubscribed := true)), t, Removing(id)).(owner := Some(t))
    case Remove(t) =>
      var id := PcOf(s, t).id;
      var topic := s.streams[id].topic;
      if id in Members(s, topic) then Go(s, t, Closing(id)).(topics := Removed(s.topics, topic, id))
      else Go(s, t, Idle).(owner := None)
    case CloseRemoved(t) =>
      var id := PcOf(s, t).id;
      Go(With(s, id, s.streams[id].(chan := Shut(s.streams[id].chan))), t, Idle).(owner := None)
    case BeginShutdown(t) =>
      if s.closed then s else Go(s, t, ShuttingDown).(owner := Some(t), closed := true)
    case EnterTopic(t, topic) => Go(s, t, ClosingTopic(topic, s.topics[topic]))
    case CloseMember(t) =>
      var pc, id := PcOf(s, t), PcOf(s, t).todo[0];
      Go(With(s, id, s.streams[id].(chan := Shut(s.streams[id].chan))), t, ClosingTopic(pc.topic, pc.todo[1..]))
    case DeleteTopic(t) => Go(s, t, ShuttingDown).(topics := s.topics - {PcOf(s, t).topic})
    case EndShutdown(t) => Go(s, t, Idle).(owner := None)
    case WriterWake(id) =>
      var st := s.streams[id];
      With(s, id, st.(writer := Woken, chan := st.chan.(signal := false),
                      wakes := if st.chan.signal then st.wakes + 1 else st.wakes))
    case WriterDrain(id) =>
      var st := s.streams[id];
      With(s, id, st.(writer := AtSelect, chan := Drained(st.chan), lastDrained := st.lastDrained + st.chan.latest))
    case WriterReceive(id) =>
      var st := s.streams[id];
      With(s, id, st.(delivered := st.delivered + [st.chan.fifo[0]], chan := st.chan.(fifo := st.chan.fifo[1..])))
    case WriterLeave(id) => With(s, id, s.streams[id].(writer := Gone))
  }

  predicate Possible(s: State, steps: seq<Step>)
    decreases |steps|
  {
    steps == [] || (Enabled(s, steps[0]) && Possible(Next(s, steps[0]), steps[1..]))
  }

  function After(s: State, steps: seq<Step>): State
    requires Possible(s, steps)
    decreases |steps|
  {
    if steps == [] then s else After(Next(s, steps[0]), steps[1..])
  }

  // ----- What every step keeps

  /** The read-write lock is held by exactly the goroutines that are inside. */
  ghost predicate LockAgrees(s: State) {
    && (forall t: Tid :: t in s.readers <==> Reads(PcOf(s, t)))
    && (forall t: Tid :: s.owner == Some(t) <==> Writes(PcOf(s, t)))
    && (s.owner.Some? ==> s.readers == {})
  }

  /** Lists are non-empty and duplicate-free, and a member sits under its own topic only. */
  ghost predicate TopicsTidy(s: State) {
    && (forall topic :: topic in s.topics ==> s.topics[topic] != [] && Distinct(s.topics[topic]))
    && (forall topic: Topic, id: SubId :: topic in s.topics && id in s.topics[topic] ==>
          id in s.streams && s.streams[id].topic == topic)
  }

  /** The members of a topic that Shutdown has not closed yet. */
  function Unclosed(s: State, topic: Topic): seq<SubId> {
    if s.owner.Some? && PcOf(s, s.owner.value).ClosingTopic? && PcOf(s, s.owner.value).topic == topic
    then PcOf(s, s.owner.value).todo else Members(s, topic)
  }

  ghost predicate MembersOpen(s: State) {
    forall topic: Topic :: topic in s.topics ==>
      forall id :: id in Unclosed(s, topic) ==> id in s.topics[topic] && id in s.streams && !s.streams[id].chan.closed
  }

  /** What a goroutine inside an operation may rely on. */
  ghost predicate PcFits(s: State, pc: Pc) {
    match pc
    case Idle => true
    case Publishing(topic, _, _, todo) => forall id :: id in todo ==> id in Members(s, topic)
    case Signalling(topic, _, eventType, todo) => todo != [] && forall id :: id in todo ==> id in Members(s, topic)
    case Removing(id) => id in s.streams
    case Closing(id) => id in s.streams && id !in Members(s, s.streams[id].topic)
    case ShuttingDown => true
    case ClosingTopic(topic, todo) => topic in s.topics && Distinct(todo)
  }

  ghost predicate PcsFit(s: State) { forall t: Tid :: PcFits(s, PcOf(s, t)) }

  function Taken(offers: seq<Offer>): seq<Frame> {
    if offers == [] then []
    else Taken(offers[..|offers| - 1]) + (if offers[|offers| - 1].taken then [offers[|offers| - 1].frame] else [])
  }

  ghost predicate Conserved(st: Stream) {
    && st.delivered + st.chan.fifo == Taken(st.offers)
    && |st.chan.fifo| <= st.chan.capacity && (st.chan.capacity == 4 || st.chan.capacity == 16)
    && (forall i :: 0 <= i < |st.offers| ==> st.offers[i].taken == (st.offers[i].occupancy < st.chan.capacity))
  }

  ghost predicate LatestKept(st: Stream) { st.lastSent == st.lastDrained + st.chan.latest }

  ghost predicate InFlight(s: State, id: SubId) {
    exists t :: t in s.threads && s.threads[t].Signalling? && s.threads[t].todo != [] && s.threads[t].todo[0] == id
  }

  /** No lost wake-up: undrained frames are announced, about to be announced, or about to be drained. */
  ghost predicate Announced(s: State, id: SubId)
    requires id in s.streams
  {
    var st := s.streams[id];
    !st.chan.closed && st.chan.latest != map[] ==> st.chan.signal || st.writer.Woken? || InFlight(s, id)
  }

  ghost predicate StreamsSound(s: State) {
    forall id :: id in s.streams ==> Conserved(s.streams[id]) && LatestKept(s.streams[id]) && Announced(s, id)
  }

  ghost predicate Disciplined(s: State) {
    && !s.panicked
    && LockAgrees(s)
    && TopicsTidy(s)
    && MembersOpen(s)
    && PcsFit(s)
  }

  ghost predicate Sound(s: State) { Disciplined(s) && StreamsSound(s) }

  // ----- Each step keeps the lock discipline

  /** While a publisher is inside, whatever is left on its list is open. */
  lemma HeadOpen(s: State, t: Tid)
    requires Disciplined(s) && Reads(PcOf(s, t)) && PcOf(s, t).todo != []
    ensures s.owner.None? && PcOf(s, t).todo[0] in s.streams && !s.streams[PcOf(s, t).todo[0]].chan.closed
  {
    var pc, id := PcOf(s, t), PcOf(s, t).todo[0];
    assert t in s.readers && PcFits(s, pc);
    assert id in Members(s, pc.topic);
    assert id in Unclosed(s, pc.topic);
  }

  /** Changing one subscriber without closing it or moving it to another topic. */
  lemma WithDisciplined(s: State, id: SubId, st: Stream)
    requires Disciplined(s) && id in s.streams
    requires st.topic == s.streams[id].topic && st.chan.closed == s.streams[id].chan.closed
    ensures Disciplined(With(s, id, st))
  {
  }

  /** A publisher moving on to another reading position. */
  lemma GoDisciplined(s: State, t: Tid, pc: Pc)
    requires Disciplined(s) && Reads(PcOf(s, t)) && Reads(pc) && PcFits(s, pc)
    ensures Disciplined(Go(s, t, pc))
  {
  }

  lemma SubscribeDisciplined(s: State, step: Step)
    requires Disciplined(s) && Enabled(s, step) && step.Subscribe?
    ensures Disciplined(Next(s, step))
  {
  }

  lemma BeginPublishDisciplined(s: State, step: Step)
    requires Disciplined(s) && Enabled(s, step) && step.BeginPublish?
    ensures Disciplined(Next(s, step))
  {
  }

  lemma SendStoreDisciplined(s: State, step: Step)
    requires Disciplined(s) && Enabled(s, step) && step.SendStore?
    ensures Disciplined(Next(s, step))
  {
    var pc := PcOf(s, step.t);
    var id := pc.todo[0];
    HeadOpen(s, step.t);
    var st := StreamSend(s.streams[id], step.t, pc.eventType, pc.frame);
    WithDisciplined(s, id, st);
    assert PcFits(s, pc);
    GoDisciplined(With(s, id, st), step.t, Signalling(pc.topic, pc.frame, pc.eventType, pc.todo));
  }

  lemma SendSignalDisciplined(s: State, step: Step)
    requires Disciplined(s) && Enabled(s, step) && step.SendSignal?
    ensures Disciplined(Next(s, step))
  {
    var pc := PcOf(s, step.t);
    var id := pc.todo[0];
    HeadOpen(s, step.t);
    assert PcFits(s, pc);
    var pc' := Publishing(pc.topic, pc.frame, pc.eventType, pc.todo[1..]);
    GoDisciplined(s, step.t, pc');
    WithDisciplined(Go(s, step.t, pc'), id, StreamSignal(s.streams[id], step.t));
  }

  lemma SendFifoDisciplined(s: State, step: Step)
    requires Disciplined(s) && Enabled(s, step) && step.SendFifo?
    ensures Disciplined(Next(s, step))
  {
    var pc := PcOf(s, step.t);
    var id := pc.todo[0];
    HeadOpen(s, step.t);
    assert PcFits(s, pc);
    var pc' := Publishing(pc.topic, pc.frame, pc.eventType, pc.todo[1..]);
    GoDisciplined(s, step.t, pc');
    WithDisciplined(Go(s, step.t, pc'), id, StreamOffer(s.streams[id], step.t, pc.frame));
  }

  lemma EndPublishDisciplined(s: State, step: Step)
    requires Disciplined(s) && Enabled(s, step) && step.EndPublish?
    ensures Disciplined(Next(s, step))
  {
  }

  lemma BeginUnsubscribeDisciplined(s: State, step: Step)
    requires Disciplined(s) && Enabled(s, step) && step.BeginUnsubscribe?
    ensures Disciplined(Next(s, step))
  {
  }

  lemma RemoveUnlistedDisciplined(s: State, step: Step)
    requires Disciplined(s) && Enabled(s, step) && step.Remove?
    requires PcOf(s, step.t).id !in Members(s, s.streams[PcOf(s, step.t).id].topic)
    ensures Disciplined(Next(s, step))
  {
  }

  lemma RemoveListedDisciplined(s: State, step: Step)
    requires Disciplined(s) && Enabled(s, step) && step.Remove?
    requires PcOf(s, step.t).id in Members(s, s.streams[PcOf(s, step.t).id].topic)
    ensures Disciplined(Next(s, step))
  {
    RemovedKeepsOthers(s.topics, s.streams[PcOf(s, step.t).id].topic, PcOf(s, step.t).id);
    var s' := Next(s, step);
    assert s.owner == Some(step.t);
    forall tp | tp in s'.topics
      ensures forall i :: i in Unclosed(s', tp) ==> i in s'.topics[tp] && i in s'.streams && !s'.streams[i].chan.closed
    {
      assert tp in s.topics && Unclosed(s, tp) == s.topics[tp];
    }
    forall u: Tid ensures PcFits(s', PcOf(s', u)) {
      assert PcFits(s, PcOf(s, u));
      assert u != step.t ==> PcOf(s, u).Idle?;
    }
  }

  lemma RemoveDisciplined(s: State, step: Step)
    requires Disciplined(s) && Enabled(s, step) && step.Remove?
    ensures Disciplined(Next(s, step))
  {
    var id := PcOf(s, step.t).id;
    if id in Members(s, s.streams[id].topic) { RemoveListedDisciplined(s, step); }
    else { RemoveUnlistedDisciplined(s, step); }
  }

  lemma CloseRemovedDisciplined(s: State, step: Step)
    requires Disciplined(s) && Enabled(s, step) && step.CloseRemoved?
    ensures Disciplined(Next(s, step))
  {
  }

  lemma BeginShutdownDisciplined(s: State, step: Step)
    requires Disciplined(s) && Enabled(s, step) && step.BeginShutdown?
    ensures Disciplined(Next(s, step))
  {
  }

  lemma EnterTopicDisciplined(s: State, step: Step)
    requires Disciplined(s) && Enabled(s, step) && step.EnterTopic?
    ensures Disciplined(Next(s, step))
  {
  }

  lemma CloseMemberDisciplined(s: State, step: Step)
    requires Disciplined(s) && Enabled(s, step) && step.CloseMember?
    ensures Disciplined(Next(s, step))
  {
  }

  lemma DeleteTopicDisciplined(s: State, step: Step)
    requires Disciplined(s) && Enabled(s, step) && step.DeleteTopic?
    ensures Disciplined(Next(s, step))
  {
  }

  lemma EndShutdownDisciplined(s: State, step: Step)
    requires Disciplined(s) && Enabled(s, step) && step.EndShutdown?
    ensures Disciplined(Next(s, step))
  {
  }

  lemma WriterDisciplined(s: State, step: Step)
    requires Disciplined(s) && Enabled(s, step) && OfWriter(step)
    ensures Disciplined(Next(s, step))
  {
    WithDisciplined(s, step.id, Next(s, step).streams[step.id]);
  }

  // ----- Each step keeps the streams sound

  /** Other subscribers are untouched, and nobody else's announcement in flight is dropped. */
  ghost predicate OthersKept(s: State, s': State, id: SubId) {
    && (forall o :: o in s'.streams && o != id ==> o in s.streams && s'.streams[o] == s.streams[o])
    && (forall o :: o != id && InFlight(s, o) ==> InFlight(s', o))
  }

  lemma StreamsFrom(s: State, s': State, id: SubId)
    requires StreamsSound(s) && OthersKept(s, s', id)
    requires id in s'.streams ==> Conserved(s'.streams[id]) && LatestKept(s'.streams[id]) && Announced(s', id)
    ensures StreamsSound(s')
  {
  }

  /** Another goroutine's announcement survives a change of this one's position. */
  lemma InFlightElsewhere(s: State, s': State, t: Tid, id: SubId)
    requires forall u :: u in s.threads && u != t ==> u in s'.threads && s'.threads[u] == s.threads[u]
    requires PcOf(s, t).Signalling? && PcOf(s, t).todo != [] ==> PcOf(s, t).todo[0] == id
    ensures forall o :: o != id && InFlight(s, o) ==> InFlight(s', o)
    ensures !PcOf(s, t).Signalling? ==> forall o :: InFlight(s, o) ==> InFlight(s', o)
  {
  }

  lemma OfferConserved(st: Stream, t: Tid, frame: Frame)
    requires Conserved(st) && !st.chan.closed
    ensures Conserved(StreamOffer(st, t, frame))
  {
  }

  lemma SameStreamsSound(s: State, s': State, t: Tid)
    requires StreamsSound(s) && s'.streams == s.streams && !PcOf(s, t).Signalling?
    requires forall u :: u in s.threads && u != t ==> u in s'.threads && s'.threads[u] == s.threads[u]
    ensures StreamsSound(s')
  {
    InFlightElsewhere(s, s', t, 0);
    forall id | id in s'.streams ensures Announced(s', id) { assert Announced(s, id); }
  }

  /** Steps of a goroutine that touch no channel. */
  lemma SilentStepSound(s: State, step: Step)
    requires StreamsSound(s) && Enabled(s, step) && Silent(step)
    ensures StreamsSound(Next(s, step))
  {
    SameStreamsSound(s, Next(s, step), step.t);
  }

  lemma CloseStepSound(s: State, step: Step)
    requires StreamsSound(s) && Enabled(s, step) && (step.CloseRemoved? || step.CloseMember?)
    ensures StreamsSound(Next(s, step))
  {
    var s' := Next(s, step);
    var id := if step.CloseRemoved? then PcOf(s, step.t).id else PcOf(s, step.t).todo[0];
    InFlightElsewhere(s, s', step.t, id);
    assert Conserved(s.streams[id]) && LatestKept(s.streams[id]);
    StreamsFrom(s, s', id);
  }

  lemma UnsubscribeStepSound(s: State, step: Step)
    requires StreamsSound(s) && Enabled(s, step) && step.BeginUnsubscribe?
    ensures StreamsSound(Next(s, step))
  {
    var s' := Next(s, step);
    InFlightElsewhere(s, s', step.t, step.id);
    assert Conserved(s.streams[step.id]) && LatestKept(s.streams[step.id]) && Announced(s, step.id);
    StreamsFrom(s, s', step.id);
  }

  lemma SubscribeStepSound(s: State, step: Step)
    requires StreamsSound(s) && Enabled(s, step) && step.Subscribe?
    ensures StreamsSound(Next(s, step))
  {
  }

  lemma StoreKept(st: Stream, t: Tid, eventType: string, frame: Frame)
    requires Conserved(st) && LatestKept(st) && !st.chan.closed
    ensures Conserved(StreamSend(st, t, eventType, frame)) && LatestKept(StreamSend(st, t, eventType, frame))
  {
    assert st.lastDrained + st.chan.latest[eventType := frame] == st.lastSent[eventType := frame];
  }

  lemma SendStoreSound(s: State, step: Step)
    requires StreamsSound(s) && Enabled(s, step) && step.SendStore?
    requires !s.streams[PcOf(s, step.t).todo[0]].chan.closed
    ensures StreamsSound(Next(s, step))
  {
    var s' := Next(s, step);
    var id := PcOf(s, step.t).todo[0];
    InFlightElsewhere(s, s', step.t, id);
    StoreKept(s.streams[id], step.t, PcOf(s, step.t).eventType, PcOf(s, step.t).frame);
    assert s'.threads[step.t].Signalling? && s'.threads[step.t].todo[0] == id;
    assert InFlight(s', id);
    StreamsFrom(s, s', id);
  }

  lemma SendSignalSound(s: State, step: Step)
    requires StreamsSound(s) && Enabled(s, step) && step.SendSignal?
    requires !s.streams[PcOf(s, step.t).todo[0]].chan.closed
    ensures StreamsSound(Next(s, step))
  {
    var s' := Next(s, step);
    var id := PcOf(s, step.t).todo[0];
    InFlightElsewhere(s, s', step.t, id);
    assert Conserved(s.streams[id]) && LatestKept(s.streams[id]);
    StreamsFrom(s, s', id);
  }

  lemma SendFifoSound(s: State, step: Step)
    requires StreamsSound(s) && Enabled(s, step) && step.SendFifo?
    requires !s.streams[PcOf(s, step.t).todo[0]].chan.closed
    ensures StreamsSound(Next(s, step))
  {
    var s' := Next(s, step);
    var pc := PcOf(s, step.t);
    var id := pc.todo[0];
    InFlightElsewhere(s, s', step.t, id);
    assert Conserved(s.streams[id]) && LatestKept(s.streams[id]) && Announced(s, id);
    OfferConserved(s.streams[id], step.t, pc.frame);
    StreamsFrom(s, s', id);
  }

  /** A stream changed by its own writer. */
  lemma WithStreamSound(s: State, id: SubId, st: Stream)
    requires StreamsSound(s) && id in s.streams && Conserved(st) && LatestKept(st)
    requires !st.chan.closed && st.chan.latest != map[] ==> st.chan.signal || st.writer.Woken? || InFlight(s, id)
    ensures StreamsSound(With(s, id, st))
  {
    var s' := With(s, id, st);
    assert s'.threads == s.threads;
    StreamsFrom(s, s', id);
  }

  lemma WriterWakeSound(s: State, step: Step)
    requires StreamsSound(s) && Enabled(s, step) && (step.WriterWake? || step.WriterLeave?)
    ensures StreamsSound(Next(s, step))
  {
    assert Conserved(s.streams[step.id]) && LatestKept(s.streams[step.id]) && Announced(s, step.id);
    WithStreamSound(s, step.id, Next(s, step).streams[step.id]);
  }

  lemma WriterDrainSound(s: State, step: Step)
    requires StreamsSound(s) && Enabled(s, step) && step.WriterDrain?
    ensures StreamsSound(Next(s, step))
  {
    var st := s.streams[step.id];
    assert Conserved(st) && LatestKept(st);
    assert st.lastDrained + st.chan.latest + map[] == st.lastSent;
    WithStreamSound(s, step.id, Next(s, step).streams[step.id]);
  }

  lemma WriterReceiveSound(s: State, step: Step)
    requires StreamsSound(s) && Enabled(s, step) && step.WriterReceive?
    ensures StreamsSound(Next(s, step))
  {
    var st := s.streams[step.id];
    assert Conserved(st) && LatestKept(st) && Announced(s, step.id);
    assert st.delivered + [st.chan.fifo[0]] + st.chan.fifo[1..] == st.delivered + st.chan.fifo;
    WithStreamSound(s, step.id, Next(s, step).streams[step.id]);
  }

  lemma StepKeepsDisciplined(s: State, step: Step)
    requires Disciplined(s) && Enabled(s, step)
    ensures Disciplined(Next(s, step))
  {
    match step
    case Subscribe(_, _, _) => SubscribeDisciplined(s, step);
    case BeginPublish(_, _, _, _) => BeginPublishDisciplined(s, step);
    case SendStore(_) => SendStoreDisciplined(s, step);
    case SendSignal(_) => SendSignalDisciplined(s, step);
    case SendFifo(_) => SendFifoDisciplined(s, step);
    case EndPublish(_) => EndPublishDisciplined(s, step);
    case BeginUnsubscribe(_, _) => BeginUnsubscribeDisciplined(s, step);
    case Remove(_) => RemoveDisciplined(s, step);
    case CloseRemoved(_) => CloseRemovedDisciplined(s, step);
    case BeginShutdown(_) => BeginShutdownDisciplined(s, step);
    case EnterTopic(_, _) => EnterTopicDisciplined(s, step);
    case CloseMember(_) => CloseMemberDisciplined(s, step);
    case DeleteTopic(_) => DeleteTopicDisciplined(s, step);
    case EndShutdown(_) => EndShutdownDisciplined(s, step);
    case WriterWake(_) => WriterDisciplined(s, step);
    case WriterDrain(_) => WriterDisciplined(s, step);
    case WriterReceive(_) => WriterDisciplined(s, step);
    case WriterLeave(_) => WriterDisciplined(s, step);
  }

  lemma SendStepSound(s: State, step: Step)
    requires Sound(s) && Enabled(s, step) && (step.SendStore? || step.SendSignal? || step.SendFifo?)
    ensures StreamsSound(Next(s, step))
  {
    HeadOpen(s, step.t);
    if step.SendStore? { SendStoreSound(s, step); }
    else if step.SendSignal? { SendSignalSound(s, step); }
    else { SendFifoSound(s, step); }
  }

  predicate OfWriter(step: Step) { step.WriterWake? || step.WriterDrain? || step.WriterReceive? || step.WriterLeave? }

  lemma WriterStepSound(s: State, step: Step)
    requires StreamsSound(s) && Enabled(s, step) && OfWriter(step)
    ensures StreamsSound(Next(s, step))
  {
    if step.WriterDrain? { WriterDrainSound(s, step); }
    else if step.WriterReceive? { WriterReceiveSound(s, step); }
    else { WriterWakeSound(s, step); }
  }

  predicate Silent(step: Step) {
    || step.BeginPublish? || step.EndPublish? || step.Remove? || step.BeginShutdown? || step.EnterTopic?
    || step.DeleteTopic? || step.EndShutdown?
  }

  lemma MemberStepSound(s: State, step: Step)
    requires StreamsSound(s) && Enabled(s, step)
    requires step.Subscribe? || step.BeginUnsubscribe? || step.CloseRemoved? || step.CloseMember?
    ensures StreamsSound(Next(s, step))
  {
    if step.Subscribe? { SubscribeStepSound(s, step); }
    else if step.BeginUnsubscribe? { UnsubscribeStepSound(s, step); }
    else { CloseStepSound(s, step); }
  }

  lemma StepKeepsStreams(s: State, step: Step)
    requires Sound(s) && Enabled(s, step)
    ensures StreamsSound(Next(s, step))
  {
    if Silent(step) { SilentStepSound(s, step); }
    else if step.SendStore? || step.SendSignal? || step.SendFifo? { SendStepSound(s, step); }
    else if OfWriter(step) { WriterStepSound(s, step); }
    else { MemberStepSound(s, step); }
  }

  lemma {:induction false} RunKeepsSound(s: State, steps: seq<Step>)
    requires Sound(s) && Possible(s, steps)
    ensures Sound(After(s, steps))
    decreases |steps|
  {
    if steps != [] {
      StepKeepsDisciplined(s, steps[0]);
      StepKeepsStreams(s, steps[0]);
      RunKeepsSound(Next(s, steps[0]), steps[1..]);
    }
  }

  // ----- Results over every run

  /** No run ever sends on a closed channel, although the ordered path does not look at `closed`. */
  lemma NeverSendsOnClosed(steps: seq<Step>)
    requires Possible(INITIAL, steps)
    ensures !After(INITIAL, steps).panicked
  {
    RunKeepsSound(INITIAL, steps);
  }

  /** Whenever no Shutdown is inside a topic: no empty lists, every registered subscriber open and registered once. */
  lemma RegistryTidy(steps: seq<Step>)
    requires Possible(INITIAL, steps)
    ensures var s := After(INITIAL, steps);
            (forall t: Tid :: !PcOf(s, t).ClosingTopic?) ==>
              && (forall topic :: topic in s.topics ==> s.topics[topic] != [])
              && (forall topic, i :: topic in s.topics && 0 <= i < |s.topics[topic]| ==>
                    s.topics[topic][i] in s.streams && !s.streams[s.topics[topic][i]].chan.closed)
              && (forall topic, i, topic', j |
                    && topic in s.topics && topic' in s.topics
                    && 0 <= i < |s.topics[topic]| && 0 <= j < |s.topics[topic']|
                    && s.topics[topic][i] == s.topics[topic'][j] :: topic == topic' && i == j)
  {
    RunKeepsSound(INITIAL, steps);
    var s := After(INITIAL, steps);
    if forall t: Tid :: !PcOf(s, t).ClosingTopic? {
      forall topic, i | topic in s.topics && 0 <= i < |s.topics[topic]|
        ensures s.topics[topic][i] in s.streams && !s.streams[s.topics[topic][i]].chan.closed
      {
        assert Unclosed(s, topic) == s.topics[topic];
        assert s.topics[topic][i] in Unclosed(s, topic);
      }
      forall topic, i, topic', j | topic in s.topics && topic' in s.topics
        && 0 <= i < |s.topics[topic]| && 0 <= j < |s.topics[topic']| && s.topics[topic][i] == s.topics[topic'][j]
        ensures topic == topic' && i == j
      {
        assert s.topics[topic][i] in s.topics[topic] && s.topics[topic'][j] in s.topics[topic'];
      }
    }
  }

  /** No publisher shares the lock with a writer, and what it still has to send to is open. */
  lemma PublishersSeeOpenSubscribers(steps: seq<Step>, t: Tid)
    requires Possible(INITIAL, steps) && Reads(PcOf(After(INITIAL, steps), t))
    ensures var s := After(INITIAL, steps);
            && (forall u: Tid :: !Writes(PcOf(s, u)))
            && (forall id :: id in PcOf(s, t).todo ==> id in s.streams && !s.streams[id].chan.closed)
  {
    RunKeepsSound(INITIAL, steps);
    var s := After(INITIAL, steps);
    assert t in s.readers && PcFits(s, PcOf(s, t));
    forall id | id in PcOf(s, t).todo ensures id in s.streams && !s.streams[id].chan.closed {
      assert id in Unclosed(s, PcOf(s, t).topic);
    }
  }

  /** No wake-up is lost, and once nothing is pending the last frame sent of each type is the last one drained. */
  lemma LatestWins(steps: seq<Step>, id: SubId)
    requires Possible(INITIAL, steps) && id in After(INITIAL, steps).streams
    ensures var s := After(INITIAL, steps);
            var st := s.streams[id];
            && (!st.chan.closed && st.chan.latest != map[] ==> st.chan.signal || st.writer.Woken? || InFlight(s, id))
            && (!st.chan.closed && !st.chan.signal && !st.writer.Woken? && !InFlight(s, id) ==>
                  st.lastDrained == st.lastSent)
  {
    RunKeepsSound(INITIAL, steps);
    var s := After(INITIAL, steps);
    assert LatestKept(s.streams[id]) && Announced(s, id);
    assert s.streams[id].lastDrained + map[] == s.streams[id].lastDrained;
  }

  /** Ordered frames: delivered then buffered is what was taken, in order; a frame is dropped only on a full buffer. */
  lemma OrderedConservation(steps: seq<Step>, id: SubId)
    requires Possible(INITIAL, steps) && id in After(INITIAL, steps).streams
    ensures var st := After(INITIAL, steps).streams[id];
            && st.delivered + st.chan.fifo == Taken(st.offers)
            && |st.chan.fifo| <= st.chan.capacity && (st.chan.capacity == 4 || st.chan.capacity == 16)
            && (forall i :: 0 <= i < |st.offers| ==>
                  (!st.offers[i].taken <==> st.offers[i].occupancy >= st.chan.capacity))
  {
    RunKeepsSound(INITIAL, steps);
    assert Conserved(After(INITIAL, steps).streams[id]);
  }
}

/** One client's delivery channels: a bounded FIFO, a latest-wins map and a one-slot wake-up signal. */
module Subscribers {

  type Frame = string

  const COALESCING_EVENTS := {"position_update", "waiting_count_updated", "heads_up"}

  predicate IsCoalescing(eventType: string) { eventType in COALESCING_EVENTS }

  datatype Channels = Channels(
    fifo: seq<Frame>, capacity: nat, latest: map<string, Frame>, signal: bool, closed: bool)

  // ----- The atomic operations. A send on a closed channel panics, hence the two preconditions.

  function Opened(capacity: nat): Channels { Channels([], capacity, map[], false, false) }

  function Stored(c: Channels, eventType: string, frame: Frame): Channels {
    if c.closed then c else c.(latest := c.latest[eventType := frame])
  }

  function Signalled(c: Channels): Channels
    requires !c.closed
  {
    c.(signal := true)
  }

  function Offered(c: Channels, frame: Frame): Channels
    requires !c.closed
  {
    if |c.fifo| < c.capacity then c.(fifo := c.fifo + [frame]) else c
  }

  function Drained(c: Channels): Channels { c.(latest := map[]) }

  function Shut(c: Channels): Channels { c.(closed := true) }

  /** A whole Send on an open subscriber. */
  function Sent(c: Channels, frame: Frame, eventType: string): Channels
    requires !c.closed
  {
    if IsCoalescing(eventType) then Signalled(Stored(c, eventType, frame)) else Offered(c, frame)
  }

  /**
   What a send does to an open subscriber, by event name: the three coalescing kinds replace the last frame of their
   type and leave the signal up; every other is appended to the buffer if there is room; nothing else changes.
   */
  lemma SentMeans(c: Channels, frame: Frame, eventType: string)
    requires !c.closed
    ensures var c' := Sent(c, frame, eventType);
            && c'.capacity == c.capacity && !c'.closed
            && if eventType == "position_update" || eventType == "waiting_count_updated" || eventType == "heads_up"
               then c'.signal && c'.latest == c.latest[eventType := frame] && c'.fifo == c.fifo
               else c'.signal == c.signal && c'.latest == c.latest
                    && c'.fifo == if |c.fifo| < c.capacity then c.fifo + [frame] else c.fifo
  {
  }

  /** `frames` holds the frame of every event type in `latest`, once each, in some order of the types. */
  ghost predicate Lists(frames: seq<Frame>, latest: map<string, Frame>) {
    exists types: seq<string> :: ListsAs(frames, latest, types)
  }

  ghost predicate ListsAs(frames: seq<Frame>, latest: map<string, Frame>, types: seq<string>) {
    && |types| == |frames|
    && (forall k :: k in latest <==> k in types)
    && (forall i, j :: 0 <= i < j < |types| ==> types[i] != types[j])
    && (forall i :: 0 <= i < |types| ==> frames[i] == latest[types[i]])
  }

  lemma ListsOneMore(frames: seq<Frame>, latest: map<string, Frame>, types: seq<string>, k: string, frame: Frame)
    requires ListsAs(frames, latest, types) && k !in latest
    ensures ListsAs(frames + [frame], latest[k := frame], types + [k])
  {
  }

  class Subscriber {
    var fifo: seq<Frame>
    const capacity: nat
    var latest: map<string, Frame>
    var signal: bool
    var closed: bool

    function View(): Channels
      reads this
    {
      Channels(fifo, capacity, latest, signal, closed)
    }

    constructor (bufSize: nat)
      ensures View() == Opened(bufSize)
      ensures fifo == [] && capacity == bufSize && latest == map[] && !signal && !closed
    {
      fifo, capacity, latest, signal, closed := [], bufSize, map[], false, false;
    }

    /** Only the ordered path can panic: it does not look at `closed`. */
    method Send(frame: Frame, eventType: string) returns (panicked: bool)
      modifies this
      ensures panicked <==> old(closed) && !IsCoalescing(eventType)
      ensures View() == if old(closed) then old(View()) else Sent(old(View()), frame, eventType)
      ensures closed == old(closed)
      ensures !closed && eventType in {"position_update", "waiting_count_updated", "heads_up"} ==>
                signal && latest == old(latest)[eventType := frame] && fifo == old(fifo)
      ensures !closed && eventType !in {"position_update", "waiting_count_updated", "heads_up"} ==>
                && signal == old(signal) && latest == old(latest)
                && fifo == if |old(fifo)| < capacity then old(fifo) + [frame] else old(fifo)
    {
      if IsCoalescing(eventType) {
        if closed { return false; }
        latest := latest[eventType := frame];
        if !signal { signal := true; }
        return false;
      }
      if closed { return true; }
      if |fifo| < capacity { fifo := fifo + [frame]; }
      return false;
    }

    method DrainLatest() returns (frames: seq<Frame>)
      modifies this
      ensures View() == Drained(old(View()))
      ensures Lists(frames, old(latest))
      ensures latest == map[] && fifo == old(fifo) && signal == old(signal) && closed == old(closed)
    {
      frames := [];
      ghost var types: seq<string> := [];
      var rest := latest;
      ghost var done: map<string, Frame> := map[];
      while rest != map[]
        invariant done + rest == latest && done.Keys !! rest.Keys
        invariant ListsAs(frames, done, types)
        invariant unchanged(this)
        decreases rest.Keys
      {
        var k :| k in rest;
        ListsOneMore(frames, done, types, k, rest[k]);
        frames := frames + [rest[k]];
        types, done := types + [k], done[k := rest[k]];
        assert (rest - {k}).Keys == rest.Keys - {k};
        rest := rest - {k};
      }
      assert done == latest;
      latest := map[];
    }

    method Close()
      modifies this
      ensures View() == Shut(old(View()))
      ensures closed && fifo == old(fifo) && latest == old(latest) && signal == old(signal)
    {
      if closed { return; }
      closed := true;
    }
  }
}

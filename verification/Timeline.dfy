/** The history timeline: raw events, their time order, and the grouping of joins into five-minute blocks. */
module Timeline {
  import opened Text

  const WINDOW_MS := 5 * 60 * 1000

  datatype Guest = Guest(
    ticket: string, name: string, created: int, served: bool, servedAt: Option<int>, finishedAt: Option<int>)

  datatype Change = Change(at: int, value: string)

  datatype Raw =
    | StatusChange(at: int, value: string)
    | Joined(at: int, guest: Guest)
    | Served(at: int, guest: Guest)
    | Skipped(at: int, guest: Guest)

  datatype Sub = Sub(ticket: string, name: string, at: int)

  /** What an item is about; its kind, message and color are written from this. */
  datatype What =
    | JoinedCount(count: nat)
    | Changed(value: string)
    | WasServed(name: string, ticket: string)
    | WasSkipped(name: string, ticket: string)

  datatype Item = Item(what: What, at: int, subs: seq<Sub>)

  // ----- The raw events

  function GuestEvents(g: Guest): seq<Raw> {
    [Joined(g.created, g)] +
    if g.servedAt.Some? then [Served(g.servedAt.value, g)]
    else if g.finishedAt.Some? && !g.served then [Skipped(g.finishedAt.value, g)]
    else []
  }

  function AllGuestEvents(guests: seq<Guest>): seq<Raw> {
    if guests == [] then [] else AllGuestEvents(guests[..|guests| - 1]) + GuestEvents(guests[|guests| - 1])
  }

  function Changes(logs: seq<Change>): seq<Raw> {
    seq(|logs|, i requires 0 <= i < |logs| => StatusChange(logs[i].at, logs[i].value))
  }

  function RawEvents(logs: seq<Change>, guests: seq<Guest>): seq<Raw> { Changes(logs) + AllGuestEvents(guests) }

  /** A booking gives its join, then its serving if it was served, else its end if it ended in another way. */
  lemma GuestEventsMeans(g: Guest)
    ensures var ev := GuestEvents(g);
            && |ev| == (if g.servedAt.Some? || (g.finishedAt.Some? && !g.served) then 2 else 1)
            && ev[0] == Raw.Joined(g.created, g)
            && (g.servedAt.Some? ==> ev[1] == Raw.Served(g.servedAt.value, g))
            && (g.servedAt.None? && |ev| == 2 ==> ev[1] == Raw.Skipped(g.finishedAt.value, g))
  {
  }

  /** The raw events are the status changes in order, then those of each booking. */
  lemma {:induction false} RawEventsMeans(logs: seq<Change>, guests: seq<Guest>)
    ensures |RawEvents(logs, guests)| >= |logs|
    ensures forall i :: 0 <= i < |logs| ==> RawEvents(logs, guests)[i] == StatusChange(logs[i].at, logs[i].value)
    ensures guests != [] ==>
              RawEvents(logs, guests)
              == RawEvents(logs, guests[..|guests| - 1]) + GuestEvents(guests[|guests| - 1])
  {
  }

  method CollectEvents(logs: seq<Change>, guests: seq<Guest>) returns (events: seq<Raw>)
    ensures events == RawEvents(logs, guests)
  {
    events := [];
    for i := 0 to |logs|
      invariant events == Changes(logs)[..i]
    {
      events := events + [StatusChange(logs[i].at, logs[i].value)];
    }
    for i := 0 to |guests|
      invariant events == Changes(logs) + AllGuestEvents(guests[..i])
    {
      var g := guests[i];
      assert guests[..i + 1][..i] == guests[..i];
      events := events + [Joined(g.created, g)];
      if g.servedAt.Some? {
        events := events + [Served(g.servedAt.value, g)];
      } else if g.finishedAt.Some? && !g.served {
        events := events + [Skipped(g.finishedAt.value, g)];
      }
    }
    assert guests[..|guests|] == guests;
  }

  ghost predicate InTimeOrder(events: seq<Raw>) {
    forall i, j :: 0 <= i < j < |events| ==> events[i].at <= events[j].at
  }

  /** What sorting by timestamp may answer: ties in any order. */
  ghost predicate SortedFrom(events: seq<Raw>, raw: seq<Raw>) {
    multiset(events) == multiset(raw) && InTimeOrder(events)
  }

  // ----- Rendering

  function KindOf(w: What): string {
    match w
    case JoinedCount(_) => "JOINED"
    case Changed(_) => "STATUS_CHANGE"
    case WasServed(_, _) => "SERVED"
    case WasSkipped(_, _) => "SKIPPED"
  }

  function MessageOf(w: What): string {
    match w
    case JoinedCount(n) => if n > 1 then Decimal(n) + " guests joined the queue" else "1 guest joined the queue"
    case Changed(value) => "Queue status changed to " + value
    case WasServed(name, ticket) => "Guest " + name + " (" + ticket + ") was served"
    case WasSkipped(name, ticket) => "Guest " + name + " (" + ticket + ") left or was skipped"
  }

  function ColorOf(w: What): string {
    match w
    case JoinedCount(_) => "plum-soft"
    case Changed(value) =>
      if value == "CREATED" || value == "ACTIVE" then "mint"
      else if value == "PAUSED" then "warning"
      else if value == "EXPIRED" then "danger"
      else "plum-muted"
    case WasServed(_, _) => "mint"
    case WasSkipped(_, _) => "danger"
  }

  function SubOf(e: Raw): Sub
    requires e.Joined?
  {
    Sub(e.guest.ticket, e.guest.name, e.guest.created)
  }

  function JoinedItem(at: int, count: nat, subs: seq<Sub>): Item { Item(JoinedCount(count), at, subs) }

  function SingleItem(e: Raw): Item
    requires !e.Joined?
  {
    match e
    case StatusChange(at, v) => Item(Changed(v), at, [])
    case Served(at, g) => Item(WasServed(g.name, g.ticket), at, [])
    case Skipped(at, g) => Item(WasSkipped(g.name, g.ticket), at, [])
  }

  /** What each event shows as. */
  lemma ItemsSpelled(at: int, value: string, g: Guest)
    ensures var item := SingleItem(StatusChange(at, value));
            && KindOf(item.what) == "STATUS_CHANGE" && item.at == at && item.subs == []
            && MessageOf(item.what) == "Queue status changed to " + value
            && ColorOf(item.what) == (if value in {"CREATED", "ACTIVE"} then "mint"
                                      else if value == "PAUSED" then "warning"
                                      else if value == "EXPIRED" then "danger" else "plum-muted")
    ensures var item := SingleItem(Raw.Served(at, g));
            && KindOf(item.what) == "SERVED" && ColorOf(item.what) == "mint" && item.at == at && item.subs == []
            && MessageOf(item.what) == "Guest " + g.name + " (" + g.ticket + ") was served"
    ensures var item := SingleItem(Raw.Skipped(at, g));
            && KindOf(item.what) == "SKIPPED" && ColorOf(item.what) == "danger" && item.at == at && item.subs == []
            && MessageOf(item.what) == "Guest " + g.name + " (" + g.ticket + ") left or was skipped"
    ensures SubOf(Raw.Joined(at, g)) == Sub(g.ticket, g.name, g.created)
  {
  }

  // ----- The greedy grouping, over positions in the sorted events

  /** Where the run of joins before the given moment, starting at j, ends. */
  function RunEnd(events: seq<Raw>, j: nat, until: int): (k: nat)
    requires j <= |events|
    ensures j <= k <= |events|
    ensures forall i :: j <= i < k ==> events[i].Joined? && events[i].at < until
    ensures k < |events| ==> !(events[k].Joined? && events[k].at < until)
    decreases |events| - j
  {
    if j < |events| && events[j].Joined? && events[j].at < until then RunEnd(events, j + 1, until) else j
  }

  /** Where the block starting at i ends. */
  function BlockEnd(events: seq<Raw>, i: nat): (k: nat)
    requires i < |events|
    ensures i < k <= |events|
  {
    if events[i].Joined? then RunEnd(events, i, events[i].at + WINDOW_MS) else i + 1
  }

  /** The sub-events of the joins at positions i to j. */
  function Subs(events: seq<Raw>, i: nat, j: nat): seq<Sub>
    requires i <= j <= |events|
  {
    if i == j then []
    else Subs(events, i, j - 1) + if events[j - 1].Joined? then [SubOf(events[j - 1])] else []
  }

  function Render(events: seq<Raw>, i: nat, k: nat): Item
    requires i < k <= |events|
  {
    if events[i].Joined? then JoinedItem(events[i].at, k - i, Subs(events, i, k)) else SingleItem(events[i])
  }

  function TimelineFrom(events: seq<Raw>, i: nat): seq<Item>
    requires i <= |events|
    decreases |events| - i
  {
    if i == |events| then []
    else [Render(events, i, BlockEnd(events, i))] + TimelineFrom(events, BlockEnd(events, i))
  }

  lemma JoinedIsBlock(events: seq<Raw>, i: nat, j: nat)
    requires i < |events| && events[i].Joined? && j == RunEnd(events, i, events[i].at + WINDOW_MS)
    ensures i < j == BlockEnd(events, i)
    ensures Render(events, i, j) == JoinedItem(events[i].at, j - i, Subs(events, i, j))
  {
  }

  lemma OtherIsBlock(events: seq<Raw>, i: nat)
    requires i < |events| && !events[i].Joined?
    ensures BlockEnd(events, i) == i + 1 && Render(events, i, i + 1) == SingleItem(events[i])
  {
  }

  /** What is built and what is left to build stay the whole when the next item is appended. */
  lemma NextItem(before: seq<Item>, events: seq<Raw>, i: nat, item: Item, k: nat)
    requires i < |events| && k == BlockEnd(events, i) && item == Render(events, i, k)
    ensures before + TimelineFrom(events, i) == before + [item] + TimelineFrom(events, k)
  {
  }

  /** The inner loop: the joins from i on, up to the end of the window. */
  method GatherJoins(events: seq<Raw>, i: nat, windowEnd: int) returns (subEvents: seq<Sub>, count: nat, j: nat)
    requires i <= |events|
    ensures j == RunEnd(events, i, windowEnd) && count == j - i && subEvents == Subs(events, i, j)
  {
    subEvents, count, j := [], 0, i;
    while j < |events| && events[j].Joined? && events[j].at < windowEnd
      invariant i <= j <= |events| && count == j - i
      invariant RunEnd(events, j, windowEnd) == RunEnd(events, i, windowEnd)
      invariant subEvents == Subs(events, i, j)
    {
      subEvents := subEvents + [SubOf(events[j])];
      count := count + 1;
      j := j + 1;
    }
  }

  method BuildTimeline(events: seq<Raw>) returns (timeline: seq<Item>)
    ensures timeline == TimelineFrom(events, 0)
  {
    timeline := [];
    var i := 0;
    while i < |events|
      invariant i <= |events|
      invariant timeline + TimelineFrom(events, i) == TimelineFrom(events, 0)
    {
      var ev := events[i];
      if ev.Joined? {
        var subEvents, count, j := GatherJoins(events, i, ev.at + WINDOW_MS);
        JoinedIsBlock(events, i, j);
        NextItem(timeline, events, i, JoinedItem(ev.at, count, subEvents), j);
        timeline := timeline + [JoinedItem(ev.at, count, subEvents)];
        i := j - 1;
      } else {
        OtherIsBlock(events, i);
        NextItem(timeline, events, i, SingleItem(ev), i + 1);
        timeline := timeline + [SingleItem(ev)];
      }
      i := i + 1;
    }
  }

  // ----- Nothing is lost

  /** A block the timeline can show: joins within five minutes of the first, or one event of another kind. */
  ghost predicate Showable(events: seq<Raw>, i: nat, k: nat)
    requires i < k <= |events|
  {
    if events[i].Joined? then forall j :: i <= j < k ==> events[j].Joined? && events[j].at - events[i].at < 300000
    else k == i + 1
  }

  /** `ends` cuts the events from i on into adjacent blocks that can be shown. */
  ghost predicate IsCut(events: seq<Raw>, i: nat, ends: seq<nat>)
    decreases |ends|
  {
    if ends == [] then i == |events|
    else i < ends[0] <= |events| && Showable(events, i, ends[0]) && IsCut(events, ends[0], ends[1..])
  }

  function GreedyCut(events: seq<Raw>, i: nat): seq<nat>
    requires i <= |events|
    decreases |events| - i
  {
    if i == |events| then [] else [BlockEnd(events, i)] + GreedyCut(events, BlockEnd(events, i))
  }

  /** The loop's own blocks are such a cut, and the timeline has one item for each. */
  lemma {:induction false} GreedyIsCut(events: seq<Raw>, i: nat)
    requires i <= |events|
    ensures IsCut(events, i, GreedyCut(events, i)) && |TimelineFrom(events, i)| == |GreedyCut(events, i)|
    decreases |events| - i
  {
    if i < |events| { GreedyIsCut(events, BlockEnd(events, i)); }
  }

  /** The events block by block. */
  function Flatten(events: seq<Raw>, i: nat, ends: seq<nat>): seq<Raw>
    decreases |ends|
  {
    if ends == [] then []
    else (if i <= ends[0] <= |events| then events[i..ends[0]] else []) + Flatten(events, ends[0], ends[1..])
  }

  /** A cut covers all the events, once each, in order. */
  lemma {:induction false} FlattenCut(events: seq<Raw>, i: nat, ends: seq<nat>)
    requires i <= |events| && IsCut(events, i, ends)
    ensures Flatten(events, i, ends) == events[i..]
    decreases |ends|
  {
    if ends != [] {
      FlattenCut(events, ends[0], ends[1..]);
      assert events[i..] == events[i..ends[0]] + events[ends[0]..];
    }
  }

  // What a reader of the timeline sees: each joined item opened into its sub-events, the others as they are.

  datatype Shown = ShownJoin(sub: Sub) | ShownItem(item: Item)

  function Joins(subs: seq<Sub>): seq<Shown> {
    if subs == [] then [] else Joins(subs[..|subs| - 1]) + [ShownJoin(subs[|subs| - 1])]
  }

  function Opened(item: Item): seq<Shown> {
    if KindOf(item.what) == "JOINED" then Joins(item.subs) else [ShownItem(item)]
  }

  function Unfolded(items: seq<Item>): seq<Shown> {
    if items == [] then [] else Opened(items[0]) + Unfolded(items[1..])
  }

  function Show(e: Raw): Shown { if e.Joined? then ShownJoin(SubOf(e)) else ShownItem(SingleItem(e)) }

  /** The events at positions i to k, each shown by itself. */
  function ShownEach(events: seq<Raw>, i: nat, k: nat): seq<Shown>
    requires i <= k <= |events|
  {
    if i == k then [] else ShownEach(events, i, k - 1) + [Show(events[k - 1])]
  }

  lemma {:induction false} ShownJoined(events: seq<Raw>, i: nat, j: nat, k: nat)
    requires i <= j <= k <= |events|
    ensures ShownEach(events, i, j) + ShownEach(events, j, k) == ShownEach(events, i, k)
    decreases k
  {
    if j < k { ShownJoined(events, i, j, k - 1); }
  }

  lemma JoinsMore(subs: seq<Sub>, sub: Sub)
    ensures Joins(subs + [sub]) == Joins(subs) + [ShownJoin(sub)]
  {
    assert (subs + [sub])[..|subs|] == subs;
  }

  lemma {:induction false} JoinsOfRun(events: seq<Raw>, i: nat, k: nat)
    requires i <= k <= |events| && forall j :: i <= j < k ==> events[j].Joined?
    ensures Joins(Subs(events, i, k)) == ShownEach(events, i, k)
  {
    if i < k {
      JoinsOfRun(events, i, k - 1);
      JoinsMore(Subs(events, i, k - 1), SubOf(events[k - 1]));
    }
  }

  lemma OpenedBlock(events: seq<Raw>, i: nat)
    requires i < |events|
    ensures Opened(Render(events, i, BlockEnd(events, i))) == ShownEach(events, i, BlockEnd(events, i))
  {
    if events[i].Joined? { JoinsOfRun(events, i, BlockEnd(events, i)); } else { assert ShownEach(events, i, i) == []; }
  }

  /** Opening the timeline's joined items gives every sorted event once, in order, each as it would show by itself. */
  lemma {:induction false} UnfoldRestoresEvents(events: seq<Raw>, i: nat)
    requires i <= |events|
    ensures Unfolded(TimelineFrom(events, i)) == ShownEach(events, i, |events|)
    decreases |events| - i
  {
    if i < |events| {
      var k := BlockEnd(events, i);
      UnfoldRestoresEvents(events, k);
      OpenedBlock(events, i);
      assert TimelineFrom(events, i)[1..] == TimelineFrom(events, k);
      ShownJoined(events, i, k, |events|);
    }
  }

  function AllSubs(items: seq<Item>): seq<Sub> {
    if items == [] then [] else items[0].subs + AllSubs(items[1..])
  }

  /** The number in a joined item's message is the number of its sub-events. */
  lemma {:induction false} SubsLength(events: seq<Raw>, i: nat, k: nat)
    requires i <= k <= |events| && forall j :: i <= j < k ==> events[j].Joined?
    ensures |Subs(events, i, k)| == k - i
  {
    if i < k { SubsLength(events, i, k - 1); }
  }

  /** A joined item shows the time of its first event, its sub-events, and in words how many they are. */
  lemma JoinedItemMeans(events: seq<Raw>, i: nat)
    requires i < |events| && events[i].Joined?
    ensures var item := Render(events, i, BlockEnd(events, i));
            && KindOf(item.what) == "JOINED" && ColorOf(item.what) == "plum-soft"
            && item.at == events[i].at && |item.subs| >= 1
            && MessageOf(item.what) == if |item.subs| == 1 then "1 guest joined the queue"
                                       else Decimal(|item.subs|) + " guests joined the queue"
  {
    SubsLength(events, i, BlockEnd(events, i));
  }

  lemma {:induction false} SubsJoin(events: seq<Raw>, i: nat, j: nat, k: nat)
    requires i <= j <= k <= |events|
    ensures Subs(events, i, j) + Subs(events, j, k) == Subs(events, i, k)
    decreases k
  {
    if j < k { SubsJoin(events, i, j, k - 1); }
  }

  /** The sub-events shown are those of all joins, in time order. */
  lemma {:induction false} SubsShown(events: seq<Raw>, i: nat)
    requires i <= |events|
    ensures AllSubs(TimelineFrom(events, i)) == Subs(events, i, |events|)
    decreases |events| - i
  {
    if i < |events| {
      var k := BlockEnd(events, i);
      SubsShown(events, k);
      SubsJoin(events, i, k, |events|);
      assert TimelineFrom(events, i)[1..] == TimelineFrom(events, k);
    }
  }

  /** The sub-events of the first n events as a bag. */
  function Bag(events: seq<Raw>, n: nat): multiset<Sub>
    requires n <= |events|
  {
    if n == 0 then multiset{} else Bag(events, n - 1) + SubBag(events[n - 1])
  }

  function SubBag(e: Raw): multiset<Sub> { if e.Joined? then multiset{SubOf(e)} else multiset{} }

  lemma {:induction false} BagOfSubs(events: seq<Raw>, n: nat)
    requires n <= |events|
    ensures multiset(Subs(events, 0, n)) == Bag(events, n)
  {
    if n > 0 { BagOfSubs(events, n - 1); }
  }

  /** `b'` is `b` with the event at k taken out. */
  ghost predicate TakenOut(b: seq<Raw>, k: nat, b': seq<Raw>)
    requires k < |b|
  {
    && |b'| == |b| - 1
    && (forall i :: 0 <= i < k ==> b'[i] == b[i])
    && (forall i :: k <= i < |b'| ==> b'[i] == b[i + 1])
  }

  lemma {:induction false} BagBefore(b: seq<Raw>, k: nat, b': seq<Raw>, n: nat)
    requires k < |b| && TakenOut(b, k, b') && n <= k
    ensures Bag(b', n) == Bag(b, n)
  {
    if n > 0 { BagBefore(b, k, b', n - 1); }
  }

  lemma {:induction false} BagWithout(b: seq<Raw>, k: nat, b': seq<Raw>, n: nat)
    requires k < |b| && TakenOut(b, k, b') && k <= n <= |b'|
    ensures Bag(b, n + 1) == Bag(b', n) + SubBag(b[k])
  {
    if n == k {
      BagBefore(b, k, b', k);
    } else {
      BagWithout(b, k, b', n - 1);
      assert b'[n - 1] == b[n];
    }
  }

  lemma TakeOut(b: seq<Raw>, k: nat) returns (b': seq<Raw>)
    requires k < |b|
    ensures TakenOut(b, k, b') && multiset(b') == multiset(b) - multiset{b[k]}
  {
    b' := b[..k] + b[k + 1..];
    assert b == b[..k] + [b[k]] + b[k + 1..];
  }

  /** The bag of sub-events depends on the bag of events only. */
  lemma {:induction false} BagPermute(a: seq<Raw>, b: seq<Raw>)
    requires multiset(a) == multiset(b)
    ensures Bag(a, |a|) == Bag(b, |b|)
    decreases |a|
  {
    SameBagSameSize(a, b);
    if a != [] {
      assert a[0] in multiset(b);
      var k :| 0 <= k < |b| && b[k] == a[0];
      var a' := TakeOut(a, 0);
      var b' := TakeOut(b, k);
      BagPermute(a', b');
      BagWithout(a, 0, a', |a'|);
      BagWithout(b, k, b', |b'|);
    }
  }

  function Bookings(guests: seq<Guest>): seq<Sub> {
    seq(|guests|, i requires 0 <= i < |guests| => Sub(guests[i].ticket, guests[i].name, guests[i].created))
  }

  lemma {:induction false} SubsOfConcat(a: seq<Raw>, b: seq<Raw>, n: nat)
    requires n <= |b|
    ensures Subs(a + b, 0, |a| + n) == Subs(a, 0, |a|) + Subs(b, 0, n)
    decreases n
  {
    if n > 0 { SubsOfConcat(a, b, n - 1); } else { SubsOfPrefix(a, b, |a|); }
  }

  lemma {:induction false} SubsOfPrefix(a: seq<Raw>, b: seq<Raw>, n: nat)
    requires n <= |a|
    ensures Subs(a + b, 0, n) == Subs(a, 0, n)
  {
    if n > 0 { SubsOfPrefix(a, b, n - 1); }
  }

  lemma {:induction false} NoSubsInChanges(raw: seq<Raw>, n: nat)
    requires n <= |raw| && forall i :: 0 <= i < |raw| ==> raw[i].StatusChange?
    ensures Subs(raw, 0, n) == []
  {
    if n > 0 { NoSubsInChanges(raw, n - 1); }
  }

  lemma SubsOfGuestEvents(g: Guest)
    ensures Subs(GuestEvents(g), 0, |GuestEvents(g)|) == [Sub(g.ticket, g.name, g.created)]
  {
    var ev := GuestEvents(g);
    assert Subs(ev, 0, 1) == Subs(ev, 0, 0) + [SubOf(ev[0])];
  }

  lemma {:induction false} SubsOfGuests(guests: seq<Guest>)
    ensures Subs(AllGuestEvents(guests), 0, |AllGuestEvents(guests)|) == Bookings(guests)
  {
    if guests != [] {
      var front, g := guests[..|guests| - 1], guests[|guests| - 1];
      SubsOfGuests(front);
      SubsOfConcat(AllGuestEvents(front), GuestEvents(g), |GuestEvents(g)|);
      SubsOfGuestEvents(g);
    }
  }

  lemma SubsOfRaw(logs: seq<Change>, guests: seq<Guest>)
    ensures Subs(RawEvents(logs, guests), 0, |RawEvents(logs, guests)|) == Bookings(guests)
  {
    var changes, others := Changes(logs), AllGuestEvents(guests);
    NoSubsInChanges(changes, |logs|);
    SubsOfConcat(changes, others, |others|);
    SubsOfGuests(guests);
  }

  lemma SameBagSameSize<T>(a: seq<T>, b: seq<T>)
    requires multiset(a) == multiset(b)
    ensures |a| == |b|
  {
    assert |multiset(a)| == |a| && |multiset(b)| == |b|;
  }

  /**
   Whatever tie order the sort picks: the timeline, its joined items opened, shows the sorted events once each in
   order, and its sub-events are the bookings, each exactly once.
   */
  lemma TimelineLosesNothing(logs: seq<Change>, guests: seq<Guest>, events: seq<Raw>)
    requires SortedFrom(events, RawEvents(logs, guests))
    ensures Unfolded(TimelineFrom(events, 0)) == ShownEach(events, 0, |events|)
    ensures AllSubs(TimelineFrom(events, 0)) == Subs(events, 0, |events|)
    ensures multiset(AllSubs(TimelineFrom(events, 0))) == multiset(Bookings(guests))
    ensures |AllSubs(TimelineFrom(events, 0))| == |guests|
  {
    UnfoldRestoresEvents(events, 0);
    SubsShown(events, 0);
    BagPermute(events, RawEvents(logs, guests));
    BagOfSubs(events, |events|);
    BagOfSubs(RawEvents(logs, guests), |RawEvents(logs, guests)|);
    SubsOfRaw(logs, guests);
    SameBagSameSize(AllSubs(TimelineFrom(events, 0)), Bookings(guests));
  }

  // ----- No cut has fewer joined blocks

  function JoinedBlocks(events: seq<Raw>, i: nat, ends: seq<nat>): nat
    decreases |ends|
  {
    if ends == [] then 0
    else (if i < |events| && events[i].Joined? then 1 else 0) + JoinedBlocks(events, ends[0], ends[1..])
  }

  /** The joined blocks of the loop from i on. */
  function Greedy(events: seq<Raw>, i: nat): nat
    requires i <= |events|
    decreases |events| - i
  {
    if i == |events| then 0
    else (if events[i].Joined? then 1 else 0) + Greedy(events, BlockEnd(events, i))
  }

  lemma {:induction false} GreedyCounts(events: seq<Raw>, i: nat)
    requires i <= |events|
    ensures JoinedBlocks(events, i, GreedyCut(events, i)) == Greedy(events, i)
    decreases |events| - i
  {
    if i < |events| {
      GreedyCounts(events, BlockEnd(events, i));
      assert GreedyCut(events, i)[1..] == GreedyCut(events, BlockEnd(events, i));
    }
  }

  /** Starting later never costs the greedy loop a block. */
  lemma {:induction false} LaterStart(events: seq<Raw>, i: nat, j: nat)
    requires i <= j <= |events| && InTimeOrder(events)
    ensures Greedy(events, j) <= Greedy(events, i)
    decreases |events| - i
  {
    if i < j {
      var k := BlockEnd(events, i);
      if k <= j {
        LaterStart(events, k, j);
      } else {
        // Inside the block of i: the block of j ends no earlier.
        LaterStart(events, k, BlockEnd(events, j));
      }
    }
  }

  /** The greedy loop produces the fewest JOINED blocks among all cuts of the sorted events. */
  lemma {:induction false} GreedyBeats(events: seq<Raw>, i: nat, ends: seq<nat>)
    requires i <= |events| && InTimeOrder(events) && IsCut(events, i, ends)
    ensures Greedy(events, i) <= JoinedBlocks(events, i, ends)
    decreases |ends|
  {
    if ends != [] {
      GreedyBeats(events, ends[0], ends[1..]);
      LaterStart(events, ends[0], BlockEnd(events, i));
    }
  }

  lemma TimelineIsOptimal(events: seq<Raw>, ends: seq<nat>)
    requires InTimeOrder(events) && IsCut(events, 0, ends)
    ensures JoinedBlocks(events, 0, GreedyCut(events, 0)) <= JoinedBlocks(events, 0, ends)
  {
    GreedyCounts(events, 0);
    GreedyBeats(events, 0, ends);
  }

  /** The number being minimised is the number of items of kind JOINED. */
  lemma {:induction false} JoinedItems(events: seq<Raw>, i: nat)
    requires i <= |events|
    ensures JoinedBlocks(events, i, GreedyCut(events, i)) == |JoinedOnly(TimelineFrom(events, i))|
    decreases |events| - i
  {
    if i < |events| {
      var k := BlockEnd(events, i);
      JoinedItems(events, k);
      assert GreedyCut(events, i)[1..] == GreedyCut(events, k);
      assert TimelineFrom(events, i)[1..] == TimelineFrom(events, k);
    }
  }

  function JoinedOnly(items: seq<Item>): seq<Item> {
    if items == [] then []
    else (if KindOf(items[0].what) == "JOINED" then [items[0]] else []) + JoinedOnly(items[1..])
  }
}

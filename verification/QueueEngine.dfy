/**
 One queue's entries in MongoDB and their sorted-set index in Redis: joining, calling, finishing, the two
 timers, termination and expiry, the loss of the index, and its rebuild. Each service call is one step.
 */
module QueueEngine {
  import opened Text
  import opened SortedSets

  datatype Status = WAITING | CALLED | IDLE | ARRIVED | SERVED | SKIPPED | LEFT

  /** Creation time in milliseconds. */
  datatype Entry = Entry(status: Status, created: int)

  datatype Engine = Engine(manual: bool, entries: map<Id, Entry>, index: Index, sentinel: bool)

  predicate Unfinished(s: Status) { s in {WAITING, CALLED, IDLE, ARRIVED} }

  /** The statuses the rebuild looks for: an IDLE guest is not among them. */
  predicate Live(s: Status) { s in {WAITING, CALLED, ARRIVED} }

  predicate Waiting(e: Engine, id: Id) { id in e.entries && e.entries[id].status == WAITING }

  // ----- Operations

  function LiveIndex(e: Engine): Index {
    map id | id in e.entries && Live(e.entries[id].status) :: e.entries[id].created
  }

  function Lost(e: Engine): Engine { e.(index := map[]) }

  function Rehydrated(e: Engine): Engine { e.(index := e.index + LiveIndex(e), sentinel := true) }

  function Joined(e: Engine, id: Id, now: int): Engine {
    var e' := e.(entries := e.entries[id := Entry(WAITING, now)]);
    if e.manual then e' else e'.(index := e.index[id := now])
  }

  function WithStatus(e: Engine, id: Id, status: Status): Engine {
    if id in e.entries then e.(entries := e.entries[id := e.entries[id].(status := status)]) else e
  }

  function Finished(e: Engine, id: Id, status: Status): Engine {
    if id in e.entries then WithStatus(e, id, status).(index := e.index - {id}) else e
  }

  /** The engine CallNextUser scans: an empty index is rebuilt first. */
  function Scanned(e: Engine): Engine { if e.index == map[] then Rehydrated(e) else e }

  /** The place of the first WAITING entry of a list of ids. */
  function FirstWaiting(entries: map<Id, Entry>, order: seq<Id>): (i: nat)
    ensures i <= |order|
    ensures forall j :: 0 <= j < i ==> !(order[j] in entries && entries[order[j]].status == WAITING)
    ensures i < |order| ==> order[i] in entries && entries[order[i]].status == WAITING
  {
    if order == [] || (order[0] in entries && entries[order[0]].status == WAITING) then 0
    else 1 + FirstWaiting(entries, order[1..])
  }

  function CalledGuest(e: Engine, order: seq<Id>): Option<Id> {
    var i := FirstWaiting(e.entries, order);
    if i < |order| then Some(order[i]) else None
  }

  function CalledNext(e: Engine, order: seq<Id>): Engine {
    match CalledGuest(e, order)
    case Some(id) => WithStatus(Scanned(e), id, CALLED)
    case None => Scanned(e)
  }

  function PositionQueried(e: Engine, id: Id): Engine {
    if id !in e.index && e.index == map[] && !e.sentinel then Rehydrated(e) else e
  }

  function AllSkipped(entries: map<Id, Entry>): map<Id, Entry> {
    map id | id in entries :: if Unfinished(entries[id].status) then entries[id].(status := SKIPPED) else entries[id]
  }

  function Terminated(e: Engine, visible: bool): Engine {
    e.(entries := AllSkipped(e.entries), index := if visible then map[] else e.index)
  }

  function Expired(e: Engine, keepEntries: bool): Engine {
    e.(index := map[], entries := if keepEntries then AllSkipped(e.entries) else map[])
  }

  /** Ids of the live entries sorted by creation time; MongoDB leaves ties in any order. */
  ghost predicate IsListing(order: seq<Id>, e: Engine) {
    && (forall id :: id in LiveIndex(e) <==> id in order)
    && (forall id :: id in order ==> id in e.entries)
    && (forall i, j :: 0 <= i < j < |order| ==> e.entries[order[i]].created <= e.entries[order[j]].created)
  }

  /** The ids CallNextUser works through: the range of the index, or the listing of a rebuild. */
  ghost predicate Offers(order: seq<Id>, e: Engine) {
    if e.index != map[] then IsRange(order, e.index) else IsListing(order, e)
  }

  // ----- The service, updating its stores in place

  class QueueService {
    const manual: bool
    var entries: map<Id, Entry>
    var index: Index
    var sentinel: bool

    function View(): Engine
      reads this
    {
      Engine(manual, entries, index, sentinel)
    }

    constructor (manual: bool)
      ensures View() == Engine(manual, map[], map[], false)
    {
      this.manual, entries, index, sentinel := manual, map[], map[], false;
    }

    method CreateEntry(id: Id, now: int)
      modifies this
      ensures View() == Joined(old(View()), id, now)
    {
      entries := entries[id := Entry(WAITING, now)];
      if !manual { index := index[id := now]; }
    }

    method UpdateEntryStatus(id: Id, status: Status)
      modifies this
      ensures View() == WithStatus(old(View()), id, status)
    {
      if id in entries { entries := entries[id := entries[id].(status := status)]; }
    }

    /** `listing` is the reply of the database query for live entries. */
    method RehydrateQueue(listing: seq<Id>) returns (ids: seq<Id>)
      requires IsListing(listing, View())
      modifies this
      ensures View() == Rehydrated(old(View())) && ids == listing
    {
      sentinel := true;
      ids := listing;
      if |listing| == 0 {
        assert LiveIndex(View()) == map[] by { assert forall id :: id in LiveIndex(View()) ==> id in listing; }
        return;
      }
      var members: Index := map[];
      for i := 0 to |listing|
        invariant entries == old(entries) && index == old(index) && sentinel
        invariant forall id :: id in members <==> id in listing[..i]
        invariant forall id :: id in members ==> id in LiveIndex(old(View())) && members[id] == entries[id].created
      {
        assert listing[i] in listing;
        assert listing[..i + 1] == listing[..i] + [listing[i]];
        members := members[listing[i] := entries[listing[i]].created];
      }
      assert listing[..|listing|] == listing;
      assert members == LiveIndex(old(View()));
      index := index + members;
    }

    /** `ranged` is the reply of ZRANGE, `listing` that of the database query if the range is empty. */
    method CallNextUser(ranged: seq<Id>, listing: seq<Id>) returns (r: Option<Id>)
      requires IsRange(ranged, index) && IsListing(listing, View())
      modifies this
      ensures var order := if |ranged| != 0 then ranged else listing;
              && Offers(order, old(View()))
              && r == CalledGuest(old(View()), order)
              && View() == CalledNext(old(View()), order)
    {
      var ids := ranged;
      RangeLength(ranged, index);
      assert |ranged| == 0 <==> index == map[];
      if |ids| == 0 { ids := RehydrateQueue(listing); }
      if |ids| == 0 { return None; }
      var i := 0;
      while i < |ids|
        invariant i <= |ids| && View() == Scanned(old(View()))
        invariant forall j :: 0 <= j < i ==> !Waiting(View(), ids[j])
      {
        var id := ids[i];
        if id in entries && entries[id].status == WAITING {
          assert i == FirstWaiting(entries, ids);
          UpdateEntryStatus(id, CALLED);
          return Some(id);
        }
        i := i + 1;
      }
      return None;
    }

    method GetPosition(id: Id, listing: seq<Id>) returns (rank: int)
      requires IsListing(listing, View())
      modifies this
      ensures View() == PositionQueried(old(View()), id)
      ensures rank == if id in index then Rank(index, id) else -1
    {
      if id !in index && |index| == 0 && !sentinel {
        var _ := RehydrateQueue(listing);
      }
      rank := if id in index then Rank(index, id) else -1;
    }

    method FinishUserSession(id: Id, status: Status) returns (found: bool)
      modifies this
      ensures found <==> id in old(entries)
      ensures View() == Finished(old(View()), id, status)
    {
      if id !in entries { return false; }
      entries := entries[id := entries[id].(status := status)];
      index := index - {id};
      return true;
    }

    method TerminateQueue(visible: bool)
      modifies this
      ensures View() == Terminated(old(View()), visible)
    {
      entries := AllSkipped(entries);
      if visible { index := map[]; }
    }
  }

  // ----- Runs

  datatype Step =
    | Join(id: Id, now: int)
    | CallNext(order: seq<Id>)
    | Finish(id: Id, status: Status)
    | IdleTimer(id: Id)
    | GraceTimer(id: Id)
    | MarkArrived(id: Id)
    | StillHere(id: Id)
    | Recall(id: Id)
    | QueryPosition(id: Id)
    | Terminate(visible: bool)
    | Expire(keepEntries: bool)
    | LoseIndex
    | SentinelExpires

  function Next(e: Engine, step: Step): Engine {
    match step
    case Join(id, now) => Joined(e, id, now)
    case CallNext(order) => CalledNext(e, order)
    case Finish(id, status) => Finished(e, id, status)
    case IdleTimer(id) => WithStatus(e, id, IDLE)
    case GraceTimer(id) => WithStatus(e, id, WAITING)
    case MarkArrived(id) => WithStatus(e, id, ARRIVED)
    case StillHere(id) => WithStatus(e, id, WAITING)
    case Recall(id) => WithStatus(e, id, CALLED)
    case QueryPosition(id) => PositionQueried(e, id)
    case Terminate(visible) => Terminated(e, visible)
    case Expire(keepEntries) => Expired(e, keepEntries)
    case LoseIndex => Lost(e)
    case SentinelExpires => e.(sentinel := false)
  }

  /** Ids are fresh, a session is finished with a finishing status, and a call works through what the stores offer. */
  ghost predicate Enabled(e: Engine, step: Step) {
    match step
    case Join(id, _) => id !in e.entries && id !in e.index
    case CallNext(order) => Offers(order, e)
    case Finish(_, status) => !Unfinished(status)
    case _ => true
  }

  ghost predicate Possible(e: Engine, steps: seq<Step>)
    decreases |steps|
  {
    steps == [] || (Enabled(e, steps[0]) && Possible(Next(e, steps[0]), steps[1..]))
  }

  function After(e: Engine, steps: seq<Step>): Engine
    decreases |steps|
  {
    if steps == [] then e else After(Next(e, steps[0]), steps[1..])
  }

  function Empty(manual: bool): Engine { Engine(manual, map[], map[], false) }

  // ----- One notion of position

  /** Every indexed member is an entry scored with its own creation time. */
  ghost predicate Consistent(e: Engine) {
    forall id :: id in e.index ==> id in e.entries && e.index[id] == e.entries[id].created
  }

  lemma StepKeepsConsistent(e: Engine, step: Step)
    requires Consistent(e) && Enabled(e, step)
    ensures Consistent(Next(e, step))
  {
  }

  lemma {:induction false} RunKeepsConsistent(e: Engine, steps: seq<Step>)
    requires Consistent(e) && Possible(e, steps)
    ensures Consistent(After(e, steps))
    decreases |steps|
  {
    if steps != [] {
      StepKeepsConsistent(e, steps[0]);
      RunKeepsConsistent(Next(e, steps[0]), steps[1..]);
    }
  }

  // What each step does, entry by entry and place by place.

  /** The status every step leaves an entry with; nothing changes its creation time, and only expiry deletes it. */
  lemma StepStatus(e: Engine, step: Step, id: Id)
    requires Enabled(e, step) && id in e.entries
    ensures var e', old' := Next(e, step), e.entries[id].status;
            if step == Expire(false) then id !in e'.entries
            else
              id in e'.entries && e'.entries[id].created == e.entries[id].created
              && e'.entries[id].status == match step
                   case Finish(x, status) => if x == id then status else old'
                   case IdleTimer(x) => if x == id then IDLE else old'
                   case GraceTimer(x) => if x == id then WAITING else old'
                   case StillHere(x) => if x == id then WAITING else old'
                   case MarkArrived(x) => if x == id then ARRIVED else old'
                   case Recall(x) => if x == id then CALLED else old'
                   case CallNext(order) => if CalledGuest(e, order) == Some(id) then CALLED else old'
                   case Terminate(_) => if old' in {WAITING, CALLED, IDLE, ARRIVED} then SKIPPED else old'
                   case Expire(_) => if old' in {WAITING, CALLED, IDLE, ARRIVED} then SKIPPED else old'
                   case _ => old'
  {
  }

  /** Nobody appears but by joining, and a newcomer is WAITING, created now. */
  lemma OnlyJoinsAppear(e: Engine, step: Step, id: Id)
    requires Enabled(e, step) && id !in e.entries && id in Next(e, step).entries
    ensures step.Join? && step.id == id
    ensures Next(e, step).entries[id].status == WAITING && Next(e, step).entries[id].created == step.now
  {
  }

  /** Which members each step leaves in the index; a rebuild brings in exactly the WAITING, CALLED and ARRIVED ones. */
  lemma StepIndex(e: Engine, step: Step, id: Id)
    requires Consistent(e) && Enabled(e, step)
    ensures var live := id in e.entries && e.entries[id].status in {WAITING, CALLED, ARRIVED};
            id in Next(e, step).index <==>
              match step
              case Join(x, _) => id in e.index || (x == id && !e.manual)
              case Finish(x, _) => id in e.index && x != id
              case CallNext(_) => if e.index == map[] then live else id in e.index
              case QueryPosition(_) => if e.index == map[] && !e.sentinel then live else id in e.index
              case Terminate(visible) => id in e.index && !visible
              case Expire(_) => false
              case LoseIndex => false
              case _ => id in e.index
  {
  }

  /** A rebuild, and nothing else, puts the sentinel up; it goes down by expiring. */
  lemma StepSentinel(e: Engine, step: Step)
    requires Enabled(e, step)
    ensures Next(e, step).sentinel <==>
            match step
            case CallNext(_) => e.sentinel || e.index == map[]
            case QueryPosition(_) => e.sentinel || e.index == map[]
            case SentinelExpires => false
            case _ => e.sentinel
  {
  }

  /** A finish takes the entry off the index, and everybody behind it moves up by one. */
  lemma FinishMovesUp(e: Engine, id: Id, status: Status, o: Id)
    requires Consistent(e) && id in e.index && o in e.index && o != id
    ensures var e' := Finished(e, id, status);
            && e'.entries[id].status == status && id !in e'.index && o in e'.index
            && Rank(e'.index, o) == Rank(e.index, o) - if Before(e.index, id, o) then 1 else 0
  {
    var e' := Finished(e, id, status);
    assert Predecessors(e'.index, o) == Predecessors(e.index, o) - {id};
  }

  /** A join of an automatically positioned queue takes the place its creation time gives it; those behind move down. */
  lemma JoinTakesPlace(e: Engine, id: Id, now: int, o: Id)
    requires Consistent(e) && id !in e.entries && id !in e.index && o in e.index
    ensures var e' := Joined(e, id, now);
            && o in e'.index
            && (e.manual ==> e'.index == e.index)
            && (!e.manual ==>
                  id in e'.index && e'.index[id] == now
                  && Rank(e'.index, o) == Rank(e.index, o)
                     + (if now < e.entries[o].created || (now == e.entries[o].created && Less(id, o)) then 1 else 0))
  {
    var e' := Joined(e, id, now);
    if !e.manual {
      assert Before(e'.index, id, o) <==>
             now < e.entries[o].created || (now == e.entries[o].created && Less(id, o));
      assert Predecessors(e'.index, o)
          == Predecessors(e.index, o) + if Before(e'.index, id, o) then {id} else {};
    }
  }

  /** The indexed entries with smaller creation time, or equal time and smaller id. */
  ghost function Earlier(e: Engine, id: Id): set<Id>
    requires Consistent(e) && id in e.index
  {
    set m | m in e.index
      && (|| e.entries[m].created < e.entries[id].created
          || (e.entries[m].created == e.entries[id].created && Less(m, id)))
  }

  /**
   After every run, losses included: the place in the broadcast, the rank plus one and one plus the number of
   earlier indexed entries agree, and they number the members one to n without gaps or repetitions.
   */
  lemma OneNotionOfPosition(manual: bool, steps: seq<Step>, order: seq<Id>)
    requires Possible(Empty(manual), steps) && IsRange(order, After(Empty(manual), steps).index)
    ensures Consistent(After(Empty(manual), steps))
    ensures var e := After(Empty(manual), steps);
            && |order| == |e.index|
            && (forall i | 0 <= i < |order| ::
                  order[i] in e.index && i + 1 == Rank(e.index, order[i]) + 1 == 1 + |Earlier(e, order[i])|)
            && (forall id :: id in e.index ==> exists i :: 0 <= i < |order| && order[i] == id)
            && (forall i, j :: 0 <= i < j < |order| ==> order[i] != order[j])
  {
    RunKeepsConsistent(Empty(manual), steps);
    var e := After(Empty(manual), steps);
    RangeLength(order, e.index);
    RangeDistinct(order, e.index);
    forall i | 0 <= i < |order|
      ensures order[i] in e.index && Rank(e.index, order[i]) == i == |Earlier(e, order[i])|
    {
      RankIsPlace(order, e.index, i);
      assert Earlier(e, order[i]) == Predecessors(e.index, order[i]);
    }
    forall id | id in e.index ensures exists i :: 0 <= i < |order| && order[i] == id { assert id in order; }
  }

  // ----- First come, first called

  /** A call succeeds exactly when a scanned entry is WAITING; it changes that entry only, and no earlier one waits. */
  lemma CallIsFifo(e: Engine, order: seq<Id>)
    requires Consistent(e) && Offers(order, e)
    ensures var s, e' := Scanned(e), CalledNext(e, order);
            && e'.index == s.index
            && (CalledGuest(e, order).None? <==> forall id :: id in s.index ==> !Waiting(e, id))
            && (CalledGuest(e, order).None? ==> e'.entries == e.entries)
            && (CalledGuest(e, order).Some? ==>
                  var id := CalledGuest(e, order).value;
                  && id in s.index && Waiting(e, id)
                  && e'.entries == e.entries[id := e.entries[id].(status := CALLED)]
                  && (forall o :: o in s.index && Waiting(e, o) ==> e.entries[id].created <= e.entries[o].created)
                  && (e.index != map[] ==>
                        forall o :: o in e.index && o != id && Waiting(e, o) ==> Before(e.index, id, o)))
  {
  }

  /** Among all WAITING entries, indexed or not: nobody created earlier is passed over, and nobody waits unheard. */
  ghost predicate FairCall(e: Engine, order: seq<Id>) {
    forall o :: Waiting(e, o) ==>
      CalledGuest(e, order).Some? && e.entries[CalledGuest(e, order).value].created <= e.entries[o].created
  }

  /** A call is fair exactly when every WAITING entry outside the scanned index has one inside created no later. */
  lemma FairCallExact(e: Engine, order: seq<Id>)
    requires Consistent(e) && Offers(order, e)
    ensures CalledGuest(e, order).Some? ==> Waiting(e, CalledGuest(e, order).value)
    ensures FairCall(e, order) <==>
            forall o :: Waiting(e, o) && o !in Scanned(e).index ==>
              exists m :: m in Scanned(e).index && Waiting(e, m) && e.entries[m].created <= e.entries[o].created
  {
    CallIsFifo(e, order);
  }

  /** The stores always have an answer, so a call is always possible. */
  lemma OfferExists(e: Engine)
    ensures exists order :: Offers(order, e)
  {
    if e.index != map[] {
      RangeExists(e.index);
      var order :| IsRange(order, e.index);
      assert Offers(order, e);
    } else {
      var live := LiveIndex(e);
      RangeExists(live);
      var order :| IsRange(order, live);
      forall id | id in order ensures id in e.entries { assert id in live; }
      assert Offers(order, e);
    }
  }

  // ----- Losing and rebuilding the index

  /** The index restricted to the entries that are WAITING, CALLED or ARRIVED. */
  function Restricted(e: Engine): Index {
    map id | id in e.index && id in e.entries && Live(e.entries[id].status) :: e.index[id]
  }

  /** The rebuild restores the restricted index exactly when no live entry was missing from the index. */
  lemma RebuildExact(e: Engine)
    requires Consistent(e)
    ensures Rehydrated(Lost(e)).index == Restricted(e) <==>
            forall id :: id in e.entries && Live(e.entries[id].status) ==> id in e.index
  {
    var rebuilt := Rehydrated(Lost(e)).index;
    assert rebuilt == LiveIndex(e);
    if rebuilt == Restricted(e) {
      forall id | id in e.entries && Live(e.entries[id].status) ensures id in e.index {
        assert id in rebuilt;
      }
    }
  }

  /** A rebuild brings in the WAITING, CALLED and ARRIVED entries, each at its creation time, and takes nobody out. */
  lemma RebuildAdds(e: Engine, id: Id)
    requires Consistent(e)
    ensures var e' := Rehydrated(e);
            && e'.entries == e.entries && e'.sentinel
            && (id in e'.index <==>
                  id in e.index || (id in e.entries && e.entries[id].status in {WAITING, CALLED, ARRIVED}))
            && (id in e'.index ==> e'.index[id] == e.entries[id].created)
  {
  }

  /** Rebuilding twice changes nothing more. */
  lemma RebuildIdempotent(e: Engine)
    ensures Rehydrated(Rehydrated(e)) == Rehydrated(e)
  {
  }

  function LiveOnly(order: seq<Id>, entries: map<Id, Entry>): seq<Id> {
    if order == [] then []
    else LiveOnly(order[..|order| - 1], entries) +
         (var id := order[|order| - 1]; if id in entries && Live(entries[id].status) then [id] else [])
  }

  lemma {:induction false} LiveOnlyMembers(order: seq<Id>, entries: map<Id, Entry>)
    ensures forall id :: id in LiveOnly(order, entries) <==> id in order && id in entries && Live(entries[id].status)
  {
    if order != [] {
      var front := order[..|order| - 1];
      assert order == front + [order[|order| - 1]];
      LiveOnlyMembers(front, entries);
    }
  }

  ghost predicate SortedBy(index: Index, order: seq<Id>) {
    && (forall id :: id in order ==> id in index)
    && (forall i, j :: 0 <= i < j < |order| ==> Before(index, order[i], order[j]))
  }

  lemma {:induction false} LiveOnlySorted(order: seq<Id>, entries: map<Id, Entry>, index: Index)
    requires SortedBy(index, order)
    ensures SortedBy(index, LiveOnly(order, entries))
  {
    LiveOnlyMembers(order, entries);
    if order != [] {
      var front, last := order[..|order| - 1], order[|order| - 1];
      assert order == front + [last];
      LiveOnlySorted(front, entries, index);
      LiveOnlyMembers(front, entries);
      AppendedSorted(index, LiveOnly(front, entries), front, last);
    }
  }

  lemma AppendedSorted(index: Index, some: seq<Id>, front: seq<Id>, last: Id)
    requires SortedBy(index, some) && SortedBy(index, front + [last])
    requires forall id :: id in some ==> id in front
    ensures SortedBy(index, some + [last])
  {
    var all := front + [last];
    forall i | 0 <= i < |some| ensures Before(index, some[i], last) {
      assert some[i] in front;
      var k :| 0 <= k < |front| && front[k] == some[i];
      assert all[k] == some[i] && all[|front|] == last;
    }
    assert last in all;
  }

  /** Restricting the index strikes the others out of its range and leaves the rest in the same order. */
  lemma RestrictedRange(e: Engine, order: seq<Id>)
    requires IsRange(order, e.index)
    ensures IsRange(LiveOnly(order, e.entries), Restricted(e))
  {
    LiveOnlyMembers(order, e.entries);
    LiveOnlySorted(order, e.entries, e.index);
    var l := LiveOnly(order, e.entries);
    forall i, j | 0 <= i < j < |l| ensures Before(Restricted(e), l[i], l[j]) {
      assert l[i] in l && l[j] in l;
      assert Before(e.index, l[i], l[j]);
    }
  }

  /** Nothing to rebuild from, or every WAITING, CALLED or ARRIVED entry indexed. */
  ghost predicate LiveCovered(e: Engine) {
    && !e.manual && Consistent(e)
    && (e.index == map[] || forall id :: id in e.entries && Live(e.entries[id].status) ==> id in e.index)
  }

  /**
   A join never meets a lost index that has somebody to rebuild, and an entry brought back to WAITING, CALLED or
   ARRIVED is indexed unless the index is lost. Losses may strike at any time.
   */
  ghost predicate Guarded(e: Engine, step: Step) {
    match step
    case Join(_, _) => e.index != map[] || forall id :: id in e.entries ==> !Live(e.entries[id].status)
    case GraceTimer(id) => id in e.entries ==> id in e.index || e.index == map[]
    case MarkArrived(id) => id in e.entries ==> id in e.index || e.index == map[]
    case StillHere(id) => id in e.entries ==> id in e.index || e.index == map[]
    case Recall(id) => id in e.entries ==> id in e.index || e.index == map[]
    case _ => true
  }

  ghost predicate GuardedRun(e: Engine, steps: seq<Step>)
    decreases |steps|
  {
    steps == [] || (Enabled(e, steps[0]) && Guarded(e, steps[0]) && GuardedRun(Next(e, steps[0]), steps[1..]))
  }

  lemma StepKeepsLiveCovered(e: Engine, step: Step)
    requires LiveCovered(e) && Enabled(e, step) && Guarded(e, step)
    ensures LiveCovered(Next(e, step))
  {
  }

  lemma {:induction false} RunKeepsLiveCovered(e: Engine, steps: seq<Step>)
    requires LiveCovered(e) && GuardedRun(e, steps)
    ensures LiveCovered(After(e, steps))
    decreases |steps|
  {
    if steps != [] {
      StepKeepsLiveCovered(e, steps[0]);
      RunKeepsLiveCovered(Next(e, steps[0]), steps[1..]);
    }
  }

  /**
   After every guarded run of an automatically positioned queue, with any number of losses and rebuilds in it: one
   more loss and rebuild gives exactly the restricted index unless the index is lost already and somebody is live;
   its range is then the old range with the others struck out, and a second rebuild changes nothing.
   */
  lemma RehydrationRestoresIndex(steps: seq<Step>, order: seq<Id>)
    requires GuardedRun(Empty(false), steps) && IsRange(order, After(Empty(false), steps).index)
    ensures var e := After(Empty(false), steps);
            var rebuilt := Rehydrated(Lost(e));
            && (rebuilt.index == Restricted(e) <==>
                  e.index != map[] || forall id :: id in e.entries ==> !Live(e.entries[id].status))
            && (rebuilt.index == Restricted(e) ==> IsRange(LiveOnly(order, e.entries), rebuilt.index))
            && Rehydrated(rebuilt) == rebuilt
  {
    RunKeepsLiveCovered(Empty(false), steps);
    var e := After(Empty(false), steps);
    RebuildExact(e);
    RebuildIdempotent(Lost(e));
    RestrictedRange(e, order);
  }

  /** Status writes hit only unfinished entries, and the index is not lost. */
  ghost predicate Careful(e: Engine, step: Step) {
    match step
    case Finish(id, _) => id in e.entries ==> Unfinished(e.entries[id].status)
    case IdleTimer(id) => id in e.entries ==> Unfinished(e.entries[id].status)
    case GraceTimer(id) => id in e.entries ==> Unfinished(e.entries[id].status)
    case MarkArrived(id) => id in e.entries ==> Unfinished(e.entries[id].status)
    case StillHere(id) => id in e.entries ==> Unfinished(e.entries[id].status)
    case Recall(id) => id in e.entries ==> Unfinished(e.entries[id].status)
    case LoseIndex => false
    case _ => true
  }

  ghost predicate CarefulRun(e: Engine, steps: seq<Step>)
    decreases |steps|
  {
    steps == [] || (Enabled(e, steps[0]) && Careful(e, steps[0]) && CarefulRun(Next(e, steps[0]), steps[1..]))
  }

  /** Every unfinished entry, IDLE ones included, is indexed. */
  ghost predicate Tracked(e: Engine) {
    && !e.manual && Consistent(e)
    && forall id :: id in e.entries && Unfinished(e.entries[id].status) ==> id in e.index
  }

  lemma StepKeepsTracked(e: Engine, step: Step)
    requires Tracked(e) && Enabled(e, step) && Careful(e, step)
    ensures Guarded(e, step) && Tracked(Next(e, step))
  {
  }

  /** Before the first loss it is enough that status writes hit unfinished entries: such runs are guarded. */
  lemma {:induction false} CarefulRunsAreGuarded(e: Engine, steps: seq<Step>)
    requires Tracked(e) && CarefulRun(e, steps)
    ensures GuardedRun(e, steps) && Tracked(After(e, steps))
    decreases |steps|
  {
    if steps != [] {
      StepKeepsTracked(e, steps[0]);
      CarefulRunsAreGuarded(Next(e, steps[0]), steps[1..]);
    }
  }

  /** What the IDLE gap costs: idle during a loss and rebuild, then back to WAITING, a guest is in no index. */
  lemma IdleGuestLeavesIndex(e: Engine, id: Id)
    requires Tracked(e) && id in e.entries && e.entries[id].status == IDLE
    ensures var e' := WithStatus(Rehydrated(Lost(e)), id, WAITING);
            Waiting(e', id) && id !in e'.index && Rehydrated(Lost(e')).index != Restricted(e')
  {
  }

  /**
   After a loss, a join that comes before any rebuild leaves the newcomer alone in the index and called first: that is
   fair exactly when nobody who waits was created earlier.
   */
  lemma JoinAfterLossHidesOthers(e: Engine, id: Id, now: int, waiting: Id, order: seq<Id>)
    requires !e.manual && id !in e.entries && Waiting(e, waiting)
    requires Offers(order, Joined(Lost(e), id, now))
    ensures CalledGuest(Joined(Lost(e), id, now), order) == Some(id)
    ensures Waiting(CalledNext(Joined(Lost(e), id, now), order), waiting)
    ensures FairCall(Joined(Lost(e), id, now), order) <==> forall o :: Waiting(e, o) ==> now <= e.entries[o].created
  {
    var e' := Joined(Lost(e), id, now);
    assert e'.index == map[id := now];
    assert id in e'.index && id in order;
    assert forall o :: o in order ==> o in e'.index;
    CallIsFifoTarget(e', order, id);
    assert forall o :: o != id ==> (Waiting(e', o) <==> Waiting(e, o));
  }

  lemma CallIsFifoTarget(e: Engine, order: seq<Id>, id: Id)
    requires id in order && Waiting(e, id) && forall o :: o in order ==> o == id
    ensures CalledGuest(e, order) == Some(id)
  {
    var i := FirstWaiting(e.entries, order);
    var k :| 0 <= k < |order| && order[k] == id;
    assert i <= k;
    assert order[i] in order;
  }

  // ----- Bounded bypass

  /** Nobody comes back to WAITING, and the watched id is not given out again. The index may be lost at any time. */
  ghost predicate Quiet(e: Engine, step: Step, watched: Id) {
    match step
    case GraceTimer(id) => id in e.entries ==> e.entries[id].status == WAITING
    case StillHere(id) => id in e.entries ==> e.entries[id].status == WAITING
    case Join(id, _) => id != watched
    case _ => true
  }

  ghost predicate QuietRun(e: Engine, steps: seq<Step>, watched: Id)
    decreases |steps|
  {
    steps == []
    || (Enabled(e, steps[0]) && Quiet(e, steps[0], watched) && QuietRun(Next(e, steps[0]), steps[1..], watched))
  }

  lemma StaysOut(e: Engine, step: Step, id: Id)
    requires Enabled(e, step) && Quiet(e, step, id) && !Waiting(e, id)
    ensures !Waiting(Next(e, step), id)
  {
  }

  /** In a quiet run an entry that no longer waits does not wait again. */
  lemma {:induction false} NeverWaitsAgain(e: Engine, steps: seq<Step>, id: Id)
    requires QuietRun(e, steps, id) && !Waiting(e, id)
    ensures !Waiting(After(e, steps), id)
    decreases |steps|
  {
    if steps != [] {
      StaysOut(e, steps[0], id);
      NeverWaitsAgain(Next(e, steps[0]), steps[1..], id);
    }
  }

  /** The successful calls of a run. */
  function Calls(e: Engine, steps: seq<Step>): nat
    decreases |steps|
  {
    if steps == [] then 0
    else
      (if steps[0].CallNext? && CalledGuest(e, steps[0].order).Some? then 1 else 0)
      + Calls(Next(e, steps[0]), steps[1..])
  }

  function Attempts(steps: seq<Step>): nat {
    if steps == [] then 0 else (if steps[0].CallNext? then 1 else 0) + Attempts(steps[1..])
  }

  /** A call will find the entry if it waits: it is indexed, or there is no index and a rebuild will bring it in. */
  ghost predicate Reachable(e: Engine, id: Id) { Consistent(e) && (e.index == map[] || id in e.index) }

  /** While the entry waits, no join of an automatically positioned queue meets a lost index. */
  ghost predicate JoinsIndexed(e: Engine, step: Step, watched: Id) {
    Waiting(e, watched) && step.Join? && !e.manual ==> e.index != map[]
  }

  ghost predicate JoinsIndexedRun(e: Engine, steps: seq<Step>, watched: Id)
    decreases |steps|
  {
    steps == [] || (JoinsIndexed(e, steps[0], watched) && JoinsIndexedRun(Next(e, steps[0]), steps[1..], watched))
  }

  lemma StepKeepsReachable(e: Engine, step: Step, id: Id)
    requires Reachable(e, id) && Enabled(e, step) && JoinsIndexed(e, step, id)
    requires Waiting(e, id) && Waiting(Next(e, step), id)
    ensures Reachable(Next(e, step), id)
  {
    StepKeepsConsistent(e, step);
  }

  /** The other WAITING entries created no later; a rebuild may list those of the same millisecond first. */
  ghost function Rivals(e: Engine, id: Id): set<Id>
    requires id in e.entries
  {
    set m | m in e.entries && m != id && Waiting(e, m) && e.entries[m].created <= e.entries[id].created
  }

  function JoinsNoLater(steps: seq<Step>, created: int): nat {
    if steps == [] then 0
    else (if steps[0].Join? && steps[0].now <= created then 1 else 0) + JoinsNoLater(steps[1..], created)
  }

  /** A call that leaves the watched entry waiting takes one of its rivals, from the index or from a rebuild. */
  lemma CallTakesRival(e: Engine, order: seq<Id>, id: Id)
    requires Reachable(e, id) && Offers(order, e) && Waiting(e, id) && Waiting(CalledNext(e, order), id)
    ensures CalledGuest(e, order).Some? && |Rivals(CalledNext(e, order), id)| + 1 == |Rivals(e, id)|
  {
    CallIsFifo(e, order);
    var called := CalledGuest(e, order).value;
    assert called in Rivals(e, id);
    assert Rivals(CalledNext(e, order), id) == Rivals(e, id) - {called};
  }

  lemma JoinAddsRival(e: Engine, joiner: Id, now: int, id: Id)
    requires joiner !in e.entries && id in e.entries
    ensures |Rivals(Joined(e, joiner, now), id)| <= |Rivals(e, id)| + if now <= e.entries[id].created then 1 else 0
  {
    SubsetCardinality(Rivals(Joined(e, joiner, now), id),
                      if now <= e.entries[id].created then Rivals(e, id) + {joiner} else Rivals(e, id));
  }

  lemma StepBypass(e: Engine, step: Step, id: Id)
    requires Reachable(e, id) && Enabled(e, step) && Quiet(e, step, id) && Waiting(e, id) && Waiting(Next(e, step), id)
    ensures Next(e, step).entries[id].created == e.entries[id].created
    ensures step.CallNext? ==> CalledGuest(e, step.order).Some?
    ensures |Rivals(Next(e, step), id)| + (if step.CallNext? then 1 else 0)
         <= |Rivals(e, id)| + (if step.Join? && step.now <= e.entries[id].created then 1 else 0)
  {
    if step.CallNext? {
      CallTakesRival(e, step.order, id);
    } else if step.Join? {
      JoinAddsRival(e, step.id, step.now, id);
    } else {
      SubsetCardinality(Rivals(Next(e, step), id), Rivals(e, id));
    }
  }

  /**
   Over every quiet run, with any number of index losses and rebuilds, in which no indexed join meets a lost index: as
   long as the watched entry still waits, every call succeeds, and the calls number at most its rivals at the start plus
   the joins created no later than it. Whether other entries are indexed does not matter.
   */
  lemma {:induction false} BoundedBypass(e: Engine, steps: seq<Step>, id: Id)
    requires Reachable(e, id) && QuietRun(e, steps, id) && JoinsIndexedRun(e, steps, id)
    requires Waiting(e, id) && Waiting(After(e, steps), id)
    ensures Calls(e, steps) == Attempts(steps)
    ensures Attempts(steps) + |Rivals(After(e, steps), id)|
         <= |Rivals(e, id)| + JoinsNoLater(steps, e.entries[id].created)
    decreases |steps|
  {
    if steps != [] {
      var e' := Next(e, steps[0]);
      if !Waiting(e', id) { NeverWaitsAgain(e', steps[1..], id); }
      StepBypass(e, steps[0], id);
      StepKeepsReachable(e, steps[0], id);
      BoundedBypass(e', steps[1..], id);
    }
  }

  /** With k rivals and no join created as early, the entry is called or gone by the (k+1)-th call, losses or not. */
  lemma CalledWithinTurn(e: Engine, steps: seq<Step>, id: Id)
    requires Reachable(e, id) && QuietRun(e, steps, id) && JoinsIndexedRun(e, steps, id) && Waiting(e, id)
    requires JoinsNoLater(steps, e.entries[id].created) == 0
    requires Attempts(steps) > |Rivals(e, id)|
    ensures !Waiting(After(e, steps), id)
  {
    if Waiting(After(e, steps), id) { BoundedBypass(e, steps, id); }
  }

  // Without a loss the order of the index also settles ties, by id.

  /** The WAITING entries that the index puts before one of its members. */
  ghost function Ahead(e: Engine, id: Id): set<Id>
    requires id in e.index
  {
    set m | m in e.index && Waiting(e, m) && Before(e.index, m, id)
  }

  predicate PlacedAhead(joiner: Id, now: int, watched: Id, created: int) {
    now < created || (now == created && Less(joiner, watched))
  }

  /** The joins of a run that the index places before the watched entry: same millisecond or an earlier clock. */
  function JoinsAhead(steps: seq<Step>, watched: Id, created: int): nat {
    if steps == [] then 0
    else
      (if steps[0].Join? && PlacedAhead(steps[0].id, steps[0].now, watched, created) then 1 else 0)
      + JoinsAhead(steps[1..], watched, created)
  }

  predicate NoLoss(steps: seq<Step>) { forall i :: 0 <= i < |steps| ==> !steps[i].LoseIndex? }

  lemma CallTakesAhead(e: Engine, order: seq<Id>, id: Id)
    requires Consistent(e) && Offers(order, e) && Waiting(e, id) && id in e.index && Waiting(CalledNext(e, order), id)
    ensures var e' := CalledNext(e, order);
            id in e'.index && CalledGuest(e, order).Some? && |Ahead(e', id)| + 1 == |Ahead(e, id)|
  {
    CallIsFifo(e, order);
    var e' := CalledNext(e, order);
    var called := CalledGuest(e, order).value;
    assert called in Ahead(e, id);
    assert Ahead(e', id) == Ahead(e, id) - {called};
  }

  lemma JoinAddsAhead(e: Engine, joiner: Id, now: int, id: Id)
    requires Consistent(e) && joiner !in e.entries && joiner !in e.index && id in e.index
    ensures var e' := Joined(e, joiner, now);
            id in e'.index
            && |Ahead(e', id)| <= |Ahead(e, id)| + if PlacedAhead(joiner, now, id, e.entries[id].created) then 1 else 0
  {
    var e' := Joined(e, joiner, now);
    var ahead := PlacedAhead(joiner, now, id, e.entries[id].created);
    SubsetCardinality(Ahead(e', id), if ahead then Ahead(e, id) + {joiner} else Ahead(e, id));
  }

  lemma StepBypassIndexed(e: Engine, step: Step, id: Id)
    requires Consistent(e) && Enabled(e, step) && Quiet(e, step, id) && Waiting(e, id) && id in e.index
    requires Waiting(Next(e, step), id) && !step.LoseIndex?
    ensures id in Next(e, step).index && Next(e, step).entries[id].created == e.entries[id].created
    ensures step.CallNext? ==> CalledGuest(e, step.order).Some?
    ensures |Ahead(Next(e, step), id)| + (if step.CallNext? then 1 else 0)
         <= |Ahead(e, id)| + (if step.Join? && PlacedAhead(step.id, step.now, id, e.entries[id].created) then 1 else 0)
  {
    if step.CallNext? {
      CallTakesAhead(e, step.order, id);
    } else if step.Join? {
      JoinAddsAhead(e, step.id, step.now, id);
    } else {
      SubsetCardinality(Ahead(Next(e, step), id), Ahead(e, id));
    }
  }

  /** Over every quiet run without a loss, the bound counts only what the index puts ahead. */
  lemma {:induction false} BoundedBypassIndexed(e: Engine, steps: seq<Step>, id: Id)
    requires Consistent(e) && QuietRun(e, steps, id) && NoLoss(steps) && id in e.index
    requires Waiting(e, id) && Waiting(After(e, steps), id)
    ensures id in After(e, steps).index && Calls(e, steps) == Attempts(steps)
    ensures Attempts(steps) + |Ahead(After(e, steps), id)|
         <= |Ahead(e, id)| + JoinsAhead(steps, id, e.entries[id].created)
    decreases |steps|
  {
    if steps != [] {
      var e' := Next(e, steps[0]);
      if !Waiting(e', id) { NeverWaitsAgain(e', steps[1..], id); }
      StepBypassIndexed(e, steps[0], id);
      StepKeepsConsistent(e, steps[0]);
      BoundedBypassIndexed(e', steps[1..], id);
    }
  }

  /** With k entries ahead and no join placed ahead, the entry is called or gone by the (k+1)-th call. */
  lemma CalledWithinTurnIndexed(e: Engine, steps: seq<Step>, id: Id)
    requires Consistent(e) && QuietRun(e, steps, id) && NoLoss(steps) && Waiting(e, id) && id in e.index
    requires JoinsAhead(steps, id, e.entries[id].created) == 0
    requires Attempts(steps) > |Ahead(e, id)|
    ensures !Waiting(After(e, steps), id)
  {
    if Waiting(After(e, steps), id) { BoundedBypassIndexed(e, steps, id); }
  }

  /** A newcomer joining an entry that is next in turn is called instead exactly when it is placed ahead. */
  lemma NewcomerFirstExact(e: Engine, joiner: Id, now: int, id: Id, order: seq<Id>)
    requires Consistent(e) && !e.manual && joiner !in e.entries && joiner !in e.index
    requires Waiting(e, id) && id in e.index && Ahead(e, id) == {}
    requires Offers(order, Joined(e, joiner, now))
    ensures CalledGuest(Joined(e, joiner, now), order)
         == Some(if PlacedAhead(joiner, now, id, e.entries[id].created) then joiner else id)
  {
    var e' := Joined(e, joiner, now);
    assert id in Scanned(e').index && Waiting(e', id) && Waiting(e', joiner);
    CallIsFifo(e', order);
    var called := CalledGuest(e', order).value;
    assert called == id || Before(e'.index, called, id);
    assert called != joiner ==> called in e.index && called !in Ahead(e, id);
    BeforeIsStrictOrder(e'.index, id, joiner, id);
  }

  /** So k + 1 calls need not reach an entry with k ahead: a tied join with a smaller id goes first. */
  lemma TiedNewcomerBypasses() returns (order: seq<Id>)
    ensures var e := Joined(Empty(false), "b", 5);
            var steps := [Join("a", 5), CallNext(order)];
            && Consistent(e) && QuietRun(e, steps, "b") && Ahead(e, "b") == {}
            && Calls(e, steps) == 1 && Waiting(After(e, steps), "b")
  {
    var e := Joined(Empty(false), "b", 5);
    var e' := Joined(e, "a", 5);
    OfferExists(e');
    order :| Offers(order, e');
    var steps := [Join("a", 5), CallNext(order)];
    NewcomerFirstExact(e, "a", 5, "b", order);
    assert steps[1..] == [CallNext(order)] && [CallNext(order)][1..] == [];
    assert Next(e', CallNext(order)) == WithStatus(e', "a", CALLED);
    assert After(e', [CallNext(order)]) == After(Next(e', CallNext(order)), []);
    assert Calls(e', [CallNext(order)]) == 1 + Calls(Next(e', CallNext(order)), []);
  }

  lemma {:induction false} SubsetCardinality<T>(a: set<T>, b: set<T>)
    requires a <= b
    ensures |a| <= |b|
  {
    if a != {} {
      var x :| x in a;
      SubsetCardinality(a - {x}, b - {x});
    }
  }
}

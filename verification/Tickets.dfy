/** Ticket numbers of one queue: the Redis counter, the stored tickets, and the rebuild after the counter is lost. */
module Tickets {
  import opened Text

  const MAX_VERIFY_CODE_ATTEMPTS := 5

  /** What Redis and MongoDB hold: the counter, if its key exists, and the tickets in insertion order. */
  datatype Store = Store(counter: Option<nat>, tickets: seq<string>)

  function TicketText(n: nat): string { "Q-" + Padded4(n) }

  /** The full number behind a ticket, 0 when the text is no ticket. */
  function Number(t: string): nat {
    if |t| > 2 && AllDigits(t[2..]) then Value(t[2..]) else 0
  }

  predicate IsTicket(t: string) { t == TicketText(Number(t)) }

  /** How many leading characters a digit verb of the given width takes. */
  function DigitRun(s: string, width: nat): (k: nat)
    ensures k <= |s| && k <= width && AllDigits(s[..k])
    ensures k < width && k < |s| ==> !IsDigit(s[k])
  {
    if width == 0 || s == [] || !IsDigit(s[0]) then 0
    else
      var k := 1 + DigitRun(s[1..], width - 1);
      assert s[..k] == [s[0]] + s[1..][..k - 1];
      k
  }

  /** Scanning with `Q-%04d`: the width makes the verb stop after four digits. */
  function Scan(t: string): Option<nat> {
    if |t| < 2 || t[..2] != "Q-" then None
    else
      var k := DigitRun(t[2..], 4);
      if k == 0 then None else Some(Value(t[2..][..k]))
  }

  /** The ticket that a descending string sort puts first. */
  function Greatest(tickets: seq<string>): (t: string)
    requires tickets != []
    ensures t in tickets
  {
    if |tickets| == 1 then tickets[0]
    else
      var rest := Greatest(tickets[1..]);
      if Less(rest, tickets[0]) then tickets[0] else rest
  }

  function LastKnown(tickets: seq<string>): nat {
    if tickets == [] then 0
    else match Scan(Greatest(tickets)) case Some(n) => n case None => 0
  }

  function Ensured(s: Store): Store {
    if s.counter.Some? then s else s.(counter := Some(LastKnown(s.tickets)))
  }

  function Lost(s: Store): Store { s.(counter := None) }

  /** A whole join; `collisions` counts the verify codes that were already taken. */
  function Joined(s: Store, collisions: nat): Store { Numbered(Ensured(s), collisions) }

  function Numbered(s: Store, collisions: nat): Store
    requires s.counter.Some?
  {
    var n := s.counter.value + 1;
    Store(Some(n), if collisions < MAX_VERIFY_CODE_ATTEMPTS then s.tickets + [TicketText(n)] else s.tickets)
  }

  /** The same operations as the service performs them, on its two stores. */
  class TicketDesk {
    var counter: Option<nat>
    var tickets: seq<string>

    function View(): Store
      reads this
    {
      Store(counter, tickets)
    }

    constructor ()
      ensures View() == Store(None, [])
    {
      counter, tickets := None, [];
    }

    method EnsureTicketCounter()
      modifies this
      ensures View() == Ensured(old(View()))
    {
      if counter.Some? { return; }
      var lastNum := 0;
      if tickets != [] {
        var parsed := Scan(Greatest(tickets));
        if parsed.Some? { lastNum := parsed.value; }
      }
      counter := Some(lastNum);
    }

    method NextTicket() returns (ticket: string)
      modifies this
      ensures var n := (match old(counter) case Some(c) => c case None => 0) + 1;
              ticket == TicketText(n) && View() == Store(Some(n), old(tickets))
    {
      var num := (match counter case Some(c) => c case None => 0) + 1;
      counter := Some(num);
      ticket := TicketText(num);
    }

    method CreateEntry(collisions: nat) returns (inserted: bool)
      modifies this
      ensures View() == Joined(old(View()), collisions)
      ensures inserted <==> collisions < 5
    {
      EnsureTicketCounter();
      var ticket := NextTicket();
      inserted := false;
      var attempt := 0;
      while attempt < MAX_VERIFY_CODE_ATTEMPTS && !inserted
        invariant attempt <= MAX_VERIFY_CODE_ATTEMPTS && counter == Joined(old(View()), collisions).counter
        invariant inserted <==> collisions < attempt
        invariant tickets == if inserted then old(tickets) + [ticket] else old(tickets)
        decreases MAX_VERIFY_CODE_ATTEMPTS - attempt, !inserted
      {
        if collisions <= attempt {
          tickets := tickets + [ticket];
          inserted := true;
        }
        attempt := attempt + 1;
      }
    }
  }

  // ----- Facts about one ticket

  lemma TicketNumber(n: nat)
    ensures Number(TicketText(n)) == n && IsTicket(TicketText(n))
  {
    assert TicketText(n)[2..] == Padded4(n);
    PaddedValue(n);
  }

  /** The scan undoes the print exactly up to 9999, and never yields more than four digits. */
  lemma ScanUndoesPrint(n: nat)
    ensures Scan(TicketText(n)).Some?
    ensures Scan(TicketText(n)).value <= 9999
    ensures Scan(TicketText(n)) == Some(n) <==> n <= 9999
  {
    var t := TicketText(n);
    var p := Padded4(n);
    assert t[..2] == "Q-" && t[2..] == p;
    PaddedWidth(n);
    PaddedValue(n);
    var k := DigitRun(p, 4);
    assert k == 4;
    ValueBound(p[..4]);
    if n <= 9999 { assert p[..4] == p; }
  }

  /** Up to 9999 the string order of tickets is the order of their numbers. */
  lemma TicketOrder(m: nat, n: nat)
    requires m <= 9999 && n <= 9999
    ensures Less(TicketText(m), TicketText(n)) <==> m < n
  {
    PaddedWidth(m);
    PaddedWidth(n);
    PaddedValue(m);
    PaddedValue(n);
    LessAfterPrefix("Q-", Padded4(m), Padded4(n));
    SameWidthOrder(Padded4(m), Padded4(n));
  }

  // ----- The stored tickets

  /** The highest number handed out among stored tickets. */
  function Top(tickets: seq<string>): nat {
    if tickets == [] then 0 else Number(tickets[|tickets| - 1])
  }

  /** Every stored text is a ticket, with a higher number than the one before it. */
  ghost predicate Increasing(tickets: seq<string>) {
    tickets != [] ==>
      var front, last := tickets[..|tickets| - 1], tickets[|tickets| - 1];
      Increasing(front) && IsTicket(last) && Number(last) > Top(front)
  }

  lemma {:induction false} IncreasingAt(tickets: seq<string>, i: nat)
    requires Increasing(tickets) && i < |tickets|
    ensures IsTicket(tickets[i]) && 1 <= Number(tickets[i]) <= Top(tickets)
    ensures i < |tickets| - 1 ==> Number(tickets[i]) < Top(tickets)
  {
    if i < |tickets| - 1 { IncreasingAt(tickets[..|tickets| - 1], i); }
  }

  lemma {:induction false} IncreasingBetween(tickets: seq<string>, i: nat, j: nat)
    requires Increasing(tickets) && i < j < |tickets|
    ensures Number(tickets[i]) < Number(tickets[j])
  {
    if j < |tickets| - 1 {
      IncreasingBetween(tickets[..|tickets| - 1], i, j);
    } else {
      IncreasingAt(tickets, i);
    }
  }

  lemma Appended(tickets: seq<string>, n: nat)
    requires Increasing(tickets) && Top(tickets) < n
    ensures Increasing(tickets + [TicketText(n)]) && Top(tickets + [TicketText(n)]) == n
  {
    TicketNumber(n);
    assert (tickets + [TicketText(n)])[..|tickets|] == tickets;
  }

  /** A string that no stored ticket exceeds is the one a descending sort puts first. */
  lemma {:induction false} GreatestBy(tickets: seq<string>, last: string)
    requires last in tickets
    requires forall i :: 0 <= i < |tickets| ==>
               tickets[i] == last || (Less(tickets[i], last) && !Less(last, tickets[i]))
    ensures Greatest(tickets) == last
  {
    if |tickets| > 1 && last in tickets[1..] { GreatestBy(tickets[1..], last); }
  }

  lemma GreatestIsLast(tickets: seq<string>)
    requires tickets != [] && Increasing(tickets) && Top(tickets) <= 9999
    ensures Greatest(tickets) == tickets[|tickets| - 1]
  {
    var last := tickets[|tickets| - 1];
    IncreasingAt(tickets, |tickets| - 1);
    forall i | 0 <= i < |tickets| - 1 ensures Less(tickets[i], last) && !Less(last, tickets[i]) {
      IncreasingAt(tickets, i);
      TicketOrder(Number(tickets[i]), Top(tickets));
      TicketOrder(Top(tickets), Number(tickets[i]));
    }
    GreatestBy(tickets, last);
  }

  lemma ScanOfTicket(t: string)
    requires IsTicket(t)
    ensures Scan(t).Some? && Scan(t).value <= 9999
    ensures Scan(t).value == Number(t) <==> Number(t) <= 9999
  {
    ScanUndoesPrint(Number(t));
  }

  lemma LastKnownExact(tickets: seq<string>)
    requires Increasing(tickets)
    ensures LastKnown(tickets) <= 9999
    ensures LastKnown(tickets) == Top(tickets) <==> Top(tickets) <= 9999
  {
    if tickets != [] {
      var i :| 0 <= i < |tickets| && tickets[i] == Greatest(tickets);
      IncreasingAt(tickets, i);
      ScanOfTicket(Greatest(tickets));
      if Top(tickets) <= 9999 { GreatestIsLast(tickets); }
    }
  }

  /** A lost counter is rebuilt to the true maximum exactly when that maximum has at most four digits. */
  lemma RebuildExact(s: Store)
    requires Increasing(s.tickets)
    ensures Ensured(Lost(s)).counter == Some(Top(s.tickets)) <==> Top(s.tickets) <= 9999
  {
    LastKnownExact(s.tickets);
  }

  /** After a loss the next ticket is higher than every stored one exactly when all have at most four digits. */
  lemma NextTicketAfterLoss(s: Store)
    requires Increasing(s.tickets)
    ensures Top(Joined(Lost(s), 0).tickets) > Top(s.tickets) <==> Top(s.tickets) <= 9999
  {
    LastKnownExact(s.tickets);
    TicketNumber(LastKnown(s.tickets) + 1);
  }

  lemma NineThousandsSortLast()
    ensures Less(TicketText(10000), TicketText(9999)) && !Less(TicketText(9999), TicketText(10000))
  {
  }

  lemma AfterGreatest(s: Store, a: string, b: string)
    requires s.tickets == [a, b] && Less(b, a) && !Less(a, b) && IsTicket(a) && Number(a) <= 9999
    ensures Joined(Lost(s), 0).tickets == s.tickets + [TicketText(Number(a) + 1)]
  {
    GreatestBy(s.tickets, a);
    ScanOfTicket(a);
  }

  lemma NineThenTen(m: nat, a: string, b: string)
    requires m == 9999 && a == TicketText(m) && b == TicketText(m + 1)
    ensures Increasing([a] + [b]) && Less(b, a) && !Less(a, b) && IsTicket(a) && Number(a) == m
  {
    NineThousandsSortLast();
    Appended([], m);
    Appended([a], m + 1);
    TicketNumber(m);
    assert [] + [a] == [a];
  }

  /** What happens outside that condition: with 9999 and 10000 stored, 10000 is handed out again. */
  lemma DuplicateTicketBeyondFourDigits(s: Store, m: nat)
    requires m == 9999 && s.tickets == [TicketText(m), TicketText(m + 1)]
    ensures Increasing(s.tickets)
    ensures Joined(Lost(s), 0).tickets == s.tickets + [TicketText(m + 1)]
  {
    NineThenTen(m, s.tickets[0], s.tickets[1]);
    assert s.tickets == [s.tickets[0]] + [s.tickets[1]];
    AfterGreatest(s, s.tickets[0], s.tickets[1]);
  }

  // ----- Runs of whole joins and losses

  datatype Step = Join(collisions: nat) | LoseCounter

  function Apply(s: Store, step: Step): Store {
    match step
    case Join(c) => Joined(s, c)
    case LoseCounter => Lost(s)
  }

  /** A loss may strike only while the highest stored number has at most four digits. */
  predicate Allowed(s: Store, step: Step) { step.LoseCounter? ==> Top(s.tickets) <= 9999 }

  predicate Possible(s: Store, steps: seq<Step>)
    decreases |steps|
  {
    steps == [] || (Allowed(s, steps[0]) && Possible(Apply(s, steps[0]), steps[1..]))
  }

  function After(s: Store, steps: seq<Step>): Store
    decreases |steps|
  {
    if steps == [] then s else After(Apply(s, steps[0]), steps[1..])
  }

  /** The counter covers every stored ticket; without a counter the rebuild must be exact. */
  ghost predicate Sound(s: Store) {
    && Increasing(s.tickets)
    && (match s.counter case Some(c) => Top(s.tickets) <= c case None => Top(s.tickets) <= 9999)
  }

  lemma EnsuredSound(s: Store)
    requires Sound(s)
    ensures Sound(Ensured(s)) && Ensured(s).counter.Some? && Ensured(s).tickets == s.tickets
  {
    LastKnownExact(s.tickets);
  }

  lemma NumberedSound(s: Store, collisions: nat)
    requires Sound(s) && s.counter.Some?
    ensures Sound(Numbered(s, collisions))
  {
    var n := s.counter.value + 1;
    var t := Numbered(s, collisions);
    if collisions < MAX_VERIFY_CODE_ATTEMPTS {
      Appended(s.tickets, n);
      assert t.tickets == s.tickets + [TicketText(n)];
    } else {
      assert t.tickets == s.tickets;
    }
  }

  lemma StepKeepsSound(s: Store, step: Step)
    requires Sound(s) && Allowed(s, step)
    ensures Sound(Apply(s, step))
  {
    if step.Join? {
      EnsuredSound(s);
      NumberedSound(Ensured(s), step.collisions);
    }
  }

  lemma {:induction false} RunKeepsSound(s: Store, steps: seq<Step>)
    requires Sound(s) && Possible(s, steps)
    ensures Sound(After(s, steps))
    decreases |steps|
  {
    if steps != [] {
      StepKeepsSound(s, steps[0]);
      RunKeepsSound(Apply(s, steps[0]), steps[1..]);
    }
  }

  /** Over every run from an empty queue the stored tickets are pairwise distinct and strictly increasing. */
  lemma TicketsSurviveCounterLoss(steps: seq<Step>)
    requires Possible(Store(None, []), steps)
    ensures var tickets := After(Store(None, []), steps).tickets;
            && (forall i, j :: 0 <= i < j < |tickets| ==>
                  tickets[i] != tickets[j] && Number(tickets[i]) < Number(tickets[j]))
            && (forall i :: 0 <= i < |tickets| ==> IsTicket(tickets[i]))
  {
    RunKeepsSound(Store(None, []), steps);
    var tickets := After(Store(None, []), steps).tickets;
    forall i, j | 0 <= i < j < |tickets| ensures Number(tickets[i]) < Number(tickets[j]) {
      IncreasingBetween(tickets, i, j);
    }
    forall i | 0 <= i < |tickets| ensures IsTicket(tickets[i]) { IncreasingAt(tickets, i); }
  }

  // ----- What a join hands out

  lemma {:induction false} GreatestIsGreatest(tickets: seq<string>, t: string)
    requires t in tickets
    ensures !Less(Greatest(tickets), t)
  {
    var g := Greatest(tickets);
    LessIrreflexive(g);
    if |tickets| > 1 {
      var rest := Greatest(tickets[1..]);
      if t in tickets[1..] {
        GreatestIsGreatest(tickets[1..], t);
        if Less(rest, tickets[0]) && Less(tickets[0], t) { LessTransitive(rest, tickets[0], t); }
      } else {
        assert t == tickets[0];
        LessTotal(rest, t);
      }
    }
  }

  /** A join takes the number after the counter, or after the last known one if the counter is lost. */
  lemma JoinMeans(s: Store, collisions: nat)
    ensures var n := 1 + (if s.counter.Some? then s.counter.value else LastKnown(s.tickets));
            Joined(s, collisions)
            == Store(Some(n), s.tickets + if collisions < 5 then [TicketText(n)] else [])
  {
  }

  lemma TicketsSpelled()
    ensures TicketText(7) == "Q-0007" && TicketText(42) == "Q-0042"
  {
    assert Decimal(4) == "4" && Decimal(42) == Decimal(4) + "2";
  }

  /** The i-th ticket carries the number i + 1. */
  ghost predicate FromOne(tickets: seq<string>) {
    forall i :: 0 <= i < |tickets| ==> tickets[i] == TicketText(i + 1)
  }

  ghost predicate Counting(tickets: seq<string>) {
    Increasing(tickets) && Top(tickets) == |tickets| && FromOne(tickets)
  }

  /** Besides, the counter, where there is one, is the last number, and a lost one can still be rebuilt. */
  ghost predicate Consecutive(s: Store) {
    Counting(s.tickets) && (match s.counter case Some(c) => c == |s.tickets| case None => |s.tickets| <= 9999)
  }

  lemma FromOneMore(tickets: seq<string>, t: string)
    requires FromOne(tickets) && t == TicketText(|tickets| + 1)
    ensures FromOne(tickets + [t])
  {
  }

  lemma CountingMore(tickets: seq<string>, n: nat)
    requires Counting(tickets) && n == |tickets| + 1
    ensures Counting(tickets + [TicketText(n)])
  {
    Appended(tickets, n);
    FromOneMore(tickets, TicketText(n));
  }

  lemma JoinNumber(s: Store, collisions: nat)
    requires Consecutive(s) && collisions < 5
    ensures Joined(s, collisions) == Store(Some(|s.tickets| + 1), s.tickets + [TicketText(|s.tickets| + 1)])
  {
    LastKnownExact(s.tickets);
    JoinMeans(s, collisions);
  }

  lemma JoinConsecutive(s: Store, collisions: nat)
    requires Consecutive(s) && collisions < 5
    ensures Consecutive(Joined(s, collisions))
  {
    JoinNumber(s, collisions);
    CountingMore(s.tickets, |s.tickets| + 1);
  }

  lemma {:induction false} RunConsecutive(s: Store, steps: seq<Step>)
    requires Consecutive(s) && Possible(s, steps)
    requires forall i :: 0 <= i < |steps| ==> steps[i].Join? ==> steps[i].collisions < 5
    ensures Consecutive(After(s, steps))
    decreases |steps|
  {
    if steps != [] {
      if steps[0].Join? { JoinConsecutive(s, steps[0].collisions); }
      RunConsecutive(Apply(s, steps[0]), steps[1..]);
    }
  }

  /** While no join gives up, losses of the counter leave no gap: the guests get the tickets 1, 2, 3 and so on. */
  lemma NoGaps(steps: seq<Step>)
    requires Possible(Store(None, []), steps)
    requires forall i :: 0 <= i < |steps| ==> steps[i].Join? ==> steps[i].collisions < 5
    ensures var tickets := After(Store(None, []), steps).tickets;
            forall i :: 0 <= i < |tickets| ==> tickets[i] == TicketText(i + 1)
  {
    RunConsecutive(Store(None, []), steps);
  }
}

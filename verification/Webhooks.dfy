/**
 Webhook deliveries from the payment provider: which are handled, which are skipped as repeats, and what the
 ledger holds after any sequence of them. Times are in seconds.
 */
module Webhooks {
  import opened Text
  import opened Billing

  const KEY_LIFE := 72 * 3600

  /** `event` is None when the signature does not verify; `id` is the webhook-id header, possibly empty. */
  datatype Delivery = Delivery(id: string, event: Option<Event>, st: Stamp)

  datatype Reply = Handled | Repeated | Unauthorized | NoHost

  /** `keys` gives each idempotency key's moment of expiry. */
  datatype Desk = Desk(keys: map<string, int>, books: Books)

  predicate Admissible(x: Delivery) { x.event.Some? && x.event.value.host != "" }

  predicate Remembered(keys: map<string, int>, id: string, now: int) { id in keys && now < keys[id] }

  predicate Accepts(d: Desk, x: Delivery) { Admissible(x) && (x.id != "" ==> !Remembered(d.keys, x.id, x.st.now)) }

  function Received(d: Desk, x: Delivery): Desk {
    if !Accepts(d, x) then d
    else
      Desk(if x.id == "" then d.keys else d.keys[x.id := x.st.now + KEY_LIFE],
           Processed(d.books, x.event.value, x.st))
  }

  class WebhookHandler {
    const svc: BillingService
    var keys: map<string, int>

    function View(): Desk
      reads this, svc
    {
      Desk(keys, svc.View())
    }

    constructor (svc: BillingService)
      ensures this.svc == svc && keys == map[]
    {
      this.svc, keys := svc, map[];
    }

    method HandleWebhook(x: Delivery) returns (reply: Reply)
      modifies this, svc
      ensures View() == Received(old(View()), x)
      ensures reply == Handled <==> Accepts(old(View()), x)
      ensures reply == Unauthorized <==> x.event.None?
      ensures reply == NoHost <==> x.event.Some? && x.event.value.host == ""
    {
      if x.event.None? { return Unauthorized; }
      var event := x.event.value;
      if event.host == "" { return NoHost; }
      if x.id != "" {
        if x.id in keys && x.st.now < keys[x.id] { return Repeated; }
        keys := keys[x.id := x.st.now + KEY_LIFE];
      }
      svc.ProcessBillingEvent(event, x.st);
      return Handled;
    }
  }

  // ----- Runs of deliveries, with hosts opening checkouts in between

  datatype Arrival = Hook(x: Delivery) | Checkout(host: HostId, planId: PlanId, session: string, txId: string)

  function Met(d: Desk, a: Arrival): Desk {
    match a
    case Hook(x) => Received(d, x)
    case Checkout(host, planId, session, txId) => d.(books := WithTx(d.books, PendingTx(host, planId, session, txId)))
  }

  function After(d: Desk, xs: seq<Arrival>): Desk {
    if xs == [] then d else Met(After(d, xs[..|xs| - 1]), xs[|xs| - 1])
  }

  /** An admissible delivery under this id. */
  predicate Carries(a: Arrival, id: string) { a.Hook? && Admissible(a.x) && a.x.id == id }

  /** The i-th arrival is a delivery under this id, and it is accepted. */
  predicate AcceptedAt(d: Desk, xs: seq<Arrival>, i: nat, id: string) {
    i < |xs| && Carries(xs[i], id) && Accepts(After(d, xs[..i]), xs[i].x)
  }

  /** Once a delivery is accepted, its key stands until at least the key's life after it. */
  lemma {:induction false} KeyStands(d: Desk, xs: seq<Arrival>, i: nat, id: string)
    requires id != "" && AcceptedAt(d, xs, i, id)
    ensures id in After(d, xs).keys && After(d, xs).keys[id] >= xs[i].x.st.now + KEY_LIFE
  {
    var n := |xs| - 1;
    if i < n {
      assert xs[..n][..i] == xs[..i];
      KeyStands(d, xs[..n], i, id);
    }
  }

  /** At most once in any 72 hours: two accepted deliveries of one id are at least the key's life apart. */
  lemma AcceptedApart(d: Desk, xs: seq<Arrival>, i: nat, j: nat, id: string)
    requires id != "" && i < j && AcceptedAt(d, xs, i, id) && AcceptedAt(d, xs, j, id)
    ensures xs[j].x.st.now - xs[i].x.st.now >= 259200
  {
    assert xs[..j][..i] == xs[..i];
    KeyStands(d, xs[..j], i, id);
  }

  /** The key an accepted delivery sets lasts exactly the key's life while its own id is not accepted again. */
  lemma {:induction false} KeyExact(d: Desk, xs: seq<Arrival>, i: nat, id: string)
    requires id != "" && AcceptedAt(d, xs, i, id)
    requires forall j: nat :: i < j < |xs| && Carries(xs[j], id) ==> xs[j].x.st.now < xs[i].x.st.now + KEY_LIFE
    ensures id in After(d, xs).keys && After(d, xs).keys[id] == xs[i].x.st.now + KEY_LIFE
  {
    var n := |xs| - 1;
    if i < n {
      assert xs[..n][..i] == xs[..i];
      KeyExact(d, xs[..n], i, id);
    }
  }

  /**
   A repeat of an accepted delivery is skipped exactly when it comes within the key's life; after that it is
   processed again.
   */
  lemma RepeatExact(d: Desk, xs: seq<Arrival>, i: nat, y: Delivery)
    requires y.id != "" && Admissible(y) && AcceptedAt(d, xs, i, y.id)
    requires forall j: nat :: i < j < |xs| && Carries(xs[j], y.id) ==> xs[j].x.st.now < xs[i].x.st.now + KEY_LIFE
    ensures Accepts(After(d, xs), y) <==> y.st.now - xs[i].x.st.now >= 259200
  {
    KeyExact(d, xs, i, y.id);
  }

  // ----- Repeats change nothing

  predicate Unseen(xs: seq<Arrival>, id: string) {
    xs == [] || (!Carries(xs[|xs| - 1], id) && Unseen(xs[..|xs| - 1], id))
  }

  /** Checkouts, and the admissible deliveries: of each id only the first, and all of those without an id. */
  function Firsts(xs: seq<Arrival>): seq<Arrival> {
    if xs == [] then []
    else
      var before, a := xs[..|xs| - 1], xs[|xs| - 1];
      if a.Checkout? || (Admissible(a.x) && (a.x.id == "" || Unseen(before, a.x.id)))
      then Firsts(before) + [a] else Firsts(before)
  }

  /** What an arrival does to the books when no keys are looked at. */
  function Booked(b: Books, a: Arrival): Books {
    match a
    case Hook(x) => if Admissible(x) then Processed(b, x.event.value, x.st) else b
    case Checkout(host, planId, session, txId) => WithTx(b, PendingTx(host, planId, session, txId))
  }

  function BookedAll(b: Books, ys: seq<Arrival>): Books {
    if ys == [] then b else Booked(BookedAll(b, ys[..|ys| - 1]), ys[|ys| - 1])
  }

  /** No delivery of the run is remembered from before it. */
  predicate NoneRemembered(keys: map<string, int>, xs: seq<Arrival>) {
    forall i :: 0 <= i < |xs| && xs[i].Hook? && xs[i].x.id != "" ==> !Remembered(keys, xs[i].x.id, xs[i].x.st.now)
  }

  predicate RecentFor(xs: seq<Arrival>, id: string, now: int) {
    forall i :: 0 <= i < |xs| && Carries(xs[i], id) ==> now < xs[i].x.st.now + KEY_LIFE
  }

  /** Deliveries of one id lie within the key's life of each other; the run as a whole may be of any length. */
  predicate RepeatsInTime(xs: seq<Arrival>) {
    xs == []
    || (RepeatsInTime(xs[..|xs| - 1])
        && (xs[|xs| - 1].Hook? && xs[|xs| - 1].x.id != "" ==>
              RecentFor(xs[..|xs| - 1], xs[|xs| - 1].x.id, xs[|xs| - 1].x.st.now)))
  }

  lemma {:induction false} RemembersSeen(d: Desk, xs: seq<Arrival>, id: string, now: int)
    requires NoneRemembered(d.keys, xs) && RepeatsInTime(xs)
    requires id != "" && !Remembered(d.keys, id, now) && RecentFor(xs, id, now)
    ensures Remembered(After(d, xs).keys, id, now) <==> !Unseen(xs, id)
  {
    if xs != [] {
      var n := |xs| - 1;
      assert NoneRemembered(d.keys, xs[..n]);
      assert RecentFor(xs[..n], id, now);
      RemembersSeen(d, xs[..n], id, now);
      if Carries(xs[n], id) { RemembersSeen(d, xs[..n], id, xs[n].x.st.now); }
    }
  }

  /**
   Whatever the books and however long the run: when each id repeats only within 72 hours and none is remembered from
   before, the books are left as the first occurrences alone would leave them.
   */
  lemma {:induction false} RepeatsChangeNothing(d: Desk, xs: seq<Arrival>)
    requires NoneRemembered(d.keys, xs) && RepeatsInTime(xs)
    ensures After(d, xs).books == BookedAll(d.books, Firsts(xs))
  {
    if xs != [] {
      var n := |xs| - 1;
      assert NoneRemembered(d.keys, xs[..n]);
      RepeatsChangeNothing(d, xs[..n]);
      if xs[n].Hook? && xs[n].x.id != "" { RemembersSeen(d, xs[..n], xs[n].x.id, xs[n].x.st.now); }
      assert Firsts(xs) != Firsts(xs[..n]) ==> Firsts(xs)[..|Firsts(xs)| - 1] == Firsts(xs[..n]);
    }
  }

  // ----- The ledger

  predicate IsPayment(a: Arrival) { a.Hook? && Admissible(a.x) && a.x.event.value.kind == PaymentSucceeded }

  function Payments(ys: seq<Arrival>): (ps: seq<Arrival>)
    ensures forall p :: p in ps ==> p in ys && IsPayment(p)
  {
    if ys == [] then []
    else Payments(ys[..|ys| - 1]) + if IsPayment(ys[|ys| - 1]) then [ys[|ys| - 1]] else []
  }

  function SucceededOnly(txs: seq<Transaction>): seq<Transaction> {
    if txs == [] then []
    else SucceededOnly(txs[..|txs| - 1]) + if txs[|txs| - 1].status == Succeeded then [txs[|txs| - 1]] else []
  }

  // The ids an arrival draws.

  function TxIdOf(a: Arrival): string { if a.Hook? then a.x.st.txId else a.txId }

  function RecordIdOf(a: Arrival): Option<string> { if a.Hook? then Some(a.x.st.recordId) else None }

  predicate NewTo(b: Books, a: Arrival) {
    && (forall t :: t in b.txs ==> t.id != TxIdOf(a))
    && (forall r :: r in b.records ==> Some(r.id) != RecordIdOf(a))
  }

  predicate OtherIds(ys: seq<Arrival>, a: Arrival) {
    forall i :: 0 <= i < |ys| ==>
      TxIdOf(ys[i]) != TxIdOf(a) && (a.Hook? ==> RecordIdOf(ys[i]) != RecordIdOf(a))
  }

  /** The ids drawn are new to the ledger at the start and pairwise distinct. */
  predicate FreshIds(b: Books, ys: seq<Arrival>) {
    ys == []
    || (NewTo(b, ys[|ys| - 1]) && OtherIds(ys[..|ys| - 1], ys[|ys| - 1]) && FreshIds(b, ys[..|ys| - 1]))
  }

  /** The record and the transaction a payment was booked as. */
  predicate BookedAs(r: Record, t: Transaction, p: Arrival) {
    && IsPayment(p)
    && var e, st := p.x.event.value, p.x.st;
    && r.txId == t.id == st.txId && r.id == st.recordId
    && r.host == t.host == e.host && r.planId == t.planId == e.planId
    && r.amount == t.total == e.total && t.amount == e.amount && t.paymentId == e.paymentId
  }

  predicate Extends<T(==)>(old': seq<T>, new': seq<T>, k: nat) { |new'| == |old'| + k && new'[..|old'|] == old' }

  /** From m and n on, the records and transactions are those of the payments, one each, in order. */
  predicate Matched(rs: seq<Record>, m: nat, ts: seq<Transaction>, n: nat, ps: seq<Arrival>) {
    && |rs| == m + |ps| && |ts| == n + |ps|
    && forall k :: 0 <= k < |ps| ==> BookedAs(rs[m + k], ts[n + k], ps[k])
  }

  /** What `b'` adds to `b`: the k-th record and succeeded transaction are the k-th payment's, and no others. */
  predicate LedgerAdds(b: Books, b': Books, ps: seq<Arrival>) {
    && Extends(b.records, b'.records, |ps|)
    && Extends(SucceededOnly(b.txs), SucceededOnly(b'.txs), |ps|)
    && Matched(b'.records, |b.records|, SucceededOnly(b'.txs), |SucceededOnly(b.txs)|, ps)
  }

  /** The transactions and records an arrival adds. */
  function Entries(a: Arrival): seq<Transaction> {
    match a
    case Checkout(host, planId, session, txId) => [PendingTx(host, planId, session, txId)]
    case Hook(x) =>
      if !Admissible(x) then [] else EventEntries(x.event.value, x.st)
  }

  function EventEntries(e: Event, st: Stamp): seq<Transaction> {
    match e.kind
    case PaymentSucceeded => [SucceededTx(e, st)]
    case PaymentFailed => [FailedTx(e, st, e.amount, FailureReason(e.kind))]
    case SubscriptionFailed => [FailedTx(e, st, e.amount, FailureReason(e.kind))]
    case SubscriptionCancelled => [FailedTx(e, st, 0, "cancelled")]
    case _ => []
  }

  function Bills(b: Books, a: Arrival): seq<Record> {
    if IsPayment(a) then [RecordOf(b, a.x.event.value, a.x.st)] else []
  }

  predicate TxIdTaken(b: Books, st: Stamp) { exists t :: t in b.txs && t.id == st.txId }

  predicate RecordIdTaken(b: Books, st: Stamp) { exists r :: r in b.records && r.id == st.recordId }

  /**
   Each insert of a payment fails, unnoticed, exactly when its drawn id is taken. So the payment is booked as one
   transaction with its record exactly when both ids are new; when one is taken, the other half is booked alone.
   */
  lemma PaymentBookedExact(b: Books, e: Event, st: Stamp)
    ensures PaymentHandled(b, e, st).txs == b.txs + if TxIdTaken(b, st) then [] else [SucceededTx(e, st)]
    ensures PaymentHandled(b, e, st).records == b.records + if RecordIdTaken(b, st) then [] else [RecordOf(b, e, st)]
  {
    var b1 := WithTx(b, SucceededTx(e, st));
    var b2 := WithRecord(b1, RecordOf(b, e, st));
    assert b1.records == b.records && b2.txs == b1.txs;
    assert PaymentHandled(b, e, st).txs == b2.txs && PaymentHandled(b, e, st).records == b2.records;
  }

  lemma FailureAppends(b: Books, e: Event, st: Stamp)
    requires !TxIdTaken(b, st)
    ensures FailedPaymentHandled(b, e, st).records == b.records
    ensures FailedPaymentHandled(b, e, st).txs == b.txs + [FailedTx(e, st, e.amount, FailureReason(e.kind))]
  {
  }

  lemma CancellationAppends(b: Books, e: Event, st: Stamp)
    requires !TxIdTaken(b, st)
    ensures CancellationHandled(b, e, st).records == b.records
    ensures CancellationHandled(b, e, st).txs == b.txs + [FailedTx(e, st, 0, "cancelled")]
  {
  }

  lemma StateUpdateAppendsNothing(b: Books, e: Event, st: Stamp)
    ensures StateUpdateHandled(b, e, st).txs == b.txs && StateUpdateHandled(b, e, st).records == b.records
  {
  }

  lemma UpdateAppendsNothing(b: Books, e: Event)
    ensures UpdateHandled(b, e).txs == b.txs && UpdateHandled(b, e).records == b.records
  {
  }

  lemma EventAppends(b: Books, e: Event, st: Stamp)
    requires !TxIdTaken(b, st) && !RecordIdTaken(b, st)
    ensures Processed(b, e, st).txs == b.txs + EventEntries(e, st)
    ensures Processed(b, e, st).records == b.records + if e.kind == PaymentSucceeded then [RecordOf(b, e, st)] else []
  {
    var b1 := Invalidated(b, e.host);
    assert b1.txs == b.txs && b1.records == b.records && b1.plans == b.plans;
    match e.kind
    case PaymentSucceeded => PaymentBookedExact(b1, e, st);
    case PaymentFailed => FailureAppends(b1, e, st);
    case SubscriptionFailed => FailureAppends(b1, e, st);
    case SubscriptionCancelled => CancellationAppends(b1, e, st);
    case Unrecognized =>
    case SubscriptionUpdated => UpdateAppendsNothing(b1, e);
    case _ => StateUpdateAppendsNothing(b1, e, st);
  }

  lemma ArrivalAppends(b: Books, a: Arrival)
    requires NewTo(b, a)
    ensures Booked(b, a).txs == b.txs + Entries(a) && Booked(b, a).records == b.records + Bills(b, a)
  {
    if a.Hook? && Admissible(a.x) { EventAppends(b, a.x.event.value, a.x.st); }
  }

  /** Ids drawn by nobody so far are not in the ledger. */
  lemma {:induction false} StaysNew(b: Books, ys: seq<Arrival>, a: Arrival)
    requires FreshIds(b, ys) && NewTo(b, a) && OtherIds(ys, a)
    ensures NewTo(BookedAll(b, ys), a)
  {
    if ys != [] {
      var n := |ys| - 1;
      StaysNew(b, ys[..n], a);
      StaysNew(b, ys[..n], ys[n]);
      ArrivalAppends(BookedAll(b, ys[..n]), ys[n]);
    }
  }

  lemma SucceededMore(txs: seq<Transaction>, more: seq<Transaction>)
    requires |more| <= 1
    ensures SucceededOnly(txs + more) == SucceededOnly(txs) + SucceededOnly(more)
  {
    if more == [] { assert txs + more == txs; } else { assert (txs + more)[..|txs|] == txs; }
  }

  lemma MatchedMore(
    rs: seq<Record>, m: nat, ts: seq<Transaction>, n: nat, ps: seq<Arrival>, r: Record, t: Transaction, p: Arrival)
    requires Matched(rs, m, ts, n, ps) && BookedAs(r, t, p)
    ensures Matched(rs + [r], m, ts + [t], n, ps + [p])
  {
  }

  lemma LedgerStep(b: Books, b1: Books, b2: Books, ps: seq<Arrival>, a: Arrival)
    requires LedgerAdds(b, b1, ps)
    requires b2.txs == b1.txs + Entries(a) && b2.records == b1.records + Bills(b1, a)
    ensures LedgerAdds(b, b2, if IsPayment(a) then ps + [a] else ps)
  {
    SucceededMore(b1.txs, Entries(a));
    if IsPayment(a) {
      var r, t := RecordOf(b1, a.x.event.value, a.x.st), SucceededTx(a.x.event.value, a.x.st);
      assert SucceededOnly([t]) == [t];
      MatchedMore(b1.records, |b.records|, SucceededOnly(b1.txs), |SucceededOnly(b.txs)|, ps, r, t, a);
    } else {
      assert SucceededOnly(Entries(a)) == [];
      assert b2.records == b1.records && SucceededOnly(b2.txs) == SucceededOnly(b1.txs);
    }
  }

  /** Relative to any ledger at the start. */
  lemma {:induction false} LedgerFollowsPayments(b: Books, ys: seq<Arrival>)
    requires FreshIds(b, ys)
    ensures LedgerAdds(b, BookedAll(b, ys), Payments(ys))
  {
    if ys != [] {
      var n := |ys| - 1;
      LedgerFollowsPayments(b, ys[..n]);
      StaysNew(b, ys[..n], ys[n]);
      ArrivalAppends(BookedAll(b, ys[..n]), ys[n]);
      LedgerStep(b, BookedAll(b, ys[..n]), BookedAll(b, ys), Payments(ys[..n]), ys[n]);
    }
  }

  /** One payment keeps the one-to-one match exactly when both ids drawn for it are new to the ledger. */
  lemma MatchExact(b: Books, a: Arrival)
    requires IsPayment(a)
    ensures LedgerAdds(b, Booked(b, a), [a]) <==> NewTo(b, a)
  {
    var e, st := a.x.event.value, a.x.st;
    PaymentBookedExact(Invalidated(b, e.host), e, st);
    SucceededMore(b.txs, if TxIdTaken(b, st) then [] else [SucceededTx(e, st)]);
    if NewTo(b, a) {
      assert [] + [a] == [a];
      ArrivalAppends(b, a);
      LedgerStep(b, b, Booked(b, a), [], a);
    }
  }

  predicate DistinctIds(ys: seq<Arrival>) {
    forall i, j :: 0 <= i < j < |ys| && ys[i].Hook? && ys[j].Hook? && ys[i].x.id != "" ==> ys[i].x.id != ys[j].x.id
  }

  lemma {:induction false} SeenIfFirst(xs: seq<Arrival>, a: Arrival)
    requires a in Firsts(xs) && a.Hook?
    ensures !Unseen(xs, a.x.id)
  {
    var n := |xs| - 1;
    if a in Firsts(xs[..n]) { SeenIfFirst(xs[..n], a); }
  }

  lemma {:induction false} FirstsDistinct(xs: seq<Arrival>)
    ensures DistinctIds(Firsts(xs))
  {
    if xs != [] {
      var n := |xs| - 1;
      var before := Firsts(xs[..n]);
      FirstsDistinct(xs[..n]);
      if xs[n].Hook? {
        forall i | 0 <= i < |before| && before[i].Hook? ensures !Unseen(xs[..n], before[i].x.id) {
          SeenIfFirst(xs[..n], before[i]);
        }
      }
    }
  }

  lemma {:induction false} PaymentsDistinct(ys: seq<Arrival>)
    requires DistinctIds(ys)
    ensures DistinctIds(Payments(ys))
  {
    if ys != [] {
      var n := |ys| - 1;
      assert DistinctIds(ys[..n]);
      PaymentsDistinct(ys[..n]);
      forall p | p in Payments(ys[..n]) && ys[n].Hook? && p.x.id != "" ensures p.x.id != ys[n].x.id {
        var i :| 0 <= i < n && ys[i] == p;
      }
    }
  }

  /**
   From any ledger, over any run of deliveries and checkouts in which each id repeats only within 72 hours: the billing
   records added, the succeeded transactions added and the first deliveries of payment.succeeded events correspond one
   to one, in order and in their amounts, and no webhook id occurs twice among those payments.
   */
  lemma LedgerMatchesPayments(d: Desk, xs: seq<Arrival>)
    requires NoneRemembered(d.keys, xs) && RepeatsInTime(xs) && FreshIds(d.books, Firsts(xs))
    ensures LedgerAdds(d.books, After(d, xs).books, Payments(Firsts(xs)))
    ensures DistinctIds(Payments(Firsts(xs)))
  {
    FirstsDistinct(xs);
    PaymentsDistinct(Firsts(xs));
    RepeatsChangeNothing(d, xs);
    LedgerFollowsPayments(d.books, Firsts(xs));
  }
}

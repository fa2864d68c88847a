/** The topic registry: who is subscribed to what, and what publishing, unsubscribing and shutdown do to it. */
module Brokers {
  import opened EventStream
  import opened Subscribers

  function BufferSize(overloaded: bool): nat { if overloaded then 4 else 16 }

  function Members<T>(topics: map<string, seq<T>>, topic: string): seq<T> {
    if topic in topics then topics[topic] else []
  }

  ghost predicate Distinct<T>(xs: seq<T>) { forall i, j :: 0 <= i < j < |xs| ==> xs[i] != xs[j] }

  lemma OthersDiffer<T>(xs: seq<T>, i: nat)
    requires i < |xs| && Distinct(xs)
    ensures forall k :: 0 <= k < |xs| && k != i ==> xs[k] != xs[i]
  {
  }

  /** Removal by overwriting with the last element and shortening by one. */
  function SwapRemove<T>(subs: seq<T>, i: nat): (r: seq<T>)
    requires i < |subs|
  {
    subs[i := subs[|subs| - 1]][..|subs| - 1]
  }

  function IndexOf<T(==)>(subs: seq<T>, x: T): (i: nat)
    ensures i <= |subs| && (i < |subs| <==> x in subs) && (i < |subs| ==> subs[i] == x)
    ensures x !in subs[..i]
  {
    if subs == [] || subs[0] == x then 0
    else
      var i := 1 + IndexOf(subs[1..], x);
      assert subs[..i] == [subs[0]] + subs[1..][..i - 1];
      i
  }

  function Removed<T(==)>(topics: map<string, seq<T>>, topic: string, x: T): map<string, seq<T>>
    requires topic in topics && x in topics[topic]
  {
    var rest := SwapRemove(topics[topic], IndexOf(topics[topic], x));
    if rest == [] then topics - {topic} else topics[topic := rest]
  }

  /** Swap-removal drops one occurrence and keeps all the others. */
  lemma SwapRemoveKeepsOthers<T>(subs: seq<T>, i: nat)
    requires i < |subs|
    ensures multiset(SwapRemove(subs, i)) == multiset(subs) - multiset{subs[i]}
  {
    var n := |subs| - 1;
    var r := SwapRemove(subs, i);
    assert subs == subs[..n] + [subs[n]];
    if i < n {
      assert r == subs[..i] + [subs[n]] + subs[i + 1..n];
      assert subs == subs[..i] + [subs[i]] + subs[i + 1..n] + [subs[n]];
    } else {
      assert r == subs[..n];
    }
  }

  /** In a duplicate-free list it removes exactly the one member and keeps the list duplicate-free. */
  lemma SwapRemoveFromDistinct<T>(subs: seq<T>, i: nat)
    requires i < |subs| && Distinct(subs)
    ensures Distinct(SwapRemove(subs, i))
    ensures forall x :: x in SwapRemove(subs, i) <==> x in subs && x != subs[i]
  {
    var r := SwapRemove(subs, i);
    forall x ensures x in r <==> x in subs && x != subs[i] {
      if x in subs && x != subs[i] {
        var k :| 0 <= k < |subs| && subs[k] == x;
        assert r[if k == |subs| - 1 then i else k] == x;
      }
      if x in r {
        var k :| 0 <= k < |r| && r[k] == x;
        assert x == subs[if k == i then |subs| - 1 else k];
      }
    }
  }

  /** Removal from the registry takes out exactly one membership and never leaves an empty list behind. */
  lemma RemovedKeepsOthers<T>(topics: map<string, seq<T>>, topic: string, x: T)
    requires topic in topics && x in topics[topic] && Distinct(topics[topic])
    ensures var topics' := Removed(topics, topic, x);
            && (forall tp :: tp in topics && tp != topic ==> tp in topics' && topics'[tp] == topics[tp])
            && (forall tp :: tp in topics' ==> tp in topics)
            && (topic in topics' ==> topics'[topic] != [] && Distinct(topics'[topic]))
            && (forall y :: (topic in topics' && y in topics'[topic]) <==> y in topics[topic] && y != x)
  {
    SwapRemoveFromDistinct(topics[topic], IndexOf(topics[topic], x));
  }

  ghost predicate ListedOnce<T>(topics: map<string, seq<T>>) {
    forall tp, tp', x | tp in topics && tp' in topics && x in topics[tp] && x in topics[tp'] :: tp == tp'
  }

  lemma RemovedListedOnce<T>(topics: map<string, seq<T>>, topic: string, x: T)
    requires topic in topics && x in topics[topic] && Distinct(topics[topic]) && ListedOnce(topics)
    ensures ListedOnce(Removed(topics, topic, x))
    ensures forall tp, y :: tp in Removed(topics, topic, x) && y in Removed(topics, topic, x)[tp] ==>
              tp in topics && y in topics[tp] && y != x
  {
  }

  class Broker {
    var subs: map<string, seq<Subscriber>>
    var closed: bool

    ghost function All(): set<Subscriber>
      reads this
    {
      set topic, sub | topic in subs && sub in subs[topic] :: sub
    }

    /** Every listed subscriber is open and listed once; no list is empty. */
    ghost predicate Valid()
      reads this, All()
    {
      && (forall topic :: topic in subs ==> subs[topic] != [] && Distinct(subs[topic]))
      && ListedOnce(subs)
      && (forall sub :: sub in All() ==> !sub.closed)
    }

    constructor ()
      ensures Valid() && subs == map[] && !closed
    {
      subs, closed := map[], false;
    }

    method Subscribe(topic: string, overloaded: bool) returns (sub: Subscriber)
      requires Valid()
      modifies this
      ensures Valid() && closed == old(closed)
      ensures fresh(sub) && sub.View() == Opened(BufferSize(overloaded))
      ensures sub.capacity == if overloaded then 4 else 16
      ensures subs == old(subs)[topic := Members(old(subs), topic) + [sub]]
    {
      sub := new Subscriber(BufferSize(overloaded));
      assert forall other :: other in All() ==> other != sub;
      var list := Members(subs, topic);
      assert forall other :: other in list ==> other in All();
      subs := subs[topic := list + [sub]];
      assert forall other :: other in All() ==> other == sub || other in old(All());
    }

    method Unsubscribe(topic: string, sub: Subscriber)
      requires Valid()
      modifies this, sub
      ensures Valid() && closed == old(closed)
      ensures sub in old(Members(subs, topic)) ==>
                subs == Removed(old(subs), topic, sub) && sub.View() == Shut(old(sub.View()))
      ensures sub !in old(Members(subs, topic)) ==> unchanged(this) && unchanged(sub)
    {
      if topic !in subs { return; }
      var list := subs[topic];
      var i := 0;
      while i < |list|
        invariant 0 <= i <= |list| && sub !in list[..i]
        invariant unchanged(this) && unchanged(sub)
      {
        if list[i] == sub {
          assert i == IndexOf(list, sub);
          list := list[i := list[|list| - 1]];
          list := list[..|list| - 1];
          if |list| == 0 {
            subs := subs - {topic};
          } else {
            subs := subs[topic := list];
          }
          RemovedKeepsOthers(old(subs), topic, sub);
          RemovedListedOnce(old(subs), topic, sub);
          sub.Close();
          assert forall other :: other in All() ==> other in old(All()) && other != sub;
          return;
        }
        i := i + 1;
      }
    }

    method CloseEach(list: seq<Subscriber>)
      modifies list
      ensures forall sub :: sub in list ==> sub.View() == Shut(old(sub.View()))
    {
      for i := 0 to |list|
        invariant forall sub :: sub in list[..i] ==> sub.View() == Shut(old(sub.View()))
        invariant forall sub :: sub in list && sub !in list[..i] ==> unchanged(sub)
      {
        list[i].Close();
        assert list[..i + 1] == list[..i] + [list[i]];
      }
      assert list[..|list|] == list;
    }

    method Shutdown()
      modifies this, All()
      ensures closed
      ensures old(closed) ==> unchanged(this) && forall sub :: sub in old(All()) ==> unchanged(sub)
      ensures !old(closed) ==> subs == map[] && forall sub :: sub in old(All()) ==> sub.View() == Shut(old(sub.View()))
    {
      if closed { return; }
      closed := true;
      var left := subs;
      ghost var done: set<Subscriber> := {};
      while left != map[]
        invariant closed && subs == left && left.Keys <= old(subs).Keys
        invariant forall topic :: topic in left ==> left[topic] == old(subs)[topic]
        invariant forall topic, sub :: topic in old(subs) && topic !in left && sub in old(subs)[topic] ==> sub in done
        invariant done <= old(All())
        invariant forall sub :: sub in done ==> sub.View() == Shut(old(sub.View()))
        invariant forall sub :: sub in old(All()) && sub !in done ==> sub.View() == old(sub.View())
        decreases left.Keys
      {
        var topic :| topic in left;
        var list := left[topic];
        assert forall sub :: sub in list ==> sub in old(All());
        CloseEach(list);
        done := done + set sub | sub in list;
        left := left - {topic};
        subs := left;
      }
      assert forall sub :: sub in old(All()) ==> sub in done;
    }

    /** Every subscriber of the topic gets the frame, none for an empty payload; since all are open, no send panics. */
    method PublishLocal(topic: string, payload: string, decoded: Decoded)
      requires Valid()
      modifies Members(subs, topic)
      ensures payload == "" ==> forall sub :: sub in Members(subs, topic) ==> unchanged(sub)
      ensures payload != "" ==>
                forall sub :: sub in Members(subs, topic) ==>
                  sub.View()
                  == Sent(old(sub.View()), FrameText(FrameEvent(decoded), payload), ExtractEventType(decoded))
    {
      var eventType := ExtractEventType(decoded);
      var frame, ok := BuildFrame(payload, decoded);
      if !ok { return; }
      var list := Members(subs, topic);
      assert forall sub :: sub in list ==> sub in All();
      for i := 0 to |list|
        invariant unchanged(this) && Distinct(list)
        invariant forall k :: 0 <= k < i ==> list[k].View() == Sent(old(list[k].View()), frame, eventType)
        invariant forall k :: i <= k < |list| ==> unchanged(list[k])
      {
        OthersDiffer(list, i);
        var panicked := list[i].Send(frame, eventType);
        assert !panicked;
      }
    }
  }
}

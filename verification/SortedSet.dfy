/** A Redis sorted set: members with scores, ordered by score and then by member. */
module SortedSets {
  import opened Text

  type Id = string

  type Index = map<Id, int>

  predicate Before(index: Index, a: Id, b: Id)
    requires a in index && b in index
  {
    index[a] < index[b] || (index[a] == index[b] && Less(a, b))
  }

  lemma BeforeIsStrictOrder(index: Index, a: Id, b: Id, c: Id)
    requires a in index && b in index && c in index
    ensures !Before(index, a, a)
    ensures Before(index, a, b) && Before(index, b, c) ==> Before(index, a, c)
    ensures Before(index, a, b) || a == b || Before(index, b, a)
  {
    LessIrreflexive(a);
    LessTotal(a, b);
    if Less(a, b) && Less(b, c) { LessTransitive(a, b, c); }
  }

  /** What ZRANGE over the whole set answers: every member once, in order. */
  ghost predicate IsRange(order: seq<Id>, index: Index) {
    && (forall id :: id in index <==> id in order)
    && (forall i, j :: 0 <= i < j < |order| ==> Before(index, order[i], order[j]))
  }

  /** The members that come before one of them. */
  function Predecessors(index: Index, id: Id): set<Id>
    requires id in index
  {
    set m | m in index && Before(index, m, id)
  }

  /** What ZRANK answers: how many members come before. */
  function Rank(index: Index, id: Id): nat
    requires id in index
  {
    |Predecessors(index, id)|
  }

  lemma {:induction false} PrefixCardinality(order: seq<Id>, n: nat)
    requires n <= |order| && forall i, j :: 0 <= i < j < |order| ==> order[i] != order[j]
    ensures |set id | id in order[..n]| == n
  {
    if n > 0 {
      PrefixCardinality(order, n - 1);
      var shorter := order[..n - 1];
      assert order[..n] == shorter + [order[n - 1]];
      assert (set id | id in order[..n]) == (set id | id in shorter) + {order[n - 1]};
    }
  }

  lemma RangeDistinct(order: seq<Id>, index: Index)
    requires IsRange(order, index)
    ensures forall i, j :: 0 <= i < j < |order| ==> order[i] != order[j]
  {
    forall i, j | 0 <= i < j < |order| ensures order[i] != order[j] {
      BeforeIsStrictOrder(index, order[i], order[i], order[i]);
    }
  }

  /** A member's place in the range is its rank. */
  lemma RankIsPlace(order: seq<Id>, index: Index, i: nat)
    requires IsRange(order, index) && i < |order|
    ensures order[i] in index && Rank(index, order[i]) == i
  {
    RangeDistinct(order, index);
    PrefixCardinality(order, i);
    var id := order[i];
    assert id in order;
    forall m ensures m in Predecessors(index, id) <==> m in order[..i] {
      if m in index && Before(index, m, id) {
        var k :| 0 <= k < |order| && order[k] == m;
        BeforeIsStrictOrder(index, m, id, m);
        assert k < i;
      }
      if m in order[..i] { assert m in order; }
    }
    assert Predecessors(index, id) == set m | m in order[..i];
  }

  /** The range has as many members as the set, so places run from 0 to the size less one. */
  lemma RangeLength(order: seq<Id>, index: Index)
    requires IsRange(order, index)
    ensures |order| == |index|
  {
    RangeDistinct(order, index);
    PrefixCardinality(order, |order|);
    assert order[..|order|] == order;
    assert (set id | id in order) == index.Keys;
  }

  ghost predicate IsLeast(index: Index, m: Id) {
    m in index && forall o :: o in index && o != m ==> Before(index, m, o)
  }

  lemma {:induction false} LeastExists(index: Index)
    requires index != map[]
    ensures exists m :: IsLeast(index, m)
    decreases index.Keys
  {
    var k :| k in index;
    var rest := index - {k};
    assert rest.Keys == index.Keys - {k};
    if rest == map[] {
      assert forall o :: o in index && o != k ==> o in rest.Keys;
      assert IsLeast(index, k);
    } else {
      LeastExists(rest);
      var m :| IsLeast(rest, m);
      BeforeIsStrictOrder(index, k, m, k);
      if Before(index, k, m) {
        forall o | o in index && o != k ensures Before(index, k, o) {
          BeforeIsStrictOrder(index, k, m, o);
          assert o == m || Before(rest, m, o);
        }
        assert IsLeast(index, k);
      } else {
        forall o | o in index && o != m ensures Before(index, m, o) {
          assert o != k ==> Before(rest, m, o);
        }
        assert IsLeast(index, m);
      }
    }
  }

  /** The answer of ZRANGE exists for every set. */
  lemma {:induction false} RangeExists(index: Index)
    ensures exists order :: IsRange(order, index)
    decreases index.Keys
  {
    if index == map[] {
      assert IsRange([], index);
    } else {
      LeastExists(index);
      var m :| IsLeast(index, m);
      var rest := index - {m};
      assert rest.Keys == index.Keys - {m};
      RangeExists(rest);
      var order :| IsRange(order, rest);
      var all := [m] + order;
      forall id ensures id in index <==> id in all {
        assert id in all <==> id == m || id in order;
      }
      forall i, j | 0 <= i < j < |all| ensures Before(index, all[i], all[j]) {
        assert all[j] == order[j - 1] && order[j - 1] in order;
        if i > 0 { assert Before(rest, order[i - 1], order[j - 1]); }
      }
      assert IsRange(all, index);
    }
  }
}

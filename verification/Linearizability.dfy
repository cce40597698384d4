/** Histories, sequential models and what it means for a history to be linearizable
    (Herlihy and Wing, "Linearizability: a correctness condition for concurrent objects", 1990). */
module Linearizability {
  import opened Ranges

  /** A sequential specification: `step` answers whether an operation with this input and output is
      possible in a state, and in which state it ends. `equal` identifies states. */
  datatype Model<!S, !V> = Model(init: S, step: (S, V, V) -> (bool, S), equal: (S, S) -> bool)

  /** What the checker needs of `equal`: it identifies a state with itself, chains, and no later step
      can tell identified states apart. */
  ghost predicate Lawful<S(!new), V(!new)>(m: Model<S, V>) {
    && (forall s :: m.equal(s, s))
    && (forall s, t, u :: m.equal(s, t) && m.equal(t, u) ==> m.equal(s, u))
    && (forall s, t, i, o :: m.equal(s, t) ==>
          && m.step(s, i, o).0 == m.step(t, i, o).0
          && (m.step(s, i, o).0 ==> m.equal(m.step(s, i, o).1, m.step(t, i, o).1)))
  }

  datatype Kind = Call | Return

  /** An `entry` of the checker: one end of an operation. */
  datatype Event<V> = Event(kind: Kind, value: V, id: int, time: int, clientId: int)

  /** Ids number the operations densely; each has one call and then one return. */
  ghost predicate WellFormed<V>(h: seq<Event<V>>) {
    && |h| % 2 == 0
    && (forall p :: 0 <= p < |h| ==> 0 <= h[p].id < |h| / 2)
    && (forall p, q :: 0 <= p < q < |h| && h[p].id == h[q].id ==> h[p].kind == Call && h[q].kind == Return)
    && (forall x :: 0 <= x < |h| / 2 ==> HasBoth(h, x))
  }

  ghost predicate HasBoth<V>(h: seq<Event<V>>, x: int) {
    exists c, r :: 0 <= c < r < |h| && h[c].id == x && h[r].id == x
  }

  /** Where operation x is called and where it returns. */
  ghost function Span<V>(h: seq<Event<V>>, x: int): (p: (int, int))
    requires WellFormed(h) && 0 <= x < |h| / 2
    ensures 0 <= p.0 < p.1 < |h|
    ensures h[p.0].id == x && h[p.0].kind == Call && h[p.1].id == x && h[p.1].kind == Return
  {
    assert HasBoth(h, x);
    var c, r :| 0 <= c < r < |h| && h[c].id == x && h[r].id == x;
    (c, r)
  }

  ghost function CallAt<V>(h: seq<Event<V>>, x: int): int
    requires WellFormed(h) && 0 <= x < |h| / 2
  {
    Span(h, x).0
  }

  ghost function ReturnAt<V>(h: seq<Event<V>>, x: int): int
    requires WellFormed(h) && 0 <= x < |h| / 2
  {
    Span(h, x).1
  }

  lemma SpanIsUnique<V>(h: seq<Event<V>>, p: int)
    requires WellFormed(h) && 0 <= p < |h|
    ensures var x := h[p].id; if h[p].kind == Call then p == CallAt(h, x) else p == ReturnAt(h, x)
  {
    var (c, r) := Span(h, h[p].id);
  }

  /** Operation x returned before operation y was called. */
  ghost predicate Precedes<V>(h: seq<Event<V>>, x: int, y: int)
    requires WellFormed(h) && 0 <= x < |h| / 2 && 0 <= y < |h| / 2
  {
    ReturnAt(h, x) < CallAt(h, y)
  }

  ghost predicate Ids(n: int, order: seq<int>) {
    && (forall k :: 0 <= k < |order| ==> 0 <= order[k] < n)
    && (forall j, k :: 0 <= j < k < |order| ==> order[j] != order[k])
  }

  /** The model's verdict on operation x in state s. */
  ghost function StepOf<S, V>(m: Model<S, V>, h: seq<Event<V>>, s: S, x: int): (bool, S)
    requires WellFormed(h) && 0 <= x < |h| / 2
  {
    m.step(s, h[CallAt(h, x)].value, h[ReturnAt(h, x)].value)
  }

  /** Running the operations one after the other from the initial state: accepted or not, and the end. */
  ghost function Run<S, V>(m: Model<S, V>, h: seq<Event<V>>, order: seq<int>): (bool, S)
    requires WellFormed(h) && Ids(|h| / 2, order)
  {
    if order == [] then (true, m.init)
    else
      var x := order[|order| - 1];
      var (ok, s) := Run(m, h, order[..|order| - 1]);
      var (ok', s') := StepOf(m, h, s, x);
      (ok && ok', s')
  }

  /** The definition: all operations, in an order the model accepts, no operation placed before one
      that had already returned when it was called. */
  ghost predicate IsLinearization<S, V>(m: Model<S, V>, h: seq<Event<V>>, order: seq<int>)
    requires WellFormed(h)
  {
    && Ids(|h| / 2, order) && |order| == |h| / 2
    && Run(m, h, order).0
    && (forall j, k :: 0 <= j < k < |order| ==> !Precedes(h, order[k], order[j]))
  }

  ghost predicate Linearizable<S, V>(m: Model<S, V>, h: seq<Event<V>>)
    requires WellFormed(h)
  {
    exists order :: IsLinearization(m, h, order)
  }

  /** Operation x may come next: it is not placed yet, and nothing unplaced returned before its call. */
  ghost predicate MayFollow<V>(h: seq<Event<V>>, placed: set<int>, x: int)
    requires WellFormed(h)
  {
    && 0 <= x < |h| / 2 && x !in placed
    && (forall y :: 0 <= y < |h| / 2 && y !in placed ==> !Precedes(h, y, x))
  }

  ghost function SetOf(order: seq<int>): set<int> {
    set k | 0 <= k < |order| :: order[k]
  }

  /** A partial linearization: a beginning of an order that breaks no rule so far. */
  ghost predicate IsPartial<S, V>(m: Model<S, V>, h: seq<Event<V>>, order: seq<int>)
    requires WellFormed(h)
    decreases |order|
  {
    order == [] ||
    (var n := |order| - 1;
     && IsPartial(m, h, order[..n])
     && MayFollow(h, SetOf(order[..n]), order[n])
     && Ids(|h| / 2, order) && Run(m, h, order).0)
  }

  lemma SetOfPush(order: seq<int>, x: int)
    ensures SetOf(order + [x]) == SetOf(order) + {x}
  {
    var o := order + [x];
    forall y | y in SetOf(order) + {x} ensures y in SetOf(o) {
      if y in SetOf(order) {
        var k :| 0 <= k < |order| && order[k] == y;
        assert o[k] == y;
      } else {
        assert o[|order|] == x;
      }
    }
  }

  lemma PartialIds<S, V>(m: Model<S, V>, h: seq<Event<V>>, order: seq<int>)
    requires WellFormed(h) && IsPartial(m, h, order)
    ensures Ids(|h| / 2, order) && Run(m, h, order).0
    ensures forall x :: x in SetOf(order) ==> 0 <= x < |h| / 2
  {
  }

  lemma PartialPrefix<S, V>(m: Model<S, V>, h: seq<Event<V>>, order: seq<int>, k: nat)
    requires WellFormed(h) && IsPartial(m, h, order) && k <= |order|
    ensures IsPartial(m, h, order[..k])
    decreases |order|
  {
    if k < |order| {
      PartialPrefix(m, h, order[..|order| - 1], k);
      assert order[..|order| - 1][..k] == order[..k];
    } else {
      assert order[..k] == order;
    }
  }

  lemma IdsPush(n: int, order: seq<int>, x: int)
    requires Ids(n, order) && 0 <= x < n && x !in SetOf(order)
    ensures Ids(n, order + [x])
  {
    assert forall k :: 0 <= k < |order| ==> order[k] in SetOf(order);
  }

  /** Extending a partial linearization by an operation that may follow and that the model accepts. */
  lemma PartialPush<S, V>(m: Model<S, V>, h: seq<Event<V>>, order: seq<int>, x: int)
    requires WellFormed(h) && IsPartial(m, h, order) && MayFollow(h, SetOf(order), x)
    requires Ids(|h| / 2, order) && StepOf(m, h, Run(m, h, order).1, x).0
    ensures IsPartial(m, h, order + [x]) && Run(m, h, order + [x]) == (true, StepOf(m, h, Run(m, h, order).1, x).1)
  {
    PartialIds(m, h, order);
    IdsPush(|h| / 2, order, x);
    assert (order + [x])[..|order|] == order;
  }

  /** Every id is placed once the order is as long as the history has operations. */
  lemma FullOrderPlacesAll(n: nat, order: seq<int>)
    requires Ids(n, order)
    ensures |order| <= n
    ensures |order| == n <==> forall x :: 0 <= x < n ==> x in SetOf(order)
    ensures |SetOf(order)| == |order|
  {
    SetOfSize(n, order);
    var all := Below(n);
    assert SetOf(order) <= all;
    assert all == SetOf(order) + (all - SetOf(order));
    if |order| == n {
      assert all - SetOf(order) == {};
      forall x | 0 <= x < n ensures x in SetOf(order) {
        assert x in all;
      }
    }
  }

  lemma Pick<T>(s: set<T>) returns (x: T)
    requires s != {}
    ensures x in s
  {
    x :| x in s;
  }

  lemma {:induction false} SetOfSize(n: nat, order: seq<int>)
    requires Ids(n, order)
    ensures |SetOf(order)| == |order|
    decreases |order|
  {
    if order == [] {
      assert SetOf(order) == {};
    } else {
      var k := |order| - 1;
      SetOfSize(n, order[..k]);
      SetOfPush(order[..k], order[k]);
      assert order[..k] + [order[k]] == order;
      assert order[k] !in SetOf(order[..k]);
      hide SetOf, Ids;
    }
  }

  /** Linearizations are exactly the partial linearizations that place every operation. */
  lemma FullPartialIsLinearization<S, V>(m: Model<S, V>, h: seq<Event<V>>, order: seq<int>)
    requires WellFormed(h) && |order| == |h| / 2
    ensures IsPartial(m, h, order) <==> IsLinearization(m, h, order)
  {
    hide IsPartial, WellFormed, Run, Precedes;
    assert order[..|order|] == order;
    if IsPartial(m, h, order) {
      PartialIds(m, h, order);
      forall j, k | 0 <= j < k < |order| ensures !Precedes(h, order[k], order[j]) {
        PartialRespects(m, h, order, j, k);
      }
    }
    if IsLinearization(m, h, order) {
      LinearizationIsPartial(m, h, order, |order|);
    }
  }

  lemma PartialRespects<S, V>(m: Model<S, V>, h: seq<Event<V>>, order: seq<int>, j: nat, k: nat)
    requires WellFormed(h) && IsPartial(m, h, order) && Ids(|h| / 2, order) && j < k < |order|
    ensures !Precedes(h, order[k], order[j])
  {
    hide WellFormed, Run, Precedes;
    PartialPrefix(m, h, order, j + 1);
    var o := order[..j + 1];
    assert o[..j] == order[..j];
    assert MayFollow(h, SetOf(o[..j]), o[j]);
    assert order[k] !in SetOf(order[..j]);
  }

  lemma {:induction false} LinearizationIsPartial<S, V>(m: Model<S, V>, h: seq<Event<V>>, order: seq<int>, k: nat)
    requires WellFormed(h) && IsLinearization(m, h, order) && k <= |order|
    ensures Ids(|h| / 2, order[..k]) && IsPartial(m, h, order[..k])
  {
    hide WellFormed, Run, Precedes, MayFollow, Ids;
    if k > 0 {
      LinearizationIsPartial(m, h, order, k - 1);
      RunPrefixAccepts(m, h, order, k);
      LinearizationFollows(m, h, order, k - 1);
      assert order[..k][..k - 1] == order[..k - 1];
    } else {
      EmptyIds(|h| / 2);
    }
  }

  lemma LinearizationFollows<S, V>(m: Model<S, V>, h: seq<Event<V>>, order: seq<int>, k: nat)
    requires WellFormed(h) && IsLinearization(m, h, order) && k < |order|
    ensures MayFollow(h, SetOf(order[..k]), order[k])
  {
    hide WellFormed, Run, Precedes;
    var pre := order[..k];
    FullOrderPlacesAll(|h| / 2, order);
    assert forall i :: 0 <= i < k ==> order[i] == pre[i] && pre[i] in SetOf(pre);
    forall y | 0 <= y < |h| / 2 && y !in SetOf(pre) ensures !Precedes(h, y, order[k]) {
      assert y in SetOf(order);
      var i :| 0 <= i < |order| && order[i] == y;
      NeverBeforeItself(h, y);
    }
    assert order[k] !in SetOf(pre);
  }

  lemma EmptyIds(n: int)
    ensures Ids(n, [])
  {
  }

  lemma NeverBeforeItself<V>(h: seq<Event<V>>, x: int)
    requires WellFormed(h) && 0 <= x < |h| / 2
    ensures !Precedes(h, x, x)
  {
  }

  lemma {:induction false} RunPrefixAccepts<S, V>(m: Model<S, V>, h: seq<Event<V>>, order: seq<int>, k: nat)
    requires WellFormed(h) && Ids(|h| / 2, order) && Run(m, h, order).0 && k <= |order|
    ensures Ids(|h| / 2, order[..k]) && Run(m, h, order[..k]).0
    decreases |order|
  {
    if k < |order| {
      var o := order[..|order| - 1];
      RunPrefixAccepts(m, h, o, k);
      assert o[..k] == order[..k];
    } else {
      assert order[..k] == order;
    }
  }
}

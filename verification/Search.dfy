/** What the checker's search knows at any moment, apart from how it is stored: the order on the undo
    stack, the orders whose configurations are in the memo cache, and how far each level has looked. */
module Search {
  import opened Linearizability

  ghost function StateOf<S, V>(m: Model<S, V>, h: seq<Event<V>>, w: seq<int>): S
    requires WellFormed(h)
  {
    if Ids(|h| / 2, w) then Run(m, h, w).1 else m.init
  }

  /** The cache holds a configuration with these operations placed and an identified state. */
  ghost predicate Known<S, V>(m: Model<S, V>, h: seq<Event<V>>, seen: set<seq<int>>, placed: set<int>, s: S)
    requires WellFormed(h)
  {
    exists w :: w in seen && SetOf(w) == placed && m.equal(s, StateOf(m, h, w))
  }

  /** If x may follow w and the model accepts it, the configuration it leads to is known. */
  ghost predicate Tried<S, V>(m: Model<S, V>, h: seq<Event<V>>, seen: set<seq<int>>, w: seq<int>, x: int)
    requires WellFormed(h)
  {
    MayFollow(h, SetOf(w), x) && StepOf(m, h, StateOf(m, h, w), x).0 ==>
      Known(m, h, seen, SetOf(w) + {x}, StepOf(m, h, StateOf(m, h, w), x).1)
  }

  ghost predicate Explored<S, V>(m: Model<S, V>, h: seq<Event<V>>, seen: set<seq<int>>, w: seq<int>)
    requires WellFormed(h)
  {
    forall x {:trigger Tried(m, h, seen, w, x)} :: Tried(m, h, seen, w, x)
  }

  /** Everything that could follow w and was called before position pos has been tried. */
  ghost predicate TriedBefore<S, V>(m: Model<S, V>, h: seq<Event<V>>, seen: set<seq<int>>, w: seq<int>, pos: int)
    requires WellFormed(h)
  {
    forall x {:trigger Tried(m, h, seen, w, x)} ::
      0 <= x < |h| / 2 && x !in SetOf(w) && CallAt(h, x) < pos ==> Tried(m, h, seen, w, x)
  }

  /** No operation left to place returned before position pos. */
  ghost predicate NoReturnBefore<V>(h: seq<Event<V>>, placed: set<int>, pos: int)
    requires WellFormed(h)
  {
    forall y :: 0 <= y < |h| / 2 && y !in placed ==> pos <= ReturnAt(h, y)
  }

  /** Orders that are in the cache and no longer on the stack are explored. */
  ghost predicate Settled<S, V>(m: Model<S, V>, h: seq<Event<V>>, seen: set<seq<int>>, order: seq<int>)
    requires WellFormed(h)
  {
    forall w {:trigger Explored(m, h, seen, w)} :: w in seen && !(w <= order) ==> Explored(m, h, seen, w)
  }

  ghost predicate LevelTried<S, V>(m: Model<S, V>, h: seq<Event<V>>, seen: set<seq<int>>, order: seq<int>, j: int)
    requires WellFormed(h) && Ids(|h| / 2, order) && 0 <= j < |order|
  {
    TriedBefore(m, h, seen, order[..j], CallAt(h, order[j]))
  }

  ghost predicate SearchInv<S, V>(m: Model<S, V>, h: seq<Event<V>>, seen: set<seq<int>>, order: seq<int>)
    requires WellFormed(h)
  {
    && IsPartial(m, h, order) && Ids(|h| / 2, order)
    && (forall w :: w in seen ==> w != [] && IsPartial(m, h, w))
    && (forall w :: w in seen && |w| == |h| / 2 ==> w == order)
    && (forall j {:trigger order[..j]} :: 1 <= j <= |order| ==> order[..j] in seen)
    && (forall j {:trigger LevelTried(m, h, seen, order, j)} ::
          0 <= j < |order| ==> LevelTried(m, h, seen, order, j))
    && Settled(m, h, seen, order)
  }

  // ----- growth -----

  lemma TriedGrows<S, V>(m: Model<S, V>, h: seq<Event<V>>, seen: set<seq<int>>, seen': set<seq<int>>, w: seq<int>,
                         x: int)
    requires WellFormed(h) && seen <= seen' && Tried(m, h, seen, w, x)
    ensures Tried(m, h, seen', w, x)
  {
  }

  lemma TriedBeforeGrows<S, V>(m: Model<S, V>, h: seq<Event<V>>, seen: set<seq<int>>, seen': set<seq<int>>,
                               w: seq<int>, pos: int)
    requires WellFormed(h) && seen <= seen' && TriedBefore(m, h, seen, w, pos)
    ensures TriedBefore(m, h, seen', w, pos)
  {
    forall x | 0 <= x < |h| / 2 && x !in SetOf(w) && CallAt(h, x) < pos ensures Tried(m, h, seen', w, x) {
      assert Tried(m, h, seen, w, x);
      TriedGrows(m, h, seen, seen', w, x);
    }
  }

  lemma ExploredGrows<S, V>(m: Model<S, V>, h: seq<Event<V>>, seen: set<seq<int>>, seen': set<seq<int>>, w: seq<int>)
    requires WellFormed(h) && seen <= seen' && Explored(m, h, seen, w)
    ensures Explored(m, h, seen', w)
  {
    forall x ensures Tried(m, h, seen', w, x) {
      assert Tried(m, h, seen, w, x);
      TriedGrows(m, h, seen, seen', w, x);
    }
  }

  // ----- the moves of the search -----

  lemma StartHolds<S, V>(m: Model<S, V>, h: seq<Event<V>>)
    requires WellFormed(h)
    ensures SearchInv(m, h, {}, [])
  {
  }

  /** A call the cursor stands on may follow. */
  lemma CallMayFollow<V>(h: seq<Event<V>>, placed: set<int>, pos: int)
    requires WellFormed(h) && 0 <= pos < |h| && h[pos].kind == Call && h[pos].id !in placed
    requires NoReturnBefore(h, placed, pos)
    ensures MayFollow(h, placed, h[pos].id) && CallAt(h, h[pos].id) == pos
  {
    SpanIsUnique(h, pos);
  }

  /** A configuration the cache does not hold is pushed. */
  lemma PushHolds<S(!new), V(!new)>(m: Model<S, V>, h: seq<Event<V>>, seen: set<seq<int>>, order: seq<int>, x: int)
    requires WellFormed(h) && Lawful(m) && SearchInv(m, h, seen, order)
    requires MayFollow(h, SetOf(order), x) && StepOf(m, h, StateOf(m, h, order), x).0
    requires TriedBefore(m, h, seen, order, CallAt(h, x))
    requires !Known(m, h, seen, SetOf(order) + {x}, StepOf(m, h, StateOf(m, h, order), x).1)
    requires |order| < |h| / 2
    ensures order + [x] !in seen
    ensures SearchInv(m, h, seen + {order + [x]}, order + [x])
    ensures StateOf(m, h, order + [x]) == StepOf(m, h, StateOf(m, h, order), x).1
  {
    var o := order + [x];
    PushIsNew(m, h, seen, order, x);
    assert |o| == |order| + 1;
    assert forall j {:trigger order[..j]} :: 1 <= j <= |order| ==> order[..j] in seen;
    hide Lawful, WellFormed, IsPartial, MayFollow, Known, Run, TriedBefore, StateOf, LevelTried, Settled, Ids,
         SetOf, CallAt, StepOf;
    PushPrefixes(seen, order, x);
    forall j | 0 <= j < |o| ensures LevelTried(m, h, seen + {o}, o, j) {
      PushLevel(m, h, seen, order, x, j);
    }
    PushSettled(m, h, seen, order, x);
  }

  lemma PushPrefixes(seen: set<seq<int>>, order: seq<int>, x: int)
    requires forall j {:trigger order[..j]} :: 1 <= j <= |order| ==> order[..j] in seen
    ensures var o := order + [x];
            forall j {:trigger o[..j]} :: 1 <= j <= |o| ==> o[..j] in seen + {o}
  {
    var o := order + [x];
    forall j | 1 <= j <= |o| ensures o[..j] in seen + {o} {
      if j <= |order| {
        assert o[..j] == order[..j];
      } else {
        assert o[..j] == o;
      }
    }
  }

  lemma PushSettled<S, V>(m: Model<S, V>, h: seq<Event<V>>, seen: set<seq<int>>, order: seq<int>, x: int)
    requires WellFormed(h) && Settled(m, h, seen, order)
    ensures Settled(m, h, seen + {order + [x]}, order + [x])
  {
    hide WellFormed, Explored;
    var o := order + [x];
    forall w | w in seen + {o} && !(w <= o) ensures Explored(m, h, seen + {o}, w) {
      PrefixOfPush(w, order, x);
      assert Explored(m, h, seen, w);
      ExploredGrows(m, h, seen, seen + {o}, w);
    }
  }

  lemma PrefixOfPush(w: seq<int>, order: seq<int>, x: int)
    ensures w <= order + [x] <==> w <= order || w == order + [x]
  {
    var o := order + [x];
    assert o[..|order|] == order && o[..|o|] == o;
    if w <= o {
      assert w == o[..|w|];
    }
    if w <= order {
      assert w == order[..|w|] == o[..|w|];
    }
  }

  lemma PushIsNew<S(!new), V(!new)>(m: Model<S, V>, h: seq<Event<V>>, seen: set<seq<int>>, order: seq<int>, x: int)
    requires WellFormed(h) && Lawful(m) && IsPartial(m, h, order) && Ids(|h| / 2, order)
    requires MayFollow(h, SetOf(order), x) && StepOf(m, h, StateOf(m, h, order), x).0
    requires !Known(m, h, seen, SetOf(order) + {x}, StepOf(m, h, StateOf(m, h, order), x).1)
    ensures order + [x] !in seen && IsPartial(m, h, order + [x]) && Ids(|h| / 2, order + [x])
    ensures StateOf(m, h, order + [x]) == StepOf(m, h, StateOf(m, h, order), x).1
  {
    PartialPush(m, h, order, x);
    PartialIds(m, h, order + [x]);
    SetOfPush(order, x);
  }

  lemma PushLevel<S, V>(m: Model<S, V>, h: seq<Event<V>>, seen: set<seq<int>>, order: seq<int>, x: int, j: int)
    requires WellFormed(h) && SearchInv(m, h, seen, order) && Ids(|h| / 2, order + [x])
    requires 0 <= x < |h| / 2 && TriedBefore(m, h, seen, order, CallAt(h, x))
    requires 0 <= j < |order| + 1
    ensures LevelTried(m, h, seen + {order + [x]}, order + [x], j)
  {
    hide WellFormed, IsPartial, Known, Run, TriedBefore, Settled;
    var o := order + [x];
    var seen' := seen + {o};
    if j < |order| {
      assert LevelTried(m, h, seen, order, j);
      assert o[..j] == order[..j];
      TriedBeforeGrows(m, h, seen, seen', order[..j], CallAt(h, order[j]));
    } else {
      assert o[..j] == order;
      TriedBeforeGrows(m, h, seen, seen', order, CallAt(h, x));
    }
  }

  /** A return under the cursor: everything that may follow has been tried. */
  lemma ReturnMeansExplored<S, V>(m: Model<S, V>, h: seq<Event<V>>, seen: set<seq<int>>, order: seq<int>, pos: int)
    requires WellFormed(h) && 0 <= pos < |h| && h[pos].kind == Return && h[pos].id !in SetOf(order)
    requires TriedBefore(m, h, seen, order, pos)
    ensures Explored(m, h, seen, order)
  {
    SpanIsUnique(h, pos);
    forall x ensures Tried(m, h, seen, order, x) {
      if MayFollow(h, SetOf(order), x) {
        assert !Precedes(h, h[pos].id, x);
        SpanIsUnique(h, CallAt(h, x));
        assert CallAt(h, x) < pos;
      }
    }
  }

  /** The last operation is taken back; it counts as tried at the level below. */
  lemma PopHolds<S(!new), V(!new)>(m: Model<S, V>, h: seq<Event<V>>, seen: set<seq<int>>, order: seq<int>)
    requires WellFormed(h) && Lawful(m) && SearchInv(m, h, seen, order) && order != []
    requires Explored(m, h, seen, order) && |order| < |h| / 2
    ensures var n := |order| - 1;
            && SearchInv(m, h, seen, order[..n])
            && TriedBefore(m, h, seen, order[..n], CallAt(h, order[n]) + 1)
            && NoReturnBefore(h, SetOf(order[..n]), CallAt(h, order[n]) + 1)
            && StateOf(m, h, order[..n]) == Run(m, h, order[..n]).1
  {
    var n := |order| - 1;
    var o := order[..n];
    PopTried(m, h, seen, order);
    PopNoReturn(m, h, order);
    PopPartial(m, h, order);
    hide Lawful, WellFormed, IsPartial, MayFollow, Known, Run, Explored, TriedBefore, NoReturnBefore, LevelTried,
         Settled, Ids;
    assert forall j :: 0 <= j <= n ==> o[..j] == order[..j];
    forall j | 0 <= j < |o| ensures LevelTried(m, h, seen, o, j) {
      PopLevel(m, h, seen, order, j);
    }
    PopSettled(m, h, seen, order);
  }

  lemma PopPartial<S, V>(m: Model<S, V>, h: seq<Event<V>>, order: seq<int>)
    requires WellFormed(h) && IsPartial(m, h, order) && Ids(|h| / 2, order) && order != []
    ensures var o := order[..|order| - 1];
            IsPartial(m, h, o) && Ids(|h| / 2, o) && StateOf(m, h, o) == Run(m, h, o).1
  {
    var o := order[..|order| - 1];
    assert forall j :: 0 <= j <= |o| ==> o[..j] == order[..j];
  }

  lemma PopLevel<S, V>(m: Model<S, V>, h: seq<Event<V>>, seen: set<seq<int>>, order: seq<int>, j: int)
    requires WellFormed(h) && Ids(|h| / 2, order) && 0 <= j < |order| - 1 && LevelTried(m, h, seen, order, j)
    ensures Ids(|h| / 2, order[..|order| - 1]) && LevelTried(m, h, seen, order[..|order| - 1], j)
  {
    hide WellFormed, TriedBefore;
    assert order[..|order| - 1][..j] == order[..j];
  }

  lemma PopSettled<S, V>(m: Model<S, V>, h: seq<Event<V>>, seen: set<seq<int>>, order: seq<int>)
    requires WellFormed(h) && Settled(m, h, seen, order) && order != [] && Explored(m, h, seen, order)
    ensures Settled(m, h, seen, order[..|order| - 1])
  {
    hide WellFormed, Explored;
    var n := |order| - 1;
    var o := order[..n];
    assert o + [order[n]] == order;
    forall w | w in seen && !(w <= o) ensures Explored(m, h, seen, w) {
      PrefixOfPush(w, o, order[n]);
    }
  }

  lemma PopTried<S(!new), V(!new)>(m: Model<S, V>, h: seq<Event<V>>, seen: set<seq<int>>, order: seq<int>)
    requires WellFormed(h) && Lawful(m) && SearchInv(m, h, seen, order) && order != []
    ensures var n := |order| - 1; TriedBefore(m, h, seen, order[..n], CallAt(h, order[n]) + 1)
  {
    var n := |order| - 1;
    var o, x := order[..n], order[n];
    assert LevelTried(m, h, seen, order, n);
    assert o + [x] == order && order[..|order|] == order;
    SetOfPush(o, x);
    assert Known(m, h, seen, SetOf(o) + {x}, StateOf(m, h, order));
    assert StateOf(m, h, order) == StepOf(m, h, StateOf(m, h, o), x).1;
    assert Tried(m, h, seen, o, x);
    forall y | 0 <= y < |h| / 2 && y !in SetOf(o) && CallAt(h, y) < CallAt(h, x) + 1 ensures Tried(m, h, seen, o, y) {
      if CallAt(h, y) == CallAt(h, x) {
        assert y == h[CallAt(h, y)].id == x;
      }
    }
  }

  lemma PopNoReturn<S, V>(m: Model<S, V>, h: seq<Event<V>>, order: seq<int>)
    requires WellFormed(h) && IsPartial(m, h, order) && order != []
    ensures var n := |order| - 1;
            0 <= order[n] < |h| / 2 && NoReturnBefore(h, SetOf(order[..n]), CallAt(h, order[n]) + 1)
  {
    var n := |order| - 1;
    assert MayFollow(h, SetOf(order[..n]), order[n]);
    forall y | 0 <= y < |h| / 2 && y !in SetOf(order[..n]) ensures CallAt(h, order[n]) + 1 <= ReturnAt(h, y) {
      assert !Precedes(h, y, order[n]);
    }
  }

  // ----- what a finished search proves -----

  /** Every partial linearization is represented in the cache once everything is explored, although
      the search pruned: identified states cannot be told apart later. */
  lemma {:induction false} AllRepresented<S(!new), V(!new)>(m: Model<S, V>, h: seq<Event<V>>, seen: set<seq<int>>,
                                                            pi: seq<int>)
    requires WellFormed(h) && Lawful(m)
    requires Explored(m, h, seen, []) && (forall w :: w in seen ==> Explored(m, h, seen, w))
    requires IsPartial(m, h, pi) && pi != []
    ensures Known(m, h, seen, SetOf(pi), StateOf(m, h, pi))
    decreases |pi|
  {
    var n := |pi| - 1;
    var o, x := pi[..n], pi[n];
    PartialIds(m, h, o);
    assert o + [x] == pi;
    SetOfPush(o, x);
    var w: seq<int>;
    if o == [] {
      w := [];
    } else {
      AllRepresented(m, h, seen, o);
      w :| w in seen && SetOf(w) == SetOf(o) && m.equal(StateOf(m, h, o), StateOf(m, h, w));
    }
    assert Tried(m, h, seen, w, x);
    Represent(m, h, seen, o, w, x);
  }

  lemma Represent<S(!new), V(!new)>(m: Model<S, V>, h: seq<Event<V>>, seen: set<seq<int>>, o: seq<int>, w: seq<int>,
                                    x: int)
    requires WellFormed(h) && Lawful(m) && SetOf(w) == SetOf(o) && m.equal(StateOf(m, h, o), StateOf(m, h, w))
    requires IsPartial(m, h, o + [x]) && Tried(m, h, seen, w, x) && Ids(|h| / 2, o)
    ensures Known(m, h, seen, SetOf(o) + {x}, StateOf(m, h, o + [x]))
  {
    assert (o + [x])[..|o|] == o;
    var s, t := StateOf(m, h, o), StateOf(m, h, w);
    var s', t' := StepOf(m, h, s, x), StepOf(m, h, t, x);
    assert s'.0 && s'.1 == StateOf(m, h, o + [x]);
    assert t'.0 && m.equal(s'.1, t'.1);
    assert Known(m, h, seen, SetOf(w) + {x}, t'.1);
    var v :| v in seen && SetOf(v) == SetOf(w) + {x} && m.equal(t'.1, StateOf(m, h, v));
    assert m.equal(s'.1, StateOf(m, h, v));
  }

  /** An exhausted search has refuted linearizability. */
  lemma ExhaustedMeansIllegal<S(!new), V(!new)>(m: Model<S, V>, h: seq<Event<V>>, seen: set<seq<int>>)
    requires WellFormed(h) && Lawful(m) && SearchInv(m, h, seen, []) && Explored(m, h, seen, []) && |h| > 0
    ensures !Linearizable(m, h)
  {
    forall order ensures !IsLinearization(m, h, order) {
      if IsLinearization(m, h, order) {
        FullPartialIsLinearization(m, h, order);
        AllSeenExplored(m, h, seen);
        AllRepresented(m, h, seen, order);
        var w :| w in seen && SetOf(w) == SetOf(order) && m.equal(StateOf(m, h, order), StateOf(m, h, w));
        PartialIds(m, h, w);
        FullOrderPlacesAll(|h| / 2, w);
        FullOrderPlacesAll(|h| / 2, order);
        assert false;
      }
    }
  }

  lemma AllSeenExplored<S, V>(m: Model<S, V>, h: seq<Event<V>>, seen: set<seq<int>>)
    requires WellFormed(h) && SearchInv(m, h, seen, []) && Explored(m, h, seen, [])
    ensures forall w :: w in seen ==> Explored(m, h, seen, w)
  {
    forall w | w in seen ensures Explored(m, h, seen, w) {
      assert !(w <= []);
    }
  }

  // ----- longest partial linearizations -----

  datatype Partial = Unset | Found(ids: seq<int>)

  ghost predicate PartialsOK<S, V>(m: Model<S, V>, h: seq<Event<V>>, longest: seq<Partial>)
    requires WellFormed(h)
  {
    && |longest| == |h| / 2
    && forall x :: 0 <= x < |longest| && longest[x].Found? ==>
         IsPartial(m, h, longest[x].ids) && x in SetOf(longest[x].ids)
  }

  /** Orders that left the stack have been recorded for each of their operations. */
  ghost predicate Recorded<V>(h: seq<Event<V>>, seen: set<seq<int>>, order: seq<int>, longest: seq<Partial>) {
    forall w, x :: w in seen && !(w <= order) && x in SetOf(w) && 0 <= x < |longest| ==>
      longest[x].Found? && |longest[x].ids| >= |w|
  }

  /** longest[x] is a longest partial linearization with x in it, or there is none. */
  ghost predicate IsLongest<S, V>(m: Model<S, V>, h: seq<Event<V>>, x: int, best: Partial)
    requires WellFormed(h)
  {
    match best
    case Unset => forall pi :: IsPartial(m, h, pi) ==> x !in SetOf(pi)
    case Found(ids) =>
      && IsPartial(m, h, ids) && x in SetOf(ids)
      && forall pi :: IsPartial(m, h, pi) && x in SetOf(pi) ==> |pi| <= |ids|
  }

  lemma ExhaustedMeansLongest<S(!new), V(!new)>(m: Model<S, V>, h: seq<Event<V>>, seen: set<seq<int>>,
                                                longest: seq<Partial>, x: int)
    requires WellFormed(h) && Lawful(m) && SearchInv(m, h, seen, []) && Explored(m, h, seen, [])
    requires PartialsOK(m, h, longest) && Recorded(h, seen, [], longest) && 0 <= x < |longest|
    ensures IsLongest(m, h, x, longest[x])
  {
    AllSeenExplored(m, h, seen);
    forall pi | IsPartial(m, h, pi) && x in SetOf(pi)
      ensures longest[x].Found? && |pi| <= |longest[x].ids|
    {
      AllRepresented(m, h, seen, pi);
      var w :| w in seen && SetOf(w) == SetOf(pi) && m.equal(StateOf(m, h, pi), StateOf(m, h, w));
      PartialIds(m, h, w);
      PartialIds(m, h, pi);
      FullOrderPlacesAll(|h| / 2, w);
      FullOrderPlacesAll(|h| / 2, pi);
      assert !(w <= []);
    }
  }
}

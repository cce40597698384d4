/** `checkSingle`: a depth-first search over an event list edited in place, with an undo stack, a
    mutable bitset and a memo cache keyed by a hash. It decides linearizability exactly. */
module Checker {
  import opened Ranges
  import opened Linearizability
  import opened Bitset
  import opened EventList
  import opened Search

  datatype CacheEntry<S> = CacheEntry(linearized: seq<Word>, state: S)

  type Cache<S> = map<Word, seq<CacheEntry<S>>>

  /** One level of the undo stack: the call that was placed and the state before it. */
  datatype CallsEntry<S, V> = CallsEntry(entry: Node<V>, state: S)

  // ----- the memo cache -----

  /** e is the configuration the order w leads to. */
  ghost predicate Fits<S, V>(m: Model<S, V>, h: seq<Event<V>>, e: CacheEntry<S>, w: seq<int>, chunks: nat)
    requires WellFormed(h)
  {
    |e.linearized| == chunks && Members(e.linearized) == SetOf(w) && e.state == StateOf(m, h, w)
  }

  ghost predicate Stored<S, V>(m: Model<S, V>, h: seq<Event<V>>, cache: Cache<S>, w: seq<int>, chunks: nat)
    requires WellFormed(h)
  {
    exists key, i :: StoredAt(m, h, cache, w, chunks, key, i)
  }

  ghost predicate StoredAt<S, V>(m: Model<S, V>, h: seq<Event<V>>, cache: Cache<S>, w: seq<int>, chunks: nat,
                                 key: Word, i: int)
    requires WellFormed(h)
  {
    && key in cache && 0 <= i < |cache[key]| && Fits(m, h, cache[key][i], w, chunks)
    && key == Hash(cache[key][i].linearized)
  }

  ghost predicate Represents<S, V>(m: Model<S, V>, h: seq<Event<V>>, seen: set<seq<int>>, e: CacheEntry<S>, chunks: nat)
    requires WellFormed(h)
  {
    exists w :: w in seen && Fits(m, h, e, w, chunks)
  }

  /** The cache holds the configurations of the orders in `seen`, each in the bucket of its hash. */
  ghost predicate CacheOK<S, V>(m: Model<S, V>, h: seq<Event<V>>, cache: Cache<S>, seen: set<seq<int>>, chunks: nat)
    requires WellFormed(h)
  {
    && (forall key, i :: key in cache && 0 <= i < |cache[key]| ==> Represents(m, h, seen, cache[key][i], chunks))
    && (forall w :: w in seen ==> Stored(m, h, cache, w, chunks))
  }

  /** Whatever collides in a bucket, the answer is exactly whether the configuration is known. */
  method CacheContains<S(!new), V(!new)>(m: Model<S, V>, cache: Cache<S>, linearized: array<Word>, state: S,
                                         ghost h: seq<Event<V>>, ghost seen: set<seq<int>>)
    returns (found: bool)
    requires WellFormed(h) && CacheOK(m, h, cache, seen, linearized.Length)
    ensures found <==> Known(m, h, seen, Members(linearized[..]), state)
  {
    hide WellFormed, Hash, Members, StateOf, SetOf, CacheOK, Known;
    var key := ComputeHash(linearized);
    var bucket := if key in cache then cache[key] else [];
    for i := 0 to |bucket|
      invariant forall j :: 0 <= j < i ==> !(linearized[..] == bucket[j].linearized && m.equal(state, bucket[j].state))
    {
      var same := Equals(linearized, bucket[i].linearized);
      if same && m.equal(state, bucket[i].state) {
        BucketSound(m, h, cache, seen, linearized[..], state, key, i);
        return true;
      }
    }
    BucketComplete(m, h, cache, seen, linearized[..], state);
    return false;
  }

  lemma BucketSound<S(!new), V(!new)>(m: Model<S, V>, h: seq<Event<V>>, cache: Cache<S>, seen: set<seq<int>>,
                                      words: seq<Word>, state: S, key: Word, i: int)
    requires WellFormed(h) && CacheOK(m, h, cache, seen, |words|) && key in cache && 0 <= i < |cache[key]|
    requires words == cache[key][i].linearized && m.equal(state, cache[key][i].state)
    ensures Known(m, h, seen, Members(words), state)
  {
    hide WellFormed, Hash, Members, StateOf, SetOf;
    assert Represents(m, h, seen, cache[key][i], |words|);
    var w :| w in seen && Fits(m, h, cache[key][i], w, |words|);
  }

  lemma BucketComplete<S(!new), V(!new)>(m: Model<S, V>, h: seq<Event<V>>, cache: Cache<S>, seen: set<seq<int>>,
                                         words: seq<Word>, state: S)
    requires WellFormed(h) && CacheOK(m, h, cache, seen, |words|)
    requires var key := Hash(words);
             var bucket := if key in cache then cache[key] else [];
             forall j :: 0 <= j < |bucket| ==> !(words == bucket[j].linearized && m.equal(state, bucket[j].state))
    ensures !Known(m, h, seen, Members(words), state)
  {
    hide WellFormed, Hash, Members, StateOf, SetOf;
    forall w | w in seen && SetOf(w) == Members(words) ensures !m.equal(state, StateOf(m, h, w)) {
      assert Stored(m, h, cache, w, |words|);
      StoredDiffers(m, h, cache, words, state, w);
    }
  }

  lemma StoredDiffers<S(!new), V(!new)>(m: Model<S, V>, h: seq<Event<V>>, cache: Cache<S>, words: seq<Word>, state: S,
                                        w: seq<int>)
    requires WellFormed(h) && Stored(m, h, cache, w, |words|) && SetOf(w) == Members(words)
    requires var key := Hash(words);
             var bucket := if key in cache then cache[key] else [];
             forall j :: 0 <= j < |bucket| ==> !(words == bucket[j].linearized && m.equal(state, bucket[j].state))
    ensures !m.equal(state, StateOf(m, h, w))
  {
    hide WellFormed, Hash, Members, StateOf, SetOf;
    var key, i :| StoredAt(m, h, cache, w, |words|, key, i);
    EqualMembers(words, cache[key][i].linearized);
  }

  function AddEntry<S>(cache: Cache<S>, key: Word, e: CacheEntry<S>): (c: Cache<S>)
    ensures key in c && |c[key]| > 0 && c[key][|c[key]| - 1] == e
    ensures forall k, i :: k in cache && 0 <= i < |cache[k]| ==> k in c && i < |c[k]| && c[k][i] == cache[k][i]
    ensures forall k, i :: k in c && 0 <= i < |c[k]| ==>
              (k in cache && i < |cache[k]| && c[k][i] == cache[k][i]) || (k == key && c[k][i] == e)
  {
    cache[key := (if key in cache then cache[key] else []) + [e]]
  }

  lemma AddKeepsCache<S, V>(m: Model<S, V>, h: seq<Event<V>>, cache: Cache<S>, seen: set<seq<int>>, chunks: nat,
                            e: CacheEntry<S>, w: seq<int>)
    requires WellFormed(h) && CacheOK(m, h, cache, seen, chunks) && Fits(m, h, e, w, chunks)
    ensures CacheOK(m, h, AddEntry(cache, Hash(e.linearized), e), seen + {w}, chunks)
  {
    hide WellFormed, Hash, Fits, AddEntry, StoredAt, Stored;
    var key := Hash(e.linearized);
    var cache', seen' := AddEntry(cache, key, e), seen + {w};
    forall k, i | k in cache' && 0 <= i < |cache'[k]| ensures Represents(m, h, seen', cache'[k][i], chunks) {
      AddKeepsEntry(m, h, cache, seen, chunks, e, w, k, i);
    }
    forall v | v in seen' ensures Stored(m, h, cache', v, chunks) {
      if v in seen {
        StoredGrows(m, h, cache, key, e, v, chunks);
      } else {
        NewIsStored(m, h, cache, e, v, chunks);
      }
    }
  }

  lemma AddKeepsEntry<S, V>(m: Model<S, V>, h: seq<Event<V>>, cache: Cache<S>, seen: set<seq<int>>, chunks: nat,
                            e: CacheEntry<S>, w: seq<int>, k: Word, i: int)
    requires WellFormed(h) && CacheOK(m, h, cache, seen, chunks) && Fits(m, h, e, w, chunks)
    requires var cache' := AddEntry(cache, Hash(e.linearized), e); k in cache' && 0 <= i < |cache'[k]|
    ensures Represents(m, h, seen + {w}, AddEntry(cache, Hash(e.linearized), e)[k][i], chunks)
  {
    hide WellFormed, Hash, Fits, AddEntry, Stored;
    var cache' := AddEntry(cache, Hash(e.linearized), e);
    if k in cache && i < |cache[k]| && cache'[k][i] == cache[k][i] {
      assert Represents(m, h, seen, cache[k][i], chunks);
    } else {
      assert w in seen + {w};
    }
  }

  lemma NewIsStored<S, V>(m: Model<S, V>, h: seq<Event<V>>, cache: Cache<S>, e: CacheEntry<S>, w: seq<int>, chunks: nat)
    requires WellFormed(h) && Fits(m, h, e, w, chunks)
    ensures Stored(m, h, AddEntry(cache, Hash(e.linearized), e), w, chunks)
  {
    hide WellFormed, Hash, Fits, AddEntry;
    var key := Hash(e.linearized);
    var cache' := AddEntry(cache, key, e);
    assert StoredAt(m, h, cache', w, chunks, key, |cache'[key]| - 1);
  }

  lemma StoredGrows<S, V>(m: Model<S, V>, h: seq<Event<V>>, cache: Cache<S>, key: Word, e: CacheEntry<S>, v: seq<int>,
                          chunks: nat)
    requires WellFormed(h) && Stored(m, h, cache, v, chunks)
    ensures Stored(m, h, AddEntry(cache, key, e), v, chunks)
  {
    hide WellFormed, Hash, Fits, AddEntry;
    var k, i :| StoredAt(m, h, cache, v, chunks, k, i);
    assert AddEntry(cache, key, e)[k][i] == cache[k][i];
    assert StoredAt(m, h, AddEntry(cache, key, e), v, chunks, k, i);
  }

  // ----- the list and the stack -----

  /** The nodes of the events that are still to be placed. */
  ghost function Rest<V>(h: seq<Event<V>>, placed: set<int>): (s: set<int>)
    ensures forall k :: k in s <==> 1 <= k <= |h| && h[k - 1].id !in placed
  {
    set k | k in AllNodes(|h|) && h[k - 1].id !in placed
  }

  lemma RestPush<V>(h: seq<Event<V>>, placed: set<int>, x: int)
    requires WellFormed(h) && 0 <= x < |h| / 2
    ensures Rest(h, placed + {x}) == Rest(h, placed) - {CallAt(h, x) + 1, ReturnAt(h, x) + 1}
  {
    forall p | 0 <= p < |h| ensures h[p].id == x <==> p == CallAt(h, x) || p == ReturnAt(h, x) {
      SpanIsUnique(h, p);
    }
  }

  /** At every level the pointers, as they were then, link exactly the events left to place; each level
      is the one below with one operation lifted. */
  ghost predicate LinksInv<V>(h: seq<Event<V>>, order: seq<int>, ls: seq<Links>)
    requires WellFormed(h)
  {
    && |ls| == |order| + 1 && Ids(|h| / 2, order)
    && (forall j {:trigger LevelChain(h, order, ls, j)} :: 0 <= j <= |order| ==> LevelChain(h, order, ls, j))
    && (forall j {:trigger LevelLift(h, order, ls, j)} :: 0 <= j < |order| ==> LevelLift(h, order, ls, j))
  }

  ghost predicate LevelChain<V>(h: seq<Event<V>>, order: seq<int>, ls: seq<Links>, j: int)
    requires 0 <= j <= |order| && |ls| == |order| + 1
  {
    Chain(ls[j], Rest(h, SetOf(order[..j])), |h| + 1)
  }

  ghost predicate LevelLift<V>(h: seq<Event<V>>, order: seq<int>, ls: seq<Links>, j: int)
    requires WellFormed(h) && 0 <= j < |order| && |ls| == |order| + 1 && Ids(|h| / 2, order)
  {
    var c, r := CallAt(h, order[j]) + 1, ReturnAt(h, order[j]) + 1;
    && order[j] !in SetOf(order[..j])
    && Liftable(ls[j], c, r, |h| + 1) && ls[j + 1] == Lifted(ls[j], c, r)
  }

  lemma LinksStart<V>(h: seq<Event<V>>)
    requires WellFormed(h)
    ensures LinksInv(h, [], [Initial(|h|)])
  {
    hide WellFormed, Chain, Initial, LevelLift;
    InitialChain(|h|);
    var none: seq<int> := [];
    assert none[..0] == [] && SetOf(none) == {};
    assert Rest(h, {}) == AllNodes(|h|);
    assert LevelChain(h, none, [Initial(|h|)], 0);
  }

  lemma LinksTop<V>(h: seq<Event<V>>, order: seq<int>, ls: seq<Links>, x: int)
    requires WellFormed(h) && LinksInv(h, order, ls) && 0 <= x < |h| / 2 && x !in SetOf(order)
    ensures var c, r, rest := CallAt(h, x) + 1, ReturnAt(h, x) + 1, Rest(h, SetOf(order));
            && |ls| == |order| + 1 && Chain(ls[|order|], rest, |h| + 1)
            && c in rest && r in rest && c < r && Liftable(ls[|order|], c, r, |h| + 1)
  {
    hide Chain, Unlink, Lifted;
    var n := |order|;
    assert LevelChain(h, order, ls, n) && order[..n] == order;
    LiftedChain(ls[n], Rest(h, SetOf(order)), |h| + 1, CallAt(h, x) + 1, ReturnAt(h, x) + 1);
  }

  lemma LinksPush<V>(h: seq<Event<V>>, order: seq<int>, ls: seq<Links>, x: int, l': Links)
    requires WellFormed(h) && 0 <= x < |h| / 2 && |ls| == |order| + 1
    requires Liftable(ls[|order|], CallAt(h, x) + 1, ReturnAt(h, x) + 1, |h| + 1)
    requires l' == Lifted(ls[|order|], CallAt(h, x) + 1, ReturnAt(h, x) + 1)
    requires LinksInv(h, order, ls) && x !in SetOf(order)
    ensures LinksInv(h, order + [x], ls + [l'])
  {
    hide WellFormed, Chain, Lifted, Liftable, Rest, SetOf, Ids, LevelChain, LevelLift;
    IdsPush(|h| / 2, order, x);
    var o, ls' := order + [x], ls + [l'];
    forall j | 0 <= j <= |o| ensures LevelChain(h, o, ls', j) {
      PushedChain(h, order, ls, x, l', j);
    }
    forall j | 0 <= j < |o| ensures LevelLift(h, o, ls', j) {
      PushedLift(h, order, ls, x, l', j);
    }
  }

  lemma PushedChain<V>(h: seq<Event<V>>, order: seq<int>, ls: seq<Links>, x: int, l': Links, j: int)
    requires WellFormed(h) && 0 <= x < |h| / 2 && |ls| == |order| + 1 && 0 <= j <= |order| + 1
    requires Liftable(ls[|order|], CallAt(h, x) + 1, ReturnAt(h, x) + 1, |h| + 1)
    requires l' == Lifted(ls[|order|], CallAt(h, x) + 1, ReturnAt(h, x) + 1)
    requires LinksInv(h, order, ls) && x !in SetOf(order)
    ensures LevelChain(h, order + [x], ls + [l'], j)
  {
    hide Chain, Lifted, Liftable, Ids, LevelLift;
    var n := |order|;
    if j <= n {
      hide WellFormed;
      assert LevelChain(h, order, ls, j) && (order + [x])[..j] == order[..j];
    } else {
      assert LevelChain(h, order, ls, n) && order[..n] == order && (order + [x])[..j] == order + [x];
      SpanInRest(h, SetOf(order), x);
      hide WellFormed, Rest, SetOf;
      LiftedChain(ls[n], Rest(h, SetOf(order)), |h| + 1, CallAt(h, x) + 1, ReturnAt(h, x) + 1);
      SetOfPush(order, x);
      RestPush(h, SetOf(order), x);
    }
  }

  lemma PushedLift<V>(h: seq<Event<V>>, order: seq<int>, ls: seq<Links>, x: int, l': Links, j: int)
    requires WellFormed(h) && 0 <= x < |h| / 2 && |ls| == |order| + 1 && 0 <= j <= |order| && Ids(|h| / 2, order + [x])
    requires Liftable(ls[|order|], CallAt(h, x) + 1, ReturnAt(h, x) + 1, |h| + 1)
    requires l' == Lifted(ls[|order|], CallAt(h, x) + 1, ReturnAt(h, x) + 1)
    requires LinksInv(h, order, ls) && x !in SetOf(order)
    ensures LevelLift(h, order + [x], ls + [l'], j)
  {
    hide WellFormed, Chain, Rest, LevelChain, SetOf;
    if j < |order| {
      assert LevelLift(h, order, ls, j) && (order + [x])[..j] == order[..j];
    } else {
      assert (order + [x])[..j] == order;
    }
  }

  lemma LinksPop<V>(h: seq<Event<V>>, order: seq<int>, ls: seq<Links>)
    requires WellFormed(h) && Ids(|h| / 2, order) && LinksInv(h, order, ls) && order != []
    ensures var n := |order| - 1;
            LinksInv(h, order[..n], ls[..n + 1]) && LevelLift(h, order, ls, n) && LevelChain(h, order, ls, n)
  {
    hide Chain, Liftable, Lifted, WellFormed;
    var n := |order| - 1;
    var o, ls' := order[..n], ls[..n + 1];
    assert LevelLift(h, order, ls, n) && LevelChain(h, order, ls, n);
    forall j | 0 <= j <= |o| ensures LevelChain(h, o, ls', j) {
      assert LevelChain(h, order, ls, j) && o[..j] == order[..j] && ls'[j] == ls[j];
    }
    forall j | 0 <= j < |o| ensures LevelLift(h, o, ls', j) {
      assert LevelLift(h, order, ls, j) && o[..j] == order[..j];
    }
  }

  lemma SpanInRest<V>(h: seq<Event<V>>, placed: set<int>, x: int)
    requires WellFormed(h) && 0 <= x < |h| / 2 && x !in placed
    ensures var c, r := CallAt(h, x) + 1, ReturnAt(h, x) + 1;
            c in Rest(h, placed) && r in Rest(h, placed) && c < r
  {
  }

  ghost predicate StackOK<S, V>(m: Model<S, V>, h: seq<Event<V>>, all: seq<Node<V>>, calls: seq<CallsEntry<S, V>>,
                                order: seq<int>)
    requires WellFormed(h)
  {
    && |calls| == |order| && |all| == |h| + 1 && Ids(|h| / 2, order)
    && forall j :: 0 <= j < |calls| ==>
         calls[j].entry == all[CallAt(h, order[j]) + 1] && calls[j].entry.id == order[j]
         && calls[j].state == StateOf(m, h, order[..j])
  }

  // ----- the cursor -----

  /** The cursor stands on an unplaced event; no unplaced return lies before it and every unplaced
      call before it has been tried. */
  ghost predicate CursorOK<S, V>(m: Model<S, V>, h: seq<Event<V>>, seen: set<seq<int>>, order: seq<int>, pos: int)
    requires WellFormed(h)
  {
    && 0 <= pos < |h| && h[pos].id !in SetOf(order)
    && NoReturnBefore(h, SetOf(order), pos) && TriedBefore(m, h, seen, order, pos)
  }

  lemma Advance<S, V>(m: Model<S, V>, h: seq<Event<V>>, seen: set<seq<int>>, order: seq<int>, a: int, k: int)
    requires WellFormed(h) && IsNext(Rest(h, SetOf(order)), a, k) && k != -1
    requires NoReturnBefore(h, SetOf(order), a) && TriedBefore(m, h, seen, order, a)
    ensures CursorOK(m, h, seen, order, k - 1)
  {
    var rest := Rest(h, SetOf(order));
    forall y | 0 <= y < |h| / 2 && y !in SetOf(order) ensures k - 1 <= ReturnAt(h, y) {
      assert ReturnAt(h, y) + 1 in rest;
    }
    forall x | 0 <= x < |h| / 2 && x !in SetOf(order) && CallAt(h, x) < k - 1 ensures Tried(m, h, seen, order, x) {
      assert CallAt(h, x) + 1 in rest;
    }
  }

  /** Past a call that has been tried. */
  lemma StepOver<S, V>(m: Model<S, V>, h: seq<Event<V>>, seen: set<seq<int>>, order: seq<int>, pos: int)
    requires WellFormed(h) && CursorOK(m, h, seen, order, pos) && h[pos].kind == Call
    requires Tried(m, h, seen, order, h[pos].id)
    ensures NoReturnBefore(h, SetOf(order), pos + 1) && TriedBefore(m, h, seen, order, pos + 1)
  {
    forall y | 0 <= y < |h| / 2 && y !in SetOf(order) ensures pos + 1 <= ReturnAt(h, y) {
      assert ReturnAt(h, y) != pos;
    }
    forall x | 0 <= x < |h| / 2 && x !in SetOf(order) && CallAt(h, x) < pos + 1 ensures Tried(m, h, seen, order, x) {
      if CallAt(h, x) == pos {
        assert x == h[pos].id;
      }
    }
  }

  /** After a call there is always something left: its own return. */
  lemma CallHasNext<V>(h: seq<Event<V>>, l: Links, placed: set<int>, x: int)
    requires WellFormed(h) && 0 <= x < |h| / 2 && x !in placed && Chain(l, Rest(h, placed), |h| + 1)
    ensures var c := CallAt(h, x) + 1; 1 <= c <= |h| && IsNext(Rest(h, placed), c, l.next[c]) && l.next[c] > c
  {
    hide Chain, IsNext, WellFormed;
    var c, r := CallAt(h, x) + 1, ReturnAt(h, x) + 1;
    assert c in Rest(h, placed) && r in Rest(h, placed);
    ChainRange(l, Rest(h, placed), |h| + 1, c);
    HasLater(l, Rest(h, placed), |h| + 1, c, r);
  }

  lemma HeadNext<V>(h: seq<Event<V>>, l: Links, placed: set<int>)
    requires WellFormed(h) && Chain(l, Rest(h, placed), |h| + 1)
    ensures IsNext(Rest(h, placed), 0, l.next[0])
    ensures l.next[0] == -1 <==> forall x :: 0 <= x < |h| / 2 ==> x in placed
  {
    if l.next[0] == -1 {
      forall x | 0 <= x < |h| / 2 ensures x in placed {
        assert CallAt(h, x) + 1 !in Rest(h, placed);
      }
    } else {
      assert l.next[0] in Rest(h, placed);
    }
  }

  // ----- termination -----

  /** All sequences of at most k ids below n. */
  ghost function Orders(n: nat, k: nat): set<seq<int>> {
    if k == 0 then {[]}
    else Orders(n, k - 1) + (set w, x | w in Orders(n, k - 1) && x in Below(n) :: w + [x])
  }

  lemma {:induction false} OrdersComplete(n: nat, k: nat, w: seq<int>)
    requires |w| <= k && forall i :: 0 <= i < |w| ==> 0 <= w[i] < n
    ensures w in Orders(n, k)
  {
    if w == [] {
      if k > 0 {
        OrdersComplete(n, k - 1, w);
      }
    } else {
      var o, x := w[..|w| - 1], w[|w| - 1];
      OrdersComplete(n, k - 1, o);
      assert o + [x] == w;
    }
  }

  // ----- the search -----

  lemma NodeFacts<V>(all: seq<Node<V>>, h: seq<Event<V>>, p: int)
    requires WellFormed(h) && Labels(all, h) && 0 <= p < |h|
    ensures var x := all[p + 1];
            && x.id == h[p].id && x.value == Holds(h[p].value) && 0 <= x.id < |h| / 2
            && (x.mate == null <==> h[p].kind == Return)
            && (h[p].kind == Call ==> && p == CallAt(h, x.id) && x.mate == all[ReturnAt(h, x.id) + 1]
                                      && x.mate.value == Holds(h[ReturnAt(h, x.id)].value))
  {
    assert LabelAt(all, h, p);
    SpanIsUnique(h, p);
    if h[p].kind == Call {
      assert LabelAt(all, h, ReturnAt(h, h[p].id));
    }
  }

  lemma PointerFacts<V>(all: seq<Node<V>>, l: Links, k: int)
    requires Reflects(all, l) && 0 <= k < |all|
    ensures |l.next| == |all| && -1 <= l.next[k] < |all| && all[k].next == Deref(all, l.next[k])
  {
  }

  /** The list is empty exactly when everything is placed. */
  lemma EmptyListMeansFull<S, V>(m: Model<S, V>, h: seq<Event<V>>, all: seq<Node<V>>, order: seq<int>, ls: seq<Links>)
    requires WellFormed(h) && LinksInv(h, order, ls) && Ids(|h| / 2, order) && |all| == |h| + 1
    requires Reflects(all, ls[|order|])
    ensures all[0].next == null <==> |order| == |h| / 2
    ensures |order| <= |h| / 2
    ensures Chain(ls[|order|], Rest(h, SetOf(order)), |h| + 1) && |ls[|order|].next| == |h| + 1
    ensures |order| < |h| / 2 ==>
              && IsNext(Rest(h, SetOf(order)), 0, ls[|order|].next[0]) && 1 <= ls[|order|].next[0] <= |h|
              && all[0].next == all[ls[|order|].next[0]]
  {
    hide Chain, IsNext, WellFormed, Reflects;
    var n := |order|;
    assert LevelChain(h, order, ls, n) && order[..n] == order;
    PointerFacts(all, ls[n], 0);
    HeadNext(h, ls[n], SetOf(order));
    FullOrderPlacesAll(|h| / 2, order);
    HeadNextPositive(h, ls[n], SetOf(order));
  }

  lemma HeadNextPositive<V>(h: seq<Event<V>>, l: Links, placed: set<int>)
    requires Chain(l, Rest(h, placed), |h| + 1)
    ensures l.next[0] == -1 || 1 <= l.next[0] <= |h|
  {
  }

  /** Nothing recorded is lost or shortened. */
  ghost predicate NoWorse(longest: seq<Partial>, res: seq<Partial>) {
    && |res| == |longest|
    && forall x :: 0 <= x < |res| && longest[x].Found? ==> res[x].Found? && |res[x].ids| >= |longest[x].ids|
  }

  /** The first i operations of the order have something at least as long recorded. */
  ghost predicate CoversUpTo(res: seq<Partial>, order: seq<int>, i: int) {
    forall j :: 0 <= j < i <= |order| ==>
      0 <= order[j] < |res| && res[order[j]].Found? && |res[order[j]].ids| >= |order|
  }

  /** The step that records the current order for each of its operations, where it is an improvement. */
  method Record<S(!new), V(!new)>(calls: seq<CallsEntry<S, V>>, longest: seq<Partial>, ghost m: Model<S, V>,
                                  ghost h: seq<Event<V>>, ghost all: seq<Node<V>>, ghost order: seq<int>)
    returns (res: seq<Partial>)
    requires WellFormed(h) && StackOK(m, h, all, calls, order) && IsPartial(m, h, order) && PartialsOK(m, h, longest)
    ensures PartialsOK(m, h, res) && NoWorse(longest, res) && CoversUpTo(res, order, |order|)
  {
    StackIds(m, h, all, calls, order);
    IdsBelow(m, h, order, longest);
    hide WellFormed, IsPartial, StackOK, PartialsOK, NoWorse, CoversUpTo, Ids;
    res := longest;
    NothingRecorded(longest, order);
    var ids: seq<int> := [];
    var made := false;
    for i := 0 to |calls|
      invariant |res| == |longest| && PartialsOK(m, h, res) && (made ==> ids == order)
      invariant NoWorse(longest, res) && CoversUpTo(res, order, i)
    {
      var id := calls[i].entry.id;
      if res[id].Unset? || |calls| > |res[id].ids| {
        if !made {
          ids := CallIds(calls, order);
          made := true;
        }
        RecordHolds(m, h, longest, res, order, i);
        res := res[id := Found(ids)];
      } else {
        AlreadyCovered(res, order, i);
      }
    }
  }

  lemma IdsBelow<S, V>(m: Model<S, V>, h: seq<Event<V>>, order: seq<int>, longest: seq<Partial>)
    requires WellFormed(h) && Ids(|h| / 2, order) && PartialsOK(m, h, longest)
    ensures forall j :: 0 <= j < |order| ==> 0 <= order[j] < |longest|
  {
  }

  lemma NothingRecorded(longest: seq<Partial>, order: seq<int>)
    ensures NoWorse(longest, longest) && CoversUpTo(longest, order, 0)
  {
  }

  lemma RecordHolds<S(!new), V(!new)>(m: Model<S, V>, h: seq<Event<V>>, longest: seq<Partial>, res: seq<Partial>,
                                      order: seq<int>, i: nat)
    requires WellFormed(h) && IsPartial(m, h, order) && PartialsOK(m, h, res) && NoWorse(longest, res)
    requires i < |order| && CoversUpTo(res, order, i) && 0 <= order[i] < |res|
    requires res[order[i]].Unset? || |order| > |res[order[i]].ids|
    ensures var res' := res[order[i] := Found(order)];
            PartialsOK(m, h, res') && NoWorse(longest, res') && CoversUpTo(res', order, i + 1)
  {
    hide WellFormed, IsPartial;
    assert order[i] in SetOf(order);
  }

  lemma AlreadyCovered(res: seq<Partial>, order: seq<int>, i: nat)
    requires i < |order| && CoversUpTo(res, order, i) && 0 <= order[i] < |res|
    requires res[order[i]].Found? && |order| <= |res[order[i]].ids|
    ensures CoversUpTo(res, order, i + 1)
  {
  }

  lemma StackIds<S, V>(m: Model<S, V>, h: seq<Event<V>>, all: seq<Node<V>>, calls: seq<CallsEntry<S, V>>,
                       order: seq<int>)
    requires WellFormed(h) && StackOK(m, h, all, calls, order)
    ensures Ids(|h| / 2, order) && Holding(calls, order)
  {
    hide WellFormed, StateOf;
  }

  ghost predicate Holding<S, V>(calls: seq<CallsEntry<S, V>>, order: seq<int>) {
    |calls| == |order| && forall j :: 0 <= j < |calls| ==> calls[j].entry.id == order[j]
  }

  method CallIds<S, V>(calls: seq<CallsEntry<S, V>>, ghost order: seq<int>) returns (ids: seq<int>)
    requires Holding(calls, order)
    ensures ids == order
  {
    ids := [];
    for i := 0 to |calls|
      invariant |ids| == i && forall j :: 0 <= j < i ==> ids[j] == order[j]
    {
      ids := ids + [calls[i].entry.id];
    }
  }

  lemma PopRecorded<V>(h: seq<Event<V>>, seen: set<seq<int>>, order: seq<int>, longest: seq<Partial>, res: seq<Partial>)
    requires Recorded(h, seen, order, longest) && NoWorse(longest, res) && CoversUpTo(res, order, |order|)
    requires order != []
    ensures Recorded(h, seen, order[..|order| - 1], res)
  {
    var n := |order| - 1;
    assert order[..n] + [order[n]] == order;
    forall w, x | w in seen && !(w <= order[..n]) && x in SetOf(w) && 0 <= x < |res|
      ensures res[x].Found? && |res[x].ids| >= |w|
    {
      PrefixOfPush(w, order[..n], order[n]);
    }
  }

  lemma PushRecorded<V>(h: seq<Event<V>>, seen: set<seq<int>>, order: seq<int>, x: int, longest: seq<Partial>)
    requires Recorded(h, seen, order, longest)
    ensures Recorded(h, seen + {order + [x]}, order + [x], longest)
  {
    forall w, y | w in seen + {order + [x]} && !(w <= order + [x]) && y in SetOf(w) && 0 <= y < |longest|
      ensures longest[y].Found? && |longest[y].ids| >= |w|
    {
      PrefixOfPush(w, order, x);
    }
  }

  lemma StackPush<S, V>(m: Model<S, V>, h: seq<Event<V>>, all: seq<Node<V>>, calls: seq<CallsEntry<S, V>>,
                        order: seq<int>, x: int)
    requires WellFormed(h) && StackOK(m, h, all, calls, order) && Labels(all, h)
    requires 0 <= x < |h| / 2 && Ids(|h| / 2, order + [x])
    ensures StackOK(m, h, all, calls + [CallsEntry(all[CallAt(h, x) + 1], StateOf(m, h, order))], order + [x])
  {
    hide WellFormed, Labels, StateOf;
    var o := order + [x];
    NodeFacts(all, h, CallAt(h, x));
    var calls' := calls + [CallsEntry(all[CallAt(h, x) + 1], StateOf(m, h, order))];
    forall j | 0 <= j < |calls'|
      ensures calls'[j].entry == all[CallAt(h, o[j]) + 1] && calls'[j].entry.id == o[j]
      ensures calls'[j].state == StateOf(m, h, o[..j])
    {
      assert o[..j] == if j < |order| then order[..j] else order;
    }
  }

  lemma StackPop<S, V>(m: Model<S, V>, h: seq<Event<V>>, all: seq<Node<V>>, calls: seq<CallsEntry<S, V>>,
                       order: seq<int>)
    requires WellFormed(h) && StackOK(m, h, all, calls, order) && order != []
    ensures var n := |order| - 1;
            StackOK(m, h, all, calls[..n], order[..n]) && calls[n].entry == all[CallAt(h, order[n]) + 1]
            && calls[n].state == StateOf(m, h, order[..n]) && calls[n].entry.id == order[n]
  {
    hide WellFormed, StateOf;
    var n := |order| - 1;
    assert forall j :: 0 <= j <= n ==> order[..n][..j] == order[..j];
  }

  /** After an operation is placed or taken back, the cursor starts from the first event left. */
  lemma CursorAtHead<S, V>(m: Model<S, V>, h: seq<Event<V>>, seen: set<seq<int>>, order: seq<int>, k: int)
    requires WellFormed(h) && IsNext(Rest(h, SetOf(order)), 0, k) && 1 <= k
    ensures CursorOK(m, h, seen, order, k - 1)
  {
    Advance(m, h, seen, order, 0, k);
  }

  lemma IdInRange<V>(h: seq<Event<V>>, p: int)
    requires WellFormed(h) && 0 <= p < |h|
    ensures 0 <= h[p].id < |h| / 2
  {
  }

  /** Past a tried call the cursor finds the next event left. */
  lemma CursorPastCall<S, V>(m: Model<S, V>, h: seq<Event<V>>, all: seq<Node<V>>, l: Links,
                             seen: set<seq<int>>, order: seq<int>, pos: int)
    requires WellFormed(h) && |all| == |h| + 1 && Reflects(all, l) && Chain(l, Rest(h, SetOf(order)), |h| + 1)
    requires 0 <= pos < |h| && h[pos].kind == Call && h[pos].id !in SetOf(order)
    requires NoReturnBefore(h, SetOf(order), pos + 1) && TriedBefore(m, h, seen, order, pos + 1)
    ensures var k := l.next[pos + 1];
            pos + 1 < k <= |h| && all[pos + 1].next == all[k] && CursorOK(m, h, seen, order, k - 1)
  {
    hide WellFormed, Chain, Reflects, IsNext, NoReturnBefore, TriedBefore, CursorOK, SetOf, Rest, Span;
    SpanIsUnique(h, pos);
    IdInRange(h, pos);
    CallHasNext(h, l, SetOf(order), h[pos].id);
    PointerFacts(all, l, pos + 1);
    Advance(m, h, seen, order, pos + 1, l.next[pos + 1]);
  }

  lemma CursorKind<S, V>(m: Model<S, V>, h: seq<Event<V>>, seen: set<seq<int>>, order: seq<int>, pos: int)
    requires WellFormed(h) && CursorOK(m, h, seen, order, pos)
    ensures 0 <= pos < |h| && h[pos].id !in SetOf(order)
    ensures h[pos].kind == Call ==> MayFollow(h, SetOf(order), h[pos].id) && CallAt(h, h[pos].id) == pos
    ensures h[pos].kind == Return ==> Explored(m, h, seen, order)
    ensures TriedBefore(m, h, seen, order, pos)
  {
    if h[pos].kind == Call {
      CallMayFollow(h, SetOf(order), pos);
    } else {
      ReturnMeansExplored(m, h, seen, order, pos);
    }
  }

  /** A tried call lets the cursor move on. */
  lemma SkipCall<S, V>(m: Model<S, V>, h: seq<Event<V>>, all: seq<Node<V>>, l: Links,
                       seen: set<seq<int>>, order: seq<int>, pos: int)
    requires WellFormed(h) && |all| == |h| + 1 && Reflects(all, l) && Chain(l, Rest(h, SetOf(order)), |h| + 1)
    requires CursorOK(m, h, seen, order, pos) && h[pos].kind == Call && Tried(m, h, seen, order, h[pos].id)
    ensures var k := l.next[pos + 1];
            pos + 1 < k <= |h| && all[pos + 1].next == all[k] && CursorOK(m, h, seen, order, k - 1)
  {
    StepOver(m, h, seen, order, pos);
    CursorPastCall(m, h, all, l, seen, order, pos);
  }

  lemma SearchFacts<S, V>(m: Model<S, V>, h: seq<Event<V>>, seen: set<seq<int>>, order: seq<int>)
    requires WellFormed(h) && SearchInv(m, h, seen, order)
    ensures IsPartial(m, h, order) && Ids(|h| / 2, order)
    ensures forall w :: w in seen ==> w in Orders(|h| / 2, |h| / 2)
  {
    forall w | w in seen ensures w in Orders(|h| / 2, |h| / 2) {
      PartialIds(m, h, w);
      FullOrderPlacesAll(|h| / 2, w);
      OrdersComplete(|h| / 2, |h| / 2, w);
    }
  }

  /** What one level of the search stands for, stack and list taken together. */
  ghost predicate LevelOK<S, V>(m: Model<S, V>, h: seq<Event<V>>, all: seq<Node<V>>, cache: Cache<S>,
                                calls: seq<CallsEntry<S, V>>, state: S, chunks: nat,
                                seen: set<seq<int>>, order: seq<int>, ls: seq<Links>)
    requires WellFormed(h)
  {
    && SearchInv(m, h, seen, order) && Ids(|h| / 2, order) && IsPartial(m, h, order)
    && CacheOK(m, h, cache, seen, chunks)
    && StackOK(m, h, all, calls, order) && |calls| == |order|
    && LinksInv(h, order, ls) && |ls| == |order| + 1
    && state == StateOf(m, h, order)
  }

  lemma LevelStart<S, V>(m: Model<S, V>, h: seq<Event<V>>, all: seq<Node<V>>, chunks: nat)
    requires WellFormed(h) && |all| == |h| + 1
    ensures LevelOK(m, h, all, map[], [], m.init, chunks, {}, [], [Initial(|h|)])
    ensures SetOf([]) == {}
    ensures forall longest :: Recorded(h, {}, [], longest)
  {
    StartHolds(m, h);
    LinksStart(h);
  }

  /** What pushing or popping the operation x = order[n] needs to know about the list below it. */
  ghost predicate LiftFacts<V>(h: seq<Event<V>>, order: seq<int>, ls: seq<Links>, n: int)
    requires WellFormed(h) && 0 <= n < |order| && |ls| == |order| + 1 && Ids(|h| / 2, order)
  {
    var rest := Rest(h, SetOf(order[..n]));
    var c, r := CallAt(h, order[n]) + 1, ReturnAt(h, order[n]) + 1;
    LevelLift(h, order, ls, n) && Chain(ls[n], rest, |h| + 1) && c in rest && r in rest && c < r
  }

  lemma LevelPush<S(!new), V(!new)>(m: Model<S, V>, h: seq<Event<V>>, all: seq<Node<V>>, cache: Cache<S>,
                                    calls: seq<CallsEntry<S, V>>, state: S, chunks: nat,
                                    seen: set<seq<int>>, order: seq<int>, ls: seq<Links>,
                                    pos: int, x: int, e: CacheEntry<S>)
    returns (ls': seq<Links>)
    requires WellFormed(h) && Lawful(m) && Labels(all, h) && |all| == |h| + 1
    requires LevelOK(m, h, all, cache, calls, state, chunks, seen, order, ls)
    requires CursorOK(m, h, seen, order, pos) && 0 <= pos < |h| && h[pos].kind == Call && x == h[pos].id
    requires 0 <= x < |h| / 2 && StepOf(m, h, state, x) == (true, e.state)
    requires !Known(m, h, seen, SetOf(order) + {x}, e.state)
    requires |e.linearized| == chunks && Members(e.linearized) == SetOf(order) + {x}
    requires |order| < |h| / 2
    ensures SetOf(order + [x]) == SetOf(order) + {x} && order + [x] !in seen && CallAt(h, x) == pos
    ensures LevelOK(m, h, all, AddEntry(cache, Hash(e.linearized), e), calls + [CallsEntry(all[pos + 1], state)],
                    e.state, chunks, seen + {order + [x]}, order + [x], ls')
    ensures |ls| == |order| + 1 && |ls'| == |order| + 2 && ls'[|order|] == ls[|order|]
    ensures Ids(|h| / 2, order + [x]) && LiftFacts(h, order + [x], ls', |order|)
  {
    hide WellFormed, Lawful, Labels, SearchInv, CacheOK, StackOK, LinksInv, CursorOK, Known, Chain, SetOf, Members,
         StateOf, Unlink, Hash, AddEntry, IsPartial, Ids, StepOf, MayFollow, TriedBefore, LevelLift, Rest;
    CursorKind(m, h, seen, order, pos);
    SetOfPush(order, x);
    PushHolds(m, h, seen, order, x);
    SearchFacts(m, h, seen + {order + [x]}, order + [x]);
    AddKeepsCache(m, h, cache, seen, chunks, e, order + [x]);
    ls' := PushLinks(h, order, ls, x);
    StackPush(m, h, all, calls, order, x);
  }

  lemma PushLinks<V>(h: seq<Event<V>>, order: seq<int>, ls: seq<Links>, x: int) returns (ls': seq<Links>)
    requires WellFormed(h) && LinksInv(h, order, ls) && 0 <= x < |h| / 2 && x !in SetOf(order)
    requires Ids(|h| / 2, order + [x])
    ensures |ls| == |order| + 1 && |ls'| == |order| + 2 && ls'[|order|] == ls[|order|]
    ensures LinksInv(h, order + [x], ls') && LiftFacts(h, order + [x], ls', |order|)
  {
    hide WellFormed, Chain, SetOf, Unlink, Rest;
    LinksTop(h, order, ls, x);
    var l' := Lifted(ls[|order|], CallAt(h, x) + 1, ReturnAt(h, x) + 1);
    LinksPush(h, order, ls, x, l');
    ls' := ls + [l'];
    assert (order + [x])[..|order|] == order;
    assert LevelLift(h, order + [x], ls', |order|);
  }

  lemma LevelPop<S(!new), V(!new)>(m: Model<S, V>, h: seq<Event<V>>, all: seq<Node<V>>, cache: Cache<S>,
                                   calls: seq<CallsEntry<S, V>>, state: S, chunks: nat,
                                   seen: set<seq<int>>, order: seq<int>, ls: seq<Links>)
    requires WellFormed(h) && Lawful(m) && |all| == |h| + 1 && Ids(|h| / 2, order)
    requires LevelOK(m, h, all, cache, calls, state, chunks, seen, order, ls)
    requires Explored(m, h, seen, order) && order != [] && |order| < |h| / 2
    ensures var n := |order| - 1;
            var x := order[n];
            && 0 <= x < |h| / 2 && |calls| == |order| && |ls| == |order| + 1
            && LevelOK(m, h, all, cache, calls[..n], calls[n].state, chunks, seen, order[..n], ls[..n + 1])
            && TriedBefore(m, h, seen, order[..n], CallAt(h, x) + 1)
            && NoReturnBefore(h, SetOf(order[..n]), CallAt(h, x) + 1)
            && calls[n].entry == all[CallAt(h, x) + 1] && calls[n].entry.id == x
            && LiftFacts(h, order, ls, n)
  {
    hide WellFormed, Lawful, SearchInv, CacheOK, LinksInv, Known, Chain, SetOf, StackOK, Rest,
         StateOf, Unlink, Liftable, Lifted, IsPartial, StepOf, MayFollow, TriedBefore, NoReturnBefore, Explored, Run;
    var n := |order| - 1;
    PopHolds(m, h, seen, order);
    SearchFacts(m, h, seen, order[..n]);
    LinksPop(h, order, ls);
    StackPop(m, h, all, calls, order);
    SpanInRest(h, SetOf(order[..n]), order[n]);
  }

  lemma PopSet(n: int, order: seq<int>)
    requires Ids(n, order) && order != []
    ensures SetOf(order[..|order| - 1]) == SetOf(order) - {order[|order| - 1]}
    ensures order[|order| - 1] !in SetOf(order[..|order| - 1])
  {
    var k := |order| - 1;
    assert order[..k] + [order[k]] == order;
    SetOfPush(order[..k], order[k]);
  }

  lemma LevelFacts<S, V>(m: Model<S, V>, h: seq<Event<V>>, all: seq<Node<V>>, cache: Cache<S>,
                         calls: seq<CallsEntry<S, V>>, state: S, chunks: nat,
                         seen: set<seq<int>>, order: seq<int>, ls: seq<Links>)
    requires WellFormed(h) && LevelOK(m, h, all, cache, calls, state, chunks, seen, order, ls)
    requires |all| == |h| + 1 && |ls| == |order| + 1 && Reflects(all, ls[|order|])
    ensures |calls| == |order| && |ls| == |order| + 1 && Ids(|h| / 2, order) && |order| <= |h| / 2
    ensures IsPartial(m, h, order) && StackOK(m, h, all, calls, order) && CacheOK(m, h, cache, seen, chunks)
    ensures SearchInv(m, h, seen, order)
    ensures state == StateOf(m, h, order)
    ensures all[0].next == null <==> |order| == |h| / 2
    ensures Chain(ls[|order|], Rest(h, SetOf(order)), |h| + 1) && |ls[|order|].next| == |h| + 1
    ensures |order| < |h| / 2 ==>
              && 1 <= ls[|order|].next[0] <= |h| && all[0].next == all[ls[|order|].next[0]]
              && CursorOK(m, h, seen, order, ls[|order|].next[0] - 1)
    ensures seen <= Orders(|h| / 2, |h| / 2)
  {
    hide WellFormed, SearchInv, CacheOK, StackOK, LinksInv, Chain, Reflects, IsPartial, Ids, CursorOK, SetOf, Rest,
         StateOf, IsNext, Orders;
    EmptyListMeansFull(m, h, all, order, ls);
    SearchFacts(m, h, seen, order);
    if |order| < |h| / 2 {
      CursorAtHead(m, h, seen, order, ls[|order|].next[0]);
    }
  }

  /** The verdict when the last level is exhausted. */
  lemma Refuted<S(!new), V(!new)>(m: Model<S, V>, h: seq<Event<V>>, seen: set<seq<int>>, longest: seq<Partial>,
                                  recorded: bool)
    requires WellFormed(h) && Lawful(m) && SearchInv(m, h, seen, []) && Explored(m, h, seen, []) && |h| > 0
    requires PartialsOK(m, h, longest) && (recorded ==> Recorded(h, seen, [], longest))
    ensures !Linearizable(m, h)
    ensures recorded ==> forall x :: 0 <= x < |longest| ==> IsLongest(m, h, x, longest[x])
  {
    hide WellFormed, Lawful, SearchInv, Explored, PartialsOK, Recorded, Linearizable, IsLongest;
    ExhaustedMeansIllegal(m, h, seen);
    if recorded {
      forall x | 0 <= x < |longest| ensures IsLongest(m, h, x, longest[x]) {
        ExhaustedMeansLongest(m, h, seen, longest, x);
      }
    }
  }

  /** The verdict when everything is placed. */
  lemma Confirmed<S, V>(m: Model<S, V>, h: seq<Event<V>>, order: seq<int>, longest: seq<Partial>)
    requires WellFormed(h) && IsPartial(m, h, order) && |order| == |h| / 2 && |longest| == |h| / 2
    requires forall x :: 0 <= x < |longest| ==> longest[x] == Found(order)
    ensures Linearizable(m, h) && IsLinearization(m, h, order) && PartialsOK(m, h, longest)
  {
    hide WellFormed, IsPartial, SetOf;
    FullPartialIsLinearization(m, h, order);
    PartialIds(m, h, order);
    FullOrderPlacesAll(|h| / 2, order);
  }

  /** A call the search has dealt with, either because the model refuses it or because its outcome is known. */
  lemma HandledCall<S, V>(m: Model<S, V>, h: seq<Event<V>>, seen: set<seq<int>>, order: seq<int>, x: int)
    requires WellFormed(h) && 0 <= x < |h| / 2
    requires var r := StepOf(m, h, StateOf(m, h, order), x); r.0 ==> Known(m, h, seen, SetOf(order) + {x}, r.1)
    ensures Tried(m, h, seen, order, x)
  {
  }

  lemma InBitset(n: nat, chunks: nat, x: int)
    requires 0 <= x < n && chunks == ChunksFor(n)
    ensures x < 64 * chunks
  {
  }

  /** Everything that holds each time round the loop. */
  ghost predicate LoopOK<S, V>(m: Model<S, V>, h: seq<Event<V>>, all: seq<Node<V>>, linearized: array<Word>,
                               cache: Cache<S>, calls: seq<CallsEntry<S, V>>, state: S, entry: Node?<V>,
                               seen: set<seq<int>>, order: seq<int>, ls: seq<Links>, pos: int)
    reads all, linearized
  {
    && WellFormed(h) && |all| == |h| + 1 && Labels(all, h)
    && LevelOK(m, h, all, cache, calls, state, ChunksFor(|h| / 2), seen, order, ls)
    && |calls| == |order| <= |h| / 2 && |ls| == |order| + 1 && Reflects(all, ls[|order|])
    && linearized.Length == ChunksFor(|h| / 2) && Members(linearized[..]) == SetOf(order)
    && (|order| < |h| / 2 ==> 0 <= pos < |h| && entry == all[pos + 1] && CursorOK(m, h, seen, order, pos))
    && seen <= Orders(|h| / 2, |h| / 2)
  }

  /** The cursor is on a call: place it if the model accepts it and the outcome is new, else move on. */
  method TryCall<S(!new), V(!new)>(m: Model<S, V>, head: Node<V>, linearized: array<Word>, cache: Cache<S>,
                                   calls: seq<CallsEntry<S, V>>, state: S, entry: Node<V>, ghost h: seq<Event<V>>,
                                   ghost all: seq<Node<V>>, ghost seen: set<seq<int>>, ghost order: seq<int>,
                                   ghost ls: seq<Links>, ghost pos: int)
    returns (cache': Cache<S>, calls': seq<CallsEntry<S, V>>, state': S, entry': Node?<V>,
             ghost seen': set<seq<int>>, ghost order': seq<int>, ghost ls': seq<Links>, ghost pos': int)
    requires LoopOK(m, h, all, linearized, cache, calls, state, entry, seen, order, ls, pos) && Lawful(m)
    requires |order| < |h| / 2 && head == all[0] && entry.mate != null
    modifies all, linearized
    ensures LoopOK(m, h, all, linearized, cache', calls', state', entry', seen', order', ls', pos')
    ensures if seen' == seen then order' == order && calls' == calls && pos < pos' <= |h|
            else exists x :: seen' == seen + {order + [x]} && order' == order + [x] && order + [x] !in seen
  {
    hide WellFormed, Lawful, Labels, LevelOK, SearchInv, CacheOK, StackOK, LinksInv, Chain, Reflects, IsPartial,
         Ids, CursorOK, SetOf, Rest, StateOf, Orders, Known, Tried, Explored, TriedBefore, Members, Hash, MayFollow,
         Span,
         LiftFacts, AddEntry;
    ghost var chunks: nat := ChunksFor(|h| / 2);
    LevelFacts(m, h, all, cache, calls, state, chunks, seen, order, ls);
    CursorKind(m, h, seen, order, pos);
    NodeFacts(all, h, pos);
    ghost var x := entry.id;
    var (accepted, newState) := m.step(state, entry.value.value, entry.mate.value.value);
    assert (accepted, newState) == StepOf(m, h, state, x);
    if accepted {
      var newLinearized := Clone(linearized);
      InBitset(|h| / 2, chunks, x);
      Set(newLinearized, entry.id);
      var found := CacheContains(m, cache, newLinearized, newState, h, seen);
      if !found {
        var hash := ComputeHash(newLinearized);
        var e := CacheEntry(newLinearized[..], newState);
        ls' := LevelPush(m, h, all, cache, calls, state, chunks, seen, order, ls, pos, x, e);
        cache' := AddEntry(cache, hash, e);
        calls' := calls + [CallsEntry(entry, state)];
        state' := newState;
        Set(linearized, entry.id);
        seen', order' := seen + {order + [x]}, order + [x];
        LiftAt(entry, all, h, order', ls');
        LevelFacts(m, h, all, cache', calls', state', chunks, seen', order', ls');
        entry' := head.next;
        pos' := if |order'| < |h| / 2 then ls'[|order'|].next[0] - 1 else |h|;
        assert order + [x] in seen';
        return;
      }
    }
    HandledCall(m, h, seen, order, x);
    SkipCall(m, h, all, ls[|order|], seen, order, pos);
    cache', calls', state', seen', order', ls' := cache, calls, state, seen, order, ls;
    entry' := entry.next;
    pos' := ls[|order|].next[pos + 1] - 1;
  }

  /** The cursor is on a return and something is placed: take the last operation back and resume after it. */
  method Backtrack<S(!new), V(!new)>(m: Model<S, V>, linearized: array<Word>, ghost cache: Cache<S>,
                                     calls: seq<CallsEntry<S, V>>, ghost state: S, ghost entry: Node<V>,
                                     ghost h: seq<Event<V>>,
                                     ghost all: seq<Node<V>>, ghost seen: set<seq<int>>, ghost order: seq<int>,
                                     ghost ls: seq<Links>, ghost pos: int)
    returns (calls': seq<CallsEntry<S, V>>, state': S, entry': Node?<V>,
             ghost order': seq<int>, ghost ls': seq<Links>, ghost pos': int)
    requires LoopOK(m, h, all, linearized, cache, calls, state, entry, seen, order, ls, pos) && Lawful(m)
    requires |order| < |h| / 2 && entry.mate == null && |calls| > 0
    modifies all, linearized
    ensures LoopOK(m, h, all, linearized, cache, calls', state', entry', seen, order', ls', pos')
    ensures order' == order[..|order| - 1] && |calls'| == |calls| - 1
  {
    hide WellFormed, Lawful, Labels, LevelOK, SearchInv, CacheOK, StackOK, LinksInv, Chain, Reflects, IsPartial,
         CursorOK, SetOf, Rest, StateOf, Orders, Known, Tried, Explored, TriedBefore, NoReturnBefore, Members,
         MayFollow,
         LiftFacts;
    ghost var chunks: nat := ChunksFor(|h| / 2);
    LevelFacts(m, h, all, cache, calls, state, chunks, seen, order, ls);
    CursorKind(m, h, seen, order, pos);
    NodeFacts(all, h, pos);
    LevelPop(m, h, all, cache, calls, state, chunks, seen, order, ls);
    ghost var k := |order| - 1;
    ghost var c := CallAt(h, order[k]);
    PopSet(|h| / 2, order);
    var top := calls[|calls| - 1];
    var node := top.entry;
    state' := top.state;
    InBitset(|h| / 2, chunks, node.id);
    Clear(linearized, node.id);
    calls' := calls[..|calls| - 1];
    UnliftAt(node, all, h, order, ls);
    order', ls' := order[..k], ls[..k + 1];
    LevelFacts(m, h, all, cache, calls', state', chunks, seen, order', ls');
    CursorPastCall(m, h, all, ls[k], seen, order', c);
    entry' := node.next;
    pos' := ls[k].next[c + 1] - 1;
  }

  /** The list, the head in front of it and an empty bitset. */
  method Prepare<S(!new), V(!new)>(ghost m: Model<S, V>, h: seq<Event<V>>)
    returns (n: nat, head: Node<V>, entry: Node?<V>, linearized: array<Word>, ghost all: seq<Node<V>>, ghost pos: int)
    requires WellFormed(h)
    ensures n == |h| / 2 && |all| == |h| + 1 && head == all[0] && fresh(all) && fresh(linearized)
    ensures head.next == null <==> n == 0
    ensures LoopOK(m, h, all, linearized, map[], [], m.init, entry, {}, [], [Initial(|h|)], pos)
  {
    hide WellFormed, Labels, LevelOK, Chain, Reflects, CursorOK, SetOf, Rest, Orders, Members, Linked, Suffix,
         Initial, Recorded,
         CacheOK, SearchInv, StackOK, LinksInv, StateOf;
    ghost var nodes: seq<Node<V>>;
    entry, nodes := MakeLinkedEntries(h);
    var len := Length(entry, nodes);
    SuffixSize(nodes, h);
    n := len / 2;
    linearized := NewBitset(n);
    head, all := AttachHead(entry, h, nodes);
    LevelStart(m, h, all, ChunksFor(n));
    LevelFacts(m, h, all, map[], [], m.init, ChunksFor(n), {}, [], [Initial(|h|)]);
    if len > 0 {
      FirstIsOne(|h|);
    }
    pos := 0;
  }

  lemma FirstIsOne(n: nat)
    requires n > 0
    ensures |Initial(n).next| == n + 1 && Initial(n).next[0] == 1
  {
  }

  /** Decides whether the history is linearizable. `kill(i)` is what the i-th poll of the kill flag reads;
      a killed search may give up, and only then may it answer false for a linearizable history. */
  method CheckSingle<S(!new), V(!new)>(m: Model<S, V>, h: seq<Event<V>>, computePartial: bool, kill: nat -> bool)
    returns (ok: bool, longest: seq<Partial>)
    requires WellFormed(h) && Lawful(m)
    ensures ok ==> Linearizable(m, h)
    ensures !ok && (forall i :: !kill(i)) ==> !Linearizable(m, h)
    ensures PartialsOK(m, h, longest)
    ensures ok ==> forall x :: 0 <= x < |longest| ==> longest[x].Found? && IsLinearization(m, h, longest[x].ids)
    ensures !ok && computePartial && (forall i :: !kill(i)) ==>
              forall x :: 0 <= x < |longest| ==> IsLongest(m, h, x, longest[x])
    ensures !ok && !computePartial ==> forall x :: 0 <= x < |longest| ==> longest[x] == Unset
    ensures |h| >= 2 && kill(0) ==> !ok && forall x :: 0 <= x < |longest| ==> longest[x] == Unset
  {
    hide WellFormed, Lawful, Labels, LevelOK, SearchInv, CacheOK, StackOK, LinksInv, Chain, Reflects, IsPartial,
         Ids, CursorOK, SetOf, Rest, StateOf, Orders, Explored, TriedBefore,
         Linearizable, IsLinearization, IsLongest, PartialsOK, Recorded, Members, MayFollow, Linked, Suffix;
    var n: nat, head: Node<V>, entry: Node?<V>, linearized: array<Word>;
    ghost var all: seq<Node<V>>, pos: int;
    n, head, entry, linearized, all, pos := Prepare(m, h);
    var cache: Cache<S> := map[];
    var calls: seq<CallsEntry<S, V>> := [];
    longest := seq(n, _ => Unset);
    NothingFound(m, h, longest);
    var state := m.init;
    ghost var seen, order, ls := {}, [], [Initial(|h|)];
    LevelStart(m, h, all, ChunksFor(n));
    var polls := 0;
    while head.next != null
      invariant head == all[0] && fresh(all) && fresh(linearized)
      invariant LoopOK(m, h, all, linearized, cache, calls, state, entry, seen, order, ls, pos)
      invariant head.next == null <==> |order| == n
      invariant |longest| == n && PartialsOK(m, h, longest) && (computePartial ==> Recorded(h, seen, order, longest))
      invariant !computePartial || polls == 0 ==> forall x :: 0 <= x < |longest| ==> longest[x] == Unset
      invariant if polls == 0 then order == [] else !kill(0)
      decreases Orders(n, n) - seen, |calls|, |h| - pos
    {
      if kill(polls) {
        return false, longest;
      }
      polls := polls + 1;
      LevelFacts(m, h, all, cache, calls, state, ChunksFor(n), seen, order, ls);
      if entry.mate != null {
        ghost var was, wasOrder := seen, order;
        cache, calls, state, entry, seen, order, ls, pos :=
          TryCall(m, head, linearized, cache, calls, state, entry, h, all, seen, order, ls, pos);
        if seen != was {
          ghost var x :| seen == was + {wasOrder + [x]} && order == wasOrder + [x] && wasOrder + [x] !in was;
          if computePartial {
            PushRecorded(h, was, wasOrder, x, longest);
          }
          assert wasOrder + [x] in Orders(n, n);
        }
      } else {
        CursorKind(m, h, seen, order, pos);
        NodeFacts(all, h, pos);
        if |calls| == 0 {
          Refuted(m, h, seen, longest, computePartial);
          return false, longest;
        }
        if computePartial {
          var better := Record(calls, longest, m, h, all, order);
          PopRecorded(h, seen, order, longest, better);
          longest := better;
        }
        calls, state, entry, order, ls, pos :=
          Backtrack(m, linearized, cache, calls, state, entry, h, all, seen, order, ls, pos);
      }
      LevelFacts(m, h, all, cache, calls, state, ChunksFor(n), seen, order, ls);
    }
    LevelFacts(m, h, all, cache, calls, state, ChunksFor(n), seen, order, ls);
    StackIds(m, h, all, calls, order);
    var ids := CallIds(calls, order);
    longest := seq(n, _ => Found(ids));
    Confirmed(m, h, order, longest);
    return true, longest;
  }

  lemma SuffixSize<V>(nodes: seq<Node<V>>, h: seq<Event<V>>)
    requires WellFormed(h) && Suffix(nodes, h, 0)
    ensures |nodes| == |h| && |h| % 2 == 0
  {
  }

  lemma NothingFound<S, V>(m: Model<S, V>, h: seq<Event<V>>, longest: seq<Partial>)
    requires WellFormed(h) && |longest| == |h| / 2 && forall x :: 0 <= x < |longest| ==> longest[x] == Unset
    ensures PartialsOK(m, h, longest)
  {
  }

  /** `Lift` at the top of the stack. */
  method LiftAt<V>(entry: Node<V>, ghost all: seq<Node<V>>, ghost h: seq<Event<V>>, ghost order: seq<int>,
                   ghost ls: seq<Links>)
    requires WellFormed(h) && Labels(all, h) && |all| == |h| + 1 && order != [] && Ids(|h| / 2, order)
    requires |ls| == |order| + 1
    requires LiftFacts(h, order, ls, |order| - 1) && Reflects(all, ls[|order| - 1])
    requires entry == all[CallAt(h, order[|order| - 1]) + 1]
    modifies all
    ensures Reflects(all, ls[|order|])
  {
    hide WellFormed, Labels, Chain, Reflects, Liftable, Lifted, SetOf, Rest;
    ghost var k := |order| - 1;
    ghost var c, r := CallAt(h, order[k]) + 1, ReturnAt(h, order[k]) + 1;
    NodeFacts(all, h, c - 1);
    Lift(entry, all, ls[k], Rest(h, SetOf(order[..k])), c, r);
  }

  /** `Unlift` at the top of the stack. */
  method UnliftAt<V>(entry: Node<V>, ghost all: seq<Node<V>>, ghost h: seq<Event<V>>, ghost order: seq<int>,
                     ghost ls: seq<Links>)
    requires WellFormed(h) && Labels(all, h) && |all| == |h| + 1 && order != [] && Ids(|h| / 2, order)
    requires |ls| == |order| + 1
    requires LiftFacts(h, order, ls, |order| - 1) && Reflects(all, ls[|order|])
    requires entry == all[CallAt(h, order[|order| - 1]) + 1]
    modifies all
    ensures Reflects(all, ls[|order| - 1])
  {
    hide WellFormed, Labels, Chain, Reflects, Liftable, Lifted, SetOf, Rest;
    ghost var k := |order| - 1;
    ghost var c, r := CallAt(h, order[k]) + 1, ReturnAt(h, order[k]) + 1;
    NodeFacts(all, h, c - 1);
    Unlift(entry, all, ls[k], Rest(h, SetOf(order[..k])), c, r);
  }
}

/** Locality of linearizability for the key/value store: the whole history is linearizable against the
    store exactly when every key's part is linearizable against the single-key model. */
module Locality {
  import opened Ranges
  import opened Linearizability
  import opened Entries
  import opened KvModel

  /** The operations of an order that are on one key. */
  ghost function Sub(history: seq<KvOp>, order: seq<int>, key: string): (sub: seq<int>)
    requires Typed(history) && Ids(|history|, order)
    ensures Ids(|history|, sub)
    ensures forall x :: x in SetOf(sub) <==> x in SetOf(order) && 0 <= x < |history| && history[x].input.key == key
  {
    if order == [] then []
    else
      var n := |order| - 1;
      var x := order[n];
      var before := Sub(history, order[..n], key);
      SplitLast(order);
      IdsLast(|history|, order);
      if history[x].input.key == key then
        IdsPush(|history|, before, x);
        SetOfPush(before, x);
        before + [x]
      else before
  }

  lemma SplitLast(order: seq<int>)
    requires order != []
    ensures var n := |order| - 1; SetOf(order) == SetOf(order[..n]) + {order[n]}
  {
    var n := |order| - 1;
    SetOfPush(order[..n], order[n]);
    assert order[..n] + [order[n]] == order;
  }

  lemma IdsLast(n: int, order: seq<int>)
    requires Ids(n, order) && order != []
    ensures var k := |order| - 1; Ids(n, order[..k]) && 0 <= order[k] < n && order[k] !in SetOf(order[..k])
  {
  }

  // ----- a store behaves as its keys do -----

  ghost predicate KeyAccepts(history: seq<KvOp>, order: seq<int>, key: string)
    requires Typed(history) && Ids(|history|, order)
  {
    RunOps(KEY_MODEL, history, Sub(history, order, key)).0
  }

  /** After any order, each key of the store holds what the single-key model holds after that key's
      operations, and the store accepts exactly when every key does. */
  lemma {:induction false} StoreRunsAsKeys(history: seq<KvOp>, order: seq<int>)
    requires Typed(history) && Ids(|history|, order)
    ensures forall key ::
              Lookup(RunOps(STORE_MODEL, history, order).1, key)
              == RunOps(KEY_MODEL, history, Sub(history, order, key)).1
    ensures RunOps(STORE_MODEL, history, order).0 <==> forall key :: KeyAccepts(history, order, key)
    decreases |order|
  {
    if order != [] {
      var n := |order| - 1;
      IdsLast(|history|, order);
      StoreRunsAsKeys(history, order[..n]);
      var k := history[order[n]].input.key;
      forall key
        ensures Lookup(RunOps(STORE_MODEL, history, order).1, key)
             == RunOps(KEY_MODEL, history, Sub(history, order, key)).1
        ensures key != k ==> (KeyAccepts(history, order, key) <==> KeyAccepts(history, order[..n], key))
        ensures key == k ==> (KeyAccepts(history, order, key) <==>
                                && KeyAccepts(history, order[..n], key)
                                && StoreStep(RunOps(STORE_MODEL, history, order[..n]).1, history[order[n]].input,
                                             history[order[n]].output).0)
      {
        StoreStepsAsKey(history, order, key);
      }
      if RunOps(STORE_MODEL, history, order).0 {
        forall key ensures KeyAccepts(history, order, key) {
          assert KeyAccepts(history, order[..n], key);
        }
      }
      if forall key :: KeyAccepts(history, order, key) {
        forall key ensures KeyAccepts(history, order[..n], key) {
          assert KeyAccepts(history, order, key);
        }
        assert KeyAccepts(history, order, k);
      }
    }
  }

  lemma StoreStepsAsKey(history: seq<KvOp>, order: seq<int>, key: string)
    requires Typed(history) && Ids(|history|, order) && order != []
    requires var n := |order| - 1;
             Ids(|history|, order[..n]) &&
             Lookup(RunOps(STORE_MODEL, history, order[..n]).1, key)
             == RunOps(KEY_MODEL, history, Sub(history, order[..n], key)).1
    ensures Lookup(RunOps(STORE_MODEL, history, order).1, key) == RunOps(KEY_MODEL, history, Sub(history, order, key)).1
    ensures var n := |order| - 1;
            var o := history[order[n]];
            if o.input.key != key then KeyAccepts(history, order, key) <==> KeyAccepts(history, order[..n], key)
            else KeyAccepts(history, order, key) <==>
                   && KeyAccepts(history, order[..n], key)
                   && StoreStep(RunOps(STORE_MODEL, history, order[..n]).1, o.input, o.output).0
  {
    var n := |order| - 1;
    var x := order[n];
    var before := Sub(history, order[..n], key);
    if history[x].input.key == key {
      assert Sub(history, order, key) == before + [x];
      assert (before + [x])[..|before|] == before;
    }
  }

  // ----- real time -----

  ghost predicate InTime(history: seq<KvOp>, order: seq<int>)
    requires Ids(|history|, order)
  {
    forall j, k :: 0 <= j < k < |order| ==> !(history[order[k]].ret < history[order[j]].call)
  }

  /** g orders the operations of these ids, in time. */
  ghost predicate Orders(history: seq<KvOp>, ids: set<int>, g: seq<int>) {
    Ids(|history|, g) && SetOf(g) == ids && InTime(history, g)
  }

  ghost function IdsOnKeys(history: seq<KvOp>, keys: set<string>): (ids: set<int>)
    requires Typed(history)
    ensures forall x :: x in ids <==> 0 <= x < |history| && history[x].input.key in keys
  {
    set x | x in Below(|history|) && history[x].input.key in keys
  }

  lemma {:induction false} SubInTime(history: seq<KvOp>, order: seq<int>, key: string)
    requires Typed(history) && Ids(|history|, order) && InTime(history, order)
    ensures InTime(history, Sub(history, order, key))
    decreases |order|
  {
    if order != [] {
      var n := |order| - 1;
      var x := order[n];
      IdsLast(|history|, order);
      SubInTime(history, order[..n], key);
      var before := Sub(history, order[..n], key);
      if history[x].input.key == key {
        forall j | 0 <= j < |before| ensures !(history[x].ret < history[before[j]].call) {
          assert before[j] in SetOf(before);
          assert before[j] in SetOf(order[..n]);
          var i :| 0 <= i < n && order[..n][i] == before[j];
        }
      }
    }
  }

  // ----- merging two orders -----

  /** The latest call among the operations of an order. */
  ghost function LatestCall(history: seq<KvOp>, g: seq<int>): (c: int)
    requires Ids(|history|, g) && g != []
    ensures forall i :: 0 <= i < |g| ==> history[g[i]].call <= c
    ensures exists i :: 0 <= i < |g| && history[g[i]].call == c
  {
    var n := |g| - 1;
    var x := history[g[n]].call;
    if n == 0 then x
    else
      IdsLast(|history|, g);
      var c := LatestCall(history, g[..n]);
      assert forall i :: 0 <= i < n ==> g[..n][i] == g[i];
      if c > x then c else x
  }

  ghost predicate Apart(history: seq<KvOp>, a: seq<int>, b: seq<int>) {
    Ids(|history|, a) && Ids(|history|, b) && SetOf(a) !! SetOf(b)
  }

  lemma ApartInit(history: seq<KvOp>, a: seq<int>, b: seq<int>)
    requires Apart(history, a, b)
    ensures a != [] ==> Apart(history, a[..|a| - 1], b) && a[|a| - 1] !in SetOf(b)
    ensures b != [] ==> Apart(history, a, b[..|b| - 1]) && b[|b| - 1] !in SetOf(a)
  {
    if a != [] {
      IdsLast(|history|, a);
      SplitLast(a);
    }
    if b != [] {
      IdsLast(|history|, b);
      SplitLast(b);
    }
  }

  /** Interleave two orders from the back: the last place goes to the side with the later latest call. */
  ghost function Weave(history: seq<KvOp>, a: seq<int>, b: seq<int>): (g: seq<int>)
    requires Apart(history, a, b)
    ensures Ids(|history|, g) && SetOf(g) == SetOf(a) + SetOf(b)
    decreases |a| + |b|
  {
    if a == [] then
      assert SetOf([]) == {};
      b
    else if b == [] then
      assert SetOf([]) == {};
      a
    else
      ApartInit(history, a, b);
      var m, n := |a| - 1, |b| - 1;
      IdsLast(|history|, a);
      IdsLast(|history|, b);
      SplitLast(a);
      SplitLast(b);
      if LatestCall(history, a) >= LatestCall(history, b) then
        var g := Weave(history, a[..m], b);
        IdsPush(|history|, g, a[m]);
        SetOfPush(g, a[m]);
        g + [a[m]]
      else
        var g := Weave(history, a, b[..n]);
        IdsPush(|history|, g, b[n]);
        SetOfPush(g, b[n]);
        g + [b[n]]
  }

  /** The operation placed last returns no earlier than any call on either side. */
  lemma LastReturnsLate(history: seq<KvOp>, a: seq<int>, b: seq<int>, x: int)
    requires Timed(history) && Apart(history, a, b) && a != [] && InTime(history, a)
    requires b != [] ==> LatestCall(history, b) <= LatestCall(history, a)
    requires x in SetOf(a) || x in SetOf(b)
    ensures 0 <= x < |history| && history[x].call <= history[a[|a| - 1]].ret
  {
    var m := |a| - 1;
    var i :| 0 <= i < |a| && history[a[i]].call == LatestCall(history, a);
    assert history[a[i]].call <= history[a[m]].ret;
    if x in SetOf(a) {
      var j :| 0 <= j < |a| && a[j] == x;
    } else {
      var j :| 0 <= j < |b| && b[j] == x;
    }
  }

  lemma InTimePush(history: seq<KvOp>, g: seq<int>, x: int)
    requires Ids(|history|, g) && InTime(history, g) && Ids(|history|, g + [x])
    requires 0 <= x < |history| && forall y :: y in SetOf(g) ==> 0 <= y < |history| && history[y].call <= history[x].ret
    ensures InTime(history, g + [x])
  {
    assert forall j :: 0 <= j < |g| ==> g[j] in SetOf(g);
  }

  lemma InTimeInit(history: seq<KvOp>, a: seq<int>)
    requires Ids(|history|, a) && InTime(history, a) && a != []
    ensures Ids(|history|, a[..|a| - 1]) && InTime(history, a[..|a| - 1])
  {
  }

  lemma {:induction false} WeaveInTime(history: seq<KvOp>, a: seq<int>, b: seq<int>)
    requires Timed(history) && Apart(history, a, b) && InTime(history, a) && InTime(history, b)
    ensures InTime(history, Weave(history, a, b))
    decreases |a| + |b|
  {
    hide Timed, InTime, Ids, SetOf, LatestCall;
    if a != [] && b != [] {
      ApartInit(history, a, b);
      InTimeInit(history, a);
      InTimeInit(history, b);
      if LatestCall(history, a) >= LatestCall(history, b) {
        WeaveInTime(history, a[..|a| - 1], b);
        PushInTime(history, a, b, Weave(history, a[..|a| - 1], b));
      } else {
        WeaveInTime(history, a, b[..|b| - 1]);
        PushInTime(history, b, a, Weave(history, a, b[..|b| - 1]));
      }
    }
  }

  lemma PushInTime(history: seq<KvOp>, a: seq<int>, b: seq<int>, g: seq<int>)
    requires Timed(history) && Apart(history, a, b) && a != [] && b != [] && InTime(history, a)
    requires LatestCall(history, b) <= LatestCall(history, a)
    requires Ids(|history|, g) && InTime(history, g) && SetOf(g) == SetOf(a[..|a| - 1]) + SetOf(b)
    ensures Ids(|history|, g + [a[|a| - 1]]) && InTime(history, g + [a[|a| - 1]])
  {
    hide Timed, InTime, Ids, SetOf, LatestCall;
    var x := a[|a| - 1];
    IdsLast(|history|, a);
    ApartInit(history, a, b);
    SplitLast(a);
    forall y | y in SetOf(g) ensures 0 <= y < |history| && history[y].call <= history[x].ret {
      LastReturnsLate(history, a, b, y);
    }
    IdsPush(|history|, g, x);
    InTimePush(history, g, x);
  }

  ghost predicate NotOnKey(history: seq<KvOp>, order: seq<int>, key: string)
    requires Typed(history)
  {
    forall x :: x in SetOf(order) ==> 0 <= x < |history| && history[x].input.key != key
  }

  lemma WeaveLast(history: seq<KvOp>, a: seq<int>, b: seq<int>)
    requires Apart(history, a, b) && a != [] && b != []
    ensures var m, n := |a| - 1, |b| - 1;
            && Apart(history, a[..m], b) && Apart(history, a, b[..n])
            && Weave(history, a, b) == if LatestCall(history, a) >= LatestCall(history, b)
                                       then Weave(history, a[..m], b) + [a[m]]
                                       else Weave(history, a, b[..n]) + [b[n]]
  {
    ApartInit(history, a, b);
    hide LatestCall;
  }

  lemma SubPush(history: seq<KvOp>, order: seq<int>, x: int, key: string)
    requires Typed(history) && Ids(|history|, order) && Ids(|history|, order + [x]) && 0 <= x < |history|
    ensures Sub(history, order + [x], key)
         == Sub(history, order, key) + (if history[x].input.key == key then [x] else [])
  {
    hide Typed;
    assert (order + [x])[..|order|] == order;
  }

  lemma SubLast(history: seq<KvOp>, order: seq<int>, key: string)
    requires Typed(history) && Ids(|history|, order) && order != []
    ensures var n := |order| - 1;
            && Ids(|history|, order[..n]) && 0 <= order[n] < |history|
            && Sub(history, order, key)
            == Sub(history, order[..n], key) + (if history[order[n]].input.key == key then [order[n]] else [])
  {
    hide Typed;
  }

  /** Weaving keeps a key's order when the other side has nothing on that key. */
  lemma {:induction false} WeaveKeepsLeft(history: seq<KvOp>, a: seq<int>, b: seq<int>, key: string)
    requires Typed(history) && Apart(history, a, b) && NotOnKey(history, b, key)
    ensures Sub(history, Weave(history, a, b), key) == Sub(history, a, key)
    decreases |a| + |b|
  {
    hide Typed, LatestCall;
    if b == [] {
    } else if a == [] {
      NoneOnKey(history, b, key);
    } else {
      var m, n := |a| - 1, |b| - 1;
      ApartInit(history, a, b);
      SplitLast(b);
      WeaveLast(history, a, b);
      WeaveKeepsLeft(history, a[..m], b, key);
      WeaveKeepsLeft(history, a, b[..n], key);
      SubLast(history, a, key);
      assert b[n] in SetOf(b);
      hide Weave, Sub, SetOf, Ids;
      if LatestCall(history, a) >= LatestCall(history, b) {
        SubPush(history, Weave(history, a[..m], b), a[m], key);
      } else {
        SubPush(history, Weave(history, a, b[..n]), b[n], key);
      }
    }
  }

  lemma {:induction false} WeaveKeepsRight(history: seq<KvOp>, a: seq<int>, b: seq<int>, key: string)
    requires Typed(history) && Apart(history, a, b) && NotOnKey(history, a, key)
    ensures Sub(history, Weave(history, a, b), key) == Sub(history, b, key)
    decreases |a| + |b|
  {
    hide Typed, LatestCall;
    if a == [] {
    } else if b == [] {
      NoneOnKey(history, a, key);
    } else {
      var m, n := |a| - 1, |b| - 1;
      ApartInit(history, a, b);
      SplitLast(a);
      WeaveLast(history, a, b);
      WeaveKeepsRight(history, a[..m], b, key);
      WeaveKeepsRight(history, a, b[..n], key);
      SubLast(history, b, key);
      assert a[m] in SetOf(a);
      hide Weave, Sub, SetOf, Ids;
      if LatestCall(history, a) >= LatestCall(history, b) {
        SubPush(history, Weave(history, a[..m], b), a[m], key);
      } else {
        SubPush(history, Weave(history, a, b[..n]), b[n], key);
      }
    }
  }

  lemma {:induction false} NoneOnKey(history: seq<KvOp>, order: seq<int>, key: string)
    requires Typed(history) && Ids(|history|, order) && NotOnKey(history, order, key)
    ensures Sub(history, order, key) == []
    decreases |order|
  {
    if order != [] {
      IdsLast(|history|, order);
      SplitLast(order);
      NoneOnKey(history, order[..|order| - 1], key);
    }
  }

  lemma {:induction false} AllOnKey(history: seq<KvOp>, order: seq<int>, key: string)
    requires Typed(history) && Ids(|history|, order)
    requires forall x :: x in SetOf(order) ==> 0 <= x < |history| && history[x].input.key == key
    ensures Sub(history, order, key) == order
    decreases |order|
  {
    if order != [] {
      var n := |order| - 1;
      IdsLast(|history|, order);
      SplitLast(order);
      AllOnKey(history, order[..n], key);
      assert order[..n] + [order[n]] == order;
    }
  }

  // ----- from parts to the whole -----

  /** g linearizes the operations on these keys. */
  ghost predicate LinearizesKeys(history: seq<KvOp>, keys: set<string>, g: seq<int>)
    requires Typed(history)
  {
    Orders(history, IdsOnKeys(history, keys), g) && forall key :: KeyAccepts(history, g, key)
  }

  /** Add one key to an order that linearizes others. */
  lemma AddKey(history: seq<KvOp>, keys: set<string>, key: string, g: seq<int>, p: seq<int>)
    requires Typed(history) && Timed(history) && key !in keys
    requires LinearizesKeys(history, keys, g) && LinearizesKeys(history, {key}, p)
    ensures Apart(history, g, p) && LinearizesKeys(history, keys + {key}, Weave(history, g, p))
  {
    assert Apart(history, g, p);
    WeaveInTime(history, g, p);
    assert IdsOnKeys(history, keys + {key}) == IdsOnKeys(history, keys) + IdsOnKeys(history, {key});
    hide InTime, Weave, IdsOnKeys, SetOf, Ids;
    forall k ensures KeyAccepts(history, Weave(history, g, p), k) {
      AddKeyAccepts(history, keys, key, g, p, k);
    }
  }

  lemma AddKeyAccepts(history: seq<KvOp>, keys: set<string>, key: string, g: seq<int>, p: seq<int>, k: string)
    requires Typed(history) && key !in keys && Apart(history, g, p)
    requires LinearizesKeys(history, keys, g) && LinearizesKeys(history, {key}, p)
    ensures KeyAccepts(history, Weave(history, g, p), k)
  {
    assert KeyAccepts(history, p, k) && KeyAccepts(history, g, k);
    hide InTime, Weave, Ids;
    if k == key {
      assert NotOnKey(history, g, k);
      WeaveKeepsRight(history, g, p, k);
    } else {
      assert NotOnKey(history, p, k);
      WeaveKeepsLeft(history, g, p, k);
    }
  }

  lemma {:induction false} MergeParts(history: seq<KvOp>, keys: set<string>) returns (g: seq<int>)
    requires Typed(history) && Timed(history)
    requires forall key :: key in keys ==> exists p :: LinearizesKeys(history, {key}, p)
    ensures LinearizesKeys(history, keys, g)
    decreases keys
  {
    if keys == {} {
      g := [];
      assert SetOf(g) == {} == IdsOnKeys(history, {});
    } else {
      var key := Pick(keys);
      var p :| LinearizesKeys(history, {key}, p);
      var rest := MergeParts(history, keys - {key});
      AddKey(history, keys - {key}, key, rest, p);
      assert keys - {key} + {key} == keys;
      g := Weave(history, rest, p);
    }
  }

  /** Linearizing all keys is linearizing the store. */
  lemma WholeIsAllKeys(history: seq<KvOp>, g: seq<int>)
    requires Typed(history)
    ensures LinearizesKeys(history, KeysOf(history), g) <==> IsTimedLinearization(STORE_MODEL, history, g)
    ensures LinearizesKeys(history, KeysOf(history), g) ==> Ids(|history|, g)
  {
    assert IdsOnKeys(history, KeysOf(history)) == Below(|history|);
    if Ids(|history|, g) {
      StoreRunsAsKeys(history, g);
      FullOrderPlacesAll(|history|, g);
      InRangeSet(|history|, g);
      assert SetOf(g) == Below(|history|) <==> |g| == |history|;
    }
  }

  /** The part of the whole order that is on one key linearizes that key. */
  lemma RestrictToKey(history: seq<KvOp>, g: seq<int>, key: string)
    requires Typed(history) && Ids(|history|, g) && LinearizesKeys(history, KeysOf(history), g)
    requires key in KeysOf(history)
    ensures LinearizesKeys(history, {key}, Sub(history, g, key))
  {
    var p := Sub(history, g, key);
    SubInTime(history, g, key);
    assert SetOf(p) == IdsOnKeys(history, {key});
    AllOnKey(history, p, key);
    assert KeyAccepts(history, g, key);
    forall k ensures KeyAccepts(history, p, k) {
      if k != key {
        NoneOnKey(history, p, k);
      }
    }
  }

  // ----- a part has its own numbering -----

  /** The order o of a part, in the numbering of the whole history. */
  ghost function Renumbered(pos: seq<int>, o: seq<int>): (g: seq<int>)
    requires Ids(|pos|, o)
    ensures |g| == |o| && forall i :: 0 <= i < |o| ==> g[i] == pos[o[i]]
  {
    seq(|o|, i requires 0 <= i < |o| => pos[o[i]])
  }

  lemma RenumberedOK(n: nat, pos: seq<int>, o: seq<int>)
    requires Ids(n, pos) && Ids(|pos|, o)
    ensures Ids(n, Renumbered(pos, o))
    ensures |o| == |pos| ==> SetOf(Renumbered(pos, o)) == SetOf(pos)
  {
    var g := Renumbered(pos, o);
    if |o| == |pos| {
      FullOrderPlacesAll(|pos|, o);
      forall x | x in SetOf(pos) ensures x in SetOf(g) {
        var k :| 0 <= k < |pos| && pos[k] == x;
        assert k in SetOf(o);
        var i :| 0 <= i < |o| && o[i] == k;
        assert g[i] == x;
      }
      forall x | x in SetOf(g) ensures x in SetOf(pos) {
        var i :| 0 <= i < |g| && g[i] == x;
        assert pos[o[i]] == x;
      }
    }
  }

  lemma {:induction false} RenumberedRuns(history: seq<KvOp>, pos: seq<int>, o: seq<int>)
    requires Ids(|history|, pos) && Ids(|pos|, o) && Ids(|history|, Renumbered(pos, o))
    ensures RunOps(KEY_MODEL, Select(history, pos), o) == RunOps(KEY_MODEL, history, Renumbered(pos, o))
    decreases |o|
  {
    if o != [] {
      var n := |o| - 1;
      IdsLast(|pos|, o);
      RenumberedOK(|history|, pos, o[..n]);
      RenumberedRuns(history, pos, o[..n]);
      assert Renumbered(pos, o)[..n] == Renumbered(pos, o[..n]);
    }
  }

  lemma {:induction false} Denumber(n: nat, pos: seq<int>, g: seq<int>) returns (o: seq<int>)
    requires Ids(n, pos) && Ids(n, g) && SetOf(g) <= SetOf(pos)
    ensures Ids(|pos|, o) && Renumbered(pos, o) == g
    decreases |g|
  {
    if g == [] {
      o := [];
    } else {
      var m := |g| - 1;
      IdsLast(n, g);
      SplitLast(g);
      var before := Denumber(n, pos, g[..m]);
      var k :| 0 <= k < |pos| && pos[k] == g[m];
      forall i | 0 <= i < |before| ensures before[i] != k {
        assert pos[before[i]] == g[..m][i] == g[i];
      }
      o := before + [k];
      assert g[..m] + [g[m]] == g;
    }
  }

  /** A part is linearizable in its own numbering exactly when its key is in the whole's. */
  lemma PartIsKey(history: seq<KvOp>, key: string)
    requires Typed(history)
    ensures TimedLinearizable(KEY_MODEL, Part(history, key)) <==> exists g :: LinearizesKeys(history, {key}, g)
  {
    var pos := Positions(history, key, |history|);
    var part := Part(history, key);
    PositionsOK(history, key, |history|);
    InRangeSet(|history|, pos);
    assert SetOf(pos) == IdsOnKeys(history, {key});
    if TimedLinearizable(KEY_MODEL, part) {
      var o :| IsTimedLinearization(KEY_MODEL, part, o);
      PartToKey(history, key, pos, o);
    }
    if exists g :: LinearizesKeys(history, {key}, g) {
      var g :| LinearizesKeys(history, {key}, g);
      KeyToPart(history, key, pos, g);
    }
  }

  lemma PartToKey(history: seq<KvOp>, key: string, pos: seq<int>, o: seq<int>)
    requires Typed(history) && Ids(|history|, pos) && SetOf(pos) == IdsOnKeys(history, {key})
    requires IsTimedLinearization(KEY_MODEL, Select(history, pos), o)
    ensures LinearizesKeys(history, {key}, Renumbered(pos, o))
  {
    var g := Renumbered(pos, o);
    RenumberedOK(|history|, pos, o);
    RenumberedRuns(history, pos, o);
    AllOnKey(history, g, key);
    forall k ensures KeyAccepts(history, g, k) {
      if k != key {
        NoneOnKey(history, g, k);
      }
    }
  }

  lemma KeyToPart(history: seq<KvOp>, key: string, pos: seq<int>, g: seq<int>)
    requires Typed(history) && Ids(|history|, pos) && SetOf(pos) == IdsOnKeys(history, {key})
    requires LinearizesKeys(history, {key}, g)
    ensures TimedLinearizable(KEY_MODEL, Select(history, pos))
  {
    var o := Denumber(|history|, pos, g);
    FullOrderPlacesAll(|history|, g);
    FullOrderPlacesAll(|history|, pos);
    RenumberedRuns(history, pos, o);
    AllOnKey(history, g, key);
    assert KeyAccepts(history, g, key);
    var part := Select(history, pos);
    forall j, k | 0 <= j < k < |o| ensures !(part[o[k]].ret < part[o[j]].call) {
      assert !(history[g[k]].ret < history[g[j]].call);
    }
    assert IsTimedLinearization(KEY_MODEL, part, o);
  }

  /** Locality: checking key by key is checking the store. */
  lemma LocalityOfKeys(history: seq<KvOp>)
    requires Typed(history) && Timed(history)
    ensures TimedLinearizable(STORE_MODEL, history) <==>
              forall key :: key in KeysOf(history) ==> TimedLinearizable(KEY_MODEL, Part(history, key))
  {
    hide LinearizesKeys, IsTimedLinearization, Typed, Timed, Part;
    if TimedLinearizable(STORE_MODEL, history) {
      var g :| IsTimedLinearization(STORE_MODEL, history, g);
      WholeIsAllKeys(history, g);
      forall key | key in KeysOf(history) ensures TimedLinearizable(KEY_MODEL, Part(history, key)) {
        RestrictToKey(history, g, key);
        PartIsKey(history, key);
      }
    }
    if forall key :: key in KeysOf(history) ==> TimedLinearizable(KEY_MODEL, Part(history, key)) {
      forall key | key in KeysOf(history) ensures exists p :: LinearizesKeys(history, {key}, p) {
        PartIsKey(history, key);
      }
      var g := MergeParts(history, KeysOf(history));
      WholeIsAllKeys(history, g);
    }
  }
}

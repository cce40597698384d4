/** The key/value model: the sequential specification of one key, the specification of a whole store,
    and the partition of a history by key. */
module KvModel {
  import opened Linearizability
  import opened Entries
  import opened Strings

  /** Inputs and outputs share one type, as `interface{}` does. */
  datatype KvValue = KvInput(op: nat, key: string, value: string) | KvOutput(result: string)

  type KvOp = Operation<KvValue>

  /** The histories clients record: inputs are inputs. */
  ghost predicate Typed(history: seq<KvOp>) {
    forall k :: 0 <= k < |history| ==> history[k].input.KvInput?
  }

  /** ... and outputs are outputs, which only the model's steps ask for. */
  ghost predicate Answered(history: seq<KvOp>) {
    forall k :: 0 <= k < |history| ==> history[k].output.KvOutput?
  }

  /** One key: 0 is get, 1 is put, anything else is append. A value of the wrong type, on which the
      program panics, is refused. */
  function Step(state: string, input: KvValue, output: KvValue): (bool, string) {
    if !input.KvInput? || !output.KvOutput? then (false, state)
    else if input.op == 0 then (output.result == state, state)
    else if input.op == 1 then (true, input.value)
    else (true, state + input.value)
  }

  const KEY_MODEL: Model<string, KvValue> := Model("", Step, (a: string, b: string) => a == b)

  function Lookup(store: map<string, string>, key: string): string {
    if key in store then store[key] else ""
  }

  /** A whole store: the operation acts on its own key. */
  function StoreStep(store: map<string, string>, input: KvValue, output: KvValue): (bool, map<string, string>) {
    if !input.KvInput? then (false, store)
    else
      var (ok, v) := Step(Lookup(store, input.key), input, output);
      (ok, store[input.key := v])
  }

  const STORE_MODEL: Model<map<string, string>, KvValue> :=
    Model(map[], StoreStep, (a: map<string, string>, b: map<string, string>) => a == b)

  lemma KeyModelLawful()
    ensures Lawful(KEY_MODEL)
  {
  }

  // ----- what the single-key model accepts -----

  /** Position of the last put in an order, -1 if there is none. */
  ghost function LatestPut(history: seq<KvOp>, order: seq<int>): (p: int)
    requires Typed(history) && Ids(|history|, order)
    ensures -1 <= p < |order| && (p >= 0 ==> history[order[p]].input.op == 1)
    ensures forall k :: p < k < |order| ==> history[order[k]].input.op != 1
  {
    var n := |order| - 1;
    if n < 0 then -1
    else if history[order[n]].input.op == 1 then n
    else
      var p := LatestPut(history, order[..n]);
      assert forall k :: p < k < n ==> history[order[..n][k]].input.op != 1;
      p
  }

  /** The values appended from position `from` on, joined. */
  ghost function Appended(history: seq<KvOp>, order: seq<int>, from: nat): string
    requires Typed(history) && Ids(|history|, order)
  {
    var n := |order| - 1;
    if n < from then ""
    else
      var i := history[order[n]].input;
      Appended(history, order[..n], from) + (if i.op >= 2 then i.value else "")
  }

  /** What the key holds after an order: the last value put, then everything appended since. */
  ghost function HeldAfter(history: seq<KvOp>, order: seq<int>): string
    requires Typed(history) && Ids(|history|, order)
  {
    var p := LatestPut(history, order);
    (if p >= 0 then history[order[p]].input.value else "") + Appended(history, order, p + 1)
  }

  /** The k-th operation, if it is a get, returned what the key held at that point. */
  ghost predicate ReadsLatest(history: seq<KvOp>, order: seq<int>, k: int)
    requires Typed(history) && Answered(history) && Ids(|history|, order) && 0 <= k < |order|
  {
    history[order[k]].input.op == 0 ==> history[order[k]].output.result == HeldAfter(history, order[..k])
  }

  /** The model accepts an order exactly when every get returned what the key held at that point. */
  lemma {:induction false} KeyModelReadsLatest(history: seq<KvOp>, order: seq<int>)
    requires Typed(history) && Answered(history) && Ids(|history|, order)
    ensures RunOps(KEY_MODEL, history, order).1 == HeldAfter(history, order)
    ensures RunOps(KEY_MODEL, history, order).0 <==> forall k :: 0 <= k < |order| ==> ReadsLatest(history, order, k)
    decreases |order|
  {
    if order != [] {
      var n := |order| - 1;
      KeyModelReadsLatest(history, order[..n]);
      OneMore(history, order);
      hide HeldAfter;
      forall k | 0 <= k < n ensures ReadsLatest(history, order[..n], k) <==> ReadsLatest(history, order, k) {
        assert order[..n][..k] == order[..k];
      }
      var o := history[order[n]];
      var (ok, s) := RunOps(KEY_MODEL, history, order[..n]);
      assert RunOps(KEY_MODEL, history, order) == (ok && Step(s, o.input, o.output).0, Step(s, o.input, o.output).1);
      assert Step(s, o.input, o.output).0 <==> ReadsLatest(history, order, n);
      hide ReadsLatest;
      if ok && ReadsLatest(history, order, n) {
        forall k | 0 <= k < |order| ensures ReadsLatest(history, order, k) {
          assert k < n ==> ReadsLatest(history, order[..n], k);
        }
      }
    }
  }

  /** One operation more: a get leaves the key, a put replaces it, an append extends it. */
  lemma OneMore(history: seq<KvOp>, order: seq<int>)
    requires Typed(history) && Ids(|history|, order) && order != []
    ensures var n := |order| - 1;
            var i := history[order[n]].input;
            HeldAfter(history, order) == if i.op == 0 then HeldAfter(history, order[..n])
                                       else if i.op == 1 then i.value
                                       else HeldAfter(history, order[..n]) + i.value
  {
    var n := |order| - 1;
    var i := history[order[n]].input;
    var p := LatestPut(history, order[..n]);
    if i.op != 1 {
      assert LatestPut(history, order) == p;
      assert Appended(history, order, p + 1)
          == Appended(history, order[..n], p + 1) + (if i.op >= 2 then i.value else "");
    }
  }

  // ----- partition by key -----

  /** Positions below n whose operation is on this key, in order. */
  ghost function Positions(history: seq<KvOp>, key: string, n: nat): (pos: seq<int>)
    requires n <= |history| && Typed(history)
  {
    if n == 0 then []
    else Positions(history, key, n - 1) + (if history[n - 1].input.key == key then [n - 1] else [])
  }

  ghost function Select(history: seq<KvOp>, pos: seq<int>): (part: seq<KvOp>)
    requires forall i :: 0 <= i < |pos| ==> 0 <= pos[i] < |history|
    ensures |part| == |pos| && forall i :: 0 <= i < |pos| ==> part[i] == history[pos[i]]
  {
    seq(|pos|, i requires 0 <= i < |pos| => history[pos[i]])
  }

  /** The positions are distinct and in range, and they are exactly those of the key. */
  ghost predicate PositionsOf(history: seq<KvOp>, key: string, n: nat, pos: seq<int>)
    requires n <= |history| && Typed(history)
  {
    && Ids(n, pos)
    && forall k :: 0 <= k < n ==> (k in SetOf(pos) <==> history[k].input.key == key)
  }

  lemma {:induction false} PositionsOK(history: seq<KvOp>, key: string, n: nat)
    requires n <= |history| && Typed(history)
    ensures PositionsOf(history, key, n, Positions(history, key, n))
  {
    hide Ids, SetOf;
    EmptyIds(0);
    if n > 0 {
      PositionsOK(history, key, n - 1);
      var before := Positions(history, key, n - 1);
      InRangeSet(n - 1, before);
      IdsWiden(n - 1, n, before);
      if history[n - 1].input.key == key {
        SetOfPush(before, n - 1);
        IdsPush(n, before, n - 1);
      } else {
        assert before + [] == before;
      }
    }
  }

  lemma IdsWiden(n: int, m: int, order: seq<int>)
    requires Ids(n, order) && n <= m
    ensures Ids(m, order)
  {
  }

  lemma InRangeSet(n: int, order: seq<int>)
    requires Ids(n, order)
    ensures forall x :: x in SetOf(order) ==> 0 <= x < n
    ensures forall i :: 0 <= i < |order| ==> order[i] in SetOf(order)
  {
  }

  /** The sub-history of one key. */
  ghost function Part(history: seq<KvOp>, key: string): seq<KvOp>
    requires Typed(history)
  {
    PositionsOK(history, key, |history|);
    InRangeSet(|history|, Positions(history, key, |history|));
    Select(history, Positions(history, key, |history|))
  }

  ghost function KeysOf(history: seq<KvOp>): set<string>
    requires Typed(history)
  {
    set k | 0 <= k < |history| :: history[k].input.key
  }

  ghost predicate Ascending(keys: seq<string>) {
    forall i, j :: 0 <= i < j < |keys| ==> LexLess(keys[i], keys[j])
  }

  /** `sort.Strings` on distinct keys, one insertion at a time. */
  method InsertKey(keys: seq<string>, k: string) returns (res: seq<string>)
    requires Ascending(keys) && k !in keys
    ensures Ascending(res) && forall x :: x in res <==> x in keys || x == k
  {
    var j := |keys|;
    while j > 0 && LexLess(k, keys[j - 1])
      invariant 0 <= j <= |keys|
      invariant forall i :: j <= i < |keys| ==> LexLess(k, keys[i])
    {
      j := j - 1;
    }
    hide LexLess;
    forall i | 0 <= i < j ensures LexLess(keys[i], k) {
      LexTotal(keys[j - 1], k);
      if i < j - 1 {
        LexTransitive(keys[i], keys[j - 1], k);
      }
    }
    res := keys[..j] + [k] + keys[j..];
    InsertedKey(keys, k, j);
  }

  lemma InsertedKey(keys: seq<string>, k: string, j: nat)
    requires Ascending(keys) && j <= |keys|
    requires forall i :: 0 <= i < j ==> LexLess(keys[i], k)
    requires forall i :: j <= i < |keys| ==> LexLess(k, keys[i])
    ensures var res := keys[..j] + [k] + keys[j..];
            Ascending(res) && forall x :: x in res <==> x in keys || x == k
  {
    hide LexLess;
    assert keys == keys[..j] + keys[j..];
  }

  ghost predicate IsPart(history: seq<KvOp>, key: string, n: nat, part: seq<KvOp>)
    requires n <= |history| && Typed(history)
  {
    var pos := Positions(history, key, n);
    |part| == |pos| && forall i :: 0 <= i < |pos| ==> 0 <= pos[i] < |history| && part[i] == history[pos[i]]
  }

  /** After n operations m has exactly the keys met so far, each with its operations in order. */
  ghost predicate Grouped(history: seq<KvOp>, m: map<string, seq<KvOp>>, n: nat)
    requires n <= |history| && Typed(history)
  {
    forall x {:trigger GroupAt(history, m, n, x)} :: GroupAt(history, m, n, x)
  }

  ghost predicate GroupAt(history: seq<KvOp>, m: map<string, seq<KvOp>>, n: nat, x: string)
    requires n <= |history| && Typed(history)
  {
    if x in m then m[x] != [] && IsPart(history, x, n, m[x]) else Positions(history, x, n) == []
  }

  function Push(m: map<string, seq<KvOp>>, key: string, v: KvOp): map<string, seq<KvOp>> {
    m[key := (if key in m then m[key] else []) + [v]]
  }

  lemma PushGroups(history: seq<KvOp>, m: map<string, seq<KvOp>>, n: nat)
    requires Typed(history) && n < |history| && Grouped(history, m, n)
    ensures Grouped(history, Push(m, history[n].input.key, history[n]), n + 1)
  {
    var m' := Push(m, history[n].input.key, history[n]);
    var k := n + 1;
    forall x ensures GroupAt(history, m', k, x) {
      assert GroupAt(history, m, n, x);
      assert Positions(history, x, n) + [] == Positions(history, x, n);
    }
  }

  /** The parts belong to the keys that occur, in ascending order. */
  ghost predicate KeyedBy(history: seq<KvOp>, parts: seq<seq<KvOp>>, keys: seq<string>)
    requires Typed(history)
  {
    && Ascending(keys) && (forall x :: x in keys <==> x in KeysOf(history))
    && |parts| == |keys| && forall j :: 0 <= j < |keys| ==> parts[j] == Part(history, keys[j])
  }

  method Partition(history: seq<KvOp>) returns (parts: seq<seq<KvOp>>, ghost keys: seq<string>)
    requires Typed(history)
    ensures exists ks :: KeyedBy(history, parts, ks)
    ensures KeyedBy(history, parts, keys)
  {
    hide Grouped, Typed, Push, Part;
    var m: map<string, seq<KvOp>> := map[];
    NothingGrouped(history);
    for n := 0 to |history|
      invariant Grouped(history, m, n)
    {
      KeyIsThere(history, n);
      PushGroups(history, m, n);
      m := Push(m, history[n].input.key, history[n]);
    }
    var sorted := SortKeys(m.Keys);
    parts := [];
    for j := 0 to |sorted|
      invariant |parts| == j && forall i :: 0 <= i < j ==> sorted[i] in m && parts[i] == m[sorted[i]]
    {
      assert sorted[j] in sorted;
      parts := parts + [m[sorted[j]]];
    }
    keys := sorted;
    GroupKeys(history, m);
    forall j | 0 <= j < |keys| ensures parts[j] == Part(history, keys[j]) {
      GroupIsPart(history, m, keys[j]);
    }
    assert KeyedBy(history, parts, keys);
  }

  lemma NothingGrouped(history: seq<KvOp>)
    requires Typed(history)
    ensures Grouped(history, map[], 0)
  {
  }

  lemma KeyIsThere(history: seq<KvOp>, n: nat)
    requires Typed(history) && n < |history|
    ensures history[n].input.KvInput?
  {
  }

  method SortKeys(keys: set<string>) returns (sorted: seq<string>)
    ensures Ascending(sorted) && forall x :: x in sorted <==> x in keys
  {
    var rest := keys;
    sorted := [];
    while rest != {}
      invariant rest <= keys && Ascending(sorted)
      invariant forall x :: x in sorted <==> x in keys - rest
      decreases |rest|
    {
      var k :| k in rest;
      sorted := InsertKey(sorted, k);
      rest := rest - {k};
    }
  }

  lemma GroupKeys(history: seq<KvOp>, m: map<string, seq<KvOp>>)
    requires Typed(history) && Grouped(history, m, |history|)
    ensures m.Keys == KeysOf(history)
  {
    forall x ensures x in m <==> x in KeysOf(history) {
      assert GroupAt(history, m, |history|, x);
      PositionsOK(history, x, |history|);
      var pos := Positions(history, x, |history|);
      InRangeSet(|history|, pos);
      if x in m {
        assert history[pos[0]].input.key == x;
      } else {
        assert SetOf(pos) == {};
      }
    }
  }

  lemma GroupIsPart(history: seq<KvOp>, m: map<string, seq<KvOp>>, x: string)
    requires Typed(history) && Grouped(history, m, |history|) && x in m
    ensures m[x] == Part(history, x)
  {
    assert GroupAt(history, m, |history|, x);
  }
}

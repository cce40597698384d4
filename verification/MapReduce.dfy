/** The MapReduce data path: hash partitioning, sorting and grouping, against the sequential program. */
module MapReduce {
  import opened Strings

  datatype KeyValue = KeyValue(key: string, value: string)

  // ----- what a reduction means -----

  /** The values of one key, in order of appearance. */
  function Values(kvs: seq<KeyValue>, key: string): seq<string> {
    if kvs == [] then []
    else
      var last := kvs[|kvs| - 1];
      Values(kvs[..|kvs| - 1], key) + (if last.key == key then [last.value] else [])
  }

  /** One line per key that occurs, carrying the reduction of all its values. */
  ghost predicate Reduces(reduce: (string, seq<string>) -> string, kvs: seq<KeyValue>, out: seq<KeyValue>) {
    && (forall i, j :: 0 <= i < j < |out| ==> out[i].key != out[j].key)
    && (forall i :: 0 <= i < |out| ==>
          Occurs(kvs, out[i].key) && out[i].value == reduce(out[i].key, Values(kvs, out[i].key)))
    && (forall key :: Occurs(kvs, key) ==> Printed(out, key))
  }

  ghost predicate Occurs(kvs: seq<KeyValue>, key: string) {
    exists i :: 0 <= i < |kvs| && kvs[i].key == key
  }

  ghost predicate Printed(out: seq<KeyValue>, key: string) {
    exists i :: 0 <= i < |out| && out[i].key == key
  }

  /** The reduce function does not care in which order it gets the values. */
  ghost predicate OrderInsensitive(reduce: (string, seq<string>) -> string) {
    forall key, vs, ws :: multiset(vs) == multiset(ws) ==> reduce(key, vs) == reduce(key, ws)
  }

  /** The sort may put the values of a key in any order. */
  ghost predicate Prints(reduce: (string, seq<string>) -> string, kvs: seq<KeyValue>, out: seq<KeyValue>) {
    SortedByKey(out) && exists a :: multiset(a) == multiset(kvs) && Reduces(reduce, a, out)
  }

  // ----- values depend on the multiset of pairs only -----

  lemma {:induction false} ValuesCount(kvs: seq<KeyValue>, key: string, v: string)
    ensures multiset(Values(kvs, key))[v] == multiset(kvs)[KeyValue(key, v)]
    decreases |kvs|
  {
    if kvs != [] {
      var n := |kvs| - 1;
      ValuesCount(kvs[..n], key, v);
      assert kvs == kvs[..n] + [kvs[n]];
      assert multiset(kvs) == multiset(kvs[..n]) + multiset{kvs[n]};
      var more := if kvs[n].key == key then [kvs[n].value] else [];
      assert Values(kvs, key) == Values(kvs[..n], key) + more;
      assert kvs[n] == KeyValue(key, v) <==> kvs[n].key == key && kvs[n].value == v;
    }
  }

  lemma ValuesOfBag(a: seq<KeyValue>, b: seq<KeyValue>, key: string)
    requires forall v :: multiset(a)[KeyValue(key, v)] == multiset(b)[KeyValue(key, v)]
    ensures multiset(Values(a, key)) == multiset(Values(b, key))
    ensures Occurs(a, key) <==> Occurs(b, key)
  {
    forall v ensures multiset(Values(a, key))[v] == multiset(Values(b, key))[v] {
      ValuesCount(a, key, v);
      ValuesCount(b, key, v);
    }
    OccursInBag(a, b, key);
    OccursInBag(b, a, key);
  }

  lemma OccursInBag(a: seq<KeyValue>, b: seq<KeyValue>, key: string)
    requires forall v :: multiset(a)[KeyValue(key, v)] == multiset(b)[KeyValue(key, v)]
    ensures Occurs(a, key) ==> Occurs(b, key)
  {
    if Occurs(a, key) {
      var i :| 0 <= i < |a| && a[i].key == key;
      assert a[i] in multiset(a);
      assert a[i] == KeyValue(key, a[i].value);
      assert a[i] in multiset(b);
      assert a[i] in b;
    }
  }

  /** A reduction of one arrangement of the pairs is a reduction of every arrangement. */
  lemma ReducesAnyOrder(reduce: (string, seq<string>) -> string, a: seq<KeyValue>, b: seq<KeyValue>, out: seq<KeyValue>)
    requires OrderInsensitive(reduce) && multiset(a) == multiset(b) && Reduces(reduce, a, out)
    ensures Reduces(reduce, b, out)
  {
    forall key ensures multiset(Values(a, key)) == multiset(Values(b, key)) && (Occurs(a, key) <==> Occurs(b, key)) {
      ValuesOfBag(a, b, key);
    }
  }

  lemma PrintsReduces(reduce: (string, seq<string>) -> string, kvs: seq<KeyValue>, out: seq<KeyValue>)
    requires OrderInsensitive(reduce) && Prints(reduce, kvs, out)
    ensures Reduces(reduce, kvs, out)
  {
    var a :| multiset(a) == multiset(kvs) && Reduces(reduce, a, out);
    ReducesAnyOrder(reduce, a, kvs, out);
  }

  /** Two reductions of the same pairs print the same lines. */
  lemma ReductionIsUnique(reduce: (string, seq<string>) -> string, kvs: seq<KeyValue>, a: seq<KeyValue>,
                          b: seq<KeyValue>)
    requires Reduces(reduce, kvs, a) && Reduces(reduce, kvs, b)
    ensures multiset(a) == multiset(b)
  {
    DistinctCounts(a);
    DistinctCounts(b);
    forall x ensures x in a <==> x in b {
      if x in a {
        SameLine(reduce, kvs, a, b, x);
      }
      if x in b {
        SameLine(reduce, kvs, b, a, x);
      }
    }
    forall x ensures multiset(a)[x] == multiset(b)[x] {
      assert x in a <==> x in multiset(a);
      assert x in b <==> x in multiset(b);
    }
  }

  lemma SameLine(reduce: (string, seq<string>) -> string, kvs: seq<KeyValue>, a: seq<KeyValue>, b: seq<KeyValue>,
                 x: KeyValue)
    requires Reduces(reduce, kvs, a) && Reduces(reduce, kvs, b) && x in a
    ensures x in b
  {
    var i :| 0 <= i < |a| && a[i] == x;
    assert Printed(b, x.key);
    var j :| 0 <= j < |b| && b[j].key == x.key;
    assert b[j] == x;
  }

  lemma {:induction false} DistinctCounts(a: seq<KeyValue>)
    requires forall i, j :: 0 <= i < j < |a| ==> a[i].key != a[j].key
    ensures forall x :: multiset(a)[x] <= 1
  {
    if a != [] {
      var n := |a| - 1;
      DistinctCounts(a[..n]);
      assert a == a[..n] + [a[n]];
      assert a[n] !in a[..n];
      assert multiset(a[..n])[a[n]] == 0;
    }
  }

  // ----- sorting and grouping -----

  ghost predicate SortedByKey(kvs: seq<KeyValue>) {
    forall i, j :: 0 <= i < j < |kvs| ==> !LexLess(kvs[j].key, kvs[i].key)
  }

  /** `sort.Sort(ByKey)`: some arrangement in key order. */
  method SortByKey(kvs: seq<KeyValue>) returns (res: seq<KeyValue>)
    ensures SortedByKey(res) && multiset(res) == multiset(kvs)
  {
    hide LexLess;
    res := [];
    assert kvs[..0] == [];
    for n := 0 to |kvs|
      invariant SortedByKey(res) && multiset(res) == multiset(kvs[..n]) && |res| == n
    {
      var j := n;
      while j > 0 && LexLess(kvs[n].key, res[j - 1].key)
        invariant 0 <= j <= n
        invariant forall k :: j <= k < n ==> LexLess(kvs[n].key, res[k].key)
      {
        j := j - 1;
      }
      InsertSorted(res, kvs[n], j);
      InsertCounts(res, kvs[n], j);
      assert kvs[..n + 1] == kvs[..n] + [kvs[n]];
      res := res[..j] + [kvs[n]] + res[j..];
    }
    assert kvs[..|kvs|] == kvs;
  }

  lemma InsertCounts(res: seq<KeyValue>, e: KeyValue, j: nat)
    requires j <= |res|
    ensures multiset(res[..j] + [e] + res[j..]) == multiset(res) + multiset{e}
  {
    assert res == res[..j] + res[j..];
  }

  lemma InsertSorted(res: seq<KeyValue>, e: KeyValue, j: nat)
    requires SortedByKey(res) && j <= |res| && (forall k :: j <= k < |res| ==> LexLess(e.key, res[k].key))
    requires j > 0 ==> !LexLess(e.key, res[j - 1].key)
    ensures SortedByKey(res[..j] + [e] + res[j..])
  {
    var r := res[..j] + [e] + res[j..];
    forall a, b | 0 <= a < b < |r| ensures !LexLess(r[b].key, r[a].key) {
      assert forall k :: 0 <= k < j ==> r[k] == res[k];
      assert forall k :: j < k < |r| ==> r[k] == res[k - 1];
      if b == j {
        NotLess(e.key, res[j - 1].key, res[a].key);
      } else if a == j {
        Asymmetric(e.key, res[b - 1].key);
      }
    }
  }

  lemma NotLess(e: string, m: string, a: string)
    requires !LexLess(e, m) && (a == m || !LexLess(m, a))
    ensures !LexLess(e, a)
  {
    LexTotal(e, m);
    LexTotal(a, m);
    if LexLess(e, a) {
      if a != m {
        LexTransitive(e, a, m);
      }
    }
  }

  lemma Asymmetric(a: string, b: string)
    requires LexLess(a, b)
    ensures !LexLess(b, a)
  {
    if LexLess(b, a) {
      LexTransitive(a, b, a);
      LexIrreflexive(a);
    }
  }

  /** No key before position i occurs from i on. */
  ghost predicate CutAt(kvs: seq<KeyValue>, i: int) {
    forall k, l :: 0 <= k < i <= l < |kvs| ==> kvs[k].key != kvs[l].key
  }

  lemma NextCut(kvs: seq<KeyValue>, i: nat, j: nat)
    requires SortedByKey(kvs) && CutAt(kvs, i) && i < j <= |kvs|
    requires forall k :: i <= k < j ==> kvs[k].key == kvs[i].key
    requires j < |kvs| ==> kvs[j].key != kvs[i].key
    ensures CutAt(kvs, j)
  {
    forall k, l | 0 <= k < j <= l < |kvs| ensures kvs[k].key != kvs[l].key {
      if k >= i && l > j {
        LexTotal(kvs[i].key, kvs[j].key);
        assert !LexLess(kvs[j].key, kvs[i].key) && !LexLess(kvs[l].key, kvs[j].key);
      }
    }
  }

  function Texts(kvs: seq<KeyValue>): seq<string> {
    seq(|kvs|, i requires 0 <= i < |kvs| => kvs[i].value)
  }

  /** Going through the group [i, j) appends its values to its own key and to no other. */
  lemma {:induction false} GroupValues(kvs: seq<KeyValue>, i: nat, j: nat, key: string)
    requires i <= j <= |kvs| && forall k :: i <= k < j ==> kvs[k].key == kvs[i].key
    ensures i < j ==> Values(kvs[..j], key) ==
                      Values(kvs[..i], key) + (if key == kvs[i].key then Texts(kvs[i..j]) else [])
    decreases j
  {
    if i < j {
      var n := j - 1;
      LastValue(kvs, n, key);
      hide Values;
      if i < n {
        GroupValues(kvs, i, n, key);
      }
      if key == kvs[i].key {
        LastText(kvs, i, n);
      }
    }
  }

  lemma LastValue(kvs: seq<KeyValue>, n: nat, key: string)
    requires n < |kvs|
    ensures Values(kvs[..n + 1], key) == Values(kvs[..n], key) + (if kvs[n].key == key then [kvs[n].value] else [])
  {
    assert kvs[..n + 1][..n] == kvs[..n];
  }

  lemma LastText(kvs: seq<KeyValue>, i: nat, n: nat)
    requires i <= n < |kvs|
    ensures Texts(kvs[i..n + 1]) == Texts(kvs[i..n]) + [kvs[n].value]
    ensures i == n ==> Texts(kvs[i..n]) == []
  {
  }

  lemma {:induction false} NoValues(kvs: seq<KeyValue>, key: string)
    requires !Occurs(kvs, key)
    ensures Values(kvs, key) == []
  {
    if kvs != [] {
      var n := |kvs| - 1;
      assert kvs[n].key != key;
      assert forall i :: 0 <= i < n ==> kvs[..n][i] == kvs[i];
      NoValues(kvs[..n], key);
    }
  }

  lemma GroupReduces(reduce: (string, seq<string>) -> string, kvs: seq<KeyValue>, i: nat, j: nat, out: seq<KeyValue>)
    requires CutAt(kvs, i) && i < j <= |kvs| && Reduces(reduce, kvs[..i], out)
    requires forall k :: i <= k < j ==> kvs[k].key == kvs[i].key
    ensures var key := kvs[i].key;
            Reduces(reduce, kvs[..j], out + [KeyValue(key, reduce(key, Texts(kvs[i..j])))])
  {
    var key := kvs[i].key;
    var out' := out + [KeyValue(key, reduce(key, Texts(kvs[i..j])))];
    assert !Occurs(kvs[..i], key);
    NoValues(kvs[..i], key);
    GroupValues(kvs, i, j, key);
    assert [] + Texts(kvs[i..j]) == Texts(kvs[i..j]);
    forall k | 0 <= k < |out|
      ensures Occurs(kvs[..j], out[k].key) && Values(kvs[..j], out[k].key) == Values(kvs[..i], out[k].key)
    {
      GrowOccurs(kvs, i, j, out[k].key);
      GroupValues(kvs, i, j, out[k].key);
    }
    assert kvs[..j][i].key == key;
    forall x | Occurs(kvs[..j], x) ensures Printed(out', x) {
      var l :| 0 <= l < j && kvs[..j][l].key == x;
      if l < i {
        assert kvs[..i][l].key == x;
        assert Printed(out, x);
        var k :| 0 <= k < |out| && out[k].key == x;
        assert out'[k].key == x;
      } else {
        assert out'[|out|].key == x;
      }
    }
  }

  /** The line of the group at i comes after all lines of the groups before it. */
  lemma NextLineIsLater(reduce: (string, seq<string>) -> string, kvs: seq<KeyValue>, i: nat, out: seq<KeyValue>,
                        line: KeyValue)
    requires SortedByKey(kvs) && i < |kvs| && Reduces(reduce, kvs[..i], out) && SortedByKey(out)
    requires line.key == kvs[i].key
    ensures SortedByKey(out + [line])
  {
    hide LexLess, Values;
    forall a | 0 <= a < |out| ensures !LexLess(line.key, out[a].key) {
      assert Occurs(kvs[..i], out[a].key);
      var l :| 0 <= l < i && kvs[..i][l].key == out[a].key;
      assert kvs[l].key == out[a].key;
    }
  }

  lemma GrowOccurs(kvs: seq<KeyValue>, i: nat, j: nat, key: string)
    requires i <= j <= |kvs| && Occurs(kvs[..i], key)
    ensures Occurs(kvs[..j], key)
  {
    var l :| 0 <= l < i && kvs[..i][l].key == key;
    assert kvs[..j][l].key == key;
  }

  /** The grouping loop that worker and sequential program share. */
  method GroupAndReduce(kvs: seq<KeyValue>, reduce: (string, seq<string>) -> string) returns (out: seq<KeyValue>)
    requires SortedByKey(kvs)
    ensures Reduces(reduce, kvs, out) && SortedByKey(out)
  {
    out := [];
    var i := 0;
    assert kvs[..0] == [];
    while i < |kvs|
      invariant 0 <= i <= |kvs| && CutAt(kvs, i) && Reduces(reduce, kvs[..i], out) && SortedByKey(out)
    {
      var j := i + 1;
      while j < |kvs| && kvs[j].key == kvs[i].key
        invariant i < j <= |kvs| && forall k :: i <= k < j ==> kvs[k].key == kvs[i].key
      {
        j := j + 1;
      }
      var values: seq<string> := [];
      for k := i to j
        invariant values == Texts(kvs[i..k])
      {
        assert Texts(kvs[i..k + 1]) == Texts(kvs[i..k]) + [kvs[k].value];
        values := values + [kvs[k].value];
      }
      NextCut(kvs, i, j);
      GroupReduces(reduce, kvs, i, j, out);
      NextLineIsLater(reduce, kvs, i, out, KeyValue(kvs[i].key, reduce(kvs[i].key, values)));
      out := out + [KeyValue(kvs[i].key, reduce(kvs[i].key, values))];
      i := j;
    }
    assert kvs[..|kvs|] == kvs;
  }

  // ----- the two programs -----

  /** An input file: name and contents. */
  type File = (string, string)

  /** Everything the map function makes of the files, in order. */
  function Intermediate(files: seq<File>, mapf: (string, string) -> seq<KeyValue>): seq<KeyValue> {
    if files == [] then []
    else
      var last := files[|files| - 1];
      Intermediate(files[..|files| - 1], mapf) + mapf(last.0, last.1)
  }

  method SortAndReduce(intermediate: seq<KeyValue>, reduce: (string, seq<string>) -> string)
    returns (out: seq<KeyValue>)
    ensures Prints(reduce, intermediate, out)
  {
    var sorted := SortByKey(intermediate);
    out := GroupAndReduce(sorted, reduce);
  }

  method Sequential(files: seq<File>, mapf: (string, string) -> seq<KeyValue>, reduce: (string, seq<string>) -> string)
    returns (out: seq<KeyValue>)
    ensures Prints(reduce, Intermediate(files, mapf), out)
  {
    var intermediate: seq<KeyValue> := [];
    for x := 0 to |files|
      invariant intermediate == Intermediate(files[..x], mapf)
    {
      assert files[..x + 1][..x] == files[..x];
      intermediate := intermediate + mapf(files[x].0, files[x].1);
    }
    assert files[..|files|] == files;
    out := SortAndReduce(intermediate, reduce);
  }

  /** The pairs that hash to one reducer, in order. */
  function Bucket(kvs: seq<KeyValue>, hash: string -> nat, n: nat, slot: int): seq<KeyValue>
    requires n > 0
  {
    if kvs == [] then []
    else
      var last := kvs[|kvs| - 1];
      Bucket(kvs[..|kvs| - 1], hash, n, slot) + (if hash(last.key) % n == slot then [last] else [])
  }

  method Mapper(kvs: seq<KeyValue>, hash: string -> nat, n: nat) returns (buffer: seq<seq<KeyValue>>)
    requires n > 0
    ensures |buffer| == n && forall slot :: 0 <= slot < n ==> buffer[slot] == Bucket(kvs, hash, n, slot)
  {
    buffer := seq(n, _ => []);
    for i := 0 to |kvs|
      invariant |buffer| == n && forall slot :: 0 <= slot < n ==> buffer[slot] == Bucket(kvs[..i], hash, n, slot)
    {
      assert kvs[..i + 1][..i] == kvs[..i];
      var slot := hash(kvs[i].key) % n;
      buffer := buffer[slot := buffer[slot] + [kvs[i]]];
    }
    assert kvs[..|kvs|] == kvs;
  }

  /** All map tasks, in the order their results are recorded, then all reduce tasks. What reducer r reads
      is the r-th file of every map task, one after the other. */
  method Distributed(recorded: seq<File>, mapf: (string, string) -> seq<KeyValue>, hash: string -> nat, n: nat,
                     reduce: (string, seq<string>) -> string)
    returns (outs: seq<seq<KeyValue>>)
    requires n > 0
    ensures |outs| == n && forall r :: 0 <= r < n ==>
              Prints(reduce, Bucket(Intermediate(recorded, mapf), hash, n, r), outs[r])
  {
    var inputs: seq<seq<KeyValue>> := seq(n, _ => []);
    assert recorded[..0] == [];
    hide Prints;
    for x := 0 to |recorded|
      invariant |inputs| == n
      invariant forall r :: 0 <= r < n ==> inputs[r] == Bucket(Intermediate(recorded[..x], mapf), hash, n, r)
    {
      hide Bucket, Intermediate;
      var buffer := Mapper(mapf(recorded[x].0, recorded[x].1), hash, n);
      forall r | 0 <= r < n
        ensures Bucket(Intermediate(recorded[..x + 1], mapf), hash, n, r) == inputs[r] + buffer[r]
      {
        MoreRecorded(recorded, x, mapf, hash, n, r);
      }
      inputs := seq(n, r requires 0 <= r < n && |inputs| == n && |buffer| == n => inputs[r] + buffer[r]);
    }
    assert recorded[..|recorded|] == recorded;
    hide Bucket, Intermediate;
    outs := [];
    for r := 0 to n
      invariant |outs| == r
      invariant forall q :: 0 <= q < r ==> Prints(reduce, Bucket(Intermediate(recorded, mapf), hash, n, q), outs[q])
    {
      var out := SortAndReduce(inputs[r], reduce);
      outs := outs + [out];
    }
  }

  lemma MoreRecorded(recorded: seq<File>, x: nat, mapf: (string, string) -> seq<KeyValue>, hash: string -> nat, n: nat,
                     r: int)
    requires n > 0 && x < |recorded|
    ensures Bucket(Intermediate(recorded[..x + 1], mapf), hash, n, r)
         == Bucket(Intermediate(recorded[..x], mapf), hash, n, r)
            + Bucket(mapf(recorded[x].0, recorded[x].1), hash, n, r)
  {
    hide Bucket;
    assert recorded[..x + 1][..x] == recorded[..x];
    BucketConcat(Intermediate(recorded[..x], mapf), mapf(recorded[x].0, recorded[x].1), hash, n, r);
  }

  lemma {:induction false} BucketConcat(a: seq<KeyValue>, b: seq<KeyValue>, hash: string -> nat, n: nat, slot: int)
    requires n > 0
    ensures Bucket(a + b, hash, n, slot) == Bucket(a, hash, n, slot) + Bucket(b, hash, n, slot)
    decreases |b|
  {
    if b == [] {
      assert a + b == a;
    } else {
      var m := |b| - 1;
      BucketConcat(a, b[..m], hash, n, slot);
      assert (a + b)[..|a + b| - 1] == a + b[..m];
    }
  }

  // ----- same result -----

  lemma {:induction false} BucketCount(kvs: seq<KeyValue>, hash: string -> nat, n: nat, slot: int, kv: KeyValue)
    requires n > 0
    ensures multiset(Bucket(kvs, hash, n, slot))[kv] == if hash(kv.key) % n == slot then multiset(kvs)[kv] else 0
  {
    if kvs != [] {
      var m := |kvs| - 1;
      BucketCount(kvs[..m], hash, n, slot, kv);
      assert kvs == kvs[..m] + [kvs[m]];
    }
  }

  /** A key's own bucket has all its values; no other bucket has any. */
  lemma BucketOfKey(kvs: seq<KeyValue>, hash: string -> nat, n: nat, slot: int, key: string)
    requires n > 0
    ensures hash(key) % n == slot ==>
              && multiset(Values(Bucket(kvs, hash, n, slot), key)) == multiset(Values(kvs, key))
              && (Occurs(Bucket(kvs, hash, n, slot), key) <==> Occurs(kvs, key))
    ensures hash(key) % n != slot ==> !Occurs(Bucket(kvs, hash, n, slot), key)
  {
    var b := Bucket(kvs, hash, n, slot);
    forall v ensures multiset(b)[KeyValue(key, v)] ==
                     if hash(key) % n == slot then multiset(kvs)[KeyValue(key, v)] else 0
    {
      BucketCount(kvs, hash, n, slot, KeyValue(key, v));
    }
    if hash(key) % n == slot {
      ValuesOfBag(b, kvs, key);
    } else {
      forall i | 0 <= i < |b| ensures b[i].key != key {
        assert b[i] in multiset(b);
        assert b[i] == KeyValue(b[i].key, b[i].value);
      }
    }
  }

  function Flatten(outs: seq<seq<KeyValue>>): seq<KeyValue> {
    if outs == [] then [] else Flatten(outs[..|outs| - 1]) + outs[|outs| - 1]
  }

  /** Lines printed by the first m reducers are lines of a reduction of everything, and only keys of
      those reducers' slots are missing. */
  ghost predicate CoversSlots(reduce: (string, seq<string>) -> string, kvs: seq<KeyValue>, hash: string -> nat, n: nat,
                              m: int, out: seq<KeyValue>)
    requires n > 0
  {
    && (forall i, j :: 0 <= i < j < |out| ==> out[i].key != out[j].key)
    && (forall i :: 0 <= i < |out| ==> && hash(out[i].key) % n < m && Occurs(kvs, out[i].key)
                                       && out[i].value == reduce(out[i].key, Values(kvs, out[i].key)))
    && (forall key :: Occurs(kvs, key) && hash(key) % n < m ==> Printed(out, key))
  }

  /** A reducer prints only keys that hash to it. */
  lemma OwnSlot(reduce: (string, seq<string>) -> string, kvs: seq<KeyValue>, hash: string -> nat, n: nat, r: int,
                out: seq<KeyValue>)
    requires n > 0 && Reduces(reduce, Bucket(kvs, hash, n, r), out)
    ensures forall i :: 0 <= i < |out| ==> hash(out[i].key) % n == r
  {
    forall i | 0 <= i < |out| ensures hash(out[i].key) % n == r {
      assert Occurs(Bucket(kvs, hash, n, r), out[i].key);
      BucketOfKey(kvs, hash, n, r, out[i].key);
    }
  }

  lemma AddSlot(reduce: (string, seq<string>) -> string, kvs: seq<KeyValue>, hash: string -> nat, n: nat,
                m: nat, out: seq<KeyValue>, next: seq<KeyValue>)
    requires n > 0 && OrderInsensitive(reduce) && CoversSlots(reduce, kvs, hash, n, m, out)
    requires Reduces(reduce, Bucket(kvs, hash, n, m), next)
    ensures CoversSlots(reduce, kvs, hash, n, m + 1, out + next)
    ensures forall i :: 0 <= i < |next| ==> hash(next[i].key) % n == m
  {
    var b := Bucket(kvs, hash, n, m);
    var o := out + next;
    forall i | 0 <= i < |next|
      ensures hash(next[i].key) % n == m && Occurs(kvs, next[i].key)
      ensures next[i].value == reduce(next[i].key, Values(kvs, next[i].key))
    {
      BucketOfKey(kvs, hash, n, m, next[i].key);
    }
    forall key | Occurs(kvs, key) && hash(key) % n < m + 1 ensures Printed(o, key) {
      if hash(key) % n < m {
        assert Printed(out, key);
        var i :| 0 <= i < |out| && out[i].key == key;
        assert o[i].key == key;
      } else {
        BucketOfKey(kvs, hash, n, m, key);
        assert Printed(next, key);
        var i :| 0 <= i < |next| && next[i].key == key;
        assert o[|out| + i].key == key;
      }
    }
  }

  lemma {:induction false} AllSlots(reduce: (string, seq<string>) -> string, kvs: seq<KeyValue>, hash: string -> nat,
                                    n: nat,
                                    outs: seq<seq<KeyValue>>, m: nat)
    requires n > 0 && OrderInsensitive(reduce) && m <= |outs|
    requires forall r :: 0 <= r < |outs| ==> Reduces(reduce, Bucket(kvs, hash, n, r), outs[r])
    ensures CoversSlots(reduce, kvs, hash, n, m, Flatten(outs[..m]))
  {
    if m > 0 {
      hide Reduces, OrderInsensitive, CoversSlots, Bucket;
      AllSlots(reduce, kvs, hash, n, outs, m - 1);
      AddSlot(reduce, kvs, hash, n, m - 1, Flatten(outs[..m - 1]), outs[m - 1]);
      assert outs[..m][..m - 1] == outs[..m - 1];
    }
  }

  lemma {:induction false} IntermediateBag(a: seq<File>, b: seq<File>, mapf: (string, string) -> seq<KeyValue>)
    requires multiset(a) == multiset(b)
    ensures multiset(Intermediate(a, mapf)) == multiset(Intermediate(b, mapf))
    decreases |a|
  {
    assert |a| == |multiset(a)| == |multiset(b)| == |b|;
    if a != [] {
      var n := |a| - 1;
      assert a == a[..n] + [a[n]];
      assert a[n] in multiset(b);
      var i :| 0 <= i < |b| && b[i] == a[n];
      var rest := b[..i] + b[i + 1..];
      Without(b, i);
      assert multiset(rest) == multiset(b) - multiset{a[n]} == multiset(a[..n]);
      IntermediateLast(a, mapf);
      hide Intermediate;
      IntermediateBag(a[..n], rest, mapf);
      IntermediateWithout(b, i, mapf);
    }
  }

  lemma Without(b: seq<File>, i: nat)
    requires i < |b|
    ensures multiset(b) == multiset(b[..i] + b[i + 1..]) + multiset{b[i]}
  {
    assert b == b[..i] + [b[i]] + b[i + 1..];
  }

  lemma {:induction false} IntermediateWithout(b: seq<File>, i: nat, mapf: (string, string) -> seq<KeyValue>)
    requires i < |b|
    ensures multiset(Intermediate(b, mapf))
         == multiset(Intermediate(b[..i] + b[i + 1..], mapf)) + multiset(mapf(b[i].0, b[i].1))
    decreases |b|
  {
    hide Intermediate;
    var n := |b| - 1;
    IntermediateLast(b, mapf);
    if i == n {
      assert b[..i] + b[i + 1..] == b[..n];
    } else {
      var short, rest := b[..n][..i] + b[..n][i + 1..], b[..i] + b[i + 1..];
      assert rest == short + [b[n]];
      IntermediateWithout(b[..n], i, mapf);
      IntermediateLast(rest, mapf);
      assert rest[..|short|] == short;
    }
  }

  lemma IntermediateLast(b: seq<File>, mapf: (string, string) -> seq<KeyValue>)
    requires b != []
    ensures var n := |b| - 1;
            multiset(Intermediate(b, mapf)) == multiset(Intermediate(b[..n], mapf)) + multiset(mapf(b[n].0, b[n].1))
  {
  }

  // ----- file by file -----

  ghost predicate DistinctKeys(out: seq<KeyValue>) {
    forall i, j :: 0 <= i < j < |out| ==> out[i].key != out[j].key
  }

  /** Sorted lines with distinct keys are determined by which lines there are. */
  lemma {:induction false} SortedLinesAgree(a: seq<KeyValue>, b: seq<KeyValue>)
    requires multiset(a) == multiset(b) && SortedByKey(a) && SortedByKey(b) && DistinctKeys(a)
    ensures a == b
    decreases |a|
  {
    hide SortedByKey, DistinctKeys;
    SameSize(a, b);
    if a != [] {
      SameLast(a, b);
      AllButLast(a);
      AllButLast(b);
      SortedLinesAgree(a[..|a| - 1], b[..|b| - 1]);
    }
  }

  lemma SameSize(a: seq<KeyValue>, b: seq<KeyValue>)
    requires multiset(a) == multiset(b)
    ensures |a| == |b|
  {
    assert |a| == |multiset(a)| == |multiset(b)| == |b|;
  }

  lemma AllButLast(a: seq<KeyValue>)
    requires a != [] && SortedByKey(a)
    ensures var n := |a| - 1;
            && a == a[..n] + [a[n]] && multiset(a[..n]) == multiset(a) - multiset{a[n]}
            && SortedByKey(a[..n]) && (DistinctKeys(a) ==> DistinctKeys(a[..n]))
  {
    hide LexLess;
    assert a == a[..|a| - 1] + [a[|a| - 1]];
  }

  lemma SameLast(a: seq<KeyValue>, b: seq<KeyValue>)
    requires multiset(a) == multiset(b) && SortedByKey(a) && SortedByKey(b) && DistinctKeys(a) && |a| == |b| > 0
    ensures a[|a| - 1] == b[|b| - 1]
  {
    hide LexLess;
    var n := |a| - 1;
    assert a[n] in multiset(b) && b[n] in multiset(a);
    var j :| 0 <= j <= n && b[j] == a[n];
    var i :| 0 <= i <= n && a[i] == b[n];
    LexTotal(a[n].key, b[n].key);
  }

  lemma {:induction false} BucketSorted(out: seq<KeyValue>, hash: string -> nat, n: nat, slot: int)
    requires n > 0 && SortedByKey(out) && DistinctKeys(out)
    ensures var b := Bucket(out, hash, n, slot);
            SortedByKey(b) && DistinctKeys(b) && forall i :: 0 <= i < |b| ==> b[i] in out
    decreases |out|
  {
    hide LexLess;
    if out != [] {
      var m := |out| - 1;
      BucketSorted(out[..m], hash, n, slot);
      var b := Bucket(out[..m], hash, n, slot);
      forall i | 0 <= i < |b| ensures b[i] in out && b[i].key != out[m].key && !LexLess(out[m].key, b[i].key) {
        var k :| 0 <= k < m && out[..m][k] == b[i];
        assert out[k] == b[i];
      }
    }
  }

  /** Lines of other reducers do not count towards a line of reducer r. */
  lemma {:induction false} FlattenCount(outs: seq<seq<KeyValue>>, hash: string -> nat, n: nat, x: KeyValue, m: nat)
    requires n > 0 && m <= |outs| == n
    requires forall r, i :: 0 <= r < n && 0 <= i < |outs[r]| ==> hash(outs[r][i].key) % n == r
    ensures var r := hash(x.key) % n;
            multiset(Flatten(outs[..m]))[x] == if r < m then multiset(outs[r])[x] else 0
    decreases m
  {
    if m > 0 {
      FlattenCount(outs, hash, n, x, m - 1);
      assert outs[..m][..m - 1] == outs[..m - 1];
      if hash(x.key) % n != m - 1 {
        assert x !in outs[m - 1];
      }
    }
  }

  /** Distributed equals sequential, file by file: what reducer r prints is exactly the sequential output with
      the lines of the other reducers left out, in the same order. */
  lemma ReducerFileIsSequentialPart(files: seq<File>, recorded: seq<File>, mapf: (string, string) -> seq<KeyValue>,
                                    hash: string -> nat, n: nat, reduce: (string, seq<string>) -> string,
                                    outs: seq<seq<KeyValue>>, out: seq<KeyValue>, r: int)
    requires n > 0 && OrderInsensitive(reduce) && multiset(recorded) == multiset(files)
    requires Prints(reduce, Intermediate(files, mapf), out) && |outs| == n && 0 <= r < n
    requires forall q :: 0 <= q < n ==> Prints(reduce, Bucket(Intermediate(recorded, mapf), hash, n, q), outs[q])
    ensures outs[r] == Bucket(out, hash, n, r)
  {
    hide Reduces, OrderInsensitive, SortedByKey, DistinctKeys, Intermediate;
    DistributedIsSequential(files, recorded, mapf, hash, n, reduce, outs, out);
    PrintsDistinct(reduce, Intermediate(files, mapf), out);
    PrintsDistinct(reduce, Bucket(Intermediate(recorded, mapf), hash, n, r), outs[r]);
    BucketSorted(out, hash, n, r);
    ReducerLines(hash, n, outs, out, r);
    SortedLinesAgree(outs[r], Bucket(out, hash, n, r));
  }

  lemma ReducerLines(hash: string -> nat, n: nat, outs: seq<seq<KeyValue>>, out: seq<KeyValue>, r: int)
    requires 0 <= r < n == |outs| && multiset(Flatten(outs)) == multiset(out)
    requires forall q, i :: 0 <= q < n && 0 <= i < |outs[q]| ==> hash(outs[q][i].key) % n == q
    ensures multiset(outs[r]) == multiset(Bucket(out, hash, n, r))
  {
    hide Flatten, Bucket;
    forall x ensures multiset(outs[r])[x] == multiset(Bucket(out, hash, n, r))[x] {
      FlattenCount(outs, hash, n, x, n);
      BucketCount(out, hash, n, r, x);
      assert outs[..n] == outs;
      assert hash(x.key) % n != r ==> x !in outs[r];
    }
  }

  lemma PrintsDistinct(reduce: (string, seq<string>) -> string, kvs: seq<KeyValue>, out: seq<KeyValue>)
    requires Prints(reduce, kvs, out)
    ensures DistinctKeys(out) && SortedByKey(out)
  {
    hide SortedByKey;
    var a :| multiset(a) == multiset(kvs) && Reduces(reduce, a, out);
  }

  /** Distributed equals sequential: whatever the order in which map results are recorded, the hash and
      the number of reducers, all reducers together print exactly the lines of the sequential program,
      and each key is printed by the one reducer its hash selects. */
  lemma DistributedIsSequential(files: seq<File>, recorded: seq<File>, mapf: (string, string) -> seq<KeyValue>,
                                hash: string -> nat, n: nat, reduce: (string, seq<string>) -> string,
                                outs: seq<seq<KeyValue>>, out: seq<KeyValue>)
    requires n > 0 && OrderInsensitive(reduce) && multiset(recorded) == multiset(files)
    requires Prints(reduce, Intermediate(files, mapf), out)
    requires |outs| == n
    requires forall r :: 0 <= r < n ==> Prints(reduce, Bucket(Intermediate(recorded, mapf), hash, n, r), outs[r])
    ensures multiset(Flatten(outs)) == multiset(out)
    ensures forall r, i :: 0 <= r < n && 0 <= i < |outs[r]| ==> hash(outs[r][i].key) % n == r
  {
    var kvs := Intermediate(recorded, mapf);
    PrintsReduces(reduce, Intermediate(files, mapf), out);
    forall r | 0 <= r < n ensures Reduces(reduce, Bucket(kvs, hash, n, r), outs[r]) {
      PrintsReduces(reduce, Bucket(kvs, hash, n, r), outs[r]);
    }
    forall r | 0 <= r < n ensures forall i :: 0 <= i < |outs[r]| ==> hash(outs[r][i].key) % n == r {
      OwnSlot(reduce, kvs, hash, n, r, outs[r]);
    }
    AllSlots(reduce, kvs, hash, n, outs, n);
    assert outs[..n] == outs;
    assert Reduces(reduce, kvs, Flatten(outs));
    IntermediateBag(recorded, files, mapf);
    ReducesAnyOrder(reduce, kvs, Intermediate(files, mapf), Flatten(outs));
    ReductionIsUnique(reduce, Intermediate(files, mapf), Flatten(outs), out);
  }
}

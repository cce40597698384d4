/** `checkParallel` with the searches run as their results are read, `checkOperations` and `checkEvents`
    on top of it, and the data the visualizer derives from the result. */
module CheckHistory {
  import opened Linearizability
  import opened Search
  import opened Checker
  import opened Entries
  import opened ClientEvents
  import opened KvModel
  import opened Locality
  import opened ParallelCheck
  import opened Strings
  import opened Visualization

  /** What an unkilled search records: for every operation a longest partial linearization with it, and
      a full one if there is any. */
  ghost predicate Explains<S(!new), V(!new)>(m: Model<S, V>, h: seq<Event<V>>, longest: seq<Partial>)
    requires WellFormed(h)
  {
    forall x :: 0 <= x < |longest| ==>
      && IsLongest(m, h, x, longest[x])
      && (Linearizable(m, h) ==> longest[x].Found? && IsLinearization(m, h, longest[x].ids))
  }

  lemma LinearizationIsLongest<S(!new), V(!new)>(m: Model<S, V>, h: seq<Event<V>>, x: int, ids: seq<int>)
    requires WellFormed(h) && IsPartial(m, h, ids) && IsLinearization(m, h, ids) && x in SetOf(ids)
    ensures IsLongest(m, h, x, Found(ids))
  {
    assert |ids| == |h| / 2;
    hide WellFormed, IsPartial, Run, Precedes;
    forall pi | IsPartial(m, h, pi) && x in SetOf(pi) ensures |pi| <= |ids| {
      PartialIds(m, h, pi);
      FullOrderPlacesAll(|h| / 2, pi);
    }
  }

  lemma SearchExplains<S(!new), V(!new)>(m: Model<S, V>, h: seq<Event<V>>, ok: bool, longest: seq<Partial>)
    requires WellFormed(h) && PartialsOK(m, h, longest) && (ok <==> Linearizable(m, h))
    requires ok ==> forall x :: 0 <= x < |longest| ==> longest[x].Found? && IsLinearization(m, h, longest[x].ids)
    requires !ok ==> forall x :: 0 <= x < |longest| ==> IsLongest(m, h, x, longest[x])
    ensures Explains(m, h, longest)
  {
    hide WellFormed, IsPartial, Linearizable, IsLinearization, IsLongest, SetOf;
    forall x | 0 <= x < |longest| && ok ensures IsLongest(m, h, x, longest[x]) {
      LinearizationIsLongest(m, h, x, longest[x].ids);
    }
  }

  /** The k-th result arrives before the timer fires. */
  ghost predicate Arrives(k: int, n: nat, timeout: int, ticks: nat) {
    0 <= k < n && (timeout <= 0 || k < ticks)
  }

  /** The result of partition i is among those that arrive before the timer fires. */
  ghost predicate ReadInTime(i: int, arrivals: seq<int>, timeout: int, ticks: nat) {
    timeout <= 0 || exists k :: Arrives(k, |arrivals|, timeout, ticks) && arrivals[k] == i
  }

  /** A search whose result arrives in time refutes its partition. */
  ghost predicate SomeFails<S(!new), V(!new)>(m: Model<S, V>, hs: seq<seq<Event<V>>>, arrivals: seq<int>,
                                              timeout: int, ticks: nat)
    requires (forall i :: 0 <= i < |hs| ==> WellFormed(hs[i])) && Ids(|hs|, arrivals) && |arrivals| == |hs|
  {
    exists k :: Arrives(k, |hs|, timeout, ticks) && !Linearizable(m, hs[arrivals[k]])
  }

  /** The timer fires before all n results are in. */
  ghost predicate CutShort(n: nat, timeout: int, ticks: nat) {
    timeout > 0 && (n == 0 || ticks < n)
  }

  /** One search result per partition, read in the order `arrivals`; the timer fires after `ticks`
      results, if the caller set one. The search of partition i, when its result is read after the loop
      was left, finds the kill flag as `late(i, poll)` says. */
  method RunSearches<S(!new), V(!new)>(m: Model<S, V>, hs: seq<seq<Event<V>>>, computeInfo: bool, timeout: int,
                                       arrivals: seq<int>, ticks: nat, late: (int, nat) -> bool)
    returns (verdict: Verdict, longest: seq<seq<Partial>>)
    requires Lawful(m) && (forall i :: 0 <= i < |hs| ==> WellFormed(hs[i]))
    requires |hs| > 0 || timeout > 0
    requires Ids(|hs|, arrivals) && |arrivals| == |hs|
    ensures verdict == Ok ==> forall i :: 0 <= i < |hs| ==> Linearizable(m, hs[i])
    ensures verdict == Illegal <==> SomeFails(m, hs, arrivals, timeout, ticks)
    ensures verdict == Unknown <==> CutShort(|hs|, timeout, ticks) && verdict != Illegal
    ensures computeInfo ==> |longest| == |hs| && forall i :: 0 <= i < |hs| ==> PartialsOK(m, hs[i], longest[i])
    ensures computeInfo ==> forall i :: 0 <= i < |hs| && ReadInTime(i, arrivals, timeout, ticks) ==>
                              Explains(m, hs[i], longest[i])
  {
    hide WellFormed, Lawful, Linearizable, PartialsOK, IsLinearization, IsLongest, Explains;
    var ok, timedOut, count := true, false, 0;
    longest := seq(|hs|, _ => []);
    var left := |hs| == 0;
    if left {
      timedOut := true;
    }
    while !left
      invariant 0 <= count <= |hs| && |longest| == |hs|
      invariant !left ==> count < |hs|
      invariant ok ==> forall k :: 0 <= k < count ==> Linearizable(m, hs[arrivals[k]])
      invariant left && ok && !timedOut ==> count == |hs|
      invariant !ok ==> SomeFails(m, hs, arrivals, timeout, ticks)
      invariant timeout > 0 ==> count <= ticks
      invariant timedOut ==> left && timeout > 0 && (|hs| == 0 || ticks <= count < |hs|)
      invariant |hs| == 0 ==> timedOut
      invariant forall k :: 0 <= k < count ==> PartialsOK(m, hs[arrivals[k]], longest[arrivals[k]])
      invariant computeInfo ==> forall k :: 0 <= k < count ==> Explains(m, hs[arrivals[k]], longest[arrivals[k]])
      invariant left && computeInfo && !timedOut ==> count == |hs|
      decreases !left, |hs| - count
    {
      if timeout > 0 && count >= ticks {
        timedOut := true;
        left := true;
      } else {
        var i := arrivals[count];
        assert Arrives(count, |hs|, timeout, ticks);
        var result, found := CheckSingle(m, hs[i], computeInfo, _ => false);
        if computeInfo {
          SearchExplains(m, hs[i], result, found);
        }
        longest := longest[i := found];
        count := count + 1;
        ok := ok && result;
        if (!ok && !computeInfo) || count >= |hs| {
          left := true;
        }
      }
    }
    assert ok ==> (timedOut <==> CutShort(|hs|, timeout, ticks));
    assert ok ==> !SomeFails(m, hs, arrivals, timeout, ticks) by {
      assert forall k :: ok && Arrives(k, |hs|, timeout, ticks) ==> k < count;
    }
    ghost var read := count;
    assert computeInfo ==> forall k :: Arrives(k, |hs|, timeout, ticks) ==> k < read;
    hide SomeFails, CutShort;
    if computeInfo {
      while count < |hs|
        invariant 0 <= count <= |hs| && |longest| == |hs|
        invariant ok && !timedOut ==> forall k :: 0 <= k < count ==> Linearizable(m, hs[arrivals[k]])
        invariant forall k :: 0 <= k < count ==> PartialsOK(m, hs[arrivals[k]], longest[arrivals[k]])
        invariant read <= count && forall k :: 0 <= k < read ==> Explains(m, hs[arrivals[k]], longest[arrivals[k]])
      {
        var i := arrivals[count];
        var answer, found := CheckSingle(m, hs[i], computeInfo, (poll: nat) => late(i, poll));
        longest := longest[i := found];
        count := count + 1;
      }
    }
    verdict := if !ok then Illegal else if timedOut then Unknown else Ok;
    forall i | 0 <= i < |hs| && count == |hs|
      ensures ok && !timedOut ==> Linearizable(m, hs[i])
      ensures PartialsOK(m, hs[i], longest[i])
      ensures computeInfo && ReadInTime(i, arrivals, timeout, ticks) ==> Explains(m, hs[i], longest[i])
    {
      var k := Arrival(|hs|, arrivals, i);
      assert timeout <= 0 ==> Arrives(k, |hs|, timeout, ticks);
    }
  }

  /** `checkParallel`: the verdict and, when information is wanted, the distinct partial linearizations the
      searches recorded, per partition. */
  method CheckParallel<S(!new), V(!new)>(m: Model<S, V>, hs: seq<seq<Event<V>>>, computeInfo: bool, timeout: int,
                                         arrivals: seq<int>, ticks: nat, late: (int, nat) -> bool)
    returns (verdict: Verdict, partials: seq<seq<seq<int>>>, ghost longest: seq<seq<Partial>>)
    requires Lawful(m) && (forall i :: 0 <= i < |hs| ==> WellFormed(hs[i]))
    requires |hs| > 0 || timeout > 0
    requires Ids(|hs|, arrivals) && |arrivals| == |hs|
    ensures verdict == Ok ==> forall i :: 0 <= i < |hs| ==> Linearizable(m, hs[i])
    ensures verdict == Illegal <==> SomeFails(m, hs, arrivals, timeout, ticks)
    ensures verdict == Unknown <==> CutShort(|hs|, timeout, ticks) && verdict != Illegal
    ensures computeInfo ==> |partials| == |longest| == |hs|
    ensures computeInfo ==> forall i :: 0 <= i < |hs| ==>
              Gathers(longest[i], partials[i]) && PartialsOK(m, hs[i], longest[i])
    ensures computeInfo ==> forall i :: 0 <= i < |hs| && ReadInTime(i, arrivals, timeout, ticks) ==>
                              Explains(m, hs[i], longest[i])
  {
    hide WellFormed, Lawful, Linearizable, PartialsOK, Explains, Gathers, Ids;
    var found;
    verdict, found := RunSearches(m, hs, computeInfo, timeout, arrivals, ticks, late);
    longest, partials := found, [];
    if computeInfo {
      for i := 0 to |hs|
        invariant |partials| == i && forall k :: 0 <= k < i ==> Gathers(longest[k], partials[k])
      {
        var ps := CollectPartials(found[i]);
        partials := partials + [ps];
      }
    }
  }

  /** Check with information, then draw every partition: whatever was killed, each linearization drawn is
      one and replays without a refusal, so the panic is unreachable. In a partition whose result came in
      time, what is drawn for an operation is a longest partial linearization with it, and nothing exactly
      where there is none. */
  method CheckAndDraw<S(!new), V(!new)>(m: Model<S, V>, hs: seq<seq<Event<V>>>, timeout: int, arrivals: seq<int>,
                                        ticks: nat, late: (int, nat) -> bool)
    returns (verdict: Verdict, data: seq<PartitionData<S>>)
    requires Lawful(m) && (forall i :: 0 <= i < |hs| ==> WellFormed(hs[i]))
    requires |hs| > 0 || timeout > 0
    requires Ids(|hs|, arrivals) && |arrivals| == |hs|
    ensures verdict == Ok ==> forall i :: 0 <= i < |hs| ==> Linearizable(m, hs[i])
    ensures verdict == Illegal <==> SomeFails(m, hs, arrivals, timeout, ticks)
    ensures verdict == Unknown <==> CutShort(|hs|, timeout, ticks) && verdict != Illegal
    ensures |data| == |hs| && forall i :: 0 <= i < |hs| ==> Shows(m, hs[i], data[i]) && Spans(hs[i], data[i].history)
    ensures forall i, x :: 0 <= i < |hs| && ReadInTime(i, arrivals, timeout, ticks) && 0 <= x < |hs[i]| / 2 ==>
              IsLongest(m, hs[i], x, Shown(data[i], x))
  {
    hide WellFormed, Lawful, Linearizable, PartialsOK, Explains, Gathers, Ids, Shows, Spans, IsLongest, Shown,
         SomeFails, CutShort, ReadInTime;
    var partials;
    ghost var longest;
    verdict, partials, longest := CheckParallel(m, hs, true, timeout, arrivals, ticks, late);
    data := [];
    for i := 0 to |hs|
      invariant |data| == i
      invariant forall k :: 0 <= k < i ==> Shows(m, hs[k], data[k]) && Spans(hs[k], data[k].history)
      invariant forall k, x :: 0 <= k < i && ReadInTime(k, arrivals, timeout, ticks) && 0 <= x < |hs[k]| / 2 ==>
                  IsLongest(m, hs[k], x, Shown(data[k], x))
    {
      var d := DrawPartition(m, hs[i], partials[i], longest[i]);
      if ReadInTime(i, arrivals, timeout, ticks) {
        DrawnIsLongest(m, hs[i], longest[i], d);
      }
      data := data + [d];
    }
  }

  lemma DrawnIsLongest<S(!new), V(!new)>(m: Model<S, V>, h: seq<Event<V>>, longest: seq<Partial>,
                                         data: PartitionData<S>)
    requires WellFormed(h) && PartialsOK(m, h, longest) && Shows(m, h, data) && Explains(m, h, longest)
    requires forall x :: 0 <= x < |longest| && longest[x].Found? ==>
               Shown(data, x).Found? && |longest[x].ids| <= |Shown(data, x).ids|
    ensures forall x :: 0 <= x < |h| / 2 ==> IsLongest(m, h, x, Shown(data, x))
  {
    assert |longest| == |h| / 2;
    hide WellFormed, Shows, IsLongest, Shown, PartialsOK;
    forall x | 0 <= x < |h| / 2 ensures IsLongest(m, h, x, Shown(data, x)) {
      ShownIsLongest(m, h, longest, data, x);
    }
  }

  lemma Arrival(n: nat, arrivals: seq<int>, i: int) returns (k: int)
    requires Ids(n, arrivals) && |arrivals| == n && 0 <= i < n
    ensures 0 <= k < n && arrivals[k] == i
  {
    FullOrderPlacesAll(n, arrivals);
    assert i in SetOf(arrivals);
    k :| 0 <= k < n && arrivals[k] == i;
  }

  /** `CheckOperations` on the key/value model decides linearizability of the whole store. */
  method CheckKvOperations(history: seq<KvOp>, timeout: int, arrivals: seq<int>, ticks: nat)
    returns (verdict: Verdict, ghost keys: seq<string>)
    requires Typed(history) && Answered(history) && Timed(history) && (history != [] || timeout > 0)
    requires Ids(|KeysOf(history)|, arrivals) && |arrivals| == |KeysOf(history)|
    ensures verdict == Ok ==> TimedLinearizable(STORE_MODEL, history)
    ensures verdict == Illegal ==> !TimedLinearizable(STORE_MODEL, history)
    ensures Ascending(keys) && |keys| == |KeysOf(history)| && forall x :: x in keys <==> x in KeysOf(history)
    ensures verdict == Illegal <==> SomeKeyFails(history, keys, arrivals, timeout, ticks)
    ensures verdict == Unknown <==> CutShort(|keys|, timeout, ticks) && verdict != Illegal
  {
    var parts;
    parts, keys := Partition(history);
    KeyCount(history, keys);
    hide *;
    var hs := PartEntries(history, parts, keys);
    KeyModelLawful();
    var info;
    ghost var longest;
    verdict, info, longest := CheckParallel(KEY_MODEL, hs, false, timeout, arrivals, ticks, (_, _) => true);
    KvVerdict(history, keys, hs, arrivals, timeout, ticks);
  }

  /** A key whose result arrives in time is refuted. */
  ghost predicate SomeKeyFails(history: seq<KvOp>, keys: seq<string>, arrivals: seq<int>, timeout: int, ticks: nat)
    requires Typed(history) && Ids(|keys|, arrivals) && |arrivals| == |keys|
  {
    exists k :: Arrives(k, |keys|, timeout, ticks) && !TimedLinearizable(KEY_MODEL, Part(history, keys[arrivals[k]]))
  }

  /** hs[i] is linearizable exactly when the part of key i is. */
  ghost predicate SameMeaning(history: seq<KvOp>, keys: seq<string>, hs: seq<seq<Event<KvValue>>>, i: int)
    requires Typed(history) && 0 <= i < |hs| <= |keys| && WellFormed(hs[i])
  {
    Linearizable(KEY_MODEL, hs[i]) <==> TimedLinearizable(KEY_MODEL, Part(history, keys[i]))
  }

  method PartEntries(history: seq<KvOp>, parts: seq<seq<KvOp>>, ghost keys: seq<string>)
    returns (hs: seq<seq<Event<KvValue>>>)
    requires Typed(history) && Timed(history)
    requires |parts| == |keys| && forall j :: 0 <= j < |keys| ==> parts[j] == Part(history, keys[j])
    ensures |hs| == |parts| && forall i :: 0 <= i < |hs| ==> WellFormed(hs[i])
    ensures forall i {:trigger SameMeaning(history, keys, hs, i)} :: 0 <= i < |hs| ==> SameMeaning(history, keys, hs, i)
  {
    hide Typed, Timed, WellFormed, Linearizable, TimedLinearizable, EntriesOf, Part;
    hs := [];
    for j := 0 to |parts|
      invariant |hs| == j
      invariant forall i :: 0 <= i < j ==> WellFormed(hs[i])
      invariant forall i :: 0 <= i < j ==>
                  (Linearizable(KEY_MODEL, hs[i]) <==> TimedLinearizable(KEY_MODEL, parts[i]))
    {
      PartTimed(history, keys[j]);
      var h := MakeEntries(parts[j]);
      EntriesKeepMeaning(KEY_MODEL, parts[j], h);
      hs := hs + [h];
    }
  }

  lemma KvVerdict(history: seq<KvOp>, keys: seq<string>, hs: seq<seq<Event<KvValue>>>,
                  arrivals: seq<int>, timeout: int, ticks: nat)
    requires Typed(history) && Timed(history) && (forall x :: x in keys <==> x in KeysOf(history))
    requires |hs| == |keys| && forall i :: 0 <= i < |hs| ==> WellFormed(hs[i])
    requires forall i {:trigger SameMeaning(history, keys, hs, i)} :: 0 <= i < |hs| ==>
               SameMeaning(history, keys, hs, i)
    requires Ids(|keys|, arrivals) && |arrivals| == |keys|
    ensures (forall i :: 0 <= i < |hs| ==> Linearizable(KEY_MODEL, hs[i])) ==> TimedLinearizable(STORE_MODEL, history)
    ensures SomeKeyFails(history, keys, arrivals, timeout, ticks) ==> !TimedLinearizable(STORE_MODEL, history)
    ensures SomeFails(KEY_MODEL, hs, arrivals, timeout, ticks) <==>
              SomeKeyFails(history, keys, arrivals, timeout, ticks)
  {
    hide Typed, Timed, WellFormed, Linearizable, TimedLinearizable, Part, KeysOf;
    LocalityOfKeys(history);
    if forall i :: 0 <= i < |hs| ==> Linearizable(KEY_MODEL, hs[i]) {
      forall key | key in KeysOf(history) ensures TimedLinearizable(KEY_MODEL, Part(history, key)) {
        var j :| 0 <= j < |keys| && keys[j] == key;
        assert SameMeaning(history, keys, hs, j);
      }
    }
    forall k | Arrives(k, |keys|, timeout, ticks)
      ensures Linearizable(KEY_MODEL, hs[arrivals[k]])
         <==> TimedLinearizable(KEY_MODEL, Part(history, keys[arrivals[k]]))
      ensures keys[arrivals[k]] in KeysOf(history)
    {
      assert keys[arrivals[k]] in keys && SameMeaning(history, keys, hs, arrivals[k]);
    }
  }

  lemma PartTimed(history: seq<KvOp>, key: string)
    requires Typed(history) && Timed(history)
    ensures Timed(Part(history, key))
  {
    var pos := Positions(history, key, |history|);
    PositionsOK(history, key, |history|);
    InRangeSet(|history|, pos);
    var part := Part(history, key);
    forall k | 0 <= k < |part| ensures part[k].call <= part[k].ret {
      assert part[k] == history[pos[k]];
    }
  }

  lemma KeyCount(history: seq<KvOp>, keys: seq<string>)
    requires Typed(history) && Ascending(keys) && (forall x :: x in keys <==> x in KeysOf(history))
    ensures |keys| == |KeysOf(history)| && (history != [] ==> |keys| > 0)
  {
    DistinctCount(keys, KeysOf(history));
    if history != [] {
      assert history[0].input.key in KeysOf(history);
      assert history[0].input.key in keys;
    }
  }

  lemma {:induction false} DistinctCount(keys: seq<string>, s: set<string>)
    requires Ascending(keys) && forall x :: x in keys <==> x in s
    ensures |keys| == |s|
    decreases |keys|
  {
    if keys == [] {
      if s != {} {
        var x := Pick(s);
      }
    } else {
      var n := |keys| - 1;
      forall i | 0 <= i < n ensures keys[i] != keys[n] {
        LexIrreflexive(keys[n]);
      }
      assert keys == keys[..n] + [keys[n]];
      DistinctCount(keys[..n], s - {keys[n]});
    }
  }

  /** `CheckEvents` with the default partition, which is the history itself, decides linearizability of the
      clients' history. */
  method CheckEvents<S(!new), V(!new)>(m: Model<S, V>, events: seq<ClientEvent<V>>, timeout: int, ticks: nat)
    returns (verdict: Verdict)
    requires Lawful(m) && Paired(events)
    ensures verdict == Ok ==> EventLinearizable(m, events)
    ensures verdict == Illegal <==> !EventLinearizable(m, events) && (timeout <= 0 || ticks > 0)
    ensures verdict == Unknown <==> timeout > 0 && ticks == 0
  {
    hide Paired, Lawful, WellFormed, Linearizable, EventLinearizable, Renames;
    var e := Renumber(events);
    ConvertedKeepsMeaning(m, events, e);
    var info;
    ghost var longest;
    var hs := [Convert(e)];
    verdict, info, longest := CheckParallel(m, hs, false, timeout, [0], ticks, (_, _) => true);
    assert hs[0] == Convert(e);
    assert Arrives(0, |hs|, timeout, ticks) <==> timeout <= 0 || ticks > 0;
  }
}

/** From the search's records to the picture of one partition: gather the distinct partial linearizations
    recorded, replay each, and index, for each operation, a longest one that contains it. */
module Visualization {
  import opened Linearizability
  import opened Entries
  import opened Search

  datatype HistoryElement = HistoryElement(clientId: int, start: int, end: int)

  /** One step of a replayed linearization: the operation and the state after it. */
  datatype LinearizationStep<S> = LinearizationStep(index: int, state: S)

  datatype PartitionData<S> = PartitionData(history: seq<HistoryElement>,
                                            linearizations: seq<seq<LinearizationStep<S>>>,
                                            largest: map<int, int>)

  ghost predicate Collected<V>(h: seq<Event<V>>, elems: seq<HistoryElement>, calls: map<int, V>,
                               returns_: map<int, V>, p: int)
    requires WellFormed(h) && 0 <= p <= |h|
  {
    && |elems| == |h| / 2
    && forall x :: 0 <= x < |elems| ==>
         && (CallAt(h, x) < p ==> && x in calls && calls[x] == h[CallAt(h, x)].value
                                  && elems[x].clientId == h[CallAt(h, x)].clientId
                                  && elems[x].start == h[CallAt(h, x)].time)
         && (ReturnAt(h, x) < p ==> && x in returns_ && returns_[x] == h[ReturnAt(h, x)].value
                                    && elems[x].end == h[ReturnAt(h, x)].time)
  }

  /** Both ends of each operation, and its input and output, filed under its id. */
  method Collect<V>(h: seq<Event<V>>) returns (elems: seq<HistoryElement>, calls: map<int, V>, returns_: map<int, V>)
    requires WellFormed(h)
    ensures Collected(h, elems, calls, returns_, |h|)
  {
    elems := seq(|h| / 2, _ => HistoryElement(0, 0, 0));
    calls, returns_ := map[], map[];
    for p := 0 to |h|
      invariant Collected(h, elems, calls, returns_, p)
    {
      var e := h[p];
      SpanIsUnique(h, p);
      match e.kind
      case Call =>
        elems := elems[e.id := elems[e.id].(clientId := e.clientId, start := e.time)];
        calls := calls[e.id := e.value];
      case Return =>
        elems := elems[e.id := elems[e.id].(end := e.time)];
        returns_ := returns_[e.id := e.value];
    }
  }

  ghost predicate Descending(partials: seq<seq<int>>) {
    forall i, j :: 0 <= i < j < |partials| ==> |partials[i]| >= |partials[j]|
  }

  /** `sort.Slice` by decreasing length; which of equally long ones comes first is not relied on. */
  method SortByLength(partials: seq<seq<int>>) returns (res: seq<seq<int>>, ghost perm: seq<int>)
    ensures Descending(res) && Rearranges(partials, res, perm)
  {
    res, perm := [], [];
    for n := 0 to |partials|
      invariant Descending(res) && Rearranges(partials[..n], res, perm)
    {
      var j := n;
      while j > 0 && |partials[n]| > |res[j - 1]|
        invariant 0 <= j <= n
        invariant forall k :: j <= k < n ==> |partials[n]| > |res[k]|
      {
        j := j - 1;
      }
      InsertRearranges(partials, res, perm, n, j);
      InsertDescending(res, partials[n], j);
      hide Rearranges;
      res, perm := res[..j] + [partials[n]] + res[j..], perm[..j] + [n] + perm[j..];
    }
    assert partials[..|partials|] == partials;
  }

  lemma InsertDescending(res: seq<seq<int>>, p: seq<int>, j: nat)
    requires Descending(res) && j <= |res| && (forall k :: j <= k < |res| ==> |p| > |res[k]|)
    requires j > 0 ==> |p| <= |res[j - 1]|
    ensures Descending(res[..j] + [p] + res[j..])
  {
    var r := res[..j] + [p] + res[j..];
    assert forall k :: 0 <= k < j ==> r[k] == res[k];
    assert forall k :: j < k < |r| ==> r[k] == res[k - 1];
  }

  /** Replaying a partial linearization never meets a refusal, so the panic is unreachable. */
  method Replay<S, V>(m: Model<S, V>, partial: seq<int>, calls: map<int, V>, returns_: map<int, V>,
                      ghost h: seq<Event<V>>, ghost elems: seq<HistoryElement>)
    returns (steps: seq<LinearizationStep<S>>)
    requires WellFormed(h) && Collected(h, elems, calls, returns_, |h|) && IsPartial(m, h, partial)
    ensures |steps| == |partial|
    ensures forall j :: 0 <= j < |steps| ==>
              steps[j].index == partial[j] && steps[j].state == StateOf(m, h, partial[..j + 1])
  {
    steps := [];
    var state := m.init;
    PartialIds(m, h, partial);
    assert partial[..0] == [];
    for j := 0 to |partial|
      invariant |steps| == j && state == StateOf(m, h, partial[..j])
      invariant forall i :: 0 <= i < j ==>
                  steps[i].index == partial[i] && steps[i].state == StateOf(m, h, partial[..i + 1])
    {
      ReplayStep(m, h, partial, j);
      var x := partial[j];
      var (ok, next) := m.step(state, calls[x], returns_[x]);
      if !ok {
        assert false;
      }
      state := next;
      steps := steps + [LinearizationStep(x, state)];
    }
  }

  lemma ReplayStep<S, V>(m: Model<S, V>, h: seq<Event<V>>, partial: seq<int>, j: nat)
    requires WellFormed(h) && IsPartial(m, h, partial) && Ids(|h| / 2, partial) && j < |partial|
    ensures StepOf(m, h, StateOf(m, h, partial[..j]), partial[j]) == (true, StateOf(m, h, partial[..j + 1]))
  {
    PartialPrefix(m, h, partial, j + 1);
    var o := partial[..j + 1];
    PartialIds(m, h, o);
    assert o[..j] == partial[..j];
  }

  /** For every operation that occurs among the first i partials, a longest one that contains it. */
  ghost predicate Indexed(partials: seq<seq<int>>, i: int, largest: map<int, int>)
    requires 0 <= i <= |partials|
  {
    && (forall x :: x in largest ==> 0 <= largest[x] < i && x in SetOf(partials[largest[x]]))
    && (forall k, x :: 0 <= k < i && x in SetOf(partials[k]) ==>
          x in largest && |partials[k]| <= |partials[largest[x]]|)
  }

  // ----- gathering what the search recorded -----

  /** The partial linearizations recorded for some operation, each once. Which comes first is left open. */
  ghost predicate Gathers(longest: seq<Partial>, found: seq<seq<int>>) {
    && (forall k :: 0 <= k < |found| ==> Found(found[k]) in longest)
    && (forall x :: 0 <= x < |longest| && longest[x].Found? ==> longest[x].ids in found)
    && (forall j, k :: 0 <= j < k < |found| ==> found[j] != found[k])
  }

  method CollectPartials(longest: seq<Partial>) returns (found: seq<seq<int>>)
    ensures Gathers(longest, found)
  {
    found := [];
    var known: set<seq<int>> := {};
    for x := 0 to |longest|
      invariant Gathers(longest[..x], found) && forall p :: p in known <==> p in found
    {
      assert forall p :: p in longest[..x] ==> p in longest[..x + 1];
      if longest[x].Found? && longest[x].ids !in known {
        assert longest[..x + 1][x] == longest[x];
        found := found + [longest[x].ids];
        known := known + {longest[x].ids};
      }
    }
    assert longest[..|longest|] == longest;
  }

  // ----- the data of one partition -----

  ghost predicate Spans<V>(h: seq<Event<V>>, history: seq<HistoryElement>)
    requires WellFormed(h)
  {
    && |history| == |h| / 2
    && forall x :: 0 <= x < |h| / 2 ==>
         history[x] == HistoryElement(h[CallAt(h, x)].clientId, h[CallAt(h, x)].time, h[ReturnAt(h, x)].time)
  }

  method ComputePartition<S, V>(m: Model<S, V>, h: seq<Event<V>>, found: seq<seq<int>>)
    returns (data: PartitionData<S>, ghost partials: seq<seq<int>>, ghost perm: seq<int>)
    requires WellFormed(h) && forall k :: 0 <= k < |found| ==> IsPartial(m, h, found[k])
    ensures Rearranges(found, partials, perm) && Descending(partials)
    ensures |data.linearizations| == |partials| && Indexed(partials, |partials|, data.largest)
    ensures forall k :: 0 <= k < |partials| ==> IsPartial(m, h, partials[k])
    ensures forall k :: 0 <= k < |partials| ==> Replays(m, h, partials[k], data.linearizations[k])
    ensures Spans(h, data.history)
  {
    var elems, calls, returns_ := Collect(h);
    hide WellFormed, IsPartial, StateOf, Run;
    var sorted;
    sorted, perm := SortByLength(found);
    partials := sorted;
    var linearizations: seq<seq<LinearizationStep<S>>> := [];
    var largest: map<int, int> := map[];
    for i := 0 to |sorted|
      invariant |linearizations| == i && Indexed(partials, i, largest)
      invariant forall k :: 0 <= k < i ==> Replays(m, h, partials[k], linearizations[k])
    {
      var steps := Replay(m, sorted[i], calls, returns_, h, elems);
      linearizations := linearizations + [steps];
      largest := IndexPartial(sorted, i, largest);
    }
    data := PartitionData(elems, linearizations, largest);
  }

  ghost predicate Replays<S, V>(m: Model<S, V>, h: seq<Event<V>>, partial: seq<int>, steps: seq<LinearizationStep<S>>)
    requires WellFormed(h)
  {
    && |steps| == |partial|
    && forall j :: 0 <= j < |steps| ==>
         steps[j].index == partial[j] && steps[j].state == StateOf(m, h, partial[..j + 1])
  }

  /** Enter partial i for its operations; a shorter one already entered gives way. */
  method IndexPartial(partials: seq<seq<int>>, i: nat, largest: map<int, int>) returns (res: map<int, int>)
    requires i < |partials| && Indexed(partials, i, largest)
    ensures Indexed(partials, i + 1, res)
  {
    res := largest;
    var p := partials[i];
    for j := 0 to |p|
      invariant forall x :: x in res ==> 0 <= res[x] <= i && x in SetOf(partials[res[x]])
      invariant forall x :: x in largest ==> x in res && |partials[largest[x]]| <= |partials[res[x]]|
      invariant forall k :: 0 <= k < j ==> p[k] in res && 0 <= res[p[k]] <= i && |p| <= |partials[res[p[k]]]|
    {
      var x := p[j];
      if (if x in res then |partials[res[x]]| else 0) < |p| {
        assert x in SetOf(p);
        res := res[x := i];
      }
    }
    forall x | x in SetOf(p) ensures x in res && |p| <= |partials[res[x]]| {
      var k :| 0 <= k < |p| && p[k] == x;
    }
    hide SetOf;
  }

  // ----- what the picture shows -----

  /** The operations of a replayed linearization. */
  ghost function Path<S>(steps: seq<LinearizationStep<S>>): seq<int> {
    seq(|steps|, j requires 0 <= j < |steps| => steps[j].index)
  }

  /** Every linearization shown is one, replayed; `largest` sends an operation to a longest one shown that
      contains it, and leaves out only operations that none contains. */
  ghost predicate Shows<S, V>(m: Model<S, V>, h: seq<Event<V>>, data: PartitionData<S>)
    requires WellFormed(h)
  {
    var ls := data.linearizations;
    && (forall k :: 0 <= k < |ls| ==> IsPartial(m, h, Path(ls[k])) && Replays(m, h, Path(ls[k]), ls[k]))
    && (forall x :: x in data.largest ==> 0 <= data.largest[x] < |ls| && x in SetOf(Path(ls[data.largest[x]])))
    && (forall k, x :: 0 <= k < |ls| && x in SetOf(Path(ls[k])) ==>
          x in data.largest && |ls[k]| <= |ls[data.largest[x]]|)
  }

  /** What the picture offers for operation x. */
  ghost function Shown<S>(data: PartitionData<S>, x: int): Partial {
    if x in data.largest && 0 <= data.largest[x] < |data.linearizations|
    then Found(Path(data.linearizations[data.largest[x]]))
    else Unset
  }

  /** The picture drawn from what the search recorded. */
  method DrawPartition<S, V>(m: Model<S, V>, h: seq<Event<V>>, found: seq<seq<int>>, ghost longest: seq<Partial>)
    returns (data: PartitionData<S>)
    requires WellFormed(h) && PartialsOK(m, h, longest) && Gathers(longest, found)
    ensures Shows(m, h, data) && Spans(h, data.history)
    ensures forall x :: 0 <= x < |longest| && longest[x].Found? ==>
              Shown(data, x).Found? && |longest[x].ids| <= |Shown(data, x).ids|
  {
    GatheredArePartial(m, h, longest, found);
    ghost var partials, perm;
    data, partials, perm := ComputePartition(m, h, found);
    hide WellFormed, IsPartial, StateOf, Descending, Spans;
    PathsArePartials(m, h, data, partials);
    ShowsAll(m, h, data, partials);
    hide Shows;
    forall x | 0 <= x < |longest| && longest[x].Found?
      ensures x in data.largest && |longest[x].ids| <= |partials[data.largest[x]]|
    {
      RecordedIsIndexed(m, h, longest, found, partials, perm, data.largest, x);
    }
    hide SetOf, Rearranges, Gathers, PartialsOK;
  }

  lemma ShowsAll<S, V>(m: Model<S, V>, h: seq<Event<V>>, data: PartitionData<S>, partials: seq<seq<int>>)
    requires WellFormed(h) && |data.linearizations| == |partials| && Indexed(partials, |partials|, data.largest)
    requires forall k :: 0 <= k < |partials| ==> IsPartial(m, h, partials[k])
    requires forall k :: 0 <= k < |partials| ==> Replays(m, h, partials[k], data.linearizations[k])
    requires forall k :: 0 <= k < |partials| ==> Path(data.linearizations[k]) == partials[k]
    ensures Shows(m, h, data)
  {
    hide WellFormed, IsPartial, StateOf, SetOf;
  }

  lemma GatheredArePartial<S, V>(m: Model<S, V>, h: seq<Event<V>>, longest: seq<Partial>, found: seq<seq<int>>)
    requires WellFormed(h) && PartialsOK(m, h, longest) && Gathers(longest, found)
    ensures forall k :: 0 <= k < |found| ==> IsPartial(m, h, found[k])
  {
    hide WellFormed, IsPartial, SetOf;
    forall k | 0 <= k < |found| ensures IsPartial(m, h, found[k]) {
      var x :| 0 <= x < |longest| && longest[x] == Found(found[k]);
    }
  }

  lemma PathsArePartials<S, V>(m: Model<S, V>, h: seq<Event<V>>, data: PartitionData<S>, partials: seq<seq<int>>)
    requires WellFormed(h) && |data.linearizations| == |partials|
    requires forall k :: 0 <= k < |partials| ==> Replays(m, h, partials[k], data.linearizations[k])
    ensures forall k :: 0 <= k < |partials| ==> Path(data.linearizations[k]) == partials[k]
  {
    hide WellFormed, StateOf;
    forall k | 0 <= k < |partials| ensures Path(data.linearizations[k]) == partials[k] {
      assert Replays(m, h, partials[k], data.linearizations[k]);
    }
  }

  lemma RecordedIsIndexed<S, V>(m: Model<S, V>, h: seq<Event<V>>, longest: seq<Partial>, found: seq<seq<int>>,
                                partials: seq<seq<int>>, perm: seq<int>, largest: map<int, int>, x: int)
    requires WellFormed(h) && PartialsOK(m, h, longest) && Gathers(longest, found)
    requires Rearranges(found, partials, perm) && Indexed(partials, |partials|, largest)
    requires 0 <= x < |longest| && longest[x].Found?
    ensures x in largest && |longest[x].ids| <= |partials[largest[x]]|
  {
    hide WellFormed, IsPartial;
    var p := longest[x].ids;
    var j :| 0 <= j < |found| && found[j] == p;
    var k := PlaceOf(found, partials, perm, j);
    assert partials[k] == p && x in SetOf(partials[k]);
  }

  /** When the records are longest, so is what the picture offers for each operation, and it offers nothing
      exactly where nothing was recorded. */
  lemma ShownIsLongest<S, V>(m: Model<S, V>, h: seq<Event<V>>, longest: seq<Partial>, data: PartitionData<S>, x: int)
    requires WellFormed(h) && PartialsOK(m, h, longest) && Shows(m, h, data)
    requires forall y :: 0 <= y < |longest| && longest[y].Found? ==>
               Shown(data, y).Found? && |longest[y].ids| <= |Shown(data, y).ids|
    requires 0 <= x < |longest| && IsLongest(m, h, x, longest[x])
    ensures IsLongest(m, h, x, Shown(data, x)) && (Shown(data, x).Found? <==> longest[x].Found?)
  {
    hide WellFormed, IsPartial, StateOf, SetOf, Path;
    if x in data.largest {
      var k := data.largest[x];
      assert IsPartial(m, h, Path(data.linearizations[k]));
    }
  }
}

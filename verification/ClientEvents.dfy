/** Histories given as client events with ids of the clients' own: what it means for one to be
    linearizable, and that renumbering and conversion keep that meaning. */
module ClientEvents {
  import opened Ranges
  import opened Linearizability
  import opened Entries

  /** Where operation x is called and where it returns. */
  ghost function Ends<V>(events: seq<ClientEvent<V>>, x: int): (p: (int, int))
    requires Paired(events) && x in IdsOf(events)
    ensures 0 <= p.0 < p.1 < |events| && events[p.0].id == x && events[p.1].id == x
  {
    var a :| 0 <= a < |events| && events[a].id == x;
    assert HasTwin(events, a);
    var b :| 0 <= b < |events| && b != a && events[b].id == events[a].id;
    if a < b then (a, b) else (b, a)
  }

  lemma EndsAreUnique<V>(events: seq<ClientEvent<V>>, x: int, c: int, r: int)
    requires Paired(events) && 0 <= c < r < |events| && events[c].id == x && events[r].id == x
    ensures x in IdsOf(events) && Ends(events, x) == (c, r)
  {
    assert x in IdsOf(events);
    hide HasTwin, IdsOf;
    var (a, b) := Ends(events, x);
    assert events[a].kind == Call && events[b].kind == Return && events[c].kind == Call && events[r].kind == Return;
  }

  ghost predicate Places<V>(events: seq<ClientEvent<V>>, order: seq<int>) {
    forall k :: 0 <= k < |order| ==> order[k] in IdsOf(events)
  }

  ghost function RunEvents<S, V>(m: Model<S, V>, events: seq<ClientEvent<V>>, order: seq<int>): (bool, S)
    requires Paired(events) && Places(events, order)
  {
    if order == [] then (true, m.init)
    else
      var (c, r) := Ends(events, order[|order| - 1]);
      var (ok, s) := RunEvents(m, events, order[..|order| - 1]);
      var (ok', s') := m.step(s, events[c].value, events[r].value);
      (ok && ok', s')
  }

  /** Operation x returned before operation y was called. */
  ghost predicate Before<V>(events: seq<ClientEvent<V>>, x: int, y: int)
    requires Paired(events) && x in IdsOf(events) && y in IdsOf(events)
  {
    Ends(events, x).1 < Ends(events, y).0
  }

  /** Every operation once, in an order the model accepts and real time allows. */
  ghost predicate IsEventLinearization<S, V>(m: Model<S, V>, events: seq<ClientEvent<V>>, order: seq<int>)
    requires Paired(events)
  {
    && Places(events, order)
    && (forall x :: x in IdsOf(events) ==> x in SetOf(order))
    && (forall j, k {:trigger Apart(events, order, j, k)} :: 0 <= j < k < |order| ==> Apart(events, order, j, k))
    && RunEvents(m, events, order).0
  }

  /** Different operations, and the later one in the order had not returned when the other was called. */
  ghost predicate Apart<V>(events: seq<ClientEvent<V>>, order: seq<int>, j: int, k: int)
    requires Paired(events) && Places(events, order) && 0 <= j < k < |order|
  {
    order[j] != order[k] && !Before(events, order[k], order[j])
  }

  ghost predicate EventLinearizable<S, V>(m: Model<S, V>, events: seq<ClientEvent<V>>)
    requires Paired(events)
  {
    exists order :: IsEventLinearization(m, events, order)
  }

  // ----- renaming -----

  /** The same events under other ids. */
  ghost predicate SameButIds<V>(events: seq<ClientEvent<V>>, e: seq<ClientEvent<V>>) {
    && |e| == |events|
    && (forall p :: 0 <= p < |e| ==> e[p].kind == events[p].kind && e[p].value == events[p].value)
    && (forall p, q :: 0 <= p < |e| && 0 <= q < |e| ==> (e[p].id == e[q].id <==> events[p].id == events[q].id))
  }

  /** The id operation x has in e. */
  ghost function NewId<V>(events: seq<ClientEvent<V>>, e: seq<ClientEvent<V>>, x: int): (y: int)
    requires Paired(events) && |e| == |events| && x in IdsOf(events)
    ensures y in IdsOf(e)
  {
    var p := Ends(events, x).0;
    assert e[p].id in IdsOf(e);
    e[p].id
  }

  lemma SameEnds<V>(events: seq<ClientEvent<V>>, e: seq<ClientEvent<V>>, x: int)
    requires Paired(events) && Paired(e) && SameButIds(events, e) && x in IdsOf(events)
    ensures Ends(e, NewId(events, e, x)) == Ends(events, x)
  {
    hide Paired, IdsOf;
    var (c, r) := Ends(events, x);
    EndsAreUnique(e, e[c].id, c, r);
  }

  ghost function Translate<V>(events: seq<ClientEvent<V>>, e: seq<ClientEvent<V>>, order: seq<int>): (o: seq<int>)
    requires Paired(events) && |e| == |events| && Places(events, order)
    ensures |o| == |order| && Places(e, o)
    ensures forall k :: 0 <= k < |o| ==> o[k] == NewId(events, e, order[k])
  {
    seq(|order|, k requires 0 <= k < |order| => NewId(events, e, order[k]))
  }

  lemma {:induction false} TranslateRuns<S, V>(m: Model<S, V>, events: seq<ClientEvent<V>>, e: seq<ClientEvent<V>>,
                                               order: seq<int>)
    requires Paired(events) && Paired(e) && SameButIds(events, e) && Places(events, order)
    ensures RunEvents(m, e, Translate(events, e, order)) == RunEvents(m, events, order)
    decreases |order|
  {
    hide Paired, IdsOf;
    if order != [] {
      var n := |order| - 1;
      var o := Translate(events, e, order);
      assert o[..n] == Translate(events, e, order[..n]);
      TranslateRuns(m, events, e, order[..n]);
      SameEnds(events, e, order[n]);
    }
  }

  lemma TranslatePlacesAll<V>(events: seq<ClientEvent<V>>, e: seq<ClientEvent<V>>, order: seq<int>, y: int)
    requires Paired(events) && Paired(e) && SameButIds(events, e) && Places(events, order)
    requires (forall x :: x in IdsOf(events) ==> x in SetOf(order)) && y in IdsOf(e)
    ensures y in SetOf(Translate(events, e, order))
  {
    var p := Ends(e, y).0;
    var x := events[p].id;
    assert x in IdsOf(events);
    hide Paired, IdsOf;
    var k :| 0 <= k < |order| && order[k] == x;
    assert Translate(events, e, order)[k] == NewId(events, e, x);
    assert e[Ends(events, x).0].id == e[p].id;
  }

  lemma TranslateLinearizes<S, V>(m: Model<S, V>, events: seq<ClientEvent<V>>, e: seq<ClientEvent<V>>, order: seq<int>)
    returns (o: seq<int>)
    requires Paired(events) && Paired(e) && SameButIds(events, e) && IsEventLinearization(m, events, order)
    ensures IsEventLinearization(m, e, o)
  {
    assert |e| == |events|;
    hide Paired, IdsOf, SetOf, RunEvents, Before, SameButIds, Places;
    o := Translate(events, e, order);
    TranslateRuns(m, events, e, order);
    forall y | y in IdsOf(e) ensures y in SetOf(o) {
      TranslatePlacesAll(events, e, order, y);
    }
    forall j, k | 0 <= j < k < |o| ensures Apart(e, o, j, k) {
      TranslatePair(events, e, order, j, k);
    }
  }

  /** Renaming keeps operations apart and keeps which came first. */
  lemma TranslatePair<V>(events: seq<ClientEvent<V>>, e: seq<ClientEvent<V>>, order: seq<int>, j: int, k: int)
    requires Paired(events) && Paired(e) && SameButIds(events, e) && Places(events, order)
    requires 0 <= j < k < |order| && Apart(events, order, j, k)
    ensures Apart(e, Translate(events, e, order), j, k)
  {
    hide Paired, IdsOf;
    SameEnds(events, e, order[j]);
    SameEnds(events, e, order[k]);
  }

  // ----- conversion -----

  lemma ConvertedEnds<V>(e: seq<ClientEvent<V>>, k: nat, x: int)
    requires Paired(e) && IdsOf(e) == Below(k) && WellFormed(Convert(e)) && |e| == 2 * k && 0 <= x < k
    ensures x in IdsOf(e) && Ends(e, x) == (CallAt(Convert(e), x), ReturnAt(Convert(e), x))
  {
    hide Paired, IdsOf;
    var h := Convert(e);
    var (c, r) := Span(h, x);
    hide WellFormed;
    assert e[c].id == x && e[r].id == x;
    EndsAreUnique(e, x, c, r);
  }

  lemma ConvertedPair<V>(e: seq<ClientEvent<V>>, k: nat, x: int, y: int)
    requires Paired(e) && IdsOf(e) == Below(k) && WellFormed(Convert(e)) && |e| == 2 * k && 0 <= x < k && 0 <= y < k
    ensures Before(e, x, y) <==> Precedes(Convert(e), x, y)
  {
    hide Paired, IdsOf, WellFormed, Below;
    ConvertedEnds(e, k, x);
    ConvertedEnds(e, k, y);
  }

  lemma {:induction false} ConvertedRuns<S, V>(m: Model<S, V>, e: seq<ClientEvent<V>>, k: nat, order: seq<int>)
    requires Paired(e) && IdsOf(e) == Below(k) && WellFormed(Convert(e)) && |e| == 2 * k && Ids(k, order)
    ensures Places(e, order) && Run(m, Convert(e), order) == RunEvents(m, e, order)
    decreases |order|
  {
    hide Paired, IdsOf, WellFormed;
    if order != [] {
      var n := |order| - 1;
      ConvertedRuns(m, e, k, order[..n]);
      ConvertedEnds(e, k, order[n]);
    }
  }

  lemma DenseIds<S, V>(m: Model<S, V>, e: seq<ClientEvent<V>>, k: nat, order: seq<int>)
    requires Paired(e) && IdsOf(e) == Below(k) && IsEventLinearization(m, e, order)
    ensures Ids(k, order)
  {
    hide Paired, IdsOf, RunEvents, Before;
    forall i, j | 0 <= i < j < |order| ensures order[i] != order[j] {
      assert Apart(e, order, i, j);
    }
  }

  lemma ConvertedLinearizations<S, V>(m: Model<S, V>, e: seq<ClientEvent<V>>, k: nat, order: seq<int>)
    requires Paired(e) && IdsOf(e) == Below(k) && WellFormed(Convert(e)) && |e| == 2 * k
    ensures IsLinearization(m, Convert(e), order) <==> IsEventLinearization(m, e, order)
  {
    hide Paired, IdsOf, WellFormed, Below;
    var h := Convert(e);
    if Ids(k, order) {
      ConvertedRuns(m, e, k, order);
      FullOrderPlacesAll(k, order);
      hide Run, RunEvents, SetOf, Before, Precedes;
      forall i, j | 0 <= i < j < |order| ensures Apart(e, order, i, j) <==> !Precedes(h, order[j], order[i]) {
        ConvertedPair(e, k, order[j], order[i]);
      }
    } else if IsEventLinearization(m, e, order) {
      DenseIds(m, e, k, order);
    }
  }

  lemma RenamedIsSame<V>(events: seq<ClientEvent<V>>, e: seq<ClientEvent<V>>)
    requires Renames(events, e)
    ensures SameButIds(events, e) && SameButIds(e, events) && IdsOf(e) == Below(|IdsOf(events)|)
  {
    hide IdsOf, Below;
  }

  /** Renumbering and conversion keep the meaning: the list the search takes is linearizable exactly when
      the clients' history is. */
  lemma ConvertedKeepsMeaning<S, V>(m: Model<S, V>, events: seq<ClientEvent<V>>, e: seq<ClientEvent<V>>)
    requires Paired(events) && Renames(events, e)
    ensures WellFormed(Convert(e)) && (Linearizable(m, Convert(e)) <==> EventLinearizable(m, events))
  {
    hide Paired, IdsOf, WellFormed, SameButIds, IsLinearization, IsEventLinearization, Convert, Below, Renames;
    var k := |IdsOf(events)|;
    ConvertedWellFormed(events, e);
    RenamedPaired(events, e);
    RenamedIsSame(events, e);
    PairedSize(e, k);
    if Linearizable(m, Convert(e)) {
      var order :| IsLinearization(m, Convert(e), order);
      ConvertedLinearizations(m, e, k, order);
      var o := TranslateLinearizes(m, e, events, order);
    }
    if EventLinearizable(m, events) {
      var order :| IsEventLinearization(m, events, order);
      var o := TranslateLinearizes(m, events, e, order);
      ConvertedLinearizations(m, e, k, o);
    }
  }
}

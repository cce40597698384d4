/** From client operations and events to the checker's entries: `makeEntries`, `renumber`,
    `convertEntries`. */
module Entries {
  import opened Ranges
  import opened Linearizability

  datatype Operation<V> = Operation(clientId: int, input: V, call: int, output: V, ret: int)

  /** Order of `byTime`: by time, and calls before returns at the same time. */
  predicate Less<V>(a: Event<V>, b: Event<V>) {
    if a.time != b.time then a.time < b.time else a.kind == Call && b.kind == Return
  }

  /** res is raw rearranged: res[i] is raw[perm[i]]. */
  ghost predicate Rearranges<T>(raw: seq<T>, res: seq<T>, perm: seq<int>) {
    && |res| == |raw| && |perm| == |raw| && Ids(|raw|, perm)
    && forall i :: 0 <= i < |res| ==> res[i] == raw[perm[i]]
  }

  ghost predicate Sorted<V>(res: seq<Event<V>>) {
    forall i, j :: 0 <= i < j < |res| ==> !Less(res[j], res[i])
  }

  /** `sort.Sort`: some rearrangement in order; which one among equals is not relied on. */
  method SortByTime<V>(raw: seq<Event<V>>) returns (res: seq<Event<V>>, ghost perm: seq<int>)
    ensures Sorted(res) && Rearranges(raw, res, perm)
  {
    res, perm := [], [];
    for n := 0 to |raw|
      invariant Sorted(res) && Rearranges(raw[..n], res, perm)
    {
      var e := raw[n];
      var j := n;
      while j > 0 && Less(e, res[j - 1])
        invariant 0 <= j <= n
        invariant forall k :: j <= k < n ==> Less(e, res[k])
      {
        j := j - 1;
      }
      ghost var perm' := perm[..j] + [n] + perm[j..];
      var res' := res[..j] + [e] + res[j..];
      InsertSorted(res, e, j);
      InsertRearranges(raw, res, perm, n, j);
      res, perm := res', perm';
    }
    assert raw[..|raw|] == raw;
  }

  lemma InsertSorted<V>(res: seq<Event<V>>, e: Event<V>, j: nat)
    requires Sorted(res) && j <= |res| && (forall k :: j <= k < |res| ==> Less(e, res[k]))
    requires j > 0 ==> !Less(e, res[j - 1])
    ensures Sorted(res[..j] + [e] + res[j..])
  {
    var r := res[..j] + [e] + res[j..];
    forall a, b | 0 <= a < b < |r| ensures !Less(r[b], r[a]) {
      assert forall k :: 0 <= k < j ==> r[k] == res[k];
      assert forall k :: j < k < |r| ==> r[k] == res[k - 1];
      if b == j {
        assert j - 1 > a ==> !Less(res[j - 1], res[a]);
      }
    }
  }

  lemma InsertRearranges<T>(raw: seq<T>, res: seq<T>, perm: seq<int>, n: nat, j: nat)
    requires n < |raw| && Rearranges(raw[..n], res, perm) && j <= n
    ensures Rearranges(raw[..n + 1], res[..j] + [raw[n]] + res[j..], perm[..j] + [n] + perm[j..])
  {
    var r, p := res[..j] + [raw[n]] + res[j..], perm[..j] + [n] + perm[j..];
    assert forall k :: 0 <= k < j ==> r[k] == res[k] && p[k] == perm[k];
    assert forall k :: j < k < |r| ==> r[k] == res[k - 1] && p[k] == perm[k - 1];
    assert r[j] == raw[n] && p[j] == n;
    assert forall k :: 0 <= k < n ==> res[k] == raw[perm[k]] && 0 <= perm[k] < n;
    forall a, b | 0 <= a < b < |p| ensures p[a] != p[b] {
      assert p[a] == (if a < j then perm[a] else if a == j then n else perm[a - 1]);
      assert p[b] == (if b < j then perm[b] else if b == j then n else perm[b - 1]);
    }
  }

  /** The two entries of operation k. */
  function CallOf<V>(o: Operation<V>, k: int): Event<V> {
    Event(Call, o.input, k, o.call, o.clientId)
  }

  function ReturnOf<V>(o: Operation<V>, k: int): Event<V> {
    Event(Return, o.output, k, o.ret, o.clientId)
  }

  /** Call and return of operation k at positions 2k and 2k + 1. */
  ghost function Raw<V>(history: seq<Operation<V>>): (raw: seq<Event<V>>)
    ensures |raw| == 2 * |history|
    ensures forall p :: 0 <= p < |raw| ==>
              raw[p] == if p % 2 == 0 then CallOf(history[p / 2], p / 2) else ReturnOf(history[p / 2], p / 2)
  {
    seq(2 * |history|, p requires 0 <= p < 2 * |history| =>
          if p % 2 == 0 then CallOf(history[p / 2], p / 2) else ReturnOf(history[p / 2], p / 2))
  }

  /** h holds the two entries of every operation, in time order. */
  ghost predicate EntriesOf<V>(history: seq<Operation<V>>, h: seq<Event<V>>) {
    exists perm :: Rearranges(Raw(history), h, perm) && Sorted(h)
  }

  method MakeEntries<V>(history: seq<Operation<V>>) returns (h: seq<Event<V>>)
    ensures EntriesOf(history, h)
  {
    var raw: seq<Event<V>> := [];
    for k := 0 to |history|
      invariant raw == Raw(history[..k])
    {
      raw := raw + [CallOf(history[k], k)];
      raw := raw + [ReturnOf(history[k], k)];
      assert history[..k + 1][..k] == history[..k];
    }
    assert history[..|history|] == history;
    ghost var perm;
    h, perm := SortByTime(raw);
  }

  ghost predicate Timed<V>(history: seq<Operation<V>>) {
    forall k :: 0 <= k < |history| ==> history[k].call <= history[k].ret
  }

  lemma RawPlaces<V>(history: seq<Operation<V>>, raw: seq<Event<V>>, h: seq<Event<V>>, perm: seq<int>, p: int)
    requires raw == Raw(history) && Rearranges(raw, h, perm) && 0 <= p < |h|
    ensures 0 <= h[p].id < |history| && perm[p] == 2 * h[p].id + (if h[p].kind == Call then 0 else 1)
    ensures h[p] == if h[p].kind == Call then CallOf(history[h[p].id], h[p].id) else ReturnOf(history[h[p].id], h[p].id)
  {
    var q := perm[p];
    assert h[p] == raw[q];
  }

  /** The entries of a timed history are well formed, carry the inputs and outputs, and put one
      operation's return before another's call exactly when its return time is smaller. */
  lemma EntriesWellFormed<V>(history: seq<Operation<V>>, h: seq<Event<V>>)
    requires EntriesOf(history, h) && Timed(history)
    ensures WellFormed(h) && |h| == 2 * |history|
  {
    var raw := Raw(history);
    var perm :| Rearranges(raw, h, perm) && Sorted(h);
    forall p | 0 <= p < |h| ensures 0 <= h[p].id < |h| / 2 {
      RawPlaces(history, raw, h, perm, p);
    }
    forall p, q | 0 <= p < q < |h| && h[p].id == h[q].id ensures h[p].kind == Call && h[q].kind == Return {
      RawPlaces(history, raw, h, perm, p);
      RawPlaces(history, raw, h, perm, q);
      assert perm[p] != perm[q];
      assert !Less(h[q], h[p]);
    }
    forall x | 0 <= x < |h| / 2 ensures HasBoth(h, x) {
      var c := PlaceOf(raw, h, perm, 2 * x);
      var r := PlaceOf(raw, h, perm, 2 * x + 1);
      assert h[c].id == x && h[r].id == x && c != r;
      assert c < r;
    }
  }

  lemma PlaceOf<T>(raw: seq<T>, res: seq<T>, perm: seq<int>, q: int) returns (p: int)
    requires Rearranges(raw, res, perm) && 0 <= q < |raw|
    ensures 0 <= p < |res| && perm[p] == q && res[p] == raw[q]
  {
    FullOrderPlacesAll(|raw|, perm);
    assert q in SetOf(perm);
    p :| 0 <= p < |perm| && perm[p] == q;
  }

  lemma EntriesOrder<V>(history: seq<Operation<V>>, h: seq<Event<V>>, a: int, b: int)
    requires EntriesOf(history, h) && Timed(history) && WellFormed(h) && |h| == 2 * |history|
    requires 0 <= a < |history| && 0 <= b < |history|
    ensures Precedes(h, a, b) <==> history[a].ret < history[b].call
    ensures h[CallAt(h, a)].value == history[a].input && h[ReturnAt(h, a)].value == history[a].output
  {
    var raw := Raw(history);
    var perm :| Rearranges(raw, h, perm) && Sorted(h);
    var r, c := ReturnAt(h, a), CallAt(h, b);
    RawPlaces(history, raw, h, perm, r);
    RawPlaces(history, raw, h, perm, c);
    RawPlaces(history, raw, h, perm, CallAt(h, a));
    assert r < c ==> !Less(h[c], h[r]);
    assert c < r ==> !Less(h[r], h[c]);
  }

  // ----- linearizability of operations with time stamps -----

  /** Running operations in an order, from the operations themselves. */
  ghost function RunOps<S, V>(m: Model<S, V>, history: seq<Operation<V>>, order: seq<int>): (bool, S)
    requires Ids(|history|, order)
  {
    if order == [] then (true, m.init)
    else
      var x := order[|order| - 1];
      var (ok, s) := RunOps(m, history, order[..|order| - 1]);
      var (ok', s') := m.step(s, history[x].input, history[x].output);
      (ok && ok', s')
  }

  ghost predicate IsTimedLinearization<S, V>(m: Model<S, V>, history: seq<Operation<V>>, order: seq<int>) {
    && Ids(|history|, order) && |order| == |history|
    && RunOps(m, history, order).0
    && forall j, k :: 0 <= j < k < |order| ==> !(history[order[k]].ret < history[order[j]].call)
  }

  ghost predicate TimedLinearizable<S, V>(m: Model<S, V>, history: seq<Operation<V>>) {
    exists order :: IsTimedLinearization(m, history, order)
  }

  lemma {:induction false} RunsAgree<S, V>(m: Model<S, V>, history: seq<Operation<V>>, h: seq<Event<V>>,
                                           order: seq<int>)
    requires EntriesOf(history, h) && Timed(history) && WellFormed(h) && |h| == 2 * |history|
    requires Ids(|history|, order)
    ensures Run(m, h, order) == RunOps(m, history, order)
    decreases |order|
  {
    hide EntriesOf, WellFormed, Timed;
    if order != [] {
      var n := |order| - 1;
      RunsAgree(m, history, h, order[..n]);
      EntriesOrder(history, h, order[n], order[n]);
    }
  }

  /** Whatever way the sort breaks ties, the entries are linearizable exactly when the operations are. */
  lemma EntriesKeepMeaning<S, V>(m: Model<S, V>, history: seq<Operation<V>>, h: seq<Event<V>>)
    requires EntriesOf(history, h) && Timed(history)
    ensures WellFormed(h) && (Linearizable(m, h) <==> TimedLinearizable(m, history))
  {
    EntriesWellFormed(history, h);
    hide EntriesOf, WellFormed, Timed, Run, RunOps, Precedes;
    forall order ensures IsLinearization(m, h, order) <==> IsTimedLinearization(m, history, order) {
      if Ids(|history|, order) {
        RunsAgree(m, history, h, order);
        forall j, k | 0 <= j < k < |order|
          ensures Precedes(h, order[k], order[j]) <==> history[order[k]].ret < history[order[j]].call
        {
          EntriesOrder(history, h, order[k], order[j]);
        }
      }
    }
  }

  // ----- histories given as events -----

  datatype ClientEvent<V> = ClientEvent(clientId: int, kind: Kind, value: V, id: int)

  ghost function IdsOf<V>(events: seq<ClientEvent<V>>): set<int> {
    set p | 0 <= p < |events| :: events[p].id
  }

  /** Same events with ids renamed one to one onto 0, 1, 2, ... */
  ghost predicate Renames<V>(events: seq<ClientEvent<V>>, e: seq<ClientEvent<V>>) {
    && |e| == |events|
    && (forall p :: 0 <= p < |e| ==> e[p] == events[p].(id := e[p].id))
    && (forall p, q :: 0 <= p < |e| && 0 <= q < |e| ==> (e[p].id == e[q].id <==> events[p].id == events[q].id))
    && IdsOf(e) == Below(|IdsOf(events)|)
  }

  /** After i events: m names the ids met so far, one to one, with the numbers below |m|. */
  ghost predicate Naming<V>(events: seq<ClientEvent<V>>, e: seq<ClientEvent<V>>, m: map<int, int>, i: nat)
    requires i <= |events|
  {
    && |e| == i && m.Keys == IdsOf(events[..i]) && IdsOf(e) == Below(|m|)
    && (forall p :: 0 <= p < i ==> events[p].id in m && e[p] == events[p].(id := m[events[p].id]))
    && OneToOne(m)
  }

  ghost predicate OneToOne(m: map<int, int>) {
    && (forall x :: x in m ==> 0 <= m[x] < |m|)
    && (forall x, y :: x in m && y in m && m[x] == m[y] ==> x == y)
  }

  method Renumber<V>(events: seq<ClientEvent<V>>) returns (e: seq<ClientEvent<V>>)
    ensures Renames(events, e)
  {
    e := [];
    var m: map<int, int> := map[];
    var id := 0;
    for i := 0 to |events|
      invariant Naming(events, e, m, i) && id == |m|
    {
      var v := events[i];
      NamingGrows(events, e, m, i);
      if v.id in m {
        e := e + [v.(id := m[v.id])];
      } else {
        e := e + [v.(id := id)];
        m := m[v.id := id];
        id := id + 1;
      }
    }
    assert events[..|events|] == events;
    assert |m| == |m.Keys|;
  }

  lemma NamingGrows<V>(events: seq<ClientEvent<V>>, e: seq<ClientEvent<V>>, m: map<int, int>, i: nat)
    requires i < |events| && Naming(events, e, m, i)
    ensures var v := events[i];
            if v.id in m then Naming(events, e + [v.(id := m[v.id])], m, i + 1)
            else Naming(events, e + [v.(id := |m|)], m[v.id := |m|], i + 1) && |m[v.id := |m|]| == |m| + 1
  {
    hide Naming;
    var x := events[i].id;
    if x in m {
      KnownId(events, e, m, i);
    } else {
      UnknownId(events, e, m, i);
    }
  }

  lemma KnownId<V>(events: seq<ClientEvent<V>>, e: seq<ClientEvent<V>>, m: map<int, int>, i: nat)
    requires i < |events| && Naming(events, e, m, i) && events[i].id in m
    ensures Naming(events, e + [events[i].(id := m[events[i].id])], m, i + 1)
  {
    hide IdsOf, Below, OneToOne;
    NameOne(m, events[i].id);
    assert m.Keys == m.Keys + {events[i].id};
    NamedIds(events, e, m, i, m);
    NamedEvents(events, e, m, i, m);
  }

  lemma UnknownId<V>(events: seq<ClientEvent<V>>, e: seq<ClientEvent<V>>, m: map<int, int>, i: nat)
    requires i < |events| && Naming(events, e, m, i) && events[i].id !in m
    ensures var m' := m[events[i].id := |m|];
            Naming(events, e + [events[i].(id := |m|)], m', i + 1) && |m'| == |m| + 1
  {
    hide IdsOf, Below, OneToOne;
    var m' := m[events[i].id := |m|];
    NameOne(m, events[i].id);
    NamedIds(events, e, m, i, m');
    NamedEvents(events, e, m, i, m');
  }

  lemma NamedIds<V>(events: seq<ClientEvent<V>>, e: seq<ClientEvent<V>>, m: map<int, int>, i: nat, m': map<int, int>)
    requires i < |events| && |e| == i && m.Keys == IdsOf(events[..i]) && IdsOf(e) == Below(|m|)
    requires m'.Keys == m.Keys + {events[i].id} && Below(|m'|) == Below(|m|) + {m'[events[i].id]}
    ensures m'.Keys == IdsOf(events[..i + 1])
    ensures IdsOf(e + [events[i].(id := m'[events[i].id])]) == Below(|m'|)
  {
    hide IdsOf, Below;
    var e' := e + [events[i].(id := m'[events[i].id])];
    GrowIds(events, i);
    GrowIds(e', i);
    assert e'[..i] == e && e'[..i + 1] == e';
  }

  lemma NamedEvents<V>(events: seq<ClientEvent<V>>, e: seq<ClientEvent<V>>, m: map<int, int>, i: nat, m': map<int, int>)
    requires i < |events| && |e| == i && events[i].id in m' && forall x :: x in m ==> x in m' && m'[x] == m[x]
    requires forall p :: 0 <= p < i ==> events[p].id in m && e[p] == events[p].(id := m[events[p].id])
    ensures var e' := e + [events[i].(id := m'[events[i].id])];
            forall p :: 0 <= p < i + 1 ==> events[p].id in m' && e'[p] == events[p].(id := m'[events[p].id])
  {
  }

  lemma NameOne(m: map<int, int>, x: int)
    requires OneToOne(m)
    ensures if x in m then Below(|m|) == Below(|m|) + {m[x]}
            else var m' := m[x := |m|];
                 OneToOne(m') && |m'| == |m| + 1 && m'.Keys == m.Keys + {x} && Below(|m| + 1) == Below(|m|) + {|m|}
  {
    if x !in m {
      KeyCount(m, x, |m|);
      NewName(m, x);
    }
  }

  lemma KeyCount(m: map<int, int>, x: int, y: int)
    requires x !in m
    ensures m[x := y].Keys == m.Keys + {x} && |m[x := y]| == |m| + 1
  {
    var m' := m[x := y];
    assert m'.Keys == m.Keys + {x};
    assert |m'.Keys| == |m.Keys| + 1;
    assert |m'| == |m'.Keys| && |m| == |m.Keys|;
  }

  lemma NewName(m: map<int, int>, x: int)
    requires OneToOne(m) && x !in m && |m[x := |m|]| == |m| + 1
    ensures OneToOne(m[x := |m|])
  {
    var m' := m[x := |m|];
    forall a | a in m' ensures 0 <= m'[a] < |m'| {
      assert a != x ==> a in m && m'[a] == m[a];
    }
    forall a, b | a in m' && b in m' && m'[a] == m'[b] ensures a == b {
      assert a != x ==> a in m && m'[a] == m[a];
      assert b != x ==> b in m && m'[b] == m[b];
    }
  }

  lemma GrowIds<V>(events: seq<ClientEvent<V>>, i: nat)
    requires i < |events|
    ensures IdsOf(events[..i + 1]) == IdsOf(events[..i]) + {events[i].id}
  {
    var a, b := events[..i], events[..i + 1];
    forall x | x in IdsOf(a) + {events[i].id} ensures x in IdsOf(b) {
      if x in IdsOf(a) {
        var p :| 0 <= p < i && a[p].id == x;
        assert b[p].id == x;
      } else {
        assert b[i].id == x;
      }
    }
    forall x | x in IdsOf(b) ensures x in IdsOf(a) + {events[i].id} {
      var p :| 0 <= p <= i && b[p].id == x;
      if p < i {
        assert a[p].id == x;
      }
    }
  }

  ghost predicate HasTwin<V>(events: seq<ClientEvent<V>>, p: int)
    requires 0 <= p < |events|
  {
    exists q :: 0 <= q < |events| && q != p && events[q].id == events[p].id
  }

  /** Every id has one call and, after it, one return. */
  ghost predicate Paired<V>(events: seq<ClientEvent<V>>) {
    && (forall p, q :: 0 <= p < q < |events| && events[p].id == events[q].id ==>
          events[p].kind == Call && events[q].kind == Return)
    && (forall p :: 0 <= p < |events| ==> HasTwin(events, p))
  }

  lemma RenamedPaired<V>(events: seq<ClientEvent<V>>, e: seq<ClientEvent<V>>)
    requires Paired(events) && Renames(events, e)
    ensures Paired(e)
  {
    hide IdsOf;
    forall p | 0 <= p < |e| ensures HasTwin(e, p) {
      assert HasTwin(events, p);
      var q :| 0 <= q < |events| && q != p && events[q].id == events[p].id;
      assert e[q].id == e[p].id;
    }
  }

  /** `convertEntries`: the position serves as time. */
  function Convert<V>(e: seq<ClientEvent<V>>): (h: seq<Event<V>>)
    ensures |h| == |e|
    ensures forall p :: 0 <= p < |h| ==> h[p] == Event(e[p].kind, e[p].value, e[p].id, p, e[p].clientId)
  {
    seq(|e|, p requires 0 <= p < |e| => Event(e[p].kind, e[p].value, e[p].id, p, e[p].clientId))
  }

  /** Renaming and converting a paired history gives a history the checker accepts, in which two
      events belong together exactly when they did before. */
  lemma ConvertedWellFormed<V>(events: seq<ClientEvent<V>>, e: seq<ClientEvent<V>>)
    requires Paired(events) && Renames(events, e)
    ensures WellFormed(Convert(e))
    ensures forall p, q :: 0 <= p < |e| && 0 <= q < |e| ==>
              (Convert(e)[p].id == Convert(e)[q].id <==> events[p].id == events[q].id)
  {
    RenamedPaired(events, e);
    PairedWellFormed(e, |IdsOf(events)|);
  }

  lemma PairedWellFormed<V>(e: seq<ClientEvent<V>>, k: nat)
    requires Paired(e) && IdsOf(e) == Below(k)
    ensures WellFormed(Convert(e))
  {
    hide WellFormed, HasBoth, Paired, IdsOf;
    PairedSize(e, k);
    forall x | 0 <= x < k ensures HasBoth(Convert(e), x) {
      BothEnds(e, x);
    }
    ConvertedIds(e, k);
    IsWellFormed(Convert(e), k);
  }

  lemma IsWellFormed<V>(h: seq<Event<V>>, k: nat)
    requires |h| == 2 * k
    requires forall p :: 0 <= p < |h| ==> 0 <= h[p].id < k
    requires forall p, q :: 0 <= p < q < |h| && h[p].id == h[q].id ==> h[p].kind == Call && h[q].kind == Return
    requires forall x :: 0 <= x < k ==> HasBoth(h, x)
    ensures WellFormed(h)
  {
    hide HasBoth;
  }

  lemma ConvertedIds<V>(e: seq<ClientEvent<V>>, k: nat)
    requires Paired(e) && IdsOf(e) == Below(k)
    ensures var h := Convert(e);
            && (forall p :: 0 <= p < |h| ==> 0 <= h[p].id < k)
            && (forall p, q :: 0 <= p < q < |h| && h[p].id == h[q].id ==> h[p].kind == Call && h[q].kind == Return)
  {
    forall p | 0 <= p < |e| ensures 0 <= e[p].id < k {
      assert e[p].id in IdsOf(e);
    }
    hide HasTwin;
  }

  lemma BothEnds<V>(e: seq<ClientEvent<V>>, x: int)
    requires Paired(e) && x in IdsOf(e)
    ensures HasBoth(Convert(e), x)
  {
    var h := Convert(e);
    var p :| 0 <= p < |e| && e[p].id == x;
    assert HasTwin(e, p);
    var q :| 0 <= q < |e| && q != p && e[q].id == e[p].id;
    assert h[p].id == x && h[q].id == x;
  }

  ghost predicate Hits<V>(e: seq<ClientEvent<V>>, ps: set<int>, x: int)
    requires forall p :: p in ps ==> 0 <= p < |e|
  {
    exists p :: p in ps && e[p].id == x
  }

  /** Calls and returns are equally many, one of each per id. */
  lemma PairedSize<V>(e: seq<ClientEvent<V>>, k: nat)
    requires Paired(e) && IdsOf(e) == Below(k)
    ensures |e| == 2 * k
  {
    var cs, rs := PositionsOfKind(e, Call), PositionsOfKind(e, Return);
    KindSize(e, k, Call);
    KindSize(e, k, Return);
    hide Paired, IdsOf, PositionsOfKind, Below;
    assert cs !! rs;
    SplitCount(|e|, cs, rs);
  }

  lemma SplitCount(n: nat, cs: set<int>, rs: set<int>)
    requires cs !! rs && forall p :: 0 <= p < n <==> p in cs || p in rs
    ensures |cs| + |rs| == n
  {
    assert Below(n) == cs + rs;
  }

  ghost function PositionsOfKind<V>(e: seq<ClientEvent<V>>, kind: Kind): (ps: set<int>)
    ensures forall p :: p in ps <==> 0 <= p < |e| && e[p].kind == kind
  {
    set p | p in Below(|e|) && e[p].kind == kind
  }

  lemma KindSize<V>(e: seq<ClientEvent<V>>, k: nat, kind: Kind)
    requires Paired(e) && IdsOf(e) == Below(k)
    ensures |PositionsOfKind(e, kind)| == k
  {
    var ps := PositionsOfKind(e, kind);
    forall p | p in ps ensures e[p].id in Below(k) {
      assert e[p].id in IdsOf(e);
    }
    forall x | x in Below(k) ensures Hits(e, ps, x) {
      OneOfEach(e, kind, ps, x);
    }
    hide HasTwin, IdsOf, Hits;
    Injects(e, ps, Below(k));
    Covers(e, ps, Below(k));
  }

  lemma OneOfEach<V>(e: seq<ClientEvent<V>>, kind: Kind, ps: set<int>, x: int)
    requires Paired(e) && x in IdsOf(e)
    requires forall p :: p in ps <==> 0 <= p < |e| && e[p].kind == kind
    ensures Hits(e, ps, x)
  {
    var p :| 0 <= p < |e| && e[p].id == x;
    assert HasTwin(e, p);
    var q :| 0 <= q < |e| && q != p && e[q].id == e[p].id;
    assert p in ps || q in ps;
  }

  lemma {:induction false} Injects<V>(e: seq<ClientEvent<V>>, ps: set<int>, xs: set<int>)
    requires forall p :: p in ps ==> 0 <= p < |e| && e[p].id in xs
    requires forall p, q :: p in ps && q in ps && e[p].id == e[q].id ==> p == q
    ensures |ps| <= |xs|
    decreases ps
  {
    if ps != {} {
      var p := Pick(ps);
      Injects(e, ps - {p}, xs - {e[p].id});
    }
  }

  lemma {:induction false} Covers<V>(e: seq<ClientEvent<V>>, ps: set<int>, xs: set<int>)
    requires forall p :: p in ps ==> 0 <= p < |e|
    requires forall x :: x in xs ==> Hits(e, ps, x)
    ensures |xs| <= |ps|
    decreases xs
  {
    if xs != {} {
      var x := Pick(xs);
      assert Hits(e, ps, x);
      var p :| p in ps && e[p].id == x;
      forall y | y in xs - {x} ensures Hits(e, ps - {p}, y) {
        assert Hits(e, ps, y);
        var q :| q in ps && e[q].id == y;
        assert q in ps - {p};
      }
      Covers(e, ps - {p}, xs - {x});
    }
  }
}

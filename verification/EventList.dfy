/** The doubly linked event list of the checker, edited in place by `lift` and `unlift`. The pointers
    are mirrored by index arithmetic: node 0 is the head, node p + 1 stands for event p. */
module EventList {
  import opened Linearizability

  /** Go's nil or a value. */
  datatype Cell<V> = Nothing | Holds(value: V)

  class Node<V> {
    const value: Cell<V>
    const mate: Node?<V>  // the matching return; null in returns and in the head
    const id: int
    var next: Node?<V>
    var prev: Node?<V>

    constructor (value: Cell<V>, mate: Node?<V>, id: int)
      ensures this.value == value && this.mate == mate && this.id == id && next == null && prev == null
    {
      this.value, this.mate, this.id := value, mate, id;
      next, prev := null, null;
    }
  }

  // ----- pointers as indices -----

  datatype Links = Links(next: seq<int>, prev: seq<int>)

  ghost predicate InRange(l: Links, size: int) {
    && |l.next| == size && |l.prev| == size
    && (forall k :: 0 <= k < size ==> -1 <= l.next[k] < size)
    && (forall k :: 0 <= k < size ==> -1 <= l.prev[k] < size)
  }

  /** m is the node after k among `rest`, or -1 if there is none. */
  ghost predicate IsNext(rest: set<int>, k: int, m: int) {
    if m == -1 then forall q :: q in rest ==> q <= k
    else m in rest && k < m && forall q :: q in rest ==> q <= k || m <= q
  }

  ghost predicate IsPrev(rest: set<int>, k: int, m: int) {
    (m in rest || m == 0) && m < k && forall q :: q in rest ==> q <= m || k <= q
  }

  /** The nodes in `rest`, in increasing order after the head, are what the pointers link. */
  ghost predicate Chain(l: Links, rest: set<int>, size: int) {
    && InRange(l, size) && size > 0
    && (forall k :: k in rest ==> 0 < k < size)
    && IsNext(rest, 0, l.next[0])
    && (forall k :: k in rest ==> IsNext(rest, k, l.next[k]))
    && (forall k :: k in rest ==> IsPrev(rest, k, l.prev[k]))
  }

  /** Take node k out; k itself keeps its pointers. */
  ghost function Unlink(l: Links, k: int): Links
    requires 0 <= k < |l.next| && |l.prev| == |l.next| && 0 <= l.prev[k] < |l.next| && -1 <= l.next[k] < |l.next|
  {
    Links(l.next[l.prev[k] := l.next[k]], if l.next[k] == -1 then l.prev else l.prev[l.next[k] := l.prev[k]])
  }

  /** Put node k back where its own pointers say it was. */
  ghost function Relink(l: Links, k: int): Links
    requires 0 <= k < |l.next| && |l.prev| == |l.next| && 0 <= l.prev[k] < |l.next| && -1 <= l.next[k] < |l.next|
  {
    Links(l.next[l.prev[k] := k], if l.next[k] == -1 then l.prev else l.prev[l.next[k] := k])
  }

  /** Neighbours point at each other. */
  lemma Neighbours(l: Links, rest: set<int>, size: int, k: int)
    requires Chain(l, rest, size) && k in rest
    ensures 0 <= l.prev[k] < k && l.next[l.prev[k]] == k
    ensures l.next[k] != -1 ==> k < l.next[k] < size && l.prev[l.next[k]] == k
  {
    var a, b := l.prev[k], l.next[k];
    assert IsPrev(rest, k, a) && IsNext(rest, k, b);
    assert IsNext(rest, a, l.next[a]);
    if b != -1 {
      assert IsPrev(rest, b, l.prev[b]);
    }
  }

  lemma UnlinkChain(l: Links, rest: set<int>, size: int, k: int)
    requires Chain(l, rest, size) && k in rest
    ensures 0 <= l.prev[k] < size
    ensures Chain(Unlink(l, k), rest - {k}, size)
    ensures Unlink(l, k).next[k] == l.next[k] && Unlink(l, k).prev[k] == l.prev[k]
    ensures Relink(Unlink(l, k), k) == l
  {
    Neighbours(l, rest, size, k);
    var u := Unlink(l, k);
    forall j | j in rest - {k} || j == 0 ensures IsNext(rest - {k}, j, u.next[j]) {
      UnlinkNext(l, rest, size, k, j);
    }
    forall j | j in rest - {k} ensures IsPrev(rest - {k}, j, u.prev[j]) {
      UnlinkPrev(l, rest, size, k, j);
    }
    hide IsNext, IsPrev;
    assert Relink(u, k).next == l.next;
    assert Relink(u, k).prev == l.prev;
  }

  lemma UnlinkNext(l: Links, rest: set<int>, size: int, k: int, j: int)
    requires Chain(l, rest, size) && k in rest && (j in rest || j == 0) && j != k && 0 <= l.prev[k]
    ensures IsNext(rest - {k}, j, Unlink(l, k).next[j])
  {
    hide IsNext, IsPrev;
    SkipNext(rest, k, l.prev[k], l.next[k], j, l.next[j]);
  }

  lemma SkipNext(rest: set<int>, k: int, a: int, b: int, j: int, m: int)
    requires IsPrev(rest, k, a) && IsNext(rest, k, b) && IsNext(rest, j, m)
    requires k in rest && (j in rest || j == 0) && j != k && (forall q :: q in rest ==> q > 0)
    ensures IsNext(rest - {k}, j, if j == a then b else m)
  {
    if j == a {
      assert forall q :: q in rest - {k} ==> q <= a || k < q;
    } else {
      assert m != k;
    }
  }

  lemma UnlinkPrev(l: Links, rest: set<int>, size: int, k: int, j: int)
    requires Chain(l, rest, size) && k in rest && j in rest && j != k && 0 <= l.prev[k]
    ensures IsPrev(rest - {k}, j, Unlink(l, k).prev[j])
  {
    hide IsNext, IsPrev;
    SkipPrev(rest, k, l.prev[k], l.next[k], j, l.prev[j]);
  }

  lemma SkipPrev(rest: set<int>, k: int, a: int, b: int, j: int, m: int)
    requires IsPrev(rest, k, a) && IsNext(rest, k, b) && IsPrev(rest, j, m)
    requires k in rest && j in rest && j != k && (forall q :: q in rest ==> q > 0)
    ensures IsPrev(rest - {k}, j, if j == b then a else m)
  {
    if j == b {
      assert forall q :: q in rest - {k} ==> q <= a || k < q;
    } else {
      assert m != k;
    }
  }

  ghost predicate Liftable(l: Links, c: int, r: int, size: int) {
    && |l.next| == size && |l.prev| == size && 0 <= c < size && 0 <= r < size && c != r
    && 0 <= l.prev[c] < size && -1 <= l.next[c] < size
    && var u := Unlink(l, c); 0 <= u.prev[r] < size && -1 <= u.next[r] < size
  }

  lemma ChainRange(l: Links, rest: set<int>, size: int, k: int)
    requires Chain(l, rest, size) && k in rest
    ensures |l.next| == size && |l.prev| == size && 0 < k < size && -1 <= l.next[k] < size
    ensures (l.next[k] == -1 || l.next[k] > k) && IsNext(rest, k, l.next[k])
  {
    assert IsNext(rest, k, l.next[k]);
  }

  lemma HasLater(l: Links, rest: set<int>, size: int, c: int, r: int)
    requires Chain(l, rest, size) && c in rest && r in rest && c < r
    ensures l.next[c] != -1
  {
    assert IsNext(rest, c, l.next[c]);
  }

  /** Both ends of an operation out, call first. */
  ghost function Lifted(l: Links, c: int, r: int): Links
    requires Liftable(l, c, r, |l.next|)
  {
    Unlink(Unlink(l, c), r)
  }

  /** Lifting takes exactly the two events out of the list, also when they are adjacent, and putting
      the return and then the call back restores every pointer. */
  lemma LiftedChain(l: Links, rest: set<int>, size: int, c: int, r: int)
    requires Chain(l, rest, size) && c in rest && r in rest && c < r
    ensures Liftable(l, c, r, size)
    ensures 0 <= l.prev[c] < c < l.next[c] && Unlink(l, c).prev[r] < r && Unlink(l, c).next[r] != r
    ensures var v := Lifted(l, c, r);
            && Chain(v, rest - {c, r}, size)
            && 0 <= v.prev[r] < r && v.next[r] != r && -1 <= v.next[r] < size
            && Relink(v, r) == Unlink(l, c)
    ensures var w := Unlink(l, c); w.prev[c] == l.prev[c] && w.next[c] == l.next[c] && Relink(w, c) == l
  {
    hide Chain, IsNext, IsPrev, Unlink, Relink;
    ChainRange(l, rest, size, c);
    ChainRange(l, rest, size, r);
    HasLater(l, rest, size, c, r);
    UnlinkChain(l, rest, size, c);
    var u := Unlink(l, c);
    ChainRange(u, rest - {c}, size, r);
    UnlinkChain(u, rest - {c}, size, r);
    assert rest - {c} - {r} == rest - {c, r};
    Neighbours(l, rest, size, c);
    Neighbours(u, rest - {c}, size, r);
  }

  // ----- the heap follows the indices -----

  ghost function Deref<V>(all: seq<Node<V>>, k: int): Node?<V>
    requires -1 <= k < |all|
  {
    if k == -1 then null else all[k]
  }

  ghost predicate Reflects<V>(all: seq<Node<V>>, l: Links)
    reads all
  {
    && InRange(l, |all|)
    && (forall j, k :: 0 <= j < k < |all| ==> all[j] != all[k])
    && (forall k :: 0 <= k < |all| ==> all[k].next == Deref(all, l.next[k]))
    && (forall k :: 0 <= k < |all| ==> all[k].prev == Deref(all, l.prev[k]))
  }

  method UnlinkNode<V>(x: Node<V>, ghost all: seq<Node<V>>, ghost l: Links, ghost k: int)
    requires Reflects(all, l) && 0 <= k < |all| && x == all[k]
    requires 0 <= l.prev[k] && l.prev[k] != k && l.next[k] != k
    modifies all
    ensures Reflects(all, Unlink(l, k))
  {
    ghost var a, b := l.prev[k], l.next[k];
    assert x.prev == all[a] && x.next == Deref(all, b);
    x.prev.next := x.next;
    if x.next != null {
      x.next.prev := x.prev;
    }
    assert all[a].next == Deref(all, b) && (b != -1 ==> all[b].prev == all[a]);
    assert forall j :: 0 <= j < |all| && j != a ==> all[j].next == old(all[j].next);
    assert forall j :: 0 <= j < |all| && j != b ==> all[j].prev == old(all[j].prev);
  }

  method RelinkNode<V>(x: Node<V>, ghost all: seq<Node<V>>, ghost l: Links, ghost k: int)
    requires Reflects(all, l) && 0 <= k < |all| && x == all[k]
    requires 0 <= l.prev[k] && l.prev[k] != k && l.next[k] != k
    modifies all
    ensures Reflects(all, Relink(l, k))
  {
    ghost var a, b := l.prev[k], l.next[k];
    assert x.prev == all[a] && x.next == Deref(all, b);
    x.prev.next := x;
    if x.next != null {
      x.next.prev := x;
    }
    assert all[a].next == x && (b != -1 ==> all[b].prev == x);
    assert forall j :: 0 <= j < |all| && j != a ==> all[j].next == old(all[j].next);
    assert forall j :: 0 <= j < |all| && j != b ==> all[j].prev == old(all[j].prev);
  }

  /** The call always has a successor, so its removal needs no test for one; the return may be last. */
  method Lift<V>(entry: Node<V>, ghost all: seq<Node<V>>, ghost l: Links, ghost rest: set<int>, ghost c: int,
                 ghost r: int)
    requires Reflects(all, l) && Chain(l, rest, |all|) && c in rest && r in rest && c < r
    requires entry == all[c] && entry.mate == all[r]
    modifies all
    ensures Liftable(l, c, r, |all|) && Reflects(all, Lifted(l, c, r))
  {
    LiftedChain(l, rest, |all|, c, r);
    UnlinkNode(entry, all, l, c);
    UnlinkNode(entry.mate, all, Unlink(l, c), r);
  }

  /** Undo `Lift`: the return goes back first, then the call. */
  method Unlift<V>(entry: Node<V>, ghost all: seq<Node<V>>, ghost l: Links, ghost rest: set<int>, ghost c: int,
                   ghost r: int)
    requires Chain(l, rest, |all|) && c in rest && r in rest && c < r && Liftable(l, c, r, |all|)
    requires Reflects(all, Lifted(l, c, r)) && entry == all[c] && entry.mate == all[r]
    modifies all
    ensures Reflects(all, l)
  {
    LiftedChain(l, rest, |all|, c, r);
    ghost var v := Lifted(l, c, r);
    RelinkNode(entry.mate, all, v, r);
    RelinkNode(entry, all, Relink(v, r), c);
  }

  // ----- building the list -----

  method InsertBefore<V>(n: Node<V>, mark: Node?<V>)
    requires n != mark && (mark != null ==> mark.prev != n && mark.prev != mark)
    modifies n, mark, if mark == null then null else mark.prev
    ensures mark == null ==> n.next == old(n.next) && n.prev == old(n.prev)
    ensures mark != null ==> && mark.prev == n && n.next == mark && mark.next == old(mark.next)
                             && n.prev == (if old(mark.prev) == null then old(n.prev) else old(mark.prev))
                             && (old(mark.prev) != null ==> old(mark.prev).next == n)
  {
    if mark != null {
      var before := mark.prev;
      mark.prev := n;
      n.next := mark;
      if before != null {
        n.prev := before;
        before.next := n;
      }
    }
  }

  /** The nodes of the list stand for the events of the history. */
  ghost predicate Labels<V>(all: seq<Node<V>>, h: seq<Event<V>>)
    requires WellFormed(h)
  {
    && |all| == |h| + 1
    && all[0].mate == null
    && forall p {:trigger LabelAt(all, h, p)} :: 0 <= p < |h| ==> LabelAt(all, h, p)
  }

  ghost predicate LabelAt<V>(all: seq<Node<V>>, h: seq<Event<V>>, p: int)
    requires WellFormed(h) && |all| == |h| + 1 && 0 <= p < |h|
  {
    && all[p + 1].id == h[p].id && all[p + 1].value == Holds(h[p].value)
    && all[p + 1].mate == if h[p].kind == Call then all[ReturnAt(h, h[p].id) + 1] else null
  }

  ghost function Initial(n: nat): Links {
    Links(seq(n + 1, k => if k < n then k + 1 else -1), seq(n + 1, k => k - 1))
  }

  ghost function AllNodes(n: nat): (s: set<int>)
    ensures forall k :: k in s <==> 1 <= k <= n
  {
    if n == 0 then {} else AllNodes(n - 1) + {n}
  }

  /** nodes[q..] are linked in order and end the list. */
  ghost predicate Linked<V>(nodes: seq<Node<V>>)
    reads nodes
  {
    && (forall j, k :: 0 <= j < k < |nodes| ==> nodes[j] != nodes[k])
    && (forall q {:trigger nodes[q].next} :: 0 <= q < |nodes| ==>
          nodes[q].next == if q + 1 < |nodes| then nodes[q + 1] else null)
    && (forall q {:trigger nodes[q].prev} :: 0 <= q < |nodes| ==> nodes[q].prev == if q > 0 then nodes[q - 1] else null)
  }

  /** nodes stand for the events from position i on. */
  ghost predicate Suffix<V>(nodes: seq<Node<V>>, h: seq<Event<V>>, i: int)
    requires WellFormed(h)
  {
    && 0 <= i <= |h| && |nodes| == |h| - i
    && forall q {:trigger SuffixAt(nodes, h, i, q)} :: 0 <= q < |nodes| ==> SuffixAt(nodes, h, i, q)
  }

  ghost predicate SuffixAt<V>(nodes: seq<Node<V>>, h: seq<Event<V>>, i: int, q: int)
    requires WellFormed(h) && 0 <= i <= |h| && |nodes| == |h| - i && 0 <= q < |nodes|
  {
    var e := h[i + q];
    && nodes[q].id == e.id && nodes[q].value == Holds(e.value)
    && (e.kind == Return ==> nodes[q].mate == null)
    && (e.kind == Call ==> i <= ReturnAt(h, e.id) && nodes[q].mate == nodes[ReturnAt(h, e.id) - i])
  }

  method MakeLinkedEntries<V>(h: seq<Event<V>>) returns (root: Node?<V>, ghost nodes: seq<Node<V>>)
    requires WellFormed(h)
    ensures Linked(nodes) && Suffix(nodes, h, 0) && fresh(nodes)
    ensures root == if nodes == [] then null else nodes[0]
  {
    root, nodes := null, [];
    var returns_: map<int, Node<V>> := map[];
    var i := |h|;
    while i > 0
      invariant Suffix(nodes, h, i) && Linked(nodes) && fresh(nodes)
      invariant root == if nodes == [] then null else nodes[0]
      invariant forall p :: i <= p < |h| && h[p].kind == Return ==>
                              h[p].id in returns_ && returns_[h[p].id] == nodes[p - i]
    {
      i := i - 1;
      var elem := h[i];
      SpanIsUnique(h, i);
      var entry: Node<V>;
      if elem.kind == Return {
        entry := new Node(Holds(elem.value), null, elem.id);
        returns_ := returns_[elem.id := entry];
      } else {
        var mate := if elem.id in returns_ then returns_[elem.id] else null;
        entry := new Node(Holds(elem.value), mate, elem.id);
        assert mate == nodes[ReturnAt(h, elem.id) - (i + 1)];
      }
      SuffixGrows(nodes, entry, h, i);
      assert root != null ==> root == nodes[0] && root in nodes && nodes[0].prev == null;
      InsertBefore(entry, root);
      root := entry;
      nodes := [entry] + nodes;
    }
  }

  lemma SuffixGrows<V>(nodes: seq<Node<V>>, entry: Node<V>, h: seq<Event<V>>, i: int)
    requires WellFormed(h) && 0 <= i < |h| && Suffix(nodes, h, i + 1)
    requires entry.id == h[i].id && entry.value == Holds(h[i].value)
    requires h[i].kind == Return ==> entry.mate == null
    requires h[i].kind == Call ==>
               i < ReturnAt(h, h[i].id) && entry.mate == nodes[ReturnAt(h, h[i].id) - (i + 1)]
    ensures Suffix([entry] + nodes, h, i)
  {
    var ns := [entry] + nodes;
    forall q | 0 <= q < |ns| ensures SuffixAt(ns, h, i, q) {
      if q > 0 {
        assert SuffixAt(nodes, h, i + 1, q - 1);
      }
    }
  }

  method Length<V>(n: Node?<V>, ghost nodes: seq<Node<V>>) returns (l: nat)
    requires Linked(nodes) && n == if nodes == [] then null else nodes[0]
    ensures l == |nodes|
  {
    l := 0;
    var x := n;
    while x != null
      invariant 0 <= l <= |nodes| && x == if l < |nodes| then nodes[l] else null
      decreases |nodes| - l
    {
      assert x == nodes[l];
      x := x.next;
      l := l + 1;
    }
  }

  /** The head goes in front of everything; from here on the indices describe the pointers. */
  method AttachHead<V>(root: Node?<V>, h: seq<Event<V>>, ghost nodes: seq<Node<V>>)
    returns (head: Node<V>, ghost all: seq<Node<V>>)
    requires WellFormed(h) && Linked(nodes) && Suffix(nodes, h, 0)
    requires root == if nodes == [] then null else nodes[0]
    modifies nodes
    ensures fresh(head) && all == [head] + nodes && Labels(all, h)
    ensures Reflects(all, Initial(|h|)) && Chain(Initial(|h|), AllNodes(|h|), |h| + 1)
  {
    hide Chain, Labels, Suffix, Reflects;
    head := new Node(Nothing, null, -1);
    assert root != null ==> root == nodes[0] && nodes[0].prev == null;
    InsertBefore(head, root);
    all := [head] + nodes;
    SuffixLabels(head, nodes, h);
    InitialChain(|h|);
    LinkedReflects(all);
  }

  lemma LinkedReflects<V>(all: seq<Node<V>>)
    requires Linked(all) && |all| > 0
    ensures Reflects(all, Initial(|all| - 1))
  {
  }

  lemma SuffixLabels<V>(head: Node<V>, nodes: seq<Node<V>>, h: seq<Event<V>>)
    requires WellFormed(h) && Suffix(nodes, h, 0) && head.mate == null
    ensures Labels([head] + nodes, h)
  {
    var all := [head] + nodes;
    forall p | 0 <= p < |h| ensures LabelAt(all, h, p) {
      assert SuffixAt(nodes, h, 0, p);
      SpanIsUnique(h, p);
    }
  }

  lemma InitialChain(n: nat)
    ensures Chain(Initial(n), AllNodes(n), n + 1)
  {
  }
}

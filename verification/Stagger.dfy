/** A token ring as the tokenmap describes it: a dictionary from hosts to ring items, in insertion order. */
module Ring {
  import opened Ordering

  datatype Node = Node(host: string, rack: string, tokens: seq<int>, up: bool)

  ghost predicate Dict(ring: seq<Node>) {
    forall i, j :: 0 <= i < j < |ring| ==> ring[i].host != ring[j].host
  }

  ghost predicate DistinctTokens(ring: seq<Node>) {
    forall i, j :: 0 <= i < j < |ring| ==> ring[i].tokens != ring[j].tokens
  }

  function Hosts(ring: seq<Node>): set<string> { set n | n in ring :: n.host }
}

/**
 The stagger option: a node that has no finished backup waits until its predecessor in token order has one.
 */
module Stagger {
  import opened Text
  import opened Ordering
  import opened Ring

  function ByTokens(ring: seq<Node>): seq<Keyed<Node>> {
    seq(|ring|, i requires 0 <= i < |ring| => Keyed(ring[i].tokens, ring[i]))
  }

  /** The tokenmap sorted by token lists. */
  function Order(ring: seq<Node>): seq<Keyed<Node>> { Sort(ByTokens(ring)) }

  function IndexIn(order: seq<Keyed<Node>>, host: string): (r: Option<nat>)
    ensures r.Some? ==> r.value < |order| && order[r.value].item.host == host
    ensures r.None? ==> forall n :: n in order ==> n.item.host != host
  {
    if order == [] then None
    else
      match IndexIn(order[..|order| - 1], host)
      case Some(i) => Some(i)
      case None => if order[|order| - 1].item.host == host then Some(|order| - 1) else None
  }

  /** stagger; None is a host that the tokenmap does not know. */
  function Passes(host: string, ring: seq<Node>, finished: set<string>): Option<bool> {
    if host in finished then Some(true)
    else
      match IndexIn(Order(ring), host)
      case None => None
      case Some(i) => if i == 0 then Some(true) else Some(Order(ring)[i - 1].item.host in finished)
  }

  // ---------------------------------------------------------------- the order

  /** An order that sorting a cluster's tokenmap produces. */
  ghost predicate IsOrder(ring: seq<Node>, order: seq<Keyed<Node>>) {
    && Ascending(order) && DistinctKeys(order) && |order| == |ring|
    && (forall x :: x in order ==> x.item in ring && x.key == x.item.tokens)
    && (forall n :: n in ring ==> Keyed(n.tokens, n) in order)
  }

  lemma OrderOf(ring: seq<Node>)
    requires DistinctTokens(ring)
    ensures IsOrder(ring, Order(ring))
  {
    hide Sort, LexLe;
    var keyed := ByTokens(ring);
    SortOf(keyed);
    forall n | n in ring ensures Keyed(n.tokens, n) in Order(ring) {
      var i :| 0 <= i < |ring| && ring[i] == n;
      assert keyed[i] == Keyed(n.tokens, n);
    }
    forall x | x in Order(ring) ensures x.item in ring && x.key == x.item.tokens {
      assert x in keyed;
    }
  }

  /** Every node of the cluster computes the same order, whatever the order of its own dictionary. */
  lemma OneOrder(ring: seq<Node>, view: seq<Node>)
    requires DistinctTokens(ring) && DistinctTokens(view) && SameMembers(ring, view)
    ensures Order(view) == Order(ring)
  {
    hide Sort;
    var a, b := ByTokens(ring), ByTokens(view);
    forall x ensures x in a <==> x in b {
      KeyedMember(ring, x);
      KeyedMember(view, x);
    }
    SortCanonical(a, b);
  }

  lemma KeyedMember(ring: seq<Node>, x: Keyed<Node>)
    ensures x in ByTokens(ring) <==> x.item in ring && x.key == x.item.tokens
  {
    if x.item in ring && x.key == x.item.tokens {
      var i :| 0 <= i < |ring| && ring[i] == x.item;
      assert ByTokens(ring)[i] == x;
    }
  }

  lemma HostsApart(ring: seq<Node>, order: seq<Keyed<Node>>, i: nat, j: nat)
    requires Dict(ring) && IsOrder(ring, order) && i < |order| && j < |order| && order[i].item.host == order[j].item.host
    ensures i == j
  {
    hide LexLe;
    assert order[i] in order && order[j] in order;
    var a :| 0 <= a < |ring| && ring[a] == order[i].item;
    var b :| 0 <= b < |ring| && ring[b] == order[j].item;
    assert a == b;
    assert order[i].key == order[j].key;
  }

  lemma IndexExact(ring: seq<Node>, order: seq<Keyed<Node>>, i: nat)
    requires Dict(ring) && IsOrder(ring, order) && i < |order|
    ensures IndexIn(order, order[i].item.host) == Some(i)
  {
    hide IsOrder;
    var r := IndexIn(order, order[i].item.host);
    assert order[i] in order;
    HostsApart(ring, order, i, r.value);
  }

  /** The decision at position i of the order. */
  lemma PassesAt(ring: seq<Node>, i: nat, finished: set<string>)
    requires Dict(ring) && DistinctTokens(ring) && i < |Order(ring)|
    ensures var order := Order(ring);
            Passes(order[i].item.host, ring, finished)
            == Some(order[i].item.host in finished || i == 0 || order[i - 1].item.host in finished)
  {
    hide IsOrder, Order, IndexIn;
    OrderOf(ring);
    IndexExact(ring, Order(ring), i);
  }

  predicate Before(a: Node, b: Node) { LexLe(a.tokens, b.tokens) && a.tokens != b.tokens }

  /** p is the node just before n in token order. */
  ghost predicate Predecessor(ring: seq<Node>, p: Node, n: Node) {
    p in ring && Before(p, n) && forall q :: q in ring && Before(q, n) ==> LexLe(q.tokens, p.tokens)
  }

  lemma Positions(ring: seq<Node>, order: seq<Keyed<Node>>, i: nat, q: Node) returns (j: nat)
    requires IsOrder(ring, order) && i < |order| && q in ring
    ensures j < |order| && order[j].item == q && (Before(q, order[i].item) <==> j < i)
    ensures j < i ==> LexLe(q.tokens, order[i - 1].item.tokens)
  {
    assert Keyed(q.tokens, q) in order;
    j :| 0 <= j < |order| && order[j] == Keyed(q.tokens, q);
    assert order[i] in order && order[j] in order;
    var x := order[i].item;
    assert order[i].key == x.tokens;
    if j < i {
      assert LexLe(order[j].key, order[i].key) && order[j].key != order[i].key;
      LexTotal(q.tokens, q.tokens);
      assert order[i - 1] in order;
    }
    if i < j && Before(q, x) {
      LexAntisymmetric(q.tokens, x.tokens);
    }
  }

  /**
   What stagger decides, without mentioning the sorted list: a node may go ahead when it has a finished
   backup, when no node precedes it in token order, or when its predecessor has a finished backup.
   */
  lemma PassesMeaning(ring: seq<Node>, n: Node, finished: set<string>)
    requires Dict(ring) && DistinctTokens(ring) && n in ring
    ensures Passes(n.host, ring, finished).Some?
    ensures Passes(n.host, ring, finished).value <==>
            || n.host in finished
            || (forall q :: q in ring ==> !Before(q, n))
            || (exists p :: Predecessor(ring, p, n) && p.host in finished)
  {
    hide Order, LexLe, Passes, IsOrder, Before;
    OrderOf(ring);
    var order := Order(ring);
    OrderNonempty(ring, order, n);
    var i := Positions(ring, order, 0, n);
    PassesAt(ring, i, finished);
    if i == 0 {
      forall q | q in ring ensures !Before(q, n) { var j := Positions(ring, order, i, q); }
    } else {
      PreviousIs(ring, order, i);
      forall p | Predecessor(ring, p, n) ensures p == order[i - 1].item {
        OnePredecessor(ring, p, order[i - 1].item, n);
      }
      assert Before(order[i - 1].item, n) by { hide *; PredecessorUse(ring, order[i - 1].item, n); }
    }
  }

  lemma OrderNonempty(ring: seq<Node>, order: seq<Keyed<Node>>, n: Node)
    requires IsOrder(ring, order) && n in ring
    ensures 0 < |order|
  {
  }

  lemma PredecessorUse(ring: seq<Node>, p: Node, n: Node)
    requires Predecessor(ring, p, n)
    ensures p in ring && Before(p, n)
  {
    hide LexLe, Before;
  }

  lemma PreviousIs(ring: seq<Node>, order: seq<Keyed<Node>>, i: nat)
    requires IsOrder(ring, order) && 0 < i < |order|
    ensures Predecessor(ring, order[i - 1].item, order[i].item)
  {
    hide LexLe, Before, IsOrder;
    var p := order[i - 1].item;
    ItemIn(ring, order, i - 1);
    var k := Positions(ring, order, i, p);
    assert Before(p, order[i].item) by { PreviousBefore(ring, order, i); }
    forall q | q in ring && Before(q, order[i].item) ensures LexLe(q.tokens, p.tokens) {
      var j := Positions(ring, order, i, q);
    }
  }

  lemma ItemIn(ring: seq<Node>, order: seq<Keyed<Node>>, i: nat)
    requires IsOrder(ring, order) && i < |order|
    ensures order[i].item in ring && order[i].key == order[i].item.tokens
  {
    assert order[i] in order;
  }

  lemma PreviousBefore(ring: seq<Node>, order: seq<Keyed<Node>>, i: nat)
    requires IsOrder(ring, order) && 0 < i < |order|
    ensures Before(order[i - 1].item, order[i].item)
  {
    ItemIn(ring, order, i - 1);
    ItemIn(ring, order, i);
  }

  lemma OnePredecessor(ring: seq<Node>, p: Node, q: Node, n: Node)
    requires DistinctTokens(ring) && Predecessor(ring, p, n) && Predecessor(ring, q, n)
    ensures p == q
  {
    LexAntisymmetric(p.tokens, q.tokens);
    var i :| 0 <= i < |ring| && ring[i] == p;
    var j :| 0 <= j < |ring| && ring[j] == q;
    assert i < j || j < i || i == j;
  }

  // ---------------------------------------------------------------- positions in the order

  ghost predicate ViewOf(ring: seq<Node>, view: seq<Node>) {
    Dict(view) && DistinctTokens(view) && SameMembers(ring, view)
  }

  ghost predicate GoodRing(ring: seq<Node>) { Dict(ring) && DistinctTokens(ring) }

  function HostAt(ring: seq<Node>, i: nat): string
    requires i < |Order(ring)|
  {
    Order(ring)[i].item.host
  }

  /** Every host before position i has finished a backup at some point. */
  ghost predicate EarlierDone(ring: seq<Node>, ever: set<string>, i: nat) {
    forall j: nat :: j < i && j < |Order(ring)| ==> HostAt(ring, j) in ever
  }

  lemma HostPosition(ring: seq<Node>, h: string) returns (i: nat)
    requires GoodRing(ring) && h in Hosts(ring)
    ensures i < |Order(ring)| && HostAt(ring, i) == h
  {
    hide LexLe, Sort;
    OrderOf(ring);
    var n :| n in ring && n.host == h;
    assert Keyed(n.tokens, n) in Order(ring);
    i :| 0 <= i < |Order(ring)| && Order(ring)[i] == Keyed(n.tokens, n);
  }

  lemma PositionsApart(ring: seq<Node>, i: nat, j: nat)
    requires GoodRing(ring) && i < |Order(ring)| && j < |Order(ring)| && HostAt(ring, i) == HostAt(ring, j)
    ensures i == j
  {
    hide IsOrder, Order;
    OrderOf(ring);
    HostsApart(ring, Order(ring), i, j);
  }

  lemma ViewPasses(ring: seq<Node>, view: seq<Node>, i: nat, finished: set<string>)
    requires GoodRing(ring) && ViewOf(ring, view) && i < |Order(ring)|
    ensures Passes(HostAt(ring, i), view, finished)
            == Some(HostAt(ring, i) in finished || i == 0 || HostAt(ring, i - 1) in finished)
  {
    hide Order, Passes;
    OneOrder(ring, view);
    PassesAt(view, i, finished);
  }

  lemma EarlierGrows(ring: seq<Node>, ever: set<string>, more: set<string>, i: nat)
    requires EarlierDone(ring, ever, i) && ever <= more
    ensures EarlierDone(ring, more, i)
  {
    hide Order, HostAt;
  }

  lemma EarlierUse(ring: seq<Node>, ever: set<string>, i: nat, j: nat)
    requires EarlierDone(ring, ever, i) && j < i && j < |Order(ring)|
    ensures HostAt(ring, j) in ever
  {
    hide Order, HostAt;
  }

  /** The first n hosts of the order. */
  ghost predicate IsPrefix(ring: seq<Node>, done: set<string>, n: nat) {
    && n <= |Order(ring)| && done <= Hosts(ring)
    && forall i: nat :: i < |Order(ring)| ==> (HostAt(ring, i) in done <==> i < n)
  }

  /** A set of hosts that holds the predecessors of each of its members is a prefix of the order. */
  lemma {:induction false} PrefixLength(ring: seq<Node>, done: set<string>, k: nat) returns (n: nat)
    requires done <= Hosts(ring) && k <= |Order(ring)| && (forall i: nat :: i < k ==> HostAt(ring, i) in done)
    requires forall i: nat :: i < |Order(ring)| && HostAt(ring, i) in done ==> EarlierDone(ring, done, i)
    ensures IsPrefix(ring, done, n)
    decreases |Order(ring)| - k
  {
    hide Order, HostAt;
    if k < |Order(ring)| && HostAt(ring, k) in done {
      n := PrefixLength(ring, done, k + 1);
    } else {
      n := k;
      forall i: nat | i < |Order(ring)| && HostAt(ring, i) in done ensures i < n {
        assert EarlierDone(ring, done, i);
      }
    }
  }

  /**
   Nobody waits for ever because of the order: whatever has been purged, the first host without a
   finished backup may go ahead, and later ones without one may only when their predecessor has one.
   */
  lemma FirstUnfinishedPasses(ring: seq<Node>, view: seq<Node>, finished: set<string>, i: nat)
    requires GoodRing(ring) && ViewOf(ring, view) && i < |Order(ring)|
    requires HostAt(ring, i) !in finished && forall j: nat :: j < i ==> HostAt(ring, j) in finished
    ensures Passes(HostAt(ring, i), view, finished) == Some(true)
    ensures i + 1 < |Order(ring)| && HostAt(ring, i + 1) !in finished ==> Passes(HostAt(ring, i + 1), view, finished) == Some(false)
  {
    hide GoodRing, ViewOf, Order, HostAt, Passes;
    ViewPasses(ring, view, i, finished);
    if i + 1 < |Order(ring)| {
      ViewPasses(ring, view, i + 1, finished);
    }
  }
}

/** Orders that respect a relation, and the least of them. */
module OrderingSpec {

  type Relation = (nat, nat) -> bool

  ghost predicate Below(list: seq<nat>, n: nat) { forall x :: 0 <= x < |list| ==> list[x] < n }

  ghost predicate Distinct(list: seq<nat>) { forall x, y :: 0 <= x < y < |list| ==> list[x] != list[y] }

  /** All of 0 to n - 1, each once, none before something that must precede it. */
  ghost predicate ValidOrder(n: nat, edge: Relation, order: seq<nat>) {
    && |order| == n && Below(order, n) && Distinct(order)
    && forall x, y :: 0 <= x < n && 0 <= y < n && edge(order[x], order[y]) ==> x < y
  }

  ghost predicate LexLeq(a: seq<nat>, b: seq<nat>)
    requires |a| == |b|
  {
    a == b || exists k :: 0 <= k < |a| && a[..k] == b[..k] && a[k] < b[k]
  }

  /** A ring in which each member must come after the next. */
  ghost predicate Ring(n: nat, edge: Relation, ring: seq<nat>) {
    && ring != [] && Below(ring, n)
    && (forall x :: 0 <= x < |ring| - 1 ==> edge(ring[x + 1], ring[x]))
    && edge(ring[0], ring[|ring| - 1])
  }

  ghost predicate HasCycle(n: nat, edge: Relation) { exists ring :: Ring(n, edge, ring) }

  // ----- counting -----

  ghost function Range(n: nat): set<nat> {
    if n == 0 then {} else Range(n - 1) + {n - 1}
  }

  lemma {:induction false} RangeIs(n: nat)
    ensures |Range(n)| == n && forall x: nat :: x in Range(n) <==> x < n
  {
    if n > 0 { RangeIs(n - 1); }
  }

  ghost function SetOf(list: seq<nat>): set<nat> { set x | x in list }

  lemma {:induction false} DistinctSize(list: seq<nat>)
    requires Distinct(list)
    ensures |SetOf(list)| == |list|
  {
    if list != [] {
      var front, last := list[..|list| - 1], list[|list| - 1];
      DistinctSize(front);
      assert SetOf(list) == SetOf(front) + {last};
    }
  }

  lemma SubsetSize(a: set<nat>, b: set<nat>)
    requires a <= b
    ensures |a| <= |b| && (|a| == |b| ==> a == b)
  {
    assert b == a + (b - a);
  }

  lemma {:induction false} Pigeonhole(list: seq<nat>, n: nat)
    requires Below(list, n) && |list| > n
    ensures exists x, y :: 0 <= x < y < |list| && list[x] == list[y]
  {
    if Distinct(list) {
      DistinctSize(list);
      RangeIs(n);
      assert SetOf(list) <= Range(n);
      SubsetSize(SetOf(list), Range(n));
    }
  }

  lemma {:induction false} FullCoversAll(list: seq<nat>, n: nat, v: nat)
    requires Below(list, n) && Distinct(list) && |list| == n && v < n
    ensures v in list
  {
    DistinctSize(list);
    RangeIs(n);
    assert SetOf(list) <= Range(n);
    SubsetSize(SetOf(list), Range(n));
    assert v in SetOf(list);
  }

  // ----- taking the least that is ready -----

  /** Nothing outside `done` must precede it. */
  ghost predicate Ready(n: nat, edge: Relation, done: seq<nat>, i: nat) {
    forall s :: 0 <= s < n && s !in done ==> !edge(s, i)
  }

  ghost predicate Least(n: nat, edge: Relation, done: seq<nat>, next: nat) {
    && next < n && next !in done && Ready(n, edge, done, next)
    && forall i :: 0 <= i < next && i !in done ==> !Ready(n, edge, done, i)
  }

  ghost predicate Greedy(n: nat, edge: Relation, order: seq<nat>) {
    forall k :: 0 <= k < |order| ==> Least(n, edge, order[..k], order[k])
  }

  lemma {:induction false} GreedyMore(n: nat, edge: Relation, order: seq<nat>, next: nat)
    requires Greedy(n, edge, order) && Least(n, edge, order, next)
    ensures Greedy(n, edge, order + [next])
  {
    hide Least;
    forall k | 0 <= k <= |order| ensures Least(n, edge, (order + [next])[..k], (order + [next])[k]) {
      assert (order + [next])[..k] == order[..k];
      if k == |order| { assert order[..k] == order; }
    }
  }

  lemma {:induction false} GreedyDistinct(n: nat, edge: Relation, order: seq<nat>)
    requires Greedy(n, edge, order)
    ensures Below(order, n) && Distinct(order) && |order| <= n
  {
    forall k | 0 <= k < |order| ensures order[k] < n && order[k] !in order[..k] {
      assert Least(n, edge, order[..k], order[k]);
    }
    forall x, y | 0 <= x < y < |order| ensures order[x] != order[y] {
      assert order[x] == order[..y][x];
    }
    DistinctSize(order);
    RangeIs(n);
    assert SetOf(order) <= Range(n);
    SubsetSize(SetOf(order), Range(n));
  }

  /** A complete greedy order respects the relation. */
  lemma {:induction false} GreedyValid(n: nat, edge: Relation, order: seq<nat>)
    requires Greedy(n, edge, order) && |order| == n
    ensures ValidOrder(n, edge, order)
  {
    GreedyDistinct(n, edge, order);
    forall x, y | 0 <= x < n && 0 <= y < n && edge(order[x], order[y]) ensures x < y {
      assert Least(n, edge, order[..y], order[y]);
      assert order[x] in order[..y];
      var z :| 0 <= z < y && order[..y][z] == order[x];
      assert order[z] == order[x];
    }
  }

  /** No valid order comes before it. */
  lemma {:induction false} GreedyLeast(n: nat, edge: Relation, order: seq<nat>, other: seq<nat>)
    requires Greedy(n, edge, order) && |order| == n && ValidOrder(n, edge, other)
    ensures LexLeq(order, other)
  {
    if order != other {
      var k := FirstDifference(order, other);
      assert Least(n, edge, order[..k], order[k]);
      NextIsReady(n, edge, other, k);
      assert order[k] < other[k];
    }
  }

  lemma {:induction false} NextIsReady(n: nat, edge: Relation, order: seq<nat>, k: nat)
    requires ValidOrder(n, edge, order) && k < n
    ensures order[k] !in order[..k] && Ready(n, edge, order[..k], order[k])
  {
    assert forall x :: 0 <= x < k ==> order[..k][x] == order[x];
    forall s | 0 <= s < n && s !in order[..k] ensures !edge(s, order[k]) {
      FullCoversAll(order, n, s);
      var x :| 0 <= x < n && order[x] == s;
      assert x < k ==> order[..k][x] == s;
    }
  }

  lemma FirstDifference(a: seq<nat>, b: seq<nat>) returns (at: nat)
    requires |a| == |b| && a != b
    ensures at < |a| && a[..at] == b[..at] && a[at] != b[at]
  {
    assert a == a[..|a|] && b == b[..|b|];
    at := 0;
    while at < |a| && a[at] == b[at]
      invariant at <= |a| && a[..at] == b[..at]
    {
      assert a[..at + 1] == a[..at] + [a[at]] && b[..at + 1] == b[..at] + [b[at]];
      at := at + 1;
    }
  }

  ghost function Identity(n: nat): (list: seq<nat>)
    ensures |list| == n && forall x :: 0 <= x < n ==> list[x] == x
  {
    if n == 0 then [] else Identity(n - 1) + [n - 1]
  }

  /** What is already in order stays as it is. */
  lemma {:induction false} GreedyKeepsIdentity(n: nat, edge: Relation, order: seq<nat>)
    requires Greedy(n, edge, order) && |order| == n && ValidOrder(n, edge, Identity(n))
    ensures order == Identity(n)
  {
    GreedyLeast(n, edge, order, Identity(n));
    forall k | 0 <= k < n && order[..k] == Identity(n)[..k] ensures order[k] < k ==> order[order[k]] == order[k] {
      assert forall x :: 0 <= x < k ==> order[..k][x] == order[x] && Identity(n)[..k][x] == x;
    }
    GreedyDistinct(n, edge, order);
  }

  // ----- cycles -----

  /** When nothing is ready, every unplaced member waits for another one. */
  ghost predicate StuckAt(n: nat, edge: Relation, order: seq<nat>) {
    && |order| < n && Below(order, n) && Distinct(order)
    && forall i :: 0 <= i < n && i !in order ==> !Ready(n, edge, order, i)
  }

  ghost predicate Walk(n: nat, edge: Relation, order: seq<nat>, walk: seq<nat>) {
    && (forall x :: 0 <= x < |walk| ==> walk[x] < n && walk[x] !in order)
    && (forall x :: 0 <= x < |walk| - 1 ==> edge(walk[x + 1], walk[x]))
  }

  lemma {:induction false} LongWalk(n: nat, edge: Relation, order: seq<nat>, length: nat) returns (walk: seq<nat>)
    requires StuckAt(n, edge, order)
    ensures |walk| == length + 1 && Walk(n, edge, order, walk)
  {
    if length == 0 {
      var v := Unplaced(n, order);
      walk := [v];
    } else {
      var before := LongWalk(n, edge, order, length - 1);
      var last := before[|before| - 1];
      hide Below, Distinct;
      assert !Ready(n, edge, order, last);
      var s :| 0 <= s < n && s !in order && edge(s, last);
      walk := before + [s];
      hide Ready, StuckAt;
      WalkMore(n, edge, order, before, s);
    }
  }

  lemma WalkMore(n: nat, edge: Relation, order: seq<nat>, walk: seq<nat>, s: nat)
    requires Walk(n, edge, order, walk) && walk != [] && s < n && s !in order && edge(s, walk[|walk| - 1])
    ensures Walk(n, edge, order, walk + [s])
  {}

  lemma {:induction false} Unplaced(n: nat, order: seq<nat>) returns (v: nat)
    requires |order| < n && Below(order, n) && Distinct(order)
    ensures v < n && v !in order
  {
    DistinctSize(order);
    RangeIs(n);
    if Range(n) <= SetOf(order) { SubsetSize(Range(n), SetOf(order)); }
    v :| v in Range(n) && v !in SetOf(order);
  }

  lemma {:induction false} StuckMeansCycle(n: nat, edge: Relation, order: seq<nat>)
    requires StuckAt(n, edge, order)
    ensures HasCycle(n, edge)
  {
    var walk := LongWalk(n, edge, order, n);
    Pigeonhole(walk, n);
    var x, y :| 0 <= x < y < |walk| && walk[x] == walk[y];
    RingInWalk(n, edge, order, walk, x, y);
  }

  lemma RingInWalk(n: nat, edge: Relation, order: seq<nat>, walk: seq<nat>, x: nat, y: nat)
    requires Walk(n, edge, order, walk) && x < y < |walk| && walk[x] == walk[y]
    ensures HasCycle(n, edge)
  {
    var ring := walk[x..y];
    forall z | 0 <= z < |ring| - 1 ensures edge(ring[z + 1], ring[z]) {
      assert ring[z + 1] == walk[x + z + 1] && ring[z] == walk[x + z];
    }
    assert edge(walk[y - 1 + 1], walk[y - 1]);
    assert Ring(n, edge, ring);
  }

  lemma {:induction false} Descending(at: seq<nat>, z: nat)
    requires z < |at| && forall x :: 0 <= x < |at| - 1 ==> at[x + 1] < at[x]
    ensures at[z] + z <= at[0]
  {
    if z > 0 {
      Descending(at, z - 1);
      assert at[z - 1 + 1] < at[z - 1];
    }
  }

  /** Going round the ring, some step does not go back in the order. */
  lemma {:induction false} RingUnordered(n: nat, edge: Relation, order: seq<nat>, ring: seq<nat>, at: seq<nat>)
    requires Ring(n, edge, ring) && |order| == n && |at| == |ring|
    requires forall x :: 0 <= x < |ring| ==> at[x] < n && order[at[x]] == ring[x]
    ensures exists x, y :: 0 <= x < n && 0 <= y < n && edge(order[x], order[y]) && x >= y
  {
    if z :| 0 <= z < |ring| - 1 && at[z + 1] >= at[z] {
      assert edge(order[at[z + 1]], order[at[z]]);
    } else {
      Descending(at, |ring| - 1);
      assert edge(order[at[0]], order[at[|ring| - 1]]);
    }
  }

  lemma {:induction false} Positions(n: nat, order: seq<nat>, ring: seq<nat>) returns (at: seq<nat>)
    requires Below(order, n) && Distinct(order) && |order| == n && Below(ring, n)
    ensures |at| == |ring| && forall x :: 0 <= x < |ring| ==> at[x] < n && order[at[x]] == ring[x]
  {
    if ring == [] {
      at := [];
    } else {
      var front := Positions(n, order, ring[..|ring| - 1]);
      FullCoversAll(order, n, ring[|ring| - 1]);
      var p :| 0 <= p < n && order[p] == ring[|ring| - 1];
      at := front + [p];
      forall x | 0 <= x < |ring| ensures at[x] < n && order[at[x]] == ring[x] {
        if x < |ring| - 1 { assert ring[..|ring| - 1][x] == ring[x]; }
      }
    }
  }

  /** A relation with a cycle allows no order. */
  lemma {:induction false} CycleMeansNoOrder(n: nat, edge: Relation, order: seq<nat>)
    requires HasCycle(n, edge)
    ensures !ValidOrder(n, edge, order)
  {
    var ring :| Ring(n, edge, ring);
    if |order| == n && Below(order, n) && Distinct(order) {
      var at := Positions(n, order, ring);
      RingUnordered(n, edge, order, ring, at);
    }
  }
}

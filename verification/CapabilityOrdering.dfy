/** Sorting middleware capabilities by tier and by declared wrapping. */
module CapabilityOrdering {
  import opened OrderingSpec

  datatype Position = Default | Outermost | Innermost | Invalid

  /** A capability and the ordering it declares. References are matched by an arbitrary predicate. */
  datatype Entry = Entry(capability: nat, position: Position, wraps: seq<nat>, wrappedBy: seq<nat>, required: seq<nat>)

  type Matching = (nat, nat) -> bool

  predicate MatchesAny(matching: Matching, references: seq<nat>, capability: nat) {
    exists x :: 0 <= x < |references| && matching(references[x], capability)
  }

  predicate Satisfied(matching: Matching, reference: nat, available: seq<nat>) {
    exists x :: 0 <= x < |available| && matching(reference, available[x])
  }

  /** The constraint that entry `i` declares about entry `j`: to stand before it, or after it. */
  predicate PutsBefore(entries: seq<Entry>, matching: Matching, i: nat, j: nat)
    requires i < |entries| && j < |entries|
  {
    i != j && ((entries[i].position == Outermost && entries[j].position != Outermost)
               || MatchesAny(matching, entries[i].wraps, entries[j].capability))
  }

  predicate PutsAfter(entries: seq<Entry>, matching: Matching, i: nat, j: nat)
    requires i < |entries| && j < |entries|
  {
    i != j && ((entries[i].position == Innermost && entries[j].position != Innermost)
               || MatchesAny(matching, entries[i].wrappedBy, entries[j].capability))
  }

  predicate Before(entries: seq<Entry>, matching: Matching, i: nat, j: nat) {
    i < |entries| && j < |entries| && (PutsBefore(entries, matching, i, j) || PutsAfter(entries, matching, j, i))
  }

  /** All constraints together. */
  function Constraints(entries: seq<Entry>, matching: Matching): Relation {
    (i: nat, j: nat) => Before(entries, matching, i, j)
  }

  ghost predicate PositionsValid(entries: seq<Entry>) {
    forall i :: 0 <= i < |entries| ==> entries[i].position != Invalid
  }

  ghost predicate RequirementsMet(entries: seq<Entry>, matching: Matching, available: seq<nat>) {
    forall i, x :: 0 <= i < |entries| && 0 <= x < |entries[i].required| ==>
      Satisfied(matching, entries[i].required[x], available)
  }

  datatype Result = InvalidPosition | MissingRequirement | Circular | Sorted(order: seq<nat>)

  // ----- checks -----

  method FindReference(matching: Matching, references: seq<nat>, capability: nat) returns (found: bool)
    ensures found == MatchesAny(matching, references, capability)
  {
    var x := 0;
    while x < |references|
      invariant 0 <= x <= |references| && forall y :: 0 <= y < x ==> !matching(references[y], capability)
    {
      if matching(references[x], capability) { return true; }
      x := x + 1;
    }
    found := false;
  }

  method FindAvailable(matching: Matching, reference: nat, available: seq<nat>) returns (found: bool)
    ensures found == Satisfied(matching, reference, available)
  {
    var x := 0;
    while x < |available|
      invariant 0 <= x <= |available| && forall y :: 0 <= y < x ==> !matching(reference, available[y])
    {
      if matching(reference, available[x]) { return true; }
      x := x + 1;
    }
    found := false;
  }

  method CheckPositions(entries: seq<Entry>) returns (valid: bool)
    ensures valid <==> PositionsValid(entries)
  {
    var k := 0;
    while k < |entries|
      invariant 0 <= k <= |entries| && forall i :: 0 <= i < k ==> entries[i].position != Invalid
    {
      if entries[k].position == Invalid { return false; }
      k := k + 1;
    }
    valid := true;
  }

  method CheckRequirements(entries: seq<Entry>, matching: Matching, available: seq<nat>) returns (met: bool)
    ensures met <==> RequirementsMet(entries, matching, available)
  {
    hide Satisfied;
    var k := 0;
    while k < |entries|
      invariant 0 <= k <= |entries|
      invariant forall i, x :: 0 <= i < k && 0 <= x < |entries[i].required| ==>
        Satisfied(matching, entries[i].required[x], available)
    {
      var x := 0;
      while x < |entries[k].required|
        invariant 0 <= x <= |entries[k].required|
        invariant forall y :: 0 <= y < x ==> Satisfied(matching, entries[k].required[y], available)
      {
        var found := FindAvailable(matching, entries[k].required[x], available);
        if !found { return false; }
        x := x + 1;
      }
      k := k + 1;
    }
    met := true;
  }

  // ----- the constraint graph -----

  /** Adds the constraints that one entry declares. */
  method MarkEdges(entries: seq<Entry>, matching: Matching, edges: array2<bool>, index: nat)
    requires edges.Length0 == |entries| && edges.Length1 == |entries| && index < |entries|
    modifies edges
    ensures forall a, b :: 0 <= a < |entries| && 0 <= b < |entries| ==>
      edges[a, b] == (old(edges[a, b]) || (a == index && PutsBefore(entries, matching, index, b))
                      || (b == index && PutsAfter(entries, matching, index, a)))
  {
    hide MatchesAny;
    var other := 0;
    while other < |entries|
      invariant 0 <= other <= |entries|
      invariant forall a, b :: 0 <= a < |entries| && 0 <= b < |entries| ==>
        edges[a, b] == (old(edges[a, b]) || (a == index && b < other && PutsBefore(entries, matching, index, b))
                        || (b == index && a < other && PutsAfter(entries, matching, index, a)))
    {
      if other != index {
        var wraps := FindReference(matching, entries[index].wraps, entries[other].capability);
        var wrapped := FindReference(matching, entries[index].wrappedBy, entries[other].capability);
        if wraps || (entries[index].position == Outermost && entries[other].position != Outermost) {
          edges[index, other] := true;
        }
        if wrapped || (entries[index].position == Innermost && entries[other].position != Innermost) {
          edges[other, index] := true;
        }
      }
      other := other + 1;
    }
  }

  ghost predicate Represents(edges: array2<bool>, edge: Relation, n: nat)
    reads edges
  {
    edges.Length0 == n && edges.Length1 == n && forall a, b :: 0 <= a < n && 0 <= b < n ==> edges[a, b] == edge(a, b)
  }

  method BuildEdges(entries: seq<Entry>, matching: Matching) returns (edges: array2<bool>)
    ensures fresh(edges) && Represents(edges, Constraints(entries, matching), |entries|)
  {
    hide PutsBefore, PutsAfter;
    edges := new bool[|entries|, |entries|]((_, _) => false);
    var index := 0;
    while index < |entries|
      invariant 0 <= index <= |entries|
      invariant forall a, b :: 0 <= a < |entries| && 0 <= b < |entries| ==>
        edges[a, b] == ((a < index && PutsBefore(entries, matching, a, b))
                        || (b < index && PutsAfter(entries, matching, b, a)))
    {
      MarkEdges(entries, matching, edges, index);
      index := index + 1;
    }
  }

  // ----- indegrees -----

  /** The members outside `done` that must precede one. */
  ghost function Waiting(n: nat, edge: Relation, done: set<nat>, target: nat): set<nat> {
    set s | 0 <= s < n && s !in done && edge(s, target)
  }

  ghost function WaitingBelow(k: nat, edge: Relation, target: nat): set<nat> {
    set s | 0 <= s < k && edge(s, target)
  }

  ghost predicate Counts(indegree: array<nat>, n: nat, edge: Relation, done: set<nat>)
    reads indegree
  {
    indegree.Length == n && forall t :: 0 <= t < n ==> indegree[t] == |Waiting(n, edge, done, t)|
  }

  method CountEdges(edges: array2<bool>, ghost edge: Relation, n: nat) returns (indegree: array<nat>)
    requires Represents(edges, edge, n)
    ensures fresh(indegree) && Counts(indegree, n, edge, {})
  {
    hide WaitingBelow;
    indegree := new nat[n](_ => 0);
    var source := 0;
    forall t | 0 <= t < n ensures |WaitingBelow(0, edge, t)| == 0 { NoneBelow(edge, t); }
    while source < n
      invariant 0 <= source <= n && forall t :: 0 <= t < n ==> indegree[t] == |WaitingBelow(source, edge, t)|
    {
      var target := 0;
      while target < n
        invariant 0 <= target <= n
        invariant forall t :: 0 <= t < n ==>
          indegree[t] == |WaitingBelow(if t < target then source + 1 else source, edge, t)|
      {
        OneMoreBelow(source, edge, target);
        if edges[source, target] { indegree[target] := indegree[target] + 1; }
        target := target + 1;
      }
      source := source + 1;
    }
    forall t | 0 <= t < n ensures indegree[t] == |Waiting(n, edge, {}, t)| { BelowAll(n, edge, t); }
  }

  lemma NoneBelow(edge: Relation, target: nat)
    ensures |WaitingBelow(0, edge, target)| == 0
  {
    assert WaitingBelow(0, edge, target) == {};
  }

  lemma OneMoreBelow(k: nat, edge: Relation, target: nat)
    ensures |WaitingBelow(k + 1, edge, target)| == |WaitingBelow(k, edge, target)| + if edge(k, target) then 1 else 0
  {
    assert WaitingBelow(k + 1, edge, target)
        == if edge(k, target) then WaitingBelow(k, edge, target) + {k} else WaitingBelow(k, edge, target);
  }

  lemma BelowAll(n: nat, edge: Relation, target: nat)
    ensures WaitingBelow(n, edge, target) == Waiting(n, edge, {}, target)
  {}

  lemma OneLessWaiting(n: nat, edge: Relation, done: set<nat>, next: nat, target: nat)
    requires next < n && next !in done
    ensures |Waiting(n, edge, done, target)|
         == |Waiting(n, edge, done + {next}, target)| + if edge(next, target) then 1 else 0
  {
    var after := Waiting(n, edge, done + {next}, target);
    assert Waiting(n, edge, done, target) == if edge(next, target) then after + {next} else after;
  }

  lemma ReadyIsZero(n: nat, edge: Relation, order: seq<nat>, target: nat)
    ensures Ready(n, edge, order, target) <==> |Waiting(n, edge, SetOf(order), target)| == 0
  {
    var waiting := Waiting(n, edge, SetOf(order), target);
    if |waiting| == 0 {
      assert waiting == {};
      forall s | 0 <= s < n && s !in order ensures !edge(s, target) { assert s !in waiting; }
    }
    if Ready(n, edge, order, target) { assert waiting == {}; }
  }

  /** Removes the edges of the member just placed. */
  method Place(edges: array2<bool>, indegree: array<nat>, ghost edge: Relation, ghost order: seq<nat>, next: nat,
               n: nat)
    requires Represents(edges, edge, n) && Counts(indegree, n, edge, SetOf(order)) && next < n && next !in order
    modifies indegree
    ensures Counts(indegree, n, edge, SetOf(order + [next]))
  {
    hide Waiting;
    ghost var done := SetOf(order);
    assert SetOf(order + [next]) == done + {next};
    var target := 0;
    while target < n
      invariant 0 <= target <= n
      invariant forall t :: 0 <= t < n ==>
        indegree[t] == |Waiting(n, edge, if t < target then done + {next} else done, t)|
    {
      OneLessWaiting(n, edge, done, next, target);
      if edges[next, target] { indegree[target] := indegree[target] - 1; }
      target := target + 1;
    }
  }

  /** The first unused member without anything left to wait for. */
  method FindNext(indegree: array<nat>, used: array<bool>, ghost edge: Relation, ghost order: seq<nat>, n: nat)
    returns (next: int)
    requires Counts(indegree, n, edge, SetOf(order)) && used.Length == n
    requires forall i :: 0 <= i < n ==> (used[i] <==> i in order)
    ensures next >= 0 ==> Least(n, edge, order, next)
    ensures next < 0 ==> forall i :: 0 <= i < n && i !in order ==> !Ready(n, edge, order, i)
  {
    hide Waiting, SetOf, Ready;
    var index := 0;
    while index < n
      invariant 0 <= index <= n && forall i :: 0 <= i < index && i !in order ==> !Ready(n, edge, order, i)
    {
      ReadyIsZero(n, edge, order, index);
      if !used[index] && indegree[index] == 0 { return index; }
      index := index + 1;
    }
    next := -1;
  }

  method SortGraph(edges: array2<bool>, ghost edge: Relation, n: nat) returns (ok: bool, ordered: seq<nat>)
    requires Represents(edges, edge, n)
    ensures ok <==> !HasCycle(n, edge)
    ensures ok ==> |ordered| == n && Greedy(n, edge, ordered)
  {
    hide Counts, Least, StuckAt, HasCycle, Represents, Greedy;
    var indegree := CountEdges(edges, edge, n);
    var used := new bool[n](_ => false);
    ordered := [];
    NothingPlaced(n, edge);
    while |ordered| < n
      invariant |ordered| <= n && Greedy(n, edge, ordered) && Counts(indegree, n, edge, SetOf(ordered))
      invariant used.Length == n && forall i :: 0 <= i < n ==> (used[i] <==> i in ordered)
      invariant fresh(indegree) && fresh(used) && Represents(edges, edge, n)
      decreases n - |ordered|
    {
      var next := FindNext(indegree, used, edge, ordered, n);
      if next < 0 {
        GreedyDistinct(n, edge, ordered);
        Stuck(n, edge, ordered);
        return false, ordered;
      }
      LeastNew(n, edge, ordered, next);
      GreedyMore(n, edge, ordered, next);
      GreedyDistinct(n, edge, ordered + [next]);
      used[next] := true;
      Place(edges, indegree, edge, ordered, next, n);
      ordered := ordered + [next];
    }
    GreedyValid(n, edge, ordered);
    if HasCycle(n, edge) { CycleMeansNoOrder(n, edge, ordered); }
    ok := true;
  }

  lemma NothingPlaced(n: nat, edge: Relation)
    ensures Greedy(n, edge, []) && SetOf([]) == {}
  {}

  lemma LeastNew(n: nat, edge: Relation, order: seq<nat>, next: nat)
    requires Least(n, edge, order, next)
    ensures next < n && next !in order
  {}

  lemma Stuck(n: nat, edge: Relation, order: seq<nat>)
    requires |order| < n && Below(order, n) && Distinct(order)
    requires forall i :: 0 <= i < n && i !in order ==> !Ready(n, edge, order, i)
    ensures HasCycle(n, edge)
  {
    StuckMeansCycle(n, edge, order);
  }

  /** The order of the entries, by their places in the input. */
  method SortCapabilityEntries(entries: seq<Entry>, matching: Matching, available: seq<nat>) returns (result: Result)
    ensures result == InvalidPosition <==> !PositionsValid(entries)
    ensures result == MissingRequirement <==> PositionsValid(entries) && !RequirementsMet(entries, matching, available)
    ensures var (n, edge) := (|entries|, Constraints(entries, matching));
      PositionsValid(entries) && RequirementsMet(entries, matching, available) ==>
        && (result == Circular <==> HasCycle(n, edge))
        && (result.Sorted? ==> LeastValidOrder(n, edge, result.order))
  {
    hide LeastValidOrder, PositionsValid, RequirementsMet, Greedy, HasCycle, Represents, Before;
    var valid := CheckPositions(entries);
    if !valid { return InvalidPosition; }
    var met := CheckRequirements(entries, matching, available);
    if !met { return MissingRequirement; }
    if |entries| < 2 {
      FewAreOrdered(entries, matching);
      GreedyIsLeast(|entries|, Constraints(entries, matching), if |entries| == 0 then [] else [0]);
      return Sorted(if |entries| == 0 then [] else [0]);
    }
    var edges := BuildEdges(entries, matching);
    var ok, order := SortGraph(edges, Constraints(entries, matching), |entries|);
    if ok { GreedyIsLeast(|entries|, Constraints(entries, matching), order); }
    result := if ok then Sorted(order) else Circular;
  }

  lemma FewAreOrdered(entries: seq<Entry>, matching: Matching)
    requires |entries| < 2
    ensures var (n, edge) := (|entries|, Constraints(entries, matching));
      var order := if n == 0 then [] else [0];
      Greedy(n, edge, order) && !HasCycle(n, edge)
  {
    var (n, edge) := (|entries|, Constraints(entries, matching));
    var order: seq<nat> := if n == 0 then [] else [0];
    hide MatchesAny;
    GreedyValid(n, edge, order);
    if HasCycle(n, edge) { CycleMeansNoOrder(n, edge, order); }
  }

  /** A permutation in which every tier, every wrapping and every wrapped-by constraint holds, the least such
      in lexicographic order of places, and the input itself when that was already in order. */
  ghost predicate LeastValidOrder(n: nat, edge: Relation, order: seq<nat>) {
    && ValidOrder(n, edge, order)
    && (forall other :: ValidOrder(n, edge, other) ==> |other| == |order| && LexLeq(order, other))
    && (ValidOrder(n, edge, Identity(n)) ==> order == Identity(n))
  }

  lemma {:induction false} GreedyIsLeast(n: nat, edge: Relation, order: seq<nat>)
    requires |order| == n && Greedy(n, edge, order)
    ensures LeastValidOrder(n, edge, order)
  {
    hide Greedy, ValidOrder, LexLeq;
    GreedyValid(n, edge, order);
    forall other | ValidOrder(n, edge, other) ensures |other| == |order| && LexLeq(order, other) {
      OtherLength(n, edge, other);
      GreedyLeast(n, edge, order, other);
    }
    if ValidOrder(n, edge, Identity(n)) { GreedyKeepsIdentity(n, edge, order); }
  }

  lemma OtherLength(n: nat, edge: Relation, other: seq<nat>)
    requires ValidOrder(n, edge, other)
    ensures |other| == n
  {}

  /** Entry `i` is placed before entry `j`. */
  predicate Precedes(order: seq<nat>, i: nat, j: nat) {
    exists x, y :: 0 <= x < y < |order| && order[x] == i && order[y] == j
  }

  /** The tiers in order and what is wrapped inside of what wraps it, whichever of the two says so. */
  ghost predicate InTiers(entries: seq<Entry>, matching: Matching, order: seq<nat>) {
    forall i, j :: 0 <= i < |entries| && 0 <= j < |entries| && i != j ==>
      && (entries[i].position == Outermost && entries[j].position != Outermost ==> Precedes(order, i, j))
      && (entries[i].position != Innermost && entries[j].position == Innermost ==> Precedes(order, i, j))
      && (MatchesAny(matching, entries[i].wraps, entries[j].capability) ==> Precedes(order, i, j))
      && (MatchesAny(matching, entries[j].wrappedBy, entries[i].capability) ==> Precedes(order, i, j))
  }

  lemma {:induction false} ConstraintPrecedes(n: nat, edge: Relation, order: seq<nat>, i: nat, j: nat)
    requires ValidOrder(n, edge, order) && i < n && j < n && edge(i, j)
    ensures Precedes(order, i, j)
  {
    FullCoversAll(order, n, i);
    FullCoversAll(order, n, j);
    var x :| 0 <= x < |order| && order[x] == i;
    var y :| 0 <= y < |order| && order[y] == j;
    assert x < y;
  }

  lemma {:induction false} PrecedesMeans(order: seq<nat>, x: nat, y: nat)
    requires Distinct(order) && x < |order| && y < |order| && Precedes(order, order[x], order[y])
    ensures x < y
  {
    var p, q :| 0 <= p < q < |order| && order[p] == order[x] && order[q] == order[y];
    assert p == x && q == y;
  }

  /** The orders that respect all constraints are the permutations in which tiers and wrappings are in order. */
  lemma {:induction false} ValidMeansInTiers(entries: seq<Entry>, matching: Matching, order: seq<nat>)
    requires |order| == |entries| && Below(order, |entries|) && Distinct(order)
    ensures ValidOrder(|entries|, Constraints(entries, matching), order) <==> InTiers(entries, matching, order)
  {
    hide MatchesAny, Precedes;
    var n, edge := |entries|, Constraints(entries, matching);
    if ValidOrder(n, edge, order) {
      forall i, j | 0 <= i < n && 0 <= j < n && edge(i, j) ensures Precedes(order, i, j) {
        ConstraintPrecedes(n, edge, order, i, j);
      }
      hide ValidOrder;
      forall i, j | 0 <= i < n && 0 <= j < n && i != j
        ensures Before(entries, matching, i, j) ==> Precedes(order, i, j)
      {
        assert edge(i, j) == Before(entries, matching, i, j);
      }
    }
    if InTiers(entries, matching, order) {
      forall x, y | 0 <= x < n && 0 <= y < n && edge(order[x], order[y]) ensures x < y {
        assert Precedes(order, order[x], order[y]);
        PrecedesMeans(order, x, y);
      }
    }
  }
}

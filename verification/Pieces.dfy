/** Sequences put together from pieces, and what is picked from them. */
module Pieces {

  function Flat<T>(pieces: seq<seq<T>>): seq<T> {
    if pieces == [] then [] else Flat(pieces[..|pieces| - 1]) + pieces[|pieces| - 1]
  }

  /** The values to keep, in order. */
  function Where<T>(values: seq<T>, keep: T -> bool): seq<T> {
    if values == [] then []
    else Where(values[..|values| - 1], keep) + if keep(values[|values| - 1]) then [values[|values| - 1]] else []
  }

  function Each<S, T>(values: seq<S>, f: S -> T): seq<T> {
    if values == [] then [] else Each(values[..|values| - 1], f) + [f(values[|values| - 1])]
  }

  /** Positions below `end`, in order. */
  ghost predicate Rising(at: seq<nat>, end: nat) {
    (forall k :: 0 <= k < |at| ==> at[k] < end) && (forall j, k :: 0 <= j < k < |at| ==> at[j] < at[k])
  }

  ghost predicate LastSetAt<T>(values: seq<T>, unset: T, value: T, i: nat) {
    && i < |values| && values[i] == value && (value == unset ==> i == 0)
    && forall j :: i < j < |values| ==> values[j] == unset
  }

  /** `value` is the last of the values that is set. */
  ghost predicate LastSet<T>(values: seq<T>, unset: T, value: T) {
    exists i: nat :: LastSetAt(values, unset, value, i)
  }

  lemma FlatMore<T>(pieces: seq<seq<T>>, last: seq<T>)
    ensures Flat(pieces + [last]) == Flat(pieces) + last
  {
    assert (pieces + [last])[..|pieces|] == pieces;
  }

  lemma {:induction false} FlatFirst<T>(first: seq<T>, pieces: seq<seq<T>>)
    ensures Flat([first] + pieces) == first + Flat(pieces)
  {
    if pieces == [] {
      assert [first] + pieces == [first] && [first][..0] == [];
      assert first + [] == first && [] + first == first;
    } else {
      var front, last := pieces[..|pieces| - 1], pieces[|pieces| - 1];
      FlatFirst(first, front);
      assert ([first] + pieces)[..|pieces|] == [first] + front;
      assert first + Flat(front) + last == first + (Flat(front) + last);
    }
  }

  lemma WhereMore<T>(values: seq<T>, last: T, keep: T -> bool)
    ensures Where(values + [last], keep) == Where(values, keep) + if keep(last) then [last] else []
  {
    assert (values + [last])[..|values|] == values;
  }

  lemma {:induction false} WhereJoin<T>(a: seq<T>, b: seq<T>, keep: T -> bool)
    ensures Where(a + b, keep) == Where(a, keep) + Where(b, keep)
  {
    if b == [] {
      assert a + b == a && Where(a, keep) + [] == Where(a, keep);
    } else {
      var front, last := b[..|b| - 1], b[|b| - 1];
      WhereJoin(a, front, keep);
      assert (a + b)[..|a + b| - 1] == a + front && (a + b)[|a + b| - 1] == last;
      var own := if keep(last) then [last] else [];
      assert Where(a, keep) + Where(front, keep) + own == Where(a, keep) + (Where(front, keep) + own);
    }
  }

  /** Values kept at the same places are kept alike. */
  lemma {:induction false} WhereAlike<T>(a: seq<T>, b: seq<T>, keep: T -> bool)
    requires |a| == |b|
    requires forall i :: 0 <= i < |a| ==> (keep(a[i]) <==> keep(b[i])) && (keep(a[i]) ==> a[i] == b[i])
    ensures Where(a, keep) == Where(b, keep)
  {
    if a != [] { WhereAlike(a[..|a| - 1], b[..|b| - 1], keep); }
  }

  lemma {:induction false} WhereAll<T>(values: seq<T>, keep: T -> bool)
    requires forall i :: 0 <= i < |values| ==> keep(values[i])
    ensures Where(values, keep) == values
  {
    if values != [] {
      WhereAll(values[..|values| - 1], keep);
      assert values == values[..|values| - 1] + [values[|values| - 1]];
    }
  }

  lemma {:induction false} WhereNone<T>(values: seq<T>, keep: T -> bool)
    requires forall i :: 0 <= i < |values| ==> !keep(values[i])
    ensures Where(values, keep) == []
  {
    if values != [] { WhereNone(values[..|values| - 1], keep); }
  }

  lemma {:induction false} LastSetThen<T>(values: seq<T>, last: T, unset: T, value: T)
    requires LastSet(values, unset, value)
    ensures LastSet(values + [last], unset, if last != unset then last else value)
  {
    var i: nat :| LastSetAt(values, unset, value, i);
    assert LastSetAt(values + [last], unset, if last != unset then last else value,
                     if last != unset then |values| else i);
  }

  lemma LastSetAlone<T>(value: T, unset: T)
    ensures LastSet([value], unset, value)
  {
    assert LastSetAt([value], unset, value, 0);
  }

  lemma EachMore<S, T>(values: seq<S>, last: S, f: S -> T)
    ensures Each(values + [last], f) == Each(values, f) + [f(last)]
  {
    assert (values + [last])[..|values|] == values;
  }
}

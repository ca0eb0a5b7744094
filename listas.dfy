/** The immutable array updates the pages apply to their lists: `map`
    replacing by id and `filter` dropping by id. `key` reads the `id` of an
    element; ids compare with `===`. */
module Listas {
  import opened Base

  /** `xs.map(x => key(x) === key(nuevo) ? nuevo : x)`. */
  function ReplaceByKey<R>(xs: seq<R>, key: R -> Option<int>, nuevo: R): (r: seq<R>)
    ensures |r| == |xs|
    ensures forall i :: 0 <= i < |xs| && key(xs[i]) == key(nuevo) ==> r[i] == nuevo
    ensures forall i :: 0 <= i < |xs| && key(xs[i]) != key(nuevo) ==> r[i] == xs[i]
  {
    if xs == [] then []
    else [if key(xs[0]) == key(nuevo) then nuevo else xs[0]] + ReplaceByKey(xs[1..], key, nuevo)
  }

  /** `xs.filter(x => key(x) !== k)`. */
  function RemoveByKey<R>(xs: seq<R>, key: R -> Option<int>, k: Option<int>): (r: seq<R>)
    ensures |r| <= |xs|
    ensures forall i :: 0 <= i < |r| ==> key(r[i]) != k
    ensures forall i :: 0 <= i < |r| ==> r[i] in xs
    ensures forall i :: 0 <= i < |xs| && key(xs[i]) != k ==> xs[i] in r
  {
    if xs == [] then []
    else (if key(xs[0]) == k then [] else [xs[0]]) + RemoveByKey(xs[1..], key, k)
  }

  /** No element carries the key `k`. */
  predicate Absent<R>(xs: seq<R>, key: R -> Option<int>, k: Option<int>) {
    forall i :: 0 <= i < |xs| ==> key(xs[i]) != k
  }

  /** Replacing by an id that is not in the list changes nothing. */
  lemma ReplaceAbsent<R>(xs: seq<R>, key: R -> Option<int>, nuevo: R)
    requires Absent(xs, key, key(nuevo))
    ensures ReplaceByKey(xs, key, nuevo) == xs
  {
    var r := ReplaceByKey(xs, key, nuevo);
    assert forall i :: 0 <= i < |xs| ==> r[i] == xs[i];
  }

  /** Replacing twice with the same element is replacing once. */
  lemma ReplaceIdempotent<R>(xs: seq<R>, key: R -> Option<int>, nuevo: R)
    ensures ReplaceByKey(ReplaceByKey(xs, key, nuevo), key, nuevo) == ReplaceByKey(xs, key, nuevo)
  {
    var r := ReplaceByKey(xs, key, nuevo);
    var rr := ReplaceByKey(r, key, nuevo);
    assert forall i :: 0 <= i < |xs| ==> rr[i] == r[i];
  }

  /** Removing an id that is not in the list changes nothing. */
  lemma {:induction false} RemoveAbsent<R>(xs: seq<R>, key: R -> Option<int>, k: Option<int>)
    requires Absent(xs, key, k)
    ensures RemoveByKey(xs, key, k) == xs
  {
    if xs != [] {
      assert Absent(xs[1..], key, k) by {
        forall i | 0 <= i < |xs[1..]| ensures key(xs[1..][i]) != k {
          assert xs[1..][i] == xs[i + 1];
        }
      }
      RemoveAbsent(xs[1..], key, k);
      assert key(xs[0]) != k;
      assert xs == [xs[0]] + xs[1..];
    }
  }

  /** Removal works piece by piece, so the survivors keep their relative order. */
  lemma {:induction false} RemoveConcat<R>(a: seq<R>, b: seq<R>, key: R -> Option<int>, k: Option<int>)
    ensures RemoveByKey(a + b, key, k) == RemoveByKey(a, key, k) + RemoveByKey(b, key, k)
  {
    if a == [] {
      assert a + b == b;
    } else {
      assert (a + b)[0] == a[0];
      assert (a + b)[1..] == a[1..] + b;
      RemoveConcat(a[1..], b, key, k);
    }
  }

  /** Removing after appending an element with another id keeps that element last. */
  lemma RemoveAfterAppend<R>(xs: seq<R>, x: R, key: R -> Option<int>, k: Option<int>)
    requires key(x) != k
    ensures RemoveByKey(xs + [x], key, k) == RemoveByKey(xs, key, k) + [x]
  {
    RemoveConcat(xs, [x], key, k);
  }
}

/**
 * The recursive object merge used to fold each phase's result into the
 * shared parameter map: the keys of `b` override those of `a`, except that
 * two objects under the same key are merged recursively. Arrays are objects
 * in JavaScript, so two arrays are merged index by index.
 */
module Helpers {
  import opened Values

  /** `merge(a, b)` on two plain objects. */
  function Merge(a: Params, b: Params): (r: Params)
    ensures r.Keys == a.Keys + b.Keys
    ensures forall k :: k in a && k !in b ==> r[k] == a[k]
    ensures forall k :: k in b && !(k in a && IsObject(a[k]) && IsObject(b[k])) ==> r[k] == b[k]
    ensures forall k :: k in a && k in b && IsObject(a[k]) && IsObject(b[k]) ==> r[k] == MergeValue(a[k], b[k])
    decreases Obj(b), 0
  {
    map k | k in a.Keys + b.Keys ::
      if k in b then
        (if k in a && IsObject(a[k]) && IsObject(b[k]) then MergeValue(a[k], b[k]) else b[k])
      else a[k]
  }

  /** `merge` applied to two values that are both objects. */
  function MergeValue(a: Value, b: Value): (r: Value)
    requires IsObject(a) && IsObject(b)
    ensures IsObject(r)
    decreases b, 1
  {
    match (a, b)
    case (Obj(x), Obj(y)) => Obj(Merge(x, y))
    case (List(x), List(y)) => List(MergeList(x, y))
    case _ => b
  }

  /** `merge` on two arrays: the indices of `y` override those of `x`. */
  function MergeList(x: seq<Value>, y: seq<Value>): (r: seq<Value>)
    ensures |r| == if |x| < |y| then |y| else |x|
    decreases List(y), 0
  {
    seq(if |x| < |y| then |y| else |x|, i requires 0 <= i < (if |x| < |y| then |y| else |x|) =>
      if i < |y| then
        (if i < |x| && IsObject(x[i]) && IsObject(y[i]) then MergeValue(x[i], y[i]) else y[i])
      else x[i])
  }

  /**
   * When no key holds an object on both sides, the merge is a plain
   * override: every key of `b` wins. This is the case for every phase
   * result folded in by the parser, whose values are scalars or arrays
   * under keys the map does not already hold as arrays.
   */
  lemma MergeIsOverrideWithoutSharedObjects(a: Params, b: Params)
    requires forall k :: k in a && k in b ==> !(IsObject(a[k]) && IsObject(b[k]))
    ensures Merge(a, b) == a + b
  {
  }

  /** Merging a map into an empty map copies it, and merging nothing changes nothing. */
  lemma MergeWithEmpty(a: Params)
    ensures Merge(a, map[]) == a
    ensures Merge(map[], a) == a
  {
  }

  /** Merging a map with itself gives the map back, however deeply nested. */
  lemma {:induction false} MergeIdempotent(a: Params)
    ensures Merge(a, a) == a
    decreases Obj(a), 0
  {
    forall k | k in a && IsObject(a[k])
      ensures MergeValue(a[k], a[k]) == a[k]
    {
      MergeValueIdempotent(a[k]);
    }
  }

  lemma {:induction false} MergeValueIdempotent(v: Value)
    requires IsObject(v)
    ensures MergeValue(v, v) == v
    decreases v, 1
  {
    match v
    case Obj(x) => MergeIdempotent(x);
    case List(x) => MergeListIdempotent(x);
  }

  lemma {:induction false} MergeListIdempotent(x: seq<Value>)
    ensures MergeList(x, x) == x
    decreases List(x), 0
  {
    forall i | 0 <= i < |x| && IsObject(x[i])
      ensures MergeValue(x[i], x[i]) == x[i]
    {
      MergeValueIdempotent(x[i]);
    }
  }
}

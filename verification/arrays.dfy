/**
 The two `Array.prototype` operations the parcel store relies on, on
 immutable sequences: `find` (first element satisfying a callback, or
 `undefined`) and `filter` (the elements satisfying it, in order).
 */
module Arrays {
  import opened Optional

  /** `findIndex`: the position of the first element satisfying `pred`. */
  function FindIndex<T>(s: seq<T>, pred: T -> bool): (r: Option<nat>)
    ensures r.Some? ==> r.value < |s| && pred(s[r.value])
    ensures r.Some? ==> forall j :: 0 <= j < r.value ==> !pred(s[j])
    ensures r.None? <==> forall j :: 0 <= j < |s| ==> !pred(s[j])
  {
    if |s| == 0 then None
    else if pred(s[0]) then Some(0)
    else match FindIndex(s[1..], pred)
      case None => None
      case Some(k) => Some(k + 1)
  }

  /** `find`: the first element satisfying `pred`, or nothing. */
  function Find<T>(s: seq<T>, pred: T -> bool): (r: Option<T>)
    ensures r.Some? ==> r.value in s && pred(r.value)
    ensures r.None? <==> forall x :: x in s ==> !pred(x)
  {
    match FindIndex(s, pred)
    case None => None
    case Some(i) => Some(s[i])
  }

  /** Among several matches, `find` returns the one that comes first. */
  lemma FindReturnsFirst<T>(s: seq<T>, pred: T -> bool, i: nat)
    requires i < |s| && pred(s[i])
    requires forall j :: 0 <= j < i ==> !pred(s[j])
    ensures Find(s, pred) == Some(s[i])
  {
  }

  /**
   `filter`: keeps exactly the elements satisfying `keep`, each as many
   times as it occurs, in their original order.
   */
  function Filter<T(==)>(s: seq<T>, keep: T -> bool): (r: seq<T>)
    ensures |r| <= |s|
    ensures multiset(r) <= multiset(s)
    ensures forall x :: x in multiset(s) ==> multiset(r)[x] == if keep(x) then multiset(s)[x] else 0
  {
    if |s| == 0 then []
    else
      assert s == [s[0]] + s[1..];
      (if keep(s[0]) then [s[0]] else []) + Filter(s[1..], keep)
  }

}

/**
 * The list operations every client-side store performs on its in-memory
 * records: `findIndex` by id, `splice` of the first match, and `filter`.
 * They are stated once here, generically over the record type and the
 * field that serves as its id.
 */
module RecordList {
  import opened Base

  /** `Array.prototype.findIndex(r => key(r) === k)`, with `None` for -1. */
  function FindIndex<T, K(==)>(s: seq<T>, key: T -> K, k: K): (r: Option<nat>)
    ensures r.Some? ==> r.value < |s| && key(s[r.value]) == k
    ensures r.Some? ==> forall j :: 0 <= j < r.value ==> key(s[j]) != k
    ensures r.None? <==> forall j :: 0 <= j < |s| ==> key(s[j]) != k
  {
    if |s| == 0 then None
    else if key(s[0]) == k then Some(0)
    else match FindIndex(s[1..], key, k)
      case None => None
      case Some(i) => Some(i + 1)
  }

  /**
   * `findIndex` followed by `splice(index, 1, x)` when the index is not -1:
   * the first record whose id is `x`'s id is replaced by `x`.
   */
  function ReplaceFirst<T, K(==)>(s: seq<T>, key: T -> K, x: T): (r: seq<T>)
    ensures |r| == |s|
    ensures (forall j :: 0 <= j < |s| ==> key(s[j]) != key(x)) ==> r == s
    ensures forall j :: 0 <= j < |s| && r[j] != s[j] ==>
      r[j] == x && key(s[j]) == key(x) && forall i :: 0 <= i < j ==> key(s[i]) != key(x)
    ensures (exists j :: 0 <= j < |s| && key(s[j]) == key(x)) ==> x in r
    ensures FindIndex(s, key, key(x)).Some? ==> r[FindIndex(s, key, key(x)).value] == x
  {
    match FindIndex(s, key, key(x))
    case None => s
    case Some(i) => s[i := x]
  }

  /** `Array.prototype.filter(p)`: the records satisfying `p`, in list order. */
  function Keep<T>(s: seq<T>, p: T -> bool): (r: seq<T>)
    ensures |r| <= |s|
    ensures forall j :: 0 <= j < |r| ==> p(r[j]) && r[j] in s
    ensures forall j :: 0 <= j < |s| && p(s[j]) ==> s[j] in r
  {
    if s == [] then []
    else (if p(s[0]) then [s[0]] else []) + Keep(s[1..], p)
  }

  /** Filtering a concatenation filters each part: the kept records stay in order. */
  lemma {:induction false} KeepAppend<T>(a: seq<T>, b: seq<T>, p: T -> bool)
    ensures Keep(a + b, p) == Keep(a, p) + Keep(b, p)
  {
    if a == [] {
      assert a + b == b;
    } else {
      assert (a + b)[1..] == a[1..] + b;
      KeepAppend(a[1..], b, p);
    }
  }

  /** A filter every record passes leaves the list exactly as it was. */
  lemma {:induction false} KeepAll<T>(s: seq<T>, p: T -> bool)
    requires forall j :: 0 <= j < |s| ==> p(s[j])
    ensures Keep(s, p) == s
  {
    if s != [] {
      KeepAll(s[1..], p);
    }
  }

  /** A filter and its complement split the list: their sizes add up to its size. */
  lemma {:induction false} KeepPartition<T>(s: seq<T>, p: T -> bool, q: T -> bool)
    requires forall j :: 0 <= j < |s| ==> q(s[j]) == !p(s[j])
    ensures |Keep(s, p)| + |Keep(s, q)| == |s|
  {
    if s != [] {
      KeepPartition(s[1..], p, q);
    }
  }

  /** `list.filter(r => key(r) !== id)`: every record with that id removed. */
  function RemoveId<T, K(==)>(s: seq<T>, key: T -> K, id: K): (r: seq<T>)
    ensures forall j :: 0 <= j < |r| ==> key(r[j]) != id && r[j] in s
    ensures forall j :: 0 <= j < |s| && key(s[j]) != id ==> s[j] in r
    ensures (forall j :: 0 <= j < |s| ==> key(s[j]) != id) ==> r == s
  {
    var p := (x: T) => key(x) != id;
    assert (forall j :: 0 <= j < |s| ==> key(s[j]) != id) ==> Keep(s, p) == s by {
      if forall j :: 0 <= j < |s| ==> key(s[j]) != id {
        KeepAll(s, p);
      }
    }
    Keep(s, p)
  }

  /** Removing an id from a concatenation removes it from each part, preserving order. */
  lemma RemoveIdAppend<T, K>(a: seq<T>, b: seq<T>, key: T -> K, id: K)
    ensures RemoveId(a + b, key, id) == RemoveId(a, key, id) + RemoveId(b, key, id)
  {
    KeepAppend(a, b, (x: T) => key(x) != id);
  }

  /** The size after removal is the size before minus the records carrying the id. */
  lemma RemoveIdSize<T, K>(s: seq<T>, key: T -> K, id: K)
    ensures |RemoveId(s, key, id)| + |Keep(s, (x: T) => key(x) == id)| == |s|
  {
    KeepPartition(s, (x: T) => key(x) != id, (x: T) => key(x) == id);
  }
}

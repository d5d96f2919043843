/** The list operations the generator is built from, stated over `seq`. */
module Seqs {
  import opened Wrappers

  /** `list.insert(k, x)`: `x` lands at index `k`, everything from `k` on
      moves up by one. */
  function Insert<T>(s: seq<T>, k: int, x: T): (r: seq<T>)
    requires 0 <= k <= |s|
    ensures |r| == |s| + 1
    ensures r[k] == x
    ensures forall i :: 0 <= i < k ==> r[i] == s[i]
    ensures forall i :: k < i < |r| ==> r[i] == s[i - 1]
    ensures multiset(r) == multiset(s) + multiset{x}
  {
    assert s == s[..k] + s[k..];
    s[..k] + [x] + s[k..]
  }

  /** The sequence with the element at index `k` taken out. */
  function RemoveAt<T>(s: seq<T>, k: int): (r: seq<T>)
    requires 0 <= k < |s|
    ensures |r| == |s| - 1
  {
    s[..k] + s[k + 1..]
  }

  /** Inserting and then removing at the same index gives back the original:
      insertion keeps the other elements in their relative order. */
  lemma InsertThenRemove<T>(s: seq<T>, k: int, x: T)
    requires 0 <= k <= |s|
    ensures RemoveAt(Insert(s, k, x), k) == s
  {
    var r := RemoveAt(Insert(s, k, x), k);
    assert forall i :: 0 <= i < |s| ==> r[i] == s[i];
  }

  /** Python's `s[i]`: a negative index counts from the end, and an index
      outside -|s|..|s|-1 raises `IndexError`, here `None`. */
  function PyIndex<T>(s: seq<T>, i: int): (r: Option<T>)
    ensures r.Some? <==> -|s| <= i < |s|
    ensures 0 <= i < |s| ==> r == Some(s[i])
    ensures -|s| <= i < 0 ==> r == Some(s[|s| + i])
  {
    if 0 <= i < |s| then Some(s[i])
    else if -|s| <= i < 0 then Some(s[|s| + i])
    else None
  }
}

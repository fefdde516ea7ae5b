/** `Array.prototype.splice(start, deleteCount)` without inserted items, as
    section 15.4.4.12 of ECMA-262 (5.1 edition) defines it, on sequences. */
module JsArray {

  /** Where the removal begins: a negative `start` counts back from the end,
      and the result is clamped to `[0, len]`. */
  function ActualStart(start: int, len: nat): (k: nat)
    ensures k <= len
    ensures 0 <= start <= len ==> k == start
    ensures start > len ==> k == len
    ensures 0 <= len + start && start < 0 ==> k == len + start
    ensures len + start < 0 ==> k == 0
  {
    if start < 0 then (if len + start < 0 then 0 else len + start)
    else if start < len then start else len
  }

  /** How many elements are removed: `deleteCount` clamped to `[0, len - k]`. */
  function ActualDeleteCount(start: int, deleteCount: int, len: nat): (d: nat)
    ensures ActualStart(start, len) + d <= len
    ensures deleteCount <= 0 ==> d == 0
    ensures 0 <= deleteCount && ActualStart(start, len) + deleteCount <= len ==> d == deleteCount
    ensures ActualStart(start, len) + deleteCount > len ==> d == len - ActualStart(start, len)
  {
    var k := ActualStart(start, len);
    if deleteCount < 0 then 0
    else if k + deleteCount <= len then deleteCount
    else len - k
  }

  /** `a.splice(start, deleteCount)`: the removed elements, and what is left
      in `a` afterwards. */
  function Splice<T>(a: seq<T>, start: int, deleteCount: int): (r: (seq<T>, seq<T>))
    ensures |r.0| == ActualDeleteCount(start, deleteCount, |a|)
    ensures |r.0| + |r.1| == |a|
  {
    var k := ActualStart(start, |a|);
    var d := ActualDeleteCount(start, deleteCount, |a|);
    (a[k..k + d], a[..k] + a[k + d..])
  }

  /** `a.splice(k, 0, ...items)` for `0 <= k <= |a|`: insert `items` at `k`. */
  function Insert<T>(a: seq<T>, k: nat, items: seq<T>): (r: seq<T>)
    requires k <= |a|
    ensures |r| == |a| + |items|
    ensures r[..k] == a[..k] && r[k..k + |items|] == items && r[k + |items|..] == a[k..]
  {
    a[..k] + items + a[k..]
  }

  /** Putting the removed elements back where they came from restores the
      list: splice with deletion and splice with insertion are inverses. */
  lemma SpliceRoundTrip<T>(a: seq<T>, start: int, deleteCount: int)
    ensures var r := Splice(a, start, deleteCount);
            Insert(r.1, ActualStart(start, |a|), r.0) == a
  {
    var k, d := ActualStart(start, |a|), ActualDeleteCount(start, deleteCount, |a|);
    var r := Splice(a, start, deleteCount);
    assert r.1[..k] == a[..k];
    assert r.1[k..] == a[k + d..];
    assert a[..k] + a[k..k + d] + a[k + d..] == a;
  }

  /** Splicing only splits the list: removed and left-over elements together
      are the original elements, each as often as before. */
  lemma SplicePermutes<T>(a: seq<T>, start: int, deleteCount: int)
    ensures var r := Splice(a, start, deleteCount);
            multiset(r.0) + multiset(r.1) == multiset(a)
  {
    var k, d := ActualStart(start, |a|), ActualDeleteCount(start, deleteCount, |a|);
    assert a == a[..k] + a[k..k + d] + a[k + d..];
  }
}

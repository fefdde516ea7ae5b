/** The visible window of `_getStage`: which page nodes stay shown around the
    current page when memory optimisation is on, and which are hidden. */
module Stage {
  import opened JsArray

  /** Pages before the current one, the current one, pages after it. */
  function VisibleCount(padding: int): int
  {
    padding + 1 + padding
  }

  function Max(a: int, b: int): int { if a < b then b else a }
  function Min(a: int, b: int): int { if a < b then a else b }

  /** No element occurs twice in `s`: the page nodes of a NodeList. */
  ghost predicate Distinct<T>(s: seq<T>)
  {
    forall i, j :: 0 <= i < j < |s| ==> s[i] != s[j]
  }

  /** Reference definition of the window's first page: `padding` pages before
      `index`, not before 0, then pulled back so that the window ends at the
      last page. The pull-back is not clamped at 0. */
  function WindowStart(index: int, padding: int, pageCount: int): (s: int)
    ensures s <= Max(index - padding, 0)
    ensures Max(index - padding, 0) + VisibleCount(padding) <= pageCount ==> s == Max(index - padding, 0)
    ensures Max(index - padding, 0) + VisibleCount(padding) > pageCount ==> s + VisibleCount(padding) == pageCount
    ensures pageCount < VisibleCount(padding) ==> s < 0
  {
    Min(Max(index - padding, 0), pageCount - VisibleCount(padding))
  }

  /** The (visible, hidden) split of the page list that `_getStage` returns. */
  function Stage<T>(index: int, padding: int, pages: seq<T>): (st: (seq<T>, seq<T>))
    ensures |st.0| + |st.1| == |pages|
    ensures 0 <= padding && VisibleCount(padding) <= |pages| ==> |st.0| == VisibleCount(padding)
    ensures |pages| < VisibleCount(padding) ==> |st.0| == |pages| - Max(2 * |pages| - VisibleCount(padding), 0)
  {
    Splice(pages, WindowStart(index, padding, |pages|), VisibleCount(padding))
  }

  /** `_getStage(index)` over the page list `pageNodes`, whose length is the
      page count: it reassigns `start` and splices the list in place, the
      removed run being the visible pages and the rest the hidden ones. */
  method GetStage<T>(index: int, padding: int, pageNodes: seq<T>) returns (visible: seq<T>, hidden: seq<T>)
    ensures (visible, hidden) == Stage(index, padding, pageNodes)
  {
    var visibleCount := padding + 1 + padding;
    var pageCount := |pageNodes|;
    var start := if index - padding < 0 then 0 else index - padding;
    if start + visibleCount > pageCount {
      start := start - (start + visibleCount - pageCount);
    }
    var list := pageNodes;
    var spliced := Splice(list, start, visibleCount);
    visible, list := spliced.0, spliced.1;
    hidden := list;
  }

  /** With at least one full window of pages and an index in range, the window
      lies inside the list, is exactly `2*padding + 1` pages long, contains the
      current page, and everything else is hidden in its original order. */
  lemma StageWindow<T>(index: int, padding: int, pages: seq<T>)
    requires 0 <= padding && VisibleCount(padding) <= |pages|
    requires 0 <= index < |pages|
    ensures var s, w := WindowStart(index, padding, |pages|), VisibleCount(padding);
            && 0 <= s <= |pages| - w
            && s <= index < s + w
            && Stage(index, padding, pages).0 == pages[s..s + w]
            && Stage(index, padding, pages).1 == pages[..s] + pages[s + w..]
            && pages[index] in Stage(index, padding, pages).0
  {
  }

  /** Visible and hidden always split the page list: together they hold every
      page exactly as often as the list does; when the pages are distinct
      nodes, no page is both visible and hidden and every page is one of them. */
  lemma StagePartition<T>(index: int, padding: int, pages: seq<T>)
    ensures var st := Stage(index, padding, pages);
            multiset(st.0) + multiset(st.1) == multiset(pages)
    ensures Distinct(pages) ==>
            var st := Stage(index, padding, pages);
            && (forall x :: x in st.0 ==> x !in st.1)
            && (forall x :: x in pages <==> x in st.0 || x in st.1)
  {
    var s, w := WindowStart(index, padding, |pages|), VisibleCount(padding);
    var k, d := ActualStart(s, |pages|), ActualDeleteCount(s, w, |pages|);
    var st := Stage(index, padding, pages);
    SplicePermutes(pages, s, w);
    if Distinct(pages) {
      DistinctRunDisjoint(pages, k, k + d);
      forall x ensures x in pages <==> x in st.0 || x in st.1 {
        assert x in pages <==> x in multiset(pages);
      }
    }
  }

  /** In a list of distinct elements, nothing in the run `a[k..e]` occurs in
      the rest of the list. */
  lemma DistinctRunDisjoint<T>(a: seq<T>, k: nat, e: nat)
    requires k <= e <= |a|
    requires Distinct(a)
    ensures forall x :: x in a[k..e] ==> x !in a[..k] + a[e..]
  {
  }

  /** The pages numbered `0..n-1`. */
  function PageNumbers(n: nat): seq<int>
  {
    seq(n, i => i)
  }

  /** With pages numbered `0..n-1`, the visible pages are exactly the numbers
      in `[start, start + 2*padding + 1)` and the hidden ones exactly the rest. */
  lemma StageOfPageNumbers(index: int, padding: int, n: nat)
    requires 0 <= padding && VisibleCount(padding) <= n
    requires 0 <= index < n
    ensures var s, w := WindowStart(index, padding, n), VisibleCount(padding);
            var st := Stage(index, padding, PageNumbers(n));
            && (forall j :: j in st.0 <==> s <= j < s + w)
            && (forall j :: j in st.1 <==> 0 <= j < n && !(s <= j < s + w))
  {
    var s, w := WindowStart(index, padding, n), VisibleCount(padding);
    var pages := PageNumbers(n);
    var st := Stage(index, padding, pages);
    StageWindow(index, padding, pages);
    forall j ensures j in st.0 <==> s <= j < s + w {
      if s <= j < s + w {
        assert pages[s..s + w][j - s] == j;
      }
    }
    forall j ensures j in st.1 <==> 0 <= j < n && !(s <= j < s + w) {
      if 0 <= j < s {
        assert pages[..s][j] == j;
      } else if s + w <= j < n {
        assert pages[j] == j && pages[s + w..][j - s - w] == pages[j];
      }
      if j in st.1 {
        if j in pages[..s] {
          var i :| 0 <= i < s && pages[..s][i] == j;
        } else {
          var i :| 0 <= i < n - (s + w) && pages[s + w..][i] == j;
        }
      }
    }
  }

  /** With fewer pages than a window, the overflow shift makes `start`
      negative, and splice then counts it from the end: only the last
      `n - max(2n - w, 0)` pages stay visible and the first `max(2n - w, 0)`
      are hidden, whatever the index. */
  lemma StageShortList<T>(index: int, padding: int, pages: seq<T>)
    requires |pages| < VisibleCount(padding)
    ensures var n, w := |pages|, VisibleCount(padding);
            var k := Max(2 * n - w, 0);
            && WindowStart(index, padding, n) < 0
            && Stage(index, padding, pages).0 == pages[k..]
            && Stage(index, padding, pages).1 == pages[..k]
  {
  }

  /** Two pages and padding 1: the current page 0 is the one that is hidden. */
  lemma StageHidesCurrentPage<T>(a: T, b: T)
    ensures Stage(0, 1, [a, b]) == ([b], [a])
  {
    StageShortList(0, 1, [a, b]);
    assert [a, b][1..] == [b] && [a, b][..1] == [a];
  }

  /** Five pages and padding 1: index 2 shows pages 1 to 3; index 4 pulls
      the window back to pages 2 to 4. */
  lemma StageExamples()
    ensures Stage(2, 1, PageNumbers(5)) == ([1, 2, 3], [0, 4])
    ensures Stage(4, 1, PageNumbers(5)) == ([2, 3, 4], [0, 1])
  {
    var p := PageNumbers(5);
    assert p == [0, 1, 2, 3, 4];
    StageWindow(2, 1, p);
    StageWindow(4, 1, p);
    assert p[1..4] == [1, 2, 3] && p[..1] + p[4..] == [0, 4];
    assert p[2..5] == [2, 3, 4] && p[..2] + p[5..] == [0, 1];
  }
}

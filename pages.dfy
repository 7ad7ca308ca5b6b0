/**
 * Paginated listings. A paginator yields pages one after another and every
 * page holds items in the provider's order; draining it page by page, item by
 * item, visits the items of `Flatten(pages)` in order.
 */
module Pages {

  /** The items of all pages, page order first, then order within the page. */
  function Flatten<T>(pages: seq<seq<T>>): (items: seq<T>)
    ensures |items| == TotalSize(pages)
  {
    if pages == [] then []
    else Flatten(pages[..|pages| - 1]) + pages[|pages| - 1]
  }

  /** The number of items over all pages. */
  function TotalSize<T>(pages: seq<seq<T>>): nat
  {
    if pages == [] then 0
    else TotalSize(pages[..|pages| - 1]) + |pages[|pages| - 1]|
  }

  /** Draining two runs of pages one after the other visits the items of both in order. */
  lemma {:induction false} FlattenAppend<T>(a: seq<seq<T>>, b: seq<seq<T>>)
    ensures Flatten(a + b) == Flatten(a) + Flatten(b)
    decreases |b|
  {
    if b == [] {
      assert a + b == a;
    } else {
      var b' := b[..|b| - 1];
      assert (a + b)[..|a + b| - 1] == a + b';
      assert (a + b)[|a + b| - 1] == b[|b| - 1];
      FlattenAppend(a, b');
    }
  }

  /**
   * Item `j` of page `i` is visited after every item of the earlier pages and
   * the `j` items before it on its own page.
   */
  lemma {:induction false} FlattenAt<T>(pages: seq<seq<T>>, i: nat, j: nat)
    requires i < |pages| && j < |pages[i]|
    ensures TotalSize(pages[..i]) + j < |Flatten(pages)|
    ensures Flatten(pages)[TotalSize(pages[..i]) + j] == pages[i][j]
  {
    assert pages == pages[..i] + ([pages[i]] + pages[i + 1..]);
    FlattenAppend(pages[..i], [pages[i]] + pages[i + 1..]);
    FlattenAppend([pages[i]], pages[i + 1..]);
    assert Flatten([pages[i]]) == pages[i] by {
      assert [pages[i]][..0] == [];
    }
  }

  lemma AppendAssoc<T>(a: seq<T>, b: seq<T>, c: seq<T>)
    ensures (a + b) + c == a + (b + c)
  {
  }

  lemma SliceMiddle<T>(a: seq<T>, b: seq<T>, c: seq<T>)
    ensures |a| + |b| <= |a + (b + c)|
    ensures (a + (b + c))[|a|..|a| + |b|] == b
  {
    assert (a + (b + c))[|a|..] == b + c;
  }
}

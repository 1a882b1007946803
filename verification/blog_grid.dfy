// Pagination of the blog index: the page count, the clamped current page,
// the visible slice, and the Prev/Next updates.

module BlogGrid {
  import opened Lists

  /** The page sizes the grid switches between: six from 768 pixels wide,
      three below. */
  const WidePageSize := 6
  const NarrowPageSize := 3

  /** `Math.ceil(n / size)` for whole numbers. */
  function CeilDiv(n: nat, size: nat): (r: nat)
    requires size > 0
    ensures r * size >= n
    ensures r > 0 ==> (r - 1) * size < n
  {
    var q := (n + size - 1) / size;
    CeilDivBounds(n, size, q);
    q
  }

  lemma CeilDivBounds(n: nat, size: nat, q: nat)
    requires size > 0 && q == (n + size - 1) / size
    ensures q * size >= n
    ensures q > 0 ==> (q - 1) * size < n
  {
    var m := (n + size - 1) % size;
    assert n + size - 1 == q * size + m;
    assert (q - 1) * size == q * size - size;
  }

  /** `totalPages`: at least one page, and just enough pages of `size`
      posts to hold them all. */
  function TotalPages(count: nat, size: nat): (r: nat)
    requires size > 0
    ensures r >= 1
    ensures r * size >= count
    ensures r > 1 ==> (r - 1) * size < count
    ensures count <= size ==> r == 1
  {
    var c := CeilDiv(count, size);
    if c <= 1 then 1
    else
      MulMono(1, c - 1, size);
      c
  }

  /** `clampedPage`: the requested page, or the last page when the
      request is beyond it (after a resize to a larger page size). */
  function ClampedPage(page: int, total: nat): (r: int)
    requires total >= 1
    ensures r < total && r <= page
    ensures page >= 0 ==> r >= 0
    ensures page < total ==> r == page
  {
    if page < total - 1 then page else total - 1
  }

  /** `visible`: the posts of the clamped page. */
  function Visible<T>(posts: seq<T>, page: int, size: nat): (r: seq<T>)
    requires size > 0
  {
    var start := ClampedPage(page, TotalPages(|posts|, size)) * size;
    Slice(posts, start, start + size)
  }

  /** A page never holds more than `size` posts, shows a contiguous run of
      the posts, and is non-empty whenever there are posts. */
  lemma VisibleBounds<T>(posts: seq<T>, page: int, size: nat)
    requires size > 0 && page >= 0
    ensures |Visible(posts, page, size)| <= size
    ensures posts != [] ==> Visible(posts, page, size) != []
    ensures var start := ClampedPage(page, TotalPages(|posts|, size)) * size;
      forall i | 0 <= i < |Visible(posts, page, size)| ::
        start + i < |posts| && Visible(posts, page, size)[i] == posts[start + i]
  {
    var total := TotalPages(|posts|, size);
    var p := ClampedPage(page, total);
    if posts != [] {
      LastPageStartsInside(|posts|, size, total, p);
    }
  }

  /** Every page up to the last starts before the end of the posts. */
  lemma LastPageStartsInside(count: nat, size: nat, total: nat, p: nat)
    requires size > 0 && count > 0 && total == TotalPages(count, size) && p < total
    ensures p * size < count
  {
    if total > 1 {
      MulMono(p, total - 1, size);
    }
  }

  lemma MulMono(a: nat, b: nat, c: nat)
    requires a <= b
    ensures a * c <= b * c
  {
    assert b * c == a * c + (b - a) * c;
  }

  /** The Prev button: one page back, never below the first page. */
  function Prev(current: int): (r: int)
    ensures r >= 0
    ensures current >= 1 ==> r == current - 1
    ensures current <= 0 ==> r == 0
  {
    if current - 1 < 0 then 0 else current - 1
  }

  /** The Next button: one page on, never beyond the last page. */
  function Next(current: int, total: nat): (r: int)
    requires total >= 1
    ensures r <= total - 1
    ensures current < total - 1 ==> r == current + 1
    ensures current >= total - 1 ==> r == total - 1
  {
    if total - 1 < current + 1 then total - 1 else current + 1
  }

  /** Prev as evidently intended: one page back from the page shown,
      `setPage((current) => Math.max(0, Math.min(current, totalPages - 1) - 1))`. */
  function PrevShown(current: int, total: nat): (r: int)
    requires total >= 1
    ensures 0 <= r < total
  {
    Prev(ClampedPage(current, total))
  }

  /** The page state holds any page at or above 0: Next caps it at the last
      page of its own render, but the page size can grow (the window is
      resized) and leave it past the end. From any such page Next lands on
      an existing page and moves the shown page one on, or keeps it on the
      last; the corrected Prev moves the shown page one back, or keeps it
      on the first. */
  lemma PressesStayInRange(current: int, total: nat)
    requires total >= 1 && current >= 0
    ensures 0 <= Next(current, total) < total
    ensures var shown := ClampedPage(current, total);
      ClampedPage(Next(current, total), total) == if shown < total - 1 then shown + 1 else total - 1
    ensures var shown := ClampedPage(current, total);
      ClampedPage(PrevShown(current, total), total) == if shown > 0 then shown - 1 else 0
  {
  }

  /** As written, Prev from a page past the end leaves the shown page where
      it was: the button is enabled but the first press does nothing. */
  lemma PrevPastEndStalls(current: int, total: nat)
    requires total >= 1 && current >= total
    ensures ClampedPage(Prev(current), total) == ClampedPage(current, total)
    ensures total > 1 ==> !PrevDisabled(ClampedPage(current, total))
  {
  }

  /** The case that shows it: 15 posts at 3 a page, Next pressed up to the
      fifth page (index 4), then the window widens to 6 a page. Three pages
      remain, the third is shown, and Prev keeps showing the third. */
  lemma PrevStallsAfterResize()
    ensures TotalPages(15, 3) == 5 && Next(3, 5) == 4
    ensures TotalPages(15, 6) == 3 && ClampedPage(4, 3) == 2
    ensures ClampedPage(Prev(4), 3) == 2
    ensures ClampedPage(PrevShown(4, 3), 3) == 1
  {
  }

  /** The Prev button is disabled on the first page and Next on the last. */
  predicate PrevDisabled(clamped: int) {
    clamped == 0
  }

  predicate NextDisabled(clamped: int, total: nat) {
    clamped >= total - 1
  }

  /** The pagination controls are rendered only when there is more than
      one page. */
  predicate ControlsShown(total: nat) {
    total > 1
  }

  /** With controls shown, no page has both buttons disabled. */
  lemma SomeButtonEnabled(page: int, total: nat)
    requires ControlsShown(total) && page >= 0
    ensures !PrevDisabled(ClampedPage(page, total)) || !NextDisabled(ClampedPage(page, total), total)
  {
  }

  /** The controls show exactly when the posts do not fit on one page. */
  lemma ControlsShownIff(count: nat, size: nat)
    requires size > 0
    ensures ControlsShown(TotalPages(count, size)) <==> count > size
  {
  }

  /** The first `k` pages, one after another. */
  function PagesUpTo<T>(posts: seq<T>, size: nat, k: nat): seq<T>
    requires size > 0
  {
    if k == 0 then [] else PagesUpTo(posts, size, k - 1) + Visible(posts, k - 1, size)
  }

  /** Page `p` is the run of posts from `p * size`, `size` long or up to
      the end. */
  lemma VisiblePage<T>(posts: seq<T>, size: nat, p: nat)
    requires size > 0 && p < TotalPages(|posts|, size)
    ensures p * size <= |posts|
    ensures (p + 1) * size <= |posts| ==> Visible(posts, p, size) == posts[p * size..(p + 1) * size]
    ensures (p + 1) * size > |posts| ==> Visible(posts, p, size) == posts[p * size..]
  {
    var total := TotalPages(|posts|, size);
    assert ClampedPage(p, total) == p;
    assert (p + 1) * size == p * size + size;
    if |posts| > 0 {
      LastPageStartsInside(|posts|, size, total, p);
    }
  }

  /** The first `k` pages are the first `k * size` posts, or all of them. */
  lemma {:induction false} PagesUpToPrefix<T>(posts: seq<T>, size: nat, k: nat)
    requires size > 0 && k <= TotalPages(|posts|, size)
    ensures PagesUpTo(posts, size, k) == posts[..Upto(k * size, |posts|)]
  {
    if k > 0 {
      var a, b := (k - 1) * size, k * size;
      assert b == a + size;
      PagesUpToPrefix(posts, size, k - 1);
      VisiblePage(posts, size, k - 1);
      PrefixStep(posts, PagesUpTo(posts, size, k - 1), Visible(posts, k - 1, size), a, b);
    }
  }

  /** `min(n, len)`. */
  function Upto(n: nat, len: nat): (r: nat)
    ensures r <= len
  {
    if n <= len then n else len
  }

  lemma PrefixStep<T>(posts: seq<T>, prev: seq<T>, page: seq<T>, a: nat, b: nat)
    requires a <= |posts| && a <= b
    requires prev == posts[..a]
    requires b <= |posts| ==> page == posts[a..b]
    requires b > |posts| ==> page == posts[a..]
    ensures prev + page == posts[..Upto(b, |posts|)]
  {
    if b <= |posts| {
      assert posts[..b] == posts[..a] + posts[a..b];
    } else {
      assert posts == posts[..a] + posts[a..];
    }
  }

  /** Paging through every page shows every post exactly once, in order. */
  lemma PagesCoverPosts<T>(posts: seq<T>, size: nat)
    requires size > 0
    ensures PagesUpTo(posts, size, TotalPages(|posts|, size)) == posts
  {
    var total := TotalPages(|posts|, size);
    PagesUpToPrefix(posts, size, total);
    assert posts[..|posts|] == posts;
  }
}

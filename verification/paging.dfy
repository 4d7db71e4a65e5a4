/** The offset pagination shared by every paged thunk: `startIndex = (page - 1) * limit`,
    `endIndex = startIndex + limit`, `slice(startIndex, endIndex)`, and for the feeds the
    `hasNextPage` / `nextCursor` pair. */
module Paging {
  import opened Results
  import opened Text

  function Min(a: int, b: int): int {
    if a <= b then a else b
  }

  /** How `Array.prototype.slice` resolves an integer argument against the length `n`:
      a negative index counts back from the end, and the result is clamped to `[0, n]`. */
  function ResolveIndex(i: int, n: nat): (k: nat)
    ensures k <= n
  {
    if i < 0 then (if n + i < 0 then 0 else n + i)
    else if i > n then n
    else i
  }

  /** `r` is a run of consecutive elements of `s`. */
  ghost predicate IsWindow<T>(r: seq<T>, s: seq<T>) {
    exists a :: WindowAt(r, s, a)
  }

  /** `r` is the run of `|r|` elements of `s` starting at offset `a`. */
  ghost predicate WindowAt<T>(r: seq<T>, s: seq<T>, a: int) {
    0 <= a <= |s| - |r| && r == s[a..a + |r|]
  }

  /** `Array.prototype.slice(start, end)` with JavaScript's treatment of negative and
      out-of-range arguments. */
  function JsSlice<T>(s: seq<T>, start: int, end: int): (r: seq<T>)
    ensures 0 <= start <= end ==> r == s[Min(start, |s|)..Min(end, |s|)]
    ensures start <= end && end <= 0 ==> |r| <= end - start
    ensures IsWindow(r, s)
  {
    var a := ResolveIndex(start, |s|);
    var b := ResolveIndex(end, |s|);
    var r := if a < b then s[a..b] else [];
    assert WindowAt(r, s, a);
    r
  }

  /** The `{ page = 1, limit = N }` argument object; None is an omitted field, which
      takes the default. */
  datatype PageArgs = PageArgs(page: Option<int>, limit: Option<int>) {

    function Page(): int {
      page.GetOr(1)
    }

    function Limit(defaultLimit: int): int {
      limit.GetOr(defaultLimit)
    }

    function StartIndex(defaultLimit: int): int {
      (Page() - 1) * Limit(defaultLimit)
    }

    function EndIndex(defaultLimit: int): int {
      StartIndex(defaultLimit) + Limit(defaultLimit)
    }
  }

  /** `slice(startIndex, startIndex + limit)`. For a non-negative start and limit it is
      exactly the elements at offsets `[start, start + limit)` that exist, and for any
      start a non-negative limit bounds its length. */
  function Window<T>(s: seq<T>, start: int, limit: int): (r: seq<T>)
    requires limit >= 0 && start < 0 ==> start + limit <= 0
    ensures limit >= 0 ==> |r| <= limit
    ensures start >= 0 && limit >= 0 ==> r == s[Min(start, |s|)..Min(start + limit, |s|)]
    ensures IsWindow(r, s)
  {
    JsSlice(s, start, start + limit)
  }

  /** The page of `s` the arguments select: a window of at most `limit` consecutive
      elements, which for a page of at least one starts at offset `(page - 1) * limit`. */
  function Page<T>(s: seq<T>, args: PageArgs, defaultLimit: int): (r: seq<T>)
    ensures args.Limit(defaultLimit) >= 0 ==> |r| <= args.Limit(defaultLimit)
    ensures args.Page() >= 1 && args.Limit(defaultLimit) >= 0 ==>
      && args.StartIndex(defaultLimit) >= 0
      && r == s[Min(args.StartIndex(defaultLimit), |s|)..Min(args.EndIndex(defaultLimit), |s|)]
    ensures IsWindow(r, s)
  {
    var limit := args.Limit(defaultLimit);
    var start := args.StartIndex(defaultLimit);
    IndexSigns(args.Page(), limit);
    Window(s, start, limit)
  }

  /** Sign facts about `(page - 1) * limit` that the window bounds rest on. */
  lemma IndexSigns(page: int, limit: int)
    ensures limit >= 0 && page >= 1 ==> (page - 1) * limit >= 0
    ensures limit >= 0 && page < 1 ==> (page - 1) * limit + limit <= 0
  {
    if limit >= 0 && page < 1 {
      assert (page - 1) * limit + limit == page * limit;
      assert page * limit <= 0;
    }
  }

  /** The `pagination` part of a feed payload. */
  datatype PageInfo = PageInfo(hasNextPage: bool, nextCursor: Option<string>)

  /** `hasNextPage: endIndex < length`, `nextCursor: endIndex.toString()` or null. The
      cursor is present exactly when there is a next page, and it reads back as the
      offset at which that page starts. */
  function NextPage(n: nat, args: PageArgs, defaultLimit: int): (r: PageInfo)
    ensures r.hasNextPage <==> args.EndIndex(defaultLimit) < n
    ensures r.nextCursor.Some? <==> r.hasNextPage
    ensures r.nextCursor.Some? ==> ParseInt(r.nextCursor.value) == Some(args.EndIndex(defaultLimit))
  {
    var end := args.EndIndex(defaultLimit);
    if end < n then
      ParseIntToString(end);
      PageInfo(true, Some(IntToString(end)))
    else PageInfo(false, None)
  }

  /** Pages 1 through k, one after the other. */
  function PagesUpTo<T>(s: seq<T>, k: nat, limit: nat): seq<T> {
    if k == 0 then [] else PagesUpTo(s, k - 1, limit) + Page(s, PageArgs(Some(k), Some(limit)), limit)
  }

  /** The pages a thunk returns for page numbers 1 through k, one after the other. */
  function Concat<T>(pageAt: nat -> seq<T>, k: nat): seq<T> {
    if k == 0 then [] else Concat(pageAt, k - 1) + pageAt(k)
  }

  /** A thunk whose page j is page j of `s`, read from page 1 through page k, yields
      pages 1..k of `s`. */
  lemma {:induction false} ConcatPages<T>(pageAt: nat -> seq<T>, s: seq<T>, k: nat, limit: nat)
    requires forall j :: 1 <= j <= k ==> pageAt(j) == Page(s, PageArgs(Some(j), Some(limit)), limit)
    ensures Concat(pageAt, k) == PagesUpTo(s, k, limit)
  {
    if k > 0 {
      ConcatPages(pageAt, s, k - 1, limit);
    }
  }

  /** Such a thunk, read until its pages span `s`, yields all of `s`, in order. */
  lemma ConcatCovers<T>(pageAt: nat -> seq<T>, s: seq<T>, k: nat, limit: nat)
    requires forall j :: 1 <= j <= k ==> pageAt(j) == Page(s, PageArgs(Some(j), Some(limit)), limit)
    requires k * limit >= |s|
    ensures Concat(pageAt, k) == s
  {
    ConcatPages(pageAt, s, k, limit);
    PagesCoverPrefix(s, k, limit);
    assert s[..|s|] == s;
  }

  /** Walking the pages in order loses and repeats nothing: pages 1..k together are the
      first `k * limit` elements (or all of them). */
  lemma {:induction false} PagesCoverPrefix<T>(s: seq<T>, k: nat, limit: nat)
    ensures k * limit >= 0 && PagesUpTo(s, k, limit) == s[..Min(k * limit, |s|)]
  {
    if k > 0 {
      var n, a, b := |s|, (k - 1) * limit, k * limit;
      MulStep(k, limit);
      var args := PageArgs(Some(k), Some(limit));
      assert PagesUpTo(s, k - 1, limit) == s[..Min(a, n)] by {
        PagesCoverPrefix(s, k - 1, limit);
      }
      assert Page(s, args, limit) == s[Min(a, n)..Min(b, n)] by {
        assert args.StartIndex(limit) == a && args.EndIndex(limit) == b;
      }
      PrefixSplit(s, Min(a, n), Min(b, n));
    }
  }

  lemma MulStep(k: nat, limit: nat)
    requires k >= 1
    ensures (k - 1) * limit >= 0 && k * limit == (k - 1) * limit + limit
  {
  }

  lemma PrefixSplit<T>(s: seq<T>, i: int, j: int)
    requires 0 <= i <= j <= |s|
    ensures s[..i] + s[i..j] == s[..j]
  {
  }

  /** When the last page has been reached nothing is left after it; while a next page
      exists, the current one is full. */
  lemma LastPageReachesEnd<T>(s: seq<T>, args: PageArgs, defaultLimit: int)
    requires args.Page() >= 1 && args.Limit(defaultLimit) >= 0
    ensures !NextPage(|s|, args, defaultLimit).hasNextPage ==>
      args.StartIndex(defaultLimit) + |Page(s, args, defaultLimit)| >= |s|
    ensures NextPage(|s|, args, defaultLimit).hasNextPage ==>
      |Page(s, args, defaultLimit)| == args.Limit(defaultLimit)
  {
    IndexSigns(args.Page(), args.Limit(defaultLimit));
  }

  /** Everything on a page comes from the paged sequence. */
  lemma WindowMembers<T>(r: seq<T>, s: seq<T>)
    requires IsWindow(r, s)
    ensures forall x :: x in r ==> x in s
  {
    var a :| WindowAt(r, s, a);
    forall x | x in r ensures x in s {
      var i :| 0 <= i < |r| && r[i] == x;
      assert s[a + i] == x;
    }
  }

  /** With the limit given explicitly, the default limit plays no part. */
  lemma PageIgnoresDefault<T>(s: seq<T>, args: PageArgs, d1: int, d2: int)
    requires args.limit.Some?
    ensures Page(s, args, d1) == Page(s, args, d2)
  {
  }

  /** The first page with a limit of at least the length is the whole sequence. */
  lemma FirstPageIsAll<T>(s: seq<T>, args: PageArgs, defaultLimit: int)
    requires args.Page() == 1 && args.Limit(defaultLimit) >= |s|
    ensures Page(s, args, defaultLimit) == s
  {
  }
}

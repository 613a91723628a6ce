/** The page table both trackers keep: one `Page` record per path, looked up
    with `pages.find(p => p.page === url)` and created by `initPage`. */
module Pages {

  import opened Interfaces

  predicate HasPage(pages: seq<Page>, url: string)
  {
    exists i :: 0 <= i < |pages| && pages[i].page == url
  }

  /** At most one record per path. */
  predicate UniquePaths(pages: seq<Page>)
  {
    forall i, j :: 0 <= i < j < |pages| ==> pages[i].page != pages[j].page
  }

  /** `pages.find(p => p.page === url)`, as the index of the first match. */
  function FindPage(pages: seq<Page>, url: string): (r: Option<nat>)
    ensures r.Some? ==> r.value < |pages| && pages[r.value].page == url
    ensures r.Some? ==> forall j :: 0 <= j < r.value ==> pages[j].page != url
    ensures r.None? <==> !HasPage(pages, url)
  {
    if pages == [] then None
    else if pages[0].page == url then Some(0)
    else match FindPage(pages[1..], url)
      case None => None
      case Some(k) => Some(k + 1)
  }

  /** `pages.find(p => p.page === url)!`, as an index: both trackers' `getCurrentPage`. */
  function PageIndex(pages: seq<Page>, url: string): (i: nat)
    requires HasPage(pages, url)
    ensures i < |pages| && pages[i].page == url
    ensures forall j :: 0 <= j < i ==> pages[j].page != url
  {
    FindPage(pages, url).value
  }

  /** With unique paths, the record `find` returns is the only one for its path. */
  lemma FindPageUnique(pages: seq<Page>, url: string, i: nat)
    requires UniquePaths(pages)
    requires i < |pages| && pages[i].page == url
    ensures FindPage(pages, url) == Some(i)
  {
  }

  /** `initPage`: append a zeroed record for `url` unless one exists. */
  function InitPage(pages: seq<Page>, url: string): (r: seq<Page>)
    ensures HasPage(r, url)
    ensures HasPage(pages, url) ==> r == pages
    ensures !HasPage(pages, url) ==> r == pages + [ZeroPage(url)]
    ensures UniquePaths(pages) ==> UniquePaths(r)
  {
    match FindPage(pages, url)
    case Some(_) => pages
    case None =>
      var r := pages + [ZeroPage(url)];
      assert r[|pages|].page == url;
      r
  }

  /** Replacing a record by one with the same path keeps the set of paths. */
  lemma ReplaceKeepsPaths(pages: seq<Page>, i: nat, p: Page, url: string)
    requires i < |pages| && p.page == pages[i].page
    ensures HasPage(pages[i := p], url) <==> HasPage(pages, url)
    ensures UniquePaths(pages) ==> UniquePaths(pages[i := p])
  {
    if HasPage(pages, url) {
      var j :| 0 <= j < |pages| && pages[j].page == url;
      assert pages[i := p][j].page == url;
    }
    if HasPage(pages[i := p], url) {
      var j :| 0 <= j < |pages| && pages[i := p][j].page == url;
      assert pages[j].page == url;
    }
  }

  /** Two page tables with the same paths in the same order. */
  predicate SamePaths(a: seq<Page>, b: seq<Page>)
  {
    |a| == |b| && forall j :: 0 <= j < |a| ==> a[j].page == b[j].page
  }

  /** `find` by path only looks at the paths. */
  lemma {:induction false} FindPageSamePaths(a: seq<Page>, b: seq<Page>, url: string)
    requires SamePaths(a, b)
    ensures FindPage(a, url) == FindPage(b, url)
    ensures HasPage(a, url) <==> HasPage(b, url)
    ensures UniquePaths(a) ==> UniquePaths(b)
  {
    if a != [] {
      assert SamePaths(a[1..], b[1..]) by {
        forall j | 0 <= j < |a| - 1 ensures a[1..][j].page == b[1..][j].page {
          assert a[1..][j] == a[j + 1] && b[1..][j] == b[j + 1];
        }
      }
      FindPageSamePaths(a[1..], b[1..], url);
    }
  }

  lemma SamePathsTrans(a: seq<Page>, b: seq<Page>, c: seq<Page>)
    requires SamePaths(a, b) && SamePaths(b, c)
    ensures SamePaths(a, c)
  {
  }

  /** `initPage` on two tables with the same paths gives two tables with the same paths. */
  lemma InitPageSamePaths(a: seq<Page>, b: seq<Page>, url: string)
    requires SamePaths(a, b)
    ensures SamePaths(InitPage(a, url), InitPage(b, url))
  {
    FindPageSamePaths(a, b, url);
  }

  /** The clicks of all records together. */
  function SumClicks(pages: seq<Page>): int
  {
    if pages == [] then 0 else SumClicks(pages[..|pages| - 1]) + pages[|pages| - 1].totalClicks
  }

  lemma {:induction false} SumClicksReplace(pages: seq<Page>, i: nat, p: Page)
    requires i < |pages|
    ensures SumClicks(pages[i := p]) == SumClicks(pages) - pages[i].totalClicks + p.totalClicks
  {
    var n := |pages|;
    var q := pages[i := p];
    assert q[..n - 1] == if i == n - 1 then pages[..n - 1] else pages[..n - 1][i := p];
    if i < n - 1 {
      SumClicksReplace(pages[..n - 1], i, p);
    }
  }

  lemma SumClicksAppendZero(pages: seq<Page>, url: string)
    ensures SumClicks(pages + [ZeroPage(url)]) == SumClicks(pages)
  {
    assert (pages + [ZeroPage(url)])[..|pages|] == pages;
  }

  /** `initPage` never changes the click total. */
  lemma InitPageClicks(pages: seq<Page>, url: string)
    ensures SumClicks(InitPage(pages, url)) == SumClicks(pages)
  {
    if !HasPage(pages, url) {
      SumClicksAppendZero(pages, url);
    }
  }
}

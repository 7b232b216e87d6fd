/**
 Offset paging: the server slices an ordered list, the client asks for the next
 page at the number of items it has loaded, and stops at the reported total.
 */
module Pagination {
  import opened Wrappers

  datatype Page<T> = Page(items: seq<T>, total: nat)

  /** The library handler: out of range falls back to 50. */
  function LibraryLimit(limit: int): (r: nat)
    ensures 1 <= r <= 100 && (1 <= limit <= 100 ==> r == limit)
  {
    if limit <= 0 || limit > 100 then 50 else limit
  }

  /** The radar service: too much is cut to 100, nothing useful becomes 50. */
  function RadarLimit(limit: int): (r: nat)
    ensures 1 <= r <= 100 && (1 <= limit <= 100 ==> r == limit)
  {
    if limit > 100 then 100 else if limit <= 0 then 50 else limit
  }

  function Offset(offset: int): nat {
    if offset < 0 then 0 else offset
  }

  function Min(a: nat, b: nat): nat {
    if a < b then a else b
  }

  /** LIMIT and OFFSET. */
  function Slice<T>(list: seq<T>, limit: nat, offset: nat): seq<T> {
    list[Min(offset, |list|)..Min(offset + limit, |list|)]
  }

  function Serve<T>(list: seq<T>, limit: nat, offset: int): Page<T> {
    Page(Slice(list, limit, Offset(offset)), |list|)
  }

  /** query.data.pages.flatMap(p => p.items). */
  function Flatten<T>(pages: seq<Page<T>>): seq<T> {
    if pages == [] then [] else Flatten(pages[..|pages| - 1]) + pages[|pages| - 1].items
  }

  /** all.reduce((s, p) => s + p.items.length, 0). */
  function Loaded<T>(pages: seq<Page<T>>): (n: nat)
    ensures n == |Flatten(pages)|
  {
    if pages == [] then 0 else Loaded(pages[..|pages| - 1]) + |pages[|pages| - 1].items|
  }

  /** initialPageParam, then getNextPageParam; none means there is no next page. */
  function NextPageParam<T>(pages: seq<Page<T>>): Option<nat> {
    if pages == [] then Some(0)
    else if Loaded(pages) < pages[|pages| - 1].total then Some(Loaded(pages)) else None
  }

  lemma FlattenMore<T>(pages: seq<Page<T>>, page: Page<T>)
    ensures Flatten(pages + [page]) == Flatten(pages) + page.items
  {
    assert (pages + [page])[..|pages|] == pages;
  }

  /** Pages fetched one after the other, each sliced from the list the query gave that time. */
  function Served<T>(answers: seq<seq<T>>, limit: nat, k: nat): (pages: seq<Page<T>>)
    requires k <= |answers|
    ensures |pages| == k
  {
    if k == 0 then []
    else
      var before := Served(answers, limit, k - 1);
      before + [Serve(answers[k - 1], limit, Loaded(before))]
  }

  predicate SameLength<T>(answers: seq<seq<T>>, n: nat) {
    forall i :: 0 <= i < |answers| ==> |answers[i]| == n
  }

  /** How many items k pages hold. */
  function Span(limit: nat, k: nat): nat {
    if k == 0 then 0 else Span(limit, k - 1) + limit
  }

  lemma {:induction false} SpanIsProduct(limit: nat, k: nat)
    ensures Span(limit, k) == limit * k
  {
    if k > 0 {
      SpanIsProduct(limit, k - 1);
      assert limit * k == limit * (k - 1) + limit;
    }
  }

  lemma {:induction false} SpanGrows(limit: nat, k: nat)
    requires limit >= 1
    ensures Span(limit, k) >= k
  {
    if k > 0 {
      SpanGrows(limit, k - 1);
    }
  }

  /** What k such pages show, without the pages. */
  function Shown<T>(answers: seq<seq<T>>, limit: nat, k: nat): seq<T>
    requires k <= |answers|
  {
    if k == 0 then []
    else
      var before := Shown(answers, limit, k - 1);
      before + Slice(answers[k - 1], limit, |before|)
  }

  lemma {:induction false} ServedShows<T>(answers: seq<seq<T>>, limit: nat, k: nat)
    requires k <= |answers|
    ensures Flatten(Served(answers, limit, k)) == Shown(answers, limit, k)
  {
    if k > 0 {
      ServedShows(answers, limit, k - 1);
      FlattenMore(Served(answers, limit, k - 1), Serve(answers[k - 1], limit, |Shown(answers, limit, k - 1)|));
    }
  }

  lemma {:induction false} ShownLength<T>(answers: seq<seq<T>>, limit: nat, n: nat, k: nat)
    requires k <= |answers| && SameLength(answers, n)
    ensures |Shown(answers, limit, k)| == Min(Span(limit, k), n)
  {
    if k > 0 {
      ShownLength(answers, limit, n, k - 1);
      assert |answers[k - 1]| == n;
    }
  }

  /** One more fetch shows the next items of the list it found. */
  lemma ShownStep<T>(answers: seq<seq<T>>, limit: nat, n: nat, k: nat)
    requires 1 <= k <= |answers| && SameLength(answers, n)
    ensures var m := Min(Span(limit, k - 1), n);
            && m <= |answers[k - 1]| == n && m <= Min(Span(limit, k), n)
            && Shown(answers, limit, k) == Shown(answers, limit, k - 1) + answers[k - 1][m..Min(Span(limit, k), n)]
  {
    ShownLength(answers, limit, n, k - 1);
    assert |answers[k - 1]| == n;
  }

  /** How far k fetches get, and whether a next page is offered then. */
  lemma ServedLength<T>(answers: seq<seq<T>>, limit: nat, n: nat, k: nat)
    requires k <= |answers| && SameLength(answers, n)
    ensures Loaded(Served(answers, limit, k)) == Min(Span(limit, k), n)
    ensures NextPageParam(Served(answers, limit, k)) ==
              if k == 0 then Some(0) else if Span(limit, k) < n then Some(Span(limit, k)) else None
  {
    ServedShows(answers, limit, k);
    ShownLength(answers, limit, n, k);
    if k > 0 { LastTotal(answers, limit, k); }
  }

  lemma LastTotal<T>(answers: seq<seq<T>>, limit: nat, k: nat)
    requires 1 <= k <= |answers|
    ensures Served(answers, limit, k)[k - 1].total == |answers[k - 1]|
  {
  }

  lemma ItemStaysOnce<T>(answers: seq<seq<T>>, limit: nat, k: nat, i: nat)
    requires 1 <= k <= |answers| && i < |Shown(answers, limit, k - 1)|
    ensures i < |Shown(answers, limit, k)| && Shown(answers, limit, k)[i] == Shown(answers, limit, k - 1)[i]
  {
  }

  /** What is shown at a position stays there as more pages arrive. */
  lemma {:induction false} ItemStays<T>(answers: seq<seq<T>>, limit: nat, j: nat, k: nat, i: nat)
    requires j <= k <= |answers| && i < |Shown(answers, limit, j)|
    ensures i < |Shown(answers, limit, k)| && Shown(answers, limit, k)[i] == Shown(answers, limit, j)[i]
    decreases k - j
  {
    if j < k {
      ItemStays(answers, limit, j, k - 1, i);
      ItemStaysOnce(answers, limit, k, i);
    }
  }

  /**
   The client's loop: it asks until there is no next page, whatever lists of one length the query
   gives each time, and it asks no more often than needed.
   */
  method FetchEach<T>(answers: seq<seq<T>>, limit: nat, n: nat) returns (pages: seq<Page<T>>)
    requires limit >= 1 && |answers| > n && SameLength(answers, n)
    ensures |pages| <= |answers| && pages == Served(answers, limit, |pages|) && NextPageParam(pages) == None
    ensures |pages| >= 1 && (|pages| > 1 ==> Span(limit, |pages| - 1) < n) && n <= Span(limit, |pages|)
  {
    pages := [];
    while NextPageParam(pages).Some?
      invariant |pages| <= |answers| && pages == Served(answers, limit, |pages|)
      invariant |pages| > 1 ==> Span(limit, |pages| - 1) < n
      decreases |answers| - |pages|
    {
      ServedLength(answers, limit, n, |pages|);
      SpanGrows(limit, |pages|);
      var page := Serve(answers[|pages|], limit, NextPageParam(pages).value);
      pages := pages + [page];
    }
    ServedLength(answers, limit, n, |pages|);
  }

  /** As long as the query gives one list, the pages show the whole of it, every item once and in order. */
  lemma OneListShown<T>(answers: seq<seq<T>>, list: seq<T>, limit: nat, k: nat)
    requires k <= |answers| && forall i :: 0 <= i < |answers| ==> answers[i] == list
    requires NextPageParam(Served(answers, limit, k)) == None
    ensures Flatten(Served(answers, limit, k)) == list
  {
    ServedLength(answers, limit, |list|, k);
    SameAnswers(answers, list, limit, k);
    Prefix(list, limit, k);
    assert list[..|list|] == list;
  }

  lemma {:induction false} SameAnswers<T>(answers: seq<seq<T>>, list: seq<T>, limit: nat, k: nat)
    requires k <= |answers| && forall i :: 0 <= i < |answers| ==> answers[i] == list
    ensures Served(answers, limit, k) == Fetched(list, limit, k)
  {
    if k > 0 {
      SameAnswers(answers, list, limit, k - 1);
    }
  }

  /** The first k fetches. */
  function Fetched<T>(list: seq<T>, limit: nat, k: nat): seq<Page<T>> {
    if k == 0 then []
    else
      var before := Fetched(list, limit, k - 1);
      before + [Serve(list, limit, Loaded(before))]
  }

  /** A page at the end of a prefix extends it. */
  lemma NextSlice<T>(list: seq<T>, limit: nat, loaded: nat)
    requires loaded <= |list|
    ensures list[..loaded] + Slice(list, limit, loaded) == list[..Min(loaded + limit, |list|)]
  {
  }

  lemma OneMoreSpan(limit: nat, n: nat, k: nat)
    requires k >= 1
    ensures Min(Min(Span(limit, k - 1), n) + limit, n) == Min(Span(limit, k), n)
  {
  }

  lemma PrefixStep<T>(list: seq<T>, limit: nat, k: nat, m: nat)
    requires k >= 1 && m <= |list| && Flatten(Fetched(list, limit, k - 1)) == list[..m]
    ensures Flatten(Fetched(list, limit, k)) == list[..Min(m + limit, |list|)]
  {
    var before := Fetched(list, limit, k - 1);
    FlattenMore(before, Serve(list, limit, Loaded(before)));
    NextSlice(list, limit, m);
  }

  lemma {:induction false} Prefix<T>(list: seq<T>, limit: nat, k: nat)
    ensures Flatten(Fetched(list, limit, k)) == list[..Min(Span(limit, k), |list|)] && |Fetched(list, limit, k)| == k
  {
    if k > 0 {
      Prefix(list, limit, k - 1);
      PrefixStep(list, limit, k, Min(Span(limit, k - 1), |list|));
      OneMoreSpan(limit, |list|, k);
    }
  }

  /** At any moment what is shown is a prefix of the list, and a next page is offered exactly while items remain. */
  lemma ShownIsPrefix<T>(list: seq<T>, limit: nat, k: nat)
    ensures Flatten(Fetched(list, limit, k)) == list[..Min(Span(limit, k), |list|)]
    ensures k >= 1 ==> (NextPageParam(Fetched(list, limit, k)) == None <==> |list| <= Span(limit, k))
  {
    Prefix(list, limit, k);
    if k >= 1 {
      Prefix(list, limit, k - 1);
      assert Fetched(list, limit, k)[k - 1].total == |list|;
    }
  }
}

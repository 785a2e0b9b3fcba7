/** What the two paging controllers share: the load actions, the provider's answer and the page
    an accepted load asks for. */
module Paging {
  import opened Wrappers

  datatype Action = Refresh | ClearAndRefresh | LoadMore

  /** What the provider hands to the completion handler. */
  datatype LoadResult<T, E> = Loaded(items: seq<T>, isEndOfData: bool) | Failed(error: E)

  /** The page an accepted load asks for: refresh-type loads start over, loadMore continues
      after the current page. */
  function PageToLoad(startPage: int, currentPage: Option<int>, action: Action): int {
    if action == LoadMore && currentPage.Some? then currentPage.value + 1 else startPage
  }

  /** Regrouping a concatenation of traces, used by both managers' trace lemmas. */
  lemma AppendAssoc<X>(a: seq<X>, b: seq<X>, c: seq<X>)
    ensures a + (b + c) == a + b + c
  {
  }

}

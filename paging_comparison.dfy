/**
 * XKit's paging manager against EDKit's. On the four properties they share, both make the same
 * assignments before a load and on completion; they differ in what happens to a completion that
 * arrives after a newer load or after `cancelCurrentLoadRequest`.
 */
module PagingComparison {
  import opened Wrappers
  import opened Paging
  import X = XKitPaging
  import D = EDKitPaging

  /** The part of XKit's properties that EDKit's manager also has. */
  function Common<T, E>(f: X.Fields<T, E>): (g: D.Fields<T>)
    ensures g.data == f.data && g.canLoadMore == f.canLoadMore
    ensures g.currentPage == f.currentPage && g.isEndOfData == f.isEndOfData
  {
    D.Fields(f.data, f.canLoadMore, f.currentPage, f.isEndOfData)
  }

  /** Before calling the provider, both managers leave the shared properties in the same state. */
  lemma PreloadAgrees<T, E>(f: X.Fields<T, E>, action: Action)
    ensures Common(X.After(f, X.PreloadChanges(f, action))) == D.After(Common(f), D.PreloadChanges(Common(f), action))
  {
    X.PreloadEffect(f, action);
    D.PreloadEffect(Common(f), action);
  }

  /** A completion that both apply has the same effect on the shared properties, provided XKit's
      manager does not clear its data on failure. */
  lemma CompletionAgrees<T, E>(f: X.Fields<T, E>, taskId: nat, action: Action, page: int,
                               result: LoadResult<T, E>, isCancelled: E -> bool)
    ensures var x := X.After(f, X.CompletionChanges(f, X.Request(taskId, action, page), result, false, isCancelled));
      var d := D.After(Common(f), D.CompletionChanges(Common(f), D.Request(action, page), result, isCancelled));
      Common(x) == d
  {
    match result
    case Loaded(items, end) =>
      X.SuccessEffect(f, X.Request(taskId, action, page), items, end, false, isCancelled);
      D.SuccessEffect(Common(f), D.Request(action, page), items, end, isCancelled);
    case Failed(error) =>
      X.FailureEffect(f, X.Request(taskId, action, page), error, false, isCancelled);
      D.FailureEffect(Common(f), D.Request(action, page), error, isCancelled);
  }

  /** Two refreshes in a row, then the provider answers the first one with [7]: XKit's manager
      discards the answer ... */
  method XKitStaleCompletion() returns (data: seq<int>)
    ensures data == []
  {
    var x := new X.PagingDataManager<int, bool>(1, 20, false, (e: bool) => e);
    X.PreloadEffect(x.Snapshot(), Refresh);
    var _ := x.LoadData(Refresh, Some(1));
    var first := x.requests[|x.requests| - 1];
    X.PreloadEffect(x.Snapshot(), Refresh);
    var _ := x.LoadData(Refresh, Some(2));
    x.Complete(first, Loaded([7], false));
    data := x.data.storage;
  }

  /** ... while EDKit's applies it. */
  method EDKitStaleCompletion() returns (data: seq<int>)
    ensures data == [7]
  {
    var d := new D.PagingDataManager<int, bool>(1, 20, (e: bool) => e);
    var _ := d.LoadData(Refresh, Some(1));
    var first := d.requests[|d.requests| - 1];
    var _ := d.LoadData(Refresh, Some(2));
    D.SuccessEffect(d.Snapshot(), first, [7], false, d.isCancelled);
    d.Complete(first, Loaded([7], false));
    data := d.data.storage;
  }

  /** A refresh, then `cancelCurrentLoadRequest`, then the provider answers with [7] anyway:
      XKit's manager cancels the handle and discards the answer ... */
  method XKitCompletionAfterCancel() returns (data: seq<int>, cancelled: seq<nat>)
    ensures data == [] && cancelled == [1]
  {
    var x := new X.PagingDataManager<int, bool>(1, 20, false, (e: bool) => e);
    X.PreloadEffect(x.Snapshot(), Refresh);
    var _ := x.LoadData(Refresh, Some(1));
    var request := x.requests[|x.requests| - 1];
    x.CancelCurrentLoadRequest();
    x.Complete(request, Loaded([7], false));
    data := x.data.storage;
    cancelled := x.cancelledHandles;
  }

  /** ... while EDKit's cancels the handle and applies the answer. */
  method EDKitCompletionAfterCancel() returns (data: seq<int>, cancelled: seq<nat>)
    ensures data == [7] && cancelled == [1]
  {
    var d := new D.PagingDataManager<int, bool>(1, 20, (e: bool) => e);
    var _ := d.LoadData(Refresh, Some(1));
    var request := d.requests[|d.requests| - 1];
    d.CancelCurrentLoadRequest();
    D.SuccessEffect(d.Snapshot(), request, [7], false, d.isCancelled);
    d.Complete(request, Loaded([7], false));
    data := d.data.storage;
    cancelled := d.cancelledHandles;
  }
}

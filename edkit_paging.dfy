/**
 * EDKit's `PagingDataManager`, the older variant of the paging controller: the same four
 * observable properties without a status, begin/end loading signals, and no guard against
 * stale completions — every completion the provider delivers is applied.
 *
 * As for XKit's manager, the provider is the environment: `LoadData` records the request and the
 * handle the provider returned, and the provider's later answer is delivered by `Complete`.
 */
module EDKitPaging {
  import opened Wrappers
  import opened StateObservable
  import opened Paging

  /** One assignment to an observable property of the manager; `data` is `@State`, the others
      `@EquatableState`. */
  datatype Change<T> =
    | DataChange(data: seq<T>)
    | CanLoadMoreChange(canLoadMore: bool)
    | CurrentPageChange(currentPage: Option<int>)
    | IsEndOfDataChange(isEndOfData: bool)

  /** The values of the observable properties. */
  datatype Fields<T> = Fields(data: seq<T>, canLoadMore: bool, currentPage: Option<int>, isEndOfData: bool)

  /** What a completion handler captured when its request was made. */
  datatype Request = Request(action: Action, page: int)

  /** A value sent on `didBeginLoadingSubject` or `didEndLoadingSubject`. */
  datatype LoadingSignal = DidBeginLoading | DidEndLoading

  function Apply<T>(f: Fields<T>, c: Change<T>): Fields<T> {
    match c
    case DataChange(d) => f.(data := d)
    case CanLoadMoreChange(b) => f.(canLoadMore := b)
    case CurrentPageChange(p) => f.(currentPage := p)
    case IsEndOfDataChange(b) => f.(isEndOfData := b)
  }

  /** `@State` properties announce every assignment, `@EquatableState` ones only a new value. */
  predicate Notifies<T>(f: Fields<T>, c: Change<T>) {
    match c
    case DataChange(_) => true
    case CanLoadMoreChange(b) => b != f.canLoadMore
    case CurrentPageChange(p) => p != f.currentPage
    case IsEndOfDataChange(b) => b != f.isEndOfData
  }

  /** The properties after the assignments `cs`, made in order starting from `f`. */
  function After<T>(f: Fields<T>, cs: seq<Change<T>>): Fields<T> {
    if cs == [] then f else Apply(After(f, cs[..|cs| - 1]), cs[|cs| - 1])
  }

  /** What subscribers observe of one assignment made while the properties hold `f`. */
  function StepsOf<T>(f: Fields<T>, c: Change<T>, batching: bool): seq<Step<Change<T>>> {
    if Notifies(f, c) then SetSteps(c, batching) else []
  }

  /** What subscribers observe of the assignments `cs`, made in order starting from `f`. */
  function Notifications<T>(f: Fields<T>, cs: seq<Change<T>>, batching: bool): seq<Step<Change<T>>> {
    if cs == [] then []
    else Notifications(f, cs[..|cs| - 1], batching) + StepsOf(After(f, cs[..|cs| - 1]), cs[|cs| - 1], batching)
  }

  lemma AfterSnoc<T>(f: Fields<T>, cs: seq<Change<T>>, c: Change<T>, batching: bool)
    ensures After(f, cs + [c]) == Apply(After(f, cs), c)
    ensures Notifications(f, cs + [c], batching) == Notifications(f, cs, batching) + StepsOf(After(f, cs), c, batching)
  {
    assert (cs + [c])[..|cs|] == cs;
  }

  /** The assignments an accepted `loadData` makes before it calls the provider. */
  function PreloadChanges<T>(f: Fields<T>, action: Action): seq<Change<T>> {
    match action
    case ClearAndRefresh => [DataChange([]), CanLoadMoreChange(false), IsEndOfDataChange(false)]
    case Refresh => [CanLoadMoreChange(!f.isEndOfData && |f.data| > 0), IsEndOfDataChange(false)]
    case LoadMore => [CanLoadMoreChange(false)]
  }

  /** The assignments a completion makes; a cancellation error makes none. */
  function CompletionChanges<T, E>(f: Fields<T>, request: Request, result: LoadResult<T, E>, isCancelled: E -> bool): seq<Change<T>> {
    match result
    case Loaded(items, end) =>
      [DataChange(if request.action == LoadMore then f.data + items else items),
       IsEndOfDataChange(end), CurrentPageChange(Some(request.page)), CanLoadMoreChange(!end)]
    case Failed(e) =>
      if isCancelled(e) then [] else [CanLoadMoreChange(!f.isEndOfData && |f.data| > 0)]
  }

  /** The signal a completion sends: `didEndLoading`, except after a cancellation error. */
  function CompletionSignals<T, E>(result: LoadResult<T, E>, isCancelled: E -> bool): seq<LoadingSignal> {
    if result.Failed? && isCancelled(result.error) then [] else [DidEndLoading]
  }

  /** One to four assignments in a row, unfolded; `before` is what the trace held before them. */
  lemma Chain1<T>(f: Fields<T>, a: Change<T>, batching: bool, before: seq<Step<Change<T>>>)
    ensures After(f, [a]) == Apply(f, a)
    ensures before + Notifications(f, [a], batching) == before + StepsOf(f, a, batching)
  {
    var e: seq<Change<T>> := [];
    AfterSnoc(f, e, a, batching);
    assert e + [a] == [a];
  }

  lemma Chain2<T>(f: Fields<T>, a: Change<T>, b: Change<T>, batching: bool, before: seq<Step<Change<T>>>)
    ensures After(f, [a, b]) == Apply(Apply(f, a), b)
    ensures before + Notifications(f, [a, b], batching) == before + StepsOf(f, a, batching) + StepsOf(Apply(f, a), b, batching)
  {
    var e: seq<Change<T>> := [];
    AfterSnoc(f, e, a, batching);
    assert [a, b] == [a] + [b] && e + [a] == [a];
    AfterSnoc(f, [a], b, batching);
    AppendAssoc(before, StepsOf(f, a, batching), StepsOf(Apply(f, a), b, batching));
  }

  lemma Chain3<T>(f: Fields<T>, a: Change<T>, b: Change<T>, c: Change<T>, batching: bool, before: seq<Step<Change<T>>>)
    ensures After(f, [a, b, c]) == Apply(Apply(Apply(f, a), b), c)
    ensures before + Notifications(f, [a, b, c], batching)
         == before + StepsOf(f, a, batching) + StepsOf(Apply(f, a), b, batching) + StepsOf(Apply(Apply(f, a), b), c, batching)
  {
    Chain2(f, a, b, batching, before);
    assert [a, b, c] == [a, b] + [c];
    AfterSnoc(f, [a, b], c, batching);
    AppendAssoc(before, Notifications(f, [a, b], batching), StepsOf(Apply(Apply(f, a), b), c, batching));
  }

  lemma Chain4<T>(f: Fields<T>, a: Change<T>, b: Change<T>, c: Change<T>, d: Change<T>, batching: bool, before: seq<Step<Change<T>>>)
    ensures After(f, [a, b, c, d]) == Apply(Apply(Apply(Apply(f, a), b), c), d)
    ensures before + Notifications(f, [a, b, c, d], batching)
         == before + StepsOf(f, a, batching) + StepsOf(Apply(f, a), b, batching) + StepsOf(Apply(Apply(f, a), b), c, batching)
            + StepsOf(Apply(Apply(Apply(f, a), b), c), d, batching)
  {
    Chain3(f, a, b, c, batching, before);
    assert [a, b, c, d] == [a, b, c] + [d];
    AfterSnoc(f, [a, b, c], d, batching);
    AppendAssoc(before, Notifications(f, [a, b, c], batching), StepsOf(Apply(Apply(Apply(f, a), b), c), d, batching));
  }

  /** What an accepted `loadData` leaves in the properties before the provider answers:
      clearAndRefresh empties the data and clears both flags; refresh keeps the data, re-enables
      load-more exactly when data is loaded and the end was not reached, and clears the end flag;
      loadMore disables load-more. The page is untouched. */
  lemma PreloadEffect<T>(f: Fields<T>, action: Action)
    ensures var g := After(f, PreloadChanges(f, action));
      && g.currentPage == f.currentPage
      && (action == ClearAndRefresh ==> g.data == [] && !g.canLoadMore && !g.isEndOfData)
      && (action == Refresh ==> g.data == f.data && g.canLoadMore == (!f.isEndOfData && |f.data| > 0) && !g.isEndOfData)
      && (action == LoadMore ==> g.data == f.data && !g.canLoadMore && g.isEndOfData == f.isEndOfData)
  {
    match action
    case ClearAndRefresh =>
      Chain3(f, DataChange([]), CanLoadMoreChange(false), IsEndOfDataChange(false), false, []);
    case Refresh =>
      Chain2(f, CanLoadMoreChange(!f.isEndOfData && |f.data| > 0), IsEndOfDataChange(false), false, []);
    case LoadMore =>
      Chain1(f, CanLoadMoreChange(false), false, []);
  }

  /** A successful completion: refresh-type loads replace the data, loadMore appends to it; the
      requested page becomes the current page; load-more is enabled exactly when the end was not
      reached. */
  lemma SuccessEffect<T, E>(f: Fields<T>, request: Request, items: seq<T>, end: bool, isCancelled: E -> bool)
    ensures After(f, CompletionChanges(f, request, Loaded(items, end), isCancelled))
         == Fields(if request.action == LoadMore then f.data + items else items, !end, Some(request.page), end)
  {
    Chain4(f, DataChange(if request.action == LoadMore then f.data + items else items),
           IsEndOfDataChange(end), CurrentPageChange(Some(request.page)), CanLoadMoreChange(!end), false, []);
  }

  /** A failed completion: a cancellation changes nothing and notifies nothing; any other error
      only recomputes load-more from the data and the end flag. */
  lemma FailureEffect<T, E>(f: Fields<T>, request: Request, error: E, isCancelled: E -> bool)
    ensures var cs := CompletionChanges(f, request, Failed(error), isCancelled);
      && (isCancelled(error) ==> After(f, cs) == f && Notifications(f, cs, false) == [])
      && (!isCancelled(error) ==> After(f, cs) == f.(canLoadMore := !f.isEndOfData && |f.data| > 0))
  {
    if !isCancelled(error) {
      Chain1(f, CanLoadMoreChange(!f.isEndOfData && |f.data| > 0), false, []);
    }
  }

  /** The manager. `observable` is the state container's record for this owner. */
  class PagingDataManager<T, E> {
    const observable: ObservableObject<Change<T>>
    const startPage: int
    const numberOfLoadsPerPage: int
    /** Error classification (`Error.isCancelled`), supplied by the environment. */
    const isCancelled: E -> bool

    var data: StateField<seq<T>>
    var canLoadMore: StateField<bool>
    var currentPage: StateField<Option<int>>
    var isEndOfData: StateField<bool>

    /** The handle the provider returned for the latest request, until a completion clears it. */
    var currentLoadRequest: Option<nat>
    /** Every request made of the provider, in order. */
    var requests: seq<Request>
    /** Every handle `cancel()` was called on, in order. */
    var cancelledHandles: seq<nat>
    /** Everything sent on the begin and end loading subjects, in order. */
    var signals: seq<LoadingSignal>
    ghost var Repr: set<object>

    ghost predicate Inv()
      reads this, Repr
    {
      && this in Repr && observable in Repr && observable.Repr <= Repr && this !in observable.Repr
      && observable.Valid()
    }

    /** The invariant between calls: no batch is open. */
    ghost predicate Valid()
      reads this, Repr
    {
      Inv() && !observable.isPerformingBatchStateUpdates
    }

    function Snapshot(): Fields<T>
      reads this
    {
      Fields(data.storage, canLoadMore.storage, currentPage.storage, isEndOfData.storage)
    }

    ghost function Bookkeeping(): (Option<nat>, seq<Request>, seq<nat>, seq<LoadingSignal>)
      reads this
    {
      (currentLoadRequest, requests, cancelledHandles, signals)
    }

    constructor (startPage: int, numberOfLoadsPerPage: int, isCancelled: E -> bool)
      ensures Valid() && fresh(Repr)
      ensures Snapshot() == Fields([], false, None, false)
      ensures this.startPage == startPage && this.numberOfLoadsPerPage == numberOfLoadsPerPage
      ensures this.isCancelled == isCancelled
      ensures observable.trace == [] && currentLoadRequest == None
      ensures requests == [] && cancelledHandles == [] && signals == []
    {
      this.startPage := startPage;
      this.numberOfLoadsPerPage := numberOfLoadsPerPage;
      this.isCancelled := isCancelled;
      var owner := new ObservableObject();
      observable := owner;
      data := NewStateField([]);
      canLoadMore := NewStateField(false);
      currentPage := NewStateField(None);
      isEndOfData := NewStateField(false);
      currentLoadRequest := None;
      requests := [];
      cancelledHandles := [];
      signals := [];
      new;
      Repr := {this} + owner.Repr;
    }

    function IsDataEmpty(): (empty: bool)
      reads this
      ensures empty <==> Snapshot().data == []
    {
      |data.storage| == 0
    }

    /** The setter of the `@State` property `data`. */
    method SetData(value: seq<T>)
      requires Inv()
      modifies Repr
      ensures Inv() && fresh(Repr - old(Repr))
      ensures Snapshot() == Apply(old(Snapshot()), DataChange(value))
      ensures observable.isPerformingBatchStateUpdates == old(observable.isPerformingBatchStateUpdates)
      ensures observable.trace == old(observable.trace) + StepsOf(old(Snapshot()), DataChange(value), observable.isPerformingBatchStateUpdates)
      ensures Bookkeeping() == old(Bookkeeping())
    {
      data := observable.SetState(data, value, (x: seq<T>) => DataChange(x));
      Repr := Repr + observable.Repr;
    }

    /** The setter of the `@EquatableState` property `canLoadMore`. */
    method SetCanLoadMore(value: bool)
      requires Inv()
      modifies Repr
      ensures Inv() && fresh(Repr - old(Repr))
      ensures Snapshot() == Apply(old(Snapshot()), CanLoadMoreChange(value))
      ensures observable.isPerformingBatchStateUpdates == old(observable.isPerformingBatchStateUpdates)
      ensures observable.trace == old(observable.trace) + StepsOf(old(Snapshot()), CanLoadMoreChange(value), observable.isPerformingBatchStateUpdates)
      ensures Bookkeeping() == old(Bookkeeping())
    {
      canLoadMore := observable.SetEquatableState(canLoadMore, value, (x: bool) => CanLoadMoreChange(x));
      Repr := Repr + observable.Repr;
    }

    /** The setter of the `@EquatableState` property `currentPage`. */
    method SetCurrentPage(value: Option<int>)
      requires Inv()
      modifies Repr
      ensures Inv() && fresh(Repr - old(Repr))
      ensures Snapshot() == Apply(old(Snapshot()), CurrentPageChange(value))
      ensures observable.isPerformingBatchStateUpdates == old(observable.isPerformingBatchStateUpdates)
      ensures observable.trace == old(observable.trace) + StepsOf(old(Snapshot()), CurrentPageChange(value), observable.isPerformingBatchStateUpdates)
      ensures Bookkeeping() == old(Bookkeeping())
    {
      currentPage := observable.SetEquatableState(currentPage, value, (x: Option<int>) => CurrentPageChange(x));
      Repr := Repr + observable.Repr;
    }

    /** The setter of the `@EquatableState` property `isEndOfData`. */
    method SetIsEndOfData(value: bool)
      requires Inv()
      modifies Repr
      ensures Inv() && fresh(Repr - old(Repr))
      ensures Snapshot() == Apply(old(Snapshot()), IsEndOfDataChange(value))
      ensures observable.isPerformingBatchStateUpdates == old(observable.isPerformingBatchStateUpdates)
      ensures observable.trace == old(observable.trace) + StepsOf(old(Snapshot()), IsEndOfDataChange(value), observable.isPerformingBatchStateUpdates)
      ensures Bookkeeping() == old(Bookkeeping())
    {
      isEndOfData := observable.SetEquatableState(isEndOfData, value, (x: bool) => IsEndOfDataChange(x));
      Repr := Repr + observable.Repr;
    }

    /** `loadData(action:)`. A rejected loadMore changes nothing and sends nothing. It may be
        called inside a batch opened by the caller, whose flag it leaves as it was. */
    method LoadData(action: Action, handle: Option<nat>) returns (accepted: bool)
      requires Inv()
      modifies Repr
      ensures Inv() && fresh(Repr - old(Repr))
      ensures observable.isPerformingBatchStateUpdates == old(observable.isPerformingBatchStateUpdates)
      ensures accepted == (action != LoadMore || old(canLoadMore.storage))
      ensures !accepted ==>
        Snapshot() == old(Snapshot()) && observable.trace == old(observable.trace) && Bookkeeping() == old(Bookkeeping())
      ensures accepted ==>
        && Snapshot() == After(old(Snapshot()), PreloadChanges(old(Snapshot()), action))
        && observable.trace == old(observable.trace) + Notifications(old(Snapshot()), PreloadChanges(old(Snapshot()), action), old(observable.isPerformingBatchStateUpdates))
        && cancelledHandles == old(cancelledHandles) + OptionToSeq(old(currentLoadRequest))
        && signals == old(signals) + [DidBeginLoading]
        && requests == old(requests) + [Request(action, PageToLoad(startPage, old(currentPage.storage), action))]
        && currentLoadRequest == handle
    {
      if action == LoadMore && !canLoadMore.storage {
        return false;
      }
      PrepareProperties(action);
      IssueRequest(action, handle);
      accepted := true;
    }

    /** The rest of an accepted `loadData`: the page to ask for, the cancellation of the previous
        request, the begin signal and the call to the provider. */
    method IssueRequest(action: Action, handle: Option<nat>)
      requires Inv()
      modifies this
      ensures Inv() && Repr == old(Repr) && Snapshot() == old(Snapshot()) && observable.trace == old(observable.trace)
      ensures cancelledHandles == old(cancelledHandles) + OptionToSeq(old(currentLoadRequest))
      ensures signals == old(signals) + [DidBeginLoading]
      ensures requests == old(requests) + [Request(action, PageToLoad(startPage, old(currentPage.storage), action))]
      ensures currentLoadRequest == handle
    {
      var pageToLoad := PageToLoad(startPage, currentPage.storage, action);

      cancelledHandles := cancelledHandles + OptionToSeq(currentLoadRequest);
      currentLoadRequest := None;

      signals := signals + [DidBeginLoading];
      requests := requests + [Request(action, pageToLoad)];
      currentLoadRequest := handle;
    }

    /** The assignments `loadData` makes, for each action, before it calls the provider. */
    method PrepareProperties(action: Action)
      requires Inv()
      modifies Repr
      ensures Inv() && fresh(Repr - old(Repr))
      ensures observable.isPerformingBatchStateUpdates == old(observable.isPerformingBatchStateUpdates)
      ensures Bookkeeping() == old(Bookkeeping())
      ensures currentPage.storage == old(currentPage.storage)
      ensures Snapshot() == After(old(Snapshot()), PreloadChanges(old(Snapshot()), action))
      ensures observable.trace == old(observable.trace)
        + Notifications(old(Snapshot()), PreloadChanges(old(Snapshot()), action), observable.isPerformingBatchStateUpdates)
    {
      ghost var f0 := Snapshot();
      ghost var t0 := observable.trace;
      match action {
        case ClearAndRefresh =>
          SetData([]);
          SetCanLoadMore(false);
          SetIsEndOfData(false);
          Chain3(f0, DataChange([]), CanLoadMoreChange(false), IsEndOfDataChange(false), observable.isPerformingBatchStateUpdates, t0);
        case Refresh =>
          var enable := !isEndOfData.storage && !IsDataEmpty();
          SetCanLoadMore(enable);
          SetIsEndOfData(false);
          Chain2(f0, CanLoadMoreChange(enable), IsEndOfDataChange(false), observable.isPerformingBatchStateUpdates, t0);
        case LoadMore =>
          SetCanLoadMore(false);
          Chain1(f0, CanLoadMoreChange(false), observable.isPerformingBatchStateUpdates, t0);
      }
    }

    /** The completion handler of `request`, called by the provider with `result`. It is applied
        whatever happened since the request was made. */
    method Complete(request: Request, result: LoadResult<T, E>)
      requires Inv()
      requires request in requests
      modifies Repr
      ensures Inv() && fresh(Repr - old(Repr))
      ensures observable.isPerformingBatchStateUpdates == old(observable.isPerformingBatchStateUpdates)
      ensures requests == old(requests) && cancelledHandles == old(cancelledHandles)
      ensures currentLoadRequest == None
      ensures var cs := CompletionChanges(old(Snapshot()), request, result, isCancelled);
        && Snapshot() == After(old(Snapshot()), cs)
        && observable.trace == old(observable.trace) + Notifications(old(Snapshot()), cs, old(observable.isPerformingBatchStateUpdates))
      ensures signals == old(signals) + CompletionSignals(result, isCancelled)
    {
      currentLoadRequest := None;
      match result {
        case Loaded(items, end) =>
          CompleteWithData(request, items, end);
        case Failed(error) =>
          CompleteWithError(request, error);
      }
    }

    /** The success branch of the completion handler. */
    method CompleteWithData(request: Request, items: seq<T>, end: bool)
      requires Inv()
      modifies Repr
      ensures Inv() && fresh(Repr - old(Repr))
      ensures observable.isPerformingBatchStateUpdates == old(observable.isPerformingBatchStateUpdates)
      ensures currentLoadRequest == old(currentLoadRequest) && requests == old(requests) && cancelledHandles == old(cancelledHandles)
      ensures signals == old(signals) + [DidEndLoading]
      ensures var cs := CompletionChanges(old(Snapshot()), request, Loaded(items, end), isCancelled);
        && Snapshot() == After(old(Snapshot()), cs)
        && observable.trace == old(observable.trace) + Notifications(old(Snapshot()), cs, observable.isPerformingBatchStateUpdates)
    {
      ghost var f0 := Snapshot();
      ghost var t0 := observable.trace;
      var newData := if request.action == LoadMore then data.storage + items else items;
      SetData(newData);
      SetIsEndOfData(end);
      SetCurrentPage(Some(request.page));
      SetCanLoadMore(!end);
      signals := signals + [DidEndLoading];
      Chain4(f0, DataChange(newData), IsEndOfDataChange(end), CurrentPageChange(Some(request.page)),
             CanLoadMoreChange(!end), observable.isPerformingBatchStateUpdates, t0);
    }

    /** The failure branch of the completion handler. */
    method CompleteWithError(request: Request, error: E)
      requires Inv()
      modifies Repr
      ensures Inv() && fresh(Repr - old(Repr))
      ensures observable.isPerformingBatchStateUpdates == old(observable.isPerformingBatchStateUpdates)
      ensures currentLoadRequest == old(currentLoadRequest) && requests == old(requests) && cancelledHandles == old(cancelledHandles)
      ensures signals == old(signals) + CompletionSignals<T, E>(Failed(error), isCancelled)
      ensures var cs := CompletionChanges(old(Snapshot()), request, Failed(error), isCancelled);
        && Snapshot() == After(old(Snapshot()), cs)
        && observable.trace == old(observable.trace) + Notifications(old(Snapshot()), cs, observable.isPerformingBatchStateUpdates)
    {
      if isCancelled(error) {
        return;
      }
      ghost var f0 := Snapshot();
      ghost var t0 := observable.trace;
      var enable := !isEndOfData.storage && !IsDataEmpty();
      SetCanLoadMore(enable);
      signals := signals + [DidEndLoading];
      Chain1(f0, CanLoadMoreChange(enable), observable.isPerformingBatchStateUpdates, t0);
    }

    /** `cancelCurrentLoadRequest()`: cancels the handle and nothing else; a later completion of
        any request is still applied. */
    method CancelCurrentLoadRequest()
      modifies this
      ensures cancelledHandles == old(cancelledHandles) + OptionToSeq(currentLoadRequest)
      ensures currentLoadRequest == old(currentLoadRequest) && requests == old(requests) && signals == old(signals)
      ensures Snapshot() == old(Snapshot()) && Repr == old(Repr)
    {
      cancelledHandles := cancelledHandles + OptionToSeq(currentLoadRequest);
    }
  }
}

/**
 * XKit's `PagingDataManager`: a page-by-page loading state machine whose observable properties
 * are `@State`/`@EquatableState` properties of a state container owner. Every accepted load gets
 * a fresh task identifier; a completion whose identifier is no longer current is discarded.
 *
 * The data provider is the environment: `LoadData` records the request it makes (with the
 * handle the provider returned), and the provider's later answer is delivered by `Complete`.
 */
module XKitPaging {
  import opened Wrappers
  import opened StateObservable
  import opened Paging

  datatype Status<E> = Idle | Loading | Success | Failure(error: E)

  /** One assignment to an observable property of the manager; it is also the value the
      property's subjects carry. `data` and `status` are `@State`, the others `@EquatableState`. */
  datatype Change<T, E> =
    | DataChange(data: seq<T>)
    | CanLoadMoreChange(canLoadMore: bool)
    | CurrentPageChange(currentPage: Option<int>)
    | IsEndOfDataChange(isEndOfData: bool)
    | StatusChange(status: Status<E>)

  /** The values of the observable properties. */
  datatype Fields<T, E> = Fields(data: seq<T>, canLoadMore: bool, currentPage: Option<int>, isEndOfData: bool, status: Status<E>)

  /** What a completion handler captured when its request was made. */
  datatype Request = Request(taskId: nat, action: Action, page: int)

  function Apply<T, E>(f: Fields<T, E>, c: Change<T, E>): Fields<T, E> {
    match c
    case DataChange(d) => f.(data := d)
    case CanLoadMoreChange(b) => f.(canLoadMore := b)
    case CurrentPageChange(p) => f.(currentPage := p)
    case IsEndOfDataChange(b) => f.(isEndOfData := b)
    case StatusChange(s) => f.(status := s)
  }

  /** `@State` properties announce every assignment, `@EquatableState` ones only a new value. */
  predicate Notifies<T, E>(f: Fields<T, E>, c: Change<T, E>) {
    match c
    case DataChange(_) => true
    case CanLoadMoreChange(b) => b != f.canLoadMore
    case CurrentPageChange(p) => p != f.currentPage
    case IsEndOfDataChange(b) => b != f.isEndOfData
    case StatusChange(_) => true
  }

  /** The properties after the assignments `cs`, made in order starting from `f`. */
  function After<T, E>(f: Fields<T, E>, cs: seq<Change<T, E>>): Fields<T, E> {
    if cs == [] then f else Apply(After(f, cs[..|cs| - 1]), cs[|cs| - 1])
  }

  /** What subscribers observe of one assignment made while the properties hold `f`. */
  function StepsOf<T, E>(f: Fields<T, E>, c: Change<T, E>, batching: bool): seq<Step<Change<T, E>>> {
    if Notifies(f, c) then SetSteps(c, batching) else []
  }

  /** What subscribers observe of the assignments `cs`, made in order starting from `f`. */
  function Notifications<T, E>(f: Fields<T, E>, cs: seq<Change<T, E>>, batching: bool): seq<Step<Change<T, E>>> {
    if cs == [] then []
    else Notifications(f, cs[..|cs| - 1], batching) + StepsOf(After(f, cs[..|cs| - 1]), cs[|cs| - 1], batching)
  }

  lemma AfterSnoc<T, E>(f: Fields<T, E>, cs: seq<Change<T, E>>, c: Change<T, E>, batching: bool)
    ensures After(f, cs + [c]) == Apply(After(f, cs), c)
    ensures Notifications(f, cs + [c], batching) == Notifications(f, cs, batching) + StepsOf(After(f, cs), c, batching)
  {
    assert (cs + [c])[..|cs|] == cs;
  }

  /** `AfterSnoc` with the trace that preceded the assignments. */
  lemma TraceSnoc<T, E>(f: Fields<T, E>, cs: seq<Change<T, E>>, c: Change<T, E>, batching: bool, before: seq<Step<Change<T, E>>>)
    ensures After(f, cs + [c]) == Apply(After(f, cs), c)
    ensures before + Notifications(f, cs + [c], batching) == before + Notifications(f, cs, batching) + StepsOf(After(f, cs), c, batching)
  {
    AfterSnoc(f, cs, c, batching);
    AppendAssoc(before, Notifications(f, cs, batching), StepsOf(After(f, cs), c, batching));
  }

  /** Assignments made inside a batch never reach the owner's publishers. */
  lemma {:induction false} BatchedNotificationsAreSilent<T, E>(f: Fields<T, E>, cs: seq<Change<T, E>>)
    ensures KindCount(Notifications(f, cs, true), OwnerWill) == 0
    ensures KindCount(Notifications(f, cs, true), OwnerDid) == 0
  {
    if cs != [] {
      var init := cs[..|cs| - 1];
      var last := cs[|cs| - 1];
      BatchedNotificationsAreSilent(f, init);
      SetStepsOrder(last, true);
      KindCountAppend(Notifications(f, init, true), StepsOf(After(f, init), last, true), OwnerWill);
      KindCountAppend(Notifications(f, init, true), StepsOf(After(f, init), last, true), OwnerDid);
    }
  }

  /** The assignments an accepted `loadData` makes to the flags, for each action. */
  function FlagChanges<T, E>(f: Fields<T, E>, action: Action): seq<Change<T, E>> {
    match action
    case ClearAndRefresh => [DataChange([]), CanLoadMoreChange(false), IsEndOfDataChange(false)]
    case Refresh => [CanLoadMoreChange(!f.isEndOfData && |f.data| > 0), IsEndOfDataChange(false)]
    case LoadMore => [CanLoadMoreChange(false)]
  }

  /** All the assignments an accepted `loadData` makes before it calls the provider. */
  function PreloadChanges<T, E>(f: Fields<T, E>, action: Action): seq<Change<T, E>> {
    FlagChanges(f, action) + [StatusChange(Loading)]
  }

  /** The assignments a current (not stale) completion makes. */
  function CompletionChanges<T, E>(f: Fields<T, E>, request: Request, result: LoadResult<T, E>,
                                   clearDataWhenFailure: bool, isCancelled: E -> bool): seq<Change<T, E>> {
    match result
    case Loaded(items, end) =>
      [DataChange(if request.action == LoadMore then f.data + items else items),
       IsEndOfDataChange(end), CurrentPageChange(Some(request.page)), CanLoadMoreChange(!end), StatusChange(Success)]
    case Failed(e) =>
      if isCancelled(e) then []
      else if clearDataWhenFailure then
        [DataChange([]), CurrentPageChange(None), IsEndOfDataChange(false), CanLoadMoreChange(false), StatusChange(Failure(e))]
      else [CanLoadMoreChange(!f.isEndOfData && |f.data| > 0), StatusChange(Failure(e))]
  }

  /** The assignments of `reset`, made inside one batch. */
  function ResetChanges<T, E>(): seq<Change<T, E>> {
    [CanLoadMoreChange(false), CurrentPageChange(None), IsEndOfDataChange(false), DataChange([]), StatusChange(Idle)]
  }

  /** The properties after two, three, four and five assignments in a row. */
  lemma After2<T, E>(f: Fields<T, E>, a: Change<T, E>, b: Change<T, E>)
    ensures After(f, [a, b]) == Apply(Apply(f, a), b)
  {
    var e: seq<Change<T, E>> := [];
    assert After(f, e + [a]) == Apply(After(f, e), a) by { assert (e + [a])[..0] == e; }
    assert [a, b] == [a] + [b] && e + [a] == [a];
    assert ([a] + [b])[..1] == [a];
  }

  lemma After3<T, E>(f: Fields<T, E>, a: Change<T, E>, b: Change<T, E>, c: Change<T, E>)
    ensures After(f, [a, b, c]) == Apply(Apply(Apply(f, a), b), c)
  {
    After2(f, a, b);
    assert [a, b, c][..2] == [a, b];
  }

  lemma After4<T, E>(f: Fields<T, E>, a: Change<T, E>, b: Change<T, E>, c: Change<T, E>, d: Change<T, E>)
    ensures After(f, [a, b, c, d]) == Apply(Apply(Apply(Apply(f, a), b), c), d)
  {
    After3(f, a, b, c);
    assert [a, b, c, d][..3] == [a, b, c];
  }

  lemma After5<T, E>(f: Fields<T, E>, a: Change<T, E>, b: Change<T, E>, c: Change<T, E>, d: Change<T, E>, e: Change<T, E>)
    ensures After(f, [a, b, c, d, e]) == Apply(Apply(Apply(Apply(Apply(f, a), b), c), d), e)
  {
    After4(f, a, b, c, d);
    assert [a, b, c, d, e][..4] == [a, b, c, d];
  }

  /** One assignment, unfolded; `before` is what the trace held before it. */
  lemma Chain1<T, E>(f: Fields<T, E>, a: Change<T, E>, batching: bool, before: seq<Step<Change<T, E>>>)
    ensures After(f, [a]) == Apply(f, a)
    ensures before + Notifications(f, [a], batching) == before + StepsOf(f, a, batching)
  {
    var e: seq<Change<T, E>> := [];
    AfterSnoc(f, e, a, batching);
    assert e + [a] == [a];
  }

  /** Two assignments in a row, unfolded; `before` is what the trace held before them. */
  lemma Chain2<T, E>(f: Fields<T, E>, a: Change<T, E>, b: Change<T, E>, batching: bool, before: seq<Step<Change<T, E>>>)
    ensures After(f, [a, b]) == Apply(Apply(f, a), b)
    ensures before + Notifications(f, [a, b], batching) == before + StepsOf(f, a, batching) + StepsOf(Apply(f, a), b, batching)
  {
    var e: seq<Change<T, E>> := [];
    AfterSnoc(f, e, a, batching);
    assert [a, b] == [a] + [b] && e + [a] == [a];
    AfterSnoc(f, [a], b, batching);
    AppendAssoc(before, StepsOf(f, a, batching), StepsOf(Apply(f, a), b, batching));
  }

  lemma Chain3<T, E>(f: Fields<T, E>, a: Change<T, E>, b: Change<T, E>, c: Change<T, E>, batching: bool, before: seq<Step<Change<T, E>>>)
    ensures After(f, [a, b, c]) == Apply(Apply(Apply(f, a), b), c)
    ensures before + Notifications(f, [a, b, c], batching)
         == before + StepsOf(f, a, batching) + StepsOf(Apply(f, a), b, batching) + StepsOf(Apply(Apply(f, a), b), c, batching)
  {
    Chain2(f, a, b, batching, before);
    assert [a, b, c] == [a, b] + [c];
    AfterSnoc(f, [a, b], c, batching);
    AppendAssoc(before, Notifications(f, [a, b], batching), StepsOf(Apply(Apply(f, a), b), c, batching));
  }

  lemma Chain4<T, E>(f: Fields<T, E>, a: Change<T, E>, b: Change<T, E>, c: Change<T, E>, d: Change<T, E>, batching: bool, before: seq<Step<Change<T, E>>>)
    ensures After(f, [a, b, c, d]) == Apply(Apply(Apply(Apply(f, a), b), c), d)
    ensures before + Notifications(f, [a, b, c, d], batching)
         == before + StepsOf(f, a, batching) + StepsOf(Apply(f, a), b, batching) + StepsOf(Apply(Apply(f, a), b), c, batching)
            + StepsOf(Apply(Apply(Apply(f, a), b), c), d, batching)
  {
    Chain3(f, a, b, c, batching, before);
    assert [a, b, c, d] == [a, b, c] + [d];
    AfterSnoc(f, [a, b, c], d, batching);
    AppendAssoc(before, Notifications(f, [a, b, c], batching), StepsOf(Apply(Apply(Apply(f, a), b), c), d, batching));
  }

  lemma Chain5<T, E>(f: Fields<T, E>, a: Change<T, E>, b: Change<T, E>, c: Change<T, E>, d: Change<T, E>, e: Change<T, E>, batching: bool, before: seq<Step<Change<T, E>>>)
    ensures After(f, [a, b, c, d, e]) == Apply(Apply(Apply(Apply(Apply(f, a), b), c), d), e)
    ensures before + Notifications(f, [a, b, c, d, e], batching)
         == before + StepsOf(f, a, batching) + StepsOf(Apply(f, a), b, batching) + StepsOf(Apply(Apply(f, a), b), c, batching)
            + StepsOf(Apply(Apply(Apply(f, a), b), c), d, batching)
            + StepsOf(Apply(Apply(Apply(Apply(f, a), b), c), d), e, batching)
  {
    Chain4(f, a, b, c, d, batching, before);
    assert [a, b, c, d, e] == [a, b, c, d] + [e];
    AfterSnoc(f, [a, b, c, d], e, batching);
    AppendAssoc(before, Notifications(f, [a, b, c, d], batching), StepsOf(Apply(Apply(Apply(Apply(f, a), b), c), d), e, batching));
  }

  /** What an accepted `loadData` leaves in the properties before the provider answers:
      clearAndRefresh empties the data and clears both flags; refresh keeps the data, re-enables
      load-more exactly when data is loaded and the end was not reached, and clears the end flag;
      loadMore disables load-more. The status is `loading` and the page is untouched. */
  lemma PreloadEffect<T, E>(f: Fields<T, E>, action: Action)
    ensures var g := After(f, PreloadChanges(f, action));
      && g.status == Loading && g.currentPage == f.currentPage
      && (action == ClearAndRefresh ==> g.data == [] && !g.canLoadMore && !g.isEndOfData)
      && (action == Refresh ==> g.data == f.data && g.canLoadMore == (!f.isEndOfData && |f.data| > 0) && !g.isEndOfData)
      && (action == LoadMore ==> g.data == f.data && !g.canLoadMore && g.isEndOfData == f.isEndOfData)
  {
    match action
    case ClearAndRefresh =>
      assert PreloadChanges(f, action) == [DataChange([]), CanLoadMoreChange(false), IsEndOfDataChange(false), StatusChange(Loading)];
      After4(f, DataChange([]), CanLoadMoreChange(false), IsEndOfDataChange(false), StatusChange(Loading));
    case Refresh =>
      assert PreloadChanges(f, action) == [CanLoadMoreChange(!f.isEndOfData && |f.data| > 0), IsEndOfDataChange(false), StatusChange(Loading)];
      After3(f, CanLoadMoreChange(!f.isEndOfData && |f.data| > 0), IsEndOfDataChange(false), StatusChange(Loading));
    case LoadMore =>
      assert PreloadChanges(f, action) == [CanLoadMoreChange(false), StatusChange(Loading)];
      After2(f, CanLoadMoreChange(false), StatusChange(Loading));
  }

  /** A current successful completion: refresh-type loads replace the data, loadMore appends
      to it; the requested page becomes the current page; load-more is enabled exactly when the
      end was not reached; the status is `success`. */
  lemma SuccessEffect<T, E>(f: Fields<T, E>, request: Request, items: seq<T>, end: bool,
                            clearDataWhenFailure: bool, isCancelled: E -> bool)
    ensures var g := After(f, CompletionChanges(f, request, Loaded(items, end), clearDataWhenFailure, isCancelled));
      && g.data == (if request.action == LoadMore then f.data + items else items)
      && g.currentPage == Some(request.page) && g.isEndOfData == end && g.canLoadMore == !end
      && g.status == Success
  {
    After5(f, DataChange(if request.action == LoadMore then f.data + items else items),
           IsEndOfDataChange(end), CurrentPageChange(Some(request.page)), CanLoadMoreChange(!end), StatusChange(Success));
  }

  /** A current failed completion: a cancellation changes nothing and notifies nothing; any other
      error empties everything when the manager clears data on failure, and otherwise only
      recomputes load-more from the data and the end flag; either way the status is `failure`. */
  lemma FailureEffect<T, E>(f: Fields<T, E>, request: Request, error: E,
                            clearDataWhenFailure: bool, isCancelled: E -> bool)
    ensures var cs := CompletionChanges(f, request, Failed(error), clearDataWhenFailure, isCancelled);
      var g := After(f, cs);
      && (isCancelled(error) ==> g == f && Notifications(f, cs, false) == [])
      && (!isCancelled(error) && clearDataWhenFailure ==>
            g == Fields([], false, None, false, Failure(error)))
      && (!isCancelled(error) && !clearDataWhenFailure ==>
            g == f.(canLoadMore := !f.isEndOfData && |f.data| > 0, status := Failure(error)))
  {
    if !isCancelled(error) {
      if clearDataWhenFailure {
        After5(f, DataChange([]), CurrentPageChange(None), IsEndOfDataChange(false), CanLoadMoreChange(false), StatusChange(Failure(error)));
      } else {
        After2(f, CanLoadMoreChange(!f.isEndOfData && |f.data| > 0), StatusChange(Failure(error)));
      }
    }
  }

  /** After a successful load of page p, loadMore asks for page p + 1; refresh-type loads always
      ask for the start page. */
  lemma NextPageAfterSuccess<T, E>(f: Fields<T, E>, request: Request, items: seq<T>, end: bool,
                                   startPage: int, clearDataWhenFailure: bool, isCancelled: E -> bool, next: Action)
    ensures var g := After(f, CompletionChanges(f, request, Loaded(items, end), clearDataWhenFailure, isCancelled));
      PageToLoad(startPage, g.currentPage, next) == if next == LoadMore then request.page + 1 else startPage
  {
    SuccessEffect(f, request, items, end, clearDataWhenFailure, isCancelled);
  }

  /** `reset` leaves the properties in the initial state whatever they held. */
  lemma ResetEffect<T, E>(f: Fields<T, E>)
    ensures After(f, ResetChanges()) == Fields([], false, None, false, Idle)
  {
    After5(f, CanLoadMoreChange(false), CurrentPageChange(None), IsEndOfDataChange(false), DataChange([]), StatusChange(Idle));
  }

  /** The notifications of `reset`: the owner's publishers fire once each, will first and did
      last, while the properties' own subjects still see the assignments to `data` and `status`. */
  lemma ResetNotifiesOwnerOnce<T, E>(f: Fields<T, E>)
    ensures var t := BatchSteps(Notifications(f, ResetChanges(), true));
      && KindCount(t, OwnerWill) == 1 && KindCount(t, OwnerDid) == 1
      && t[0] == OwnerWillChange && t[|t| - 1] == OwnerDidChange
      && FieldWillChange(DataChange([])) in t && FieldDidChange(StatusChange(Idle)) in t
  {
    var inner := Notifications(f, ResetChanges(), true);
    BatchedNotificationsAreSilent(f, ResetChanges());
    var first: seq<Step<Change<T, E>>> := [OwnerWillChange];
    var last: seq<Step<Change<T, E>>> := [OwnerDidChange];
    KindCountAppend(first, inner, OwnerWill);
    KindCountAppend(first + inner, last, OwnerWill);
    KindCountAppend(first, inner, OwnerDid);
    KindCountAppend(first + inner, last, OwnerDid);
    KindCountSingleton(first[0], OwnerWill);
    KindCountSingleton(first[0], OwnerDid);
    KindCountSingleton(last[0], OwnerWill);
    KindCountSingleton(last[0], OwnerDid);
    var cs: seq<Change<T, E>> := ResetChanges();
    assert cs[..4] == [CanLoadMoreChange(false), CurrentPageChange(None), IsEndOfDataChange(false), DataChange([])];
    assert cs[..4][..3] == cs[..3];
    var upToData := Notifications(f, cs[..4], true);
    assert Notifications(f, cs, true) == upToData + SetSteps(StatusChange(Idle), true);
    assert Notifications(f, cs[..4], true) == Notifications(f, cs[..3], true) + SetSteps(DataChange([]), true);
    assert FieldWillChange(DataChange([])) in upToData;
  }

  /** The manager. `observable` is the state container's record for this owner. */
  class PagingDataManager<T, E> {
    const observable: ObservableObject<Change<T, E>>
    const startPage: int
    const numberOfLoadsPerPage: int
    const clearDataWhenFailure: bool
    /** Error classification (`Error.isCancelled`), supplied by the environment. */
    const isCancelled: E -> bool

    var data: StateField<seq<T>>
    var canLoadMore: StateField<bool>
    var currentPage: StateField<Option<int>>
    var isEndOfData: StateField<bool>
    var status: StateField<Status<E>>

    /** The handle the provider returned for the request in flight, if any. */
    var currentLoadRequest: Option<nat>
    var currentTaskId: Option<nat>
    /** Source of fresh task identifiers (the model of `UUID()`). */
    var nextTaskId: nat
    /** Every request made of the provider, in order. */
    var requests: seq<Request>
    /** Every handle `cancel()` was called on, in order. */
    var cancelledHandles: seq<nat>
    ghost var Repr: set<object>

    ghost predicate Inv()
      reads this, Repr
    {
      && this in Repr && observable in Repr && observable.Repr <= Repr && this !in observable.Repr
      && observable.Valid()
      && (forall r :: r in requests ==> r.taskId < nextTaskId)
      && (currentTaskId.Some? ==> currentTaskId.value < nextTaskId)
    }

    /** The invariant between calls: no batch is open. */
    ghost predicate Valid()
      reads this, Repr
    {
      Inv() && !observable.isPerformingBatchStateUpdates
    }

    function Snapshot(): Fields<T, E>
      reads this
    {
      Fields(data.storage, canLoadMore.storage, currentPage.storage, isEndOfData.storage, status.storage)
    }

    ghost function Bookkeeping(): (Option<nat>, Option<nat>, nat, seq<Request>, seq<nat>)
      reads this
    {
      (currentLoadRequest, currentTaskId, nextTaskId, requests, cancelledHandles)
    }

    /** A completion of `r` arriving now would be discarded. */
    ghost predicate IsStale(r: Request)
      reads this
    {
      currentTaskId != Some(r.taskId)
    }

    constructor (startPage: int, numberOfLoadsPerPage: int, clearDataWhenFailure: bool, isCancelled: E -> bool)
      ensures Valid() && fresh(Repr)
      ensures Snapshot() == Fields([], false, None, false, Idle)
      ensures this.startPage == startPage && this.clearDataWhenFailure == clearDataWhenFailure
      ensures this.isCancelled == isCancelled && this.numberOfLoadsPerPage == numberOfLoadsPerPage
      ensures observable.trace == [] && currentLoadRequest == None && currentTaskId == None
      ensures requests == [] && cancelledHandles == []
    {
      this.startPage := startPage;
      this.numberOfLoadsPerPage := numberOfLoadsPerPage;
      this.clearDataWhenFailure := clearDataWhenFailure;
      this.isCancelled := isCancelled;
      var owner := new ObservableObject();
      observable := owner;
      data := NewStateField([]);
      canLoadMore := NewStateField(false);
      currentPage := NewStateField(None);
      isEndOfData := NewStateField(false);
      status := NewStateField(Idle);
      currentLoadRequest := None;
      currentTaskId := None;
      nextTaskId := 0;
      requests := [];
      cancelledHandles := [];
      new;
      Repr := {this} + owner.Repr;
    }

    function IsDataEmpty(): (empty: bool)
      reads this
      ensures empty <==> Snapshot().data == []
    {
      |data.storage| == 0
    }

    /** The setter of the `@State` property `data`. */
    method SetData(value: seq<T>)
      requires Inv()
      modifies Repr
      ensures Inv() && fresh(Repr - old(Repr))
      ensures Snapshot() == Apply(old(Snapshot()), DataChange(value))
      ensures observable.isPerformingBatchStateUpdates == old(observable.isPerformingBatchStateUpdates)
      ensures observable.trace == old(observable.trace) + StepsOf(old(Snapshot()), DataChange(value), observable.isPerformingBatchStateUpdates)
      ensures Bookkeeping() == old(Bookkeeping())
    {
      data := observable.SetState(data, value, (x: seq<T>) => DataChange(x));
      Repr := Repr + observable.Repr;
    }

    /** The setter of the `@EquatableState` property `canLoadMore`. */
    method SetCanLoadMore(value: bool)
      requires Inv()
      modifies Repr
      ensures Inv() && fresh(Repr - old(Repr))
      ensures Snapshot() == Apply(old(Snapshot()), CanLoadMoreChange(value))
      ensures observable.isPerformingBatchStateUpdates == old(observable.isPerformingBatchStateUpdates)
      ensures observable.trace == old(observable.trace) + StepsOf(old(Snapshot()), CanLoadMoreChange(value), observable.isPerformingBatchStateUpdates)
      ensures Bookkeeping() == old(Bookkeeping())
    {
      canLoadMore := observable.SetEquatableState(canLoadMore, value, (x: bool) => CanLoadMoreChange(x));
      Repr := Repr + observable.Repr;
    }

    /** The setter of the `@EquatableState` property `currentPage`. */
    method SetCurrentPage(value: Option<int>)
      requires Inv()
      modifies Repr
      ensures Inv() && fresh(Repr - old(Repr))
      ensures Snapshot() == Apply(old(Snapshot()), CurrentPageChange(value))
      ensures observable.isPerformingBatchStateUpdates == old(observable.isPerformingBatchStateUpdates)
      ensures observable.trace == old(observable.trace) + StepsOf(old(Snapshot()), CurrentPageChange(value), observable.isPerformingBatchStateUpdates)
      ensures Bookkeeping() == old(Bookkeeping())
    {
      currentPage := observable.SetEquatableState(currentPage, value, (x: Option<int>) => CurrentPageChange(x));
      Repr := Repr + observable.Repr;
    }

    /** The setter of the `@EquatableState` property `isEndOfData`. */
    method SetIsEndOfData(value: bool)
      requires Inv()
      modifies Repr
      ensures Inv() && fresh(Repr - old(Repr))
      ensures Snapshot() == Apply(old(Snapshot()), IsEndOfDataChange(value))
      ensures observable.isPerformingBatchStateUpdates == old(observable.isPerformingBatchStateUpdates)
      ensures observable.trace == old(observable.trace) + StepsOf(old(Snapshot()), IsEndOfDataChange(value), observable.isPerformingBatchStateUpdates)
      ensures Bookkeeping() == old(Bookkeeping())
    {
      isEndOfData := observable.SetEquatableState(isEndOfData, value, (x: bool) => IsEndOfDataChange(x));
      Repr := Repr + observable.Repr;
    }

    /** The setter of the `@State` property `status`. */
    method SetStatus(value: Status<E>)
      requires Inv()
      modifies Repr
      ensures Inv() && fresh(Repr - old(Repr))
      ensures Snapshot() == Apply(old(Snapshot()), StatusChange(value))
      ensures observable.isPerformingBatchStateUpdates == old(observable.isPerformingBatchStateUpdates)
      ensures observable.trace == old(observable.trace) + StepsOf(old(Snapshot()), StatusChange(value), observable.isPerformingBatchStateUpdates)
      ensures Bookkeeping() == old(Bookkeeping())
    {
      status := observable.SetState(status, value, (x: Status<E>) => StatusChange(x));
      Repr := Repr + observable.Repr;
    }

    /** `loadData(action:)`. The task identifier is replaced before anything else, so even a
        rejected loadMore makes the completion in flight stale. It may be called inside a batch
        opened by the caller, whose flag it leaves as it was. */
    method LoadData(action: Action, handle: Option<nat>) returns (accepted: bool)
      requires Inv()
      modifies Repr
      ensures Inv() && fresh(Repr - old(Repr))
      ensures observable.isPerformingBatchStateUpdates == old(observable.isPerformingBatchStateUpdates)
      ensures accepted == (action != LoadMore || old(canLoadMore.storage))
      ensures currentTaskId == Some(old(nextTaskId)) && nextTaskId == old(nextTaskId) + 1
      ensures forall r :: r in old(requests) ==> IsStale(r)
      ensures !accepted ==>
        && Snapshot() == old(Snapshot()) && observable.trace == old(observable.trace)
        && currentLoadRequest == old(currentLoadRequest) && requests == old(requests)
        && cancelledHandles == old(cancelledHandles)
      ensures accepted ==>
        && Snapshot() == After(old(Snapshot()), PreloadChanges(old(Snapshot()), action))
        && observable.trace == old(observable.trace) + Notifications(old(Snapshot()), PreloadChanges(old(Snapshot()), action), old(observable.isPerformingBatchStateUpdates))
        && cancelledHandles == old(cancelledHandles) + OptionToSeq(old(currentLoadRequest))
        && requests == old(requests) + [Request(old(nextTaskId), action, PageToLoad(startPage, old(currentPage.storage), action))]
        && currentLoadRequest == handle
    {
      var taskId := nextTaskId;
      nextTaskId := nextTaskId + 1;
      currentTaskId := Some(taskId);

      if action == LoadMore && !canLoadMore.storage {
        return false;
      }
      StartLoading(action, handle, taskId);
      accepted := true;
    }

    /** An accepted `loadData`: the property changes for `action`, then the request. */
    method StartLoading(action: Action, handle: Option<nat>, taskId: nat)
      requires Inv() && taskId < nextTaskId
      modifies Repr
      ensures Inv() && fresh(Repr - old(Repr))
      ensures observable.isPerformingBatchStateUpdates == old(observable.isPerformingBatchStateUpdates)
      ensures currentTaskId == old(currentTaskId) && nextTaskId == old(nextTaskId)
      ensures Snapshot() == After(old(Snapshot()), PreloadChanges(old(Snapshot()), action))
      ensures observable.trace == old(observable.trace)
        + Notifications(old(Snapshot()), PreloadChanges(old(Snapshot()), action), observable.isPerformingBatchStateUpdates)
      ensures cancelledHandles == old(cancelledHandles) + OptionToSeq(old(currentLoadRequest))
      ensures requests == old(requests) + [Request(taskId, action, PageToLoad(startPage, old(currentPage.storage), action))]
      ensures currentLoadRequest == handle
    {
      ghost var f0 := Snapshot();
      ghost var t0 := observable.trace;
      PrepareProperties(action);
      IssueRequest(action, handle, taskId);
      TraceSnoc(f0, FlagChanges(f0, action), StatusChange(Loading), observable.isPerformingBatchStateUpdates, t0);
    }

    /** The rest of an accepted `loadData`: the page to ask for, the cancellation of the request
        in flight, the `loading` status and the call to the provider. */
    method IssueRequest(action: Action, handle: Option<nat>, taskId: nat)
      requires Inv() && taskId < nextTaskId
      modifies Repr
      ensures Inv() && fresh(Repr - old(Repr))
      ensures observable.isPerformingBatchStateUpdates == old(observable.isPerformingBatchStateUpdates)
      ensures currentTaskId == old(currentTaskId) && nextTaskId == old(nextTaskId)
      ensures Snapshot() == Apply(old(Snapshot()), StatusChange(Loading))
      ensures observable.trace == old(observable.trace) + StepsOf(old(Snapshot()), StatusChange(Loading), observable.isPerformingBatchStateUpdates)
      ensures cancelledHandles == old(cancelledHandles) + OptionToSeq(old(currentLoadRequest))
      ensures requests == old(requests) + [Request(taskId, action, PageToLoad(startPage, old(currentPage.storage), action))]
      ensures currentLoadRequest == handle
    {
      var pageToLoad := PageToLoad(startPage, currentPage.storage, action);

      cancelledHandles := cancelledHandles + OptionToSeq(currentLoadRequest);
      currentLoadRequest := None;

      ghost var requests0 := requests;
      SetStatus(Loading);
      assert requests == requests0;

      requests := requests + [Request(taskId, action, pageToLoad)];
      currentLoadRequest := handle;
    }

    /** The assignments `loadData` makes, for each action, before it sets the status. */
    method PrepareProperties(action: Action)
      requires Inv()
      modifies Repr
      ensures Inv() && fresh(Repr - old(Repr))
      ensures observable.isPerformingBatchStateUpdates == old(observable.isPerformingBatchStateUpdates)
      ensures Bookkeeping() == old(Bookkeeping())
      ensures currentPage.storage == old(currentPage.storage)
      ensures Snapshot() == After(old(Snapshot()), FlagChanges(old(Snapshot()), action))
      ensures observable.trace == old(observable.trace)
        + Notifications(old(Snapshot()), FlagChanges(old(Snapshot()), action), observable.isPerformingBatchStateUpdates)
    {
      match action {
        case ClearAndRefresh => PrepareClearAndRefresh();
        case Refresh => PrepareRefresh();
        case LoadMore => PrepareLoadMore();
      }
    }

    method PrepareClearAndRefresh()
      requires Inv()
      modifies Repr
      ensures Inv() && fresh(Repr - old(Repr))
      ensures observable.isPerformingBatchStateUpdates == old(observable.isPerformingBatchStateUpdates)
      ensures Bookkeeping() == old(Bookkeeping())
      ensures currentPage.storage == old(currentPage.storage)
      ensures Snapshot() == After(old(Snapshot()), FlagChanges(old(Snapshot()), ClearAndRefresh))
      ensures observable.trace == old(observable.trace)
        + Notifications(old(Snapshot()), FlagChanges(old(Snapshot()), ClearAndRefresh), observable.isPerformingBatchStateUpdates)
    {
      ghost var f0 := Snapshot();
      ghost var t0 := observable.trace;
      SetData([]);
      SetCanLoadMore(false);
      SetIsEndOfData(false);
      Chain3(f0, DataChange([]), CanLoadMoreChange(false), IsEndOfDataChange(false), observable.isPerformingBatchStateUpdates, t0);
    }

    method PrepareRefresh()
      requires Inv()
      modifies Repr
      ensures Inv() && fresh(Repr - old(Repr))
      ensures observable.isPerformingBatchStateUpdates == old(observable.isPerformingBatchStateUpdates)
      ensures Bookkeeping() == old(Bookkeeping())
      ensures currentPage.storage == old(currentPage.storage)
      ensures Snapshot() == After(old(Snapshot()), FlagChanges(old(Snapshot()), Refresh))
      ensures observable.trace == old(observable.trace)
        + Notifications(old(Snapshot()), FlagChanges(old(Snapshot()), Refresh), observable.isPerformingBatchStateUpdates)
    {
      ghost var f0 := Snapshot();
      ghost var t0 := observable.trace;
      var enable := !isEndOfData.storage && !IsDataEmpty();
      SetCanLoadMore(enable);
      SetIsEndOfData(false);
      Chain2(f0, CanLoadMoreChange(enable), IsEndOfDataChange(false), observable.isPerformingBatchStateUpdates, t0);
    }

    method PrepareLoadMore()
      requires Inv()
      modifies Repr
      ensures Inv() && fresh(Repr - old(Repr))
      ensures observable.isPerformingBatchStateUpdates == old(observable.isPerformingBatchStateUpdates)
      ensures Bookkeeping() == old(Bookkeeping())
      ensures currentPage.storage == old(currentPage.storage)
      ensures Snapshot() == After(old(Snapshot()), FlagChanges(old(Snapshot()), LoadMore))
      ensures observable.trace == old(observable.trace)
        + Notifications(old(Snapshot()), FlagChanges(old(Snapshot()), LoadMore), observable.isPerformingBatchStateUpdates)
    {
      ghost var f0 := Snapshot();
      ghost var t0 := observable.trace;
      SetCanLoadMore(false);
      Chain1(f0, CanLoadMoreChange(false), observable.isPerformingBatchStateUpdates, t0);
    }

    /** The completion handler of `request`, called by the provider with `result`. */
    method Complete(request: Request, result: LoadResult<T, E>)
      requires Inv()
      requires request in requests
      modifies Repr
      ensures Inv() && fresh(Repr - old(Repr))
      ensures observable.isPerformingBatchStateUpdates == old(observable.isPerformingBatchStateUpdates)
      ensures currentTaskId == old(currentTaskId) && nextTaskId == old(nextTaskId)
      ensures requests == old(requests) && cancelledHandles == old(cancelledHandles)
      ensures old(IsStale(request)) ==>
        Snapshot() == old(Snapshot()) && observable.trace == old(observable.trace)
        && currentLoadRequest == old(currentLoadRequest)
      ensures !old(IsStale(request)) ==>
        var cs := CompletionChanges(old(Snapshot()), request, result, clearDataWhenFailure, isCancelled);
        && currentLoadRequest == None
        && Snapshot() == After(old(Snapshot()), cs)
        && observable.trace == old(observable.trace) + Notifications(old(Snapshot()), cs, old(observable.isPerformingBatchStateUpdates))
    {
      if currentTaskId != Some(request.taskId) {
        return;
      }
      currentLoadRequest := None;
      match result {
        case Loaded(items, end) =>
          CompleteWithData(request, items, end);
        case Failed(error) =>
          CompleteWithError(request, error);
      }
    }

    /** The success branch of the completion handler. */
    method CompleteWithData(request: Request, items: seq<T>, end: bool)
      requires Inv()
      modifies Repr
      ensures Inv() && fresh(Repr - old(Repr))
      ensures observable.isPerformingBatchStateUpdates == old(observable.isPerformingBatchStateUpdates)
      ensures Bookkeeping() == old(Bookkeeping())
      ensures var cs := CompletionChanges(old(Snapshot()), request, Loaded(items, end), clearDataWhenFailure, isCancelled);
        && Snapshot() == After(old(Snapshot()), cs)
        && observable.trace == old(observable.trace) + Notifications(old(Snapshot()), cs, observable.isPerformingBatchStateUpdates)
    {
      ghost var f0 := Snapshot();
      ghost var t0 := observable.trace;
      var newData := if request.action == LoadMore then data.storage + items else items;
      SetData(newData);
      SetIsEndOfData(end);
      SetCurrentPage(Some(request.page));
      SetCanLoadMore(!end);
      SetStatus(Success);
      Chain5(f0, DataChange(newData), IsEndOfDataChange(end), CurrentPageChange(Some(request.page)),
             CanLoadMoreChange(!end), StatusChange(Success), observable.isPerformingBatchStateUpdates, t0);
    }

    /** The failure branch of the completion handler. */
    method CompleteWithError(request: Request, error: E)
      requires Inv()
      modifies Repr
      ensures Inv() && fresh(Repr - old(Repr))
      ensures observable.isPerformingBatchStateUpdates == old(observable.isPerformingBatchStateUpdates)
      ensures Bookkeeping() == old(Bookkeeping())
      ensures var cs := CompletionChanges(old(Snapshot()), request, Failed(error), clearDataWhenFailure, isCancelled);
        && Snapshot() == After(old(Snapshot()), cs)
        && observable.trace == old(observable.trace) + Notifications(old(Snapshot()), cs, observable.isPerformingBatchStateUpdates)
    {
      if isCancelled(error) {
        return;
      }
      ghost var f0 := Snapshot();
      ghost var t0 := observable.trace;
      ghost var batching := observable.isPerformingBatchStateUpdates;
      if clearDataWhenFailure {
        SetData([]);
        SetCurrentPage(None);
        SetIsEndOfData(false);
        SetCanLoadMore(false);
        SetStatus(Failure(error));
        Chain5(f0, DataChange([]), CurrentPageChange(None), IsEndOfDataChange(false), CanLoadMoreChange(false),
               StatusChange(Failure(error)), batching, t0);
      } else {
        var enable := !isEndOfData.storage && !IsDataEmpty();
        SetCanLoadMore(enable);
        SetStatus(Failure(error));
        Chain2(f0, CanLoadMoreChange(enable), StatusChange(Failure(error)), batching, t0);
      }
    }

    /** `cancelCurrentLoadRequest()`: after it every completion is stale; the handle is
        cancelled but stays recorded. */
    method CancelCurrentLoadRequest()
      requires Inv()
      modifies this
      ensures Inv() && Repr == old(Repr)
      ensures currentTaskId == None && forall r :: IsStale(r)
      ensures cancelledHandles == old(cancelledHandles) + OptionToSeq(currentLoadRequest)
      ensures currentLoadRequest == old(currentLoadRequest) && nextTaskId == old(nextTaskId) && requests == old(requests)
      ensures Snapshot() == old(Snapshot())
    {
      currentTaskId := None;
      if currentLoadRequest.Some? {
        cancelledHandles := cancelledHandles + [currentLoadRequest.value];
      }
    }

    /** `reset()`: cancels the request in flight and, in one batch, restores every property to
        its initial value. */
    method Reset()
      requires Valid()
      modifies Repr
      ensures Valid() && fresh(Repr - old(Repr))
      ensures Snapshot() == After(old(Snapshot()), ResetChanges())
      ensures observable.trace == old(observable.trace) + BatchSteps(Notifications(old(Snapshot()), ResetChanges(), true))
      ensures currentTaskId == None && forall r :: IsStale(r)
      ensures cancelledHandles == old(cancelledHandles) + OptionToSeq(old(currentLoadRequest))
      ensures currentLoadRequest == old(currentLoadRequest) && nextTaskId == old(nextTaskId) && requests == old(requests)
    {
      ghost var f0 := Snapshot();
      ghost var t0 := observable.trace;
      observable.BeginBatchStateUpdates();
      Repr := Repr + observable.Repr;
      CancelCurrentLoadRequest();
      ResetProperties();
      ghost var inner := Notifications(f0, ResetChanges(), true);
      observable.EndBatchStateUpdates();
      Repr := Repr + observable.Repr;
      AppendAssoc(t0, [OwnerWillChange] + inner, [OwnerDidChange]);
      AppendAssoc(t0, [OwnerWillChange], inner);
    }

    /** The five assignments of `reset`, in the source's order. */
    method ResetProperties()
      requires Inv()
      modifies Repr
      ensures Inv() && fresh(Repr - old(Repr))
      ensures observable.isPerformingBatchStateUpdates == old(observable.isPerformingBatchStateUpdates)
      ensures Bookkeeping() == old(Bookkeeping())
      ensures Snapshot() == After(old(Snapshot()), ResetChanges())
      ensures observable.trace == old(observable.trace)
        + Notifications(old(Snapshot()), ResetChanges(), observable.isPerformingBatchStateUpdates)
    {
      ghost var f0 := Snapshot();
      ghost var t0 := observable.trace;
      SetCanLoadMore(false);
      SetCurrentPage(None);
      SetIsEndOfData(false);
      SetData([]);
      SetStatus(Idle);
      Chain5(f0, CanLoadMoreChange(false), CurrentPageChange(None), IsEndOfDataChange(false), DataChange([]),
             StatusChange(Idle), observable.isPerformingBatchStateUpdates, t0);
    }
  }
}

/**
 * The reactive state container of EDKit: an owner object exposes a "will change" and a
 * "did change" publisher, each behind an `isEnabled` gate; its `@State` and `@EquatableState`
 * properties notify both their own subjects and the owner's publishers on assignment; and
 * `performBatchStateUpdates` collapses many assignments into one owner-level will/did pair.
 *
 * Everything an owner's subscribers can observe is recorded, in order, in the owner's `trace`.
 */
module StateObservable {

  /** One step in the notification history of an owner. `Store` is the moment a property's
      storage is overwritten; the other four are sends on a subject or a publisher. */
  datatype Step<V> =
    | FieldWillChange(value: V)   // the property's own will-change subject
    | OwnerWillChange             // the owner's stateWillChange publisher
    | Store(value: V)             // the property's storage is written
    | FieldDidChange(value: V)    // the property's own did-change subject
    | OwnerDidChange              // the owner's stateDidChange publisher

  datatype Kind = FieldWill | OwnerWill | Stored | FieldDid | OwnerDid

  function KindOf<V>(s: Step<V>): Kind {
    match s
    case FieldWillChange(_) => FieldWill
    case OwnerWillChange => OwnerWill
    case Store(_) => Stored
    case FieldDidChange(_) => FieldDid
    case OwnerDidChange => OwnerDid
  }

  /** How many steps of kind `k` the trace `t` holds. */
  function KindCount<V>(t: seq<Step<V>>, k: Kind): nat {
    if t == [] then 0
    else KindCount(t[..|t| - 1], k) + (if KindOf(t[|t| - 1]) == k then 1 else 0)
  }

  lemma {:induction false} KindCountAppend<V>(a: seq<Step<V>>, b: seq<Step<V>>, k: Kind)
    ensures KindCount(a + b, k) == KindCount(a, k) + KindCount(b, k)
    decreases |b|
  {
    if b == [] {
      assert a + b == a;
    } else {
      assert (a + b)[..|a + b| - 1] == a + b[..|b| - 1];
      KindCountAppend(a, b[..|b| - 1], k);
    }
  }

  /** Will-kind steps come before the store, did-kind steps after it. */
  function Phase<V>(s: Step<V>): nat {
    match s
    case FieldWillChange(_) => 0
    case OwnerWillChange => 0
    case Store(_) => 1
    case FieldDidChange(_) => 2
    case OwnerDidChange => 2
  }

  /** The steps of one assignment that is not suppressed: the property's will-change subject,
      the owner's will-change publisher (unless a batch has disabled it), the store, the
      property's did-change subject, the owner's did-change publisher (unless disabled). */
  function SetSteps<V>(value: V, batching: bool): seq<Step<V>> {
    if batching then [FieldWillChange(value), Store(value), FieldDidChange(value)]
    else [FieldWillChange(value), OwnerWillChange, Store(value), FieldDidChange(value), OwnerDidChange]
  }

  /** One assignment notifies in the order will, store, did: exactly one store, every
      notification before it is a will-change and every one after it a did-change; both
      subjects of the property carry the new value; the owner's publishers fire once each
      outside a batch and never inside one. */
  lemma SetStepsOrder<V>(value: V, batching: bool)
    ensures var t := SetSteps(value, batching);
      && KindCount(t, Stored) == 1 && KindCount(t, FieldWill) == 1 && KindCount(t, FieldDid) == 1
      && KindCount(t, OwnerWill) == (if batching then 0 else 1)
      && KindCount(t, OwnerDid) == (if batching then 0 else 1)
      && (forall i, j :: 0 <= i < j < |t| ==> Phase(t[i]) <= Phase(t[j]))
      && t[0] == FieldWillChange(value) && t[|t| - 1] == (if batching then FieldDidChange(value) else OwnerDidChange)
      && Store(value) in t
  {
    var t := SetSteps(value, batching);
    var a: seq<Step<V>> := [FieldWillChange(value)];
    var b: seq<Step<V>> := [OwnerWillChange];
    var c: seq<Step<V>> := [Store(value)];
    var d: seq<Step<V>> := [FieldDidChange(value)];
    var e: seq<Step<V>> := [OwnerDidChange];
    forall k: Kind
      ensures KindCount(t, k) == KindCount(a, k) + (if batching then 0 else KindCount(b, k))
                                 + KindCount(c, k) + KindCount(d, k) + (if batching then 0 else KindCount(e, k))
    {
      if batching {
        assert t == a + c + d;
        KindCountAppend(a + c, d, k);
        KindCountAppend(a, c, k);
      } else {
        assert t == a + b + c + d + e;
        KindCountAppend(a + b + c + d, e, k);
        KindCountAppend(a + b + c, d, k);
        KindCountAppend(a + b, c, k);
        KindCountAppend(a, b, k);
      }
    }
    forall k: Kind
      ensures KindCount(a, k) == (if k == FieldWill then 1 else 0)
      ensures KindCount(b, k) == (if k == OwnerWill then 1 else 0)
      ensures KindCount(c, k) == (if k == Stored then 1 else 0)
      ensures KindCount(d, k) == (if k == FieldDid then 1 else 0)
      ensures KindCount(e, k) == (if k == OwnerDid then 1 else 0)
    {
      KindCountSingleton(FieldWillChange(value), k);
      KindCountSingleton(b[0], k);
      KindCountSingleton(Store(value), k);
      KindCountSingleton(FieldDidChange(value), k);
      KindCountSingleton(e[0], k);
    }
  }

  lemma KindCountSingleton<V>(x: Step<V>, k: Kind)
    ensures KindCount([x], k) == if KindOf(x) == k then 1 else 0
  {
    assert [x][..0] == [];
  }

  /** The steps of assigning `values`, one after another, to a `@State` property inside a batch. */
  function BatchedSetSteps<V>(values: seq<V>): seq<Step<V>> {
    if values == [] then []
    else BatchedSetSteps(values[..|values| - 1]) + SetSteps(values[|values| - 1], true)
  }

  lemma {:induction false} BatchedSetStepsCounts<V>(values: seq<V>)
    ensures KindCount(BatchedSetSteps(values), OwnerWill) == 0
    ensures KindCount(BatchedSetSteps(values), OwnerDid) == 0
    ensures KindCount(BatchedSetSteps(values), FieldWill) == |values|
    ensures KindCount(BatchedSetSteps(values), FieldDid) == |values|
    ensures KindCount(BatchedSetSteps(values), Stored) == |values|
  {
    if values != [] {
      var init := values[..|values| - 1];
      BatchedSetStepsCounts(init);
      SetStepsOrder(values[|values| - 1], true);
      KindCountAppend(BatchedSetSteps(init), SetSteps(values[|values| - 1], true), OwnerWill);
      KindCountAppend(BatchedSetSteps(init), SetSteps(values[|values| - 1], true), OwnerDid);
      KindCountAppend(BatchedSetSteps(init), SetSteps(values[|values| - 1], true), FieldWill);
      KindCountAppend(BatchedSetSteps(init), SetSteps(values[|values| - 1], true), FieldDid);
      KindCountAppend(BatchedSetSteps(init), SetSteps(values[|values| - 1], true), Stored);
    }
  }

  /** A whole batch: one owner will-change, then the assignments with owner signals disabled,
      then one owner did-change. */
  function BatchSteps<V>(inner: seq<Step<V>>): seq<Step<V>> {
    [OwnerWillChange] + inner + [OwnerDidChange]
  }

  /** However many assignments a batch performs, its owner publishers fire exactly once each,
      will-change first and did-change last, while every assignment still reaches the
      property's own subjects. */
  lemma BatchOfSetsNotifiesOwnerOnce<V>(values: seq<V>)
    ensures var t := BatchSteps(BatchedSetSteps(values));
      && KindCount(t, OwnerWill) == 1 && KindCount(t, OwnerDid) == 1
      && t[0] == OwnerWillChange && t[|t| - 1] == OwnerDidChange
      && KindCount(t, FieldWill) == |values| && KindCount(t, FieldDid) == |values|
  {
    var inner := BatchedSetSteps(values);
    BatchedSetStepsCounts(values);
    KindCountAppend([OwnerWillChange], inner, OwnerWill);
    KindCountAppend([OwnerWillChange] + inner, [OwnerDidChange], OwnerWill);
    KindCountAppend([OwnerWillChange], inner, OwnerDid);
    KindCountAppend([OwnerWillChange] + inner, [OwnerDidChange], OwnerDid);
    KindCountAppend([OwnerWillChange], inner, FieldWill);
    KindCountAppend([OwnerWillChange] + inner, [OwnerDidChange], FieldWill);
    KindCountAppend([OwnerWillChange], inner, FieldDid);
    KindCountAppend([OwnerWillChange] + inner, [OwnerDidChange], FieldDid);
    var first: seq<Step<V>> := [OwnerWillChange];
    var last: seq<Step<V>> := [OwnerDidChange];
    assert first[..0] == [] && last[..0] == [];
  }

  /** The storage of a `@State`/`@EquatableState` property, and the current value of its
      did-change subject (a current-value subject seeded with the initial value). */
  datatype StateField<U> = StateField(storage: U, subject: U)

  /** A property as its initializer creates it. */
  function NewStateField<U>(initial: U): (f: StateField<U>)
    ensures f.storage == initial && f.subject == f.storage
  {
    StateField(initial, initial)
  }

  ghost predicate Consistent<U>(f: StateField<U>) {
    f.subject == f.storage
  }

  /** A publisher of the owner (`StateObservableObjectPublisher`); `send` is gated by `isEnabled`. */
  class Publisher {
    var isEnabled: bool

    /** A new publisher is enabled. */
    constructor ()
      ensures isEnabled
    {
      isEnabled := true;
    }
  }

  /** The state the container attaches to one owner object: its two lazily created publishers,
      its batching flag and the history of everything its subscribers observe. */
  class ObservableObject<V> {
    var willChangePublisher: Publisher?
    var didChangePublisher: Publisher?
    var isPerformingBatchStateUpdates: bool
    var trace: seq<Step<V>>
    ghost var Repr: set<object>

    /** The frame: the owner and the publishers created so far, which are distinct. */
    ghost predicate WellFormed()
      reads this, Repr
    {
      && this in Repr
      && (willChangePublisher != null ==> willChangePublisher in Repr)
      && (didChangePublisher != null ==> didChangePublisher in Repr)
      && (willChangePublisher != null && didChangePublisher != null ==> willChangePublisher != didChangePublisher)
    }

    /** Outside a batch every existing publisher is enabled; inside one both exist and are
        disabled. */
    ghost predicate Valid()
      reads this, Repr
      ensures Valid() ==> this in Repr
    {
      && WellFormed()
      && (isPerformingBatchStateUpdates ==>
            willChangePublisher != null && didChangePublisher != null
            && !willChangePublisher.isEnabled && !didChangePublisher.isEnabled)
      && (!isPerformingBatchStateUpdates ==>
            (willChangePublisher != null ==> willChangePublisher.isEnabled)
            && (didChangePublisher != null ==> didChangePublisher.isEnabled))
    }

    /** Whether a send on stateWillChange would reach subscribers (a publisher not yet created
        will be created enabled). */
    ghost function WillChangeEnabled(): bool
      reads this, willChangePublisher
    {
      willChangePublisher == null || willChangePublisher.isEnabled
    }

    ghost function DidChangeEnabled(): bool
      reads this, didChangePublisher
    {
      didChangePublisher == null || didChangePublisher.isEnabled
    }

    constructor ()
      ensures Valid() && fresh(Repr)
      ensures willChangePublisher == null && didChangePublisher == null
      ensures !isPerformingBatchStateUpdates && trace == []
    {
      willChangePublisher := null;
      didChangePublisher := null;
      isPerformingBatchStateUpdates := false;
      trace := [];
      Repr := {this};
    }

    /** The `stateWillChange` getter: created and stored on first access, the same publisher
        on every later access. */
    method StateWillChange() returns (p: Publisher)
      requires WellFormed()
      modifies this
      ensures WellFormed() && fresh(Repr - old(Repr))
      ensures old(willChangePublisher) != null ==> p == old(willChangePublisher)
      ensures old(willChangePublisher) == null ==> fresh(p) && p.isEnabled
      ensures willChangePublisher == p
      ensures didChangePublisher == old(didChangePublisher)
      ensures isPerformingBatchStateUpdates == old(isPerformingBatchStateUpdates) && trace == old(trace)
    {
      if willChangePublisher == null {
        var created := new Publisher();
        willChangePublisher := created;
        Repr := Repr + {created};
      }
      p := willChangePublisher;
    }

    /** The `stateDidChange` getter, lazy in the same way. */
    method StateDidChange() returns (p: Publisher)
      requires WellFormed()
      modifies this
      ensures WellFormed() && fresh(Repr - old(Repr))
      ensures old(didChangePublisher) != null ==> p == old(didChangePublisher)
      ensures old(didChangePublisher) == null ==> fresh(p) && p.isEnabled
      ensures didChangePublisher == p
      ensures willChangePublisher == old(willChangePublisher)
      ensures isPerformingBatchStateUpdates == old(isPerformingBatchStateUpdates) && trace == old(trace)
    {
      if didChangePublisher == null {
        var created := new Publisher();
        didChangePublisher := created;
        Repr := Repr + {created};
      }
      p := didChangePublisher;
    }

    /** `stateWillChange.send()`: reaches subscribers only through an enabled publisher. */
    method SendStateWillChange()
      requires WellFormed()
      modifies this
      ensures WellFormed() && fresh(Repr - old(Repr))
      ensures willChangePublisher != null && WillChangeEnabled() == old(WillChangeEnabled())
      ensures didChangePublisher == old(didChangePublisher)
      ensures isPerformingBatchStateUpdates == old(isPerformingBatchStateUpdates)
      ensures trace == old(trace) + (if old(WillChangeEnabled()) then [OwnerWillChange] else [])
    {
      var p := StateWillChange();
      if p.isEnabled {
        trace := trace + [OwnerWillChange];
      }
    }

    /** `stateDidChange.send()`. */
    method SendStateDidChange()
      requires WellFormed()
      modifies this
      ensures WellFormed() && fresh(Repr - old(Repr))
      ensures didChangePublisher != null && DidChangeEnabled() == old(DidChangeEnabled())
      ensures willChangePublisher == old(willChangePublisher)
      ensures isPerformingBatchStateUpdates == old(isPerformingBatchStateUpdates)
      ensures trace == old(trace) + (if old(DidChangeEnabled()) then [OwnerDidChange] else [])
    {
      var p := StateDidChange();
      if p.isEnabled {
        trace := trace + [OwnerDidChange];
      }
    }

    /** The `@State` setter: notifies on every assignment, an equal value included. */
    method SetState<U>(field: StateField<U>, newValue: U, tag: U -> V) returns (updated: StateField<U>)
      requires Valid()
      modifies this
      ensures Valid() && fresh(Repr - old(Repr))
      ensures updated == StateField(newValue, newValue)
      ensures isPerformingBatchStateUpdates == old(isPerformingBatchStateUpdates)
      ensures trace == old(trace) + SetSteps(tag(newValue), old(isPerformingBatchStateUpdates))
    {
      trace := trace + [FieldWillChange(tag(newValue))];
      SendStateWillChange();
      updated := field.(storage := newValue);
      trace := trace + [Store(tag(newValue))];
      updated := updated.(subject := newValue);
      trace := trace + [FieldDidChange(tag(newValue))];
      SendStateDidChange();
    }

    /** The `@EquatableState` setter: an equal value is stored silently; a different one is
        announced exactly as by `@State`. */
    method SetEquatableState<U(==)>(field: StateField<U>, newValue: U, tag: U -> V) returns (updated: StateField<U>)
      requires Valid()
      modifies this
      ensures Valid() && fresh(Repr - old(Repr))
      ensures updated.storage == newValue
      ensures updated.subject == if field.storage == newValue then field.subject else newValue
      ensures isPerformingBatchStateUpdates == old(isPerformingBatchStateUpdates)
      ensures trace == old(trace)
        + (if field.storage == newValue then [] else SetSteps(tag(newValue), old(isPerformingBatchStateUpdates)))
    {
      if field.storage == newValue {
        updated := field.(storage := newValue);
        return;
      }
      updated := SetState(field, newValue, tag);
    }

    /** The part of `performBatchStateUpdates` before the update closure runs. A nested call is a
        programming error (an assertion in the source). */
    method BeginBatchStateUpdates()
      requires Valid()
      requires !isPerformingBatchStateUpdates
      modifies Repr
      ensures Valid() && fresh(Repr - old(Repr))
      ensures isPerformingBatchStateUpdates
      ensures trace == old(trace) + [OwnerWillChange]
    {
      SendStateWillChange();
      var will := StateWillChange();
      will.isEnabled := false;
      var did := StateDidChange();
      did.isEnabled := false;
      isPerformingBatchStateUpdates := true;
    }

    /** The part of `performBatchStateUpdates` after the update closure has run: both gates
        open again, then one did-change. */
    method EndBatchStateUpdates()
      requires Valid()
      requires isPerformingBatchStateUpdates
      modifies Repr
      ensures Valid() && fresh(Repr - old(Repr))
      ensures !isPerformingBatchStateUpdates
      ensures willChangePublisher != null && willChangePublisher.isEnabled
      ensures didChangePublisher != null && didChangePublisher.isEnabled
      ensures trace == old(trace) + [OwnerDidChange]
    {
      isPerformingBatchStateUpdates := false;
      var will := StateWillChange();
      will.isEnabled := true;
      var did := StateDidChange();
      did.isEnabled := true;
      SendStateDidChange();
    }

    /** `performBatchStateUpdates` with an update closure that assigns the values `values`, in
        order, to one `@State` property of the owner. */
    method PerformBatchStateUpdates<U>(field: StateField<U>, values: seq<U>, tag: U -> V) returns (updated: StateField<U>)
      requires Valid()
      requires !isPerformingBatchStateUpdates
      modifies Repr
      ensures Valid() && fresh(Repr - old(Repr))
      ensures !isPerformingBatchStateUpdates
      ensures updated == if values == [] then field else StateField(values[|values| - 1], values[|values| - 1])
      ensures trace == old(trace) + BatchSteps(BatchedSetSteps(seq(|values|, i requires 0 <= i < |values| => tag(values[i]))))
    {
      ghost var tags := seq(|values|, i requires 0 <= i < |values| => tag(values[i]));
      BeginBatchStateUpdates();
      updated := field;
      var i := 0;
      while i < |values|
        invariant 0 <= i <= |values|
        invariant Valid() && fresh(Repr - old(Repr))
        invariant isPerformingBatchStateUpdates
        invariant updated == if i == 0 then field else StateField(values[i - 1], values[i - 1])
        invariant trace == old(trace) + [OwnerWillChange] + BatchedSetSteps(tags[..i])
      {
        updated := SetState(updated, values[i], tag);
        assert tags[..i + 1][..i] == tags[..i];
        i := i + 1;
      }
      assert tags[..|values|] == tags;
      EndBatchStateUpdates();
    }
  }

  /** The box of a `@StateObject` property: it forwards the inner object's publishers to the
      context it has been bound to. `forwardings` counts the subscription pairs it holds. A
      subscription reads `context` each time it fires and none is ever dropped, so after a
      rebind every pair forwards to the new context: each send of the inner object reaches
      the context `forwardings` times. */
  class StateObjectBox<V> {
    var context: ObservableObject?<V>
    var forwardings: nat

    constructor ()
      ensures context == null && forwardings == 0
    {
      context := null;
      forwardings := 0;
    }

    /** Binding to the context already bound is a no-op; any other context replaces the bound
        one and adds one pair of forwarding subscriptions. */
    method Bind(to: ObservableObject<V>)
      modifies this
      ensures old(context) == to ==> context == old(context) && forwardings == old(forwardings)
      ensures old(context) != to ==> context == to && forwardings == old(forwardings) + 1
    {
      if context == to {
        return;
      }
      context := to;
      forwardings := forwardings + 1;
    }
  }
}

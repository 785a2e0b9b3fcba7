/** XKit's `TriState`: a value that is present, known to be absent, or not yet determined. */
module TriStates {
  import opened Wrappers

  datatype TriState<T> = Indeterminate | Absent | Present(value: T)

  predicate IsPresent<T>(t: TriState<T>) {
    match t
    case Present(_) => true
    case _ => false
  }

  predicate IsAbsent<T>(t: TriState<T>) {
    match t
    case Absent => true
    case _ => false
  }

  predicate IsIndeterminate<T>(t: TriState<T>) {
    match t
    case Indeterminate => true
    case _ => false
  }

  /** The wrapped value of a present state; `nil` for both other cases. */
  function Value<T>(t: TriState<T>): Option<T> {
    match t
    case Present(v) => Some(v)
    case _ => None
  }

  /** `init(_:)`: the optional's value is kept, `nil` becomes `absent`; the result is never
      indeterminate. */
  function Init<T>(v: Option<T>): (t: TriState<T>)
    ensures Value(t) == v
    ensures !IsIndeterminate(t)
    ensures v.None? <==> IsAbsent(t)
  {
    match v
    case Some(x) => Present(x)
    case None => Absent
  }

  /** Exactly one of the three case tests holds. */
  lemma ExactlyOneCase<T>(t: TriState<T>)
    ensures IsPresent(t) || IsAbsent(t) || IsIndeterminate(t)
    ensures !(IsPresent(t) && IsAbsent(t)) && !(IsPresent(t) && IsIndeterminate(t)) && !(IsAbsent(t) && IsIndeterminate(t))
  {
  }

  /** `isPresent` holds exactly when `value` is non-nil. */
  lemma PresentIffValue<T>(t: TriState<T>)
    ensures IsPresent(t) <==> Value(t).Some?
  {
  }

  /** Going through `TriState` and back gives the optional back. */
  lemma RoundTrip<T>(v: Option<T>)
    ensures Value(Init(v)) == v
  {
  }

  /** `init` is injective: distinct optionals give distinct states. */
  lemma InitInjective<T>(a: Option<T>, b: Option<T>)
    requires Init(a) == Init(b)
    ensures a == b
  {
    RoundTrip(a);
    RoundTrip(b);
  }
}

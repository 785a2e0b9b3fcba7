/**
 * `Once.execute(_:work:)`, present in XKit and EDKit with the same logic (XKit's lock is taken
 * with `lock()`/`unlock()`, EDKit's with `enter()`/`leave()`): the work of an identifier runs the
 * first time that identifier is executed and never again. The static state becomes the fields of
 * one object; the lock and the work are recorded as events.
 */
module Once {
  import opened Wrappers

  datatype Event = Acquire | Release | Work(identifier: string)

  /** The identifiers whose work ran, in order. */
  function Runs(events: seq<Event>): seq<string> {
    if events == [] then []
    else Runs(events[..|events| - 1]) + (if events[|events| - 1].Work? then [events[|events| - 1].identifier] else [])
  }

  /** How many times `x` occurs in `s`. */
  function Count(s: seq<string>, x: string): nat {
    if s == [] then 0 else Count(s[..|s| - 1], x) + (if s[|s| - 1] == x then 1 else 0)
  }

  lemma {:induction false} CountAppend(a: seq<string>, b: seq<string>, x: string)
    ensures Count(a + b, x) == Count(a, x) + Count(b, x)
    decreases |b|
  {
    if b != [] {
      assert (a + b)[..|a + b| - 1] == a + b[..|b| - 1];
      CountAppend(a, b[..|b| - 1], x);
    } else {
      assert a + b == a;
    }
  }

  lemma {:induction false} RunsAppend(a: seq<Event>, b: seq<Event>)
    ensures Runs(a + b) == Runs(a) + Runs(b)
    decreases |b|
  {
    if b != [] {
      assert (a + b)[..|a + b| - 1] == a + b[..|b| - 1];
      RunsAppend(a, b[..|b| - 1]);
    } else {
      assert a + b == a;
    }
  }

  /** The events of one `execute`: the lock is taken, the work runs if the identifier is new, the
      lock is released. */
  function ExecuteEvents(executed: set<string>, identifier: string): seq<Event> {
    [Acquire] + (if identifier in executed then [] else [Work(identifier)]) + [Release]
  }

  /** The lock alternates: every `Acquire` is followed by a `Release` before the next `Acquire`,
      and nothing is pending at the end. */
  predicate Balanced(events: seq<Event>) {
    Held(events) == Some(false)
  }

  /** Whether the lock is held after `events`, or `None` if they acquire a held lock or release
      a free one. */
  function Held(events: seq<Event>): Option<bool> {
    if events == [] then Some(false)
    else
      var h := Held(events[..|events| - 1]);
      match events[|events| - 1]
      case Acquire => if h == Some(false) then Some(true) else None
      case Release => if h == Some(true) then Some(false) else None
      case Work(_) => h
  }

  lemma {:induction false} HeldAppendExecute(events: seq<Event>, executed: set<string>, identifier: string)
    requires Balanced(events)
    ensures Balanced(events + ExecuteEvents(executed, identifier))
  {
    var e := ExecuteEvents(executed, identifier);
    var a := events + [Acquire];
    assert a[..|a| - 1] == events;
    assert Held(a) == Some(true);
    if identifier in executed {
      assert events + e == a + [Release];
      assert (a + [Release])[..|a|] == a;
    } else {
      var w := a + [Work(identifier)];
      assert w[..|w| - 1] == a;
      assert events + e == w + [Release];
      assert (w + [Release])[..|w|] == w;
    }
  }

  lemma RunsOfStep(executed: set<string>, identifier: string)
    ensures Runs(ExecuteEvents(executed, identifier)) == if identifier in executed then [] else [identifier]
  {
    var a: seq<Event> := [Acquire];
    assert Runs(a) == [] by { assert a[..0] == []; }
    if identifier in executed {
      assert ExecuteEvents(executed, identifier) == a + [Release];
      assert (a + [Release])[..1] == a;
    } else {
      var w := a + [Work(identifier)];
      assert w[..1] == a;
      assert ExecuteEvents(executed, identifier) == w + [Release];
      assert (w + [Release])[..2] == w;
    }
  }

  class Once {
    var executedIdentifiers: set<string>
    var events: seq<Event>

    /** Each identifier's work ran at most once, exactly the executed identifiers' work ran, and
        the lock was always released. */
    ghost predicate Valid()
      reads this
    {
      && (forall x :: Count(Runs(events), x) == (if x in executedIdentifiers then 1 else 0))
      && Balanced(events)
    }

    constructor ()
      ensures Valid() && executedIdentifiers == {} && events == []
    {
      executedIdentifiers := {};
      events := [];
    }

    /** `execute(_:work:)`. */
    method Execute(identifier: string)
      requires Valid()
      modifies this
      ensures Valid()
      ensures executedIdentifiers == old(executedIdentifiers) + {identifier}
      ensures events == old(events) + ExecuteEvents(old(executedIdentifiers), identifier)
      ensures Runs(events) == old(Runs(events)) + (if identifier in old(executedIdentifiers) then [] else [identifier])
    {
      ghost var e0 := events;
      ghost var x0 := executedIdentifiers;
      events := events + [Acquire];
      if identifier !in executedIdentifiers {
        executedIdentifiers := executedIdentifiers + {identifier};
        events := events + [Work(identifier)];
      }
      events := events + [Release];
      assert events == e0 + ExecuteEvents(x0, identifier);
      ExecuteStep(e0, x0, identifier);
    }
  }

  /** What one `execute` does to the run log and the lock. */
  lemma ExecuteStep(events: seq<Event>, executed: set<string>, identifier: string)
    requires forall x :: Count(Runs(events), x) == (if x in executed then 1 else 0)
    requires Balanced(events)
    ensures var e := events + ExecuteEvents(executed, identifier);
      && Runs(e) == Runs(events) + (if identifier in executed then [] else [identifier])
      && (forall x :: Count(Runs(e), x) == (if x in executed + {identifier} then 1 else 0))
      && Balanced(e)
  {
    RunsAppend(events, ExecuteEvents(executed, identifier));
    RunsOfStep(executed, identifier);
    CountsAfterStep(Runs(events), executed, identifier);
    HeldAppendExecute(events, executed, identifier);
  }

  /** An identifier's work is recorded once more exactly when it had not been executed. */
  lemma CountsAfterStep(runs: seq<string>, executed: set<string>, identifier: string)
    requires forall x :: Count(runs, x) == (if x in executed then 1 else 0)
    ensures forall x :: Count(runs + (if identifier in executed then [] else [identifier]), x)
                        == (if x in executed + {identifier} then 1 else 0)
  {
    if identifier in executed {
      assert runs + [] == runs;
      assert executed + {identifier} == executed;
    } else {
      assert (runs + [identifier])[..|runs|] == runs;
    }
  }
}

/**
 * XKit's `UndoRedoManager`: two stacks of undo/redo closure pairs. `undo` pops the last entry of
 * the undo stack, runs its undo closure and pushes the entry on the front of the redo stack;
 * `redo` does the reverse with the redo closure.
 */
module UndoRedo {
  import opened Wrappers

  datatype UndoRedoError = CannotUndo | CannotRedo

  /** One `add(undo:redo:)` call: the dictionary `[.undo: undo, .redo: redo]`. */
  datatype Entry<T> = Entry(undo: () -> Option<T>, redo: () -> Option<T>)

  /** The contents of both stacks; the top of the undo stack is its last element, the next redo
      the first element of the redo stack. */
  datatype Stacks<T> = Stacks(undoStack: seq<Entry<T>>, redoStack: seq<Entry<T>>)

  /** The stacks after a successful `undo`. */
  function Undone<T>(s: Stacks<T>): Stacks<T>
    requires s.undoStack != []
  {
    Stacks(s.undoStack[..|s.undoStack| - 1], [s.undoStack[|s.undoStack| - 1]] + s.redoStack)
  }

  /** The stacks after a successful `redo`. */
  function Redone<T>(s: Stacks<T>): Stacks<T>
    requires s.redoStack != []
  {
    Stacks(s.undoStack + [s.redoStack[0]], s.redoStack[1..])
  }

  function Size<T>(s: Stacks<T>): nat {
    |s.undoStack| + |s.redoStack|
  }

  /** `redo` right after `undo` restores both stacks exactly. */
  lemma RedoUndoes<T>(s: Stacks<T>)
    requires s.undoStack != []
    ensures Undone(s).redoStack != [] && Redone(Undone(s)) == s
  {
    var u := Undone(s);
    assert u.redoStack[1..] == s.redoStack;
    assert u.undoStack + [u.redoStack[0]] == s.undoStack;
  }

  /** `undo` right after `redo` restores both stacks exactly. */
  lemma UndoRedoes<T>(s: Stacks<T>)
    requires s.redoStack != []
    ensures Redone(s).undoStack != [] && Undone(Redone(s)) == s
  {
    var r := Redone(s);
    assert r.undoStack[..|r.undoStack| - 1] == s.undoStack;
    assert [r.undoStack[|r.undoStack| - 1]] + r.redoStack == s.redoStack;
  }

  /** Moving an entry between the stacks keeps the total number of entries. */
  lemma MovesKeepSize<T>(s: Stacks<T>)
    ensures s.undoStack != [] ==> Size(Undone(s)) == Size(s)
    ensures s.redoStack != [] ==> Size(Redone(s)) == Size(s)
  {
  }

  /** `n` undos in a row, as far as the undo stack allows, then as many redos: the redos give back
      the stacks from before the undos. */
  lemma {:induction false} RedoAllAfterUndoAll<T>(s: Stacks<T>, n: nat)
    requires n <= |s.undoStack|
    ensures |UndoN(s, n).redoStack| >= n && RedoN(UndoN(s, n), n) == s
  {
    if n > 0 {
      RedoAllAfterUndoAll(s, n - 1);
      var t := UndoN(s, n - 1);
      RedoUndoes(t);
    }
  }

  function UndoN<T>(s: Stacks<T>, n: nat): (r: Stacks<T>)
    requires n <= |s.undoStack|
    ensures |r.undoStack| == |s.undoStack| - n && |r.redoStack| == |s.redoStack| + n
  {
    if n == 0 then s else Undone(UndoN(s, n - 1))
  }

  function RedoN<T>(s: Stacks<T>, n: nat): Stacks<T>
    requires n <= |s.redoStack|
    decreases n
  {
    if n == 0 then s else RedoN(Redone(s), n - 1)
  }

  class UndoRedoManager<T> {
    var undoStack: seq<Entry<T>>
    var redoStack: seq<Entry<T>>

    function State(): Stacks<T>
      reads this
    {
      Stacks(undoStack, redoStack)
    }

    constructor ()
      ensures undoStack == [] && redoStack == []
    {
      undoStack := [];
      redoStack := [];
    }

    function CanUndo(): (b: bool)
      reads this
      ensures b <==> |State().undoStack| > 0
    {
      undoStack != []
    }

    function CanRedo(): (b: bool)
      reads this
      ensures b <==> |State().redoStack| > 0
    {
      redoStack != []
    }

    /** `add(undo:redo:)`: pushes the pair and forgets every redo. */
    method Add(undo: () -> Option<T>, redo: () -> Option<T>)
      modifies this
      ensures undoStack == old(undoStack) + [Entry(undo, redo)]
      ensures redoStack == []
    {
      undoStack := undoStack + [Entry(undo, redo)];
      ClearRedos();
    }

    /** `undo()`: fails with `cannotUndo` on an empty undo stack and then changes nothing;
        otherwise returns what the top entry's undo closure returns. */
    method Undo() returns (r: Result<Option<T>, UndoRedoError>)
      modifies this
      ensures old(undoStack) == [] ==> r == Err(CannotUndo) && State() == old(State())
      ensures old(undoStack) != [] ==>
        r == Ok(old(undoStack[|undoStack| - 1]).undo()) && State() == Undone(old(State()))
    {
      if !CanUndo() {
        return Err(CannotUndo);
      }
      var last := undoStack[|undoStack| - 1];
      undoStack := undoStack[..|undoStack| - 1];
      var val := last.undo();
      redoStack := [last] + redoStack;
      return Ok(val);
    }

    /** `redo()`: fails with `cannotRedo` on an empty redo stack and then changes nothing;
        otherwise returns what the first redo entry's redo closure returns. */
    method Redo() returns (r: Result<Option<T>, UndoRedoError>)
      modifies this
      ensures old(redoStack) == [] ==> r == Err(CannotRedo) && State() == old(State())
      ensures old(redoStack) != [] ==>
        r == Ok(old(redoStack[0]).redo()) && State() == Redone(old(State()))
    {
      if !CanRedo() {
        return Err(CannotRedo);
      }
      var last := redoStack[0];
      redoStack := redoStack[1..];
      var val := last.redo();
      undoStack := undoStack + [last];
      return Ok(val);
    }

    method Clear()
      modifies this
      ensures undoStack == [] && redoStack == []
    {
      undoStack := [];
      redoStack := [];
    }

    method ClearRedos()
      modifies this
      ensures redoStack == [] && undoStack == old(undoStack)
    {
      redoStack := [];
    }
  }
}

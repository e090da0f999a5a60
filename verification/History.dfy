/** What undo and redo go back and forth over, as a value and as the object changed in place (src-tauri/src/history.rs). */
module Histories {
  import opened Basics
  import opened Edits

  /** A history as a value: every edit kept, and how many of them the document has. */
  datatype Timeline = Timeline(edits: seq<Edit>, applied: nat)
  {
    predicate Valid() { applied <= |edits| }

    function Applied(): seq<Edit>
      requires Valid()
    {
      edits[..applied]
    }

    function Undone(): seq<Edit>
      requires Valid()
    {
      edits[applied..]
    }

    predicate Unsaved() { applied > 0 }

    predicate CanRedo() { applied < |edits| }

    function Push(edit: Edit): (t: Timeline)
      requires Valid()
      ensures t.Valid() && t.Applied() == Applied() + [edit] && t.Undone() == []
    {
      Timeline(edits[..applied] + [edit], applied + 1)
    }

    function Undo(): (t: Timeline)
      requires Valid() && applied > 0
      ensures t.Valid() && t.edits == edits && t.Applied() + [edits[applied - 1]] == Applied()
    {
      Timeline(edits, applied - 1)
    }

    function Redo(): (t: Timeline)
      requires Valid() && CanRedo()
      ensures t.Valid() && t.edits == edits && t.Applied() == Applied() + [edits[applied]]
    {
      Timeline(edits, applied + 1)
    }

    /** `edits'` pushed one after the other. */
    function PushAll(edits': seq<Edit>): (t: Timeline)
      requires Valid()
      ensures t.Valid() && t.Applied() == Applied() + edits'
      ensures edits' != [] ==> t.Undone() == []
      decreases |edits'|
    {
      if edits' == [] then this
      else PushAll(edits'[..|edits'| - 1]).Push(edits'[|edits'| - 1])
    }
  }

  const NOTHING := Timeline([], 0)

  /** The `History` of an open document: a vector and a counter, changed in place. */
  class History {
    var edits: seq<Edit>
    var applied: nat

    ghost predicate Valid()
      reads this
    {
      applied <= |edits|
    }

    ghost function View(): (t: Timeline)
      reads this
    {
      Timeline(edits, applied)
    }

    constructor ()
      ensures Valid() && View() == NOTHING
    {
      edits, applied := [], 0;
    }

    predicate Unsaved()
      reads this
    {
      applied > 0
    }

    predicate CanUndo()
      reads this
    {
      applied > 0
    }

    predicate CanRedo()
      reads this
    {
      applied < |edits|
    }

    predicate HasRoom()
      reads this
    {
      applied < MAX_UNDO_EDITS
    }

    /** The first `applied` of the edits. */
    function Applied(): (s: seq<Edit>)
      requires Valid()
      reads this
      ensures s == View().Applied()
    {
      edits[..applied]
    }

    /** `Undo().Applied()` of the value, if there is one. */
    function BeforeLast(): (s: Option<seq<Edit>>)
      requires Valid()
      reads this
      ensures s.Some? <==> applied > 0
      ensures s.Some? ==> s.value + [edits[applied - 1]] == Applied()
      ensures s.Some? ==> s.value == View().Undo().Applied()
    {
      if applied > 0 then Some(edits[..applied - 1]) else Option.None
    }

    /** The first edit beyond `applied`, if there is one. */
    function Next(): (s: Option<Edit>)
      requires Valid()
      reads this
      ensures s.Some? <==> View().Undone() != []
      ensures s.Some? ==> s.value == View().Undone()[0]
    {
      if applied < |edits| then Some(edits[applied]) else Option.None
    }

    /** `edit` goes on top of the applied ones; the undone tail is cut off. */
    method Push(edit: Edit)
      requires Valid()
      modifies this
      ensures Valid() && View() == old(View()).Push(edit)
    {
      edits := edits[..applied];
      edits := edits + [edit];
      applied := applied + 1;
    }

    /** One edit fewer is applied, if any is. */
    method MarkUndone()
      requires Valid()
      modifies this
      ensures Valid()
      ensures View() == if old(applied) > 0 then old(View()).Undo() else old(View())
    {
      if applied > 0 {
        applied := applied - 1;
      }
    }

    /** One edit more is applied, if one is left. */
    method MarkRedone()
      requires Valid()
      modifies this
      ensures Valid()
      ensures View() == if old(CanRedo()) then old(View()).Redo() else old(View())
    {
      applied := if applied + 1 <= |edits| then applied + 1 else |edits|;
    }

    /** Starts over, with no edits at all. */
    method Saved()
      modifies this
      ensures Valid() && View() == NOTHING
    {
      edits, applied := [], 0;
    }
  }

  // ----- how the steps go together

  /** Undoing and making again is nothing, from either side. */
  lemma UndoRedo(t: Timeline)
    requires t.Valid()
    ensures t.applied > 0 ==> t.Undo().CanRedo() && t.Undo().Redo() == t
    ensures t.CanRedo() ==> t.Redo().applied > 0 && t.Redo().Undo() == t
  {
  }

  function UndoTimes(t: Timeline, n: nat): (u: Timeline)
    requires t.Valid() && n <= t.applied
    ensures u.Valid()
    decreases n
  {
    if n == 0 then t else UndoTimes(t.Undo(), n - 1)
  }

  function RedoTimes(t: Timeline, n: nat): (u: Timeline)
    requires t.Valid() && t.applied + n <= |t.edits|
    ensures u.Valid()
    decreases n
  {
    if n == 0 then t else RedoTimes(t.Redo(), n - 1)
  }

  /** Undoing `n` edits leaves the others in place, and making `n` again brings all of it back. */
  lemma {:induction false} UndoThenRedoTimes(t: Timeline, n: nat)
    requires t.Valid() && n <= t.applied
    ensures UndoTimes(t, n) == Timeline(t.edits, t.applied - n)
    ensures RedoTimes(UndoTimes(t, n), n) == t
    decreases n
  {
    if n > 0 {
      UndoThenRedoTimes(t.Undo(), n - 1);
      var u := Timeline(t.edits, t.applied - n);
      RedoOneMore(u, n - 1);
    }
  }

  lemma {:induction false} RedoOneMore(t: Timeline, n: nat)
    requires t.Valid() && t.applied + n + 1 <= |t.edits|
    ensures RedoTimes(t, n) == Timeline(t.edits, t.applied + n)
    ensures RedoTimes(t, n + 1) == RedoTimes(t, n).Redo()
    decreases n
  {
    if n > 0 {
      RedoOneMore(t.Redo(), n - 1);
    }
  }
}

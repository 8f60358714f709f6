/**
 * The operation log of the whiteboard server: the committed drawing history and the redo
 * stack, with linear (global) undo and redo.
 *
 * The pure functions on `Log` values state what each operation does; the class
 * `OperationLog` holds the two sequences the server mutates in place and is proved
 * against those functions.
 */
module DrawingState {
  import opened Wrappers

  /** The drawing fields of a line as a client builds it: start and end point, stroke
    * colour and stroke width. The server never computes with them; it only copies them. */
  datatype Segment = Segment(x0: real, y0: real, x1: real, y1: real, color: string, width: real)

  /** The payload of a `draw` event: the segment fields and, when the sending client put
    * one in, an `id` property of its own. */
  datatype Line = Line(segment: Segment, id: Option<real>)

  /** A committed line operation: an identifier and the copied segment fields. */
  datatype Operation = Operation(id: real, segment: Segment)

  /** Builds `{ id: stamp, ...line }`. The spread comes after `id`, so an `id` property
    * carried by the payload replaces the server's stamp. */
  function Stamped(line: Line, stamp: real): Operation
  {
    Operation(if line.id.Some? then line.id.value else stamp, line.segment)
  }

  /** The whole state of the log: `drawingHistory` and `redoStack` (top of stack last). */
  datatype Log = Log(history: seq<Operation>, redo: seq<Operation>)

  function Reversed<T>(s: seq<T>): seq<T>
  {
    if s == [] then [] else Reversed(s[1..]) + [s[0]]
  }

  /** Every operation the log still holds, in the order it was committed: the history,
    * followed by the redo stack read from its top down. */
  function Created(s: Log): seq<Operation>
  {
    s.history + Reversed(s.redo)
  }

  /** `addLine`: commits one operation carrying all of the line's fields and returns it. */
  function AddLineStep(s: Log, line: Line, stamp: real): (r: (Operation, Log))
    ensures r.0.segment == line.segment
    ensures line.id == None ==> r.0.id == stamp
    ensures line.id != None ==> r.0.id == line.id.value
    ensures r.1.history == s.history + [r.0]
    ensures r.1.redo == []
  {
    var op := Stamped(line, stamp);
    (op, Log(s.history + [op], []))
  }

  /** `undoOperation`: `None` (the code's `null`) exactly when there is nothing to undo. */
  function UndoStep(s: Log): (r: (Option<seq<Operation>>, Log))
    ensures r.0 == None <==> s.history == []
    ensures s.history == [] ==> r.1 == s
    ensures s.history != [] ==>
      && r.1.history == s.history[..|s.history| - 1]
      && r.1.redo == s.redo + [s.history[|s.history| - 1]]
      && r.0 == Some(r.1.history)
  {
    if s.history == [] then (None, s)
    else
      var last := s.history[|s.history| - 1];
      var h := s.history[..|s.history| - 1];
      (Some(h), Log(h, s.redo + [last]))
  }

  /** `redoOperation`: `None` exactly when the redo stack is empty. */
  function RedoStep(s: Log): (r: (Option<seq<Operation>>, Log))
    ensures r.0 == None <==> s.redo == []
    ensures s.redo == [] ==> r.1 == s
    ensures s.redo != [] ==>
      && r.1.history == s.history + [s.redo[|s.redo| - 1]]
      && r.1.redo == s.redo[..|s.redo| - 1]
      && r.0 == Some(r.1.history)
  {
    if s.redo == [] then (None, s)
    else
      var top := s.redo[|s.redo| - 1];
      var h := s.history + [top];
      (Some(h), Log(h, s.redo[..|s.redo| - 1]))
  }

  /** `clearHistory`: both sequences become empty; the empty history is returned. */
  function ClearStep(s: Log): (r: (seq<Operation>, Log))
    ensures r.1.history == [] && r.1.redo == []
    ensures r.0 == r.1.history
  {
    ([], Log([], []))
  }

  /** `k` undos in a row. */
  function UndoTimes(s: Log, k: nat): Log
    decreases k
  {
    if k == 0 then s else UndoTimes(UndoStep(s).1, k - 1)
  }

  lemma {:induction false} ReversedSnoc<T>(s: seq<T>, x: T)
    ensures Reversed(s + [x]) == [x] + Reversed(s)
  {
    if s == [] {
      assert s + [x] == [x];
    } else {
      assert (s + [x])[1..] == s[1..] + [x];
      ReversedSnoc(s[1..], x);
    }
  }

  /** Undo moves one operation from the history to the redo stack and loses none. */
  lemma UndoConserves(s: Log)
    ensures Created(UndoStep(s).1) == Created(s)
  {
    if s.history != [] {
      var n := |s.history|;
      ReversedSnoc(s.redo, s.history[n - 1]);
      assert s.history[..n - 1] + [s.history[n - 1]] == s.history;
    }
  }

  /** Redo moves one operation from the redo stack back to the history and loses none. */
  lemma RedoConserves(s: Log)
    ensures Created(RedoStep(s).1) == Created(s)
  {
    if s.redo != [] {
      var n := |s.redo|;
      ReversedSnoc(s.redo[..n - 1], s.redo[n - 1]);
      assert s.redo[..n - 1] + [s.redo[n - 1]] == s.redo;
    }
  }

  /** An undo followed at once by a redo restores the exact history and redo stack. */
  lemma UndoThenRedo(s: Log)
    requires s.history != []
    ensures RedoStep(UndoStep(s).1) == (Some(s.history), s)
  {
    var n := |s.history|;
    assert s.history[..n - 1] + [s.history[n - 1]] == s.history;
    assert (s.redo + [s.history[n - 1]])[..|s.redo|] == s.redo;
  }

  /** A redo followed at once by an undo restores the exact history and redo stack. */
  lemma RedoThenUndo(s: Log)
    requires s.redo != []
    ensures UndoStep(RedoStep(s).1).1 == s
  {
    var n := |s.redo|;
    assert s.redo[..n - 1] + [s.redo[n - 1]] == s.redo;
    assert (s.history + [s.redo[n - 1]])[..|s.history|] == s.history;
  }

  /** A new line invalidates every pending redo: redo afterwards reports nothing to redo. */
  lemma AddLineDiscardsRedo(s: Log, line: Line, stamp: real)
    ensures RedoStep(AddLineStep(s, line, stamp).1) == (None, AddLineStep(s, line, stamp).1)
    ensures Created(AddLineStep(s, line, stamp).1) == s.history + [AddLineStep(s, line, stamp).0]
  {
  }

  /** Clearing twice gives what clearing once gives. */
  lemma ClearIdempotent(s: Log)
    ensures ClearStep(ClearStep(s).1) == ClearStep(s)
  {
  }

  /** `k` undos drop the last `k` operations of the history, keep the others in commit
    * order, and lose none of them. */
  lemma {:induction false} UndoTimesTruncates(s: Log, k: nat)
    requires k <= |s.history|
    ensures UndoTimes(s, k).history == s.history[..|s.history| - k]
    ensures Created(UndoTimes(s, k)) == Created(s)
    decreases k
  {
    if k > 0 {
      var t := UndoStep(s).1;
      UndoConserves(s);
      UndoTimesTruncates(t, k - 1);
      assert t.history[..|t.history| - (k - 1)] == s.history[..|s.history| - k];
    }
  }

  /** Commit A, B, C; undo; undo; redo; commit D: C is discarded for good. */
  lemma UndoRedoScenario(a: Line, b: Line, c: Line, d: Line, ta: real, tb: real, tc: real, td: real)
    ensures
      var (opA, opB, opC, opD) := (Stamped(a, ta), Stamped(b, tb), Stamped(c, tc), Stamped(d, td));
      var s3 := AddLineStep(AddLineStep(AddLineStep(Log([], []), a, ta).1, b, tb).1, c, tc).1;
      var s4 := UndoStep(s3).1;
      var s5 := UndoStep(s4).1;
      var s6 := RedoStep(s5).1;
      var s7 := AddLineStep(s6, d, td).1;
      && s3 == Log([opA, opB, opC], [])
      && s4 == Log([opA, opB], [opC])
      && s5 == Log([opA], [opC, opB])
      && s6 == Log([opA, opB], [opC])
      && s7 == Log([opA, opB, opD], [])
      && RedoStep(s7).0 == None
  {
  }

  /** The log the server mutates in place: `drawingHistory` and `redoStack`. */
  class OperationLog {
    var history: seq<Operation>
    var redoStack: seq<Operation>

    function State(): Log
      reads this
    {
      Log(history, redoStack)
    }

    /** Both arrays start empty when the module is loaded. */
    constructor ()
      ensures history == [] && redoStack == []
    {
      history := [];
      redoStack := [];
    }

    /** `addLine`: appends one operation holding the line's fields and an id, returns it and
      * empties the redo stack. */
    method AddLine(line: Line, stamp: real) returns (op: Operation)
      modifies this
      ensures op.segment == line.segment
      ensures op.id == (if line.id.Some? then line.id.value else stamp)
      ensures history == old(history) + [op]
      ensures redoStack == []
      ensures (op, State()) == AddLineStep(old(State()), line, stamp)
    {
      op := Stamped(line, stamp);
      history := history + [op];
      redoStack := [];
    }

    /** `undoOperation`: on an empty history returns `None` and changes nothing; otherwise
      * pops the last operation onto the redo stack and returns the shortened history. */
    method UndoOperation() returns (r: Option<seq<Operation>>)
      modifies this
      ensures old(history) == [] ==> r == None && history == [] && redoStack == old(redoStack)
      ensures old(history) != [] ==>
        && history == old(history)[..|old(history)| - 1]
        && redoStack == old(redoStack) + [old(history)[|old(history)| - 1]]
        && r == Some(history)
      ensures Created(State()) == Created(old(State()))
      ensures (r, State()) == UndoStep(old(State()))
    {
      UndoConserves(State());
      if history == [] {
        return None;
      }
      var last := history[|history| - 1];
      history := history[..|history| - 1];
      redoStack := redoStack + [last];
      r := Some(history);
    }

    /** `redoOperation`: on an empty redo stack returns `None` and changes nothing; otherwise
      * moves the top of the redo stack to the end of the history and returns the history. */
    method RedoOperation() returns (r: Option<seq<Operation>>)
      modifies this
      ensures old(redoStack) == [] ==> r == None && history == old(history) && redoStack == []
      ensures old(redoStack) != [] ==>
        && history == old(history) + [old(redoStack)[|old(redoStack)| - 1]]
        && redoStack == old(redoStack)[..|old(redoStack)| - 1]
        && r == Some(history)
      ensures Created(State()) == Created(old(State()))
      ensures (r, State()) == RedoStep(old(State()))
    {
      RedoConserves(State());
      if redoStack == [] {
        return None;
      }
      var top := redoStack[|redoStack| - 1];
      redoStack := redoStack[..|redoStack| - 1];
      history := history + [top];
      r := Some(history);
    }

    /** `clearHistory`: empties both sequences and returns the (empty) history. */
    method ClearHistory() returns (h: seq<Operation>)
      modifies this
      ensures history == [] && redoStack == []
      ensures h == history
      ensures (h, State()) == ClearStep(old(State()))
    {
      history := [];
      redoStack := [];
      h := history;
    }

    /** `getHistory`: the current history; nothing changes. */
    method GetHistory() returns (h: seq<Operation>)
      ensures h == history
    {
      h := history;
    }
  }
}

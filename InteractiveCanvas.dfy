/**
 * The drawing canvas's undo/redo history and its painting flag.
 *
 * `S` stands for an opaque `ImageData` snapshot; `canvas` is the snapshot the
 * canvas currently shows. Drawing calls are opaque: a stroke is given as the
 * snapshot it produces.
 */
module Canvas {

  datatype CanvasState<S> = CanvasState(canvas: S, history: seq<S>, historyStep: int, painting: bool)

  /** The history cursor never leaves `[0, |history|]`. */
  predicate CursorInRange<S>(st: CanvasState<S>) {
    0 <= st.historyStep <= |st.history|
  }

  /** A fresh canvas: empty history, cursor at 0, not painting. */
  function Initial<S>(pixels: S): (st: CanvasState<S>)
    ensures CursorInRange(st) && st.history == [] && st.historyStep == 0 && !st.painting
  {
    CanvasState(pixels, [], 0, false)
  }

  /**
   * saveState: drop every entry from the cursor on, push the current
   * snapshot, and move the cursor past it.
   */
  function AfterSave<S>(st: CanvasState<S>): (r: CanvasState<S>)
    requires CursorInRange(st)
    ensures CursorInRange(r)
    ensures r.history == st.history[..st.historyStep] + [st.canvas]
    ensures r.historyStep == |r.history| == st.historyStep + 1
    ensures r.canvas == st.canvas && r.painting == st.painting
  {
    var kept := if st.historyStep < |st.history| then st.history[..st.historyStep] else st.history;
    var pushed := kept + [st.canvas];
    st.(history := pushed, historyStep := |pushed|)
  }

  /** undo: step back once and show the entry under the cursor; nothing at 0. */
  function AfterUndo<S>(st: CanvasState<S>): (r: CanvasState<S>)
    requires CursorInRange(st)
    ensures CursorInRange(r) && r.history == st.history && r.painting == st.painting
    ensures st.historyStep == 0 ==> r == st
    ensures st.historyStep > 0 ==> r.historyStep == st.historyStep - 1 && r.canvas == st.history[r.historyStep]
  {
    if st.historyStep > 0 then
      var step := st.historyStep - 1;
      st.(historyStep := step, canvas := st.history[step])
    else
      st
  }

  /** redo: step forward once and show the entry under the cursor, unless at the last entry or beyond. */
  function AfterRedo<S>(st: CanvasState<S>): (r: CanvasState<S>)
    requires CursorInRange(st)
    ensures CursorInRange(r) && r.history == st.history && r.painting == st.painting
    ensures st.historyStep >= |st.history| - 1 ==> r == st
    ensures st.historyStep < |st.history| - 1 ==> r.historyStep == st.historyStep + 1 && r.canvas == st.history[r.historyStep]
  {
    if st.historyStep < |st.history| - 1 then
      var step := st.historyStep + 1;
      st.(historyStep := step, canvas := st.history[step])
    else
      st
  }

  /** startPaint: painting is on and exactly one snapshot (the canvas before the stroke) is saved. */
  function AfterStartPaint<S>(st: CanvasState<S>): (r: CanvasState<S>)
    requires CursorInRange(st)
    ensures CursorInRange(r) && r.painting && r.canvas == st.canvas
    ensures r.history == st.history[..st.historyStep] + [st.canvas] && r.historyStep == |r.history|
  {
    AfterSave(st.(painting := true))
  }

  /** paint: the stroke reaches the canvas only while painting; the history is never touched. */
  function AfterPaint<S>(st: CanvasState<S>, stroked: S): (r: CanvasState<S>)
    ensures r.history == st.history && r.historyStep == st.historyStep && r.painting == st.painting
    ensures r.canvas == if st.painting then stroked else st.canvas
  {
    if !st.painting then st else st.(canvas := stroked)
  }

  /** endPaint: painting is off; nothing else changes. */
  function AfterEndPaint<S>(st: CanvasState<S>): (r: CanvasState<S>)
    ensures !r.painting && r.canvas == st.canvas && r.history == st.history && r.historyStep == st.historyStep
  {
    st.(painting := false)
  }

  /** clearCanvas: the canvas is blanked first, so the blank image is what gets saved. */
  function AfterClear<S>(st: CanvasState<S>, blank: S): (r: CanvasState<S>)
    requires CursorInRange(st)
    ensures CursorInRange(r) && r.canvas == blank && r.painting == st.painting
    ensures r.history == st.history[..st.historyStep] + [blank] && r.historyStep == |r.history|
  {
    AfterSave(st.(canvas := blank))
  }

  /**
   * resizeCanvas: assigning the canvas's width and height blanks the bitmap.
   * Nothing is saved, so the image shown before the resize is only in the
   * history if a save recorded it.
   */
  function AfterResize<S>(st: CanvasState<S>, blank: S): (r: CanvasState<S>)
    ensures r.canvas == blank
    ensures r.history == st.history && r.historyStep == st.historyStep && r.painting == st.painting
  {
    st.(canvas := blank)
  }

  /** After a save, a resize is undone by one undo, which shows the saved image again. */
  lemma UndoAfterResizeShowsSaved<S>(st: CanvasState<S>, blank: S)
    requires CursorInRange(st)
    ensures AfterUndo(AfterResize(AfterSave(st), blank)).canvas == st.canvas
    ensures AfterUndo(AfterResize(AfterSave(st), blank)).historyStep == st.historyStep
  {
  }

  /** A resize while the cursor is at 0 cannot be undone: the image it blanked is lost. */
  lemma ResizeAtStartIsFinal<S>(st: CanvasState<S>, blank: S)
    requires CursorInRange(st) && st.historyStep == 0
    ensures AfterUndo(AfterResize(st, blank)).canvas == blank
  {
  }

  /** An operation on the canvas, with the opaque snapshots it produces. */
  datatype CanvasOp<S> =
    | StartPaintOp
    | PaintOp(stroked: S)
    | EndPaintOp
    | UndoOp
    | RedoOp
    | ClearOp(blank: S)
    | ResizeOp(blank: S)

  function Apply<S>(st: CanvasState<S>, op: CanvasOp<S>): CanvasState<S>
    requires CursorInRange(st)
  {
    match op
    case StartPaintOp => AfterStartPaint(st)
    case PaintOp(stroked) => AfterPaint(st, stroked)
    case EndPaintOp => AfterEndPaint(st)
    case UndoOp => AfterUndo(st)
    case RedoOp => AfterRedo(st)
    case ClearOp(blank) => AfterClear(st, blank)
    case ResizeOp(blank) => AfterResize(st, blank)
  }

  /**
   * The state after applying `ops` in order: the cursor stays in range, and
   * each operation adds at most one snapshot.
   */
  function Replay<S>(st: CanvasState<S>, ops: seq<CanvasOp<S>>): (r: CanvasState<S>)
    requires CursorInRange(st)
    ensures CursorInRange(r)
    ensures |r.history| <= |st.history| + |ops|
    decreases |ops|
  {
    if ops == [] then st else Replay(Apply(st, ops[0]), ops[1..])
  }

  /** Undo and redo alone never change the contents or the length of the history. */
  lemma {:induction false} UndoRedoKeepHistory<S>(st: CanvasState<S>, ops: seq<CanvasOp<S>>)
    requires CursorInRange(st)
    requires forall i :: 0 <= i < |ops| ==> ops[i].UndoOp? || ops[i].RedoOp?
    ensures Replay(st, ops).history == st.history
    ensures Replay(st, ops).painting == st.painting
    decreases |ops|
  {
    if ops != [] {
      UndoRedoKeepHistory(Apply(st, ops[0]), ops[1..]);
    }
  }

  /** When the canvas shows the entry under the cursor, redo reverses an undo. */
  lemma RedoReversesUndo<S>(st: CanvasState<S>)
    requires CursorInRange(st) && 0 < st.historyStep < |st.history|
    requires st.canvas == st.history[st.historyStep]
    ensures AfterRedo(AfterUndo(st)) == st
  {
  }

  /** When the canvas shows the entry under the cursor, undo reverses a redo. */
  lemma UndoReversesRedo<S>(st: CanvasState<S>)
    requires CursorInRange(st) && st.historyStep < |st.history| - 1
    requires st.canvas == st.history[st.historyStep]
    ensures AfterUndo(AfterRedo(st)) == st
  {
  }

  /**
   * Right after a save, redo does nothing, and neither does redo after one
   * undo: the snapshot a save pushes is the newest entry, so the image the
   * canvas showed before that undo is not in the history to be redone.
   */
  lemma RedoAfterSaveDoesNothing<S>(st: CanvasState<S>)
    requires CursorInRange(st)
    ensures AfterRedo(AfterSave(st)) == AfterSave(st)
    ensures AfterRedo(AfterUndo(AfterSave(st))) == AfterUndo(AfterSave(st))
  {
  }

  /** `InteractiveCanvas`: the history array and cursor are updated in place. */
  class InteractiveCanvas<S> {
    var canvas: S
    var history: seq<S>
    var historyStep: int
    var painting: bool

    ghost predicate Valid()
      reads this
    {
      CursorInRange(State())
    }

    function State(): CanvasState<S>
      reads this
    {
      CanvasState(canvas, history, historyStep, painting)
    }

    constructor (pixels: S)
      ensures Valid() && State() == Initial(pixels)
    {
      canvas := pixels;
      history := [];
      historyStep := 0;
      painting := false;
    }

    method SaveState()
      requires Valid()
      modifies this
      ensures Valid() && State() == AfterSave(old(State()))
    {
      if historyStep < |history| {
        history := history[..historyStep];
      }
      history := history + [canvas];
      historyStep := |history|;
    }

    method Undo()
      requires Valid()
      modifies this
      ensures Valid() && State() == AfterUndo(old(State()))
    {
      if historyStep > 0 {
        historyStep := historyStep - 1;
        canvas := history[historyStep];
      }
    }

    method Redo()
      requires Valid()
      modifies this
      ensures Valid() && State() == AfterRedo(old(State()))
    {
      if historyStep < |history| - 1 {
        historyStep := historyStep + 1;
        canvas := history[historyStep];
      }
    }

    method StartPaint()
      requires Valid()
      modifies this
      ensures Valid() && State() == AfterStartPaint(old(State()))
    {
      painting := true;
      SaveState();
    }

    method Paint(stroked: S)
      requires Valid()
      modifies this
      ensures Valid() && State() == AfterPaint(old(State()), stroked)
    {
      if !painting {
        return;
      }
      canvas := stroked;
    }

    method EndPaint()
      requires Valid()
      modifies this
      ensures Valid() && State() == AfterEndPaint(old(State()))
    {
      painting := false;
    }

    /** resizeCanvas, with the blank bitmap the new size produces. */
    method ResizeCanvas(blank: S)
      requires Valid()
      modifies this
      ensures Valid() && State() == AfterResize(old(State()), blank)
    {
      canvas := blank;
    }

    method ClearCanvas(blank: S)
      requires Valid()
      modifies this
      ensures Valid() && State() == AfterClear(old(State()), blank)
    {
      canvas := blank;
      SaveState();
    }
  }
}

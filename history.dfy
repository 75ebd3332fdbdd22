/**
 * The main window's drawing history: the stack of committed items and the undo
 * button that is enabled exactly when there is something to undo.
 */
module DrawingHistory {
  import opened Wrappers
  import opened Shapes

  /** drawingStack, with its top at the end (QStack pushes at the back), and the undo button's enabled flag. */
  datatype History = History(stack: seq<Shape>, undoEnabled: bool)

  /** The history at start-up: nothing drawn and the undo button disabled. */
  const Empty := History([], false)

  /** The undo button is enabled exactly when the stack is non-empty. */
  predicate Valid(h: History)
    ensures Valid(h) && h.undoEnabled ==> |h.stack| > 0
    ensures Valid(h) && !h.undoEnabled ==> |h.stack| == 0
  {
    h.undoEnabled <==> h.stack != []
  }

  /** onItemDrawn: a committed item is pushed and undo becomes available; a null item is ignored. */
  function Push(h: History, item: Option<Shape>): (r: History)
    ensures item.None? ==> r == h
    ensures item.Some? ==> r.stack == h.stack + [item.value] && r.undoEnabled
    ensures Valid(h) ==> Valid(r)
  {
    if item.Some? then History(h.stack + [item.value], true) else h
  }

  datatype UndoResult = UndoResult(history: History, removed: Option<Shape>)

  /**
   * onUndoClicked: on an empty stack nothing happens; otherwise the most recent item is
   * removed and undo stays enabled only if items remain.
   */
  function Undo(h: History): (r: UndoResult)
    ensures h.stack == [] <==> r.removed.None?
    ensures h.stack == [] ==> r.history == h
    ensures h.stack != [] ==> r.history.stack + [r.removed.value] == h.stack && Valid(r.history)
    ensures Valid(h) ==> Valid(r.history)
  {
    if h.stack == [] then UndoResult(h, None)
    else
      var rest := h.stack[..|h.stack| - 1];
      UndoResult(History(rest, rest != []), Some(h.stack[|h.stack| - 1]))
  }

  /** clearCanvas: on confirmation everything goes and undo is disabled; on refusal nothing changes. */
  function Clear(h: History, confirmed: bool): (r: History)
    ensures confirmed ==> r.stack == [] && !r.undoEnabled
    ensures !confirmed ==> r == h
    ensures Valid(h) ==> Valid(r)
  {
    if confirmed then Empty else h
  }

  /** Undoing right after a commit removes that very item and gives back the history from before. */
  lemma UndoCancelsPush(h: History, shape: Shape)
    requires Valid(h)
    ensures Undo(Push(h, Some(shape))) == UndoResult(h, Some(shape))
  {
    assert (h.stack + [shape])[..|h.stack|] == h.stack;
  }

  /** Several commits in drawing order. */
  function PushAll(h: History, shapes: seq<Shape>): History
    decreases |shapes|
  {
    if shapes == [] then h else PushAll(Push(h, Some(shapes[0])), shapes[1..])
  }

  datatype UndoRun = UndoRun(history: History, removed: seq<Shape>)

  /** `k` clicks on undo; `removed` lists the items in the order they were removed. */
  function UndoTimes(h: History, k: nat): UndoRun
    decreases k
  {
    if k == 0 then UndoRun(h, [])
    else
      var first := Undo(h);
      var rest := UndoTimes(first.history, k - 1);
      UndoRun(rest.history, (if first.removed.Some? then [first.removed.value] else []) + rest.removed)
  }

  /** The items in the opposite order: the order repeated undos hand them back in. */
  function Reverse(s: seq<Shape>): (r: seq<Shape>)
    ensures |r| == |s|
    ensures forall i :: 0 <= i < |s| ==> r[i] == s[|s| - 1 - i]
    decreases |s|
  {
    if s == [] then [] else [s[|s| - 1]] + Reverse(s[..|s| - 1])
  }

  /** Commits only ever add to the top of the stack. */
  lemma {:induction false} PushAllStacks(h: History, shapes: seq<Shape>)
    ensures PushAll(h, shapes) == History(h.stack + shapes, h.undoEnabled || shapes != [])
    decreases |shapes|
  {
    if shapes != [] {
      PushAllStacks(Push(h, Some(shapes[0])), shapes[1..]);
      assert h.stack + [shapes[0]] + shapes[1..] == h.stack + shapes;
    }
  }

  /** Undoing as many times as there are items above `base` removes exactly those items, top first. */
  lemma {:induction false} UndoTimesPopsTop(base: seq<Shape>, top: seq<Shape>)
    ensures UndoTimes(History(base + top, base + top != []), |top|) == UndoRun(History(base, base != []), Reverse(top))
    decreases |top|
  {
    if top == [] {
      assert base + top == base;
    } else {
      var all := base + top;
      var below := top[..|top| - 1];
      assert all[..|all| - 1] == base + below;
      assert all[|all| - 1] == top[|top| - 1];
      UndoTimesPopsTop(base, below);
    }
  }

  /**
   * Drawing order is the reverse of undo order: after `k` commits, `k` undos remove the
   * `k` items last drawn first and restore the history from before the commits.
   */
  lemma UndoingEverythingDrawn(h: History, shapes: seq<Shape>)
    requires Valid(h)
    ensures UndoTimes(PushAll(h, shapes), |shapes|) == UndoRun(h, Reverse(shapes))
  {
    PushAllStacks(h, shapes);
    UndoTimesPopsTop(h.stack, shapes);
  }

  /** Undo on an empty history, however often, changes nothing and removes nothing. */
  lemma {:induction false} UndoOnEmptyIsNoOp(k: nat)
    ensures UndoTimes(Empty, k) == UndoRun(Empty, [])
    decreases k
  {
    if k > 0 {
      UndoOnEmptyIsNoOp(k - 1);
    }
  }
}

# Drawing board: pointer-event state machine and drawing history

This project models the logic of a Qt drawing board in Dafny and proves properties of the model. Two classes from `mainwindow.cpp` and `mainwindow.h` are covered.

- **`DrawingView`** turns left-button presses, cursor moves and releases into committed shapes. It supports six tools:
  - **Pen** builds a freehand polyline.
  - **Line**, **Rectangle** and **Circle** are dragged out from an anchor point.
  - **Triangle** is placed with three clicks.
  - **Text** is placed with one click.

  The view keeps one preview item while a shape is under construction. It also holds the style settings: colour, width, eraser mode with its saved colour, the current text and the font size.
- **`MainWindow`** keeps the stack of committed items and the undo button, which is enabled exactly when the stack is non-empty. It keeps its own copies of the settings and forwards them to the view. It also chooses the file name when the canvas is saved as an image.

Qt items are replaced by a `Shape` datatype with one variant per item class. Points are integer pairs and colours are RGB triples. The preview pointer `tempItem` becomes an `Option<Shape>`. Each class has a pure specification:

- `ViewSpec` gives one function per view handler.
- `WindowSpec` and `DrawingHistory` give one function per window slot.

Each class method updates the fields in place and is proved to produce the state that its function gives. The lemmas about event sequences are stated over these functions:

- `ViewLemmas` covers the view.
- `WindowSpec` covers the window.
- `DrawingHistory` covers the undo stack.

Files:

| file | contents |
|---|---|
| `wrappers.dfy` | `Option` |
| `geometry.dfy` | points, colours, `QRectF` and its normalisation |
| `shapes.dfy` | the `DrawingTool` enum, the tool combo-box order, and `Shape` |
| `view_spec.dfy` | the view's state and its handlers as functions, with the view's invariant |
| `drawing_view.dfy` | class `DrawingView` |
| `view_lemmas.dfy` | pen strokes, drags, the triangle protocol, text, tool switching and the eraser, over event sequences |
| `history.dfy` | the undo stack |
| `save_path.dfy` | the save-file name rule and the fixed image size |
| `window_spec.dfy` | the window's state and its slots as functions, with the window's invariant and the eraser-colour lemmas |
| `main_window.dfy` | class `MainWindow` |

Three behaviours of the code worth knowing:

- **Style of a committed shape.** The Pen, Line, Rectangle and Circle previews get their pen at the press. Moves change only their geometry. Colour, width, eraser and text changes leave the preview alone. The release commits the preview as it stands. So these shapes keep the colour and width that were current at the press, not the settings at the release. A triangle takes the pen current at its third press (`ViewLemmas.StyleEventsKeepPending`, `ViewLemmas.PenStyleFixedAtPress`, `ViewLemmas.DragStyleFixedAtPress`, `ViewLemmas.TriangleCommitsOnThirdPress`).
- **Tool switch during a drag.** Leaving Triangle empties the vertex buffer and drops whatever preview is shown, of any kind. A preview of another kind can still be shown there: a release under Triangle keeps it. Leaving any other tool leaves the drag and its preview in place. A later release commits that preview, unless the new tool is Text or Triangle (`ViewSpec.SetCurrentTool`, `ViewSpec.Release`, `ViewLemmas.OtherToolSwitchCancelsNothing`).
- **The window's saved colour.** The window has its own `lastColor`, documented in mainwindow.h:123 as the colour from before the eraser. In fact it is overwritten with the current colour on every colour pick and never read. So it always equals the window's current colour (`WindowSpec.WindowSavedColorIsCurrent`). The pre-eraser colour that `toggleEraser` restores is the view's own `lastColor`.

## Model

| member | source | states |
|---|---|---|
| `Geometry.CornerRect` | mainwindow.cpp:108 | `QRectF(p, q)` has its top-left corner at `p` and its opposite corner at `q`, whatever the order of the coordinates |
| `Geometry.Normalized` | mainwindow.cpp:163 | `QRectF::normalized()` gives a non-negative width and height covering the same span on each axis as the raw rectangle |
| `Geometry.BoundingBox` | mainwindow.cpp:163 | the Rectangle/Circle box of anchor and cursor runs from the minimum to the maximum coordinate on each axis |
| `Geometry.BoundingBoxSymmetric` | mainwindow.cpp:163 | the box is the same whichever way the drag goes |
| `Geometry.BoundingBoxOfOnePoint` | mainwindow.cpp:108 | the box the press creates, `QRectF(p, p)`, is the empty box at the press point, which is also the box of `p` with itself |
| `Shapes.ToolIndex` | mainwindow.h:26-33 | each tool's enum position is one of 0..5, and that position in the tool list holds the tool |
| `Shapes.ToolAt` | mainwindow.cpp:559 | casting a combo-box index 0..5 to a tool gives the tool whose enum position is that index |
| `Shapes.ToolOrderIsEnumeration` | mainwindow.cpp:319 | the six combo-box entries list every tool exactly once in enum order, so the cast from an index is a bijection that keeps the order |
| `ViewSpec.DrawColor` | mainwindow.cpp:36 | a press draws in white while the eraser is on, otherwise in the current colour |
| `ViewSpec.LineTo` | mainwindow.cpp:157 | `QPainterPath::lineTo` leaves the path ending at the new point. A point equal to the current end adds nothing; any other point is appended. An empty path first starts at the origin |
| `ViewSpec.InitialValid` | mainwindow.cpp:16-30 | the constructed view satisfies the view invariant |
| `ViewSpec.TrianglePress` | mainwindow.cpp:41-73 | 1st press buffers v0 only; 2nd press buffers v1, starts the drag and shows `{v0, v1, v0}`; 3rd press commits `{v0, v1, v2}` with the pen current at that press, empties the buffer, drops the preview and ends the drag; never emits mouseClicked |
| `ViewSpec.Press` | mainwindow.cpp:33-126 | only the left button acts. mouseClicked fires exactly for non-Triangle tools. A shape is committed exactly for Text with text, or for a third triangle press, in the draw colour (white while erasing). Non-Triangle presses anchor at the press point, and the drag continues unless Text committed. Pen starts the one-point path. Style settings never change |
| `ViewSpec.Move` | mainwindow.cpp:129-178 | without a drag or a preview nothing changes. Settings, the drag flag and the triangle buffer never change. The anchor moves only for Pen. With two buffered vertices the triangle preview becomes `{v0, v1, cursor}` |
| `ViewSpec.Release` | mainwindow.cpp:181-203 | only the left button acts and it ends the drag. A shape is committed exactly when a preview exists and the tool is neither Triangle nor Text. The committed shape is the preview itself, which is then dropped. Pen empties its path. The anchor and triangle buffer are kept |
| `ViewSpec.SetPenColor` | mainwindow.cpp:206-211 | ignored while erasing; otherwise both the current and saved colour become the new one; pending shape untouched; keeps the view invariant |
| `ViewSpec.SetPenWidth` | mainwindow.cpp:214-216 | only the width changes; keeps the view invariant |
| `ViewSpec.SetEraserMode` | mainwindow.cpp:219-227 | on: saves the current colour and draws white; off: the current colour becomes the saved one; keeps the view invariant |
| `ViewSpec.SetCurrentTool` | mainwindow.cpp:230-241 | leaving Triangle empties the vertex buffer and drops the preview; leaving any other tool changes only the tool; either way the view invariant is kept |
| `ViewSpec.SetTextProperties` | mainwindow.cpp:244-247 | only the text and font size change; keeps the view invariant |
| `ViewSpec.PressPreservesValid` | mainwindow.cpp:33-126 | a press keeps the view invariant: at most two buffered vertices and only under Triangle, two vertices always with their polygon preview, and a pen preview equal to the pending path |
| `ViewSpec.MovePreservesValid` | mainwindow.cpp:129-178 | a move keeps the view invariant |
| `ViewSpec.ReleasePreservesValid` | mainwindow.cpp:181-203 | a release keeps the view invariant |
| `ViewLemmas.RunPreservesValid` | mainwindow.h:55-66 | after any sequence of events the view invariant still holds |
| `ViewLemmas.StrokeOfDistinctMoves` | mainwindow.cpp:156-161 | when no move repeats the point before it, the pen path after the moves is the path followed by every move in order |
| `ViewLemmas.StrokeExtendsPath` | mainwindow.cpp:156-161 | the pen path only grows: the old path stays its prefix, each move adds at most one point, and the path ends at the last move |
| `ViewLemmas.StrokeVisitsEveryMove` | mainwindow.cpp:156-161 | every move point lies on the pen path |
| `ViewLemmas.StrokeAddsOnlyMoves` | mainwindow.cpp:156-161 | every point added to the pen path is one of the moves |
| `ViewLemmas.StrokeHasNoRepeats` | mainwindow.cpp:156-161 | the pen path never holds the same point twice in a row |
| `ViewLemmas.PenMovesAppend` | mainwindow.cpp:156-161 | during a pen drag each move extends the path and its preview by `lineTo`, and the cursor becomes the anchor |
| `ViewLemmas.PenStrokeCommitsPath` | mainwindow.cpp:92-196 | press, any moves and release commit the stroke from the press point through the moves, in the press-time colour and width. When no move repeats the point before it, the stroke is exactly `[press point] + moves`. The release adds no point, empties the path, drops the preview and ends the drag |
| `ViewLemmas.DragMovesKeepAnchor` | mainwindow.cpp:162-177 | during a Line/Rectangle/Circle drag the anchor never changes and the preview is the shape from the anchor to the latest cursor position |
| `ViewLemmas.DragCommitsLastPreview` | mainwindow.cpp:101-200 | press, any moves and release commit the segment, or normalised box, from the press point to the last cursor position. With no move it is degenerate at the press point. The release point is not used |
| `ViewLemmas.StyleEventsKeepPending` | mainwindow.cpp:206-227 | colour, width, eraser and text changes keep the drag, the anchor, the preview, the pen path, the triangle buffer and the tool, and commit nothing |
| `ViewLemmas.PenStyleFixedAtPress` | mainwindow.cpp:92-203 | a pen stroke is committed in the pen current at the press, whatever style changes come before the release |
| `ViewLemmas.DragStyleFixedAtPress` | mainwindow.cpp:101-203 | a Line, Rectangle or Circle is committed in the pen current at the press, whatever style changes come before the release |
| `ViewLemmas.QuietRunKeepsTriangle` | mainwindow.cpp:140-189 | under Triangle, events other than left presses and tool changes never change the vertex buffer and never commit |
| `ViewLemmas.VertexThenQuiet` | mainwindow.cpp:42-46 | under Triangle, a press with fewer than two buffered vertices adds its point to the buffer and, with quiet events after it, commits nothing |
| `ViewLemmas.TwoVerticesBuffered` | mainwindow.cpp:42-53 | two triangle presses with quiet events between commit nothing and buffer both points |
| `ViewLemmas.ThirdVertexCommits` | mainwindow.cpp:54-71 | a press with two buffered vertices commits their triangle with the press point and clears buffer and preview |
| `ViewLemmas.TriangleCommitsOnThirdPress` | mainwindow.cpp:41-72 | with quiet events interleaved, two presses commit nothing and the third commits exactly `{v0, v1, v2}`, leaving the buffer empty |
| `ViewLemmas.SwitchEndsTriangle` | mainwindow.cpp:230-241 | under Triangle, a tool switch empties the vertex buffer, drops the preview and commits nothing |
| `ViewLemmas.TriangleAbandonedAfterOneVertex` | mainwindow.cpp:230-241 | a first triangle press, quiet events, then a switch to any tool leave no vertex, no preview and no commit |
| `ViewLemmas.TriangleAbandonedAfterTwoVertices` | mainwindow.cpp:230-241 | two triangle presses with quiet events after each, then a switch to any tool, leave no vertex, no preview and no commit |
| `ViewLemmas.OtherToolSwitchCancelsNothing` | mainwindow.cpp:230-241 | switching away from a tool other than Triangle leaves the drag, anchor, preview, path and buffer as they are |
| `ViewLemmas.TrianglePreviewFollowsHeldButton` | mainwindow.cpp:133-153 | after the second triangle press the preview follows the cursor while the button is held; after the release, moves leave it alone |
| `ViewLemmas.TextCommitsOnPressOnly` | mainwindow.cpp:80-90 | with text set, a press commits the text at the press point in the current font size and draw colour and ends the drag. With no text the press commits nothing. A release under Text never commits |
| `ViewLemmas.EraserIgnoresColorChanges` | mainwindow.cpp:206-211 | while erasing, no event other than `setEraserMode` changes the current or the saved colour |
| `ViewLemmas.EraserRoundTrip` | mainwindow.cpp:219-227 | eraser on, any events that leave the eraser flag alone, then eraser off: meanwhile presses draw white, and afterwards the view draws its pre-eraser colour again |
| `View.DrawingView.constructor` | mainwindow.cpp:16-30 | the initial field values, which satisfy the invariant |
| `View.DrawingView.MousePress` | mainwindow.cpp:33-126 | updates the fields in place to `ViewSpec.Press` of the old state and returns its mouseClicked and itemDrawn emissions, keeping the invariant |
| `View.DrawingView.MouseMove` | mainwindow.cpp:129-178 | updates the fields to `ViewSpec.Move` and reports the cursor position, keeping the invariant |
| `View.DrawingView.MouseRelease` | mainwindow.cpp:181-203 | updates the fields to `ViewSpec.Release` and returns its itemDrawn emission, keeping the invariant |
| `View.DrawingView.SetPenColor` | mainwindow.cpp:206-211 | updates the fields to `ViewSpec.SetPenColor` |
| `View.DrawingView.SetPenWidth` | mainwindow.cpp:214-216 | updates the fields to `ViewSpec.SetPenWidth` |
| `View.DrawingView.SetEraserMode` | mainwindow.cpp:219-227 | updates the fields to `ViewSpec.SetEraserMode` |
| `View.DrawingView.SetCurrentTool` | mainwindow.cpp:230-241 | updates the fields to `ViewSpec.SetCurrentTool` |
| `View.DrawingView.SetTextProperties` | mainwindow.cpp:244-247 | updates the fields to `ViewSpec.SetTextProperties` |
| `DrawingHistory.Valid` | mainwindow.cpp:503-530 | the undo button is enabled exactly when the stack holds an item, so an enabled button always has something to undo |
| `DrawingHistory.Push` | mainwindow.cpp:503-509 | a committed item goes on top of the stack and enables undo; a null item changes nothing; undo-enabled stays equivalent to non-empty |
| `DrawingHistory.Undo` | mainwindow.cpp:512-521 | on an empty stack nothing changes and nothing is removed. Otherwise the top item is removed and returned, and undo is enabled exactly when items remain |
| `DrawingHistory.Clear` | mainwindow.cpp:524-533 | confirmed: empty stack, undo disabled; declined: nothing changes |
| `DrawingHistory.UndoCancelsPush` | mainwindow.cpp:503-521 | undo right after a commit removes that item and restores the previous history |
| `DrawingHistory.PushAllStacks` | mainwindow.cpp:503-509 | a series of commits appends the items to the stack in drawing order |
| `DrawingHistory.UndoTimesPopsTop` | mainwindow.cpp:512-521 | `k` undos remove the top `k` items, most recent first, and leave the items below with undo enabled exactly when some remain |
| `DrawingHistory.UndoingEverythingDrawn` | mainwindow.h:118 | after `k` commits, `k` undos restore the previous history and remove the items in reverse drawing order |
| `DrawingHistory.UndoOnEmptyIsNoOp` | mainwindow.cpp:513 | any number of undos on an empty history change and remove nothing |
| `SavePath.EndsWithIgnoringCase` | mainwindow.cpp:577-579 | `endsWith(suffix, Qt::CaseInsensitive)` for a lower-case suffix: it needs the suffix to fit, and it holds whenever the path ends in the suffix exactly |
| `SavePath.HasImageSuffix` | mainwindow.cpp:577-579 | the path ends in `.png`, `.jpg` or `.bmp`, ignoring case |
| `SavePath.SaveFileName` | mainwindow.cpp:575-581 | no name exactly for an empty path. Otherwise the name starts with the path and ends, ignoring case, in `.png`, `.jpg` or `.bmp`. It equals the path exactly when the path already has such a suffix, and is the path plus `.png` otherwise |
| `SavePath.SaveFileNameIdempotent` | mainwindow.cpp:577-581 | applying the rule to its own result changes nothing |
| `SavePath.JpegGetsPngAppended` | mainwindow.cpp:577-581 | `photo.jpeg` becomes `photo.jpeg.png` |
| `SavePath.UpperCaseSuffixKept` | mainwindow.cpp:577-579 | `scan.BMP` is kept as typed |
| `SavePath.ExportTarget` | mainwindow.cpp:575-583 | an empty path aborts. Otherwise the image is 800×600, the scene rectangle, whatever was drawn. It is written to the file name `SaveFileName` chooses |
| `WindowSpec.InitialValid` | mainwindow.cpp:268-275 | the window's initial settings mirror the view's and the initially disabled undo button matches the empty stack |
| `WindowSpec.ItemDrawn` | mainwindow.cpp:503-509 | a non-null item is pushed and enables undo; the view and the settings are untouched |
| `WindowSpec.UndoClicked` | mainwindow.cpp:512-521 | no-op on an empty stack. Otherwise removes and returns the top item, with undo enabled exactly when items remain. The view is untouched |
| `WindowSpec.ClearCanvas` | mainwindow.cpp:524-533 | confirmed: empty history with undo disabled; declined: nothing changes. Either way the view, including a pending triangle and its preview, is untouched |
| `WindowSpec.ToggleEraser` | mainwindow.cpp:487-500 | flips the eraser flag in window and view. Turning it on makes the view save its colour and draw white. Turning it off restores the view's saved colour, because the colour is offered while the view still erases and is ignored |
| `WindowSpec.PickColor` | mainwindow.cpp:468-476 | the window takes the colour as current and saved colour; the view gets it only while the eraser is off |
| `WindowSpec.ChangeWidth` | mainwindow.cpp:479-484 | window and view take the width |
| `WindowSpec.TextChanged` | mainwindow.cpp:455-458 | window and view take the text; the view keeps the window's font size |
| `WindowSpec.FontSizeChanged` | mainwindow.cpp:461-465 | window and view take the size; the view keeps the window's text |
| `WindowSpec.ToolSelected` | mainwindow.cpp:558-569 | the tool is the one at the combo-box index, in both window and view |
| `WindowSpec.ViewPressed` | mainwindow.cpp:288-290 | a press on the view followed by `onItemDrawn` on whatever it emitted |
| `WindowSpec.ViewMoved` | mainwindow.cpp:288 | a move changes only the view |
| `WindowSpec.ViewReleased` | mainwindow.cpp:290 | a release on the view followed by `onItemDrawn` on whatever it emitted |
| `WindowSpec.HandlePreservesValid` | mainwindow.h:120-124 | every slot and pointer event keeps the window invariant. The view's eraser flag, width, tool, text and font size equal the window's copies. Undo is enabled exactly when the stack is non-empty. The view invariant holds |
| `WindowSpec.HandleAllPreservesValid` | mainwindow.h:115-124 | the window invariant holds after any sequence of commands |
| `WindowSpec.ErasingKeepsSavedColor` | mainwindow.cpp:468-473 | while erasing, no command but the eraser button changes the view's current or saved colour |
| `WindowSpec.EraserToggleRestoresViewColor` | mainwindow.cpp:487-500 | eraser button, any other commands, eraser button: in between the view draws white, and afterwards it draws its pre-eraser colour and is out of eraser mode |
| `WindowSpec.WindowSavedColorIsCurrent` | mainwindow.cpp:436 | the window's `lastColor` is set from the current colour on every pick and never read, so over any commands it stays equal to the window's current colour |
| `WindowSpec.PaletteColorLostAfterEraser` | mainwindow.cpp:471 | a colour picked while erasing is kept by the window, but after the eraser is turned off the view draws its old colour, so the two copies differ |
| `Window.MainWindow.constructor` | mainwindow.cpp:250-291 | a fresh view, an empty stack, undo disabled and the initial settings, with the invariant holding |
| `Window.MainWindow.OnItemDrawn` | mainwindow.cpp:503-509 | updates the fields to `WindowSpec.ItemDrawn`, keeping the invariant |
| `Window.MainWindow.OnUndoClicked` | mainwindow.cpp:512-521 | updates the fields to `WindowSpec.UndoClicked` and returns the removed item |
| `Window.MainWindow.ClearCanvas` | mainwindow.cpp:524-533 | updates the fields to `WindowSpec.ClearCanvas` |
| `Window.MainWindow.ToggleEraser` | mainwindow.cpp:487-500 | calls the view's `SetPenColor` then `SetEraserMode` in the source's order, ending in `WindowSpec.ToggleEraser` |
| `Window.MainWindow.ChangeColor` | mainwindow.cpp:468-476 | ends in `WindowSpec.PickColor` |
| `Window.MainWindow.OnColorButtonClicked` | mainwindow.cpp:431-452 | ends in `WindowSpec.PickColor` |
| `Window.MainWindow.ChangeWidth` | mainwindow.cpp:479-484 | ends in `WindowSpec.ChangeWidth` |
| `Window.MainWindow.OnTextChanged` | mainwindow.cpp:455-458 | ends in `WindowSpec.TextChanged` |
| `Window.MainWindow.OnFontSizeChanged` | mainwindow.cpp:461-465 | ends in `WindowSpec.FontSizeChanged` |
| `Window.MainWindow.OnToolSelected` | mainwindow.cpp:558-569 | ends in `WindowSpec.ToolSelected` |
| `Window.MainWindow.SaveAsImage` | mainwindow.cpp:572-584 | is `ExportTarget` of the path. An empty path gives nothing. Otherwise the image is 800×600 and goes to the name `SaveFileName` chooses: the path as typed when it has an accepted suffix, else the path plus `.png`. Window and view are unchanged |
| `Window.MainWindow.ViewPressed` | mainwindow.cpp:288-290 | a view press routed through itemDrawn into `OnItemDrawn` |
| `Window.MainWindow.ViewMoved` | mainwindow.cpp:288 | a view move; only the view changes |
| `Window.MainWindow.ViewReleased` | mainwindow.cpp:290 | a view release routed through itemDrawn into `OnItemDrawn` |

## Left out

- Toolbar construction and layout are not modelled: `initToolBar`, `createToolRow1`, `createToolRow2`, `createColorButtons`, slider ranges, labels and button texts. They contain no logic. Consequently the width and font size are not limited to the sliders' ranges (1–20 and 8–72), because the view accepts any value.
- Status-bar messages are not modelled, and neither are `onMouseMoved` and `onMouseClicked`, which only format such messages. The view still returns the `mouseMoved` and `mouseClicked` emissions.
- `QFileDialog`, `QMessageBox`, `scene->render` and `pixmap.save` are outside the model. The dialog's path and the answer to the clear confirmation are parameters. The image's pixel content is not modelled. Success or failure of the write, with its warning, is not modelled either. Note that the image is a rendering of the whole scene, so a preview that is shown at save time is drawn into it.
- Scene item ownership is not modelled: adding items to and removing them from the scene, `new`/`delete`, `dynamic_cast`, `qDeleteAll`, `scene->clear` and the window's destructor. Items are values, and removal from the stack is sequence removal. One consequence is not captured, and it is a defect in the code. `scene->clear` in `clearCanvas` (mainwindow.cpp:529) also destroys a preview the view is still showing, while the view keeps its pointer to it.
  - Two triangle presses followed by a confirmed clear leave the view pointing at a destroyed item. The third press then deletes it a second time (mainwindow.cpp:66-69), and so does switching away from Triangle (mainwindow.cpp:234-237).
  - A clear during a Pen, Line, Rectangle or Circle drag has the same effect. The next move casts the destroyed item (mainwindow.cpp:158-175), and the release emits it into the history (mainwindow.cpp:191-200).

  In the model, `WindowSpec.ClearCanvas` keeps the view's preview as a value, so these runs behave as if the preview had survived the clear.
- Orphaned previews are not captured either. A release under Text or Triangle leaves a preview from another tool in place, and so does a tool switch during such a drag. The next press that creates a preview then overwrites `tempItem` without removing the old item (mainwindow.cpp:48, 94, 103, 108, 114). That item stays drawn on the canvas, but it is not in `drawingStack`, so undo never removes it; only a clear does. The model simply drops it: it is in neither the history nor the view state.
- Hue-to-colour conversion is outside the model. `QColor::fromHsv` is replaced by the colour the caller passes to `ChangeColor`. The hue slider's resynchronisation in `onColorButtonClicked` is not modelled either.
- `QPointF` coordinates are integers in the model. Normalisation needs only minimum and maximum, so no rounding is modelled.
- Pen styles are not modelled: dashed previews, solid commits, round caps and joins, and transparent brushes. Only the colour and width of the pen go into a shape. The font beyond its point size is also left out.
- Forwarding to `QGraphicsView`'s own mouse handlers is not modelled.
- `ViewSpec.LineTo` follows `QPainterPath::lineTo` in Qt's own implementation, which skips a point equal to the path's current end. Qt compares the two floating-point points with a fuzzy comparison; on integer points that comparison is exact equality.
- `SavePath.EndsWithIgnoringCase` folds ASCII letters only, whereas Qt's case-insensitive comparison folds all of Unicode. For the suffixes `.png`, `.jpg` and `.bmp` this makes a difference only for non-ASCII characters whose case fold is one of these letters.

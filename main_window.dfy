/**
 * MainWindow: owns the drawing history and its own copies of the drawing settings,
 * and forwards settings to the drawing view. Each slot updates the fields in place
 * (and calls the view) and is proved to follow the matching function of WindowSpec.
 */
module Window {
  import opened Wrappers
  import opened Geometry
  import opened Shapes
  import View
  import DrawingHistory
  import WindowSpec
  import SavePath

  class MainWindow {
    const view: View.DrawingView
    /** drawingStack, top at the end. */
    var drawingStack: seq<Shape>
    /** Whether the undo button is enabled. */
    var undoEnabled: bool
    var currentText: string
    var currentFontSize: int
    var currentColor: Color
    var penWidth: int
    var isEraserMode: bool
    var lastColor: Color
    var currentTool: Tool

    /** The window's fields and the view's, as one value. */
    function State(): WindowSpec.WindowState
      reads this, view
    {
      WindowSpec.WindowState(DrawingHistory.History(drawingStack, undoEnabled), currentText, currentFontSize,
                             currentColor, penWidth, isEraserMode, lastColor, currentTool, view.State())
    }

    predicate Valid()
      reads this, view
    {
      WindowSpec.Valid(State())
    }

    /** The constructor with the toolbar set-up: a fresh view, nothing drawn, undo disabled. */
    constructor ()
      ensures fresh(view)
      ensures State() == WindowSpec.Initial && Valid()
    {
      view := new View.DrawingView();
      drawingStack := [];
      undoEnabled := false;
      currentText := "";
      currentFontSize := 24;
      currentColor := Black;
      penWidth := 3;
      isEraserMode := false;
      lastColor := Black;
      currentTool := Pen;
      new;
      WindowSpec.InitialValid();
    }

    /** onItemDrawn, connected to the view's itemDrawn signal. */
    method OnItemDrawn(item: Option<Shape>)
      requires Valid()
      modifies this
      ensures Valid()
      ensures State() == WindowSpec.ItemDrawn(old(State()), item)
    {
      if item.Some? {
        drawingStack := drawingStack + [item.value];
        undoEnabled := true;
      }
    }

    /** onUndoClicked; `removed` is the item taken off the canvas, if any. */
    method OnUndoClicked() returns (removed: Option<Shape>)
      requires Valid()
      modifies this
      ensures Valid()
      ensures State() == WindowSpec.UndoClicked(old(State())).next
      ensures removed == WindowSpec.UndoClicked(old(State())).removed
    {
      removed := None;
      if drawingStack != [] {
        removed := Some(drawingStack[|drawingStack| - 1]);
        drawingStack := drawingStack[..|drawingStack| - 1];
        undoEnabled := drawingStack != [];
      }
    }

    /** clearCanvas; `confirmed` is the answer to the confirmation question. */
    method ClearCanvas(confirmed: bool)
      requires Valid()
      modifies this
      ensures Valid()
      ensures State() == WindowSpec.ClearCanvas(old(State()), confirmed)
    {
      if confirmed {
        drawingStack := [];
        undoEnabled := false;
      }
    }

    /** toggleEraser: the colour is offered to the view before its eraser mode is switched. */
    method ToggleEraser()
      requires Valid()
      modifies this, view
      ensures Valid()
      ensures State() == WindowSpec.ToggleEraser(old(State()))
    {
      WindowSpec.HandlePreservesValid(State(), WindowSpec.EraserButton);
      isEraserMode := !isEraserMode;
      if !isEraserMode {
        view.SetPenColor(currentColor);
      }
      view.SetEraserMode(isEraserMode);
    }

    /** changeColor, given the colour the hue slider's value stands for. */
    method ChangeColor(c: Color)
      requires Valid()
      modifies this, view
      ensures Valid()
      ensures State() == WindowSpec.PickColor(old(State()), c)
    {
      WindowSpec.HandlePreservesValid(State(), WindowSpec.ColorPicked(c));
      currentColor := c;
      lastColor := currentColor;
      if !isEraserMode {
        view.SetPenColor(currentColor);
      }
    }

    /** onColorButtonClicked, given the colour of the clicked swatch. */
    method OnColorButtonClicked(c: Color)
      requires Valid()
      modifies this, view
      ensures Valid()
      ensures State() == WindowSpec.PickColor(old(State()), c)
    {
      WindowSpec.HandlePreservesValid(State(), WindowSpec.ColorPicked(c));
      currentColor := c;
      lastColor := currentColor;
      if !isEraserMode {
        view.SetPenColor(currentColor);
      }
    }

    method ChangeWidth(value: int)
      requires Valid()
      modifies this, view
      ensures Valid()
      ensures State() == WindowSpec.ChangeWidth(old(State()), value)
    {
      WindowSpec.HandlePreservesValid(State(), WindowSpec.WidthSlider(value));
      penWidth := value;
      view.SetPenWidth(value);
    }

    method OnTextChanged(text: string)
      requires Valid()
      modifies this, view
      ensures Valid()
      ensures State() == WindowSpec.TextChanged(old(State()), text)
    {
      WindowSpec.HandlePreservesValid(State(), WindowSpec.TextEdited(text));
      currentText := text;
      view.SetTextProperties(text, currentFontSize);
    }

    method OnFontSizeChanged(size: int)
      requires Valid()
      modifies this, view
      ensures Valid()
      ensures State() == WindowSpec.FontSizeChanged(old(State()), size)
    {
      WindowSpec.HandlePreservesValid(State(), WindowSpec.FontSizeSlider(size));
      currentFontSize := size;
      view.SetTextProperties(currentText, size);
    }

    /** onToolSelected, for the index of a combo-box entry. */
    method OnToolSelected(index: int)
      requires Valid()
      requires 0 <= index < |ToolOrder|
      modifies this, view
      ensures Valid()
      ensures State() == WindowSpec.ToolSelected(old(State()), index)
    {
      WindowSpec.HandlePreservesValid(State(), WindowSpec.ToolCombo(index));
      currentTool := ToolAt(index);
      view.SetCurrentTool(currentTool);
    }

    /**
     * saveAsImage, given the path the file dialog returned: what would be rendered and
     * where. The window and the view are left as they are.
     */
    method SaveAsImage(path: string) returns (job: Option<SavePath.ExportJob>)
      ensures job == SavePath.ExportTarget(path)
      ensures job.None? <==> path == []
      ensures job.Some? ==> job.value.width == SavePath.SceneWidth && job.value.height == SavePath.SceneHeight
      ensures job.Some? ==> SavePath.SaveFileName(path) == Some(job.value.fileName)
    {
      job := SavePath.ExportTarget(path);
    }

    /** A left or other button press on the view, with itemDrawn delivered to OnItemDrawn. */
    method ViewPressed(p: Point, left: bool)
      requires Valid()
      modifies this, view
      ensures Valid()
      ensures State() == WindowSpec.ViewPressed(old(State()), p, left)
    {
      WindowSpec.HandlePreservesValid(State(), WindowSpec.PointerPressed(p, left));
      var clicked, drawn := view.MousePress(p, left);
      OnItemDrawn(drawn);
    }

    method ViewMoved(p: Point)
      requires Valid()
      modifies view
      ensures Valid()
      ensures State() == WindowSpec.ViewMoved(old(State()), p)
    {
      WindowSpec.HandlePreservesValid(State(), WindowSpec.PointerMoved(p));
      var reported := view.MouseMove(p);
    }

    method ViewReleased(left: bool)
      requires Valid()
      modifies this, view
      ensures Valid()
      ensures State() == WindowSpec.ViewReleased(old(State()), left)
    {
      WindowSpec.HandlePreservesValid(State(), WindowSpec.PointerReleased(left));
      var drawn := view.MouseRelease(left);
      OnItemDrawn(drawn);
    }
  }
}

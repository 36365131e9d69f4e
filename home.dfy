/** The editor page (index.js): the document state (image loaded, current file, active object,
    tool, colour, drawing mode) and the handlers that load a background image, add shapes
    and text, delete or convert the selected object, recolour it and switch tools. */
module Home {
  import opened Wrappers
  import opened Sequences
  import opened Fabric
  import Layers

  /** The id the loaded image carries; it marks the protected background. */
  const BackgroundId: string := "background-image"

  /** The `alert` text when deleting the background is refused. */
  const CannotDeleteBackground: string := "Cannot delete the background image"

  /** The `alert` text when converting the background is refused. */
  const SelectAreaToConvert: string := "Please select an area or object to convert to text"

  /** The `activeTool` values other than null. */
  datatype Tool = Select | Brush

  /** The file record the open dialog hands back. */
  datatype File = File(path: string, name: string, data: string, extension: string)

  /** What the save dialog is asked for: the suggested path and the PNG data URL. */
  datatype SaveRequest = SaveRequest(defaultPath: string, data: string)

  /** The tool and the drawing mode together. */
  datatype ToolState = ToolState(tool: Option<Tool>, drawing: bool)

  /** `toggleDrawingMode`'s effect: the mode flips; the tool is the brush exactly when the
      new mode is on, and null when it is off. */
  function Toggle(t: ToolState): (r: ToolState)
    ensures r.drawing == !t.drawing
    ensures r.drawing ==> r.tool == Some(Brush)
    ensures !r.drawing ==> r.tool == None
  {
    var newMode := !t.drawing;
    ToolState(if newMode then Some(Brush) else None, newMode)
  }

  /** The tool agrees with the mode: the brush while drawing, no tool otherwise. */
  predicate Consistent(t: ToolState) {
    t.tool == if t.drawing then Some(Brush) else None
  }

  /** Toggling twice always restores the mode, and restores the tool exactly when the tool
      agreed with the mode to begin with. */
  lemma ToggleTwice(t: ToolState)
    ensures Toggle(Toggle(t)).drawing == t.drawing
    ensures Toggle(Toggle(t)) == t <==> Consistent(t)
  {
  }

  /** Every toggle leaves the tool in agreement with the mode. */
  lemma ToggleConsistent(t: ToolState)
    ensures Consistent(Toggle(t))
  {
  }

  /** After an add or the 'Select' button the tool is 'select'; two toggles from there never
      give 'select' back, whatever the mode. */
  lemma SelectLostByToggles(drawing: bool)
    ensures !Consistent(ToolState(Some(Select), drawing))
    ensures Toggle(Toggle(ToolState(Some(Select), drawing))).tool != Some(Select)
  {
  }

  /** The colour attribute a colour change writes: `fill` for text, `stroke` for a path and
      for every other kind. */
  function ColorKey(kind: Kind): (k: Key)
    ensures k == Fill <==> kind == IText
    ensures k == Stroke <==> kind != IText
  {
    if kind == IText then Fill
    else if kind == Path then Stroke
    else Stroke
  }

  /** The options `addText` creates its object with; `measured` is the width and height
      the library's text layout gives the text, which the code does not choose. */
  function NewTextAttrs(color: string, cw: real, ch: real, measured: (real, real)): Attrs {
    Defaults.(text := "Click to edit text", left := cw / 2.0, top := ch / 2.0,
              fill := color, fontFamily := "Arial", fontSize := 20.0,
              width := measured.0, height := measured.1)
  }

  /** The options `addRectangle` creates its object with. */
  function NewRectAttrs(color: string, cw: real, ch: real): Attrs {
    Defaults.(left := cw / 2.0, top := ch / 2.0, width := 100.0, height := 70.0,
              fill := "transparent", stroke := color, strokeWidth := 2.0)
  }

  /** The options `addCircle` creates its object with; the radius 50 spans 100 both ways. */
  function NewCircleAttrs(color: string, cw: real, ch: real): Attrs {
    Defaults.(left := cw / 2.0, top := ch / 2.0, width := 100.0, height := 100.0,
              fill := "transparent", stroke := color, strokeWidth := 2.0)
  }

  /** The options `convertToText` creates its text with, from the original's bounds. */
  function ConvertedTextAttrs(color: string, b: Bounds): Attrs {
    Defaults.(text := "Edit this text", left := b.left, top := b.top, width := b.width,
              height := b.height, fontSize := b.height * 0.8, fill := color, fontFamily := "Arial")
  }

  /** The object list after `convertToText` replaced `x` by `t`. */
  function Converted(s: seq<FabricObject>, x: FabricObject, t: FabricObject): seq<FabricObject> {
    RemoveFirst(s, x) + [t]
  }

  /** Converting keeps the length and every other object, drops the original and puts the
      new text on top, without repetitions. */
  lemma ConvertedList(s: seq<FabricObject>, x: FabricObject, t: FabricObject)
    requires Distinct(s) && x in s && t !in s
    ensures |Converted(s, x, t)| == |s|
    ensures x !in Converted(s, x, t) && Converted(s, x, t)[|s| - 1] == t
    ensures forall y :: y in s && y != x ==> y in Converted(s, x, t)
    ensures Distinct(Converted(s, x, t))
  {
    RemoveFirstKeepsOthers(s, x);
    var r := RemoveFirst(s, x);
    forall i, j | 0 <= i < j < |r| + 1 ensures (r + [t])[i] != (r + [t])[j] {
      if j == |r| {
        assert (r + [t])[i] == r[i] && r[i] in s;
      }
    }
  }

  /** Some object of the list carries the background's id. */
  ghost predicate HasBackground(objs: seq<FabricObject>)
    reads objs
  {
    exists o :: o in objs && o.attrs.id == BackgroundId
  }

  /** Removing an object that is not the background keeps the background. */
  lemma BackgroundSurvivesRemove(s: seq<FabricObject>, x: FabricObject)
    requires Distinct(s) && x in s && x.attrs.id != BackgroundId && HasBackground(s)
    ensures HasBackground(RemoveFirst(s, x))
  {
    var b :| b in s && b.attrs.id == BackgroundId;
    RemoveFirstKeepsOthers(s, x);
    assert b in RemoveFirst(s, x);
  }

  /** Appending keeps the background. */
  lemma BackgroundSurvivesAppend(s: seq<FabricObject>, t: FabricObject)
    requires HasBackground(s)
    ensures HasBackground(s + [t])
  {
    var b :| b in s && b.attrs.id == BackgroundId;
    assert b in s + [t];
  }

  /** The topmost object of a non-empty list. */
  function Topmost(objs: seq<FabricObject>): FabricObject
    requires |objs| > 0
  {
    objs[|objs| - 1]
  }

  /** A reordering of the canvas list keeps the background on it. */
  lemma BackgroundSurvivesReorder(s: seq<FabricObject>, t: seq<FabricObject>)
    requires multiset(s) == multiset(t) && HasBackground(s)
    ensures HasBackground(t)
  {
    var b :| b in s && b.attrs.id == BackgroundId;
    assert b in multiset(s);
    assert b in t;
  }

  /** The page component's state over its canvas. */
  class Editor {
    const canvas: Canvas
    var imageLoaded: bool
    var currentFile: Option<File>
    var activeObject: FabricObject?
    var activeTool: Option<Tool>
    var color: string
    var drawingMode: bool

    /** The canvas is well formed, the page's active object is on it, the canvas's drawing
        flag mirrors `drawingMode`, and once an image is loaded the background is on the
        canvas. */
    ghost predicate Valid()
      reads this, canvas, canvas.objects
    {
      && canvas.Valid()
      && (activeObject != null ==> activeObject in canvas.objects)
      && canvas.isDrawingMode == drawingMode
      && (imageLoaded ==> HasBackground(canvas.objects))
    }

    /** The tool and the mode as one value. */
    function Tools(): ToolState
      reads this
    {
      ToolState(activeTool, drawingMode)
    }

    /** The `useState` initial values over a new, empty canvas. */
    constructor (width: real, height: real)
      ensures Valid() && fresh(canvas)
      ensures canvas.objects == [] && canvas.active == null
      ensures !imageLoaded && currentFile == None && activeObject == null
      ensures activeTool == None && color == "#000000" && !drawingMode
    {
      canvas := new Canvas(width, height);
      imageLoaded := false;
      currentFile := None;
      activeObject := null;
      activeTool := None;
      color := "#000000";
      drawingMode := false;
    }

    /** The `selection:created/updated` handler for the objects the canvas reports as
        selected: the first one (none when the report is empty) becomes the page's active
        object, and a text object is also made the canvas's active object. */
    method HandleSelectionChange(selected: seq<FabricObject>)
      requires canvas.Valid() && forall o :: o in selected ==> o in canvas.objects
      modifies this`activeObject, canvas`active
      ensures canvas.Valid()
      ensures old(Valid()) ==> Valid()
      ensures activeObject == if |selected| > 0 then selected[0] else null
      ensures canvas.active == if |selected| > 0 && selected[0].kind == IText then selected[0] else old(canvas.active)
    {
      if |selected| > 0 {
        activeObject := selected[0];
        if selected[0].kind == IText {
          canvas.SetActiveObject(selected[0]);
        }
      } else {
        activeObject := null;
      }
    }

    /** The `selection:cleared` handler: no page active object. */
    method HandleSelectionCleared()
      modifies this`activeObject
      ensures old(Valid()) ==> Valid()
      ensures activeObject == null
    {
      activeObject := null;
    }

    /** `canvas.setActiveObject(o)` on an object that is not already the canvas's active one,
        so the selection event fires, delivered. */
    method SelectOnCanvas(o: FabricObject)
      requires canvas.Valid() && o in canvas.objects && canvas.active != o
      modifies this`activeObject, canvas`active
      ensures canvas.Valid()
      ensures activeObject == o && canvas.active == o
    {
      canvas.SetActiveObject(o);
      HandleSelectionChange([o]);
    }

    /** Removing `o` from the canvas, with the `selection:cleared` event delivered when it
        was the canvas's active object. */
    method RemoveFromCanvas(o: FabricObject)
      requires canvas.Valid()
      modifies this`activeObject, canvas`objects, canvas`active
      ensures canvas.Valid()
      ensures canvas.objects == RemoveFirst(old(canvas.objects), o)
      ensures canvas.active == if old(canvas.active) == o then null else old(canvas.active)
      ensures activeObject == if old(canvas.active) == o then null else old(activeObject)
    {
      var wasActive := canvas.active == o;
      canvas.Remove(o);
      if wasActive {
        HandleSelectionCleared();
      }
    }

    /** `toggleDrawingMode`: the tool state becomes `Toggle` of the old one, and the canvas's
        drawing flag follows. */
    method ToggleDrawingMode()
      requires Valid()
      modifies this`drawingMode, this`activeTool, canvas`isDrawingMode
      ensures Valid()
      ensures Tools() == Toggle(old(Tools()))
    {
      var newMode := !drawingMode;
      canvas.isDrawingMode := newMode;
      drawingMode := newMode;
      if newMode {
        activeTool := Some(Brush);
      } else {
        activeTool := None;
      }
    }

    /** The 'Select' tool button: the select tool, drawing off on the page and the canvas. */
    method ChooseSelectTool()
      requires Valid()
      modifies this`drawingMode, this`activeTool, canvas`isDrawingMode
      ensures Valid()
      ensures Tools() == ToolState(Some(Select), false)
    {
      activeTool := Some(Select);
      drawingMode := false;
      canvas.isDrawingMode := false;
    }

    /** `handleOpenFile` given what the dialog returned: a file is loaded, a cancelled or
        failed dialog (null) changes nothing. */
    method HandleOpenFile(file: Option<File>)
      requires Valid()
      modifies this`imageLoaded, this`currentFile, this`activeObject, canvas`objects, canvas`active
      ensures Valid()
      ensures file.None? ==> imageLoaded == old(imageLoaded) && currentFile == old(currentFile)
      ensures file.None? ==> canvas.objects == old(canvas.objects) && canvas.active == old(canvas.active)
      ensures file.None? ==> activeObject == old(activeObject)
      ensures file.Some? ==> imageLoaded && currentFile == file && |canvas.objects| == 1
      ensures file.Some? ==> fresh(canvas.objects[0]) && canvas.objects[0].kind == Image
      ensures file.Some? ==> canvas.objects[0].attrs.id == BackgroundId
      ensures file.Some? ==> activeObject == canvas.objects[0] && canvas.active == canvas.objects[0]
    {
      if file.Some? {
        LoadImage(file.value);
      }
    }

    /** `loadImage(file)`: the list is cleared and holds only the new image, with id
        `'background-image'`, active on the canvas and on the page; the file is current and
        the image counts as loaded. */
    method LoadImage(file: File)
      requires Valid()
      modifies this`imageLoaded, this`currentFile, this`activeObject, canvas`objects, canvas`active
      ensures Valid()
      ensures |canvas.objects| == 1 && fresh(canvas.objects[0]) && canvas.objects[0].kind == Image
      ensures canvas.objects[0].attrs == Defaults.(id := BackgroundId)
      ensures activeObject == canvas.objects[0] && canvas.active == canvas.objects[0]
      ensures imageLoaded && currentFile == Some(file)
    {
      var wasActive := canvas.active != null;
      canvas.Clear();
      if wasActive {
        HandleSelectionCleared();
      }
      var img := new FabricObject(Image, Defaults);
      img.attrs := img.attrs.(id := BackgroundId);
      canvas.Add(img);
      SelectOnCanvas(img);
      currentFile := Some(file);
      imageLoaded := true;
    }

    /** `handleSaveFile`'s guard, given the canvas rendered as a PNG data URL: nothing is
        asked for unless an image is loaded and a file is current; then the save dialog is
        asked for that file's name and the rendered data. Nothing changes. */
    method HandleSaveFile(rendered: string) returns (request: Option<SaveRequest>)
      ensures request.None? <==> !imageLoaded || currentFile.None?
      ensures request.Some? ==> request.value == SaveRequest(currentFile.value.name, rendered)
    {
      if !imageLoaded || currentFile.None? {
        return None;
      }
      request := Some(SaveRequest(currentFile.value.name, rendered));
    }

    /** The shared tail of the three add handlers: `o` is appended, made active and the
        tool becomes 'select'. */
    method AddAndSelect(o: FabricObject)
      requires Valid() && imageLoaded && o !in canvas.objects
      modifies this`activeObject, this`activeTool, canvas`objects, canvas`active
      ensures Valid()
      ensures canvas.objects == old(canvas.objects) + [o]
      ensures activeObject == o && canvas.active == o && activeTool == Some(Select)
    {
      canvas.Add(o);
      SelectOnCanvas(o);
      activeTool := Some(Select);
    }

    /** `addText`, given the size the library's text layout measures for the new text:
        without a loaded image nothing changes; otherwise a new text object with the current
        colour, centred, in Arial 20, is appended on top and made active, and the tool
        becomes 'select'. */
    method AddText(measured: (real, real))
      requires Valid()
      modifies this`activeObject, this`activeTool, canvas`objects, canvas`active
      ensures Valid()
      ensures !imageLoaded ==> canvas.objects == old(canvas.objects) && canvas.active == old(canvas.active)
      ensures !imageLoaded ==> activeObject == old(activeObject) && activeTool == old(activeTool)
      ensures imageLoaded ==> |canvas.objects| == |old(canvas.objects)| + 1
      ensures imageLoaded ==> canvas.objects == old(canvas.objects) + [Topmost(canvas.objects)]
      ensures imageLoaded ==> fresh(Topmost(canvas.objects)) && Topmost(canvas.objects).kind == IText
      ensures imageLoaded ==> Topmost(canvas.objects).attrs == NewTextAttrs(color, canvas.width, canvas.height, measured)
      ensures imageLoaded ==> activeObject == Topmost(canvas.objects) && canvas.active == Topmost(canvas.objects)
      ensures imageLoaded ==> activeTool == Some(Select)
    {
      if !imageLoaded {
        return;
      }
      var text := new FabricObject(IText, NewTextAttrs(color, canvas.width, canvas.height, measured));
      AddAndSelect(text);
    }

    /** `addRectangle`: like `addText`, with a 100 by 70 rectangle stroked in the current
        colour, width 2, transparent fill. */
    method AddRectangle()
      requires Valid()
      modifies this`activeObject, this`activeTool, canvas`objects, canvas`active
      ensures Valid()
      ensures !imageLoaded ==> canvas.objects == old(canvas.objects) && canvas.active == old(canvas.active)
      ensures !imageLoaded ==> activeObject == old(activeObject) && activeTool == old(activeTool)
      ensures imageLoaded ==> |canvas.objects| == |old(canvas.objects)| + 1
      ensures imageLoaded ==> canvas.objects == old(canvas.objects) + [Topmost(canvas.objects)]
      ensures imageLoaded ==> fresh(Topmost(canvas.objects)) && Topmost(canvas.objects).kind == Rect
      ensures imageLoaded ==> Topmost(canvas.objects).attrs == NewRectAttrs(color, canvas.width, canvas.height)
      ensures imageLoaded ==> activeObject == Topmost(canvas.objects) && canvas.active == Topmost(canvas.objects)
      ensures imageLoaded ==> activeTool == Some(Select)
    {
      if !imageLoaded {
        return;
      }
      var rect := new FabricObject(Rect, NewRectAttrs(color, canvas.width, canvas.height));
      AddAndSelect(rect);
    }

    /** `addCircle`: like `addText`, with a circle of radius 50 stroked in the current
        colour, width 2, transparent fill. */
    method AddCircle()
      requires Valid()
      modifies this`activeObject, this`activeTool, canvas`objects, canvas`active
      ensures Valid()
      ensures !imageLoaded ==> canvas.objects == old(canvas.objects) && canvas.active == old(canvas.active)
      ensures !imageLoaded ==> activeObject == old(activeObject) && activeTool == old(activeTool)
      ensures imageLoaded ==> |canvas.objects| == |old(canvas.objects)| + 1
      ensures imageLoaded ==> canvas.objects == old(canvas.objects) + [Topmost(canvas.objects)]
      ensures imageLoaded ==> fresh(Topmost(canvas.objects)) && Topmost(canvas.objects).kind == Circle
      ensures imageLoaded ==> Topmost(canvas.objects).attrs == NewCircleAttrs(color, canvas.width, canvas.height)
      ensures imageLoaded ==> activeObject == Topmost(canvas.objects) && canvas.active == Topmost(canvas.objects)
      ensures imageLoaded ==> activeTool == Some(Select)
    {
      if !imageLoaded {
        return;
      }
      var circle := new FabricObject(Circle, NewCircleAttrs(color, canvas.width, canvas.height));
      AddAndSelect(circle);
    }

    /** `deleteSelectedObject`: with no active object or no image nothing happens; the
        background is refused with an alert and nothing else; any other active object is
        removed, the others keep their order, and nothing is active on the page. */
    method DeleteSelectedObject() returns (alert: Option<string>)
      requires Valid()
      modifies this`activeObject, canvas`objects, canvas`active
      ensures Valid()
      ensures old(activeObject) == null || !imageLoaded ==>
                alert == None && canvas.objects == old(canvas.objects) &&
                canvas.active == old(canvas.active) && activeObject == old(activeObject)
      ensures old(activeObject) != null && imageLoaded && old(activeObject.attrs.id) == BackgroundId ==>
                alert == Some(CannotDeleteBackground) && canvas.objects == old(canvas.objects) &&
                canvas.active == old(canvas.active) && activeObject == old(activeObject)
      ensures old(activeObject) != null && imageLoaded && old(activeObject.attrs.id) != BackgroundId ==>
                alert == None && canvas.objects == RemoveFirst(old(canvas.objects), old(activeObject)) &&
                old(activeObject) !in canvas.objects && activeObject == null &&
                canvas.active == if old(canvas.active) == old(activeObject) then null else old(canvas.active)
    {
      if activeObject == null || !imageLoaded {
        return None;
      }
      if activeObject.attrs.id == BackgroundId {
        return Some(CannotDeleteBackground);
      }
      var o := activeObject;
      RemoveFirstKeepsOthers(canvas.objects, o);
      BackgroundSurvivesRemove(canvas.objects, o);
      RemoveFromCanvas(o);
      activeObject := null;
      alert := None;
    }

    /** `convertToText`, given the active object's bounding rectangle: with no active object
        or no image nothing happens; the background is refused with an alert and nothing
        else; otherwise the object is replaced by a new text object on top, placed and sized
        by the bounds with font size 0.8 of their height, and the text is active. */
    method ConvertToText(bounds: Bounds) returns (alert: Option<string>)
      requires Valid()
      modifies this`activeObject, canvas`objects, canvas`active
      ensures Valid()
      ensures old(activeObject) == null || !imageLoaded ==>
                alert == None && canvas.objects == old(canvas.objects) &&
                canvas.active == old(canvas.active) && activeObject == old(activeObject)
      ensures old(activeObject) != null && imageLoaded && old(activeObject.attrs.id) == BackgroundId ==>
                alert == Some(SelectAreaToConvert) && canvas.objects == old(canvas.objects) &&
                canvas.active == old(canvas.active) && activeObject == old(activeObject)
      ensures old(activeObject) != null && imageLoaded && old(activeObject.attrs.id) != BackgroundId ==>
                && alert == None
                && |canvas.objects| == |old(canvas.objects)|
                && canvas.objects == Converted(old(canvas.objects), old(activeObject), Topmost(canvas.objects))
                && old(activeObject) !in canvas.objects
                && fresh(Topmost(canvas.objects)) && Topmost(canvas.objects).kind == IText
                && Topmost(canvas.objects).attrs == ConvertedTextAttrs(color, bounds)
                && activeObject == Topmost(canvas.objects) && canvas.active == Topmost(canvas.objects)
    {
      if activeObject == null || !imageLoaded {
        return None;
      }
      if activeObject.attrs.id == BackgroundId {
        return Some(SelectAreaToConvert);
      }
      var text := new FabricObject(IText, ConvertedTextAttrs(color, bounds));
      BackgroundSurvivesRemove(canvas.objects, activeObject);
      BackgroundSurvivesAppend(RemoveFirst(canvas.objects, activeObject), text);
      ReplaceOnCanvas(activeObject, text);
      alert := None;
    }

    /** `convertToText`'s list steps: `o` is removed (its event delivered), `text` added on
        top and made active, its event delivered. */
    method ReplaceOnCanvas(o: FabricObject, text: FabricObject)
      requires canvas.Valid() && o in canvas.objects && text !in canvas.objects
      modifies this`activeObject, canvas`objects, canvas`active
      ensures canvas.Valid()
      ensures canvas.objects == Converted(old(canvas.objects), o, text)
      ensures o !in canvas.objects
      ensures activeObject == text && canvas.active == text
    {
      ConvertedList(canvas.objects, o, text);
      RemoveFromCanvas(o);
      canvas.Add(text);
      SelectOnCanvas(text);
    }

    /** `handleColorChange(newColor)`: the colour becomes `newColor`; an active object gets
        `fill` set if it is text and `stroke` otherwise, and nothing else. */
    method HandleColorChange(newColor: string)
      requires Valid()
      modifies this`color, activeObject
      ensures Valid()
      ensures color == newColor
      ensures activeObject != null ==>
                activeObject.attrs == Set(old(activeObject.attrs), ColorKey(activeObject.kind), Str(newColor))
    {
      color := newColor;
      if activeObject != null {
        activeObject.attrs := Set(activeObject.attrs, ColorKey(activeObject.kind), Str(newColor));
      }
    }
  }

  /** The layer panel's `moveLayerUp` on the page's canvas: the canvas list is reordered and
      nothing else, so the page's invariant holds on after it. */
  method MoveLayerUpOnPage(e: Editor, panel: Layers.LayerManager, index: nat)
    requires e.Valid() && panel.Valid() && panel.canvas == e.canvas
    modifies panel`layers, e.canvas`objects
    ensures e.Valid() && panel.Valid()
    ensures e.canvas.objects == Layers.MoveUp(old(e.canvas.objects), index)
    ensures panel.layers == Layers.MoveUp(old(panel.layers), index)
  {
    ghost var objs := e.canvas.objects;
    panel.MoveLayerUp(index);
    if e.imageLoaded {
      BackgroundSurvivesReorder(objs, e.canvas.objects);
    }
    if e.activeObject != null {
      assert e.activeObject in multiset(objs);
    }
  }

  /** The layer panel's `moveLayerDown` for a listed index on the page's canvas: likewise a
      reordering that keeps the page's invariant. */
  method MoveLayerDownOnPage(e: Editor, panel: Layers.LayerManager, index: nat)
    requires e.Valid() && panel.Valid() && panel.canvas == e.canvas && index < |panel.layers|
    modifies panel`layers, e.canvas`objects
    ensures e.Valid() && panel.Valid()
    ensures e.canvas.objects == Layers.MoveDown(old(e.canvas.objects), index)
    ensures panel.layers == Layers.MoveDown(old(panel.layers), index)
  {
    ghost var objs := e.canvas.objects;
    panel.MoveLayerDown(index);
    if e.imageLoaded {
      BackgroundSurvivesReorder(objs, e.canvas.objects);
    }
    if e.activeObject != null {
      assert e.activeObject in multiset(objs);
    }
  }
}

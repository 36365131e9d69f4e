# APAImageEditor document and layer model

A Dafny model of the document core of a desktop image-annotation editor. The editor
keeps its drawing in a canvas library's ordered object list, back to front. The list holds
one protected background image plus text, rectangles, circles and freehand paths. Around
that list the editor's own code keeps:

- the page state: whether an image is loaded, the current file, the active object, the
  tool, the colour and the drawing mode (`index.js`);
- a layer panel that mirrors the object order, gives objects ids, toggles visibility and
  moves objects one slot up or down (`LayerManager.js`);
- a property panel whose setters are guarded by the active object's kind
  (`ObjectProperties.js`).

The modules in dependency order:

- `wrappers.dfy` (`Wrappers`): `Option`, which stands for JavaScript's `null`.
- `sequences.dfy` (`Sequences`): the list operations the canvas library performs. Remove
  deletes the first occurrence. Insert splices at an index. A swap exchanges two slots.
  These come with the facts that an adjacent `moveTo` is a swap and that removal takes out
  exactly one element.
- `fabric.dfy` (`Fabric`): canvas objects as a class with a fixed kind and mutable
  attributes. `set(key, value)` is modelled as `Set`, with a get/set law. The canvas is a
  class holding the object list, the active object and the drawing flag.
- `layers.dfy` (`Layers`): the `LayerManager` component and the pure functions that
  specify it: the snapshot, the guarded moves, the visibility toggle and the id loop.
- `properties.dfy` (`Properties`): the `ObjectProperties` component, the `||` defaults it
  loads, and what it renders.
- `home.dfy` (`Home`): the `Editor` page. Its invariant has four parts:
  - the canvas is well formed;
  - the page's active object is on the canvas;
  - the canvas's drawing flag mirrors `drawingMode`;
  - once an image is loaded, an object carrying `'background-image'` is on the canvas.

Every handler of the page preserves this invariant. So does a move in the layer panel, which
only reorders the list (`MoveLayerUpOnPage`, `MoveLayerDownOnPage`).

The canvas library's events are delivered synchronously. `setActiveObject` calls the
editor's selection handler when the canvas's active object changes. Removing or clearing
the canvas's active object calls the selection-cleared handler.

Four behaviours of the code a reader might not expect, which the model follows as written:

- `convertToText` appends the new text on top. It does not keep the original's position.
- Moving up from `i` is undone by moving down from `i + 1`, not from `i`
  (`MoveUpThenDown`, `MoveDownThenUp`).
- Two visibility toggles restore `visible` but set `opacity` to exactly 1 or 0, so a
  partial opacity is lost (`ToggledTwice`).
- The id loop runs only when the layer panel mounts (LayerManager.js:8-40). The panel is
  only rendered once an image is loaded (index.js:547), and at that moment the list holds
  just the background, which already has its id. Texts, shapes, converted texts and paths
  added later never get an `id`, so every snapshot gives them a new random layer id. The
  model follows this: `NewTextAttrs`, `NewRectAttrs`, `NewCircleAttrs` and
  `ConvertedTextAttrs` all leave `id` empty.

## Model

| member | source | states |
|---|---|---|
| Sequences.RemoveFirst | index.js:268 | the library's `remove`: the first occurrence is taken out and the others keep their order; an absent element leaves the list as it was; the multiset loses exactly that element |
| Sequences.RemoveFirstKeepsOthers | index.js:268 | on a list without repetitions, removing an object leaves one fewer, the object gone and every other object still present |
| Sequences.InsertAt | LayerManager.js:65 | the library's `moveTo` splice: the element is inserted before the index, which is clamped to the end; the others keep their order |
| Sequences.MoveToNextIsSwap | LayerManager.js:63-65 | `moveTo(objects[i], i + 1)` on a list without repetitions is the swap of slots `i` and `i + 1` |
| Sequences.MoveToPreviousIsSwap | LayerManager.js:79-81 | `moveTo(objects[i], i - 1)` on a list without repetitions is the swap of slots `i` and `i - 1` |
| Fabric.Set | ObjectProperties.js:28 | `obj.set(key, value)` gives the named attribute the value and leaves every other attribute as it was |
| Fabric.Canvas.Add | index.js:205 | `add` appends the object as topmost |
| Fabric.Canvas.Remove | index.js:268 | `remove` takes the object out of the list; if it was the canvas's active object, nothing is active |
| Fabric.Canvas.Clear | index.js:127 | `clear` empties the list and discards the active object |
| Fabric.Canvas.SetActiveObject | index.js:206 | `setActiveObject` makes a listed object the canvas's active object |
| Fabric.Canvas.MoveTo | LayerManager.js:65 | `moveTo` removes the object and re-inserts it at the index; the multiset of objects is unchanged |
| Layers.Snapshot | LayerManager.js:10-18 | `updateLayers`: one entry per object in canvas order, with its kind and visibility; its own id when it has one, otherwise that slot's random draw |
| Layers.SnapshotAt | LayerManager.js:12-17 | each snapshot entry is the entry built from its own object and draw |
| Layers.FreshId | LayerManager.js:23 | the id source yields a non-empty id unlike every id in use |
| Layers.MoveUp | LayerManager.js:61-74 | below the top slot, slots `i` and `i + 1` are exchanged and every other slot is kept; otherwise nothing changes; length and multiset are preserved |
| Layers.MoveDown | LayerManager.js:77-90 | above slot 0, slots `i` and `i - 1` are exchanged and every other slot is kept; at 0 nothing changes; length and multiset are preserved |
| Layers.MoveUpThenDown | LayerManager.js:61-90 | moving up from `i` and then down from `i + 1` restores the order |
| Layers.MoveDownThenUp | LayerManager.js:61-90 | moving down from `i` and then up from `i - 1` restores the order |
| Layers.MovesKeepInStep | LayerManager.js:61-90 | layers that match the object order still match after both are moved at the same index |
| Layers.SnapshotAfterMoveUp | LayerManager.js:61-74 | swapping the layer entries yields what a fresh snapshot of the swapped objects would yield, so the panel is never stale after a move up |
| Layers.SnapshotAfterMoveDown | LayerManager.js:77-90 | the same for a move down |
| Layers.Toggled | LayerManager.js:45-46 | `visible` is negated, `opacity` becomes 1 when the object is now shown and 0 when it is hidden, and nothing else changes |
| Layers.ToggledTwice | LayerManager.js:45-46 | two toggles restore every attribute except `opacity`, which they set to 1 for a shown object and 0 for a hidden one |
| Layers.WithVisibility | LayerManager.js:50-56 | exactly the entries carrying the layer's id get the new flag; objects, ids and kinds are kept |
| Layers.WithVisibilityInStep | LayerManager.js:50-56 | updating the flags keeps the layers in step with the objects |
| Layers.AssignIdIfMissing | LayerManager.js:22-24 | an object without an id gets a non-empty one unlike every id in use; an object with an id keeps it; no other attribute changes |
| Layers.IdsGivenStep | LayerManager.js:21-25 | one more visited object extends the id loop's guarantee |
| Layers.AssignIdInList | LayerManager.js:22-24 | the callback on the object at `i` of a list without repetitions changes only slot `i` of the attribute list, and there only as `AssignIdIfMissing` says |
| Layers.AssignIdAt | LayerManager.js:21-25 | one turn of the id loop extends the guarantee to the next object |
| Layers.LayerManager.constructor | LayerManager.js:5-27 | `useState([])` followed by the mount effect: every object gets an id as the id loop promises, and the layers are the first snapshot, in step with the canvas |
| Layers.LayerManager.AssignIds | LayerManager.js:21-25 | after the loop, every object has an id; an existing id is never changed; a newly given id differs from every other object's id; nothing but ids changes |
| Layers.LayerManager.Mount | LayerManager.js:8-27 | the mount effect gives the ids, then takes the first snapshot, in step with the canvas |
| Layers.LayerManager.UpdateLayers | LayerManager.js:10-18 | the layers become the snapshot of the current objects |
| Layers.LayerManager.ToggleVisibility | LayerManager.js:43-58 | the object's attributes become `Toggled` of the old ones, and the entries with the layer's id record the new visibility |
| Layers.LayerManager.MoveLayerUp | LayerManager.js:61-74 | the canvas objects and the layers are both moved up at the index, under the same guard, and stay in step |
| Layers.LayerManager.MoveLayerDown | LayerManager.js:77-90 | the canvas objects and the layers are both moved down at the index, under the same guard, and stay in step |
| Layers.LayerManager.SelectLayer | LayerManager.js:93-98 | the layer's object becomes the canvas's active object; the list and the layers are not touched |
| Properties.Loaded | ObjectProperties.js:10-20 | on a selection the panel loads opacity and stroke width for every kind, and font size and family only for text; a stored 0 or "" shows as 1, 1, 20 or 'Arial'; the shown opacity and stroke width are never 0 |
| Properties.LoadedIdempotent | ObjectProperties.js:10-20 | loading the same object twice shows the same values |
| Properties.HiddenLayerShowsOpaque | ObjectProperties.js:12 | a layer the visibility toggle hid holds opacity 0, yet the panel shows opacity 1 for it |
| Properties.OpacityRoundTrip | ObjectProperties.js:23-31 | after the slider writes `v`, re-selecting the object shows `v`, except that 0 comes back as 1 |
| Properties.ObjectProperties.constructor | ObjectProperties.js:4-20 | the panel starts at 1, 1, 20 and 'Arial', and the first effect loads a non-null prop |
| Properties.ObjectProperties.LoadFrom | ObjectProperties.js:11-19 | the effect body: a non-null object's values are loaded as `Loaded` says; with no object nothing changes |
| Properties.ObjectProperties.ActiveObjectChanged | ObjectProperties.js:10-20 | the effect runs only when the prop is a different object, and loads it when it is non-null |
| Properties.ObjectProperties.HandleOpacityChange | ObjectProperties.js:23-31 | the panel shows the value; an active object of any kind gets `opacity` set and nothing else |
| Properties.ObjectProperties.HandleStrokeWidthChange | ObjectProperties.js:34-42 | the panel shows the value; only a non-text object gets `strokeWidth` set; a text object is unchanged |
| Properties.ObjectProperties.HandleFontSizeChange | ObjectProperties.js:45-53 | the panel shows the value; only a text object gets `fontSize` set; other kinds are unchanged |
| Properties.ObjectProperties.HandleFontFamilyChange | ObjectProperties.js:56-64 | the panel shows the value; only a text object gets `fontFamily` set; other kinds are unchanged |
| Properties.ObjectProperties.View | ObjectProperties.js:66-133 | nothing is rendered exactly when there is no active object; the stroke control appears exactly for non-text objects and the font controls exactly for text, showing the panel values |
| Home.Toggle | index.js:96-106 | the drawing mode flips; the tool is the brush exactly when the new mode is on and null otherwise |
| Home.ToggleTwice | index.js:96-106 | two toggles always restore the mode, and they restore the tool if and only if the tool agreed with the mode |
| Home.ToggleConsistent | index.js:96-106 | after any toggle the tool agrees with the mode |
| Home.SelectLostByToggles | index.js:209 | after an add or the 'Select' button the tool is 'select', which disagrees with either mode, and two toggles never give 'select' back |
| Home.ColorKey | index.js:318-332 | a colour change writes `fill` exactly for text and `stroke` for paths and every other kind |
| Home.BackgroundSurvivesRemove | index.js:262-268 | removing an object that does not carry the background id keeps an object carrying it on the list |
| Home.BackgroundSurvivesAppend | index.js:205 | appending an object keeps the background on the list |
| Home.BackgroundSurvivesReorder | LayerManager.js:61-90 | any reordering of the list keeps the background on it |
| Home.ConvertedList | index.js:293-312 | replacing an object by a new text keeps the length and every other object; the original is gone, the text is on top, and there are no repetitions |
| Home.Editor.constructor | index.js:12-23 | the initial page state: nothing loaded, no file, no active object, no tool, colour '#000000', drawing off, over a new, empty canvas |
| Home.Editor.HandleSelectionChange | index.js:86-93 | the first selected object, or null for an empty report, becomes the page's active object; a text object is also made the canvas's active object; the invariant is kept |
| Home.Editor.HandleSelectionCleared | index.js:34 | `selection:cleared` leaves no page active object |
| Home.Editor.SelectOnCanvas | index.js:206 | `setActiveObject` on an object that is not already the canvas's active one, with the selection event it then fires: the object is active on the canvas and on the page |
| Home.Editor.ReplaceOnCanvas | index.js:308-312 | the original is removed with its event, the new text appended on top and made active on both sides; the list is `Converted` of the old one |
| Home.Editor.RemoveFromCanvas | index.js:268 | `remove` with its event: if the object was the canvas's active object, nothing is active on either side |
| Home.Editor.ToggleDrawingMode | index.js:96-106 | the tool state becomes `Toggle` of the old one, and the canvas flag follows |
| Home.Editor.ChooseSelectTool | index.js:449-455 | the 'Select' button sets the select tool and turns drawing off on the page and on the canvas |
| Home.Editor.HandleOpenFile | index.js:109-120 | a returned file is loaded; a null result changes nothing |
| Home.Editor.LoadImage | index.js:123-161 | the list holds exactly one new image with id `'background-image'`, active on the canvas and on the page; the file is current and the image counts as loaded |
| Home.Editor.HandleSaveFile | index.js:164-187 | nothing is asked for if and only if no image is loaded or no file is current; otherwise the save dialog is asked for the file's name and the rendered data; no state changes |
| Home.Editor.AddAndSelect | index.js:205-209 | the new object is appended, made active and the tool becomes 'select' |
| Home.Editor.AddText | index.js:190-210 | without an image nothing changes; otherwise one new text is appended on top, with the given options and the width and height the text layout measured, earlier objects stay in place, the text is active and the tool is 'select' |
| Home.Editor.AddRectangle | index.js:213-233 | the same with a 100 by 70 rectangle, stroked in the colour at width 2 with a transparent fill |
| Home.Editor.AddCircle | index.js:236-255 | the same with a radius-50 circle, stroked in the colour at width 2 with a transparent fill |
| Home.Editor.DeleteSelectedObject | index.js:258-271 | with no active object or no image nothing happens; the background is refused with its alert and nothing changes; otherwise exactly the active object is removed, the rest keep their order, and the page has no active object |
| Home.Editor.ConvertToText | index.js:283-315 | the same guards and alert; otherwise the length is kept, the original is gone, and one new text, placed and sized by the bounds with font size 0.8 of their height, is on top and active |
| Home.Editor.HandleColorChange | index.js:318-332 | the colour is updated; an active object gets `fill` (text) or `stroke` (every other kind) set and nothing else |
| Home.MoveLayerUpOnPage | LayerManager.js:61-74 | the panel's move up on the page's canvas reorders the list and the panel's layers as `MoveUp` says and keeps both the page's and the panel's invariants |
| Home.MoveLayerDownOnPage | LayerManager.js:77-90 | the same for a move down from a listed index |

## Left out

- The host shell and its dialogs are not part of this model: `main.js`, `preload.js`, file reads and writes, and the asynchronous open and save calls. The open dialog's result and the rendered PNG data URL are parameters. The errors caught around these calls, and the "saved" alert, are not modelled.
- `next.config.js` is build configuration and is not part of this model.
- Rendering (`renderAll`), image decoding (the asynchronous `fromURL` callback runs at once), PNG encoding and `enterEditing` are left out. `getBoundingRect` is a parameter of `ConvertToText`. The width and height the text layout measures for the new text of `addText` are a parameter of `AddText`.
- The background's scaling and centring arithmetic (index.js:130-147) is floating point over measured sizes. The image is created with the library defaults and its id.
- Origins, `editable`, `selectable` and scale factors are left out. A circle's radius 50 appears as a width and height of 100.
- Home.Editor.ConvertToText: the text's width and height are the options it passes. The library's text layout recomputes them from the text, which the model does not capture.
- Properties.ObjectProperties.HandleFontSizeChange: writes `fontSize` only, and keeps width and height. The library's text layout reruns on a font change and would recompute them, which the model does not capture.
- Properties.ObjectProperties.HandleFontFamilyChange: writes `fontFamily` only, and keeps width and height. The library's text layout recomputes them on this change as well, which the model does not capture.
- Freehand paths are not created by any modelled operation. The canvas library adds one per brush stroke while drawing mode is on, which is outside the editor's code; paths enter the model only as objects already on the list.
- Window resizing, the brush colour and size effects (index.js:49-83) and the brush-size handler are left out. So are the `mouse:dblclick` handler, the colour-picker visibility and all markup.
- `editTextObject` (index.js:274-280) only calls `enterEditing` and renders, so it has no state to model.
- The event wiring between components is left out. `object:added/removed/modified` would call `UpdateLayers`, and a layer selection would reach the page's selection handler. Each component is modelled with its own handlers, and `Layers.LayerManager.UpdateLayers` is that listener's body.
- Multiple selections are left out. The selection handler takes the reported objects and uses the first.
- `Math.random` ids are left out. The id loop uses `FreshId`, a deterministic supply of unused ids. The snapshot takes the random strings drawn for id-less objects as a parameter.
- JavaScript values outside the model's types are left out: `undefined` fields, `NaN` from the parse calls, and `visible` values other than true and false. Numbers are mathematically exact reals; `parseInt` results are integers.
- React's state batching and re-rendering are left out. State updates take effect immediately and in program order.
- The `if (canvas)` guards in LayerManager.js and ObjectProperties.js always hold. Both panels are rendered only with a canvas (index.js:540-550), so the canvas is a non-null constant there.
- Layers.LayerManager.MoveLayerDown: it requires a listed index. The panel only offers its buttons on entries, so with an empty layers array `objects[index]` is never reached.

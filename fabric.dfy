/** The canvas library as the editor uses it: drawable objects with named attributes set
    through `set(key, value)`, and a canvas holding an ordered object list (back to front)
    and an optional active object. Rendering, geometry and image codecs are not modelled. */
module Fabric {
  import opened Sequences

  /** An object's `type`: 'i-text', 'rect', 'circle', 'path' or 'image'. */
  datatype Kind = IText | Rect | Circle | Path | Image

  /** The rectangle `getBoundingRect()` reports for an object. */
  datatype Bounds = Bounds(left: real, top: real, width: real, height: real)

  /** The attributes the editor reads or writes. A missing `id` (or a null `stroke`) is "". */
  datatype Attrs = Attrs(
    id: string, text: string, visible: bool, opacity: real,
    strokeWidth: real, stroke: string, fill: string,
    fontSize: real, fontFamily: string,
    left: real, top: real, width: real, height: real)

  /** The library's own defaults for attributes an object is created without. A text's
      width and height are not among them: its text layout measures those. */
  const Defaults: Attrs := Attrs(
    "", "", true, 1.0,
    1.0, "", "rgb(0,0,0)",
    40.0, "Times New Roman",
    0.0, 0.0, 0.0, 0.0)

  /** Attribute names accepted by `set`. */
  datatype Key = Id | Text | Visible | Opacity | StrokeWidth | Stroke | Fill
               | FontSize | FontFamily | Left | Top | Width | Height

  /** An attribute value: a number, a string or a flag. */
  datatype Value = Num(n: real) | Str(s: string) | Flag(b: bool)

  /** Reading one attribute by name. */
  function Get(a: Attrs, k: Key): Value {
    match k
    case Id => Str(a.id)
    case Text => Str(a.text)
    case Visible => Flag(a.visible)
    case Opacity => Num(a.opacity)
    case StrokeWidth => Num(a.strokeWidth)
    case Stroke => Str(a.stroke)
    case Fill => Str(a.fill)
    case FontSize => Num(a.fontSize)
    case FontFamily => Str(a.fontFamily)
    case Left => Num(a.left)
    case Top => Num(a.top)
    case Width => Num(a.width)
    case Height => Num(a.height)
  }

  /** `v` has the type attribute `k` holds. */
  predicate Fits(k: Key, v: Value) {
    match k
    case Visible => v.Flag?
    case Id | Text | Stroke | Fill | FontFamily => v.Str?
    case _ => v.Num?
  }

  /** `obj.set(k, v)`: attribute `k` becomes `v`, every other attribute is left alone. */
  function Set(a: Attrs, k: Key, v: Value): (r: Attrs)
    requires Fits(k, v)
    ensures Get(r, k) == v
    ensures forall k' :: k' != k ==> Get(r, k') == Get(a, k')
  {
    match k
    case Id => a.(id := v.s)
    case Text => a.(text := v.s)
    case Visible => a.(visible := v.b)
    case Opacity => a.(opacity := v.n)
    case StrokeWidth => a.(strokeWidth := v.n)
    case Stroke => a.(stroke := v.s)
    case Fill => a.(fill := v.s)
    case FontSize => a.(fontSize := v.n)
    case FontFamily => a.(fontFamily := v.s)
    case Left => a.(left := v.n)
    case Top => a.(top := v.n)
    case Width => a.(width := v.n)
    case Height => a.(height := v.n)
  }

  /** Two attribute records that agree on every name are equal. */
  lemma GetDeterminesAttrs(a: Attrs, b: Attrs)
    requires forall k :: Get(a, k) == Get(b, k)
    ensures a == b
  {
    assert Get(a, Id) == Get(b, Id) && Get(a, Text) == Get(b, Text);
    assert Get(a, Visible) == Get(b, Visible) && Get(a, Opacity) == Get(b, Opacity);
    assert Get(a, StrokeWidth) == Get(b, StrokeWidth) && Get(a, Stroke) == Get(b, Stroke);
    assert Get(a, Fill) == Get(b, Fill) && Get(a, FontSize) == Get(b, FontSize);
    assert Get(a, FontFamily) == Get(b, FontFamily) && Get(a, Left) == Get(b, Left);
    assert Get(a, Top) == Get(b, Top) && Get(a, Width) == Get(b, Width);
    assert Get(a, Height) == Get(b, Height);
  }

  /** A drawable object; its kind is fixed when it is created, its attributes are mutable. */
  class FabricObject {
    const kind: Kind
    var attrs: Attrs

    constructor (kind: Kind, attrs: Attrs)
      ensures this.kind == kind && this.attrs == attrs
    {
      this.kind := kind;
      this.attrs := attrs;
    }
  }

  /** The canvas: its object list, back to front, and its own active object. */
  class Canvas {
    var objects: seq<FabricObject>
    var active: FabricObject?
    var isDrawingMode: bool
    var width: real
    var height: real

    /** No object is listed twice, and the active object is one of the listed ones. */
    ghost predicate Valid()
      reads this
    {
      Distinct(objects) && (active != null ==> active in objects)
    }

    constructor (width: real, height: real)
      ensures Valid()
      ensures objects == [] && active == null && !isDrawingMode
      ensures this.width == width && this.height == height
    {
      objects := [];
      active := null;
      isDrawingMode := false;
      this.width := width;
      this.height := height;
    }

    /** `add(o)`: `o` becomes the topmost object. */
    method Add(o: FabricObject)
      requires Valid() && o !in objects
      modifies this`objects
      ensures Valid()
      ensures objects == old(objects) + [o]
    {
      objects := objects + [o];
    }

    /** `remove(o)`: `o` leaves the list; if it was the active object, nothing is active. */
    method Remove(o: FabricObject)
      requires Valid()
      modifies this`objects, this`active
      ensures Valid()
      ensures objects == RemoveFirst(old(objects), o)
      ensures active == if old(active) == o then null else old(active)
    {
      RemoveFirstDistinct(objects, o);
      objects := RemoveFirst(objects, o);
      if active == o {
        active := null;
      }
    }

    /** `clear()`: no objects and no active object. */
    method Clear()
      modifies this`objects, this`active
      ensures Valid()
      ensures objects == [] && active == null
    {
      objects := [];
      active := null;
    }

    /** `setActiveObject(o)` on a listed object. */
    method SetActiveObject(o: FabricObject)
      requires Valid() && o in objects
      modifies this`active
      ensures Valid()
      ensures active == o
    {
      active := o;
    }

    /** `moveTo(o, index)`: `o` is taken out and re-inserted before `index`. */
    method MoveTo(o: FabricObject, index: nat)
      requires Valid() && o in objects
      modifies this`objects
      ensures Valid()
      ensures objects == InsertAt(RemoveFirst(old(objects), o), index, o)
      ensures multiset(objects) == multiset(old(objects))
    {
      RemoveFirstDistinct(objects, o);
      InsertAtDistinct(RemoveFirst(objects, o), index, o);
      objects := InsertAt(RemoveFirst(objects, o), index, o);
      assert active != null ==> active in multiset(old(objects)) && active in multiset(objects);
    }
  }
}

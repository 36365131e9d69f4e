/** The property panel (ObjectProperties.js): four panel values loaded from the active object
    when the selection changes, and kind-guarded setters that write one attribute each. */
module Properties {
  import opened Wrappers
  import opened Fabric
  import opened Layers

  /** The panel's four `useState` values. */
  datatype Panel = Panel(opacity: real, strokeWidth: real, fontSize: real, fontFamily: string)

  /** The `useState` initial values. */
  const InitialPanel: Panel := Panel(1.0, 1.0, 20.0, "Arial")

  /** JavaScript's `x || d` on a number: 0 is falsy, so it yields `d`. */
  function OrNum(x: real, d: real): real {
    if x == 0.0 then d else x
  }

  /** JavaScript's `x || d` on a string: "" is falsy, so it yields `d`. */
  function OrStr(x: string, d: string): string {
    if x == "" then d else x
  }

  /** The effect run when the active object changes, for an object of kind `kind` carrying
      `a`: opacity and stroke width always loaded, font fields only for text; a value the
      object holds as 0 (or "") shows as the panel default, and nothing shows as 0 or "". */
  function Loaded(p: Panel, kind: Kind, a: Attrs): (r: Panel)
    ensures a.opacity != 0.0 ==> r.opacity == a.opacity
    ensures a.opacity == 0.0 ==> r.opacity == 1.0
    ensures a.strokeWidth != 0.0 ==> r.strokeWidth == a.strokeWidth
    ensures a.strokeWidth == 0.0 ==> r.strokeWidth == 1.0
    ensures kind == IText ==> r.fontSize == (if a.fontSize != 0.0 then a.fontSize else 20.0)
    ensures kind == IText ==> r.fontFamily == (if a.fontFamily != "" then a.fontFamily else "Arial")
    ensures kind != IText ==> r.fontSize == p.fontSize && r.fontFamily == p.fontFamily
    ensures r.opacity != 0.0 && r.strokeWidth != 0.0
  {
    var q := p.(opacity := OrNum(a.opacity, 1.0), strokeWidth := OrNum(a.strokeWidth, 1.0));
    if kind == IText then
      q.(fontSize := OrNum(a.fontSize, 20.0), fontFamily := OrStr(a.fontFamily, "Arial"))
    else
      q
  }

  /** Loading is idempotent: loading the same object again shows the same values. */
  lemma LoadedIdempotent(p: Panel, kind: Kind, a: Attrs)
    ensures Loaded(Loaded(p, kind, a), kind, a) == Loaded(p, kind, a)
  {
  }

  /** A layer hidden by `toggleVisibility` holds opacity 0, yet the panel shows it at 1. */
  lemma HiddenLayerShowsOpaque(p: Panel, kind: Kind, a: Attrs)
    requires a.visible
    ensures Toggled(a).opacity == 0.0
    ensures Loaded(p, kind, Toggled(a)).opacity == 1.0
  {
  }

  /** After the opacity slider wrote `v`, re-selecting the object shows `v`, except that a
      written 0 comes back as 1. */
  lemma OpacityRoundTrip(p: Panel, kind: Kind, a: Attrs, v: real)
    ensures Loaded(p, kind, Set(a, Opacity, Num(v))).opacity == (if v == 0.0 then 1.0 else v)
  {
    var b := Set(a, Opacity, Num(v));
    assert Get(b, Opacity) == Num(v);
  }

  /** What the component renders: nothing without an active object; otherwise the opacity
      control, a stroke control for every kind but text, and font controls for text only. */
  datatype PanelView = PanelView(opacity: real, stroke: Option<real>, font: Option<(real, string)>)

  /** The `ObjectProperties` component with its `activeObject` prop and its panel state. */
  class ObjectProperties {
    const canvas: Canvas
    var activeObject: FabricObject?
    var opacity: real
    var strokeWidth: real
    var fontSize: real
    var fontFamily: string

    /** The four panel values together. */
    function State(): Panel
      reads this
    {
      Panel(opacity, strokeWidth, fontSize, fontFamily)
    }

    /** Mounting with a given prop: the initial values, then the effect's first run. */
    constructor (canvas: Canvas, activeObject: FabricObject?)
      ensures this.canvas == canvas && this.activeObject == activeObject
      ensures activeObject == null ==> State() == InitialPanel
      ensures activeObject != null ==>
                State() == Loaded(InitialPanel, activeObject.kind, activeObject.attrs)
    {
      this.canvas := canvas;
      this.activeObject := activeObject;
      opacity := 1.0;
      strokeWidth := 1.0;
      fontSize := 20.0;
      fontFamily := "Arial";
      new;
      LoadFrom();
    }

    /** The effect's body for the current prop. */
    method LoadFrom()
      modifies this`opacity, this`strokeWidth, this`fontSize, this`fontFamily
      ensures activeObject == null ==> State() == old(State())
      ensures activeObject != null ==>
                State() == Loaded(old(State()), activeObject.kind, activeObject.attrs)
    {
      if activeObject != null {
        opacity := OrNum(activeObject.attrs.opacity, 1.0);
        strokeWidth := OrNum(activeObject.attrs.strokeWidth, 1.0);
        if activeObject.kind == IText {
          fontSize := OrNum(activeObject.attrs.fontSize, 20.0);
          fontFamily := OrStr(activeObject.attrs.fontFamily, "Arial");
        }
      }
    }

    /** A new `activeObject` prop. The effect depends on it, so it runs only when the prop is
        a different object reference, and then loads the values of a non-null one. */
    method ActiveObjectChanged(o: FabricObject?)
      modifies this`activeObject, this`opacity, this`strokeWidth, this`fontSize, this`fontFamily
      ensures activeObject == o
      ensures o == old(activeObject) || o == null ==> State() == old(State())
      ensures o != old(activeObject) && o != null ==> State() == Loaded(old(State()), o.kind, o.attrs)
    {
      if o != activeObject {
        activeObject := o;
        LoadFrom();
      }
    }

    /** `handleOpacityChange(value)`: the panel shows `value`; an active object of any kind
        gets `opacity` set to it and nothing else. */
    method HandleOpacityChange(value: real)
      modifies this`opacity, activeObject
      ensures opacity == value
      ensures activeObject != null ==> activeObject.attrs == Set(old(activeObject.attrs), Opacity, Num(value))
    {
      opacity := value;
      if activeObject != null {
        activeObject.attrs := Set(activeObject.attrs, Opacity, Num(value));
      }
    }

    /** `handleStrokeWidthChange(value)`: the panel shows `value` in every case; only an
        active object that is not text gets `strokeWidth` set, a text object is untouched. */
    method HandleStrokeWidthChange(value: int)
      modifies this`strokeWidth, activeObject
      ensures strokeWidth == value as real
      ensures activeObject != null && activeObject.kind != IText ==>
                activeObject.attrs == Set(old(activeObject.attrs), StrokeWidth, Num(value as real))
      ensures activeObject != null && activeObject.kind == IText ==>
                activeObject.attrs == old(activeObject.attrs)
    {
      strokeWidth := value as real;
      if activeObject != null && activeObject.kind != IText {
        activeObject.attrs := Set(activeObject.attrs, StrokeWidth, Num(value as real));
      }
    }

    /** `handleFontSizeChange(value)`: the panel shows `value`; only a text object gets
        `fontSize` set, any other kind is untouched. */
    method HandleFontSizeChange(value: int)
      modifies this`fontSize, activeObject
      ensures fontSize == value as real
      ensures activeObject != null && activeObject.kind == IText ==>
                activeObject.attrs == Set(old(activeObject.attrs), FontSize, Num(value as real))
      ensures activeObject != null && activeObject.kind != IText ==>
                activeObject.attrs == old(activeObject.attrs)
    {
      fontSize := value as real;
      if activeObject != null && activeObject.kind == IText {
        activeObject.attrs := Set(activeObject.attrs, FontSize, Num(value as real));
      }
    }

    /** `handleFontFamilyChange(value)`: the panel shows `value`; only a text object gets
        `fontFamily` set, any other kind is untouched. */
    method HandleFontFamilyChange(value: string)
      modifies this`fontFamily, activeObject
      ensures fontFamily == value
      ensures activeObject != null && activeObject.kind == IText ==>
                activeObject.attrs == Set(old(activeObject.attrs), FontFamily, Str(value))
      ensures activeObject != null && activeObject.kind != IText ==>
                activeObject.attrs == old(activeObject.attrs)
    {
      fontFamily := value;
      if activeObject != null && activeObject.kind == IText {
        activeObject.attrs := Set(activeObject.attrs, FontFamily, Str(value));
      }
    }

    /** The render: `null` exactly when there is no active object; the stroke control exactly
        for non-text objects and the font controls exactly for text, showing the panel values. */
    function View(): (v: Option<PanelView>)
      reads this
      ensures v.None? <==> activeObject == null
      ensures v.Some? ==> v.value.opacity == opacity
      ensures v.Some? ==> (v.value.stroke.Some? <==> activeObject.kind != IText)
      ensures v.Some? ==> (v.value.font.Some? <==> activeObject.kind == IText)
      ensures v.Some? && v.value.stroke.Some? ==> v.value.stroke.value == strokeWidth
      ensures v.Some? && v.value.font.Some? ==> v.value.font.value == (fontSize, fontFamily)
    {
      if activeObject == null then None
      else
        Some(PanelView(
          opacity,
          if activeObject.kind != IText then Some(strokeWidth) else None,
          if activeObject.kind == IText then Some((fontSize, fontFamily)) else None))
    }
  }
}

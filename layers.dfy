/** The layer panel (LayerManager.js): a layers array kept in step with the canvas object
    list, id assignment, visibility toggling, guarded adjacent moves and layer selection. */
module Layers {
  import opened Sequences
  import opened Fabric

  /** One panel entry: a snapshot of an object's id, type and visibility, and the object. */
  datatype Layer = Layer(id: string, kind: Kind, visible: bool, obj: FabricObject)

  /** The layers stand for the canvas objects slot by slot, in the same order. */
  predicate InStep(layers: seq<Layer>, objs: seq<FabricObject>) {
    |layers| == |objs| && forall i :: 0 <= i < |layers| ==> layers[i].obj == objs[i]
  }

  /** The entry for one object; `draw` is the random id used when the object has none. */
  function LayerOf(o: FabricObject, draw: string): Layer
    reads o
  {
    Layer(if o.attrs.id != "" then o.attrs.id else draw, o.kind, o.attrs.visible, o)
  }

  /** `updateLayers`: one entry per canvas object, in canvas order. `draws[i]` is the random
      string drawn for object `i`, used only when that object has no id of its own. */
  function Snapshot(objs: seq<FabricObject>, draws: seq<string>): (r: seq<Layer>)
    requires |draws| == |objs|
    reads objs
    ensures InStep(r, objs)
    ensures forall i :: 0 <= i < |r| ==>
              && r[i].kind == objs[i].kind
              && r[i].visible == objs[i].attrs.visible
              && (objs[i].attrs.id != "" ==> r[i].id == objs[i].attrs.id)
              && (objs[i].attrs.id == "" ==> r[i].id == draws[i])
  {
    if objs == [] then [] else [LayerOf(objs[0], draws[0])] + Snapshot(objs[1..], draws[1..])
  }

  /** The ids the objects carry, in order. */
  function Ids(objs: seq<FabricObject>): (r: seq<string>)
    reads objs
    ensures |r| == |objs| && forall i :: 0 <= i < |objs| ==> r[i] == objs[i].attrs.id
  {
    if objs == [] then [] else [objs[0].attrs.id] + Ids(objs[1..])
  }

  /** An upper bound on the lengths of the given ids. */
  function MaxLen(ids: seq<string>): (m: nat)
    ensures forall i :: 0 <= i < |ids| ==> |ids[i]| <= m
  {
    if ids == [] then 0
    else
      var rest := MaxLen(ids[1..]);
      assert forall i :: 1 <= i < |ids| ==> ids[i] == ids[1..][i - 1];
      if |ids[0]| > rest then |ids[0]| else rest
  }

  /** An id source standing for the random strings: non-empty and unlike every id in use. */
  function FreshId(used: seq<string>): (id: string)
    ensures id != "" && id !in used
  {
    var id := seq(MaxLen(used) + 1, _ => 'x');
    assert forall i :: 0 <= i < |used| ==> |used[i]| < |id|;
    id
  }

  /** `moveLayerUp`'s effect on an array: slots `i` and `i + 1` exchanged when `i` is below
      the top slot, otherwise nothing. */
  function MoveUp<T>(s: seq<T>, i: nat): (r: seq<T>)
    ensures |r| == |s| && multiset(r) == multiset(s)
    ensures i < |s| - 1 ==> r[i] == s[i + 1] && r[i + 1] == s[i]
    ensures forall k {:trigger r[k]} :: 0 <= k < |s| && k != i && k != i + 1 ==> r[k] == s[k]
    ensures i >= |s| - 1 ==> r == s
  {
    if i < |s| - 1 then Swap(s, i, i + 1) else s
  }

  /** `moveLayerDown`'s effect on an array: slots `i` and `i - 1` exchanged when `i` is above the
      bottom slot, otherwise nothing. */
  function MoveDown<T>(s: seq<T>, i: nat): (r: seq<T>)
    requires i < |s|
    ensures |r| == |s| && multiset(r) == multiset(s)
    ensures i > 0 ==> r[i] == s[i - 1] && r[i - 1] == s[i]
    ensures forall k {:trigger r[k]} :: 0 <= k < |s| && k != i && k != i - 1 ==> r[k] == s[k]
    ensures i == 0 ==> r == s
  {
    if i > 0 then Swap(s, i, i - 1) else s
  }

  /** Moving a layer up and then moving it back down restores the order. */
  lemma MoveUpThenDown<T>(s: seq<T>, i: nat)
    requires i < |s| - 1
    ensures MoveDown(MoveUp(s, i), i + 1) == s
  {
    assert MoveDown(MoveUp(s, i), i + 1) == Swap(Swap(s, i, i + 1), i + 1, i);
  }

  /** Moving a layer down and then moving it back up restores the order. */
  lemma MoveDownThenUp<T>(s: seq<T>, i: nat)
    requires 0 < i < |s|
    ensures MoveUp(MoveDown(s, i), i - 1) == s
  {
    assert MoveUp(MoveDown(s, i), i - 1) == Swap(Swap(s, i, i - 1), i - 1, i);
  }

  /** Layers and objects swapped at the same slots stay in step. */
  lemma MovesKeepInStep(layers: seq<Layer>, objs: seq<FabricObject>, i: nat)
    requires InStep(layers, objs)
    ensures InStep(MoveUp(layers, i), MoveUp(objs, i))
    ensures i < |objs| ==> InStep(MoveDown(layers, i), MoveDown(objs, i))
  {
    if i < |objs| - 1 {
      assert InStep(Swap(layers, i, i + 1), Swap(objs, i, i + 1));
    }
    if 0 < i < |objs| {
      assert InStep(Swap(layers, i, i - 1), Swap(objs, i, i - 1));
    }
  }

  /** Swapping the entries gives what a fresh `updateLayers` of the swapped objects gives
      (with the random draws moved along): the array is never stale after a move. */
  lemma {:induction false} SnapshotAfterMoveUp(objs: seq<FabricObject>, draws: seq<string>, i: nat)
    requires |draws| == |objs|
    ensures Snapshot(MoveUp(objs, i), MoveUp(draws, i)) == MoveUp(Snapshot(objs, draws), i)
  {
    var a := Snapshot(MoveUp(objs, i), MoveUp(draws, i));
    var b := MoveUp(Snapshot(objs, draws), i);
    SnapshotAt(MoveUp(objs, i), MoveUp(draws, i));
    SnapshotAt(objs, draws);
    assert |a| == |b|;
    forall k | 0 <= k < |a| ensures a[k] == b[k] {
      var src := if i < |objs| - 1 && k == i then i + 1
                 else if i < |objs| - 1 && k == i + 1 then i
                 else k;
      assert MoveUp(objs, i)[k] == objs[src] && MoveUp(draws, i)[k] == draws[src];
    }
  }

  /** The same for moving down. */
  lemma {:induction false} SnapshotAfterMoveDown(objs: seq<FabricObject>, draws: seq<string>, i: nat)
    requires |draws| == |objs| && i < |objs|
    ensures Snapshot(MoveDown(objs, i), MoveDown(draws, i)) == MoveDown(Snapshot(objs, draws), i)
  {
    var a := Snapshot(MoveDown(objs, i), MoveDown(draws, i));
    var b := MoveDown(Snapshot(objs, draws), i);
    SnapshotAt(MoveDown(objs, i), MoveDown(draws, i));
    SnapshotAt(objs, draws);
    assert |a| == |b|;
    forall k | 0 <= k < |a| ensures a[k] == b[k] {
      var src := if i > 0 && k == i then i - 1
                 else if i > 0 && k == i - 1 then i
                 else k;
      assert MoveDown(objs, i)[k] == objs[src] && MoveDown(draws, i)[k] == draws[src];
    }
  }

  /** Each entry of a snapshot is the entry for its object and its draw. */
  lemma SnapshotAt(objs: seq<FabricObject>, draws: seq<string>)
    requires |draws| == |objs|
    ensures forall k :: 0 <= k < |objs| ==> Snapshot(objs, draws)[k] == LayerOf(objs[k], draws[k])
  {
  }

  /** The object's side of `toggleVisibility`: `visible` negated, `opacity` 1 when now shown
      and 0 when now hidden, nothing else touched. */
  function Toggled(a: Attrs): (r: Attrs)
    ensures r.visible == !a.visible
    ensures r.opacity == if r.visible then 1.0 else 0.0
    ensures forall k :: k != Visible && k != Opacity ==> Get(r, k) == Get(a, k)
  {
    var shown := !a.visible;
    Set(Set(a, Visible, Flag(shown)), Opacity, Num(if shown then 1.0 else 0.0))
  }

  /** Two toggles restore `visible`, and `opacity` only when it was already 1 (shown) or
      0 (hidden): a partial opacity becomes 1 or 0. */
  lemma ToggledTwice(a: Attrs)
    ensures Toggled(Toggled(a)) == a.(opacity := if a.visible then 1.0 else 0.0)
  {
    var b := Toggled(Toggled(a));
    var c := a.(opacity := if a.visible then 1.0 else 0.0);
    forall k ensures Get(b, k) == Get(c, k) {
    }
    GetDeterminesAttrs(b, c);
  }

  /** The panel's side of `toggleVisibility`: entries whose id is `id` get `visible := v`,
      the others are kept. */
  function WithVisibility(layers: seq<Layer>, id: string, v: bool): (r: seq<Layer>)
    ensures |r| == |layers|
    ensures forall i :: 0 <= i < |r| ==>
              && r[i].obj == layers[i].obj && r[i].id == layers[i].id && r[i].kind == layers[i].kind
              && r[i].visible == if layers[i].id == id then v else layers[i].visible
  {
    if layers == [] then []
    else
      var l := layers[0];
      [if l.id == id then l.(visible := v) else l] + WithVisibility(layers[1..], id, v)
  }

  /** Updating the visibility flags keeps the panel in step with the canvas. */
  lemma WithVisibilityInStep(layers: seq<Layer>, objs: seq<FabricObject>, id: string, v: bool)
    requires InStep(layers, objs)
    ensures InStep(WithVisibility(layers, id, v), objs)
  {
  }

  /** The id loop's callback: an object without an id gets one unlike every id in `used`;
      an object with an id keeps it. */
  method AssignIdIfMissing(obj: FabricObject, used: seq<string>)
    modifies obj
    ensures obj.attrs == old(obj.attrs).(id := obj.attrs.id)
    ensures obj.attrs.id != ""
    ensures old(obj.attrs.id) != "" ==> obj.attrs.id == old(obj.attrs.id)
    ensures old(obj.attrs.id) == "" ==> obj.attrs.id !in used
  {
    if obj.attrs.id == "" {
      obj.attrs := obj.attrs.(id := FreshId(used));
    }
  }

  /** The attributes the objects carry, in order. */
  ghost function AttrsOf(objs: seq<FabricObject>): (r: seq<Attrs>)
    reads objs
    ensures |r| == |objs| && forall i :: 0 <= i < |objs| ==> r[i] == objs[i].attrs
  {
    if objs == [] then [] else [objs[0].attrs] + AttrsOf(objs[1..])
  }

  /** The id loop's effect on the first `n` objects, `before` and `after` being their attributes
      before and after: each visited one has an id, keeps its id if it had one, changes in
      nothing but its id, and a newly given id is unlike every other object's id; the
      objects not yet visited are untouched. */
  ghost predicate IdsGiven(before: seq<Attrs>, after: seq<Attrs>, n: nat) {
    && |after| == |before| && n <= |before|
    && (forall j :: n <= j < |before| ==> after[j] == before[j])
    && (forall j :: 0 <= j < n ==> after[j] == before[j].(id := after[j].id))
    && (forall j :: 0 <= j < n ==> after[j].id != "")
    && (forall j :: 0 <= j < n ==> before[j].id != "" ==> after[j].id == before[j].id)
    && (forall j, k :: 0 <= j < n && 0 <= k < |before| && j != k ==>
          before[j].id == "" ==> after[j].id != after[k].id)
  }

  /** One step of the id loop: object `n` given `a`, which differs from it at most in a
      non-empty id that is kept when present and otherwise unlike every current id. */
  lemma IdsGivenStep(before: seq<Attrs>, after: seq<Attrs>, n: nat, a: Attrs)
    requires IdsGiven(before, after, n) && n < |before|
    requires a == before[n].(id := a.id) && a.id != ""
    requires before[n].id != "" ==> a.id == before[n].id
    requires before[n].id == "" ==> forall k :: 0 <= k < |after| ==> after[k].id != a.id
    ensures IdsGiven(before, after[n := a], n + 1)
  {
  }

  /** The callback applied to the object at `i`, seen on the whole list: only slot `i`
      of the attributes changes, as `AssignIdIfMissing` says. */
  method AssignIdInList(objects: seq<FabricObject>, i: nat)
    requires Distinct(objects) && i < |objects|
    modifies objects[i]
    ensures AttrsOf(objects) == old(AttrsOf(objects))[i := objects[i].attrs]
    ensures objects[i].attrs == old(objects[i].attrs).(id := objects[i].attrs.id)
    ensures objects[i].attrs.id != ""
    ensures old(objects[i].attrs.id) != "" ==> objects[i].attrs.id == old(objects[i].attrs.id)
    ensures old(objects[i].attrs.id) == "" ==>
              forall k :: 0 <= k < |objects| ==> old(AttrsOf(objects))[k].id != objects[i].attrs.id
  {
    ghost var after := AttrsOf(objects);
    var obj := objects[i];
    var used := Ids(objects);
    assert forall k :: 0 <= k < |objects| ==> used[k] == after[k].id;
    AssignIdIfMissing(obj, used);
    assert forall k :: 0 <= k < |objects| && k != i ==> objects[k] != obj;
    assert AttrsOf(objects) == after[i := obj.attrs];
  }

  /** One turn of the id loop: the callback applied to the object at `i`. */
  method AssignIdAt(objects: seq<FabricObject>, i: nat, ghost before: seq<Attrs>)
    requires Distinct(objects) && i < |objects|
    requires IdsGiven(before, AttrsOf(objects), i)
    modifies objects[i]
    ensures IdsGiven(before, AttrsOf(objects), i + 1)
  {
    ghost var after := AttrsOf(objects);
    AssignIdInList(objects, i);
    IdsGivenStep(before, after, i, objects[i].attrs);
  }

  /** The layer panel component with its `layers` state. */
  class LayerManager {
    const canvas: Canvas
    var layers: seq<Layer>

    /** The canvas is well formed and the layers array matches its object order. */
    ghost predicate Valid()
      reads this, canvas
    {
      canvas.Valid() && InStep(layers, canvas.objects)
    }

    /** Mounting over the given canvas prop: `useState([])`, then the mount effect gives
        every object an id and takes the first snapshot. `draws[i]` is the random string
        drawn for object `i` by that snapshot. */
    constructor (canvas: Canvas, draws: seq<string>)
      requires canvas.Valid() && |draws| == |canvas.objects|
      modifies canvas.objects
      ensures this.canvas == canvas && Valid()
      ensures IdsGiven(old(AttrsOf(canvas.objects)), AttrsOf(canvas.objects), |canvas.objects|)
      ensures layers == Snapshot(canvas.objects, draws)
    {
      ghost var before := AttrsOf(canvas.objects);
      this.canvas := canvas;
      layers := [];
      new;
      assert AttrsOf(canvas.objects) == before;
      Mount(draws);
    }

    /** The mount effect: ids assigned to every object, then the first snapshot. */
    method Mount(draws: seq<string>)
      requires canvas.Valid() && |draws| == |canvas.objects|
      modifies this`layers, canvas.objects
      ensures Valid()
      ensures IdsGiven(old(AttrsOf(canvas.objects)), AttrsOf(canvas.objects), |canvas.objects|)
      ensures layers == Snapshot(canvas.objects, draws)
    {
      AssignIds();
      UpdateLayers(draws);
    }

    /** The id loop: every object without an id gets a fresh one; nothing else changes. */
    method AssignIds()
      requires canvas.Valid()
      modifies canvas.objects
      ensures IdsGiven(old(AttrsOf(canvas.objects)), AttrsOf(canvas.objects), |canvas.objects|)
    {
      var objects := canvas.objects;
      ghost var before := AttrsOf(objects);
      var i := 0;
      while i < |objects|
        invariant 0 <= i <= |objects|
        invariant IdsGiven(before, AttrsOf(objects), i)
      {
        AssignIdAt(objects, i, before);
        i := i + 1;
      }
      assert canvas.objects == objects;
    }

    /** The `object:added/removed/modified` handler: the layers become a fresh snapshot. */
    method UpdateLayers(draws: seq<string>)
      requires canvas.Valid() && |draws| == |canvas.objects|
      modifies this`layers
      ensures Valid()
      ensures layers == Snapshot(canvas.objects, draws)
    {
      layers := Snapshot(canvas.objects, draws);
    }

    /** `toggleVisibility(layer)`: the object is shown or hidden, and the entries carrying the
        layer's id record the new flag. */
    method ToggleVisibility(layer: Layer)
      requires Valid()
      modifies this`layers, layer.obj
      ensures Valid()
      ensures layer.obj.attrs == Toggled(old(layer.obj.attrs))
      ensures layers == WithVisibility(old(layers), layer.id, layer.obj.attrs.visible)
    {
      var obj := layer.obj;
      obj.attrs := obj.attrs.(visible := !obj.attrs.visible);
      obj.attrs := Set(obj.attrs, Opacity, Num(if obj.attrs.visible then 1.0 else 0.0));
      WithVisibilityInStep(layers, canvas.objects, layer.id, obj.attrs.visible);
      layers := WithVisibility(layers, layer.id, obj.attrs.visible);
    }

    /** `moveLayerUp(index)`: the canvas object at `index` moves one slot up, and the layers
        array is swapped at the same slots, both only when `index` is below the top. */
    method MoveLayerUp(index: nat)
      requires Valid()
      modifies this`layers, canvas`objects
      ensures Valid()
      ensures canvas.objects == MoveUp(old(canvas.objects), index)
      ensures layers == MoveUp(old(layers), index)
    {
      if index < |layers| - 1 {
        var objects := canvas.objects;
        var itemToMove := objects[index];
        MoveToNextIsSwap(objects, index);
        canvas.MoveTo(itemToMove, index + 1);

        var updatedLayers := layers;
        var temp := updatedLayers[index];
        updatedLayers := updatedLayers[index := updatedLayers[index + 1]];
        updatedLayers := updatedLayers[index + 1 := temp];
        MovesKeepInStep(layers, objects, index);
        layers := updatedLayers;
      }
    }

    /** `moveLayerDown(index)` for a listed index: the object at `index` moves one slot down,
        and the layers array is swapped at the same slots, both only when `index` is above 0. */
    method MoveLayerDown(index: nat)
      requires Valid() && index < |layers|
      modifies this`layers, canvas`objects
      ensures Valid()
      ensures canvas.objects == MoveDown(old(canvas.objects), index)
      ensures layers == MoveDown(old(layers), index)
    {
      if index > 0 {
        var objects := canvas.objects;
        var itemToMove := objects[index];
        MoveToPreviousIsSwap(objects, index);
        canvas.MoveTo(itemToMove, index - 1);

        var updatedLayers := layers;
        var temp := updatedLayers[index];
        updatedLayers := updatedLayers[index := updatedLayers[index - 1]];
        updatedLayers := updatedLayers[index - 1 := temp];
        MovesKeepInStep(layers, objects, index);
        layers := updatedLayers;
      }
    }

    /** `selectLayer(layer)` for a listed layer: its object becomes the canvas's active object;
        the list and the layers are untouched. */
    method SelectLayer(layer: Layer)
      requires Valid() && layer in layers
      modifies canvas`active
      ensures Valid()
      ensures canvas.active == layer.obj
    {
      canvas.SetActiveObject(layer.obj);
    }
  }
}

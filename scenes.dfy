/** A scene: its sprite-set registry, its element list (list order is paint
    order), its camera and its per-layer background and composite settings.
    `AddElement`, `Draw` and `Tick` change the scene in place and are proved
    against the functions of modules `Render` and `Ticking` and `AddEntry`
    below. */
module Scenes {
  import opened JsArrays
  import opened Canvas
  import opened GameObjects
  import opened Render
  import opened Ticking

  /** The `data` a scene is created with; a property it sets replaces the
      default `Scene.new` gives. */
  datatype SceneData = SceneData(
    vx: Option<real>,
    vy: Option<real>,
    scale: Option<real>,
    backgrounds: Option<seq<string>>,
    compositeOperations: Option<seq<string>>)

  /** The element list after `add_element`, and the value it returns. */
  datatype Added = Added(entries: seq<Entry>, returned: Option<Entry>)

  /** `add_element` on list `es` with optional `index` (omitted: the list's
      length). When the index equals the length or is 0, `push(index, e)`
      appends a marker and the element, and `elements[index]` is then that
      marker or the old first entry, not the element. Any other index is a
      splice; `elements[index]` is the element only when the index was in
      range, and undefined when it was past the end or negative. */
  function AddEntry(es: seq<Entry>, index: Option<int>, entry: Entry): (r: Added)
    ensures var idx := Pick(index, |es|);
      idx == |es| || idx == 0 ==>
        && |r.entries| == |es| + 2 && r.entries[..|es|] == es
        && r.entries[|es|] == Marker(idx) && r.entries[|es| + 1] == entry
        && r.returned == Some(if idx == |es| then Marker(idx) else es[0])
    ensures var idx := Pick(index, |es|);
      0 < idx < |es| ==>
        r.entries == es[..idx] + [entry] + es[idx..] && r.returned == Some(entry)
    ensures var idx := Pick(index, |es|);
      idx > |es| ==> r.entries == es + [entry] && r.returned == None
    ensures var idx := Pick(index, |es|);
      idx < 0 ==>
        var k := if |es| + idx < 0 then 0 else |es| + idx;
        r.entries == es[..k] + [entry] + es[k..] && r.returned == None
  {
    var idx := Pick(index, |es|);
    if idx == |es| || idx == 0 then
      var grown := es + [Marker(idx), entry];
      Added(grown, Get(grown, idx))
    else
      var grown := Insert(es, idx, [entry]);
      InsertThenRemove(es, idx, [entry]);
      Added(grown, Get(grown, idx))
  }

  ghost predicate Continues(total: Pass, done: seq<Entry>, drawn: seq<Cmd>, rest: Pass) {
    && total.contexts == rest.contexts && total.entries == done + rest.entries
    && total.cmds == drawn + rest.cmds && total.completed == rest.completed
  }

  /** `total` is the pass that leaves these contexts, entries, calls and
      outcome. */
  ghost predicate Finished(total: Pass, ctxs: seq<Context>, es: seq<Entry>, cmds: seq<Cmd>, completed: bool) {
    total.contexts == ctxs && total.entries == es && total.cmds == cmds && total.completed == completed
  }

  /** Replacing the element at `i` of a list that agrees with `es` from `i`
      on. */
  lemma UpdateAt<T>(s: seq<T>, i: nat, x: T, t: seq<T>, es: seq<T>)
    requires i < |s| == |es| && t == s[i := x] && s[i..] == es[i..]
    ensures t[..i + 1] == s[..i] + [x]
    ensures t[i + 1..] == es[i + 1..]
    ensures t == s[..i] + [x] + es[i + 1..]
  {
    assert s[i + 1..] == s[i..][1..];
    assert es[i + 1..] == es[i..][1..];
  }

  /** How the element pass advances by one entry. */
  lemma ContinuesStep(view: SceneView, layers: seq<Layer>, ctxs: seq<Context>, total: Pass,
                      done: seq<Entry>, drawn: seq<Cmd>, x: Entry, rest: seq<Entry>)
    requires |ctxs| == |layers|
    requires Continues(total, done, drawn, DrawEntries(view, layers, ctxs, [x] + rest))
    ensures DrawEntry(view, layers, ctxs, x).completed ==>
      Continues(total, done + [DrawEntry(view, layers, ctxs, x).entry],
                drawn + DrawEntry(view, layers, ctxs, x).cmds,
                DrawEntries(view, layers, DrawEntry(view, layers, ctxs, x).contexts, rest))
    ensures !DrawEntry(view, layers, ctxs, x).completed ==>
      && total.contexts == DrawEntry(view, layers, ctxs, x).contexts
      && total.entries == done + [DrawEntry(view, layers, ctxs, x).entry] + rest
      && total.cmds == drawn + DrawEntry(view, layers, ctxs, x).cmds
      && !total.completed
  {
    DrawEntriesCons(view, layers, ctxs, x, rest);
    var s := DrawEntry(view, layers, ctxs, x);
    if s.completed {
      var q := DrawEntries(view, layers, s.contexts, rest);
      Associative(done, [s.entry], q.entries);
      Associative(drawn, s.cmds, q.cmds);
    }
  }

  class Scene {
    var objects: map<string, SpriteSet>
    var elements: seq<Entry>
    var vx: real
    var vy: real
    var scale: real
    var backgrounds: seq<string>
    var compositeOperations: seq<string>

    /** The settings a draw pass reads. */
    function View(): SceneView
      reads this
    {
      SceneView(objects, Camera(vx, vy, scale), backgrounds, compositeOperations)
    }

    /** A fresh scene over a registry of sprite sets. */
    constructor (objects: map<string, SpriteSet>, data: SceneData)
      ensures this.objects == objects && elements == []
      ensures vx == Pick(data.vx, 0.0) && vy == Pick(data.vy, 0.0) && scale == Pick(data.scale, 1.0)
      ensures backgrounds == Pick(data.backgrounds, []) && compositeOperations == Pick(data.compositeOperations, [])
    {
      this.objects := objects;
      elements := [];
      vx := Pick(data.vx, 0.0);
      vy := Pick(data.vy, 0.0);
      scale := Pick(data.scale, 1.0);
      backgrounds := Pick(data.backgrounds, []);
      compositeOperations := Pick(data.compositeOperations, []);
    }

    /** `add_element(name, x, y, width, height, layer, frame, index, data)`. */
    method AddElement(name: string, x: real, y: real, width: real, height: real,
                      layer: int, frame: int, index: Option<int>, data: ElementData)
      returns (r: Option<Entry>)
      modifies this
      ensures elements == AddEntry(old(elements), index, NewEntry(name, x, y, width, height, layer, frame, data)).entries
      ensures r == AddEntry(old(elements), index, NewEntry(name, x, y, width, height, layer, frame, data)).returned
      ensures View() == old(View())
    {
      var entry := NewEntry(name, x, y, width, height, layer, frame, data);
      var idx := Pick(index, |elements|);
      if idx == |elements| || idx == 0 {
        elements := elements + [Marker(idx), entry];
      } else {
        elements := Insert(elements, idx, [entry]);
      }
      r := Get(elements, idx);
    }

    /** One call of the background pass's `contexts.forEach` callback: clear
        layer `id`, fill it with its background colour (or "black"), and set
        its composite mode when one is given. */
    method PaintBackgroundAt(id: nat, layers: seq<Layer>, contexts: array<Context>) returns (cmds: seq<Cmd>)
      requires id < contexts.Length == |layers|
      modifies contexts
      ensures cmds == LayerBackground(id, layers[id], backgrounds, compositeOperations)
      ensures contexts[..] == old(contexts[..])[id := PaintContext(old(contexts[id]), id, backgrounds, compositeOperations)]
    {
      var layer := layers[id];
      cmds := [ClearRect(id, Full(layer))];
      var color := BackgroundColor(backgrounds, id);
      contexts[id] := contexts[id].(fillStyle := color);
      cmds := cmds + [SetFillStyle(id, color), FillRect(id, Full(layer))];
      if Truthy(Get(compositeOperations, id)) {
        contexts[id] := contexts[id].(composite := compositeOperations[id]);
        cmds := cmds + [SetComposite(id, compositeOperations[id])];
      }
    }

    /** The background pass of `draw()`, layer by layer in order. */
    method PaintBackgrounds(layers: seq<Layer>, contexts: array<Context>) returns (cmds: seq<Cmd>)
      requires contexts.Length == |layers|
      modifies contexts
      ensures cmds == BackgroundCmds(layers, backgrounds, compositeOperations, |layers|)
      ensures contexts[..] == PaintContexts(old(contexts[..]), backgrounds, compositeOperations)
    {
      ghost var cs0 := contexts[..];
      cmds := [];
      var id := 0;
      while id < contexts.Length
        invariant 0 <= id <= contexts.Length
        invariant cmds == BackgroundCmds(layers, backgrounds, compositeOperations, id)
        invariant forall j :: 0 <= j < id ==> contexts[j] == PaintContext(cs0[j], j, backgrounds, compositeOperations)
        invariant forall j :: id <= j < contexts.Length ==> contexts[j] == cs0[j]
      {
        var mine := PaintBackgroundAt(id, layers, contexts);
        cmds := cmds + mine;
        var next := id + 1;
        BackgroundStep(layers, backgrounds, compositeOperations, id, next);
        id := next;
      }
      assert forall j :: 0 <= j < contexts.Length ==>
        contexts[..][j] == PaintContexts(cs0, backgrounds, compositeOperations)[j];
    }

    /** One call of the element pass's `forEach` callback, on entry `i`. */
    method DrawElementAt(i: nat, layers: seq<Layer>, contexts: array<Context>) returns (cmds: seq<Cmd>, completed: bool)
      requires i < |elements| && contexts.Length == |layers|
      modifies this, contexts
      ensures contexts[..] == DrawEntry(old(View()), layers, old(contexts[..]), old(elements[i])).contexts
      ensures elements == old(elements)[i := DrawEntry(old(View()), layers, old(contexts[..]), old(elements[i])).entry]
      ensures cmds == DrawEntry(old(View()), layers, old(contexts[..]), old(elements[i])).cmds
      ensures completed == DrawEntry(old(View()), layers, old(contexts[..]), old(elements[i])).completed
      ensures View() == old(View())
    {
      var entry := elements[i];
      cmds := [];
      completed := true;
      if !(entry.Elem? && entry.el.name in objects) {
        InertEntry(View(), layers, contexts[..], entry);
        return;
      }
      var parent := objects[entry.el.name];
      var e := entry.el;
      if parent.onBeforeDraw.Some? {
        e := parent.onBeforeDraw.value(e);
      }
      elements := elements[i := Elem(e, entry.onTick)];
      if !(0 <= e.layer < |layers|) {
        // get_layer and get_context give undefined: the callback throws
        MissingLayerStops(View(), layers, contexts[..], entry);
        completed := false;
        return;
      }
      if e.fixed {
        FixedPlacement(View(), View().camera, layers, contexts[..], entry, parent, e);
        var mode := CompositeFor(parent.compositeOperation, compositeOperations, e.layer);
        contexts[e.layer] := contexts[e.layer].(composite := mode);
        cmds := [SetComposite(e.layer, mode)];
        cmds := cmds + GameObjects.Draw(parent, FixedRect(e, layers[e.layer]), e.layer, e.frame);
      } else {
        ScrollingPlacement(View(), layers, contexts[..], entry, parent, e);
        var dest := ScrollRect(e, Camera(vx, vy, scale));
        if OnScreen(dest, layers[e.layer]) {
          cmds := GameObjects.Draw(parent, dest, e.layer, e.frame);
        }
      }
    }

    /** The element pass of `draw()`: the callback on every entry in list
        order, until one of them throws. */
    method DrawElements(layers: seq<Layer>, contexts: array<Context>) returns (cmds: seq<Cmd>, completed: bool)
      requires contexts.Length == |layers|
      modifies this, contexts
      ensures contexts[..] == DrawEntries(old(View()), layers, old(contexts[..]), old(elements)).contexts
      ensures elements == DrawEntries(old(View()), layers, old(contexts[..]), old(elements)).entries
      ensures cmds == DrawEntries(old(View()), layers, old(contexts[..]), old(elements)).cmds
      ensures completed == DrawEntries(old(View()), layers, old(contexts[..]), old(elements)).completed
      ensures View() == old(View())
    {
      ghost var view := View();
      ghost var es0 := elements;
      ghost var total := DrawEntries(view, layers, contexts[..], es0);
      cmds := [];
      completed := true;
      var i := 0;
      while i < |elements| && completed
        invariant 0 <= i <= |elements| == |es0|
        invariant View() == view
        invariant completed ==> elements[i..] == es0[i..]
        invariant completed ==> Continues(total, elements[..i], cmds, DrawEntries(view, layers, contexts[..], es0[i..]))
        invariant !completed ==> Finished(total, contexts[..], elements, cmds, false)
      {
        assert es0[i..] == [es0[i]] + es0[i + 1..];
        ContinuesStep(view, layers, contexts[..], total, elements[..i], cmds, es0[i], es0[i + 1..]);
        ghost var before := elements;
        var step;
        step, completed := DrawElementAt(i, layers, contexts);
        cmds := cmds + step;
        UpdateAt(before, i, elements[i], elements, es0);
        i := i + 1;
      }
      if completed {
        assert elements[..i] == elements;
      }
    }

    /** `draw()`: the background pass over every layer, then the element
        pass. `layers` and `contexts` are the game manager's surfaces. */
    method Draw(layers: seq<Layer>, contexts: array<Context>) returns (cmds: seq<Cmd>, completed: bool)
      requires contexts.Length == |layers|
      modifies this, contexts
      ensures contexts[..] == ScenePass(old(View()), layers, old(contexts[..]), old(elements)).contexts
      ensures elements == ScenePass(old(View()), layers, old(contexts[..]), old(elements)).entries
      ensures cmds == ScenePass(old(View()), layers, old(contexts[..]), old(elements)).cmds
      ensures completed == ScenePass(old(View()), layers, old(contexts[..]), old(elements)).completed
      ensures View() == old(View())
    {
      var bg := PaintBackgrounds(layers, contexts);
      var drawn;
      drawn, completed := DrawElements(layers, contexts);
      cmds := bg + drawn;
    }

    /** The first half of `tick(n)`: `objects.forEach` visits the index keys
        0 .. length-1 that exist and runs each visited set's `ontick`.
        Returns the names whose hook ran, in order. */
    method TickObjects() returns (ticked: seq<string>)
      ensures ticked == ObjectTicks(objects)
    {
      var len := ArrayLength(objects.Keys);
      ticked := [];
      var k := 0;
      while k < len
        invariant 0 <= k <= len
        invariant ticked == ObjectTicksBelow(objects, k)
      {
        var key := Decimal(k);
        if key in objects && objects[key].hasOnTick {
          ticked := ticked + [key];
        }
        k := k + 1;
      }
      ObjectTicksStopAtLength(objects, len, MaxArrayLength);
    }

    /** One call of the `elements.forEach` callback of `tick(n)`. */
    method TickElementAt(i: nat, n: int)
      requires i < |elements|
      modifies this
      ensures elements == old(elements)[i := TickEntry(objects, n, old(elements)[i])]
      ensures View() == old(View())
    {
      var entry := elements[i];
      if entry.Elem? {
        var e := entry.el;
        if entry.onTick.Some? {
          e := entry.onTick.value(n, e);
        }
        if e.name in objects && objects[e.name].elementOnTick.Some? {
          e := objects[e.name].elementOnTick.value(n, e);
        }
        elements := elements[i := Elem(e, entry.onTick)];
      }
    }

    /** `tick(n)`: the scene-level hooks, then every entry's hooks in list
        order. Returns the names whose scene-level `ontick` ran. */
    method Tick(n: int) returns (ticked: seq<string>)
      modifies this
      ensures ticked == ObjectTicks(objects)
      ensures elements == TickEntries(objects, n, old(elements))
      ensures View() == old(View())
    {
      ticked := TickObjects();
      var i := 0;
      while i < |elements|
        invariant 0 <= i <= |elements| == |old(elements)|
        invariant View() == old(View())
        invariant forall j :: 0 <= j < i ==> elements[j] == TickEntry(objects, n, old(elements)[j])
        invariant forall j :: i <= j < |elements| ==> elements[j] == old(elements)[j]
      {
        TickElementAt(i, n);
        i := i + 1;
      }
    }
  }
}

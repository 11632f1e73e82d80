/** What one `Scene.draw()` does, as functions: the background pass over
    every layer, then each entry of the element list in order. Each step
    threads the contexts' state and the (possibly hook-mutated) entry, and
    yields the canvas calls it makes. */
module Render {
  import opened JsArrays
  import opened Canvas
  import opened GameObjects

  datatype Camera = Camera(vx: real, vy: real, scale: real)

  /** The scene's settings a draw pass reads. */
  datatype SceneView = SceneView(
    objects: map<string, SpriteSet>,
    camera: Camera,
    backgrounds: seq<string>,
    compositeOperations: seq<string>)

  // ---------------------------------------------------------------------
  // Background pass

  function BackgroundColor(backgrounds: seq<string>, id: int): string {
    OrElse(Get(backgrounds, id), "black")
  }

  /** The calls the background pass makes on layer `id`. */
  function LayerBackground(id: nat, layer: Layer, backgrounds: seq<string>, ops: seq<string>): (r: seq<Cmd>)
    ensures |r| == (if Truthy(Get(ops, id)) then 4 else 3)
    ensures r[0] == ClearRect(id, Full(layer))
    ensures r[1] == SetFillStyle(id, if Truthy(Get(backgrounds, id)) then backgrounds[id] else "black")
    ensures r[2] == FillRect(id, Full(layer))
    ensures |r| == 4 ==> r[3] == SetComposite(id, ops[id])
  {
    [ClearRect(id, Full(layer)), SetFillStyle(id, BackgroundColor(backgrounds, id)), FillRect(id, Full(layer))]
    + (if Truthy(Get(ops, id)) then [SetComposite(id, ops[id])] else [])
  }

  /** A context after the background pass has run on it. */
  function PaintContext(ctx: Context, id: int, backgrounds: seq<string>, ops: seq<string>): Context {
    ctx.(fillStyle := BackgroundColor(backgrounds, id),
         composite := if Truthy(Get(ops, id)) then ops[id] else ctx.composite)
  }

  /** The background calls for layers `0 .. k-1`, in layer order. */
  function BackgroundCmds(layers: seq<Layer>, backgrounds: seq<string>, ops: seq<string>, k: nat): (r: seq<Cmd>)
    requires k <= |layers|
    ensures forall i :: 0 <= i < |r| ==> r[i].layer < k && !r[i].DrawImage?
  {
    if k == 0 then []
    else BackgroundCmds(layers, backgrounds, ops, k - 1) + LayerBackground(k - 1, layers[k - 1], backgrounds, ops)
  }

  lemma BackgroundStep(layers: seq<Layer>, backgrounds: seq<string>, ops: seq<string>, k: nat, next: nat)
    requires next == k + 1 <= |layers|
    ensures BackgroundCmds(layers, backgrounds, ops, next)
      == BackgroundCmds(layers, backgrounds, ops, k) + LayerBackground(k, layers[k], backgrounds, ops)
  {
  }

  /** Every context after the background pass. */
  function PaintContexts(ctxs: seq<Context>, backgrounds: seq<string>, ops: seq<string>): (r: seq<Context>)
    ensures |r| == |ctxs|
    ensures forall i :: 0 <= i < |ctxs| ==>
      && r[i].fillStyle == (if Truthy(Get(backgrounds, i)) then backgrounds[i] else "black")
      && r[i].composite == (if Truthy(Get(ops, i)) then ops[i] else ctxs[i].composite)
      && r[i].smoothing == ctxs[i].smoothing && r[i].mirroredSize == ctxs[i].mirroredSize
  {
    seq(|ctxs|, i requires 0 <= i < |ctxs| => PaintContext(ctxs[i], i, backgrounds, ops))
  }

  lemma {:induction false} BackgroundPrefix(layers: seq<Layer>, backgrounds: seq<string>, ops: seq<string>, i: nat, k: nat)
    requires i <= k <= |layers|
    ensures IsPrefix(BackgroundCmds(layers, backgrounds, ops, i), BackgroundCmds(layers, backgrounds, ops, k))
    decreases k
  {
    if i < k {
      BackgroundPrefix(layers, backgrounds, ops, i, k - 1);
      var pre := BackgroundCmds(layers, backgrounds, ops, i);
      var mid := BackgroundCmds(layers, backgrounds, ops, k - 1);
      var all := BackgroundCmds(layers, backgrounds, ops, k);
      assert all[..|mid|] == mid;
      assert all[..|pre|] == mid[..|pre|];
    }
  }

  /** `pre` is a prefix of `all`. */
  ghost predicate IsPrefix<T>(pre: seq<T>, all: seq<T>) {
    |pre| <= |all| && all[..|pre|] == pre
  }

  /** `mine` sits in `all` at position `start`. */
  ghost predicate SliceAt<T>(all: seq<T>, start: nat, mine: seq<T>) {
    start + |mine| <= |all| && all[start..start + |mine|] == mine
  }

  /** Layer by layer, in order: the pass clears the layer's full backing
      area, sets the fill to the configured background (else "black"),
      fills the same area, and sets the composite mode only when the
      configured one is truthy. */
  lemma BackgroundLayout(layers: seq<Layer>, backgrounds: seq<string>, ops: seq<string>, id: nat)
    requires id < |layers|
    ensures SliceAt(BackgroundCmds(layers, backgrounds, ops, |layers|),
                    |BackgroundCmds(layers, backgrounds, ops, id)|,
                    LayerBackground(id, layers[id], backgrounds, ops))
  {
    BackgroundPrefix(layers, backgrounds, ops, id + 1, |layers|);
    var pre := BackgroundCmds(layers, backgrounds, ops, id);
    var mine := LayerBackground(id, layers[id], backgrounds, ops);
    assert BackgroundCmds(layers, backgrounds, ops, id + 1) == pre + mine;
    SliceOfPrefix(BackgroundCmds(layers, backgrounds, ops, |layers|), pre, mine);
  }

  lemma SliceOfPrefix<T>(all: seq<T>, pre: seq<T>, mine: seq<T>)
    requires IsPrefix(pre + mine, all)
    ensures SliceAt(all, |pre|, mine)
  {
    assert all[|pre|..|pre| + |mine|] == all[..|pre| + |mine|][|pre|..];
  }

  // ---------------------------------------------------------------------
  // Geometry

  /** Fixed (screen-space) placement: position as given, size scaled by the
      layer's displayed size when the element is size-relative. */
  function FixedRect(e: Element, layer: Layer): (r: Rect)
    ensures r.x == e.x && r.y == e.y
    ensures !e.sizeRelative ==> r.w == e.width && r.h == e.height
  {
    Rect(e.x, e.y,
         e.width * (if e.sizeRelative then layer.clientWidth as real else 1.0),
         e.height * (if e.sizeRelative then layer.clientHeight as real else 1.0))
  }

  /** Scrolling (world-space) placement: the camera's affine transform. */
  function ScrollRect(e: Element, cam: Camera): (r: Rect)
    ensures cam == Camera(0.0, 0.0, 1.0) ==> r == Rect(e.x, e.y, e.width, e.height)
    ensures cam.scale == 1.0 ==> r.w == e.width && r.h == e.height
  {
    Rect((e.x - cam.vx) * cam.scale, (e.y - cam.vy) * cam.scale, e.width * cam.scale, e.height * cam.scale)
  }

  /** The culling test: strict on all four sides. A rectangle lying wholly
      to the right of, below, left of or above the layer is never drawn. */
  predicate OnScreen(r: Rect, layer: Layer)
    ensures r.x >= layer.width as real || r.y >= layer.height as real ==> !OnScreen(r, layer)
    ensures r.x + r.w <= 0.0 || r.y + r.h <= 0.0 ==> !OnScreen(r, layer)
  {
    r.x < layer.width as real && r.y < layer.height as real && r.x + r.w > 0.0 && r.y + r.h > 0.0
  }

  /** A point strictly inside a rectangle of non-negative size. */
  predicate Inside(r: Rect, px: real, py: real) {
    r.x < px < r.x + r.w && r.y < py < r.y + r.h
  }

  function Max(a: real, b: real): real { if a < b then b else a }
  function Min(a: real, b: real): real { if a < b then a else b }

  /** For a rectangle and a layer of positive size, the culling test passes
      exactly when the two overlap (share an interior point): a rectangle
      entirely outside is never drawn, one partly inside always is. */
  lemma OnScreenIffOverlap(r: Rect, layer: Layer)
    requires r.w > 0.0 && r.h > 0.0 && layer.width > 0 && layer.height > 0
    ensures OnScreen(r, layer) <==> exists px, py :: Inside(r, px, py) && Inside(Full(layer), px, py)
  {
    if OnScreen(r, layer) {
      var px := (Max(r.x, 0.0) + Min(r.x + r.w, layer.width as real)) / 2.0;
      var py := (Max(r.y, 0.0) + Min(r.y + r.h, layer.height as real)) / 2.0;
      assert Inside(r, px, py) && Inside(Full(layer), px, py);
    }
  }

  /** Moving the camera by `(dx, dy)` moves every scrolling element's
      destination by `(-dx·scale, -dy·scale)` and leaves its size alone. */
  lemma ScrollRectTranslates(e: Element, cam: Camera, dx: real, dy: real)
    ensures var r := ScrollRect(e, cam);
      ScrollRect(e, Camera(cam.vx + dx, cam.vy + dy, cam.scale))
        == Rect(r.x - dx * cam.scale, r.y - dy * cam.scale, r.w, r.h)
  {
  }

  /** The composite mode a fixed element draws with: the sprite set's own,
      else the layer's configured one, else "normal" (truthy values only). */
  function CompositeFor(spriteOp: Option<string>, ops: seq<string>, layer: int): (m: string)
    ensures m != ""
    ensures Truthy(spriteOp) ==> m == spriteOp.value
    ensures !Truthy(spriteOp) && Truthy(Get(ops, layer)) ==> m == ops[layer]
    ensures !Truthy(spriteOp) && !Truthy(Get(ops, layer)) ==> m == "normal"
  {
    OrElse(spriteOp, OrElse(Get(ops, layer), "normal"))
  }

  // ---------------------------------------------------------------------
  // Element pass

  /** Whether an entry names a registered sprite set (a marker never does). */
  predicate Resolves(objects: map<string, SpriteSet>, entry: Entry) {
    entry.Elem? && entry.el.name in objects
  }

  function BeforeDraw(parent: SpriteSet, e: Element): Element {
    if parent.onBeforeDraw.Some? then parent.onBeforeDraw.value(e) else e
  }

  /** The result of drawing one entry: the contexts afterwards, the entry as
      its sprite set's `onbeforedraw` left it, the calls made, and whether
      the pass went on (false when the element's layer does not exist, for
      which the source throws a TypeError). */
  datatype Step = Step(contexts: seq<Context>, entry: Entry, cmds: seq<Cmd>, completed: bool)

  function DrawEntry(view: SceneView, layers: seq<Layer>, ctxs: seq<Context>, entry: Entry): (s: Step)
    requires |ctxs| == |layers|
    ensures |s.contexts| == |ctxs|
  {
    if !Resolves(view.objects, entry) then Step(ctxs, entry, [], true)
    else
      var parent := view.objects[entry.el.name];
      var e := BeforeDraw(parent, entry.el);
      var hooked := Elem(e, entry.onTick);
      if !(0 <= e.layer < |layers|) then Step(ctxs, hooked, [], false)
      else if e.fixed then
        var mode := CompositeFor(parent.compositeOperation, view.compositeOperations, e.layer);
        Step(ctxs[e.layer := ctxs[e.layer].(composite := mode)], hooked,
             [SetComposite(e.layer, mode)] + Draw(parent, FixedRect(e, layers[e.layer]), e.layer, e.frame),
             true)
      else
        var r := ScrollRect(e, view.camera);
        Step(ctxs, hooked, if OnScreen(r, layers[e.layer]) then Draw(parent, r, e.layer, e.frame) else [], true)
  }

  /** The state after a run of entries. */
  datatype Pass = Pass(contexts: seq<Context>, entries: seq<Entry>, cmds: seq<Cmd>, completed: bool)

  /** The element pass over `es`, in list order; it stops at the first
      entry whose step does not complete, leaving later entries untouched. */
  function DrawEntries(view: SceneView, layers: seq<Layer>, ctxs: seq<Context>, es: seq<Entry>): (p: Pass)
    requires |ctxs| == |layers|
    ensures |p.contexts| == |ctxs| && |p.entries| == |es|
    decreases |es|
  {
    if es == [] then Pass(ctxs, [], [], true)
    else
      var s := DrawEntry(view, layers, ctxs, es[0]);
      if !s.completed then Pass(s.contexts, [s.entry] + es[1..], s.cmds, false)
      else
        var rest := DrawEntries(view, layers, s.contexts, es[1..]);
        Pass(rest.contexts, [s.entry] + rest.entries, s.cmds + rest.cmds, rest.completed)
  }

  /** A whole `Scene.draw()`: the background pass, then the element pass. */
  function ScenePass(view: SceneView, layers: seq<Layer>, ctxs: seq<Context>, es: seq<Entry>): (p: Pass)
    requires |ctxs| == |layers|
    ensures |p.contexts| == |ctxs| && |p.entries| == |es|
    ensures IsPrefix(BackgroundCmds(layers, view.backgrounds, view.compositeOperations, |layers|), p.cmds)
    ensures p.cmds[|BackgroundCmds(layers, view.backgrounds, view.compositeOperations, |layers|)|..]
      == DrawEntries(view, layers, PaintContexts(ctxs, view.backgrounds, view.compositeOperations), es).cmds
  {
    var bg := BackgroundCmds(layers, view.backgrounds, view.compositeOperations, |layers|);
    var p := DrawEntries(view, layers, PaintContexts(ctxs, view.backgrounds, view.compositeOperations), es);
    Pass(p.contexts, p.entries, bg + p.cmds, p.completed)
  }

  /** `draw()` paints every layer's background before it blits any element:
      the first calls of a scene pass are the background calls, and none of
      them is a blit. */
  lemma BackgroundsComeFirst(view: SceneView, layers: seq<Layer>, ctxs: seq<Context>, es: seq<Entry>)
    requires |ctxs| == |layers|
    ensures |BackgroundCmds(layers, view.backgrounds, view.compositeOperations, |layers|)|
      <= |ScenePass(view, layers, ctxs, es).cmds|
    ensures forall i :: 0 <= i < |BackgroundCmds(layers, view.backgrounds, view.compositeOperations, |layers|)| ==>
      !ScenePass(view, layers, ctxs, es).cmds[i].DrawImage?
  {
    var bg := BackgroundCmds(layers, view.backgrounds, view.compositeOperations, |layers|);
    var p := ScenePass(view, layers, ctxs, es);
    forall i | 0 <= i < |bg|
      ensures !p.cmds[i].DrawImage?
    {
      assert p.cmds[i] == p.cmds[..|bg|][i] == bg[i];
    }
  }

  // ---------------------------------------------------------------------
  // Properties of the element pass

  /** An entry that names no registered sprite set (every marker included)
      is left as it is, changes no context and makes no call. */
  lemma InertEntry(view: SceneView, layers: seq<Layer>, ctxs: seq<Context>, entry: Entry)
    requires |ctxs| == |layers| && !Resolves(view.objects, entry)
    ensures DrawEntry(view, layers, ctxs, entry) == Step(ctxs, entry, [], true)
  {
  }

  /** One step of the element pass, unfolded. */
  lemma DrawEntriesCons(view: SceneView, layers: seq<Layer>, ctxs: seq<Context>, x: Entry, rest: seq<Entry>)
    requires |ctxs| == |layers|
    ensures var s := DrawEntry(view, layers, ctxs, x);
      var p := DrawEntries(view, layers, ctxs, [x] + rest);
      && (!s.completed ==>
            p.contexts == s.contexts && p.entries == [s.entry] + rest && p.cmds == s.cmds && !p.completed)
      && (s.completed ==>
            var q := DrawEntries(view, layers, s.contexts, rest);
            && p.contexts == q.contexts && p.entries == [s.entry] + q.entries
            && p.cmds == s.cmds + q.cmds && p.completed == q.completed)
  {
    assert ([x] + rest)[0] == x && ([x] + rest)[1..] == rest;
  }

  /** `p` is the pass over a list with `m` at position `k`, `q` the pass
      over the same list without it. */
  ghost predicate SameWithout(p: Pass, q: Pass, k: nat, m: Entry) {
    && p.cmds == q.cmds && p.contexts == q.contexts && p.completed == q.completed
    && k <= |q.entries| && p.entries == q.entries[..k] + [m] + q.entries[k..]
  }

  /** Taking an inert entry out of the list changes nothing about what the
      other entries draw, the contexts, or whether the pass completes. */
  lemma {:induction false} InertEntryIsInvisible(view: SceneView, layers: seq<Layer>, ctxs: seq<Context>,
                                                 a: seq<Entry>, m: Entry, b: seq<Entry>)
    requires |ctxs| == |layers| && !Resolves(view.objects, m)
    ensures SameWithout(DrawEntries(view, layers, ctxs, a + [m] + b), DrawEntries(view, layers, ctxs, a + b), |a|, m)
    decreases |a|
  {
    if a == [] {
      assert a + [m] + b == [m] + b && a + b == b;
      InertEntry(view, layers, ctxs, m);
      DrawEntriesCons(view, layers, ctxs, m, b);
    } else {
      var x, a' := a[0], a[1..];
      assert a + [m] + b == [x] + (a' + [m] + b);
      assert a + b == [x] + (a' + b);
      var s := DrawEntry(view, layers, ctxs, x);
      if s.completed {
        InertEntryIsInvisible(view, layers, s.contexts, a', m, b);
      }
      InertEntryStep(view, layers, ctxs, x, a', m, b);
    }
  }

  /** `p` is the pass `rest` with one more entry and its calls in front. */
  ghost predicate Prepended(p: Pass, entry: Entry, cmds: seq<Cmd>, rest: Pass) {
    && p.contexts == rest.contexts && p.entries == [entry] + rest.entries
    && p.cmds == cmds + rest.cmds && p.completed == rest.completed
  }

  lemma SameWithoutPrepend(p: Pass, q: Pass, p1: Pass, q1: Pass, k: nat, m: Entry, entry: Entry, cmds: seq<Cmd>)
    requires SameWithout(p1, q1, k, m)
    requires Prepended(p, entry, cmds, p1) && Prepended(q, entry, cmds, q1)
    ensures SameWithout(p, q, k + 1, m)
  {
    assert q.entries[..k + 1] == [entry] + q1.entries[..k];
    assert q.entries[k + 1..] == q1.entries[k..];
  }

  lemma SameWithoutStop(p: Pass, q: Pass, a': seq<Entry>, m: Entry, b: seq<Entry>, entry: Entry)
    requires p.contexts == q.contexts && p.cmds == q.cmds && !p.completed && !q.completed
    requires p.entries == [entry] + (a' + [m] + b) && q.entries == [entry] + (a' + b)
    ensures SameWithout(p, q, |a'| + 1, m)
  {
    var x := [entry] + a';
    Associative([entry], a' + [m], b);
    Associative([entry], a', [m]);
    Associative([entry], a', b);
    assert q.entries[..|x|] == x && q.entries[|x|..] == b;
  }

  lemma InertEntryStep(view: SceneView, layers: seq<Layer>, ctxs: seq<Context>,
                       x: Entry, a': seq<Entry>, m: Entry, b: seq<Entry>)
    requires |ctxs| == |layers|
    requires var s := DrawEntry(view, layers, ctxs, x);
      s.completed ==>
        SameWithout(DrawEntries(view, layers, s.contexts, a' + [m] + b), DrawEntries(view, layers, s.contexts, a' + b), |a'|, m)
    ensures SameWithout(DrawEntries(view, layers, ctxs, [x] + (a' + [m] + b)),
                        DrawEntries(view, layers, ctxs, [x] + (a' + b)), |a'| + 1, m)
  {
    DrawEntriesCons(view, layers, ctxs, x, a' + [m] + b);
    DrawEntriesCons(view, layers, ctxs, x, a' + b);
    var s := DrawEntry(view, layers, ctxs, x);
    var p := DrawEntries(view, layers, ctxs, [x] + (a' + [m] + b));
    var q := DrawEntries(view, layers, ctxs, [x] + (a' + b));
    if s.completed {
      SameWithoutPrepend(p, q, DrawEntries(view, layers, s.contexts, a' + [m] + b),
                         DrawEntries(view, layers, s.contexts, a' + b), |a'|, m, s.entry, s.cmds);
    } else {
      SameWithoutStop(p, q, a', m, b, s.entry);
    }
  }

  /** The element pass never touches an inert entry in place. */
  lemma {:induction false} InertEntriesUnchanged(view: SceneView, layers: seq<Layer>, ctxs: seq<Context>, es: seq<Entry>)
    requires |ctxs| == |layers|
    ensures var p := DrawEntries(view, layers, ctxs, es);
      forall i :: 0 <= i < |es| && !Resolves(view.objects, es[i]) ==> p.entries[i] == es[i]
    decreases |es|
  {
    if es != [] {
      var s := DrawEntry(view, layers, ctxs, es[0]);
      var p := DrawEntries(view, layers, ctxs, es);
      if s.completed {
        InertEntriesUnchanged(view, layers, s.contexts, es[1..]);
        var rest := DrawEntries(view, layers, s.contexts, es[1..]);
        assert p.entries == [s.entry] + rest.entries;
        forall i | 1 <= i < |es| && !Resolves(view.objects, es[i])
          ensures p.entries[i] == es[i]
        {
          assert es[1..][i - 1] == es[i];
        }
      }
    }
  }

  /** A fixed element (fixed once its `onbeforedraw` has run) sets its
      context's composite mode by the fallback chain and is blitted at
      `(x, y, w·(relative ? clientWidth : 1), h·(relative ? clientHeight : 1))`;
      where the camera is makes no difference. */
  lemma FixedPlacement(view: SceneView, cam: Camera, layers: seq<Layer>, ctxs: seq<Context>,
                        entry: Entry, parent: SpriteSet, e: Element)
    requires |ctxs| == |layers| && Resolves(view.objects, entry)
    requires parent == view.objects[entry.el.name] && e == BeforeDraw(parent, entry.el)
    requires e.fixed && 0 <= e.layer < |layers|
    ensures DrawEntry(view, layers, ctxs, entry).completed
    ensures DrawEntry(view, layers, ctxs, entry).entry == Elem(e, entry.onTick)
    ensures var mode := CompositeFor(parent.compositeOperation, view.compositeOperations, e.layer);
      DrawEntry(view, layers, ctxs, entry).contexts == ctxs[e.layer := ctxs[e.layer].(composite := mode)]
    ensures DrawEntry(view, layers, ctxs, entry).cmds
      == [SetComposite(e.layer, CompositeFor(parent.compositeOperation, view.compositeOperations, e.layer))]
         + Draw(parent, Rect(e.x, e.y,
                             e.width * (if e.sizeRelative then layers[e.layer].clientWidth as real else 1.0),
                             e.height * (if e.sizeRelative then layers[e.layer].clientHeight as real else 1.0)),
                e.layer, e.frame)
    ensures DrawEntry(view.(camera := cam), layers, ctxs, entry) == DrawEntry(view, layers, ctxs, entry)
  {
    var mode := CompositeFor(parent.compositeOperation, view.compositeOperations, e.layer);
    assert DrawEntry(view, layers, ctxs, entry).cmds
      == [SetComposite(e.layer, mode)] + Draw(parent, FixedRect(e, layers[e.layer]), e.layer, e.frame);
    assert FixedRect(e, layers[e.layer])
      == Rect(e.x, e.y,
              e.width * (if e.sizeRelative then layers[e.layer].clientWidth as real else 1.0),
              e.height * (if e.sizeRelative then layers[e.layer].clientHeight as real else 1.0));
  }

  /** A scrolling element is transformed by the camera and blitted only when
      the culling test passes; its `onbeforedraw` has run either way, and
      the contexts (their composite modes included) are left as they were. */
  lemma ScrollingPlacement(view: SceneView, layers: seq<Layer>, ctxs: seq<Context>,
                           entry: Entry, parent: SpriteSet, e: Element)
    requires |ctxs| == |layers| && Resolves(view.objects, entry)
    requires parent == view.objects[entry.el.name] && e == BeforeDraw(parent, entry.el)
    requires !e.fixed && 0 <= e.layer < |layers|
    ensures DrawEntry(view, layers, ctxs, entry).completed
    ensures DrawEntry(view, layers, ctxs, entry).entry == Elem(e, entry.onTick)
    ensures DrawEntry(view, layers, ctxs, entry).contexts == ctxs
    ensures DrawEntry(view, layers, ctxs, entry).cmds
      == if OnScreen(ScrollRect(e, view.camera), layers[e.layer])
         then Draw(parent, ScrollRect(e, view.camera), e.layer, e.frame)
         else []
  {
  }

  /** An element whose layer (after `onbeforedraw`) does not exist stops the
      pass before anything is drawn for it; the hook's change stays. */
  lemma MissingLayerStops(view: SceneView, layers: seq<Layer>, ctxs: seq<Context>, entry: Entry)
    requires |ctxs| == |layers| && Resolves(view.objects, entry)
    requires var e := BeforeDraw(view.objects[entry.el.name], entry.el);
      !(0 <= e.layer < |layers|)
    ensures var s := DrawEntry(view, layers, ctxs, entry);
      && !s.completed && s.cmds == [] && s.contexts == ctxs
      && s.entry == Elem(BeforeDraw(view.objects[entry.el.name], entry.el), entry.onTick)
  {
  }
}

/** The game manager: the layer canvases and their contexts, the registered
    scenes, and the tick counter. `Frame` resynchronises the layers' backing
    sizes when layer 0 has drifted from its displayed size and then draws
    the active scene; `Tick` advances the counter while the game loops and
    hands the new value to the active scene. */
module Engine {
  import opened JsArrays
  import opened Canvas
  import opened GameObjects
  import opened Render
  import opened Ticking
  import opened Scenes

  // ---------------------------------------------------------------------
  // Resize resynchronisation

  /** A layer whose backing size differs from its displayed size. */
  predicate Drifted(l: Layer) {
    l.width != l.clientWidth || l.height != l.clientHeight
  }

  /** A layer after `width = clientWidth; height = clientHeight`. */
  function Synced(l: Layer): (r: Layer)
    ensures !Drifted(r)
    ensures r.clientWidth == l.clientWidth && r.clientHeight == l.clientHeight
    ensures !Drifted(l) ==> r == l
  {
    l.(width := l.clientWidth, height := l.clientHeight)
  }

  /** Every layer synchronised. */
  function SyncLayers(ls: seq<Layer>): (r: seq<Layer>)
    ensures |r| == |ls|
    ensures forall i :: 0 <= i < |ls| ==> r[i] == Synced(ls[i])
  {
    seq(|ls|, i requires 0 <= i < |ls| => Synced(ls[i]))
  }

  /** A context after `set_interpolation`. */
  function Unsmoothed(c: Context): Context {
    c.(smoothing := false)
  }

  /** Assigning a canvas's `width` or `height` resets its 2D context to the
      default state (HTML Living Standard, section 4.12.5, "The canvas
      element"): composite mode, fill style and smoothing go back to their
      defaults. The mirrored size is an ordinary property of the context
      object, which the reset leaves alone. */
  function Reset(c: Context): (r: Context)
    ensures r.composite == "source-over" && r.fillStyle == "#000000" && r.smoothing
    ensures r.mirroredSize == c.mirroredSize
  {
    FreshContext.(mirroredSize := c.mirroredSize)
  }

  /** A context after the resync mirrored its layer's new size onto it,
      assigning the canvas's size reset it, and `set_interpolation` ran. */
  function Resized(c: Context, l: Layer): Context {
    Unsmoothed(Reset(c.(mirroredSize := Some((l.clientWidth, l.clientHeight)))))
  }

  /** The layers after `frame()`'s check: all of them synchronised when
      layer 0 has drifted, none of them otherwise. */
  function ResyncLayers(ls: seq<Layer>): (r: seq<Layer>)
    requires |ls| > 0
    ensures |r| == |ls|
  {
    if Drifted(ls[0]) then SyncLayers(ls) else ls
  }

  /** The contexts after `frame()`'s check. */
  function ResyncContexts(ls: seq<Layer>, cs: seq<Context>): (r: seq<Context>)
    requires |ls| == |cs| > 0
    ensures |r| == |cs|
    ensures !Drifted(ls[0]) ==> r == cs
    ensures Drifted(ls[0]) ==> forall i :: 0 <= i < |cs| ==>
      && r[i].composite == "source-over" && r[i].fillStyle == "#000000" && !r[i].smoothing
      && r[i].mirroredSize == Some((ls[i].clientWidth, ls[i].clientHeight))
  {
    if Drifted(ls[0])
    then seq(|cs|, i requires 0 <= i < |cs| => Resized(cs[i], ls[i]))
    else cs
  }

  /** The check looks at layer 0 only: if it has drifted, every layer is
      synchronised; if it has not, nothing is, even a layer that has. */
  lemma ResyncAllOrNothing(ls: seq<Layer>)
    requires |ls| > 0
    ensures Drifted(ls[0]) ==> forall i :: 0 <= i < |ls| ==> !Drifted(ResyncLayers(ls)[i])
    ensures !Drifted(ls[0]) ==> ResyncLayers(ls) == ls
    ensures forall i :: 0 <= i < |ls| ==>
      ResyncLayers(ls)[i].clientWidth == ls[i].clientWidth && ResyncLayers(ls)[i].clientHeight == ls[i].clientHeight
  {
  }

  /** A second frame with an unchanged page layout does not resize again. */
  lemma {:induction false} ResyncSettles(ls: seq<Layer>, cs: seq<Context>)
    requires |ls| == |cs| > 0
    ensures !Drifted(ResyncLayers(ls)[0])
    ensures ResyncLayers(ResyncLayers(ls)) == ResyncLayers(ls)
    ensures ResyncContexts(ResyncLayers(ls), cs) == cs
  {
    var r := ResyncLayers(ls);
    assert !Drifted(r[0]);
  }

  /** A layer other than 0 can stay drifted across a frame. */
  lemma LaterLayerCanStayDrifted()
    ensures var ls := [Layer(10, 10, 10, 10), Layer(10, 10, 20, 20)];
      ResyncLayers(ls)[1] == ls[1] && Drifted(ResyncLayers(ls)[1])
  {
  }

  // ---------------------------------------------------------------------
  // Ticks

  /** The arguments `k` consecutive looping ticks hand to the scene, from a
      counter that was at `c`. */
  function TickArgs(c: int, k: nat): (r: seq<int>)
    ensures |r| == k
  {
    if k == 0 then [] else TickArgs(c, k - 1) + [c + k]
  }

  /** Starting from `c`, the ticks deliver `c+1, c+2, ..., c+k` in order;
      from a fresh counter, `1 .. k`. */
  lemma {:induction false} TickArgsCount(c: int, k: nat)
    ensures |TickArgs(c, k)| == k
    ensures forall i :: 0 <= i < k ==> TickArgs(c, k)[i] == c + 1 + i
  {
    if k > 0 {
      TickArgsCount(c, k - 1);
    }
  }

  /** An element list after the ticks `c+1 .. c+k`, in that order. */
  function TickedTimes(objects: map<string, SpriteSet>, c: int, k: nat, es: seq<Entry>): (r: seq<Entry>)
    ensures |r| == |es|
  {
    if k == 0 then es else TickEntries(objects, c + k, TickedTimes(objects, c, k - 1, es))
  }

  lemma TickedTimesStep(objects: map<string, SpriteSet>, c: int, k: nat, es: seq<Entry>, n: int)
    requires n == c + k + 1
    ensures TickedTimes(objects, c, k + 1, es) == TickEntries(objects, n, TickedTimes(objects, c, k, es))
    ensures TickArgs(c, k + 1) == TickArgs(c, k) + [n]
  {
  }

  /** A marker survives any number of ticks unchanged. */
  lemma {:induction false} TickedTimesKeepsMarkers(objects: map<string, SpriteSet>, c: int, k: nat, es: seq<Entry>, i: nat)
    requires i < |es| && es[i].Marker?
    ensures TickedTimes(objects, c, k, es)[i] == es[i]
  {
    if k > 0 {
      TickedTimesKeepsMarkers(objects, c, k - 1, es, i);
    }
  }

  class GameManager {
    var layers: array<Layer>
    var contexts: array<Context>
    var scenes: seq<Scene>
    var activeScene: int
    var tickRate: nat
    var tickCount: int
    var looping: bool
    /** The arguments handed to the active scene's `tick`, in order. */
    ghost var delivered: seq<int>

    /** One context per layer; the counter never went below 0 and every
        value delivered so far was delivered once, in increasing order, and
        is at most the current count. */
    ghost predicate Valid()
      reads this
    {
      && layers.Length == contexts.Length
      && tickCount >= 0
      && (forall i :: 0 <= i < |delivered| ==> 1 <= delivered[i] <= tickCount)
      && (forall i, j :: 0 <= i < j < |delivered| ==> delivered[i] < delivered[j])
    }

    /** `init(rlayers, {looping})`: one fresh context per layer, counter at
        0, no scenes, every layer synchronised, smoothing switched off. */
    constructor (surfaces: seq<Layer>, looping: bool)
      ensures Valid() && fresh(layers) && fresh(contexts)
      ensures layers[..] == SyncLayers(surfaces)
      ensures contexts[..] == seq(|surfaces|, _ => Unsmoothed(FreshContext))
      ensures scenes == [] && activeScene == 0 && tickRate == 100 && tickCount == 0
      ensures this.looping == looping && delivered == []
    {
      var ls := new Layer[|surfaces|](i requires 0 <= i < |surfaces| => surfaces[i]);
      var i := 0;
      while i < ls.Length
        invariant 0 <= i <= ls.Length
        invariant forall j :: 0 <= j < i ==> ls[j] == Synced(surfaces[j])
        invariant forall j :: i <= j < ls.Length ==> ls[j] == surfaces[j]
      {
        ls[i] := ls[i].(width := ls[i].clientWidth, height := ls[i].clientHeight);
        i := i + 1;
      }
      layers := ls;
      contexts := new Context[|surfaces|](_ => FreshContext);
      scenes := [];
      activeScene := 0;
      tickRate := 100;
      tickCount := 0;
      this.looping := looping;
      delivered := [];
      new;
      SetInterpolation();
    }

    /** `register_scene(scene)`: append it; it gets the next id. */
    method RegisterScene(scene: Scene)
      requires Valid()
      modifies this
      ensures Valid()
      ensures scenes == old(scenes) + [scene]
      ensures GetScene(Some(|old(scenes)|)) == Some(scene)
      ensures forall id :: 0 <= id < |old(scenes)| ==> GetScene(Some(id)) == old(GetScene(Some(id)))
      ensures layers == old(layers) && contexts == old(contexts) && activeScene == old(activeScene)
      ensures tickRate == old(tickRate) && tickCount == old(tickCount) && looping == old(looping)
      ensures delivered == old(delivered)
    {
      scenes := scenes + [scene];
    }

    /** `get_scene(id = active_scene)`. */
    function GetScene(id: Option<int>): (r: Option<Scene>)
      reads this
      ensures r.Some? <==> 0 <= Pick(id, activeScene) < |scenes|
      ensures r.Some? ==> r.value == scenes[Pick(id, activeScene)]
    {
      Get(scenes, Pick(id, activeScene))
    }

    /** `get_context(id)`. */
    function GetContext(id: int): (r: Option<Context>)
      reads this, contexts
      ensures r.Some? <==> 0 <= id < contexts.Length
      ensures r.Some? ==> r.value == contexts[id]
    {
      Get(contexts[..], id)
    }

    /** `get_layer(id)`. */
    function GetLayer(id: int): (r: Option<Layer>)
      reads this, layers
      ensures r.Some? <==> 0 <= id < layers.Length
      ensures r.Some? ==> r.value == layers[id]
    {
      Get(layers[..], id)
    }

    /** `set_interpolation()`: image smoothing off on every context. */
    method SetInterpolation()
      modifies contexts
      ensures forall i :: 0 <= i < contexts.Length ==> contexts[i] == Unsmoothed(old(contexts[i]))
    {
      var i := 0;
      while i < contexts.Length
        invariant 0 <= i <= contexts.Length
        invariant forall j :: 0 <= j < i ==> contexts[j] == Unsmoothed(old(contexts[j]))
        invariant forall j :: i <= j < contexts.Length ==> contexts[j] == old(contexts[j])
      {
        contexts[i] := contexts[i].(smoothing := false);
        i := i + 1;
      }
    }

    /** The resize part of `frame()`: when layer 0 has drifted, every
        layer's backing size (mirrored onto its context) is set to its
        displayed size, then smoothing is switched off again. */
    method Resync()
      requires Valid() && layers.Length > 0
      modifies layers, contexts
      ensures layers[..] == ResyncLayers(old(layers[..]))
      ensures contexts[..] == ResyncContexts(old(layers[..]), old(contexts[..]))
    {
      if Drifted(layers[0]) {
        ghost var ls0, cs0 := layers[..], contexts[..];
        var id := 0;
        while id < layers.Length
          invariant 0 <= id <= layers.Length
          invariant forall j :: 0 <= j < id ==> layers[j] == Synced(ls0[j])
          invariant forall j :: 0 <= j < id ==>
            contexts[j] == Reset(cs0[j].(mirroredSize := Some((ls0[j].clientWidth, ls0[j].clientHeight))))
          invariant forall j :: id <= j < layers.Length ==> layers[j] == ls0[j] && contexts[j] == cs0[j]
        {
          var layer := layers[id];
          contexts[id] := contexts[id].(mirroredSize := Some((layer.clientWidth, layer.clientHeight)));
          layers[id] := layer.(width := layer.clientWidth, height := layer.clientHeight);
          // the canvas's new size resets its context
          contexts[id] := Reset(contexts[id]);
          id := id + 1;
        }
        SetInterpolation();
        assert forall j :: 0 <= j < layers.Length ==> layers[..][j] == SyncLayers(ls0)[j];
        assert forall j :: 0 <= j < contexts.Length ==> contexts[..][j] == ResyncContexts(ls0, cs0)[j];
      }
    }

    /** `frame()`: reading layer 0 throws when there are no layers; then the
        resize check; then the active scene draws (which throws when there
        is no such scene). */
    method Frame() returns (cmds: seq<Cmd>, completed: bool)
      requires Valid()
      modifies layers, contexts, scenes
      ensures Valid()
      ensures layers.Length == 0 ==> !completed && cmds == []
      ensures layers.Length > 0 ==> layers[..] == ResyncLayers(old(layers[..]))
      ensures layers.Length > 0 && !(0 <= activeScene < |scenes|) ==>
        && !completed && cmds == []
        && contexts[..] == ResyncContexts(old(layers[..]), old(contexts[..]))
      ensures layers.Length > 0 && 0 <= activeScene < |scenes| ==>
        && contexts[..] == ScenePass(old(scenes[activeScene].View()), ResyncLayers(old(layers[..])),
                                     ResyncContexts(old(layers[..]), old(contexts[..])),
                                     old(scenes[activeScene].elements)).contexts
        && scenes[activeScene].elements
           == ScenePass(old(scenes[activeScene].View()), ResyncLayers(old(layers[..])),
                        ResyncContexts(old(layers[..]), old(contexts[..])),
                        old(scenes[activeScene].elements)).entries
        && cmds == ScenePass(old(scenes[activeScene].View()), ResyncLayers(old(layers[..])),
                             ResyncContexts(old(layers[..]), old(contexts[..])),
                             old(scenes[activeScene].elements)).cmds
        && completed == ScenePass(old(scenes[activeScene].View()), ResyncLayers(old(layers[..])),
                                  ResyncContexts(old(layers[..]), old(contexts[..])),
                                  old(scenes[activeScene].elements)).completed
      ensures forall s :: s in scenes ==> s.View() == old(s.View())
      ensures layers.Length == 0 ==> forall s :: s in scenes ==> s.elements == old(s.elements)
      ensures forall s :: s in scenes && (0 <= activeScene < |scenes| ==> s != scenes[activeScene]) ==>
        s.elements == old(s.elements)
    {
      if layers.Length == 0 {
        return [], false;
      }
      Resync();
      var scene := GetScene(None);
      if scene.None? {
        return [], false;
      }
      cmds, completed := scene.value.Draw(layers[..], contexts);
    }

    /** `tick()`: while looping, advance the counter and hand the new value
        to the active scene when there is one. Returns the names whose
        scene-level `ontick` ran. */
    method Tick() returns (ticked: seq<string>)
      requires Valid()
      modifies this, scenes
      ensures Valid()
      ensures scenes == old(scenes) && activeScene == old(activeScene) && looping == old(looping)
      ensures layers == old(layers) && contexts == old(contexts) && tickRate == old(tickRate)
      ensures !looping ==> tickCount == old(tickCount) && delivered == old(delivered) && ticked == []
      ensures !looping ==> forall s :: s in scenes ==> s.elements == old(s.elements)
      ensures looping ==> tickCount == old(tickCount) + 1
      ensures looping && !(0 <= activeScene < |scenes|) ==> delivered == old(delivered) && ticked == []
      ensures looping && 0 <= activeScene < |scenes| ==>
        && delivered == old(delivered) + [tickCount]
        && ticked == ObjectTicks(scenes[activeScene].objects)
        && scenes[activeScene].elements
           == TickEntries(scenes[activeScene].objects, tickCount, old(scenes[activeScene].elements))
      ensures forall s :: s in scenes ==> s.View() == old(s.View())
      ensures forall s :: s in scenes && (0 <= activeScene < |scenes| ==> s != scenes[activeScene]) ==>
        s.elements == old(s.elements)
    {
      ticked := [];
      if looping {
        tickCount := tickCount + 1;
        var scene := GetScene(None);
        if scene.Some? {
          ticked := scene.value.Tick(tickCount);
          delivered := delivered + [tickCount];
        }
      }
    }

    /** `k` calls of `tick()` with nothing else in between, as the tick
        timer makes them. */
    method TickTimes(k: nat)
      requires Valid()
      modifies this, scenes
      ensures Valid()
      ensures scenes == old(scenes) && activeScene == old(activeScene) && looping == old(looping)
      ensures layers == old(layers) && contexts == old(contexts) && tickRate == old(tickRate)
      ensures !looping ==> tickCount == old(tickCount) && delivered == old(delivered)
      ensures looping ==> tickCount == old(tickCount) + k
      ensures looping && !(0 <= activeScene < |scenes|) ==> delivered == old(delivered)
      ensures looping && 0 <= activeScene < |scenes| ==>
        && delivered == old(delivered) + TickArgs(old(tickCount), k)
        && scenes[activeScene].elements
           == TickedTimes(scenes[activeScene].objects, old(tickCount), k, old(scenes[activeScene].elements))
      ensures !looping ==> forall s :: s in scenes ==> s.elements == old(s.elements)
      ensures forall s :: s in scenes ==> s.View() == old(s.View())
      ensures forall s :: s in scenes && (0 <= activeScene < |scenes| ==> s != scenes[activeScene]) ==>
        s.elements == old(s.elements)
    {
      ghost var scene := GetScene(None);
      ghost var c0, d0 := tickCount, delivered;
      ghost var objects := if scene.Some? then scene.value.objects else map[];
      ghost var es0 := if scene.Some? then scene.value.elements else [];
      var i := 0;
      while i < k
        invariant 0 <= i <= k
        invariant Valid()
        invariant scenes == old(scenes) && activeScene == old(activeScene) && looping == old(looping)
        invariant layers == old(layers) && contexts == old(contexts) && tickRate == old(tickRate)
        invariant !looping ==> tickCount == c0 && delivered == d0
        invariant looping ==> tickCount == c0 + i
        invariant scene.Some? <==> 0 <= activeScene < |scenes|
        invariant scene.Some? ==> scene.value == scenes[activeScene]
        invariant scene.None? ==> delivered == d0
        invariant scene.Some? ==> scene.value.objects == objects
        invariant looping && scene.Some? ==>
          && delivered == d0 + TickArgs(c0, i)
          && scene.value.elements == TickedTimes(objects, c0, i, es0)
        invariant !looping && scene.Some? ==> scene.value.elements == es0
        invariant forall s :: s in scenes ==> s.View() == old(s.View())
        invariant forall s :: s in scenes && (0 <= activeScene < |scenes| ==> s != scenes[activeScene]) ==>
          s.elements == old(s.elements)
      {
        ghost var before := if scene.Some? then scene.value.View() else SceneView(map[], Camera(0.0, 0.0, 1.0), [], []);
        ghost var es := if scene.Some? then scene.value.elements else [];
        ghost var args := delivered;
        var _ := Tick();
        if scene.Some? {
          assert scene.value == scenes[activeScene];
          assert scene.value.View() == before;
          if looping {
            TickedTimesStep(objects, c0, i, es0, tickCount);
            Associative(d0, TickArgs(c0, i), [tickCount]);
            assert scene.value.objects == objects;
            assert scene.value.elements == TickEntries(objects, tickCount, es);
          }
        }
        i := i + 1;
      }
    }
  }
}

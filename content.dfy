/** Scene content from the demo page: the lamp's element template and a
    star drawn on both layers. `Math.random()` is a parameter in [0, 1). */
module Content {
  import opened JsArrays
  import opened Canvas
  import opened GameObjects
  import opened Render
  import opened Ticking
  import opened Scenes

  /** The lamp template's new frame: a lit frame (1, 2 or 3) is replaced
      by `floor(random * 3 + 1)`; any other frame is kept. */
  function LampFrame(frame: int, random: real): (f: int)
    requires 0.0 <= random < 1.0
    ensures 1 <= frame <= 3 ==> 1 <= f <= 3
    ensures !(1 <= frame <= 3) ==> f == frame
  {
    if 1 <= frame <= 3 then (random * 3.0 + 1.0).Floor else frame
  }

  /** Every lit frame can follow every lit frame. */
  lemma LampFrameCovers(frame: int, target: int)
    requires 1 <= frame <= 3 && 1 <= target <= 3
    ensures exists random: real :: 0.0 <= random < 1.0 && LampFrame(frame, random) == target
  {
    var random := (target - 1) as real / 3.0;
    assert (random * 3.0 + 1.0).Floor == target;
    assert LampFrame(frame, random) == target;
  }

  /** The "lamp" sprite set, four frames, with the template above; the
      random draw of one tick is `random`. */
  function LampSet(random: real): (s: SpriteSet)
    requires 0.0 <= random < 1.0
    ensures s.name == "lamp" && |s.frames| == 4 && s.elementOnTick.Some? && !s.hasOnTick
  {
    New([Image("lamp-1"), Image("lamp-2"), Image("lamp-3"), Image("lamp-4")],
        SpriteData("lamp", None, None, None,
                   Some((n: int, e: Element) => e.(frame := LampFrame(e.frame, random))), false))
  }

  /** A tick keeps a lamp's frame among the lit frames or leaves it alone,
      and changes nothing else about the element. */
  lemma {:induction false} LampTick(n: int, e: Element, random: real)
    requires 0.0 <= random < 1.0 && e.name == "lamp"
    ensures TickEntry(map["lamp" := LampSet(random)], n, Elem(e, None)).el.frame == LampFrame(e.frame, random)
    ensures TickEntry(map["lamp" := LampSet(random)], n, Elem(e, None)).el.(frame := e.frame) == e
  {
    var objects := map["lamp" := LampSet(random)];
    assert objects[e.name].elementOnTick.value(n, e) == e.(frame := LampFrame(e.frame, random));
  }

  /** The lamp is stored under its name, so the scene-level pass never
      visits it. */
  lemma LampNeverTicksAtSceneLevel(random: real)
    requires 0.0 <= random < 1.0
    ensures ObjectTicks(map["lamp" := LampSet(random)]) == []
  {
    var objects := map["lamp" := LampSet(random)];
    forall name | name in objects
      ensures !IsArrayIndex(name)
    {
      assert name == "lamp";
      assert !IsDigit(name[0]);
    }
    if ObjectTicks(objects) != [] {
      ObjectTicksExactly(objects, ObjectTicks(objects)[0]);
      assert false;
    }
  }

  // ---------------------------------------------------------------------
  // A star on each of two layers

  function StarSet(): SpriteSet {
    New([Image("star-1"), Image("star-2")], SpriteData("star", None, None, None, None, false))
  }

  /** The scene the demo builds, camera at the origin and scale 4. */
  function StarView(): SceneView {
    SceneView(map["star" := StarSet()], Camera(0.0, 0.0, 4.0), [], [])
  }

  function Surfaces(): seq<Layer> {
    [Layer(512, 288, 512, 288), Layer(512, 288, 512, 288)]
  }

  /** `add_element("star", 10, 5, 32, 32, 0, 0)` then
      `add_element("star", 10, 5, 32, 32, 1, 1)` on an empty list. */
  function StarEntries(): seq<Entry> {
    var first := AddEntry([], None, NewEntry("star", 10.0, 5.0, 32.0, 32.0, 0, 0, NoData)).entries;
    AddEntry(first, None, NewEntry("star", 10.0, 5.0, 32.0, 32.0, 1, 1, NoData)).entries
  }

  function Star(layer: int, frame: int): Element {
    Element("star", 10.0, 5.0, 32.0, 32.0, layer, frame, false, true, false)
  }

  /** Each default `add_element` pushes a marker and then the element. */
  lemma StarEntriesAre()
    ensures StarEntries() == [Marker(0)] + [Elem(Star(0, 0), None), Marker(2), Elem(Star(1, 1), None)]
  {
    var e0 := NewEntry("star", 10.0, 5.0, 32.0, 32.0, 0, 0, NoData);
    var e1 := NewEntry("star", 10.0, 5.0, 32.0, 32.0, 1, 1, NoData);
    assert e0 == Elem(Star(0, 0), None) && e1 == Elem(Star(1, 1), None);
    var first := AddEntry([], None, e0).entries;
    assert first == [Marker(0), e0];
    var second := AddEntry(first, None, e1).entries;
    assert second == first + [Marker(2), e1];
  }

  /** One star at scale 4 lands at (40, 20), 128 wide and high, on screen. */
  lemma StarStep(ctxs: seq<Context>, layer: nat, frame: nat)
    requires |ctxs| == 2 && layer < 2 && frame < 2
    ensures DrawEntry(StarView(), Surfaces(), ctxs, Elem(Star(layer, frame), None)).completed
    ensures DrawEntry(StarView(), Surfaces(), ctxs, Elem(Star(layer, frame), None)).contexts == ctxs
    ensures DrawEntry(StarView(), Surfaces(), ctxs, Elem(Star(layer, frame), None)).cmds
      == [DrawImage(layer, StarSet().frames[frame], Rect(40.0, 20.0, 128.0, 128.0))]
  {
    var view, layers, e := StarView(), Surfaces(), Star(layer, frame);
    var r := Rect(40.0, 20.0, 128.0, 128.0);
    assert ScrollRect(e, view.camera) == r;
    assert OnScreen(r, layers[layer]);
    ScrollingPlacement(view, layers, ctxs, Elem(e, None), StarSet(), e);
  }

  /** The second half of the list: the marker, then the star on layer 1. */
  lemma StarTail(ctxs: seq<Context>)
    requires |ctxs| == 2
    ensures DrawEntries(StarView(), Surfaces(), ctxs, [Marker(2), Elem(Star(1, 1), None)]).completed
    ensures DrawEntries(StarView(), Surfaces(), ctxs, [Marker(2), Elem(Star(1, 1), None)]).contexts == ctxs
    ensures DrawEntries(StarView(), Surfaces(), ctxs, [Marker(2), Elem(Star(1, 1), None)]).cmds
      == [DrawImage(1, Image("star-2"), Rect(40.0, 20.0, 128.0, 128.0))]
  {
    var view, layers := StarView(), Surfaces();
    StarStep(ctxs, 1, 1);
    DrawEntriesCons(view, layers, ctxs, Elem(Star(1, 1), None), []);
    InertEntry(view, layers, ctxs, Marker(2));
    assert [Marker(2), Elem(Star(1, 1), None)] == [Marker(2)] + [Elem(Star(1, 1), None)];
    DrawEntriesCons(view, layers, ctxs, Marker(2), [Elem(Star(1, 1), None)]);
  }

  /** Both stars, from the first one on. */
  lemma StarsFromFirst(ctxs: seq<Context>)
    requires |ctxs| == 2
    ensures var es := [Elem(Star(0, 0), None), Marker(2), Elem(Star(1, 1), None)];
      && DrawEntries(StarView(), Surfaces(), ctxs, es).completed
      && DrawEntries(StarView(), Surfaces(), ctxs, es).cmds
         == [DrawImage(0, Image("star-1"), Rect(40.0, 20.0, 128.0, 128.0)),
             DrawImage(1, Image("star-2"), Rect(40.0, 20.0, 128.0, 128.0))]
  {
    var tail := [Marker(2), Elem(Star(1, 1), None)];
    var star := Elem(Star(0, 0), None);
    StarTail(ctxs);
    StarStep(ctxs, 0, 0);
    DrawEntriesCons(StarView(), Surfaces(), ctxs, star, tail);
    assert [star, Marker(2), Elem(Star(1, 1), None)] == [star] + tail;
  }

  /** Whatever state the two contexts are in, the element pass makes
      exactly one call per surface, each with its element's frame, at the
      camera-transformed rectangle. */
  lemma StarOnBothLayers(ctxs: seq<Context>)
    requires |ctxs| == 2
    ensures DrawEntries(StarView(), Surfaces(), ctxs, StarEntries()).completed
    ensures DrawEntries(StarView(), Surfaces(), ctxs, StarEntries()).cmds
      == [DrawImage(0, Image("star-1"), Rect(40.0, 20.0, 128.0, 128.0)),
          DrawImage(1, Image("star-2"), Rect(40.0, 20.0, 128.0, 128.0))]
  {
    var rest := [Elem(Star(0, 0), None), Marker(2), Elem(Star(1, 1), None)];
    StarEntriesAre();
    StarsFromFirst(ctxs);
    InertEntry(StarView(), Surfaces(), ctxs, Marker(0));
    DrawEntriesCons(StarView(), Surfaces(), ctxs, Marker(0), rest);
  }
}

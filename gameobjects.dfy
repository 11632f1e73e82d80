/** Placed elements and the sprite sets ("game objects") they name.

    A hook that the source calls with an element as receiver is a function
    from the element's fields to its new fields: the element is passed
    explicitly instead of being bound to `this`. */
module GameObjects {
  import opened JsArrays
  import opened Canvas

  /** The fields of one placed element. */
  datatype Element = Element(
    name: string,
    x: real,
    y: real,
    width: real,
    height: real,
    layer: int,
    frame: int,
    fixed: bool,
    visible: bool,
    sizeRelative: bool)

  /** An `ontick(n)` hook run with an element as receiver. */
  type TickHook = (int, Element) -> Element

  /** One entry of a scene's element list. `add_element` pushes a bare
      number before each appended element; such an entry is a `Marker`.
      An element keeps its own optional `ontick` beside its fields. */
  datatype Entry =
    | Marker(index: int)
    | Elem(el: Element, onTick: Option<TickHook>)

  /** The `data` argument of `add_element`: every property it sets
      overrides the one `add_element` would give the element. */
  datatype ElementData = ElementData(
    name: Option<string>,
    x: Option<real>,
    y: Option<real>,
    width: Option<real>,
    height: Option<real>,
    layer: Option<int>,
    frame: Option<int>,
    fixed: Option<bool>,
    visible: Option<bool>,
    sizeRelative: Option<bool>,
    onTick: Option<TickHook>)

  /** `data` left undefined. */
  const NoData := ElementData(None, None, None, None, None, None, None, None, None, None, None)

  function Pick<T>(o: Option<T>, d: T): T {
    if o.Some? then o.value else d
  }

  /** The entry `add_element` builds: the positional arguments, then
      `fixed: false, visible: true, size_relative: false`, then `data`. */
  function NewEntry(name: string, x: real, y: real, width: real, height: real,
                    layer: int, frame: int, data: ElementData): (r: Entry)
    ensures r.Elem? && r.onTick == data.onTick
    ensures r.el.name == (if data.name.Some? then data.name.value else name)
    ensures r.el.x == (if data.x.Some? then data.x.value else x)
    ensures r.el.y == (if data.y.Some? then data.y.value else y)
    ensures r.el.width == (if data.width.Some? then data.width.value else width)
    ensures r.el.height == (if data.height.Some? then data.height.value else height)
    ensures r.el.layer == (if data.layer.Some? then data.layer.value else layer)
    ensures r.el.frame == (if data.frame.Some? then data.frame.value else frame)
    ensures r.el.fixed <==> data.fixed == Some(true)
    ensures r.el.visible <==> data.visible != Some(false)
    ensures r.el.sizeRelative <==> data.sizeRelative == Some(true)
  {
    Elem(Element(
      Pick(data.name, name), Pick(data.x, x), Pick(data.y, y),
      Pick(data.width, width), Pick(data.height, height),
      Pick(data.layer, layer), Pick(data.frame, frame),
      Pick(data.fixed, false), Pick(data.visible, true), Pick(data.sizeRelative, false)),
      data.onTick)
  }

  /** A registered sprite set: its frames and the hooks and settings its
      registration data may carry. `hasOnTick` says whether it declares a
      scene-level `ontick`; `elementOnTick` is `element.ontick`, the
      template run on every element that names this set. */
  datatype SpriteSet = SpriteSet(
    name: string,
    frames: seq<Image>,
    compositeOperation: Option<string>,
    onBeforeDraw: Option<Element -> Element>,
    elementOnTick: Option<TickHook>,
    hasOnTick: bool)

  /** The registration data handed to `GameObject.new`: the set's name
      followed by whatever the content declared. */
  datatype SpriteData = SpriteData(
    name: string,
    frames: Option<seq<Image>>,
    compositeOperation: Option<string>,
    onBeforeDraw: Option<Element -> Element>,
    elementOnTick: Option<TickHook>,
    hasOnTick: bool)

  /** `GameObject.new(frames, data)`: `frames`, then `data` on top. */
  function New(frames: seq<Image>, data: SpriteData): (s: SpriteSet)
    ensures s.name == data.name
    ensures s.frames == Pick(data.frames, frames)
    ensures s.compositeOperation == data.compositeOperation
    ensures s.onBeforeDraw == data.onBeforeDraw && s.elementOnTick == data.elementOnTick
    ensures s.hasOnTick == data.hasOnTick
  {
    SpriteSet(data.name, Pick(data.frames, frames), data.compositeOperation,
              data.onBeforeDraw, data.elementOnTick, data.hasOnTick)
  }

  /** `GameObject.draw`: blit `frames[frame]` into `dest` when that frame
      exists; otherwise do nothing. */
  function Draw(s: SpriteSet, dest: Rect, layer: nat, frame: int): (cmds: seq<Cmd>)
    ensures |cmds| <= 1
    ensures |cmds| == 1 <==> 0 <= frame < |s.frames|
    ensures cmds != [] ==> cmds[0] == DrawImage(layer, s.frames[frame], dest)
  {
    match Get(s.frames, frame)
    case Some(image) => [DrawImage(layer, image, dest)]
    case None => []
  }
}

/** The host's drawing surfaces as plain values. A layer is a canvas: its
    backing size (`width`, `height`) is what the engine writes, its displayed
    size (`clientWidth`, `clientHeight`) is what the page layout gives it.
    A context keeps the state the engine assigns to it; every call the engine
    makes on a context is recorded as one `Cmd`. */
module Canvas {
  import opened JsArrays

  /** An image handle; the engine only ever passes it on to `drawImage`. */
  datatype Image = Image(src: string)

  datatype Layer = Layer(width: nat, height: nat, clientWidth: nat, clientHeight: nat)

  /** Rendering-context state: `globalCompositeOperation`, `fillStyle`, the
      (vendor-prefixed, always set together) image-smoothing flags, and the
      `width`/`height` the resize code mirrors onto the context object. */
  datatype Context = Context(
    composite: string,
    fillStyle: string,
    smoothing: bool,
    mirroredSize: Option<(nat, nat)>)

  /** A freshly acquired 2D context. */
  const FreshContext := Context("source-over", "#000000", true, None)

  datatype Rect = Rect(x: real, y: real, w: real, h: real)

  /** The whole backing area of a layer, `(0, 0, width, height)`. */
  function Full(layer: Layer): Rect {
    Rect(0.0, 0.0, layer.width as real, layer.height as real)
  }

  /** One call on (or assignment to) the context of layer `layer`. */
  datatype Cmd =
    | ClearRect(layer: nat, area: Rect)
    | SetFillStyle(layer: nat, color: string)
    | FillRect(layer: nat, area: Rect)
    | SetComposite(layer: nat, mode: string)
    | DrawImage(layer: nat, image: Image, dest: Rect)
}

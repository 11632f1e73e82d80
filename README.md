# Multilayered web rendering engine — Dafny model

This project models the core of a small browser game engine, found in
`js/main.js`. The engine has three parts:

- A **game manager** owns a stack of canvas layers, one 2D context per layer, the registered scenes and a tick counter.
- A **scene** holds a registry of sprite sets ("game objects"), an ordered element list, a camera (`vx`, `vy`, `scale`) and per-layer background colours and composite modes.
- A **sprite set** blits one of its frames into a rectangle of a layer.

Every canvas call the engine makes is recorded as a `Cmd` value: clear, fill
style, fill, composite mode or image blit. A context is the state the engine
assigns to it. Hooks supplied by content become Dafny functions:

- `onbeforedraw` is `Element -> Element`;
- `ontick` and `element.ontick` are `(int, Element) -> Element`.

The element is passed explicitly instead of being bound to `this`.

The stateful parts are Dafny classes whose methods loop as the source does:

- `Scenes.Scene` has `add_element`, `draw` and `tick`.
- `Engine.GameManager` has the constructor, `frame`, `tick` and `set_interpolation`.

Each method is proved against a specification function in `Render`, `Ticking`, `Scenes` or `Engine`. The lemmas state the properties of those functions:

- the background layout;
- culling is exactly overlap;
- fixed placement ignores the camera;
- inert entries change nothing;
- the scene-level tick visits only array-index keys, in order;
- the tick counter delivers `c+1 .. c+k`;
- the resize check is all-or-nothing.

Modules and files:

| file | module | contents |
|---|---|---|
| jsarrays.dfy | JsArrays | undefined-on-miss reads, `\|\|` on strings, `splice` for `Array.prototype.insert`, array-index keys and `length` |
| canvas.dfy | Canvas | layers, contexts, rectangles, recorded calls |
| gameobjects.dfy | GameObjects | elements, entries, sprite sets, `GameObject.new`, `GameObject.draw` |
| render.dfy | Render | the draw pass as functions, and its properties |
| ticking.dfy | Ticking | the tick pass as functions, and its properties |
| scenes.dfy | Scenes | `add_element` as a function; the `Scene` class |
| engine.dfy | Engine | resize resynchronisation, tick arguments; the `GameManager` class |
| content.dfy | Content | the demo page's lamp template and a two-layer star, as checks of the model |

Points where the model follows the code rather than its comments:

- **Element list entries.** On the default path and on the `index == 0` path, `add_element` pushes two entries: the number `index`, then the element. It then returns `elements[index]`, which is that number or an older entry. The model keeps this behaviour (an entry is `Marker(int)` or an element).
- **Resize check.** `frame()` compares only layer 0's backing and displayed sizes (js/main.js:59), so another layer that has drifted on its own is not resynchronised; `Engine.LaterLayerCanStayDrifted` shows it.
- **Context reset on resize.** Assigning a canvas's `width` or `height` resets its 2D context to the default state (HTML Living Standard, section 4.12.5): composite `"source-over"`, fill `"#000000"`, smoothing on. That is why `frame()` calls `set_interpolation()` again. The model applies the reset to every context of a resized frame (`Engine.Reset`); the `width`/`height` the code copies onto the context object are ordinary properties and survive it.
- **Composite fallback.** A fixed element's composite-mode fallback ends in the literal `"normal"`, and the model uses that string.
- **Missing layer.** An element whose layer does not exist makes `get_layer`/`get_context` return undefined, and the draw callback then throws a TypeError. The model ends the pass there with `completed == false`. The hook's change and every call made up to that point are kept.
- **Missing scene or layer in `frame()`.** When there is no active scene or no layer, `frame()` throws in the same way; the model again reports `completed == false`.

## Model

| member | source | states |
|---|---|---|
| JsArrays.Insert | js/main.js:252-256 | `insert(index, item)` is `splice(index, 0, item)`. Entries before the clamped start are kept, the items follow, and the old suffix is shifted past them. |
| JsArrays.SpliceStart | js/main.js:253 | The start position `splice` uses. A negative index counts from the end, clamped at 0, and an index past the end is clamped to the length. |
| JsArrays.InsertThenRemove | js/main.js:252-256 | Taking the inserted items back out of the result gives the original array, so insertion is a pure splice. |
| JsArrays.OrElse | js/main.js:196 | `a \|\| b` on a string slot gives `a` when it is present and non-empty, and `b` otherwise. |
| JsArrays.DecimalCanonical | js/main.js:240 | The decimal key of `k` is canonical and parses back to `k`, so array-index keys and numbers match one to one. |
| JsArrays.CanonicalRoundTrip | js/main.js:240 | Every canonical decimal key is the decimal text of its value. |
| JsArrays.ArrayLengthUnique | js/main.js:240 | An array's key set determines at most one `length`. |
| JsArrays.ArrayLength | js/main.js:240 | The `length` the runtime keeps for the registry array that `forEach` reads: one past the largest index key, or 0. The source has no such loop; the method only derives the value from the key set. |
| GameObjects.NewEntry | js/main.js:161-172 | Each of name, x, y, width, height, layer and frame is `data`'s value when `data` has that property, and the positional argument otherwise, field by field. The flags default to `fixed: false, visible: true, size_relative: false` unless `data` sets them. The element's own `ontick` is `data`'s. |
| GameObjects.New | js/main.js:105-109 | The sprite set gets `frames` from the argument unless `data` overrides it, and every other property from `data`. |
| GameObjects.Draw | js/main.js:111-119 | At most one call. A blit happens exactly when `0 <= frame < \|frames\|`, and it draws `frames[frame]` into the requested rectangle, so empty frames means no call. |
| Render.LayerBackground | js/main.js:193-201 | One layer's background calls: clear the full backing area, set the fill to the background (else `"black"`), fill the same area, and set the composite mode only when the configured one is truthy. |
| Render.BackgroundLayout | js/main.js:193-201 | In the whole background pass, layer `id`'s calls appear as one contiguous block, in layer order. |
| Render.PaintContexts | js/main.js:193-201 | After the background pass, context `i` has fill style `backgrounds[i]` (else `"black"`) and composite mode `composite_operations[i]` when that is truthy; otherwise its mode is unchanged, and smoothing and mirrored size are untouched. |
| Render.BackgroundCmds | js/main.js:193-201 | The background calls for layers `0 .. k-1` target only those layers, and none of them is a blit. |
| Render.FixedRect | js/main.js:211-214 | A fixed element is placed at its own `(x, y)` in screen space; unless it is size-relative, its size is its own. |
| Render.ScrollRect | js/main.js:220-223 | The camera's affine transform of a scrolling element. With the camera at the origin and scale 1 the rectangle is the element's own; at scale 1 the size is kept. |
| Render.OnScreen | js/main.js:224 | The culling test: a rectangle wholly right of, below, left of or above the layer is not drawn (exactness proved by `Render.OnScreenIffOverlap`). |
| Render.OnScreenIffOverlap | js/main.js:224 | For positive sizes, the strict culling test passes exactly when the rectangle and the layer share an interior point. |
| Render.ScrollRectTranslates | js/main.js:220-223 | Moving the camera by `(dx, dy)` moves a scrolling element's rectangle by `(-dx·scale, -dy·scale)` and leaves its size alone. |
| Render.CompositeFor | js/main.js:209 | A fixed element's composite mode is the sprite set's `composite_operation`, else the layer's configured mode, else `"normal"`. A truthy value always wins, and the result is never empty. |
| Render.DrawEntry | js/main.js:203-236 | One element step keeps one context per layer. What the step does is stated by the placement lemmas below. |
| Render.DrawEntries | js/main.js:203-236 | The element pass keeps one context per layer and one entry per entry. |
| Render.ScenePass | js/main.js:192-237 | A whole draw begins with every layer's background calls, and the rest of its calls are those of the element pass run from the painted contexts. |
| Render.BackgroundsComeFirst | js/main.js:192-237 | No element is blitted before every layer's background has been painted: none of the first calls of a draw, the background ones, is a blit. |
| Render.InertEntry | js/main.js:204 | An entry naming no registered set (every marker included) is left as it is, gets no hook call, makes no call, and changes no context. |
| Render.DrawEntriesCons | js/main.js:203 | The element pass runs in list order. The first entry's step happens first, and the rest of the pass starts from the contexts it left; if the step faults, the rest is not drawn. |
| Render.InertEntryIsInvisible | js/main.js:203-204 | Removing an inert entry from anywhere in the list leaves the calls, the contexts and the outcome of the pass unchanged; the other entries are affected exactly as before. |
| Render.InertEntriesUnchanged | js/main.js:203-204 | The pass never changes an inert entry in place. |
| Render.FixedPlacement | js/main.js:205-217 | After `onbeforedraw`, a fixed element sets its context's composite mode by the fallback chain. It is blitted at `(x, y, w·(relative ? clientWidth : 1), h·(relative ? clientHeight : 1))`, and the camera makes no difference. |
| Render.ScrollingPlacement | js/main.js:205-233 | After `onbeforedraw` (which runs even when the element is culled), a scrolling element is blitted at `((x−vx)·s, (y−vy)·s, w·s, h·s)` exactly when the culling test passes. Composite modes are left as they were. |
| Render.MissingLayerStops | js/main.js:205-207 | An element whose layer does not exist stops the pass before anything is drawn for it, and its hook's change stays. |
| Ticking.TickEntry | js/main.js:243-248 | A marker is untouched, and an element keeps its own hook. |
| Ticking.TickEntryOrder | js/main.js:244-246 | With neither hook the element is unchanged; with only a template it is `template(n, e)`; with its own `ontick`, that hook runs first and the template that follows is the one of the name the hook left, applied to the element as the hook left it. |
| Ticking.TickEntries | js/main.js:243-248 | `elements.forEach` ticks each entry in place with the same `n`: the list keeps its length, every marker stays where it was, and every element keeps its own hook. |
| Ticking.ObjectTicks | js/main.js:240-242 | The names whose scene-level `ontick` runs, in run order: array indices, each once, in increasing order (membership characterised by `Ticking.ObjectTicksExactly`). |
| Ticking.ObjectTicksStopAtLength | js/main.js:240 | `forEach` up to the array's `length` visits the same keys as every index up to the largest array index. |
| Ticking.ObjectTicksExactly | js/main.js:240-242 | A sprite set's scene-level `ontick` runs exactly when the set is stored under an array-index key and has one. Sets stored under names never run. |
| Ticking.ObjectTicksAscending | js/main.js:240-242 | The visited keys are array indices in strictly increasing order, so each runs once. |
| Scenes.AddEntry | js/main.js:159-190 | On the default path and the `index == 0` path the list grows by exactly 2. The old entries are kept, followed by `Marker(index)` and the element, and the value returned is that marker or the old first entry. For `0 < index < length` the result is `old[..index] + [e] + old[index..]` and the element itself is returned. A larger index appends. A negative index inserts at `length + index` (clamped at 0). In both of those cases undefined is returned. |
| Scenes.ContinuesStep | js/main.js:203 | The element pass advances by one entry: either it continues from the step's contexts, or it ends at a faulting step. |
| Scenes.Scene.constructor | js/main.js:123-133 | A fresh scene has an empty list, camera `(0, 0)`, scale 1 and no backgrounds or composite modes, unless `data` sets them. |
| Scenes.Scene.AddElement | js/main.js:159-190 | The element list and the returned value are those of `AddEntry`, and the other fields are unchanged. |
| Scenes.Scene.PaintBackgroundAt | js/main.js:193-201 | One background callback makes exactly that layer's background calls and changes only that layer's context. |
| Scenes.Scene.PaintBackgrounds | js/main.js:193-201 | The background loop makes every layer's calls in order and leaves every context painted. |
| Scenes.Scene.DrawElementAt | js/main.js:203-236 | One element callback does exactly one `DrawEntry` step on the live contexts and entry. |
| Scenes.Scene.DrawElements | js/main.js:203-236 | The element loop leaves the contexts, entries, calls and outcome of `DrawEntries`. |
| Scenes.Scene.Draw | js/main.js:192-237 | `draw()` leaves the contexts, entries, calls and outcome of `ScenePass`, and leaves the scene's settings alone. |
| Scenes.Scene.TickObjects | js/main.js:240-242 | The scene-level loop runs exactly the hooks `ObjectTicks` names, in that order. |
| Scenes.Scene.TickElementAt | js/main.js:243-248 | One tick callback replaces entry `i` by its `TickEntry` and touches nothing else. |
| Scenes.Scene.Tick | js/main.js:239-249 | `tick(n)` runs the scene-level hooks and leaves the element list equal to `TickEntries(objects, n, old list)`. |
| Engine.Synced | js/main.js:19-22 | Synchronising a layer makes its backing size equal its displayed size, and leaves a layer that has not drifted unchanged. |
| Engine.Reset | js/main.js:61-62 | Assigning the canvas's size resets its context's composite mode to `"source-over"`, its fill style to `"#000000"` and smoothing to on, and keeps the mirrored size. |
| Engine.ResyncLayers | js/main.js:59-63 | The layers after the resize check: all synchronised when layer 0 has drifted, none otherwise (properties in `Engine.ResyncAllOrNothing`). |
| Engine.ResyncContexts | js/main.js:59-64 | When layer 0 has not drifted the contexts are unchanged. When it has, every context is back to its default composite mode and fill style, smoothing is off, and its layer's displayed size is mirrored onto it. |
| Engine.ResyncAllOrNothing | js/main.js:59-63 | If layer 0 has drifted, every layer is synchronised. If it has not, no layer changes. Displayed sizes are never changed. |
| Engine.ResyncSettles | js/main.js:59-65 | After a frame, layer 0 no longer drifts, so a second frame with the same page layout resizes nothing. |
| Engine.LaterLayerCanStayDrifted | js/main.js:59 | A layer other than 0 can stay drifted across a frame, because only layer 0 is checked. |
| Engine.TickArgs | js/main.js:85-92 | `k` looping ticks from a counter at `c` hand the active scene exactly `k` values (their values and order in `Engine.TickArgsCount`). |
| Engine.TickArgsCount | js/main.js:85-92 | `k` looping ticks from count `c` hand the scene `c+1, …, c+k` in order, so `1 .. N` from a fresh manager. |
| Engine.TickedTimesKeepsMarkers | js/main.js:243-248 | A marker entry survives any number of ticks unchanged. |
| Engine.GameManager.constructor | js/main.js:2-36 | After `init`: one fresh context per layer, every layer synchronised, smoothing off, no scenes, active scene 0, tick rate 100, count 0. |
| Engine.GameManager.RegisterScene | js/main.js:38-40 | The scene is appended and gets the next id. Earlier ids are unchanged. |
| Engine.GameManager.GetScene | js/main.js:42-44 | Scene `id` (default: the active one) when in range, and undefined otherwise. |
| Engine.GameManager.GetContext | js/main.js:46-48 | Context `id` when in range, and undefined otherwise. |
| Engine.GameManager.GetLayer | js/main.js:50-52 | Layer `id` when in range, and undefined otherwise. |
| Engine.GameManager.SetInterpolation | js/main.js:94-101 | Image smoothing is off on every context, and nothing else changes. |
| Engine.GameManager.Resync | js/main.js:59-65 | The layers and contexts after the resize check are `ResyncLayers` and `ResyncContexts`: only when layer 0 drifted, every layer is synchronised and every context is reset, has its size mirrored and smoothing off. |
| Engine.GameManager.Frame | js/main.js:58-68 | No layers, or no active scene, means a fault with no calls. Otherwise the resize check runs, then the active scene's `ScenePass` over the resynchronised layers and contexts. Every scene keeps its settings, and only the active scene's list can change. |
| Engine.GameManager.Tick | js/main.js:85-92 | While looping, the count goes up by exactly 1, and the active scene (only if it exists) is ticked with the new count. When not looping, nothing changes. The delivered values stay strictly increasing. |
| Engine.GameManager.TickTimes | js/main.js:85-92 | `k` ticks while looping raise the count by `k` and deliver `TickArgs(c, k)` to the active scene, whose list is ticked that many times in order. When not looping, the count, the delivered values and every scene's list stay. Every scene keeps its settings, and only the active scene's list can change. |
| Content.LampFrame | index.js:39-43 | The lamp template keeps a lit frame (1..3) within 1..3 and leaves any other frame unchanged. |
| Content.LampFrameCovers | index.js:39-43 | Every lit frame can follow any lit frame. |
| Content.LampTick | index.js:29-46 | Ticking a lamp element runs the template as its set's `element.ontick` (the per-element hook of `Scene.tick`); only the frame changes. |
| Content.LampNeverTicksAtSceneLevel | js/main.js:240-242 | A set stored under the name "lamp" is never visited by the scene-level pass. |
| Content.StarEntriesAre | index.js:99-100 | Two default `add_element` calls give the list `[0, star, 2, star]`. |
| Content.StarStep | js/main.js:219-233 | A star at `(10, 5)`, 32×32, at scale 4 is blitted at `(40, 20, 128, 128)` on its own layer. |
| Content.StarOnBothLayers | index.js:99-100 | Two stars at the same place, on layers 0 and 1 with frames 0 and 1, give exactly one blit per layer, each with its own frame, whatever state the contexts are in. |

## Left out

- Canvas and DOM acquisition are not modelled; the layers' displayed sizes are inputs. This covers `getContext`, `document.getElementById` and `requestAnimationFrame` selection.
- `init`'s configuration merging (`Object.assign(this, data)`) is not modelled, except for `looping`, which the demo page passes. The `if (rlayers)` re-initialisation path is not modelled either.
- `client_supports_mix_blend_mode` is left out because it is a host query.
- The `requestAnimationFrame` loop and its fps estimate are left out. They are an external scheduler plus floating-point timing and a DOM write. The fixed-period tick timer that calls `tick()` is external too; `Engine.GameManager.TickTimes` stands for `k` of its calls.
- The draw-timing `console.log` in `GameObject.draw` is wall-clock I/O and is left out.
- `Scene.register_objects` (asynchronous `Image` loading and Promise aggregation) is left out. The sprite-set registry is given as a map from name to set.
- `Scene.new` mutates and returns the one shared `Scene` object. The model builds a fresh scene and does not reproduce that aliasing.
- `add_element` returns a reference to the stored element. The model returns the entry's value, so later changes through that reference are not modelled.
- The `visible` flag is written and never read by `draw`, and the model does the same.
- Scene-level `ontick` hooks act on content state outside the engine, so only which ones run, and in what order, is modelled (`Scenes.Scene.TickObjects` returns their keys).
- A hook that replaces itself, or replaces hooks on other objects, is not modelled. Hooks are fixed functions of the element.
- An entry's own `ontick` cannot be changed by its own hooks in the model.
- A hook that throws is not modelled.
- The draw pass looks up markers (numbers) under the key `"undefined"`; a sprite set registered under that name, or under a key inherited from `Array.prototype`, is not modelled. Markers are treated as naming no set.
- Floating-point rounding is not modelled: coordinates and scale are exact reals, and the tick counter is an unbounded integer.
- The browser ignores `"normal"`, which is not a valid `globalCompositeOperation` value, and keeps the previous mode. The model records the assignment as made.
- `Math.random()` in the lamp template is a parameter in `[0, 1)`. The star positions the demo page randomises are replaced by fixed values.
- Omitted `layer`/`frame` arguments default to 0, as in `add_element`'s signature; callers of `Scenes.Scene.AddElement` pass them explicitly.
- Render.DrawEntry: its own contract only keeps one context per layer. What a step does is stated by `Render.InertEntry`, `Render.FixedPlacement`, `Render.ScrollingPlacement` and `Render.MissingLayerStops`.
- Render.DrawEntries: its own contract only keeps lengths. Its behaviour is stated by `Render.DrawEntriesCons`, `Render.InertEntryIsInvisible` and the methods proved against it.

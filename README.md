# DuckyJS engine core: layering and hit-testing

A model in Dafny of the layering and hit-testing core of the DuckyJS engine
(`engine.js`), with proofs about it.

- The `Game` singleton holds the current scene, the mouse snapshot, the shared layer
  counter `Game.currentLayer` and the list of held keys.
- A `Scene` keeps its game objects in creation order.
- A `GameObject` has a box, a `drawn` flag and a `drawLayer`. It registers itself with
  its scene when constructed. `LeftClicked` tells whether it took a left click, `draw`
  bumps the counter, and `destroy` removes it from its scene and decrements the counter.

Modules:

- `JsArray` (`js_array.dfy`): the array built-ins the code uses (`indexOf`,
  `splice(i, 1)`) on sequences, and the lemmas that keep a list duplicate-free.
- `Geometry` (`geometry.dfy`): the two box tests as pure predicates on a `Box` value.
  One is the strict overlap test of `Game.CheckCollision`; the other is the inclusive
  point test of `Game.PointInGO`. Their lemmas cover the edge conventions.
- `Engine` (`engine.dfy`): the classes `Game`, `Scene` and `GameObject`, their methods,
  and the keyboard events as a pure step function `KeyStep` that the handlers are proved
  against. `GameObject.LeftClicked` is the descending loop of engine.js:125-137, with
  `continue`, `break` and early `return`. It is proved equal to `WasLeftClicked`, a declarative
  statement of the same test: no object that the scan reaches before it stops hides the
  click.
- `Scenarios` (`scenarios.dfy`): concrete situations. These are the edge examples, the
  stacked and separated click cases, a case where creation order and draw order
  disagree, and a walk through draws and destroys on the shared counter.

How JavaScript values are modelled:

- `null` (the initial `drawLayer`, `Mouse.x` and `Mouse.y`) is `Nullable.Null`.
- In a `<=` or `>=` comparison `null` counts as 0 (functions `Coordinate` and `Layer`).
- The `undefined` that `CheckCollision` falls through to is `Option.None`. Callers
  treat it as false.
- Coordinates are exact `real`s.

Behaviour of the code that is easy to misread:

- `draw` (engine.js:153): the `if (!this.drawn)` guards only `this.drawn = true`. So
  every draw of a member bumps the counter and moves the object to the new layer, not
  only the first one. `Scenarios.LayerCounterScenario` shows that a redraw moves an
  object from layer 1 to layer 4.
- A box of size 0 by 0 strictly inside another does overlap it under the strict test
  (`Geometry.ZeroSizeBoxInsideOverlaps`). A zero-size box also contains its own corner
  (`Geometry.ZeroSizeContainsOnlyItsCorner`).
- A missing pointer position does not make the point test false. `null` coordinates
  count as the origin (`Engine.AbsentPointerIsOrigin`).

## Model

| member | source | states |
|---|---|---|
| `JsArray.IndexOf` | engine.js:161 | the first index holding the element, -1 exactly when it is absent, and no earlier occurrence |
| `JsArray.RemoveAt` | engine.js:162 | one element fewer; re-inserting the removed element at its index gives back the original list, so the others keep their order |
| `Geometry.Overlaps` | engine.js:78-83 | the strict overlap test of two boxes; overlap needs positive combined width and height, so two 0 by 0 boxes never overlap; edge facts in `Geometry.TouchingBoxesDoNotOverlap`, `Geometry.OverlapsIffSharedInterior` and `Geometry.ZeroSizeBoxInsideOverlaps` |
| `Geometry.Contains` | engine.js:88-93 | the closed-rectangle point test; a box of negative width or height contains no point; edge facts in `Geometry.CornersContained` and `Geometry.ZeroSizeContainsOnlyItsCorner` |
| `Geometry.OverlapsSymmetric` | engine.js:78-83 | the overlap test gives the same answer with its arguments swapped |
| `Geometry.TouchingBoxesDoNotOverlap` | engine.js:78-83 | boxes that meet only along an edge, on either axis, do not overlap |
| `Geometry.OverlapsIffSharedInterior` | engine.js:78-83 | for boxes of positive size, overlap holds exactly when the open rectangles share a point (both directions) |
| `Geometry.ZeroSizeBoxInsideOverlaps` | engine.js:78-83 | a zero-size box strictly inside another overlaps it both ways, though no interior point is shared |
| `Geometry.CornersContained` | engine.js:88-93 | for a box of non-negative size, all four corners are inside |
| `Geometry.ZeroSizeContainsOnlyItsCorner` | engine.js:88-93 | a zero-size box contains exactly its own corner point |
| `Geometry.SharedEdgePointInBoth` | engine.js:78-93 | a point on the shared edge of two touching boxes is in both, yet the boxes do not overlap |
| `Engine.Coordinate` | engine.js:89-92 | a numeric coordinate is itself, and `null` compares like 0 (the result is 0 exactly for `null` and for 0) |
| `Engine.Layer` | engine.js:129 | a numeric layer is itself, and a never-drawn object's `null` layer compares like layer 0 (the result is 0 exactly for `null` and for 0) |
| `Engine.KeyStep` | engine.js:6-17 | one key event keeps the held list duplicate-free; afterwards the event's key is held iff the event was a keydown, and every other key is as before |
| `Engine.ReplayTracksLastEvent` | engine.js:6-17 | after any run of key events from an empty list, the list has no duplicates and holds a key iff the last event about it was a keydown |
| `Engine.Game.KeyDown` | engine.js:64-66 | a key is reported held exactly when `indexOf` finds it in the held list, the case in which keyup splices it out; its meaning over event histories is `Engine.KeyDownReflectsHistory` |
| `Engine.KeyDownReflectsHistory` | engine.js:64-66 | `KeyDown(k)` is true iff the last event about `k` was a keydown, whenever the list is the one the handlers built |
| `Engine.Game.constructor` | engine.js:58-74 | initial state: no scene, null pointer position, button up, counter 0 (the literal at lines 58-74), and no key held (the empty `keysDown` list comes from engine.js:4) |
| `Engine.Game.SetScene` | engine.js:60-62 | the given scene, or `null` for none, becomes the current scene |
| `Engine.Game.OnKeyDown` | engine.js:6-10 | the list becomes `KeyStep` of the keydown; the key is held afterwards; no duplicates is preserved |
| `Engine.Game.OnKeyUp` | engine.js:12-17 | the list becomes `KeyStep` of the keyup; with no duplicates before, the key is no longer held and no duplicates is preserved |
| `Engine.Game.OnMouseDown` | engine.js:19-21 | the button is down; the pointer position is unchanged |
| `Engine.Game.OnMouseUp` | engine.js:23-25 | the button is up; the pointer position is unchanged |
| `Engine.Game.OnMouseMove` | engine.js:41-42 | the pointer takes the given world coordinates; the button state is unchanged |
| `Engine.Game.CheckCollision` | engine.js:76-85 | an answer exists iff both objects are members of the current scene, and that answer is the strict overlap of their boxes |
| `Engine.CollisionSymmetric` | engine.js:76-85 | `CheckCollision(a, b) == CheckCollision(b, a)`, including the no-answer case |
| `Engine.Game.PointInGO` | engine.js:87-94 | for a numeric point, the closed-rectangle test `Geometry.Contains` on the object's box; for a `null` point, the same test at the origin; never true for a box of negative size |
| `Engine.AbsentPointerIsOrigin` | engine.js:87-94 | with a null pointer position, the point test asks whether the box contains (0, 0) |
| `Engine.Scene.constructor` | engine.js:97-103 | not paused, with no objects and no UI roots |
| `Engine.GameObject.constructor` | engine.js:111-141 | position and size 0, not drawn, null layer; appended at the end of its scene's list; the scene's invariant (no duplicates, every member belongs to it) is kept |
| `Engine.GameObject.LeftClicked` | engine.js:122-138 | true iff the pointer is in the object, the button is down, and no other object above the highest stopping index collides and holds the pointer; false whenever the pointer is outside or the button is up |
| `Engine.ScanIsTopmostWhenLayeredInOrder` | engine.js:125-137 | when layers never fall along creation order (equal layers allowed, so never-drawn objects and a reused layer are covered), a click is taken iff no object drawn strictly above this one collides with it and holds the pointer |
| `Engine.GameObject.Draw` | engine.js:143-154 | a non-member changes nothing; every draw of a member sets `drawn`, adds exactly 1 to the counter and takes the new value as its layer |
| `Engine.GameObject.Destroy` | engine.js:156-165 | a member is removed at its first index with the others in order, and the counter drops by exactly 1; a non-member changes nothing; under the scene invariant the object is gone and nothing else is |
| `Scenarios.EdgeAndOneUnitOverlap` | engine.js:78-83 | (0,0,10,10) and (10,0,10,10) do not overlap; (0,0,10,10) and (9,0,10,10) do |
| `Scenarios.FarCornerContained` | engine.js:88-93 | (10,10) is in box (0,0,10,10); (10.0001,10) is not |
| `Scenarios.OcclusionScenario` | engine.js:122-138 | O1 (0,0,50,50) at layer 1 under O2 (25,25,50,50) at layer 2, pointer down at (30,30): O1 is not clicked, O2 is |
| `Scenarios.ApartScenario` | engine.js:122-138 | the same with O2 at (200,200,50,50): O1 is clicked |
| `Scenarios.ScanStopsBeforeHigherLayer` | engine.js:125-137 | creation order [t, h, l] with layers 2, 3, 1: `h` hides `t` and is drawn above it, yet `t` is reported clicked because the scan stops at `l` |
| `Scenarios.BuildStackedPair` | engine.js:111-154 | two objects built through the constructor, field writes, `draw` and the mouse handlers reach the stacked situation with layers 1 and 2 |
| `Scenarios.ClickScenario` | engine.js:122-138 | in that built situation `LeftClicked` returns false for the lower object and true for the upper one |
| `Scenarios.DrawThree` | engine.js:153 | three objects drawn in turn get layers 1, 2 and 3, and the counter ends at 3 |
| `Scenarios.LayerCounterScenario` | engine.js:143-165 | after the middle one is destroyed, a new object drawn gets layer 3 again, the same as the third; a second destroy leaves the counter alone; redrawing the first object moves it to layer 4 |
| `Scenarios.DestroyUndrawn` | engine.js:156-165 | destroying an object that was never drawn still drops the counter, to -1 |

## Left out

- Canvas painting is not modelled: `drawImage`, `globalAlpha`, `fillRect`, `fillText`,
  `font` and `clearRect` (engine.js:149-151, 206-210, 241-252, 271). Only the
  layer-counter effect of `draw` is kept, and `Draw` takes no texture.
- The defaulting of opacity and flip in `draw` (engine.js:145-147) is not modelled. It
  chooses paint parameters only.
- The mousemove handler's scaling from canvas rectangle to world coordinates and its
  transform inversion (engine.js:27-40) are not modelled. This is floating-point matrix
  math on host objects. `Game.OnMouseMove` takes the world coordinates as inputs.
- The animation-frame loop is not modelled: `Game.Start`, `Game.Stop`, `update` and
  its `delta` (engine.js:46-56, 264-283). This is host scheduling and float timing.
- `Scene.Update` (engine.js:105) is not modelled. It is an empty hook that the frame loop calls.
- `ScreenGUI`, `UI.Frame` and `UI.TextLabel` (engine.js:168-262) are not modelled. They
  only paint and recurse into children. `Scene.ui` holds the UI roots as opaque objects.
- The module-level `let currentLayer = 0` (engine.js:108) is not modelled. It is never
  used; the live counter is `Game.currentLayer`.
- Registering the event listeners (engine.js:6, 12, 19, 23, 27) is not modelled. The
  handler bodies are plain methods of `Game`.
- `keysDown` is a module-level variable in the source. Here it is a field of `Game`, so
  that the handlers and `KeyDown` share one owner.
- Floating point is not modelled. Coordinates are exact reals, so rounding in
  `x + width` is not represented.
- Field types are fixed: coordinates are numbers, and a layer is null or an integer.
  Values such as `undefined` or `NaN` in those fields are not represented.
- Reassigning a game object's `Scene` property after construction is not modelled.
  `GameObject.scene` is a constant, so `this.Scene` (used by `draw` and `destroy`) and
  the `_Scene` captured by `LeftClicked` are the same scene.
- Engine.GameObject.Draw: the contract assumes the paint call at engine.js:150 returns
  normally. In the source `ctx.drawImage` throws a TypeError when the texture is not an
  image (for example `undefined`), and then line 153 never runs, so `drawn`,
  `Game.currentLayer` and `drawLayer` keep their old values; the model does not
  represent that outcome.
- Engine.Game.CheckCollision: requires a current scene. With none, the source throws a
  TypeError, and the model does not represent the throw.
- Engine.GameObject.LeftClicked: requires a current scene. The source dereferences it
  only when the scan reaches `CheckCollision`, so with no scene an early return still
  returns normally there, while the model excludes that case.

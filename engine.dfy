/** The layering and hit-testing core of the engine: the `Game` singleton (current
    scene, mouse snapshot, shared layer counter, held keys), scenes and their object
    lists, and game objects with their click test, `draw` bookkeeping and `destroy`. */
module Engine {
  import opened JsArray
  import opened Geometry

  /** A JavaScript value that is either `null` or a number. */
  datatype Nullable<T> = Null | Val(value: T)

  /** The answer of `Game.CheckCollision`: `None` stands for the `undefined` it falls
      through to, which every caller treats as false. */
  datatype Option<T> = None | Some(value: T)

  /** A `null` coordinate compared with `<=` or `>=` counts as 0: a number is itself,
      and `null` cannot be told apart from 0. */
  function Coordinate(n: Nullable<real>): (c: real)
    ensures n.Val? ==> c == n.value
    ensures c == 0.0 <==> n == Null || n == Val(0.0)
  {
    match n
    case Null => 0.0
    case Val(v) => v
  }

  /** A `null` draw layer compared with `<=` counts as 0: a layer number is itself,
      and `null` cannot be told apart from layer 0. */
  function Layer(n: Nullable<int>): (l: int)
    ensures n.Val? ==> l == n.value
    ensures l == 0 <==> n == Null || n == Val(0)
  {
    match n
    case Null => 0
    case Val(v) => v
  }

  /** `Game.Mouse`: the pointer in world coordinates (`null` before the first move)
      and whether the button is held. */
  datatype Mouse = Mouse(x: Nullable<real>, y: Nullable<real>, down: bool)

  /** `event.key` of a keyboard event. */
  type Key = string

  /** What the keydown and keyup handlers receive. */
  datatype KeyEvent = KeyPressed(key: Key) | KeyReleased(key: Key)

  /** How one keyboard event changes the held-key list: keydown appends a key that is
      not held yet, keyup removes a key that is held. The list stays duplicate-free and
      afterwards holds the event's key exactly when the event was a keydown. */
  function KeyStep(keys: seq<Key>, e: KeyEvent): (r: seq<Key>)
    ensures Distinct(keys) ==> Distinct(r)
    ensures Distinct(keys) ==> forall k :: k in r <==> (if k == e.key then e.KeyPressed? else k in keys)
  {
    match e
    case KeyPressed(k) =>
      if k in keys then keys
      else
        AppendDistinct(keys, k);
        keys + [k]
    case KeyReleased(k) =>
      if k !in keys then keys
      else
        var i := IndexOf(keys, k);
        RemoveAtDistinct(keys, i);
        RemoveAt(keys, i)
  }

  /** The held-key list after a run of keyboard events starting from no key held. */
  function Replay(events: seq<KeyEvent>): seq<Key> {
    if events == [] then [] else KeyStep(Replay(events[..|events| - 1]), events[|events| - 1])
  }

  /** The last event about `k` is a keydown. */
  predicate LastEventPresses(events: seq<KeyEvent>, k: Key) {
    if events == [] then false
    else if events[|events| - 1].key == k then events[|events| - 1].KeyPressed?
    else LastEventPresses(events[..|events| - 1], k)
  }

  /** After any run of events the list has no duplicates, and a key is in it exactly
      when the last event about that key was a keydown. */
  lemma {:induction false} ReplayTracksLastEvent(events: seq<KeyEvent>, k: Key)
    ensures Distinct(Replay(events))
    ensures k in Replay(events) <==> LastEventPresses(events, k)
  {
    if events != [] {
      ReplayTracksLastEvent(events[..|events| - 1], k);
    }
  }

  /** The `Game` object literal. `keysDown` is the module-level list the keyboard
      handlers keep; it sits here so that the handlers and `KeyDown` share one owner. */
  class Game {
    var currentScene: Scene?
    var mouse: Mouse
    var currentLayer: int
    var keysDown: seq<Key>

    /** The held-key list never holds a key twice. */
    ghost predicate Valid()
      reads this
    {
      Distinct(keysDown)
    }

    /** The initial state: no scene, no pointer position, button up, layer counter 0,
        no key held. */
    constructor ()
      ensures currentScene == null && mouse == Mouse(Null, Null, false)
      ensures currentLayer == 0 && keysDown == []
      ensures Valid()
    {
      currentScene := null;
      mouse := Mouse(Null, Null, false);
      currentLayer := 0;
      keysDown := [];
    }

    /** `Game.SetScene`: make `s` the scene collisions are checked against; `null`
        leaves the game with no scene. */
    method SetScene(s: Scene?)
      modifies this`currentScene
      ensures currentScene == s
    {
      currentScene := s;
    }

    /** `Game.KeyDown`: whether `key` is currently held, which is exactly when the keyup
        handler would find it with `indexOf` and splice it out. */
    function KeyDown(key: Key): (held: bool)
      reads this
      ensures held <==> IndexOf(keysDown, key) != -1
    {
      key in keysDown
    }

    /** The keydown handler: a key already held is ignored, any other is appended. */
    method OnKeyDown(key: Key)
      modifies this`keysDown
      ensures keysDown == KeyStep(old(keysDown), KeyPressed(key))
      ensures KeyDown(key)
      ensures old(Valid()) ==> Valid()
    {
      if key in keysDown {
        return;
      }
      keysDown := keysDown + [key];
    }

    /** The keyup handler: a key not held is ignored, a held one is spliced out at the
        index `indexOf` finds. */
    method OnKeyUp(key: Key)
      modifies this`keysDown
      ensures keysDown == KeyStep(old(keysDown), KeyReleased(key))
      ensures old(Valid()) ==> Valid() && !KeyDown(key)
    {
      if key !in keysDown {
        return;
      }
      var index := IndexOf(keysDown, key);
      keysDown := RemoveAt(keysDown, index);
    }

    /** The mousedown handler. */
    method OnMouseDown()
      modifies this`mouse
      ensures mouse == old(mouse).(down := true)
    {
      mouse := mouse.(down := true);
    }

    /** The mouseup handler. */
    method OnMouseUp()
      modifies this`mouse
      ensures mouse == old(mouse).(down := false)
    {
      mouse := mouse.(down := false);
    }

    /** The mousemove handler, from the moment the world coordinates are known. */
    method OnMouseMove(worldX: real, worldY: real)
      modifies this`mouse
      ensures mouse == old(mouse).(x := Val(worldX), y := Val(worldY))
    {
      mouse := mouse.(x := Val(worldX), y := Val(worldY));
    }

    /** `Game.CheckCollision`: an answer only when both objects belong to the current
        scene, and then the overlap test of their boxes. */
    function CheckCollision(a: GameObject, b: GameObject): (r: Option<bool>)
      requires currentScene != null
      reads this, currentScene, a, b
      ensures r.Some? <==> a in currentScene.objects && b in currentScene.objects
      ensures r.Some? ==> (r.value <==> Overlaps(a.Bounds(), b.Bounds()))
    {
      if a in currentScene.objects && b in currentScene.objects then
        Some(Overlaps(a.Bounds(), b.Bounds()))
      else
        None
    }

    /** `Game.PointInGO`: the closed-rectangle test of the point on the object's box,
        a `null` coordinate counting as 0. A box of negative size holds no point. */
    function PointInGO(px: Nullable<real>, py: Nullable<real>, go: GameObject): (inside: bool)
      reads go
      ensures px.Val? && py.Val? ==> (inside <==> Contains(go.Bounds(), px.value, py.value))
      ensures px == Null && py == Null ==> (inside <==> Contains(go.Bounds(), 0.0, 0.0))
      ensures inside ==> go.width >= 0.0 && go.height >= 0.0
    {
      Contains(go.Bounds(), Coordinate(px), Coordinate(py))
    }

    /** Whether the pointer lies in `go`'s box. */
    function MouseIn(go: GameObject): bool
      reads this, go
    {
      PointInGO(mouse.x, mouse.y, go)
    }
  }

  /** Collision does not depend on argument order, members or not. */
  lemma CollisionSymmetric(game: Game, a: GameObject, b: GameObject)
    requires game.currentScene != null
    ensures game.CheckCollision(a, b) == game.CheckCollision(b, a)
  {
    OverlapsSymmetric(a.Bounds(), b.Bounds());
  }

  /** With no pointer position both coordinates count as 0, so an object whose box
      holds the origin contains the absent pointer. */
  lemma AbsentPointerIsOrigin(game: Game, go: GameObject)
    requires game.mouse.x == Null && game.mouse.y == Null
    ensures game.MouseIn(go) <==> Contains(go.Bounds(), 0.0, 0.0)
  {
  }

  /** `KeyDown` agrees with the event history whenever the held-key list is the one the
      handlers built from that history. */
  lemma KeyDownReflectsHistory(game: Game, events: seq<KeyEvent>, k: Key)
    requires game.keysDown == Replay(events)
    ensures game.Valid()
    ensures game.KeyDown(k) <==> LastEventPresses(events, k)
  {
    ReplayTracksLastEvent(events, k);
  }

  /** A scene: its game objects in creation order (not draw order) and its UI roots. */
  class Scene {
    var paused: bool
    var objects: seq<GameObject>
    var ui: seq<object>

    /** Every object appears once and belongs to this scene. */
    ghost predicate Valid()
      reads this
    {
      Distinct(objects) && forall o :: o in objects ==> o.scene == this
    }

    constructor ()
      ensures !paused && objects == [] && ui == []
      ensures Valid()
    {
      paused := false;
      objects := [];
      ui := [];
    }
  }

  /** A game object. `scene` is both `this.Scene` and the `_Scene` that the click test's
      closure captured at construction. */
  class GameObject {
    const scene: Scene
    var x: real
    var y: real
    var width: real
    var height: real
    var drawn: bool
    var drawLayer: Nullable<int>

    /** The constructor: position and size 0, not drawn, no layer, and registered at the
        end of its scene's object list. */
    constructor (s: Scene)
      modifies s`objects
      ensures scene == s
      ensures x == 0.0 && y == 0.0 && width == 0.0 && height == 0.0
      ensures !drawn && drawLayer == Null
      ensures s.objects == old(s.objects) + [this]
      ensures old(s.Valid()) ==> s.Valid()
    {
      scene := s;
      x, y, width, height := 0.0, 0.0, 0.0, 0.0;
      drawn := false;
      drawLayer := Null;
      new;
      AppendDistinct(s.objects, this);
      s.objects := s.objects + [this];
    }

    function Bounds(): Box
      reads this
    {
      Box(x, y, width, height)
    }

    /** The click scan stops at `other`: another object whose layer is at most this one's. */
    ghost predicate StopsScan(other: GameObject)
      reads this, other
    {
      other != this && Layer(other.drawLayer) <= Layer(drawLayer)
    }

    /** `other` hides a click on this object: another object that collides with this one
        and holds the pointer. */
    ghost predicate Occludes(game: Game, other: GameObject)
      requires game.currentScene != null
      reads this, other, game, game.currentScene
    {
      other != this && game.CheckCollision(this, other) == Some(true) && game.MouseIn(other)
    }

    /** The click test as a property of the scene: the pointer is in this object, the
        button is down, and no object that the scan reaches before it stops (an index
        above every stopping index) hides the click. */
    ghost predicate WasLeftClicked(game: Game)
      requires game.currentScene != null
      reads this, scene, scene.objects, game, game.currentScene
    {
      var objs := scene.objects;
      game.MouseIn(this) && game.mouse.down &&
      !exists i :: 0 <= i < |objs| && Occludes(game, objs[i]) &&
                   forall j :: i <= j < |objs| ==> !StopsScan(objs[j])
    }

    /** `LeftClicked`: walk the scene's objects from the last to the first, skip this
        one, stop at the first one drawn at or below this one's layer, and report a miss
        as soon as one that collides also holds the pointer. */
    method LeftClicked(game: Game) returns (clicked: bool)
      requires game.currentScene != null
      ensures clicked <==> WasLeftClicked(game)
      ensures !game.MouseIn(this) || !game.mouse.down ==> !clicked
    {
      if !game.PointInGO(game.mouse.x, game.mouse.y, this) || !game.mouse.down {
        return false;
      }
      var objs := scene.objects;
      var i := |objs| - 1;
      while i >= 0
        invariant -1 <= i < |objs|
        invariant forall j :: i < j < |objs| ==> !StopsScan(objs[j]) && !Occludes(game, objs[j])
      {
        var other := objs[i];
        if other == this {
          i := i - 1;
          continue;
        }
        if Layer(other.drawLayer) <= Layer(drawLayer) {
          break;
        }
        if game.CheckCollision(this, other) != Some(true) {
          i := i - 1;
          continue;
        }
        if game.PointInGO(game.mouse.x, game.mouse.y, other) {
          return false;
        }
        i := i - 1;
      }
      return true;
    }

    /** The layer bookkeeping of `draw` (the painting is not modelled). A non-member is
        left alone. For a member the `if` guards only `drawn = true`, so every call bumps
        the shared counter and takes the new value as this object's layer. */
    method Draw(game: Game)
      modifies this`drawn, this`drawLayer, game`currentLayer
      ensures this in scene.objects ==>
                drawn && game.currentLayer == old(game.currentLayer) + 1 &&
                drawLayer == Val(game.currentLayer)
      ensures this !in scene.objects ==>
                drawn == old(drawn) && drawLayer == old(drawLayer) &&
                game.currentLayer == old(game.currentLayer)
    {
      if this !in scene.objects {
        return;
      }
      if !drawn {
        drawn := true;
      }
      game.currentLayer := game.currentLayer + 1;
      drawLayer := Val(game.currentLayer);
    }

    /** `destroy`: a member is spliced out of its scene's list at the index `indexOf`
        finds and the shared counter drops by one, whatever layer it held; a non-member
        changes nothing. */
    method Destroy(game: Game)
      modifies scene`objects, game`currentLayer
      ensures old(this in scene.objects) ==>
                var i := IndexOf(old(scene.objects), this);
                0 <= i <= |scene.objects| && old(scene.objects) == scene.objects[..i] + [this] + scene.objects[i..] &&
                game.currentLayer == old(game.currentLayer) - 1
      ensures old(this !in scene.objects) ==>
                scene.objects == old(scene.objects) && game.currentLayer == old(game.currentLayer)
      ensures old(scene.Valid()) ==>
                scene.Valid() && this !in scene.objects &&
                forall o :: o in scene.objects <==> o in old(scene.objects) && o != this
    {
      var sceneObjects := scene.objects;
      if this !in sceneObjects {
        return;
      }
      var index := IndexOf(sceneObjects, this);
      RemoveAtDistinct(sceneObjects, index);
      scene.objects := RemoveAt(sceneObjects, index);
      game.currentLayer := game.currentLayer - 1;
    }
  }

  /** A list's layers never fall as the index rises: creation order and draw order
      agree. Objects may share a layer, as never-drawn ones (layer `null`, counting as 0)
      or ones drawn after a destroy let the counter fall back do. */
  ghost predicate LayeredInOrder(objs: seq<GameObject>)
    reads objs
  {
    forall i, j :: 0 <= i < j < |objs| ==> Layer(objs[i].drawLayer) <= Layer(objs[j].drawLayer)
  }

  /** When creation order and draw order agree, the scan answers the question it stands
      for: the click lands unless some object drawn strictly above this one hides it. */
  lemma ScanIsTopmostWhenLayeredInOrder(game: Game, o: GameObject)
    requires game.currentScene != null
    requires LayeredInOrder(o.scene.objects)
    ensures o.WasLeftClicked(game) <==>
              game.MouseIn(o) && game.mouse.down &&
              !exists i :: 0 <= i < |o.scene.objects| && o.Occludes(game, o.scene.objects[i]) &&
                           Layer(o.scene.objects[i].drawLayer) > Layer(o.drawLayer)
  {
    var objs := o.scene.objects;
    forall i | 0 <= i < |objs| && o.Occludes(game, objs[i])
      ensures (forall j :: i <= j < |objs| ==> !o.StopsScan(objs[j])) <==>
              Layer(objs[i].drawLayer) > Layer(o.drawLayer)
    {
      if Layer(objs[i].drawLayer) > Layer(o.drawLayer) {
        forall j | i <= j < |objs|
          ensures !o.StopsScan(objs[j])
        {
          if j > i {
            assert Layer(objs[i].drawLayer) <= Layer(objs[j].drawLayer);
          }
        }
      } else {
        assert o.StopsScan(objs[i]);
      }
    }
  }
}

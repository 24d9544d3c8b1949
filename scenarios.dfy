/** Concrete situations worked through the model: the edge conventions of the two box
    tests, two click situations, a case where creation order and draw order disagree,
    and a run of draws and destroys on the shared layer counter. */
module Scenarios {
  import opened Geometry
  import opened Engine

  /** Boxes (0,0,10,10) and (10,0,10,10) share an edge and do not overlap; moving the
      second one unit left makes them overlap. */
  lemma EdgeAndOneUnitOverlap()
    ensures !Overlaps(Box(0.0, 0.0, 10.0, 10.0), Box(10.0, 0.0, 10.0, 10.0))
    ensures Overlaps(Box(0.0, 0.0, 10.0, 10.0), Box(9.0, 0.0, 10.0, 10.0))
  {
  }

  /** Box (0,0,10,10) contains its far corner (10,10) but not (10.0001,10). */
  lemma FarCornerContained()
    ensures Contains(Box(0.0, 0.0, 10.0, 10.0), 10.0, 10.0)
    ensures !Contains(Box(0.0, 0.0, 10.0, 10.0), 10.0001, 10.0)
  {
  }

  /** Two objects of one scene, the second created and drawn after the first and lying
      over it; the button is down at (30,30), inside both. */
  ghost predicate StackedPair(game: Game, s: Scene, o1: GameObject, o2: GameObject, second: Box)
    reads game, s, o1, o2
  {
    game.currentScene == s && s.objects == [o1, o2] && o1 != o2 &&
    o1.scene == s && o2.scene == s &&
    o1.Bounds() == Box(0.0, 0.0, 50.0, 50.0) && o1.drawLayer == Val(1) &&
    o2.Bounds() == second && o2.drawLayer == Val(2) &&
    game.mouse == Mouse(Val(30.0), Val(30.0), true)
  }

  /** With the second object at (25,25,50,50) it hides the click from the first one
      and takes it itself. */
  lemma OcclusionScenario(game: Game, s: Scene, o1: GameObject, o2: GameObject)
    requires StackedPair(game, s, o1, o2, Box(25.0, 25.0, 50.0, 50.0))
    ensures !o1.WasLeftClicked(game)
    ensures o2.WasLeftClicked(game)
  {
    assert o1.Occludes(game, s.objects[1]);
    assert forall j :: 1 <= j < 2 ==> !o1.StopsScan(s.objects[j]);
    assert o2.StopsScan(s.objects[0]);
  }

  /** With the second object moved to (200,200,50,50) nothing overlaps the first one and
      the click is the first one's. */
  lemma ApartScenario(game: Game, s: Scene, o1: GameObject, o2: GameObject)
    requires StackedPair(game, s, o1, o2, Box(200.0, 200.0, 50.0, 50.0))
    ensures o1.WasLeftClicked(game)
  {
    assert !o1.Occludes(game, s.objects[1]);
  }

  /** Creation order [t, h, l] but draw order l, t, h: the scan from the end meets `l`
      (layer 1, not above `t`'s layer 2) and stops, so `h` (layer 3), which lies over
      `t` and holds the pointer, is never looked at and `t` takes the click. */
  lemma ScanStopsBeforeHigherLayer(game: Game, s: Scene, t: GameObject, h: GameObject, l: GameObject)
    requires game.currentScene == s && s.objects == [t, h, l]
    requires t != h && h != l && t != l && t.scene == s
    requires t.Bounds() == Box(0.0, 0.0, 10.0, 10.0) && t.drawLayer == Val(2)
    requires h.Bounds() == Box(0.0, 0.0, 10.0, 10.0) && h.drawLayer == Val(3)
    requires l.drawLayer == Val(1)
    requires game.mouse == Mouse(Val(5.0), Val(5.0), true)
    ensures t.Occludes(game, h) && Layer(h.drawLayer) > Layer(t.drawLayer)
    ensures t.WasLeftClicked(game)
  {
    assert t.StopsScan(s.objects[2]);
  }

  /** The occlusion situation built through the constructors, direct field writes,
      `draw` and the mouse handlers. */
  method BuildStackedPair() returns (game: Game, s: Scene, o1: GameObject, o2: GameObject)
    ensures StackedPair(game, s, o1, o2, Box(25.0, 25.0, 50.0, 50.0))
  {
    game := new Game();
    s := new Scene();
    game.SetScene(s);
    o1 := new GameObject(s);
    o2 := new GameObject(s);
    o1.width, o1.height := 50.0, 50.0;
    o2.x, o2.y, o2.width, o2.height := 25.0, 25.0, 50.0, 50.0;
    o1.Draw(game);
    o2.Draw(game);
    game.OnMouseMove(30.0, 30.0);
    game.OnMouseDown();
  }

  /** `LeftClicked` resolves the built situation: the first object is hidden, the
      second takes the click. */
  method ClickScenario() returns (first: bool, second: bool)
    ensures !first && second
  {
    var game, s, o1, o2 := BuildStackedPair();
    OcclusionScenario(game, s, o1, o2);
    first := o1.LeftClicked(game);
    second := o2.LeftClicked(game);
  }

  /** Three objects of one scene drawn in turn get layers 1, 2 and 3. */
  method DrawThree() returns (game: Game, s: Scene, a: GameObject, b: GameObject, c: GameObject)
    ensures s.Valid() && s.objects == [a, b, c]
    ensures a.drawLayer == Val(1) && b.drawLayer == Val(2) && c.drawLayer == Val(3)
    ensures game.currentLayer == 3
    ensures fresh(game) && fresh(s) && fresh(a) && fresh(b) && fresh(c)
  {
    game := new Game();
    s := new Scene();
    game.SetScene(s);
    a := new GameObject(s);
    b := new GameObject(s);
    c := new GameObject(s);
    a.Draw(game);
    b.Draw(game);
    c.Draw(game);
  }

  /** After three draws, destroying the middle object drops the counter to 2, so the
      next object drawn gets layer 3 again, the layer the third object still holds. A
      second destroy of the same object changes nothing. Drawing the first object again
      moves it to a new, higher layer. */
  method LayerCounterScenario() returns (reused: int, third: int, afterSecondDestroy: int,
                                         redrawn: int)
    ensures reused == 3 && third == 3
    ensures afterSecondDestroy == 3
    ensures redrawn == 4
  {
    var game, s, a, b, c := DrawThree();
    b.Destroy(game);
    assert game.currentLayer == 2 && b !in s.objects && a in s.objects;
    var d := new GameObject(s);
    d.Draw(game);
    reused, third := Layer(d.drawLayer), Layer(c.drawLayer);
    b.Destroy(game);
    afterSecondDestroy := game.currentLayer;
    a.Draw(game);
    redrawn := Layer(a.drawLayer);
  }

  /** Destroying an object that was never drawn still drops the counter, here below
      zero. */
  method DestroyUndrawn() returns (counter: int)
    ensures counter == -1
  {
    var game := new Game();
    var s := new Scene();
    var e := new GameObject(s);
    e.Destroy(game);
    counter := game.currentLayer;
  }
}

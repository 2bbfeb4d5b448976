/** One animation frame of main.js `Main.draw`: the camera direction read off the key
    maps, one camera translation applied to every tile centre, each tile rendered,
    classified and recycled, and the key maps cleared (`clearKeyEvents`). */
module Frame {
  import opened ExtReal
  import opened Matrices
  import opened Transforms
  import opened Render
  import opened Tiles
  import opened Floor

  /** Distance the camera moves per frame along each axis it is moving on. */
  const CameraSpeed: real := 10.0

  /** Scene constants under which no horizontal tile reaches depth zero between two
      recycles: one step of the camera from one unit in front of the screen still
      lies in front of the camera. */
  predicate ValidParams(p: Params) {
    0.0 < p.screenZ <= p.clipZ && p.screenZ > 1.0 + CameraSpeed
  }

  /** The engine state the frame reads and writes: `cameraDir`, the key maps filled by
      the keyboard listeners (a key is in the set when its entry is `true`), and `shapes`. */
  datatype World = World(dir: Triple, keydown: set<string>, keyup: set<string>, tiles: seq<Tile>)

  /** Every tile of the pool is a seed tile of the scene. */
  predicate Pool(p: Params, tiles: seq<Tile>) {
    forall i :: 0 <= i < |tiles| ==> SeedTile(p, tiles[i])
  }

  /** The camera-direction update: the four keydown tests in the order w, s, a, d, then
      the two keyup tests. y is never written. */
  function UpdateDir(dir: Triple, down: set<string>, up: set<string>): (d: Triple)
    ensures d.y == dir.y
    ensures "w" in up || "s" in up ==> d.z == 0
    ensures "w" !in up && "s" !in up && "s" in down ==> d.z == 1
    ensures "w" !in up && "s" !in up && "w" in down && "s" !in down ==> d.z == -1
    ensures "w" !in up && "s" !in up && "w" !in down && "s" !in down ==> d.z == dir.z
    ensures "a" in up || "d" in up ==> d.x == 0
    ensures "a" !in up && "d" !in up && "d" in down ==> d.x == -1
    ensures "a" !in up && "d" !in up && "a" in down && "d" !in down ==> d.x == 1
    ensures "a" !in up && "d" !in up && "a" !in down && "d" !in down ==> d.x == dir.x
    ensures IsUnit(dir) ==> IsUnit(d)
  {
    var z1 := if "w" in down then -1 else dir.z;
    var z2 := if "s" in down then 1 else z1;
    var x1 := if "a" in down then 1 else dir.x;
    var x2 := if "d" in down then -1 else x1;
    var z3 := if "w" in up || "s" in up then 0 else z2;
    var x3 := if "a" in up || "d" in up then 0 else x2;
    Triple(x3, dir.y, z3)
  }

  /** The offset one frame adds to a tile centre along an axis the camera moves on. */
  function Step(component: int): real {
    component as real * CameraSpeed
  }

  /** `translate(cameraDir[0] * cameraSpeed, 0, cameraDir[2] * cameraSpeed)`. */
  function CameraTranslation(dir: Triple): (T: Matrix)
    ensures IsMatrix(T, 4, 4)
    ensures T[0][3] == Fin(dir.x as real * CameraSpeed) && T[1][3] == Fin(0.0)
    ensures T[2][3] == Fin(dir.z as real * CameraSpeed) && T[3][3] == Fin(1.0)
  {
    Translate(Fin(Step(dir.x)), Fin(0.0), Fin(Step(dir.z)))
  }

  /** The camera translation moves a finite centre by the step on x and z and leaves
      y alone, whatever dir.y holds. */
  lemma CameraMovesCenter(dir: Triple, shape: Shape)
    requires FiniteCenter(shape.center)
    ensures TransformCenter(CameraTranslation(dir), shape).center
            == Col4(Fin(shape.center[0][0].v + Step(dir.x)), shape.center[1][0],
                    Fin(shape.center[2][0].v + Step(dir.z)), Fin(1.0))
  {
    TransformCenterTranslates(Step(dir.x), 0.0, Step(dir.z), shape);
  }

  /** The tile after `transformCenter(centerTransformation, tile)`. */
  function Moved(dir: Triple, t: Tile): (m: Tile)
    requires FiniteCenter(t.shape.center)
    ensures FiniteCenter(m.shape.center)
    ensures m.shape.center == Col4(Fin(t.shape.center[0][0].v + Step(dir.x)), t.shape.center[1][0],
                                   Fin(t.shape.center[2][0].v + Step(dir.z)), Fin(1.0))
    ensures m.template == t.template && m.bounds == t.bounds && m.kind == t.kind
    ensures m.shape.vertices == t.shape.vertices && m.shape.edges == t.shape.edges
  {
    CameraMovesCenter(dir, t.shape);
    t.(shape := TransformCenter(CameraTranslation(dir), t.shape))
  }

  /** A seed tile moved by one camera step can be rendered: a horizontal line is still
      in front of the camera. */
  lemma MovedRenderable(p: Params, dir: Triple, t: Tile)
    requires ValidParams(p) && SeedTile(p, t) && IsUnit(dir)
    ensures Renderable(p.screenZ, p.clipZ, Moved(dir, t).shape, Identity())
  {
    var m := Moved(dir, t);
    assert t.kind == Horizontal ==> m.shape.center[2][0].v > 0.0;
    SeedRenderable(p, m.shape, t.kind);
  }

  /** The moved tile rendered with the identity transformation: its cache holds the
      projections of its two vertices, and everything `isOutside` and `reset` read is in
      place. */
  function Drawn(p: Params, dir: Triple, t: Tile): (d: Tile)
    requires ValidParams(p) && SeedTile(p, t) && IsUnit(dir)
    ensures d.shape.center == Moved(dir, t).shape.center
    ensures d.shape.vertices == t.shape.vertices && d.shape.edges == t.shape.edges
    ensures d.template == t.template && d.bounds == t.bounds && d.kind == t.kind
    ensures Classifiable(d)
  {
    var m := Moved(dir, t);
    MovedRenderable(p, dir, t);
    m.(shape := RenderShape(p.view, p.screenZ, p.clipZ, m.shape, Identity()).shape)
  }

  /** The segments the render of the moved tile draws: one per edge of the seed shape. */
  function Drawing(p: Params, dir: Triple, t: Tile): (s: seq<Segment>)
    requires ValidParams(p) && SeedTile(p, t) && IsUnit(dir)
    ensures |s| == 1
  {
    MovedRenderable(p, dir, t);
    RenderShape(p.view, p.screenZ, p.clipZ, Moved(dir, t).shape, Identity()).segments
  }

  /** The rendered tile and the segments its render drew. */
  datatype Stepped = Stepped(tile: Tile, segments: seq<Segment>)

  /** One turn of the tile loop of `draw`: move the centre, render with the identity
      transformation, classify with `isOutside`, and `reset` with the result. */
  function StepTile(p: Params, dir: Triple, t: Tile): (r: Stepped)
    requires ValidParams(p) && SeedTile(p, t) && IsUnit(dir)
    ensures SeedTile(p, r.tile)
    ensures r.tile.template == t.template && r.tile.bounds == t.bounds && r.tile.kind == t.kind
    ensures |r.segments| == 1
  {
    var d := Drawn(p, dir, t);
    Stepped(Reset(d, IsOutside(d)), Drawing(p, dir, t))
  }

  /** One frame of a horizontal tile. Its centre moves by the camera step; if the new
      depth is more than one unit nearer than the screen plane the tile is rebuilt at
      the clip distance, if more than one unit beyond the clip plane it is rebuilt at
      the screen distance, and otherwise it stays where it moved. */
  lemma StepHorizontalTile(p: Params, dir: Triple, t: Tile)
    requires ValidParams(p) && SeedTile(p, t) && IsUnit(dir) && t.kind == Horizontal
    ensures var c := t.shape.center;
            var z := c[2][0].v + Step(dir.z);
            var r := StepTile(p, dir, t);
            && (z < p.screenZ - 1.0 ==> r.tile.shape.center == t.template.center[2 := [Fin(p.clipZ)]])
            && (z > p.clipZ + 1.0 ==> r.tile.shape.center == t.template.center[2 := [Fin(p.screenZ)]])
            && (p.screenZ - 1.0 <= z <= p.clipZ + 1.0 ==> r.tile.shape.center == Moved(dir, t).shape.center)
  {
    var c: Matrix := t.shape.center;
    var z := c[2][0].v + Step(dir.z);
    var d := Drawn(p, dir, t);
    assert d.shape.center[2][0] == Fin(z);
    var o := IsOutside(d);
    var r := Reset(d, o);
    assert StepTile(p, dir, t).tile == r;
    if z < p.screenZ - 1.0 {
      assert o.z == -1;
      assert r.shape.center == t.template.center[2 := [Fin(p.clipZ)]];
    } else if z > p.clipZ + 1.0 {
      assert o.z == 1;
      assert r.shape.center == t.template.center[2 := [Fin(p.screenZ)]];
    } else {
      assert o.z == 0;
      assert r == d;
    }
  }

  /** What a horizontal tile draws in one frame: `drawLine` of the horizon from
      x = -Infinity to x = +Infinity at screenZ over the moved depth times the centre's
      height. `DrawHorizon` shows that this pins the two ends to the viewport edges. */
  lemma StepHorizontalDraws(p: Params, dir: Triple, t: Tile)
    requires ValidParams(p) && SeedTile(p, t) && IsUnit(dir) && t.kind == Horizontal
    ensures var c := t.shape.center;
            var z := c[2][0].v + Step(dir.z);
            var y := Times(p.screenZ / z, c[1][0]);
            StepTile(p, dir, t).segments
              == [DrawLine(p.view, Col4(NegInf, y, Fin(z), Fin(1.0)), Col4(PosInf, y, Fin(z), Fin(1.0)))]
  {
    var c: Matrix := t.shape.center;
    var m := Moved(dir, t);
    var z := c[2][0].v + Step(dir.z);
    assert m.shape.center == Col4(Fin(c[0][0].v + Step(dir.x)), Fin(c[1][0].v), Fin(z), Fin(1.0));
    ProjectHorizontalSeed(p, m.shape, c[0][0].v + Step(dir.x), c[1][0].v, z);
    var y := Times(p.screenZ / z, c[1][0]);
    RenderLine(p.view, p.screenZ, p.clipZ, m.shape,
               Col4(NegInf, y, Fin(z), Fin(1.0)), Col4(PosInf, y, Fin(z), Fin(1.0)));
  }

  /** The projected x that `isOutside` reads off a rendered vertical tile: the far end's
      x, the moved centre's x scaled by screenZ over clipZ. For a horizontal tile it is
      the +Infinity end of the horizon, so such a tile always reads as outside on x,
      which its `reset` ignores. */
  lemma DrawnFarX(p: Params, dir: Triple, t: Tile)
    requires ValidParams(p) && SeedTile(p, t) && IsUnit(dir)
    ensures t.kind == Vertical ==>
              Drawn(p, dir, t).shape.transformed[1][0][0]
              == Times(p.screenZ / p.clipZ, Moved(dir, t).shape.center[0][0])
    ensures t.kind == Horizontal ==> Drawn(p, dir, t).shape.transformed[1][0][0] == PosInf
    ensures t.kind == Horizontal ==> IsOutside(Drawn(p, dir, t)).x == 1
  {
    var m := Moved(dir, t);
    var c: Matrix := m.shape.center;
    MovedRenderable(p, dir, t);
    if t.kind == Vertical {
      RenderVerticalSeed(p, m.shape, c[0][0].v, c[1][0].v, c[2][0].v);
    } else {
      ProjectHorizontalSeed(p, m.shape, c[0][0].v, c[1][0].v, c[2][0].v);
      var y := Times(p.screenZ / c[2][0].v, c[1][0]);
      RenderLine(p.view, p.screenZ, p.clipZ, m.shape,
                 Col4(NegInf, y, c[2][0], Fin(1.0)), Col4(PosInf, y, c[2][0], Fin(1.0)));
    }
  }

  /** One frame of a vertical tile. Its centre moves by the camera step; if the far end's
      projected x is more than one unit left of the x range (the left edge of the
      viewport) the tile is rebuilt at the right edge, if more than one unit right of it
      the tile is rebuilt at the left edge, and otherwise it stays where it moved. */
  lemma StepVerticalTile(p: Params, dir: Triple, t: Tile)
    requires ValidParams(p) && SeedTile(p, t) && IsUnit(dir) && t.kind == Vertical
    ensures var px := Times(p.screenZ / p.clipZ, Moved(dir, t).shape.center[0][0]);
            var r := StepTile(p, dir, t);
            && (Below(px, t.bounds.x.lo - 1.0) ==> r.tile.shape.center == t.template.center[0 := [Fin(t.bounds.x.hi)]])
            && (!Below(px, t.bounds.x.lo - 1.0) && Above(px, t.bounds.x.hi + 1.0) ==>
                  r.tile.shape.center == t.template.center[0 := [Fin(t.bounds.x.lo)]])
            && (!Below(px, t.bounds.x.lo - 1.0) && !Above(px, t.bounds.x.hi + 1.0) ==>
                  r.tile.shape.center == Moved(dir, t).shape.center)
  {
    var d := Drawn(p, dir, t);
    DrawnFarX(p, dir, t);
    RecycleVertical(d);
    assert StepTile(p, dir, t).tile == Reset(d, IsOutside(d));
  }

  /** What a vertical tile draws in one frame: the segment from the moved centre, clamped
      to the screen distance, to its image at the clip distance. */
  lemma StepVerticalDraws(p: Params, dir: Triple, t: Tile)
    requires ValidParams(p) && SeedTile(p, t) && IsUnit(dir) && t.kind == Vertical
    ensures var c := Moved(dir, t).shape.center;
            var f := p.screenZ / p.clipZ;
            StepTile(p, dir, t).segments
              == [Segment(Col4(c[0][0], c[1][0], NegInf, Fin(1.0)),
                          Col4(Times(f, c[0][0]), Times(f, c[1][0]), PosInf, Fin(1.0)))]
  {
    var m := Moved(dir, t);
    var c: Matrix := m.shape.center;
    RenderVerticalSeed(p, m.shape, c[0][0].v, c[1][0].v, c[2][0].v);
  }

  // ---------------------------------------------------------------------------
  // The whole frame

  /** The tiles after one pass of the tile loop and the segments drawn, in tile order. */
  datatype Pass = Pass(tiles: seq<Tile>, segments: seq<Segment>)

  /** The tile loop of `draw`, which visits every shape of the engine in index order:
      every tile is stepped with the same direction and draws its one segment. No turn
      of the loop reads another tile, so the pass is the tile-wise step. */
  function StepAll(p: Params, dir: Triple, tiles: seq<Tile>): (r: Pass)
    requires ValidParams(p) && Pool(p, tiles) && IsUnit(dir)
    ensures |r.tiles| == |tiles| && |r.segments| == |tiles|
    ensures forall i :: 0 <= i < |tiles| ==> r.tiles[i] == StepTile(p, dir, tiles[i]).tile
    ensures forall i :: 0 <= i < |tiles| ==> [r.segments[i]] == StepTile(p, dir, tiles[i]).segments
    ensures Pool(p, r.tiles)
  {
    Pass(seq(|tiles|, i requires 0 <= i < |tiles| => StepTile(p, dir, tiles[i]).tile),
         seq(|tiles|, i requires 0 <= i < |tiles| => StepTile(p, dir, tiles[i]).segments[0]))
  }

  /** `clearKeyEvents()`: both key maps emptied, nothing else touched. */
  function ClearKeyEvents(w: World): (r: World)
    ensures r.keydown == {} && r.keyup == {}
    ensures r.dir == w.dir && r.tiles == w.tiles
  {
    w.(keydown := {}, keyup := {})
  }

  /** What `draw` hands back: the engine state after the frame and the segments stroked. */
  datatype Output = Output(world: World, segments: seq<Segment>)

  /** `draw(timestamp)`: update the camera direction from the key maps, run the tile
      loop with that direction, then clear the key maps. */
  function Draw(p: Params, w: World): (r: Output)
    requires ValidParams(p) && IsUnit(w.dir) && Pool(p, w.tiles)
    ensures r.world.dir == UpdateDir(w.dir, w.keydown, w.keyup)
    ensures IsUnit(r.world.dir) && r.world.dir.y == w.dir.y
    ensures r.world.keydown == {} && r.world.keyup == {}
    ensures |r.world.tiles| == |w.tiles| && Pool(p, r.world.tiles)
    ensures forall i :: 0 <= i < |w.tiles| ==> r.world.tiles[i] == StepTile(p, r.world.dir, w.tiles[i]).tile
    ensures |r.segments| == |w.tiles|
    ensures forall i :: 0 <= i < |w.tiles| ==> [r.segments[i]] == StepTile(p, r.world.dir, w.tiles[i]).segments
  {
    var dir := UpdateDir(w.dir, w.keydown, w.keyup);
    var pass := StepAll(p, dir, w.tiles);
    Output(ClearKeyEvents(w.(dir := dir, tiles := pass.tiles)), pass.segments)
  }

  /** With no key events since the last frame the camera keeps its direction. */
  lemma DirectionPersists(p: Params, w: World)
    requires ValidParams(p) && IsUnit(w.dir) && Pool(p, w.tiles)
    ensures var next := Draw(p, w).world;
            Draw(p, next).world.dir == next.dir
  {
    var next := Draw(p, w).world;
    assert UpdateDir(next.dir, {}, {}) == next.dir;
  }

  /** The key events the listeners record between two frames. */
  datatype Input = Input(down: set<string>, up: set<string>)

  /** The listeners set the entry of every key pressed or released; entries already set
      stay set. */
  function Receive(w: World, input: Input): (r: World)
    ensures r.keydown == w.keydown + input.down && r.keyup == w.keyup + input.up
    ensures r.dir == w.dir && r.tiles == w.tiles
  {
    w.(keydown := w.keydown + input.down, keyup := w.keyup + input.up)
  }

  /** A run of frames, each preceded by the key events that arrived before it. */
  function Run(p: Params, w: World, inputs: seq<Input>): (r: World)
    requires ValidParams(p) && IsUnit(w.dir) && Pool(p, w.tiles)
    ensures |r.tiles| == |w.tiles| && Pool(p, r.tiles)
    ensures IsUnit(r.dir) && r.dir.y == w.dir.y
    ensures |inputs| > 0 ==> r.keydown == {} && r.keyup == {}
    decreases |inputs|
  {
    if |inputs| == 0 then w
    else Run(p, Draw(p, Receive(w, inputs[0])).world, inputs[1..])
  }

  /** The world `init` builds from the horizontal half of `generateFloor`: tiles every
      200 units from the screen distance up to the clip distance, camera at rest, no keys. */
  function InitialWorld(p: Params): (w: World)
    requires ValidParams(p)
    ensures Pool(p, w.tiles) && w.dir == Triple(0, 0, 0) && w.keydown == {} && w.keyup == {}
    ensures |w.tiles| > 0 <==> p.screenZ < p.clipZ
    ensures forall i :: 0 <= i < |w.tiles| ==> w.tiles[i].kind == Horizontal
  {
    World(Triple(0, 0, 0), {}, {}, HorizontalRow(p, p.screenZ))
  }

  /** The camera never moves vertically: from the initial world, every run of frames
      leaves the y component of the direction at 0 and keeps the pool. */
  lemma CameraStaysLevel(p: Params, inputs: seq<Input>)
    requires ValidParams(p)
    ensures Run(p, InitialWorld(p), inputs).dir.y == 0
    ensures |Run(p, InitialWorld(p), inputs).tiles| == |InitialWorld(p).tiles|
  {
  }
}

/** Recyclable floor tiles (main.js `Tile`): a shape plus a template snapshot taken at
    construction, a bounds box, and a type that names the axis the tile is recycled along. */
module Tiles {
  import opened ExtReal
  import opened Matrices
  import opened Render

  /** `horizontal` tiles are recycled along z (depth), `vertical` tiles along x. */
  datatype Kind = Horizontal | Vertical

  datatype Range = Range(lo: real, hi: real)

  datatype Bounds = Bounds(x: Range, y: Range, z: Range)

  /** The centre, vertices and edges captured when the tile was built. */
  datatype Snapshot = Snapshot(center: Matrix, vertices: seq<Matrix>, edges: seq<Edge>)

  datatype Tile = Tile(shape: Shape, template: Snapshot, bounds: Bounds, kind: Kind)

  /** A triple with one component per axis: the result of `isOutside`, the argument of
      `reset`, and the camera direction. */
  datatype Triple = Triple(x: int, y: int, z: int)

  predicate IsUnit(d: Triple) {
    -1 <= d.x <= 1 && -1 <= d.y <= 1 && -1 <= d.z <= 1
  }

  /** The box every tile gets: half the viewport either way in x and y, and the depths
      between the screen and the clip plane in z. */
  function TileBounds(view: Viewport, screenZ: real, clipZ: real): Bounds {
    Bounds(Range(-view.HalfWidth(), view.HalfWidth()),
           Range(-view.HalfHeight(), view.HalfHeight()),
           Range(screenZ, clipZ))
  }

  /** `new Tile(center, vertices, edges, type, main)`: the working copy and the template
      start equal, and nothing has been projected yet. */
  function NewTile(center: Matrix, vertices: seq<Matrix>, edges: seq<Edge>, kind: Kind,
                   view: Viewport, screenZ: real, clipZ: real): (t: Tile)
    ensures t.template == Snapshot(t.shape.center, t.shape.vertices, t.shape.edges)
    ensures t.shape == Shape(center, vertices, edges, [])
    ensures t.kind == kind && t.bounds == TileBounds(view, screenZ, clipZ)
  {
    Tile(Shape(center, vertices, edges, []), Snapshot(center, vertices, edges),
         TileBounds(view, screenZ, clipZ), kind)
  }

  // ---------------------------------------------------------------------------
  // isOutside

  /** One component of `isOutside`: -1 below the range by more than the one-unit
      margin, +1 above it by more than the margin, 0 otherwise. */
  function Classify(e: ER, r: Range): (c: int)
    ensures -1 <= c <= 1
    ensures c == -1 <==> Below(e, r.lo - 1.0)
    ensures c == 1 <==> !Below(e, r.lo - 1.0) && Above(e, r.hi + 1.0)
  {
    if Below(e, r.lo - 1.0) then -1
    else if Above(e, r.hi + 1.0) then 1
    else 0
  }

  /** What `isOutside` reads: the centre, and the projected second vertex. */
  predicate Classifiable(t: Tile) {
    IsColumn(t.shape.center) && |t.shape.transformed| >= 2 && IsColumn(t.shape.transformed[1])
  }

  /** `isOutside()`: z and y from the centre against the z and y ranges, x from the
      projected x of the second vertex against the x range. */
  function IsOutside(t: Tile): (o: Triple)
    requires Classifiable(t)
    ensures IsUnit(o)
    ensures o.z == 0 <==>
              !Below(t.shape.center[2][0], t.bounds.z.lo - 1.0) && !Above(t.shape.center[2][0], t.bounds.z.hi + 1.0)
    ensures o.y == 0 <==>
              !Below(t.shape.center[1][0], t.bounds.y.lo - 1.0) && !Above(t.shape.center[1][0], t.bounds.y.hi + 1.0)
    ensures o.x == 0 <==>
              && !Below(t.shape.transformed[1][0][0], t.bounds.x.lo - 1.0)
              && !Above(t.shape.transformed[1][0][0], t.bounds.x.hi + 1.0)
    ensures o.z == -1 <==> Below(t.shape.center[2][0], t.bounds.z.lo - 1.0)
    ensures o.y == -1 <==> Below(t.shape.center[1][0], t.bounds.y.lo - 1.0)
    ensures o.x == -1 <==> Below(t.shape.transformed[1][0][0], t.bounds.x.lo - 1.0)
  {
    Triple(Classify(t.shape.transformed[1][0][0], t.bounds.x),
           Classify(t.shape.center[1][0], t.bounds.y),
           Classify(t.shape.center[2][0], t.bounds.z))
  }

  // ---------------------------------------------------------------------------
  // reset

  /** The template copied back into the working shape, with coordinate `axis` of the
      centre then set to `value`. The projected cache is left as it was. */
  function Teleport(t: Tile, axis: nat, value: real): (r: Tile)
    requires IsColumn(t.template.center) && axis < 4
    ensures IsColumn(r.shape.center) && r.shape.center[axis][0] == Fin(value)
    ensures forall k :: 0 <= k < 4 && k != axis ==> r.shape.center[k] == t.template.center[k]
    ensures r.shape.vertices == t.template.vertices && r.shape.edges == t.template.edges
    ensures r.template == t.template && r.bounds == t.bounds && r.kind == t.kind
    ensures r.shape.transformed == t.shape.transformed
  {
    t.(shape := t.shape.(center := t.template.center[axis := [Fin(value)]],
                         vertices := t.template.vertices,
                         edges := t.template.edges))
  }

  /** `reset(dir)` moves the tile exactly when dir leaves the range on the tile's
      governing axis. */
  predicate Governs(kind: Kind, d: Triple) {
    || (kind == Horizontal && (d.z == -1 || d.z == 1))
    || (kind == Vertical && (d.x == -1 || d.x == 1))
  }

  /** `reset(dir)`: a horizontal tile that left through the near end of the z range
      (dir.z = -1) reappears at the far end and vice versa; a vertical tile that left
      on the low x side reappears on the high side and vice versa; nothing else moves. */
  function Reset(t: Tile, d: Triple): (r: Tile)
    requires IsColumn(t.template.center)
    ensures r.template == t.template && r.bounds == t.bounds && r.kind == t.kind
    ensures r.shape.transformed == t.shape.transformed
    ensures !Governs(t.kind, d) ==> r == t
    ensures Governs(t.kind, d) ==>
              r.shape.vertices == t.template.vertices && r.shape.edges == t.template.edges && IsColumn(r.shape.center)
    ensures t.kind == Horizontal && d.z == -1 ==> r.shape.center == t.template.center[2 := [Fin(t.bounds.z.hi)]]
    ensures t.kind == Horizontal && d.z == 1 ==> r.shape.center == t.template.center[2 := [Fin(t.bounds.z.lo)]]
    ensures t.kind == Vertical && d.x == -1 ==> r.shape.center == t.template.center[0 := [Fin(t.bounds.x.hi)]]
    ensures t.kind == Vertical && d.x == 1 ==> r.shape.center == t.template.center[0 := [Fin(t.bounds.x.lo)]]
  {
    var afterZ :=
      if d.z == -1 && t.kind == Horizontal then Teleport(t, 2, t.bounds.z.hi)
      else if d.z == 1 && t.kind == Horizontal then Teleport(t, 2, t.bounds.z.lo)
      else t;
    if d.x == -1 && t.kind == Vertical then Teleport(afterZ, 0, t.bounds.x.hi)
    else if d.x == 1 && t.kind == Vertical then Teleport(afterZ, 0, t.bounds.x.lo)
    else afterZ
  }

  /** Resetting twice with the same direction is resetting once. */
  lemma ResetIdempotent(t: Tile, d: Triple)
    requires IsColumn(t.template.center)
    ensures Reset(Reset(t, d), d) == Reset(t, d)
  {
  }

  /** After a horizontal tile is reset along z it is inside its z range again. */
  lemma ResetBringsDepthInside(t: Tile, d: Triple)
    requires IsColumn(t.template.center) && |t.shape.transformed| >= 2 && IsColumn(t.shape.transformed[1])
    requires t.kind == Horizontal && Governs(t.kind, d)
    requires t.bounds.z.lo <= t.bounds.z.hi
    ensures Classifiable(Reset(t, d))
    ensures IsOutside(Reset(t, d)).z == 0
  {
  }

  /** The recycling round trip: a horizontal tile more than one unit nearer than the
      screen plane is classified -1 on z and reset to the clip distance; one more than
      one unit beyond the clip plane is reset to the screen distance; template, bounds
      and type are kept. */
  lemma RecycleHorizontal(t: Tile)
    requires Classifiable(t) && IsColumn(t.template.center)
    requires t.kind == Horizontal && t.shape.center[2][0].Fin?
    ensures var r := Reset(t, IsOutside(t));
            && (t.shape.center[2][0].v < t.bounds.z.lo - 1.0 ==> r.shape.center[2][0] == Fin(t.bounds.z.hi))
            && (t.bounds.z.lo - 1.0 <= t.shape.center[2][0].v && t.shape.center[2][0].v > t.bounds.z.hi + 1.0 ==>
                  r.shape.center[2][0] == Fin(t.bounds.z.lo))
            && (t.bounds.z.lo - 1.0 <= t.shape.center[2][0].v <= t.bounds.z.hi + 1.0 ==> r == t)
            && r.template == t.template && r.bounds == t.bounds
  {
  }

  /** The vertical counterpart: a vertical tile whose projected far end lies more than one
      unit left of the x range is reset to the right edge, one more than one unit right
      of it to the left edge, and one within the margin is left alone. */
  lemma RecycleVertical(t: Tile)
    requires Classifiable(t) && IsColumn(t.template.center) && t.kind == Vertical
    ensures var px := t.shape.transformed[1][0][0];
            var r := Reset(t, IsOutside(t));
            && (Below(px, t.bounds.x.lo - 1.0) ==> r.shape.center == t.template.center[0 := [Fin(t.bounds.x.hi)]])
            && (!Below(px, t.bounds.x.lo - 1.0) && Above(px, t.bounds.x.hi + 1.0) ==>
                  r.shape.center == t.template.center[0 := [Fin(t.bounds.x.lo)]])
            && (!Below(px, t.bounds.x.lo - 1.0) && !Above(px, t.bounds.x.hi + 1.0) ==> r == t)
            && r.template == t.template && r.bounds == t.bounds
  {
  }
}

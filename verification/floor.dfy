/** The floor the scene is built from (main.js `generateFloor`): seed geometry of the
    two tile types, the horizontal row of tiles, and what rendering a seed tile draws. */
module Floor {
  import opened ExtReal
  import opened Matrices
  import opened Transforms
  import opened Render
  import opened Tiles

  /** Distance between neighbouring floor lines. */
  const TileSpacing: real := 200.0

  /** Scene constants: the main viewport, the screen distance and the clip distance. */
  datatype Params = Params(view: Viewport, screenZ: real, clipZ: real)

  /** A horizontal line: from x = -Infinity to x = +Infinity at the tile's centre. */
  function HorizontalVertices(): seq<Matrix> {
    [Col4(NegInf, Fin(0.0), Fin(0.0), Fin(1.0)), Col4(PosInf, Fin(0.0), Fin(0.0), Fin(1.0))]
  }

  /** A vertical line: from z = -Infinity to z = +Infinity at the tile's centre. */
  function VerticalVertices(): seq<Matrix> {
    [Col4(Fin(0.0), Fin(0.0), NegInf, Fin(1.0)), Col4(Fin(0.0), Fin(0.0), PosInf, Fin(1.0))]
  }

  function SeedVertices(kind: Kind): seq<Matrix> {
    match kind
    case Horizontal => HorizontalVertices()
    case Vertical => VerticalVertices()
  }

  function SeedEdges(): seq<Edge> {
    [Edge(0, 1)]
  }

  /** A centre with finite x, y, z and w = 1. */
  predicate FiniteCenter(c: Matrix) {
    IsColumn(c) && c[0][0].Fin? && c[1][0].Fin? && c[2][0].Fin? && c[3][0] == Fin(1.0)
  }

  /** A tile as the floor generator makes it and as every frame leaves it: seed geometry
      in the template and the working copy, the scene's bounds, finite centres, and a
      horizontal tile's depth within one unit of its z range. */
  predicate SeedTile(p: Params, t: Tile) {
    && t.bounds == TileBounds(p.view, p.screenZ, p.clipZ)
    && t.template.vertices == SeedVertices(t.kind) && t.template.edges == SeedEdges()
    && t.shape.vertices == t.template.vertices && t.shape.edges == t.template.edges
    && FiniteCenter(t.template.center) && FiniteCenter(t.shape.center)
    && (t.kind == Horizontal ==> p.screenZ - 1.0 <= t.shape.center[2][0].v <= p.clipZ + 1.0)
  }

  /** The horizontal half of `generateFloor`: one horizontal tile at every depth
      z, z + 200, ... below the clip distance, centred at x = 0 and y = height / 2. */
  function HorizontalRow(p: Params, z: real): (tiles: seq<Tile>)
    requires 0.0 < p.screenZ <= z
    ensures forall i :: 0 <= i < |tiles| ==> SeedTile(p, tiles[i]) && tiles[i].kind == Horizontal
    ensures |tiles| == 0 <==> z >= p.clipZ
    ensures z + |tiles| as real * TileSpacing >= p.clipZ
    decreases if z < p.clipZ then (p.clipZ - z).Floor + 1 else 0
  {
    if z < p.clipZ then
      var center := Col4(Fin(0.0), Fin(p.view.HalfHeight()), Fin(z), Fin(1.0));
      [NewTile(center, HorizontalVertices(), SeedEdges(), Horizontal, p.view, p.screenZ, p.clipZ)]
        + HorizontalRow(p, z + TileSpacing)
    else
      []
  }

  /** The i-th tile of a horizontal row starting at depth z sits i tile spacings further
      away, on the centre line of the viewport, and in front of the clip plane. */
  lemma {:induction false} HorizontalRowAt(p: Params, z: real, i: nat)
    requires 0.0 < p.screenZ <= z && i < |HorizontalRow(p, z)|
    ensures var depth := z + i as real * TileSpacing;
            && HorizontalRow(p, z)[i].template.center == Col4(Fin(0.0), Fin(p.view.HalfHeight()), Fin(depth), Fin(1.0))
            && depth < p.clipZ
    decreases i
  {
    if i > 0 {
      HorizontalRowAt(p, z + TileSpacing, i - 1);
      assert z + i as real * TileSpacing == (z + TileSpacing) + (i - 1) as real * TileSpacing;
    }
  }

  /** Rendering a seed shape with the identity transformation never meets depth zero,
      provided a horizontal line's centre lies in front of the camera. */
  lemma SeedRenderable(p: Params, shape: Shape, kind: Kind)
    requires 0.0 < p.screenZ <= p.clipZ
    requires FiniteCenter(shape.center)
    requires shape.vertices == SeedVertices(kind) && shape.edges == SeedEdges()
    requires kind == Horizontal ==> shape.center[2][0].v > 0.0
    ensures Renderable(p.screenZ, p.clipZ, shape, Identity())
    ensures CameraMatrix(shape, Identity()) == Translate(shape.center[0][0], shape.center[1][0], shape.center[2][0])
  {
    SeedCamera(shape, kind);
  }

  /** Where the seed vertices land in camera space: the centre's coordinates with the
      line's infinite coordinate kept. */
  lemma SeedCamera(shape: Shape, kind: Kind)
    requires FiniteCenter(shape.center)
    requires shape.vertices == SeedVertices(kind) && shape.edges == SeedEdges()
    ensures CameraMatrix(shape, Identity()) == Translate(shape.center[0][0], shape.center[1][0], shape.center[2][0])
    ensures kind == Horizontal ==>
              Mult(CameraMatrix(shape, Identity()), shape.vertices[0])
              == Col4(NegInf, shape.center[1][0], shape.center[2][0], Fin(1.0))
    ensures kind == Horizontal ==>
              Mult(CameraMatrix(shape, Identity()), shape.vertices[1])
              == Col4(PosInf, shape.center[1][0], shape.center[2][0], Fin(1.0))
    ensures kind == Vertical ==>
              Mult(CameraMatrix(shape, Identity()), shape.vertices[0])
              == Col4(shape.center[0][0], shape.center[1][0], NegInf, Fin(1.0))
    ensures kind == Vertical ==>
              Mult(CameraMatrix(shape, Identity()), shape.vertices[1])
              == Col4(shape.center[0][0], shape.center[1][0], PosInf, Fin(1.0))
  {
    var c: Matrix := shape.center;
    MultIdentityRight(Translate(c[0][0], c[1][0], c[2][0]), 4);
    MultTranslateColumn(c[0][0].v, c[1][0].v, c[2][0].v, shape.vertices[0]);
    MultTranslateColumn(c[0][0].v, c[1][0].v, c[2][0].v, shape.vertices[1]);
  }

  /** Rendering a shape with one edge between its two vertices, whose projections are
      t0 and t1, caches t0 and t1 and draws exactly the one segment between them. */
  lemma RenderLine(view: Viewport, screenZ: real, clipZ: real, shape: Shape, t0: Matrix, t1: Matrix)
    requires Renderable(screenZ, clipZ, shape, Identity())
    requires |shape.vertices| == 2 && shape.edges == SeedEdges()
    requires ProjectVertex(screenZ, clipZ, CameraMatrix(shape, Identity()), shape.vertices[0]) == t0
    requires ProjectVertex(screenZ, clipZ, CameraMatrix(shape, Identity()), shape.vertices[1]) == t1
    ensures var r := RenderShape(view, screenZ, clipZ, shape, Identity());
            && r.shape.transformed[0] == t0 && r.shape.transformed[1] == t1
            && r.segments == [DrawLine(view, t0, t1)]
  {
  }

  /** A line whose two vertices project to the two ends of a horizon at height y is drawn
      across the whole width of the viewport. */
  lemma RenderHorizon(view: Viewport, screenZ: real, clipZ: real, shape: Shape, y: ER, z: ER)
    requires Renderable(screenZ, clipZ, shape, Identity())
    requires |shape.vertices| == 2 && shape.edges == SeedEdges() && y.Fin?
    requires ProjectVertex(screenZ, clipZ, CameraMatrix(shape, Identity()), shape.vertices[0])
             == Col4(NegInf, y, z, Fin(1.0))
    requires ProjectVertex(screenZ, clipZ, CameraMatrix(shape, Identity()), shape.vertices[1])
             == Col4(PosInf, y, z, Fin(1.0))
    ensures var half := view.HalfWidth();
            var r := RenderShape(view, screenZ, clipZ, shape, Identity());
            && r.shape.transformed[0] == Col4(NegInf, y, z, Fin(1.0))
            && r.shape.transformed[1] == Col4(PosInf, y, z, Fin(1.0))
            && r.segments == [Segment(Col4(Fin(-half), y, z, Fin(1.0)), Col4(Fin(half), y, z, Fin(1.0)))]
  {
    RenderLine(view, screenZ, clipZ, shape, Col4(NegInf, y, z, Fin(1.0)), Col4(PosInf, y, z, Fin(1.0)));
    DrawHorizon(view, y, z, Fin(1.0));
  }

  /** The perspective projection of a horizontal line in front of the camera keeps
      x = -Infinity and +Infinity and scales y by screenZ over the centre's depth. */
  lemma ProjectHorizontalSeed(p: Params, shape: Shape, cx: real, cy: real, cz: real)
    requires 0.0 < p.screenZ <= p.clipZ && cz > 0.0
    requires shape.center == Col4(Fin(cx), Fin(cy), Fin(cz), Fin(1.0))
    requires shape.vertices == HorizontalVertices() && shape.edges == SeedEdges()
    ensures Renderable(p.screenZ, p.clipZ, shape, Identity())
    ensures var T := CameraMatrix(shape, Identity());
            var y := Times(p.screenZ / cz, Fin(cy));
            && ProjectVertex(p.screenZ, p.clipZ, T, shape.vertices[0]) == Col4(NegInf, y, Fin(cz), Fin(1.0))
            && ProjectVertex(p.screenZ, p.clipZ, T, shape.vertices[1]) == Col4(PosInf, y, Fin(cz), Fin(1.0))
  {
    SeedRenderable(p, shape, Horizontal);
    SeedCamera(shape, Horizontal);
    var T := CameraMatrix(shape, Identity());
    var f := p.screenZ / cz;
    assert Times(f, NegInf) == NegInf && Times(f, PosInf) == PosInf by {
      assert f > 0.0;
    }
    ProjectKnownVertex(p.screenZ, p.clipZ, T, shape.vertices[0], NegInf, Fin(cy), Fin(cz), Fin(1.0), cz);
    ProjectKnownVertex(p.screenZ, p.clipZ, T, shape.vertices[1], PosInf, Fin(cy), Fin(cz), Fin(1.0), cz);
  }

  /** The perspective projection of a vertical line: its near end (z = -Infinity) clamps
      to the screen distance and stays where the centre is; its far end (z = +Infinity)
      clamps to the clip distance and is scaled by screenZ over clipZ, towards the
      vanishing point. */
  lemma ProjectVerticalSeed(p: Params, shape: Shape, cx: real, cy: real, cz: real)
    requires 0.0 < p.screenZ <= p.clipZ
    requires shape.center == Col4(Fin(cx), Fin(cy), Fin(cz), Fin(1.0))
    requires shape.vertices == VerticalVertices() && shape.edges == SeedEdges()
    ensures Renderable(p.screenZ, p.clipZ, shape, Identity())
    ensures var T := CameraMatrix(shape, Identity());
            var f := p.screenZ / p.clipZ;
            && ProjectVertex(p.screenZ, p.clipZ, T, shape.vertices[0]) == Col4(Fin(cx), Fin(cy), NegInf, Fin(1.0))
            && ProjectVertex(p.screenZ, p.clipZ, T, shape.vertices[1])
               == Col4(Times(f, Fin(cx)), Times(f, Fin(cy)), PosInf, Fin(1.0))
  {
    ProjectVerticalNear(p, shape, cx, cy, cz);
    ProjectVerticalFar(p, shape, cx, cy, cz);
  }

  /** The near end of a vertical line clamps to the screen distance, where the
      perspective factor is one. */
  lemma ProjectVerticalNear(p: Params, shape: Shape, cx: real, cy: real, cz: real)
    requires 0.0 < p.screenZ <= p.clipZ
    requires shape.center == Col4(Fin(cx), Fin(cy), Fin(cz), Fin(1.0))
    requires shape.vertices == VerticalVertices() && shape.edges == SeedEdges()
    ensures Renderable(p.screenZ, p.clipZ, shape, Identity())
    ensures ProjectVertex(p.screenZ, p.clipZ, CameraMatrix(shape, Identity()), shape.vertices[0])
            == Col4(Fin(cx), Fin(cy), NegInf, Fin(1.0))
  {
    SeedRenderable(p, shape, Vertical);
    SeedCamera(shape, Vertical);
    TimesUnitRatio(p.screenZ, Fin(cx));
    TimesUnitRatio(p.screenZ, Fin(cy));
    ProjectKnownVertex(p.screenZ, p.clipZ, CameraMatrix(shape, Identity()), shape.vertices[0],
                       Fin(cx), Fin(cy), NegInf, Fin(1.0), p.screenZ);
  }

  /** The far end of a vertical line clamps to the clip distance and is scaled by
      screenZ over clipZ. */
  lemma ProjectVerticalFar(p: Params, shape: Shape, cx: real, cy: real, cz: real)
    requires 0.0 < p.screenZ <= p.clipZ
    requires shape.center == Col4(Fin(cx), Fin(cy), Fin(cz), Fin(1.0))
    requires shape.vertices == VerticalVertices() && shape.edges == SeedEdges()
    ensures Renderable(p.screenZ, p.clipZ, shape, Identity())
    ensures var f := p.screenZ / p.clipZ;
            ProjectVertex(p.screenZ, p.clipZ, CameraMatrix(shape, Identity()), shape.vertices[1])
              == Col4(Times(f, Fin(cx)), Times(f, Fin(cy)), PosInf, Fin(1.0))
  {
    SeedRenderable(p, shape, Vertical);
    SeedCamera(shape, Vertical);
    ProjectKnownVertex(p.screenZ, p.clipZ, CameraMatrix(shape, Identity()), shape.vertices[1],
                       Fin(cx), Fin(cy), PosInf, Fin(1.0), p.clipZ);
  }

  /** A line whose two vertices project to finite points at depth -Infinity and
      +Infinity is drawn between exactly those two points. */
  lemma RenderDepthLine(view: Viewport, screenZ: real, clipZ: real, shape: Shape,
                        x0: ER, y0: ER, x1: ER, y1: ER)
    requires Renderable(screenZ, clipZ, shape, Identity())
    requires |shape.vertices| == 2 && shape.edges == SeedEdges()
    requires x0.Fin? && y0.Fin? && x1.Fin? && y1.Fin?
    requires ProjectVertex(screenZ, clipZ, CameraMatrix(shape, Identity()), shape.vertices[0])
             == Col4(x0, y0, NegInf, Fin(1.0))
    requires ProjectVertex(screenZ, clipZ, CameraMatrix(shape, Identity()), shape.vertices[1])
             == Col4(x1, y1, PosInf, Fin(1.0))
    ensures var near := Col4(x0, y0, NegInf, Fin(1.0));
            var far := Col4(x1, y1, PosInf, Fin(1.0));
            var r := RenderShape(view, screenZ, clipZ, shape, Identity());
            && r.shape.transformed[0] == near && r.shape.transformed[1] == far
            && r.segments == [Segment(near, far)]
  {
    RenderLine(view, screenZ, clipZ, shape, Col4(x0, y0, NegInf, Fin(1.0)), Col4(x1, y1, PosInf, Fin(1.0)));
    DrawDepthLine(view, x0, y0, x1, y1, Fin(1.0));
  }

  /** Rendering a vertical line: the cache holds the near and far ends, and the segment
      drawn runs from the centre on the screen to its image at the clip distance. */
  lemma RenderVerticalSeed(p: Params, shape: Shape, cx: real, cy: real, cz: real)
    requires 0.0 < p.screenZ <= p.clipZ
    requires shape.center == Col4(Fin(cx), Fin(cy), Fin(cz), Fin(1.0))
    requires shape.vertices == VerticalVertices() && shape.edges == SeedEdges()
    ensures Renderable(p.screenZ, p.clipZ, shape, Identity())
    ensures var f := p.screenZ / p.clipZ;
            var near := Col4(Fin(cx), Fin(cy), NegInf, Fin(1.0));
            var far := Col4(Times(f, Fin(cx)), Times(f, Fin(cy)), PosInf, Fin(1.0));
            var r := RenderShape(p.view, p.screenZ, p.clipZ, shape, Identity());
            && r.shape.transformed[0] == near && r.shape.transformed[1] == far
            && r.segments == [Segment(near, far)]
  {
    ProjectVerticalSeed(p, shape, cx, cy, cz);
    var f := p.screenZ / p.clipZ;
    RenderDepthLine(p.view, p.screenZ, p.clipZ, shape, Fin(cx), Fin(cy), Times(f, Fin(cx)), Times(f, Fin(cy)));
  }
}

/** Shapes and the projection pipeline of main.js: `renderShape`, `transformCenter` and
    the endpoint clamping of `drawLine`. The stroke itself is left to the host; a drawn
    line is returned as the pair of clamped endpoints handed to it. */
module Render {
  import opened ExtReal
  import opened Matrices
  import opened Transforms

  /** The canvas the shapes are drawn on, with the origin at its centre. */
  datatype Viewport = Viewport(width: real, height: real) {

    /** Distance from the centre to the left or right edge. */
    function HalfWidth(): real {
      width / 2.0
    }

    /** Distance from the centre to the top or bottom edge. */
    function HalfHeight(): real {
      height / 2.0
    }
  }

  /** A pair of vertex indices. */
  datatype Edge = Edge(a: nat, b: nat)

  /** A shape: centre, vertices relative to it, edges, and the cache of projected
      vertices the last render left behind. */
  datatype Shape = Shape(center: Matrix, vertices: seq<Matrix>, edges: seq<Edge>, transformed: seq<Matrix>)

  /** The two endpoints passed to the host's `moveTo` / `lineTo`. */
  datatype Segment = Segment(start: Matrix, finish: Matrix)

  /** Column centre and vertices, and every edge naming existing vertices. */
  predicate WellFormed(s: Shape) {
    && IsColumn(s.center)
    && (forall i :: 0 <= i < |s.vertices| ==> IsColumn(s.vertices[i]))
    && (forall i :: 0 <= i < |s.edges| ==> s.edges[i].a < |s.vertices| && s.edges[i].b < |s.vertices|)
  }

  // ---------------------------------------------------------------------------
  // drawLine

  /** Row j of an endpoint after `drawLine`'s two tests: +Infinity first, then -Infinity,
      replaced by the half-width in slot 0 and the half-height in slot 1. */
  function ClampRow(view: Viewport, j: nat, row: seq<ER>): seq<ER> {
    var afterPos :=
      if |row| > 0 && row[0] == PosInf && j == 0 then [Fin(view.HalfWidth())]
      else if |row| > 0 && row[0] == PosInf && j == 1 then [Fin(view.HalfHeight())]
      else row;
    if |afterPos| > 0 && afterPos[0] == NegInf && j == 0 then [Fin(-view.HalfWidth())]
    else if |afterPos| > 0 && afterPos[0] == NegInf && j == 1 then [Fin(-view.HalfHeight())]
    else afterPos
  }

  /** A copy of one endpoint with its infinite x and y pinned to the viewport edge. */
  function ClampEndpoint(view: Viewport, v: Matrix): (r: Matrix)
    ensures |r| == |v|
    ensures forall j :: 2 <= j < |v| ==> r[j] == v[j]
    ensures forall j :: 0 <= j < |v| && (|v[j]| == 0 || v[j][0].Fin?) ==> r[j] == v[j]
    ensures |v| > 0 && |v[0]| > 0 && v[0][0] == PosInf ==> r[0] == [Fin(view.HalfWidth())]
    ensures |v| > 0 && |v[0]| > 0 && v[0][0] == NegInf ==> r[0] == [Fin(-view.HalfWidth())]
    ensures |v| > 1 && |v[1]| > 0 && v[1][0] == PosInf ==> r[1] == [Fin(view.HalfHeight())]
    ensures |v| > 1 && |v[1]| > 0 && v[1][0] == NegInf ==> r[1] == [Fin(-view.HalfHeight())]
  {
    seq(|v|, j requires 0 <= j < |v| => ClampRow(view, j, v[j]))
  }

  /** Clamping a clamped endpoint changes nothing more. */
  lemma ClampIdempotent(view: Viewport, v: Matrix)
    ensures ClampEndpoint(view, ClampEndpoint(view, v)) == ClampEndpoint(view, v)
  {
  }

  /** A drawn column endpoint is finite in x and y and keeps the shape of a column. */
  lemma ClampedColumnIsFinite(view: Viewport, v: Matrix)
    requires IsColumn(v)
    ensures IsColumn(ClampEndpoint(view, v))
    ensures ClampEndpoint(view, v)[0][0].Fin? && ClampEndpoint(view, v)[1][0].Fin?
  {
  }

  /** The clamp of one coordinate: +-Infinity to +-half, finite values unchanged. */
  function ClampTo(half: real, e: ER): ER {
    match e
    case PosInf => Fin(half)
    case NegInf => Fin(-half)
    case Fin(_) => e
  }

  /** On a column the clamp pins x to the half-width and y to the half-height and leaves
      z and w untouched. */
  lemma ClampColumn(view: Viewport, x: ER, y: ER, z: ER, w: ER)
    ensures ClampEndpoint(view, Col4(x, y, z, w))
            == Col4(ClampTo(view.HalfWidth(), x), ClampTo(view.HalfHeight(), y), z, w)
  {
    var r := ClampEndpoint(view, Col4(x, y, z, w));
    assert r[0] == [ClampTo(view.HalfWidth(), x)];
    assert r[1] == [ClampTo(view.HalfHeight(), y)];
  }

  /** `drawLine`: both endpoints clamped; the caller's vectors are values and stay as they were. */
  function DrawLine(view: Viewport, start: Matrix, finish: Matrix): Segment {
    Segment(ClampEndpoint(view, start), ClampEndpoint(view, finish))
  }

  /** A horizon line, x running from -Infinity to +Infinity at a finite height, is drawn
      from the left edge of the viewport to the right edge at that height. */
  lemma DrawHorizon(view: Viewport, y: ER, z: ER, w: ER)
    requires y.Fin?
    ensures var half := view.HalfWidth();
            DrawLine(view, Col4(NegInf, y, z, w), Col4(PosInf, y, z, w))
              == Segment(Col4(Fin(-half), y, z, w), Col4(Fin(half), y, z, w))
  {
    ClampColumn(view, NegInf, y, z, w);
    ClampColumn(view, PosInf, y, z, w);
  }

  /** A depth line, z running from -Infinity to +Infinity, is drawn between its two
      endpoints unchanged when their x and y are finite. */
  lemma DrawDepthLine(view: Viewport, x0: ER, y0: ER, x1: ER, y1: ER, w: ER)
    requires x0.Fin? && y0.Fin? && x1.Fin? && y1.Fin?
    ensures DrawLine(view, Col4(x0, y0, NegInf, w), Col4(x1, y1, PosInf, w))
            == Segment(Col4(x0, y0, NegInf, w), Col4(x1, y1, PosInf, w))
  {
    ClampColumn(view, x0, y0, NegInf, w);
    ClampColumn(view, x1, y1, PosInf, w);
  }

  // ---------------------------------------------------------------------------
  // renderShape

  /** `translate(center) * transformation`: the matrix taking a vertex to camera space. */
  function CameraMatrix(shape: Shape, transformation: Matrix): (T: Matrix)
    requires IsColumn(shape.center) && IsMatrix(transformation, 4, 4)
    ensures IsMatrix(T, 4, 4)
    ensures transformation == Identity() ==> T == Translate(shape.center[0][0], shape.center[1][0], shape.center[2][0])
  {
    var translation := Translate(shape.center[0][0], shape.center[1][0], shape.center[2][0]);
    MultIdentityRight(translation, 4);
    Mult(translation, transformation)
  }

  /** The vertex v in camera space does not clamp to depth zero. */
  predicate HasDepth(screenZ: real, clipZ: real, T: Matrix, v: Matrix)
    requires IsMatrix(T, 4, 4) && IsColumn(v)
  {
    ClampDepth(screenZ, clipZ, Mult(T, v)[2][0]) != 0.0
  }

  /** `project(screenZ, clipZ, c.z) * c` for the camera-space point c = T * v: the
      perspective divide scales x and y by screenZ over the clamped depth, and the depth
      and w pass through unchanged. */
  function ProjectVertex(screenZ: real, clipZ: real, T: Matrix, v: Matrix): (p: Matrix)
    requires IsMatrix(T, 4, 4) && IsColumn(v) && HasDepth(screenZ, clipZ, T, v)
    ensures var c := Mult(T, v);
            var f := screenZ / ClampDepth(screenZ, clipZ, c[2][0]);
            p == Col4(Times(f, c[0][0]), Times(f, c[1][0]), c[2][0], c[3][0])
  {
    var c := Mult(T, v);
    MultProjectColumn(screenZ, clipZ, c[2][0], c);
    Mult(Project(screenZ, clipZ, c[2][0]), c)
  }

  /** The projection of a vertex whose camera-space position and clamped depth are known. */
  lemma ProjectKnownVertex(screenZ: real, clipZ: real, T: Matrix, v: Matrix,
                           x: ER, y: ER, z: ER, w: ER, depth: real)
    requires IsMatrix(T, 4, 4) && IsColumn(v)
    requires Mult(T, v) == Col4(x, y, z, w)
    requires ClampDepth(screenZ, clipZ, z) == depth && depth != 0.0
    ensures HasDepth(screenZ, clipZ, T, v)
    ensures ProjectVertex(screenZ, clipZ, T, v) == Col4(Times(screenZ / depth, x), Times(screenZ / depth, y), z, w)
  {
  }

  predicate Renderable(screenZ: real, clipZ: real, shape: Shape, transformation: Matrix) {
    && WellFormed(shape)
    && IsMatrix(transformation, 4, 4)
    && forall i :: 0 <= i < |shape.vertices| ==>
         HasDepth(screenZ, clipZ, CameraMatrix(shape, transformation), shape.vertices[i])
  }

  /** The cache after `transformed[i] = ...` for every vertex i: the new projections in
      front, stale entries of a longer old cache left behind them. */
  function Overwrite(cache: seq<Matrix>, projected: seq<Matrix>): (r: seq<Matrix>)
    ensures |r| == if |cache| > |projected| then |cache| else |projected|
    ensures forall i :: 0 <= i < |projected| ==> r[i] == projected[i]
    ensures forall i :: |projected| <= i < |cache| ==> r[i] == cache[i]
  {
    if |cache| > |projected| then projected + cache[|projected|..] else projected
  }

  datatype Rendered = Rendered(shape: Shape, segments: seq<Segment>)

  /** `renderShape(window, shape, transformation)`: projects every vertex into the cache,
      then emits one clamped segment per edge, in edge order. */
  function RenderShape(view: Viewport, screenZ: real, clipZ: real, shape: Shape,
                       transformation: Matrix): (r: Rendered)
    requires Renderable(screenZ, clipZ, shape, transformation)
    ensures r.shape.center == shape.center && r.shape.vertices == shape.vertices && r.shape.edges == shape.edges
    ensures |r.shape.transformed|
            == if |shape.transformed| > |shape.vertices| then |shape.transformed| else |shape.vertices|
    ensures forall i :: 0 <= i < |shape.vertices| ==>
              r.shape.transformed[i]
              == ProjectVertex(screenZ, clipZ, CameraMatrix(shape, transformation), shape.vertices[i])
    ensures forall i :: |shape.vertices| <= i < |shape.transformed| ==> r.shape.transformed[i] == shape.transformed[i]
    ensures |r.segments| == |shape.edges|
    ensures forall i :: 0 <= i < |shape.edges| ==>
              r.segments[i]
              == DrawLine(view, r.shape.transformed[shape.edges[i].a], r.shape.transformed[shape.edges[i].b])
  {
    var T := CameraMatrix(shape, transformation);
    var projected := seq(|shape.vertices|, i requires 0 <= i < |shape.vertices| =>
                   ProjectVertex(screenZ, clipZ, T, shape.vertices[i]));
    var cache := Overwrite(shape.transformed, projected);
    var segments := seq(|shape.edges|, i requires 0 <= i < |shape.edges| =>
                      DrawLine(view, cache[shape.edges[i].a], cache[shape.edges[i].b]));
    Rendered(shape.(transformed := cache), segments)
  }

  /** `transformCenter(T, shape)`: only the centre moves. */
  function TransformCenter(T: Matrix, shape: Shape): (r: Shape)
    requires IsMatrix(T, 4, 4) && IsColumn(shape.center)
    ensures IsColumn(r.center)
    ensures r.vertices == shape.vertices && r.edges == shape.edges && r.transformed == shape.transformed
  {
    shape.(center := Mult(T, shape.center))
  }

  /** A finite centre with w = 1 is carried by a translation to centre + offset. */
  lemma TransformCenterTranslates(tx: real, ty: real, tz: real, shape: Shape)
    requires IsColumn(shape.center) && shape.center[3][0] == Fin(1.0)
    requires shape.center[0][0].Fin? && shape.center[1][0].Fin? && shape.center[2][0].Fin?
    ensures TransformCenter(Translate(Fin(tx), Fin(ty), Fin(tz)), shape).center
            == Col4(Fin(shape.center[0][0].v + tx), Fin(shape.center[1][0].v + ty),
                    Fin(shape.center[2][0].v + tz), Fin(1.0))
  {
    MultTranslateColumn(tx, ty, tz, shape.center);
  }
}

# Wireframe renderer with a recycled floor, in Dafny

This project models the pure core of `main.js`, a small canvas engine that draws a wireframe scene in perspective.
The scene is an "infinite floor" of line tiles, which are recycled as the camera moves.
The modelled pieces are:

- **Extended-real matrix product** (`matrixMult`).
  Coordinates are reals or the two infinities (`ExtReal.ER`).
  The first pair in a cell that multiplies an infinity by a nonzero number saturates the cell to a signed infinity.
  A pair with an infinity and an exact zero is skipped.
  `Matrices.CellFrom` mirrors the loop.
  `Saturates`, `Limit`, `Term` and `Dot` give an independent reference meaning.
- **Matrix builders** `identityMatrix`, `translate` and `project`, including the depth clamp of `project`, and `matrixScale` (`Transforms`).
- **Rendering** (`Render`).
  - The projection and edge order of `renderShape` is modelled, and so is `transformCenter`.
  - The endpoint clamping of `drawLine` is modelled: an infinite x or y is pinned to the edge of the viewport.
  - A drawn line is the pair of clamped endpoints handed to the canvas.
- **Tiles** (`Tiles`).
  - A tile's template snapshot and its bounds box.
  - `isOutside`, with its one-unit margin.
  - `reset`, which teleports a tile that left its range to the opposite end of its governing axis: z for horizontal tiles and x for vertical tiles.
- **Seed geometry and rendering of one seed tile** (`Floor`).
  - The horizontal loop of `generateFloor`.
  - What rendering a horizontal line (x from -Infinity to +Infinity) or a vertical line (z from -Infinity to +Infinity) caches and draws.
- **One frame of `Main.draw`** (`Frame`).
  - The camera direction is read off the key maps.
  - One camera translation is applied to every tile centre.
  - Each tile is rendered, classified and reset, and the key maps are cleared.
  - Runs of frames are modelled, with key events arriving between frames.

Vectors are 4x1 column matrices, so each vector component is a one-element row `[x]`, as in the engine.
Where main.js passes such a one-element array on as a scalar, the model unwraps it to its entry.
This happens in two places in `renderShape`:
- it hands `center[0]`, `center[1]` and `center[2]` to `translate`;
- it hands the projected depth `transformed[i][2]` to `project`, which compares it with the infinities and divides `screenZ` by it.

In `isOutside` the only such array is the projected x `transformed[1][0]`, which it compares with the x range; the centre it reads down to the number.
JavaScript coerces a one-element array to its entry in arithmetic and in comparisons with a number, so the values are the same.
The screen distance, clip distance and viewport size are parameters (`Floor.Params`).

## Model

| member | source | states |
|---|---|---|
| ExtReal.Sign | main.js:106-123 | the sign the loop reads off an operand is -1, 0 or +1; it is 0 exactly for a finite zero and positive exactly for +Infinity or a positive number |
| Matrices.Mult | main.js:96-142 | the product of conformable operands has as many rows as A, each with `Cols(B)` entries, and entry (i, j) is the k-loop `Cell` over row i of A and column j of B; what that loop computes is stated by Matrices.CellFromSpec and its corollaries |
| Matrices.PairStepMatchesReference | main.js:104-135 | one turn of the k-loop (`PairStep`) saturates exactly on a pair with an infinity and no zero operand, and then yields that pair's limit; otherwise it skips or adds the pair's finite product, and a skip contributes zero |
| Matrices.SaturationTable | main.js:104-131 | +Infinity times a positive is +Infinity and times a negative is -Infinity; -Infinity times a negative is +Infinity; an infinity times an exact zero is skipped; -Infinity times -Infinity is +Infinity and +Infinity times -Infinity is -Infinity |
| Matrices.CellFromSpec | main.js:103-137 | the k-loop `CellFrom` and `Cell` over it agree with the reference: loop and reference agree from any entry point with no earlier saturation: with no saturating pair the cell is the finite dot product, and otherwise it is the limit of the lowest-index saturating pair |
| Matrices.CellSaturates | main.js:104-131 | when pair m saturates and no earlier pair does, the cell is that pair's signed infinity, whatever the other pairs hold |
| Matrices.CellFinite | main.js:102-135 | with no saturating pair the cell is the ordinary dot product of the pairs, where zero-times-infinity pairs count zero |
| Matrices.CellInfiniteIffSaturating | main.js:102-138 | a cell is infinite if and only if some pair of its row and column saturates |
| Matrices.CellFromSymmetric | main.js:103-137 | the loop treats A[i][k] and B[k][j] alike, so swapping row and column gives the same cell |
| Transforms.Identity | main.js:206-213 | the identity is 4x4 with 1 on the diagonal and 0 elsewhere; Transforms.MultIdentityLeft and MultIdentityRight give its meaning as the unit of the product |
| Transforms.Translate | main.js:196-203 | translate(tx, ty, tz) is 4x4; Transforms.TranslateExtendsIdentity states its entries and Transforms.MultTranslateColumn what it does to a column |
| Transforms.TranslateExtendsIdentity | main.js:196-213 | translate(tx, ty, tz) is the identity with its last column replaced by (tx, ty, tz, 1), so translate(0, 0, 0) is the identity |
| Transforms.Project | main.js:181-194 | the perspective matrix is 4x4 and finite whenever the clamped depth is nonzero |
| Transforms.CellScaledUnitRow | main.js:104-135 | a row that is zero except for a finite factor f at position i picks column entry i scaled by f; an infinity keeps or flips its sign with f, and f = 0 gives 0 |
| Transforms.CellAffineRow | main.js:104-135 | a translation row adds its offset to entry i of a column with w = 1; infinities stay infinite |
| Transforms.MultIdentityLeft | main.js:206-213 | identity times any matrix with four rows returns it, infinities included |
| Transforms.MultIdentityRight | main.js:216-220 | any matrix with four columns and at most four rows times identity is itself, so the default transformation leaves `translate(center)` unchanged |
| Transforms.MultTranslateColumn | main.js:196-203 | translate(tx, ty, tz) applied to a column with w = 1 adds the offset to x, y and z; infinite coordinates stay put and w stays 1 |
| Transforms.MultProjectColumn | main.js:188-193 | project applied to a column scales x and y by screenZ over the clamped depth, and leaves z and w unchanged |
| Transforms.ProjectClamp | main.js:181-187 | project at +Infinity equals project at clipZ, and project at -Infinity equals project at screenZ, which is what the depth clamp `ClampDepth` gives |
| Transforms.ScaleEntry | main.js:147 | the scaled entry is undefined (NaN) exactly when the factor is zero and the entry infinite |
| Transforms.Scale | main.js:144-151 | matrixScale fails exactly when s = 0 and some entry is infinite; otherwise it keeps the shape and scales every entry |
| Transforms.ScaleByOne | main.js:144-151 | scaling by 1 returns the matrix |
| Transforms.ScaleCompose | main.js:144-151 | scaling by nonzero s and then t equals scaling by s times t |
| Render.ClampEndpoint | main.js:242-263 | an endpoint keeps its length and its z and w rows; finite rows are unchanged; +-Infinity in x becomes +-width/2 and in y becomes +-height/2 |
| Render.ClampIdempotent | main.js:238-265 | clamping an already clamped endpoint changes nothing |
| Render.ClampedColumnIsFinite | main.js:244-261 | a clamped column is still a column, with finite x and y |
| Render.ClampColumn | main.js:243-262 | a drawn line (`DrawLine`) is the pair of its clamped ends, and on a column the clamp acts on x with the half-width, on y with the half-height, and not at all on z and w |
| Render.DrawHorizon | main.js:244-257 | a line from x = -Infinity to x = +Infinity at a finite height is drawn from the left edge to the right edge at that height |
| Render.DrawDepthLine | main.js:238-265 | a line from z = -Infinity to z = +Infinity whose ends have finite x and y, which may differ between the ends, is drawn with its endpoints unchanged |
| Render.CameraMatrix | main.js:219-220 | the camera matrix translate(center) times the transformation is 4x4, and with the identity transformation it is translate(center) itself |
| Render.ProjectVertex | main.js:222-223 | the projected vertex is the camera-space point with x and y scaled by screenZ over its clamped depth, and z and w unchanged |
| Render.ProjectKnownVertex | main.js:222-223 | when T times v is known and its clamped depth is nonzero, the projection is that point with x and y scaled by screenZ over the depth |
| Render.Overwrite | main.js:221-224 | the cache holds the new projections at the first indices and keeps older entries beyond them |
| Render.RenderShape | main.js:215-230 | centre, vertices and edges are kept; cache entry i is the projection of vertex i; one segment per edge, in edge order, each drawing the cached ends of its edge |
| Render.TransformCenter | main.js:233-235 | only the centre changes, and it stays a column |
| Render.TransformCenterTranslates | main.js:233-235 | transforming a finite centre by a translation moves it by the offset |
| Tiles.NewTile | main.js:293-308 | the working copy is built from the given centre, vertices and edges with an empty projected cache; the template equals it; the type is the given one; the bounds (`TileBounds`) are the viewport's half extents in x and y and screenZ..clipZ in z, which Floor.SeedTile requires of every tile |
| Tiles.Classify | main.js:341-346 | -1 exactly when more than one unit below the range, +1 exactly when not below and more than one unit above, 0 otherwise |
| Tiles.IsOutside | main.js:339-362 | every component is in {-1,0,1}; z and y come from the centre and x from the projected x of the second vertex, each against its range with a one-unit margin; each component is 0 exactly inside the margin and -1 exactly below it |
| Tiles.Teleport | main.js:313-316 | the centre is restored from the template with one coordinate overwritten; vertices and edges come from the template; template, bounds, type and cache are kept |
| Tiles.Reset | main.js:310-337 | horizontal with dir.z = -1 moves the tile to z = clipZ and with +1 to z = screenZ; vertical with dir.x = -1 moves it to x = w/2 and with +1 to x = -w/2; every other combination changes nothing; template, bounds and type are kept |
| Tiles.ResetIdempotent | main.js:310-337 | resetting twice with the same direction equals resetting once |
| Tiles.ResetBringsDepthInside | main.js:310-345 | after a horizontal tile is reset along z, the z component of isOutside is 0 |
| Tiles.RecycleHorizontal | main.js:310-346 | a horizontal tile more than a unit in front of the screen is sent to clipZ, one more than a unit behind the clip plane is sent to screenZ, and one inside the margin is untouched |
| Tiles.RecycleVertical | main.js:324-352 | a vertical tile whose projected far x is more than a unit left of the viewport is sent to the right edge, one more than a unit right of it to the left edge, and one inside the margin is untouched |
| Floor.HorizontalRow | main.js:444-453 | every generated tile is a horizontal seed tile; the row is empty exactly when the start depth is not before the clip distance; and the row reaches the clip distance, since start + 200 times its length is at least clipZ |
| Floor.HorizontalRowAt | main.js:444-450 | tile i of the row is centred at x = 0 and y = height/2, at depth start + 200 i, which lies before the clip distance |
| Floor.SeedRenderable | main.js:219-223 | a seed line with a finite centre, and a horizontal one in front of the camera, never projects with depth zero; its camera matrix is translate(center) |
| Floor.SeedCamera | main.js:219-222 | the camera-space ends of a seed line are the centre with x (horizontal) or z (vertical) replaced by -Infinity and +Infinity |
| Floor.RenderLine | main.js:221-229 | rendering a one-edge shape caches its two projected ends and draws exactly the one line between them |
| Floor.RenderHorizon | main.js:221-265 | a shape whose ends project to the two ends of a horizon is drawn across the full viewport width at that height |
| Floor.ProjectHorizontalSeed | main.js:219-223 | a horizontal line at positive depth z projects to x = -Infinity and +Infinity at height screenZ/z times the centre's y, at depth z |
| Floor.ProjectVerticalSeed | main.js:219-223 | a vertical line's near end stays at the centre's x and y, and its far end is scaled by screenZ/clipZ towards the vanishing point |
| Floor.ProjectVerticalNear | main.js:182-189 | the near end of a vertical line clamps to screenZ, where the perspective factor is 1 |
| Floor.ProjectVerticalFar | main.js:182-189 | the far end of a vertical line clamps to clipZ, where x and y are scaled by screenZ/clipZ |
| Floor.RenderDepthLine | main.js:221-265 | a shape whose ends project to finite points at z = -Infinity and +Infinity is drawn between exactly those points |
| Floor.RenderVerticalSeed | main.js:219-229 | rendering a vertical seed line draws from the centre to its image scaled by screenZ/clipZ |
| Frame.UpdateDir | main.js:394-412 | s overrides w and d overrides a; a keyup of w or s zeroes z, and one of a or d zeroes x, after the keydowns; with no events on an axis that axis keeps its value; y is never written; a unit direction stays a unit direction |
| Frame.CameraTranslation | main.js:414-418 | the camera translation is 4x4 with offset dir.x times the camera speed 10 in x, 0 in y and dir.z times 10 in z; what it does to a centre is Frame.CameraMovesCenter |
| Frame.CameraMovesCenter | main.js:414-421 | the camera translation moves a finite centre by dir.x times 10 in x and dir.z times 10 in z, whatever dir.y holds |
| Frame.Moved | main.js:420-421 | the moved tile keeps its template, bounds, type, vertices and edges, and its centre is shifted by the camera step |
| Frame.MovedRenderable | main.js:420-422 | a seed tile moved one step can be rendered without depth zero |
| Frame.Drawn | main.js:421-422 | the rendered tile has the moved centre, the seed geometry and a cache that isOutside can read |
| Frame.Drawing | main.js:422 | rendering a tile draws exactly one segment |
| Frame.StepTile | main.js:420-425 | one turn of the loop keeps a seed tile a seed tile, with its template, bounds and type, and draws one segment |
| Frame.StepHorizontalTile | main.js:420-425 | a horizontal tile whose moved depth is more than a unit in front of the screen is sent to clipZ, one more than a unit behind the clip plane to screenZ, and otherwise it stays where the camera moved it |
| Frame.StepHorizontalDraws | main.js:420-422 | a horizontal tile draws its horizon, from x = -Infinity to +Infinity at screenZ over the moved depth times its height |
| Frame.DrawnFarX | main.js:347-352 | isOutside reads a vertical tile's x as the moved centre's x scaled by screenZ/clipZ; a horizontal tile reads +Infinity and is always classified outside on x |
| Frame.StepVerticalTile | main.js:420-425 | a vertical tile whose projected far x leaves the viewport by more than a unit on one side is sent to the opposite edge; otherwise it stays where the camera moved it |
| Frame.StepVerticalDraws | main.js:420-422 | a vertical tile draws from the moved centre at the screen to its image at the clip distance |
| Frame.StepAll | main.js:420-425 | the loop keeps the number of tiles, steps tile i exactly as one turn would, draws one segment per tile in order, and keeps the pool of seed tiles |
| Frame.ClearKeyEvents | main.js:90-93 | both key maps are empty afterwards, and direction and tiles are untouched |
| Frame.Draw | main.js:388-430 | the new direction is the key update of the old one; y is kept; the key maps are cleared; the tile count and the pool are kept; tile i is the one-turn step of the old tile i; one segment per tile, and segment i is the one that step of tile i draws |
| Frame.DirectionPersists | main.js:394-412 | a frame with no key events keeps the camera direction |
| Frame.Receive | main.js:68-76 | the keydown and keyup listeners add every key pressed or released to their maps, keep keys already there, and touch neither direction nor tiles |
| Frame.Run | main.js:388-430 | any run of frames keeps the tile count, the pool and a unit direction with y unchanged, and leaves the key maps empty after at least one frame |
| Frame.InitialWorld | main.js:377-380 | the initial world holds horizontal seed tiles, a camera at rest and empty key maps; it has a tile exactly when screenZ is before clipZ |
| Frame.CameraStaysLevel | main.js:384-418 | from the initial world every run of frames keeps the camera's y direction at 0 and keeps the tile count |

## Left out

- The window, canvas and DOM: `Window`, `clearWindow`, `beginPath`, `arc`, `moveTo`, `lineTo` and `stroke`. A drawn line is returned as a `Segment` instead.
- The `Math.floor` pixel rounding in `drawLine`, which rounds before drawing.
- The mouse and keyboard listeners, which are asynchronous host callbacks. `Frame.Receive` models their effect on the key maps as set union. The mouse position is not read by the core.
- `run`, `update` and `requestAnimationFrame`, which are host scheduling. `Frame.Run` models the resulting sequence of frames.
- `rotateX`, `rotateY` and `rotateZ`, which are trigonometry and unused by the frame.
- The `tan`-based screen distance and `startX`, and the vertical-tile generation loop: floating-point trigonometry. Vertical tiles are still modelled: `Frame.Pool` admits them and `Frame.StepVerticalTile` covers their recycling.
- `getAngle`, which is an empty stub.
- IEEE floating point. Reals are exact. NaN from matrixScale is `None`. Division by a zero depth is excluded by a precondition.
- The `transformation == null` default of `renderShape`. Render.RenderShape takes the transformation as a required argument. The frame calls `renderShape` without one (main.js:422), so the default identity (main.js:216-218) applies; `Frame` passes `Identity()` explicitly.
- Transforms.Project: requires the clamped depth to be nonzero, because main.js would divide by zero there and produce Infinity or NaN.
- Render.RenderShape: requires every vertex to project with nonzero clamped depth, for the same reason.
- Matrices.Mult: requires rectangular operands with no more rows in A than in B. main.js reads the column count from `B[i]` and would fail on a missing row. It also requires every row of A to be exactly as long as B is tall (`Conformable`). main.js accepts a shorter row of A and sums over its entries only. The model does not cover that case. The renderer only multiplies 4x4 by 4x4 or 4x1, where `B[i].length` is the column count.
- Frame.Draw: requires every tile to be a seed tile and screenZ > 1 + 10 (`Frame.ValidParams`). With these, no horizontal tile reaches depth 0 before it is recycled. main.js makes no such check. With a smaller screen distance a tile can reach depth 0 or below before it is recycled: at 0 main.js divides by zero, and below 0 it draws the tile mirrored.
- Frame.StepTile, Frame.StepAll and Frame.Run: carry the same preconditions as Frame.Draw.
- Frame.StepHorizontalDraws: states the drawn segment as `drawLine` of the horizon's two infinite ends. That it runs edge to edge of the viewport is the separate lemma Render.DrawHorizon, and the two are not composed into one statement.
- Tiles.IsOutside: reads the projected x as a number. main.js compares the one-element array `transformed[1][0]`, which JavaScript coerces to the same number.
- Transforms.Scale: returns a new matrix, whereas main.js scales its argument in place and returns it.

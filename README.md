# Leaflet.glify points layer, modelled in Dafny

Leaflet.glify draws large point sets on a Leaflet map with WebGL. This project
models the CPU side of its `Points` layer (`src/js/glify/points.js`) and the
shared helpers it uses (`src/js/glify.js`):

- construction from user settings: the `defaults` merge, the four required
  settings, and the failure without a WebGL context;
- colour resolution: a palette name, a colour object, or a generator that
  is called once per point;
- `render`:
  - it empties the vertex buffer and the click index;
  - for every data point it projects and indexes the point, then appends
    x, y, r, g, b to the interleaved buffer;
  - it writes the canvas-to-clip base matrix;
- `latLngToPixelXY`: the zoom-0 projection, which also appends the point to
  the bucket of its 0.01° grid cell;
- `setData`;
- the per-frame transform of `drawOnCanvas`: the base matrix, scaled in place
  by 2^zoom (`scaleMatrix`), then translated in place by minus the viewport
  corner (`translateMatrix`); also the point size and the draw count;
- the click lookup: a scan of the 7×7 cells around the click, then
  `closestPoint`, the nearest candidate by planar distance.

Modules:

- `Glify` (glify.dfy) models `defaults`, the x half of `latLonToPixelXY` and `color.pallet`.
- `Grid` (grid.dfy) models the cell index and the scan window.
- `Nearest` (nearest.dfy) models `closestPoint`.
- `Matrix` (matrix.dfy) holds the matrix functions that specify the in-place methods.
- `PointsLayer` (points.dfy) holds the setting values, colour resolution, the vertex buffer and the class `Points`.

The class `Points` keeps the source's mutable state:
- `settings` and `verts` are sequence fields;
- `latLngLookup` is a map from cells to buckets;
- `mapMatrix` and `pixelsToWebGLMatrix` are 16-entry arrays updated in place.

Outside inputs are parameters:
- the canvas size;
- whether a WebGL context exists;
- the zoom and the viewport's north-west corner;
- the y half of the projection, an uninterpreted function `projectY`;
- the stream of `Math.random()` values and the outcome of each call of a user colour function (a returned value, or an exception), both in `Env`.

Notes on the source's behaviour:

- The constructor checks the caller's own settings object for truthy values, not the merged settings. An omitted `data` is rejected even though the merged default `[]` is truthy (`OmittedDataIsRejected`).
- `closestPoint` throws on an empty candidate list, because `reduce` without an initial value throws on an empty array. So a click with no point nearby throws.
- `setData` only replaces `settings.data`. The buffer and the index change only at the next `render`.
- Shader compile and link status are never checked. Without a WebGL context, construction throws a TypeError at the first WebGL call.
- `drawOnCanvas` reads `settings.data.length` last, after the corner is indexed and both matrices are written. A null or undefined `data` (reachable through `setData`) throws there.
- The frame at zoom 0 equals the base matrix only when the pixel offset is (0, 0). The geographic corner (0, 0) projects to x = 128, not 0.

## Model

| member | source | states |
|---|---|---|
| Glify.Defaults | src/js/glify.js:5-14 | the result has exactly the keys of `defs`; a key takes the user's value whenever the user object has it (even a falsy one), and the default otherwise |
| Glify.MergedNothing | src/js/glify.js:5-14 | merging no user settings yields the defaults |
| Glify.MergedIdempotent | src/js/glify.js:5-14 | merging the merged settings again changes nothing |
| Glify.MergedDropsUnknown | src/js/glify.js:9-10 | a user key that is not among the defaults never reaches the settings |
| Glify.ProjectX | src/js/glify.js:30 | longitudes in [-180, 180] project into [0, 256]; -180 goes to 0 and 180 to 256 |
| Glify.ProjectXRoundTrip | src/js/glify.js:30 | the x projection and its inverse undo each other in both directions |
| Glify.ProjectXStrictlyIncreasing | src/js/glify.js:30 | a < b exactly when ProjectX(a) < ProjectX(b) |
| Glify.LatLonToPixelXY | src/js/glify.js:25-33 | x is the linear longitude projection and y the (uninterpreted) Mercator projection of the latitude; x stays in [0, 256] on valid longitudes |
| Glify.JsRound | src/js/glify.js:53 | Math.round's result is within half a unit of its argument, halves going up |
| Glify.Pallet | src/js/glify.js:52-65 | the switch yields a colour exactly for choices 0..4, and that colour is one of the five named colours |
| Glify.PalletPick | src/js/glify.js:52-53 | `Math.round(u * 4)` picks a colour exactly when -0.125 <= u < 1.125, and the colour is always one of the five pallet colours |
| Glify.PalletNeverUndefined | src/js/glify.js:52-65 | for every Math.random() value, `pallet` returns one of its five colours and never undefined |
| Glify.PalletReachesEveryColor | src/js/glify.js:52-65 | each of the five colours is returned for some random draw |
| Grid.Hundredths | src/js/glify/points.js:297 | a coordinate's cell index n satisfies n - 0.5 <= 100·v < n + 0.5, so every cell is a 0.01° interval |
| Grid.HundredthsShift | src/js/glify/points.js:386-389 | moving a coordinate by k hundredths moves its cell by exactly k |
| Grid.HundredthsClose | src/js/glify/points.js:297 | coordinates at most 0.03° apart lie in cells at most 3 apart |
| Grid.HundredthsCloseIsTight | src/js/glify/points.js:373-377 | the 0.03° scan radius is the largest that always stays within 3 cells: coordinates 0.031° apart can be 4 cells apart |
| Grid.HundredthsNear | src/js/glify/points.js:297 | cells at most 3 apart hold coordinates less than 0.04° apart |
| Grid.Insert | src/js/glify/points.js:297-312 | inserting appends the point to its own cell's bucket (creating it if missing) and leaves every other bucket unchanged |
| Grid.IndexOf | src/js/glify/points.js:112 | the index is built by inserting the points one by one into an empty object: it is empty exactly when there are no points, and the last point is in its own cell's bucket |
| Grid.InCellMembers | src/js/glify/points.js:297-312 | the points filtered for a cell are exactly the data points carrying that cell |
| Grid.IndexOfBuckets | src/js/glify/points.js:297-312 | after inserting a sequence into an empty index, each bucket holds exactly that cell's points in data order, and a bucket exists exactly for the occupied cells |
| Grid.InsertKeepsKeysAgree | src/js/glify/points.js:297-312 | insertion keeps every stored point in the bucket named by its own key |
| Grid.IndexOfKeysAgree | src/js/glify/points.js:297-312 | an index built by insertions stores every point under its own key |
| Grid.RowScanMembers | src/js/glify/points.js:388-398 | one scanned row holds exactly the points of the buckets in its columns |
| Grid.GridScanMembers | src/js/glify/points.js:386-400 | the scan holds exactly the points of the buckets in its rows × columns |
| Grid.WindowMembers | src/js/glify/points.js:372-400 | the click window holds exactly the stored points whose cell is within 3 cells of the click's cell on both axes |
| Grid.Window | src/js/glify/points.js:386-400 | the scan covers the 7×7 cells around the click, latitude rows outer and longitude columns inner; every point in the click's own cell is a candidate |
| Grid.WindowFindsNeighbours | src/js/glify/points.js:372-400 | completeness: an indexed point within 0.03° of the click on both axes is a candidate |
| Grid.WindowOnlyNear | src/js/glify/points.js:372-400 | soundness: every candidate is an indexed point less than 0.04° from the click on both axes |
| Grid.ToFixed2 | src/js/glify/points.js:297 | `toFixed(2)` as written: a minus sign exactly for negative values, and the magnitude rounded to hundredths |
| Grid.ToFixedScanSkipsNegativeZero | src/js/glify/points.js:386-389 | with toFixed keys (the seven row keys of the scan, as written, are `Grid.ScannedFixedKeys`), a point at latitude -0.001 (key "-0.00") is in none of the rows scanned for a click at 0.001 |
| Grid.ScanRowsAreConsecutive | src/js/glify/points.js:386-389 | with cell keys, the k-th scanned row is the click's cell - 3 + k, so the scan visits seven consecutive cells |
| Grid.ScanStep | src/js/glify/points.js:386-388 | the scan loop runs exactly seven times, each step of 0.01 moving to the next hundredth |
| Nearest.Dist2 | src/js/glify/points.js:412-421 | the squared planar distance is never negative |
| Nearest.Reduced | src/js/glify/points.js:423-427 | the reduce's accumulator is always one of the candidates it has consumed |
| Nearest.Nearer | src/js/glify/points.js:423-426 | the reduce callback keeps one of its two points, never the farther one, and on a tie takes `curr` |
| Nearest.ClosestPoint | src/js/glify/points.js:411-428 | throws exactly when there are no candidates; otherwise returns one of them |
| Nearest.ReducedIsLastNearest | src/js/glify/points.js:423-427 | after each step the accumulator has the least distance so far, and every later candidate is strictly farther |
| Nearest.ClosestPointIsLastNearest | src/js/glify/points.js:411-428 | the result has minimal distance to the click, and among equally near candidates it is the last one |
| Nearest.TieGoesToLater | src/js/glify/points.js:426 | of two candidates at the same distance, the later one wins |
| Nearest.NearerOfTwo | src/js/glify/points.js:411-428 | for points (0, 0) and (0, 1) and a click at (0, 0.1), the result is (0, 0) |
| Matrix.Base | src/js/glify/points.js:163 | the base matrix has 16 entries |
| Matrix.Scaled | src/js/glify/points.js:340-354 | scaling gives a 16-entry matrix |
| Matrix.Translated | src/js/glify/points.js:323-332 | translating gives a 16-entry matrix |
| Matrix.ScaledChangesOnlyBasis | src/js/glify/points.js:340-354 | scaling multiplies entries 0–3 by sx and 4–7 by sy, and leaves 8–15 unchanged |
| Matrix.TranslatedChangesOnlyTranslation | src/js/glify/points.js:323-332 | translating leaves entries 0–11 unchanged and adds m[k]·tx + m[k+4]·ty to entry 12 + k |
| Matrix.ScaledEntries | src/js/glify/points.js:343-351 | eight per-entry updates in scaleMatrix's order produce the scaled matrix |
| Matrix.TranslatedEntries | src/js/glify/points.js:326-329 | four per-entry updates in translateMatrix's order produce the translated matrix |
| Matrix.ScaledByOne | src/js/glify/points.js:340-354 | scaling by (1, 1) is the identity |
| Matrix.TranslatedByZero | src/js/glify/points.js:323-332 | translating by (0, 0) is the identity |
| Matrix.ScaledTwice | src/js/glify/points.js:340-354 | two scalings compose into one scaling by the products of their factors |
| Matrix.TranslatedTwice | src/js/glify/points.js:323-332 | two translations compose into one by the sums of their offsets |
| Matrix.ScaleThenTranslate | src/js/glify/points.js:272-274 | translating after scaling by (sx, sy) equals translating by (sx·tx, sy·ty) first, then scaling |
| Matrix.OrderMatters | src/js/glify/points.js:272-274 | on the base matrix, scale-then-translate and translate-then-scale differ exactly when the scale is not 1 and the offset is not zero |
| Matrix.Pow2 | src/js/glify/points.js:260 | 2^zoom is positive |
| Matrix.Pow2Step | src/js/glify/points.js:260 | one more zoom level doubles the scale |
| Matrix.Frame | src/js/glify/points.js:265-274 | the frame matrix has 16 entries |
| Matrix.BaseMapsCanvasToClip | src/js/glify/points.js:163 | the base matrix sends canvas pixel (cx, cy) to clip (2cx/w - 1, 1 - 2cy/h) |
| Matrix.BaseCorners | src/js/glify/points.js:163 | the canvas's top-left corner goes to clip (-1, 1) and its bottom-right corner to (1, -1) |
| Matrix.ApplyScaledShifted | src/js/glify/points.js:272-274 | scaling by s and then translating by -o sends p where the original matrix sends s·(p - o) |
| Matrix.FrameMapsWorldToCanvas | src/js/glify/points.js:265-274 | the frame sends world pixel p to the clip position of canvas pixel 2^zoom·(p - offset) |
| Matrix.FrameCornerIsTopLeft | src/js/glify/points.js:257-274 | the viewport's own top-left corner is drawn at the canvas's top-left, clip (-1, 1) |
| Matrix.FrameAtOrigin | src/js/glify/points.js:260-274 | at zoom 0 with pixel offset (0, 0) the frame is the base matrix |
| Matrix.PointSize | src/js/glify/points.js:261 | the point size is max(zoom - 4, 1): at least 1 and at least zoom - 4, and equal to one of them |
| PointsLayer.MissingSetting | src/js/glify/points.js:10-13 | no error exactly when all required settings are truthy in the user's object; otherwise the error names the first falsy one in check order |
| PointsLayer.DefaultSettingsAre | src/js/glify/points.js:41-50 | the defaults have exactly the eight settings, with map null, data `[]`, color "red" and pointThreshold 10 |
| PointsLayer.OmittedDataIsRejected | src/js/glify/points.js:8-13 | leaving out `data` fails construction, even though the merged default `[]` is truthy |
| PointsLayer.EmptyDataIsAccepted | src/js/glify/points.js:10-13 | an explicit empty data array passes the checks |
| PointsLayer.ChannelsOf | src/js/glify/points.js:130-143 | reading r, g, b throws exactly on null or undefined; a colour object gives its own channels |
| PointsLayer.ResolveColor | src/js/glify/points.js:115-128 | the colour setting throws exactly when it is null or undefined; a function is called per point; a colour object colours every point; an unknown name gives undefined channels |
| PointsLayer.PaletteEntry | src/js/glify/points.js:52-74 | `Points.color[key]` finds an entry exactly for the seven string keys; a colour entry is one of the five pallet colours, and a function entry is `random` or `pallet` |
| PointsLayer.NamedColors | src/js/glify/points.js:41-74 | the default `red` and the other palette names resolve to Points.color's colours; `random` and `pallet` to per-point generators |
| PointsLayer.PointColor | src/js/glify/points.js:130-143 | a uniform colour is the same for every point |
| PointsLayer.CallResult | src/js/glify/points.js:58-132 | the generator call (`random` at lines 58-63, `pallet` at 65-73, the `colorFn()` call at 132): `random` returns a colour object of three fresh draws (3n, 3n+1, 3n+2 for the n-th call); `pallet` always returns one of its five colours; a user function's call throws exactly when the environment says so, with the exception passed on, and otherwise returns its value |
| PointsLayer.BuiltinGeneratorsNeverThrow | src/js/glify/points.js:58-73 | `random` gives three channels in [0, 1) and `pallet` one of its five colours, for every point |
| PointsLayer.NullishUserColorThrows | src/js/glify/points.js:130-135 | a user function returning null or undefined for a point makes that point throw a TypeError |
| PointsLayer.UserColorThrowPropagates | src/js/glify/points.js:130-135 | a user function that throws at a point makes that point throw the same exception; any other non-nullish return gives the point a colour |
| PointsLayer.FirstFailure | src/js/glify/points.js:130-136 | no failure exactly when every point's colour succeeds; otherwise the first point whose colour throws |
| PointsLayer.FirstFailureAt | src/js/glify/points.js:130-136 | a throwing point after a run of successful ones is the first failure of any longer prefix |
| PointsLayer.Colors | src/js/glify/points.js:130-143 | the colour list has one colour per point |
| PointsLayer.ColorsAgree | src/js/glify/points.js:130-143 | entry i of the colour list is point i's colour, the generator's i-th call in data order |
| PointsLayer.Pixels | src/js/glify/points.js:130-143 | one pixel per data point |
| PointsLayer.PixelOf | src/js/glify/points.js:300-306 | the pixel object keeps the point's latitude and longitude, its x is the projection of the longitude (in [0, 256] for valid longitudes) and its y the projection of the latitude, and its key is the point's cell |
| PointsLayer.PixelsAgree | src/js/glify/points.js:130-143 | pixel i is the projection of data point i |
| PointsLayer.PixelsAppend | src/js/glify/points.js:130-143 | projecting one more data point appends its pixel |
| PointsLayer.PixelsKeyed | src/js/glify/points.js:297-305 | every pixel carries the cell of its own position |
| PointsLayer.IndexOfAppend | src/js/glify/points.js:308-312 | indexing one more pixel is one more bucket append |
| PointsLayer.InterleaveAppend | src/js/glify/points.js:130-143 | painting one more point appends its five entries to the buffer |
| PointsLayer.DataCount | src/js/glify/points.js:278 | reading `data.length` throws exactly when the data is null or undefined; an array's count is its number of points |
| PointsLayer.InterleaveLayout | src/js/glify/points.js:130-143 | the buffer has 5n entries; entries 5i and 5i+1 are point i's x and y, and 5i+2..5i+4 its r, g, b |
| PointsLayer.Interleave | src/js/glify/points.js:134-142 | the buffer has five entries per point, and the last five are the last point's x, y, r, g, b |
| PointsLayer.Points.constructor | src/js/glify/points.js:7-39 | a new layer has the given settings, an empty buffer and index, and fresh 16-entry matrices |
| PointsLayer.Points.LatLngToPixelXY | src/js/glify/points.js:290-315 | returns the point's pixel and appends it to its own cell's bucket; no other part of the index changes |
| PointsLayer.Points.SetBaseMatrix | src/js/glify/points.js:163 | pixelsToWebGLMatrix becomes the base matrix for the canvas size |
| PointsLayer.Points.ScaleMatrix | src/js/glify/points.js:340-354 | mapMatrix becomes the scaled old matrix, updated in place |
| PointsLayer.Points.TranslateMatrix | src/js/glify/points.js:323-332 | mapMatrix becomes the translated old matrix, updated in place |
| PointsLayer.Points.SetData | src/js/glify/points.js:186-189 | only `settings.data` changes; the buffer and the index stay as they were |
| PointsLayer.Points.Paint | src/js/glify/points.js:130-143 | from an empty buffer and index, each point is projected and indexed, then coloured and appended; at the first point whose colour throws, the buffer holds the points before it and the index holds the points up to and including it |
| PointsLayer.Points.Render | src/js/glify/points.js:109-179 | the buffer and index are rebuilt from scratch from the data and colour; a nullish colour or data that is not an array throws a TypeError before any point; a point whose colour throws stops the loop with that point's error (a TypeError or the user function's exception); with no WebGL context it throws after the loop; on success the index holds exactly the data and the base matrix is written |
| PointsLayer.Points.SetFrame | src/js/glify/points.js:263-274 | pixelsToWebGLMatrix is the base matrix, and mapMatrix is the base scaled by the zoom scale then translated by minus the offset, whatever the previous frame was |
| PointsLayer.Points.DrawOnCanvas | src/js/glify/points.js:249-281 | without WebGL nothing changes; otherwise the viewport corner is appended to the click index and the frame matrices are written, then it draws with the point size and the data's length, or throws a TypeError when the data is null or undefined |
| PointsLayer.Points.DrawFrame | src/js/glify/points.js:249-281 | DrawOnCanvas's matrices, draw call and TypeError on null or undefined data, with the click index left exactly as it was |
| PointsLayer.Points.AppendBucket | src/js/glify/points.js:391-398 | pushes the whole bucket of a cell (none if absent) onto the candidates, in bucket order |
| PointsLayer.Points.ScanRow | src/js/glify/points.js:387-399 | one latitude row appends the buckets of the seven cells around the click's longitude, west to east |
| PointsLayer.Points.Scan | src/js/glify/points.js:372-400 | the candidates are the 7×7 window's buckets, latitude-outer and longitude-inner |
| PointsLayer.Points.Lookup | src/js/glify/points.js:372-403 | a click returns closestPoint of the 7×7 window around it |
| PointsLayer.NewPoints | src/js/glify/points.js:7-39 | construction fails with the first missing setting; then with a TypeError without WebGL; then with render's error (a TypeError for a nullish colour or non-array data, or the first failing point's error); it succeeds exactly when none of these happens, and then the layer holds the merged settings, the canvas size, the buffer of every point's pixel and colour in order, an index of exactly its data, and the base matrix for the canvas |
| PointsLayer.ClickOnIndexedData | src/js/glify/points.js:372-428 | on an index of the data, a click's result is a data point less than 0.04° away on both axes; if some data point lies within 0.03°, the click succeeds with a point at least as near |
| PointsLayer.CornerBecomesHit | src/js/glify/points.js:258 | with no data, a click at the viewport corner throws; after DrawOnCanvas's insertion it returns the corner's pixel, which is not a data point |

## Left out

- WebGL calls are not modelled: shader creation, compilation and linking (`setupVertexShader`, `setupFragmentShader`, `setupProgram`), attribute and uniform locations, buffer upload, `viewport`, `clear`, `uniformMatrix4fv` and `drawArrays`. A missing context is modelled as the TypeError its first call would throw. The draw call is modelled as the value `DrawCall(pointSize, count)`.
- Leaflet integration is not modelled: `L.canvasOverlay`, `addTo`, `redraw`, the click handler registered in `setup`, `getZoom` and `getBounds`. The zoom and the viewport's north-west corner are parameters. The handler's `!== null` test is never reached with a null point, because `lookup` throws instead of returning null.
- `debugPoint` and the `debug` setting are not modelled; they manipulate the DOM.
- The overlay attached to the map before a failing setup or render is not modelled; `NewPoints` just returns the error.
- The y projection (`sin`, `log`) is an uninterpreted function `projectY`; poles are not treated.
- Numbers are reals, so the model does not include:
  - Float32Array rounding of the matrices;
  - IEEE rounding in `toFixed` and in the `x += 0.01` steps of `lookup` (the scan is modelled on exact hundredths);
  - `Math.sqrt` in `closestPoint` (squared distances are compared, which orders candidates the same way).
- Grid.Hundredths: cell keys are the corrected integer cells. The as-written `toFixed(2)` key is modelled only in `Grid.ToFixed2` (see Findings).
- Matrix.Pow2: zoom is a whole number; fractional zoom levels are not modelled.
- PointsLayer.NewPoints: the canvas must have positive width and height (so must `PointsLayer.Points.constructor`). With a zero-size canvas (a hidden map container) the source still constructs the layer, and `2 / canvas.width` puts Infinity into both matrices; reals have no Infinity.
- PointsLayer.NewPoints: the user settings are always an object (a map). Calling `L.glify.points()` with no settings throws at `userSettings.hasOwnProperty` in `defaults`; that call is not modelled.
- Grid.Hundredths: negative ties round toward +∞ (-0.125 is cell -12), while `toFixed(2)` rounds ties away from zero (-0.125 gives "-0.13"). This is a second way the corrected cells differ from the source's keys, besides the "-0.00" split in Findings. `Grid.ToFixed2` models the source's rounding.
- Data items are `[lat, lng]` pairs. Items of any other shape are not modelled.
- Data that is a non-array value with a `map` method is not modelled; every non-array `data` throws in `render`.
- PointsLayer.DataCount: a string's length counts characters, not UTF-16 code units as JavaScript's `.length` does, so a string `data` with characters outside the Basic Multilingual Plane (such as an emoji) draws fewer points in the model than in the source.
- A `data` value that is an arbitrary object with its own `length` property is not modelled; objects other than arrays, strings and functions draw 0 points.
- Colour keys that hit `Object.prototype` properties (such as `"toString"`) are not modelled.
- `L.glify.shapes` / `Shapes` are not part of this model, and neither are the extra colours `black`, `gray` and `grey` of `L.glify.color`, which the points layer does not use.
- `Math.random()` is a stream of draws in `Env`, indexed per render: `random` takes three draws per call and `pallet` one.

## Findings

| source | as written | input that shows it | evidently intended | confidence | as-written member | corrected member |
|---|---|---|---|---|---|---|
| src/js/glify/points.js:386-389 | keys (here and at line 297) are `toFixed(2)` strings, which put a "-" on every negative value, so "-0.00" (-0.005, 0) and "0.00" [0, 0.005) are separate half-width cells, and the 7-row scan visits only one of them | a point at latitude -0.001 and a click at latitude 0.001 (0.002° apart): the scan's rows are "-0.03" … "-0.01", "0.00" … "0.03" and never "-0.00", so the point is not a candidate | uniform 0.01° cells, so that a scan from any click sees every point within 0.03° | not executed | Grid.ToFixedScanSkipsNegativeZero | Grid.WindowFindsNeighbours |
| src/js/glify/points.js:258 | `drawOnCanvas` projects the viewport's top-left corner with `latLngToPixelXY`, which also appends the corner to the click index on every frame | empty data, one frame with corner c, then a click at c: it returns the corner's pixel instead of throwing, though the corner is not a data point | projection of the corner without touching the index, so that clicks only find data points | not executed | PointsLayer.CornerBecomesHit | PointsLayer.Points.DrawFrame |

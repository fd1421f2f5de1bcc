# WebCanvas drawing classes in Dafny

WebCanvas is a small JavaScript library of canvas shapes. This project models the
deterministic core of its classes and proves properties of each:

- the ring's motion and pointer interaction: bounce inside the canvas, grow and
  shrink near the pointer, gravity with a damped rebound, and a collision push and
  recolour;
- the colour utilities: the channel parser, hex encoding, random interpolation
  between two colours, `isDark`, colour distance, and random hex colours;
- the particle's circular orbit and its `randomBetween` helper;
- the regular polygon's sides guard and vertex angles;
- the geometry that `draw` computes in the rectangular ring, grid, 3D text,
  gradient rectangle, segmented line and quadrant grid;
- the option-merging constructors and setters of all of these classes.

Every `draw` becomes a function, or a method that changes nothing, returning the
primitives it would send to the canvas: segments, rectangles, path operations,
text calls or strokes. Classes whose methods update fields become Dafny classes.
Each setter's `modifies` clause names only the fields it writes, so "nothing else
changes" is part of its contract.

How JavaScript values are modelled (module `Js`):
- An options-object entry is `Opt<T>`: `Undefined`, `Null` or `Given(v)`. The three
  defaulting rules are separate functions, and lemmas tell them apart:
  - `??` is `Coalesce`;
  - `||` is `OrNumber`, `OrString` and `OrBool`, for which 0, "" and false are falsy;
  - `!== undefined` is `IfDefined`, which applies `null`.
- A destructuring default is `Option<T>` with `Default`.
- A number that may be NaN is `Num`.

What becomes a parameter:
- `Math.random()` values, `innerHeight` and the canvas size are parameters.
- `Math.cos` and `Math.sin` are function parameters.
- `Math.hypot(dx, dy) < r` is the exact squared comparison `Closer`.
- Coordinates are `real`; `Math.PI` is a constant.

Behaviour of the code that the model keeps as written. Each item compares the code with its own doc comments or with a plausible reading of them. None of these is claimed as a defect: the model states what the code does. Where a lemma states the behaviour, the item names it.
- The collision push sets each velocity component to `±pushForce` by the sign of
  the offset (`src/utils/Ring.js:177-178`). It does not use the angle to the pointer.
  `Rings.CollidePush` states the code's rule.
- `updateSizeForMouse` snapshots `_baseOuterRadius` but never reads it. The default
  minimum is the current outer radius (`src/utils/Ring.js:104-109`), so with default
  options a ring never shrinks (`Rings.DefaultSizeNeverShrinks`).
- `applyGravity` documents friction 0.98 and delta 1, but its defaults are 0.5 and
  0.5 (`src/utils/Ring.js:129-143`). The model uses the code's values.
- `randomBetween` is documented as inclusive of `max`, but it never returns `max`
  (`Particles.RandomBetweenInRange`).
- `animationCircular` documents `options.radius`, but ignores it.
- A canvas serialises an opaque colour as `#rrggbb`. That string has no commas, so
  the parser yields the single channel NaN, and `toHex` and
  `getRandomColorHexBetween` return "#NaNNaNNaN" for it
  (`Colors.ParseOpaqueIsNaN`, `Colors.ColorToHexOfOpaque`,
  `Colors.RandomBetweenOpaque`). Interpolating between "#000000" and itself
  therefore does not give "#000000". Only translucent `rgba(...)` colours
  interpolate.
- In `src/main.js`, the animation loop calls `moveAndBounceInCanvas`,
  `getColiderWithMouse` and `updateSizeForMouse` on `Circle` objects, which define
  none of them. It also passes positional arguments to the `SegmentedLine`
  constructor, which expects an options object.

The model also records two structural choices:
- `Text3DDepth` keeps its fields flat. The model holds the three groups its getters
  return as one record each.
- `RegularPolygon` throws in its constructor. The factory method
  `Polygons.NewRegularPolygon` models that and returns `Thrown(message)` or
  `Built(polygon)`.

## Model

| member | source | states |
|---|---|---|
| Js.Round | src/utils/Color.js:27 | `Math.round(x)` is the integer n with n - 1/2 <= x < n + 1/2 (halves round up) |
| Js.Floor | src/utils/Color.js:63 | `Math.floor(x)` is the integer n with n <= x < n + 1 |
| Js.DefaultedFlag | src/utils/GradientRectangle.js:89-90 | a flag parameter with a default: missing gives the default, `null` reads as off, a value is kept |
| Js.RoundOfInteger | src/utils/Color.js:27 | rounding an integer gives it back |
| Geometry.Abs | src/utils/Ring.js:153 | `Math.abs` is non-negative and equals x or -x |
| Geometry.CloserMonotone | src/utils/Ring.js:168-176 | a point within distance r of the pointer is within any larger distance |
| Styles.MergeShadow | src/utils/Polygon.js:103-109 | the shadow flag is the one given; colour, blur and offsets are replaced exactly when their keys are not nullish |
| Styles.MergeShadowIdempotent | src/utils/Polygon.js:105-108 | applying the same shadow keys twice is applying them once |
| Styles.MergeShadowEmpty | src/utils/Polygon.js:105-108 | empty shadow keys change only the flag |
| Rings.Bounce | src/utils/Ring.js:194-210 | one axis: the coordinate ends >= lo, and <= hi when lo <= hi; an in-bounds advance keeps the velocity; an out-of-bounds one negates it and clamps the coordinate; the speed never changes |
| Rings.BounceTicksStayInside | src/utils/Ring.js:190-211 | a ring starting inside [radius, size - radius] stays inside after any number of ticks, at constant speed |
| Rings.ResolveSize | src/utils/Ring.js:109-113 | a given minimum is used; a missing maximum is twice the minimum |
| Rings.SizeDefaults | src/utils/Ring.js:109-113 | with no options the limits are min = current radius, max = twice that, prox 100, grow 0.7, shrink 0.3 |
| Rings.Resized | src/utils/Ring.js:115-125 | near and below max: min(r + grow, max); away and above min: max(r - shrink, min); otherwise unchanged |
| Rings.ResizedStaysInRange | src/utils/Ring.js:115-125 | with non-negative speeds a radius in [min, max] stays in [min, max] |
| Rings.ResizedNeverAboveMax | src/utils/Ring.js:115-119 | a radius at most max never exceeds max |
| Rings.ResizeTicksStayInRange | src/utils/Ring.js:99-126 | over any sequence of near/away ticks the radius stays in [min, max] |
| Rings.DefaultSizeNeverShrinks | src/utils/Ring.js:109 | with default options the radius never decreases |
| Rings.ReboundDamped | src/utils/Ring.js:151-155 | the rebound is -bounce*friction*v or exactly 0; it is 0 exactly when the damped magnitude is below a positive tolerance; a non-zero one is at least the tolerance; with 0 <= k <= 1 it is never faster than the impact |
| Rings.FallNeverBelowGround | src/utils/Ring.js:146-156 | after a gravity step y <= ground; above ground the ring falls freely; on contact y = ground and the velocity rebounds |
| Rings.CollidePush | src/utils/Ring.js:176-184 | within reach + 10 each component becomes ±pushForce by the sign of the offset (0 gives +), decayed when the force exceeds 0.1 |
| Rings.CollidePushesAway | src/utils/Ring.js:176-178 | with non-negative force and decay the push points away from the pointer on each axis |
| Rings.CollideNoPush | src/utils/Ring.js:181-184 | away from the pointer the velocity is kept, and decayed when a component exceeds 0.1; a decay in [0, 1] never speeds it up |
| Rings.DecayNeverSpeedsUp | src/utils/Ring.js:182-183 | multiplying by a decay in [0, 1] never increases a speed |
| Rings.BlueImpliesPushed | src/utils/Ring.js:170-177 | every position that turns the ring blue also pushes it |
| Rings.Ring.constructor | src/utils/Ring.js:20-41 | `??` defaults "black", null, 1, false, "rgba(0,0,0,0.5)", 4, 2, 2; `otherColor` is the fill colour; velocity (1, 0) |
| Rings.Ring.SetStyle | src/utils/Ring.js:232-241 | every field is replaced by its key when not nullish and kept otherwise; empty options leave the style unchanged |
| Rings.Ring.MoveAndBounceInCanvas | src/utils/Ring.js:190-211 | both axes follow `Bounce` between the radius and the canvas size minus the radius; afterwards x, y >= radius, and <= size - radius when the canvas is at least twice the radius |
| Rings.Ring.UpdateSizeForMouse | src/utils/Ring.js:99-126 | the outer radius follows `Resized` with the resolved limits and the pointer test (a NaN coordinate is never near); the base radii are snapshot while the outer one is falsy; the inner radius is not modified |
| Rings.Ring.ApplyGravity | src/utils/Ring.js:136-157 | the new position and velocity are `Fall` with the destructuring defaults 0.5, innerHeight - radius, 0.6, 0.5, 0.5, 2 |
| Rings.Ring.GetColiderWithMouse | src/utils/Ring.js:159-185 | NaN coordinates count as 0; the fill is "blue" exactly within outer + inner + sizeMouse, else the original colour; the velocity follows `Collide` |
| Colors.RemoveSpaces | src/utils/Color.js:20 | removing whitespace leaves no whitespace and never lengthens the string |
| Colors.RemoveSpacesConcat | src/utils/Color.js:20 | whitespace removal distributes over concatenation |
| Colors.RemoveSpacesKeeps | src/utils/Color.js:20 | a string without whitespace is left as it is |
| Colors.SplitCommas | src/utils/Color.js:21 | `split(',')` yields at least one piece, none containing a comma |
| Colors.JoinOfSplit | src/utils/Color.js:21 | joining the pieces with commas gives back the string |
| Colors.SplitOfJoin | src/utils/Color.js:21 | splitting the comma-join of comma-free pieces gives back the pieces |
| Colors.RemoveSpacesOfJoin | src/utils/Color.js:20-21 | removing spaces from a ", "-join of space-free pieces gives their ","-join |
| Colors.IndexOf | src/utils/Color.js:22 | the index is that of the first occurrence, or the length when there is none |
| Colors.ParseDecimal | src/utils/Color.js:22 | `Number` reads back the decimal form of n, with or without a minus sign |
| Colors.ParseFraction | src/utils/Color.js:22 | `Number` of "w.d" is w + d / 10^len(d) |
| Colors.NotANumber | src/utils/Color.js:22 | a piece starting with something other than a digit, sign or point is NaN |
| Colors.ParseAll | src/utils/Color.js:22 | `.map(Number)` keeps the length and maps each piece in order |
| Colors.ChannelsOfFunctional | src/utils/Color.js:17-22 | on `rgb(...)` or `rgba(...)` with space- and comma-free pieces, the channels are `Number` of each piece in order |
| Colors.ParseRgb | src/utils/Color.js:17-24 | on `rgb(r, g, b)` the channels are [r, g, b] and `parseColor` appends alpha 1 |
| Colors.ParseRgba | src/utils/Color.js:17-24 | on `rgba(r, g, b, a)` the channels are [r, g, b, Number(a)] and nothing is appended |
| Colors.ParseOpaqueIsNaN | src/utils/Color.js:17-24 | on `#rrggbb` every parser yields the single channel NaN |
| Colors.HexNatValue | src/utils/Color.js:27 | reading back `n.toString(16)` gives n |
| Colors.PaddedHex | src/utils/Color.js:27 | `n.toString(16).padStart(w, '0')` for n < 16^w has exactly w hex digits whose value is n |
| Colors.HexFieldRoundTrip | src/utils/Color.js:27 | a channel rounding into 0..255 encodes as two hex digits that decode to its rounded value |
| Colors.HexFieldInjective | src/utils/Color.js:27 | two such channels encode alike exactly when they round alike |
| Colors.HexColorShape | src/utils/Color.js:36 | three byte channels give a well-formed `#rrggbb` whose fields decode to the rounded channels |
| Colors.ColorToHexRgb | src/utils/Color.js:46-55 | `toHex` on `rgb(r, g, b)` with channels in 0..255 decodes back to r, g, b |
| Colors.ColorToHexOfOpaque | src/utils/Color.js:46-55 | `toHex` on `#rrggbb` gives "#NaNNaNNaN" |
| Colors.LerpBetween | src/utils/Color.js:32-34 | for t in [0, 1] an interpolated channel is a number between the two channels |
| Colors.LerpSame | src/utils/Color.js:32-34 | interpolating a channel with itself gives that channel, NaN included |
| Colors.ParseColorPrefix | src/utils/Color.js:23 | the appended alpha never changes the first three channels |
| Colors.RandomBetweenSame | src/utils/Color.js:15-37 | equal colours give, whatever the factors, what `toHex` gives for that colour |
| Colors.LerpRoundBetween | src/utils/Color.js:32-36 | the rounded interpolated channel lies between the rounded endpoints |
| Colors.RandomBetweenShape | src/utils/Color.js:15-37 | with factors in [0, 1] and byte channels, the result is a `#rrggbb` whose every field lies between the rounded channels of the two colours |
| Colors.RandomBetweenOpaque | src/utils/Color.js:15-37 | two opaque (`#rrggbb`) colours give "#NaNNaNNaN" whatever the factors |
| Colors.IsDarkIff | src/utils/Color.js:97-101 | a colour is dark exactly when its three channels are numbers with 299r + 587g + 114b < 128000 |
| Colors.BlackDarkWhiteNot | src/utils/Color.js:97-101 | black is dark and white is not |
| Colors.SquaredDiffProperties | src/utils/Color.js:87 | one channel's squared difference is symmetric, non-negative and zero against itself |
| Colors.ColorDistanceProperties | src/utils/Color.js:74-88 | the squared colour distance is symmetric, non-negative when defined, and zero for a colour with numeric channels against itself |
| Colors.RandomHexShape | src/utils/Color.js:62-64 | for rand in [0, 1) the result is `#` and six hex digits of value floor(rand * 0xffffff) <= 0xfffffe, so never "#ffffff" |
| Colors.RandomHexReaches | src/utils/Color.js:62-64 | every colour from #000000 to #fffffe is produced by some rand in [0, 1) |
| Particles.Turn | src/utils/Particle.js:83-85 | an undefined angle starts at 0 before the velocity is added |
| Particles.TurnsLinear | src/utils/Particle.js:85 | after n calls with velocity v the angle is r0 + n * v |
| Particles.Orbit | src/utils/Particle.js:87-88 | the offset from the centre is (cos(angle) * distanceX, sin(angle) * distanceY) |
| Particles.OrbitOfZeroDistance | src/utils/Particle.js:87-88 | with both distances 0 the particle sits on the centre |
| Particles.OrbitOnCircle | src/utils/Particle.js:87-88 | with equal distances R and cos^2 + sin^2 = 1 the particle is at distance R from the centre |
| Particles.RandomBetweenInRange | src/utils/Particle.js:98-100 | for rand in [0, 1) the result lies in [min, max) when min < max (never max), is min when they are equal, and lies in (max, min] otherwise |
| Particles.RandomBetweenReaches | src/utils/Particle.js:98-100 | every value in [min, max) is produced by some rand in [0, 1) |
| Particles.MergeStyle | src/utils/Particle.js:140-149 | each of the eight fields is replaced by its key when not nullish and kept otherwise |
| Particles.MergeStyleIdempotent | src/utils/Particle.js:140-149 | setting the same style twice is setting it once |
| Particles.MergeStyleEmpty | src/utils/Particle.js:140-149 | an empty options object leaves the style unchanged |
| Particles.Particle.constructor | src/utils/Particle.js:12-33 | position, radius, angle and distances as given; `??` defaults "black", false, "rgba(0,0,0,0.5)", 4, 2, 2; stroke colour and line width unset; velocity (1, 0) |
| Particles.Particle.SetStyle | src/utils/Particle.js:140-149 | the style becomes `MergeStyle` of the old style and the options |
| Particles.Particle.AnimationCircular | src/utils/Particle.js:77-89 | the angle becomes `Turn` of the old angle and the velocity (default 0.01); the position is `Orbit` around the centre (default (300, 400)); the distances are not modified |
| Polygons.VertexAnglesEvenlySpaced | src/utils/Polygon.js:65 | consecutive vertex angles differ by 2π / sides |
| Polygons.LastAngleIsFullTurn | src/utils/Polygon.js:64-65 | the last angle visited is the first plus 2π |
| Polygons.PathIsClosed | src/utils/Polygon.js:64-67 | for 2π-periodic cosine and sine the last vertex is the first, so the outline closes |
| Polygons.RegularPolygon.constructor | src/utils/Polygon.js:28-43 | given sides >= 3: position, radius and sides as given; `??` defaults 0, null, "black", 1, and shadow false, "rgba(0, 0, 0, 0.5)", 4, 2, 2 |
| Polygons.RegularPolygon.Path | src/utils/Polygon.js:64-70 | sides + 1 path operations, the i-th at the vertex for angle i * 2π / sides + rotation, only the first a `moveTo` |
| Polygons.RegularPolygon.SetSides | src/utils/Polygon.js:86-89 | a value below 3 is ignored, any other is stored, so sides >= 3 is kept |
| Polygons.RegularPolygon.SetRotation | src/utils/Polygon.js:91-93 | sets the rotation only |
| Polygons.RegularPolygon.SetFillColor | src/utils/Polygon.js:95-97 | sets the fill colour only |
| Polygons.RegularPolygon.SetStrokeColor | src/utils/Polygon.js:99-101 | sets the stroke colour only |
| Polygons.RegularPolygon.SetShadow | src/utils/Polygon.js:103-109 | the flag is the key, or true when nullish; the other shadow fields change only when given |
| Polygons.RegularPolygon.SetPosition | src/utils/Polygon.js:111-114 | sets x and y only |
| Polygons.RegularPolygon.SetRadius | src/utils/Polygon.js:116-118 | sets the radius only |
| Polygons.NewRegularPolygon | src/utils/Polygon.js:25-26 | it throws the "at least 3 sides" error exactly when sides < 3; otherwise a new valid polygon with the given sides, position and radius |
| Polygons.SetShadowDefaultTurnsOn | src/utils/Polygon.js:103-104 | `setShadow()` with no keys turns the shadow on and keeps its other fields |
| RectangleRings.RingRects | src/utils/RetangleRing.js:48-76 | nothing without a context, or when the border is not positive or leaves no hole. Otherwise the outer rectangle, then the hole at (x + t, y + t), 2t narrower and 2t shorter, so the border is t wide on all four sides; the hole has positive size and lies strictly inside |
| RectangleRings.SetDefinedStyle | src/utils/RetangleRing.js:130-134 | a key that is not undefined replaces its field, `null` included; an undefined one keeps it |
| RectangleRings.SetDefinedShadow | src/utils/RetangleRing.js:146-158 | the same rule for the five shadow fields |
| RectangleRings.NullKeyClears | src/utils/RetangleRing.js:131 | a `null` fill colour clears the field, where a `??` merge would have kept it |
| RectangleRings.SetDefinedShadowIdempotent | src/utils/RetangleRing.js:146-158 | setting the same shadow keys twice is setting them once |
| RectangleRings.RectangleRing.constructor | src/utils/RetangleRing.js:21-40 | `??` defaults "black", null, 1, false, "rgba(0,0,0,0.5)", 4, 2, 2 |
| RectangleRings.RectangleRing.SetSize | src/utils/RetangleRing.js:105-112 | the `size` getter then returns the size just set |
| RectangleRings.RectangleRing.SetBorder | src/utils/RetangleRing.js:114-120 | the `border` getter then returns the value just set |
| RectangleRings.RectangleRing.SetPosition | src/utils/RetangleRing.js:100-103 | sets x and y only |
| RectangleRings.RectangleRing.SetStyle | src/utils/RetangleRing.js:130-134 | the style becomes `SetDefinedStyle` of the old one |
| RectangleRings.RectangleRing.SetShadowStyle | src/utils/RetangleRing.js:146-158 | the shadow style becomes `SetDefinedShadow` of the old one |
| Grids.TickStep | src/utils/Grid.js:60 | each step adds the spacing to the coordinate |
| Grids.LineCountCounts | src/utils/Grid.js:60 | line k is emitted exactly when k * spacing <= extent, so there are floor(extent / spacing) + 1 lines for a non-negative extent |
| Grids.VerticalGridInBox | src/utils/Grid.js:60-63 | every vertical line lies within [0, width] x [0, height] |
| Grids.HorizontalGridInBox | src/utils/Grid.js:66-69 | every horizontal line lies within [0, width] x [0, height] |
| Grids.VerticalLines | src/utils/Grid.js:60-63 | the loop emits exactly the lines from (k*s, 0) to (k*s, height) for k*s <= width, left to right |
| Grids.HorizontalLines | src/utils/Grid.js:66-69 | the loop emits exactly the lines from (0, k*s) to (width, k*s) for k*s <= height, top to bottom |
| Grids.MergeStyle | src/utils/Grid.js:74-82 | each of stroke colour, width, shadow flag, shadow colour, blur and the two offsets is replaced exactly when its key is not nullish, and kept otherwise |
| Grids.MergeStyleEmpty | src/utils/Grid.js:74-82 | an empty options object leaves the style unchanged |
| Grids.Grid.constructor | src/utils/Grid.js:19-31 | `??` defaults "#ccc", 1, false, "rgba(0,0,0,0.1)", 2, 1, 1 |
| Grids.Grid.Draw | src/utils/Grid.js:37-72 | for spacing > 0: the vertical lines, then the horizontal ones |
| Grids.Grid.SetStyle | src/utils/Grid.js:74-82 | the style becomes `MergeStyle` of the old one |
| Grids.Grid.SetSpacing | src/utils/Grid.js:96-98 | sets the spacing only |
| Text3DDepths.InitialStyle | src/utils/Text3D.js:29-31 | font, text colour and depth colour each keep a given non-empty value; a missing, null or empty one gives "bold 40px sans-serif", "#ffffff" or "#000000" |
| Text3DDepths.InitialDepth | src/utils/Text3D.js:34-36 | depth and offsets use `??`: a given value, 0 included, is kept; a missing or null one gives 5, 1 or 1 |
| Text3DDepths.InitialShadow | src/utils/Text3D.js:39-43 | the flag is on exactly when given as true; colour, blur and offsets each keep a given truthy value, and a missing, null, empty or 0 one gives "rgba(0,0,0,0.5)", 4, 2 or 2 |
| Text3DDepths.DefaultText3D | src/utils/Text3D.js:9-43 | without options the constructor takes the documented defaults: "bold 40px sans-serif", "#ffffff", "#000000"; depth 5 and offsets 1, 1; shadow off, "rgba(0,0,0,0.5)", 4, 2, 2 |
| Text3DDepths.ZeroDepthKeptZeroBlurReplaced | src/utils/Text3D.js:34-41 | the two rules differ on 0: depth 0 is kept, blur 0 is replaced |
| Text3DDepths.MergeStyleFields | src/utils/Text3D.js:143-147 | font and colours are replaced exactly when their keys are not nullish |
| Text3DDepths.MergeDepthFields | src/utils/Text3D.js:157-161 | depth and offsets are replaced exactly when their keys are not nullish |
| Text3DDepths.MergeTextShadowFlag | src/utils/Text3D.js:149-150 | a nullish flag keeps the shadow flag as it was |
| Text3DDepths.MergesIdempotent | src/utils/Text3D.js:143-161 | each group merge applied twice is applied once |
| Text3DDepths.LayerCountCounts | src/utils/Text3D.js:56 | layer j (farthest first) is drawn exactly when depth - j > 0 |
| Text3DDepths.LayerCountOfInteger | src/utils/Text3D.js:56 | a whole depth n draws n layers, none for n <= 0 |
| Text3DDepths.LayersFarthestFirst | src/utils/Text3D.js:56-62 | with non-negative offsets each layer is drawn at or before the previous one in both coordinates |
| Text3DDepths.Text3DDepth.constructor | src/utils/Text3D.js:22-44 | text and position as given; style, depth and shadow by the three initial rules |
| Text3DDepths.Text3DDepth.Draw | src/utils/Text3D.js:46-83 | one call per layer for i = depth, depth - 1, ... > 0 at (x + i*offsetX, y + i*offsetY) in the depth colour, then the front text at (x, y) in the text colour |
| Text3DDepths.Text3DDepth.Update | src/utils/Text3D.js:85-100 | text and position by `??`; each group by its merge |
| Text3DDepths.Text3DDepth.SetPosition | src/utils/Text3D.js:134-137 | sets x and y only |
| Text3DDepths.Text3DDepth.SetText | src/utils/Text3D.js:139-141 | sets the text only |
| Text3DDepths.Text3DDepth.SetStyle | src/utils/Text3D.js:143-147 | the text style becomes `MergeStyle` of the old one; nothing else changes |
| Text3DDepths.Text3DDepth.SetShadow | src/utils/Text3D.js:149-155 | the shadow becomes `MergeTextShadow` of the old one; nothing else changes |
| Text3DDepths.Text3DDepth.SetDepth | src/utils/Text3D.js:157-161 | the depth becomes `MergeDepth` of the old one; nothing else changes |
| GradientRectangles.GradientLine | src/utils/GradientRectangle.js:42-49 | the line starts at (x, y) and ends at (x, y + h) for "vertical", at (x + w, y + h) for "diagonal", and at (x + w, y) for any other name |
| GradientRectangles.UnknownDirectionIsHorizontal | src/utils/GradientRectangle.js:42-49 | any other direction name gives the horizontal gradient |
| GradientRectangles.GradientLineEndsOnCorner | src/utils/GradientRectangle.js:42-49 | for a rectangle of positive size the line ends on another corner |
| GradientRectangles.InitialShadow | src/utils/GradientRectangle.js:31-35 | the flag is on exactly when given as true; a non-empty colour is kept, and a missing, null or empty one gives "#000"; blur and offsets keep any given value, 0 included, and a missing or null one gives 10, 4 or 4 |
| GradientRectangles.DefaultShadow | src/utils/GradientRectangle.js:31-35 | with no options: off, "#000", 10, 4, 4 |
| GradientRectangles.GradientRectangle.constructor | src/utils/GradientRectangle.js:22-36 | rectangle as given; stops default to [] and the direction to "horizontal"; shadow by `InitialShadow` |
| GradientRectangles.GradientRectangle.Draw | src/utils/GradientRectangle.js:38-69 | the gradient line for the direction, the stops added in array order, one fill of the rectangle, shadow applied when on |
| GradientRectangles.GradientRectangle.SetPosition | src/utils/GradientRectangle.js:71-74 | sets x and y only |
| GradientRectangles.GradientRectangle.SetSize | src/utils/GradientRectangle.js:76-79 | sets width and height only |
| GradientRectangles.GradientRectangle.SetColorStops | src/utils/GradientRectangle.js:81-83 | sets the stops only |
| GradientRectangles.GradientRectangle.SetDirection | src/utils/GradientRectangle.js:85-87 | sets the direction only |
| GradientRectangles.GradientRectangle.SetShadow | src/utils/GradientRectangle.js:89-95 | the flag defaults to true when missing; the other fields change only when given |
| SegmentedLines.SegmentStyle | src/utils/SegmentLine.js:46-49 | colour, width, cap and join each keep a given truthy value; a missing, null, empty or 0 one gives the line's colour, the line's width, "round" or "round" |
| SegmentedLines.SegmentShadow | src/utils/SegmentLine.js:51-61 | with neither the line's flag nor the point's set, the shadow is cleared. With either one set, each of colour, blur and offsets keeps the point's truthy value, and a missing, null, empty or 0 one gives the default shadow's field; a point with no shadow keys gets the default shadow |
| SegmentedLines.MergeStyle | src/utils/SegmentLine.js:81-86 | each of the four keys replaces its field exactly when not nullish |
| SegmentedLines.MergeStyleRoundTrip | src/utils/SegmentLine.js:81-95 | setting a style and reading it back gives the style that was set |
| SegmentedLines.SegmentedLine.constructor | src/utils/SegmentLine.js:14-34 | destructuring defaults [], "black", 1, false and the shadow ("rgba(0, 0, 0, 0.5)", 4, 2, 2) |
| SegmentedLines.SegmentedLine.Draw | src/utils/SegmentLine.js:40-70 | one stroke per segment, each from the previous end point (the first from (x1, y1)) to the segment's end point, with its style and shadow |
| SegmentedLines.SegmentedLine.SetSegments | src/utils/SegmentLine.js:72-74 | sets the segments only |
| SegmentedLines.SegmentedLine.SetStart | src/utils/SegmentLine.js:76-79 | sets the start point only |
| SegmentedLines.SegmentedLine.SetStyle | src/utils/SegmentLine.js:81-86 | the style becomes `MergeStyle` of the old one |
| Quadrants.Dividers | src/utils/Quadrants.js:29-41 | the vertical divider at half the width, top to bottom, then the horizontal one at half the height, left to right |
| Quadrants.LabelsAreQuadrantCentres | src/utils/Quadrants.js:50-53 | labels I to IV are named after their quadrants and sit at their centres |
| Quadrants.CentreWithin | src/utils/Quadrants.js:50-53 | the centre of a rectangle of positive size lies strictly inside it |
| Quadrants.LabelsInOwnQuadrant | src/utils/Quadrants.js:50-53 | on a canvas of positive size each label lies strictly inside its own quadrant, on its side of both dividers |
| Quadrants.QuadrantGrid.constructor | src/utils/Quadrants.js:16-23 | `??` defaults "#000", 1, true, "16px Arial", "#000" |
| Quadrants.QuadrantGrid.Draw | src/utils/Quadrants.js:25-55 | the dividers always; the four labels exactly when `showLabels` is on |
| Quadrants.QuadrantGrid.SetStrokeColor | src/utils/Quadrants.js:57-59 | sets the stroke colour only |
| Quadrants.QuadrantGrid.SetTextColor | src/utils/Quadrants.js:61-63 | sets the text colour only |
| Quadrants.QuadrantGrid.ToggleLabels | src/utils/Quadrants.js:65-67 | no argument shows the labels; `null` hides them; a value is kept |
| Quadrants.QuadrantGrid.SetFont | src/utils/Quadrants.js:69-71 | sets the font only |
| Quadrants.QuadrantGrid.SetLineWidth | src/utils/Quadrants.js:73-75 | sets the line width only |

## Left out

- Painting on the canvas is not modelled. That covers shadow, fill and stroke state writes, `save`/`restore`, `arc`, `fill` and `stroke`. Each `draw` returns only the coordinates and command order it computes.
- The canvas colour normalisation (`ctx.fillStyle = c; ctx.fillStyle`) is a call into the browser. The colour functions take the normalised string as input.
- `Math.sqrt` in `colorDistance` is not modelled: Dafny reals have no square root, so the model proves its properties of the squared distance.
- Floating point is not modelled. Coordinates are exact reals, so rounding error in sums such as `x += spacing` is not captured.
- `Number` is modelled only for decimal literals. Exponent, hexadecimal and `Infinity` forms give NaN in the model.
- `Math.cos` and `Math.sin` are function parameters. Vertex and orbit coordinates are stated in terms of them, not as numbers.
- The `update` methods that call `Object.assign(this, properties)` (Ring, Particle, Grid, RectangleRing, SegmentedLine) are not modelled, because they can write any field, including with non-numbers.
- Rings.Ring.ApplyGravity: the `typeof this.vy !== "number"` reset is not modelled. Velocities are real numbers in the model, and only the unmodelled `update` could make them anything else.
- Rings.Ring.MoveAndBounceInCanvas: the `this.vx ?? velocityX` seeding is not modelled, for the same reason. The velocity is always set, so the default parameters are never used.
- `console.log` in `getColiderWithMouse` is not modelled.
- Rings.Ring.GetColiderWithMouse: the model takes all three of `sizeMouse`, `pushForce` and `decay` as given. The code's default object (`src/utils/Ring.js:159-163`) is replaced whole by any options object. A partial object is therefore not modelled:
  - `{ sizeMouse: 50 }` leaves `pushForce` and `decay` undefined, so the velocity becomes NaN;
  - `{}` makes the reach NaN, so the ring never turns blue and is never pushed.
- The position and size accessors of Ring, Particle and Text3DDepth are not modelled. They copy fields in and out.
- Polygons.RegularPolygon.constructor: `sides` is an integer in the model. Three inputs are not modelled:
  - a fractional sides value, which `draw` would loop over up to the integer part;
  - a missing `sides` argument;
  - a NaN `sides` value.
  `undefined < 3` and `NaN < 3` are both false, so those two pass the guard at `src/utils/Polygon.js:26`. They store a non-number and throw nothing. `sides >= 3` (`Valid()`) therefore holds only for numeric sides.
- Polygons.RegularPolygon.SetSides: the same applies to the guard at `src/utils/Polygon.js:87`. `setSides(NaN)` and `setSides()` store a non-number, which the model, with integer sides, does not capture.
- GradientRectangles.GradientRectangle.SetShadow: a `null` shadow key is stored as off. The model does not keep the `null` itself, only its truthiness.
- Quadrants.QuadrantGrid.ToggleLabels: a `null` argument is stored as off, not as `null`.
- Options objects whose entries have the wrong type (a string width, say) are not modelled. Each entry is typed.
- `src/main.js` is not modelled: it is DOM lookup, canvas resizing, the animation loop and event listeners.
- The other shape files are not modelled: Bezier, CenterGradient, Circle, CurvedPolygon, CustomMouse, CustomPolygon, FireWorks, Image, QuadraticBrezier, RadialGradientRectangle, Square, Text and Trangle. They are drawing code whose geometry is trigonometric or foreign.

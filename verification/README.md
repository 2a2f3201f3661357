# U.movin keyframe playback, modelled in Dafny

U.movin plays Lottie/Bodymovin animations in Unity. This project models its
per-tick decision logic as pure functions over reals and sequences. That logic
covers the following:

- **Ease** (module `Ease`). Cubic-bezier easing: the boundary short-circuits,
  the power-basis coefficients and the Bernstein evaluation. The cubic and
  quadratic root solvers return a value in [0,1] or the sentinel -1.
- **The keyframe track** (module `Track`). This is `MotionProps` with
  `SetKeyframe`, `MotionSetup`, the `UpdateProperty` step, `Value1`/`Value3` and
  `CreateKeyframe`. The five classes that carry a track differ in a few ways:
  - whether the key index wraps;
  - how the successor read is guarded;
  - whether values are loaded;
  - how a null set is handled;
  - whether the segment-skip loop runs.

  Each class's choices are one `Rule` constant: `LayerRule`, `ColourRule`,
  `PathRule` or `OlderRule`.
- **Path vertices** (modules `PathMotion`, `Aliasing`, `Segments`).
  - Per-vertex interpolation of position and handles.
  - The path `SetKeyframe`.
  - `CreatePathKeyframe`, which makes `startPoints` the live `points` array.
    An array-based class (`Aliasing.PathBuffers`) shows what that aliasing does
    to successive ticks.
  - The conversion of vertices into bezier segments: `ConvertPointsToSegments`
    and `UpdateSegments`.
- **The newer player classes** (`MovinLayer`, `MovinShape`, `MovinShapeSlave`)
  and **the older ones** (`BodyLayer`, `BodyShape`). Each is modelled as a state
  record with its constructor, `Update`, `UpdateProperty`, `ResetKeyframes` and,
  for the newer ones, `CreateBlendKeyframe`.
- **The player** (module `Movin`). It covers:
  - the clock;
  - stopping or looping at the end;
  - placing layers into slots by `ind`;
  - resolving parent slots.
- **The document conversions** (module `BodymovinParse`) of
  `BodymovinContent.ParseLayers/ParseShapes/ParseItems`:
  - scale divided by 100;
  - the y and rotation sign flips;
  - "static value := first keyframe's start";
  - path counting and the closed-flag choice;
  - colour clamps.

  They work over an abstract node tree. Module `Content` holds the records the
  parser produces.

Floats are reals. A division by zero in a percent (a zero-length segment) is made
explicit: `Track.Percent` is `At(x)`, `PosInf`, `NegInf` or `NaN`. The runtime
exceptions the C# code can raise (`IndexOutOfRangeException`,
`NullReferenceException`) are `Wrappers.Result` errors, not preconditions.
`Mathf.Sqrt`, the cube root, `Acos` and `Cos` are uninterpreted functions
(`Ease.Numerics`). `Time.deltaTime` is a parameter of `Movin.Update`.

Where the newer and older variants differ, lemmas state the difference:

- `Track.LastKeyDiffers`;
- `Track.OvershootDiffers`;
- `Track.SingleKeySetup`;
- `Track.FreezeDiffers`.

## Model

| member | source | states |
|---|---|---|
| Ease.FirstInUnit | Assets/U.movin/Utils/Ease.cs:58-95 | The solver's range check gives -1 exactly when no candidate lies in [0,1]. Otherwise it gives the first candidate in [0,1]. |
| Ease.SolveQuadratic | Assets/U.movin/Utils/Ease.cs:98-107 | Tries the + root before the - root and returns the first one in [0,1], else -1. A negative discriminant or a zero leading coefficient gives -1. |
| Ease.QuadraticRootIsExact | Assets/U.movin/Utils/Ease.cs:98-107 | With an exact square root, any result other than -1 is a genuine root of a x^2 + b x + c. |
| Ease.CandidateIsRoot | Assets/U.movin/Utils/Ease.cs:100-104 | Both quadratic-formula candidates solve the equation when the square root is exact. |
| Ease.SolveCubic | Assets/U.movin/Utils/Ease.cs:45-96 | The result is -1 or lies in [0,1] on every branch. A zero leading coefficient delegates to SolveQuadratic on the remaining three coefficients, and d = 0 gives the root 0. |
| Ease.CubicBezier | Assets/U.movin/Utils/Ease.cs:14-39 | An input equal to the first endpoint's x gives its y, and one equal to the last endpoint's x gives that y, both without the solver. Otherwise the result is -1 exactly when the solver fails, and else it is the bezier's y-curve (de Casteljau form) at the solved parameter. |
| Ease.BernsteinIsDeCasteljau | Assets/U.movin/Utils/Ease.cs:37 | The Bernstein y-polynomial the source evaluates equals de Casteljau's repeated interpolation of the control values. |
| Ease.PowerBasis | Assets/U.movin/Utils/Ease.cs:28-31 | The coefficients a = -p0+3p1-3p2+p3, b = 3p0-6p1+3p2, c = -3p0+3p1, with constant p0, describe the same cubic as the Bernstein form. |
| Ease.Evaluate | Assets/U.movin/MovinLayer.cs:222 | With the endpoints (0,0) and (1,1) every track passes, input 0 gives exactly 0 and input 1 gives exactly 1. Any other input gives -1 on solver failure, else the curve's y at the solved parameter. |
| Ease.DiagonalTangentsEaseLinearly | Assets/U.movin/Utils/Ease.cs:10 | Tangents on the diagonal, the `Linear` pair among them, ease linearly: a solved parameter that exactly solves x(v) = p gives the eased value p. |
| Ease.DiagonalCurve | Assets/U.movin/Utils/Ease.cs:28-37 | On a curve whose control points lie on the diagonal, y(v) = x(v). |
| Track.PercentOf | Assets/U.movin/MovinLayer.cs:217 | The percent is finite exactly when the segment has non-zero length, and then percent * (end - start) = frame - start. A zero-length segment gives +Infinity after the start, -Infinity before it and NaN at it. |
| Track.EaseOf | Assets/U.movin/MovinLayer.cs:222 | Percent 0 eases to 0 and percent 1 to 1. A non-finite percent eases to the failure value -1. |
| Track.ReloadIsIdentity | Assets/U.movin/Bodybuilder/BodyLayer.cs:105-118 | Loading a key into a track that already holds the segment loaded from that key changes nothing. |
| Track.SetKeyframe | Assets/U.movin/MovinLayer.cs:113-130 | Clears `completed`. A track without keys changes nothing else. A null set faults unless the class tolerates it. Otherwise the track loads the target key (0 when the class wraps and k is at or past the key count): start time, the next key's time as end, its tangents and, where the class loads values, its start and end values. It faults exactly when the target key, or the successor the guard demands, is out of range. |
| Track.MotionSetup | Assets/U.movin/MovinShape.cs:488-496 | A track is animated iff its set is non-null and non-empty (the layer classes at MovinLayer.cs:99-110 read `set.Length` without a null check, but the parser always allocates their arrays, so they only ever pass a non-null set). Then it holds segment 0 with the key count as `keys`. It faults exactly when a one-key set meets a guard that demands a successor. |
| Track.Skip | Assets/U.movin/MovinLayer.cs:207-211 | The skip loop ends on segment 0 or on a segment whose end lies after the frame. It keeps the key count and leaves the track not completed. |
| Track.SkipFindsSegment | Assets/U.movin/MovinLayer.cs:207-211 | From a loaded segment whose end the frame has reached, the skip loop passes exactly the keys the frame has reached. It lands on the segment containing the frame, or wraps to 0 after passing every later key. |
| Track.SkipWrapsPastLastKey | Assets/U.movin/MovinLayer.cs:117 | With ordered key times, a frame at or after the last key wraps the layer track back to segment 0. |
| Track.Step | Assets/U.movin/MovinLayer.cs:187-222 | A keyless track only completes. At the last segment, once the frame reaches its end, the track completes and writes nothing. A null set completes or faults according to the class. Before the segment's end the percent and ease are recomputed. Classes without the skip loop advance exactly one segment. |
| Track.Value3 | Assets/U.movin/MovinLayer.cs:250-254 | The newer value is the start value while the percent is below 0 or above 1, otherwise start + (end - start) * ease. |
| Track.Value1 | Assets/U.movin/MovinLayer.cs:256-260 | The scalar value is the x component of the vector rule. |
| Track.KeyValue3 | Assets/U.movin/Bodybuilder/BodyLayer.cs:226-230 | The older value reads key `m.key` of the set (faulting on a null set or an out-of-range key). It freezes at the start only below 0, so above 1 it extrapolates. |
| Track.KeyValue1 | Assets/U.movin/Bodybuilder/BodyLayer.cs:232-236 | The older scalar value is the x component of the older vector rule, with the same faults. |
| Track.CreateKeyframe | Assets/U.movin/MovinLayer.cs:321-335 | The track becomes a live one-key segment [start, end] with the given tangents and values. The percent is kept. |
| Track.BlendSegmentEndpoints | Assets/U.movin/MovinLayer.cs:321-335 | A blend segment of positive duration shows its start value at frame 0, and the value rule gives its end value at percent 1. A tick at or past the end frame never shows that end value: under a wrapping class it completes on a two-key document set, faults on an empty one, or reloads the document's segment 0 (MovinLayer.cs:198-211). |
| Track.WrapReloadsFirst | Assets/U.movin/MovinLayer.cs:198-211 | At or past the end of a one-key segment, a wrapping class completes on a two-key set, faults on an empty set, and otherwise moves only by reloading segment 0 of the document's set. |
| Track.LastKeyDiffers | Assets/U.movin/Bodybuilder/BodyLayer.cs:110-112 | At the last key the layer track loads a zero-length segment, while the older and path tracks read past the end of the set. |
| Track.OvershootDiffers | Assets/U.movin/MovinLayer.cs:117 | Past the last key the newer layer track wraps to segment 0, while the older track faults. |
| Track.SingleKeySetup | Assets/U.movin/Bodybuilder/BodyLayer.cs:91-118 | A one-key set sets up on the layer and colour tracks but faults on the older and path tracks. |
| Track.FreezeDiffers | Assets/U.movin/Bodybuilder/BodyLayer.cs:226-230 | Above percent 1 the newer value holds the start, while the older value extrapolates. |
| Track.ValueBetween | Assets/U.movin/MovinLayer.cs:250-254 | With an ease in [0,1], every component of the displayed value lies between the segment's start and end. |
| TrackKeys.KeyOf | Assets/U.movin/MovinLayer.cs:125-128 | A vector track reads the keyframe's start and end vectors. A scalar track reads the scalar start and end in x, with y = z = 0. |
| TrackKeys.LayerKeys | Assets/U.movin/MovinLayer.cs:125-128 | Position and scale tracks carry the keyframes' vectors. Opacity and rotation tracks carry the scalar in x, with y = z = 0. Times are kept. |
| TrackKeys.EveryKindResets | Assets/U.movin/MovinLayer.cs:266-271 | A check over the constant reset order, kept as documentation: it names every one of the six tracks. |
| Segments.SegmentAt | Assets/U.movin/MovinShape.cs:187-207 | Segment j runs from point j to point (j+1) mod n, with P1 = p + o and P2 = next.p + next.i, and every y negated. |
| Segments.Convert | Assets/U.movin/MovinShape.cs:179-228 | A closed contour yields n + 1 segments and an open one n. The extra closing segment starts at the first point with zero control points, and an empty closed contour gets one all-zero segment. |
| Segments.Rewrite | Assets/U.movin/MovinShape.cs:146-167 | The in-place loop rewrites the slots from i up to n and keeps the rest. It faults exactly when there are fewer slots than points. |
| Segments.UpdateSegments | Assets/U.movin/MovinShape.cs:142-176 | Rewrites the segments from the points and forces the last slot to the closing segment. It faults without points or with too few slots. On a closed contour's segments it reproduces Convert; on an open contour's it replaces the last real segment. |
| Segments.ClosedAgrees | Assets/U.movin/Bodybuilder/BodyShape.cs:121-155 | Rewritten segments with the closing segment last are the closed conversion. |
| Segments.OpenOverwritten | Assets/U.movin/Bodybuilder/BodyShape.cs:121-155 | Rewritten segments of an open contour are its conversion with the last segment replaced by the closing one. |
| PathMotion.Resolve | Assets/U.movin/MovinShape.cs:636 | A `startPoints` reference reads nothing, an array of its own, or the live `points` array. |
| PathMotion.KeysOf | Assets/U.movin/MovinShape.cs:528-546 | A path keyframe gives its track its time and tangents. A null set stays null. |
| PathMotion.SetKeyframe | Assets/U.movin/MovinShape.cs:528-546 | Loads the track's segment and points `startPoints`/`endPoints` at the loaded key's start and end sets. The guard is only `set.Length > k`, so the last key faults. |
| PathMotion.MotionSetup | Assets/U.movin/MovinShapeSlave.cs:206-214 | The path is animated iff `animSets` is non-null and non-empty. Then segment 0 is loaded with its own start and end arrays. |
| PathMotion.CreatePathKeyframe | Assets/U.movin/MovinShape.cs:625-639 | A one-key segment whose start is the live `points` array, not a copy, and whose end is the target's points. |
| PathMotion.Step | Assets/U.movin/MovinShape.cs:274-307 | The path step advances at most one segment, mirroring the track step. It completes at the last segment (or on a null set where the class allows it) without touching the vertices. Before the segment's end it keeps the start and end arrays. |
| PathMotion.Interpolate | Assets/U.movin/MovinShape.cs:312-326 | Every vertex's position and both handles move from the start set towards the end set by the same ease, or snap to the start set when frozen. It faults exactly when a set read is shorter than the vertex list or null. |
| PathMotion.AliasedTicksCompound | Assets/U.movin/MovinShape.cs:636 | With the start aliased to the live points, two ticks with eases e1, e2 move a vertex the fraction 1 - (1-e1)(1-e2) of the way, not e2. |
| PathMotion.OwnStartIgnoresCurrentPoints | Assets/U.movin/MovinShape.cs:540-544 | With a start set of its own, a tick gives the same vertices whatever `points` held before. |
| PathMotion.LiveFreezeKeepsPoints | Assets/U.movin/MovinShape.cs:314-319 | With the live start, a frozen tick leaves the vertices where they are. |
| Aliasing.AliasedTicksFold | Assets/U.movin/MovinShape.cs:625-639 | After CreatePathKeyframe, ticks with eases e1..ek leave a vertex the fraction 1 - (1-e1)...(1-ek) of the way to the target. |
| Aliasing.TicksSnoc | Assets/U.movin/MovinShape.cs:312-326 | One more tick continues from where the previous ticks left the vertex. |
| Aliasing.PathBuffers.Interpolate | Assets/U.movin/MovinShape.cs:312-326 | The in-place vertex loop over arrays equals the functional interpolation, also when the start array is the `points` array itself: each vertex is read before it is written. |
| Aliasing.PathBuffers.RunAliased | Assets/U.movin/MovinShape.cs:625-639 | After the aliasing reference move, a run of in-place ticks leaves each vertex the compounded fraction of the way to its target. |
| MovinLayer.Setup | Assets/U.movin/MovinLayer.cs:99-110 | A layer track is animated iff its set is non-empty. Then it holds segment 0 with its key values loaded, and a one-key set gets a zero-length segment. |
| MovinLayer.BuildShapes | Assets/U.movin/MovinLayer.cs:84-95 | Every shape is built and given the layer's opacity. Building fails exactly when one shape's constructor does. |
| MovinLayer.Build | Assets/U.movin/MovinLayer.cs:40-96 | The displayed position is the document position plus the offset, and scale, rotation and opacity are the document's. Each track is set up, the layer starts shown and it has one shape per document shape. |
| MovinLayer.OpacityToShapes | Assets/U.movin/MovinLayer.cs:241-243 | The opacity goes to every shape. |
| MovinLayer.Apply | Assets/U.movin/MovinLayer.cs:227-244 | The kind's displayed value becomes the new reading: position is the track value plus the offset, scale the track vector, a rotation component or the opacity the scalar value. Every other kind keeps what it showed. The tracks, document, offset, shown flag and shape count are unchanged. Opacity also reaches every shape, and other kinds leave the shapes alone. |
| MovinLayer.UpdateProperty | Assets/U.movin/MovinLayer.cs:187-246 | A finished step only stores the track. A step that moves writes the newer value of the property. The step faults exactly when the track step does. The document, offset, active flag and shape count never change. |
| MovinLayer.UpdateTracks | Assets/U.movin/MovinLayer.cs:162-179 | Only animated, not completed tracks run. When none is live, the layer is unchanged. |
| MovinLayer.IdleTracksUntouched | Assets/U.movin/MovinLayer.cs:162-179 | A completed or non-animated track is left exactly as it was. |
| MovinLayer.UpdateShapes | Assets/U.movin/MovinLayer.cs:155-157 | Every shape takes the frame. The update fails exactly when one shape's update does. |
| MovinLayer.Update | Assets/U.movin/MovinLayer.cs:133-184 | Afterwards the layer is active iff inFrame <= frame < outFrame. Outside that window nothing else changes; inside it the shapes and then the tracks advance. |
| MovinLayer.ResetTrack | Assets/U.movin/MovinLayer.cs:266-271 | An animated track reloads segment 0 and is no longer completed. Other tracks and the shapes stay as they were. Every displayed value, the document, offset and shown flag are kept. |
| MovinLayer.ResetTracks | Assets/U.movin/MovinLayer.cs:266-271 | Every animated track in the order is reloaded. Every other track is unchanged, and nothing displayed changes. |
| MovinLayer.ResetShapes | Assets/U.movin/MovinLayer.cs:273-275 | Every shape resets. Resetting fails exactly when one shape's reset does. |
| MovinLayer.ResetKeyframes | Assets/U.movin/MovinLayer.cs:264-277 | Every animated track is back at segment 0 and not completed, non-animated ones are untouched, every shape resets. Nothing displayed changes: position, scale, rotation and opacity are kept, as are the document, offset and shown flag. |
| MovinLayer.CreateBlendKeyframe | Assets/U.movin/MovinLayer.cs:292-318 | As written: all six tracks get a live one-key [0, duration] segment with the linear tangents, from the displayed value to the target's value. The position segment ends at the target position plus the offset. Nothing displayed changes yet. |
| MovinLayer.CreateBlendKeyframeCorrected | Assets/U.movin/MovinLayer.cs:292-318 | Corrected: the position segment runs in the track's own terms, from the displayed position minus the offset to the target's document position. The other tracks are as written. |
| MovinLayer.FirstBlendUpdate | Assets/U.movin/MovinLayer.cs:187-244 | On a one-key blend track the first update, at frame 0, shows the segment's start value. Position shows it plus the offset. |
| MovinLayer.BlendPositionJumps | Assets/U.movin/MovinLayer.cs:297 | As written, with a non-zero offset, the first blend update moves the layer by the offset. The blend also ends one offset away from where the target layer is shown. |
| MovinLayer.BlendCorrectedStartsInPlace | Assets/U.movin/MovinLayer.cs:228 | Corrected, the first update of every track leaves the displayed value where it was, and the position segment ends where the target layer is shown. |
| MovinShape.BuildSlaves | Assets/U.movin/MovinShape.cs:132-135 | Slave i is built from path i + 1 with the master's closed flag and paint objects. |
| MovinShape.Build | Assets/U.movin/MovinShape.cs:57-137 | A shape without paths is left unbuilt, and a null first point array faults. Otherwise: the path is animated iff the first path has keyframes; a stroke or fill object exists iff it is visible and has a colour; one slave is built per further path. |
| MovinShape.UpdateOpacity | Assets/U.movin/MovinShape.cs:262-271 | An unbuilt shape ignores the opacity. Otherwise the alpha becomes opacity / 100 and nothing else changes. |
| MovinShape.UpdateMesh | Assets/U.movin/MovinShape.cs:552-563 | The first call converts the vertices into segments. Later calls rewrite the existing segments in place. |
| MovinShape.UpdatePath | Assets/U.movin/MovinShape.cs:274-334 | A path step that moves rewrites every vertex: frozen at the start set while the percent is below 0, otherwise interpolated towards the end set. A held step touches no vertex. The slaves are kept. |
| MovinShape.Writes | Assets/U.movin/MovinShape.cs:380-402 | The stroke track writes the stroke colour. The fill track writes the stroke colour exactly when both colour sets are null, because the sets are compared by reference. |
| MovinShape.PushToSlaves | Assets/U.movin/MovinShape.cs:407-433 | Every slave's stroke (or fill) takes the colour. It faults exactly when some slave lacks that paint object. |
| MovinShape.WriteColour | Assets/U.movin/MovinShape.cs:380-402 | The chosen colour becomes current and goes to its paint object and every slave. A missing paint object faults. The other colour, the vertices and the tracks are untouched. |
| MovinShape.UpdateColour | Assets/U.movin/MovinShape.cs:337-404 | The colour step uses the skip loop. A move writes the newer value, the start value outside [0,1], to the colour the dispatch selects. The stroke and fill tracks are independent. |
| MovinShape.UpdateSlaves | Assets/U.movin/MovinShape.cs:255-258 | Every slave takes the frame. The update fails exactly when one slave's update does. |
| MovinShape.UpdateTracks | Assets/U.movin/MovinShape.cs:237-245 | The path, stroke and fill tracks run in that order and keep the slave count. |
| MovinShape.Update | Assets/U.movin/MovinShape.cs:231-259 | With no live track and no slaves, the shape is unchanged. Otherwise the slave count is kept. |
| MovinShape.ResetSlaves | Assets/U.movin/MovinShape.cs:477-480 | Every slave resets. Resetting fails exactly when one slave's reset does. |
| MovinShape.ResetColour | Assets/U.movin/MovinShape.cs:474-475 | An animated colour track reloads segment 0. Any other track is unchanged. |
| MovinShape.ResetKeyframes | Assets/U.movin/MovinShape.cs:471-481 | Every animated track is at segment 0 and not completed. Vertices, segments and colours are kept, and every slave resets. |
| MovinShape.BlendSlaves | Assets/U.movin/MovinShape.cs:599-605 | Slave i - 1 gets a one-key path segment from its live vertices towards target path i. It faults when a target path is missing or null. |
| MovinShape.CreateBlendKeyframe | Assets/U.movin/MovinShape.cs:576-606 | Creates one-key [0, duration] segments on the path (towards the target's first path), on stroke and fill (from the current colours to the target's, white when it has none), and on every slave. |
| MovinShape.BlendColourStartsInPlace | Assets/U.movin/MovinShape.cs:591 | The first stroke update of a blend, at frame 0, writes back the colour the shape already showed. |
| MovinShape.FillBlendWritesStroke | Assets/U.movin/MovinShape.cs:380-402 | With both colour set arrays null and a stroke object present, the blended fill track writes the stroke. At frame 0 the stroke takes the old fill colour and the fill stays. The parser never produces this combination (see BodymovinParse.PaintHasSets). |
| MovinShape.StrokelessFillBlendFaults | Assets/U.movin/MovinShape.cs:380-382 | With both colour set arrays null and no stroke object, the first fill update of a blend, at frame 0, takes the stroke branch and faults with a null reference. |
| MovinShape.BareBlendFaultsOnFill | Assets/U.movin/MovinShape.cs:111 | A shape parsed from items with no "st" and no "fl" item, once built and blended, faults on its first fill update: the stroke object is null (line 111) and the fill set compares equal to the null stroke set (line 380). |
| MovinShapeSlave.Build | Assets/U.movin/MovinShapeSlave.cs:42-92 | Copies the path's vertices (a null array faults) and sets up the path track. It converts with the master's conversion, so the segment count follows the master's closed flag. The slave gets paint objects of its own exactly when the master has them, carrying the master's colours. |
| MovinShapeSlave.Advance | Assets/U.movin/MovinShapeSlave.cs:169-189 | A moving step sets every vertex to the start set's vertex while the percent is below 0, and otherwise interpolates. The segments are then rewritten. |
| MovinShapeSlave.Update | Assets/U.movin/MovinShapeSlave.cs:95-106 | A non-live slave is unchanged. Otherwise one path step runs: a held step stores only the track, and a moving one advances the vertices. Vertex and segment counts are kept. |
| MovinShapeSlave.ClosedMasterKeepsConversion | Assets/U.movin/MovinShapeSlave.cs:243-250 | Segments built by a closed master stay equal to the closed conversion of the current vertices after every update. |
| MovinShapeSlave.OpenMasterOverwritesLast | Assets/U.movin/MovinShapeSlave.cs:243-250 | With an open master, once the vertices move, the last real segment is replaced by the closing one. |
| MovinShapeSlave.ResetKeyframes | Assets/U.movin/MovinShapeSlave.cs:196-199 | Only an animated path reloads segment 0 of its animSets. Without animSets it faults when it has keys. The vertices and segments are kept. |
| MovinShapeSlave.UpdateStrokeColor | Assets/U.movin/MovinShapeSlave.cs:117-122 | The stroke object takes the colour, and a missing one faults. |
| MovinShapeSlave.UpdateFillColor | Assets/U.movin/MovinShapeSlave.cs:124-129 | The fill object takes the colour, and a missing one faults. |
| BodyLayer.Half | Assets/U.movin/Bodybuilder/BodyLayer.cs:44 | Integer halving truncates toward zero. |
| BodyLayer.PositionOffset | Assets/U.movin/Bodybuilder/BodyLayer.cs:44 | The offset is (w/2, -(h/2), 0) with integer division. |
| BodyLayer.Setup | Assets/U.movin/Bodybuilder/BodyLayer.cs:91-102 | Under the older rules a set with exactly one key faults. |
| BodyLayer.SetupLoadsFirstSegment | Assets/U.movin/Bodybuilder/BodyLayer.cs:91-118 | A set-up track is animated iff it has keys. Then it holds the segment from key 0 to key 1, and no values are loaded. |
| BodyLayer.LoadableEveryKind | Assets/U.movin/Bodybuilder/BodyLayer.cs:53-69 | A layer is loadable exactly when none of its six sets has exactly one key. |
| BodyLayer.BuildTracks | Assets/U.movin/Bodybuilder/BodyLayer.cs:36-69 | Fails exactly when some set has one key. Otherwise every track is set up and the displayed position is the document position minus the offset. |
| BodyLayer.BuildShapes | Assets/U.movin/Bodybuilder/BodyLayer.cs:77-87 | Every shape is built. Building fails exactly when one shape's constructor does. |
| BodyLayer.Build | Assets/U.movin/Bodybuilder/BodyLayer.cs:36-88 | The offset comes from the canvas size, and displayed position plus offset is the document position. Each track is set up, the layer starts shown and it has one shape per document shape. |
| BodyLayer.OpacityToShapes | Assets/U.movin/Bodybuilder/BodyLayer.cs:216-219 | The opacity goes to every shape. It faults exactly when some shape was never built. |
| BodyLayer.Apply | Assets/U.movin/Bodybuilder/BodyLayer.cs:206-220 | Each property takes the older value read from its set. Position subtracts the offset. A value read out of range or through a null set faults. |
| BodyLayer.UpdateProperty | Assets/U.movin/Bodybuilder/BodyLayer.cs:170-222 | One step without the skip loop. A held step only stores the track, and a moving step writes the older value. |
| BodyLayer.UpdateTracks | Assets/U.movin/Bodybuilder/BodyLayer.cs:146-163 | Only live tracks run. When none is live, the layer is unchanged. |
| BodyLayer.UpdateShapes | Assets/U.movin/Bodybuilder/BodyLayer.cs:138-141 | Every shape takes the frame. The update fails exactly when one shape's update does. |
| BodyLayer.Update | Assets/U.movin/Bodybuilder/BodyLayer.cs:121-168 | Afterwards the layer is active iff inFrame <= frame < outFrame. Outside that window nothing else changes. |
| BodyLayer.OpacityFaultsOnUnbuiltShape | Assets/U.movin/Bodybuilder/BodyLayer.cs:216-219 | An opacity step that moves faults when some shape was never built. |
| BodyLayer.ResetTrack | Assets/U.movin/Bodybuilder/BodyLayer.cs:242-247 | An animated track reloads segment 0 under the older rules. A non-animated one is unchanged. Only that track can change: the document, offset, shown flag, transform and shapes are kept. |
| BodyLayer.ResetTracks | Assets/U.movin/Bodybuilder/BodyLayer.cs:242-247 | Every animated track in the order is back at segment 0 and not completed. Every other track is unchanged, and so are the document, offset, shown flag, position, scale, rotation and shapes. |
| BodyLayer.ResetShapes | Assets/U.movin/Bodybuilder/BodyLayer.cs:249-252 | Every shape's reset faults, so only a layer without shapes gets through. |
| BodyLayer.ResetKeyframes | Assets/U.movin/Bodybuilder/BodyLayer.cs:240-254 | Succeeds exactly when the layer has no shapes and its tracks reload. Then every animated track is at segment 0 and not completed, and no transform is written: the document, offset, shown flag, position, scale, rotation and shapes are kept. |
| BodyLayer.ResetTracksFixed | Assets/U.movin/Bodybuilder/BodyLayer.cs:242-247 | When every track of the order already sits at its reset state, resetting the order leaves the layer as it is. |
| BodyLayer.ResetAfterBuild | Assets/U.movin/Bodybuilder/BodyLayer.cs:240-254 | A freshly built layer is already in its reset state: resetting a built layer without shapes gives back the same layer. |
| BodyShape.Build | Assets/U.movin/Bodybuilder/BodyShape.cs:48-116 | A null or at most one-point vertex list leaves the shape unbuilt. Otherwise it faults exactly when some set has one key. A built shape has its tracks animated iff their sets are non-empty, and paint objects iff visible and coloured. |
| BodyShape.BuildTracks | Assets/U.movin/Bodybuilder/BodyShape.cs:65-67 | Each of the path, stroke and fill tracks sets up under the older rules. Setup faults exactly when a set has one key. |
| BodyShape.UpdateOpacity | Assets/U.movin/Bodybuilder/BodyShape.cs:230-236 | An unbuilt shape faults. A built one takes opacity / 100 as alpha. |
| BodyShape.UpdatePath | Assets/U.movin/Bodybuilder/BodyShape.cs:239-289 | A moving path step always interpolates every vertex from the start set to the end set, with no freeze below 0. Colours and colour tracks are kept. |
| BodyShape.StepColour | Assets/U.movin/Bodybuilder/BodyShape.cs:292-353 | A moving colour step writes the older value read from the set to the paint object. A missing paint object or an out-of-range read faults. |
| BodyShape.Update | Assets/U.movin/Bodybuilder/BodyShape.cs:210-227 | Only animated, not completed tracks run. A track that does not run leaves its vertices or colour as they were. |
| BodyShape.ResetColour | Assets/U.movin/Bodybuilder/BodyShape.cs:369-370 | An animated colour track reloads segment 0 under the older rules. |
| BodyShape.ResetKeyframes | Assets/U.movin/Bodybuilder/BodyShape.cs:366-375 | Always faults: the slaves array it loops over is never assigned. |
| BodyShape.BuiltResetFaultsOnSlaves | Assets/U.movin/Bodybuilder/BodyShape.cs:17 | Every shape the constructor builds faults on reset. |
| BodyShape.ClosedKeepsConversion | Assets/U.movin/Bodybuilder/BodyShape.cs:121-207 | For a closed contour, the segments after a path update are the closed conversion of the new vertices. |
| Movin.IndexOffset | Assets/U.movin/Movin.cs:58 | The offset is the first ind less 1 when the first ind is above 1, else 0. The first layer therefore goes to slot 0. |
| Movin.PlaceLayers | Assets/U.movin/Movin.cs:60-67 | The layer with index `ind` is stored at slot ind - offset - 1, where the last writer wins. It faults exactly when a layer faults or its slot is out of range. Untouched slots stay empty. |
| Movin.ParentOf | Assets/U.movin/Movin.cs:69-76 | A parent value of at most the offset means root. Otherwise the parent is slot parent - offset - 1, which must hold a layer. An empty slot of the child faults. |
| Movin.ResolveParents | Assets/U.movin/Movin.cs:69-77 | Every slot's parent is resolved in order. Resolution fails exactly when one does. |
| Movin.Construct | Assets/U.movin/Movin.cs:44-81 | The player starts stopped and looping at time and frame 0, with the document's frame rate and out frame. A document without layers gets no layers. Otherwise the layers are placed and their parents resolved. |
| Movin.ConsecutiveLayersInOrder | Assets/U.movin/Movin.cs:58-63 | Layers with consecutive inds starting at 1 or above fill the slots in document order. |
| Movin.PlacedAt | Assets/U.movin/Movin.cs:60-67 | A layer whose ind no later layer repeats ends up in its slot. |
| Movin.ParentIsPlacedLayer | Assets/U.movin/Movin.cs:69-77 | A layer's parent slot holds the layer whose ind the parent names. |
| Movin.Play | Assets/U.movin/Movin.cs:83-86 | Sets playing and nothing else. |
| Movin.Stop | Assets/U.movin/Movin.cs:88-91 | Clears playing and nothing else. |
| Movin.UpdateLayers | Assets/U.movin/Movin.cs:120-123 | Every layer receives the same frame. An empty slot faults. |
| Movin.ResetLayers | Assets/U.movin/Movin.cs:131-134 | Every layer resets. An empty slot faults. |
| Movin.ResetKeyframes | Assets/U.movin/Movin.cs:127-135 | The time returns to 0 and every layer resets. Nothing else changes. |
| Movin.Advance | Assets/U.movin/Movin.cs:100-101 | The time grows by the elapsed time and the frame is time * frame rate. |
| Movin.AtEnd | Assets/U.movin/Movin.cs:105-117 | At the end playback stops. When looping, the time becomes 0, every layer resets and playing is true again, while the frame itself is not reset. |
| Movin.UpdateAll | Assets/U.movin/Movin.cs:120-123 | Before the end every layer takes the tick's frame. |
| Movin.Update | Assets/U.movin/Movin.cs:96-124 | Nothing changes while not playing. A tick before the last frame updates every layer with the new frame. A tick at or past it stops, or with looping resets and plays on, and updates no layer. |
| Movin.LoopFaultsWithShapes | Assets/U.movin/Movin.cs:110-113 | A looping player reaching its end faults when any layer has shapes, because the older shape's reset always faults. |
| Movin.TicksAccumulate | Assets/U.movin/Movin.cs:100-101 | Two ticks before the end add their elapsed times. |
| Content.RgbOrWhite | Assets/U.movin/MovinShape.cs:588-593 | A colour field's RGB, white when the field is null. |
| Content.PaintObject | Assets/U.movin/MovinShape.cs:104-111 | A paint object exists iff it is not hidden and the document gives a colour. Then it has that colour's RGB. |
| Vectors.Lerp3 | Assets/U.movin/MovinLayer.cs:253 | Interpolation gives the start at 0 and the end at 1. |
| Vectors.Lerp3Between | Assets/U.movin/MovinLayer.cs:253 | With a fraction in [0,1], each component lies between the endpoints. |
| Wrappers.CollectFromEnd | Assets/U.movin/MovinLayer.cs:84-95 | A loop from the last element to the first succeeds iff every step does. Otherwise it reports the fault of the last failing step. |
| Wrappers.CollectInOrder | Assets/U.movin/MovinShape.cs:132-135 | A loop in order succeeds iff every step does. Otherwise it reports the fault of the first failing step. |
| BodymovinParse.MapResult | Assets/U.movin/Bodybuilder/BodymovinContent.cs:47-60 | A conversion applied to every element succeeds iff it succeeds on each, and then keeps order and length. |
| BodymovinParse.ScalarKey | Assets/U.movin/Bodybuilder/BodymovinContent.cs:110-118 | A scalar keyframe keeps time and tangents. Its start and end are negated for rotation X and Z and kept otherwise. |
| BodymovinParse.ScalarSets | Assets/U.movin/Bodybuilder/BodymovinContent.cs:87-104 | A static scalar gives an empty track. A keyed one gives one converted keyframe per file keyframe. |
| BodymovinParse.Angle | Assets/U.movin/Bodybuilder/BodymovinContent.cs:73 | The static Euler angle is negated for X and Z. When keyed, it is replaced by the first keyframe's start. |
| BodymovinParse.PositionKey | Assets/U.movin/Bodybuilder/BodymovinContent.cs:207-220 | A position keyframe's start and end have y negated. |
| BodymovinParse.ScaleKey | Assets/U.movin/Bodybuilder/BodymovinContent.cs:179-192 | A scale keyframe's start and end are divided by 100. |
| BodymovinParse.PositionSets | Assets/U.movin/Bodybuilder/BodymovinContent.cs:81-82 | Position gets keyframes only when its "a" flag is 1. Otherwise the track is empty. |
| BodymovinParse.ScaleSets | Assets/U.movin/Bodybuilder/BodymovinContent.cs:84-85 | Scale gets keyframes only when its "a" flag is 1. Otherwise the track is empty. |
| BodymovinParse.Anchor | Assets/U.movin/Bodybuilder/BodymovinContent.cs:71 | The anchor has y negated. |
| BodymovinParse.Position | Assets/U.movin/Bodybuilder/BodymovinContent.cs:72 | The static position has y negated. When keyed, it is the first keyframe's start with y negated. |
| BodymovinParse.Scale | Assets/U.movin/Bodybuilder/BodymovinContent.cs:77 | The static scale is divided by 100. When keyed, it is the first keyframe's start divided by 100. |
| BodymovinParse.Clamp | Assets/U.movin/Bodybuilder/BodymovinContent.cs:307-308 | Clamps to [-1,1] and leaves values inside unchanged. |
| BodymovinParse.ColourKey | Assets/U.movin/Bodybuilder/BodymovinContent.cs:300-311 | Colour tangents are clamped, and the out-tangent uses its clamped x for both components. |
| BodymovinParse.ColourSets | Assets/U.movin/Bodybuilder/BodymovinContent.cs:292-317 | A non-animated colour yields an empty set. An animated one yields one converted keyframe per file keyframe. |
| BodymovinParse.Vertices | Assets/U.movin/Bodybuilder/BodymovinContent.cs:321-334 | Zips the vertex, in and out lists into points. It faults exactly when a tangent list is shorter than the vertex list. |
| BodymovinParse.Zip | Assets/U.movin/Bodybuilder/BodymovinContent.cs:323-333 | Point c holds vertex c and its two tangents. |
| BodymovinParse.VerticesRoundTrip | Assets/U.movin/Bodybuilder/BodymovinContent.cs:321-334 | Unzipping points into lists and zipping them back gives the points. |
| BodymovinParse.ShapeKey | Assets/U.movin/Bodybuilder/BodymovinContent.cs:356-421 | A path keyframe has the start set's points. Its end points are indexed by the start set's count, with default points past it. It faults exactly when a list read is too short. |
| BodymovinParse.ItemPath | Assets/U.movin/Bodybuilder/BodymovinContent.cs:336-431 | Static vertices are used when there are some. Otherwise the keyframes are used, with `points` set to the first keyframe's start set. |
| BodymovinParse.PathClosed | Assets/U.movin/Bodybuilder/BodymovinContent.cs:457 | `closed` comes from the static shape, or from the first keyframe's start set when animated. An empty keyframe list faults. |
| BodymovinParse.LastOf | Assets/U.movin/Bodybuilder/BodymovinContent.cs:437-450 | Finds the last item of a type, or none exactly when there is none. |
| BodymovinParse.ApplyItem | Assets/U.movin/Bodybuilder/BodymovinContent.cs:437-464 | An "sh" item appends exactly its path with the closed flag. Other items leave the paths. No item touches the single-path fields. |
| BodymovinParse.ParseItems | Assets/U.movin/Bodybuilder/BodymovinContent.cs:240-469 | Parsing fails exactly when some item is malformed. It appends exactly as many paths as there are "sh" items and keeps earlier paths. |
| BodymovinParse.LastStrokeWins | Assets/U.movin/Bodybuilder/BodymovinContent.cs:437-443 | The stroke fields come from the last "st" item. With none they keep their values. |
| BodymovinParse.LastFillWins | Assets/U.movin/Bodybuilder/BodymovinContent.cs:445-450 | The fill fields come from the last "fl" item. With none they keep their values. |
| BodymovinParse.PaintHasSets | Assets/U.movin/Bodybuilder/BodymovinContent.cs:437-450 | In a parsed shape a colour is present exactly when its colour set array is, because an "st" or "fl" item assigns both (the set possibly empty). With no such item, both stay null. |
| BodymovinParse.ParseShape | Assets/U.movin/Bodybuilder/BodymovinContent.cs:249-256 | `paths` has exactly as many entries as there are "sh" items. The single-path fields stay null. |
| BodymovinParse.ParseItemsKeepsLegacy | Assets/U.movin/Bodybuilder/BodymovinContent.cs:240-469 | The parser never sets the single-path fields the older shape reads. |
| BodymovinParse.NthPathIndex | Assets/U.movin/Bodybuilder/BodymovinContent.cs:452-459 | The j-th "sh" item exists and is an "sh" item. |
| BodymovinParse.PathsInItemOrder | Assets/U.movin/Bodybuilder/BodymovinContent.cs:452-459 | Path j is the j-th "sh" item's path with its closed flag: paths are filled in item order. |
| BodymovinParse.ParseLayer | Assets/U.movin/Bodybuilder/BodymovinContent.cs:63-238 | The layer has the converted anchor, position, scale, opacity and rotations, with their tracks, and one shape per shape node. It fails exactly when a shape does. |
| BodymovinParse.ParseDocument | Assets/U.movin/Bodybuilder/BodymovinContent.cs:18-61 | The document has its frame rate, out frame and size, and one layer per layer node. It fails exactly when a layer does. |
| BodymovinParse.StaticIsFirstKeyStart | Assets/U.movin/Bodybuilder/BodymovinContent.cs:124-225 | Every keyed position, scale and rotation has its static value equal to its first keyframe's start. Keyed opacity reads 0. |
| BodymovinParse.PositionFlipInverts | Assets/U.movin/Bodybuilder/BodymovinContent.cs:219-220 | Flipping y back recovers the file's position keyframes, static position and anchor. |
| BodymovinParse.RotationSignsInvert | Assets/U.movin/Bodybuilder/BodymovinContent.cs:117-162 | Negating X and Z back recovers the file's rotation keyframe values. Y is stored as is. |
| BodymovinParse.ScalarSignInverts | Assets/U.movin/Bodybuilder/BodymovinContent.cs:117-118 | A scalar keyframe's stored start and end, with the sign undone, are the file's. |

## Left out

- Unity scene and rendering are not modelled: GameObject/Transform parenting, meshes, `VectorUtils` tessellation (`FillMesh`), materials, sorting groups and stroke width. "Active", the displayed transform and the material alpha are plain fields.
- `Quaternion.Euler` is not modelled; the rotation is kept as an Euler triple.
- JSON loading (`Resources.Load`, SimpleJSON) is not modelled. The parser takes an abstract node tree that already tells static values from keyframe lists. Names, `nm`/`mn`/`ix` fields and the blend mode are not kept.
- `Mathf.Sqrt`, `Pow(v, 1/3)`, `Acos` and `Cos` are uninterpreted. Only the structural range guarantees of the solvers are proved, not the accuracy of the roots.
- `Ease.SolveCubic`: for a non-zero leading coefficient and d != 0, a result other than -1 is not proved to be a root of the cubic. The cube root, `Acos` and `Cos` are uninterpreted, so the trigonometric and Cardano branches cannot be checked against the polynomial. Only the range, the a = 0 delegation and the d = 0 root are proved.
- A fault is an `Err` that drops the whole state, while the C# keeps the writes made before the exception and Unity keeps calling `Update`. `Movin.Update` at the end of a looping run calls `Stop()` (Movin.cs:107) and sets `time = 0` (Movin.cs:129) before a layer reset throws (Movin.cs:133), so the real player is left stopped at time 0; `Movin.LoopFaultsWithShapes` states only the fault. `MovinShape.CreateBlendKeyframe` sets `animated = true` (MovinShape.cs:580) before the call at line 581 throws on a short `ease` array: `CreatePathKeyframe` writes `completed`, `keys`, `key`, `startFrame` and `endFrame` (MovinShape.cs:627-632) before reading `ease[0]` at line 633. These partial states are not modelled.
- Floats are reals. Rounding is not modelled. Of IEEE's special values, only the infinities and NaN of a zero-length segment's percent are, as `Track.Percent`.
- `Time.deltaTime` is a parameter of `Movin.Update`. The Unity callback that drives it (`Updater.cs`) is not part of this model, and neither are `MovinRenderer.cs` and `Blending.cs`.
- `MovinLayer.ChangeContents` (MovinLayer.cs:338-361) is not modelled: it calls a `MovinShape.ChangeContents` that does not exist.
- `MovinLayer.CreateBlendKeyframe`: the shapes loop (MovinLayer.cs:314-316) is not modelled. It calls `MovinShape.CreateBlendKeyframe` with two arguments, while MovinShape.cs:576 takes three. The shape blend is modelled on its own as `MovinShape.CreateBlendKeyframe`.
- `MovinShape.PushToSlaves`: MovinShape.cs:417 and 431 call `UpdateStrokeColor(c, true)` and `UpdateFillColor(c, true)` on each slave, but MovinShapeSlave.cs:117 and 124 take only the colour. The model reads them as the one-argument calls.
- `MovinShape.BlendSlaves`: MovinShape.cs:602 calls a slave `CreatePathKeyframe` that `MovinShapeSlave` does not define. The model gives the slave the master's `CreatePathKeyframe` behaviour.
- `MovinShape.UpdateLayersWithContent` (MovinShape.cs:642-662) and `MovinShape.UpdateAnchor` (MovinShape.cs:435-445) are not modelled. The first re-initialises the slaves from the master's own fields; the second moves transforms and calls a slave method that does not exist.
- `MovinLayer.ShapesActive` (MovinLayer.cs:280-284) only toggles GameObjects and is not modelled.
- `MovinShapeSlave.UpdateOpacity` (MovinShapeSlave.cs:109-115) is not modelled: nothing calls it, and it writes only the material alpha.
- `MovinLayer.Build`: the layer's `positionOffset` is a field of the document layer record that the parser does not define. The model takes it as a given value.
- The `Content.Shape` record adds the `points`, `closed` and `animSets` fields that `BodyShape` reads from `BodymovinShape` but that the record does not declare. The parser leaves them null, so every `BodyShape` stays unbuilt.
- Every array is assumed to be a distinct object, except where `CreatePathKeyframe` aliases `startPoints` with `points`. `activeInHierarchy` is treated as the layer's own active flag.
- `Aliasing.PathBuffers.CreatePathKeyframe`: its contract speaks of field updates (`modifies`), so it states the reference move only in array terms. The functional `PathMotion.CreatePathKeyframe` states the same reference move over values.
- `Movin.Construct`: the faults are modelled (an unfilled slot, an out-of-range slot or parent), but the Transform parenting that `SetParent` performs is not.

## Findings

| source | as written | input that shows it | evidently intended | confidence | as-written member | corrected member |
|---|---|---|---|---|---|---|
| Assets/U.movin/MovinLayer.cs:297 | The position blend segment starts at `localPosition` and ends at the target position plus `positionOffset`, and `UpdateProperty` (line 228) adds `positionOffset` once more. | A layer whose `positionOffset` is (50, -50, 0), blended with any positive duration: at frame 0 the layer jumps by (50, -50, 0). | The segment runs from `localPosition - positionOffset` to the target's position, so the first blend update leaves the layer in place. | not executed | MovinLayer.CreateBlendKeyframe, MovinLayer.BlendPositionJumps | MovinLayer.CreateBlendKeyframeCorrected, MovinLayer.BlendCorrectedStartsInPlace |

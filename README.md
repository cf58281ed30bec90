# Boxcar track builder and samplers, modelled in Dafny

Boxcar is a small Babylon.js train game organised as entity-component
systems. This project models the parts of it that hold real logic.

- **The track builders.** The current builder turns a list of tokens
  (`straight`/`s`/`w`, `left`/`l`/`a`, `right`/`r`/`d`) into track points
  and one section marker per token. It then:
  - checks the order of the sections and prepends a zero-start section when
    one is needed;
  - walks every rail of every section, advancing lean (`phi`) and turn
    (`theta`) by twist or wave;
  - pushes one entry per rail into four parallel arrays (directions, track
    rotations, carriage rotations, passenger rotations);
  - derives the two rail paths and publishes the rotations as quaternions,
    guarded by a NotInitialized → Initializing → Initialized status.

  Two older copies are modelled beside it:
  - the `trackInitialization` system, with two boolean flags, an order check
    that returns no track, and every fifth point sampled;
  - the start-up builder in `game.ts`, with a curve loop from 0, `dz`
    negated on the other turn, and full words only.
- **The section record** with its eight options defaulting to 0, and the
  track component.
- **The samplers.**
  - A car's fractional position uses a JavaScript remainder, a floor, a
    wrapping next index, a linear interpolation and a slerp.
  - The locomotive keeps an integer cursor.
- **The terrain collider.** It keeps the faces whose three vertices lie
  within a radius of the shifted camera in the XZ plane. Each used vertex is
  copied once, the faces are renumbered through a map, and the mean becomes
  the centre. A rebuild happens when the camera strays more than 14.
- **Input.** This covers:
  - the shared key dictionary and the component's `false` default;
  - the locomotive's direction priority (w, then s, then space);
  - the player's additive heading table and the grounded movement gate.

## How it is modelled

Each module follows one source file, except that code the builders share is
modelled once:
- `PathPoints` holds the point building, parameterised by a `Builder` value
  that records what differs between the copies;
- `Sections` holds the order check;
- `SectionFrames` holds the rail loop, which is the same line for line in
  both frame builders.

Where the source mutates state, the model is imperative:
- the section array is a `SectionList` class, because `unshift` changes the
  caller's own array;
- the track, locomotive, car, key, input, player and terrain components are
  classes whose methods write their fields;
- each push loop is a `while` loop proved against a specification function
  (`BuildPoints`, `CurvePoints`, `SectionRails`, `TrackRails`,
  `SampledOffsets`, `Compacted`).

Other modelling choices:
- **Numbers** are `real`.
- **Trigonometry.** `sin`, `cos`, `atan2`, `normalize` and `transformNormal`
  are function-valued fields of a `MathEnv` parameter, with only
  `pi > 0`, `sin 0 = 0` and `cos 0 = 1` assumed where a proof needs them.
- **Matrices and quaternions** are symbolic terms (`Rot`, `Quat`) that
  record how they were built.
- **JavaScript's `%`** (sign of the dividend), `Math.round`, `Math.sign` and
  `Math.floor` are written out.
- **Throws.** A JavaScript throw, such as reading `.start` or `.x` of
  `undefined`, is an error outcome (`None`, `Threw`, `Crashed`), not a
  precondition.
- **Division by zero.** A wave section with a single rail divides by zero;
  it is modelled as an `Angle` that is `NaN`.

### Behaviour of the code worth knowing
- The current builder's curve loop starts at `i = 1`
  (`src/systems/track/trackInit.system.ts:84`). A 90-degree curve therefore
  appends 104 points, although the comment at line 76 gives a ~105:90 ratio.
  The start-up builder in `src/game.ts` starts at `i = 0` and appends 105;
  its first one repeats the last point.
- In the current builder, a section-order error is only logged
  (`trackInit.system.ts:149-151`). The build goes on with the unprepared
  list, and the track still becomes Initialized.
- In the older builder, the same error makes `createTrack` return
  `undefined` (`src/systems/trackInitialization.system.ts:26-30`). Yet
  `updateEntity` still sets `initialized` (line 18).
- A wave section with a single rail divides by `nbRails - 1 = 0`
  (`trackInit.system.ts:234-235`), so its wave angles are NaN.
- The zero-start section is prepended with `unshift`, into the caller's own
  array.
- The separate "last section not in order" test
  (`trackInit.system.ts:155-158`) can never fire: the pair loop has already
  checked that pair (`Sections.CheckSectionOrder`).

## Model

| member | source | states |
|---|---|---|
| MathModel.Round | src/systems/track/trackInit.system.ts:80 | `Math.round` is within half of its argument, halves rounding up |
| MathModel.Sign | src/systems/track/trackInit.system.ts:242 | `Math.sign(x) * x == |x|`, and the sign is 0 exactly for 0 |
| MathModel.JsRemainderBounds | src/systems/locomotive/car.system.ts:26 | JavaScript's remainder by a positive divisor lies in [0, n) for a non-negative dividend and in (-n, 0] for a negative one |
| TrackComponents.NewSectionDefaults | src/components/track.component.ts:26-36 | a section built without options keeps its start and has all eight options 0 |
| TrackComponents.NewSectionOverrides | src/components/track.component.ts:26-38 | each supplied option overrides its default field by field; each absent one stays 0 |
| TrackComponents.SectionList.Unshift | src/systems/trackInitialization.system.ts:41 | `unshift` puts the new section in front of the same list object |
| TrackComponents.TrackComponent.constructor | src/components/track.component.ts:4-11 | a new component is NotInitialized with no rotations and holds the given points and the given section list by reference |
| Sections.CheckSectionOrder | src/systems/track/trackInit.system.ts:145-158 | the order check reports an order error exactly when a non-final adjacent pair decreases (a final start of 0 is exempt); it throws exactly on an empty list or a single positive-start section; it never reports the last-pair error |
| Sections.LoopClosingExemption | src/systems/trackInitialization.system.ts:24-31 | a last start of 0 after ordered starts passes the check |
| Sections.OutOfOrderExample | src/systems/trackInitialization.system.ts:26-30 | starts [0, 50, 30] are rejected |
| Sections.Prepended | src/systems/trackInitialization.system.ts:38-43 | after preparation the first start is at most 0, and the list is the old one or the old one behind one new section |
| Sections.PrependStartSection | src/systems/trackInitialization.system.ts:38-43 | the list grows by one exactly when its first start is positive, and the rest of it is unchanged |
| PathPoints.Classify | src/systems/track/trackInit.system.ts:47-62 | each word and each alias maps to its section kind; a token is unrecognised exactly when it is none of the builder's accepted words |
| PathPoints.StraightPoints | src/systems/track/trackInit.system.ts:106-125 | a straight section has exactly n points (none for a negative n) |
| PathPoints.AddStraightSection | src/systems/track/trackInit.system.ts:106-125 | the loop throws exactly on a one-point track and otherwise yields the straight's points |
| PathPoints.FirstStraightOnAxis | src/systems/track/trackInit.system.ts:109-112 | the first straight lies on the x axis at the builder's height, 0.5 apart |
| PathPoints.StraightContinuesLastSegment | src/systems/track/trackInit.system.ts:113-122 | a later straight starts 0.5 past the last point, and each point is 0.5 further along the last segment's direction |
| PathPoints.CurvePoints | src/systems/track/trackInit.system.ts:80-101 | a curve has `round(105/90 * |angle|)` minus the loop's first index points |
| PathPoints.AddCurveSection | src/systems/track/trackInit.system.ts:66-104 | the loop throws exactly when fewer than two points exist and otherwise yields the curve's points |
| PathPoints.PlaceCurvePoint | src/systems/track/trackInit.system.ts:86-100 | one loop pass places curve point i: the offset in the curve's frame, negated for the builder's turn, rotated by the initial angle |
| PathPoints.QuarterTurnCounts | src/systems/track/trackInit.system.ts:77-84 | a 90-degree curve has 105 indices; the current builder appends 104 of them and the start-up builder 105 |
| PathPoints.CurveIsFlat | src/systems/track/trackInit.system.ts:99 | every curve point is at the last point's height |
| PathPoints.GameCurveRepeatsLastPoint | src/game.ts:67-83 | the start-up builder's first curve point is the last point itself (angle 0) |
| PathPoints.OppositeTurnConventions | src/game.ts:73-76 | the current builder's left curve is the start-up builder's right curve minus its first point, and the other way round |
| PathPoints.MirroredTurn | src/game.ts:67-83 | one direction of the turn correspondence |
| PathPoints.BuildPointsOutcome | src/systems/track/trackInit.system.ts:47-62 | the token loop throws exactly when a curve comes before any point; otherwise it yields the sum of the per-token counts (100 per straight, 105 minus the first index per curve, 0 per unrecognised token) |
| PathPoints.StraightFirstBuilds | src/systems/track/trackInit.system.ts:47-57 | a list that opens with a straight and holds only recognised tokens never throws and yields at least 100 points |
| PathPoints.CreatePointsAndSections | src/systems/track/trackInit.system.ts:42-64 | the loop pushes exactly one default section per token, starting at the point count before that token, and the points the tokens append; it throws where the token loop throws |
| PathPoints.TokenSections | src/systems/track/trackInit.system.ts:48-61 | there is one section per token |
| PathPoints.UnrecognisedTokenAddsNoPoints | src/systems/track/trackInit.system.ts:58-61 | an unrecognised token adds no point |
| PathPoints.SectionStartsFollowCounts | src/systems/track/trackInit.system.ts:47-62 | section k starts at the points of tokens before it; the first starts at 0; consecutive starts differ by the points their token appends; the last start plus its token's points is the point count |
| PathPoints.GameTrackShape | src/game.ts:110-129 | the start-up list (straight, left, right, left, straight) gives 515 points and starts [0, 100, 205, 310, 415] |
| SectionFrames.Precedence | src/systems/track/trackInit.system.ts:191-207 | after resolution, waves > 0 and twists != 0 never both hold; waves are dropped when the wave angle is 0 and twists otherwise; a non-conflicting pair is kept |
| SectionFrames.SectionRails | src/systems/track/trackInit.system.ts:171-177 | a section has one frame per rail of [start, end), where end is the next start, or N when that start is 0 or equal |
| SectionFrames.TwistIncrement | src/systems/track/trackInit.system.ts:217-259 | in twist mode every rail adds the same step |
| SectionFrames.TwistReachesFinal | src/systems/track/trackInit.system.ts:217-218 | in twist mode the last rail reaches final + 2 pi twists |
| SectionFrames.WaveStartsAtInitial | src/systems/track/trackInit.system.ts:251-252 | in wave mode rail 0 has the initial angle |
| SectionFrames.WaveReachesFinal | src/systems/track/trackInit.system.ts:234-252 | in wave mode the last rail has the final angle plus waveAngle * sin(waves pi) |
| SectionFrames.OneTwistOverHundredRails | src/systems/track/trackInit.system.ts:217-254 | one lean twist from 0 to 0 over 100 rails gives rail k the lean (k+1) * 2 pi / 100, ending at 2 pi |
| SectionFrames.LastRailWraps | src/systems/track/trackInit.system.ts:238 | the last rail's direction points at point 0, closed track or not |
| SectionFrames.PassengerIgnoresLean | src/systems/track/trackInit.system.ts:262-272 | the passenger rotation does not depend on lean, and the carriage rotation does not depend on turn |
| SectionFrames.TrackData.constructor | src/systems/track/trackInit.system.ts:128-133 | the four arrays start empty |
| SectionFrames.TrackData.Push | src/systems/track/trackInit.system.ts:267-274 | one rail pushes one entry into each of the four arrays |
| SectionFrames.NextAngle | src/systems/track/trackInit.system.ts:251-260 | one loop step gives the angle of rail k: the wave formula, or the previous angle plus the twist step |
| SectionFrames.PushRail | src/systems/track/trackInit.system.ts:262-274 | the loop body appends rail k's frame to the arrays |
| SectionFrames.CreateSection | src/systems/track/trackInit.system.ts:165-277 | the rail loop throws exactly when a rail index is outside the points; otherwise it appends exactly the section's frames, one per rail |
| SectionFrames.CreateFrames | src/systems/trackInitialization.system.ts:55-66 | the section loop (each section against the next, the last against itself) stores the concatenated frames, or throws exactly when some section's rails are unreadable |
| SectionFrames.Tiling | src/systems/track/trackInit.system.ts:137-140 | with starts strictly increasing from 0 and below N, the rail ranges tile [0, N): exactly one entry per point, entry r along rail r |
| SectionFrames.TilingPrefix | src/systems/track/trackInit.system.ts:137-140 | the first m sections cover exactly the rails before section m's start |
| SectionFrames.SectionRailDirections | src/systems/track/trackInit.system.ts:237-238 | rail k of a section lies along the direction at point start + k |
| SectionFrames.EqualStartsSpanToEnd | src/systems/track/trackInit.system.ts:173-175 | a section followed by an equal start spans to the end of the points |
| SectionFrames.TwoZeroStartsDoubleOutput | src/systems/track/trackInit.system.ts:173-175 | two sections both starting at 0 each cover every point, giving 2N entries |
| RailOffsets.RailsSymmetric | src/systems/track/trackInit.system.ts:288-301 | the two rails sit symmetrically about the lowered point, 1.8 apart along the binormal |
| RailOffsets.SampleRailOffsets | src/systems/track/trackInit.system.ts:297-322 | the sampling loop and the closing test give the rail paths of the sampled points, throwing where a sampled carriage rotation or the first point is missing |
| RailOffsets.SampledEveryFifth | src/systems/trackInitialization.system.ts:203 | exactly the multiples of 5 below N are sampled |
| RailOffsets.EveryPointButLast | src/systems/track/trackInit.system.ts:297-322 | the current builder gives one entry per point but the last, entry i from point i, plus the first entry again on a closed loop |
| RailOffsets.EveryPointButLastThrows | src/systems/track/trackInit.system.ts:297-317 | the current builder's sampling throws exactly on an empty track or when fewer than N - 1 carriage rotations exist |
| RailOffsets.EveryFifthPoint | src/systems/trackInitialization.system.ts:203-226 | the older builder gives ceil(N/5) entries, entry k from point 5k, plus one on a closed loop |
| TrackInit.ValidateAndPrepareSections | src/systems/track/trackInit.system.ts:145-163 | validation throws exactly on an empty list or a single positive-start section; on an order error it leaves the list alone; otherwise it prepends the zero-start section when needed |
| TrackInit.TokenSectionsPassValidation | src/systems/track/trackInit.system.ts:145-163 | sections built from tokens are always in order and start at 0, so validation neither reports nor prepends |
| TrackInit.TokenSectionsIncrease | src/systems/track/trackInit.system.ts:47-62 | for a straight-first list of recognised tokens, the starts rise strictly from 0 and stay below the point count |
| TrackInit.CreateTrack | src/systems/track/trackInit.system.ts:127-143 | `createTrack` returns the arrays of every section's frames over the validated list, which it leaves in the caller's array, or throws exactly where validation or a section's rails throw |
| TrackInit.UpdateEntity | src/systems/track/trackInit.system.ts:16-32 | only a NotInitialized track is built, and it builds exactly when the token list and every later step succeed. Success publishes the points, sections and quaternions of the build and marks it Initialized. A throw leaves it Initializing, with the rotations and the token list unchanged. After the token loop the new points and the (validated) sections stay published; before it they stay as they were |
| TrackInit.UpdateTwice | src/systems/track/trackInit.system.ts:18-20 | a second update after the first is always skipped |
| TrackInit.RecognisedTokensBuild | src/systems/track/trackInit.system.ts:16-32 | a straight-first list of recognised tokens always builds, with one frame per point, frame r along rail r |
| TrackInit.PublishedRotationsPerPoint | src/systems/track/trackInit.system.ts:30 | after such a build there is one published quaternion per point, that of the rail's track rotation, so indexing `rotations` by a point index never reads past the end |
| TrackInitialization.CreateTrack | src/systems/trackInitialization.system.ts:21-67 | the older `createTrack` throws, returns no track on an order error, or prepends and returns the frames of the prepared list |
| TrackInitialization.UpdateEntity | src/systems/trackInitialization.system.ts:10-19 | a flagged track is skipped. Otherwise `initializing` is set, and `initialized` is set whenever the update does not throw, even without a track. The component's own section list is left validated (the zero-start section prepended into it) unless validation throws; the points, rotations and token list are unchanged |
| TrackInitialization.OrderErrorMarksInitialized | src/systems/trackInitialization.system.ts:26-30 | an order error ends the update with the `no track!` log, so the track is still marked initialized |
| TrackInitialization.IncreasingSectionsBuild | src/systems/trackInitialization.system.ts:186-226 | strictly increasing starts from 0 build one frame per point and ceil(N/5) rail-path entries, one more on a closed loop |
| GameTrack.CreateTrack | src/game.ts:110-136 | the start-up `createTrack` stores the built points and one section per token on a new, uninitialised component |
| GameTrack.StartupTrackInitialises | src/game.ts:38-40 | the start-up track has 515 points, one frame each, needs no prepended section, and gets 103 rail-path entries (104 on a closed loop) |
| Cars.CarPositionBounds | src/systems/locomotive/car.system.ts:26 | a car's position lies in [0, N) when the dividend is not negative, and is negative or 0 otherwise |
| Cars.CarTrails | src/systems/locomotive/car.system.ts:26 | a car trails the locomotive by exactly its offset, wrapping once past point 0 |
| Cars.NextIndex | src/systems/locomotive/car.system.ts:28 | the next index is the following one, or 0 after the last |
| Cars.LerpEnds | src/systems/locomotive/car.system.ts:33-37 | factor 0 gives the current point raised by the height above the track, and factor 1 the next point raised |
| Cars.PlaceCar | src/systems/locomotive/car.system.ts:25-46 | a car is not placed exactly on an empty track or at a negative position; it is fully placed only when rotations exist |
| Cars.PlacementInterpolates | src/systems/locomotive/car.system.ts:27-45 | with a non-negative dividend and a rotation per point, a car lies between point floor(p) and the next, factor in [0, 1), and its rotation is their slerp |
| Cars.LongOffsetThrows | src/systems/locomotive/car.system.ts:26-30 | an offset half a point beyond a whole track length at position 0 gives index -1, and the update throws |
| Cars.StopAt | src/systems/locomotive/car.system.ts:20-23 | the loop stops at the first car without a mesh or whose update throws |
| Cars.PlaceMesh | src/systems/locomotive/car.system.ts:40-46 | the position is written, then the rotation unless reading it throws |
| Cars.UpdateEntity | src/systems/locomotive/car.system.ts:16-48 | cars before the stopping car are placed; the stopping car and all later ones keep their meshes (except a position already written before a rotation throw); it throws exactly when the stopping car has a mesh |
| Locomotives.SampledIndex | src/systems/locomotive/locomotive.system.ts:30-34 | a position at or past the end is reset to 0, so the sampled index lies in [0, N) |
| Locomotives.UpdateEntity | src/systems/locomotive/locomotive.system.ts:14-38 | nothing changes unless locomotive and track are Initialized and there is a mesh; otherwise the mesh goes 1.5 above the sampled point with its rotation and the position moves on by 1, or the update throws on an empty track after the reset |
| Locomotives.AdvanceBounds | src/systems/locomotive/locomotive.system.ts:30-37 | after an update the position lies in [1, N] |
| Locomotives.VisitsRun | src/systems/locomotive/locomotive.system.ts:30-37 | from p < N, the next N - p updates sample p, p + 1, ..., N - 1 |
| Locomotives.VisitsEveryIndexOnce | src/systems/locomotive/locomotive.system.ts:30-37 | from 0, N updates visit every index once in order, and the next one samples 0 again |
| Locomotives.VisitsTail | src/systems/locomotive/locomotive.system.ts:30-32 | the update after a run to the end samples index 0 |
| TerrainCollider.OccurrencesPerFace | src/systems/terrain/dynamicTerrainCollider.system.ts:121-139 | three indices per kept face |
| TerrainCollider.KeptReadable | src/systems/terrain/dynamicTerrainCollider.system.ts:113-121 | every vertex of a kept face has its three coordinates |
| TerrainCollider.HeightIgnored | src/systems/terrain/dynamicTerrainCollider.system.ts:117-121 | the radius test ignores a vertex's height |
| TerrainCollider.DedupMembers | src/systems/terrain/dynamicTerrainCollider.system.ts:124-128 | the copied vertices are exactly the vertices of kept faces |
| TerrainCollider.DedupDistinct | src/systems/terrain/dynamicTerrainCollider.system.ts:124-128 | each vertex is copied at most once |
| TerrainCollider.RemapIndexes | src/systems/terrain/dynamicTerrainCollider.system.ts:124-138 | every new index is in range and names the occurrence's original vertex |
| TerrainCollider.FlattenCopies | src/systems/terrain/dynamicTerrainCollider.system.ts:128 | copied vertex j holds the original's three coordinates unchanged |
| TerrainCollider.CompactSizes | src/systems/terrain/dynamicTerrainCollider.system.ts:123-139 | the compact mesh has 3 indices per kept face and 3 coordinates per copied vertex, and no more vertices than indices |
| TerrainCollider.CompactIndexCopies | src/systems/terrain/dynamicTerrainCollider.system.ts:124-138 | every compact index is below the vertex count and names a vertex holding the coordinates of the original occurrence |
| TerrainCollider.CompactSharesVertices | src/systems/terrain/dynamicTerrainCollider.system.ts:124-127 | two compact indices are equal exactly when their original vertices are equal |
| TerrainCollider.CompactVerticesUsed | src/systems/terrain/dynamicTerrainCollider.system.ts:123-139 | every copied vertex is named by some compact index |
| TerrainCollider.CompactCentre | src/systems/terrain/dynamicTerrainCollider.system.ts:155 | the centre is NaN (0/0) exactly when no face is kept |
| TerrainCollider.VisitNew | src/systems/terrain/dynamicTerrainCollider.system.ts:124-133 | a first occurrence is mapped to the copied-vertex count, its coordinates are copied and summed, and that index is pushed |
| TerrainCollider.VisitSeen | src/systems/terrain/dynamicTerrainCollider.system.ts:135-138 | a repeated vertex pushes the index it already has |
| TerrainCollider.AddVertex | src/systems/terrain/dynamicTerrainCollider.system.ts:123-138 | the callback for one vertex keeps the collected state equal to the compaction of the occurrences so far |
| TerrainCollider.AddFace | src/systems/terrain/dynamicTerrainCollider.system.ts:123-139 | the three callbacks of a kept face extend the compaction by its three indices |
| TerrainCollider.TestFace | src/systems/terrain/dynamicTerrainCollider.system.ts:109-121 | a face passes exactly when its three indices and coordinates exist and all three vertices are within the radius |
| TerrainCollider.CollectFaces | src/systems/terrain/dynamicTerrainCollider.system.ts:103-141 | the face loop ends with the compaction of all kept faces |
| TerrainCollider.CreatePhysicsAggregate | src/systems/terrain/dynamicTerrainCollider.system.ts:82-157 | the query is the camera shifted by the view distance; the result is the compacted mesh and its centre, or an empty mesh when a buffer is missing |
| TerrainCollider.UpdateEntity | src/systems/terrain/dynamicTerrainCollider.system.ts:27-80 | the first build happens only with no physics mesh and no build in progress, and a rebuild only when the camera is more than 14 from the centre; a build stores the mesh and centre and lowers the flag again |
| TerrainCollider.NaNCentreNeverRebuilds | src/systems/terrain/dynamicTerrainCollider.system.ts:62-69 | after a build that kept no face, no update rebuilds |
| TerrainCollider.BuildOnce | src/systems/terrain/dynamicTerrainCollider.system.ts:45-69 | after a build, the next update never builds for the first time, and rebuilds exactly when the camera has strayed |
| Keys.KeyStateMap.constructor | src/systems/keys.system.ts:8 | the key dictionary starts empty |
| Keys.LastEventWins | src/systems/keys.system.ts:21-27 | a key reads as its last event (down true, up false), or as before when no event was about it |
| Keys.FromEmpty | src/systems/keys.system.ts:8 | from the empty dictionary, a key reads pressed exactly when its last event was a keydown |
| Keys.RepeatIdempotent | src/systems/keys.system.ts:21-23 | repeating an event changes nothing |
| Keys.KeysComponent.constructor | src/components/keys.component.ts:2 | a new component's dictionary is empty, so every key reads false |
| Keys.KeysComponent.SetKeyStates | src/components/keys.component.ts:9-11 | the setter replaces the whole dictionary object |
| Keys.KeysSystem.constructor | src/systems/keys.system.ts:8 | the system's dictionary starts empty |
| Keys.KeysSystem.HandleKeyDown | src/systems/keys.system.ts:21-23 | keydown stores true for its key, in place |
| Keys.KeysSystem.HandleKeyUp | src/systems/keys.system.ts:25-27 | keyup stores false for its key, in place |
| Keys.KeysSystem.UpdateEntity | src/systems/keys.system.ts:16-19 | the component gets the system's own dictionary object |
| Keys.KeyDownAfterUpdate | src/systems/keys.system.ts:16-23 | after an update, a later keydown is visible through the component's `getKeyState`, and other keys read as in the system's dictionary |
| LocomotiveInput.LocomotiveInputComponent.constructor | src/components/locomotive/locomotiveInput.component.ts:2 | a new component says Stop |
| LocomotiveInput.Requested | src/systems/locomotive/locomotiveInput.system.ts:20-33 | w gives Forward whatever else is held; s without w gives Backward; space without w or s gives Stop; none of them gives Neutral |
| LocomotiveInput.UpdateDirection | src/systems/locomotive/locomotiveInput.system.ts:20-33 | every update writes the direction the component's keys request |
| LocomotiveInput.DirectionFromEvents | src/systems/locomotive/locomotiveInput.system.ts:20-33 | through the shared dictionary, the direction follows the last event of each key, and is Neutral with no event at all |
| PlayerController.HeadingTable | src/systems/player/playerController.system.ts:34-57 | w 0, s pi, a pi/2, d -pi/2, w+d -pi/4, w+a pi/4, s+d -3pi/4, s+a 3pi/4; w+s alone gives pi, a+d alone 0 |
| PlayerController.HeadingWithinHalfTurn | src/systems/player/playerController.system.ts:29-57 | whatever keys are held, the offset stays within [-pi, pi] |
| PlayerController.AdjustHeading | src/systems/player/playerController.system.ts:29-57 | the eight sequential tests add the key combination's offset to the camera's yaw |
| PlayerController.UpdateEntity | src/systems/player/playerController.system.ts:14-88 | nothing happens without a mesh; the player turns a tenth of the way to the heading and steps only when grounded with a movement key held; the camera capsule then copies the mesh's position |

## Left out

- Babylon.js: meshes, sleeper instances, tubes, materials, world-matrix
  freezing, the parent node, the physics aggregate and the body's target
  transform. These are foreign library calls. Matrices and quaternions are
  symbolic terms, and the model only counts and aligns them.
- Floating point. Numbers are reals. Distances are compared through their
  squares instead of `Math.sqrt`, so NaN and rounding effects are not
  modelled beyond the explicit NaN cases (a one-rail wave section, a
  collider centre of 0/0).
- The trigonometric functions and `normalize` are not interpreted. The
  curve's radius-30 circle and the unit length of the directions are
  therefore not stated.
- `HEIGHT_ABOVE_TRACK` and `MAX_VIEW_DISTANCE` are defined in files that are
  not part of this model. They are parameters.
- The scene's active camera, the player's downward raycast, the camera's
  look direction and `mesh.translate` are inputs, not computed:
  - the camera is an optional position;
  - the raycast is a `grounded` flag;
  - the look direction is Euler angles;
  - the translation is a `localStep` function of the rotation.
- Console output, the collider's centre marker, and the disposal of the
  previous physics mesh.
- `async` in the collider's update. Each update is modelled as one
  sequential step.
- Browser key-event listeners. Events are modelled as calls to the handlers.
- The track component does not declare `trackDefinition`, `initialized` or
  `initializing`; the builders add them. The model starts them undefined
  (`None`, false).
- Options explicitly set to `undefined`. The spread would copy them; a
  patch field here is only present or absent.
- TrackInit.UpdateEntity: a one-point track is a closed loop whose rail
  paths are empty, and the closing push copies `undefined`. The model counts
  this as built (`ClosingUndefined`) and does not model what the tube
  builder does with that path.
- The engine wiring, the init systems that load assets, the terrain
  generator, the trees, the GUI, the server and the shader loader are not
  part of this model.

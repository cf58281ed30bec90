/** The older track builder: it takes the points and sections already on the
    component, runs the same order check (returning no track at all on an
    order error), prepends the zero-start section into the component's own
    list, computes the frames, and derives the rail paths from every fifth
    point. Two boolean flags guard it instead of the status. */
module TrackInitialization {
  import opened MathModel
  import opened TrackComponents
  import opened Sections
  import opened SectionFrames
  import opened RailOffsets
  import TrackInit

  /** What `createTrack` yields: a throw, `undefined` after an order error,
      or the four arrays. */
  datatype Created = CreateThrew | NoTrack | Track(data: TrackData)

  /** The specification of `createTrack`: the sections after preparation
      and the frames, or the reason there are none. */
  datatype TrackSpec = SpecThrew | SpecNoTrack | SpecTrack(sections: seq<Section>, frames: seq<RailFrame>)

  function CreatedTrack(env: MathEnv, points: seq<Vec3>, sections: seq<Section>): TrackSpec {
    if TrackInit.ValidationThrows(sections) then SpecThrew
    else if !PairsInOrder(Starts(sections)) then SpecNoTrack
    else
      var prepared := Prepended(sections);
      if !AllReadable(prepared, |points|, |prepared|) then SpecThrew
      else SpecTrack(prepared, TrackRails(env, points, prepared, |prepared|))
  }

  /** `createTrack`: the order check and the prepending are those of the
      current builder's validation, inlined; an order error returns
      `undefined` instead of going on with the unprepared list. */
  method CreateTrack(env: MathEnv, points: seq<Vec3>, sections: SectionList) returns (r: Created)
    modifies sections
    ensures var spec := CreatedTrack(env, points, old(sections.items));
      && (r.CreateThrew? <==> spec.SpecThrew?)
      && (r.NoTrack? <==> spec.SpecNoTrack?)
      && (r.Track? ==> fresh(r.data) && sections.items == spec.sections && r.data.Stores(spec.frames))
    ensures !TrackInit.ValidationThrows(old(sections.items)) ==> sections.items == TrackInit.Validated(old(sections.items))
    ensures TrackInit.ValidationThrows(old(sections.items)) ==> sections.items == old(sections.items)
  {
    ghost var before := sections.items;
    var v := TrackInit.ValidateAndPrepareSections(sections);
    if v == Crashed {
      return CreateThrew;
    }
    if v != InOrder {
      assert CreatedTrack(env, points, before) == SpecNoTrack;
      return NoTrack;
    }
    assert PairsInOrder(Starts(before)) && sections.items == Prepended(before);
    var data, ok := CreateFrames(env, points, sections.items);
    if !ok {
      return CreateThrew;
    }
    return Track(data);
  }

  datatype LegacyOutcome = Skipped | Threw | Logged | Built

  /** How one update ends when it runs: the track's throw, the logged
      `no track!`, or the sampled rail paths (every fifth point, up to N),
      which throw when a sampled carriage rotation is missing. */
  function UpdateResult(env: MathEnv, points: seq<Vec3>, sections: seq<Section>): LegacyOutcome {
    match CreatedTrack(env, points, sections)
    case SpecThrew => Threw
    case SpecNoTrack => Logged
    case SpecTrack(_, frames) =>
      if SampledOffsets(env, points, CarriageRotations(frames), |points|, 5).OffsetsThrew? then Threw else Built
  }

  /** `updateEntity`: skipped once either flag is set; otherwise it sets
      `initializing`, which it never clears, and sets `initialized` whenever
      the update does not throw, even when no track was made. */
  method UpdateEntity(env: MathEnv, track: TrackComponent) returns (outcome: LegacyOutcome)
    modifies track, track.sections
    ensures old(track.initialized || track.initializing) ==>
      outcome == Skipped && unchanged(track) && unchanged(track.sections)
    ensures !old(track.initialized || track.initializing) ==>
      && outcome == UpdateResult(env, old(track.points), old(track.sections.items))
      && track.initializing
      && (track.initialized <==> outcome != Threw)
    // `createTrack` prepends into the component's own list, which stays in
    // place even when a later step throws or no track is made.
    ensures !old(track.initialized || track.initializing) && !TrackInit.ValidationThrows(old(track.sections.items)) ==>
      track.sections.items == TrackInit.Validated(old(track.sections.items))
    ensures TrackInit.ValidationThrows(old(track.sections.items)) ==> track.sections.items == old(track.sections.items)
    ensures track.points == old(track.points) && track.sections == old(track.sections)
    ensures track.initializationStatus == old(track.initializationStatus)
    ensures track.rotations == old(track.rotations)
    ensures track.trackDefinition == old(track.trackDefinition)
  {
    if track.initialized || track.initializing {
      return Skipped;
    }
    track.initializing := true;
    var created := CreateTrack(env, track.points, track.sections);
    if created.CreateThrew? {
      return Threw;
    }
    if created.NoTrack? {
      // `createMeshes` logs `no track!` and returns.
      track.initialized := true;
      return Logged;
    }
    ghost var frames := CreatedTrack(env, track.points, old(track.sections.items)).frames;
    StoredArrays(created.data, frames);
    var offsets := SampleRailOffsets(env, track.points, created.data.carriageRotations, |track.points|, 5);
    if offsets.OffsetsThrew? {
      return Threw;
    }
    track.initialized := true;
    return Built;
  }

  /** Sections in order, with a readable range for every section, build; an
      order error is logged rather than thrown, so the track is marked
      initialized without rail paths. */
  lemma OrderErrorMarksInitialized(env: MathEnv, points: seq<Vec3>, sections: seq<Section>)
    requires !TrackInit.ValidationThrows(sections) && !PairsInOrder(Starts(sections))
    ensures UpdateResult(env, points, sections) == Logged
  {
  }

  /** Strictly increasing starts from 0 over a track whose carriage
      rotations cover every point build: ceil(N / 5) rail-path entries, one
      more on a closed loop. */
  lemma IncreasingSectionsBuild(env: MathEnv, points: seq<Vec3>, sections: seq<Section>)
    requires StrictlyIncreasingFromZero(sections, |points|)
    ensures CreatedTrack(env, points, sections).SpecTrack?
    ensures CreatedTrack(env, points, sections).sections == sections
    ensures |CreatedTrack(env, points, sections).frames| == |points|
    ensures UpdateResult(env, points, sections) == Built
    ensures var frames := CreatedTrack(env, points, sections).frames;
      var r := SampledOffsets(env, points, CarriageRotations(frames), |points|, 5);
      |r.plus| == (|points| + 4) / 5 + (if ClosedLoop(points) then 1 else 0)
  {
    assert PairsInOrder(Starts(sections)) by {
      var starts := Starts(sections);
      forall j | 1 <= j < |starts| - LoopedNum(starts)
        ensures starts[j - 1] <= starts[j]
      {
        assert StartsAfterPrevious(sections, j);
      }
    }
    Tiling(env, points, sections);
    var frames := TrackRails(env, points, sections, |sections|);
    EveryFifthPoint(env, points, CarriageRotations(frames));
  }
}

/** The current track builder: reads the component's token list, builds the
    points and sections, validates and prepares the sections, computes the
    frames of every rail, derives the rail paths, and publishes the rotations
    as quaternions, guarded by the three-state initialisation status. */
module TrackInit {
  import opened MathModel
  import opened TrackComponents
  import opened Sections
  import opened SectionFrames
  import opened PathPoints
  import opened RailOffsets

  // ---------------------------------------------------------------------
  // Validation

  /** The validation reads `start` of a missing element and throws: on an
      empty list (`sections[-1]`), or on a single section with a positive
      start (`sections[-1]` in the last-pair test). */
  predicate ValidationThrows(sections: seq<Section>) {
    |sections| == 0 || (|sections| == 1 && sections[0].start > 0)
  }

  /** The list after `validateAndPrepareSections`: on an order error the
      method only logs and returns, so nothing is prepended; otherwise the
      zero-start section is prepended when the first start is positive. */
  function Validated(sections: seq<Section>): seq<Section>
    requires !ValidationThrows(sections)
  {
    if PairsInOrder(Starts(sections)) then Prepended(sections) else sections
  }

  method ValidateAndPrepareSections(sections: SectionList) returns (v: OrderVerdict)
    modifies sections
    ensures v == Crashed <==> ValidationThrows(old(sections.items))
    ensures v == SectionsNotInOrder <==>
      !ValidationThrows(old(sections.items)) && !PairsInOrder(Starts(old(sections.items)))
    ensures v != Crashed ==> sections.items == Validated(old(sections.items))
    ensures v == Crashed ==> sections.items == old(sections.items)
    ensures v != LastSectionNotInOrder
  {
    v := CheckSectionOrder(Starts(sections.items));
    if v == InOrder {
      PrependStartSection(sections);
    }
  }

  /** Sections built from tokens are always in order and start at 0, so the
      validation neither reports nor prepends anything: the order error is
      unreachable from a token list. */
  lemma TokenSectionsPassValidation(env: MathEnv, b: Builder, tokens: seq<string>)
    requires b.curveFirstIndex <= 1
    requires |tokens| > 0 && BuildPoints(env, b, tokens).Some?
    ensures !ValidationThrows(TokenSections(env, b, tokens))
    ensures PairsInOrder(Starts(TokenSections(env, b, tokens)))
    ensures Validated(TokenSections(env, b, tokens)) == TokenSections(env, b, tokens)
  {
    SectionStartsFollowCounts(env, b, tokens);
    var starts := Starts(TokenSections(env, b, tokens));
    var counted := SectionStarts(env, b, tokens);
    assert starts == counted;
    forall j | 1 <= j < |starts|
      ensures starts[j - 1] <= starts[j]
    {
      assert FollowsCount(b, tokens, counted, j);
    }
    assert PairsInOrder(starts);
  }

  /** Token lists that open with a straight and hold only recognised tokens
      give sections whose starts rise strictly from 0 and stay below the
      point count. */
  lemma TokenSectionsIncrease(env: MathEnv, b: Builder, tokens: seq<string>)
    requires b.curveFirstIndex <= 1
    requires |tokens| > 0 && Classify(b, tokens[0]) == Straight
    requires forall k :: 0 <= k < |tokens| ==> Classify(b, tokens[k]) != Unrecognised
    ensures BuildPoints(env, b, tokens).Some?
    ensures |BuildPoints(env, b, tokens).value| == ExpectedCount(b, tokens)
    ensures StrictlyIncreasingFromZero(TokenSections(env, b, tokens), |BuildPoints(env, b, tokens).value|)
  {
    StraightFirstBuilds(env, b, tokens);
    BuildPointsOutcome(env, b, tokens);
    var points := BuildPoints(env, b, tokens).value;
    var sections := TokenSections(env, b, tokens);
    SectionStartsFollowCounts(env, b, tokens);
    forall i | 1 <= i < |sections|
      ensures StartsAfterPrevious(sections, i)
    {
      assert FollowsCount(b, tokens, SectionStarts(env, b, tokens), i);
      assert TokenCount(b, tokens[i - 1]) > 0;
    }
    assert TokenCount(b, tokens[|tokens| - 1]) > 0;
  }

  // ---------------------------------------------------------------------
  // Building the frames

  /** `createTrack`: validation (which may prepend to the caller's list),
      then every section against the next. Returns null where it throws. */
  method CreateTrack(env: MathEnv, points: seq<Vec3>, sections: SectionList) returns (trackData: TrackData?)
    modifies sections
    ensures trackData != null <==>
      !ValidationThrows(old(sections.items))
      && AllReadable(Validated(old(sections.items)), |points|, |Validated(old(sections.items))|)
    ensures !ValidationThrows(old(sections.items)) ==> sections.items == Validated(old(sections.items))
    ensures ValidationThrows(old(sections.items)) ==> sections.items == old(sections.items)
    ensures trackData != null ==>
      fresh(trackData) && trackData.Stores(TrackRails(env, points, sections.items, |sections.items|))
  {
    var v := ValidateAndPrepareSections(sections);
    if v == Crashed {
      return null;
    }
    var ok;
    trackData, ok := CreateFrames(env, points, sections.items);
    if !ok {
      return null;
    }
  }

  // ---------------------------------------------------------------------
  // The whole build

  datatype TrackBuild = TrackBuild(points: seq<Vec3>, sections: seq<Section>, frames: seq<RailFrame>)

  /** What one build produces from a token list, or None where it throws:
      in a token, in the validation, in a section's rails, or in the rail
      paths of `createMeshes`. */
  function BuildTrack(env: MathEnv, tokens: seq<string>): Option<TrackBuild> {
    var built := BuildPoints(env, CurrentBuilder, tokens);
    if built.None? then None
    else
      var points := built.value;
      var sections := TokenSections(env, CurrentBuilder, tokens);
      if ValidationThrows(sections) then None
      else
        var prepared := Validated(sections);
        if !AllReadable(prepared, |points|, |prepared|) then None
        else
          var frames := TrackRails(env, points, prepared, |prepared|);
          if SampledOffsets(env, points, CarriageRotations(frames), |points| - 1, 1).OffsetsThrew? then None
          else Some(TrackBuild(points, prepared, frames))
  }

  /** `track.rotations.map(Quaternion.FromRotationMatrix)`. */
  function Quaternions(matrices: seq<Rot>): seq<Quat> {
    seq(|matrices|, i requires 0 <= i < |matrices| => FromRotationMatrix(matrices[i]))
  }

  datatype UpdateOutcome = Skipped | Threw | Built

  /** The token loop of `createPointsAndSections` ran to its end. */
  predicate PointsBuilt(env: MathEnv, trackDefinition: Option<seq<string>>) {
    trackDefinition.Some? && BuildPoints(env, CurrentBuilder, trackDefinition.value).Some?
  }

  /** `updateEntity`: only a NotInitialized track is built. The status is
      Initializing while the build runs and stays so when it throws; it
      becomes Initialized only after the rotations are published. */
  method UpdateEntity(env: MathEnv, track: TrackComponent) returns (outcome: UpdateOutcome)
    modifies track
    ensures old(track.initializationStatus) != NotInitialized ==> outcome == Skipped && unchanged(track)
    ensures old(track.initializationStatus) == NotInitialized ==>
      (outcome == Built <==> old(track.trackDefinition).Some? && BuildTrack(env, old(track.trackDefinition).value).Some?)
      && (outcome == Threw <==> !(old(track.trackDefinition).Some? && BuildTrack(env, old(track.trackDefinition).value).Some?))
    ensures outcome == Threw ==>
      && track.initializationStatus == Initializing
      && track.rotations == old(track.rotations)
      && track.trackDefinition == old(track.trackDefinition)
    // `points` and `sections` are published before `createTrack` and
    // `createMeshes` run, so a later throw leaves them in place.
    ensures outcome == Threw && PointsBuilt(env, old(track.trackDefinition)) ==>
      var tokens := old(track.trackDefinition).value;
      var sections := TokenSections(env, CurrentBuilder, tokens);
      && fresh(track.sections)
      && track.points == BuildPoints(env, CurrentBuilder, tokens).value
      && track.sections.items == (if ValidationThrows(sections) then sections else Validated(sections))
    ensures outcome == Threw && !PointsBuilt(env, old(track.trackDefinition)) ==>
      track.points == old(track.points) && track.sections == old(track.sections)
    ensures outcome == Built ==>
      && track.initializationStatus == Initialized
      && track.trackDefinition == old(track.trackDefinition)
      && fresh(track.sections)
      && var b := BuildTrack(env, old(track.trackDefinition).value).value;
      && track.points == b.points
      && track.sections.items == b.sections
      && track.rotations == Quaternions(RotationMatrices(b.frames))
  {
    if track.initializationStatus != NotInitialized {
      return Skipped;
    }
    track.initializationStatus := Initializing;
    if track.trackDefinition.None? {
      // `for ... of undefined` throws.
      return Threw;
    }
    var tokens := track.trackDefinition.value;
    var built := CreatePointsAndSections(env, CurrentBuilder, tokens);
    if built.None? {
      assert BuildTrack(env, tokens).None?;
      return Threw;
    }
    track.points := built.value.points;
    var list := new SectionList(built.value.sections);
    track.sections := list;
    var trackData := CreateTrack(env, track.points, track.sections);
    if trackData == null {
      assert BuildTrack(env, tokens).None?;
      return Threw;
    }
    ghost var frames := TrackRails(env, track.points, track.sections.items, |track.sections.items|);
    StoredArrays(trackData, frames);
    var offsets := SampleRailOffsets(env, track.points, trackData.carriageRotations, |track.points| - 1, 1);
    if offsets.OffsetsThrew? {
      assert BuildTrack(env, tokens).None?;
      return Threw;
    }
    assert BuildTrack(env, tokens) == Some(TrackBuild(track.points, track.sections.items, frames));
    track.rotations := Quaternions(trackData.rotations);
    track.initializationStatus := Initialized;
    return Built;
  }

  /** A second update after a finished or failed build changes nothing. */
  method UpdateTwice(env: MathEnv, track: TrackComponent) returns (first: UpdateOutcome, second: UpdateOutcome)
    requires track.initializationStatus == NotInitialized
    modifies track
    ensures first != Skipped && second == Skipped
  {
    first := UpdateEntity(env, track);
    second := UpdateEntity(env, track);
  }

  // ---------------------------------------------------------------------
  // Well-formed token lists

  /** A token list that starts with a straight and holds only recognised
      tokens builds without throwing; its sections tile the points, so each
      of the four arrays, and the published rotations, get exactly one entry
      per point, entry r lying along rail r. */
  lemma RecognisedTokensBuild(env: MathEnv, tokens: seq<string>)
    requires |tokens| > 0 && Classify(CurrentBuilder, tokens[0]) == Straight
    requires forall k :: 0 <= k < |tokens| ==> Classify(CurrentBuilder, tokens[k]) != Unrecognised
    ensures BuildTrack(env, tokens).Some?
    ensures var b := BuildTrack(env, tokens).value;
      && |b.points| == ExpectedCount(CurrentBuilder, tokens)
      && b.sections == TokenSections(env, CurrentBuilder, tokens)
      && |b.frames| == |b.points|
      && (forall r :: 0 <= r < |b.points| ==> b.frames[r].direction == RailDirection(env, b.points, r))
  {
    TokenSectionsIncrease(env, CurrentBuilder, tokens);
    TokenSectionsPassValidation(env, CurrentBuilder, tokens);
    var points := BuildPoints(env, CurrentBuilder, tokens).value;
    var sections := TokenSections(env, CurrentBuilder, tokens);
    Tiling(env, points, sections);
    var frames := TrackRails(env, points, sections, |sections|);
    EveryPointButLastThrows(env, points, CarriageRotations(frames));
    assert !ValidationThrows(sections) && Validated(sections) == sections;
    assert !SampledOffsets(env, points, CarriageRotations(frames), |points| - 1, 1).OffsetsThrew?;
    assert BuildTrack(env, tokens) == Some(TrackBuild(points, sections, frames));
  }

  /** After such a build the component holds one published rotation per
      point, so the car and locomotive systems, which index `rotations`
      with a point index, find a quaternion for every point: the one of
      that rail's track rotation. */
  lemma PublishedRotationsPerPoint(env: MathEnv, tokens: seq<string>)
    requires |tokens| > 0 && Classify(CurrentBuilder, tokens[0]) == Straight
    requires forall k :: 0 <= k < |tokens| ==> Classify(CurrentBuilder, tokens[k]) != Unrecognised
    ensures BuildTrack(env, tokens).Some?
    ensures var b := BuildTrack(env, tokens).value;
      var published := Quaternions(RotationMatrices(b.frames));
      && |published| == |b.points|
      && forall r :: 0 <= r < |b.points| ==> published[r] == FromRotationMatrix(b.frames[r].rotation)
  {
    RecognisedTokensBuild(env, tokens);
  }
}

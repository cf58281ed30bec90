/** The game's start-up track: a fixed token list turned into points and
    one section per token by the game's own builder, stored on a new track
    component that the older builder then initialises. */
module GameTrack {
  import opened MathModel
  import opened TrackComponents
  import opened SectionFrames
  import opened PathPoints
  import opened RailOffsets
  import TrackInit
  import TrackInitialization

  /** The hard-coded list the game starts with. */
  const TrackSections: seq<string> := ["straight", "left", "right", "left", "straight"]

  /** `createTrack`: builds the points and sections and wraps them in a new,
      uninitialised component. Returns null where building throws. */
  method CreateTrack(env: MathEnv, trackSections: seq<string>) returns (track: TrackComponent?)
    ensures track != null <==> BuildPoints(env, GameBuilder, trackSections).Some?
    ensures track != null ==>
      && fresh(track) && fresh(track.sections)
      && track.points == BuildPoints(env, GameBuilder, trackSections).value
      && track.sections.items == TokenSections(env, GameBuilder, trackSections)
      && track.initializationStatus == NotInitialized
      && !track.initialized && !track.initializing
  {
    var built := CreatePointsAndSections(env, GameBuilder, trackSections);
    if built.None? {
      return null;
    }
    var sections := new SectionList(built.value.sections);
    track := new TrackComponent(built.value.points, sections);
  }

  /** The start-up track builds and is initialised by the older builder:
      its 515 points get one frame each, its sections need no zero-start
      section, and the rail paths take 103 points (104 when the track
      closes on itself). */
  lemma StartupTrackInitialises(env: MathEnv)
    ensures BuildPoints(env, GameBuilder, TrackSections).Some?
    ensures var points := BuildPoints(env, GameBuilder, TrackSections).value;
      var sections := TokenSections(env, GameBuilder, TrackSections);
      var created := TrackInitialization.CreatedTrack(env, points, sections);
      && |points| == 515
      && created.SpecTrack?
      && created.sections == sections
      && |created.frames| == 515
      && TrackInitialization.UpdateResult(env, points, sections) == TrackInitialization.Built
      && |SampledOffsets(env, points, CarriageRotations(created.frames), |points|, 5).plus|
         == 103 + (if ClosedLoop(points) then 1 else 0)
  {
    GameTrackShape(env);
    forall k | 0 <= k < |TrackSections|
      ensures Classify(GameBuilder, TrackSections[k]) != Unrecognised
    {
    }
    TrackInit.TokenSectionsIncrease(env, GameBuilder, TrackSections);
    var points := BuildPoints(env, GameBuilder, TrackSections).value;
    TrackInitialization.IncreasingSectionsBuild(env, points, TokenSections(env, GameBuilder, TrackSections));
  }
}

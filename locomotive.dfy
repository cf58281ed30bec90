/** The locomotive: once it and the track are initialised and it has a
    mesh, each update moves it one track point forward, wrapping to point 0
    after the last, and puts its mesh 1.5 above that point with that point's
    rotation. */
module Locomotives {
  import opened MathModel
  import opened TrackComponents

  const MeshHeight := 1.5

  /** The locomotive component with its mesh's position and rotation. */
  class Locomotive {
    var initializationStatus: InitializationStatus
    var hasMesh: bool
    var positionOnTrack: int
    var meshPosition: Vec3
    /** None where an undefined rotation was assigned. */
    var meshRotation: Option<Quat>

    constructor ()
      ensures initializationStatus == NotInitialized && !hasMesh && positionOnTrack == 0
    {
      initializationStatus := NotInitialized;
      hasMesh := false;
      positionOnTrack := 0;
      meshPosition := Origin;
      meshRotation := None;
    }
  }

  /** The index sampled this update: a position at or past the end is reset
      to 0 first. */
  function SampledIndex(positionOnTrack: int, trackLength: nat): (r: int)
    ensures 0 <= positionOnTrack ==> 0 <= r
    ensures 0 <= positionOnTrack && trackLength > 0 ==> r < trackLength
    ensures r == positionOnTrack || r == 0
  {
    if positionOnTrack >= trackLength then 0 else positionOnTrack
  }

  /** `rotations[index]`, which is undefined past the end. */
  function RotationAt(rotations: seq<Quat>, index: int): Option<Quat> {
    if 0 <= index < |rotations| then Some(rotations[index]) else None
  }

  datatype StepOutcome = Skipped | Threw | Moved

  /** `updateEntity` with `updatePositionOnTrack`. Reading the coordinates
      of a missing point throws after the reset; a missing rotation is
      assigned as undefined. */
  method UpdateEntity(locomotive: Locomotive, track: TrackComponent) returns (outcome: StepOutcome)
    modifies locomotive
    ensures !(old(locomotive.initializationStatus) == Initialized && old(locomotive.hasMesh)
              && track.initializationStatus == Initialized) ==>
      outcome == Skipped && unchanged(locomotive)
    ensures outcome != Skipped ==>
      var index := SampledIndex(old(locomotive.positionOnTrack), |track.points|);
      && (outcome == Threw <==> !(0 <= index < |track.points|))
      && (outcome == Threw ==>
            && locomotive.positionOnTrack == index
            && locomotive.meshPosition == old(locomotive.meshPosition)
            && locomotive.meshRotation == old(locomotive.meshRotation))
      && (outcome == Moved ==>
            && locomotive.positionOnTrack == index + 1
            && locomotive.meshPosition == Add(track.points[index], Vec3(0.0, MeshHeight, 0.0))
            && locomotive.meshRotation == RotationAt(track.rotations, index))
    ensures locomotive.initializationStatus == old(locomotive.initializationStatus)
    ensures locomotive.hasMesh == old(locomotive.hasMesh)
  {
    if locomotive.initializationStatus != Initialized || !locomotive.hasMesh
       || track.initializationStatus != Initialized {
      return Skipped;
    }
    var trackLength := |track.points|;
    if locomotive.positionOnTrack >= trackLength {
      locomotive.positionOnTrack := 0;
    }
    var index := locomotive.positionOnTrack;
    if !(0 <= index < trackLength) {
      return Threw;
    }
    var position := track.points[index];
    locomotive.meshPosition := Vec3(position.x, position.y + MeshHeight, position.z);
    locomotive.meshRotation := RotationAt(track.rotations, index);
    locomotive.positionOnTrack := locomotive.positionOnTrack + 1;
    return Moved;
  }

  /** The next position after a successful update, from a position p. */
  function Advance(positionOnTrack: int, trackLength: nat): int {
    SampledIndex(positionOnTrack, trackLength) + 1
  }

  /** The indices sampled by `steps` successive updates from `start`. */
  function Visits(start: int, trackLength: nat, steps: nat): (r: seq<int>)
    ensures |r| == steps
    decreases steps
  {
    if steps == 0 then []
    else [SampledIndex(start, trackLength)] + Visits(Advance(start, trackLength), trackLength, steps - 1)
  }

  /** After any update from a non-negative position the position lies in
      [1, N]. */
  lemma AdvanceBounds(positionOnTrack: int, trackLength: nat)
    requires 0 <= positionOnTrack && trackLength > 0
    ensures 1 <= Advance(positionOnTrack, trackLength) <= trackLength
  {
  }

  /** From position p < N, the next N - p updates sample p, p + 1, ...,
      N - 1 in turn. */
  lemma {:induction false} VisitsRun(start: nat, trackLength: nat)
    requires start <= trackLength
    ensures Visits(start, trackLength, trackLength - start) == seq(trackLength - start, k => start + k)
    decreases trackLength - start
  {
    if start < trackLength {
      VisitsRun(start + 1, trackLength);
      assert Advance(start, trackLength) == start + 1;
      var rest := Visits(start + 1, trackLength, trackLength - (start + 1));
      assert Visits(start, trackLength, trackLength - start) == [start] + rest;
    }
  }

  /** Starting from 0, N updates visit every index once, in order, and the
      update after them samples index 0 again. */
  lemma VisitsEveryIndexOnce(trackLength: nat)
    requires trackLength > 0
    ensures Visits(0, trackLength, trackLength) == seq(trackLength, k => k)
    ensures Visits(0, trackLength, trackLength + 1)[trackLength] == 0
  {
    VisitsRun(0, trackLength);
    VisitsTail(0, trackLength, trackLength);
  }

  /** The N - p updates from p < N end at N, so the one after them samples
      index 0. */
  lemma {:induction false} VisitsTail(start: int, trackLength: nat, steps: nat)
    requires 0 <= start <= trackLength && steps == trackLength - start
    ensures Visits(start, trackLength, steps + 1)[steps] == 0
    decreases steps
  {
    if steps == 0 {
      assert start == trackLength;
    } else {
      VisitsTail(start + 1, trackLength, steps - 1);
    }
  }
}

/** Frame propagation: for every rail of every section, the rail direction,
    the track rotation, the carriage rotation (track plus lean), the final
    rotation (carriage plus turn) and the passenger rotation (turn only).
    The current and the older track builder share this code line for line. */
module SectionFrames {
  import opened MathModel
  import opened TrackComponents

  // ---------------------------------------------------------------------
  // Rail ranges

  /** End (exclusive) of a section's rails: the next section's start, or the
      number of points when that start is 0 or equal to this one. */
  function RailsTo(startSection: Section, endSection: Section, pointCount: int): int {
    if endSection.start == 0 || startSection.start == endSection.start then pointCount
    else endSection.start
  }

  function NbRails(startSection: Section, endSection: Section, pointCount: int): int {
    RailsTo(startSection, endSection, pointCount) - startSection.start
  }

  /** Every rail of the section reads an existing point (or there is none).
      Otherwise reading `points[i]` yields undefined and the next method call
      on it throws. */
  predicate RangeReadable(startSection: Section, endSection: Section, pointCount: int) {
    var railsTo := RailsTo(startSection, endSection, pointCount);
    railsTo <= startSection.start || (0 <= startSection.start && railsTo <= pointCount)
  }

  function RailCount(startSection: Section, endSection: Section, pointCount: int): nat {
    var nb := NbRails(startSection, endSection, pointCount);
    if nb < 0 then 0 else nb
  }

  // ---------------------------------------------------------------------
  // Lean and turn angles

  /** How one angle (lean or turn) evolves over a section, after the
      twist/wave precedence has been applied. */
  datatype Evolution = Evolution(initial: real, final: real, twists: real, waves: real, waveAngle: real)

  /** Waves supersede twists unless the wave angle is 0, in which case the
      twists win. Returns the resolved (twists, waves). */
  function Precedence(twists: real, waves: real, waveAngle: real): (r: (real, real))
    ensures !(r.1 > 0.0 && r.0 != 0.0)
    ensures !(waves > 0.0 && twists != 0.0) ==> r == (twists, waves)
    ensures waves > 0.0 && twists != 0.0 && waveAngle == 0.0 ==> r.0 == twists && r.1 <= 0.0
    ensures waves > 0.0 && twists != 0.0 && waveAngle != 0.0 ==> r.1 == waves && r.0 == 0.0
  {
    if waves > 0.0 && Abs(twists) > 0.0 then
      if waveAngle == 0.0 then (twists, 0.0) else (0.0, waves)
    else (twists, waves)
  }

  function LeanEvolution(startSection: Section, endSection: Section): Evolution {
    var o := startSection.options;
    var p := Precedence(o.leanTwists, o.leanWaves, o.leanWaveAngle);
    Evolution(o.lean, endSection.options.lean, p.0, p.1, o.leanWaveAngle)
  }

  function TurnEvolution(startSection: Section, endSection: Section): Evolution {
    var o := startSection.options;
    var p := Precedence(o.turnTwists, o.turnWaves, o.turnWaveAngle);
    Evolution(o.turn, endSection.options.turn, p.0, p.1, o.turnWaveAngle)
  }

  /** Per-rail increment in twist mode: the change from the initial to the
      final angle plus the whole extra turns, spread over the rails. */
  function TwistStep(env: MathEnv, ev: Evolution, nbRails: int): real
    requires nbRails != 0
  {
    (ev.final + 2.0 * ev.twists * env.pi - ev.initial) / (nbRails as real)
  }

  /** The wave's slope: `(final - initial) / (nbRails - 1)`. */
  function Gradient(ev: Evolution, nbRails: int): real
    requires nbRails >= 2
  {
    (ev.final - ev.initial) / ((nbRails - 1) as real)
  }

  /** The sine's argument for rail k: `k * waves * pi / (nbRails - 1)`. */
  function WavePhase(env: MathEnv, ev: Evolution, nbRails: int, k: int): real
    requires nbRails >= 2
  {
    (k as real) * ev.waves * env.pi / ((nbRails - 1) as real)
  }

  /** The wave formula for rail k. With a single rail the gradient and the
      sine's argument divide by nbRails - 1 = 0, and JavaScript then yields
      NaN (0 times an infinity, or 0 / 0). */
  function WaveAngle(env: MathEnv, ev: Evolution, nbRails: int, k: int): Angle
    requires nbRails >= 1
  {
    if nbRails == 1 then NaN
    else
      Finite(ev.initial + (k as real) * Gradient(ev, nbRails)
        + ev.waveAngle * env.sin(WavePhase(env, ev, nbRails, k)))
  }

  /** The angle the loop has reached after rail k (0-based) of nbRails. */
  function AngleAt(env: MathEnv, ev: Evolution, nbRails: int, k: int): Angle
    requires 0 <= k < nbRails
  {
    if ev.waves > 0.0 then WaveAngle(env, ev, nbRails, k)
    else TwistAngle(env, ev, nbRails, k + 1)
  }

  /** Twist mode: the angle after `count` steps. */
  function TwistAngle(env: MathEnv, ev: Evolution, nbRails: int, count: int): Angle
    requires nbRails != 0
  {
    Finite(ev.initial + (count as real) * TwistStep(env, ev, nbRails))
  }

  lemma TwistAngleStep(env: MathEnv, ev: Evolution, nbRails: int, count: int)
    requires nbRails != 0
    ensures TwistAngle(env, ev, nbRails, count + 1).value
         == TwistAngle(env, ev, nbRails, count).value + TwistStep(env, ev, nbRails)
  {
    var d := TwistStep(env, ev, nbRails);
    assert ((count + 1) as real) * d == (count as real) * d + d;
  }

  /** In twist mode every rail adds the same step. */
  lemma TwistIncrement(env: MathEnv, ev: Evolution, nbRails: int, k: int)
    requires ev.waves <= 0.0 && 0 <= k && k + 1 < nbRails
    ensures AngleAt(env, ev, nbRails, k + 1).value
         == AngleAt(env, ev, nbRails, k).value + TwistStep(env, ev, nbRails)
  {
    TwistAngleStep(env, ev, nbRails, k + 1);
  }

  /** In twist mode the last rail reaches the final angle plus the whole
      twists: finalLean + 2 pi leanTwists. */
  lemma TwistReachesFinal(env: MathEnv, ev: Evolution, nbRails: int)
    requires ev.waves <= 0.0 && nbRails > 0
    ensures AngleAt(env, ev, nbRails, nbRails - 1) == Finite(ev.final + 2.0 * ev.twists * env.pi)
  {
    var total := ev.final + 2.0 * ev.twists * env.pi - ev.initial;
    var n := nbRails as real;
    assert (nbRails - 1 + 1) as real == n;
    assert n * (total / n) == total;
  }

  /** In wave mode the first rail keeps the initial angle (sin 0 = 0). */
  lemma WaveStartsAtInitial(env: MathEnv, ev: Evolution, nbRails: int)
    requires ValidEnv(env) && ev.waves > 0.0 && nbRails >= 2
    ensures AngleAt(env, ev, nbRails, 0) == Finite(ev.initial)
  {
    assert WavePhase(env, ev, nbRails, 0) == 0.0;
  }

  /** In wave mode the last rail reaches the final angle plus the wave's
      residue waveAngle * sin(waves * pi). */
  lemma WaveReachesFinal(env: MathEnv, ev: Evolution, nbRails: int)
    requires ev.waves > 0.0 && nbRails >= 2
    ensures AngleAt(env, ev, nbRails, nbRails - 1)
         == Finite(ev.final + ev.waveAngle * env.sin(ev.waves * env.pi))
  {
    var m := (nbRails - 1) as real;
    assert m * Gradient(ev, nbRails) == ev.final - ev.initial;
    assert WavePhase(env, ev, nbRails, nbRails - 1) == ev.waves * env.pi by {
      assert m * ev.waves * env.pi / m == ev.waves * env.pi;
    }
  }

  /** One full lean twist over 100 rails from lean 0 back to lean 0: each
      rail adds 2 pi / 100 and the last reaches 2 pi. */
  lemma OneTwistOverHundredRails(env: MathEnv, k: int)
    requires 0 <= k < 100
    ensures var ev := Evolution(0.0, 0.0, 1.0, 0.0, 0.0);
      AngleAt(env, ev, 100, k) == Finite(((k + 1) as real) * (2.0 * env.pi / 100.0))
      && AngleAt(env, ev, 100, 99) == Finite(2.0 * env.pi)
  {
    TwistReachesFinal(env, Evolution(0.0, 0.0, 1.0, 0.0, 0.0), 100);
  }

  // ---------------------------------------------------------------------
  // Frames of one rail

  datatype RailFrame = RailFrame(direction: Vec3, rotation: Rot, carriage: Rot, passenger: Rot)

  /** Direction of rail i, towards the next point; the last rail wraps
      around to point 0. */
  function RailDirection(env: MathEnv, points: seq<Vec3>, i: int): Vec3
    requires 0 <= i < |points|
  {
    env.normalize(Subtract(points[(i + 1) % |points|], points[i]))
  }

  /** The last rail points back at the first point, closed loop or not. */
  lemma LastRailWraps(env: MathEnv, points: seq<Vec3>)
    requires |points| > 0
    ensures RailDirection(env, points, |points| - 1)
         == env.normalize(Subtract(points[0], points[|points| - 1]))
  {
  }

  function Swivel(env: MathEnv, d: Vec3): real {
    -env.atan2(d.z, d.x)
  }

  function Tilt(env: MathEnv, d: Vec3): real {
    env.atan2(Abs(d.y), Abs(d.x)) * Sign(d.y)
  }

  /** Rotation about Z by the tilt times rotation about Y by the swivel. */
  function TrackRotation(env: MathEnv, d: Vec3): Rot {
    Multiply(RotationAxis(AxisZ, Finite(Tilt(env, d))), RotationAxis(AxisY, Finite(Swivel(env, d))))
  }

  function FrameAt(env: MathEnv, points: seq<Vec3>, i: int, phi: Angle, theta: Angle): RailFrame
    requires 0 <= i < |points|
  {
    var d := RailDirection(env, points, i);
    var track := TrackRotation(env, d);
    var upright := env.normalize(env.transformNormal(AxisY, track));
    var lean := RotationAxis(d, phi);
    var carriageNormal := env.transformNormal(upright, lean);
    var turn := RotationAxis(carriageNormal, theta);
    var carriage := Multiply(track, lean);
    RailFrame(d, Multiply(carriage, turn), carriage, RotationAxis(AxisY, theta))
  }

  /** The passenger rotation ignores lean; the carriage rotation ignores turn. */
  lemma PassengerIgnoresLean(env: MathEnv, points: seq<Vec3>, i: int, phi1: Angle, phi2: Angle, theta: Angle)
    requires 0 <= i < |points|
    ensures FrameAt(env, points, i, phi1, theta).passenger == FrameAt(env, points, i, phi2, theta).passenger
    ensures FrameAt(env, points, i, phi1, theta).carriage == FrameAt(env, points, i, phi1, Finite(0.0)).carriage
  {
  }

  /** Frame of the k-th rail of a section. */
  function SectionRail(env: MathEnv, points: seq<Vec3>, s: Section, e: Section, k: int): RailFrame
    requires 0 <= k < NbRails(s, e, |points|) && 0 <= s.start + k < |points|
  {
    var nb := NbRails(s, e, |points|);
    FrameAt(env, points, s.start + k,
      AngleAt(env, LeanEvolution(s, e), nb, k), AngleAt(env, TurnEvolution(s, e), nb, k))
  }

  /** Frames of all rails of a section, in rail order. */
  function SectionRails(env: MathEnv, points: seq<Vec3>, s: Section, e: Section): (r: seq<RailFrame>)
    requires RangeReadable(s, e, |points|)
    ensures |r| == RailCount(s, e, |points|)
  {
    var count := RailCount(s, e, |points|);
    seq(count, k requires 0 <= k < count => SectionRail(env, points, s, e, k))
  }

  /** Frames of a section's first n rails. */
  function SectionPrefix(env: MathEnv, points: seq<Vec3>, s: Section, e: Section, n: nat): (r: seq<RailFrame>)
    requires n > 0 ==> n <= NbRails(s, e, |points|) && 0 <= s.start && s.start + n <= |points|
    ensures |r| == n
  {
    seq(n, k requires 0 <= k < n => SectionRail(env, points, s, e, k))
  }

  lemma SectionPrefixStep(env: MathEnv, points: seq<Vec3>, s: Section, e: Section, n: nat)
    requires n < NbRails(s, e, |points|) && 0 <= s.start && s.start + n < |points|
    ensures SectionPrefix(env, points, s, e, n + 1)
         == SectionPrefix(env, points, s, e, n) + [SectionRail(env, points, s, e, n)]
  {
  }

  // ---------------------------------------------------------------------
  // The four output arrays

  function Directions(frames: seq<RailFrame>): (r: seq<Vec3>)
    ensures |r| == |frames|
  {
    seq(|frames|, i requires 0 <= i < |frames| => frames[i].direction)
  }

  function RotationMatrices(frames: seq<RailFrame>): (r: seq<Rot>)
    ensures |r| == |frames|
  {
    seq(|frames|, i requires 0 <= i < |frames| => frames[i].rotation)
  }

  function CarriageRotations(frames: seq<RailFrame>): (r: seq<Rot>)
    ensures |r| == |frames|
  {
    seq(|frames|, i requires 0 <= i < |frames| => frames[i].carriage)
  }

  function PassengerRotations(frames: seq<RailFrame>): (r: seq<Rot>)
    ensures |r| == |frames|
  {
    seq(|frames|, i requires 0 <= i < |frames| => frames[i].passenger)
  }

  /** The four parallel arrays the frames are pushed into. */
  class TrackData {
    var directions: seq<Vec3>
    var rotations: seq<Rot>
    var carriageRotations: seq<Rot>
    var passengerRotations: seq<Rot>

    /** The arrays hold exactly the given frames, one entry each. */
    predicate Stores(frames: seq<RailFrame>)
      reads this
    {
      && |directions| == |frames| && |rotations| == |frames|
      && |carriageRotations| == |frames| && |passengerRotations| == |frames|
      && forall i :: 0 <= i < |frames| ==>
           && directions[i] == frames[i].direction
           && rotations[i] == frames[i].rotation
           && carriageRotations[i] == frames[i].carriage
           && passengerRotations[i] == frames[i].passenger
    }

    constructor ()
      ensures Stores([])
    {
      directions, rotations, carriageRotations, passengerRotations := [], [], [], [];
    }

    method Push(f: RailFrame, ghost before: seq<RailFrame>)
      requires Stores(before)
      modifies this
      ensures Stores(before + [f])
    {
      passengerRotations := passengerRotations + [f.passenger];
      carriageRotations := carriageRotations + [f.carriage];
      rotations := rotations + [f.rotation];
      directions := directions + [f.direction];
    }
  }

  /** Stored arrays, read back as whole lists. */
  lemma StoredArrays(trackData: TrackData, frames: seq<RailFrame>)
    requires trackData.Stores(frames)
    ensures trackData.directions == Directions(frames)
    ensures trackData.rotations == RotationMatrices(frames)
    ensures trackData.carriageRotations == CarriageRotations(frames)
    ensures trackData.passengerRotations == PassengerRotations(frames)
  {
  }

  /** One step of the angle: the wave formula in wave mode, otherwise the
      previous angle plus the twist step. */
  method NextAngle(env: MathEnv, ev: Evolution, nbRails: int, railCount: int, current: Angle, delta: real)
    returns (next: Angle)
    requires 0 <= railCount < nbRails
    requires ev.waves <= 0.0 ==>
      delta == TwistStep(env, ev, nbRails) && current == TwistAngle(env, ev, nbRails, railCount)
    ensures next == AngleAt(env, ev, nbRails, railCount)
    ensures ev.waves <= 0.0 ==> next == TwistAngle(env, ev, nbRails, railCount + 1)
  {
    if ev.waves <= 0.0 {
      TwistAngleStep(env, ev, nbRails, railCount);
    }
    if ev.waves > 0.0 {
      next := WaveAngle(env, ev, nbRails, railCount);
    } else {
      next := Finite(current.value + delta);
    }
  }

  /** The body of the rail loop once the angles are advanced: the frame of
      rail i is pushed into the four arrays. */
  method PushRail(env: MathEnv, points: seq<Vec3>, startSection: Section, endSection: Section,
                  trackData: TrackData, i: int, railCount: nat, phi: Angle, theta: Angle,
                  ghost before: seq<RailFrame>, ghost done: seq<RailFrame>)
    requires 0 <= startSection.start && i == startSection.start + railCount && i < |points|
    requires railCount < NbRails(startSection, endSection, |points|)
    requires phi == AngleAt(env, LeanEvolution(startSection, endSection), NbRails(startSection, endSection, |points|), railCount)
    requires theta == AngleAt(env, TurnEvolution(startSection, endSection), NbRails(startSection, endSection, |points|), railCount)
    requires done == SectionPrefix(env, points, startSection, endSection, railCount)
    requires trackData.Stores(before + done)
    modifies trackData
    ensures trackData.Stores(before + SectionPrefix(env, points, startSection, endSection, railCount + 1))
  {
    var frame := FrameAt(env, points, i, phi, theta);
    SectionPrefixStep(env, points, startSection, endSection, railCount);
    assert frame == SectionRail(env, points, startSection, endSection, railCount);
    trackData.Push(frame, before + done);
    assert (before + done) + [frame] == before + (done + [frame]);
  }

  /** One section: walks its rails, advances lean (phi) and turn (theta), and
      pushes one entry per rail into each of the four arrays. Returns false
      where the source throws (a rail index outside the points). */
  method CreateSection(env: MathEnv, points: seq<Vec3>, startSection: Section, endSection: Section,
                       trackData: TrackData, ghost before: seq<RailFrame>)
    returns (ok: bool)
    requires trackData.Stores(before)
    modifies trackData
    ensures ok <==> RangeReadable(startSection, endSection, |points|)
    ensures ok ==> trackData.Stores(before + SectionRails(env, points, startSection, endSection))
  {
    var railsFrom := startSection.start;
    var railsTo := endSection.start;
    if endSection.start == 0 || startSection.start == endSection.start {
      railsTo := |points|;
    }
    var nbRails := railsTo - railsFrom;
    assert nbRails == NbRails(startSection, endSection, |points|);
    var lean := LeanEvolution(startSection, endSection);
    var turn := TurnEvolution(startSection, endSection);
    // With no rail these divisions give NaN or an infinity in JavaScript;
    // the loop below then does not run and neither value is used.
    var deltaPhi := if nbRails != 0 then TwistStep(env, lean, nbRails) else 0.0;
    var deltaTheta := if nbRails != 0 then TwistStep(env, turn, nbRails) else 0.0;
    var phi := Finite(lean.initial);
    var theta := Finite(turn.initial);
    var railCount := 0;
    var i := railsFrom;
    ghost var done: seq<RailFrame> := [];
    while i < railsTo
      invariant railCount == i - railsFrom
      invariant i == railsFrom || railsFrom < i <= railsTo
      invariant railCount > 0 ==> 0 <= railsFrom && i <= |points|
      invariant nbRails != 0 ==> deltaPhi == TwistStep(env, lean, nbRails) && deltaTheta == TwistStep(env, turn, nbRails)
      invariant i < railsTo && lean.waves <= 0.0 ==> phi == TwistAngle(env, lean, nbRails, railCount)
      invariant i < railsTo && turn.waves <= 0.0 ==> theta == TwistAngle(env, turn, nbRails, railCount)
      invariant done == SectionPrefix(env, points, startSection, endSection, railCount)
      invariant trackData.Stores(before + done)
    {
      if !(0 <= i < |points|) {
        return false;
      }
      phi := NextAngle(env, lean, nbRails, railCount, phi, deltaPhi);
      theta := NextAngle(env, turn, nbRails, railCount, theta, deltaTheta);
      PushRail(env, points, startSection, endSection, trackData, i, railCount, phi, theta, before, done);
      done := SectionPrefix(env, points, startSection, endSection, railCount + 1);
      railCount := railCount + 1;
      i := i + 1;
    }
    assert |done| == RailCount(startSection, endSection, |points|);
    assert done == SectionRails(env, points, startSection, endSection);
    return true;
  }

  // ---------------------------------------------------------------------
  // All sections

  /** `sections[i + 1] || sections[i]`: the last section ends on itself. */
  function NextSection(sections: seq<Section>, i: int): Section
    requires 0 <= i < |sections|
  {
    if i + 1 < |sections| then sections[i + 1] else sections[i]
  }

  predicate AllReadable(sections: seq<Section>, pointCount: int, m: int)
    requires m <= |sections|
  {
    forall i {:trigger NextSection(sections, i)} :: 0 <= i < m ==>
      RangeReadable(sections[i], NextSection(sections, i), pointCount)
  }

  /** Frames of the first m sections, concatenated in section order. */
  function TrackRails(env: MathEnv, points: seq<Vec3>, sections: seq<Section>, m: nat): seq<RailFrame>
    requires m <= |sections| && AllReadable(sections, |points|, m)
  {
    if m == 0 then [] else
      TrackRails(env, points, sections, m - 1)
        + SectionRails(env, points, sections[m - 1], NextSection(sections, m - 1))
  }

  /** The section loop of both builders: each section against the next one
      (or itself, for the last). */
  method CreateFrames(env: MathEnv, points: seq<Vec3>, sections: seq<Section>)
    returns (trackData: TrackData, ok: bool)
    ensures fresh(trackData)
    ensures ok <==> AllReadable(sections, |points|, |sections|)
    ensures ok ==> trackData.Stores(TrackRails(env, points, sections, |sections|))
  {
    trackData := new TrackData();
    var i := 0;
    while i < |sections|
      invariant 0 <= i <= |sections|
      invariant AllReadable(sections, |points|, i)
      invariant trackData.Stores(TrackRails(env, points, sections, i))
    {
      ok := CreateSection(env, points, sections[i], NextSection(sections, i), trackData,
                          TrackRails(env, points, sections, i));
      if !ok {
        return;
      }
      i := i + 1;
    }
    ok := true;
  }

  // ---------------------------------------------------------------------
  // How the ranges cover the points

  /** Section i starts after section i - 1. */
  predicate StartsAfterPrevious(sections: seq<Section>, i: int)
    requires 1 <= i < |sections|
  {
    sections[i - 1].start < sections[i].start
  }

  /** Starts strictly increasing from 0, all before the last point. */
  predicate StrictlyIncreasingFromZero(sections: seq<Section>, pointCount: int) {
    && |sections| > 0 && sections[0].start == 0
    && (forall i :: 1 <= i < |sections| ==> StartsAfterPrevious(sections, i))
    && sections[|sections| - 1].start < pointCount
  }

  /** With strictly increasing starts from 0 the ranges tile [0, N): the
      output has exactly one entry per point, and entry r is rail r. */
  lemma Tiling(env: MathEnv, points: seq<Vec3>, sections: seq<Section>)
    requires StrictlyIncreasingFromZero(sections, |points|)
    ensures AllReadable(sections, |points|, |sections|)
    ensures |TrackRails(env, points, sections, |sections|)| == |points|
    ensures forall r :: 0 <= r < |points| ==>
      TrackRails(env, points, sections, |sections|)[r].direction == RailDirection(env, points, r)
  {
    var n := |sections|;
    assert AllReadable(sections, |points|, n) by {
      forall i | 0 <= i < n
        ensures RangeReadable(sections[i], NextSection(sections, i), |points|)
      {
        IncreasingStartBounds(sections, |points|, i);
      }
    }
    TilingPrefix(env, points, sections, n);
  }

  lemma IncreasingStartBounds(sections: seq<Section>, pointCount: int, i: int)
    requires StrictlyIncreasingFromZero(sections, pointCount) && 0 <= i < |sections|
    ensures 0 <= sections[i].start < pointCount
    ensures RailsTo(sections[i], NextSection(sections, i), pointCount)
         == if i + 1 < |sections| then sections[i + 1].start else pointCount
    ensures RangeReadable(sections[i], NextSection(sections, i), pointCount)
  {
    IncreasingStarts(sections, pointCount, 0, i);
    if i + 1 < |sections| {
      assert StartsAfterPrevious(sections, i + 1);
      IncreasingStarts(sections, pointCount, i + 1, |sections| - 1);
    } else {
      IncreasingStarts(sections, pointCount, i, |sections| - 1);
    }
  }

  lemma {:induction false} IncreasingStarts(sections: seq<Section>, pointCount: int, i: int, j: int)
    requires StrictlyIncreasingFromZero(sections, pointCount) && 0 <= i <= j < |sections|
    ensures sections[i].start + (j - i) <= sections[j].start
    decreases j - i
  {
    if i < j {
      IncreasingStarts(sections, pointCount, i + 1, j);
      assert StartsAfterPrevious(sections, i + 1);
    }
  }

  /** The first m sections cover exactly rails [0, start of section m). */
  lemma {:induction false} TilingPrefix(env: MathEnv, points: seq<Vec3>, sections: seq<Section>, m: nat)
    requires StrictlyIncreasingFromZero(sections, |points|) && m <= |sections|
    requires AllReadable(sections, |points|, |sections|)
    ensures AllReadable(sections, |points|, m)
    ensures |TrackRails(env, points, sections, m)|
         == if m == 0 then 0 else if m < |sections| then sections[m].start else |points|
    ensures |TrackRails(env, points, sections, m)| <= |points|
    ensures forall r :: 0 <= r < |TrackRails(env, points, sections, m)| ==>
      TrackRails(env, points, sections, m)[r].direction == RailDirection(env, points, r)
  {
    if m < |sections| {
      IncreasingStartBounds(sections, |points|, m);
    }
    if m > 0 {
      TilingPrefix(env, points, sections, m - 1);
      var prev := TrackRails(env, points, sections, m - 1);
      var s := sections[m - 1];
      var e := NextSection(sections, m - 1);
      IncreasingStartBounds(sections, |points|, m - 1);
      SectionRailDirections(env, points, s, e);
      assert |prev| == s.start;
      if m < |sections| {
        assert StartsAfterPrevious(sections, m);
      }
      assert TrackRails(env, points, sections, m) == prev + SectionRails(env, points, s, e);
      DirectionsConcat(env, points, prev, SectionRails(env, points, s, e), s.start);
    }
  }

  /** Rails along the directions from point 0, followed by rails along the
      directions from the point after them, are rails along the directions
      from point 0. */
  lemma DirectionsConcat(env: MathEnv, points: seq<Vec3>, prev: seq<RailFrame>, here: seq<RailFrame>, start: int)
    requires |prev| == start && start + |here| <= |points|
    requires forall r :: 0 <= r < |prev| ==> prev[r].direction == RailDirection(env, points, r)
    requires forall k :: 0 <= k < |here| ==>
      0 <= start + k < |points| && here[k].direction == RailDirection(env, points, start + k)
    ensures forall r :: 0 <= r < |prev + here| ==> (prev + here)[r].direction == RailDirection(env, points, r)
  {
    forall r | 0 <= r < |prev + here|
      ensures (prev + here)[r].direction == RailDirection(env, points, r)
    {
      if r >= |prev| {
        assert (prev + here)[r] == here[r - |prev|];
      }
    }
  }

  /** Rail k of a section lies along the direction at point start + k. */
  lemma SectionRailDirections(env: MathEnv, points: seq<Vec3>, s: Section, e: Section)
    requires RangeReadable(s, e, |points|)
    ensures forall k :: 0 <= k < |SectionRails(env, points, s, e)| ==>
      0 <= s.start + k < |points|
      && SectionRails(env, points, s, e)[k].direction == RailDirection(env, points, s.start + k)
  {
    var here := SectionRails(env, points, s, e);
    forall k | 0 <= k < |here|
      ensures 0 <= s.start + k < |points| && here[k].direction == RailDirection(env, points, s.start + k)
    {
      assert here[k] == SectionRail(env, points, s, e, k);
    }
  }

  /** Equal consecutive starts make the first of them span to the end of
      the points, so the outputs overlap. */
  lemma EqualStartsSpanToEnd(sections: seq<Section>, pointCount: int, i: int)
    requires 0 <= i && i + 1 < |sections| && sections[i].start == sections[i + 1].start
    ensures RailsTo(sections[i], NextSection(sections, i), pointCount) == pointCount
  {
  }

  /** Two sections both starting at 0 (a first token that adds no points)
      each cover every point: the outputs hold 2N entries. */
  lemma TwoZeroStartsDoubleOutput(env: MathEnv, points: seq<Vec3>, o1: SectionOptions, o2: SectionOptions)
    ensures var sections := [Section(0, o1), Section(0, o2)];
      AllReadable(sections, |points|, 2)
      && |TrackRails(env, points, sections, 2)| == 2 * |points|
  {
    var sections := [Section(0, o1), Section(0, o2)];
    assert AllReadable(sections, |points|, 2);
    assert TrackRails(env, points, sections, 1) == SectionRails(env, points, sections[0], sections[1]);
  }
}

/** The two rail paths each builder derives from the carriage rotations
    before drawing the rail tubes: for each sampled point, one point 0.9 to
    each side along the binormal and 0.35 down along the normal, and, on a
    closed loop, the first entry again at the end. */
module RailOffsets {
  import opened MathModel

  const RailOffset := 0.9
  const RailHeight := -0.35

  /** `points[i] + binormal * 0.9 + normal * -0.35`. */
  function PlusRail(env: MathEnv, p: Vec3, carriage: Rot): Vec3 {
    var normal := env.transformNormal(AxisY, carriage);
    var binormal := env.transformNormal(AxisZ, carriage);
    Add(Add(p, Scale(binormal, RailOffset)), Scale(normal, RailHeight))
  }

  /** `points[i] - binormal * 0.9 + normal * -0.35`. */
  function NegRail(env: MathEnv, p: Vec3, carriage: Rot): Vec3 {
    var normal := env.transformNormal(AxisY, carriage);
    var binormal := env.transformNormal(AxisZ, carriage);
    Add(Subtract(p, Scale(binormal, RailOffset)), Scale(normal, RailHeight))
  }

  /** The two rails sit symmetrically about the point lowered by 0.35 along
      the normal, 1.8 apart along the binormal. */
  lemma RailsSymmetric(env: MathEnv, p: Vec3, carriage: Rot)
    ensures var centre := Add(p, Scale(env.transformNormal(AxisY, carriage), RailHeight));
      Add(PlusRail(env, p, carriage), NegRail(env, p, carriage)) == Scale(centre, 2.0)
    ensures Subtract(PlusRail(env, p, carriage), NegRail(env, p, carriage))
         == Scale(env.transformNormal(AxisZ, carriage), 2.0 * RailOffset)
  {
  }

  /** The sampled point indices: from, from + stride, ... below limit. */
  function Samples(from: int, limit: int, stride: int): seq<int>
    requires stride > 0
    decreases limit - from
  {
    if from >= limit then [] else [from] + Samples(from + stride, limit, stride)
  }

  /** Every sample lies in [from, limit). */
  lemma {:induction false} SamplesWithin(from: int, limit: int, stride: int)
    requires stride > 0
    ensures forall k :: 0 <= k < |Samples(from, limit, stride)| ==> from <= Samples(from, limit, stride)[k] < limit
    decreases limit - from
  {
    if from < limit {
      SamplesWithin(from + stride, limit, stride);
      var rest := Samples(from + stride, limit, stride);
      assert forall k :: 1 <= k < |rest| + 1 ==> Samples(from, limit, stride)[k] == rest[k - 1];
    }
  }

  /** With stride 1 the samples are from, from + 1, ..., limit - 1. */
  lemma {:induction false} SamplesStrideOne(from: int, limit: int)
    ensures |Samples(from, limit, 1)| == if from >= limit then 0 else limit - from
    ensures forall k :: 0 <= k < |Samples(from, limit, 1)| ==> Samples(from, limit, 1)[k] == from + k
    decreases limit - from
  {
    if from < limit {
      SamplesStrideOne(from + 1, limit);
    }
  }

  /** With stride 5 there are ceil((limit - from) / 5) samples, the k-th at
      from + 5 k. */
  lemma {:induction false} SamplesStrideFive(from: int, limit: int)
    ensures |Samples(from, limit, 5)| == if from >= limit then 0 else (limit - from + 4) / 5
    ensures forall k :: 0 <= k < |Samples(from, limit, 5)| ==> Samples(from, limit, 5)[k] == from + 5 * k
    decreases limit - from
  {
    if from < limit {
      SamplesStrideFive(from + 5, limit);
    }
  }

  /** Exactly the multiples of 5 in [0, limit) are sampled. */
  lemma SampledEveryFifth(limit: int, i: int)
    ensures i in Samples(0, limit, 5) <==> 0 <= i < limit && i % 5 == 0
  {
    var s := Samples(0, limit, 5);
    SamplesStrideFive(0, limit);
    if 0 <= i < limit && i % 5 == 0 {
      assert s[i / 5] == i;
    }
  }

  datatype OffsetOutcome =
    | OffsetsThrew
    /** A closed loop whose sample list is empty: the closing push copies an
        undefined entry. */
    | ClosingUndefined
    | Offsets(plus: seq<Vec3>, neg: seq<Vec3>)

  /** The first point equals the last (`Vector3.equals`, exact). */
  predicate ClosedLoop(points: seq<Vec3>)
    requires |points| > 0
  {
    points[0] == points[|points| - 1]
  }

  /** Every sampled index has a carriage rotation. */
  predicate Covered(samples: seq<int>, carriageCount: int) {
    forall k :: 0 <= k < |samples| ==> samples[k] < carriageCount
  }

  /** What the sampling loop and the closing test produce: a throw when a
      sampled carriage rotation is missing or the list of points is empty
      (`points[0].equals` on undefined). */
  function SampledOffsets(env: MathEnv, points: seq<Vec3>, carriage: seq<Rot>, limit: int, stride: int): OffsetOutcome
    requires stride > 0 && limit <= |points|
  {
    SamplesWithin(0, limit, stride);
    var samples := Samples(0, limit, stride);
    if !Covered(samples, |carriage|) || |points| == 0 then OffsetsThrew
    else
      var plus := seq(|samples|, k requires 0 <= k < |samples| => PlusRail(env, points[samples[k]], carriage[samples[k]]));
      var neg := seq(|samples|, k requires 0 <= k < |samples| => NegRail(env, points[samples[k]], carriage[samples[k]]));
      if !ClosedLoop(points) then Offsets(plus, neg)
      else if |samples| == 0 then ClosingUndefined
      else Offsets(plus + [plus[0]], neg + [neg[0]])
  }

  /** The sampling loop of `createMeshes`: the current builder samples every
      point but the last (limit N - 1, stride 1), the older one every fifth
      point (limit N, stride 5). */
  method SampleRailOffsets(env: MathEnv, points: seq<Vec3>, carriage: seq<Rot>, limit: int, stride: int)
    returns (r: OffsetOutcome)
    requires stride > 0 && limit <= |points|
    ensures r == SampledOffsets(env, points, carriage, limit, stride)
  {
    var plusPoints: seq<Vec3> := [];
    var negPoints: seq<Vec3> := [];
    SamplesWithin(0, limit, stride);
    ghost var samples := Samples(0, limit, stride);
    ghost var done: seq<int> := [];
    var i := 0;
    while i < limit
      invariant 0 <= i
      invariant done + Samples(i, limit, stride) == samples
      invariant |plusPoints| == |done| && |negPoints| == |done|
      invariant Covered(done, |carriage|)
      invariant forall k :: 0 <= k < |done| ==>
        0 <= done[k] < |points| && done[k] < |carriage|
        && plusPoints[k] == PlusRail(env, points[done[k]], carriage[done[k]])
        && negPoints[k] == NegRail(env, points[done[k]], carriage[done[k]])
      decreases limit - i
    {
      if i >= |carriage| {
        assert samples[|done|] == i;
        return OffsetsThrew;
      }
      plusPoints := plusPoints + [PlusRail(env, points[i], carriage[i])];
      negPoints := negPoints + [NegRail(env, points[i], carriage[i])];
      NextSample(done, i, limit, stride, samples);
      done := done + [i];
      i := i + stride;
    }
    assert done == samples;
    if |points| == 0 {
      return OffsetsThrew;
    }
    assert plusPoints == seq(|samples|, k requires 0 <= k < |samples| => PlusRail(env, points[samples[k]], carriage[samples[k]]));
    assert negPoints == seq(|samples|, k requires 0 <= k < |samples| => NegRail(env, points[samples[k]], carriage[samples[k]]));
    var closedLoop := points[0] == points[|points| - 1];
    if closedLoop {
      if |plusPoints| == 0 {
        return ClosingUndefined;
      }
      plusPoints := plusPoints + [plusPoints[0]];
      negPoints := negPoints + [negPoints[0]];
    }
    return Offsets(plusPoints, negPoints);
  }

  /** Moving the next sampled index from the pending samples to the done
      ones keeps their concatenation. */
  lemma NextSample(done: seq<int>, i: int, limit: int, stride: int, samples: seq<int>)
    requires stride > 0 && i < limit
    requires done + Samples(i, limit, stride) == samples
    ensures (done + [i]) + Samples(i + stride, limit, stride) == samples
  {
    assert Samples(i, limit, stride) == [i] + Samples(i + stride, limit, stride);
  }

  /** The current builder: one entry per point but the last, plus the
      closing entry on a closed loop; it throws only on an empty track or
      when fewer than N - 1 carriage rotations exist. */
  lemma EveryPointButLast(env: MathEnv, points: seq<Vec3>, carriage: seq<Rot>)
    requires |points| >= 2 && |carriage| >= |points| - 1
    ensures var r := SampledOffsets(env, points, carriage, |points| - 1, 1);
      r.Offsets?
      && |r.plus| == |r.neg| == |points| - 1 + (if ClosedLoop(points) then 1 else 0)
      && (forall i :: 0 <= i < |points| - 1 ==>
            r.plus[i] == PlusRail(env, points[i], carriage[i]) && r.neg[i] == NegRail(env, points[i], carriage[i]))
      && (ClosedLoop(points) ==> r.plus[|points| - 1] == r.plus[0])
  {
    var samples := Samples(0, |points| - 1, 1);
    SamplesStrideOne(0, |points| - 1);
    assert Covered(samples, |carriage|);
    var r := SampledOffsets(env, points, carriage, |points| - 1, 1);
    var plus := seq(|samples|, k requires 0 <= k < |samples| => PlusRail(env, points[samples[k]], carriage[samples[k]]));
    var neg := seq(|samples|, k requires 0 <= k < |samples| => NegRail(env, points[samples[k]], carriage[samples[k]]));
    assert r.plus[..|samples|] == plus && r.neg[..|samples|] == neg;
  }

  /** The current builder's sampling throws exactly on an empty track or
      when a carriage rotation among the first N - 1 is missing. */
  lemma EveryPointButLastThrows(env: MathEnv, points: seq<Vec3>, carriage: seq<Rot>)
    ensures SampledOffsets(env, points, carriage, |points| - 1, 1).OffsetsThrew?
        <==> |points| == 0 || |carriage| < |points| - 1
  {
    SamplesStrideOne(0, |points| - 1);
    var samples := Samples(0, |points| - 1, 1);
    if |points| >= 2 && |carriage| < |points| - 1 {
      assert samples[|points| - 2] == |points| - 2;
    }
  }

  /** The older builder: ceil(N / 5) entries from points 0, 5, 10, ...,
      plus the closing entry on a closed loop. */
  lemma EveryFifthPoint(env: MathEnv, points: seq<Vec3>, carriage: seq<Rot>)
    requires |points| > 0 && |carriage| >= |points|
    ensures var r := SampledOffsets(env, points, carriage, |points|, 5);
      r.Offsets?
      && |r.plus| == |r.neg| == (|points| + 4) / 5 + (if ClosedLoop(points) then 1 else 0)
      && (forall k :: 0 <= k < (|points| + 4) / 5 ==>
            r.plus[k] == PlusRail(env, points[5 * k], carriage[5 * k]))
  {
    SamplesStrideFive(0, |points|);
  }
}

/** The path-point builder: turns a token list into the track's points and
    one section marker per token. The current builder and the oldest one
    (in the game's start-up code) run the same push loops and differ only in
    the details a `Builder` value records. */
module PathPoints {
  import opened MathModel
  import opened TrackComponents

  /** Points appended by a straight section. */
  const StraightPointCount := 100
  /** Distance between consecutive straight points. */
  const RailLength := 0.5
  const CurveRadius := 30.0
  /** Every curve token turns by 90 degrees. */
  const CurveDegrees := 90.0

  datatype Turn = Left | Right

  datatype Token = Straight | Curve(turn: Turn) | Unrecognised

  /** What differs between the two builders: the height of the very first
      straight, the first index of the curve loop, the turn whose `dz` is
      negated, and whether the one-letter aliases are accepted. */
  datatype Builder = Builder(trackHeight: real, curveFirstIndex: nat, negatedTurn: Turn, aliases: bool)

  /** The current builder: height 0.5, curve loop from 1, negates on 'left'. */
  const CurrentBuilder := Builder(0.5, 1, Left, true)
  /** The oldest builder: height 0, curve loop from 0, negates on 'right',
      full words only. */
  const GameBuilder := Builder(0.0, 0, Right, false)

  function Classify(b: Builder, token: string): (t: Token)
    ensures token == "straight" ==> t == Straight
    ensures token == "left" ==> t == Curve(Left)
    ensures token == "right" ==> t == Curve(Right)
    ensures b.aliases && (token == "s" || token == "w") ==> t == Straight
    ensures b.aliases && (token == "l" || token == "a") ==> t == Curve(Left)
    ensures b.aliases && (token == "r" || token == "d") ==> t == Curve(Right)
    ensures t == Unrecognised <==>
      token !in (if b.aliases then {"straight", "s", "w", "left", "l", "a", "right", "r", "d"}
                 else {"straight", "left", "right"})
  {
    if token == "straight" || (b.aliases && (token == "w" || token == "s")) then Straight
    else if token == "left" || (b.aliases && (token == "a" || token == "l")) then Curve(Left)
    else if token == "right" || (b.aliases && (token == "d" || token == "r")) then Curve(Right)
    else Unrecognised
  }

  // ---------------------------------------------------------------------
  // Straight sections

  /** Unit direction of the last segment: normalize(last - secondLast). */
  function LastDirection(env: MathEnv, points: seq<Vec3>): Vec3
    requires |points| >= 2
  {
    env.normalize(Subtract(points[|points| - 1], points[|points| - 2]))
  }

  /** Point i of a straight section: on an empty track (i * 0.5, height, 0),
      otherwise the last point plus (i + 1) * 0.5 along the last direction. */
  function StraightPoint(env: MathEnv, b: Builder, points: seq<Vec3>, i: int): Vec3
    requires |points| != 1
  {
    if |points| == 0 then Vec3((i as real) * RailLength, b.trackHeight, 0.0)
    else Add(points[|points| - 1], Scale(LastDirection(env, points), ((i + 1) as real) * RailLength))
  }

  function StraightPoints(env: MathEnv, b: Builder, points: seq<Vec3>, n: int): (r: seq<Vec3>)
    requires |points| != 1
    ensures |r| == if n < 0 then 0 else n
  {
    var count := if n < 0 then 0 else n;
    seq(count, i requires 0 <= i < count => StraightPoint(env, b, points, i))
  }

  /** `addStraightSection`. With exactly one point `points[length - 2]` is
      undefined and the subtraction throws: the result is then None. */
  method AddStraightSection(env: MathEnv, b: Builder, points: seq<Vec3>, n: int)
    returns (r: Option<seq<Vec3>>)
    ensures r.None? <==> |points| == 1
    ensures r.Some? ==> r.value == StraightPoints(env, b, points, n)
  {
    var newPoints: seq<Vec3> := [];
    if |points| == 0 {
      var i := 0;
      while i < n
        invariant 0 <= i && (i <= n || i == 0)
        invariant |newPoints| == i
        invariant forall j :: 0 <= j < i ==> newPoints[j] == StraightPoint(env, b, points, j)
      {
        newPoints := newPoints + [Vec3((i as real) * RailLength, b.trackHeight, 0.0)];
        i := i + 1;
      }
    } else {
      if |points| < 2 {
        return None;
      }
      var currentPoint := points[|points| - 1];
      var secondLastPoint := points[|points| - 2];
      var lastDirection := env.normalize(Subtract(currentPoint, secondLastPoint));
      var i := 0;
      while i < n
        invariant 0 <= i && (i <= n || i == 0)
        invariant |newPoints| == i
        invariant forall j :: 0 <= j < i ==> newPoints[j] == StraightPoint(env, b, points, j)
      {
        newPoints := newPoints + [Add(currentPoint, Scale(lastDirection, ((i + 1) as real) * RailLength))];
        i := i + 1;
      }
    }
    return Some(newPoints);
  }

  /** The first straight lies on the x axis at the builder's height, 0.5
      apart. */
  lemma FirstStraightOnAxis(env: MathEnv, b: Builder, n: int, i: int)
    requires 0 <= i < n
    ensures var p := StraightPoints(env, b, [], n)[i];
      p.y == b.trackHeight && p.z == 0.0 && p.x == (i as real) * 0.5
  {
  }

  /** A later straight continues the last segment: its first point is 0.5
      past the last point and every next point is 0.5 further along the
      same direction. */
  lemma StraightContinuesLastSegment(env: MathEnv, b: Builder, points: seq<Vec3>, n: int, i: int)
    requires |points| >= 2 && 0 <= i && i + 1 < n
    ensures var d := LastDirection(env, points);
      && StraightPoints(env, b, points, n)[0] == Add(points[|points| - 1], Scale(d, 0.5))
      && StraightPoints(env, b, points, n)[i + 1] == Add(StraightPoints(env, b, points, n)[i], Scale(d, 0.5))
  {
    var d := LastDirection(env, points);
    var last := points[|points| - 1];
    var s := ((i + 1) as real) * 0.5;
    assert ((i + 2) as real) * 0.5 == s + 0.5;
    assert d.x * (s + 0.5) == d.x * s + d.x * 0.5;
    assert d.y * (s + 0.5) == d.y * s + d.y * 0.5;
    assert d.z * (s + 0.5) == d.z * s + d.z * 0.5;
  }

  // ---------------------------------------------------------------------
  // Curves

  /** `Math.round(105 / 90 * |turnAngle|)`. */
  function CurvePointCount(turnAngle: real): int {
    Round(105.0 / 90.0 * Abs(turnAngle))
  }

  /** Angle of the last segment in the xz plane. */
  function InitialAngle(env: MathEnv, points: seq<Vec3>): real
    requires |points| >= 2
  {
    var d := LastDirection(env, points);
    env.atan2(d.z, d.x)
  }

  /** `turnAngleRadians * (i / curvePoints)`. */
  function CurveStepAngle(env: MathEnv, turnAngle: real, curvePoints: int, i: int): real
    requires curvePoints != 0
  {
    (turnAngle * env.pi / 180.0) * ((i as real) / (curvePoints as real))
  }

  /** Offset of curve point i in the curve's own frame, before rotation:
      (r sin a, r (1 - cos a)), with dz negated for the builder's negated
      turn. */
  function LocalOffset(env: MathEnv, b: Builder, turn: Turn, angle: real): (real, real) {
    var dx := CurveRadius * env.sin(angle);
    var dz := CurveRadius * (1.0 - env.cos(angle));
    (dx, if turn == b.negatedTurn then -dz else dz)
  }

  /** A local offset rotated by the initial angle about Y and added to the
      last point. */
  function PlaceOffset(env: MathEnv, points: seq<Vec3>, offset: (real, real)): Vec3
    requires |points| >= 2
  {
    var a := InitialAngle(env, points);
    var dx := offset.0;
    var dz := offset.1;
    Add(points[|points| - 1],
      Vec3(dx * env.cos(a) - dz * env.sin(a), 0.0, dx * env.sin(a) + dz * env.cos(a)))
  }

  /** Curve point i of curvePoints. */
  function CurvePoint(env: MathEnv, b: Builder, points: seq<Vec3>, turn: Turn, turnAngle: real, curvePoints: int, i: int): Vec3
    requires |points| >= 2 && curvePoints != 0
  {
    PlaceOffset(env, points, LocalOffset(env, b, turn, CurveStepAngle(env, turnAngle, curvePoints, i)))
  }

  /** The points a curve appends: indices curveFirstIndex .. curvePoints - 1. */
  function CurvePoints(env: MathEnv, b: Builder, points: seq<Vec3>, turn: Turn, turnAngle: real): (r: seq<Vec3>)
    requires |points| >= 2
    ensures |r| == if CurvePointCount(turnAngle) <= b.curveFirstIndex then 0
                   else CurvePointCount(turnAngle) - b.curveFirstIndex
  {
    var curvePoints := CurvePointCount(turnAngle);
    var count := if curvePoints <= b.curveFirstIndex then 0 else curvePoints - b.curveFirstIndex;
    seq(count, j requires 0 <= j < count => CurvePoint(env, b, points, turn, turnAngle, curvePoints, b.curveFirstIndex + j))
  }

  /** `addCurveSection`. With fewer than two points the last point or the
      one before it is undefined and the subtraction throws: None. */
  method AddCurveSection(env: MathEnv, b: Builder, points: seq<Vec3>, turn: Turn, turnAngle: real)
    returns (r: Option<seq<Vec3>>)
    ensures r.None? <==> |points| < 2
    ensures r.Some? ==> r.value == CurvePoints(env, b, points, turn, turnAngle)
  {
    if |points| < 2 {
      return None;
    }
    var currentPoint := points[|points| - 1];
    var secondLastPoint := points[|points| - 2];
    var lastDirection := env.normalize(Subtract(currentPoint, secondLastPoint));
    var initialAngle := env.atan2(lastDirection.z, lastDirection.x);
    var curvePoints := CurvePointCount(turnAngle);
    var newPoints: seq<Vec3> := [];
    var i := b.curveFirstIndex;
    while i < curvePoints
      invariant b.curveFirstIndex <= i && (i <= curvePoints || i == b.curveFirstIndex)
      invariant |newPoints| == i - b.curveFirstIndex
      invariant forall j :: 0 <= j < |newPoints| ==>
        newPoints[j] == CurvePoint(env, b, points, turn, turnAngle, curvePoints, b.curveFirstIndex + j)
    {
      var point := PlaceCurvePoint(env, b, points, turn, turnAngle, curvePoints, i, currentPoint, initialAngle);
      newPoints := newPoints + [point];
      i := i + 1;
    }
    assert newPoints == CurvePoints(env, b, points, turn, turnAngle);
    return Some(newPoints);
  }

  /** One pass of the curve loop's body: the offset in the curve's frame,
      rotated by the initial angle and added to the last point. */
  method PlaceCurvePoint(env: MathEnv, b: Builder, points: seq<Vec3>, turn: Turn, turnAngle: real,
                         curvePoints: int, i: int, currentPoint: Vec3, initialAngle: real)
    returns (p: Vec3)
    requires |points| >= 2 && curvePoints != 0
    requires currentPoint == points[|points| - 1] && initialAngle == InitialAngle(env, points)
    ensures p == CurvePoint(env, b, points, turn, turnAngle, curvePoints, i)
  {
    var angle := CurveStepAngle(env, turnAngle, curvePoints, i);
    var dx := CurveRadius * env.sin(angle);
    var dz := CurveRadius * (1.0 - env.cos(angle));
    if turn == b.negatedTurn {
      dz := -dz;
    }
    var rotatedDx := dx * env.cos(initialAngle) - dz * env.sin(initialAngle);
    var rotatedDz := dx * env.sin(initialAngle) + dz * env.cos(initialAngle);
    p := Add(currentPoint, Vec3(rotatedDx, 0.0, rotatedDz));
  }

  /** A 90-degree curve has Math.round(105 / 90 * 90) = 105 point indices:
      the current builder appends 104 of them, the oldest one all 105. */
  lemma QuarterTurnCounts(env: MathEnv, points: seq<Vec3>, turn: Turn)
    requires |points| >= 2
    ensures CurvePointCount(CurveDegrees) == 105
    ensures |CurvePoints(env, CurrentBuilder, points, turn, CurveDegrees)| == 104
    ensures |CurvePoints(env, GameBuilder, points, turn, CurveDegrees)| == 105
  {
    assert 105.0 / 90.0 * Abs(90.0) + 0.5 == 105.5;
  }

  /** A curve stays at the height of the last point. */
  lemma CurveIsFlat(env: MathEnv, b: Builder, points: seq<Vec3>, turn: Turn, turnAngle: real)
    requires |points| >= 2
    ensures forall p :: p in CurvePoints(env, b, points, turn, turnAngle) ==> p.y == points[|points| - 1].y
  {
    var cps := CurvePoints(env, b, points, turn, turnAngle);
    forall p | p in cps
      ensures p.y == points[|points| - 1].y
    {
      var j :| 0 <= j < |cps| && cps[j] == p;
      assert cps[j] == CurvePoint(env, b, points, turn, turnAngle, CurvePointCount(turnAngle), b.curveFirstIndex + j);
    }
  }

  /** The oldest builder's loop starts at i = 0, where the angle is 0 and
      so dx = dz = 0: its first curve point repeats the last point. */
  lemma GameCurveRepeatsLastPoint(env: MathEnv, points: seq<Vec3>, turn: Turn, turnAngle: real)
    requires ValidEnv(env) && |points| >= 2 && CurvePointCount(turnAngle) >= 1
    ensures CurvePoints(env, GameBuilder, points, turn, turnAngle)[0] == points[|points| - 1]
  {
    var curvePoints := CurvePointCount(turnAngle);
    assert CurveStepAngle(env, turnAngle, curvePoints, 0) == 0.0;
    assert LocalOffset(env, GameBuilder, turn, 0.0) == (0.0, 0.0);
    assert CurvePoints(env, GameBuilder, points, turn, turnAngle)[0]
        == CurvePoint(env, GameBuilder, points, turn, turnAngle, curvePoints, 0);
  }

  /** The two builders disagree about which turn negates dz: the current
      builder's left curve is the oldest builder's right curve without its
      first point, and the other way round. */
  lemma OppositeTurnConventions(env: MathEnv, points: seq<Vec3>, turnAngle: real)
    requires |points| >= 2 && CurvePointCount(turnAngle) >= 1
    ensures CurvePoints(env, CurrentBuilder, points, Left, turnAngle)
         == CurvePoints(env, GameBuilder, points, Right, turnAngle)[1..]
    ensures CurvePoints(env, CurrentBuilder, points, Right, turnAngle)
         == CurvePoints(env, GameBuilder, points, Left, turnAngle)[1..]
  {
    MirroredTurn(env, points, turnAngle, Left, Right);
    MirroredTurn(env, points, turnAngle, Right, Left);
  }

  lemma MirroredTurn(env: MathEnv, points: seq<Vec3>, turnAngle: real, current: Turn, game: Turn)
    requires |points| >= 2 && CurvePointCount(turnAngle) >= 1 && current != game
    ensures CurvePoints(env, CurrentBuilder, points, current, turnAngle)
         == CurvePoints(env, GameBuilder, points, game, turnAngle)[1..]
  {
    var cp := CurvePointCount(turnAngle);
    var c := CurvePoints(env, CurrentBuilder, points, current, turnAngle);
    var g := CurvePoints(env, GameBuilder, points, game, turnAngle);
    forall j | 0 <= j < |c|
      ensures c[j] == g[1..][j]
    {
      var angle := CurveStepAngle(env, turnAngle, cp, 1 + j);
      assert LocalOffset(env, CurrentBuilder, current, angle) == LocalOffset(env, GameBuilder, game, angle);
      assert c[j] == CurvePoint(env, CurrentBuilder, points, current, turnAngle, cp, 1 + j);
      assert g[1 + j] == CurvePoint(env, GameBuilder, points, game, turnAngle, cp, 0 + (1 + j));
    }
  }

  // ---------------------------------------------------------------------
  // Tokens to points and sections

  /** The points one token appends, or None when appending them throws. An
      unrecognised token appends nothing (the current builder logs it). */
  function TokenPoints(env: MathEnv, b: Builder, points: seq<Vec3>, token: string): Option<seq<Vec3>> {
    match Classify(b, token)
    case Straight => if |points| == 1 then None else Some(StraightPoints(env, b, points, StraightPointCount))
    case Curve(turn) => if |points| < 2 then None else Some(CurvePoints(env, b, points, turn, CurveDegrees))
    case Unrecognised => Some([])
  }

  /** The points after all tokens, or None when a token throws. */
  function BuildPoints(env: MathEnv, b: Builder, tokens: seq<string>): Option<seq<Vec3>>
    decreases |tokens|
  {
    if |tokens| == 0 then Some([]) else
      match BuildPoints(env, b, tokens[..|tokens| - 1])
      case None => None
      case Some(ps) =>
        match TokenPoints(env, b, ps, tokens[|tokens| - 1])
        case None => None
        case Some(added) => Some(ps + added)
  }

  /** Points appended per token, as a plain count. */
  function TokenCount(b: Builder, token: string): nat {
    match Classify(b, token)
    case Straight => StraightPointCount
    case Curve(_) => if b.curveFirstIndex >= 105 then 0 else 105 - b.curveFirstIndex
    case Unrecognised => 0
  }

  function ExpectedCount(b: Builder, tokens: seq<string>): nat
    decreases |tokens|
  {
    if |tokens| == 0 then 0 else ExpectedCount(b, tokens[..|tokens| - 1]) + TokenCount(b, tokens[|tokens| - 1])
  }

  /** The first recognised token is a curve: there is no segment to turn
      from, so the build throws there. */
  predicate StartsWithCurve(b: Builder, tokens: seq<string>)
    decreases |tokens|
  {
    |tokens| > 0 &&
      (StartsWithCurve(b, tokens[..|tokens| - 1]) ||
       (ExpectedCount(b, tokens[..|tokens| - 1]) == 0 && Classify(b, tokens[|tokens| - 1]).Curve?))
  }

  /** The build throws exactly when a curve comes before any straight, and
      otherwise yields the expected number of points. */
  lemma {:induction false} BuildPointsOutcome(env: MathEnv, b: Builder, tokens: seq<string>)
    requires b.curveFirstIndex <= 1
    ensures BuildPoints(env, b, tokens).None? <==> StartsWithCurve(b, tokens)
    ensures BuildPoints(env, b, tokens).Some? ==> |BuildPoints(env, b, tokens).value| == ExpectedCount(b, tokens)
    ensures ExpectedCount(b, tokens) == 0 || ExpectedCount(b, tokens) >= 100
    decreases |tokens|
  {
    if |tokens| > 0 {
      var prefix := tokens[..|tokens| - 1];
      var token := tokens[|tokens| - 1];
      BuildPointsOutcome(env, b, prefix);
      match BuildPoints(env, b, prefix)
      case None =>
      case Some(ps) =>
        match Classify(b, token)
        case Straight =>
        case Curve(turn) =>
          if |ps| >= 2 {
            QuarterTurnCountFor(env, b, ps, turn);
          }
        case Unrecognised =>
    }
  }

  /** A token list that opens with a straight and holds only recognised
      tokens never starts with a curve, and yields at least the straight's
      100 points. */
  lemma {:induction false} StraightFirstBuilds(env: MathEnv, b: Builder, tokens: seq<string>)
    requires |tokens| > 0 && Classify(b, tokens[0]) == Straight
    requires forall k :: 0 <= k < |tokens| ==> Classify(b, tokens[k]) != Unrecognised
    ensures !StartsWithCurve(b, tokens)
    ensures ExpectedCount(b, tokens) >= StraightPointCount
    decreases |tokens|
  {
    var prefix := tokens[..|tokens| - 1];
    if |prefix| == 0 {
      assert tokens[|tokens| - 1] == tokens[0];
      assert !StartsWithCurve(b, prefix);
    } else {
      assert prefix[0] == tokens[0];
      assert forall k :: 0 <= k < |prefix| ==> prefix[k] == tokens[k];
      StraightFirstBuilds(env, b, prefix);
    }
  }

  lemma QuarterTurnCountFor(env: MathEnv, b: Builder, points: seq<Vec3>, turn: Turn)
    requires |points| >= 2 && b.curveFirstIndex <= 1
    ensures |CurvePoints(env, b, points, turn, CurveDegrees)| == 105 - b.curveFirstIndex
  {
    assert CurvePointCount(CurveDegrees) == 105 by {
      assert 105.0 / 90.0 * Abs(90.0) + 0.5 == 105.5;
    }
  }

  datatype PathBuild = PathBuild(points: seq<Vec3>, sections: seq<Section>)

  /** `createPointsAndSections` (and the oldest `createTrack`'s loop): one
      section per token, started at the point count before the token. */
  method CreatePointsAndSections(env: MathEnv, b: Builder, tokens: seq<string>)
    returns (r: Option<PathBuild>)
    ensures r.None? <==> BuildPoints(env, b, tokens).None?
    ensures r.Some? ==> r.value.points == BuildPoints(env, b, tokens).value
    ensures r.Some? ==> r.value.sections == TokenSections(env, b, tokens)
  {
    var points: seq<Vec3> := [];
    var sections: seq<Section> := [];
    var i := 0;
    while i < |tokens|
      invariant 0 <= i <= |tokens|
      invariant BuildPoints(env, b, tokens[..i]) == Some(points)
      invariant |sections| == i
      invariant forall k :: 0 <= k < i ==>
        BuildPoints(env, b, tokens[..k]).Some?
        && sections[k] == NewSection(|BuildPoints(env, b, tokens[..k]).value|, None)
    {
      var token := tokens[i];
      assert tokens[..i + 1][..i] == tokens[..i];
      assert tokens[..i + 1][i] == token;
      ghost var before := points;
      var section := NewSection(|points|, None);
      var kind := Classify(b, token);
      if kind == Straight {
        var added := AddStraightSection(env, b, points, StraightPointCount);
        if added.None? {
          PrefixCrashPersists(env, b, tokens, i + 1);
          return None;
        }
        assert TokenPoints(env, b, before, token) == added;
        points := points + added.value;
      } else if kind.Curve? {
        var added := AddCurveSection(env, b, points, kind.turn, CurveDegrees);
        if added.None? {
          PrefixCrashPersists(env, b, tokens, i + 1);
          return None;
        }
        assert TokenPoints(env, b, before, token) == added;
        points := points + added.value;
      } else {
        assert TokenPoints(env, b, before, token) == Some([]);
        assert points + [] == points;
      }
      sections := sections + [section];
      i := i + 1;
    }
    assert tokens[..|tokens|] == tokens;
    assert sections == TokenSections(env, b, tokens);
    return Some(PathBuild(points, sections));
  }

  /** Once a prefix throws, the whole build throws. */
  lemma {:induction false} PrefixCrashPersists(env: MathEnv, b: Builder, tokens: seq<string>, k: nat)
    requires k <= |tokens| && BuildPoints(env, b, tokens[..k]).None?
    ensures BuildPoints(env, b, tokens).None?
    decreases |tokens| - k
  {
    if k < |tokens| {
      assert tokens[..k + 1][..k] == tokens[..k];
      PrefixCrashPersists(env, b, tokens, k + 1);
    } else {
      assert tokens[..k] == tokens;
    }
  }

  /** Section starts: 0 for the first token, then the running point count. */
  function SectionStarts(env: MathEnv, b: Builder, tokens: seq<string>): seq<int>
    requires BuildPoints(env, b, tokens).Some?
  {
    seq(|tokens|, k requires 0 <= k < |tokens| =>
      PrefixBuilds(env, b, tokens, k); |BuildPoints(env, b, tokens[..k]).value|)
  }

  /** One default section per token, at its start. */
  function TokenSections(env: MathEnv, b: Builder, tokens: seq<string>): (r: seq<Section>)
    requires BuildPoints(env, b, tokens).Some?
    ensures |r| == |tokens|
  {
    var starts := SectionStarts(env, b, tokens);
    seq(|tokens|, k requires 0 <= k < |tokens| => NewSection(starts[k], None))
  }

  lemma {:induction false} PrefixBuilds(env: MathEnv, b: Builder, tokens: seq<string>, k: nat)
    requires BuildPoints(env, b, tokens).Some? && k <= |tokens|
    ensures BuildPoints(env, b, tokens[..k]).Some?
    decreases |tokens| - k
  {
    if BuildPoints(env, b, tokens[..k]).None? {
      PrefixCrashPersists(env, b, tokens, k);
    }
  }

  /** An unrecognised token still gets a section, starting where the next
      one starts: the two starts are equal. */
  lemma UnrecognisedTokenAddsNoPoints(env: MathEnv, b: Builder, tokens: seq<string>, token: string)
    requires Classify(b, token) == Unrecognised && BuildPoints(env, b, tokens).Some?
    ensures BuildPoints(env, b, tokens + [token]) == BuildPoints(env, b, tokens)
  {
    assert (tokens + [token])[..|tokens|] == tokens;
    assert (tokens + [token])[|tokens|] == token;
    assert BuildPoints(env, b, tokens).value + [] == BuildPoints(env, b, tokens).value;
  }

  /** The oldest builder's hard-coded track: 515 points, sections at
      0, 100, 205, 310 and 415. */
  lemma GameTrackShape(env: MathEnv)
    ensures var tokens := ["straight", "left", "right", "left", "straight"];
      BuildPoints(env, GameBuilder, tokens).Some?
      && |BuildPoints(env, GameBuilder, tokens).value| == 515
      && SectionStarts(env, GameBuilder, tokens) == [0, 100, 205, 310, 415]
  {
    var tokens := ["straight", "left", "right", "left", "straight"];
    BuildPointsOutcome(env, GameBuilder, tokens);
    assert tokens[..4] == ["straight", "left", "right", "left"];
    assert tokens[..4][..3] == tokens[..3] == ["straight", "left", "right"];
    assert tokens[..3][..2] == tokens[..2] == ["straight", "left"];
    assert tokens[..2][..1] == tokens[..1] == ["straight"];
    assert tokens[..1][..0] == tokens[..0] == [];
    assert !StartsWithCurve(GameBuilder, tokens[..1]);
    assert !StartsWithCurve(GameBuilder, tokens[..2]);
    assert !StartsWithCurve(GameBuilder, tokens[..3]);
    assert !StartsWithCurve(GameBuilder, tokens[..4]);
    assert ExpectedCount(GameBuilder, tokens[..1]) == 100;
    assert ExpectedCount(GameBuilder, tokens[..2]) == 205;
    assert ExpectedCount(GameBuilder, tokens[..3]) == 310;
    assert ExpectedCount(GameBuilder, tokens[..4]) == 415;
    assert !StartsWithCurve(GameBuilder, tokens);
    var starts := SectionStarts(env, GameBuilder, tokens);
    forall k | 0 <= k < 5
      ensures starts[k] == [0, 100, 205, 310, 415][k]
    {
      BuildPointsOutcome(env, GameBuilder, tokens[..k]);
    }
  }

  /** Start k is start k - 1 plus the points token k - 1 appends. */
  predicate FollowsCount(b: Builder, tokens: seq<string>, starts: seq<int>, k: int)
    requires 1 <= k < |tokens| && |starts| == |tokens|
  {
    starts[k - 1] + TokenCount(b, tokens[k - 1]) == starts[k]
  }

  /** Each section starts at the number of points the tokens before it
      append, so consecutive starts differ by the points the token appends. */
  lemma SectionStartsFollowCounts(env: MathEnv, b: Builder, tokens: seq<string>)
    requires b.curveFirstIndex <= 1 && BuildPoints(env, b, tokens).Some?
    ensures |SectionStarts(env, b, tokens)| == |tokens|
    ensures forall k :: 0 <= k < |tokens| ==> SectionStarts(env, b, tokens)[k] == ExpectedCount(b, tokens[..k])
    ensures |tokens| > 0 ==> SectionStarts(env, b, tokens)[0] == 0
    ensures forall k :: 1 <= k < |tokens| ==> FollowsCount(b, tokens, SectionStarts(env, b, tokens), k)
    ensures |tokens| > 0 ==>
      SectionStarts(env, b, tokens)[|tokens| - 1] + TokenCount(b, tokens[|tokens| - 1])
        == |BuildPoints(env, b, tokens).value|
  {
    var starts := SectionStarts(env, b, tokens);
    forall k | 0 <= k < |tokens|
      ensures starts[k] == ExpectedCount(b, tokens[..k])
    {
      PrefixBuilds(env, b, tokens, k);
      BuildPointsOutcome(env, b, tokens[..k]);
    }
    forall k | 1 <= k <= |tokens|
      ensures ExpectedCount(b, tokens[..k - 1]) + TokenCount(b, tokens[k - 1]) == ExpectedCount(b, tokens[..k])
    {
      assert tokens[..k][..k - 1] == tokens[..k - 1];
      assert tokens[..k][k - 1] == tokens[k - 1];
    }
    forall k | 1 <= k < |tokens|
      ensures FollowsCount(b, tokens, starts, k)
    {
      assert starts[k - 1] == ExpectedCount(b, tokens[..k - 1]);
    }
    BuildPointsOutcome(env, b, tokens);
    assert tokens[..|tokens|] == tokens;
  }
}

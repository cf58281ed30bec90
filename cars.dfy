/** The cars behind the locomotive: each car sits a fixed offset behind the
    locomotive's position on the track, between two consecutive track
    points, with its position interpolated linearly and its rotation by
    spherical interpolation of the two points' rotations. */
module Cars {
  import opened MathModel

  /** The car's fractional point index:
      `(positionOnTrack - offset + trackLength) % trackLength`. */
  function CarPosition(positionOnTrack: real, offset: real, trackLength: nat): real
    requires trackLength > 0
  {
    JsRemainder(positionOnTrack - offset + trackLength as real, trackLength as real)
  }

  /** The position lies in [0, N) when the dividend is not negative; a
      larger offset gives a negative position, since the remainder keeps
      the dividend's sign. */
  lemma CarPositionBounds(positionOnTrack: real, offset: real, trackLength: nat)
    requires trackLength > 0
    ensures positionOnTrack - offset + trackLength as real >= 0.0 ==>
      0.0 <= CarPosition(positionOnTrack, offset, trackLength) < trackLength as real
    ensures positionOnTrack - offset + trackLength as real < 0.0 ==>
      -(trackLength as real) < CarPosition(positionOnTrack, offset, trackLength) <= 0.0
  {
    JsRemainderBounds(positionOnTrack - offset + trackLength as real, trackLength as real);
  }

  /** A car trails the locomotive by exactly its offset, wrapping once
      around the track when the offset reaches back past point 0. */
  lemma CarTrails(positionOnTrack: real, offset: real, trackLength: nat)
    requires trackLength > 0
    requires -(trackLength as real) <= positionOnTrack - offset < trackLength as real
    ensures CarPosition(positionOnTrack, offset, trackLength)
         == if positionOnTrack - offset >= 0.0 then positionOnTrack - offset
            else positionOnTrack - offset + trackLength as real
  {
    var n := trackLength as real;
    var a := positionOnTrack - offset + n;
    if positionOnTrack - offset >= 0.0 {
      QuotientBetween(a, n, 1.0, 2.0);
      assert Trunc(a / n) == 1;
    } else {
      QuotientBetween(a, n, 0.0, 1.0);
      assert Trunc(a / n) == 0;
    }
  }

  /** A dividend between two multiples of the divisor gives a quotient
      between the two factors. */
  lemma QuotientBetween(a: real, n: real, low: real, high: real)
    requires n > 0.0 && n * low <= a < n * high
    ensures low <= a / n < high
  {
    var q := a / n;
    assert n * q == a;
    if q < low {
      ProductBelow(n, q, low);
    }
    if q >= high {
      ProductAbove(n, q, high);
    }
  }

  lemma ProductBelow(n: real, q: real, bound: real)
    requires n > 0.0 && q < bound
    ensures n * q < n * bound
  {
    assert n * bound - n * q == n * (bound - q);
  }

  lemma ProductAbove(n: real, q: real, bound: real)
    requires n > 0.0 && q >= bound
    ensures n * q >= n * bound
  {
    assert n * q - n * bound == n * (q - bound);
  }

  /** `(carIndex + 1) % trackLength`: the following point, wrapping to 0
      after the last. */
  function NextIndex(carIndex: nat, trackLength: nat): (r: nat)
    requires carIndex < trackLength
    ensures r < trackLength
    ensures r == if carIndex == trackLength - 1 then 0 else carIndex + 1
  {
    (carIndex + 1) % trackLength
  }

  /** The componentwise interpolation from `a` toward `b`, raised by the
      height above the track in y only. */
  function Lerp(a: Vec3, b: Vec3, factor: real, heightAboveTrack: real): Vec3 {
    Vec3(a.x + (b.x - a.x) * factor,
         a.y + (b.y - a.y) * factor + heightAboveTrack,
         a.z + (b.z - a.z) * factor)
  }

  /** A factor of 0 gives the current point exactly, raised; a factor of 1
      would give the next point. */
  lemma LerpEnds(a: Vec3, b: Vec3, heightAboveTrack: real)
    ensures Lerp(a, b, 0.0, heightAboveTrack) == Add(a, Vec3(0.0, heightAboveTrack, 0.0))
    ensures Lerp(a, b, 1.0, heightAboveTrack) == Add(b, Vec3(0.0, heightAboveTrack, 0.0))
  {
  }

  /** What one car's update does to its mesh. */
  datatype CarUpdate =
    /** Reading a coordinate of a missing point throws before any write. */
    | NotPlaced
    /** The position is written, then interpolating a missing rotation throws. */
    | PositionOnly(position: Vec3)
    | Placed(position: Vec3, rotation: Quat)

  /** One car's placement. On an empty track the position is NaN and every
      index read is undefined; a negative position gives a negative index. */
  function PlaceCar(points: seq<Vec3>, rotations: seq<Quat>, positionOnTrack: real, offset: real,
                    heightAboveTrack: real): (r: CarUpdate)
    ensures r.NotPlaced? <==>
      |points| == 0 || CarPosition(positionOnTrack, offset, |points|) < 0.0
    ensures r.Placed? ==> |points| > 0 && |rotations| > 0
  {
    if |points| == 0 then NotPlaced
    else
      var p := CarPosition(positionOnTrack, offset, |points|);
      if p < 0.0 then NotPlaced
      else
        CarPositionBounds(positionOnTrack, offset, |points|);
        var i := p.Floor;
        var next := NextIndex(i, |points|);
        var factor := p - i as real;
        var position := Lerp(points[i], points[next], factor, heightAboveTrack);
        if i < |rotations| && next < |rotations| then Placed(position, Slerp(rotations[i], rotations[next], factor))
        else PositionOnly(position)
  }

  /** A car whose offset does not reach back past a whole track length is
      placed between point floor(p) and the one after it, with a factor in
      [0, 1), once every point has a rotation. */
  lemma PlacementInterpolates(points: seq<Vec3>, rotations: seq<Quat>, positionOnTrack: real, offset: real,
                              heightAboveTrack: real)
    requires |points| > 0 && |rotations| >= |points|
    requires positionOnTrack - offset + |points| as real >= 0.0
    ensures var p := CarPosition(positionOnTrack, offset, |points|);
      var i := p.Floor;
      && 0 <= i < |points|
      && 0.0 <= p - i as real < 1.0
      && PlaceCar(points, rotations, positionOnTrack, offset, heightAboveTrack)
         == Placed(Lerp(points[i], points[NextIndex(i, |points|)], p - i as real, heightAboveTrack),
                   Slerp(rotations[i], rotations[NextIndex(i, |points|)], p - i as real))
  {
    CarPositionBounds(positionOnTrack, offset, |points|);
  }

  /** A car more than half a point beyond a whole track length behind the
      locomotive at position 0 lands at index -1, and its update throws. */
  lemma LongOffsetThrows(points: seq<Vec3>, rotations: seq<Quat>, heightAboveTrack: real)
    requires |points| > 0
    ensures PlaceCar(points, rotations, 0.0, |points| as real + 0.5, heightAboveTrack) == NotPlaced
  {
    var n := |points| as real;
    var a := 0.0 - (n + 0.5) + n;
    assert a == -0.5;
    assert n * (a / n) == a;
    assert Trunc(a / n) == 0;
  }

  /** A car component: its offset behind the locomotive and its mesh, which
      is null until the car's initialisation makes one. */
  class Car {
    var offset: real
    var hasMesh: bool
    var meshPosition: Vec3
    var meshRotation: Option<Quat>

    constructor (offset: real)
      ensures this.offset == offset && !hasMesh
    {
      this.offset := offset;
      hasMesh := false;
      meshPosition := Origin;
      meshRotation := None;
    }
  }

  /** The index of the car the update loop stops at: the first car without a
      mesh, or whose update throws; |meshes| when every car is placed. */
  function StopAt(meshes: seq<bool>, updates: seq<CarUpdate>): (k: nat)
    requires |meshes| == |updates|
    ensures k <= |meshes|
    ensures forall j :: 0 <= j < k ==> meshes[j] && updates[j].Placed?
    ensures k < |meshes| ==> !meshes[k] || !updates[k].Placed?
    decreases |meshes|
  {
    if |meshes| == 0 || !meshes[0] || !updates[0].Placed? then 0
    else 1 + StopAt(meshes[1..], updates[1..])
  }

  function Meshes(cars: seq<Car>): (r: seq<bool>)
    reads cars
    ensures |r| == |cars| && forall k :: 0 <= k < |cars| ==> r[k] == cars[k].hasMesh
  {
    seq(|cars|, k requires 0 <= k < |cars| reads cars => cars[k].hasMesh)
  }

  /** Each car's placement from the current locomotive position. */
  function Updates(points: seq<Vec3>, rotations: seq<Quat>, positionOnTrack: real, cars: seq<Car>,
                   heightAboveTrack: real): (r: seq<CarUpdate>)
    reads cars
    ensures |r| == |cars|
    ensures forall k :: 0 <= k < |cars| ==>
      r[k] == PlaceCar(points, rotations, positionOnTrack, cars[k].offset, heightAboveTrack)
  {
    seq(|cars|, k requires 0 <= k < |cars| reads cars =>
      PlaceCar(points, rotations, positionOnTrack, cars[k].offset, heightAboveTrack))
  }

  /** Writes one car's placement to its mesh: the position, then the
      rotation unless reading it throws. */
  method PlaceMesh(car: Car, u: CarUpdate)
    requires !u.NotPlaced?
    modifies car
    ensures car.meshPosition == u.position
    ensures car.meshRotation == if u.Placed? then Some(u.rotation) else old(car.meshRotation)
    ensures car.hasMesh == old(car.hasMesh) && car.offset == old(car.offset)
  {
    car.meshPosition := u.position;
    if u.Placed? {
      car.meshRotation := Some(u.rotation);
    }
  }

  /** `updateEntity` of the car system: the cars are placed in order; the
      first car without a mesh ends the whole update, and a throw ends it
      after the position (but not the rotation) of the throwing car may have
      been written. */
  method UpdateEntity(points: seq<Vec3>, rotations: seq<Quat>, positionOnTrack: real, cars: seq<Car>,
                      heightAboveTrack: real) returns (threw: bool)
    requires forall i, j :: 0 <= i < j < |cars| ==> cars[i] != cars[j]
    modifies cars
    ensures forall k :: 0 <= k < |cars| ==>
      cars[k].hasMesh == old(cars[k].hasMesh) && cars[k].offset == old(cars[k].offset)
    ensures var updates := old(Updates(points, rotations, positionOnTrack, cars, heightAboveTrack));
      var meshes := old(Meshes(cars));
      var stop := StopAt(meshes, updates);
      && (threw <==> stop < |cars| && meshes[stop])
      && (forall k :: 0 <= k < stop ==>
            cars[k].meshPosition == updates[k].position && cars[k].meshRotation == Some(updates[k].rotation))
      && (stop < |cars| && meshes[stop] && updates[stop].PositionOnly? ==>
            cars[stop].meshPosition == updates[stop].position
            && cars[stop].meshRotation == old(cars[stop].meshRotation))
      && (forall k :: stop <= k < |cars| && !(k == stop && meshes[k] && updates[k].PositionOnly?) ==>
            cars[k].meshPosition == old(cars[k].meshPosition) && cars[k].meshRotation == old(cars[k].meshRotation))
  {
    ghost var updates := Updates(points, rotations, positionOnTrack, cars, heightAboveTrack);
    ghost var meshes := Meshes(cars);
    ghost var stop := StopAt(meshes, updates);
    var i := 0;
    while i < |cars|
      invariant 0 <= i <= stop
      invariant forall k :: 0 <= k < |cars| ==>
        cars[k].hasMesh == meshes[k] && cars[k].offset == old(cars[k].offset)
      invariant forall k :: 0 <= k < i ==>
        cars[k].meshPosition == updates[k].position && cars[k].meshRotation == Some(updates[k].rotation)
      invariant forall k :: i <= k < |cars| ==>
        cars[k].meshPosition == old(cars[k].meshPosition) && cars[k].meshRotation == old(cars[k].meshRotation)
    {
      var car := cars[i];
      if !car.hasMesh {
        assert stop == i;
        return false;
      }
      var u := PlaceCar(points, rotations, positionOnTrack, car.offset, heightAboveTrack);
      assert u == updates[i];
      if u.NotPlaced? {
        assert stop == i;
        return true;
      }
      PlaceMesh(car, u);
      if u.PositionOnly? {
        assert stop == i;
        return true;
      }
      assert i < stop by {
        assert meshes[i] && updates[i].Placed?;
      }
      forall k | 0 <= k <= i
        ensures cars[k].meshPosition == updates[k].position && cars[k].meshRotation == Some(updates[k].rotation)
      {
        if k < i {
          assert cars[k] != car;
        }
      }
      i := i + 1;
    }
    threw := false;
  }
}

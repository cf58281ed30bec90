/** The terrain's physics collider: the faces of the terrain mesh whose
    three vertices all lie within a radius of the camera (in the XZ plane)
    are copied into a compact mesh, each vertex once, with the faces'
    indices renumbered; the mean of the copied vertices becomes the
    collider's centre. The collider is built once and rebuilt whenever the
    camera strays more than 14 from that centre. */
module TerrainCollider {
  import opened MathModel
  import opened TrackComponents

  const RadiusOfPhysicsAggregate := 30.0

  // ---------------------------------------------------------------------
  // Reading the mesh buffers

  /** The vertex's three coordinates exist in the flat position buffer. A
      missing coordinate reads as undefined and every distance computed
      from it is NaN, which fails the radius test. */
  predicate Readable(positions: seq<real>, v: int) {
    0 <= v && 3 * v + 2 < |positions|
  }

  function Coords(positions: seq<real>, v: int): (r: seq<real>)
    requires Readable(positions, v)
    ensures |r| == 3
  {
    positions[3 * v .. 3 * v + 3]
  }

  /** `Vector3.Distance` of the two points with y set to 0 is at most the
      radius: the square root compared as its square. */
  predicate WithinRadius(positions: seq<real>, v: int, query: Vec3, radius: real)
    requires Readable(positions, v)
  {
    var dx := query.x - positions[3 * v];
    var dz := query.z - positions[3 * v + 2];
    radius >= 0.0 && dx * dx + dz * dz <= radius * radius
  }

  /** Face f (indices 3f, 3f + 1, 3f + 2) is kept when all three of its
      indices exist and all three vertices pass the radius test. */
  predicate KeptFace(positions: seq<real>, indices: seq<nat>, f: nat, query: Vec3, radius: real) {
    && 3 * f + 2 < |indices|
    && Readable(positions, indices[3 * f]) && WithinRadius(positions, indices[3 * f], query, radius)
    && Readable(positions, indices[3 * f + 1]) && WithinRadius(positions, indices[3 * f + 1], query, radius)
    && Readable(positions, indices[3 * f + 2]) && WithinRadius(positions, indices[3 * f + 2], query, radius)
  }

  /** The vertex indices of the kept faces among the first `faces` faces,
      in order, three per face. */
  function KeptOccurrences(positions: seq<real>, indices: seq<nat>, query: Vec3, radius: real, faces: nat): seq<nat> {
    if faces == 0 then []
    else
      var f := faces - 1;
      KeptOccurrences(positions, indices, query, radius, f)
        + (if KeptFace(positions, indices, f, query, radius) then [indices[3 * f], indices[3 * f + 1], indices[3 * f + 2]] else [])
  }

  /** The number of kept faces among the first `faces` faces. */
  function KeptFaceCount(positions: seq<real>, indices: seq<nat>, query: Vec3, radius: real, faces: nat): nat {
    if faces == 0 then 0
    else
      KeptFaceCount(positions, indices, query, radius, faces - 1)
        + (if KeptFace(positions, indices, faces - 1, query, radius) then 1 else 0)
  }

  /** Three occurrences per kept face. */
  lemma {:induction false} OccurrencesPerFace(positions: seq<real>, indices: seq<nat>, query: Vec3, radius: real, faces: nat)
    ensures |KeptOccurrences(positions, indices, query, radius, faces)| == 3 * KeptFaceCount(positions, indices, query, radius, faces)
  {
    if faces > 0 {
      OccurrencesPerFace(positions, indices, query, radius, faces - 1);
    }
  }

  /** A kept face's vertices have their three coordinates. */
  lemma {:induction false} KeptReadable(positions: seq<real>, indices: seq<nat>, query: Vec3, radius: real, faces: nat)
    ensures AllReadable(positions, KeptOccurrences(positions, indices, query, radius, faces))
  {
    if faces > 0 {
      KeptReadable(positions, indices, query, radius, faces - 1);
    }
  }

  /** The radius test looks at x and z only: a vertex's height does not
      decide whether its face is kept. */
  lemma HeightIgnored(positions: seq<real>, v: int, query: Vec3, radius: real, y: real)
    requires Readable(positions, v)
    ensures Readable(positions[3 * v + 1 := y], v)
    ensures WithinRadius(positions[3 * v + 1 := y], v, query, radius) == WithinRadius(positions, v, query, radius)
  {
  }

  // ---------------------------------------------------------------------
  // Compaction

  /** Every vertex of the list has its three coordinates. */
  predicate AllReadable(positions: seq<real>, d: seq<nat>) {
    forall x :: x in d ==> Readable(positions, x)
  }

  predicate Distinct(d: seq<nat>) {
    forall i, j :: 0 <= i < j < |d| ==> d[i] != d[j]
  }

  /** The vertices in order of first appearance. */
  function Dedup(occurrences: seq<nat>): (d: seq<nat>)
    ensures |d| <= |occurrences|
    decreases |occurrences|
  {
    if |occurrences| == 0 then []
    else
      var prefix := Dedup(occurrences[..|occurrences| - 1]);
      var x := occurrences[|occurrences| - 1];
      if x in prefix then prefix else prefix + [x]
  }

  /** Appending an occurrence appends its vertex to the first-appearance
      list unless the vertex is already there. */
  lemma DedupExtends(occurrences: seq<nat>, x: nat)
    ensures Dedup(occurrences + [x]) == if x in Dedup(occurrences) then Dedup(occurrences) else Dedup(occurrences) + [x]
  {
    assert (occurrences + [x])[..|occurrences|] == occurrences;
  }

  /** The first-appearance list holds exactly the vertices that occur. */
  lemma {:induction false} DedupMembers(occurrences: seq<nat>)
    ensures forall x :: x in Dedup(occurrences) <==> x in occurrences
    decreases |occurrences|
  {
    if |occurrences| > 0 {
      var prefix := occurrences[..|occurrences| - 1];
      DedupMembers(prefix);
      assert occurrences == prefix + [occurrences[|occurrences| - 1]];
    }
  }

  /** ... and holds each of them once. */
  lemma {:induction false} DedupDistinct(occurrences: seq<nat>)
    ensures Distinct(Dedup(occurrences))
    decreases |occurrences|
  {
    if |occurrences| > 0 {
      DedupDistinct(occurrences[..|occurrences| - 1]);
    }
  }

  function IndexOf(d: seq<nat>, x: nat): (j: nat)
    requires x in d
    ensures j < |d| && d[j] == x
  {
    if d[0] == x then 0 else 1 + IndexOf(d[1..], x)
  }

  /** In a list without repeats, a value's position is unique. */
  lemma IndexOfDistinct(d: seq<nat>, j: nat)
    requires Distinct(d) && j < |d|
    ensures IndexOf(d, d[j]) == j
  {
  }

  /** A vertex appended to a list that lacks it is found at the end. */
  lemma {:induction false} IndexOfAppended(d: seq<nat>, v: nat)
    requires v !in d
    ensures v in d + [v] && IndexOf(d + [v], v) == |d|
  {
    if |d| > 0 {
      IndexOfAppended(d[1..], v);
      assert (d + [v])[1..] == d[1..] + [v];
    }
  }

  /** A vertex's new index is its position in order of first appearance,
      which the later occurrences never change. */
  function Remap(occurrences: seq<nat>): (r: seq<nat>)
    ensures |r| == |occurrences|
    decreases |occurrences|
  {
    if |occurrences| == 0 then []
    else
      var prefix := occurrences[..|occurrences| - 1];
      var x := occurrences[|occurrences| - 1];
      DedupExtends(prefix, x);
      assert occurrences == prefix + [x];
      Remap(prefix) + [IndexOf(Dedup(occurrences), x)]
  }

  /** Each new index names a distinct vertex, and that vertex is the
      occurrence's original one. */
  lemma {:induction false} RemapIndexes(occurrences: seq<nat>, k: nat)
    requires k < |occurrences|
    ensures Remap(occurrences)[k] < |Dedup(occurrences)|
    ensures Dedup(occurrences)[Remap(occurrences)[k]] == occurrences[k]
    decreases |occurrences|
  {
    var prefix := occurrences[..|occurrences| - 1];
    var x := occurrences[|occurrences| - 1];
    DedupExtends(prefix, x);
    assert occurrences == prefix + [x];
    if k < |prefix| {
      RemapIndexes(prefix, k);
      assert Remap(occurrences)[k] == Remap(prefix)[k];
      assert Dedup(occurrences)[Remap(prefix)[k]] == Dedup(prefix)[Remap(prefix)[k]];
    }
  }

  /** The renumbering as a map from original to new index, filled in order
      of first appearance. */
  function IndexMap(d: seq<nat>): map<nat, nat>
    decreases |d|
  {
    if |d| == 0 then map[] else IndexMap(d[..|d| - 1])[d[|d| - 1] := |d| - 1]
  }

  /** The map holds the listed vertices, each mapped to a position where it
      stands. */
  lemma {:induction false} IndexMapAt(d: seq<nat>, x: nat)
    ensures x in IndexMap(d) <==> x in d
    ensures x in IndexMap(d) ==> IndexMap(d)[x] < |d| && d[IndexMap(d)[x]] == x
    decreases |d|
  {
    if |d| > 0 {
      var prefix := d[..|d| - 1];
      IndexMapAt(prefix, x);
      assert d == prefix + [d[|d| - 1]];
    }
  }

  /** The copied coordinates, three per vertex, in order of first
      appearance. */
  function Flatten(positions: seq<real>, d: seq<nat>): (r: seq<real>)
    requires AllReadable(positions, d)
    ensures |r| == 3 * |d|
    decreases |d|
  {
    if |d| == 0 then []
    else Flatten(positions, d[..|d| - 1]) + Coords(positions, d[|d| - 1])
  }

  /** Vertex j of the compact mesh holds the three coordinates of the j-th
      distinct kept vertex, unchanged. */
  lemma {:induction false} FlattenCopies(positions: seq<real>, d: seq<nat>, j: nat)
    requires AllReadable(positions, d)
    requires j < |d|
    ensures Flatten(positions, d)[3 * j .. 3 * j + 3] == Coords(positions, d[j])
    decreases |d|
  {
    var prefix := d[..|d| - 1];
    var r := Flatten(positions, d);
    assert r == Flatten(positions, prefix) + Coords(positions, d[|d| - 1]);
    if j < |d| - 1 {
      FlattenCopies(positions, prefix, j);
      assert r[3 * j .. 3 * j + 3] == Flatten(positions, prefix)[3 * j .. 3 * j + 3];
    } else {
      assert r[3 * j .. 3 * j + 3] == r[3 * (|d| - 1) ..];
    }
  }

  /** The running total of one coordinate (0 for x, 1 for y, 2 for z) over
      the copied vertices. */
  function Sum(positions: seq<real>, d: seq<nat>, axis: nat): real
    requires AllReadable(positions, d) && axis < 3
    decreases |d|
  {
    if |d| == 0 then 0.0
    else
      var v := d[|d| - 1];
      assert v in d;
      Sum(positions, d[..|d| - 1], axis) + positions[3 * v + axis]
  }

  /** Appending a vertex appends its coordinates and adds them to the sums. */
  lemma CopiesExtend(positions: seq<real>, d: seq<nat>, v: nat)
    requires AllReadable(positions, d) && Readable(positions, v)
    ensures AllReadable(positions, d + [v])
    ensures Flatten(positions, d + [v]) == Flatten(positions, d) + Coords(positions, v)
    ensures Sum(positions, d + [v], 0) == Sum(positions, d, 0) + positions[3 * v]
    ensures Sum(positions, d + [v], 1) == Sum(positions, d, 1) + positions[3 * v + 1]
    ensures Sum(positions, d + [v], 2) == Sum(positions, d, 2) + positions[3 * v + 2]
  {
    assert (d + [v])[..|d|] == d;
  }

  /** The mean of the copied vertices; `0 / 0` gives the NaN vector when no
      face was kept. */
  datatype Centre = NaNCentre | At(position: Vec3)

  /** The compact mesh and its centre. */
  datatype Aggregate = Aggregate(vertices: seq<real>, indices: seq<nat>, centre: Centre)

  function CentreOf(positions: seq<real>, d: seq<nat>): Centre
    requires AllReadable(positions, d)
  {
    if |d| == 0 then NaNCentre
    else At(Vec3(Sum(positions, d, 0) / |d| as real, Sum(positions, d, 1) / |d| as real, Sum(positions, d, 2) / |d| as real))
  }

  /** The number of faces the loop visits: ceil(|indices| / 3). */
  function FaceCount(indices: seq<nat>): nat {
    (|indices| + 2) / 3
  }

  /** What `createPhysicsAggregate` builds around an already shifted query
      point; without a position or an index buffer, an empty mesh. */
  function Compacted(positions: Option<seq<real>>, indices: Option<seq<nat>>, query: Vec3, radius: real): Aggregate {
    if positions.None? || indices.None? then Aggregate([], [], NaNCentre)
    else
      var occurrences := KeptOccurrences(positions.value, indices.value, query, radius, FaceCount(indices.value));
      var d := Dedup(occurrences);
      KeptReadable(positions.value, indices.value, query, radius, FaceCount(indices.value));
      DedupMembers(occurrences);
      Aggregate(Flatten(positions.value, d), Remap(occurrences), CentreOf(positions.value, d))
  }

  /** The camera position moved by the terrain's view distance in x and z. */
  function Shifted(camera: Vec3, maxViewDistance: real): Vec3 {
    Vec3(camera.x + maxViewDistance, camera.y, camera.z + maxViewDistance)
  }

  /** The compact mesh of two present buffers, spelled out: the copied
      vertices in order of first appearance and the renumbered occurrences. */
  lemma CompactedParts(positions: seq<real>, indices: seq<nat>, query: Vec3, radius: real)
    ensures var occurrences := KeptOccurrences(positions, indices, query, radius, FaceCount(indices));
      && AllReadable(positions, occurrences)
      && AllReadable(positions, Dedup(occurrences))
      && Compacted(Some(positions), Some(indices), query, radius)
         == Aggregate(Flatten(positions, Dedup(occurrences)), Remap(occurrences), CentreOf(positions, Dedup(occurrences)))
  {
    KeptReadable(positions, indices, query, radius, FaceCount(indices));
    DedupMembers(KeptOccurrences(positions, indices, query, radius, FaceCount(indices)));
  }

  /** The compact mesh has three indices per kept face, and three
      coordinates per distinct vertex of the kept faces, of which there are
      no more than indices. */
  lemma CompactSizes(positions: seq<real>, indices: seq<nat>, query: Vec3, radius: real)
    ensures var a := Compacted(Some(positions), Some(indices), query, radius);
      var occurrences := KeptOccurrences(positions, indices, query, radius, FaceCount(indices));
      && |a.indices| == 3 * KeptFaceCount(positions, indices, query, radius, FaceCount(indices))
      && |a.vertices| == 3 * |Dedup(occurrences)|
      && |Dedup(occurrences)| <= |a.indices|
  {
    CompactedParts(positions, indices, query, radius);
    OccurrencesPerFace(positions, indices, query, radius, FaceCount(indices));
  }

  /** The k-th index of the compact mesh names a copied vertex holding the
      coordinates of the k-th kept occurrence's original vertex. */
  lemma CompactIndexCopies(positions: seq<real>, indices: seq<nat>, query: Vec3, radius: real, k: nat)
    requires k < |Compacted(Some(positions), Some(indices), query, radius).indices|
    ensures var a := Compacted(Some(positions), Some(indices), query, radius);
      var occurrences := KeptOccurrences(positions, indices, query, radius, FaceCount(indices));
      && 3 * a.indices[k] + 3 <= |a.vertices|
      && k < |occurrences| && Readable(positions, occurrences[k])
      && a.vertices[3 * a.indices[k] .. 3 * a.indices[k] + 3] == Coords(positions, occurrences[k])
  {
    var occurrences := KeptOccurrences(positions, indices, query, radius, FaceCount(indices));
    CompactedParts(positions, indices, query, radius);
    RemapIndexes(occurrences, k);
    FlattenCopies(positions, Dedup(occurrences), Remap(occurrences)[k]);
  }

  /** Positions in a list without repeats hold equal values only when they
      are the same position. */
  lemma DistinctAt(d: seq<nat>, i: nat, j: nat)
    requires Distinct(d) && i < |d| && j < |d|
    ensures d[i] == d[j] <==> i == j
  {
    if i < j {
      assert d[i] != d[j];
    } else if j < i {
      assert d[j] != d[i];
    }
  }

  /** Two kept occurrences share a new index exactly when they share the
      original vertex: each vertex is copied once. */
  lemma CompactSharesVertices(positions: seq<real>, indices: seq<nat>, query: Vec3, radius: real, k1: nat, k2: nat)
    requires k1 < |Compacted(Some(positions), Some(indices), query, radius).indices|
    requires k2 < |Compacted(Some(positions), Some(indices), query, radius).indices|
    ensures var a := Compacted(Some(positions), Some(indices), query, radius);
      var occurrences := KeptOccurrences(positions, indices, query, radius, FaceCount(indices));
      k1 < |occurrences| && k2 < |occurrences|
      && (a.indices[k1] == a.indices[k2] <==> occurrences[k1] == occurrences[k2])
  {
    var occurrences := KeptOccurrences(positions, indices, query, radius, FaceCount(indices));
    CompactedParts(positions, indices, query, radius);
    var r := Remap(occurrences);
    DedupDistinct(occurrences);
    RemapIndexes(occurrences, k1);
    RemapIndexes(occurrences, k2);
    DistinctAt(Dedup(occurrences), r[k1], r[k2]);
  }

  /** Every copied vertex is named by some index of the compact mesh. */
  lemma CompactVerticesUsed(positions: seq<real>, indices: seq<nat>, query: Vec3, radius: real, j: nat)
    requires 3 * j < |Compacted(Some(positions), Some(indices), query, radius).vertices|
    ensures var a := Compacted(Some(positions), Some(indices), query, radius);
      exists k :: 0 <= k < |a.indices| && a.indices[k] == j
  {
    var occurrences := KeptOccurrences(positions, indices, query, radius, FaceCount(indices));
    var d := Dedup(occurrences);
    CompactedParts(positions, indices, query, radius);
    DedupMembers(occurrences);
    DedupDistinct(occurrences);
    assert d[j] in occurrences;
    var k :| 0 <= k < |occurrences| && occurrences[k] == d[j];
    RemapIndexes(occurrences, k);
    DistinctAt(d, Remap(occurrences)[k], j);
    assert Remap(occurrences)[k] == j;
  }

  /** The centre is NaN exactly when no face was kept. */
  lemma CompactCentre(positions: seq<real>, indices: seq<nat>, query: Vec3, radius: real)
    ensures Compacted(Some(positions), Some(indices), query, radius).centre == NaNCentre
        <==> KeptFaceCount(positions, indices, query, radius, FaceCount(indices)) == 0
  {
    var occurrences := KeptOccurrences(positions, indices, query, radius, FaceCount(indices));
    CompactedParts(positions, indices, query, radius);
    OccurrencesPerFace(positions, indices, query, radius, FaceCount(indices));
    DedupMembers(occurrences);
    if |occurrences| > 0 {
      assert occurrences[0] in Dedup(occurrences);
    }
  }

  // ---------------------------------------------------------------------
  // The building loop

  /** What the loop has collected so far: the renumbering, the copied
      coordinates, the new indices, the coordinate sums and the count of
      copied vertices. */
  datatype Collected = Collected(indexMap: map<nat, nat>, vertices: seq<real>, indices: seq<nat>,
                                 sumX: real, sumY: real, sumZ: real, count: nat)

  /** The collected values describe the occurrences handled so far. */
  ghost predicate Compacts(positions: seq<real>, c: Collected, occurrences: seq<nat>) {
    var d := Dedup(occurrences);
    && AllReadable(positions, d)
    && c.indexMap == IndexMap(d)
    && c.vertices == Flatten(positions, d)
    && c.indices == Remap(occurrences)
    && c.sumX == Sum(positions, d, 0) && c.sumY == Sum(positions, d, 1) && c.sumZ == Sum(positions, d, 2)
    && c.count == |d|
  }

  /** A vertex that has not occurred yet is appended to the first-appearance
      list and renumbered to that list's former length. */
  lemma RenumberNew(occurrences: seq<nat>, v: nat)
    requires v !in Dedup(occurrences)
    ensures Dedup(occurrences + [v]) == Dedup(occurrences) + [v]
    ensures Remap(occurrences + [v]) == Remap(occurrences) + [|Dedup(occurrences)|]
  {
    var d := Dedup(occurrences);
    DedupExtends(occurrences, v);
    IndexOfAppended(d, v);
    assert (occurrences + [v])[..|occurrences|] == occurrences;
  }

  /** Appending a vertex to the list maps it to its position. */
  lemma IndexMapAppend(d: seq<nat>, v: nat)
    ensures IndexMap(d + [v]) == IndexMap(d)[v := |d|]
  {
    assert (d + [v])[..|d|] == d;
  }

  /** What a first occurrence of v adds, stated on the extended
      occurrences: v's coordinates are copied and summed, and v is mapped to
      the former count. */
  lemma FirstOccurrence(positions: seq<real>, occurrences: seq<nat>, v: nat)
    requires AllReadable(positions, Dedup(occurrences))
    requires Readable(positions, v) && v !in Dedup(occurrences)
    ensures var d := Dedup(occurrences);
      var d' := Dedup(occurrences + [v]);
      && |d'| == |d| + 1
      && AllReadable(positions, d')
      && IndexMap(d') == IndexMap(d)[v := |d|]
      && Flatten(positions, d') == Flatten(positions, d) + Coords(positions, v)
      && Remap(occurrences + [v]) == Remap(occurrences) + [|d|]
      && Sum(positions, d', 0) == Sum(positions, d, 0) + positions[3 * v]
      && Sum(positions, d', 1) == Sum(positions, d, 1) + positions[3 * v + 1]
      && Sum(positions, d', 2) == Sum(positions, d, 2) + positions[3 * v + 2]
  {
    var d := Dedup(occurrences);
    RenumberNew(occurrences, v);
    IndexMapAppend(d, v);
    CopiesExtend(positions, d, v);
  }

  /** A vertex met for the first time gets the next new index (the count of
      copied vertices), and its coordinates are appended to the compact
      buffer and the sums. */
  lemma VisitNew(positions: seq<real>, c: Collected, occurrences: seq<nat>, v: nat)
    requires Compacts(positions, c, occurrences)
    requires Readable(positions, v) && v !in c.indexMap
    ensures Compacts(positions, Collected(c.indexMap[v := c.count], c.vertices + Coords(positions, v),
                                          c.indices + [c.count], c.sumX + positions[3 * v],
                                          c.sumY + positions[3 * v + 1], c.sumZ + positions[3 * v + 2], c.count + 1),
                     occurrences + [v])
  {
    IndexMapAt(Dedup(occurrences), v);
    FirstOccurrence(positions, occurrences, v);
  }

  /** A third of three times a count is that count. */
  lemma ThirdOfTriple(n: nat)
    ensures (3 * n) / 3 == n
  {
  }

  /** A vertex met before keeps the index it was given. */
  lemma VisitSeen(positions: seq<real>, c: Collected, occurrences: seq<nat>, v: nat)
    requires Compacts(positions, c, occurrences)
    requires Readable(positions, v) && v in c.indexMap
    ensures Compacts(positions, c.(indices := c.indices + [c.indexMap[v]]), occurrences + [v])
  {
    var d := Dedup(occurrences);
    IndexMapAt(d, v);
    DedupDistinct(occurrences);
    IndexOfDistinct(d, c.indexMap[v]);
    DedupExtends(occurrences, v);
    assert Dedup(occurrences + [v]) == d;
    assert (occurrences + [v])[..|occurrences|] == occurrences;
    assert Remap(occurrences + [v]) == c.indices + [c.indexMap[v]];
  }

  /** The `forEach` callback for one vertex of a kept face: a vertex not yet
      in the map is given the next new index (the number of vertices copied
      so far) and its coordinates are copied and summed; then its new index
      is pushed. Proved against the occurrences handled so far. */
  method AddVertex(positions: seq<real>, c: Collected, v: nat, ghost occurrences: seq<nat>) returns (next: Collected)
    requires Readable(positions, v)
    requires Compacts(positions, c, occurrences)
    ensures Compacts(positions, next, occurrences + [v])
  {
    next := c;
    if v !in next.indexMap {
      VisitNew(positions, c, occurrences, v);
      ThirdOfTriple(c.count);
      var newIndex := |next.vertices| / 3;
      assert newIndex == c.count;
      next := next.(indexMap := next.indexMap[v := newIndex], vertices := next.vertices + Coords(positions, v),
                    sumX := next.sumX + positions[3 * v], sumY := next.sumY + positions[3 * v + 1],
                    sumZ := next.sumZ + positions[3 * v + 2], count := next.count + 1);
      next := next.(indices := next.indices + [newIndex]);
    } else {
      VisitSeen(positions, c, occurrences, v);
      next := next.(indices := next.indices + [next.indexMap[v]]);
    }
  }

  /** One more face appends its three indices to the kept occurrences when
      it is kept, and nothing otherwise. */
  lemma NextFace(positions: seq<real>, indices: seq<nat>, query: Vec3, radius: real, faces: nat)
    ensures KeptOccurrences(positions, indices, query, radius, faces + 1)
         == KeptOccurrences(positions, indices, query, radius, faces)
            + if KeptFace(positions, indices, faces, query, radius)
              then [indices[3 * faces], indices[3 * faces + 1], indices[3 * faces + 2]] else []
  {
  }

  /** `[index1, index2, index3].forEach(...)`: the callback runs for the
      face's three vertices in order. */
  method AddFace(positions: seq<real>, c: Collected, face: seq<nat>, ghost occurrences: seq<nat>) returns (next: Collected)
    requires AllReadable(positions, face)
    requires Compacts(positions, c, occurrences)
    ensures Compacts(positions, next, occurrences + face)
  {
    next := c;
    ghost var occ := occurrences;
    var k := 0;
    while k < |face|
      invariant 0 <= k <= |face| && occ == occurrences + face[..k]
      invariant Compacts(positions, next, occ)
    {
      assert face[k] in face;
      next := AddVertex(positions, next, face[k], occ);
      assert face[..k + 1] == face[..k] + [face[k]];
      occ := occ + [face[k]];
      k := k + 1;
    }
    assert face[..k] == face;
  }

  /** The radius test of face f, whose indices start at i = 3 f: an index
      past the end, or a vertex without coordinates, reads as undefined and
      fails the test. */
  method TestFace(ps: seq<real>, ix: seq<nat>, i: nat, ghost f: nat, query: Vec3, radius: real) returns (kept: bool)
    requires i == 3 * f
    ensures kept <==> KeptFace(ps, ix, f, query, radius)
  {
    kept := i + 2 < |ix| && Readable(ps, ix[i]) && Readable(ps, ix[i + 1]) && Readable(ps, ix[i + 2])
      && WithinRadius(ps, ix[i], query, radius) && WithinRadius(ps, ix[i + 1], query, radius)
      && WithinRadius(ps, ix[i + 2], query, radius);
  }

  /** The face loop of `createPhysicsAggregate`, over faces 0, 1, ...,
      ceil(|indices| / 3) - 1. */
  method CollectFaces(ps: seq<real>, ix: seq<nat>, query: Vec3, radius: real) returns (collected: Collected)
    ensures Compacts(ps, collected, KeptOccurrences(ps, ix, query, radius, FaceCount(ix)))
  {
    collected := Collected(map[], [], [], 0.0, 0.0, 0.0, 0);
    ghost var faces: nat := 0;
    ghost var occ: seq<nat> := [];
    var i := 0;
    while i < |ix|
      invariant i == 3 * faces && faces <= FaceCount(ix)
      invariant occ == KeptOccurrences(ps, ix, query, radius, faces)
      invariant Compacts(ps, collected, occ)
    {
      NextFace(ps, ix, query, radius, faces);
      var kept := TestFace(ps, ix, i, faces, query, radius);
      if kept {
        collected := AddFace(ps, collected, [ix[i], ix[i + 1], ix[i + 2]], occ);
        occ := occ + [ix[i], ix[i + 1], ix[i + 2]];
      }
      i := i + 3;
      faces := faces + 1;
    }
    assert faces == FaceCount(ix);
  }

  /** `createPhysicsAggregate`: the query point is the camera shifted by the
      view distance; the centre divides the sums by the count. */
  method CreatePhysicsAggregate(positions: Option<seq<real>>, indices: Option<seq<nat>>, cameraPosition: Vec3,
                                radius: real, maxViewDistance: real) returns (r: Aggregate)
    ensures r == Compacted(positions, indices, Shifted(cameraPosition, maxViewDistance), radius)
  {
    var query := Vec3(cameraPosition.x + maxViewDistance, cameraPosition.y, cameraPosition.z + maxViewDistance);
    var collected := Collected(map[], [], [], 0.0, 0.0, 0.0, 0);
    ghost var expected := Compacted(positions, indices, query, radius);
    if positions.Some? && indices.Some? {
      collected := CollectFaces(positions.value, indices.value, query, radius);
      CompactedParts(positions.value, indices.value, query, radius);
      ghost var d := Dedup(KeptOccurrences(positions.value, indices.value, query, radius, FaceCount(indices.value)));
      assert expected == Aggregate(collected.vertices, collected.indices, CentreOf(positions.value, d));
      assert collected.count == |d|;
    }
    var count := collected.count;
    var centre := if count == 0 then NaNCentre
                  else At(Vec3(collected.sumX / count as real, collected.sumY / count as real, collected.sumZ / count as real));
    r := Aggregate(collected.vertices, collected.indices, centre);
    assert r == expected;
  }

  // ---------------------------------------------------------------------
  // The collider's update

  /** The terrain's mesh buffers, either of which may be missing. */
  datatype TerrainMesh = TerrainMesh(positions: Option<seq<real>>, indices: Option<seq<nat>>)

  /** The dynamic-terrain component, as far as the collider uses it. */
  class DynamicTerrain {
    var initializationStatus: InitializationStatus
    var terrainMesh: Option<TerrainMesh>
    var physicsMesh: Option<Aggregate>
    var physicsAggregateInitializing: bool
    var currentPhysicsCenter: Option<Centre>

    constructor (terrainMesh: Option<TerrainMesh>)
      ensures initializationStatus == NotInitialized && this.terrainMesh == terrainMesh
      ensures physicsMesh == None && !physicsAggregateInitializing && currentPhysicsCenter == None
    {
      initializationStatus := NotInitialized;
      this.terrainMesh := terrainMesh;
      physicsMesh := None;
      physicsAggregateInitializing := false;
      currentPhysicsCenter := None;
    }
  }

  /** The XZ distance from the camera to the centre, moved back by the view
      distance, exceeds 30 / 2 - 1 = 14; never for the NaN centre. */
  predicate Strayed(camera: Vec3, centre: Centre, maxViewDistance: real) {
    match centre
    case NaNCentre => false
    case At(c) =>
      var dx := camera.x - (c.x - maxViewDistance);
      var dz := camera.z - (c.z - maxViewDistance);
      dx * dx + dz * dz > (RadiusOfPhysicsAggregate / 2.0 - 1.0) * (RadiusOfPhysicsAggregate / 2.0 - 1.0)
  }

  datatype ColliderAction = Idle | FirstBuild | Rebuild

  /** What an update does: nothing until the terrain is initialised and has
      a mesh and there is a camera; the first build when there is no
      physics mesh and no build in progress; a rebuild when the camera has
      strayed from the centre. */
  function Decide(status: InitializationStatus, hasTerrainMesh: bool, camera: Option<Vec3>,
                  physicsMesh: bool, initializing: bool, centre: Option<Centre>, maxViewDistance: real): ColliderAction
  {
    if status != Initialized || !hasTerrainMesh || camera.None? then Idle
    else if !physicsMesh && !initializing then FirstBuild
    else if physicsMesh && !initializing && centre.Some? && Strayed(camera.value, centre.value, maxViewDistance) then Rebuild
    else Idle
  }

  /** `updateEntity`: a build replaces the physics mesh and the centre with
      the ones built around the camera; the in-progress flag it raises is
      lowered again before the update ends. */
  method UpdateEntity(terrain: DynamicTerrain, camera: Option<Vec3>, maxViewDistance: real) returns (action: ColliderAction)
    modifies terrain
    ensures action == Decide(old(terrain.initializationStatus), old(terrain.terrainMesh).Some?, camera,
                             old(terrain.physicsMesh).Some?, old(terrain.physicsAggregateInitializing),
                             old(terrain.currentPhysicsCenter), maxViewDistance)
    ensures action == Idle ==> unchanged(terrain)
    ensures action != Idle ==>
      var built := Compacted(old(terrain.terrainMesh).value.positions, old(terrain.terrainMesh).value.indices,
                             Shifted(camera.value, maxViewDistance), RadiusOfPhysicsAggregate);
      && terrain.physicsMesh == Some(built)
      && terrain.currentPhysicsCenter == Some(built.centre)
      && !terrain.physicsAggregateInitializing
      && terrain.initializationStatus == old(terrain.initializationStatus)
      && terrain.terrainMesh == old(terrain.terrainMesh)
  {
    if terrain.initializationStatus != Initialized || terrain.terrainMesh.None? || camera.None? {
      return Idle;
    }
    var mesh := terrain.terrainMesh.value;
    if terrain.physicsMesh.None? && !terrain.physicsAggregateInitializing {
      terrain.physicsAggregateInitializing := true;
      var result := CreatePhysicsAggregate(mesh.positions, mesh.indices, camera.value, RadiusOfPhysicsAggregate, maxViewDistance);
      terrain.physicsMesh := Some(result);
      terrain.currentPhysicsCenter := Some(result.centre);
      terrain.physicsAggregateInitializing := false;
      return FirstBuild;
    } else if terrain.physicsMesh.Some? && !terrain.physicsAggregateInitializing && terrain.currentPhysicsCenter.Some? {
      if Strayed(camera.value, terrain.currentPhysicsCenter.value, maxViewDistance) {
        terrain.physicsAggregateInitializing := true;
        var result := CreatePhysicsAggregate(mesh.positions, mesh.indices, camera.value, RadiusOfPhysicsAggregate, maxViewDistance);
        terrain.physicsMesh := Some(result);
        terrain.currentPhysicsCenter := Some(result.centre);
        terrain.physicsAggregateInitializing := false;
        return Rebuild;
      }
    }
    return Idle;
  }

  /** Once a build kept no face, its centre is NaN, the distance to it is
      NaN, and no later update rebuilds the collider. */
  lemma NaNCentreNeverRebuilds(status: InitializationStatus, hasTerrainMesh: bool, camera: Option<Vec3>,
                               maxViewDistance: real)
    ensures Decide(status, hasTerrainMesh, camera, true, false, Some(NaNCentre), maxViewDistance) == Idle
  {
  }

  /** After a build the flag is down and the mesh is there, so the next
      update can only rebuild, and only after the camera strays. */
  lemma BuildOnce(status: InitializationStatus, camera: Vec3, centre: Centre, maxViewDistance: real)
    ensures Decide(status, true, Some(camera), true, false, Some(centre), maxViewDistance) != FirstBuild
    ensures Decide(status, true, Some(camera), true, false, Some(centre), maxViewDistance) == Rebuild
        <==> status == Initialized && Strayed(camera, centre, maxViewDistance)
  {
  }
}

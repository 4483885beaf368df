// The model loader: it picks the animation clip to play, gives every mesh of
// the loaded scene the shared bird shader, and seeds the particle swarm from
// the first mesh's "outer" vertices. Seed sampling takes every fifth vertex
// (through the index buffer when there is one), scores each by how close it
// lies to the shell of the geometry's bounding box, moves it to world space,
// sorts by score (highest first) and keeps the leading 70%.
module ModelLoader {
  import opened Geometry
  import opened Wrappers
  import Flowfield

  /** The attributes of a BufferGeometry that the loader reads. */
  datatype BufferGeometry = BufferGeometry(
    position: Option<seq<Vec3>>,
    index: Option<seq<nat>>,
    color: Option<seq<Vec3>>)

  /** Every index-buffer entry names an existing vertex (glTF guarantees this). */
  predicate WellFormed(g: BufferGeometry)
  {
    g.position.Some? && g.index.Some? ==>
      forall k :: 0 <= k < |g.index.value| ==> g.index.value[k] < |g.position.value|
  }

  /** Box3: an axis-aligned box, or the empty box of a geometry with no vertices. */
  datatype Box3 = EmptyBox | Box3(min: Vec3, max: Vec3)

  function MinAlong(s: seq<Vec3>, a: Axis): real
    requires |s| > 0
  {
    if |s| == 1 then Coord(s[0], a)
    else var m := MinAlong(s[1..], a); if Coord(s[0], a) < m then Coord(s[0], a) else m
  }

  function MaxAlong(s: seq<Vec3>, a: Axis): real
    requires |s| > 0
  {
    if |s| == 1 then Coord(s[0], a)
    else var m := MaxAlong(s[1..], a); if Coord(s[0], a) > m then Coord(s[0], a) else m
  }

  /** computeBoundingBox: the box spanned by every vertex of the position attribute. */
  function BoundingBox(positions: seq<Vec3>): Box3
  {
    if |positions| == 0 then EmptyBox
    else Box3(Vec3(MinAlong(positions, X), MinAlong(positions, Y), MinAlong(positions, Z)),
              Vec3(MaxAlong(positions, X), MaxAlong(positions, Y), MaxAlong(positions, Z)))
  }

  /** Box3.getCenter; the empty box reports the origin. */
  function Center(b: Box3): Vec3
  {
    if b.EmptyBox? then Vec3(0.0, 0.0, 0.0)
    else Vec3((b.min.x + b.max.x) * 0.5, (b.min.y + b.max.y) * 0.5, (b.min.z + b.max.z) * 0.5)
  }

  /** Box3.getSize; the empty box reports zero. */
  function Size(b: Box3): Vec3
  {
    if b.EmptyBox? then Vec3(0.0, 0.0, 0.0)
    else Vec3(b.max.x - b.min.x, b.max.y - b.min.y, b.max.z - b.min.z)
  }

  /** `size * 0.5 || 1`: half the extent, with a zero extent replaced by 1. */
  function HalfOrOne(size: real): real
  {
    if size * 0.5 == 0.0 then 1.0 else size * 0.5
  }

  /** Distance from the centre along one axis, in units of the half-extent. */
  function AxisScore(c: real, center: real, size: real): real
  {
    Abs((c - center) / HalfOrOne(size))
  }

  function Max3(a: real, b: real, c: real): real
  {
    if a >= b && a >= c then a else if b >= c then b else c
  }

  /**
   * The shell score of a local-space vertex against the geometry's box: the
   * largest per-axis normalised distance from the box centre.
   */
  function ShellScore(v: Vec3, box: Box3): real
  {
    var center, size := Center(box), Size(box);
    Max3(AxisScore(v.x, center.x, size.x), AxisScore(v.y, center.y, size.y), AxisScore(v.z, center.z, size.z))
  }

  /** The number of entries the sampler walks: the index count, else the vertex count. */
  function VertexCount(g: BufferGeometry): nat
    requires g.position.Some?
  {
    if g.index.Some? then |g.index.value| else |g.position.value|
  }

  /** Samples taken at i = 0, 5, 10, ... below VertexCount: ceil(VertexCount / 5) of them. */
  function SampleCount(g: BufferGeometry): nat
    requires g.position.Some?
  {
    (VertexCount(g) + 4) / 5
  }

  /** The vertex read at walk position i, resolved through the index buffer if present. */
  function VertexAt(g: BufferGeometry, i: nat): Vec3
    requires g.position.Some? && WellFormed(g) && i < VertexCount(g)
  {
    var idx := if g.index.Some? then g.index.value[i] else i;
    g.position.value[idx]
  }

  /** A sampled vertex in world space with its shell score. */
  datatype Scored = Scored(vertex: Vec3, score: real)

  lemma SampleInRange(g: BufferGeometry, k: nat)
    requires g.position.Some? && k < SampleCount(g)
    ensures 5 * k < VertexCount(g)
  {
  }

  /** The k-th sample: vertex 5k, scored in local space, moved to world space. */
  function SampleAt(g: BufferGeometry, world: Affine, k: nat): Scored
    requires g.position.Some? && WellFormed(g) && k < SampleCount(g)
  {
    SampleInRange(g, k);
    var v := VertexAt(g, 5 * k);
    Scored(Apply(world, v), ShellScore(v, BoundingBox(g.position.value)))
  }

  function Samples(g: BufferGeometry, world: Affine): (s: seq<Scored>)
    requires WellFormed(g)
    ensures g.position.None? ==> s == []
    ensures g.position.Some? ==> |s| == SampleCount(g)
  {
    if g.position.None? then []
    else seq(SampleCount(g), k requires 0 <= k < SampleCount(g) => SampleAt(g, world, k))
  }

  predicate SortedByScore(s: seq<Scored>)
  {
    forall i, j :: 0 <= i < j < |s| ==> s[i].score >= s[j].score
  }

  /**
   * Inserts x in front of the first element whose score it is at least:
   * x stays ahead of later elements of equal score.
   */
  function InsertByScore(x: Scored, s: seq<Scored>): (r: seq<Scored>)
    ensures |r| == |s| + 1
    ensures multiset(r) == multiset(s) + multiset{x}
  {
    if s == [] || x.score >= s[0].score then [x] + s
    else
      assert s == [s[0]] + s[1..];
      [s[0]] + InsertByScore(x, s[1..])
  }

  lemma {:induction false} InsertKeepsSorted(x: Scored, s: seq<Scored>)
    requires SortedByScore(s)
    ensures SortedByScore(InsertByScore(x, s))
  {
    if s == [] || x.score >= s[0].score {
      assert InsertByScore(x, s) == [x] + s;
    } else {
      InsertKeepsSorted(x, s[1..]);
      var rest := InsertByScore(x, s[1..]);
      assert InsertByScore(x, s) == [s[0]] + rest;
      forall j | 0 <= j < |rest|
        ensures s[0].score >= rest[j].score
      {
        assert rest[j] in multiset(rest);
        if rest[j] != x {
          assert rest[j] in multiset(s[1..]);
          assert rest[j] in s[1..];
        }
      }
    }
  }

  /**
   * The order `sort((a, b) => b.shellScore - a.shellScore)` leaves: descending
   * by score, and, the sort being stable, in sample order among equal scores.
   */
  function SortByScore(s: seq<Scored>): (r: seq<Scored>)
    ensures |r| == |s|
    ensures multiset(r) == multiset(s)
    ensures SortedByScore(r)
  {
    if s == [] then []
    else
      assert s == [s[0]] + s[1..];
      InsertKeepsSorted(s[0], SortByScore(s[1..]));
      InsertByScore(s[0], SortByScore(s[1..]))
  }

  /** The samples of s with score v, in the order s has them. */
  function WithScore(s: seq<Scored>, v: real): (r: seq<Scored>)
    ensures |r| <= |s|
  {
    if s == [] then []
    else (if s[0].score == v then [s[0]] else []) + WithScore(s[1..], v)
  }

  /** Inserting x puts it ahead of every element of equal score and leaves their order alone. */
  lemma {:induction false} InsertKeepsTies(x: Scored, s: seq<Scored>, v: real)
    ensures WithScore(InsertByScore(x, s), v) == (if x.score == v then [x] else []) + WithScore(s, v)
  {
    var r := InsertByScore(x, s);
    if s == [] || x.score >= s[0].score {
      assert r == [x] + s && r[1..] == s;
    } else {
      InsertKeepsTies(x, s[1..], v);
      var head := if s[0].score == v then [s[0]] else [];
      var mine := if x.score == v then [x] else [];
      assert r[0] == s[0] && r[1..] == InsertByScore(x, s[1..]);
      assert WithScore(r, v) == head + (mine + WithScore(s[1..], v));
      assert head == [] || mine == [];
    }
  }

  /** The sort is stable: for every score, the samples with that score keep their input order. */
  lemma {:induction false} SortIsStable(s: seq<Scored>, v: real)
    ensures WithScore(SortByScore(s), v) == WithScore(s, v)
  {
    if s != [] {
      SortIsStable(s[1..], v);
      InsertKeepsTies(s[0], SortByScore(s[1..]), v);
    }
  }

  /** Math.floor(n * 0.7), with 0.7 taken as the exact fraction 7/10. */
  function OuterCount(n: nat): (k: nat)
    ensures k <= n
  {
    7 * n / 10
  }

  function Vertices(s: seq<Scored>): (r: seq<Vec3>)
    ensures |r| == |s|
  {
    seq(|s|, k requires 0 <= k < |s| => s[k].vertex)
  }

  /** What extractOuterVertices returns: the world positions of the top 70% of samples by score. */
  function OuterVertices(g: BufferGeometry, world: Affine): seq<Vec3>
    requires WellFormed(g)
  {
    var sorted := SortByScore(Samples(g, world));
    Vertices(sorted[..OuterCount(|sorted|)])
  }

  lemma CeilFifth(n: nat, m: nat)
    requires n <= 5 * m <= n + 4
    ensures m == (n + 4) / 5
  {
  }

  /** extractOuterVertices: the sampling loop, then the library sort and the slice. */
  method ExtractOuterVertices(g: BufferGeometry, world: Affine) returns (outer: seq<Vec3>)
    requires WellFormed(g)
    ensures outer == OuterVertices(g, world)
  {
    if g.position.None? {
      return [];
    }
    var positions := g.position.value;
    var box := BoundingBox(positions);
    var scored: seq<Scored> := [];
    var vertexCount := if g.index.Some? then |g.index.value| else |positions|;
    var i := 0;
    while i < vertexCount
      invariant i == 5 * |scored| <= vertexCount + 4
      invariant forall k :: 0 <= k < |scored| ==> k < SampleCount(g) && scored[k] == SampleAt(g, world, k)
    {
      var idx := if g.index.Some? then g.index.value[i] else i;
      var vertex := positions[idx];
      var score := ShellScore(vertex, box);
      assert |scored| < SampleCount(g) && SampleAt(g, world, |scored|) == Scored(Apply(world, vertex), score);
      scored := scored + [Scored(Apply(world, vertex), score)];
      i := i + 5;
    }
    CeilFifth(vertexCount, |scored|);
    assert scored == Samples(g, world);
    var sorted := SortByScore(scored);
    var outerCount := OuterCount(|sorted|);
    outer := Vertices(sorted[..outerCount]);
  }

  // ---------------------------------------------------------------------------
  // Properties of the seed sampler.

  /** Without a position attribute nothing is sampled. */
  lemma NoPositionNoSeeds(g: BufferGeometry, world: Affine)
    requires g.position.None?
    ensures OuterVertices(g, world) == []
  {
  }

  /** The sampler keeps floor(0.7 * n) of its n = ceil(VertexCount / 5) samples. */
  lemma OuterVerticesCount(g: BufferGeometry, world: Affine)
    requires WellFormed(g) && g.position.Some?
    ensures |OuterVertices(g, world)| == OuterCount(SampleCount(g)) == 7 * ((VertexCount(g) + 4) / 5) / 10
  {
  }

  /**
   * The seeds are a top-score prefix: the sorted samples are a permutation of
   * the samples, the seeds are the world positions of its first
   * OuterCount(n) entries, and no kept sample scores below a dropped one.
   */
  lemma OuterVerticesAreTopQuantile(g: BufferGeometry, world: Affine)
    requires WellFormed(g)
    ensures var sorted := SortByScore(Samples(g, world));
      var keep := OuterCount(|sorted|);
      multiset(sorted) == multiset(Samples(g, world)) &&
      OuterVertices(g, world) == Vertices(sorted[..keep]) &&
      forall j, m :: 0 <= j < keep <= m < |sorted| ==> sorted[j].score >= sorted[m].score
  {
  }

  /** Every seed is the world-space image of a vertex the sampler visited. */
  lemma SeedsComeFromSamples(g: BufferGeometry, world: Affine, j: nat)
    requires WellFormed(g) && j < |OuterVertices(g, world)|
    ensures g.position.Some?
    ensures exists k :: 0 <= k < SampleCount(g) && OuterVertices(g, world)[j] == Apply(world, VertexAt(g, 5 * k))
  {
    var samples := Samples(g, world);
    var sorted := SortByScore(samples);
    var e := sorted[j];
    assert e in multiset(sorted);
    assert e in samples;
    var k :| 0 <= k < |samples| && samples[k] == e;
    assert OuterVertices(g, world)[j] == e.vertex;
  }

  lemma {:induction false} MinMaxBound(s: seq<Vec3>, a: Axis, k: nat)
    requires k < |s|
    ensures MinAlong(s, a) <= Coord(s[k], a) <= MaxAlong(s, a)
  {
    if |s| > 1 && k > 0 {
      MinMaxBound(s[1..], a, k - 1);
    }
  }

  lemma AxisScoreInUnitRange(c: real, lo: real, hi: real)
    requires lo <= c <= hi
    ensures 0.0 <= AxisScore(c, (lo + hi) * 0.5, hi - lo) <= 1.0
  {
    var half := HalfOrOne(hi - lo);
    if (hi - lo) * 0.5 == 0.0 {
      assert c - (lo + hi) * 0.5 == 0.0;
    } else {
      assert half == (hi - lo) * 0.5 > 0.0;
      assert -half <= c - (lo + hi) * 0.5 <= half;
      DivideWithin(c - (lo + hi) * 0.5, half);
    }
  }

  lemma DivideWithin(d: real, h: real)
    requires h > 0.0 && -h <= d <= h
    ensures -1.0 <= d / h <= 1.0
  {
    var q := d / h;
    assert q * h == d;
    assert (1.0 - q) * h == h - d;
    assert (q + 1.0) * h == d + h;
    SignOfFactor(1.0 - q, h);
    SignOfFactor(q + 1.0, h);
  }

  /** Scored against the whole geometry's box, a vertex of the geometry scores between 0 and 1. */
  lemma ShellScoreInUnitRange(positions: seq<Vec3>, k: nat)
    requires k < |positions|
    ensures 0.0 <= ShellScore(positions[k], BoundingBox(positions)) <= 1.0
  {
    MinMaxBound(positions, X, k);
    MinMaxBound(positions, Y, k);
    MinMaxBound(positions, Z, k);
    var b := BoundingBox(positions);
    AxisScoreInUnitRange(positions[k].x, b.min.x, b.max.x);
    AxisScoreInUnitRange(positions[k].y, b.min.y, b.max.y);
    AxisScoreInUnitRange(positions[k].z, b.min.z, b.max.z);
  }

  /** Every sample's shell score is defined and lies in [0, 1]. */
  lemma SampleScoresInUnitRange(g: BufferGeometry, world: Affine, k: nat)
    requires WellFormed(g) && k < |Samples(g, world)|
    ensures 0.0 <= Samples(g, world)[k].score <= 1.0
  {
    SampleInRange(g, k);
    var i := 5 * k;
    var idx := if g.index.Some? then g.index.value[i] else i;
    ShellScoreInUnitRange(g.position.value, idx);
  }

  // ---------------------------------------------------------------------------
  // Translation invariance and independence from the world matrix.

  function Translated(s: seq<Vec3>, d: Vec3): (r: seq<Vec3>)
    ensures |r| == |s|
  {
    seq(|s|, k requires 0 <= k < |s| => Add(s[k], d))
  }

  /** The geometry with every vertex of its position attribute moved by d. */
  function TranslateGeometry(g: BufferGeometry, d: Vec3): BufferGeometry
  {
    g.(position := if g.position.Some? then Some(Translated(g.position.value, d)) else None)
  }

  lemma {:induction false} TranslatedMinMax(s: seq<Vec3>, d: Vec3, a: Axis)
    requires |s| > 0
    ensures MinAlong(Translated(s, d), a) == MinAlong(s, a) + Coord(d, a)
    ensures MaxAlong(Translated(s, d), a) == MaxAlong(s, a) + Coord(d, a)
  {
    if |s| > 1 {
      TranslatedMinMax(s[1..], d, a);
      assert Translated(s, d)[1..] == Translated(s[1..], d);
    }
  }

  lemma TranslatedShellScore(s: seq<Vec3>, d: Vec3, v: Vec3)
    requires |s| > 0
    ensures ShellScore(Add(v, d), BoundingBox(Translated(s, d))) == ShellScore(v, BoundingBox(s))
  {
    TranslatedMinMax(s, d, X);
    TranslatedMinMax(s, d, Y);
    TranslatedMinMax(s, d, Z);
    var b, b' := BoundingBox(s), BoundingBox(Translated(s, d));
    assert Center(b') == Add(Center(b), d);
    assert Size(b') == Size(b);
  }

  function Scores(s: seq<Scored>): (r: seq<real>)
    ensures |r| == |s|
  {
    seq(|s|, k requires 0 <= k < |s| => s[k].score)
  }

  /**
   * Shell scores are taken in local space against the box centre, before the
   * world transform: moving every vertex by the same offset, or changing the
   * world matrix, changes no score.
   */
  lemma ScoresTranslationInvariant(g: BufferGeometry, d: Vec3, world: Affine, world': Affine)
    requires WellFormed(g)
    ensures WellFormed(TranslateGeometry(g, d))
    ensures Scores(Samples(TranslateGeometry(g, d), world')) == Scores(Samples(g, world))
  {
    var g' := TranslateGeometry(g, d);
    if g.position.Some? {
      var box := BoundingBox(g.position.value);
      forall k | 0 <= k < SampleCount(g)
        ensures Samples(g', world')[k].score == Samples(g, world)[k].score
      {
        SampleInRange(g, k);
        TranslatedShellScore(g.position.value, d, VertexAt(g, 5 * k));
      }
    }
  }

  /** Replaces each sample's vertex by its image under f, keeping its score. */
  function Relabel(f: Vec3 -> Vec3, s: seq<Scored>): (r: seq<Scored>)
    ensures |r| == |s|
    ensures forall k :: 0 <= k < |s| ==> r[k] == Scored(f(s[k].vertex), s[k].score)
  {
    if s == [] then [] else [Scored(f(s[0].vertex), s[0].score)] + Relabel(f, s[1..])
  }

  lemma {:induction false} InsertRelabel(f: Vec3 -> Vec3, x: Scored, s: seq<Scored>)
    ensures InsertByScore(Scored(f(x.vertex), x.score), Relabel(f, s)) == Relabel(f, InsertByScore(x, s))
  {
    var y := Scored(f(x.vertex), x.score);
    if s == [] || x.score >= s[0].score {
      assert ([x] + s)[1..] == s;
      assert Relabel(f, [x] + s) == [y] + Relabel(f, s);
    } else {
      InsertRelabel(f, x, s[1..]);
      var head := Scored(f(s[0].vertex), s[0].score);
      assert Relabel(f, s) == [head] + Relabel(f, s[1..]);
      assert Relabel(f, InsertByScore(x, s)) == [head] + Relabel(f, InsertByScore(x, s[1..]));
    }
  }

  /** The sort looks only at scores, so relabelling vertices commutes with it. */
  lemma {:induction false} SortRelabel(f: Vec3 -> Vec3, s: seq<Scored>)
    ensures SortByScore(Relabel(f, s)) == Relabel(f, SortByScore(s))
  {
    if s != [] {
      SortRelabel(f, s[1..]);
      assert Relabel(f, s)[1..] == Relabel(f, s[1..]);
      InsertRelabel(f, s[0], SortByScore(s[1..]));
    }
  }

  function MapVertices(f: Vec3 -> Vec3, s: seq<Vec3>): (r: seq<Vec3>)
    ensures |r| == |s|
  {
    seq(|s|, k requires 0 <= k < |s| => f(s[k]))
  }

  lemma VerticesRelabelPrefix(f: Vec3 -> Vec3, t: seq<Scored>, n: nat)
    requires n <= |t|
    ensures Vertices(Relabel(f, t)[..n]) == MapVertices(f, Vertices(t[..n]))
  {
    var lhs, rhs := Vertices(Relabel(f, t)[..n]), MapVertices(f, Vertices(t[..n]));
    forall k | 0 <= k < n
      ensures lhs[k] == rhs[k]
    {
      assert Relabel(f, t)[k] == Scored(f(t[k].vertex), t[k].score);
    }
  }

  lemma SelectionRelabel(f: Vec3 -> Vec3, s: seq<Scored>)
    ensures var sorted := SortByScore(s);
      Vertices(SortByScore(Relabel(f, s))[..OuterCount(|sorted|)]) ==
      MapVertices(f, Vertices(sorted[..OuterCount(|sorted|)]))
  {
    var sorted := SortByScore(s);
    SortRelabel(f, s);
    VerticesRelabelPrefix(f, sorted, OuterCount(|sorted|));
  }

  /**
   * The world matrix only moves the selected seeds: the seeds in world space
   * are the images of the seeds selected with the identity matrix.
   */
  lemma OuterVerticesWorld(g: BufferGeometry, world: Affine)
    requires WellFormed(g)
    ensures OuterVertices(g, world) == MapVertices(v => Apply(world, v), OuterVertices(g, Identity()))
  {
    var f := v => Apply(world, v);
    SamplesWorld(g, world, f);
    SelectionRelabel(f, Samples(g, Identity()));
  }

  /** The samples taken under a world matrix are the identity-matrix samples with their vertices mapped by it. */
  lemma SamplesWorld(g: BufferGeometry, world: Affine, f: Vec3 -> Vec3)
    requires WellFormed(g)
    requires forall v :: f(v) == Apply(world, v)
    ensures Samples(g, world) == Relabel(f, Samples(g, Identity()))
  {
    if g.position.Some? {
      var local, placed := Samples(g, Identity()), Samples(g, world);
      forall k | 0 <= k < |local|
        ensures placed[k] == Relabel(f, local)[k]
      {
        SampleInRange(g, k);
        var v := VertexAt(g, 5 * k);
        ApplyIdentity(v);
        assert local[k] == Scored(v, placed[k].score);
        assert placed[k].vertex == f(v);
      }
      assert placed == Relabel(f, local);
    }
  }

  /** Moving every vertex by d moves the selected local-space seeds by d and selects the same ones. */
  lemma OuterVerticesTranslate(g: BufferGeometry, d: Vec3)
    requires WellFormed(g)
    ensures WellFormed(TranslateGeometry(g, d))
    ensures OuterVertices(TranslateGeometry(g, d), Identity()) ==
            MapVertices(v => Add(v, d), OuterVertices(g, Identity()))
  {
    var g' := TranslateGeometry(g, d);
    var f := v => Add(v, d);
    var local := Samples(g, Identity());
    ScoresTranslationInvariant(g, d, Identity(), Identity());
    forall k | 0 <= k < |local|
      ensures Samples(g', Identity())[k] == Relabel(f, local)[k]
    {
      assert Scores(Samples(g', Identity()))[k] == Scores(local)[k];
      ApplyIdentity(local[k].vertex);
      SampleInRange(g, k);
      ApplyIdentity(VertexAt(g', 5 * k));
    }
    assert Samples(g', Identity()) == Relabel(f, local);
    SelectionRelabel(f, local);
  }

  // ---------------------------------------------------------------------------
  // Per-vertex attribute buffers.

  /**
   * addCenterAttribute: the 'center' buffer gives each of the three vertices
   * of a triangle that triangle's centroid. The position count must be a
   * multiple of 3, as in any non-indexed triangle list; otherwise the
   * source's last typed-array write throws a RangeError.
   */
  method AddCenterAttribute(g: BufferGeometry) returns (centers: array<real>)
    requires g.position.Some? && |g.position.value| % 3 == 0
    ensures fresh(centers) && centers.Length == 3 * |g.position.value|
    ensures forall v :: 0 <= v < |g.position.value| ==>
      Vec3At(centers, v) == TriangleCentroid(g.position.value, v)
  {
    var positions := g.position.value;
    centers := new real[3 * |positions|];
    var i := 0;
    while i < |positions|
      invariant 0 <= i <= |positions| && i % 3 == 0
      invariant forall v :: 0 <= v < i ==> Vec3At(centers, v) == TriangleCentroid(positions, v)
    {
      var c := Centroid(positions[i], positions[i + 1], positions[i + 2]);
      assert TriangleCentroid(positions, i) == TriangleCentroid(positions, i + 1) == TriangleCentroid(positions, i + 2) == c;
      SetTriangle(centers, i, c);
      i := i + 3;
    }
  }

  /** Writes c to the three items of the triangle starting at item i and leaves every other item as it was. */
  method SetTriangle(a: array<real>, i: nat, c: Vec3)
    requires 3 * i + 9 <= a.Length
    modifies a
    ensures forall v: nat :: i <= v < i + 3 ==> Vec3At(a, v) == c
    ensures forall w: nat :: 3 * w + 3 <= a.Length && !(i <= w < i + 3) ==> Vec3At(a, w) == old(Vec3At(a, w))
  {
    SetVec3At(a, i, c);
    SetVec3At(a, i + 1, c);
    SetVec3At(a, i + 2, c);
  }

  /** The colour addVertexColorAttribute gives vertex v: the geometry's own colour if it has one, else red. */
  function VertexColor(g: BufferGeometry, v: nat): Vec3
    requires g.color.Some? ==> v < |g.color.value|
  {
    if g.color.Some? then g.color.value[v] else Vec3(1.0, 0.0, 0.0)
  }

  /** addVertexColorAttribute: one xyz colour per position, copied or defaulted to red. */
  method AddVertexColorAttribute(g: BufferGeometry) returns (colors: array<real>)
    requires g.position.Some? && (g.color.Some? ==> |g.color.value| >= |g.position.value|)
    ensures fresh(colors) && colors.Length == 3 * |g.position.value|
    ensures forall v :: 0 <= v < |g.position.value| ==> Vec3At(colors, v) == VertexColor(g, v)
  {
    var count := |g.position.value|;
    colors := new real[3 * count];
    if g.color.Some? {
      var source := g.color.value;
      for i := 0 to count
        invariant forall v :: 0 <= v < i ==> Vec3At(colors, v) == VertexColor(g, v)
      {
        colors[3 * i], colors[3 * i + 1], colors[3 * i + 2] := source[i].x, source[i].y, source[i].z;
      }
    } else {
      for i := 0 to count
        invariant forall v :: 0 <= v < i ==> Vec3At(colors, v) == VertexColor(g, v)
      {
        colors[3 * i], colors[3 * i + 1], colors[3 * i + 2] := 1.0, 0.0, 0.0;
      }
    }
  }

  // ---------------------------------------------------------------------------
  // The loader object.

  /**
   * The clip the mixer plays: clip 24 when the file has more than 24, else
   * the first clip, and none for a file without animations.
   */
  function ChosenClip(animationCount: nat): (clip: Option<nat>)
    ensures clip.None? <==> animationCount == 0
    ensures clip.Some? ==> clip.value < animationCount
    ensures clip.Some? ==> clip.value == 24 || clip.value == 0
  {
    if animationCount > 24 then Some(24)
    else if animationCount > 0 then Some(0)
    else None
  }

  /** A mesh's material: the one it was loaded with (maybe textured), or the shared bird shader. */
  datatype Material = LoadedMaterial(texture: Option<nat>) | BirdShader

  class Mesh {
    const geometry: BufferGeometry
    /** The mesh's world matrix, up to date when the loader reads it. */
    const matrixWorld: Affine
    const isSkinnedMesh: bool
    var material: Material

    constructor (geometry: BufferGeometry, matrixWorld: Affine, isSkinnedMesh: bool, material: Material)
      ensures this.geometry == geometry && this.matrixWorld == matrixWorld
      ensures this.isSkinnedMesh == isSkinnedMesh && this.material == material
    {
      this.geometry := geometry;
      this.matrixWorld := matrixWorld;
      this.isSkinnedMesh := isSkinnedMesh;
      this.material := material;
    }
  }

  /** The uniforms and flags of the shared bird shader that the loader sets. */
  class BirdShaderMaterial {
    var uTexture: Option<nat>
    var uHasTexture: bool
    var skinning: bool

    constructor ()
      ensures uTexture == None && !uHasTexture && !skinning
    {
      uTexture, uHasTexture, skinning := None, false, false;
    }
  }

  /** The particle system processMesh builds, seeded from the given vertices and anchored to the animated scene. */
  method NewParticleSystem(seeds: seq<Vec3>, anchor: Object3D, random: seq<real>, devicePixelRatio: real)
    returns (system: Flowfield.FlowfieldParticleSystem)
    requires |seeds| > 0
    requires Flowfield.UnitRandoms(random) && |random| >= Flowfield.DrawsPerTexel * Flowfield.Particles
    ensures fresh(system) && system.birdVertices == seeds && system.birdMesh == anchor
  {
    system := new Flowfield.FlowfieldParticleSystem(seeds, anchor, random, devicePixelRatio);
  }

  class Loader {
    const shaderMaterial: BirdShaderMaterial
    var horseMesh: Mesh?
    var flowfieldSystem: Flowfield.FlowfieldParticleSystem?
    var animatedScene: Object3D?
    /** The clip the animation mixer plays, if a mixer was made. */
    var mixerClip: Option<nat>

    /**
     * A particle system exists only once a horse mesh was chosen, and it was
     * seeded with that mesh's non-empty outer vertices.
     */
    ghost predicate Valid()
      reads this
    {
      (horseMesh != null ==> WellFormed(horseMesh.geometry)) &&
      (flowfieldSystem != null ==>
        horseMesh != null &&
        flowfieldSystem.birdVertices == OuterVertices(horseMesh.geometry, horseMesh.matrixWorld) &&
        |flowfieldSystem.birdVertices| > 0)
    }

    constructor (shaderMaterial: BirdShaderMaterial)
      ensures Valid() && this.shaderMaterial == shaderMaterial
      ensures horseMesh == null && flowfieldSystem == null && animatedScene == null && mixerClip == None
    {
      this.shaderMaterial := shaderMaterial;
      horseMesh, flowfieldSystem, animatedScene, mixerClip := null, null, null, None;
    }

    /**
     * processMesh: the mesh gets the shared shader (taking over its texture
     * map, if any), and the first mesh processed becomes the horse mesh; the
     * particle system is built from that mesh alone, and only when its outer
     * vertices are not empty.
     */
    method ProcessMesh(child: Mesh, random: seq<real>, devicePixelRatio: real)
      requires Valid() && WellFormed(child.geometry) && animatedScene != null
      requires Flowfield.UnitRandoms(random) && |random| >= Flowfield.DrawsPerTexel * Flowfield.Particles
      modifies this, shaderMaterial, child
      ensures Valid()
      ensures child.material == BirdShader
      ensures old(child.material) != BirdShader && old(child.material).texture.Some? ==>
        shaderMaterial.uTexture == old(child.material).texture && shaderMaterial.uHasTexture
      ensures !(old(child.material) != BirdShader && old(child.material).texture.Some?) ==>
        shaderMaterial.uTexture == old(shaderMaterial.uTexture) && shaderMaterial.uHasTexture == old(shaderMaterial.uHasTexture)
      ensures shaderMaterial.skinning == (old(shaderMaterial.skinning) || child.isSkinnedMesh)
      ensures old(horseMesh) != null ==> horseMesh == old(horseMesh) && flowfieldSystem == old(flowfieldSystem)
      ensures old(horseMesh) == null ==> horseMesh == child
      ensures old(horseMesh) == null && |OuterVertices(child.geometry, child.matrixWorld)| > 0 ==>
        flowfieldSystem != null && fresh(flowfieldSystem) && flowfieldSystem.birdMesh == animatedScene
      ensures old(horseMesh) == null && |OuterVertices(child.geometry, child.matrixWorld)| == 0 ==>
        flowfieldSystem == old(flowfieldSystem)
      ensures animatedScene == old(animatedScene) && mixerClip == old(mixerClip)
    {
      ApplyShader(child);
      if horseMesh == null {
        AdoptHorse(child, random, devicePixelRatio);
      }
    }

    /** The first part of processMesh: the shared shader takes over the mesh's texture map and, for a skinned mesh, turns skinning on. */
    method ApplyShader(child: Mesh)
      modifies shaderMaterial, child
      ensures child.material == BirdShader
      ensures old(child.material) != BirdShader && old(child.material).texture.Some? ==>
        shaderMaterial.uTexture == old(child.material).texture && shaderMaterial.uHasTexture
      ensures !(old(child.material) != BirdShader && old(child.material).texture.Some?) ==>
        shaderMaterial.uTexture == old(shaderMaterial.uTexture) && shaderMaterial.uHasTexture == old(shaderMaterial.uHasTexture)
      ensures shaderMaterial.skinning == (old(shaderMaterial.skinning) || child.isSkinnedMesh)
    {
      var original := child.material;
      if original != BirdShader && original.texture.Some? {
        shaderMaterial.uTexture := original.texture;
        shaderMaterial.uHasTexture := true;
      }
      child.material := BirdShader;
      if child.isSkinnedMesh {
        shaderMaterial.skinning := true;
      }
    }

    /** The guarded part of processMesh: the first mesh becomes the horse mesh and seeds the particle system when its seeds are non-empty. */
    method AdoptHorse(child: Mesh, random: seq<real>, devicePixelRatio: real)
      requires Valid() && horseMesh == null && WellFormed(child.geometry) && animatedScene != null
      requires Flowfield.UnitRandoms(random) && |random| >= Flowfield.DrawsPerTexel * Flowfield.Particles
      modifies this
      ensures Valid() && horseMesh == child
      ensures |OuterVertices(child.geometry, child.matrixWorld)| > 0 ==>
        flowfieldSystem != null && fresh(flowfieldSystem) && flowfieldSystem.birdMesh == animatedScene
      ensures |OuterVertices(child.geometry, child.matrixWorld)| == 0 ==> flowfieldSystem == old(flowfieldSystem)
      ensures animatedScene == old(animatedScene) && mixerClip == old(mixerClip)
    {
      horseMesh := child;
      var horseVertices := ExtractOuterVertices(child.geometry, child.matrixWorld);
      if |horseVertices| > 0 {
        flowfieldSystem := NewParticleSystem(horseVertices, animatedScene, random, devicePixelRatio);
      }
    }

    /**
     * The state of load after the traversal has processed the first i
     * meshes: the scene is placed and its clip chosen, those meshes carry the
     * shared shader, a horse mesh chosen before stays, and otherwise the
     * first mesh is the horse mesh, with a particle system exactly when
     * `seeded` (which load sets to whether that mesh's seeds are non-empty).
     */
    ghost predicate Traversed(meshes: seq<Mesh>, i: nat, scene: Object3D, clip: Option<nat>,
                              horse0: Mesh?, system0: Flowfield.FlowfieldParticleSystem?, seeded: bool)
      reads this, scene, set m | m in meshes
    {
      i <= |meshes| && Valid() &&
      animatedScene == scene && scene.position == Vec3(0.0, -2.0, 0.0) && mixerClip == clip &&
      (forall j :: 0 <= j < i ==> meshes[j].material == BirdShader) &&
      (horse0 != null ==> horseMesh == horse0 && flowfieldSystem == system0) &&
      (horse0 == null && i == 0 ==> horseMesh == null && flowfieldSystem == null) &&
      (horse0 == null && i > 0 ==>
        horseMesh == meshes[0] && (flowfieldSystem != null <==> seeded))
    }

    /** One step of the traversal in load: the next mesh is processed. */
    method TraverseNext(meshes: seq<Mesh>, i: nat, random: seq<real>, devicePixelRatio: real,
                        ghost scene: Object3D, ghost clip: Option<nat>,
                        ghost horse0: Mesh?, ghost system0: Flowfield.FlowfieldParticleSystem?, ghost seeded: bool)
      requires i < |meshes| && Traversed(meshes, i, scene, clip, horse0, system0, seeded)
      requires WellFormed(meshes[i].geometry)
      requires i == 0 ==> (seeded <==> |OuterVertices(meshes[0].geometry, meshes[0].matrixWorld)| > 0)
      requires Flowfield.UnitRandoms(random) && |random| >= Flowfield.DrawsPerTexel * Flowfield.Particles
      modifies this, shaderMaterial, meshes[i]
      ensures Traversed(meshes, i + 1, scene, clip, horse0, system0, seeded)
    {
      var child := meshes[i];
      ghost var firstMesh := horseMesh == null;
      ProcessMesh(child, random, devicePixelRatio);
      if firstMesh {
        assert horse0 == null && i == 0 && horseMesh == meshes[0];
      }
    }

    /**
     * The success callback of load: place the scene, start a mixer on the
     * chosen clip when the file has animations (otherwise an earlier mixer
     * keeps playing), process every mesh in traversal order and hand back the
     * particle system.
     */
    method Load(animationCount: nat, scene: Object3D, meshes: seq<Mesh>, random: seq<real>, devicePixelRatio: real)
      returns (system: Flowfield.FlowfieldParticleSystem?)
      requires Valid()
      requires forall m :: m in meshes ==> WellFormed(m.geometry)
      requires Flowfield.UnitRandoms(random) && |random| >= Flowfield.DrawsPerTexel * Flowfield.Particles
      modifies this, shaderMaterial, scene, set m | m in meshes
      ensures Valid() && system == flowfieldSystem
      ensures animatedScene == scene && scene.position == Vec3(0.0, -2.0, 0.0)
      ensures mixerClip == if animationCount == 0 then old(mixerClip) else ChosenClip(animationCount)
      ensures forall m :: m in meshes ==> m.material == BirdShader
      ensures old(horseMesh) != null ==> horseMesh == old(horseMesh) && flowfieldSystem == old(flowfieldSystem)
      ensures old(horseMesh) == null && |meshes| > 0 ==>
        horseMesh == meshes[0] &&
        (flowfieldSystem != null <==> |OuterVertices(meshes[0].geometry, meshes[0].matrixWorld)| > 0)
      ensures old(horseMesh) == null && |meshes| == 0 ==> horseMesh == null && flowfieldSystem == null
    {
      scene.position := Vec3(0.0, -2.0, 0.0);
      animatedScene := scene;
      if animationCount > 0 {
        mixerClip := ChosenClip(animationCount);
      }
      ghost var clip := mixerClip;
      ghost var seeded := |meshes| > 0 && |OuterVertices(meshes[0].geometry, meshes[0].matrixWorld)| > 0;
      var i := 0;
      while i < |meshes|
        invariant i <= |meshes|
        invariant Traversed(meshes, i, scene, clip, old(horseMesh), old(flowfieldSystem), seeded)
      {
        TraverseNext(meshes, i, random, devicePixelRatio, scene, clip, old(horseMesh), old(flowfieldSystem), seeded);
        i := i + 1;
      }
      system := flowfieldSystem;
    }
  }
}

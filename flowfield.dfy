// The CPU side of the flow-field particle swarm: the W x W state texture is
// seeded from the bird's surface vertices, each particle is given the fixed
// texture coordinate at which the renderer samples its state, and every frame
// the simulation's uniforms receive the clock and the anchor position. The
// flow-field step itself runs in a shader on the GPU and is not modelled.
module Flowfield {
  import opened Geometry
  import opened Wrappers

  /** Side of the square state texture. */
  const Width: nat := 256

  /** One particle per texel. */
  const Particles: nat := Width * Width

  lemma ParticleCount()
    ensures Particles == 65536
  {
  }

  /** Math.random() calls made per texel: seed pick, three jitters, phase. */
  const DrawsPerTexel: nat := 5

  /** A stream of Math.random() results, each in [0, 1). */
  predicate UnitRandoms(rs: seq<real>)
  {
    forall k :: 0 <= k < |rs| ==> 0.0 <= rs[k] < 1.0
  }

  lemma ScaledUnitRange(r: real, n: nat)
    requires 0.0 <= r < 1.0 && n > 0
    ensures 0.0 <= r * n as real < n as real
  {
    NonNegProduct(r, n as real);
    assert (1.0 - r) * n as real > 0.0;
  }

  /** Math.floor(Math.random() * n): an index into a list of length n. */
  function PickIndex(r: real, n: nat): (i: nat)
    requires 0.0 <= r < 1.0 && n > 0
    ensures i < n
  {
    ScaledUnitRange(r, n);
    (r * n as real).Floor
  }

  /** One RGBA texel of the state texture: xyz position and the phase in w. */
  datatype Texel = Texel(position: Vec3, phase: real)

  /**
   * The texel fillInitialPositions writes at texel t, given the random
   * stream: the seed picked by draw 5t, plus draws 5t+1..5t+3 minus 0.5 on
   * each axis, and draw 5t+4 as the phase.
   */
  function InitialTexel(seeds: seq<Vec3>, rs: seq<real>, t: nat): Texel
    requires |seeds| > 0 && UnitRandoms(rs) && DrawsPerTexel * t + DrawsPerTexel <= |rs|
  {
    var v := seeds[PickIndex(rs[5 * t], |seeds|)];
    Texel(Vec3(v.x + (rs[5 * t + 1] - 0.5), v.y + (rs[5 * t + 2] - 0.5), v.z + (rs[5 * t + 3] - 0.5)),
          rs[5 * t + 4])
  }

  /** p lies in the half-open jitter cube [-0.5, 0.5)^3 around v. */
  predicate WithinJitter(p: Vec3, v: Vec3)
  {
    -0.5 <= p.x - v.x < 0.5 && -0.5 <= p.y - v.y < 0.5 && -0.5 <= p.z - v.z < 0.5
  }

  /** Every initial texel sits within the jitter cube of some seed vertex, with a phase in [0, 1). */
  lemma InitialTexelNearSeed(seeds: seq<Vec3>, rs: seq<real>, t: nat)
    requires |seeds| > 0 && UnitRandoms(rs) && DrawsPerTexel * t + DrawsPerTexel <= |rs|
    ensures exists k :: 0 <= k < |seeds| && WithinJitter(InitialTexel(seeds, rs, t).position, seeds[k])
    ensures 0.0 <= InitialTexel(seeds, rs, t).phase < 1.0
  {
    var k := PickIndex(rs[5 * t], |seeds|);
    assert WithinJitter(InitialTexel(seeds, rs, t).position, seeds[k]);
  }

  function TexelAt(a: array<real>, t: nat): Texel
    requires 4 * t + 4 <= a.Length
    reads a
  {
    Texel(Vec3(a[4 * t], a[4 * t + 1], a[4 * t + 2]), a[4 * t + 3])
  }

  /** Writes the four channels of texel t and leaves every other texel as it was. */
  method SetTexelAt(a: array<real>, t: nat, x: Texel)
    requires 4 * t + 4 <= a.Length
    modifies a
    ensures TexelAt(a, t) == x
    ensures forall u: nat :: 4 * u + 4 <= a.Length && u != t ==> TexelAt(a, u) == old(TexelAt(a, u))
  {
    a[4 * t], a[4 * t + 1], a[4 * t + 2], a[4 * t + 3] := x.position.x, x.position.y, x.position.z, x.phase;
  }

  /** A particle's texture coordinate. */
  datatype Uv = Uv(u: real, v: real)

  /** Particle i samples texel column i mod w, row i div w, both divided by w. */
  function GridUv(i: nat, w: nat): Uv
    requires w > 0
  {
    Uv((i % w) as real / w as real, (i / w) as real / w as real)
  }

  /** The grid cell a texture coordinate names: the inverse of GridUv. */
  function GridCell(uv: Uv, w: nat): int
  {
    Unscale(uv.u, w) + w * Unscale(uv.v, w)
  }

  /** The texel column (or row) a coordinate falls in. */
  function Unscale(c: real, w: nat): int
  {
    (c * (w as real)).Floor
  }

  lemma GridUvDecodes(i: nat, w: nat)
    requires w > 0
    ensures GridCell(GridUv(i, w), w) == i
  {
    CellOfScaled(i % w, i / w, w);
    DivMod(i, w);
  }

  lemma CellOfScaled(col: nat, row: nat, w: nat)
    requires w > 0
    ensures GridCell(Uv(col as real / w as real, row as real / w as real), w) == col + w * row
  {
    ScaledBack(col, w);
    ScaledBack(row, w);
  }

  lemma ScaledBack(n: nat, w: nat)
    requires w > 0
    ensures Unscale(n as real / w as real, w) == n
  {
    assert (n as real / w as real) * (w as real) == n as real;
  }

  lemma DivMod(i: nat, w: nat)
    requires w > 0
    ensures i == i % w + w * (i / w)
  {
  }

  /** No two particles share a texture coordinate. */
  lemma GridUvInjective(i: nat, j: nat, w: nat)
    requires w > 0 && GridUv(i, w) == GridUv(j, w)
    ensures i == j
  {
    GridUvDecodes(i, w);
    GridUvDecodes(j, w);
  }

  /** For the W*W particles, both coordinates lie in [0, 1). */
  lemma GridUvInUnitSquare(i: nat, w: nat)
    requires w > 0 && i < w * w
    ensures 0.0 <= GridUv(i, w).u < 1.0 && 0.0 <= GridUv(i, w).v < 1.0
  {
    RowBelowWidth(i, w);
    FractionBelowOne(i % w, w);
    FractionBelowOne(i / w, w);
  }

  /** Of the first w * w particles, every row index is below w. */
  lemma RowBelowWidth(i: nat, w: nat)
    requires w > 0 && i < w * w
    ensures i / w < w
  {
    var q := i / w;
    DivMod(i, w);
    assert (w - q) * w == w * w - q * w > 0;
    PositiveFactor(w - q, w);
  }

  lemma FractionBelowOne(n: nat, w: nat)
    requires n < w
    ensures 0.0 <= n as real / w as real < 1.0
  {
    var f := n as real / w as real;
    assert f * w as real == n as real;
    assert (1.0 - f) * w as real == (w - n) as real;
  }

  function UvAt(a: array<real>, i: nat): Uv
    requires 2 * i + 2 <= a.Length
    reads a
  {
    Uv(a[2 * i], a[2 * i + 1])
  }

  class FlowfieldParticleSystem {
    /** The seed vertices handed over by the model loader. */
    const birdVertices: seq<Vec3>
    /** The animated scene whose position anchors the swarm. */
    const birdMesh: Object3D

    // Simulation uniforms (positionVariable.material.uniforms).
    /** The initial state texture, kept as the tether base (uBase). */
    const uBase: array<real>
    var uTime: real
    var uDeltaTime: real
    var uInfluence: real
    var uStrength: real
    var uFrequency: real
    var uBirdPosition: Vec3

    // Renderer geometry and uniforms.
    var positions: array<real>
    var uvs: array<real>
    /** The texture the renderer samples; null until the first update. */
    var uPositions: Option<nat>
    var renderTime: real
    var uPixelRatio: real
    var uSize: real

    ghost predicate Valid()
      reads this
    {
      uBase.Length == 4 * Particles &&
      positions.Length == 3 * Particles &&
      uvs.Length == 2 * Particles &&
      positions != uvs
    }

    constructor (birdVertices: seq<Vec3>, birdMesh: Object3D, random: seq<real>, devicePixelRatio: real)
      requires |birdVertices| > 0
      requires UnitRandoms(random) && |random| >= DrawsPerTexel * Particles
      ensures Valid() && fresh(uBase) && fresh(positions) && fresh(uvs)
      ensures this.birdVertices == birdVertices && this.birdMesh == birdMesh
      ensures forall t :: 0 <= t < Particles ==> TexelAt(uBase, t) == InitialTexel(birdVertices, random, t)
      ensures uTime == 0.0 && uDeltaTime == 0.0
      ensures uInfluence == 0.95 && uStrength == 0.65 && uFrequency == 1.0
      ensures uBirdPosition == Vec3(0.0, -0.2, 0.0)
      ensures forall k :: 0 <= k < positions.Length ==> positions[k] == 0.0
      ensures forall i :: 0 <= i < Particles ==> UvAt(uvs, i) == GridUv(i, Width)
      ensures uPositions == None && renderTime == 0.0 && uSize == 8.0
      ensures uPixelRatio == if devicePixelRatio < 2.0 then devicePixelRatio else 2.0
    {
      this.birdVertices := birdVertices;
      this.birdMesh := birdMesh;
      uBase := new real[4 * Particles];
      positions := new real[0];
      uvs := new real[0];
      new;
      FillInitialPositions(uBase, random);
      uTime, uDeltaTime := 0.0, 0.0;
      uInfluence, uStrength, uFrequency := 0.95, 0.65, 1.0;
      uBirdPosition := Vec3(0.0, -0.2, 0.0);
      CreateParticleGeometry();
      uPositions, renderTime, uSize := None, 0.0, 8.0;
      uPixelRatio := if devicePixelRatio < 2.0 then devicePixelRatio else 2.0;
    }

    /** Writes every RGBA texel of the state texture from the random stream. */
    method FillInitialPositions(data: array<real>, random: seq<real>)
      requires |birdVertices| > 0 && data.Length % 4 == 0
      requires UnitRandoms(random) && |random| >= DrawsPerTexel * (data.Length / 4)
      modifies data
      ensures forall t :: 0 <= t < data.Length / 4 ==> TexelAt(data, t) == InitialTexel(birdVertices, random, t)
    {
      var k := 0;
      while k < data.Length
        invariant 0 <= k <= data.Length && k % 4 == 0
        invariant forall t :: 0 <= t < k / 4 ==> TexelAt(data, t) == InitialTexel(birdVertices, random, t)
      {
        var t := k / 4;
        var vertex := birdVertices[PickIndex(random[5 * t], |birdVertices|)];
        var jittered := Vec3(vertex.x + (random[5 * t + 1] - 0.5), vertex.y + (random[5 * t + 2] - 0.5),
                             vertex.z + (random[5 * t + 3] - 0.5));
        SetTexelAt(data, t, Texel(jittered, random[5 * t + 4]));
        k := k + 4;
      }
    }

    /** Allocates the all-zero position attribute and the per-particle uv attribute. */
    method CreateParticleGeometry()
      modifies this
      ensures fresh(positions) && fresh(uvs)
      ensures positions.Length == 3 * Particles && uvs.Length == 2 * Particles
      ensures forall k :: 0 <= k < positions.Length ==> positions[k] == 0.0
      ensures forall i :: 0 <= i < Particles ==> UvAt(uvs, i) == GridUv(i, Width)
      ensures uTime == old(uTime) && uDeltaTime == old(uDeltaTime)
      ensures uInfluence == old(uInfluence) && uStrength == old(uStrength) && uFrequency == old(uFrequency)
      ensures uBirdPosition == old(uBirdPosition)
    {
      var zeros := new real[3 * Particles](_ => 0.0);
      var coords := new real[2 * Particles];
      var i := 0;
      while i < Particles
        invariant 0 <= i <= Particles
        invariant forall j :: 0 <= j < i ==> UvAt(coords, j) == GridUv(j, Width)
        modifies coords
      {
        coords[2 * i] := (i % Width) as real / Width as real;
        coords[2 * i + 1] := (i / Width) as real / Width as real;
        i := i + 1;
      }
      positions, uvs := zeros, coords;
    }

    /**
     * The per-frame handoff: the simulation receives elapsed time, frame
     * delta and the anchor's current position; after the library's compute
     * step the renderer is pointed at the texture it wrote (currentTarget)
     * and receives the elapsed time. Tether and field parameters are left
     * as they are.
     */
    method Update(deltaTime: real, elapsedTime: real, currentTarget: nat)
      requires Valid()
      modifies this
      ensures Valid()
      ensures uTime == elapsedTime && uDeltaTime == deltaTime && uBirdPosition == birdMesh.position
      ensures uPositions == Some(currentTarget) && renderTime == elapsedTime
      ensures uInfluence == old(uInfluence) && uStrength == old(uStrength) && uFrequency == old(uFrequency)
      ensures positions == old(positions) && uvs == old(uvs) && uSize == old(uSize) && uPixelRatio == old(uPixelRatio)
    {
      uTime := elapsedTime;
      uDeltaTime := deltaTime;
      uBirdPosition := birdMesh.position;
      uPositions := Some(currentTarget);
      renderTime := elapsedTime;
    }
  }
}

// The crystalline branches and crystals set beside the bird: three tube-shaped
// branches whose shader needs per-vertex triangle centroids, three crystal
// clusters, and the rebuild of one branch after its parameters were edited.
module Crystalline {
  import opened Geometry

  // ---------------------------------------------------------------------------
  // Branch parameters and the curve through them.

  /** The editable parameters of one branch: its two ends, the sag of its middle and its tube radius. */
  datatype BranchParams = BranchParams(start: Vec3, end: Vec3, sag: real, radius: real)

  /** The three branch configurations createBranches starts from. */
  function BranchConfigs(): (configs: seq<BranchParams>)
    ensures |configs| == 3
    ensures forall i :: 0 <= i < 3 ==> configs[i].radius > 0.0 && configs[i].sag < 0.0
  {
    [ BranchParams(Vec3(-0.55, -1.05, 0.1), Vec3(-0.8, -0.9, 0.2), -0.05, 0.017),
      BranchParams(Vec3(-0.55, -0.85, 0.1), Vec3(0.0, -0.5, 0.2), -0.055, 0.019),
      BranchParams(Vec3(-0.6, -0.65, 0.2), Vec3(-0.8, -0.35, 0.25), -0.055, 0.019) ]
  }

  /** The middle control point: halfway from start to end, lowered (for a negative sag) by the sag. */
  function Midpoint(p: BranchParams): Vec3
  {
    Vec3(Lerp(p.start.x, p.end.x, 0.5), Lerp(p.start.y, p.end.y, 0.5) + p.sag, Lerp(p.start.z, p.end.z, 0.5))
  }

  /**
   * The midpoint is the mean of the two ends shifted by the sag along y only,
   * so it does not depend on which end is the start, and each coordinate
   * other than y lies between the ends.
   */
  lemma MidpointProperties(p: BranchParams)
    ensures Midpoint(p) == Vec3((p.start.x + p.end.x) / 2.0, (p.start.y + p.end.y) / 2.0 + p.sag, (p.start.z + p.end.z) / 2.0)
    ensures Midpoint(p) == Midpoint(BranchParams(p.end, p.start, p.sag, p.radius))
    ensures p.start.x <= p.end.x ==> p.start.x <= Midpoint(p).x <= p.end.x
    ensures p.end.x <= p.start.x ==> p.end.x <= Midpoint(p).x <= p.start.x
    ensures p.start.z <= p.end.z ==> p.start.z <= Midpoint(p).z <= p.end.z
    ensures p.end.z <= p.start.z ==> p.end.z <= Midpoint(p).z <= p.start.z
  {
    LerpBetween(p.start.x, p.end.x, 0.5);
    LerpBetween(p.start.z, p.end.z, 0.5);
  }

  /**
   * A TubeGeometry by its construction parameters: the control points of
   * the Catmull-Rom curve it follows, tubular segments, radius, radial
   * segments and whether it is closed.
   */
  datatype TubeGeometry = TubeGeometry(path: seq<Vec3>, tubularSegments: nat, radius: real, radialSegments: nat, closed: bool)

  /** The tube createBranches and rebuildBranch build for a branch's parameters. */
  function BranchTube(p: BranchParams): (tube: TubeGeometry)
    ensures |tube.path| == 3 && tube.path[0] == p.start && tube.path[2] == p.end
    ensures tube.path[1] == Midpoint(p)
    ensures tube.radius == p.radius && tube.tubularSegments == 8 && tube.radialSegments == 6 && !tube.closed
  {
    TubeGeometry([p.start, Midpoint(p), p.end], 8, p.radius, 6, false)
  }

  /** The colour prepareGeometryForShader gives every vertex. */
  function BranchVertexColor(): Vec3
  {
    Vec3(0.1, 0.15, 0.25)
  }

  // ---------------------------------------------------------------------------
  // Scene-graph objects.

  /** A non-indexed triangle soup with the 'center' and 'vertexColor' attributes the branch shader reads. */
  class PreparedGeometry {
    /** The tube this triangle soup was tessellated from. */
    const source: TubeGeometry
    const positions: seq<Vec3>
    const center: array<real>
    const vertexColor: array<real>

    constructor (source: TubeGeometry, positions: seq<Vec3>, center: array<real>, vertexColor: array<real>)
      ensures this.source == source && this.positions == positions
      ensures this.center == center && this.vertexColor == vertexColor
    {
      this.source := source;
      this.positions := positions;
      this.center := center;
      this.vertexColor := vertexColor;
    }
  }

  /** The branch shader material, shared by all branch meshes; update writes its uTime uniform. */
  class BranchMaterial {
    var uTime: real

    constructor ()
      ensures uTime == 0.0
    {
      uTime := 0.0;
    }
  }

  /** A crystal cluster's shader material, with its colour and glow colour as 24-bit RGB. */
  class CrystalMaterial {
    var uTime: real
    const uColor: nat
    const uGlowColor: nat

    /** createCrystalMaterial with its default colours, the only way createCrystals calls it. */
    constructor ()
      ensures uTime == 0.0 && uColor == 0x4ade80 && uGlowColor == 0x22c55e
    {
      uTime := 0.0;
      uColor := 0x4ade80;
      uGlowColor := 0x22c55e;
    }
  }

  class BranchMesh {
    const geometry: PreparedGeometry
    const material: BranchMaterial

    constructor (geometry: PreparedGeometry, material: BranchMaterial)
      ensures this.geometry == geometry && this.material == material
    {
      this.geometry := geometry;
      this.material := material;
    }
  }

  /** An OctahedronGeometry of the given radius and detail, scaled along y. */
  datatype Octahedron = Octahedron(radius: real, detail: nat, yScale: real)

  /**
   * Where a crystal sits in its cluster: at the centre, or on a ring at the
   * given fraction of a full turn (x = radius cos, z = radius sin of that
   * angle) and height y.
   */
  datatype Placement = Centre | Ring(turn: real, radius: real, y: real)

  class CrystalMesh {
    const geometry: Octahedron
    const material: CrystalMaterial
    const placement: Placement
    const rotationZ: real

    constructor (geometry: Octahedron, material: CrystalMaterial, placement: Placement, rotationZ: real)
      ensures this.geometry == geometry && this.material == material
      ensures this.placement == placement && this.rotationZ == rotationZ
    {
      this.geometry := geometry;
      this.material := material;
      this.placement := placement;
      this.rotationZ := rotationZ;
    }
  }

  /** The configuration of one crystal cluster; its colour is recorded but not applied to the material. */
  datatype CrystalConfig = CrystalConfig(pos: Vec3, scale: real, rotation: real, color: string)

  function CrystalConfigs(): (configs: seq<CrystalConfig>)
    ensures |configs| == 3
    ensures forall i :: 0 <= i < 3 ==> configs[i].scale > 0.0
  {
    [ CrystalConfig(Vec3(-1.55, -0.45, 0.6), 0.08, 0.5, "#08ff40"),
      CrystalConfig(Vec3(0.05, -0.9, 0.4), 0.07, 2.6, "#52ff63"),
      CrystalConfig(Vec3(-1.75, -1.7, 0.4), 0.075, 0.9, "#4bff5d") ]
  }

  /** The satellite crystal in ring slot i of a cluster. */
  function SatellitePlacement(i: nat): (p: Placement)
    requires i < 3
    ensures p.Ring? && 0.0 <= p.turn < 1.0 && p.radius == 0.7 && p.y == -0.2
  {
    Ring(i as real / 3.0, 0.7, -0.2)
  }

  /** A crystal cluster: a THREE.Group of crystal meshes with its own transform. */
  class CrystalGroup {
    var children: seq<CrystalMesh>
    var position: Vec3
    var scale: real
    var rotationZ: real

    constructor ()
      ensures children == [] && position == Vec3(0.0, 0.0, 0.0) && scale == 1.0 && rotationZ == 0.0
    {
      children := [];
      position := Vec3(0.0, 0.0, 0.0);
      scale := 1.0;
      rotationZ := 0.0;
    }
  }

  /** One entry of the crystals list; nothing in it changes after creation. */
  datatype Crystal = Crystal(index: nat, group: CrystalGroup, material: CrystalMaterial, params: CrystalConfig)

  /** One entry of the branches list; the mesh is replaced by rebuildBranch and the parameters are edited in place. */
  class Branch {
    const index: nat
    var mesh: BranchMesh
    var params: BranchParams

    constructor (index: nat, mesh: BranchMesh, params: BranchParams)
      ensures this.index == index && this.mesh == mesh && this.params == params
    {
      this.index := index;
      this.mesh := mesh;
      this.params := params;
    }
  }

  /** A THREE.Group whose children are only added and removed. */
  class Group {
    var children: seq<object>

    constructor ()
      ensures children == []
    {
      children := [];
    }

    /** Object3D.add for an object without a parent: append it. */
    method Add(child: object)
      modifies this
      ensures children == old(children) + [child]
    {
      children := children + [child];
    }

    /** Object3D.remove: drop the first occurrence, if there is one. */
    method Remove(child: object)
      modifies this
      ensures children == RemoveFirst(old(children), child)
    {
      children := RemoveFirst(children, child);
    }
  }

  /** The sequence without the first occurrence of x (unchanged when x is absent). */
  function RemoveFirst<T(==)>(s: seq<T>, x: T): (r: seq<T>)
    ensures x in s ==> |r| == |s| - 1 && multiset(r) == multiset(s) - multiset{x}
    ensures x !in s ==> r == s
  {
    if |s| == 0 then []
    else
      assert s == [s[0]] + s[1..];
      if s[0] == x then s[1..] else [s[0]] + RemoveFirst(s[1..], x)
  }

  /**
   * Removing the replaced mesh from a group that holds the meshes and the
   * crystal groups, then appending its replacement, leaves a group that
   * holds the updated meshes and the same crystal groups.
   */
  lemma ReplaceKeepsContents(children: seq<object>, meshes: seq<object>, groups: seq<object>, i: nat, x: object)
    requires i < |meshes| && multiset(children) == multiset(meshes) + multiset(groups)
    ensures multiset(RemoveFirst(children, meshes[i]) + [x]) == multiset(meshes[i := x]) + multiset(groups)
    ensures |RemoveFirst(children, meshes[i]) + [x]| == |children|
  {
    var m := meshes[i];
    assert m in multiset(meshes);
    assert multiset(meshes[i := x]) == multiset(meshes) - multiset{m} + multiset{x};
    assert m in multiset(children);
    assert multiset(RemoveFirst(children, m) + [x]) == multiset(children) - multiset{m} + multiset{x};
  }

  /**
   * Crystal entry i as createCrystals leaves it: index i, the i-th
   * configuration, its group placed as configured and holding four meshes,
   * and its material's time at 0.
   */
  ghost predicate BuiltFromConfig(c: Crystal, i: nat)
    reads c.group, c.material
  {
    i < 3 && c.index == i && c.params == CrystalConfigs()[i] &&
    c.group.position == CrystalConfigs()[i].pos && c.group.scale == CrystalConfigs()[i].scale &&
    c.group.rotationZ == CrystalConfigs()[i].rotation &&
    |c.group.children| == 4 && c.material.uTime == 0.0
  }

  /** The groups of a list of crystals, in order. */
  function GroupsOf(cs: seq<Crystal>): (gs: seq<object>)
    ensures |gs| == |cs| && forall i :: 0 <= i < |cs| ==> gs[i] == cs[i].group
  {
    if |cs| == 0 then [] else [cs[0].group as object] + GroupsOf(cs[1..])
  }

  // ---------------------------------------------------------------------------
  // Building the prepared geometry and the crystal clusters.

  /**
   * prepareGeometryForShader on the tube's non-indexed triangle soup: every
   * vertex of a triangle gets that triangle's centroid as 'center' and the
   * constant branch colour as 'vertexColor'.
   */
  method PrepareGeometryForShader(tube: TubeGeometry, positions: seq<Vec3>) returns (g: PreparedGeometry)
    requires |positions| % 3 == 0
    ensures fresh(g) && fresh(g.center) && fresh(g.vertexColor)
    ensures g.source == tube && g.positions == positions
    ensures g.center.Length == 3 * |positions| && g.vertexColor.Length == 3 * |positions|
    ensures forall v :: 0 <= v < |positions| ==>
      Vec3At(g.center, v) == TriangleCentroid(positions, v) && Vec3At(g.vertexColor, v) == BranchVertexColor()
  {
    var centers := new real[3 * |positions|];
    var colors := new real[3 * |positions|];
    var i := 0;
    while i < |positions|
      invariant 0 <= i <= |positions| && i % 3 == 0
      invariant forall v :: 0 <= v < i ==>
        Vec3At(centers, v) == TriangleCentroid(positions, v) && Vec3At(colors, v) == BranchVertexColor()
    {
      var c := Centroid(positions[i], positions[i + 1], positions[i + 2]);
      for j := 0 to 3
        invariant forall v :: 0 <= v < i + j ==>
          Vec3At(centers, v) == TriangleCentroid(positions, v) && Vec3At(colors, v) == BranchVertexColor()
      {
        assert TriangleCentroid(positions, i + j) == c;
        SetVec3At(centers, i + j, c);
        SetVec3At(colors, i + j, BranchVertexColor());
      }
      i := i + 3;
    }
    g := new PreparedGeometry(tube, positions, centers, colors);
  }

  /** A branch mesh: the tube for the parameters, prepared for the shader, with the given material. */
  method NewBranchMesh(params: BranchParams, material: BranchMaterial, tessellate: TubeGeometry -> seq<Vec3>)
    returns (mesh: BranchMesh)
    requires forall t :: |tessellate(t)| % 3 == 0
    ensures fresh(mesh) && mesh.material == material && mesh.geometry.source == BranchTube(params)
  {
    var tube := BranchTube(params);
    var preparedGeom := PrepareGeometryForShader(tube, tessellate(tube));
    mesh := new BranchMesh(preparedGeom, material);
  }

  /** One crystal cluster: a main octahedron and three smaller ones on a ring, all sharing the material. */
  method NewCrystalGroup(material: CrystalMaterial, config: CrystalConfig) returns (group: CrystalGroup)
    ensures fresh(group) && |group.children| == 4
    ensures forall k :: 0 <= k < 4 ==> fresh(group.children[k]) && group.children[k].material == material
    ensures group.children[0].geometry == Octahedron(1.0, 0, 2.5) && group.children[0].placement == Centre
    ensures forall k :: 1 <= k < 4 ==>
      group.children[k].geometry == Octahedron(0.4, 0, 2.0) &&
      group.children[k].placement == SatellitePlacement(k - 1) &&
      group.children[k].rotationZ == (k - 1) as real * 0.4
    ensures group.position == config.pos && group.scale == config.scale && group.rotationZ == config.rotation
  {
    group := new CrystalGroup();
    var mainCrystal := new CrystalMesh(Octahedron(1.0, 0, 2.5), material, Centre, 0.0);
    group.children := group.children + [mainCrystal];
    for i := 0 to 3
      invariant |group.children| == i + 1 && group.children[0] == mainCrystal
      invariant forall k :: 0 <= k <= i ==> fresh(group.children[k]) && group.children[k].material == material
      invariant forall k :: 1 <= k <= i ==>
        group.children[k].geometry == Octahedron(0.4, 0, 2.0) &&
        group.children[k].placement == SatellitePlacement(k - 1) &&
        group.children[k].rotationZ == (k - 1) as real * 0.4
    {
      var smallCrystal := new CrystalMesh(Octahedron(0.4, 0, 2.0), material, SatellitePlacement(i), i as real * 0.4);
      group.children := group.children + [smallCrystal];
    }
    group.position := config.pos;
    group.scale := config.scale;
    group.rotationZ := config.rotation;
  }

  // ---------------------------------------------------------------------------
  // The branches-and-crystals object.

  class CrystallineBranches {
    const mainGroup: Group
    const branchMaterial: BranchMaterial
    var branches: seq<Branch>
    var crystals: seq<Crystal>
    /** The branch meshes in branch order, mirrored so the group's contents can be stated without reading the branches. */
    ghost var meshes: seq<object>

    /**
     * Three branches, indexed by position, with distinct entries and meshes
     * that use the shared branch material; three crystals; and the main
     * group holds exactly the branch meshes and the crystal groups.
     */
    ghost predicate Valid()
      reads this, mainGroup, branches
    {
      |branches| == 3 && |meshes| == 3 && |crystals| == 3 &&
      (forall i :: 0 <= i < 3 ==>
        branches[i].index == i && branches[i].mesh == meshes[i] && branches[i].mesh.material == branchMaterial) &&
      (forall i, j :: 0 <= i < j < 3 ==> branches[i] != branches[j] && meshes[i] != meshes[j]) &&
      multiset(mainGroup.children) == multiset(meshes) + multiset(GroupsOf(crystals))
    }

    /** The constructor with init: build the branches and the crystals and add the main group to the scene. */
    constructor (scene: Group, tessellate: TubeGeometry -> seq<Vec3>)
      requires forall t :: |tessellate(t)| % 3 == 0
      modifies scene
      ensures Valid() && fresh(mainGroup) && fresh(branchMaterial)
      ensures scene.children == old(scene.children) + [mainGroup]
      ensures mainGroup.children == meshes + GroupsOf(crystals)
      ensures branchMaterial.uTime == 0.0
      ensures forall i :: 0 <= i < 3 ==>
        branches[i].params == BranchConfigs()[i] &&
        branches[i].mesh.geometry.source == BranchTube(BranchConfigs()[i])
      ensures forall i :: 0 <= i < 3 ==> BuiltFromConfig(crystals[i], i)
    {
      mainGroup := new Group();
      branchMaterial := new BranchMaterial();
      branches := [];
      crystals := [];
      meshes := [];
      new;
      CreateBranches(tessellate);
      CreateCrystals();
      scene.Add(mainGroup);
    }

    /** createBranches: one branch per configuration, each mesh added to the main group. */
    method CreateBranches(tessellate: TubeGeometry -> seq<Vec3>)
      requires forall t :: |tessellate(t)| % 3 == 0
      requires branches == [] && meshes == [] && mainGroup.children == []
      modifies this, mainGroup
      ensures crystals == old(crystals) && |branches| == 3
      ensures mainGroup.children == meshes && |meshes| == 3
      ensures forall i :: 0 <= i < 3 ==>
        fresh(branches[i]) && fresh(branches[i].mesh) && branches[i].mesh == meshes[i] &&
        branches[i].index == i && branches[i].mesh.material == branchMaterial &&
        branches[i].params == BranchConfigs()[i] &&
        branches[i].mesh.geometry.source == BranchTube(BranchConfigs()[i])
      ensures forall i, j :: 0 <= i < j < 3 ==> branches[i] != branches[j] && branches[i].mesh != branches[j].mesh
    {
      var configs := BranchConfigs();
      for index := 0 to 3
        invariant crystals == old(crystals) && |branches| == index
        invariant mainGroup.children == meshes && |meshes| == index
        invariant forall i :: 0 <= i < index ==>
          fresh(branches[i]) && fresh(branches[i].mesh) && branches[i].mesh == meshes[i] &&
          branches[i].index == i && branches[i].mesh.material == branchMaterial &&
          branches[i].params == configs[i] &&
          branches[i].mesh.geometry.source == BranchTube(configs[i])
        invariant forall i, j :: 0 <= i < j < index ==> branches[i] != branches[j] && branches[i].mesh != branches[j].mesh
      {
        var branch := NewBranchMesh(configs[index], branchMaterial, tessellate);
        mainGroup.Add(branch);
        var entry := new Branch(index, branch, configs[index]);
        branches := branches + [entry];
        meshes := meshes + [branch];
      }
    }

    /** createCrystals: one cluster per configuration, each added to the main group after the branches. */
    method CreateCrystals()
      requires |crystals| == 0
      modifies this, mainGroup
      ensures branches == old(branches) && meshes == old(meshes)
      ensures mainGroup.children == old(mainGroup.children) + GroupsOf(crystals)
      ensures |crystals| == 3
      ensures forall i :: 0 <= i < 3 ==>
        fresh(crystals[i].group) && fresh(crystals[i].material) && BuiltFromConfig(crystals[i], i)
    {
      for index := 0 to 3
        invariant branches == old(branches) && meshes == old(meshes) && |crystals| == index
        invariant mainGroup.children == old(mainGroup.children) + GroupsOf(crystals)
        invariant forall i :: 0 <= i < index ==>
          fresh(crystals[i].group) && fresh(crystals[i].material) && BuiltFromConfig(crystals[i], i)
      {
        var previous := crystals;
        AddCrystal(index);
        assert GroupsOf(crystals) == GroupsOf(previous) + [crystals[index].group as object];
      }
    }

    /** One step of createCrystals: the cluster for configuration `index` joins the main group and the crystals list. */
    method AddCrystal(index: nat)
      requires index < 3
      modifies this, mainGroup
      ensures branches == old(branches) && meshes == old(meshes)
      ensures |crystals| == |old(crystals)| + 1 && crystals[..|old(crystals)|] == old(crystals)
      ensures var c := crystals[|old(crystals)|];
        fresh(c.group) && fresh(c.material) && BuiltFromConfig(c, index) &&
        mainGroup.children == old(mainGroup.children) + [c.group]
    {
      var configs := CrystalConfigs();
      var material := new CrystalMaterial();
      var group := NewCrystalGroup(material, configs[index]);
      mainGroup.Add(group);
      crystals := crystals + [Crystal(index, group, material, configs[index])];
    }

    /**
     * rebuildBranch: the branch's mesh is replaced by a new one built from its
     * current parameters; the old mesh leaves the main group and the new one
     * joins it, and no other branch, crystal or parameter changes.
     */
    method RebuildBranch(index: nat, tessellate: TubeGeometry -> seq<Vec3>)
      requires Valid() && index < |branches|
      requires forall t :: |tessellate(t)| % 3 == 0
      modifies this, mainGroup, branches[index]
      ensures Valid() && branches == old(branches) && crystals == old(crystals)
      ensures fresh(branches[index].mesh)
      ensures branches[index].mesh.geometry.source == BranchTube(branches[index].params)
      ensures branches[index].params == old(branches[index].params)
      ensures forall i :: 0 <= i < |branches| && i != index ==> branches[i].mesh == old(branches[i].mesh)
      ensures mainGroup.children == RemoveFirst(old(mainGroup.children), old(branches[index].mesh)) + [branches[index].mesh]
      ensures |mainGroup.children| == |old(mainGroup.children)|
    {
      var branch := NewBranchMesh(branches[index].params, branchMaterial, tessellate);
      ReplaceKeepsContents(mainGroup.children, meshes, GroupsOf(crystals), index, branch);
      ReplaceMesh(index, branch);
    }

    /** The in-place part of rebuildBranch: the old mesh leaves the main group, the new one joins it and the entry points to it. */
    method ReplaceMesh(index: nat, branch: BranchMesh)
      requires index < |branches| && |meshes| == |branches| && branches[index].mesh == meshes[index]
      modifies this, mainGroup, branches[index]
      ensures branches == old(branches) && crystals == old(crystals)
      ensures branches[index].mesh == branch && branches[index].params == old(branches[index].params)
      ensures meshes == old(meshes)[index := branch]
      ensures mainGroup.children == RemoveFirst(old(mainGroup.children), old(meshes[index])) + [branch]
    {
      var branchData := branches[index];
      mainGroup.Remove(branchData.mesh);
      mainGroup.Add(branch);
      branchData.mesh := branch;
      meshes := meshes[index := branch];
    }

    /** update: every crystal material and the branch material get the elapsed time. */
    method Update(elapsedTime: real)
      requires Valid()
      modifies branchMaterial, MaterialsOf(crystals)
      ensures Valid()
      ensures branchMaterial.uTime == elapsedTime
      ensures forall i :: 0 <= i < |crystals| ==> crystals[i].material.uTime == elapsedTime
    {
      SetTimes(crystals, elapsedTime);
      branchMaterial.uTime := elapsedTime;
    }
  }

  function MaterialsOf(cs: seq<Crystal>): set<CrystalMaterial>
  {
    set i | 0 <= i < |cs| :: cs[i].material
  }

  /** The forEach of update over the crystals list. */
  method SetTimes(cs: seq<Crystal>, elapsedTime: real)
    modifies MaterialsOf(cs)
    ensures forall i :: 0 <= i < |cs| ==> cs[i].material.uTime == elapsedTime
  {
    for i := 0 to |cs|
      invariant forall k :: 0 <= k < i ==> cs[k].material.uTime == elapsedTime
    {
      cs[i].material.uTime := elapsedTime;
    }
  }
}

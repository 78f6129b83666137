/**
 * What happens to a glTF scene once it has been loaded: its animation clips
 * are turned into a name-keyed action table, meshes named like a floor or a
 * wall are marked static, every mesh's rest pose is registered with the
 * interaction state and its materials are tuned, and the model is centred.
 *
 * Materials are objects that several meshes may share, so they live in a
 * table keyed by material identity and a mesh lists the identities it uses;
 * tuning a shared material therefore affects every mesh that uses it, and
 * tuning it again (through the next mesh) compounds, exactly as in place.
 */
module ModelLoader {
  import opened Options
  import opened Vectors
  import opened SceneGraph
  import opened JsMaps
  import BounceInteraction

  // ---------------------------------------------------------------- materials

  /**
   * The material classes the tuning distinguishes. `MeshPhysicalMaterial`
   * derives from `MeshStandardMaterial`, so both take the standard branch.
   */
  datatype MaterialKind = Standard | Physical | Lambert | Phong | Basic | OtherKind

  /** A colour read back as hue, saturation and lightness. */
  datatype Hsl = Hsl(h: real, s: real, l: real)

  /**
   * The material properties the tuning reads or writes. A texture slot holds
   * the colour space of the bound texture, or `None` when the slot is empty.
   */
  datatype Material = Material(
    kind: MaterialKind,
    roughness: Option<real>,
    metalness: Option<real>,
    color: Option<Hsl>,
    colorMap: Option<string>,
    emissiveMap: Option<string>)

  const SrgbColorSpace: string := "srgb"
  const RoughnessFactor: real := 0.8
  const FallbackRoughness: real := 0.6
  const FallbackMetalness: real := 0.2
  const LightnessFactor: real := 1.2

  predicate IsStandardFamily(k: MaterialKind)
  {
    k == Standard || k == Physical
  }

  /** The kinds whose emissive map is switched to sRGB. */
  predicate TunesEmissive(k: MaterialKind)
  {
    k == Standard || k == Physical || k == Lambert || k == Phong
  }

  /** Brighten by a fifth, never past full lightness. */
  function TunedLightness(l: real): (r: real)
    ensures r <= 1.0 && r <= l * LightnessFactor
    ensures r == l * LightnessFactor || r == 1.0
    ensures 0.0 <= l ==> 0.0 <= r
    ensures 0.0 <= l <= 1.0 ==> l <= r
  {
    if l * LightnessFactor < 1.0 then l * LightnessFactor else 1.0
  }

  function SrgbTexture(t: Option<string>): Option<string>
  {
    if t.Some? then Some(SrgbColorSpace) else None
  }

  function TunedColor(c: Option<Hsl>): Option<Hsl>
  {
    if c.Some? then Some(Hsl(c.value.h, c.value.s, TunedLightness(c.value.l))) else None
  }

  /** `optimizeMaterials` applied to one material, by kind. */
  function OptimizeMaterial(m: Material): (r: Material)
    ensures r.kind == m.kind
    ensures m.kind == OtherKind ==> r == m
    ensures IsStandardFamily(m.kind) ==>
      r.roughness == Some(if m.roughness.Some? then m.roughness.value * RoughnessFactor else FallbackRoughness)
    ensures IsStandardFamily(m.kind) ==> r.metalness == Some(m.metalness.GetOr(FallbackMetalness))
    ensures !IsStandardFamily(m.kind) ==> r.roughness == m.roughness && r.metalness == m.metalness
    ensures m.kind != OtherKind ==> (r.colorMap.Some? <==> m.colorMap.Some?)
    ensures m.kind != OtherKind && r.colorMap.Some? ==> r.colorMap.value == SrgbColorSpace
    ensures TunesEmissive(m.kind) ==> (r.emissiveMap.Some? <==> m.emissiveMap.Some?)
    ensures TunesEmissive(m.kind) && r.emissiveMap.Some? ==> r.emissiveMap.value == SrgbColorSpace
    ensures !TunesEmissive(m.kind) ==> r.emissiveMap == m.emissiveMap
    ensures m.kind != OtherKind ==> (r.color.Some? <==> m.color.Some?)
    ensures m.kind != OtherKind && m.color.Some? ==>
      r.color.value.h == m.color.value.h && r.color.value.s == m.color.value.s &&
      r.color.value.l == TunedLightness(m.color.value.l)
  {
    match m.kind
    case Standard | Physical =>
      m.(roughness := Some(if m.roughness.Some? then m.roughness.value * RoughnessFactor else FallbackRoughness),
         metalness := Some(m.metalness.GetOr(FallbackMetalness)),
         colorMap := SrgbTexture(m.colorMap),
         emissiveMap := SrgbTexture(m.emissiveMap),
         color := TunedColor(m.color))
    case Lambert | Phong =>
      m.(colorMap := SrgbTexture(m.colorMap),
         emissiveMap := SrgbTexture(m.emissiveMap),
         color := TunedColor(m.color))
    case Basic =>
      m.(colorMap := SrgbTexture(m.colorMap), color := TunedColor(m.color))
    case OtherKind => m
  }

  /** Tuning is not idempotent: a standard material tuned twice loses 36% of its roughness. */
  lemma RoughnessCompounds(m: Material, x: real)
    requires IsStandardFamily(m.kind) && m.roughness == Some(x)
    ensures OptimizeMaterial(OptimizeMaterial(m)).roughness == Some(x * 0.64)
  {
    var once := OptimizeMaterial(m);
    assert once.roughness == Some(x * 0.8);
  }

  /** The colour-space settings, unlike roughness and lightness, settle after one tuning. */
  lemma ColorSpacesSettle(m: Material)
    ensures OptimizeMaterial(OptimizeMaterial(m)).colorMap == OptimizeMaterial(m).colorMap
    ensures OptimizeMaterial(OptimizeMaterial(m)).emissiveMap == OptimizeMaterial(m).emissiveMap
  {
  }

  /** Every material of the table whose colour is known has a lightness in [0, 1]. */
  ghost predicate LightnessInRange(table: map<MaterialId, Material>)
  {
    forall id :: id in table && table[id].color.Some? ==> 0.0 <= table[id].color.value.l <= 1.0
  }

  /** The materials of one mesh, tuned in list order (a repeated entry is tuned again). */
  function TuneMaterials(table: map<MaterialId, Material>, ids: seq<MaterialId>): (r: map<MaterialId, Material>)
    ensures r.Keys == table.Keys
    decreases |ids|
  {
    if |ids| == 0 then table
    else
      var before := TuneMaterials(table, ids[..|ids| - 1]);
      var id := ids[|ids| - 1];
      if id in before then before[id := OptimizeMaterial(before[id])] else before
  }

  /** The material pass of `optimizeModel`: every mesh of the traversal tunes its materials. */
  function TuneMeshMaterials(table: map<MaterialId, Material>, nodes: seq<Node>): (r: map<MaterialId, Material>)
    ensures r.Keys == table.Keys
    decreases |nodes|
  {
    if |nodes| == 0 then table
    else
      var before := TuneMeshMaterials(table, nodes[..|nodes| - 1]);
      var n := nodes[|nodes| - 1];
      if n.isMesh then TuneMaterials(before, n.materials) else before
  }

  lemma {:induction false} TuneMaterialsKeepsLightnessInRange(table: map<MaterialId, Material>, ids: seq<MaterialId>)
    requires LightnessInRange(table)
    ensures LightnessInRange(TuneMaterials(table, ids))
    decreases |ids|
  {
    if |ids| > 0 {
      TuneMaterialsKeepsLightnessInRange(table, ids[..|ids| - 1]);
    }
  }

  /** Tuning any number of times never pushes a lightness out of [0, 1]. */
  lemma {:induction false} TuneMeshMaterialsKeepsLightnessInRange(table: map<MaterialId, Material>, nodes: seq<Node>)
    requires LightnessInRange(table)
    ensures LightnessInRange(TuneMeshMaterials(table, nodes))
    decreases |nodes|
  {
    if |nodes| > 0 {
      var before := TuneMeshMaterials(table, nodes[..|nodes| - 1]);
      TuneMeshMaterialsKeepsLightnessInRange(table, nodes[..|nodes| - 1]);
      TuneMaterialsKeepsLightnessInRange(before, nodes[|nodes| - 1].materials);
    }
  }

  /** Some mesh of the traversal lists material `id`. */
  ghost predicate UsedByMesh(nodes: seq<Node>, id: MaterialId)
  {
    exists i :: 0 <= i < |nodes| && nodes[i].isMesh && id in nodes[i].materials
  }

  lemma {:induction false} TuneMaterialsLeavesOthers(table: map<MaterialId, Material>, ids: seq<MaterialId>, id: MaterialId)
    requires id in table && id !in ids
    ensures TuneMaterials(table, ids)[id] == table[id]
    decreases |ids|
  {
    if |ids| > 0 {
      TuneMaterialsLeavesOthers(table, ids[..|ids| - 1], id);
    }
  }

  /** A material no mesh uses is left as it was. */
  lemma {:induction false} TuneMeshMaterialsLeavesUnused(table: map<MaterialId, Material>, nodes: seq<Node>, id: MaterialId)
    requires id in table && !UsedByMesh(nodes, id)
    ensures TuneMeshMaterials(table, nodes)[id] == table[id]
    decreases |nodes|
  {
    if |nodes| > 0 {
      var init := nodes[..|nodes| - 1];
      assert !UsedByMesh(init, id) by {
        forall i | 0 <= i < |init| && init[i].isMesh
          ensures id !in init[i].materials
        {
          assert init[i] == nodes[i];
        }
      }
      TuneMeshMaterialsLeavesUnused(table, init, id);
      var n := nodes[|nodes| - 1];
      if n.isMesh {
        assert id !in n.materials;
        TuneMaterialsLeavesOthers(TuneMeshMaterials(table, init), n.materials, id);
      }
    }
  }

  /** `m` tuned `k` times over. */
  function TunedTimes(m: Material, k: nat): Material
  {
    if k == 0 then m else OptimizeMaterial(TunedTimes(m, k - 1))
  }

  lemma {:induction false} TunedTimesAdd(m: Material, a: nat, b: nat)
    ensures TunedTimes(TunedTimes(m, a), b) == TunedTimes(m, a + b)
    decreases b
  {
    if b > 0 {
      TunedTimesAdd(m, a, b - 1);
    }
  }

  /** Each listed material is tuned once per entry of the list that names it. */
  lemma {:induction false} TuneMaterialsCounts(table: map<MaterialId, Material>, ids: seq<MaterialId>, id: MaterialId)
    requires id in table
    ensures TuneMaterials(table, ids)[id] == TunedTimes(table[id], multiset(ids)[id])
    decreases |ids|
  {
    if |ids| > 0 {
      var init := ids[..|ids| - 1];
      assert ids == init + [ids[|ids| - 1]];
      assert multiset(ids) == multiset(init) + multiset{ids[|ids| - 1]};
      TuneMaterialsCounts(table, init, id);
    }
  }

  /** A material listed once by the mesh becomes `OptimizeMaterial` of its old value. */
  lemma TuneMaterialsTunesListedOnce(table: map<MaterialId, Material>, ids: seq<MaterialId>, id: MaterialId)
    requires id in table && multiset(ids)[id] == 1
    ensures TuneMaterials(table, ids)[id] == OptimizeMaterial(table[id])
  {
    TuneMaterialsCounts(table, ids, id);
  }

  /** How many times the meshes of the traversal list material `id`, counting repeats. */
  function MeshUses(nodes: seq<Node>, id: MaterialId): nat
    decreases |nodes|
  {
    if |nodes| == 0 then 0
    else
      var n := nodes[|nodes| - 1];
      MeshUses(nodes[..|nodes| - 1], id) + (if n.isMesh then multiset(n.materials)[id] else 0)
  }

  /** Over the whole traversal, a material is tuned once per listing by a mesh. */
  lemma {:induction false} TuneMeshMaterialsCounts(table: map<MaterialId, Material>, nodes: seq<Node>, id: MaterialId)
    requires id in table
    ensures TuneMeshMaterials(table, nodes)[id] == TunedTimes(table[id], MeshUses(nodes, id))
    decreases |nodes|
  {
    if |nodes| > 0 {
      var init := nodes[..|nodes| - 1];
      var n := nodes[|nodes| - 1];
      TuneMeshMaterialsCounts(table, init, id);
      if n.isMesh {
        var before := TuneMeshMaterials(table, init);
        TuneMaterialsCounts(before, n.materials, id);
        TunedTimesAdd(table[id], MeshUses(init, id), multiset(n.materials)[id]);
      }
    }
  }

  /** A material that exactly one mesh lists, and lists once, is tuned exactly once. */
  lemma TuneMeshMaterialsTunesListedOnce(table: map<MaterialId, Material>, nodes: seq<Node>, id: MaterialId)
    requires id in table && MeshUses(nodes, id) == 1
    ensures TuneMeshMaterials(table, nodes)[id] == OptimizeMaterial(table[id])
  {
    TuneMeshMaterialsCounts(table, nodes, id);
  }

  /** A material shared by two meshes is tuned once for each of them. */
  lemma SharedMaterialTunedPerMesh(table: map<MaterialId, Material>, a: Node, b: Node, id: MaterialId)
    requires a.isMesh && b.isMesh && a.materials == [id] && b.materials == [id] && id in table
    ensures TuneMeshMaterials(table, [a, b])[id] == OptimizeMaterial(OptimizeMaterial(table[id]))
  {
    assert [a, b][..1] == [a];
    assert [a][..0] == [];
    assert [id][..0] == [];
    assert TuneMeshMaterials(table, []) == table;
    assert TuneMaterials(table, []) == table;
    var first := TuneMeshMaterials(table, [a]);
    assert first == TuneMaterials(table, [id]);
    assert first[id] == OptimizeMaterial(table[id]);
    assert TuneMeshMaterials(table, [a, b]) == TuneMaterials(first, [id]);
    assert TuneMaterials(first, []) == first;
  }

  // ------------------------------------------------------------ registration

  /** The value `optimizeModel` stores for a mesh in each of the three tables. */
  function RestPosition(n: Node): Vec3 { n.position }
  function RestRotation(n: Node): Vec3 { n.rotation }
  function InitialVelocity(n: Node): Vec3 { Zero }

  /** The uuids of the meshes of a traversal. */
  function MeshIds(nodes: seq<Node>): (r: set<ObjectId>)
    ensures forall i :: 0 <= i < |nodes| && nodes[i].isMesh ==> nodes[i].id in r
    ensures forall k :: k in r ==> exists i :: 0 <= i < |nodes| && nodes[i].isMesh && nodes[i].id == k
  {
    set i | 0 <= i < |nodes| && nodes[i].isMesh :: nodes[i].id
  }

  /** `map.set(node.uuid, value(node))` for every mesh of the traversal, in order. */
  function RegisterMeshes(table: map<ObjectId, Vec3>, nodes: seq<Node>, value: Node -> Vec3): (r: map<ObjectId, Vec3>)
    ensures r.Keys == table.Keys + MeshIds(nodes)
    decreases |nodes|
  {
    if |nodes| == 0 then table
    else
      var before := RegisterMeshes(table, nodes[..|nodes| - 1], value);
      var n := nodes[|nodes| - 1];
      assert MeshIds(nodes) == MeshIds(nodes[..|nodes| - 1]) + (if n.isMesh then {n.id} else {}) by {
        var init := nodes[..|nodes| - 1];
        forall k | k in MeshIds(nodes)
          ensures k in MeshIds(init) + (if n.isMesh then {n.id} else {})
        {
          var i :| 0 <= i < |nodes| && nodes[i].isMesh && nodes[i].id == k;
          if i < |init| { assert init[i] == nodes[i]; }
        }
      }
      if n.isMesh then before[n.id := value(n)] else before
  }

  /** With unique uuids, every mesh of the traversal ends up with its own value. */
  lemma {:induction false} RegisterMeshesValue(table: map<ObjectId, Vec3>, nodes: seq<Node>, value: Node -> Vec3, i: int)
    requires UniqueIds(nodes) && 0 <= i < |nodes| && nodes[i].isMesh
    ensures RegisterMeshes(table, nodes, value)[nodes[i].id] == value(nodes[i])
    decreases |nodes|
  {
    var init := nodes[..|nodes| - 1];
    var n := nodes[|nodes| - 1];
    if i < |nodes| - 1 {
      assert init[i] == nodes[i];
      assert nodes[i].id != n.id;
      assert UniqueIds(init) by {
        forall p, q | 0 <= p < q < |init|
          ensures init[p].id != init[q].id
        {
          assert init[p] == nodes[p] && init[q] == nodes[q];
        }
      }
      RegisterMeshesValue(table, init, value, i);
    }
  }

  /** An id that is no mesh of the traversal keeps the value it had. */
  lemma {:induction false} RegisterMeshesKeeps(table: map<ObjectId, Vec3>, nodes: seq<Node>, value: Node -> Vec3, k: ObjectId)
    requires k in table && k !in MeshIds(nodes)
    ensures RegisterMeshes(table, nodes, value)[k] == table[k]
    decreases |nodes|
  {
    if |nodes| > 0 {
      var init := nodes[..|nodes| - 1];
      assert k !in MeshIds(init) by {
        forall i | 0 <= i < |init| && init[i].isMesh
          ensures init[i].id != k
        {
          assert nodes[i] == init[i];
        }
      }
      RegisterMeshesKeeps(table, init, value, k);
    }
  }

  // ----------------------------------------------------------------- the model

  /**
   * The glTF scene root: its position and the nodes `traverse` visits below
   * it (the root itself is a `Group`, never a mesh), plus the material objects
   * those meshes refer to.
   */
  class ModelGroup {
    var position: Vec3
    const nodes: array<Node>
    var materials: map<MaterialId, Material>

    constructor (nodes: array<Node>, materials: map<MaterialId, Material>)
      ensures this.nodes == nodes && this.materials == materials && position == Zero
    {
      this.nodes := nodes;
      this.materials := materials;
      position := Zero;
    }
  }

  /** One animation clip of the file and the action `mixer.clipAction(clip)` gives for it. */
  datatype Clip<A> = Clip(name: string, action: A)

  function ClipNames<A>(clips: seq<Clip<A>>): (r: seq<string>)
    ensures |r| == |clips| && forall i :: 0 <= i < |clips| ==> r[i] == clips[i].name
  {
    seq(|clips|, i requires 0 <= i < |clips| => clips[i].name)
  }

  /** The table `actions.set(clip.name, action)` builds, clip after clip. */
  function ActionTable<A>(clips: seq<Clip<A>>): (r: map<string, A>)
    ensures r.Keys == set i | 0 <= i < |clips| :: clips[i].name
    decreases |clips|
  {
    if |clips| == 0 then map[]
    else
      var init := clips[..|clips| - 1];
      var before := ActionTable(init);
      assert (set i | 0 <= i < |clips| :: clips[i].name) == before.Keys + {clips[|clips| - 1].name} by {
        forall i | 0 <= i < |init| ensures init[i] == clips[i] { }
      }
      before[clips[|clips| - 1].name := clips[|clips| - 1].action]
  }

  /** A name used by several clips maps to the action of the last clip with that name. */
  lemma {:induction false} ActionTableLastWins<A>(clips: seq<Clip<A>>, i: int)
    requires 0 <= i < |clips|
    requires forall j :: i < j < |clips| ==> clips[j].name != clips[i].name
    ensures ActionTable(clips)[clips[i].name] == clips[i].action
    decreases |clips|
  {
    if i < |clips| - 1 {
      var init := clips[..|clips| - 1];
      forall j | i < j < |init| ensures init[j].name != init[i].name {
        assert init[j] == clips[j];
      }
      ActionTableLastWins(init, i);
    }
  }

  /**
   * `actions.set(clip.name, mixer.clipAction(clip))` for every clip: the table
   * lists each name once, in the order names first appear.
   */
  method BuildActionMap<A>(clips: seq<Clip<A>>) returns (actions: OrderedMap<string, A>)
    ensures actions.Valid()
    ensures actions.keys == FirstOccurrences(ClipNames(clips))
    ensures actions.entries == ActionTable(clips)
  {
    actions := EmptyMap();
    for i := 0 to |clips|
      invariant actions.Valid()
      invariant actions.keys == FirstOccurrences(ClipNames(clips[..i]))
      invariant actions.entries == ActionTable(clips[..i])
    {
      assert ClipNames(clips[..i + 1])[..i] == ClipNames(clips[..i]);
      assert clips[..i + 1][..i] == clips[..i];
      actions := Set(actions, clips[i].name, clips[i].action);
    }
    assert clips[..|clips|] == clips;
  }

  /** `identifyStaticObjects`: flag every mesh whose name mentions a floor or a wall. */
  method IdentifyStaticObjects(nodes: array<Node>)
    modifies nodes
    ensures nodes[..] == WithStaticFlag(old(nodes[..]), true)
  {
    for i := 0 to nodes.Length
      invariant forall k :: 0 <= k < i ==>
        nodes[k] == (if IsStaticCandidate(old(nodes[k])) then old(nodes[k]).(isStatic := true) else old(nodes[k]))
      invariant forall k :: i <= k < nodes.Length ==> nodes[k] == old(nodes[k])
    {
      var isStatic := IsFloorOrWallName(nodes[i].name);
      if isStatic && nodes[i].isMesh {
        nodes[i] := nodes[i].(isStatic := true);
      }
    }
  }

  /** `optimizeMaterials`: tune each material of one mesh in place. */
  method OptimizeMaterials(model: ModelGroup, mesh: Node)
    modifies model`materials
    ensures model.materials == TuneMaterials(old(model.materials), mesh.materials)
  {
    var ids := mesh.materials;
    for j := 0 to |ids|
      invariant model.materials == TuneMaterials(old(model.materials), ids[..j])
    {
      assert ids[..j + 1][..j] == ids[..j];
      var id := ids[j];
      if id in model.materials {
        model.materials := model.materials[id := OptimizeMaterial(model.materials[id])];
      }
    }
    assert ids[..|ids|] == ids;
  }

  /**
   * `optimizeModel`: for every mesh, store its rest position, rest rotation and
   * a zero velocity under its uuid, and tune its materials.
   */
  method OptimizeModel(model: ModelGroup, state: BounceInteraction.InteractionState)
    modifies model`materials, state`restPositions, state`restRotations, state`velocities
    ensures state.restPositions == RegisterMeshes(old(state.restPositions), model.nodes[..], RestPosition)
    ensures state.restRotations == RegisterMeshes(old(state.restRotations), model.nodes[..], RestRotation)
    ensures state.velocities == RegisterMeshes(old(state.velocities), model.nodes[..], InitialVelocity)
    ensures model.materials == TuneMeshMaterials(old(model.materials), model.nodes[..])
  {
    var nodes := model.nodes;
    for i := 0 to nodes.Length
      invariant state.restPositions == RegisterMeshes(old(state.restPositions), nodes[..i], RestPosition)
      invariant state.restRotations == RegisterMeshes(old(state.restRotations), nodes[..i], RestRotation)
      invariant state.velocities == RegisterMeshes(old(state.velocities), nodes[..i], InitialVelocity)
      invariant model.materials == TuneMeshMaterials(old(model.materials), nodes[..i])
    {
      assert nodes[..i + 1][..i] == nodes[..i];
      var node := nodes[i];
      if node.isMesh {
        state.restPositions := state.restPositions[node.id := node.position];
        state.restRotations := state.restRotations[node.id := node.rotation];
        state.velocities := state.velocities[node.id := Zero];
        OptimizeMaterials(model, node);
      }
    }
    assert nodes[..nodes.Length] == nodes[..];
  }

  /** `centerModel`: move the root so that the given bounding-box centre lands on the origin. */
  method CenterModel(model: ModelGroup, center: Vec3)
    modifies model`position
    ensures model.position == Neg(center)
  {
    model.position := Neg(center);
  }

  /**
   * The success callback of `loadModel`, in its order: build the action table,
   * flag static objects, register and tune meshes, centre the model. `center`
   * is the centre of the model's bounding box after the earlier steps.
   */
  method OnModelLoaded<A>(model: ModelGroup, clips: seq<Clip<A>>, center: Vec3, state: BounceInteraction.InteractionState)
    returns (actions: OrderedMap<string, A>)
    modifies model, model.nodes, state`restPositions, state`restRotations, state`velocities
    ensures actions.Valid() && actions.keys == FirstOccurrences(ClipNames(clips))
    ensures actions.entries == ActionTable(clips)
    ensures model.nodes[..] == WithStaticFlag(old(model.nodes[..]), true)
    ensures state.restPositions == RegisterMeshes(old(state.restPositions), model.nodes[..], RestPosition)
    ensures state.restRotations == RegisterMeshes(old(state.restRotations), model.nodes[..], RestRotation)
    ensures state.velocities == RegisterMeshes(old(state.velocities), model.nodes[..], InitialVelocity)
    ensures model.materials == TuneMeshMaterials(old(model.materials), model.nodes[..])
    ensures model.position == Neg(center)
  {
    actions := BuildActionMap(clips);
    IdentifyStaticObjects(model.nodes);
    OptimizeModel(model, state);
    CenterModel(model, center);
  }
}

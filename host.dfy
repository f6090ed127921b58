/** The host's scene snapshot, as the render engine reads it.

    The host (the 3D application) owns the scene; the engine only reads it.
    Floating-point vectors are modelled with `real` components: the engine
    only copies them, it never computes with them. */
module Host {

  datatype Option<+T> = None | Some(value: T)

  /** A 3-component vector: a vertex position, a loop normal or a light direction. */
  datatype Vec3 = Vec3(x: real, y: real, z: real)
  {
    /** Component `j` (0 = x, 1 = y, 2 = z). */
    function At(j: nat): real
      requires j < 3
    {
      if j == 0 then x else if j == 1 then y else z
    }
  }

  /** A matrix as a sequence of rows (the host's `mathutils.Matrix`). */
  type Matrix = seq<seq<real>>

  /** An RGBA colour of a vertex-colour layer. */
  datatype Rgba = Rgba(r: real, g: real, b: real, a: real)

  /** The colour of a freshly zeroed colour buffer: black with zero alpha. */
  const ZeroRgba: Rgba := Rgba(0.0, 0.0, 0.0, 0.0)

  /** One face corner of a mesh: the shared vertex it uses and its own normal. */
  datatype Loop = Loop(vertexIndex: nat, normal: Vec3)

  /** One triangle of the host's triangulation: the indices of its three loops. */
  datatype LoopTriangle = LoopTriangle(a: nat, b: nat, c: nat)

  /** A mesh as the host exposes it after `calc_loop_triangles`.
      `activeColors` is the per-loop data of the active vertex-colour layer, if any;
      `tangentsSupported` is whether `calc_tangents` succeeds on this mesh. */
  datatype Mesh = Mesh(
    vertices: seq<Vec3>,
    loops: seq<Loop>,
    activeColors: Option<seq<Rgba>>,
    loopTriangles: seq<LoopTriangle>,
    tangentsSupported: bool)
  {
    /** What the host guarantees of every mesh it hands out: loops refer to
        existing vertices and a colour layer has one entry per loop. */
    predicate Valid()
    {
      (forall i :: 0 <= i < |loops| ==> loops[i].vertexIndex < |vertices|) &&
      (activeColors.Some? ==> |activeColors.value| == |loops|)
    }

    /** Every triangle corner names an existing loop. */
    predicate TrianglesInRange()
    {
      forall t :: 0 <= t < |loopTriangles| ==>
        loopTriangles[t].a < |loops| && loopTriangles[t].b < |loops| && loopTriangles[t].c < |loops|
    }
  }

  datatype LightType = Sun | OtherLight

  /** The type tag of an object together with its data: a mesh, a light
      (with the world-space direction the host derives from its rotation),
      or anything else. */
  datatype ObjectKind =
    | MeshObject(mesh: Mesh)
    | LightObject(lightType: LightType, direction: Vec3)
    | OtherObject

  datatype SceneObject = SceneObject(name: string, kind: ObjectKind)

  /** An entry of the dependency graph's id list: an object or another datablock. */
  datatype Datablock = ObjectBlock(obj: SceneObject) | OtherBlock

  /** One entry of the dependency graph's update list. */
  datatype Update = Update(id: Datablock, isUpdatedGeometry: bool)

  /** The evaluated dependency graph handed to `view_update`.
      `objectTypeUpdated` is the answer of `id_type_updated('OBJECT')`. */
  datatype Depsgraph = Depsgraph(
    ids: seq<Datablock>,
    updates: seq<Update>,
    objectTypeUpdated: bool,
    objectInstances: seq<SceneObject>)

  /** The viewport's camera: `region_data.view_matrix` and `region_data.window_matrix`. */
  datatype RegionData = RegionData(viewMatrix: Matrix, windowMatrix: Matrix)

  /** The engine's style settings stored with the scene (read, never written). */
  datatype Settings = Settings(enableOutline: bool, outlineWidth: real, shadingSharpness: real)

  /** The block is an object of mesh type. */
  predicate IsMeshBlock(b: Datablock)
  {
    b.ObjectBlock? && b.obj.kind.MeshObject?
  }

  /** Every mesh object among `blocks` carries a mesh the host guarantees valid. */
  predicate MeshesValid(blocks: seq<Datablock>)
  {
    forall i :: 0 <= i < |blocks| && IsMeshBlock(blocks[i]) ==> blocks[i].obj.kind.mesh.Valid()
  }

  /** Every mesh object whose update says its geometry changed carries a
      mesh the host guarantees valid. */
  predicate UpdatedMeshesValid(updates: seq<Update>)
  {
    forall i :: 0 <= i < |updates| && updates[i].isUpdatedGeometry && IsMeshBlock(updates[i].id) ==>
      updates[i].id.obj.kind.mesh.Valid()
  }
}

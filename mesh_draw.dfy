/** `MeshDraw`: the per-mesh vertex/index buffers and the per-object draw.

    The constructor turns an indexed mesh into flat per-loop buffers (one
    position, normal and colour per loop, three indices per triangle) and
    keeps the GPU batch made from them. `Draw` binds the shader, sets the
    uniforms inside one `try` and always draws the batch. */
module MeshDrawing {
  import opened Host
  import opened Gpu

  // ---------------------------------------------------------------------
  // The buffers, as functions of the mesh

  /** The loops' `vertex_index` attribute. */
  function VertexIndices(loops: seq<Loop>): seq<nat>
  {
    seq(|loops|, i requires 0 <= i < |loops| => loops[i].vertexIndex)
  }

  /** The loops' `normal` attribute. */
  function LoopNormals(loops: seq<Loop>): seq<Vec3>
  {
    seq(|loops|, i requires 0 <= i < |loops| => loops[i].normal)
  }

  /** One position per loop, looked up through the loop's vertex index. */
  function Gather(coords: seq<Vec3>, loopVertices: seq<nat>): (r: seq<Vec3>)
    requires forall i :: 0 <= i < |loopVertices| ==> loopVertices[i] < |coords|
    ensures |r| == |loopVertices|
    ensures forall i :: 0 <= i < |loopVertices| ==> r[i] == coords[loopVertices[i]]
  {
    if loopVertices == [] then []
    else [coords[loopVertices[0]]] + Gather(coords, loopVertices[1..])
  }

  /** The loop triangles' `loops` attribute read into a flat buffer of three
      indices per triangle. */
  function Flatten(tris: seq<LoopTriangle>): (r: seq<nat>)
    ensures |r| == 3 * |tris|
    ensures forall t :: 0 <= t < |tris| ==>
      r[3 * t] == tris[t].a && r[3 * t + 1] == tris[t].b && r[3 * t + 2] == tris[t].c
  {
    if tris == [] then []
    else [tris[0].a, tris[0].b, tris[0].c] + Flatten(tris[1..])
  }

  /** If every triangle corner is below `n`, so is every flattened index. */
  lemma {:induction false} FlattenBelow(tris: seq<LoopTriangle>, n: nat)
    ensures (forall t :: 0 <= t < |tris| ==> tris[t].a < n && tris[t].b < n && tris[t].c < n) ==>
      forall k :: 0 <= k < |Flatten(tris)| ==> Flatten(tris)[k] < n
  {
    if tris != [] {
      FlattenBelow(tris[1..], n);
      if forall t :: 0 <= t < |tris| ==> tris[t].a < n && tris[t].b < n && tris[t].c < n {
        assert forall t :: 0 <= t < |tris| - 1 ==> tris[1..][t] == tris[t + 1];
      }
    }
  }

  /** The colour buffer: all zero without an active colour layer, the
      layer's per-loop colours with one. */
  function LoopColors(m: Mesh): (r: seq<Rgba>)
    ensures m.Valid() ==> |r| == |m.loops|
    ensures m.activeColors.None? ==> forall i :: 0 <= i < |r| ==> r[i] == ZeroRgba
  {
    match m.activeColors
    case None => seq(|m.loops|, _ => ZeroRgba)
    case Some(layer) => layer
  }

  /** The batch `MeshDraw.__init__` builds from a mesh. */
  function BuildBatch(m: Mesh): (b: Batch)
    requires m.Valid()
    ensures b.Aligned()
    ensures |b.positions| == |m.loops| && |b.indices| == 3 * |m.loopTriangles|
    ensures forall i :: 0 <= i < |m.loops| ==>
      b.positions[i] == m.vertices[m.loops[i].vertexIndex] && b.normals[i] == m.loops[i].normal
    ensures m.activeColors.None? ==> forall i :: 0 <= i < |b.colors| ==> b.colors[i] == ZeroRgba
    ensures m.activeColors.Some? ==> b.colors == m.activeColors.value
    ensures forall t :: 0 <= t < |m.loopTriangles| ==>
      b.indices[3 * t] == m.loopTriangles[t].a &&
      b.indices[3 * t + 1] == m.loopTriangles[t].b &&
      b.indices[3 * t + 2] == m.loopTriangles[t].c
    ensures m.TrianglesInRange() ==> b.IndicesInRange()
  {
    FlattenBelow(m.loopTriangles, |m.loops|);
    Batch(Gather(m.vertices, VertexIndices(m.loops)), LoopNormals(m.loops), LoopColors(m), Flatten(m.loopTriangles))
  }

  /** Whether `calc_tangents` succeeds has no effect on any buffer. */
  lemma BuildIgnoresTangents(m: Mesh, tangentsSupported: bool)
    requires m.Valid()
    ensures BuildBatch(m.(tangentsSupported := tangentsSupported)) == BuildBatch(m)
  {
  }

  /** `foreach_get`: the host copies one attribute of every element into a
      preallocated buffer of exactly the right size. */
  method ForeachGet<T>(dst: array<T>, src: seq<T>)
    requires dst.Length == |src|
    modifies dst
    ensures dst[..] == src
  {
    for i := 0 to dst.Length
      invariant forall k :: 0 <= k < i ==> dst[k] == src[k]
    {
      dst[i] := src[i];
    }
  }

  /** The per-loop copy loop of `MeshDraw.__init__`: each loop's position
      is read from the merged vertex buffer through its vertex index. */
  method GatherLoop(vertices: array<Vec3>, mergedVertices: array<Vec3>, loopVertices: array<nat>)
    requires vertices != mergedVertices && vertices.Length == loopVertices.Length
    requires forall i :: 0 <= i < loopVertices.Length ==> loopVertices[i] < mergedVertices.Length
    modifies vertices
    ensures vertices[..] == Gather(mergedVertices[..], loopVertices[..])
  {
    for i := 0 to vertices.Length
      invariant forall k :: 0 <= k < i ==> vertices[k] == mergedVertices[loopVertices[k]]
    {
      vertices[i] := mergedVertices[loopVertices[i]];
    }
  }

  /** The position buffer: the vertex coordinates and the loops' vertex
      indices are read into buffers of their own, then gathered per loop. */
  method FillPositions(vertices: array<Vec3>, mesh: Mesh)
    requires mesh.Valid() && vertices.Length == |mesh.loops|
    modifies vertices
    ensures vertices[..] == Gather(mesh.vertices, VertexIndices(mesh.loops))
  {
    var mergedVertices := new Vec3[|mesh.vertices|];
    ForeachGet(mergedVertices, mesh.vertices);
    var loopVertices := new nat[|mesh.loops|];
    ForeachGet(loopVertices, VertexIndices(mesh.loops));
    GatherLoop(vertices, mergedVertices, loopVertices);
  }

  /** The colour buffer starts zeroed and is overwritten by the active
      colour layer when there is one. */
  method FillColors(color: array<Rgba>, mesh: Mesh)
    requires mesh.Valid() && color.Length == |mesh.loops|
    requires forall k :: 0 <= k < color.Length ==> color[k] == ZeroRgba
    modifies color
    ensures color[..] == LoopColors(mesh)
  {
    if mesh.activeColors.Some? {
      ForeachGet(color, mesh.activeColors.value);
    }
  }

  /** The buffers of `MeshDraw.__init__`, allocated at their final sizes and
      filled in the source's order, and the batch made from them. */
  method FillBuffers(mesh: Mesh) returns (b: Batch)
    requires mesh.Valid()
    ensures b == BuildBatch(mesh)
  {
    var n := |mesh.loops|;
    var vertices := new Vec3[n];
    var color := new Rgba[n](_ => ZeroRgba);
    var normals := new Vec3[n];
    var indices := new nat[3 * |mesh.loopTriangles|];
    FillPositions(vertices, mesh);
    ForeachGet(indices, Flatten(mesh.loopTriangles));
    ForeachGet(normals, LoopNormals(mesh.loops));
    FillColors(color, mesh);
    b := Batch(vertices[..], normals[..], color[..], indices[..]);
  }

  // ---------------------------------------------------------------------
  // Light packing

  /** The `min` helper local to `MeshDraw.draw`. */
  function Min(a: int, b: int): (r: int)
    ensures r <= a && r <= b
    ensures r == a || r == b
  {
    if a > b then b else a
  }

  /** Row `i` of the light matrix once light `v` is written into it: `.xyz`
      gets the direction, the fourth column keeps its zero. */
  function LightRow(v: Vec3): seq<real>
  {
    [v.x, v.y, v.z, 0.0]
  }

  /** The zero 4x4 matrix with the first `min(|lights|, 4)` rows holding
      the light directions. */
  function LightMatrix(lights: seq<Vec3>): (m: Matrix)
    ensures IsMat4(m)
    ensures forall i, j :: 0 <= i < 4 && 0 <= j < 4 ==>
      m[i][j] == if i < |lights| && j < 3 then lights[i].At(j) else 0.0
  {
    seq(4, i requires 0 <= i < 4 => if i < Min(|lights|, 4) then LightRow(lights[i]) else [0.0, 0.0, 0.0, 0.0])
  }

  /** Lights past the fourth are ignored. */
  lemma ExtraLightsIgnored(lights: seq<Vec3>)
    requires |lights| > 4
    ensures LightMatrix(lights) == LightMatrix(lights[..4])
  {
    var m, m' := LightMatrix(lights), LightMatrix(lights[..4]);
    forall i | 0 <= i < 4
      ensures m[i] == m'[i]
    {
      assert |m[i]| == |m'[i]| == 4;
      assert forall j :: 0 <= j < 4 ==> m[i][j] == m'[i][j];
    }
  }

  /** The uploaded matrix is the transpose: entry `[j][i]` is component `j`
      of light `i`, for the first four lights. */
  lemma UploadedLightEntry(lights: seq<Vec3>, i: nat, j: nat)
    requires i < 4 && j < 4
    ensures Transposed(LightMatrix(lights))[j][i] == if i < |lights| && j < 3 then lights[i].At(j) else 0.0
  {
  }

  /** The light-packing loop of `MeshDraw.draw`, on a zero 4x4 matrix. */
  method PackLights(lights: seq<Vec3>) returns (packed: Matrix)
    ensures packed == LightMatrix(lights)
  {
    var m := new real[4, 4]((_, _) => 0.0);
    for i := 0 to Min(|lights|, 4)
      invariant forall r, c :: 0 <= r < 4 && 0 <= c < 4 ==>
        m[r, c] == if r < i && c < 3 then lights[r].At(c) else 0.0
    {
      m[i, 0] := lights[i].x;
      m[i, 1] := lights[i].y;
      m[i, 2] := lights[i].z;
    }
    packed := seq(4, r requires 0 <= r < 4 reads m => seq(4, c requires 0 <= c < 4 reads m => m[r, c]));
    ghost var want := LightMatrix(lights);
    forall r | 0 <= r < 4
      ensures packed[r] == want[r]
    {
      assert |packed[r]| == |want[r]| == 4;
      assert forall c :: 0 <= c < 4 ==> packed[r][c] == want[r][c];
    }
  }

  // ---------------------------------------------------------------------
  // Uniforms and the per-object trace

  /** `uniform_float`/`uniform_bool` raise ValueError for a uniform the
      compiled shader does not accept. */
  predicate Raises(e: GpuEvent, accepted: set<string>)
  {
    e.UniformSet? && e.name !in accepted
  }

  /** The uniform calls of `MeshDraw.draw`, in the order the source makes them. */
  function UniformCalls(transform: Matrix, region: RegionData, lights: seq<Vec3>, settings: Settings): seq<GpuEvent>
  {
    [ UniformSet("matrix_world", MatrixValue(transform)),
      UniformSet("view_matrix", MatrixValue(region.viewMatrix)),
      UniformSet("projection_matrix", MatrixValue(region.windowMatrix)),
      UniformSet("directional_lights", MatrixValue(Transposed(LightMatrix(lights)))),
      UniformSet("render_outlines", BoolValue([settings.enableOutline])),
      UniformSet("outline_width", FloatValue(settings.outlineWidth)),
      UniformSet("shading_sharpness", FloatValue(settings.shadingSharpness)) ]
  }

  /** The seven calls are all uniform sets. */
  lemma UniformCallsAreSets(transform: Matrix, region: RegionData, lights: seq<Vec3>, settings: Settings)
    ensures var calls := UniformCalls(transform, region, lights, settings);
      |calls| == 7 && forall k :: 0 <= k < |calls| ==> calls[k].UniformSet?
  {
  }

  /** How many calls run before the first one that raises (all of them if
      none does): the rest of the `try` block is abandoned. */
  function SetPrefixLength(calls: seq<GpuEvent>, accepted: set<string>): (n: nat)
    ensures n <= |calls|
    ensures forall k :: 0 <= k < n ==> !Raises(calls[k], accepted)
    ensures n < |calls| ==> Raises(calls[n], accepted)
  {
    if calls == [] || Raises(calls[0], accepted) then 0
    else 1 + SetPrefixLength(calls[1..], accepted)
  }

  /** The facts that pin down `SetPrefixLength`. */
  lemma PrefixLengthIs(calls: seq<GpuEvent>, accepted: set<string>, k: nat)
    requires k <= |calls|
    requires forall j :: 0 <= j < k ==> !Raises(calls[j], accepted)
    requires k < |calls| ==> Raises(calls[k], accepted)
    ensures SetPrefixLength(calls, accepted) == k
  {
  }

  /** The trace of one `MeshDraw.draw`: bind, the uniforms set before the
      first failure, and the batch draw, which always happens. */
  function ObjectEvents(batch: Batch, calls: seq<GpuEvent>, accepted: set<string>): seq<GpuEvent>
  {
    [ShaderBind] + calls[..SetPrefixLength(calls, accepted)] + [BatchDraw(batch)]
  }

  /** The bind comes first and the draw last; in between are the calls in
      order, up to the first refused one, none of them refused. */
  lemma ObjectEventsShape(batch: Batch, calls: seq<GpuEvent>, accepted: set<string>)
    ensures var r := ObjectEvents(batch, calls, accepted);
      |r| == SetPrefixLength(calls, accepted) + 2 &&
      r[0] == ShaderBind && r[|r| - 1] == BatchDraw(batch) &&
      forall i :: 0 < i < |r| - 1 ==> r[i] == calls[i - 1] && !Raises(calls[i - 1], accepted)
  {
  }

  /** A trace of uniform sets only draws nothing. */
  lemma {:induction false} NoDrawsInUniforms(calls: seq<GpuEvent>)
    requires forall k :: 0 <= k < |calls| ==> calls[k].UniformSet?
    ensures DrawnBatches(calls) == []
  {
    if calls != [] {
      NoDrawsInUniforms(calls[..|calls| - 1]);
    }
  }

  /** Each `MeshDraw.draw` draws its batch exactly once, however many
      uniform calls fail. */
  lemma DrawsBatchOnce(batch: Batch, transform: Matrix, region: RegionData, lights: seq<Vec3>,
                       settings: Settings, accepted: set<string>)
    ensures DrawnBatches(ObjectEvents(batch, UniformCalls(transform, region, lights, settings), accepted)) == [batch]
  {
    var calls := UniformCalls(transform, region, lights, settings);
    var done := calls[..SetPrefixLength(calls, accepted)];
    UniformCallsAreSets(transform, region, lights, settings);
    NoDrawsInUniforms(done);
    DrawnBatchesAppend([ShaderBind], done);
    DrawnBatchesAppend([ShaderBind] + done, [BatchDraw(batch)]);
    assert DrawnBatches([ShaderBind]) == [] by {
      assert [ShaderBind][..0] == [];
    }
    assert DrawnBatches([BatchDraw(batch)]) == [batch] by {
      assert [BatchDraw(batch)][..0] == [];
    }
  }

  /** When the shader accepts every uniform, all seven are set in order. */
  lemma AllUniformsSet(batch: Batch, calls: seq<GpuEvent>, accepted: set<string>)
    requires forall k :: 0 <= k < |calls| ==> calls[k].UniformSet? && calls[k].name in accepted
    ensures ObjectEvents(batch, calls, accepted) == [ShaderBind] + calls + [BatchDraw(batch)]
  {
    assert calls[..|calls|] == calls;
  }

  /** One uniform call: it raises (and records nothing) exactly when the
      shader does not accept the name. */
  method SetUniform(events: seq<GpuEvent>, name: string, value: UniformValue, accepted: set<string>)
    returns (events': seq<GpuEvent>, raised: bool)
    ensures raised == Raises(UniformSet(name, value), accepted)
    ensures !raised ==> events' == events + [UniformSet(name, value)]
    ensures raised ==> events' == events
  {
    raised := name !in accepted;
    events' := if raised then events else events + [UniformSet(name, value)];
  }

  /** The `try` block of `MeshDraw.draw`: the uniform calls in order, up to
      the first one the shader refuses. */
  method SetUniforms(transform: Matrix, region: RegionData, lights: seq<Vec3>, settings: Settings, accepted: set<string>)
    returns (events: seq<GpuEvent>)
    ensures var calls := UniformCalls(transform, region, lights, settings);
      events == calls[..SetPrefixLength(calls, accepted)]
  {
    ghost var calls := UniformCalls(transform, region, lights, settings);
    ghost var k := 0;
    events := [];
    var raised;
    events, raised := SetUniform(events, "matrix_world", MatrixValue(transform), accepted);
    if !raised {
      k := 1;
      assert events == calls[..1];
      events, raised := SetUniform(events, "view_matrix", MatrixValue(region.viewMatrix), accepted);
    }
    if !raised {
      k := 2;
      assert events == calls[..2];
      events, raised := SetUniform(events, "projection_matrix", MatrixValue(region.windowMatrix), accepted);
    }
    if !raised {
      k := 3;
      assert events == calls[..3];
      var packed := PackLights(lights);
      events, raised := SetUniform(events, "directional_lights", MatrixValue(Transposed(packed)), accepted);
    }
    if !raised {
      k := 4;
      assert events == calls[..4];
      events, raised := SetUniform(events, "render_outlines", BoolValue([settings.enableOutline]), accepted);
    }
    if !raised {
      k := 5;
      assert events == calls[..5];
      events, raised := SetUniform(events, "outline_width", FloatValue(settings.outlineWidth), accepted);
    }
    if !raised {
      k := 6;
      assert events == calls[..6];
      events, raised := SetUniform(events, "shading_sharpness", FloatValue(settings.shadingSharpness), accepted);
    }
    if !raised {
      k := 7;
      assert events == calls[..7];
    }
    PrefixLengthIs(calls, accepted, k);
  }

  // ---------------------------------------------------------------------
  // The class

  class MeshDraw {
    /** The batch made by `batch_for_shader` from the buffers. */
    const batch: Batch
    /** The object this draw belongs to, set by the engine after construction. */
    var sceneObject: Option<SceneObject>

    /** Builds the buffers of `mesh` in preallocated arrays and keeps the batch. */
    constructor (mesh: Mesh)
      requires mesh.Valid()
      ensures batch == BuildBatch(mesh)
      ensures sceneObject == None
    {
      // `calc_tangents` may fail; the flag it sets is never read
      var useSplitNormals := true;
      if !mesh.tangentsSupported {
        useSplitNormals := false;
      }
      var built := FillBuffers(mesh);
      batch := built;
      sceneObject := None;
    }

    /** Binds the shader, sets the uniforms inside one `try` (a failing call
        abandons the rest), then draws the batch. */
    method Draw(transform: Matrix, region: RegionData, lights: seq<Vec3>, settings: Settings, accepted: set<string>)
      returns (events: seq<GpuEvent>)
      ensures events == ObjectEvents(batch, UniformCalls(transform, region, lights, settings), accepted)
    {
      var uniforms := SetUniforms(transform, region, lights, settings, accepted);
      events := [ShaderBind] + uniforms;
      events := events + [BatchDraw(batch)];
    }
  }
}

/** `CustomRenderEngine`: the viewport engine's cache of mesh draws, its
    ordered lists of mesh objects and sun-light directions, and the
    per-frame draw loop.

    `view_update` fills the cache from every mesh object on its first call
    and, later, rebuilds only the mesh objects whose update says the
    geometry changed; it rebuilds the two lists on the first call and
    whenever an object was added, removed or changed type. `view_draw`
    draws every listed mesh object from the cache in list order. */
module RenderEngine {
  import opened Host
  import opened Gpu
  import opened MeshDrawing

  // ---------------------------------------------------------------------
  // The cache, as a function of the datablocks rebuilt

  /** The ids of the updates flagged `is_updated_geometry`, in update order. */
  function GeometryUpdates(updates: seq<Update>): (r: seq<Datablock>)
    ensures |r| <= |updates|
    ensures UpdatedMeshesValid(updates) ==> MeshesValid(r)
    ensures forall d :: d in r <==> exists i :: 0 <= i < |updates| && updates[i].isUpdatedGeometry && updates[i].id == d
  {
    if updates == [] then []
    else
      var u := updates[|updates| - 1];
      GeometryUpdates(updates[..|updates| - 1]) + (if u.isUpdatedGeometry then [u.id] else [])
  }

  /** Filtering `a + b` filters `a`, then `b`. */
  lemma {:induction false} GeometryUpdatesAppend(a: seq<Update>, b: seq<Update>)
    ensures GeometryUpdates(a + b) == GeometryUpdates(a) + GeometryUpdates(b)
  {
    if b == [] {
      assert a + b == a;
    } else {
      var n := |b| - 1;
      assert (a + b)[..|a + b| - 1] == a + b[..n];
      GeometryUpdatesAppend(a, b[..n]);
    }
  }

  /** Scanning one more update. */
  lemma GeometryUpdatesSnoc(updates: seq<Update>, i: nat)
    requires i < |updates|
    ensures GeometryUpdates(updates[..i + 1]) ==
      GeometryUpdates(updates[..i]) + (if updates[i].isUpdatedGeometry then [updates[i].id] else [])
  {
    assert updates[..i + 1][..i] == updates[..i];
  }

  /** The datablocks `view_update` builds a draw for (if they are mesh
      objects): all ids on the first call, the geometry updates after. */
  function Rebuilt(dg: Depsgraph, firstTime: bool): seq<Datablock>
  {
    if firstTime then dg.ids else GeometryUpdates(dg.updates)
  }

  /** The names of the mesh objects among `blocks`. */
  function MeshNames(blocks: seq<Datablock>): (r: set<string>)
    ensures forall i :: 0 <= i < |blocks| && IsMeshBlock(blocks[i]) ==> blocks[i].obj.name in r
    ensures forall k :: k in r ==> exists i :: 0 <= i < |blocks| && IsMeshBlock(blocks[i]) && blocks[i].obj.name == k
  {
    if blocks == [] then {}
    else
      var b := blocks[|blocks| - 1];
      MeshNames(blocks[..|blocks| - 1]) + (if IsMeshBlock(b) then {b.obj.name} else {})
  }

  /** A later call rebuilds a name exactly when some update flagged as a
      geometry change is of a mesh object of that name. */
  lemma GeometryUpdateNames(updates: seq<Update>, k: string)
    ensures k in MeshNames(GeometryUpdates(updates)) <==>
      exists i :: 0 <= i < |updates| && updates[i].isUpdatedGeometry && IsMeshBlock(updates[i].id) && updates[i].id.obj.name == k
  {
    var r := GeometryUpdates(updates);
    if k in MeshNames(r) {
      var j :| 0 <= j < |r| && IsMeshBlock(r[j]) && r[j].obj.name == k;
      assert r[j] in r;
      var i :| 0 <= i < |updates| && updates[i].isUpdatedGeometry && updates[i].id == r[j];
      assert updates[i].id.obj.name == k;
    }
    if exists i :: 0 <= i < |updates| && updates[i].isUpdatedGeometry && IsMeshBlock(updates[i].id) && updates[i].id.obj.name == k {
      var i :| 0 <= i < |updates| && updates[i].isUpdatedGeometry && IsMeshBlock(updates[i].id) && updates[i].id.obj.name == k;
      assert updates[i].id in r;
      var j :| 0 <= j < |r| && r[j] == updates[i].id;
      assert IsMeshBlock(r[j]);
    }
  }

  /** The cache after building a draw, keyed by object name, for every mesh
      object of `blocks` in turn: a later object of the same name replaces
      an earlier entry. */
  function Refresh(cache: map<string, Batch>, blocks: seq<Datablock>): map<string, Batch>
    requires MeshesValid(blocks)
  {
    if blocks == [] then cache
    else
      var c := Refresh(cache, blocks[..|blocks| - 1]);
      var b := blocks[|blocks| - 1];
      if IsMeshBlock(b) then c[b.obj.name := BuildBatch(b.obj.kind.mesh)] else c
  }

  /** Scanning one more datablock. */
  lemma RefreshSnoc(cache: map<string, Batch>, blocks: seq<Datablock>, b: Datablock)
    requires MeshesValid(blocks) && (IsMeshBlock(b) ==> b.obj.kind.mesh.Valid())
    ensures MeshesValid(blocks + [b])
    ensures Refresh(cache, blocks + [b]) ==
      if IsMeshBlock(b) then Refresh(cache, blocks)[b.obj.name := BuildBatch(b.obj.kind.mesh)] else Refresh(cache, blocks)
    ensures MeshNames(blocks + [b]) == MeshNames(blocks) + (if IsMeshBlock(b) then {b.obj.name} else {})
  {
    assert (blocks + [b])[..|blocks|] == blocks;
    assert forall j :: 0 <= j < |blocks| ==> (blocks + [b])[j] == blocks[j];
  }

  /** No key is ever removed; the keys added are the mesh objects' names. */
  lemma {:induction false} RefreshKeys(cache: map<string, Batch>, blocks: seq<Datablock>)
    requires MeshesValid(blocks)
    ensures Refresh(cache, blocks).Keys == cache.Keys + MeshNames(blocks)
  {
    if blocks != [] {
      RefreshKeys(cache, blocks[..|blocks| - 1]);
    }
  }

  /** An entry whose name no rebuilt mesh object carries keeps its batch. */
  lemma {:induction false} RefreshKeeps(cache: map<string, Batch>, blocks: seq<Datablock>, k: string)
    requires MeshesValid(blocks)
    requires k in cache && k !in MeshNames(blocks)
    ensures k in Refresh(cache, blocks) && Refresh(cache, blocks)[k] == cache[k]
  {
    if blocks != [] {
      var n := |blocks| - 1;
      assert MeshNames(blocks[..n]) <= MeshNames(blocks);
      RefreshKeeps(cache, blocks[..n], k);
    }
  }

  /** The entry of a rebuilt name is the batch of the last mesh object of
      that name. */
  lemma {:induction false} RefreshLastWins(cache: map<string, Batch>, blocks: seq<Datablock>, i: nat)
    requires MeshesValid(blocks)
    requires i < |blocks| && IsMeshBlock(blocks[i])
    requires forall j :: i < j < |blocks| && IsMeshBlock(blocks[j]) ==> blocks[j].obj.name != blocks[i].obj.name
    ensures blocks[i].obj.name in Refresh(cache, blocks)
    ensures Refresh(cache, blocks)[blocks[i].obj.name] == BuildBatch(blocks[i].obj.kind.mesh)
  {
    var n := |blocks| - 1;
    if i < n {
      RefreshLastWins(cache, blocks[..n], i);
    }
  }

  /** Every cached batch keeps its attribute buffers aligned. */
  lemma {:induction false} RefreshAligned(cache: map<string, Batch>, blocks: seq<Datablock>)
    requires MeshesValid(blocks)
    requires forall k :: k in cache ==> cache[k].Aligned()
    ensures forall k :: k in Refresh(cache, blocks) ==> Refresh(cache, blocks)[k].Aligned()
  {
    if blocks != [] {
      RefreshAligned(cache, blocks[..|blocks| - 1]);
    }
  }

  // ---------------------------------------------------------------------
  // The instance lists

  predicate IsSun(o: SceneObject)
  {
    o.kind.LightObject? && o.kind.lightType == Sun
  }

  /** The mesh objects among the instances, in instance order. */
  function MeshInstances(objs: seq<SceneObject>): (r: seq<SceneObject>)
    ensures |r| <= |objs|
    ensures forall o :: o in r <==> o in objs && o.kind.MeshObject?
  {
    if objs == [] then []
    else
      var o := objs[|objs| - 1];
      MeshInstances(objs[..|objs| - 1]) + (if o.kind.MeshObject? then [o] else [])
  }

  /** The directions of the sun lights among the instances, in instance order. */
  function SunDirections(objs: seq<SceneObject>): (r: seq<Vec3>)
    ensures |r| <= |objs|
    ensures forall i :: 0 <= i < |objs| && IsSun(objs[i]) ==> objs[i].kind.direction in r
    ensures forall d :: d in r ==> exists i :: 0 <= i < |objs| && IsSun(objs[i]) && objs[i].kind.direction == d
  {
    if objs == [] then []
    else
      var o := objs[|objs| - 1];
      SunDirections(objs[..|objs| - 1]) + (if IsSun(o) then [o.kind.direction] else [])
  }

  /** Scanning `a` then `b` lists `a`'s mesh objects before `b`'s. */
  lemma {:induction false} MeshInstancesAppend(a: seq<SceneObject>, b: seq<SceneObject>)
    ensures MeshInstances(a + b) == MeshInstances(a) + MeshInstances(b)
  {
    if b == [] {
      assert a + b == a;
    } else {
      var n := |b| - 1;
      assert (a + b)[..|a + b| - 1] == a + b[..n];
      MeshInstancesAppend(a, b[..n]);
    }
  }

  /** Scanning `a` then `b` lists `a`'s sun directions before `b`'s. */
  lemma {:induction false} SunDirectionsAppend(a: seq<SceneObject>, b: seq<SceneObject>)
    ensures SunDirections(a + b) == SunDirections(a) + SunDirections(b)
  {
    if b == [] {
      assert a + b == a;
    } else {
      var n := |b| - 1;
      assert (a + b)[..|a + b| - 1] == a + b[..n];
      SunDirectionsAppend(a, b[..n]);
    }
  }

  // ---------------------------------------------------------------------
  // The frame trace

  /** What the host supplies for one redraw: each object's current world
      matrix, the camera, the style settings and the uniform names the
      compiled shader accepts. */
  datatype FrameContext = FrameContext(
    worldMatrix: SceneObject -> Matrix,
    region: RegionData,
    settings: Settings,
    accepted: set<string>)

  datatype DrawOutcome = Completed | KeyError(key: string)

  /** The GPU state set before the draw loop. */
  const FrameSetup: seq<GpuEvent> := [DepthMaskSet(true), DepthTestSet(LessEqual), FaceCullingSet(Back)]

  /** The GPU state reset after the draw loop. */
  const FrameReset: seq<GpuEvent> := [DepthTestSet(NoDepthTest), DepthMaskSet(false), FaceCullingSet(NoCulling)]

  predicate AllCached(objs: seq<SceneObject>, cache: map<string, Batch>)
  {
    forall i :: 0 <= i < |objs| ==> objs[i].name in cache
  }

  /** How many objects can be looked up before the first one missing from
      the cache (all of them if none is missing). */
  function CachedPrefixLength(objs: seq<SceneObject>, cache: map<string, Batch>): (n: nat)
    ensures n <= |objs|
    ensures AllCached(objs[..n], cache)
    ensures n < |objs| ==> objs[n].name !in cache
  {
    if objs == [] || objs[0].name !in cache then 0
    else
      var n := 1 + CachedPrefixLength(objs[1..], cache);
      assert forall i :: 1 <= i < n ==> objs[..n][i] == objs[1..][..n - 1][i - 1];
      n
  }

  /** The trace of drawing object `o` with `batch` in this frame. */
  function DrawEvents(batch: Batch, o: SceneObject, lights: seq<Vec3>, ctx: FrameContext): seq<GpuEvent>
  {
    ObjectEvents(batch, UniformCalls(ctx.worldMatrix(o), ctx.region, lights, ctx.settings), ctx.accepted)
  }

  /** The draws of the objects, in order, each with its own world matrix. */
  function FrameEvents(objs: seq<SceneObject>, cache: map<string, Batch>, lights: seq<Vec3>, ctx: FrameContext): seq<GpuEvent>
    requires AllCached(objs, cache)
  {
    if objs == [] then []
    else
      var o := objs[|objs| - 1];
      FrameEvents(objs[..|objs| - 1], cache, lights, ctx) + DrawEvents(cache[o.name], o, lights, ctx)
  }

  /** The cached batch of each object, in object order. */
  function CachedBatches(objs: seq<SceneObject>, cache: map<string, Batch>): (r: seq<Batch>)
    requires AllCached(objs, cache)
    ensures |r| == |objs|
    ensures forall i :: 0 <= i < |objs| ==> r[i] == cache[objs[i].name]
  {
    if objs == [] then []
    else CachedBatches(objs[..|objs| - 1], cache) + [cache[objs[|objs| - 1].name]]
  }

  /** Drawing one more object appends its draw's trace. */
  lemma FrameEventsSnoc(objs: seq<SceneObject>, cache: map<string, Batch>, lights: seq<Vec3>, ctx: FrameContext, i: nat)
    requires i < |objs| && forall j :: 0 <= j <= i ==> objs[j].name in cache
    ensures AllCached(objs[..i], cache) && AllCached(objs[..i + 1], cache)
    ensures FrameEvents(objs[..i + 1], cache, lights, ctx) ==
      FrameEvents(objs[..i], cache, lights, ctx) + DrawEvents(cache[objs[i].name], objs[i], lights, ctx)
  {
    assert objs[..i + 1][..i] == objs[..i];
    assert forall j :: 0 <= j < i ==> objs[..i][j] == objs[..i + 1][j];
  }

  /** Exactly one batch draw per object, in object order, each of the
      object's cached batch. */
  lemma {:induction false} FrameDrawsEachOnce(objs: seq<SceneObject>, cache: map<string, Batch>, lights: seq<Vec3>, ctx: FrameContext)
    requires AllCached(objs, cache)
    ensures DrawnBatches(FrameEvents(objs, cache, lights, ctx)) == CachedBatches(objs, cache)
  {
    if objs != [] {
      var n := |objs| - 1;
      var o := objs[n];
      FrameDrawsEachOnce(objs[..n], cache, lights, ctx);
      var head := FrameEvents(objs[..n], cache, lights, ctx);
      var tail := DrawEvents(cache[o.name], o, lights, ctx);
      assert FrameEvents(objs, cache, lights, ctx) == head + tail;
      DrawnBatchesAppend(head, tail);
      DrawsBatchOnce(cache[o.name], ctx.worldMatrix(o), ctx.region, lights, ctx.settings, ctx.accepted);
    }
  }

  /** The state changes around the loop draw nothing: a frame's trace, with
      or without the final reset, draws each object's cached batch once, in
      object order. */
  lemma FrameTraceDraws(objs: seq<SceneObject>, cache: map<string, Batch>, lights: seq<Vec3>, ctx: FrameContext)
    requires AllCached(objs, cache)
    ensures DrawnBatches(FrameSetup + FrameEvents(objs, cache, lights, ctx)) == CachedBatches(objs, cache)
    ensures DrawnBatches(FrameSetup + FrameEvents(objs, cache, lights, ctx) + FrameReset) == CachedBatches(objs, cache)
  {
    var body := FrameEvents(objs, cache, lights, ctx);
    FrameDrawsEachOnce(objs, cache, lights, ctx);
    assert DrawnBatches(FrameSetup) == [] by {
      assert FrameSetup[..2][..1][..0] == [];
    }
    assert DrawnBatches(FrameReset) == [] by {
      assert FrameReset[..2][..1][..0] == [];
    }
    DrawnBatchesAppend(FrameSetup, body);
    DrawnBatchesAppend(FrameSetup + body, FrameReset);
  }

  /** The three properties of `CachedPrefixLength` pin it down. */
  lemma CachedPrefixLengthIs(objs: seq<SceneObject>, cache: map<string, Batch>, n: nat)
    requires n <= |objs| && AllCached(objs[..n], cache)
    requires n < |objs| ==> objs[n].name !in cache
    ensures CachedPrefixLength(objs, cache) == n
  {
  }

  // ---------------------------------------------------------------------
  // The final-render placeholder

  const PreviewColor: Rgba := Rgba(0.1, 0.2, 0.1, 1.0)
  const FinalColor: Rgba := Rgba(0.2, 0.1, 0.1, 1.0)

  /** The flat image `render` hands to the host for a `sizeX` by `sizeY` result. */
  function RenderRect(sizeX: nat, sizeY: nat, isPreview: bool): (rect: seq<Rgba>)
    ensures |rect| == sizeX * sizeY
    ensures forall i :: 0 <= i < |rect| ==> rect[i] == if isPreview then PreviewColor else FinalColor
  {
    var color := if isPreview then PreviewColor else FinalColor;
    seq(sizeX * sizeY, _ => color)
  }

  // ---------------------------------------------------------------------
  // The engine

  class CustomRenderEngine {
    /** `scene_data` is set (to `[0]`) by the first `view_update`. */
    var sceneData: bool
    var drawCalls: map<string, MeshDraw>
    var lights: seq<Vec3>
    var meshObjects: seq<SceneObject>

    ghost predicate Valid()
      reads this
    {
      (!sceneData ==> drawCalls == map[] && lights == [] && meshObjects == []) &&
      (forall k :: k in drawCalls ==> drawCalls[k].batch.Aligned()) &&
      (forall i :: 0 <= i < |meshObjects| ==> meshObjects[i].kind.MeshObject?)
    }

    /** The batch of every cache entry. */
    function Batches(): (r: map<string, Batch>)
      reads this
      ensures r.Keys == drawCalls.Keys
      ensures forall k :: k in drawCalls ==> r[k] == drawCalls[k].batch
    {
      map k | k in drawCalls :: drawCalls[k].batch
    }

    constructor ()
      ensures Valid() && !sceneData
      ensures drawCalls == map[] && lights == [] && meshObjects == []
    {
      sceneData := false;
      drawCalls := map[];
      lights := [];
      meshObjects := [];
    }

    /** Builds a draw for the mesh object `obj` and stores it under its name. */
    method CacheDraw(obj: SceneObject)
      requires obj.kind.MeshObject? && obj.kind.mesh.Valid()
      modifies this`drawCalls
      ensures drawCalls.Keys == old(drawCalls).Keys + {obj.name}
      ensures forall k :: k in old(drawCalls) && k != obj.name ==> drawCalls[k] == old(drawCalls)[k]
      ensures fresh(drawCalls[obj.name])
      ensures drawCalls[obj.name].batch == BuildBatch(obj.kind.mesh)
      ensures drawCalls[obj.name].sceneObject == Some(obj)
      ensures Batches() == old(Batches())[obj.name := BuildBatch(obj.kind.mesh)]
    {
      var draw := new MeshDraw(obj.kind.mesh);
      draw.sceneObject := Some(obj);
      drawCalls := drawCalls[obj.name := draw];
    }

    /** The first-call scan: a draw for every mesh object among the ids. */
    method CacheFromIds(ids: seq<Datablock>)
      requires MeshesValid(ids)
      modifies this`drawCalls
      ensures Batches() == Refresh(old(Batches()), ids)
      ensures forall k :: k in old(drawCalls) && k !in MeshNames(ids) ==> k in drawCalls && drawCalls[k] == old(drawCalls)[k]
      ensures forall k :: k in MeshNames(ids) ==> k in drawCalls && fresh(drawCalls[k])
    {
      for i := 0 to |ids|
        invariant Batches() == Refresh(old(Batches()), ids[..i])
        invariant forall k :: k in old(drawCalls) && k !in MeshNames(ids[..i]) ==> k in drawCalls && drawCalls[k] == old(drawCalls)[k]
        invariant forall k :: k in MeshNames(ids[..i]) ==> k in drawCalls && fresh(drawCalls[k])
      {
        var datablock := ids[i];
        assert ids[..i + 1] == ids[..i] + [datablock];
        RefreshSnoc(old(Batches()), ids[..i], datablock);
        if IsMeshBlock(datablock) {
          CacheDraw(datablock.obj);
        }
      }
      assert ids[..|ids|] == ids;
    }

    /** A later call's scan: a new draw for every mesh object whose update
        says its geometry changed. */
    method CacheFromUpdates(updates: seq<Update>)
      requires UpdatedMeshesValid(updates)
      modifies this`drawCalls
      ensures Batches() == Refresh(old(Batches()), GeometryUpdates(updates))
      ensures forall k :: k in old(drawCalls) && k !in MeshNames(GeometryUpdates(updates)) ==>
        k in drawCalls && drawCalls[k] == old(drawCalls)[k]
      ensures forall k :: k in MeshNames(GeometryUpdates(updates)) ==> k in drawCalls && fresh(drawCalls[k])
    {
      for i := 0 to |updates|
        invariant MeshesValid(GeometryUpdates(updates[..i]))
        invariant Batches() == Refresh(old(Batches()), GeometryUpdates(updates[..i]))
        invariant forall k :: k in old(drawCalls) && k !in MeshNames(GeometryUpdates(updates[..i])) ==>
          k in drawCalls && drawCalls[k] == old(drawCalls)[k]
        invariant forall k :: k in MeshNames(GeometryUpdates(updates[..i])) ==> k in drawCalls && fresh(drawCalls[k])
      {
        var update := updates[i];
        GeometryUpdatesSnoc(updates, i);
        assert UpdatedMeshesValid(updates[..i + 1]);
        var datablock := update.id;
        ghost var done := GeometryUpdates(updates[..i]);
        if update.isUpdatedGeometry {
          RefreshSnoc(old(Batches()), done, datablock);
        } else {
          assert GeometryUpdates(updates[..i + 1]) == done;
        }
        if IsMeshBlock(datablock) && update.isUpdatedGeometry {
          CacheDraw(datablock.obj);
        }
      }
      assert updates[..|updates|] == updates;
    }

    /** The instance scans: the mesh objects, then the sun-light directions. */
    method RebuildLists(instances: seq<SceneObject>)
      modifies this`meshObjects, this`lights
      ensures meshObjects == MeshInstances(instances)
      ensures lights == SunDirections(instances)
    {
      RebuildMeshObjects(instances);
      RebuildLights(instances);
    }

    /** The first instance scan: every mesh-type object, in instance order. */
    method RebuildMeshObjects(instances: seq<SceneObject>)
      modifies this`meshObjects
      ensures meshObjects == MeshInstances(instances)
    {
      meshObjects := [];
      for i := 0 to |instances|
        invariant meshObjects == MeshInstances(instances[..i])
      {
        var obj := instances[i];
        assert instances[..i + 1] == instances[..i] + [obj];
        if obj.kind.MeshObject? {
          meshObjects := meshObjects + [obj];
        }
      }
      assert instances[..|instances|] == instances;
    }

    /** The second instance scan: the direction of every sun light, in instance order. */
    method RebuildLights(instances: seq<SceneObject>)
      modifies this`lights
      ensures lights == SunDirections(instances)
    {
      lights := [];
      for i := 0 to |instances|
        invariant lights == SunDirections(instances[..i])
      {
        var obj := instances[i];
        assert instances[..i + 1] == instances[..i] + [obj];
        if obj.kind.LightObject? && obj.kind.lightType == Sun {
          lights := lights + [obj.kind.direction];
        }
      }
      assert instances[..|instances|] == instances;
    }

    /** `view_update`: refreshes the cache and, when needed, the lists. */
    method ViewUpdate(dg: Depsgraph)
      requires Valid()
      requires !sceneData ==> MeshesValid(dg.ids)
      requires sceneData ==> UpdatedMeshesValid(dg.updates)
      modifies this
      ensures Valid() && sceneData
      ensures Batches() == Refresh(old(Batches()), Rebuilt(dg, !old(sceneData)))
      ensures forall k :: k in old(drawCalls) && k !in MeshNames(Rebuilt(dg, !old(sceneData))) ==>
        k in drawCalls && drawCalls[k] == old(drawCalls)[k]
      ensures forall k :: k in MeshNames(Rebuilt(dg, !old(sceneData))) ==> k in drawCalls && fresh(drawCalls[k])
      ensures if !old(sceneData) || dg.objectTypeUpdated
        then meshObjects == MeshInstances(dg.objectInstances) && lights == SunDirections(dg.objectInstances)
        else meshObjects == old(meshObjects) && lights == old(lights)
    {
      var firstTime := !sceneData;
      if firstTime {
        sceneData := true;
        CacheFromIds(dg.ids);
      } else {
        CacheFromUpdates(dg.updates);
      }
      RefreshAligned(old(Batches()), Rebuilt(dg, firstTime));
      if firstTime || dg.objectTypeUpdated {
        RebuildLists(dg.objectInstances);
      }
    }

    /** The body of the draw loop: look the object's draw up by name and draw it. */
    method DrawObject(obj: SceneObject, ctx: FrameContext) returns (events: seq<GpuEvent>)
      requires obj.name in drawCalls
      ensures events == DrawEvents(Batches()[obj.name], obj, lights, ctx)
    {
      var draw := drawCalls[obj.name];
      events := draw.Draw(ctx.worldMatrix(obj), ctx.region, lights, ctx.settings, ctx.accepted);
    }

    /** The drawing loop of `view_draw`: draws the listed mesh objects in
        order and stops at the first one whose name is not cached, returning
        how many were drawn. */
    method DrawObjects(ctx: FrameContext) returns (trace: seq<GpuEvent>, n: nat)
      ensures n == CachedPrefixLength(meshObjects, Batches())
      ensures trace == FrameEvents(meshObjects[..n], Batches(), lights, ctx)
    {
      ghost var cache := Batches();
      trace := [];
      n := 0;
      while n < |meshObjects| && meshObjects[n].name in drawCalls
        invariant n <= |meshObjects|
        invariant forall j :: 0 <= j < n ==> meshObjects[j].name in cache
        invariant trace == FrameEvents(meshObjects[..n], cache, lights, ctx)
      {
        var events := DrawObject(meshObjects[n], ctx);
        FrameEventsSnoc(meshObjects, cache, lights, ctx, n);
        trace := trace + events;
        n := n + 1;
      }
      CachedPrefixLengthIs(meshObjects, cache, n);
    }

    /** `view_draw`: sets the depth and culling state, draws every listed
        mesh object from the cache, and resets the state. A name missing
        from the cache raises KeyError there, before the reset. */
    method ViewDraw(ctx: FrameContext) returns (trace: seq<GpuEvent>, outcome: DrawOutcome)
      ensures var n := CachedPrefixLength(meshObjects, Batches());
        n == |meshObjects| ==>
          outcome == Completed && trace == FrameSetup + FrameEvents(meshObjects, Batches(), lights, ctx) + FrameReset
      ensures var n := CachedPrefixLength(meshObjects, Batches());
        n < |meshObjects| ==>
          outcome == KeyError(meshObjects[n].name) && trace == FrameSetup + FrameEvents(meshObjects[..n], Batches(), lights, ctx)
    {
      var drawn, n := DrawObjects(ctx);
      trace := FrameSetup + drawn;
      if n < |meshObjects| {
        outcome := KeyError(meshObjects[n].name);
      } else {
        assert meshObjects[..n] == meshObjects;
        trace := trace + FrameReset;
        outcome := Completed;
      }
    }
  }
}

# Custom viewport render engine, modelled in Dafny

This is a model of the core of `custom_render_engine.py`, a Python render engine
for Blender's 3D viewport. It covers three parts.

- **Mesh buffers (`MeshDraw.__init__`).** An indexed mesh becomes flat per-loop
  buffers: one position, normal and colour for each face corner ("loop"), and
  three loop indices for each triangle. The buffers are preallocated arrays filled
  by copy loops. The object keeps the GPU batch made from them.
- **Engine state (`CustomRenderEngine.view_update`).** The engine caches one draw
  per mesh object, keyed by object name. The first call fills the cache from every
  mesh object. Later calls rebuild only the objects whose update reports a geometry
  change. The ordered lists of mesh objects and sun-light directions are rebuilt on
  the first call, and whenever the object type was updated.
- **Frame draw (`view_draw`, `MeshDraw.draw`).** Each frame sets the depth and
  culling state and looks up every listed mesh object in the cache. For each one it
  binds the shader and sets the uniforms inside one `try`, so the first refused
  uniform abandons the rest, and then always draws the batch. At the end it resets
  the state. The up to four light directions are packed into a zero 4x4 matrix,
  which is uploaded transposed.

Modules:

- `Host` (`host.dfy`) holds the scene snapshot the host hands to the engine:
  objects, meshes, updates, the dependency graph and the settings.
- `Gpu` (`gpu.dfy`) holds batches, uniform values, 4x4 matrices, and the trace of
  GPU calls (`GpuEvent`). The GPU is observed only through this trace.
- `MeshDrawing` (`mesh_draw.dfy`) holds the `MeshDraw` class, its buffer loops, the
  light packing and the per-object draw.
- `RenderEngine` (`render_engine.dfy`) holds the `CustomRenderEngine` class and the
  functions that specify its cache, its lists and its frame trace.

Each method is specified by a function. The properties are proved about those
functions:

| Method | Function |
|---|---|
| `MeshDraw` constructor | `BuildBatch` |
| `ViewUpdate` | `Refresh`, `MeshInstances`, `SunDirections` |
| `ViewDraw` | `FrameEvents`, `CachedPrefixLength` |
| `PackLights` | `LightMatrix` |
| `SetUniforms` | `SetPrefixLength` |

The host supplies some inputs as parameters:

- the uniform names the compiled shader accepts (`accepted`);
- each object's current world matrix (`FrameContext.worldMatrix`);
- each sun light's world direction (`LightObject.direction`);
- whether `calc_tangents` succeeds (`Mesh.tangentsSupported`).

Floating-point values are `real`s. The engine only copies them.

Three behaviours of the code shape the model:

- A listed object with no cache entry raises KeyError at
  `self.draw_calls[object.name]` (line 160). The frame stops there, before the
  state reset. This is modelled as the outcome `KeyError(name)`.
- The seven uniform calls share one `try` (lines 224-236). The first call that
  raises ValueError abandons every later call. The batch is still drawn (line 238).
- A failing `calc_tangents` sets the flag `use_split_normals`, which nothing reads
  (lines 178-182). No buffer depends on it (`BuildIgnoresTangents`).

`CustomRenderEngine.Batches` is the cache's abstraction function: the batch of
each draw in `drawCalls`, under the same name. The engine's contracts are stated
through it.

## Model

| member | source | states |
|---|---|---|
| Gpu.Transposed | custom_render_engine.py:232 | the transpose of a 4x4 matrix is 4x4, and entry [i][j] is the original's [j][i] |
| MeshDrawing.Gather | custom_render_engine.py:195-196 | one position per loop: entry i is the vertex coordinate at loop i's vertex index |
| MeshDrawing.Flatten | custom_render_engine.py:187-198 | the index buffer has three entries per loop triangle; entries 3t, 3t+1, 3t+2 are triangle t's loop indices, unchanged |
| MeshDrawing.FlattenBelow | custom_render_engine.py:198 | if every triangle corner is below n, every flattened index is below n |
| MeshDrawing.BuildBatch | custom_render_engine.py:184-214 | the batch of a valid mesh: one position, normal and colour per loop; 3 indices per triangle; positions gathered through the vertex index; normals copied; colours all zero without a colour layer and equal to the layer with one; indices are the triangles' loops; all indices below the loop count when the triangles refer to existing loops |
| MeshDrawing.BuildIgnoresTangents | custom_render_engine.py:178-182 | whether `calc_tangents` succeeds changes no buffer |
| MeshDrawing.ForeachGet | custom_render_engine.py:190-201 | `foreach_get` into a buffer of the right length leaves exactly the source attribute in it |
| MeshDrawing.GatherLoop | custom_render_engine.py:195-196 | the per-loop loop writes position i from the merged vertex buffer at loop i's vertex index, for every loop |
| MeshDrawing.FillPositions | custom_render_engine.py:189-196 | reading the coordinates and vertex indices and then gathering produces the gathered positions |
| MeshDrawing.LoopColors | custom_render_engine.py:185-201 | definition of the colour buffer: one entry per loop for a valid mesh, all zero without an active colour layer, the layer itself with one (the full contents are in `BuildBatch`) |
| MeshDrawing.FillColors | custom_render_engine.py:185-201 | the zeroed colour buffer stays zero without an active layer and becomes the layer's colours with one |
| MeshDrawing.FillBuffers | custom_render_engine.py:184-214 | the four buffers, allocated and filled in the source's order, form exactly the batch `BuildBatch` describes |
| MeshDrawing.MeshDraw.constructor | custom_render_engine.py:174-214 | a new draw keeps the batch of its mesh and has no object yet |
| MeshDrawing.Min | custom_render_engine.py:217-221 | the local `min` returns one of its arguments, and it is no larger than either |
| MeshDrawing.LightMatrix | custom_render_engine.py:229-231 | the packed matrix is 4x4; entry [i][j] is component j of light i for a light row i < min(len(lights), 4) and column j < 3, and zero otherwise |
| MeshDrawing.ExtraLightsIgnored | custom_render_engine.py:230 | lights past the fourth do not change the packed matrix |
| MeshDrawing.UploadedLightEntry | custom_render_engine.py:232 | entry [j][i] of the uploaded transposed matrix is component j of light i, or zero |
| MeshDrawing.PackLights | custom_render_engine.py:229-231 | the row-writing loop over a zero 4x4 matrix produces the packed light matrix |
| MeshDrawing.UniformCalls | custom_render_engine.py:225-235 | definition of the seven uniform calls in source order (characterised by `UniformCallsAreSets`) |
| MeshDrawing.UniformCallsAreSets | custom_render_engine.py:225-235 | there are seven calls and every one is a uniform set, so `NoDrawsInUniforms` applies to any prefix of them |
| MeshDrawing.SetPrefixLength | custom_render_engine.py:225-235 | the number of uniform calls made before the first refused one: none of the first n is refused, and call n (if any) is refused |
| MeshDrawing.PrefixLengthIs | custom_render_engine.py:225-235 | those two facts determine that count |
| MeshDrawing.SetUniform | custom_render_engine.py:225 | one uniform call raises exactly when the shader does not accept the name, and it records the value only when it does not raise |
| MeshDrawing.SetUniforms | custom_render_engine.py:225-236 | the `try` block sets the seven uniforms in source order, up to the first refused one |
| MeshDrawing.ObjectEvents | custom_render_engine.py:223-238 | definition of the trace of `draw` (characterised by `ObjectEventsShape`, `DrawsBatchOnce` and `AllUniformsSet`) |
| MeshDrawing.ObjectEventsShape | custom_render_engine.py:223-238 | the trace of `draw` binds first and draws the batch last; in between are exactly the calls before the first refused one, in order, none of them refused |
| MeshDrawing.NoDrawsInUniforms | custom_render_engine.py:225-235 | uniform sets draw nothing |
| MeshDrawing.DrawsBatchOnce | custom_render_engine.py:223-238 | one object's draw draws its batch exactly once, however many uniform calls fail |
| MeshDrawing.AllUniformsSet | custom_render_engine.py:225-238 | when every uniform is accepted, the trace is bind, all seven uniforms in order, then draw |
| MeshDrawing.MeshDraw.Draw | custom_render_engine.py:223-238 | the trace of `draw`: bind the shader, set the uniforms up to the first failure, then draw the batch |
| RenderEngine.GeometryUpdates | custom_render_engine.py:99-103 | a datablock is kept exactly when some update flagged `is_updated_geometry` carries it; no more entries than updates; their meshes are valid when the host's are |
| RenderEngine.GeometryUpdateNames | custom_render_engine.py:99-108 | a later call rebuilds a name exactly when some update flagged `is_updated_geometry` is of a mesh object of that name |
| RenderEngine.Rebuilt | custom_render_engine.py:81-108 | definition of the datablocks scanned for draws: all ids on the first call, the geometry updates on later calls (characterised by `GeometryUpdates`, `GeometryUpdateNames` and the `Refresh` lemmas) |
| RenderEngine.Refresh | custom_render_engine.py:88-108 | definition of the cache after a scan: a new batch under each scanned mesh object's name, the later one winning (characterised by `RefreshKeys`, `RefreshKeeps`, `RefreshLastWins`, `RefreshAligned`) |
| RenderEngine.MeshNames | custom_render_engine.py:88-93 | a name is a key added by a scan exactly when some mesh object of the scan carries it |
| RenderEngine.RefreshKeys | custom_render_engine.py:88-108 | no key is ever removed; the keys added are exactly the rebuilt mesh objects' names |
| RenderEngine.RefreshKeeps | custom_render_engine.py:99-108 | an entry that no rebuilt mesh object names keeps its batch |
| RenderEngine.RefreshLastWins | custom_render_engine.py:88-108 | a rebuilt name maps to the batch of the last mesh object of that name in the scan |
| RenderEngine.RefreshAligned | custom_render_engine.py:88-108 | every cached batch stays aligned |
| RenderEngine.MeshInstances | custom_render_engine.py:118-122 | the mesh-objects list holds exactly the mesh-type instances and is no longer than the instance list (with `MeshInstancesAppend`, each mesh instance once, in instance order) |
| RenderEngine.SunDirections | custom_render_engine.py:123-133 | the lights list has one direction for each sun light and no other, in instance order |
| RenderEngine.MeshInstancesAppend | custom_render_engine.py:119-122 | mesh objects are listed in instance order |
| RenderEngine.SunDirectionsAppend | custom_render_engine.py:126-133 | sun directions are listed in instance order |
| RenderEngine.CachedPrefixLength | custom_render_engine.py:159-160 | how many listed objects are looked up before the first one missing from the cache: the first n are cached, and object n (if any) is not |
| RenderEngine.CachedPrefixLengthIs | custom_render_engine.py:159-160 | those facts determine that count |
| RenderEngine.FrameEvents | custom_render_engine.py:159-161 | definition of the draw loop's trace: each listed object's draw, in list order, with its own world matrix (characterised by `FrameEventsSnoc`, `FrameDrawsEachOnce` and `FrameTraceDraws`) |
| RenderEngine.CachedBatches | custom_render_engine.py:159-161 | the cached batch of each listed object, in list order |
| RenderEngine.FrameEventsSnoc | custom_render_engine.py:159-161 | drawing one more object appends that object's draw trace |
| RenderEngine.FrameDrawsEachOnce | custom_render_engine.py:159-161 | the draw loop draws exactly one batch per listed object, in list order, each that object's cached batch |
| RenderEngine.FrameTraceDraws | custom_render_engine.py:154-171 | the state set and reset around the loop draw nothing, so a frame draws exactly the listed objects' cached batches |
| RenderEngine.RenderRect | custom_render_engine.py:55-61 | the final-render result holds size_x * size_y pixels, each the preview or the final flat colour |
| RenderEngine.CustomRenderEngine.constructor | custom_render_engine.py:32-37 | a new engine has no scene data, an empty cache and empty lists |
| RenderEngine.CustomRenderEngine.CacheDraw | custom_render_engine.py:91-108 | a fresh draw of the object's mesh, pointing back at the object, replaces or adds the entry under its name; every other entry is untouched |
| RenderEngine.CustomRenderEngine.CacheFromIds | custom_render_engine.py:88-94 | the first-call scan: the cache becomes `Refresh` over all ids; every rebuilt name gets a fresh draw; every other entry is the same object |
| RenderEngine.CustomRenderEngine.CacheFromUpdates | custom_render_engine.py:99-108 | the later-call scan: the cache becomes `Refresh` over the geometry updates only; every other entry is the same object |
| RenderEngine.CustomRenderEngine.RebuildLists | custom_render_engine.py:118-133 | the lists become the mesh instances and the sun directions, in instance order |
| RenderEngine.CustomRenderEngine.RebuildMeshObjects | custom_render_engine.py:118-122 | the list is reset and becomes the mesh-type instances, in instance order |
| RenderEngine.CustomRenderEngine.RebuildLights | custom_render_engine.py:123-133 | the list is reset and becomes the sun lights' directions, in instance order |
| RenderEngine.CustomRenderEngine.ViewUpdate | custom_render_engine.py:81-133 | after any call, scene data is set and stays set; the cache is refreshed from all ids on the first call and from the geometry updates after that; entries not rebuilt keep their draw object; the lists are rebuilt on the first call or an object-type update, and are unchanged otherwise |
| RenderEngine.CustomRenderEngine.DrawObject | custom_render_engine.py:160-161 | one loop step: the trace of drawing the cached batch of the object with its current world matrix |
| RenderEngine.CustomRenderEngine.DrawObjects | custom_render_engine.py:159-161 | the loop draws the listed objects in order up to the first one missing from the cache |
| RenderEngine.CustomRenderEngine.ViewDraw | custom_render_engine.py:154-171 | with every listed object cached: state set, each object drawn in order, state reset; otherwise KeyError for the first missing name, no reset, and only the objects before it drawn |

## Left out

- GPU, shader and numpy plumbing is not modelled. This covers shader compilation, the shader source file reads, `batch_for_shader` and the GPU state calls. They appear only as trace events.
- The float32 buffer type and the unsigned-int index buffer type are not modelled. Indices are natural numbers and floats are `real`s.
- Light directions are taken as host-supplied values. Their computation, rotating (0, 0, 1) by the object's world rotation, is floating-point quaternion math.
- `render` is modelled only as the flat image (`RenderRect`), with the pixel sizes given as integers. The resolution scaling at lines 48-50 (a float percentage and `int()` truncation) is float arithmetic and is not modelled. `begin_result`/`end_result` are host calls.
- The `MATERIAL` update check is not modelled; it does nothing.
- The `transform` argument of `MeshDraw.__init__` is not modelled. Line 176 stores it in `self.transform`, and nothing reads that field.
- The `draw_data` field is not modelled. It is set to None and never read.
- The viewport dimensions are not modelled. They are read and never used.
- Registration, the settings property declarations and the UI panel are plugin glue and are not modelled.
- Debug prints and `time.time` are not modelled.
- Concurrency is not modelled. This matches the host, which calls `view_update` and `view_draw` on one thread, one after the other.
- `mesh.calc_loop_triangles()` is not modelled as a step. The host mesh snapshot already carries its loop triangles.
- Mesh extraction assumes the host's guarantee `Mesh.Valid` (host.dfy). Every vertex index is below the vertex count, and a colour layer has one entry per loop. The model has no path for a mesh that breaks it. In the code, such a mesh would raise at the gather (line 196) or at a size-mismatched `foreach_get`. On the first call `scene_data` is already set (line 84) before that scan could raise.
- CacheFromIds, CacheFromUpdates and ViewUpdate do not restate that each new draw points back at its object (`draw.object = datablock`, lines 92 and 107). `CacheDraw` states it for one draw. Nothing in the code reads `draw.object`.

# 42run rendering core in Dafny

This project models the bookkeeping at the heart of the 42run endless-runner's
renderer, with the OpenGL, mesh-parsing and image-decoding calls abstracted away:

- **`Context`** (context.py) keeps named shader programs with their uniform tables,
  an active program, a texture cache keyed by path, a model table and a draw queue.
  `load_models` concatenates the vertices of the listed models into one buffer.
  For each model it records its offset in that buffer, its vertex count, its
  texture handle and its bounding radius.
- **`RenderContext`** (render_context.py) is the single-program variant. It stores a
  view matrix and a projection, looks up the four uniforms `MVP`, `MV`, `M`, `V`,
  and composes `MV = M·V` and `MVP = MV·P` on every draw. Its model loader is the
  same as `Context`'s, but it records no radius.
- **`Camera`** (camera.py) keeps two dirty flags. The four setters raise them, and
  `gen_uniforms` rebuilds the stale matrices before composing the uniforms.
- **`Entity`** (entity.py) computes its world transform on `draw` and appends one
  `(model, transform)` pair to the context's draw queue.

Layout, one module per file:

| file | module | contents |
|---|---|---|
| wrappers.dfy | `Wrappers` | `Option`, `Result`, `Outcome` |
| geometry.dfy | `Geometry` | vectors; matrices as uninterpreted terms; uniform sets |
| draw_queue.dfy | `Draw` | the draw queue (a deque that is only appended to) |
| assets.dfy | `Assets` | `get_radius`; the model-loading loop shared by both contexts; its lemmas |
| shaders.dfy | `Shaders` | shader build outcomes; the uniform table built from active uniforms |
| context.dfy | `Context` | class `Context` |
| render_context.dfy | `RenderContext` | class `RenderContext` |
| camera.dfy | `Camera` | class `Camera` |
| entity.dfy | `Entity` | class `Entity` |

Modelling decisions:

- **Handles.** Every GL handle comes from a per-context counter `nextId`, which starts
  above the vertex array's handle. GL never hands out 0, so the truthiness test
  `self.textures.get(path)` is `Cached`: the path is present with a non-zero handle.
- **Inputs.** Mesh parsing is an input `assets`, mapping each model name to its
  materials in file order. A name missing from it is a mesh that does not open.
  Image decoding is an input `images`, the set of paths that decode. Shader
  compilation is an input `ShaderBuild`, whose success case carries the program's
  active uniforms and their locations.
- **The load loop.** The loop of `load_models` is a fold (`Assets.Load`). The
  methods `Assets.ScanAll`, `Assets.ScanModel` and `Assets.ScanModelMaterials` run the loop, and
  their contract is that they compute exactly that fold. Every property of a load
  is a lemma about the fold.
- **Python failures.** Each way the source raises or exits is an error value:
  - a wrong vertex format;
  - a material without a texture (`mat.texture.path` on `None`);
  - an image that does not load;
  - a model with no materials when it is listed first (the locals `texture` and
    `verts` are unbound: NameError); a later such model reuses the previous
    model's locals, as the source does;
  - a `get_radius` whose slices cannot broadcast, or whose array is empty;
  - an empty `names` list (`np.concatenate([])`);
  - an unknown program or uniform name;
  - reading `active_program` before any `use_program`;
  - a zero window height in `refresh`;
  - a shader source that cannot be read (`ShaderUnreadable`) or does not compile
    or link (`ShaderCompileFailed`), in `load_program` and `load_shaders`.
- **Radius.** `get_radius` is modelled as its square, `RadiusSq`. It takes
  `v[5::8]` and `v[6::8]` with numpy's broadcasting rules, then `max`. It is
  applied to the vertices of the *last* material bound, which is what the code
  reads through `verts`.

Behaviours of the code that a reader might not expect, which the model follows as written:

- Neither context releases the buffers or textures of an earlier `load_models`.
  The texture cache is kept and extended (`Assets.LoadedTextures` proves
  `Extends`), and the old vertex buffer is left behind.
- `load_program` called again with the same name compiles a new program and
  replaces the entry; it is not a no-op.
- `use_program` always switches, even to the program that is already active.
- The bounding radius comes from the last material of the model, not from all its
  vertices.
- The camera's far plane is 300 in the constructor and 100 after any rebuild of the
  projection. So, as long as no caller changes a stored position or target
  array in place, lazy recomputation is transparent for the view and for the
  projection's field of view and aspect ratio, but not for the far plane
  (`Camera.FarPlaneAfterSetFov`). In the source an in-place update such as
  `cam.pos += d` moves the position without raising `regen_view`, so
  `gen_uniforms` returns a stale view. The model has no such update (see
  "## Left out").

## Model

| member | source | states |
|---|---|---|
| Assets.ColumnElements | context.py:18 | `v[start::8]` has ceil((len − start)/8) elements, and element k is `v[start + 8k]` |
| Assets.SquaredLengthsShape | context.py:18 | `xs**2 + ys**2` is defined iff the lengths are equal or one of them is 1; for equal lengths it is the element-wise sum of squares |
| Assets.MaxOfBounds | context.py:21 | `max` fails exactly on an empty array; otherwise it bounds every element and is attained by one |
| Assets.RadiusOfVertices | context.py:16-25 | for whole 8-float vertices, the squared radius exists iff there is a vertex, and it is the maximum of x²+y² over the vertices |
| Assets.MaterialsAbortSticks | context.py:100-102 | once a material fails, the rest of that model's materials change nothing (the process has ended) |
| Assets.ModelsAbortSticks | context.py:97-115 | once a model fails, the rest of the names change nothing |
| Assets.AddTextureHandles | context.py:136-146 | entering a texture gives the path the next handle, keeps every other entry's handle, adds no other key, and keeps all handles distinct and below the counter |
| Assets.MaterialStepEffect | context.py:100-108 | a successful material pass implies the material is well formed; it keeps the cache consistent, extends it with its path, adds len//8 to `model_indices`, appends its vertices and binds its texture handle and vertices |
| Assets.CachedTextureReused | context.py:103-105 | a path already cached is not loaded again; its existing handle is bound |
| Assets.NewTextureLoaded | context.py:103-105 | a path not cached is loaded once under the next fresh handle, or the load fails with an unreadable image |
| Assets.MaterialStepSticks | context.py:100-105 | a material pass that succeeds started without an error, on a material in T2F_N3F_V3F with a texture |
| Assets.MaterialStepTally | context.py:106-108 | a successful material pass adds len//8 to `model_indices`, appends the vertices, and leaves the table and offset alone |
| Assets.MaterialStepKeys | context.py:103-105 | a successful material pass adds its texture path to the cache's keys |
| Assets.ScanMaterialsWellFormed | context.py:100-105 | after a successful pass over a model's materials, every one of them is in T2F_N3F_V3F and has a texture |
| Assets.ScanMaterialsKeys | context.py:103-105 | a successful pass adds exactly the materials' texture paths to the cache's keys |
| Assets.ScanMaterialsHandles | context.py:103-105 | a successful pass keeps every cached handle and the cache free of shared handles |
| Assets.ScanMaterialsTextures | context.py:100-105 | after a successful pass over a model's materials, all of them are well formed, every cached entry keeps its handle, and the cache gains exactly their texture paths |
| Assets.ScanMaterialsIndices | context.py:98-108 | a successful pass adds the sum of len//8 over the materials to `model_indices` |
| Assets.ScanMaterialsChunks | context.py:106-107 | a successful pass appends the materials' arrays to `all_vertices`, in order |
| Assets.ScanMaterialsTally | context.py:98-108 | a successful pass adds the sum of len//8 over the materials to `model_indices` and appends their arrays in order |
| Assets.ScanMaterialsLast | context.py:105-107 | after a successful pass over a non-empty list, the bound texture and vertices are those of the last material |
| Assets.ModelStepTextures | context.py:97-108 | a successful model pass means the mesh exists, its materials are well formed, and the cache gains exactly their texture paths |
| Assets.ModelStepTally | context.py:97-115 | a successful model pass records the model at the running offset with its own vertex count and the bound texture and radius, and advances the offset by that count |
| Assets.ScanMaterialsCounter | context.py:103-104 | the handle counter never decreases over a model's materials |
| Assets.ScanModelsCounter | context.py:97-115 | the handle counter never decreases over a load |
| Assets.LoadedTextures | context.py:97-115 | after a successful load, every listed mesh exists and every material is well formed; the cache keeps all earlier entries, gains exactly the loaded paths, and no two paths share a handle |
| Assets.LoadedChunks | context.py:117 | after a successful loop there is vertex data to concatenate iff `names` is non-empty |
| Assets.LoadedHandles | context.py:117-120 | after a successful loop every texture handle, old or new, is below the next handle (the vertex buffer's), no two paths share one, and the counter has not moved backwards |
| Assets.LoadedState | context.py:94-115 | after a successful load, the table's keys are exactly the names of the call, the final offset is the total vertex count, and `all_vertices` is the material arrays in load order |
| Assets.LoadedLast | context.py:105-107 | after a successful load, the bound texture and vertices are those of the last material of all the listed models |
| Assets.LoadedTable | context.py:95-115 | each name (at its last occurrence if listed twice, since the later assignment wins) is recorded with offset = sum of the vertex counts of the names before it, indices = sum of len//8 over its materials, and the texture and radius of the latest material bound |
| Assets.LoadedWellFormed | context.py:97-105 | after a successful load, whatever the cache held, every listed mesh exists and every material is in T2F_N3F_V3F with a texture |
| Assets.BadFormatAborts | context.py:101-102 | a material in a format other than T2F_N3F_V3F, in any listed model, fails the load, whatever the cache held |
| Assets.ScanModelMaterials | context.py:100-108 | the material loop, with its early exit, computes the material fold |
| Assets.ScanModel | context.py:97-115 | one pass of the model loop, with its early exits, computes one step of the load fold |
| Assets.ScanAll | context.py:93-115 | the model loop, which stops at the first error, computes the load fold |
| Shaders.UniformTableKeys | context.py:67-73 | the uniform table has one key per active uniform name and no other |
| Shaders.UniformTableLocations | context.py:70-73 | a name maps to the location given with its last occurrence among the active uniforms |
| Shaders.LocationLookup | render_context.py:63-66 | a uniform lookup gives -1 for a name the program does not declare, and the reported location otherwise |
| Geometry.Entries | camera.py:81 | the dictionary `gen_uniforms` returns has four entries, one for each of M, V, MV and MVP, each carrying that uniform's matrix |
| Context.FirstUnresolved | context.py:77-85 | the first name that is neither declared by the program nor a camera uniform; every name before it resolves |
| Context.SentWrites | context.py:79-85 | a (location, matrix) write is sent iff some value's name is declared at that location with that matrix |
| Context.CameraUniformsResolve | context.py:77-81 | the uniforms a camera generates never make `update_uniforms` fail, whatever the program declares |
| Context.Context.constructor | context.py:31-43 | empty program, uniform, model and texture tables, an empty draw queue and one vertex array handle |
| Context.Context.LoadProgram | context.py:49-73 | a build that fails leaves the tables as they were; a successful one records a fresh program handle under the name and a fresh table with one entry per active uniform |
| Context.Context.UseProgram | context.py:87-90 | succeeds iff the name is loaded and then makes it active; otherwise a lookup failure |
| Context.Context.UpdateUniforms | context.py:75-85 | with no active program, a failure; otherwise the writes of the declared names up to the first unresolvable one, in order, with camera uniforms the program lacks skipped, and a lookup failure at that name |
| Context.Context.LoadTexture | context.py:136-146 | an image that decodes is inserted under its path with a fresh handle, and every other entry is unchanged |
| Context.Context.UploadVertices | context.py:117-134 | the concatenated vertices are stored under the next handle as the vertex buffer, the loop's cache and table are installed, and the handle discipline is kept |
| Context.Context.LoadModels | context.py:92-134 | succeeds iff the load fold succeeds and `names` is non-empty. The model table is then replaced by the fold's table, and the buffer holds the concatenated vertices under a fresh handle. On failure nothing changes |
| RenderContext.WritesCompose | render_context.py:68-86 | the writes go to MV, MVP, M and V, in that order: M·V, (M·V)·P, the model transform and the stored view |
| RenderContext.RenderContext.constructor | render_context.py:19-36 | keeps the view and field of view, builds the projection from width/height with planes 0.1 and 100, no program, empty tables |
| RenderContext.RenderContext.Refresh | render_context.py:38-42 | rebuilds the projection from the stored field of view and the window size; a zero height fails |
| RenderContext.RenderContext.LoadShaders | render_context.py:44-66 | a successful build installs a fresh program handle and a table with exactly the keys MVP, MV, M, V, each at the program's location for it |
| RenderContext.RenderContext.UpdateUniforms | render_context.py:68-86 | fails before any program is loaded; otherwise sends, in order, MV, MVP, M and V to their locations with the composed matrices |
| RenderContext.RenderContext.LoadTexture | render_context.py:130-140 | an image that decodes is inserted under its path with a fresh handle, and every other entry is unchanged |
| RenderContext.RenderContext.UploadVertices | render_context.py:111-128 | the concatenated vertices are stored under the next handle as the vertex buffer, the loop's cache and table are installed, and the handle discipline is kept |
| RenderContext.RenderContext.LoadModels | render_context.py:88-128 | succeeds iff the load fold (without radii) succeeds and `names` is non-empty. The model table is then replaced and the buffer uploaded. On failure nothing changes |
| Camera.Camera.constructor | camera.py:9-37 | stores the fields, builds the view and the projection with far plane 300, both flags down |
| Camera.Camera.SetAspect | camera.py:39-42 | stores the aspect ratio, raises the projection flag, and changes nothing else |
| Camera.Camera.SetFov | camera.py:44-47 | stores the field of view, raises the projection flag, and changes nothing else |
| Camera.Camera.SetPos | camera.py:49-52 | stores the position, raises the view flag, and changes nothing else |
| Camera.Camera.SetTarget | camera.py:54-57 | stores the target, raises the view flag, and changes nothing else |
| Camera.Camera.RegenPerspective | camera.py:59-63 | rebuilds the projection from the current fov and aspect with far plane 100, and lowers its flag |
| Camera.Camera.RegenView | camera.py:65-71 | rebuilds the view as the look-at of the current position and target with up (0,1,0), and lowers its flag |
| Camera.Camera.GenUniforms | camera.py:73-81 | both flags end down. V is the look-at of the current fields and P is the perspective of the current fov and aspect, whatever setters ran before. A matrix whose flag was down is untouched. The result is {M, V, M·V, (M·V)·P} |
| Camera.FarPlaneAfterSetFov | camera.py:34-36 | with fov and aspect unchanged, one `set_fov` turns the default camera's MVP from the product with the far-plane-300 projection into the product with the far-plane-100 one, while M, V and MV stay the same |
| Draw.DrawQueue.Append | entity.py:24 | `deque.append` adds one item at the right end |
| Entity.Entity.constructor | entity.py:10-16 | stores the model, position and rotation, with no collisions and no transform |
| Entity.Entity.Draw | entity.py:18-24 | sets the transform to Euler(rot)·Translate(pos) and appends exactly one (model, transform) item to the end of the draw queue it is given (the context's `draw_queue`, of either context). Model, position, rotation and collisions are unchanged |
| Entity.Entity.Collide | entity.py:26-27 | changes nothing |

## Left out

- OpenGL itself is not modelled: buffer uploads, vertex attribute layout, texture parameters and mipmaps, clearing, `glUseProgram`. Handles are a counter.
- Mesh parsing and image decoding are inputs (`assets`, `images`), not modelled. `load_program`'s shader file names are not modelled either.
- Floating-point numbers are modelled as `real`. Matrix maths (look-at, perspective, Euler rotation, translation, product) is uninterpreted. `np.sqrt` in `get_radius` is not modelled: the radius is kept squared.
- Context.Context.LoadModels: on a failure the source ends the process, possibly after loading some textures. The model instead reports the error and leaves the context unchanged.
- RenderContext.RenderContext.LoadModels: same as `Context.Context.LoadModels`.
- Context.Context.LoadProgram: the source ends the process on a shader that does not read or compile. The model instead reports the failure and leaves the tables unchanged. The GL objects made while compiling are not modelled.
- RenderContext.RenderContext.LoadShaders: the source ends the process on a shader that does not read or compile (render_context.py:46-60). The model instead reports the failure and leaves the program, the table and the counter unchanged.
- Context.Context.UpdateUniforms: `new_uniforms` is a Python dict. It is modelled as an ordered sequence of pairs, which also admits repeated names.
- RenderContext.RenderContext.constructor: requires a non-zero window height. The source raises ZeroDivisionError there, and a Dafny constructor cannot fail.
- Camera.Camera.SetPos: the source stores the array it is given (aliasing it). The model stores a value, so a later in-place change of that array by the caller, which moves the camera without raising `regen_view`, is not modelled.
- Camera.Camera.SetTarget: the same aliasing as `set_pos`. The stored target is a value here, and an in-place change of the caller's array is not modelled.
- Camera.Camera.constructor: the source keeps the `pos` and `target` arrays it is given by reference. Its default arrays are created once, so every camera built with the defaults shares the same two arrays, and an in-place change through one camera moves them all without raising their flags. The model stores values and does not capture this sharing. The conversion of non-array arguments to numpy arrays is not modelled either, since positions are always vectors here.
- `Context.clear` is a single GL call and is not modelled.
- The `window` object kept by `RenderContext` is not modelled: `refresh` takes the current width and height as parameters.
- window.py, text.py, skybox.py and main.py are not part of this model.

/**
 * The model loader shared by both rendering contexts (`load_models` in
 * context.py and in render_context.py run the same loop; only context.py
 * records a bounding radius).
 *
 * Mesh parsing and image decoding are inputs: `assets` maps a model name to the
 * materials its mesh file parses into, in file order, and `images` is the set of
 * texture paths that open and decode.  A texture handle comes from a counter
 * (`nextId`) that the owning context threads through every GL allocation.
 */
module Assets {
  import opened Wrappers

  /** The one interleaved layout the loader accepts: 2 texture, 3 normal, 3 position floats. */
  const VERTEX_FORMAT: string := "T2F_N3F_V3F"
  const FLOATS_PER_VERTEX: nat := 8

  /** A parsed mesh material: its vertex format, its texture path if any, and its flat float array. */
  datatype Material = Material(format: string, texture: Option<string>, vertices: seq<real>)

  /** What the loader records per model name; `radiusSq` is the square of get_radius (None when not recorded). */
  datatype ModelInfo = ModelInfo(offset: nat, indices: nat, texture: nat, radiusSq: Option<real>)

  /** The ways a load ends early.  Every one of them ends the process in the source. */
  datatype LoadError =
    | MissingMesh(model: string)          // the mesh file cannot be opened and parsed
    | BadVertexFormat(model: string)      // a material is not T2F_N3F_V3F
    | NoTexture(model: string)            // a material without a texture: `mat.texture.path` on None
    | UnreadableImage(path: string)       // load_texture cannot open or decode the image
    | NoMaterialYet(model: string)        // `texture` / `verts` read before any material bound them
    | NoRadius(model: string)             // get_radius on an array with no complete (x, y) column
    | NothingToUpload                     // np.concatenate of an empty list of arrays

  // ---------------------------------------------------------------------------
  // get_radius

  /** `v[start::8]`: every eighth float of `v`, beginning at `start`. */
  function Column(v: seq<real>, start: nat): seq<real>
    decreases |v| - start
  {
    if start >= |v| then [] else [v[start]] + Column(v, start + 8)
  }

  function Square(x: real): real { x * x }

  /**
   * `xs**2 + ys**2` under numpy broadcasting: equal lengths add element-wise, a
   * length-one operand is repeated, any other pair of lengths is an error.
   */
  function SquaredLengths(xs: seq<real>, ys: seq<real>): Option<seq<real>> {
    if |xs| == |ys| then Some(seq(|xs|, k requires 0 <= k < |xs| => Square(xs[k]) + Square(ys[k])))
    else if |ys| == 1 then Some(seq(|xs|, k requires 0 <= k < |xs| => Square(xs[k]) + Square(ys[0])))
    else if |xs| == 1 then Some(seq(|ys|, k requires 0 <= k < |ys| => Square(xs[0]) + Square(ys[k])))
    else None
  }

  /** `array.max()`: the greatest element, or None for an empty array (numpy raises). */
  function MaxOf(s: seq<real>): Option<real> {
    if s == [] then None
    else match MaxOf(s[..|s| - 1])
      case None => Some(s[|s| - 1])
      case Some(m) => Some(if s[|s| - 1] > m then s[|s| - 1] else m)
  }

  /** The square of get_radius(v): the largest v[5]^2 + v[6]^2 over the vertices (the square root is not modelled). */
  function RadiusSq(v: seq<real>): Option<real> {
    match SquaredLengths(Column(v, 5), Column(v, 6))
    case None => None
    case Some(lengths) => MaxOf(lengths)
  }

  /** The slice `v[start::8]` has ceil((|v| - start) / 8) elements, element k being `v[start + 8k]`. */
  lemma {:induction false} ColumnElements(v: seq<real>, start: nat)
    ensures var c := Column(v, start);
      && |c| == (if start < |v| then (|v| - start + 7) / 8 else 0)
      && forall k :: 0 <= k < |c| ==> start + 8 * k < |v| && c[k] == v[start + 8 * k]
    decreases |v| - start
  {
    if start < |v| {
      ColumnElements(v, start + 8);
      var c := Column(v, start);
      forall k | 0 <= k < |c|
        ensures start + 8 * k < |v| && c[k] == v[start + 8 * k]
      {
        if k > 0 {
          assert c[k] == Column(v, start + 8)[k - 1];
        }
      }
    }
  }

  /** Broadcasting succeeds exactly for equal lengths or a length-one operand; equal lengths add element-wise. */
  lemma SquaredLengthsShape(xs: seq<real>, ys: seq<real>)
    ensures var r := SquaredLengths(xs, ys);
      && (r.Some? <==> |xs| == |ys| || |xs| == 1 || |ys| == 1)
      && (|xs| == |ys| ==> r.Some? && |r.value| == |xs| &&
                           forall k :: 0 <= k < |xs| ==> r.value[k] == Square(xs[k]) + Square(ys[k]))
  {
  }

  /** `max` fails exactly on an empty array; otherwise it bounds every element and is one of them. */
  lemma {:induction false} MaxOfBounds(s: seq<real>)
    ensures MaxOf(s).None? <==> s == []
    ensures MaxOf(s).Some? ==> forall k :: 0 <= k < |s| ==> s[k] <= MaxOf(s).value
    ensures MaxOf(s).Some? ==> exists k :: 0 <= k < |s| && s[k] == MaxOf(s).value
    decreases |s|
  {
    if s != [] {
      var init := s[..|s| - 1];
      MaxOfBounds(init);
      assert forall k :: 0 <= k < |init| ==> init[k] == s[k];
      if MaxOf(init).Some? {
        var j :| 0 <= j < |init| && init[j] == MaxOf(init).value;
        if s[|s| - 1] <= MaxOf(init).value {
          assert s[j] == MaxOf(s).value;
        }
      }
    }
  }

  /** x² + y² of vertex k of a T2F_N3F_V3F array (position x is float 5, y is float 6): its squared distance from the z axis. */
  function VertexLengthSq(v: seq<real>, k: nat): real
    requires 8 * k + 6 < |v|
  {
    Square(v[8 * k + 5]) + Square(v[8 * k + 6])
  }

  /** For whole 8-float vertices, the radius is the maximum over the vertices, and it exists iff there is a vertex. */
  lemma {:induction false} RadiusOfVertices(v: seq<real>)
    requires |v| % FLOATS_PER_VERTEX == 0
    ensures RadiusSq(v).Some? <==> |v| > 0
    ensures RadiusSq(v).Some? ==>
      (forall k :: 0 <= k < |v| / 8 ==> VertexLengthSq(v, k) <= RadiusSq(v).value) &&
      (exists k :: 0 <= k < |v| / 8 && VertexLengthSq(v, k) == RadiusSq(v).value)
  {
    var xs, ys := Column(v, 5), Column(v, 6);
    ColumnElements(v, 5);
    ColumnElements(v, 6);
    SquaredLengthsShape(xs, ys);
    if |v| == 0 {
      assert xs == [] && ys == [];
    } else {
      assert |xs| == |v| / 8 == |ys|;
      var lengths := SquaredLengths(xs, ys).value;
      assert forall k :: 0 <= k < |v| / 8 ==> lengths[k] == VertexLengthSq(v, k);
      assert lengths != [];
      MaxOfBounds(lengths);
      var r := MaxOf(lengths).value;
      assert exists k :: 0 <= k < |lengths| && lengths[k] == r;
      var k :| 0 <= k < |lengths| && lengths[k] == r;
      assert VertexLengthSq(v, k) == r;
    }
  }

  // ---------------------------------------------------------------------------
  // Texture cache and handles

  /** `self.textures.get(path)` is truthy: the path has a non-zero handle. */
  predicate Cached(textures: map<string, nat>, path: string) {
    path in textures && textures[path] != 0
  }

  /** Handle discipline: every handle is non-zero, below the counter, and no two paths share one. */
  ghost predicate HandlesOk(textures: map<string, nat>, nextId: nat) {
    && nextId >= 1
    && (forall p :: p in textures ==> 1 <= textures[p] < nextId)
    && (forall p, q :: p in textures && q in textures && p != q ==> textures[p] != textures[q])
  }

  /** Raising the counter keeps the handle discipline. */
  lemma HandlesOkRaise(textures: map<string, nat>, nextId: nat, nextId': nat)
    requires HandlesOk(textures, nextId) && nextId <= nextId'
    ensures HandlesOk(textures, nextId')
  {
  }

  /** Every entry of `t` is still there, under the same handle, in `t'`. */
  ghost predicate Extends(t: map<string, nat>, t': map<string, nat>) {
    forall p :: p in t ==> p in t' && t'[p] == t[p]
  }

  /**
   * load_texture's effect on the cache, which load_models goes through as well:
   * the path is entered under the next handle and the counter moves past it.
   */
  function AddTexture(textures: map<string, nat>, nextId: nat, path: string): (map<string, nat>, nat) {
    (textures[path := nextId], nextId + 1)
  }

  /**
   * Entering a texture keeps the handle discipline: the path gets the next
   * handle, every other entry keeps its own, and no other key appears.
   */
  lemma AddTextureHandles(textures: map<string, nat>, nextId: nat, path: string)
    requires HandlesOk(textures, nextId)
    ensures var (t, n) := AddTexture(textures, nextId, path);
      && HandlesOk(t, n) && n == nextId + 1
      && t.Keys == textures.Keys + {path} && t[path] == nextId
      && forall p :: p in textures && p != path ==> t[p] == textures[p]
  {
    var t := textures[path := nextId];
    forall p, q | p in t && q in t && p != q
      ensures t[p] != t[q]
    {
      if p == path {
        assert t[q] == textures[q] < nextId;
      } else if q == path {
        assert t[p] == textures[p] < nextId;
      } else {
        assert t[p] == textures[p] && t[q] == textures[q];
      }
    }
  }

  // ---------------------------------------------------------------------------
  // The loading loop as a fold

  /** The texture handle and vertex array bound by the latest material (the locals `texture` and `verts`). */
  datatype Bound = Bound(texture: nat, vertices: seq<real>)

  /**
   * The state of a load in progress: the texture cache and handle counter, the
   * vertex arrays gathered so far (`all_vertices`), the running `model_offset`
   * and `model_indices`, the latest bound material, the table being built
   * (`models`), and the error that ended the load, if any.
   */
  datatype Loading = Loading(
    textures: map<string, nat>,
    nextId: nat,
    chunks: seq<seq<real>>,
    offset: nat,
    indices: nat,
    last: Option<Bound>,
    models: map<string, ModelInfo>,
    error: Option<LoadError>)

  function Start(textures: map<string, nat>, nextId: nat): Loading {
    Loading(textures, nextId, [], 0, 0, None, map[], None)
  }

  /** One pass of the material loop for model `model`. */
  function MaterialStep(st: Loading, model: string, m: Material, images: set<string>): Loading {
    if st.error.Some? then st
    else if m.format != VERTEX_FORMAT then st.(error := Some(BadVertexFormat(model)))
    else if m.texture.None? then st.(error := Some(NoTexture(model)))
    else
      var path := m.texture.value;
      if !Cached(st.textures, path) && path !in images then st.(error := Some(UnreadableImage(path)))
      else
        var added := AddTexture(st.textures, st.nextId, path);
        var loaded := if Cached(st.textures, path) then st
                      else st.(textures := added.0, nextId := added.1);
        loaded.(chunks := loaded.chunks + [m.vertices],
                indices := loaded.indices + |m.vertices| / FLOATS_PER_VERTEX,
                last := Some(Bound(loaded.textures[path], m.vertices)))
  }

  function ScanMaterials(st: Loading, model: string, mats: seq<Material>, images: set<string>): Loading
    decreases |mats|
  {
    if mats == [] then st
    else MaterialStep(ScanMaterials(st, model, mats[..|mats| - 1], images), model, mats[|mats| - 1], images)
  }

  /** The entry `models[model_name] = {...}` and `model_offset += model_indices`. */
  function RecordModel(st: Loading, model: string, withRadius: bool): Loading {
    if st.error.Some? then st
    else if st.last.None? then st.(error := Some(NoMaterialYet(model)))
    else if withRadius && RadiusSq(st.last.value.vertices).None? then st.(error := Some(NoRadius(model)))
    else
      var radius := if withRadius then RadiusSq(st.last.value.vertices) else None;
      st.(models := st.models[model := ModelInfo(st.offset, st.indices, st.last.value.texture, radius)],
          offset := st.offset + st.indices)
  }

  /** One pass of the model loop: parse, reset `model_indices`, run the materials, record. */
  function ModelStep(st: Loading, model: string, assets: map<string, seq<Material>>,
                     images: set<string>, withRadius: bool): Loading
  {
    if st.error.Some? then st
    else if model !in assets then st.(error := Some(MissingMesh(model)))
    else RecordModel(ScanMaterials(st.(indices := 0), model, assets[model], images), model, withRadius)
  }

  function ScanModels(st: Loading, names: seq<string>, assets: map<string, seq<Material>>,
                      images: set<string>, withRadius: bool): Loading
    decreases |names|
  {
    if names == [] then st
    else ModelStep(ScanModels(st, names[..|names| - 1], assets, images, withRadius),
                   names[|names| - 1], assets, images, withRadius)
  }

  /** The whole model loop of load_models, from the context's texture cache and handle counter. */
  function Load(names: seq<string>, assets: map<string, seq<Material>>, images: set<string>,
                textures: map<string, nat>, nextId: nat, withRadius: bool): Loading
  {
    ScanModels(Start(textures, nextId), names, assets, images, withRadius)
  }

  // ---------------------------------------------------------------------------
  // Reference definitions the load is proved against

  /** A model's vertex count: the sum of len(vertices) // 8 over its materials. */
  function Indices(mats: seq<Material>): nat
    decreases |mats|
  {
    if mats == [] then 0
    else Indices(mats[..|mats| - 1]) + |mats[|mats| - 1].vertices| / FLOATS_PER_VERTEX
  }

  function CountOf(assets: map<string, seq<Material>>, name: string): nat {
    if name in assets then Indices(assets[name]) else 0
  }

  /** The sum of the vertex counts of the listed models: where the model after them starts. */
  function OffsetBefore(names: seq<string>, assets: map<string, seq<Material>>): nat
    decreases |names|
  {
    if names == [] then 0
    else OffsetBefore(names[..|names| - 1], assets) + CountOf(assets, names[|names| - 1])
  }

  /** The materials of the listed models, in load order. */
  function MaterialsOf(names: seq<string>, assets: map<string, seq<Material>>): seq<Material>
    decreases |names|
  {
    if names == [] then []
    else MaterialsOf(names[..|names| - 1], assets) +
         (if names[|names| - 1] in assets then assets[names[|names| - 1]] else [])
  }

  function VertexArrays(mats: seq<Material>): (vs: seq<seq<real>>)
    ensures |vs| == |mats| && forall k :: 0 <= k < |mats| ==> vs[k] == mats[k].vertices
  {
    seq(|mats|, k requires 0 <= k < |mats| => mats[k].vertices)
  }

  function TexturePaths(mats: seq<Material>): set<string> {
    set m | m in mats && m.texture.Some? :: m.texture.value
  }

  ghost predicate WellFormed(m: Material) {
    m.format == VERTEX_FORMAT && m.texture.Some?
  }

  /** np.concatenate(all_vertices).ravel(). */
  function Flatten(chunks: seq<seq<real>>): seq<real>
    decreases |chunks|
  {
    if chunks == [] then [] else Flatten(chunks[..|chunks| - 1]) + chunks[|chunks| - 1]
  }

  // ---------------------------------------------------------------------------
  // Lemmas

  /** Once an error is set, the rest of the materials change nothing. */
  lemma {:induction false} MaterialsAbortSticks(st: Loading, model: string, mats: seq<Material>,
                                                images: set<string>, k: nat)
    requires k <= |mats| && ScanMaterials(st, model, mats[..k], images).error.Some?
    ensures ScanMaterials(st, model, mats, images) == ScanMaterials(st, model, mats[..k], images)
    decreases |mats|
  {
    if k < |mats| {
      var init := mats[..|mats| - 1];
      assert init[..k] == mats[..k];
      MaterialsAbortSticks(st, model, init, images, k);
    } else {
      assert mats[..k] == mats;
    }
  }

  /** Once an error is set, the rest of the models change nothing. */
  lemma {:induction false} ModelsAbortSticks(st: Loading, names: seq<string>, assets: map<string, seq<Material>>,
                                             images: set<string>, withRadius: bool, k: nat)
    requires k <= |names| && ScanModels(st, names[..k], assets, images, withRadius).error.Some?
    ensures ScanModels(st, names, assets, images, withRadius) == ScanModels(st, names[..k], assets, images, withRadius)
    decreases |names|
  {
    if k < |names| {
      var init := names[..|names| - 1];
      assert init[..k] == names[..k];
      ModelsAbortSticks(st, init, assets, images, withRadius, k);
    } else {
      assert names[..k] == names;
    }
  }

  lemma VertexArraysAppend(a: seq<Material>, b: seq<Material>)
    ensures VertexArrays(a + b) == VertexArrays(a) + VertexArrays(b)
  {
  }

  lemma TexturePathsAppend(a: seq<Material>, b: seq<Material>)
    ensures TexturePaths(a + b) == TexturePaths(a) + TexturePaths(b)
  {
    assert forall m :: m in a + b <==> m in a || m in b;
  }

  lemma TexturePathsLast(mats: seq<Material>)
    requires mats != []
    ensures var m := mats[|mats| - 1];
      TexturePaths(mats) == TexturePaths(mats[..|mats| - 1]) + if m.texture.Some? then {m.texture.value} else {}
  {
    var m := mats[|mats| - 1];
    assert mats == mats[..|mats| - 1] + [m];
    TexturePathsAppend(mats[..|mats| - 1], [m]);
  }

  lemma VertexArraysLast(mats: seq<Material>)
    requires mats != []
    ensures VertexArrays(mats) == VertexArrays(mats[..|mats| - 1]) + [mats[|mats| - 1].vertices]
  {
  }

  /** A material step that succeeds started from a state with no error, on a well-formed material. */
  lemma MaterialStepSticks(st: Loading, model: string, m: Material, images: set<string>)
    requires MaterialStep(st, model, m, images).error.None?
    ensures st.error.None? && WellFormed(m)
  {
  }

  /** A material step that succeeds adds the material's vertex count and array, and leaves the table alone. */
  lemma MaterialStepTally(st: Loading, model: string, m: Material, images: set<string>)
    requires MaterialStep(st, model, m, images).error.None?
    ensures var r := MaterialStep(st, model, m, images);
      && r.indices == st.indices + |m.vertices| / FLOATS_PER_VERTEX
      && r.chunks == st.chunks + [m.vertices]
      && r.offset == st.offset && r.models == st.models
  {
  }

  /** One successful material step: the texture is cached (loaded under a fresh handle if it was not), the vertices are gathered. */
  lemma MaterialStepEffect(st: Loading, model: string, m: Material, images: set<string>)
    requires HandlesOk(st.textures, st.nextId)
    requires MaterialStep(st, model, m, images).error.None?
    ensures st.error.None? && WellFormed(m)
    ensures var r := MaterialStep(st, model, m, images);
      && HandlesOk(r.textures, r.nextId) && Extends(st.textures, r.textures) && r.nextId >= st.nextId
      && r.textures.Keys == st.textures.Keys + {m.texture.value}
      && r.indices == st.indices + |m.vertices| / FLOATS_PER_VERTEX
      && r.chunks == st.chunks + [m.vertices]
      && r.offset == st.offset && r.models == st.models
      && m.texture.value in r.textures
      && r.last == Some(Bound(r.textures[m.texture.value], m.vertices))
  {
    var path := m.texture.value;
    if !Cached(st.textures, path) {
      assert path !in st.textures;
      AddTextureHandles(st.textures, st.nextId, path);
    }
  }

  /** A material step that succeeds adds the material's texture path to the cache's keys. */
  lemma MaterialStepKeys(st: Loading, model: string, m: Material, images: set<string>)
    requires MaterialStep(st, model, m, images).error.None?
    ensures m.texture.Some? && MaterialStep(st, model, m, images).textures.Keys == st.textures.Keys + {m.texture.value}
  {
  }

  /** A successful pass over one model's materials started without an error, and each material is well formed. */
  lemma {:induction false} ScanMaterialsWellFormed(st: Loading, model: string, mats: seq<Material>, images: set<string>)
    requires ScanMaterials(st, model, mats, images).error.None?
    ensures st.error.None?
    ensures forall m :: m in mats ==> WellFormed(m)
    decreases |mats|
  {
    if mats != [] {
      var init := mats[..|mats| - 1];
      var m := mats[|mats| - 1];
      var mid := ScanMaterials(st, model, init, images);
      MaterialStepSticks(mid, model, m, images);
      ScanMaterialsWellFormed(st, model, init, images);
      forall x | x in mats
        ensures WellFormed(x)
      {
        if x != m {
          assert x in init;
        }
      }
    }
  }

  /** A successful pass over one model's materials adds exactly their texture paths to the cache's keys. */
  lemma {:induction false} ScanMaterialsKeys(st: Loading, model: string, mats: seq<Material>, images: set<string>)
    requires ScanMaterials(st, model, mats, images).error.None?
    ensures ScanMaterials(st, model, mats, images).textures.Keys == st.textures.Keys + TexturePaths(mats)
    decreases |mats|
  {
    if mats != [] {
      var init := mats[..|mats| - 1];
      var m := mats[|mats| - 1];
      var mid := ScanMaterials(st, model, init, images);
      MaterialStepSticks(mid, model, m, images);
      ScanMaterialsKeys(st, model, init, images);
      MaterialStepKeys(mid, model, m, images);
      TexturePathsLast(mats);
    }
  }

  /** A successful pass over one model's materials keeps every cached handle and gives each new path its own fresh one. */
  lemma {:induction false} ScanMaterialsHandles(st: Loading, model: string, mats: seq<Material>, images: set<string>)
    requires HandlesOk(st.textures, st.nextId)
    requires ScanMaterials(st, model, mats, images).error.None?
    ensures var r := ScanMaterials(st, model, mats, images);
      HandlesOk(r.textures, r.nextId) && Extends(st.textures, r.textures)
    decreases |mats|
  {
    if mats != [] {
      var init := mats[..|mats| - 1];
      var m := mats[|mats| - 1];
      var mid := ScanMaterials(st, model, init, images);
      var r := ScanMaterials(st, model, mats, images);
      assert r == MaterialStep(mid, model, m, images);
      MaterialStepSticks(mid, model, m, images);
      ScanMaterialsHandles(st, model, init, images);
      MaterialStepEffect(mid, model, m, images);
      forall p | p in st.textures
        ensures p in r.textures && r.textures[p] == st.textures[p]
      {
        assert p in mid.textures && mid.textures[p] == st.textures[p];
      }
    }
  }

  /** A successful pass over one model's materials: each material is well formed, and each texture path not cached yet gets one fresh handle. */
  lemma ScanMaterialsTextures(st: Loading, model: string, mats: seq<Material>, images: set<string>)
    requires HandlesOk(st.textures, st.nextId)
    requires ScanMaterials(st, model, mats, images).error.None?
    ensures st.error.None?
    ensures forall m :: m in mats ==> WellFormed(m)
    ensures var r := ScanMaterials(st, model, mats, images);
      && HandlesOk(r.textures, r.nextId) && Extends(st.textures, r.textures)
      && r.textures.Keys == st.textures.Keys + TexturePaths(mats)
  {
    ScanMaterialsWellFormed(st, model, mats, images);
    ScanMaterialsKeys(st, model, mats, images);
    ScanMaterialsHandles(st, model, mats, images);
  }

  /** A successful pass over one model's materials adds their vertex counts to `model_indices` and leaves the table alone. */
  lemma {:induction false} ScanMaterialsIndices(st: Loading, model: string, mats: seq<Material>, images: set<string>)
    requires ScanMaterials(st, model, mats, images).error.None?
    ensures var r := ScanMaterials(st, model, mats, images);
      r.indices == st.indices + Indices(mats) && r.offset == st.offset && r.models == st.models
    decreases |mats|
  {
    if mats != [] {
      var init := mats[..|mats| - 1];
      var m := mats[|mats| - 1];
      var mid := ScanMaterials(st, model, init, images);
      assert ScanMaterials(st, model, mats, images) == MaterialStep(mid, model, m, images);
      MaterialStepSticks(mid, model, m, images);
      ScanMaterialsIndices(st, model, init, images);
      MaterialStepTally(mid, model, m, images);
    }
  }

  /** A successful pass over one model's materials appends their arrays to `all_vertices`, in order. */
  lemma {:induction false} ScanMaterialsChunks(st: Loading, model: string, mats: seq<Material>, images: set<string>)
    requires ScanMaterials(st, model, mats, images).error.None?
    ensures ScanMaterials(st, model, mats, images).chunks == st.chunks + VertexArrays(mats)
    decreases |mats|
  {
    if mats != [] {
      var init := mats[..|mats| - 1];
      var m := mats[|mats| - 1];
      var mid := ScanMaterials(st, model, init, images);
      assert ScanMaterials(st, model, mats, images) == MaterialStep(mid, model, m, images);
      MaterialStepSticks(mid, model, m, images);
      ScanMaterialsChunks(st, model, init, images);
      MaterialStepTally(mid, model, m, images);
      VertexArraysLast(mats);
    }
  }

  /** A successful pass over one model's materials adds their vertex counts to `model_indices` and their arrays to `all_vertices`. */
  lemma ScanMaterialsTally(st: Loading, model: string, mats: seq<Material>, images: set<string>)
    requires ScanMaterials(st, model, mats, images).error.None?
    ensures var r := ScanMaterials(st, model, mats, images);
      && r.indices == st.indices + Indices(mats)
      && r.chunks == st.chunks + VertexArrays(mats)
      && r.offset == st.offset && r.models == st.models
    ensures mats == [] ==> ScanMaterials(st, model, mats, images) == st
  {
    ScanMaterialsIndices(st, model, mats, images);
    ScanMaterialsChunks(st, model, mats, images);
  }

  /** After a successful pass over a non-empty list of materials, the bound texture and vertices are the last material's. */
  lemma ScanMaterialsLast(st: Loading, model: string, mats: seq<Material>, images: set<string>)
    requires mats != [] && ScanMaterials(st, model, mats, images).error.None?
    ensures var r := ScanMaterials(st, model, mats, images);
      var m := mats[|mats| - 1];
      m.texture.Some? && m.texture.value in r.textures &&
      r.last == Some(Bound(r.textures[m.texture.value], m.vertices))
  {
  }

  /** One successful pass of the model loop: the model's materials are well formed and their new texture paths loaded. */
  lemma ModelStepTextures(prev: Loading, x: string, assets: map<string, seq<Material>>,
                          images: set<string>, withRadius: bool)
    requires HandlesOk(prev.textures, prev.nextId)
    requires ModelStep(prev, x, assets, images, withRadius).error.None?
    ensures prev.error.None? && x in assets
    ensures forall m :: m in assets[x] ==> WellFormed(m)
    ensures var r := ModelStep(prev, x, assets, images, withRadius);
      && HandlesOk(r.textures, r.nextId) && Extends(prev.textures, r.textures)
      && r.textures.Keys == prev.textures.Keys + TexturePaths(assets[x])
  {
    ScanMaterialsTextures(prev.(indices := 0), x, assets[x], images);
  }

  /** One successful pass of the model loop: the entry recorded for the model and the running totals. */
  lemma ModelStepTally(prev: Loading, x: string, assets: map<string, seq<Material>>,
                       images: set<string>, withRadius: bool)
    requires ModelStep(prev, x, assets, images, withRadius).error.None?
    ensures prev.error.None? && x in assets
    ensures var r := ModelStep(prev, x, assets, images, withRadius);
      && r.chunks == prev.chunks + VertexArrays(assets[x])
      && r.offset == prev.offset + Indices(assets[x])
    ensures var r := ModelStep(prev, x, assets, images, withRadius);
      var mats := assets[x];
      && r.last.Some?
      && (if mats == [] then r.last == prev.last && r.textures == prev.textures
          else mats[|mats| - 1].texture.Some? && mats[|mats| - 1].texture.value in r.textures &&
               r.last == Some(Bound(r.textures[mats[|mats| - 1].texture.value], mats[|mats| - 1].vertices)))
      && r.models == prev.models[x := ModelInfo(prev.offset, Indices(mats), r.last.value.texture,
                                               if withRadius then RadiusSq(r.last.value.vertices) else None)]
  {
    var base := prev.(indices := 0);
    ScanMaterialsTally(base, x, assets[x], images);
    if assets[x] != [] {
      ScanMaterialsLast(base, x, assets[x], images);
    }
  }

  /**
   * The texture bookkeeping of a successful load: every listed name parsed,
   * every material well formed, every cached texture kept under its handle and
   * each new path given one fresh handle.
   */
  lemma {:induction false} LoadedTextures(names: seq<string>, assets: map<string, seq<Material>>, images: set<string>,
                                          t0: map<string, nat>, n0: nat, withRadius: bool)
    requires HandlesOk(t0, n0)
    requires Load(names, assets, images, t0, n0, withRadius).error.None?
    ensures forall n :: n in names ==> n in assets
    ensures forall m :: m in MaterialsOf(names, assets) ==> WellFormed(m)
    ensures var r := Load(names, assets, images, t0, n0, withRadius);
      && HandlesOk(r.textures, r.nextId) && Extends(t0, r.textures)
      && r.textures.Keys == t0.Keys + TexturePaths(MaterialsOf(names, assets))
    decreases |names|
  {
    if names != [] {
      var init := names[..|names| - 1];
      var x := names[|names| - 1];
      var prev := Load(init, assets, images, t0, n0, withRadius);
      assert prev.error.None?;
      LoadedTextures(init, assets, images, t0, n0, withRadius);
      ModelStepTextures(prev, x, assets, images, withRadius);
      var initMats := MaterialsOf(init, assets);
      assert MaterialsOf(names, assets) == initMats + assets[x];
      TexturePathsAppend(initMats, assets[x]);
      assert forall m :: m in MaterialsOf(names, assets) ==> m in initMats || m in assets[x];
      assert forall n :: n in names ==> n in init || n == x;
    }
  }

  /** The handle counter never moves backwards over a pass of the material loop. */
  lemma {:induction false} ScanMaterialsCounter(st: Loading, model: string, mats: seq<Material>, images: set<string>)
    ensures ScanMaterials(st, model, mats, images).nextId >= st.nextId
    decreases |mats|
  {
    if mats != [] {
      ScanMaterialsCounter(st, model, mats[..|mats| - 1], images);
    }
  }

  /** The handle counter never moves backwards over a load: handles issued before it stay below it. */
  lemma {:induction false} ScanModelsCounter(st: Loading, names: seq<string>, assets: map<string, seq<Material>>,
                                             images: set<string>, withRadius: bool)
    ensures ScanModels(st, names, assets, images, withRadius).nextId >= st.nextId
    decreases |names|
  {
    if names != [] {
      var prev := ScanModels(st, names[..|names| - 1], assets, images, withRadius);
      ScanModelsCounter(st, names[..|names| - 1], assets, images, withRadius);
      var x := names[|names| - 1];
      if prev.error.None? && x in assets {
        ScanMaterialsCounter(prev.(indices := 0), x, assets[x], images);
      }
    }
  }

  /** A successful load of at least one model has vertex data to upload; with no names there is none. */
  lemma {:induction false} LoadedChunks(names: seq<string>, assets: map<string, seq<Material>>, images: set<string>,
                                        t0: map<string, nat>, n0: nat, withRadius: bool)
    requires Load(names, assets, images, t0, n0, withRadius).error.None?
    ensures Load(names, assets, images, t0, n0, withRadius).chunks != [] <==> names != []
    decreases |names|
  {
    if names != [] {
      var init := names[..|names| - 1];
      var x := names[|names| - 1];
      var prev := Load(init, assets, images, t0, n0, withRadius);
      ModelStepTally(prev, x, assets, images, withRadius);
      if init != [] {
        LoadedChunks(init, assets, images, t0, n0, withRadius);
      }
    }
  }

  /**
   * After a successful load a context may take the next handle for its vertex
   * buffer: every texture handle issued, before or during the load, is below
   * the counter, and the counter has not moved backwards.
   */
  lemma LoadedHandles(names: seq<string>, assets: map<string, seq<Material>>, images: set<string>,
                      t0: map<string, nat>, n0: nat, withRadius: bool)
    requires HandlesOk(t0, n0)
    requires Load(names, assets, images, t0, n0, withRadius).error.None?
    ensures var r := Load(names, assets, images, t0, n0, withRadius);
      HandlesOk(r.textures, r.nextId) && r.nextId >= n0
  {
    LoadedTextures(names, assets, images, t0, n0, withRadius);
    ScanModelsCounter(Start(t0, n0), names, assets, images, withRadius);
  }

  /**
   * The table bookkeeping of a successful load: the table holds exactly the
   * names of this call, the running offset is the total vertex count, and
   * `all_vertices` holds the material arrays in load order.
   */
  lemma {:induction false} LoadedState(names: seq<string>, assets: map<string, seq<Material>>, images: set<string>,
                                       t0: map<string, nat>, n0: nat, withRadius: bool)
    requires Load(names, assets, images, t0, n0, withRadius).error.None?
    ensures var r := Load(names, assets, images, t0, n0, withRadius);
      && r.models.Keys == (set n | n in names)
      && r.offset == OffsetBefore(names, assets)
      && r.chunks == VertexArrays(MaterialsOf(names, assets))
    decreases |names|
  {
    if names == [] {
      assert (set n | n in names) == {};
    } else {
      var init := names[..|names| - 1];
      var x := names[|names| - 1];
      var prev := Load(init, assets, images, t0, n0, withRadius);
      assert prev.error.None?;
      LoadedState(init, assets, images, t0, n0, withRadius);
      ModelStepTally(prev, x, assets, images, withRadius);
      var initMats := MaterialsOf(init, assets);
      assert MaterialsOf(names, assets) == initMats + assets[x];
      VertexArraysAppend(initMats, assets[x]);
      assert forall n :: n in names ==> n in init || n == x;
    }
  }

  /** After a successful load, the bound texture and vertices are those of the last material loaded. */
  lemma {:induction false} LoadedLast(names: seq<string>, assets: map<string, seq<Material>>, images: set<string>,
                                      t0: map<string, nat>, n0: nat, withRadius: bool)
    requires Load(names, assets, images, t0, n0, withRadius).error.None?
    ensures var r := Load(names, assets, images, t0, n0, withRadius);
      var mats := MaterialsOf(names, assets);
      if mats == [] then r.last.None?
      else mats[|mats| - 1].texture.Some? && mats[|mats| - 1].texture.value in r.textures &&
           r.last == Some(Bound(r.textures[mats[|mats| - 1].texture.value], mats[|mats| - 1].vertices))
    decreases |names|
  {
    if names != [] {
      var init := names[..|names| - 1];
      var x := names[|names| - 1];
      var prev := Load(init, assets, images, t0, n0, withRadius);
      assert prev.error.None?;
      LoadedLast(init, assets, images, t0, n0, withRadius);
      ModelStepTally(prev, x, assets, images, withRadius);
      var mats := MaterialsOf(names, assets);
      assert mats == MaterialsOf(init, assets) + assets[x];
      if assets[x] == [] {
        assert mats == MaterialsOf(init, assets);
      } else {
        assert mats[|mats| - 1] == assets[x][|assets[x]| - 1];
      }
    }
  }

  /**
   * Name i of the call is recorded at the sum of the vertex counts of the
   * models before it, with its own vertex count, and the texture handle and
   * radius of the latest material bound at that point: its own last material,
   * or the previous model's when it has none.
   */
  ghost predicate EntryRecorded(names: seq<string>, assets: map<string, seq<Material>>, r: Loading,
                                i: nat, withRadius: bool)
    requires i < |names|
  {
    var upTo := MaterialsOf(names[..i + 1], assets);
    && names[i] in assets && names[i] in r.models
    && upTo != [] && upTo[|upTo| - 1].texture.Some? && upTo[|upTo| - 1].texture.value in r.textures
    && r.models[names[i]] == ModelInfo(OffsetBefore(names[..i], assets), Indices(assets[names[i]]),
                                       r.textures[upTo[|upTo| - 1].texture.value],
                                       if withRadius then RadiusSq(upTo[|upTo| - 1].vertices) else None)
  }

  /** Position i holds the last occurrence of its name in the list. */
  ghost predicate LastOccurrence(names: seq<string>, i: nat) {
    forall j :: i < j < |names| ==> names[j] != names[i]
  }

  /**
   * The entry a successful load records for each name of the call (its last
   * occurrence when listed twice, since the later assignment wins).
   */
  lemma {:induction false} LoadedTable(names: seq<string>, assets: map<string, seq<Material>>, images: set<string>,
                                       t0: map<string, nat>, n0: nat, withRadius: bool)
    requires HandlesOk(t0, n0)
    requires Load(names, assets, images, t0, n0, withRadius).error.None?
    ensures forall i :: 0 <= i < |names| && LastOccurrence(names, i) ==>
      EntryRecorded(names, assets, Load(names, assets, images, t0, n0, withRadius), i, withRadius)
    decreases |names|
  {
    if names != [] {
      var init := names[..|names| - 1];
      assert Load(init, assets, images, t0, n0, withRadius).error.None?;
      LoadedTable(init, assets, images, t0, n0, withRadius);
      forall i | 0 <= i < |names| && LastOccurrence(names, i)
        ensures EntryRecorded(names, assets, Load(names, assets, images, t0, n0, withRadius), i, withRadius)
      {
        if i < |names| - 1 {
          assert LastOccurrence(init, i) by {
            assert forall j :: i < j < |init| ==> init[j] == names[j];
          }
        }
        StepEntry(names, assets, images, t0, n0, withRadius, i);
      }
    }
  }

  /** The entry of name i after the last pass, from the entries before it. */
  lemma StepEntry(names: seq<string>, assets: map<string, seq<Material>>, images: set<string>,
                  t0: map<string, nat>, n0: nat, withRadius: bool, i: nat)
    requires HandlesOk(t0, n0)
    requires Load(names, assets, images, t0, n0, withRadius).error.None?
    requires i < |names| && LastOccurrence(names, i)
    requires i < |names| - 1 ==>
      EntryRecorded(names[..|names| - 1], assets, Load(names[..|names| - 1], assets, images, t0, n0, withRadius), i, withRadius)
    ensures EntryRecorded(names, assets, Load(names, assets, images, t0, n0, withRadius), i, withRadius)
  {
    var init := names[..|names| - 1];
    var x := names[|names| - 1];
    var prev := Load(init, assets, images, t0, n0, withRadius);
    var r := Load(names, assets, images, t0, n0, withRadius);
    assert prev.error.None?;
    assert r == ModelStep(prev, x, assets, images, withRadius);
    LoadedTextures(init, assets, images, t0, n0, withRadius);
    ModelStepTextures(prev, x, assets, images, withRadius);
    ModelStepTally(prev, x, assets, images, withRadius);
    if i == |names| - 1 {
      LoadedState(init, assets, images, t0, n0, withRadius);
      LoadedLast(init, assets, images, t0, n0, withRadius);
      LastEntry(names, assets, prev, r, images, withRadius);
    } else {
      assert names[i] != x;
      EarlierEntry(names, assets, prev, r, i, withRadius);
    }
  }

  /** An entry recorded before the last pass survives it when the last name differs. */
  lemma EarlierEntry(names: seq<string>, assets: map<string, seq<Material>>, prev: Loading, r: Loading,
                     i: nat, withRadius: bool)
    requires i < |names| - 1
    requires EntryRecorded(names[..|names| - 1], assets, prev, i, withRadius)
    requires names[i] != names[|names| - 1]
    requires Extends(prev.textures, r.textures)
    requires forall n :: n in prev.models && n != names[|names| - 1] ==> n in r.models && r.models[n] == prev.models[n]
    ensures EntryRecorded(names, assets, r, i, withRadius)
  {
    var init := names[..|names| - 1];
    assert names[..i + 1] == init[..i + 1];
    assert names[..i] == init[..i];
  }

  /** The entry of the name recorded last, from the state before its pass. */
  lemma LastEntry(names: seq<string>, assets: map<string, seq<Material>>, prev: Loading, r: Loading,
                  images: set<string>, withRadius: bool)
    requires names != [] && r == ModelStep(prev, names[|names| - 1], assets, images, withRadius)
    requires r.error.None?
    requires prev.offset == OffsetBefore(names[..|names| - 1], assets)
    requires var mats := MaterialsOf(names[..|names| - 1], assets);
      if mats == [] then prev.last.None?
      else mats[|mats| - 1].texture.Some? && mats[|mats| - 1].texture.value in prev.textures &&
           prev.last == Some(Bound(prev.textures[mats[|mats| - 1].texture.value], mats[|mats| - 1].vertices))
    requires Extends(prev.textures, r.textures)
    ensures EntryRecorded(names, assets, r, |names| - 1, withRadius)
  {
    var init := names[..|names| - 1];
    var x := names[|names| - 1];
    ModelStepTally(prev, x, assets, images, withRadius);
    assert names[..|names|] == names;
    var mats := MaterialsOf(names, assets);
    assert mats == MaterialsOf(init, assets) + assets[x];
    if assets[x] == [] {
      assert mats == MaterialsOf(init, assets);
    } else {
      assert mats[|mats| - 1] == assets[x][|assets[x]| - 1];
    }
  }

  /** The materials of a prefix of the names are among the materials of all of them. */
  lemma {:induction false} MaterialsOfPrefix(names: seq<string>, assets: map<string, seq<Material>>, k: nat)
    requires k <= |names|
    ensures forall m :: m in MaterialsOf(names[..k], assets) ==> m in MaterialsOf(names, assets)
    decreases |names|
  {
    if k < |names| {
      var init := names[..|names| - 1];
      assert init[..k] == names[..k];
      MaterialsOfPrefix(init, assets, k);
    } else {
      assert names[..k] == names;
    }
  }

  /** A successful load parsed every listed name, and every material of theirs is well formed, whatever the cache held. */
  lemma {:induction false} LoadedWellFormed(names: seq<string>, assets: map<string, seq<Material>>, images: set<string>,
                                            t0: map<string, nat>, n0: nat, withRadius: bool)
    requires Load(names, assets, images, t0, n0, withRadius).error.None?
    ensures forall n :: n in names ==> n in assets
    ensures forall m :: m in MaterialsOf(names, assets) ==> WellFormed(m)
    decreases |names|
  {
    if names != [] {
      var init := names[..|names| - 1];
      var x := names[|names| - 1];
      var prev := Load(init, assets, images, t0, n0, withRadius);
      assert prev.error.None? && x in assets;
      LoadedWellFormed(init, assets, images, t0, n0, withRadius);
      ScanMaterialsWellFormed(prev.(indices := 0), x, assets[x], images);
      assert MaterialsOf(names, assets) == MaterialsOf(init, assets) + assets[x];
      assert forall m :: m in MaterialsOf(names, assets) ==> m in MaterialsOf(init, assets) || m in assets[x];
      assert forall n :: n in names ==> n in init || n == x;
    }
  }

  /** A material in the wrong vertex format, in any listed model, fails the whole load. */
  lemma BadFormatAborts(names: seq<string>, assets: map<string, seq<Material>>, images: set<string>,
                        t0: map<string, nat>, n0: nat, withRadius: bool, i: nat, m: Material)
    requires i < |names| && names[i] in assets && m in assets[names[i]] && m.format != VERTEX_FORMAT
    ensures Load(names, assets, images, t0, n0, withRadius).error.Some?
  {
    assert names[..i + 1] == names[..i] + [names[i]];
    assert m in MaterialsOf(names[..i + 1], assets);
    MaterialsOfPrefix(names, assets, i + 1);
    if Load(names, assets, images, t0, n0, withRadius).error.None? {
      LoadedWellFormed(names, assets, images, t0, n0, withRadius);
    }
  }

  /** A path that is already cached is not uploaded again, even when its image would no longer decode. */
  lemma CachedTextureReused(st: Loading, model: string, m: Material, images: set<string>)
    requires st.error.None? && WellFormed(m) && Cached(st.textures, m.texture.value)
    ensures var r := MaterialStep(st, model, m, images);
      r.error.None? && r.textures == st.textures && r.nextId == st.nextId &&
      r.last == Some(Bound(st.textures[m.texture.value], m.vertices))
  {
  }

  /** A path not cached yet is uploaded once, under the next fresh handle. */
  lemma NewTextureLoaded(st: Loading, model: string, m: Material, images: set<string>)
    requires st.error.None? && WellFormed(m) && !Cached(st.textures, m.texture.value)
    ensures var r := MaterialStep(st, model, m, images);
      if m.texture.value in images
      then r.error.None? && r.textures == st.textures[m.texture.value := st.nextId] && r.nextId == st.nextId + 1
      else r.error == Some(UnreadableImage(m.texture.value))
  {
  }

  /**
   * The material loop of load_models for one model: each material's format is
   * checked, its texture loaded unless cached, its vertices gathered; the loop
   * stops at the first error.
   */
  method ScanModelMaterials(base: Loading, name: string, mats: seq<Material>, images: set<string>)
    returns (st: Loading)
    requires base.error.None?
    ensures st == ScanMaterials(base, name, mats, images)
  {
    st := base;
    var j := 0;
    while j < |mats|
      invariant 0 <= j <= |mats|
      invariant st == ScanMaterials(base, name, mats[..j], images)
      invariant st.error.None?
    {
      var m := mats[j];
      ghost var before := st;
      assert mats[..j + 1][..j] == mats[..j];
      assert mats[..j + 1][j] == m;
      if m.format != VERTEX_FORMAT {
        st := st.(error := Some(BadVertexFormat(name)));
        MaterialsAbortSticks(base, name, mats, images, j + 1);
        return;
      }
      if m.texture.None? {
        st := st.(error := Some(NoTexture(name)));
        MaterialsAbortSticks(base, name, mats, images, j + 1);
        return;
      }
      var path := m.texture.value;
      if !Cached(st.textures, path) {
        if path !in images {
          st := st.(error := Some(UnreadableImage(path)));
          MaterialsAbortSticks(base, name, mats, images, j + 1);
          return;
        }
        var added := AddTexture(st.textures, st.nextId, path);
        st := st.(textures := added.0, nextId := added.1);
      }
      var texture := st.textures[path];
      st := st.(chunks := st.chunks + [m.vertices],
                indices := st.indices + |m.vertices| / FLOATS_PER_VERTEX,
                last := Some(Bound(texture, m.vertices)));
      assert st == MaterialStep(before, name, m, images);
      j := j + 1;
    }
    assert mats[..|mats|] == mats;
  }

  /**
   * One pass of the model loop of load_models: the mesh is parsed,
   * `model_indices` reset, the materials scanned, and the entry recorded at
   * the running offset, unless an error ends the pass first.
   */
  method ScanModel(st: Loading, name: string, assets: map<string, seq<Material>>, images: set<string>,
                   withRadius: bool) returns (next: Loading)
    requires st.error.None?
    ensures next == ModelStep(st, name, assets, images, withRadius)
  {
    if name !in assets {
      return st.(error := Some(MissingMesh(name)));
    }
    next := ScanModelMaterials(st.(indices := 0), name, assets[name], images);
    if next.error.Some? {
      return;
    }
    if next.last.None? {
      return next.(error := Some(NoMaterialYet(name)));
    }
    var radius: Option<real> := None;
    if withRadius {
      radius := RadiusSq(next.last.value.vertices);
      if radius.None? {
        return next.(error := Some(NoRadius(name)));
      }
    }
    next := next.(models := next.models[name := ModelInfo(next.offset, next.indices, next.last.value.texture, radius)],
                  offset := next.offset + next.indices);
  }

  /**
   * The model loop of load_models: each name is loaded in turn, and the loop
   * stops at the first error.
   */
  method ScanAll(names: seq<string>, assets: map<string, seq<Material>>, images: set<string>,
                 textures: map<string, nat>, nextId: nat, withRadius: bool) returns (st: Loading)
    ensures st == Load(names, assets, images, textures, nextId, withRadius)
  {
    var start := Start(textures, nextId);
    st := start;
    var i := 0;
    while i < |names|
      invariant 0 <= i <= |names|
      invariant st == ScanModels(start, names[..i], assets, images, withRadius)
      invariant st.error.None?
    {
      assert names[..i + 1][..i] == names[..i];
      assert names[..i + 1][i] == names[i];
      st := ScanModel(st, names[i], assets, images, withRadius);
      i := i + 1;
      if st.error.Some? {
        ModelsAbortSticks(start, names, assets, images, withRadius, i);
        return;
      }
    }
    assert names[..|names|] == names;
  }
}

/**
 * The render context of context.py: named shader programs with their uniform
 * tables, the active program, the model table, the texture cache and the draw
 * queue.  GL handles come from the counter `nextId` (GL never hands out 0);
 * the GL state they name is not modelled.
 */
module Context {
  import opened Wrappers
  import opened Geometry
  import opened Assets
  import opened Shaders
  import opened Draw

  datatype ContextError =
    | UnknownProgram(name: string)    // program_ids[name] raises KeyError
    | NoActiveProgram                 // self.active_program read before any use_program
    | UnknownUniform(name: string)    // active_uniforms[uni] raises KeyError

  /** A name update_uniforms can handle: declared by the program, or a camera uniform it may skip. */
  predicate Resolves(table: map<string, int>, name: string) {
    name in table || name in CAMERA_UNIFORMS
  }

  /** The position of the first name update_uniforms cannot handle, or the length when there is none. */
  function FirstUnresolved(table: map<string, int>, values: seq<(string, Mat4)>): (k: nat)
    ensures k <= |values|
    ensures forall j :: 0 <= j < k ==> Resolves(table, values[j].0)
    ensures k < |values| ==> !Resolves(table, values[k].0)
    decreases |values|
  {
    if values == [] then 0
    else if !Resolves(table, values[0].0) then 0
    else 1 + FirstUnresolved(table, values[1..])
  }

  /** The (location, matrix) writes for the names the program declares, in order; other names are skipped. */
  function Sent(table: map<string, int>, values: seq<(string, Mat4)>): seq<(int, Mat4)>
    decreases |values|
  {
    if values == [] then []
    else
      var (name, matrix) := values[|values| - 1];
      Sent(table, values[..|values| - 1]) + if name in table then [(table[name], matrix)] else []
  }

  /** A write is sent exactly when some value's name is declared at that location with that matrix. */
  lemma {:induction false} SentWrites(table: map<string, int>, values: seq<(string, Mat4)>, w: (int, Mat4))
    ensures w in Sent(table, values) <==>
      exists k :: 0 <= k < |values| && values[k].0 in table && table[values[k].0] == w.0 && values[k].1 == w.1
    decreases |values|
  {
    if values != [] {
      var init := values[..|values| - 1];
      SentWrites(table, init, w);
      assert forall k :: 0 <= k < |init| ==> init[k] == values[k];
      var last := values[|values| - 1];
      if w in Sent(table, values) && w !in Sent(table, init) {
        assert last.0 in table && table[last.0] == w.0 && last.1 == w.1;
      }
    }
  }

  /** The dictionary gen_uniforms returns names only camera uniforms, so update_uniforms never fails on it. */
  lemma CameraUniformsResolve(table: map<string, int>, u: Uniforms)
    ensures FirstUnresolved(table, Entries(u)) == 4
  {
    var es := Entries(u);
    assert forall j :: 0 <= j < 4 ==> Resolves(table, es[j].0);
  }

  class Context {
    var programIds: map<string, nat>
    var uniforms: map<string, map<string, int>>
    var activeProgram: Option<string>
    var models: map<string, ModelInfo>
    var textures: map<string, nat>
    var vertexData: seq<real>      // contents of the last vertex buffer uploaded
    var vbo: Option<nat>           // handle of that buffer
    var vao: nat
    var nextId: nat
    const drawQueue: DrawQueue

    ghost predicate Valid()
      reads this
    {
      && programIds.Keys == uniforms.Keys
      && (activeProgram.Some? ==> activeProgram.value in programIds)
      && HandlesOk(textures, nextId)
      && 1 <= vao < nextId
      && (forall n :: n in programIds ==> 1 <= programIds[n] < nextId)
      && (vbo.Some? ==> 1 <= vbo.value < nextId)
    }

    /** __init__: empty tables, an empty draw queue and one vertex array object. */
    constructor ()
      ensures Valid() && fresh(drawQueue) && drawQueue.items == []
      ensures programIds == map[] && uniforms == map[] && activeProgram == None
      ensures models == map[] && textures == map[] && vbo == None && vertexData == []
    {
      programIds, uniforms, activeProgram := map[], map[], None;
      models, textures := map[], map[];
      vertexData, vbo := [], None;
      vao := 1;
      nextId := 2;
      drawQueue := new DrawQueue();
    }

    /**
     * load_program: records a fresh program handle under `name` and a fresh
     * uniform table with one entry per active uniform.  A program already
     * loaded under `name` is replaced.
     */
    method LoadProgram(name: string, build: ShaderBuild) returns (res: Outcome<ShaderError>)
      requires Valid()
      modifies this
      ensures Valid()
      ensures res.Pass? <==> build.Compiled?
      ensures res.Fail? ==> res.error == BuildError(build) && programIds == old(programIds) &&
                            uniforms == old(uniforms) && nextId == old(nextId)
      ensures res.Pass? ==> programIds == old(programIds)[name := old(nextId)] && nextId == old(nextId) + 1 &&
                            uniforms == old(uniforms)[name := UniformTable(build.active)]
      ensures activeProgram == old(activeProgram) && models == old(models) && textures == old(textures)
      ensures vertexData == old(vertexData) && vbo == old(vbo) && vao == old(vao)
    {
      if !build.Compiled? {
        return Fail(BuildError(build));
      }
      var active := build.active;
      programIds := programIds[name := nextId];
      nextId := nextId + 1;
      // the table self.uniforms[name], filled one active uniform at a time
      var table: map<string, int> := map[];
      var i := 0;
      while i < |active|
        invariant 0 <= i <= |active|
        invariant table == UniformTable(active[..i])
      {
        assert active[..i + 1][..i] == active[..i];
        table := table[active[i].name := active[i].location];
        i := i + 1;
      }
      assert active[..|active|] == active;
      uniforms := uniforms[name := table];
      res := Pass;
    }

    /** use_program: makes a loaded program active; an unknown name is a lookup failure. */
    method UseProgram(name: string) returns (res: Outcome<ContextError>)
      requires Valid()
      modifies this
      ensures Valid()
      ensures res.Pass? <==> name in old(programIds)
      ensures res.Pass? ==> activeProgram == Some(name)
      ensures res.Fail? ==> res.error == UnknownProgram(name) && activeProgram == old(activeProgram)
      ensures programIds == old(programIds) && uniforms == old(uniforms) && models == old(models)
      ensures textures == old(textures) && nextId == old(nextId)
      ensures vertexData == old(vertexData) && vbo == old(vbo) && vao == old(vao)
    {
      if name !in programIds {
        return Fail(UnknownProgram(name));
      }
      activeProgram := Some(name);
      res := Pass;
    }

    /**
     * update_uniforms: sends each (name, matrix) to the active program in order.
     * A camera uniform the program does not declare is skipped; any other
     * undeclared name is a lookup failure, after the writes before it were sent.
     */
    method UpdateUniforms(values: seq<(string, Mat4)>) returns (sent: seq<(int, Mat4)>, failure: Option<ContextError>)
      requires Valid()
      ensures activeProgram.None? ==> sent == [] && failure == Some(NoActiveProgram)
      ensures activeProgram.Some? ==>
        var table := uniforms[activeProgram.value];
        var k := FirstUnresolved(table, values);
        && sent == Sent(table, values[..k])
        && failure == if k == |values| then None else Some(UnknownUniform(values[k].0))
    {
      if activeProgram.None? {
        return [], Some(NoActiveProgram);
      }
      var table := uniforms[activeProgram.value];
      sent := [];
      var i := 0;
      while i < |values|
        invariant 0 <= i <= |values|
        invariant i <= FirstUnresolved(table, values)
        invariant sent == Sent(table, values[..i])
      {
        var (name, matrix) := values[i];
        assert values[..i + 1][..i] == values[..i];
        assert values[..i + 1][i] == values[i];
        if name in CAMERA_UNIFORMS && name !in table {
          i := i + 1;
          continue;
        }
        if name !in table {
          return sent, Some(UnknownUniform(name));
        }
        sent := sent + [(table[name], matrix)];
        i := i + 1;
      }
      assert values[..|values|] == values;
      failure := None;
    }

    /**
     * load_texture: an image that decodes gets a fresh handle under `path`;
     * every other entry of the cache is left as it was.  The source returns
     * nothing; the handle returned here is a convenience of the model, equal
     * to the new `textures[path]`.
     */
    method LoadTexture(path: string, images: set<string>) returns (res: Result<nat, LoadError>)
      requires Valid()
      modifies this
      ensures Valid()
      ensures res.Success? <==> path in images
      ensures res.Success? ==> res.value == old(nextId) && textures == old(textures)[path := old(nextId)] &&
                               nextId == old(nextId) + 1
      ensures res.Failure? ==> res.error == UnreadableImage(path) && textures == old(textures) && nextId == old(nextId)
      ensures programIds == old(programIds) && uniforms == old(uniforms) && activeProgram == old(activeProgram)
      ensures models == old(models) && vertexData == old(vertexData) && vbo == old(vbo) && vao == old(vao)
    {
      if path !in images {
        return Failure(UnreadableImage(path));
      }
      var id := nextId;
      AddTextureHandles(textures, nextId, path);
      var added := AddTexture(textures, nextId, path);
      textures, nextId := added.0, added.1;
      res := Success(id);
    }

    /**
     * The end of load_models: the gathered vertices are concatenated and
     * uploaded under the next handle, and the cache and model table built by
     * the loop are installed.
     */
    method UploadVertices(tex: map<string, nat>, next: nat, chunks: seq<seq<real>>, table: map<string, ModelInfo>)
      requires Valid()
      requires HandlesOk(tex, next) && nextId <= next
      modifies this
      ensures Valid()
      ensures textures == tex && nextId == next + 1 && vertexData == Flatten(chunks) && vbo == Some(next)
      ensures models == table
      ensures programIds == old(programIds) && uniforms == old(uniforms) && activeProgram == old(activeProgram)
      ensures vao == old(vao)
    {
      HandlesOkRaise(tex, next, next + 1);
      textures, nextId := tex, next + 1;
      vertexData := Flatten(chunks);
      vbo := Some(next);
      models := table;
    }

    /**
     * load_models: loads the named models into one vertex buffer and replaces
     * the model table with exactly the models of this call.  On any failure
     * the context is left as it was (the source ends the process).
     */
    method LoadModels(names: seq<string>, assets: map<string, seq<Material>>, images: set<string>)
      returns (res: Outcome<LoadError>)
      requires Valid()
      modifies this
      ensures Valid()
      ensures var r := Load(names, assets, images, old(textures), old(nextId), true);
        && (res.Pass? <==> r.error.None? && names != [])
        && (res.Pass? ==> models == r.models && textures == r.textures && vertexData == Flatten(r.chunks) &&
                          vbo == Some(r.nextId) && nextId == r.nextId + 1)
        && (res.Fail? ==> res.error == (if r.error.Some? then r.error.value else NothingToUpload) &&
                          models == old(models) && textures == old(textures) && vertexData == old(vertexData) &&
                          vbo == old(vbo) && nextId == old(nextId))
      ensures programIds == old(programIds) && uniforms == old(uniforms) && activeProgram == old(activeProgram)
      ensures vao == old(vao)
    {
      var st := ScanAll(names, assets, images, textures, nextId, true);
      if st.error.Some? {
        res := Fail(st.error.value);
      } else {
        LoadedChunks(names, assets, images, textures, nextId, true);
        if st.chunks == [] {
          res := Fail(NothingToUpload);
        } else {
          LoadedHandles(names, assets, images, textures, nextId, true);
          UploadVertices(st.textures, st.nextId, st.chunks, st.models);
          res := Pass;
        }
      }
    }
  }
}

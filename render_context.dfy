/**
 * The single-program render context of render_context.py: a view matrix and
 * field of view handed in by the caller, a projection rebuilt from the window
 * size on every refresh, one shader program with the locations of its four
 * matrix uniforms, and the same model loader and texture cache as context.py
 * (without bounding radii).  The window enters as its width and height.
 */
module RenderContext {
  import opened Wrappers
  import opened Geometry
  import opened Assets
  import opened Shaders
  import opened Draw

  /** Near and far planes of the projection built by __init__ and refresh. */
  const NEAR: real := 0.1
  const FAR: real := 100.0

  /** The uniforms load_shaders looks up, in the order update_uniforms writes them. */
  const WRITE_ORDER: seq<string> := ["MV", "MVP", "M", "V"]

  datatype RenderError =
    | ZeroHeight                    // width / height with a zero height raises ZeroDivisionError
    | MissingUniform(name: string)  // self.uniforms["MV"] before load_shaders raises KeyError

  /** The projection for a window of the given size. */
  function Projection(fov: real, width: int, height: int): Mat4
    requires height != 0
  {
    Perspective(fov, width as real / height as real, NEAR, FAR)
  }

  /** The writes update_uniforms performs, in its order, for the given uniform table. */
  function Writes(table: map<string, int>, u: Uniforms): seq<(int, Mat4)>
    requires MATRIX_UNIFORMS <= table.Keys
  {
    seq(|WRITE_ORDER|, k requires 0 <= k < |WRITE_ORDER| => (table[WRITE_ORDER[k]], Field(u, WRITE_ORDER[k])))
  }

  /**
   * Every matrix uniform is written exactly once, and what reaches the MV and
   * MVP locations is the model matrix composed with the view, and that product
   * composed with the projection.
   */
  lemma WritesCompose(table: map<string, int>, model: Mat4, view: Mat4, projection: Mat4)
    requires MATRIX_UNIFORMS <= table.Keys
    ensures var w := Writes(table, Compose(model, view, projection));
      && (forall n :: n in MATRIX_UNIFORMS <==> exists k :: 0 <= k < |w| && WRITE_ORDER[k] == n)
      && w[0] == (table["MV"], Multiply(model, view))
      && w[1] == (table["MVP"], Multiply(Multiply(model, view), projection))
      && w[2] == (table["M"], model)
      && w[3] == (table["V"], view)
  {
    assert WRITE_ORDER[0] == "MV" && WRITE_ORDER[1] == "MVP" && WRITE_ORDER[2] == "M" && WRITE_ORDER[3] == "V";
  }

  /** Setting the four matrix uniforms in an empty table, or in one that has exactly them, gives a table of exactly them. */
  lemma AddMatrixUniforms(table: map<string, int>, active: seq<ActiveUniform>)
    requires table.Keys == {} || table.Keys == MATRIX_UNIFORMS
    ensures var t := table["MVP" := Location(active, "MVP")]["MV" := Location(active, "MV")]
                          ["M" := Location(active, "M")]["V" := Location(active, "V")];
      t.Keys == MATRIX_UNIFORMS && forall n :: n in MATRIX_UNIFORMS ==> t[n] == Location(active, n)
  {
  }

  class RenderContext {
    var V: Mat4
    var fov: real
    var P: Mat4
    var programId: Option<nat>
    var uniforms: map<string, int>
    var models: map<string, ModelInfo>
    var textures: map<string, nat>
    var vertexData: seq<real>      // contents of the last vertex buffer uploaded
    var vbo: Option<nat>           // handle of that buffer
    var vao: nat
    var nextId: nat
    const drawQueue: DrawQueue

    /** Before load_shaders there is no program and no table; after it the table has the four matrix uniforms. */
    ghost predicate ProgramTable()
      reads this`programId, this`uniforms
    {
      && (programId.None? <==> uniforms == map[])
      && (programId.Some? ==> uniforms.Keys == MATRIX_UNIFORMS)
    }

    /** The program table, and every handle issued below the counter with no two textures sharing one. */
    ghost predicate Valid()
      reads this
    {
      && ProgramTable()
      && (programId.Some? ==> 1 <= programId.value < nextId)
      && HandlesOk(textures, nextId)
      && 1 <= vao < nextId
      && (vbo.Some? ==> 1 <= vbo.value < nextId)
    }

    /** __init__: keeps the view and field of view, builds the projection for the window, creates a vertex array. */
    constructor (V: Mat4, fov: real, width: int, height: int)
      requires height != 0
      ensures Valid() && fresh(drawQueue) && drawQueue.items == []
      ensures this.V == V && this.fov == fov && P == Projection(fov, width, height)
      ensures programId == None && uniforms == map[]
      ensures models == map[] && textures == map[] && vbo == None && vertexData == []
    {
      this.V := V;
      this.fov := fov;
      P := Perspective(fov, width as real / height as real, NEAR, FAR);
      programId, uniforms := None, map[];
      models, textures := map[], map[];
      vertexData, vbo := [], None;
      vao := 1;
      nextId := 2;
      drawQueue := new DrawQueue();
    }

    /** refresh: rebuilds the projection for the current window size from the stored field of view. */
    method Refresh(width: int, height: int) returns (res: Outcome<RenderError>)
      requires Valid()
      modifies this
      ensures Valid()
      ensures res.Pass? <==> height != 0
      ensures res.Pass? ==> P == Projection(fov, width, height)
      ensures res.Fail? ==> res.error == ZeroHeight && P == old(P)
      ensures V == old(V) && fov == old(fov) && programId == old(programId) && uniforms == old(uniforms)
      ensures models == old(models) && textures == old(textures) && nextId == old(nextId)
      ensures vertexData == old(vertexData) && vbo == old(vbo) && vao == old(vao)
    {
      if height == 0 {
        return Fail(ZeroHeight);
      }
      P := Perspective(fov, width as real / height as real, NEAR, FAR);
      res := Pass;
    }

    /**
     * load_shaders: installs a freshly linked program and looks up the four
     * matrix uniforms in it; a name the program does not declare gets -1.
     */
    method LoadShaders(build: ShaderBuild) returns (res: Outcome<ShaderError>)
      requires Valid()
      modifies this
      ensures Valid()
      ensures res.Pass? <==> build.Compiled?
      ensures res.Fail? ==> res.error == BuildError(build) && programId == old(programId) &&
                            uniforms == old(uniforms) && nextId == old(nextId)
      ensures res.Pass? ==> programId == Some(old(nextId)) && nextId == old(nextId) + 1 &&
                            uniforms.Keys == MATRIX_UNIFORMS &&
                            forall n :: n in MATRIX_UNIFORMS ==> uniforms[n] == Location(build.active, n)
      ensures V == old(V) && fov == old(fov) && P == old(P) && models == old(models) && textures == old(textures)
      ensures vertexData == old(vertexData) && vbo == old(vbo) && vao == old(vao)
    {
      if !build.Compiled? {
        return Fail(BuildError(build));
      }
      var active := build.active;
      programId := Some(nextId);
      nextId := nextId + 1;
      ghost var before := uniforms;
      uniforms := uniforms["MVP" := Location(active, "MVP")];
      uniforms := uniforms["MV" := Location(active, "MV")];
      uniforms := uniforms["M" := Location(active, "M")];
      uniforms := uniforms["V" := Location(active, "V")];
      AddMatrixUniforms(before, active);
      res := Pass;
    }

    /**
     * update_uniforms: composes the model transform with the stored view and
     * projection and writes MV, MVP, M and V to their locations, in that order.
     */
    method UpdateUniforms(M: Mat4) returns (sent: seq<(int, Mat4)>, failure: Option<RenderError>)
      requires Valid()
      ensures failure.None? <==> programId.Some?
      ensures failure.Some? ==> sent == [] && failure.value == MissingUniform("MV")
      ensures failure.None? ==> MATRIX_UNIFORMS <= uniforms.Keys && sent == Writes(uniforms, Compose(M, V, P))
    {
      if "MV" !in uniforms {
        return [], Some(MissingUniform("MV"));
      }
      var MV := Multiply(M, V);
      sent := [(uniforms["MV"], MV)];
      sent := sent + [(uniforms["MVP"], Multiply(MV, P))];
      sent := sent + [(uniforms["M"], M)];
      sent := sent + [(uniforms["V"], V)];
      failure := None;
    }

    /**
     * load_texture: an image that decodes gets a fresh handle under `path`;
     * every other entry of the cache is left as it was.  The source returns
     * nothing; the handle returned here is a convenience of the model, equal
     * to the new `textures[path]`.
     */
    method LoadTexture(path: string, images: set<string>) returns (res: Result<nat, LoadError>)
      requires Valid()
      modifies this
      ensures Valid()
      ensures res.Success? <==> path in images
      ensures res.Success? ==> res.value == old(nextId) && textures == old(textures)[path := old(nextId)] &&
                               nextId == old(nextId) + 1
      ensures res.Failure? ==> res.error == UnreadableImage(path) && textures == old(textures) && nextId == old(nextId)
      ensures V == old(V) && fov == old(fov) && P == old(P) && programId == old(programId) && uniforms == old(uniforms)
      ensures models == old(models) && vertexData == old(vertexData) && vbo == old(vbo) && vao == old(vao)
    {
      if path !in images {
        return Failure(UnreadableImage(path));
      }
      var id := nextId;
      AddTextureHandles(textures, nextId, path);
      var added := AddTexture(textures, nextId, path);
      textures, nextId := added.0, added.1;
      res := Success(id);
    }

    /**
     * The end of load_models: the gathered vertices are concatenated and
     * uploaded under the next handle, and the cache and model table built by
     * the loop are installed.
     */
    method UploadVertices(tex: map<string, nat>, next: nat, chunks: seq<seq<real>>, table: map<string, ModelInfo>)
      requires Valid()
      requires HandlesOk(tex, next) && nextId <= next
      modifies this
      ensures Valid()
      ensures textures == tex && nextId == next + 1 && vertexData == Flatten(chunks) && vbo == Some(next)
      ensures models == table
      ensures V == old(V) && fov == old(fov) && P == old(P) && programId == old(programId) && uniforms == old(uniforms)
      ensures vao == old(vao)
    {
      HandlesOkRaise(tex, next, next + 1);
      textures, nextId := tex, next + 1;
      vertexData := Flatten(chunks);
      vbo := Some(next);
      models := table;
    }

    /**
     * load_models: loads the named models into one vertex buffer and replaces
     * the model table with exactly the models of this call.  On any failure
     * the context is left as it was (the source ends the process).
     */
    method LoadModels(names: seq<string>, assets: map<string, seq<Material>>, images: set<string>)
      returns (res: Outcome<LoadError>)
      requires Valid()
      modifies this
      ensures Valid()
      ensures var r := Load(names, assets, images, old(textures), old(nextId), false);
        && (res.Pass? <==> r.error.None? && names != [])
        && (res.Pass? ==> models == r.models && textures == r.textures && vertexData == Flatten(r.chunks) &&
                          vbo == Some(r.nextId) && nextId == r.nextId + 1)
        && (res.Fail? ==> res.error == (if r.error.Some? then r.error.value else NothingToUpload) &&
                          models == old(models) && textures == old(textures) && vertexData == old(vertexData) &&
                          vbo == old(vbo) && nextId == old(nextId))
      ensures V == old(V) && fov == old(fov) && P == old(P) && programId == old(programId) && uniforms == old(uniforms)
      ensures vao == old(vao)
    {
      var st := ScanAll(names, assets, images, textures, nextId, false);
      if st.error.Some? {
        res := Fail(st.error.value);
      } else {
        LoadedChunks(names, assets, images, textures, nextId, false);
        if st.chunks == [] {
          res := Fail(NothingToUpload);
        } else {
          LoadedHandles(names, assets, images, textures, nextId, false);
          UploadVertices(st.textures, st.nextId, st.chunks, st.models);
          res := Pass;
        }
      }
    }
  }
}

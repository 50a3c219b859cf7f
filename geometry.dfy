/**
 * Vectors and 4x4 matrices as the game uses them through pyrr.
 *
 * Matrix arithmetic is not interpreted: a matrix is the term that built it
 * (a look-at view, a perspective projection, an Euler rotation, a translation
 * or a product of two matrices).  Every equation between matrices proved in
 * this project holds under any interpretation of these constructors as real
 * matrices, because no proof evaluates them; a disequality would hold of the
 * terms only, and none is claimed.
 */
module Geometry {

  datatype Vec3 = Vec3(x: real, y: real, z: real)

  /** The up vector the camera passes to every look-at. */
  const UP: Vec3 := Vec3(0.0, 1.0, 0.0)

  datatype Mat4 =
    | LookAt(eye: Vec3, target: Vec3, up: Vec3)
    | Perspective(fov: real, aspect: real, near: real, far: real)
    | FromEulers(angles: Vec3)
    | FromTranslation(offset: Vec3)
    | Multiply(left: Mat4, right: Mat4)

  /** The matrices a draw hands to a shader: model, view, model-view and model-view-projection. */
  datatype Uniforms = Uniforms(M: Mat4, V: Mat4, MV: Mat4, MVP: Mat4)

  /** Names of the camera-derived uniforms that a shader program may leave undeclared. */
  const CAMERA_UNIFORMS: set<string> := {"MVP", "MV", "V", "M", "P"}

  /** The standard composition: MV is M times V, and MVP is MV times P. */
  function Compose(model: Mat4, view: Mat4, projection: Mat4): Uniforms
  {
    var mv := Multiply(model, view);
    Uniforms(model, view, mv, Multiply(mv, projection))
  }

  /** The four matrix uniforms a draw sets. */
  const MATRIX_UNIFORMS: set<string> := {"MVP", "MV", "M", "V"}

  /** The matrix of `u` that the uniform called `name` receives. */
  function Field(u: Uniforms, name: string): Mat4
    requires name in MATRIX_UNIFORMS
  {
    match name
    case "MV" => u.MV
    case "MVP" => u.MVP
    case "M" => u.M
    case _ => u.V
  }

  /**
   * The uniforms as the ordered name-to-matrix dictionary that gen_uniforms
   * returns: one entry per matrix uniform, each carrying its own matrix.
   */
  function Entries(u: Uniforms): (es: seq<(string, Mat4)>)
    ensures |es| == 4
    ensures forall n :: n in MATRIX_UNIFORMS ==> exists k :: 0 <= k < |es| && es[k].0 == n
    ensures forall k :: 0 <= k < |es| ==> es[k].0 in MATRIX_UNIFORMS && es[k].1 == Field(u, es[k].0)
  {
    var es := [("M", u.M), ("V", u.V), ("MV", u.MV), ("MVP", u.MVP)];
    assert es[0].0 == "M" && es[1].0 == "V" && es[2].0 == "MV" && es[3].0 == "MVP";
    es
  }
}

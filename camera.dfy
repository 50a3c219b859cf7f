/**
 * The game camera of camera.py: position, target, field of view and aspect
 * ratio, with a view and a projection matrix that are rebuilt lazily.  Each
 * setter only raises a dirty flag; gen_uniforms rebuilds what is dirty before
 * composing the uniforms of a draw.
 */
module Camera {
  import opened Geometry

  const NEAR: real := 0.1
  /** The far plane of the projection built by the constructor. */
  const INITIAL_FAR: real := 300.0
  /** The far plane of every projection rebuilt by _regen_prespective. */
  const REGEN_FAR: real := 100.0

  const DEFAULT_POS: Vec3 := Vec3(0.0, 0.0, 0.0)
  const DEFAULT_TARGET: Vec3 := Vec3(0.0, 0.0, 1.0)
  const DEFAULT_ASPECT: real := 1.0
  const DEFAULT_FOV: real := 60.0

  /** The far plane in use: the constructor's until the projection is first rebuilt. */
  function FarPlane(regenerated: bool): real {
    if regenerated then REGEN_FAR else INITIAL_FAR
  }

  class Camera {
    var fov: real
    var aspect: real
    var pos: Vec3
    var target: Vec3
    var V: Mat4
    var P: Mat4
    var regenView: bool
    var regenPerspective: bool
    /** Whether the projection has been rebuilt since construction (which fixes its far plane). */
    ghost var regenerated: bool

    /**
     * The lazy-recompute invariant: a matrix whose flag is down is the one
     * the current fields determine; the projection's far plane depends only
     * on whether it was ever rebuilt.
     */
    ghost predicate Coherent()
      reads this
    {
      && (!regenView ==> V == LookAt(pos, target, UP))
      && (!regenPerspective ==> P == Perspective(fov, aspect, NEAR, FarPlane(regenerated)))
    }

    /** __init__: builds both matrices eagerly, with far plane 300, and leaves both flags down. */
    constructor (pos: Vec3 := DEFAULT_POS, target: Vec3 := DEFAULT_TARGET,
                 aspect: real := DEFAULT_ASPECT, fov: real := DEFAULT_FOV)
      ensures Coherent()
      ensures this.pos == pos && this.target == target && this.aspect == aspect && this.fov == fov
      ensures V == LookAt(pos, target, UP) && P == Perspective(fov, aspect, NEAR, INITIAL_FAR)
      ensures !regenView && !regenPerspective && !regenerated
    {
      this.fov := fov;
      this.aspect := aspect;
      this.pos := pos;
      this.target := target;
      V := LookAt(pos, target, UP);
      regenView := false;
      P := Perspective(fov, aspect, NEAR, INITIAL_FAR);
      regenPerspective := false;
      regenerated := false;
    }

    /** set_aspect: stores the ratio and marks the projection dirty. */
    method SetAspect(aspect: real)
      requires Coherent()
      modifies this
      ensures Coherent()
      ensures this.aspect == aspect && regenPerspective
      ensures fov == old(fov) && pos == old(pos) && target == old(target)
      ensures V == old(V) && P == old(P) && regenView == old(regenView) && regenerated == old(regenerated)
    {
      this.aspect := aspect;
      regenPerspective := true;
    }

    /** set_fov: stores the field of view and marks the projection dirty. */
    method SetFov(fov: real)
      requires Coherent()
      modifies this
      ensures Coherent()
      ensures this.fov == fov && regenPerspective
      ensures aspect == old(aspect) && pos == old(pos) && target == old(target)
      ensures V == old(V) && P == old(P) && regenView == old(regenView) && regenerated == old(regenerated)
    {
      this.fov := fov;
      regenPerspective := true;
    }

    /** set_pos: stores the position and marks the view dirty. */
    method SetPos(pos: Vec3)
      requires Coherent()
      modifies this
      ensures Coherent()
      ensures this.pos == pos && regenView
      ensures fov == old(fov) && aspect == old(aspect) && target == old(target)
      ensures V == old(V) && P == old(P) && regenPerspective == old(regenPerspective) && regenerated == old(regenerated)
    {
      this.pos := pos;
      regenView := true;
    }

    /** set_target: stores the target and marks the view dirty. */
    method SetTarget(target: Vec3)
      requires Coherent()
      modifies this
      ensures Coherent()
      ensures this.target == target && regenView
      ensures fov == old(fov) && aspect == old(aspect) && pos == old(pos)
      ensures V == old(V) && P == old(P) && regenPerspective == old(regenPerspective) && regenerated == old(regenerated)
    {
      this.target := target;
      regenView := true;
    }

    /** _regen_prespective: rebuilds the projection from the current fields, with far plane 100. */
    method RegenPerspective()
      requires Coherent()
      modifies this
      ensures Coherent()
      ensures P == Perspective(fov, aspect, NEAR, REGEN_FAR) && !regenPerspective && regenerated
      ensures fov == old(fov) && aspect == old(aspect) && pos == old(pos) && target == old(target)
      ensures V == old(V) && regenView == old(regenView)
    {
      P := Perspective(fov, aspect, NEAR, REGEN_FAR);
      regenPerspective := false;
      regenerated := true;
    }

    /** _regen_view: rebuilds the view from the current position and target. */
    method RegenView()
      requires Coherent()
      modifies this
      ensures Coherent()
      ensures V == LookAt(pos, target, UP) && !regenView
      ensures fov == old(fov) && aspect == old(aspect) && pos == old(pos) && target == old(target)
      ensures P == old(P) && regenPerspective == old(regenPerspective) && regenerated == old(regenerated)
    {
      V := LookAt(pos, target, UP);
      regenView := false;
    }

    /**
     * gen_uniforms: rebuilds the dirty matrices, clears both flags and returns
     * M, V, M·V and (M·V)·P.  Whatever setters ran before, the view returned is
     * the look-at of the current position and target, and the projection is
     * that of the current field of view and aspect ratio; only its far plane
     * remembers whether it was ever rebuilt.  A matrix whose flag was down is
     * not touched, so a second call with no setter in between changes nothing.
     */
    method GenUniforms(M: Mat4) returns (u: Uniforms)
      requires Coherent()
      modifies this
      ensures Coherent()
      ensures !regenView && !regenPerspective
      ensures V == LookAt(pos, target, UP)
      ensures P == Perspective(fov, aspect, NEAR, FarPlane(regenerated))
      ensures regenerated == (old(regenerated) || old(regenPerspective))
      ensures !old(regenView) ==> V == old(V)
      ensures !old(regenPerspective) ==> P == old(P)
      ensures u == Compose(M, V, P)
      ensures fov == old(fov) && aspect == old(aspect) && pos == old(pos) && target == old(target)
    {
      if regenPerspective {
        RegenPerspective();
      }
      if regenView {
        RegenView();
      }
      var MV := Multiply(M, V);
      var MVP := Multiply(MV, P);
      u := Uniforms(M, V, MV, MVP);
    }
  }

  /**
   * The far plane makes lazy regeneration visible: with fov and aspect left as
   * they were, a call to set_fov alone turns the default camera's projection
   * from far plane 300 into far plane 100.
   */
  method FarPlaneAfterSetFov(M: Mat4) returns (before: Uniforms, after: Uniforms)
    ensures before.MVP == Multiply(Multiply(M, LookAt(DEFAULT_POS, DEFAULT_TARGET, UP)),
                                   Perspective(DEFAULT_FOV, DEFAULT_ASPECT, NEAR, INITIAL_FAR))
    ensures after.MVP == Multiply(Multiply(M, LookAt(DEFAULT_POS, DEFAULT_TARGET, UP)),
                                  Perspective(DEFAULT_FOV, DEFAULT_ASPECT, NEAR, REGEN_FAR))
    ensures before.M == after.M && before.V == after.V && before.MV == after.MV
  {
    var c := new Camera();
    before := c.GenUniforms(M);
    c.SetFov(c.fov);
    after := c.GenUniforms(M);
  }
}

/**
 * A game entity of entity.py: the name of the model it is drawn with, its
 * position and Euler rotation, the list of entities it collided with, and the
 * world transform computed by its latest draw.
 */
module Entity {
  import opened Wrappers
  import opened Geometry
  import opened Draw

  /** The world transform draw computes: the Euler rotation first, then the translation. */
  function WorldTransform(pos: Vec3, rot: Vec3): Mat4 {
    Multiply(FromEulers(rot), FromTranslation(pos))
  }

  class Entity {
    var model: string
    var collisions: seq<Entity>
    var pos: Vec3
    var rot: Vec3
    var transform: Option<Mat4>

    /** __init__: no collisions and no transform until the first draw. */
    constructor (model: string, position: Vec3, rotation: Vec3)
      ensures this.model == model && collisions == [] && pos == position && rot == rotation && transform == None
    {
      this.model := model;
      collisions := [];
      pos := position;
      rot := rotation;
      transform := None;
    }

    /**
     * draw: records the world transform and appends exactly one item, this
     * entity's model with that transform, to the end of the context's queue.
     * Only `ctx.draw_queue` is used, so the parameter is the queue itself,
     * which a `Context` and a `RenderContext` each own.
     */
    method Draw(queue: DrawQueue)
      modifies this, queue
      ensures transform == Some(WorldTransform(pos, rot))
      ensures queue.items == old(queue.items) + [DrawItem(model, WorldTransform(pos, rot))]
      ensures |queue.items| == |old(queue.items)| + 1
      ensures model == old(model) && collisions == old(collisions) && pos == old(pos) && rot == old(rot)
    {
      var t := Multiply(FromEulers(rot), FromTranslation(pos));
      transform := Some(t);
      queue.Append(DrawItem(model, t));
    }

    /** collide: does nothing. */
    method Collide()
      ensures unchanged(this)
    {
    }
  }
}

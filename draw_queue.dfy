/** The per-frame draw queue (a deque the contexts own and entities append to). */
module Draw {
  import opened Geometry

  /** One pending draw: the name of the model to draw and its world transform. */
  datatype DrawItem = DrawItem(model: string, transform: Mat4)

  class DrawQueue {
    var items: seq<DrawItem>

    constructor ()
      ensures items == []
    {
      items := [];
    }

    /** deque.append: adds one item at the right end. */
    method Append(item: DrawItem)
      modifies this
      ensures items == old(items) + [item]
    {
      items := items + [item];
    }
  }
}

/**
 * The objects the transform tool talks to, reduced to the state the tool
 * reads and writes: a splat and its pivot node, the scene's invalidation
 * flags, the transform gizmo's attachment, and the current selection.
 */
module Collaborators {

  datatype Option<+T> = None | Some(value: T)

  /** A PlayCanvas `Vec3`, compared component-wise and exactly by `equals`. */
  datatype Vec3 = Vec3(x: real, y: real, z: real)

  /** A PlayCanvas `Quat`, compared component-wise and exactly by `equals`. */
  datatype Quat = Quat(x: real, y: real, z: real, w: real)

  /**
   * A snapshot of a pivot's local transform. Being a value, a snapshot can
   * never alias the live pivot, which is what the source's `clone()` calls
   * guarantee.
   */
  datatype Transform = Transform(position: Vec3, rotation: Quat, scale: Vec3)

  /** The graph node about which a splat is manipulated. */
  class Pivot {
    var position: Vec3
    var rotation: Quat
    var scale: Vec3

    constructor (t: Transform)
      ensures Local() == t
    {
      position, rotation, scale := t.position, t.rotation, t.scale;
    }

    /** The node's current local position, rotation and scale. */
    function Local(): Transform
      reads this
    {
      Transform(position, rotation, scale)
    }
  }

  /** A selectable scene object: its pivot node and its world-bound flag. */
  class Splat {
    const pivot: Pivot
    var worldBoundDirty: bool

    constructor (t: Transform)
      ensures fresh(pivot) && pivot.Local() == t && !worldBoundDirty
    {
      pivot := new Pivot(t);
      worldBoundDirty := false;
    }

    /** Moves the pivot to `p`; its rotation and scale are untouched. */
    method SetPivot(p: Vec3)
      modifies pivot
      ensures pivot.Local() == old(pivot.Local()).(position := p)
    {
      pivot.position := p;
    }
  }

  /** The scene's invalidation flags that the tool raises. */
  class Scene {
    var boundDirty: bool
    var forceRender: bool

    constructor ()
      ensures !boundDirty && !forceRender
    {
      boundDirty, forceRender := false, false;
    }
  }

  /** What the gizmo is attached to: nothing, or a list of pivot nodes. */
  datatype Attachment = Detached | Attached(nodes: seq<Pivot>)

  /** The transform gizmo: its attachment and its coordinate space. */
  class Gizmo {
    var attachment: Attachment
    var coordSpace: string

    constructor (coordSpace: string)
      ensures attachment == Detached && this.coordSpace == coordSpace
    {
      attachment := Detached;
      this.coordSpace := coordSpace;
    }

    method Attach(nodes: seq<Pivot>)
      modifies this`attachment
      ensures attachment == Attached(nodes)
    {
      attachment := Attached(nodes);
    }

    method Detach()
      modifies this`attachment
      ensures attachment == Detached
    {
      attachment := Detached;
    }
  }

  /** The selection model: zero or one selected splat. */
  class Selection {
    var current: Option<Splat>

    constructor (current: Option<Splat>)
      ensures this.current == current
    {
      this.current := current;
    }
  }
}

/**
 * Whole interactions with the transform tool, built from fresh objects and
 * driven through its event handlers, with what each one ends in.
 */
module Scenarios {
  import opened Collaborators
  import opened EditOps
  import opened TransformTools

  const Origin := Vec3(0.0, 0.0, 0.0)
  const Identity := Quat(0.0, 0.0, 0.0, 1.0)
  const Unit := Vec3(1.0, 1.0, 1.0)

  /** A fresh, active tool whose selection is a fresh splat at the origin. */
  method ActiveToolOnSplat() returns (tool: TransformTool, a: Splat)
    ensures fresh(tool) && fresh(tool.gizmo) && fresh(tool.history) && fresh(tool.scene) && fresh(tool.selection)
    ensures fresh(a) && fresh(a.pivot)
    ensures tool.active && tool.ops == [] && tool.splats == [a] && tool.history.log == []
    ensures tool.gizmo.attachment == Attached([a.pivot])
    ensures a.pivot.Local() == Transform(Origin, Identity, Unit)
  {
    a := new Splat(Transform(Origin, Identity, Unit));
    var selection := new Selection(Some(a));
    var gizmo := new Gizmo("world");
    var history := new EditHistory();
    var scene := new Scene();
    tool := new TransformTool(gizmo, history, scene, selection, "world");
    tool.Activate();
  }

  /**
   * A drag that moves the selected splat from the origin to (1, 0, 0)
   * commits exactly one transform edit, recording both positions.
   */
  method DragCommitsOneEdit() returns (log: seq<EditOp>)
    ensures |log| == 1 && log[0].EntityTransformOp? && |log[0].ops| == 1
    ensures log[0].ops[0].oldTransform == Transform(Origin, Identity, Unit)
    ensures log[0].ops[0].newTransform == Transform(Vec3(1.0, 0.0, 0.0), Identity, Unit)
  {
    var tool, a := ActiveToolOnSplat();
    var before := a.pivot.Local();
    tool.OnTransformStart();
    assert tool.ops == [EntityOp(a, before, before)];
    tool.OnTransformMove();
    a.pivot.position := Vec3(1.0, 0.0, 0.0);
    tool.OnTransformMove();
    var after := a.pivot.Local();
    var edit := EntityOp(a, before, after);
    assert Refreshed(tool.ops) == [edit];
    ChangedAll([edit]);
    tool.OnTransformEnd();
    log := tool.history.log;
  }

  /** A drag that ends where it started commits nothing and leaves no pending edit. */
  method DragBackCommitsNothing() returns (log: seq<EditOp>, pending: seq<EntityOp>)
    ensures log == [] && pending == []
  {
    var tool, a := ActiveToolOnSplat();
    tool.OnTransformStart();
    a.pivot.position := Vec3(1.0, 0.0, 0.0);
    tool.OnTransformMove();
    a.pivot.position := Origin;
    tool.OnTransformMove();
    tool.OnTransformEnd();
    log, pending := tool.history.log, tool.ops;
  }

  /**
   * For any tool, a gesture during which no pivot moves commits nothing and
   * leaves no pending edit.
   */
  method StillGestureCommitsNothing(tool: TransformTool)
    modifies tool`ops, tool.history, tool.scene`boundDirty
    modifies set s | s in tool.splats
    ensures tool.ops == [] && tool.history.log == old(tool.history.log)
  {
    tool.OnTransformStart();
    tool.OnTransformMove();
    StillGestureKeepsNothing(tool.ops);
    tool.OnTransformEnd();
  }

  /**
   * Picking (2, 3, 4) for a splat whose pivot is at the origin commits one
   * pivot move from the origin to (2, 3, 4); applying and then undoing it
   * puts the pivot back at the origin.
   */
  method PickThenUndo() returns (log: seq<EditOp>, applied: Vec3, undone: Vec3)
    ensures |log| == 1 && log[0].SetPivot?
    ensures log[0].pivotOp.oldPivot == Origin && log[0].pivotOp.newPivot == Vec3(2.0, 3.0, 4.0)
    ensures applied == Vec3(2.0, 3.0, 4.0) && undone == Origin
  {
    var tool, a := ActiveToolOnSplat();
    var b := new Splat(Transform(Origin, Identity, Unit));
    tool.OnFocalPointPicked(b, Vec3(2.0, 3.0, 4.0));
    log := tool.history.log;
    var op := log[0].pivotOp;
    op.Do();
    applied := b.pivot.position;
    op.Undo();
    undone := b.pivot.position;
  }

  /** A pick while the tool is inactive commits nothing. */
  method PickWhileInactive() returns (log: seq<EditOp>)
    ensures log == []
  {
    var tool, a := ActiveToolOnSplat();
    tool.Deactivate();
    tool.OnFocalPointPicked(a, Vec3(2.0, 3.0, 4.0));
    log := tool.history.log;
  }

  /** Deactivating detaches the gizmo even though a splat is still selected. */
  method DeactivateDetaches() returns (splats: seq<Splat>, attachment: Attachment)
    ensures splats == [] && attachment == Detached
  {
    var tool, a := ActiveToolOnSplat();
    tool.Deactivate();
    splats, attachment := tool.splats, tool.gizmo.attachment;
  }

  /** An active tool with nothing selected leaves the gizmo detached. */
  method ActiveWithoutSelection() returns (splats: seq<Splat>, attachment: Attachment)
    ensures splats == [] && attachment == Detached
  {
    var tool, a := ActiveToolOnSplat();
    tool.selection.current := None;
    tool.OnSelectionChanged();
    splats, attachment := tool.splats, tool.gizmo.attachment;
  }

  /**
   * Recomputing the attachment of a tool whose attachment already follows
   * the selection changes nothing: `Update` is idempotent.
   */
  method UpdateIsIdempotent(tool: TransformTool)
    requires tool.AttachmentFollowsSelection()
    modifies tool`splats, tool.gizmo`attachment
    ensures tool.splats == old(tool.splats) && tool.gizmo.attachment == old(tool.gizmo.attachment)
  {
    tool.Update();
  }
}

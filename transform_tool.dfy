/**
 * The transform tool: it attaches the gizmo to the current selection while
 * active, turns each gizmo drag into at most one undoable transform edit,
 * and turns a picked focal point into an undoable pivot move.
 */
module TransformTools {
  import opened Collaborators
  import opened EditOps

  /** The pivot nodes of a list of splats, in the same order. */
  function PivotNodes(splats: seq<Splat>): (nodes: seq<Pivot>)
    ensures |nodes| == |splats|
    ensures forall i :: 0 <= i < |splats| ==> nodes[i] == splats[i].pivot
  {
    if splats == [] then [] else [splats[0].pivot] + PivotNodes(splats[1..])
  }

  /** The splats the tool attaches: the selection while active, otherwise none. */
  function AttachedSplats(active: bool, selection: Option<Splat>): (splats: seq<Splat>)
    ensures |splats| <= 1
    ensures splats != [] <==> active && selection.Some?
    ensures forall s :: s in splats ==> selection == Some(s)
  {
    if active && selection.Some? then [selection.value] else []
  }

  class TransformTool {
    const scene: Scene
    const gizmo: Gizmo
    const history: EditHistory
    const selection: Selection
    var splats: seq<Splat>
    var ops: seq<EntityOp>
    var active: bool

    /**
     * Starts inactive with nothing attached and nothing pending, and copies
     * the configured coordinate space into the gizmo.
     */
    constructor (gizmo: Gizmo, history: EditHistory, scene: Scene, selection: Selection, coordSpace: string)
      modifies gizmo`coordSpace
      ensures this.gizmo == gizmo && this.history == history
      ensures this.scene == scene && this.selection == selection
      ensures splats == [] && ops == [] && !active
      ensures gizmo.coordSpace == coordSpace
    {
      this.scene := scene;
      this.gizmo := gizmo;
      this.history := history;
      this.selection := selection;
      splats := [];
      ops := [];
      active := false;
      new;
      gizmo.coordSpace := coordSpace;
    }

    /**
     * The state `Update` leaves behind, whatever came before: with the tool
     * inactive or nothing selected the gizmo is detached and no splat is
     * attached; otherwise exactly the selected splat is, through its pivot.
     */
    ghost predicate AttachmentFollowsSelection()
      reads this, gizmo, selection
    {
      splats == AttachedSplats(active, selection.current) &&
      gizmo.attachment == if splats == [] then Detached else Attached(PivotNodes(splats))
    }

    /** `transform:start`: one pending edit per attached splat, old and new both its current transform. */
    method OnTransformStart()
      modifies this`ops
      ensures |ops| == |splats|
      ensures forall i :: 0 <= i < |splats| ==> ops[i] == Capture(splats[i])
    {
      var buffer := [];
      var i := 0;
      while i < |splats|
        invariant 0 <= i <= |splats|
        invariant |buffer| == i
        invariant forall j :: 0 <= j < i ==> buffer[j] == Capture(splats[j])
      {
        buffer := buffer + [Capture(splats[i])];
        i := i + 1;
      }
      ops := buffer;
    }

    /** `transform:move`: every pending splat's world bound and the scene's bound become dirty. */
    method OnTransformMove()
      modifies set e | e in ops :: e.splat
      modifies scene`boundDirty
      ensures forall e :: e in ops ==> e.splat.worldBoundDirty
      ensures scene.boundDirty
    {
      var i := 0;
      while i < |ops|
        invariant 0 <= i <= |ops|
        invariant forall j :: 0 <= j < i ==> ops[j].splat.worldBoundDirty
      {
        ops[i].splat.worldBoundDirty := true;
        i := i + 1;
      }
      scene.boundDirty := true;
    }

    /**
     * `transform:end`: re-read every pending splat's transform, keep the
     * entries that moved, and commit them as one history entry if there are
     * any. The buffer is empty afterwards either way.
     */
    method OnTransformEnd()
      modifies this`ops, history
      ensures ops == []
      ensures var kept := Changed(old(Refreshed(ops)));
        history.log == if kept == [] then old(history.log) else old(history.log) + [EntityTransformOp(kept)]
    {
      var refreshed := RefreshPending(ops);
      assert refreshed == old(Refreshed(ops));
      var kept := KeepMoved(refreshed);
      MovedIsChanged(refreshed);
      assert kept == Changed(refreshed);
      ops := kept;

      if |ops| > 0 {
        history.Add(EntityTransformOp(ops));
        ops := [];
        assert Changed(refreshed) != [];
      }
    }

    /** `scene.boundChanged`: re-attach the gizmo to the current splats, even when there are none. */
    method OnBoundChanged()
      modifies gizmo`attachment
      ensures gizmo.attachment == Attached(PivotNodes(splats))
    {
      gizmo.Attach(PivotNodes(splats));
    }

    /** `tool.coordSpace`: mirror the new coordinate space into the gizmo and force a render. */
    method OnCoordSpaceChanged(coordSpace: string)
      modifies gizmo`coordSpace, scene`forceRender
      ensures gizmo.coordSpace == coordSpace && scene.forceRender
    {
      gizmo.coordSpace := coordSpace;
      scene.forceRender := true;
    }

    /** `render:update`: force the scene to render. */
    method OnRenderUpdate()
      modifies scene`forceRender
      ensures scene.forceRender
    {
      scene.forceRender := true;
    }

    /**
     * `camera.focalPointPicked`: while active, commit one pivot move from the
     * splat's current pivot position to the picked one, even when they are
     * equal; while inactive, do nothing.
     */
    method OnFocalPointPicked(splat: Splat, position: Vec3)
      modifies history
      ensures !active ==> history.log == old(history.log)
      ensures active ==>
        |history.log| == |old(history.log)| + 1 &&
        history.log[..|old(history.log)|] == old(history.log) &&
        var entry := history.log[|old(history.log)|];
        entry.SetPivot? && fresh(entry.pivotOp) &&
        entry.pivotOp.splat == splat &&
        entry.pivotOp.oldPivot == splat.pivot.position &&
        entry.pivotOp.newPivot == position
    {
      if active {
        var op := new SetPivotOp(splat, splat.pivot.position, position);
        history.Add(SetPivot(op));
      }
    }

    /** Recompute the attached splats from scratch from the active flag and the selection. */
    method Update()
      modifies this`splats, gizmo`attachment
      ensures AttachmentFollowsSelection()
    {
      if !active {
        gizmo.Detach();
        splats := [];
        return;
      }

      var current := selection.current;
      if current.None? {
        gizmo.Detach();
        splats := [];
        return;
      }

      splats := [current.value];
      gizmo.Attach(PivotNodes(splats));
    }

    /** `selection.changed`: recompute the attachment. */
    method OnSelectionChanged()
      modifies this`splats, gizmo`attachment
      ensures AttachmentFollowsSelection()
    {
      Update();
    }

    /** `splat.moved`: recompute the attachment. */
    method OnSplatMoved(splat: Splat)
      modifies this`splats, gizmo`attachment
      ensures AttachmentFollowsSelection()
    {
      Update();
    }

    /** Activate: with a selection, exactly its pivot gets the gizmo; without one, the gizmo stays detached. */
    method Activate()
      modifies this`active, this`splats, gizmo`attachment
      ensures active && AttachmentFollowsSelection()
    {
      active := true;
      Update();
    }

    /** Deactivate: whatever was attached before, nothing is afterwards. */
    method Deactivate()
      modifies this`active, this`splats, gizmo`attachment
      ensures !active && splats == [] && gizmo.attachment == Detached
    {
      active := false;
      Update();
    }
  }
}

# Transform tool model

A Dafny model of the transform tool of SuperSplat (`src/tools/transform-tool.ts`):
the event-driven controller that attaches the transform gizmo to the selected
splat, turns each gizmo drag into at most one undoable transform edit, and turns
a picked focal point into an undoable pivot move.

The tool is modelled the way the source writes it: a class `TransformTool` with
the mutable fields `splats`, `ops` and `active`, and one method per event handler
(`transform:start`, `transform:move`, `transform:end`, `scene.boundChanged`,
`tool.coordSpace`, `render:update`, `selection.changed`, `splat.moved`,
`camera.focalPointPicked`) plus `update`, `activate` and `deactivate`. The
objects the tool talks to are reduced to the state it reads and writes:

- a splat (`Collaborators.Splat`) is its pivot node (`Pivot`, with mutable local
  position, rotation and scale) and its `worldBoundDirty` flag;
- the scene (`Scene`) is its `boundDirty` and `forceRender` flags;
- the gizmo (`Gizmo`) is its attachment, either `Detached` or `Attached` to a list
  of pivot nodes, and its coordinate space;
- the selection (`Selection`) is zero or one splat, read where the source calls
  `events.invoke('selection')`;
- the edit history (`EditOps.EditHistory`) is an append-only log of entries;
- a pending edit (`EntityOp`) holds a splat and its transform before and after.

`Vec3`, `Quat` and the `{position, rotation, scale}` snapshot are datatypes. Being
values they cannot alias the live pivot, which is what the source's `clone()`
calls guarantee. They are compared by exact equality, as PlayCanvas `equals` does.

The end-of-gesture filter is specified twice. `Moved` is the filter as written:
it compares each entry's `old` transform with the splat's live pivot. `Changed`
is the filter on the recorded edit: it compares `old` with `new`. Lemma
`MovedIsChanged` shows that the two agree once `new` has been re-read from the
pivot. That is what `transform:end` does first. The contract of
`OnTransformEnd` is stated with `Changed`.

An entry is kept when any one of position, rotation or scale differs
(`src/tools/transform-tool.ts:98-100`). `Differs` is that disjunction, and its
contract shows that it is plain inequality of the snapshots.

## Model

| member | source | states |
|---|---|---|
| EditOps.SetPivotOp.constructor | src/tools/transform-tool.ts:16-26 | the operation records its splat, the old and the new pivot position, and the name "setPivot" |
| EditOps.SetPivotOp.Do | src/tools/transform-tool.ts:28-30 | the splat's pivot moves to `newPivot`; its rotation and scale, and every other object, are unchanged |
| EditOps.SetPivotOp.Undo | src/tools/transform-tool.ts:32-34 | the splat's pivot moves back to `oldPivot`; its rotation and scale, and every other object, are unchanged |
| EditOps.DoThenUndo | src/tools/transform-tool.ts:16-35 | applying then reversing a pivot operation whose splat is still at `oldPivot` restores the pivot's whole local transform |
| EditOps.EditHistory.Add | src/tools/transform-tool.ts:104 | adding an edit appends exactly that entry to the history log |
| EditOps.Differs | src/tools/transform-tool.ts:98-100 | two transforms differ in position, rotation or scale exactly when they are unequal |
| EditOps.Changed | src/tools/transform-tool.ts:96-101 | the kept edits are no more than the buffer, and each is from the buffer and really changed its transform |
| EditOps.Moved | src/tools/transform-tool.ts:96-101 | the kept edits are from the buffer and each one's old transform differs from its splat's live pivot |
| EditOps.Refreshed | src/tools/transform-tool.ts:88-93 | re-reading keeps every entry's splat and old transform and sets its new transform to the splat's live pivot transform |
| EditOps.MovedIsChanged | src/tools/transform-tool.ts:88-101 | once every new transform is the live pivot's, comparing old with the live pivot and comparing old with new keep the same entries |
| EditOps.ChangedKeepsEveryChange | src/tools/transform-tool.ts:96-101 | every entry whose transform changed is kept, so with the contract of `Changed` kept means changed |
| EditOps.ChangedAppend | src/tools/transform-tool.ts:96-101 | the filter preserves the buffer's order: filtering a concatenation concatenates the filtered parts |
| EditOps.StillGestureKeepsNothing | src/tools/transform-tool.ts:86-106 | when no entry's pivot moved since its old transform was taken, re-reading and filtering keeps nothing, so nothing is committed |
| EditOps.ChangedEmptyIff | src/tools/transform-tool.ts:96-106 | nothing is kept, so nothing is committed, exactly when no entry's transform changed |
| EditOps.ChangedAll | src/tools/transform-tool.ts:96-101 | when every entry changed, the whole buffer is kept in its order |
| TransformTools.PivotNodes | src/tools/transform-tool.ts:172 | the gizmo gets one pivot node per attached splat, in the same order |
| TransformTools.AttachedSplats | src/tools/transform-tool.ts:157-173 | the attached set has at most one splat; it is non-empty exactly when the tool is active and something is selected, and then it is the selection |
| TransformTools.TransformTool.constructor | src/tools/transform-tool.ts:37-53 | a new tool is inactive with no attached splat and no pending edit, and the gizmo takes the configured coordinate space |
| TransformTools.TransformTool.OnTransformStart | src/tools/transform-tool.ts:59-77 | the buffer holds one entry per attached splat, in order, with old and new both its current transform |
| TransformTools.TransformTool.OnTransformMove | src/tools/transform-tool.ts:79-84 | every pending splat's world bound and the scene's bound are dirty; the buffer and every pivot are unchanged |
| TransformTools.TransformTool.OnTransformEnd | src/tools/transform-tool.ts:86-107 | exactly one entry holding the changed edits, with new read from the pivots, is appended when some transform changed, else the history is unchanged; the buffer is empty either way |
| EditOps.RefreshPending | src/tools/transform-tool.ts:88-93 | the loop copies every splat's live pivot transform into its entry's new transform |
| EditOps.KeepMoved | src/tools/transform-tool.ts:96-101 | the loop keeps, in order, the entries whose old transform differs from the live pivot |
| TransformTools.TransformTool.OnBoundChanged | src/tools/transform-tool.ts:109-113 | the gizmo is attached to the current splats' pivots, even when there are none |
| TransformTools.TransformTool.OnCoordSpaceChanged | src/tools/transform-tool.ts:115-118 | the gizmo takes the new coordinate space and the scene is forced to render |
| TransformTools.TransformTool.OnRenderUpdate | src/tools/transform-tool.ts:55-57 | the scene is forced to render |
| TransformTools.TransformTool.OnFocalPointPicked | src/tools/transform-tool.ts:147-152 | inactive: history unchanged; active: exactly one fresh pivot operation is appended, from the splat's current pivot position to the picked one, even when they are equal |
| TransformTools.TransformTool.Update | src/tools/transform-tool.ts:157-173 | inactive or nothing selected: no splat attached and the gizmo detached, whatever came before; otherwise exactly the selection is attached through its pivot |
| TransformTools.TransformTool.OnSelectionChanged | src/tools/transform-tool.ts:120-122 | the attachment is recomputed from the active flag and the selection |
| TransformTools.TransformTool.OnSplatMoved | src/tools/transform-tool.ts:124-126 | the attachment is recomputed from the active flag and the selection |
| TransformTools.TransformTool.Activate | src/tools/transform-tool.ts:175-178 | the tool is active and the selection, if any, is attached |
| TransformTools.TransformTool.Deactivate | src/tools/transform-tool.ts:180-183 | the tool is inactive, no splat is attached and the gizmo is detached, whatever came before |
| Scenarios.ActiveToolOnSplat | src/tools/transform-tool.ts:171-178 | activating a tool with a selected splat attaches the gizmo to exactly that splat's pivot |
| Scenarios.DragCommitsOneEdit | src/tools/transform-tool.ts:59-107 | a drag from the origin to (1, 0, 0) commits one edit recording both transforms |
| Scenarios.DragBackCommitsNothing | src/tools/transform-tool.ts:86-107 | a drag that returns to its start commits nothing and leaves no pending edit |
| Scenarios.StillGestureCommitsNothing | src/tools/transform-tool.ts:59-107 | for any tool, a start, move and end with no pivot change leave the history unchanged and the buffer empty |
| Scenarios.PickThenUndo | src/tools/transform-tool.ts:147-152 | a pick commits one pivot move from the old to the picked position; doing it then undoing it returns the pivot to the old position |
| Scenarios.PickWhileInactive | src/tools/transform-tool.ts:147-152 | a pick while inactive commits nothing |
| Scenarios.DeactivateDetaches | src/tools/transform-tool.ts:180-183 | deactivating detaches the gizmo though a splat is still selected |
| Scenarios.ActiveWithoutSelection | src/tools/transform-tool.ts:164-169 | an active tool with nothing selected leaves the gizmo detached |
| Scenarios.UpdateIsIdempotent | src/tools/transform-tool.ts:157-173 | recomputing the attachment of a tool whose attachment already follows the selection changes nothing |

## Left out

- `patchGizmoMaterials` (src/tools/transform-tool.ts:8-14): it only sets gizmo colour fields for rendering.
- `updateGizmoSize` and the `camera.resize` wiring (src/tools/transform-tool.ts:128-145, 154): a DOM lookup, floating-point size arithmetic and a private gizmo workaround field; no state of the tool depends on them.
- The event bus: handlers are methods called directly; registration and dispatch order are not modelled.
- Floating point: vector and quaternion components are reals, so NaN and signed zero are not modelled; equality is exact, as in PlayCanvas `equals`.
- The gizmo's drag mechanics: the pivot change during a drag is any external assignment to the pivot between `transform:start` and `transform:end`.
- `src/edit-history.ts` and `src/edit-ops.ts` are not part of this model: the history is an append-only log, so undo/redo stacks and whether adding an edit also applies it are not modelled, and nothing is claimed about how an `EntityTransformOp` replays.
- `src/splat.ts` is not part of this model: `Splat.SetPivot` is taken to move the pivot's local position and change nothing else.
- EditOps.SetPivotOp.Do: states the effect on the pivot only; any further effect of the real `setPivot` on the splat is not modelled.

/**
 * The undoable edits the transform tool produces, the edit history they are
 * committed to, and the specification of the end-of-gesture filter.
 */
module EditOps {
  import opened Collaborators

  /** One pending edit of a gesture: a splat with its transform before and after. */
  datatype EntityOp = EntityOp(splat: Splat, oldTransform: Transform, newTransform: Transform)

  /** Moves one splat's pivot between two recorded positions. */
  class SetPivotOp {
    const name: string
    const splat: Splat
    const oldPivot: Vec3
    const newPivot: Vec3

    constructor (splat: Splat, oldPivot: Vec3, newPivot: Vec3)
      ensures name == "setPivot"
      ensures this.splat == splat && this.oldPivot == oldPivot && this.newPivot == newPivot
    {
      name := "setPivot";
      this.splat := splat;
      this.oldPivot := oldPivot;
      this.newPivot := newPivot;
    }

    /** Puts the pivot at `newPivot`; rotation, scale and everything else stay. */
    method Do()
      modifies splat.pivot
      ensures splat.pivot.Local() == old(splat.pivot.Local()).(position := newPivot)
    {
      splat.SetPivot(newPivot);
    }

    /** Puts the pivot back at `oldPivot`; rotation, scale and everything else stay. */
    method Undo()
      modifies splat.pivot
      ensures splat.pivot.Local() == old(splat.pivot.Local()).(position := oldPivot)
    {
      splat.SetPivot(oldPivot);
    }
  }

  /**
   * Applying and then reversing a pivot operation whose splat still stands
   * where the operation found it leaves the pivot exactly as it was.
   */
  method DoThenUndo(op: SetPivotOp)
    requires op.splat.pivot.position == op.oldPivot
    modifies op.splat.pivot
    ensures op.splat.pivot.Local() == old(op.splat.pivot.Local())
  {
    op.Do();
    op.Undo();
  }

  /** An entry of the edit history. */
  datatype EditOp =
    | EntityTransformOp(ops: seq<EntityOp>)
    | SetPivot(pivotOp: SetPivotOp)

  /** The edit history, seen as an append-only log of committed edits. */
  class EditHistory {
    var log: seq<EditOp>

    constructor ()
      ensures log == []
    {
      log := [];
    }

    method Add(op: EditOp)
      modifies this
      ensures log == old(log) + [op]
    {
      log := log + [op];
    }
  }

  /**
   * The no-op test of the gesture filter: two transforms differ when their
   * positions, their rotations or their scales differ, compared exactly.
   */
  predicate Differs(a: Transform, b: Transform)
    ensures Differs(a, b) <==> a != b
  {
    a.position != b.position || a.rotation != b.rotation || a.scale != b.scale
  }

  /** The pending edits whose recorded old and new transforms differ, in order. */
  function Changed(es: seq<EntityOp>): (r: seq<EntityOp>)
    ensures |r| <= |es|
    ensures forall e :: e in r ==> e in es && Differs(e.oldTransform, e.newTransform)
  {
    if es == [] then []
    else
      var last := es[|es| - 1];
      Changed(es[..|es| - 1]) + if Differs(last.oldTransform, last.newTransform) then [last] else []
  }

  /** The pivot nodes behind a list of pending edits. */
  function PivotsOf(es: seq<EntityOp>): set<Pivot>
  {
    set e | e in es :: e.splat.pivot
  }

  /**
   * The filter as the source writes it: the pending edits whose old
   * transform differs from their splat's LIVE pivot transform, in order.
   */
  function Moved(es: seq<EntityOp>): (r: seq<EntityOp>)
    reads PivotsOf(es)
    ensures |r| <= |es|
    ensures forall e :: e in r ==> e in es && Differs(e.oldTransform, e.splat.pivot.Local())
  {
    if es == [] then []
    else
      var last := es[|es| - 1];
      assert PivotsOf(es[..|es| - 1]) <= PivotsOf(es) by {
        forall e | e in es[..|es| - 1] ensures e in es { }
      }
      Moved(es[..|es| - 1]) + if Differs(last.oldTransform, last.splat.pivot.Local()) then [last] else []
  }

  /** The pending edits with `newTransform` re-read from each splat's live pivot. */
  function Refreshed(es: seq<EntityOp>): (r: seq<EntityOp>)
    reads PivotsOf(es)
    ensures |r| == |es|
    ensures forall i :: 0 <= i < |es| ==>
      r[i].splat == es[i].splat && r[i].oldTransform == es[i].oldTransform &&
      r[i].newTransform == es[i].splat.pivot.Local()
  {
    if es == [] then []
    else
      var last := es[|es| - 1];
      assert PivotsOf(es[..|es| - 1]) <= PivotsOf(es) by {
        forall e | e in es[..|es| - 1] ensures e in es { }
      }
      Refreshed(es[..|es| - 1]) + [last.(newTransform := last.splat.pivot.Local())]
  }

  /** The first loop of `transform:end`: copy each splat's live pivot transform into its entry's `newTransform`. */
  method RefreshPending(es: seq<EntityOp>) returns (refreshed: seq<EntityOp>)
    ensures refreshed == Refreshed(es)
  {
    refreshed := es;
    var i := 0;
    while i < |es|
      invariant 0 <= i <= |es| == |refreshed|
      invariant forall j :: 0 <= j < i ==> refreshed[j] == Refreshed(es)[j]
      invariant forall j :: i <= j < |es| ==> refreshed[j] == es[j]
    {
      refreshed := refreshed[i := es[i].(newTransform := es[i].splat.pivot.Local())];
      i := i + 1;
    }
  }

  /** The second loop of `transform:end`, its filter: the entries whose old transform differs from the live pivot, in order. */
  method KeepMoved(es: seq<EntityOp>) returns (kept: seq<EntityOp>)
    ensures kept == Moved(es)
  {
    kept := [];
    var i := 0;
    while i < |es|
      invariant 0 <= i <= |es|
      invariant kept == Moved(es[..i])
    {
      var e := es[i].splat.pivot;
      assert es[..i + 1][..i] == es[..i];
      if Differs(es[i].oldTransform, e.Local()) {
        kept := kept + [es[i]];
      }
      i := i + 1;
    }
    assert es[..i] == es;
  }

  /** Capturing a splat at gesture start: old and new are both its current transform. */
  function Capture(s: Splat): EntityOp
    reads s.pivot
  {
    EntityOp(s, s.pivot.Local(), s.pivot.Local())
  }

  /**
   * Once every `newTransform` has been copied from the live pivot, comparing
   * `oldTransform` with the live pivot (the source) and with `newTransform`
   * (the recorded edit) keep the same entries.
   */
  lemma {:induction false} MovedIsChanged(es: seq<EntityOp>)
    requires forall i :: 0 <= i < |es| ==> es[i].newTransform == es[i].splat.pivot.Local()
    ensures Moved(es) == Changed(es)
  {
    if es != [] {
      MovedIsChanged(es[..|es| - 1]);
    }
  }

  /** The filter keeps every changed entry: with the contract of Changed, an iff. */
  lemma {:induction false} ChangedKeepsEveryChange(es: seq<EntityOp>, e: EntityOp)
    requires e in es && Differs(e.oldTransform, e.newTransform)
    ensures e in Changed(es)
  {
    var init := es[..|es| - 1];
    if e != es[|es| - 1] {
      assert es == init + [es[|es| - 1]];
      ChangedKeepsEveryChange(init, e);
    }
  }

  /** The filter preserves order: filtering a concatenation concatenates the filtered parts. */
  lemma {:induction false} ChangedAppend(a: seq<EntityOp>, b: seq<EntityOp>)
    ensures Changed(a + b) == Changed(a) + Changed(b)
  {
    if b == [] {
      assert a + b == a;
    } else {
      var init := b[..|b| - 1];
      assert (a + b)[..|a + b| - 1] == a + init;
      ChangedAppend(a, init);
    }
  }

  /**
   * A gesture during which no pivot moved commits nothing: when every
   * entry's old transform is still its splat's live transform, re-reading
   * and filtering keeps no entry.
   */
  lemma StillGestureKeepsNothing(es: seq<EntityOp>)
    requires forall i :: 0 <= i < |es| ==> es[i].oldTransform == es[i].splat.pivot.Local()
    ensures Changed(Refreshed(es)) == []
  {
    ChangedEmptyIff(Refreshed(es));
  }

  /** Nothing is kept exactly when no entry changed. */
  lemma {:induction false} ChangedEmptyIff(es: seq<EntityOp>)
    ensures Changed(es) == [] <==> forall i :: 0 <= i < |es| ==> es[i].oldTransform == es[i].newTransform
  {
    if es != [] {
      var init := es[..|es| - 1];
      ChangedEmptyIff(init);
      assert forall i :: 0 <= i < |init| ==> init[i] == es[i];
    }
  }

  /** When every entry changed, the filter keeps the whole buffer. */
  lemma {:induction false} ChangedAll(es: seq<EntityOp>)
    requires forall i :: 0 <= i < |es| ==> Differs(es[i].oldTransform, es[i].newTransform)
    ensures Changed(es) == es
  {
    if es != [] {
      var init := es[..|es| - 1];
      ChangedAll(init);
      assert init + [es[|es| - 1]] == es;
    }
  }
}

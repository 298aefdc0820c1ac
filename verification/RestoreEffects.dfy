/** What each write of a RestoreRun's pass keeps. */
module RestoreEffects {
  import opened Common
  import opened RestoreWorld

  function With(w: World, st: Status): World { w.(stored := st) }

  lemma ItemAt(w: World, i: nat)
    requires Inv(w) && i < |w.stored.items|
    ensures i < |w.sides| && ItemSound(w.stored.selected, w.used, w.stored.items[i], w.sides[i])
    ensures w.sides[i].Claim? <==> w.stored.items[i].Volume?
    ensures |w.sides| == |w.stored.items| && "" !in w.used
  {
  }

  /** A change of one side is judged by its own item. */
  lemma OneSideKeepsInv(w: World, i: nat, side: Side)
    requires Inv(w) && i < |w.sides| && i < |w.stored.items| && ItemSound(w.stored.selected, w.used, w.stored.items[i], side)
    requires !Finished(w.stored) || side.Instance? || JobGone(side)
    requires w.stored.items[i].Database? && w.stored.items[i].phase == Deleted && OldGone(w.sides[i], w.stored.items[i].uid) ==> OldGone(side, w.stored.items[i].uid)
    ensures Inv(w.(sides := w.sides[i := side]))
  {
    hide ItemSound, NoneDeleted, VolumesSucceeded, NonePending, OldGone, Begun;
  }

  /** So is a change of one item in memory. */
  lemma OneItemKeepsInv(w: World, i: nat, item: Item)
    requires Inv(w) && !Finished(w.stored) && i < |w.sides| && i < |w.stored.items| && ItemSound(w.stored.selected, w.used, item, w.sides[i])
    requires item.phase == Deleted ==> VolumesSucceeded(w.stored.items) && item.Database?
    requires item.phase == Pending ==> w.stored.items[i].phase == Pending
    requires item.Volume? && w.stored.items[i].phase == Succeeded ==> item.phase == Succeeded
    requires item.Volume? == w.stored.items[i].Volume?
    requires item.phase == Deleted || (ItemBegun(item) && !ItemBegun(w.stored.items[i])) ==> MayStart(w, w.stored)
    ensures Inv(With(w, w.stored.(items := w.stored.items[i := item])))
  {
    hide ItemSound, JobsGone, Plans, ItemBegun, OldGone, EndsRight, InPlan;
    var items := w.stored.items[i := item];
    assert forall j: nat :: j < |items| && j != i ==> ItemBegun(items[j]) == ItemBegun(w.stored.items[j]);
    assert NonePending(w.stored.items) ==> NonePending(items);
    assert VolumesSucceeded(w.stored.items) ==> VolumesSucceeded(items);
    assert NoneDeleted(w.stored.items) && item.phase != Deleted ==> NoneDeleted(items);
  }

  lemma StopKeepsInv(w: World, p: Patch)
    requires Inv(w) && !Finished(w.stored) && w.stored.paused.Some? && InPlan(p, w.stored.paused.value) && !w.stored.marked
    ensures Inv(w.(changed := w.changed + {p}))
  {
    hide ItemSound;
  }

  lemma BackKeepsInv(w: World, p: Patch)
    requires Inv(w) && (w.stored.paused.Some? ==> w.stored.resumed)
    ensures Inv(w.(changed := w.changed - {p}))
  {
    hide ItemSound;
  }

  lemma FinalizingKeepsInv(w: World)
    requires Inv(w) && w.deleting
    ensures Inv(w.(finalizing := true))
  {
    hide ItemSound;
  }

  lemma AbortedKeepsInv(w: World)
    requires Inv(w)
    ensures Inv(w.(aborted := true))
  {
    hide ItemSound;
  }

  lemma ResumeKeepsInv(w: World)
    requires Inv(w) && w.stored.paused.Some? && ((NonePending(w.stored.items) && DeletedGone(w)) || w.finalizing)
    ensures Inv(With(w, w.stored.(resumed := true)))
  {
    hide ItemSound;
  }

  lemma MarkKeepsInv(w: World)
    requires Inv(w) && w.stored.resumed && w.changed == {}
    ensures Inv(With(w, w.stored.(marked := true)))
  {
    hide ItemSound;
  }

  lemma PauseKeepsInv(w: World, plan: Plan)
    requires Inv(w) && w.stored.paused.None? && w.stored.selected && w.spec.listed != [] && Plans(w.spec, plan)
    ensures Inv(With(w, w.stored.(paused := Some(plan))))
  {
    hide ItemSound;
  }

  /** Only a selection that ends the run skips a volume. */
  predicate NoVolumeSkipped(items: seq<Item>) { forall i :: 0 <= i < |items| && items[i].Volume? ==> items[i].phase != Skipped }

  lemma SelectKeepsInv(w: World)
    requires Inv(w) && NoVolumeSkipped(w.stored.items)
    ensures Inv(With(w, w.stored.(selected := true)))
  {
    hide NoneDeleted, VolumesSucceeded, NonePending, JobsGone, OldGone;
    forall i | 0 <= i < |w.sides| ensures ItemSound(true, w.used, w.stored.items[i], w.sides[i]) {
      assert ItemSound(w.stored.selected, w.used, w.stored.items[i], w.sides[i]);
    }
  }

  lemma FinishKeepsInv(w: World, e: Ending)
    requires Inv(w) && w.changed == {} && JobsGone(w.sides) && EndsRight(w.stored.items, e) && (e == Aborted ==> w.aborted)
    ensures Inv(With(w, w.stored.(outcome := Some(e))))
  {
    hide ItemSound;
  }
}

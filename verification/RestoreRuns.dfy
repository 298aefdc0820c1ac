/**
 The passes of one RestoreRun, call by call, with the log of what they changed.

 As in module BackupRuns, the environment takes any number of steps before every
 call, every call may fail before or after it took effect, and a process that
 stops is one whose remaining calls all fail.
 */
module RestoreRuns {
  import opened Common
  import opened RestoreWorld
  import opened RestoreEffects
  import Leases

  // -------------------------------------------------------------- the order

  /** `looked` is the claim as the pass read it when it asked who mounts it. */
  datatype Effect = Stopped(p: Patch) | StartedJob(i: nat, looked: Side) | DeletedCluster(i: nat) | GaveBack(p: Patch)

  /** One change that the run made, with the cluster right before it, and whether
      the pass that made it was in abort or finalize. */
  datatype Entry = Entry(effect: Effect, w: World, ending: bool)

  /** Nothing is left of any Cluster whose deletion the status records, but for one
      whose item an abort stored as Failed. */
  ghost predicate AllOldGone(w: World, st: Status) {
    && |w.sides| == |st.items|
    && forall i :: 0 <= i < |st.items| && st.items[i].Database? && st.items[i].uid != "" && !st.items[i].aborted ==> OldGone(w.sides[i], st.items[i].uid)
  }

  /** The restore Job of every volume completed. */
  ghost predicate AllRestored(w: World, st: Status) {
    |w.sides| == |st.items| && forall i :: 0 <= i < |st.items| && st.items[i].Volume? ==> w.sides[i].Claim? && w.sides[i].restored
  }

  /** Nothing is changed before the selection is stored. A workload is stopped
      after its Kustomization. A Job starts after its name is stored, no pod was
      seen to mount the claim and its repository was found. A Cluster is deleted once its UID and the phase
      Deleted are stored, every volume succeeded because its Job completed, and it
      still has that UID. Both happen on a run that lists workloads only while its
      pause is stored, its resume is not, everything is stopped and no pod of the
      workloads is left. The app comes back after the resume is stored, the
      Kustomizations last: in abort and finalize once no Job and no pod of one is
      left, and in every other pass once nothing is left of the old Clusters, but
      for those whose items an earlier abort stored as Failed. */
  ghost predicate InOrder(e: Entry) {
    var w, st := e.w, e.w.stored;
    && st.selected
    && match e.effect
       case Stopped(p) =>
         && st.paused.Some? && InPlan(p, st.paused.value) && !st.resumed
         && (p.Workload? && p.name in w.spec.flux ==> Kustomization(w.spec.flux[p.name]) in w.changed)
       case StartedJob(i, looked) =>
         && i < |st.items| && i < |w.sides| && st.items[i].Volume? && st.items[i].job && MayStart(w, st)
         && looked.Claim? && !looked.mounted && w.sides[i].Claim? && w.sides[i].reachable
       case DeletedCluster(i) =>
         && i < |st.items| && i < |w.sides| && st.items[i].Database? && st.items[i].phase == Deleted
         && VolumesSucceeded(st.items) && AllRestored(w, st) && MayStart(w, st)
         && w.sides[i].Instance? && w.sides[i].cluster.Some? && w.sides[i].cluster.value.uid == st.items[i].uid != ""
       case GaveBack(p) =>
         && st.resumed && st.paused.Some? && InPlan(p, st.paused.value)
         && (if e.ending then JobsGone(w.sides) else AllOldGone(w, st))
         && (p.Kustomization? ==> AllScaledBack(w, st.paused.value))
  }

  ghost predicate AllScaledBack(w: World, plan: Plan) { forall x :: x in plan.workloads ==> Workload(x) !in w.changed }

  ghost predicate AllInOrder(log: seq<Entry>) { forall i :: 0 <= i < |log| ==> InOrder(log[i]) }

  // ---------------------------------------------------- items only go forward

  predicate ItemOnward(a: Item, b: Item) {
    && a.Volume? == b.Volume? && a.name == b.name
    && (b.phase == a.phase || Rank(b.phase) < Rank(a.phase))
    && (Rank(a.phase) == 0 ==> b == a)
    && (a.Volume? && a.job ==> b.job)
    && (a.Database? && a.uid != "" ==> b.uid == a.uid) && (a.Database? && a.aborted ==> b.aborted)
  }

  ghost predicate Onward(a: Status, b: Status) {
    && |a.items| == |b.items| && (forall i :: 0 <= i < |a.items| ==> ItemOnward(a.items[i], b.items[i]))
    && (a.selected ==> b.selected) && (a.paused.Some? ==> b.paused == a.paused) && (a.resumed ==> b.resumed) && (a.outcome.Some? ==> b.outcome == a.outcome && b.items == a.items)
  }

  lemma OnwardTransitive(a: Status, b: Status, c: Status)
    requires Onward(a, b) && Onward(b, c)
    ensures Onward(a, c)
  {
    forall i | 0 <= i < |a.items| ensures ItemOnward(a.items[i], c.items[i]) {
      assert ItemOnward(a.items[i], b.items[i]) && ItemOnward(b.items[i], c.items[i]);
    }
  }

  lemma OneItemOnward(a: Status, b: Status, i: nat, item: Item)
    requires Onward(a, b) && !Finished(b) && i < |b.items| && ItemOnward(b.items[i], item)
    ensures Onward(a, b.(items := b.items[i := item]))
  {
    OnwardTransitive(a, b, b.(items := b.items[i := item]));
  }

  /** The flags of a status only go up. */
  lemma FlagsOnward(a: Status, b: Status, c: Status)
    requires Onward(a, b) && c.items == b.items && (b.selected ==> c.selected) && (b.paused.Some? ==> c.paused == b.paused)
    requires (b.resumed ==> c.resumed) && (b.outcome.Some? ==> c.outcome == b.outcome)
    ensures Onward(a, c)
  {
  }

  /** The copy in memory holds no Job name, no Cluster UID and no moment that is
      not stored, and outside abort no item that abort failed. */
  ghost predicate Near(run: Status, stored: Status, ending: bool) {
    && |run.items| == |stored.items| && run.selected == stored.selected && run.paused == stored.paused && run.resumed == stored.resumed
    && run.outcome == stored.outcome
    && forall i :: 0 <= i < |run.items| ==> NearItem(run.items[i], stored.items[i], ending)
  }

  predicate NearItem(run: Item, stored: Item, ending: bool) {
    && run.Volume? == stored.Volume?
    && (run.Volume? && run.job ==> stored.job)
    && (run.Database? ==> run.uid == stored.uid && (run.phase == Deleted ==> stored.phase == Deleted) && (run.aborted ==> stored.aborted || ending) && (stored.aborted ==> run.aborted))
  }

  lemma NearItself(st: Status, ending: bool)
    ensures Near(st, st, ending)
  {
  }

  lemma NearAt(run: Status, stored: Status, i: nat, ending: bool)
    requires Near(run, stored, ending) && i < |run.items|
    ensures |stored.items| == |run.items| && NearItem(run.items[i], stored.items[i], ending)
    ensures run.selected == stored.selected && run.paused == stored.paused && run.resumed == stored.resumed && run.outcome == stored.outcome
  {
  }

  lemma OneItemNear(run: Status, stored: Status, i: nat, item: Item, ending: bool)
    requires Near(run, stored, ending) && i < |run.items| && NearItem(item, stored.items[i], ending)
    ensures Near(run.(items := run.items[i := item]), stored, ending)
  {
  }

  predicate VolumesDone(items: seq<Item>) { forall i :: 0 <= i < |items| && items[i].Volume? ==> Rank(items[i].phase) == 0 }

  predicate VolumesFailed(items: seq<Item>) { exists i :: 0 <= i < |items| && items[i].Volume? && items[i].phase == Phase.Failed }

  // -------------------------------------------------- facts about the calls

  lemma RelyFacts(w: World, w': World)
    requires Rely(w, w') && Inv(w)
    ensures AllOldGone(w, w.stored) ==> AllOldGone(w', w.stored)
    ensures JobsGone(w.sides) ==> JobsGone(w'.sides)
    ensures w'.changed <= w.changed && w'.spec == w.spec
  {
    hide JobGone;
    forall i | 0 <= i < |w.sides| ensures SideRely(w.sides[i], w'.sides[i], w.used) { }
    if AllOldGone(w, w.stored) {
      forall i | 0 <= i < |w.stored.items| && w.stored.items[i].Database? && w.stored.items[i].uid != "" && !w.stored.items[i].aborted
        ensures OldGone(w'.sides[i], w.stored.items[i].uid)
      {
        ItemAt(w, i);
      }
    }
  }

  /** What is gone of an old Cluster stays gone. */
  ghost predicate OldStays(w: World, w': World) {
    && |w'.sides| == |w.sides| && w.used <= w'.used
    && forall j, u :: 0 <= j < |w.sides| && u in w.used && OldGone(w.sides[j], u) ==> OldGone(w'.sides[j], u)
  }

  lemma RelyMeansOldStays(w: World, st: Status, w': World)
    requires Rely(w.(stored := st), w')
    ensures OldStays(w, w')
  {
    forall j, u | 0 <= j < |w.sides| && u in w.used && OldGone(w.sides[j], u) ensures OldGone(w'.sides[j], u) {
      assert SideRely(w.(stored := st).sides[j], w'.sides[j], w.used);
    }
  }

  lemma OldStaysOn(a: World, b: World, c: World)
    requires OldStays(a, b) && OldStays(b, c)
    ensures OldStays(a, c)
  {
    hide OldGone;
  }

  /** Once a Cluster is not there, another one has another UID. */
  lemma NoneStaysOther(w: World, w': World, i: nat, uid: string)
    requires Rely(w, w') && i < |w.sides| && w.sides[i].Instance? && w.sides[i].cluster.None? && uid in w.used
    ensures i < |w'.sides| && w'.sides[i].Instance? && (w'.sides[i].left.None? ==> OldGone(w'.sides[i], uid))
  {
    SideFacts(w, w', i);
    assert OtherCluster(w.sides[i], uid);
  }

  /** Of the first n Clusters nothing old is left. */
  ghost predicate OldGoneUpTo(w: World, items: seq<Item>, n: nat) {
    n <= |items| && |items| == |w.sides| && forall j :: 0 <= j < n && items[j].Database? && items[j].uid != "" ==> items[j].aborted || OldGone(w.sides[j], items[j].uid)
  }

  lemma AllGone(w: World, run: Status, stored: Status)
    requires OldGoneUpTo(w, run.items, |run.items|) && Near(run, stored, false)
    ensures AllOldGone(w, stored)
  {
    forall i | 0 <= i < |stored.items| && stored.items[i].Database? && stored.items[i].uid != "" && !stored.items[i].aborted
      ensures OldGone(w.sides[i], stored.items[i].uid)
    {
      assert NearItem(run.items[i], stored.items[i], false);
    }
  }

  lemma UIDsAreUsed(w: World)
    requires Inv(w)
    ensures forall j :: 0 <= j < |w.stored.items| && w.stored.items[j].Database? && w.stored.items[j].uid != "" ==> w.stored.items[j].uid in w.used
  {
    forall j | 0 <= j < |w.stored.items| && w.stored.items[j].Database? && w.stored.items[j].uid != "" ensures w.stored.items[j].uid in w.used {
      ItemAt(w, j);
    }
  }

  lemma DeletedMeansVolumes(w: World, i: nat)
    requires Inv(w) && i < |w.stored.items| && w.stored.items[i].Database? && w.stored.items[i].phase == Deleted
    ensures VolumesSucceeded(w.stored.items) && AllRestored(w, w.stored)
  {
    forall j | 0 <= j < |w.stored.items| && w.stored.items[j].Volume? ensures w.sides[j].Claim? && w.sides[j].restored { ItemAt(w, j); }
  }

  lemma DoneIsGone(w: World, i: nat)
    requires Inv(w) && i < |w.stored.items| && i < |w.sides| && w.stored.items[i].Database? && w.stored.items[i].phase != Deleted
    ensures w.stored.items[i].uid == "" || w.stored.items[i].aborted || OldGone(w.sides[i], w.stored.items[i].uid)
    ensures w.stored.items[i].phase == Pending ==> w.stored.items[i].uid == ""
  {
    ItemAt(w, i);
  }

  lemma OldStaysItself(w: World)
    ensures OldStays(w, w)
  {
  }

  lemma NoneSoFar(w: World, items: seq<Item>)
    requires |items| == |w.sides|
    ensures OldGoneUpTo(w, items, 0)
  {
  }

  lemma DoneMeansSucceeded(w: World)
    requires Inv(w) && w.stored.selected && VolumesDone(w.stored.items) && !VolumesFailed(w.stored.items)
    ensures VolumesSucceeded(w.stored.items)
  {
    forall i | 0 <= i < |w.stored.items| && w.stored.items[i].Volume? ensures w.stored.items[i].phase == Succeeded { ItemAt(w, i); }
  }

  lemma StoredOldGone(w: World, w': World, st: Status)
    requires Inv(w) && Rely(w.(stored := w'.stored), w') && w'.stored == st && AllOldGone(w, w.stored) && Near(st.(resumed := w.stored.resumed), w.stored, false)
    ensures AllOldGone(w', w'.stored)
  {
    forall i | 0 <= i < |st.items| && st.items[i].Database? && st.items[i].uid != "" && !st.items[i].aborted ensures OldGone(w'.sides[i], st.items[i].uid) {
      assert NearItem(st.items[i], w.stored.items[i], false);
      ItemAt(w, i);
      assert SideRely(w.(stored := st).sides[i], w'.sides[i], w.used);
    }
  }

  lemma MarkedNear(run: Status, stored: Status, ending: bool)
    requires Near(run, stored, ending)
    ensures Near(run.(marked := true), stored, ending)
  {
  }

  lemma JobsStay(w: World, w': World)
    requires Rely(w, w')
    ensures |w'.sides| == |w.sides|
    ensures forall j :: 0 <= j < |w.sides| ==> w'.sides[j].Claim? == w.sides[j].Claim?
    ensures forall j :: 0 <= j < |w.sides| && w.sides[j].Claim? && (w.sides[j].job == NoJob || w.sides[j].job == Broken) ==>
              w'.sides[j].job == NoJob || w'.sides[j].job == Broken
  {
    forall j | 0 <= j < |w.sides| ensures SideRely(w.sides[j], w'.sides[j], w.used) { }
  }

  lemma GoneStay(w: World, w': World)
    requires Rely(w, w')
    ensures forall j :: 0 <= j < |w.sides| && w.sides[j].Claim? && JobGone(w.sides[j]) ==> w'.sides[j].Claim? && JobGone(w'.sides[j])
  {
    forall j | 0 <= j < |w.sides| ensures SideRely(w.sides[j], w'.sides[j], w.used) { }
  }

  lemma NearFlags(run: Status, stored: Status, ending: bool)
    requires Near(run, stored, ending)
    ensures run.selected == stored.selected && run.paused == stored.paused && run.resumed == stored.resumed && run.outcome == stored.outcome
  {
  }

  lemma StoredRelyFacts(w: World, w': World)
    requires Rely(w.(stored := w'.stored), w')
    ensures w'.changed <= w.changed && w'.spec == w.spec && (JobsGone(w.sides) ==> JobsGone(w'.sides))
  {
    GoneStay(w.(stored := w'.stored), w');
  }

  lemma FinishedIsBack(w: World)
    requires Inv(w) && Finished(w.stored)
    ensures w.changed == {} && JobsGone(w.sides) && Ended(w)
  {
  }

  /** Before the selection nothing runs. */
  lemma UnselectedIsDone(w: World)
    requires Inv(w) && !w.stored.selected && NonePending(w.stored.items)
    ensures Done(w.stored.items)
  {
    forall i | 0 <= i < |w.stored.items| ensures Rank(w.stored.items[i].phase) == 0 { ItemAt(w, i); }
  }

  lemma OnwardItself(st: Status)
    ensures Onward(st, st)
  {
  }

  lemma SideFacts(w: World, w': World, i: nat)
    requires Rely(w, w') && i < |w.sides|
    ensures i < |w'.sides| && SideRely(w.sides[i], w'.sides[i], w.used)
  {
  }

  lemma PauseFacts(w: World)
    requires Inv(w)
    ensures w.stored.paused.Some? ==> w.stored.selected && w.spec.listed != [] && Plans(w.spec, w.stored.paused.value)
    ensures w.stored.paused.Some? ==> forall p :: p in w.changed ==> InPlan(p, w.stored.paused.value)
    ensures w.stored.paused.None? ==> w.changed == {} && !w.stored.resumed && !w.stored.marked
    ensures w.stored.marked ==> w.stored.resumed && w.changed == {}
    ensures w.stored.resumed ==> NonePending(w.stored.items) || w.finalizing
    ensures |w.sides| == |w.stored.items|
    ensures !w.deleting ==> !w.finalizing
  {
  }

  /** Every patch of the plan is there. */
  predicate Applied(w: World, plan: Plan) {
    && (forall x :: x in plan.workloads ==> Workload(x) in w.changed)
    && (forall k :: k in plan.suspended ==> Kustomization(k) in w.changed)
  }

  /** What the environment leaves alone of a stopped app. */
  lemma AppFacts(w: World, w': World)
    requires Rely(w.(stored := w'.stored), w')
    ensures w'.changed <= w.changed && w'.spec == w.spec
    ensures forall k :: Kustomization(k) in w.changed ==> Kustomization(k) in w'.changed
    ensures forall x :: Held(w, x) ==> Held(w', x) && (x !in w.pods ==> x !in w'.pods)
  {
    assert forall x :: Held(w, x) ==> Held(w.(stored := w'.stored), x);
  }

  lemma AppliedIsHeld(w: World, plan: Plan)
    requires Plans(w.spec, plan) && Applied(w, plan)
    ensures forall x :: x in plan.workloads ==> Held(w, x)
  {
  }

  lemma AppliedStays(w: World, w': World, plan: Plan)
    requires Rely(w.(stored := w'.stored), w') && Plans(w.spec, plan) && Applied(w, plan)
    ensures Applied(w', plan)
  {
    AppFacts(w, w');
    AppliedIsHeld(w, plan);
  }

  lemma AppliedIsDown(w: World, plan: Plan)
    requires Applied(w, plan) && forall x :: x in plan.workloads ==> x !in w.pods
    ensures Down(w.changed, w.pods, plan)
  {
    forall p | InPlan(p, plan) ensures p in w.changed { match p case Workload(x) => case Kustomization(k) => }
  }

  lemma MayStartStays(w: World, w': World, st: Status)
    requires Rely(w.(stored := w'.stored), w') && Inv(With(w, st))
    ensures MayStart(w, st) ==> MayStart(w', st)
  {
    if MayStart(w, st) && st.paused.Some? {
      var plan := st.paused.value;
      assert Applied(w, plan) by {
        forall x | x in plan.workloads ensures Workload(x) in w.changed { assert InPlan(Workload(x), plan); }
        forall k | k in plan.suspended ensures Kustomization(k) in w.changed { assert InPlan(Kustomization(k), plan); }
      }
      AppFacts(w, w');
      AppliedIsHeld(w, plan);
      AppliedStays(w, w', plan);
      AppliedIsDown(w', plan);
    }
  }

  /** While a Cluster that is recorded as Deleted is still there, the run may change
      the cluster. */
  lemma DeleteIsDue(w: World, i: nat)
    requires Inv(w) && !w.finalizing && i < |w.stored.items| && i < |w.sides| && w.stored.items[i].Database? && w.stored.items[i].phase == Deleted
    requires !OldGone(w.sides[i], w.stored.items[i].uid)
    ensures MayStart(w, w.stored)
  {
    ItemAt(w, i);
    assert ItemBegun(w.stored.items[i]);
    assert Begun(w.stored.items);
  }

  lemma DoneMeansGone(w: World)
    requires Done(w.stored.items) && |w.sides| == |w.stored.items|
    ensures NonePending(w.stored.items) && DeletedGone(w)
  {
  }

  lemma UpToMeansGone(w: World, st: Status)
    requires Inv(With(w, st)) && OldGoneUpTo(w, st.items, |st.items|)
    ensures DeletedGone(With(w, st))
  {
    forall i | 0 <= i < |w.sides| && st.items[i].Database? && st.items[i].phase == Deleted ensures OldGone(w.sides[i], st.items[i].uid) {
      ItemAt(With(w, st), i);
    }
  }

  lemma NothingLeft(w: World, plan: Plan)
    requires (forall p :: p in w.changed ==> InPlan(p, plan)) && AllScaledBack(w, plan)
    requires forall k :: k in plan.suspended ==> Kustomization(k) !in w.changed
    ensures w.changed == {}
  {
  }

  lemma SameOldGone(w: World, w': World, st: Status)
    requires w'.sides == w.sides
    ensures AllOldGone(w, st) == AllOldGone(w', st)
  {
  }

  /** What a failure does to an item; abort leaves its mark. */
  function Failing(item: Item, ending: bool): Item {
    match item
    case Volume(name, _, job) => Volume(name, Phase.Failed, job)
    case Database(name, _, uid, _) => Database(name, Phase.Failed, uid, ending)
  }

  lemma FailKeepsItem(selected: bool, used: set<string>, item: Item, side: Side, ending: bool)
    requires ItemSound(selected, used, item, side) && (item.phase == Deleted ==> ending) && Rank(item.phase) > 0
    ensures ItemSound(selected, used, Failing(item, ending), side) && ItemOnward(item, Failing(item, ending))
  {
  }

  lemma EndingNear(run: Status, stored: Status)
    requires Near(run, stored, false)
    ensures Near(run, stored, true)
  {
    forall i | 0 <= i < |run.items| ensures NearItem(run.items[i], stored.items[i], true) { assert NearItem(run.items[i], stored.items[i], false); }
  }

  // --------------------------------------------------- what a pass gets done

  /** Why an item may fail outside abort, once the backups are selected. */
  predicate Cause(item: Item, side: Side) {
    match item.phase
    case Pending => if side.Claim? then !side.reachable else side.cluster.None?
    case Running => side.Claim? && (side.job.NoJob? || side.job.Broken?)
    case Deleted =>
      side.Instance? && side.cluster.Some? && !side.cluster.value.mine && item.Database? && side.cluster.value.uid != item.uid
    case Recovering => side.Instance? && side.cluster.None?
    case _ => false
  }

  /** Those Jobs have ended. */
  ghost predicate AllEnded(ripe: set<nat>, began: seq<Item>, sides: seq<Side>) {
    forall i :: i in ripe ==>
      i < |began| && i < |sides| && began[i].Volume? && began[i].phase == Running && sides[i].Claim? && !sides[i].job.Active?
  }

  ghost function EndedNow(items: seq<Item>, sides: seq<Side>): (r: set<nat>)
    ensures AllEnded(r, items, sides) && AllEnded({}, items, sides)
    ensures forall i: nat :: i < |items| && i < |sides| && items[i].Volume? && items[i].phase == Running && sides[i].Claim? && !sides[i].job.Active? ==> i in r
  {
    set i: nat | i < |items| && i < |sides| && items[i].Volume? && items[i].phase == Running && sides[i].Claim? && !sides[i].job.Active?
  }

  lemma EndedStays(ripe: set<nat>, began: seq<Item>, w: World, w': World)
    requires AllEnded(ripe, began, w.sides) && Rely(w, w')
    ensures AllEnded(ripe, began, w'.sides)
  {
    forall i | i in ripe ensures i < |w'.sides| && w'.sides[i].Claim? && !w'.sides[i].job.Active? { SideFacts(w, w', i); }
  }

  function Moved(item: Item, phase: Phase): Item {
    match item
    case Volume(name, _, job) => Volume(name, phase, job)
    case Database(name, _, uid, aborted) => Database(name, phase, uid, aborted)
  }

  /** The steps of an item that only follow what the cluster shows. */
  predicate MayBecome(item: Item, side: Side, phase: Phase) {
    match phase
    case Running => item.Volume? && item.job
    case Recovering => item.phase == Deleted && NewCluster(item, side) && side.cluster.value.mine
    case Succeeded =>
      if item.Volume? then item.phase == Running && side.Claim? && side.job.Complete?
      else item.phase == Recovering && side.Instance? && side.cluster.Some? && side.cluster.value.healthy
    case Failed => item.phase == Deleted ==> NewCluster(item, side)
    case Skipped => item.Database? && item.phase == Pending
    case _ => false
  }

  predicate NewCluster(item: Item, side: Side) {
    item.Database? && side.Instance? && side.cluster.Some? && side.cluster.value.uid != item.uid
  }

  lemma MovedIsSound(selected: bool, used: set<string>, item: Item, side: Side, phase: Phase)
    requires ItemSound(selected, used, item, side) && MayBecome(item, side, phase) && Rank(phase) < Rank(item.phase)
    ensures ItemSound(selected, used, Moved(item, phase), side) && ItemOnward(item, Moved(item, phase))
    ensures phase != Deleted && (ItemBegun(Moved(item, phase)) ==> ItemBegun(item))
  {
  }

  lemma MovedIsNear(run: Status, stored: Status, i: nat, phase: Phase, ending: bool)
    requires Near(run, stored, ending) && i < |run.items| && phase != Deleted
    ensures Near(run.(items := run.items[i := Moved(run.items[i], phase)]), stored, ending)
  {
    NearAt(run, stored, i, ending);
    OneItemNear(run, stored, i, Moved(run.items[i], phase), ending);
  }

  lemma ClusterFacts(w: World, i: nat)
    requires Inv(w) && i < |w.stored.items| && w.stored.items[i].Database?
    ensures i < |w.sides| && |w.sides| == |w.stored.items| && w.sides[i].Instance?
    ensures NewCluster(w.stored.items[i], w.sides[i]) || w.stored.items[i].phase == Recovering ==> OldGone(w.sides[i], w.stored.items[i].uid)
    ensures w.stored.items[i].phase == Pending ==> w.stored.items[i].uid == ""
    ensures w.stored.items[i].phase == Deleted ==> w.stored.items[i].uid in w.used
  {
    ItemAt(w, i);
    if w.sides[i].left.Some? && w.sides[i].cluster.Some? { assert w.sides[i].left.value == w.sides[i].cluster.value.uid; }
  }

  lemma EndedIsEnded(ripe: set<nat>, began: seq<Item>, sides: seq<Side>, i: nat)
    requires AllEnded(ripe, began, sides) && i < |sides| && sides[i].Claim? && sides[i].job.Active?
    ensures i !in ripe
  {
  }

  lemma MoreVolumesWorked(was: seq<Item>, before: Status, now: Status, ripe: set<nat>, held: set<nat>, more: set<nat>, i: nat)
    requires VolumesWorked(was, before.items, ripe, held, i) && i < |was| && OnlyItem(before, now, i) && held <= more
    requires was[i].Volume? ==> VolumeWorked(was[i], now.items[i], i in ripe, i in more)
    ensures VolumesWorked(was, now.items, ripe, more, i + 1)
  {
    hide VolumeWorked;
    forall j | 0 <= j < i && was[j].Volume? ensures VolumeWorked(was[j], now.items[j], j in ripe, j in more) {
      HeldMore(was[j], now.items[j], j in ripe, j in held, j in more);
    }
  }

  lemma MoreDatabasesWorked(was: seq<Item>, before: Status, now: Status, i: nat)
    requires DatabasesWorked(was, before.items, i) && i < |was| && OnlyItem(before, now, i)
    requires VolumesFailed(before.items) == VolumesFailed(now.items)
    requires was[i].Database? ==> DatabaseWorked(was[i], now.items[i], VolumesFailed(now.items))
    ensures DatabasesWorked(was, now.items, i + 1)
  {
    hide DatabaseWorked, VolumesFailed;
  }

  lemma NoneWorked(items: seq<Item>, ripe: set<nat>, held: set<nat>)
    ensures VolumesWorked(items, items, ripe, held, 0) && DatabasesWorked(items, items, 0)
  {
  }

  lemma HeldMore(was: Item, now: Item, ripe: bool, held: bool, more: bool)
    requires VolumeWorked(was, now, ripe, held) && (held ==> more)
    ensures VolumeWorked(was, now, ripe, more)
  {
  }

  /** The pass moved on one item and nothing else. */
  predicate OnlyItem(was: Status, now: Status, i: nat) {
    && |now.items| == |was.items| && i < |was.items| && now == was.(items := was.items[i := now.items[i]])
    && ItemOnward(was.items[i], now.items[i])
  }

  lemma NothingMoved(st: Status, i: nat)
    requires i < |st.items|
    ensures OnlyItem(st, st, i)
  {
  }

  lemma OneMoved(was: Status, now: Status, i: nat)
    requires i < |was.items| && i < |now.items| && now == was.(items := was.items[i := now.items[i]]) && ItemOnward(was.items[i], now.items[i])
    ensures OnlyItem(was, now, i)
  {
  }

  lemma OnlyItemMeans(was: Status, now: Status, i: nat)
    requires OnlyItem(was, now, i)
    ensures i < |now.items| == |was.items| && was.items[i].Volume? == now.items[i].Volume?
    ensures now.selected == was.selected && now.paused == was.paused && now.resumed == was.resumed && now.outcome == was.outcome
  {
  }

  lemma OneDatabaseChanged(was: Status, now: Status, i: nat)
    requires OnlyItem(was, now, i) && was.items[i].Database?
    ensures VolumesDone(was.items) ==> VolumesDone(now.items)
    ensures VolumesFailed(now.items) == VolumesFailed(was.items)
  {
    assert now.items[i := was.items[i]] == was.items;
  }

  lemma OldGoneStays(w: World, w': World, was: Status, now: Status, n: nat)
    requires OldGoneUpTo(w, was.items, n) && OldStays(w, w') && OnlyItem(was, now, n)
    requires forall j :: 0 <= j < n && was.items[j].Database? && was.items[j].uid != "" ==> was.items[j].uid in w.used
    requires now.items[n].Database? && now.items[n].uid != "" ==> now.items[n].aborted || OldGone(w'.sides[n], now.items[n].uid)
    ensures OldGoneUpTo(w', now.items, n + 1)
  {
    assert forall j :: 0 <= j < n ==> now.items[j] == was.items[j];
  }

  /** A loop over the volumes, or over the Clusters, stands at item i. */
  ghost predicate LoopAt(was: Status, now: Status, i: nat, volumes: bool) {
    && |now.items| == |was.items| && now == was.(items := now.items)
    && forall j :: 0 <= j < |was.items| && (i <= j || was.items[j].Volume? != volumes) ==> now.items[j] == was.items[j]
  }

  lemma LoopStarts(st: Status, volumes: bool)
    ensures LoopAt(st, st, 0, volumes)
  {
  }

  lemma LoopOn(was: Status, before: Status, now: Status, i: nat, volumes: bool)
    requires LoopAt(was, before, i, volumes) && i < |was.items|
    requires if before.items[i].Volume? == volumes then OnlyItem(before, now, i) else now == before
    ensures LoopAt(was, now, i + 1, volumes) && was.items[i] == before.items[i] && OnlyItem(before, now, i)
    ensures |before.items| == |now.items| == |was.items|
  {
    NothingMoved(before, i);
  }

  lemma LoopEnds(was: Status, now: Status, i: nat, volumes: bool)
    requires LoopAt(was, now, i, volumes) && i <= |was.items|
    ensures LoopAt(was, now, |now.items|, volumes)
  {
  }

  lemma LoopMeans(was: Status, now: Status, i: nat, volumes: bool)
    requires LoopAt(was, now, i, volumes)
    ensures now.selected == was.selected && now.paused == was.paused && now.resumed == was.resumed && now.outcome == was.outcome && now.marked == was.marked
    ensures |now.items| == |was.items| && (i < |now.items| ==> now.items[i] == was.items[i])
  {
  }

  lemma BothWorked(was: Status, volumes: Status, now: Status, ripe: set<nat>, held: set<nat>)
    requires LoopAt(was, volumes, |was.items|, true) && LoopAt(volumes, now, |volumes.items|, false) && Onward(was, volumes) && Onward(was, now)
    requires VolumesWorked(was.items, volumes.items, ripe, held, |was.items|) && DatabasesWorked(volumes.items, now.items, |volumes.items|)
    ensures VolumesWorked(was.items, now.items, ripe, held, |was.items|) && DatabasesWorked(was.items, now.items, |was.items|)
  {
    KindsAgree(was, volumes);
    KindsAgree(was, now);
  }

  lemma SomeMeansNotNone(items: seq<Item>, n: nat)
    requires SomeDeleted(items, n)
    ensures !NoneDeleted(items)
  {
  }

  lemma OnlyItemTransitive(a: Status, b: Status, c: Status, i: nat)
    requires OnlyItem(a, b, i) && OnlyItem(b, c, i)
    ensures OnlyItem(a, c, i)
  {
    assert b.items[i := c.items[i]] == a.items[i := c.items[i]];
  }

  /** What a pass makes of a Pending Cluster that it saw, and what the cluster holds
      after it. */
  predicate Started(was: Item, now: Item, saw: Side, after: Side, shutdown: bool) {
    saw.Instance? && after.Instance? &&
    match saw.cluster
    case None => !shutdown && now == Moved(was, Phase.Failed)
    case Some(c) =>
      && shutdown && now == Database(was.name, Deleted, c.uid, false)
      && (OtherCluster(after, c.uid) || after.cluster.value.deleting)
  }

  /** The same for a Deleted one: it waits while the old Cluster or an instance is
      left, and judges a new Cluster by whose recovery it is. */
  predicate Awaited(was: Item, now: Item, saw: Side, after: Side, shutdown: bool) {
    saw.Instance? && after.Instance? && was.Database? &&
    match saw.cluster
    case None => now == was && shutdown == after.left.Some?
    case Some(c) =>
      if c.uid == was.uid then shutdown && now == was && (c.deleting || OtherCluster(after, c.uid) || after.cluster.value.deleting)
      else !shutdown && now == Moved(was, if c.mine then Recovering else Phase.Failed)
  }

  /** What a Running volume becomes: a Job that is gone may have restored half of
      the claim. */
  function RestoredPhase(job: Job): Phase {
    match job
    case Complete => Phase.Succeeded
    case Active => Running
    case _ => Phase.Failed
  }

  /** What a Recovering Cluster becomes. */
  function RecoveredPhase(cluster: Option<Cluster>): Phase {
    match cluster
    case None => Phase.Failed
    case Some(c) => if c.healthy then Phase.Succeeded else Recovering
  }

  /** What the selection makes of an item when some item has no backup. */
  function SelectionEnds(item: Item, lost: bool): Item {
    if item.phase != Pending then item else if lost then Failing(item, false) else Skipping(item)
  }

  function Skipping(item: Item): Item {
    match item
    case Volume(name, _, job) => Volume(name, Skipped, job)
    case Database(name, _, uid, _) => Database(name, Skipped, uid, false)
  }

  /** Some Pending item has no backup. */
  predicate AnyLost(items: seq<Item>, lost: set<nat>) { exists i :: 0 <= i < |items| && i in lost && items[i].phase == Pending }

  ghost predicate PodsLeft(w: World, plan: Plan) { exists x :: x in plan.workloads && x in w.pods }

  /** Only what a status that is not selected yet may be without: skipped volumes
      come from a selection that ends the run. */
  predicate Kept(st: Status) { st.selected || Finished(st) || NoVolumeSkipped(st.items) }

  /** Why a pass ends. */
  datatype Wait = RunEnded | ForLease | JustSelected | Refused | JustPaused | ForPods | Working

  /** One volume after a pass: it started unless a pod was seen to mount its claim,
      and it is done once its Job ended. */
  predicate VolumeWorked(was: Item, now: Item, ripe: bool, held: bool) {
    (was.phase == Pending && now.phase == Pending ==> held) && (was.phase == Running && ripe ==> now.phase != Running)
  }

  /** One Cluster after a pass in which all volumes were done: it is deleted if they
      all succeeded, and else left alone. */
  predicate DatabaseWorked(was: Item, now: Item, failed: bool) {
    now.phase != Pending && (was.phase == Pending ==> (now.phase == Skipped <==> failed))
  }

  ghost predicate VolumesWorked(was: seq<Item>, now: seq<Item>, ripe: set<nat>, held: set<nat>, n: nat) {
    |was| == |now| && forall i :: 0 <= i < n <= |was| && was[i].Volume? ==> VolumeWorked(was[i], now[i], i in ripe, i in held)
  }

  ghost predicate DatabasesWorked(was: seq<Item>, now: seq<Item>, n: nat) {
    |was| == |now| && forall i :: 0 <= i < n <= |was| && was[i].Database? ==> DatabaseWorked(was[i], now[i], VolumesFailed(now))
  }

  /** A pass that got through did all there was to do. */
  ghost predicate WorkedThrough(was: Status, now: Status, ripe: set<nat>, held: set<nat>) {
    && VolumesWorked(was.items, now.items, ripe, held, |was.items|)
    && (VolumesDone(now.items) ==> DatabasesWorked(was.items, now.items, |was.items|))
    && NothingToEnd(now)
  }

  /** The app is back once all volumes are done and no Cluster is Pending or
      Deleted, and there is still something to do. */
  ghost predicate NothingToEnd(now: Status) {
    && (now.paused.Some? && VolumesDone(now.items) && NonePending(now.items) && NoneDeleted(now.items) ==> now.marked)
    && !(Done(now.items) && (now.paused.None? || now.marked))
  }

  lemma SelectedIsKept(st: Status)
    requires st.selected
    ensures Kept(st)
  {
  }

  lemma SameStored(w: World, w': World)
    requires w'.stored == w.stored
    ensures w.(stored := w'.stored) == w
  {
  }

  lemma WrittenIsRelied(w: World, v: World, st: Status)
    requires Rely(w, v)
    ensures Rely(w.(stored := st), With(v, st))
  {
    assert forall x :: Held(w.(stored := st), x) == Held(w, x);
  }

  lemma PlanCovers(spec: Spec, plan: Plan)
    requires Plans(spec, plan)
    ensures forall x :: x in plan.workloads && x in spec.flux ==> spec.flux[x] in plan.suspended
  {
  }

  lemma PendingIsPending(items: seq<Item>, i: nat)
    requires i < |items|
    ensures items[i].phase == Pending ==> !NonePending(items)
  {
  }

  lemma StillNonePending(was: Status, now: Status, i: nat)
    requires OnlyItem(was, now, i)
    ensures NonePending(was.items) ==> NonePending(now.items)
  {
    assert forall j :: 0 <= j < |was.items| && j != i ==> now.items[j] == was.items[j];
  }

  lemma NotRipe(began: Status, run: Status, ripe: set<nat>, sides: seq<Side>, i: nat)
    requires Onward(began, run) && i < |run.items| && run.items[i].phase == Pending && AllEnded(ripe, began.items, sides)
    ensures i !in ripe
  {
    assert ItemOnward(began.items[i], run.items[i]);
  }

  /** A Cluster among the first n is still Deleted. */
  ghost predicate SomeDeleted(items: seq<Item>, n: nat) { exists j: nat :: j < n && j < |items| && items[j].Database? && items[j].phase == Deleted }

  lemma StillDeleted(was: Status, now: Status, i: nat, shutdown: bool)
    requires OnlyItem(was, now, i) && (shutdown ==> now.items[i].Database? && now.items[i].phase == Deleted)
    ensures shutdown || SomeDeleted(was.items, i) ==> SomeDeleted(now.items, i + 1)
  {
    assert forall j :: 0 <= j < i ==> now.items[j] == was.items[j];
  }

  /** The run lists a workload that the namespace does not hold. */
  predicate Missing(spec: Spec) { exists x :: x in spec.listed && x !in spec.known }

  lemma LostMeansFailed(was: seq<Item>, now: seq<Item>, lost: set<nat>)
    requires AnyLost(was, lost) && |now| == |was| && forall i :: 0 <= i < |was| ==> now[i] == SelectionEnds(was[i], i in lost)
    ensures !NoneFailed(now) && NonePending(now)
  {
    var i :| 0 <= i < |was| && i in lost && was[i].phase == Pending;
    assert now[i].phase == Phase.Failed;
  }

  lemma EndsAsItFailed(items: seq<Item>)
    requires Done(items)
    ensures EndsRight(items, if NoneFailed(items) then AllSucceeded else SomeFailed)
  {
  }

  /** A run that lists nothing may start at once. */
  lemma UnpausedMayStart(w: World, st: Status)
    requires w.spec.listed == [] && st.paused.None?
    ensures MayStart(w, st)
  {
  }

  lemma KindsAgree(a: Status, b: Status)
    requires Onward(a, b)
    ensures |a.items| == |b.items| && forall i :: 0 <= i < |a.items| ==> a.items[i].Volume? == b.items[i].Volume?
  {
    forall i | 0 <= i < |a.items| ensures ItemOnward(a.items[i], b.items[i]) { }
  }

  class RestoreRunReconciler {
    var w: World
    /** The Leases, as this run uses them among the others. */
    const leases: Leases.Client
    /** The run as the pass holds it in memory, and whether it was being deleted
        when the pass read it. */
    var run: Status
    var seen: bool
    /** The pass is in abort or finalize. */
    var ending: bool
    ghost var began: Status
    /** The volumes whose Jobs had ended when the pass began, and those whose claims
        it saw mounted. */
    ghost var ripe: set<nat>
    ghost var held: set<nat>
    /** The cluster as the pass saw it when it decided. */
    ghost var sighted: World
    /** A patch of the pause failed. */
    ghost var refused: bool
    /** Some call of the pass failed, or a pod was still stopping. */
    ghost var failed: bool
    ghost var log: seq<Entry>
    ghost const spec: Spec

    ghost predicate Good()
      reads this, leases
    {
      && Leases.Sound(leases) && (Finished(w.stored) || Finished(run) ==> !Leases.HasLease(leases))
      && Inv(w) && Inv(With(w, run)) && Onward(began, run) && Onward(began, w.stored) && AllInOrder(log)
      && (!seen ==> !w.finalizing) && (ending ==> w.aborted || w.finalizing)
      && w.spec == spec && Kept(w.stored) && AllEnded(ripe, began.items, w.sides)
    }

    constructor (w: World, leases: Leases.Client)
      requires Inv(w)
      ensures this.w == w && this.leases == leases && log == [] && spec == w.spec
    {
      this.w, this.leases, run, seen, ending := w, leases, w.stored, w.deleting, false;
      began, failed, log, ripe, held, sighted, spec := w.stored, false, [], {}, {}, w, w.spec;
    }

    lemma GoodFacts()
      requires Good()
      ensures Inv(w) && Inv(With(w, run)) && Onward(began, run) && (!seen ==> !w.finalizing) && Kept(w.stored) && w.spec == spec
      ensures AllEnded(ripe, began.items, w.sides) && Onward(began, w.stored) && AllInOrder(log)
      ensures Leases.Sound(leases) && (Finished(w.stored) ==> !Leases.HasLease(leases))
    {
    }

    /** The pass judges by the cluster as it is. */
    ghost method Judge()
      requires Good()
      modifies this`sighted
      ensures Good() && sighted == w
    {
      sighted := w;
    }

    method Interfere()
      requires Good()
      modifies this`w
      ensures Good() && Rely(old(w), w) && (MayStart(old(w), run) ==> MayStart(w, run))
    {
      hide Inv, Onward, AllInOrder, Rely, AllEnded, Clear, Leases.Sound, Leases.HasLease;
      RelyReflexive(w);
      var steps: nat := *;
      while steps > 0
        invariant Good() && Rely(old(w), w) && (MayStart(old(w), run) ==> MayStart(w, run))
      {
        var e: EnvStep := *;
        EnvKeepsInv(w, e);
        EnvIgnoresStatus(w, run, e);
        EnvKeepsInv(With(w, run), e);
        EnvIsRelied(w, e);
        RelyTransitive(old(w), w, EnvNext(w, e));
        EndedStays(ripe, began.items, w, EnvNext(w, e));
        SameStored(w, EnvNext(w, e));
        MayStartStays(w, EnvNext(w, e), run);
        w := EnvNext(w, e);
        steps := steps - 1;
      }
    }

    method Call() returns (fault: Fault)
      requires Good()
      modifies this`w, this`failed
      ensures Good() && Rely(old(w), w) && (MayStart(old(w), run) ==> MayStart(w, run))
      ensures w.stored == old(w.stored) && w.finalizing == old(w.finalizing) && |w.sides| == |old(w.sides)|
      ensures w.changed <= old(w.changed)
      ensures failed == (old(failed) || !fault.NoFault?)
    {
      hide Inv, Onward, AllInOrder, AllEnded, Clear, AppRely, Leases.Sound, Leases.HasLease;
      Interfere();
      fault := *;
      failed := failed || !fault.NoFault?;
    }

    method Read() returns (ok: bool)
      requires Good()
      modifies this`w, this`failed
      ensures Good() && Rely(old(w), w) && (MayStart(old(w), run) ==> MayStart(w, run))
      ensures w.stored == old(w.stored) && w.finalizing == old(w.finalizing) && |w.sides| == |old(w.sides)|
      ensures w.changed <= old(w.changed)
      ensures failed == (old(failed) || !ok)
    {
      hide Inv, Onward, AllInOrder, Rely, AllEnded, Clear, Leases.Sound, Leases.HasLease;
      var fault := Call();
      ok := fault.NoFault?;
    }

    method WriteStatus() returns (ok: bool)
      requires Good() && Kept(run)
      modifies this`w, this`failed
      ensures Good() && Rely(old(w).(stored := w.stored), w) && (MayStart(old(w), run) ==> MayStart(w, run))
      ensures w.stored == run || w.stored == old(w.stored)
      ensures ok ==> w.stored == run
      ensures w.finalizing == old(w.finalizing) && |w.sides| == |old(w.sides)| && w.changed <= old(w.changed)
      ensures failed == (old(failed) || !ok)
    {
      hide Inv, Onward, AllInOrder, AllEnded, AppRely, Clear, Leases.Sound, Leases.HasLease;
      var fault := Call();
      if w.deleting != seen {
        failed := true;
        return false;
      }
      if !fault.FailsBefore? {
        WrittenIsRelied(old(w), w, run);
        assert With(With(w, run), run) == With(w, run);
        w := With(w, run);
      }
      ok := fault.NoFault?;
    }

    // ------------------------------------------------------------ the pause

    /** One patch of applyPause. */
    method Stop(p: Patch) returns (ok: bool)
      requires Good() && run == w.stored && run.paused.Some? && !run.resumed && !Finished(run) && InPlan(p, run.paused.value)
      requires p.Workload? && p.name in w.spec.flux ==> Kustomization(w.spec.flux[p.name]) in w.changed
      modifies this`w, this`failed, this`log
      ensures Good() && w.stored == run
      ensures forall k :: Kustomization(k) in old(w.changed) ==> Kustomization(k) in w.changed
      ensures forall x :: Held(old(w), x) ==> Held(w, x)
      ensures ok ==> p in w.changed
      ensures failed == (old(failed) || !ok)
    {
      hide Inv, Onward, Rely, AllEnded, Leases.Sound, Leases.HasLease;
      var fault := Call();
      SameStored(old(w), w);
      AppFacts(old(w), w);
      if !fault.FailsBefore? {
        PauseFacts(w);
        StopKeepsInv(w, p);
        log := log + [Entry(Stopped(p), w, ending)];
        w := w.(changed := w.changed + {p});
        assert With(w, run) == w;
      }
      ok := fault.NoFault?;
    }

    /** applyPause: suspends the Kustomizations, then scales to zero. */
    method ApplyPause() returns (ok: bool)
      requires Good() && run == w.stored && run.paused.Some? && !run.resumed && !Finished(run)
      modifies this`refused, this`w, this`failed, this`log
      ensures Good() && w.stored == run
      ensures ok ==> Applied(w, run.paused.value)
      ensures failed == (old(failed) || !ok) && refused == (old(refused) || !ok)
    {
      hide Inv, Onward, Rely, AllEnded, Plans, Leases.Sound, Leases.HasLease;
      var plan := run.paused.value;
      for i := 0 to |plan.suspended|
        invariant Good() && w.stored == run && failed == old(failed) && refused == old(refused)
        invariant forall j :: 0 <= j < i ==> Kustomization(plan.suspended[j]) in w.changed
      {
        ok := Stop(Kustomization(plan.suspended[i]));
        if !ok {
          refused := true;
          return;
        }
      }
      PauseFacts(w);
      PlanCovers(w.spec, plan);
      for i := 0 to |plan.workloads|
        invariant Good() && w.stored == run && failed == old(failed) && refused == old(refused)
        invariant forall k :: k in plan.suspended ==> Kustomization(k) in w.changed
        invariant forall j :: 0 <= j < i ==> Held(w, plan.workloads[j])
      {
        ok := Stop(Workload(plan.workloads[i]));
        if !ok {
          refused := true;
          return;
        }
      }
      ok := true;
    }

    /** One patch of resumeWorkloads. */
    method PutBack(p: Patch) returns (ok: bool)
      requires Good() && run.resumed && w.stored.resumed && run.paused.Some? && run.paused == w.stored.paused && w.stored.selected
      requires InPlan(p, run.paused.value) && (p.Kustomization? ==> AllScaledBack(w, run.paused.value))
      requires if ending then JobsGone(w.sides) else AllOldGone(w, w.stored)
      modifies this`w, this`failed, this`log
      ensures Good() && w.stored == old(w.stored) && w.changed <= old(w.changed)
      ensures if ending then JobsGone(w.sides) else AllOldGone(w, w.stored)
      ensures ok ==> p !in w.changed
      ensures old(JobsGone(w.sides)) ==> JobsGone(w.sides)
      ensures failed == (old(failed) || !ok)
    {
      hide Inv, Onward, Rely, AllEnded, AllOldGone, JobsGone, Leases.Sound, Leases.HasLease;
      ghost var before := w;
      var fault := Call();
      RelyFacts(before, w);
      if !fault.FailsBefore? {
        BackKeepsInv(w, p);
        BackKeepsInv(With(w, run), p);
        log := log + [Entry(GaveBack(p), w, ending)];
        SameOldGone(w, w.(changed := w.changed - {p}), w.stored);
        w := w.(changed := w.changed - {p});
      }
      ok := fault.NoFault?;
    }

    /** resumeWorkloads: once it is through, everything is back. */
    method GiveBack() returns (ok: bool)
      requires Good() && run.resumed && w.stored.resumed && run.paused.Some? && run.paused == w.stored.paused && w.stored.selected
      requires if ending then JobsGone(w.sides) else AllOldGone(w, w.stored)
      modifies this`w, this`run, this`failed, this`log
      ensures Good() && w.stored == old(w.stored)
      ensures failed == (old(failed) || !ok)
      ensures ok ==> run == old(run).(marked := true) && w.changed == {}
      ensures old(JobsGone(w.sides)) ==> JobsGone(w.sides)
    {
      hide Inv, Onward, Rely, AllEnded, AllOldGone, JobsGone, Plans, Leases.Sound, Leases.HasLease;
      var plan := run.paused.value;
      for i := 0 to |plan.workloads|
        invariant Good() && w.stored == old(w.stored) && failed == old(failed) && run == old(run)
        invariant if ending then JobsGone(w.sides) else AllOldGone(w, w.stored)
        invariant old(JobsGone(w.sides)) ==> JobsGone(w.sides)
        invariant forall j :: 0 <= j < i ==> Workload(plan.workloads[j]) !in w.changed
      {
        ok := PutBack(Workload(plan.workloads[i]));
        if !ok {
          return;
        }
      }
      for i := 0 to |plan.suspended|
        invariant Good() && w.stored == old(w.stored) && failed == old(failed) && run == old(run)
        invariant if ending then JobsGone(w.sides) else AllOldGone(w, w.stored)
        invariant old(JobsGone(w.sides)) ==> JobsGone(w.sides)
        invariant AllScaledBack(w, plan)
        invariant forall j :: 0 <= j < i ==> Kustomization(plan.suspended[j]) !in w.changed
      {
        ok := PutBack(Kustomization(plan.suspended[i]));
        if !ok {
          return;
        }
      }
      PauseFacts(With(w, run));
      NothingLeft(w, plan);
      MarkKeepsInv(With(w, run));
      FlagsOnward(began, run, run.(marked := true));
      run := run.(marked := true);
      ok := true;
    }

    // ------------------------------------------------------------ the items

    /** Changes one item of the copy in memory. It fails for a cause, and is skipped
        after a failure. */
    method SetItem(i: nat, item: Item)
      requires Good() && !Finished(run) && i < |run.items| && i < |w.sides| && ItemOnward(run.items[i], item)
      requires ItemSound(run.selected, w.used, item, w.sides[i])
      requires item.phase == Deleted ==> VolumesSucceeded(run.items) && item.Database?
      requires item.phase == Deleted || (ItemBegun(item) && !ItemBegun(run.items[i])) ==> MayStart(w, run)
      requires item.phase == Phase.Failed ==> ending || failed || !run.selected || Cause(run.items[i], w.sides[i])
      requires item.phase == Skipped ==> !run.selected || VolumesFailed(run.items)
      modifies this`run
      ensures Good() && run == old(run).(items := old(run).items[i := item])
    {
      hide Inv, ItemSound, Onward, VolumesSucceeded, AllEnded, ItemBegun, Clear, Leases.Sound, Leases.HasLease;
      OneItemKeepsInv(With(w, run), i, item);
      OneItemOnward(began, run, i, item);
      run := run.(items := run.items[i := item]);
    }

    method SetSide(i: nat, side: Side)
      requires Good() && i < |w.sides| && i < |run.items| && i < |w.stored.items| && !Finished(w.stored) && !Finished(run)
      requires ItemSound(w.stored.selected, w.used, w.stored.items[i], side)
      requires ItemSound(run.selected, w.used, run.items[i], side)
      requires forall u :: OldGone(w.sides[i], u) ==> OldGone(side, u)
      requires side.Claim? == w.sides[i].Claim? && (side.Claim? && side.job.Active? ==> i !in ripe)
      modifies this`w
      ensures Good() && w == old(w).(sides := old(w).sides[i := side]) && (MayStart(old(w), run) ==> MayStart(w, run))
    {
      hide Inv, ItemSound, Onward, OldGone, Leases.Sound, Leases.HasLease;
      OneSideKeepsInv(w, i, side);
      OneSideKeepsInv(With(w, run), i, side);
      ItemAt(w, i);
      w := w.(sides := w.sides[i := side]);
    }

    method Fail(i: nat)
      requires Good() && !Finished(run) && i < |run.items| && Rank(run.items[i].phase) > 0 && (run.items[i].phase == Deleted ==> ending)
      requires ending || failed || !run.selected || (i < |w.sides| && Cause(run.items[i], w.sides[i]))
      modifies this`run
      ensures Good() && run == old(run).(items := old(run).items[i := Failing(old(run).items[i], ending)])
    {
      hide Inv, ItemSound, Onward, AllEnded, Cause, Clear, Leases.Sound, Leases.HasLease;
      ItemAt(With(w, run), i);
      FailKeepsItem(run.selected, w.used, run.items[i], w.sides[i], ending);
      SetItem(i, Failing(run.items[i], ending));
    }

    /** Moves an item on as the cluster shows. */
    method Advance(i: nat, phase: Phase)
      requires Good() && !Finished(run) && Near(run, w.stored, ending) && i < |run.items| && i < |w.sides|
      requires MayBecome(run.items[i], w.sides[i], phase) && Rank(phase) < Rank(run.items[i].phase)
      requires phase == Phase.Failed ==> ending || failed || Cause(run.items[i], w.sides[i])
      requires phase == Skipped ==> VolumesFailed(run.items)
      modifies this`run
      ensures Good() && Near(run, w.stored, ending) && OnlyItem(old(run), run, i)
      ensures i < |run.items| && run.items[i] == Moved(old(run).items[i], phase)
    {
      hide Inv, ItemSound, ItemOnward, ItemBegun, Onward, Near, VolumesSucceeded, VolumesFailed, AllEnded, AllInOrder, Kept, Cause, MayBecome, Clear, Leases.Sound, Leases.HasLease;
      ItemAt(With(w, run), i);
      MovedIsSound(run.selected, w.used, run.items[i], w.sides[i], phase);
      MovedIsNear(run, w.stored, i, phase, ending);
      SetItem(i, Moved(run.items[i], phase));
    }

    /** restoreVolume on a Pending item: it waits while a pod mounts the claim, fails
        without a repository, and else starts its Job. The Job's name is stored
        before the Job is created. */
    method StartJob(i: nat) returns (ok: bool)
      requires Good() && !Finished(run) && run.selected && Near(run, w.stored, ending) && i < |run.items| && run.items[i].Volume? && run.items[i].phase == Pending
      requires MayStart(w, run)
      modifies this`w, this`run, this`failed, this`log
      ensures Good() && MayStart(w, run) && (old(failed) ==> failed) && (!ok ==> failed)
      ensures OnlyItem(old(run), run, i) && i < |run.items|
      ensures ok ==> Near(run, w.stored, ending) && i < |w.sides| && w.sides[i].Claim?
      ensures ok ==> match run.items[i].phase
                     case Pending => w.sides[i].mounted
                     case Running => run.items[i].job && w.sides[i].reachable && w.sides[i].job != NoJob
                     case phase => phase == Phase.Failed && (failed || !w.sides[i].reachable)
    {
      hide Good, Inv, Onward, Rely, Near, AllEnded, AllInOrder, Kept, Clear, OnlyItem, ItemSound, ItemOnward, Leases.Sound, Leases.HasLease;
      NothingMoved(run, i);
      ok := Read();
      if ok {
        GoodFacts();
        ItemAt(With(w, run), i);
        if !w.sides[i].mounted {
          ok := StartUnmounted(i, w.sides[i]);
        }
      }
    }

    /** The rest of it, once no pod was seen to mount the claim. */
    method StartUnmounted(i: nat, ghost looked: Side) returns (ok: bool)
      requires Good() && !Finished(run) && run.selected && Near(run, w.stored, ending) && i < |run.items| && run.items[i].Volume? && run.items[i].phase == Pending
      requires MayStart(w, run) && looked.Claim? && !looked.mounted
      modifies this`w, this`run, this`failed, this`log
      ensures Good() && MayStart(w, run) && (old(failed) ==> failed) && (!ok ==> failed)
      ensures OnlyItem(old(run), run, i) && i < |run.items|
      ensures ok ==> Near(run, w.stored, ending) && i < |w.sides| && w.sides[i].Claim?
      ensures ok ==> match run.items[i].phase
                     case Running => run.items[i].job && w.sides[i].reachable && w.sides[i].job != NoJob
                     case phase => phase == Phase.Failed && (failed || !w.sides[i].reachable)
    {
      hide Good, Inv, Onward, Rely, Near, AllEnded, AllInOrder, Kept, Clear, OnlyItem, ItemSound, ItemOnward, Leases.Sound, Leases.HasLease;
      NothingMoved(run, i);
      ghost var was := run;
      ok := Read();
      GoodFacts();
      ItemAt(With(w, run), i);
      if !ok || !w.sides[i].reachable {
        Advance(i, Phase.Failed);
        ok := true;
      } else {
        ok := RecordJob(i);
        OnlyItemMeans(was, run, i);
        if ok {
          ghost var recorded := run;
          ok := CreateJob(i, looked);
          OnlyItemTransitive(was, recorded, run, i);
        }
      }
      OnlyItemMeans(was, run, i);
    }

    /** The Job's name goes into the stored status. */
    method RecordJob(i: nat) returns (ok: bool)
      requires Good() && !Finished(run) && run.selected && Near(run, w.stored, ending) && i < |run.items| && run.items[i].Volume? && run.items[i].phase == Pending
      requires MayStart(w, run) && i < |w.sides| && w.sides[i].Claim? && w.sides[i].reachable
      modifies this`w, this`run, this`failed
      ensures Good() && MayStart(w, run) && failed == (old(failed) || !ok)
      ensures OnlyItem(old(run), run, i) && i < |run.items| && run.items[i] == Volume(old(run).items[i].name, Pending, true)
      ensures i < |w.sides| && w.sides[i].Claim? && w.sides[i].reachable && (ok ==> Near(run, w.stored, ending))
    {
      hide Inv, Onward, Rely, Near, AllEnded, AllInOrder, Clear, OnlyItem, Leases.Sound, Leases.HasLease;
      ghost var was := run;
      NothingMoved(run, i);
      ok := true;
      if !run.items[i].job {
        ItemAt(With(w, run), i);
        SetItem(i, Volume(run.items[i].name, Pending, true));
        OneMoved(was, run, i);
        ghost var before := w;
        ok := WriteStatus();
        SideFacts(before.(stored := w.stored), w, i);
        if ok {
          NearItself(run, ending);
        }
      }
    }

    /** The create; a Job of that name that is there counts as created. */
    method CreateJob(i: nat, ghost looked: Side) returns (ok: bool)
      requires Good() && !Finished(run) && run.selected && Near(run, w.stored, ending) && i < |run.items|
      requires run.items[i].Volume? && run.items[i].phase == Pending && run.items[i].job
      requires MayStart(w, run) && looked.Claim? && !looked.mounted && i < |w.sides| && w.sides[i].Claim? && w.sides[i].reachable
      modifies this`w, this`run, this`failed, this`log
      ensures Good() && MayStart(w, run) && failed == (old(failed) || !ok)
      ensures OnlyItem(old(run), run, i) && i < |run.items| && run.items[i] == Moved(old(run).items[i], if ok then Running else Pending)
      ensures ok ==> Near(run, w.stored, ending) && i < |w.sides| && w.sides[i].Claim? && w.sides[i].reachable && w.sides[i].job != NoJob
    {
      hide Good, Inv, Onward, Rely, Near, AllEnded, AllInOrder, Kept, Clear, OnlyItem, ItemSound, ItemOnward, Leases.Sound, Leases.HasLease;
      NothingMoved(run, i);
      ghost var was := run;
      ghost var before := w;
      var fault := Call();
      SideFacts(before, w, i);
      GoodFacts();
      ItemAt(With(w, run), i);
      if !fault.FailsBefore? && w.sides[i].job == NoJob {
        PostJob(i, looked);
      }
      ok := fault.NoFault?;
      if ok {
        Advance(i, Running);
      }
      OnlyItemMeans(was, run, i);
    }

    /** The server creates the Job. */
    method PostJob(i: nat, ghost looked: Side)
      requires Good() && !Finished(run) && run.selected && Near(run, w.stored, ending) && i < |run.items|
      requires run.items[i].Volume? && run.items[i].phase == Pending && run.items[i].job
      requires MayStart(w, run) && looked.Claim? && !looked.mounted
      requires i < |w.sides| && w.sides[i].Claim? && w.sides[i].job == NoJob && w.sides[i].reachable
      modifies this`w, this`log
      ensures Good() && w == old(w).(sides := old(w).sides[i := old(w).sides[i].(job := Active)])
    {
      hide Inv, Onward, Near, AllEnded, Kept, Clear, Leases.Sound, Leases.HasLease;
      NearAt(run, w.stored, i, ending);
      ItemAt(w, i);
      ItemAt(With(w, run), i);
      log := log + [Entry(StartedJob(i, looked), w, ending)];
      NotRipe(began, run, ripe, w.sides, i);
      SetSide(i, w.sides[i].(job := Active));
    }

    /** restoreVolume on a Running item: what its Job says. */
    method FollowJob(i: nat) returns (ok: bool)
      requires Good() && !Finished(run) && Near(run, w.stored, ending) && i < |run.items| && run.items[i].Volume? && run.items[i].phase == Running
      modifies this`w, this`run, this`failed
      ensures Good() && w.stored == old(w.stored) && (MayStart(old(w), run) ==> MayStart(w, run)) && failed == (old(failed) || !ok)
      ensures OnlyItem(old(run), run, i) && i < |run.items|
      ensures ok ==> Near(run, w.stored, ending) && i < |w.sides| && w.sides[i].Claim?
      ensures ok ==> run.items[i] == Moved(old(run).items[i], RestoredPhase(w.sides[i].job))
      ensures ok && i in ripe ==> run.items[i].phase != Running
    {
      hide Good, Inv, Onward, Rely, Near, AllEnded, AllInOrder, Kept, Clear, OnlyItem, ItemSound, ItemOnward, Leases.Sound, Leases.HasLease, VolumesFailed, VolumesSucceeded, NewCluster, OldGone;
      NothingMoved(run, i);
      ghost var was := run;
      ok := Read();
      GoodFacts();
      ItemAt(With(w, run), i);
      if ok {
        var phase := RestoredPhase(w.sides[i].job);
        if phase != Running {
          Advance(i, phase);
        } else {
          EndedIsEnded(ripe, began.items, w.sides, i);
        }
        OnlyItemMeans(was, run, i);
      }
    }

    /** One turn of the loop of work over the volumes. */
    method RestoreVolume(i: nat) returns (ok: bool)
      requires Good() && !Finished(run) && run.selected && Near(run, w.stored, ending) && i < |run.items| && run.items[i].Volume?
      requires run.items[i].phase == Pending ==> MayStart(w, run)
      modifies this`w, this`run, this`failed, this`log, this`held
      ensures Good() && (MayStart(old(w), old(run)) ==> MayStart(w, run)) && (old(failed) ==> failed) && (!ok ==> failed)
      ensures OnlyItem(old(run), run, i) && i < |run.items|
      ensures old(held) <= held
      ensures ok ==> Near(run, w.stored, ending) && VolumeWorked(old(run).items[i], run.items[i], i in ripe, i in held)
    {
      hide Good, Inv, Onward, Rely, Near, AllEnded, AllInOrder, Kept, Clear, OnlyItem, ItemSound, ItemOnward, Leases.Sound, Leases.HasLease;
      NothingMoved(run, i);
      ghost var was := run;
      ok := true;
      if run.items[i].phase == Pending {
        ok := StartJob(i);
        if run.items[i].phase == Pending {
          NoteHeld(i);
        }
      } else if run.items[i].phase == Running {
        ok := FollowJob(i);
      }
      OnlyItemMeans(was, run, i);
    }

    /** The pass saw a pod that mounts the claim. */
    ghost method NoteHeld(i: nat)
      requires Good()
      modifies this`held
      ensures Good() && held == old(held) + {i}
    {
      held := held + {i};
    }

    /** The loop of work over the volumes. */
    method RestoreVolumes() returns (ok: bool)
      requires Good() && !Finished(run) && run.selected && Near(run, w.stored, ending) && (NonePending(run.items) || MayStart(w, run))
      modifies this`w, this`run, this`failed, this`log, this`held
      ensures Good() && (old(failed) ==> failed) && (!ok ==> failed)
      ensures LoopAt(old(run), run, |run.items|, true)
      ensures NonePending(run.items) || MayStart(w, run)
      ensures ok ==> Near(run, w.stored, ending) && VolumesWorked(old(run).items, run.items, ripe, held, |run.items|)
    {
      hide Good, Inv, Onward, Rely, Near, AllEnded, AllInOrder, Kept, Clear, OnlyItem, LoopAt, ItemOnward, NonePending, VolumeWorked, VolumesWorked, Leases.Sound, Leases.HasLease;
      ghost var first, starts := run, !NonePending(run.items);
      ok := true;
      var n := |run.items|;
      LoopStarts(run, true);
      NoneWorked(run.items, ripe, held);
      for i := 0 to n
        invariant Good() && ok && Near(run, w.stored, ending) && (old(failed) ==> failed)
        invariant LoopAt(first, run, i, true) && |first.items| == |run.items| == n
        invariant (starts ==> MayStart(w, run)) && (!starts ==> NonePending(run.items))
        invariant VolumesWorked(first.items, run.items, ripe, held, i)
      {
        LoopMeans(first, run, i, true);
        ghost var was, before := run, held;
        PendingIsPending(run.items, i);
        if run.items[i].Volume? {
          ok := RestoreVolume(i);
        }
        LoopOn(first, was, run, i, true);
        OnlyItemMeans(was, run, i);
        StillNonePending(was, run, i);
        if !ok {
          LoopEnds(first, run, i + 1, true);
          return;
        }
        MoreVolumesWorked(first.items, was, run, ripe, before, held, i);
      }
    }

    /** deleteClusterWithUID: the delete carries the recorded UID, so nothing but the
        old Cluster is deleted, and it is. */
    method DeleteCluster(i: nat) returns (ok: bool)
      requires Good() && !seen && !Finished(run) && Near(run, w.stored, ending) && i < |run.items| && run.items[i].Database? && run.items[i].phase == Deleted
      modifies this`w, this`failed, this`log
      ensures Good() && w.stored == old(w.stored) && OldStays(old(w), w) && (MayStart(old(w), run) ==> MayStart(w, run)) && failed == (old(failed) || !ok)
      ensures ok ==> i < |w.sides| && w.sides[i].Instance? && (OtherCluster(w.sides[i], run.items[i].uid) || w.sides[i].cluster.value.deleting)
    {
      hide Inv, Onward, Rely, Near, AllEnded, VolumesSucceeded, AllRestored, Clear, Leases.Sound, Leases.HasLease;
      NearAt(run, w.stored, i, ending);
      ok := Read();
      RelyMeansOldStays(old(w), w.stored, w);
      ItemAt(w, i);
      if !ok || w.sides[i].cluster.None? {
        return;
      }
      ghost var read := w;
      var fault := Call();
      RelyMeansOldStays(read, w.stored, w);
      ItemAt(w, i);
      ItemAt(With(w, run), i);
      var cluster := w.sides[i].cluster;
      if !fault.FailsBefore? && cluster.Some? && cluster.value.uid == run.items[i].uid {
        DeletedMeansVolumes(w, i);
        DeleteIsDue(w, i);
        log := log + [Entry(DeletedCluster(i), w, ending)];
        SetSide(i, w.sides[i].(cluster := Some(cluster.value.(deleting := true))));
      }
      ok := fault.NoFault?;
    }

    /** restoreDatabase on a Pending item: without a Cluster it fails, and else the
        UID and the phase Deleted are stored and the Cluster is deleted. */
    method StartDatabase(i: nat) returns (ok: bool, shutdown: bool)
      requires Good() && !seen && !Finished(run) && run.selected && Near(run, w.stored, ending) && VolumesSucceeded(run.items) && MayStart(w, run)
      requires i < |run.items| && run.items[i].Database? && run.items[i].phase == Pending
      modifies this`w, this`run, this`failed, this`log, this`sighted
      ensures Good() && OldStays(old(w), w) && MayStart(w, run) && (old(failed) ==> failed) && (!ok ==> failed)
      ensures OnlyItem(old(run), run, i) && i < |run.items|
      ensures ok ==> Near(run, w.stored, ending) && i < |w.sides| && i < |sighted.sides|
      ensures ok ==> Started(old(run).items[i], run.items[i], sighted.sides[i], w.sides[i], shutdown)
      ensures ok && !shutdown ==> run.items[i].uid == ""
    {
      hide Good, Inv, Onward, Rely, Near, AllEnded, AllInOrder, Kept, Clear, OnlyItem, ItemSound, ItemOnward, OldStays, Leases.Sound, Leases.HasLease, VolumesFailed, VolumesSucceeded, NewCluster, OtherCluster;
      NothingMoved(run, i);
      ghost var was := run;
      shutdown := false;
      ok := Read();
      RelyMeansOldStays(old(w), w.stored, w);
      if ok {
        GoodFacts();
        ClusterFacts(With(w, run), i);
        Judge();
        if w.sides[i].cluster.None? {
          Advance(i, Phase.Failed);
        } else {
          shutdown := true;
          ok := RecordDeleted(i);
          OldStaysOn(old(w), sighted, w);
          OnlyItemMeans(was, run, i);
          if ok {
            ghost var before := w;
            ok := DeleteCluster(i);
            OldStaysOn(old(w), before, w);
          }
        }
        OnlyItemMeans(was, run, i);
      }
    }

    /** The UID and the phase Deleted go into the stored status. */
    method RecordDeleted(i: nat) returns (ok: bool)
      requires Good() && !Finished(run) && run.selected && VolumesSucceeded(run.items) && MayStart(w, run)
      requires i < |run.items| && run.items[i].Database? && run.items[i].phase == Pending
      requires i < |w.sides| && w.sides[i].Instance? && w.sides[i].cluster.Some?
      modifies this`w, this`run, this`failed
      ensures Good() && OldStays(old(w), w) && MayStart(w, run) && failed == (old(failed) || !ok)
      ensures OnlyItem(old(run), run, i) && i < |run.items|
      ensures run.items[i] == Database(old(run).items[i].name, Deleted, old(w).sides[i].cluster.value.uid, false)
      ensures ok ==> Near(run, w.stored, ending)
    {
      hide Inv, Onward, Rely, Near, AllEnded, AllInOrder, Clear, OnlyItem, OldStays, VolumesSucceeded, Leases.Sound, Leases.HasLease;
      ghost var was := run;
      ItemAt(With(w, run), i);
      SetItem(i, Database(run.items[i].name, Deleted, w.sides[i].cluster.value.uid, false));
      OneMoved(was, run, i);
      ghost var before := w;
      ok := WriteStatus();
      RelyMeansOldStays(before, w.stored, w);
      if ok {
        NearItself(run, ending);
      }
    }

    /** restoreDatabase on a Deleted item: it waits for the old Cluster, deletes it
        again if need be, and judges a new one. */
    method AwaitDatabase(i: nat) returns (ok: bool, shutdown: bool)
      requires Good() && !seen && !Finished(run) && Near(run, w.stored, ending) && i < |run.items| && run.items[i].Database? && run.items[i].phase == Deleted
      modifies this`w, this`run, this`failed, this`log, this`sighted
      ensures Good() && OldStays(old(w), w) && (MayStart(old(w), run) ==> MayStart(w, run)) && (old(failed) ==> failed) && (!ok ==> failed)
      ensures OnlyItem(old(run), run, i) && i < |run.items|
      ensures ok ==> Near(run, w.stored, ending) && i < |w.sides| && i < |sighted.sides|
      ensures ok ==> Awaited(old(run).items[i], run.items[i], sighted.sides[i], w.sides[i], shutdown)
      ensures ok && !shutdown ==> OldGone(w.sides[i], run.items[i].uid)
    {
      hide Good, Inv, Onward, Rely, Near, AllEnded, AllInOrder, Kept, Clear, OnlyItem, ItemSound, ItemOnward, OldStays, OldGone, OtherCluster, Leases.Sound, Leases.HasLease, VolumesFailed, VolumesSucceeded;
      NothingMoved(run, i);
      ghost var was := run;
      shutdown := false;
      ok := Read();
      RelyMeansOldStays(old(w), w.stored, w);
      if ok {
        GoodFacts();
        ClusterFacts(With(w, run), i);
        Judge();
        if w.sides[i].cluster.Some? {
          ok, shutdown := JudgeCluster(i);
        } else {
          ok, shutdown := InstanceLeft(i);
        }
        OldStaysOn(old(w), sighted, w);
        OnlyItemMeans(was, run, i);
      }
    }

    /** The old Cluster is still there, or a new one is. */
    method JudgeCluster(i: nat) returns (ok: bool, shutdown: bool)
      requires Good() && !seen && !Finished(run) && Near(run, w.stored, ending) && i < |run.items| && run.items[i].Database? && run.items[i].phase == Deleted
      requires i < |w.sides| && w.sides[i].Instance? && w.sides[i].cluster.Some?
      modifies this`w, this`run, this`failed, this`log
      ensures Good() && OldStays(old(w), w) && (MayStart(old(w), old(run)) ==> MayStart(w, run)) && (old(failed) ==> failed) && (!ok ==> failed)
      ensures OnlyItem(old(run), run, i) && i < |run.items| && i < |w.sides| && w.sides[i].Instance?
      ensures ok ==> Near(run, w.stored, ending) && Awaited(old(run).items[i], run.items[i], old(w).sides[i], w.sides[i], shutdown)
      ensures ok && !shutdown ==> OldGone(w.sides[i], run.items[i].uid)
    {
      hide Good, Inv, Onward, Rely, Near, AllEnded, AllInOrder, Kept, Clear, OnlyItem, ItemSound, ItemOnward, OldStays, OldGone, OtherCluster, VolumesFailed, Leases.Sound, Leases.HasLease;
      NothingMoved(run, i);
      OldStaysItself(w);
      GoodFacts();
      ClusterFacts(With(w, run), i);
      ghost var was := run;
      ok := true;
      var cluster := w.sides[i].cluster.value;
      shutdown := cluster.uid == run.items[i].uid;
      if !shutdown {
        Advance(i, if cluster.mine then Recovering else Phase.Failed);
      } else if !cluster.deleting {
        ok := DeleteCluster(i);
        GoodFacts();
        ClusterFacts(With(w, run), i);
      }
      OnlyItemMeans(was, run, i);
    }

    /** A pod or a claim of the Cluster's instances that is still there. */
    method InstanceLeft(i: nat) returns (ok: bool, left: bool)
      requires Good() && i < |run.items| && run.items[i].Database? && i < |w.sides| && w.sides[i].Instance? && w.sides[i].cluster.None?
      requires run.items[i].uid in w.used
      modifies this`w, this`failed
      ensures Good() && w.stored == old(w.stored) && OldStays(old(w), w) && (MayStart(old(w), run) ==> MayStart(w, run)) && failed == (old(failed) || !ok)
      ensures i < |w.sides| && w.sides[i].Instance? && left == w.sides[i].left.Some? && (!left ==> OldGone(w.sides[i], run.items[i].uid))
    {
      hide Good, Inv, Onward, Rely, OldStays, OldGone, Clear;
      ok := Read();
      RelyMeansOldStays(old(w), w.stored, w);
      NoneStaysOther(old(w), w, i, run.items[i].uid);
      left := w.sides[i].left.Some?;
    }

    /** restoreDatabase on a Recovering item. */
    method FollowDatabase(i: nat) returns (ok: bool)
      requires Good() && !Finished(run) && Near(run, w.stored, ending) && i < |run.items| && run.items[i].Database? && run.items[i].phase == Recovering
      modifies this`w, this`run, this`failed
      ensures Good() && OldStays(old(w), w) && (MayStart(old(w), run) ==> MayStart(w, run)) && failed == (old(failed) || !ok)
      ensures OnlyItem(old(run), run, i) && i < |run.items|
      ensures ok ==> Near(run, w.stored, ending) && i < |w.sides| && w.sides[i].Instance?
      ensures ok ==> run.items[i] == Moved(old(run).items[i], RecoveredPhase(w.sides[i].cluster)) && OldGone(w.sides[i], run.items[i].uid)
    {
      hide Good, Inv, Onward, Rely, Near, AllEnded, AllInOrder, Kept, Clear, OnlyItem, ItemSound, ItemOnward, OldStays, OldGone, Leases.Sound, Leases.HasLease, VolumesFailed, VolumesSucceeded, NewCluster, OtherCluster;
      NothingMoved(run, i);
      ghost var was := run;
      ok := Read();
      RelyMeansOldStays(old(w), w.stored, w);
      if ok {
        GoodFacts();
        ClusterFacts(With(w, run), i);
        var phase := RecoveredPhase(w.sides[i].cluster);
        if phase != Recovering {
          Advance(i, phase);
        }
        OnlyItemMeans(was, run, i);
      }
    }

    /** One turn of the loop of work over the Clusters. */
    method RestoreDatabase(i: nat) returns (ok: bool, shutdown: bool)
      requires Good() && !seen && !Finished(run) && run.selected && Near(run, w.stored, ending) && VolumesDone(run.items)
      requires i < |run.items| && run.items[i].Database? && (NonePending(run.items) || MayStart(w, run))
      modifies this`w, this`run, this`failed, this`log, this`sighted
      ensures Good() && OldStays(old(w), w) && (MayStart(old(w), run) ==> MayStart(w, run)) && (old(failed) ==> failed) && (!ok ==> failed)
      ensures OnlyItem(old(run), run, i) && i < |run.items|
      ensures ok ==> Near(run, w.stored, ending)
      ensures run.items[i].Database? && (ok ==> DatabaseWorked(old(run).items[i], run.items[i], VolumesFailed(old(run).items)))
      ensures ok && shutdown ==> run.items[i].phase == Deleted
      ensures ok && !shutdown ==> run.items[i].uid == "" || run.items[i].aborted || OldGone(w.sides[i], run.items[i].uid)
    {
      hide Good, Inv, Onward, Rely, Near, AllEnded, AllInOrder, Kept, Clear, OnlyItem, ItemSound, ItemOnward, OldStays, OldGone, VolumesDone, VolumesSucceeded, VolumesFailed, Leases.Sound, Leases.HasLease;
      NothingMoved(run, i);
      OldStaysItself(w);
      GoodFacts();
      ItemAt(With(w, run), i);
      if run.items[i].phase != Deleted { DoneIsGone(With(w, run), i); }
      ghost var was := run;
      ok, shutdown := true, false;
      match run.items[i].phase {
        case Pending =>
          if VolumesFailed(run.items) {
            Advance(i, Skipped);
          } else {
            DoneMeansSucceeded(With(w, run));
            ok, shutdown := StartDatabase(i);
          }
        case Deleted => ok, shutdown := AwaitDatabase(i);
        case Recovering => ok := FollowDatabase(i);
        case _ =>
      }
      OnlyItemMeans(was, run, i);
    }

    /** The loop of work over the Clusters. */
    method RestoreDatabases() returns (ok: bool, shutdown: bool)
      requires Good() && !seen && !Finished(run) && run.selected && Near(run, w.stored, ending) && VolumesDone(run.items)
      requires NonePending(run.items) || MayStart(w, run)
      modifies this`w, this`run, this`failed, this`log, this`sighted
      ensures Good() && (old(failed) ==> failed) && (!ok ==> failed)
      ensures LoopAt(old(run), run, |run.items|, false)
      ensures ok ==> Near(run, w.stored, ending) && VolumesDone(run.items) && DatabasesWorked(old(run).items, run.items, |run.items|)
      ensures ok && shutdown ==> SomeDeleted(run.items, |run.items|)
      ensures ok && !shutdown ==> OldGoneUpTo(w, run.items, |run.items|)
    {
      hide Good, Inv, Onward, Rely, Near, OldGone, OldStays, AllEnded, AllInOrder, Kept, Clear, OnlyItem, LoopAt, NonePending, VolumesDone, VolumesFailed, OldGoneUpTo, DatabaseWorked, DatabasesWorked, SomeDeleted, ItemOnward, Leases.Sound, Leases.HasLease;
      ghost var first, starts := run, !NonePending(run.items);
      ok, shutdown := true, false;
      var n := |run.items|;
      GoodFacts();
      PauseFacts(With(w, run));
      LoopStarts(run, false);
      NoneSoFar(w, run.items);
      NoneWorked(run.items, ripe, held);
      for i := 0 to n
        invariant Good() && ok && Near(run, w.stored, ending) && VolumesDone(run.items) && (old(failed) ==> failed)
        invariant LoopAt(first, run, i, false) && |first.items| == |run.items| == n
        invariant (starts ==> MayStart(w, run)) && (!starts ==> NonePending(run.items))
        invariant DatabasesWorked(first.items, run.items, i)
        invariant if shutdown then SomeDeleted(run.items, i) else OldGoneUpTo(w, run.items, i)
      {
        LoopMeans(first, run, i, false);
        ghost var before, was := w, run;
        GoodFacts();
        UIDsAreUsed(With(w, run));
        OldStaysItself(w);
        var now := false;
        if run.items[i].Database? {
          ok, now := RestoreDatabase(i);
        }
        LoopOn(first, was, run, i, false);
        OnlyItemMeans(was, run, i);
        StillNonePending(was, run, i);
        if !ok {
          LoopEnds(first, run, i + 1, false);
          return;
        }
        if was.items[i].Database? { OneDatabaseChanged(was, run, i); }
        MoreDatabasesWorked(first.items, was, run, i);
        StillDeleted(was, run, i, now);
        if !shutdown && !now { OldGoneStays(before, w, was, run, i); }
        shutdown := shutdown || now;
      }
    }

    // -------------------------------------------------------------- the end

    /** resume: the moment is stored before anything is scaled. */
    method Resume() returns (ok: bool)
      requires Good() && Near(run, w.stored, ending) && run.paused.Some? && run.selected
      requires w.finalizing || (NonePending(run.items) && DeletedGone(With(w, run)))
      requires if ending then JobsGone(w.sides) else AllOldGone(w, w.stored)
      modifies this`w, this`run, this`failed, this`log
      ensures Good()
      ensures ok ==> Near(run, w.stored, ending) && w.changed == {} && run == old(run).(resumed := true, marked := true) && w.stored.resumed
      ensures old(JobsGone(w.sides)) ==> JobsGone(w.sides)
      ensures failed == (old(failed) || !ok)
    {
      hide Inv, Onward, Rely, AllEnded, AllOldGone, DeletedGone, JobsGone, Leases.Sound, Leases.HasLease, AllInOrder;
      if !run.resumed {
        ResumeKeepsInv(With(w, run));
        FlagsOnward(began, run, run.(resumed := true));
        run := run.(resumed := true);
        ghost var before := w;
        ok := WriteStatus();
        StoredRelyFacts(before, w);
        if !ok {
          return;
        }
        if !ending {
          StoredOldGone(before, w, run);
        }
        NearItself(run, ending);
      }
      ghost var was := run;
      ok := GiveBack();
      if ok {
        MarkedNear(was, w.stored, ending);
      }
    }

    /** The first loop of release: a Job that failed on its own stays. */
    method DeleteJobs() returns (ok: bool)
      requires Good() && !Finished(run) && Near(run, w.stored, ending)
      modifies this`w, this`failed
      ensures Good() && w.finalizing == old(w.finalizing) && w.stored == old(w.stored)
      ensures ok ==> forall j :: 0 <= j < |w.sides| && w.sides[j].Claim? ==> w.sides[j].job == NoJob || w.sides[j].job == Broken
      ensures failed == (old(failed) || !ok)
    {
      hide Inv, Onward, Rely, Near, AllEnded, Clear, Leases.Sound, Leases.HasLease;
      PauseFacts(With(w, run));
      for i := 0 to |run.items|
        invariant Good() && w.finalizing == old(w.finalizing) && w.stored == old(w.stored)
        invariant failed == old(failed) && |w.sides| == |run.items|
        invariant forall j :: 0 <= j < i && w.sides[j].Claim? ==> w.sides[j].job == NoJob || w.sides[j].job == Broken
      {
        ItemAt(With(w, run), i);
        if run.items[i].Volume? && run.items[i].job {
          ghost var before := w;
          ok := DeleteJob(i);
          if !ok {
            return;
          }
        }
      }
      ok := true;
    }

    method DeleteJob(i: nat) returns (ok: bool)
      requires Good() && !Finished(run) && Near(run, w.stored, ending) && i < |run.items| && run.items[i].Volume? && run.items[i].job
      modifies this`w, this`failed
      ensures Good() && w.finalizing == old(w.finalizing) && w.stored == old(w.stored) && |w.sides| == |old(w.sides)|
      ensures forall j :: 0 <= j < |w.sides| && w.sides[j].Claim? && j != i ==>
                old(w.sides[j].Claim? && (w.sides[j].job == NoJob || w.sides[j].job == Broken)) ==> w.sides[j].job == NoJob || w.sides[j].job == Broken
      ensures forall j :: 0 <= j < |w.sides| ==> w.sides[j].Claim? == old(w.sides[j].Claim?)
      ensures ok ==> i < |w.sides| && w.sides[i].Claim? && (w.sides[i].job == NoJob || w.sides[i].job == Broken)
      ensures failed == (old(failed) || !ok)
    {
      hide Inv, Onward, Near, AllEnded, Clear, Leases.Sound, Leases.HasLease;
      NearAt(run, w.stored, i, ending);
      ghost var first := w;
      ok := Read();
      JobsStay(first, w);
      if !ok {
        return;
      }
      ItemAt(With(w, run), i);
      if w.sides[i].job == NoJob || w.sides[i].job == Broken {
        return;
      }
      ghost var read := w;
      var fault := Call();
      JobsStay(read, w);
      ItemAt(w, i);
      ItemAt(With(w, run), i);
      if !fault.FailsBefore? {
        SetSide(i, w.sides[i].(job := NoJob));
      }
      ok := fault.NoFault?;
    }

    /** The second loop of release: a pod that is still stopping is an error. */
    method JobPodsGone() returns (ok: bool)
      requires Good() && forall j :: 0 <= j < |w.sides| && w.sides[j].Claim? ==> w.sides[j].job == NoJob || w.sides[j].job == Broken
      modifies this`w, this`failed
      ensures Good() && w.finalizing == old(w.finalizing) && w.stored == old(w.stored)
      ensures ok ==> JobsGone(w.sides)
      ensures failed == (old(failed) || !ok)
    {
      hide Inv, Onward, Rely, AllEnded, Clear, Leases.Sound, Leases.HasLease;
      PauseFacts(With(w, run));
      for i := 0 to |run.items|
        invariant Good() && w.finalizing == old(w.finalizing) && w.stored == old(w.stored)
        invariant failed == old(failed) && |w.sides| == |run.items|
        invariant forall j :: 0 <= j < |w.sides| && w.sides[j].Claim? ==> w.sides[j].job == NoJob || w.sides[j].job == Broken
        invariant forall j :: 0 <= j < i && w.sides[j].Claim? ==> JobGone(w.sides[j])
      {
        ItemAt(With(w, run), i);
        if run.items[i].Volume? && run.items[i].job {
          ghost var before := w;
          ok := Read();
          JobsStay(before, w);
          GoneStay(before, w);
          if !ok {
            return;
          }
          if w.sides[i].pod {
            failed := true;
            return false;
          }
        }
      }
      ok := true;
    }

    /** release: the Jobs stop first, then the app comes back, then the Leases
        go. */
    method Release() returns (ok: bool)
      requires Good() && Leases.Ready(leases) && !Finished(run) && Near(run, w.stored, ending)
      requires run.paused.Some? && !run.marked ==> ending && (Done(run.items) || w.finalizing)
      modifies this`w, this`run, this`failed, this`log, leases
      ensures Good()
      ensures ok ==> w.changed == {} && !Leases.HasLease(leases) && JobsGone(w.sides) && run.outcome == old(run).outcome && run.items == old(run).items
      ensures failed == (old(failed) || !ok)
    {
      hide Inv, Onward, Rely, Near, AllEnded, JobsGone, AllOldGone, DeletedGone, Done, Leases.Sound, Leases.HasLease, AllInOrder;
      NearFlags(run, w.stored, ending);
      ok := DeleteJobs();
      if !ok {
        return;
      }
      ok := JobPodsGone();
      if !ok {
        return;
      }
      PauseFacts(With(w, run));
      if run.paused.Some? && !run.marked {
        if Done(run.items) { DoneMeansGone(With(w, run)); }
        ok := Resume();
        if !ok {
          return;
        }
      }
      ok := ReleaseLeases();
    }

    method ReleaseLeases() returns (ok: bool)
      requires Good() && JobsGone(w.sides) && w.changed == {} && Leases.Ready(leases)
      modifies this`w, this`failed, leases
      ensures Good() && w.changed == {} && JobsGone(w.sides)
      ensures ok ==> !Leases.HasLease(leases)
      ensures failed == (old(failed) || !ok)
    {
      hide Inv, Onward, Rely, AllEnded, JobsGone, AllOldGone;
      ok := Leases.ReleaseLeases(leases);
      if !ok {
        failed := true;
        return;
      }
      ghost var before := w;
      ok := Read();
      RelyFacts(before, w);
    }

    /** finish: everything is given back before the terminal phase is written. */
    method Finish(e: Ending)
      requires Good() && Leases.Ready(leases) && !Finished(run) && Near(run, w.stored, ending)
      requires EndsRight(run.items, e) && (e == Aborted ==> ending && !seen)
      requires run.paused.Some? && !run.marked ==> ending
      modifies this`w, this`run, this`failed, this`log, leases
      ensures Good() && (old(failed) ==> failed)
      ensures !failed ==> w.stored.outcome == Some(e) && w.stored.items == old(run).items
    {
      hide Inv, Onward, Rely, Near, AllEnded, JobsGone, Leases.Sound, Leases.HasLease, AllInOrder;
      var ok := Release();
      if !ok {
        return;
      }
      FinishKeepsInv(With(w, run), e);
      FlagsOnward(began, run, run.(outcome := Some(e)));
      run := run.(outcome := Some(e));
      ok := WriteStatus();
      if ok {
        ok := Read();
      }
    }

    /** abort: every item that has not ended fails, and the run ends. */
    method Abort()
      requires Good() && !seen && Leases.Ready(leases) && !Finished(run) && Near(run, w.stored, ending)
      modifies this`w, this`run, this`failed, this`log, leases, this`ending
      ensures Good() && (old(failed) ==> failed) && ending
      ensures !failed ==> w.stored.outcome == Some(Aborted)
    {
      hide Inv, Onward, Rely, Near, AllEnded, Leases.Sound, Leases.HasLease, Leases.Ready, AllInOrder, ItemSound, Cause;
      if !ending {
        EndingNear(run, w.stored);
      }
      AbortedKeepsInv(w);
      AbortedKeepsInv(With(w, run));
      w, ending := w.(aborted := true), true;
      for i := 0 to |run.items|
        invariant Leases.Ready(leases)
        invariant Good() && run == old(run).(items := run.items) && |run.items| == |old(run).items| && ending && w.stored == old(w.stored)
        invariant failed == old(failed) && Near(run, w.stored, ending)
        invariant forall j :: 0 <= j < i ==> Rank(run.items[j].phase) == 0
      {
        if Rank(run.items[i].phase) > 0 {
          ghost var was := run;
          NearAt(run, w.stored, i, ending);
          Fail(i);
          OneItemNear(was, w.stored, i, run.items[i], ending);
        }
      }
      Finish(Aborted);
    }

    /** finalize. */
    method Finalize() returns (gone: bool)
      requires Good() && Leases.Ready(leases) && seen && w.deleting && run == w.stored && !Finished(run)
      modifies this`w, this`run, this`failed, this`log, leases, this`ending
      ensures Good()
      ensures gone ==> w.changed == {} && !Leases.HasLease(leases) && JobsGone(w.sides)
      ensures !failed ==> gone
    {
      hide Inv, Onward, Rely, AllEnded, JobsGone, Leases.Sound, Leases.HasLease, AllInOrder;
      FinalizingKeepsInv(w);
      w := w.(finalizing := true);
      ending := true;
      assert With(w, run) == w;
      NearItself(run, ending);
      gone := Release();
      if !gone {
        return;
      }
      PauseFacts(With(w, run));
      if run.paused.Some? {
        ghost var before := w;
        gone := WriteStatus();
        if !gone {
          return;
        }
        StoredRelyFacts(before, w);
      }
      ghost var before := w;
      gone := Read();
      RelyFacts(before, w);
    }

    // ------------------------------------------------------------- the pass

    /** selectBackups and what follows from it: it reads only. `lost` holds the
        Pending items that have no backup; module Selection says which. Where there
        is one the run ends, and else the selection is stored. */
    method Select(lost: set<nat>) returns (wait: Wait)
      requires Good() && Leases.Ready(leases) && run == w.stored && !Finished(run) && !run.selected && !ending
      modifies this`w, this`run, this`failed, this`log, leases
      ensures Good() && (old(failed) ==> failed)
      ensures !failed ==> SelectionHolds(old(run), lost, wait)
    {
      hide Inv, Onward, Rely, AllEnded, Leases.Sound, Leases.HasLease, AllInOrder;
      wait := JustSelected;
      var ok := Read();
      if !ok {
        return;
      }
      if AnyLost(run.items, lost) {
        EndSelection(lost);
        return RunEnded;
      }
      SelectKeepsInv(With(w, run));
      FlagsOnward(began, run, run.(selected := true));
      run := run.(selected := true);
      ok := WriteStatus();
    }

    ghost predicate SelectionHolds(was: Status, lost: set<nat>, wait: Wait)
      reads this
    {
      if AnyLost(was.items, lost) then
        && wait == RunEnded && w.stored.outcome == Some(SomeFailed) && |w.stored.items| == |was.items|
        && forall i :: 0 <= i < |was.items| ==> w.stored.items[i] == SelectionEnds(was.items[i], i in lost)
      else wait == JustSelected && w.stored == was.(selected := true)
    }

    method EndSelection(lost: set<nat>)
      requires Good() && Leases.Ready(leases) && run == w.stored && !Finished(run) && !run.selected && !ending && AnyLost(run.items, lost)
      modifies this`w, this`run, this`failed, this`log, leases
      ensures Good() && (old(failed) ==> failed)
      ensures !failed ==> SelectionHolds(old(run), lost, RunEnded)
    {
      hide Good, Inv, Onward, Near, OnlyItem, SelectionEnds, Done, NoneFailed, Leases.Sound, Leases.HasLease;
      ghost var first := run;
      var n := |run.items|;
      NearItself(run, ending);
      for i := 0 to n
        invariant Good() && Leases.Ready(leases) && |run.items| == n && run == first.(items := run.items) && w == old(w) && failed == old(failed)
        invariant Near(run, w.stored, ending)
        invariant forall j :: 0 <= j < i ==> run.items[j] == SelectionEnds(first.items[j], j in lost)
        invariant forall j :: i <= j < n ==> run.items[j] == first.items[j]
      {
        EndItem(i, i in lost);
      }
      GoodFacts();
      PauseFacts(With(w, run));
      LostMeansFailed(first.items, run.items, lost);
      UnselectedIsDone(With(w, run));
      Finish(SomeFailed);
    }

    /** What becomes of one item of a run that ends after its selection. */
    method EndItem(i: nat, lost: bool)
      requires Good() && !Finished(run) && !run.selected && !ending && Near(run, w.stored, ending) && i < |run.items|
      modifies this`run
      ensures Good() && Near(run, w.stored, ending)
      ensures run == old(run).(items := old(run).items[i := SelectionEnds(old(run).items[i], lost)])
    {
      hide Inv, Onward, AllEnded, AllInOrder, Kept, Clear, Near, Leases.Sound, Leases.HasLease;
      if run.items[i].phase == Pending {
        ghost var was := run;
        NearAt(run, w.stored, i, ending);
        ItemAt(With(w, run), i);
        SetItem(i, SelectionEnds(run.items[i], lost));
        OneItemNear(was, w.stored, i, run.items[i], ending);
      }
    }

    /** pausePlan: the listed workloads, and once each the Kustomizations that still
        apply them. */
    method PausePlan() returns (ok: bool, plan: Plan)
      requires Good() && run == w.stored
      modifies this`w, this`failed
      ensures Good() && w.stored == run && failed == (old(failed) || !ok)
      ensures ok ==> Plans(w.spec, plan)
    {
      hide Inv, Onward, Rely, AllEnded, Clear, Leases.Sound, Leases.HasLease;
      var listed, suspend := w.spec.listed, [];
      for i := 0 to |listed|
        invariant Good() && w.stored == run && failed == old(failed)
        invariant forall j :: 0 <= j < i && listed[j] in w.spec.flux ==> w.spec.flux[listed[j]] in suspend
        invariant forall k :: k in suspend ==> exists x :: x in listed && x in w.spec.flux && w.spec.flux[x] == k
        invariant forall a, b :: 0 <= a < b < |suspend| ==> suspend[a] != suspend[b]
      {
        ok := Read();
        if !ok {
          return false, Plan([], []);
        }
        if listed[i] in w.spec.flux && w.spec.flux[listed[i]] !in suspend {
          suspend := suspend + [w.spec.flux[listed[i]]];
        }
      }
      ok, plan := true, Plan(listed, suspend);
    }

    /** pause: the plan is stored before anything is stopped. A workload that the
        namespace does not hold ends the run. */
    method Pause() returns (wait: Wait)
      requires Good() && !seen && Leases.Ready(leases) && run == w.stored && !Finished(run) && run.selected && run.paused.None? && w.spec.listed != []
      requires !refused
      modifies this`refused, this`w, this`run, this`failed, this`log, leases, this`ending
      ensures Good() && (refused ==> ending) && (old(failed) ==> failed)
      ensures !failed ==> if wait == Refused then Missing(spec) && w.stored.outcome == Some(Aborted)
                          else wait == JustPaused && !Missing(spec) && w.stored.paused.Some? && Applied(w, w.stored.paused.value)
    {
      hide Inv, Onward, Rely, AllEnded, Clear, Plans, Leases.Sound, Leases.HasLease, AllInOrder;
      wait := JustPaused;
      var ok := Read();
      NearItself(run, ending);
      if !ok {
        return;
      }
      if Missing(w.spec) {
        Abort();
        return Refused;
      }
      var plan: Plan;
      ok, plan := PausePlan();
      if !ok {
        return;
      }
      PauseFacts(w);
      PauseKeepsInv(With(w, run), plan);
      FlagsOnward(began, run, run.(paused := Some(plan)));
      run := run.(paused := Some(plan));
      ok := WriteStatus();
      if !ok {
        return;
      }
      ok := ApplyPause();
      if !ok {
        NearItself(run, ending);
        Abort();
      }
    }

    /** Steps 3 and 4 of work, on a run that stored its pause: with yes, the items
        may start. With no, a pod of the app is left. */
    method AppIsDown() returns (down: bool)
      requires Good() && Leases.Ready(leases) && !seen && run == w.stored && !Finished(run) && run.paused.Some?
      requires !refused
      modifies this`refused, this`w, this`run, this`failed, this`log, leases, this`ending, this`sighted
      ensures Good() && (refused ==> ending) && (old(failed) ==> failed)
      ensures down ==> Leases.Ready(leases) && run == w.stored && run == old(run) && ending == old(ending) && (NonePending(run.items) || MayStart(w, run))
      ensures !down ==> failed || PodsLeft(sighted, old(run).paused.value)
    {
      hide Inv, Onward, Rely, AllEnded, NonePending, Plans, Leases.Sound, Leases.HasLease, AllInOrder;
      PauseFacts(w);
      if NonePending(run.items) {
        return true;
      }
      var ok := ApplyPause();
      if !ok {
        NearItself(run, ending);
        Abort();
        return false;
      }
      down := PausedPodsGone();
      if !down {
        sighted := w;
        var _ := WriteStatus();
      }
    }

    /** pausedPodsGone. */
    method PausedPodsGone() returns (gone: bool)
      requires Good() && run == w.stored && !Finished(run) && run.paused.Some? && !run.resumed && Applied(w, run.paused.value)
      modifies this`w, this`failed
      ensures Good() && w.stored == run && (old(failed) ==> failed)
      ensures gone ==> MayStart(w, run)
      ensures !gone ==> failed || PodsLeft(w, run.paused.value)
    {
      hide Inv, Onward, Rely, AllEnded, Plans, Leases.Sound, Leases.HasLease, AllInOrder;
      var plan := run.paused.value;
      for i := 0 to |plan.workloads|
        invariant Good() && w.stored == run && (old(failed) ==> failed) && Applied(w, plan)
        invariant forall j :: 0 <= j < i ==> plan.workloads[j] !in w.pods
      {
        PauseFacts(w);
        AppliedIsHeld(w, plan);
        ghost var before := w;
        var ok := Read();
        SameStored(before, w);
        AppliedStays(before, w, plan);
        AppFacts(before, w);
        if !ok || plan.workloads[i] in w.pods {
          return false;
        }
      }
      AppliedIsDown(w, plan);
      gone := true;
    }

    /** work. `over` says that Kueue evicted the run or that its deadline has
        passed. */
    method Work(over: bool, lost: set<nat>) returns (wait: Wait)
      requires Good() && Leases.Ready(leases) && Leases.AtStart(leases) && !ending && !seen && run == w.stored && run == began && !Finished(run)
      requires !refused
      modifies this`refused, this`w, this`run, this`failed, this`log, leases, this`ending, this`sighted, this`held
      ensures Good() && (refused ==> ending)
      ensures over && !failed ==> w.stored.outcome == Some(Aborted)
      ensures !over && !failed ==> Waited(wait, lost)
    {
      hide Inv, Onward, Rely, AllEnded, Clear, NonePending, WorkedThrough, Leases.Sound, Leases.HasLease, AllInOrder, PodsLeft, Applied, Missing;
      NearItself(run, ending);
      if over {
        Abort();
        return RunEnded;
      }
      var got := Hold();
      if !got {
        var _ := WriteStatus();
        return ForLease;
      }
      if !run.selected {
        wait := Select(lost);
      } else {
        wait := StopAndRestore();
      }
    }

    /** work after the selection. */
    method StopAndRestore() returns (wait: Wait)
      requires Good() && Leases.Ready(leases) && !ending && !seen && run == w.stored && run == began && !Finished(run) && run.selected
      requires !refused
      modifies this`refused, this`w, this`run, this`failed, this`log, leases, this`ending, this`sighted, this`held
      ensures Good() && (refused ==> ending) && (old(failed) ==> failed)
      ensures !failed ==> wait != ForLease && wait != JustSelected && Waited(wait, {})
    {
      hide Inv, Onward, Rely, AllEnded, Clear, NonePending, WorkedThrough, AllInOrder, PodsLeft, Applied, Missing, SelectionHolds, Leases.Sound, Leases.HasLease;
      if w.spec.listed != [] && run.paused.None? {
        wait := Pause();
        return;
      }
      PauseFacts(w);
      if run.paused.Some? {
        var down := AppIsDown();
        if !down {
          return ForPods;
        }
      } else {
        UnpausedMayStart(w, run);
      }
      NearItself(run, ending);
      wait := RestoreItems();
    }

    /** Why a pass in which every call went through ended, and what it got done. */
    ghost predicate Waited(wait: Wait, lost: set<nat>)
      reads this, leases
    {
      match wait
      case ForLease => Leases.Stopped(leases)
      case JustSelected => !began.selected && SelectionHolds(began, lost, wait)
      case Refused => Missing(spec) && w.stored.outcome == Some(Aborted)
      case JustPaused => !Missing(spec) && w.stored.paused.Some? && Applied(w, w.stored.paused.value)
      case ForPods => began.paused.Some? && PodsLeft(sighted, began.paused.value)
      case RunEnded =>
        if began.selected then Finished(w.stored) && w.stored.outcome.value != Aborted
        else AnyLost(began.items, lost) && SelectionHolds(began, lost, wait)
      case Working => !Finished(w.stored) && WorkedThrough(began, w.stored, ripe, held)
    }

    /** Steps 5 to 7 of work. */
    method RestoreItems() returns (wait: Wait)
      requires Good() && Leases.Ready(leases) && !ending && !seen && !Finished(run) && run.selected && Near(run, w.stored, ending) && run == began
      requires NonePending(run.items) || MayStart(w, run)
      modifies this`w, this`run, this`failed, this`log, leases, this`sighted, this`held
      ensures Good() && (old(failed) ==> failed)
      ensures !failed ==> if wait == RunEnded then Finished(w.stored) && w.stored.outcome.value != Aborted
                          else wait == Working && !Finished(w.stored) && WorkedThrough(began, w.stored, ripe, held)
    {
      hide Good, Inv, Onward, Rely, Near, AllEnded, AllInOrder, Kept, Clear, OldGoneUpTo, LoopAt, VolumesDone, AllOldGone, DeletedGone, NoneDeleted, NonePending, Done, VolumesWorked, DatabasesWorked, SomeDeleted, Leases.Sound, Leases.HasLease;
      wait := Working;
      var ok := RestoreVolumes();
      LoopMeans(began, run, |run.items|, true);
      if ok {
        ghost var volumes := run;
        GoodFacts();
        var done, shutdown := VolumesDone(run.items), false;
        if done {
          ok, shutdown := RestoreDatabases();
          LoopMeans(volumes, run, |run.items|, false);
          GoodFacts();
          if ok {
            BothWorked(began, volumes, run, ripe, held);
            if shutdown { SomeMeansNotNone(run.items, |run.items|); }
          }
        }
        if ok {
          wait := ResumeAndEnd(done, shutdown);
        }
      }
    }

    /** Step 7, and the end of the run. */
    method ResumeAndEnd(done: bool, shutdown: bool) returns (wait: Wait)
      requires Good() && Leases.Ready(leases) && !ending && !seen && !Finished(run) && run.selected && Near(run, w.stored, ending)
      requires done == VolumesDone(run.items) && (done && shutdown ==> !NoneDeleted(run.items))
      requires done && !shutdown ==> OldGoneUpTo(w, run.items, |run.items|)
      modifies this`w, this`run, this`failed, this`log, leases
      ensures Good() && (old(failed) ==> failed)
      ensures !failed ==> if wait == RunEnded then Finished(w.stored) && w.stored.outcome.value != Aborted
                          else wait == Working && !Finished(w.stored) && w.stored.items == old(run).items && NothingToEnd(w.stored)
    {
      hide Good, Inv, Onward, Rely, Near, AllEnded, AllInOrder, Kept, Clear, OldGoneUpTo, VolumesDone, AllOldGone, DeletedGone, NoneDeleted, NonePending, Done, Leases.Sound, Leases.HasLease;
      wait := Working;
      GoodFacts();
      NearFlags(run, w.stored, ending);
      var ok := true;
      if run.paused.Some? && done && NonePending(run.items) && !shutdown {
        AllGone(w, run, w.stored);
        UpToMeansGone(w, run);
        ok := Resume();
      }
      if ok {
        if Done(run.items) && (run.paused.None? || run.marked) {
          EndsAsItFailed(run.items);
          Finish(if NoneFailed(run.items) then AllSucceeded else SomeFailed);
          wait := RunEnded;
        } else {
          SelectedIsKept(run);
          var _ := WriteStatus();
        }
      }
    }

    /** holding: a run that does not hold all its Leases waits, or a call failed. */
    method Hold() returns (held: bool)
      requires Good() && run == w.stored && !Finished(run) && Leases.Ready(leases) && Leases.AtStart(leases)
      modifies this`failed, leases
      ensures Good() && (old(failed) ==> failed)
      ensures held ==> Leases.Ready(leases) && Leases.HoldsAll(leases)
      ensures !held ==> failed || Leases.Stopped(leases)
    {
      hide Inv, Onward, Rely, AllEnded;
      var answer := Leases.TakeLeases(leases);
      held := answer.Held?;
      if answer.Errored? {
        failed := true;
      }
    }

    /** A pass begins with nothing in memory. */
    method Reset()
      requires Inv(w) && w.spec == spec && Kept(w.stored) && AllInOrder(log) && Leases.Sound(leases) && (Finished(w.stored) ==> !Leases.HasLease(leases))
      modifies this
      ensures Good() && run == w.stored == began && w == old(w) && !failed && !refused && !ending && log == old(log)
    {
      hide Inv, AllEnded, AllInOrder, EndedNow, Leases.Sound, Leases.HasLease, Onward, Kept;
      OnwardItself(w.stored);
      assert AllEnded({}, w.stored.items, w.sides) by { var _ := EndedNow(w.stored.items, w.sides); }
      run, began, seen, failed, refused, ending, ripe, held := w.stored, w.stored, true, false, false, false, {}, {};
    }

    /** It reads the run, and looks whether its Leases are taken. */
    method StartPass() returns (ok: bool)
      requires Inv(w) && w.spec == spec && Kept(w.stored) && AllInOrder(log) && Leases.Sound(leases) && (Finished(w.stored) ==> !Leases.HasLease(leases))
      modifies this, leases
      ensures Good() && run == w.stored == began == old(w.stored) && seen == w.deleting && !ending && failed == !ok && !refused
      ensures ok ==> Leases.Ready(leases) && Leases.AtStart(leases) && ripe == EndedNow(run.items, w.sides)
    {
      hide Inv, Rely, AllEnded, AllInOrder, Clear, EndedNow, Leases.Sound, Leases.HasLease, Onward, Kept;
      Reset();
      ok := Read();
      PauseFacts(w);
      seen, ripe := w.deleting, EndedNow(w.stored.items, w.sides);
      if ok {
        Leases.BeginPass(leases);
      }
    }

    /** Reconcile: one pass, from the stored run. */
    method Reconcile(over: bool, lost: set<nat>) returns (gone: bool, wait: Wait)
      requires Inv(w) && w.spec == spec && Kept(w.stored) && AllInOrder(log) && Leases.Sound(leases) && (Finished(w.stored) ==> !Leases.HasLease(leases))
      modifies this, leases
      ensures Inv(w) && w.spec == spec && Kept(w.stored) && AllInOrder(log) && Onward(old(w.stored), w.stored)
      ensures Leases.Sound(leases) && (Finished(w.stored) ==> !Leases.HasLease(leases))
      ensures !failed && !seen && !Finished(began) ==> if over then w.stored.outcome == Some(Aborted) else Waited(wait, lost)
      ensures !failed && seen ==> gone
      ensures refused ==> ending
      ensures gone ==> w.changed == {} && !Leases.HasLease(leases) && JobsGone(w.sides)
    {
      hide Good, Inv, Onward, Rely, AllEnded, AllInOrder, Kept, Clear, WorkedThrough, Waited, SelectionHolds, Leases.Sound, Leases.HasLease;
      var ok := StartPass();
      GoodFacts();
      gone, wait := false, RunEnded;
      if ok {
        if Finished(run) {
          FinishedIsBack(w);
          gone := seen;
        } else if seen {
          gone := Finalize();
        } else {
          wait := Work(over, lost);
        }
      }
      GoodFacts();
    }

    /** Any number of passes, whatever fails in them: every change the run ever
        made was in order. */
    method Passes(n: nat)
      requires Inv(w) && w.spec == spec && Kept(w.stored) && AllInOrder(log) && Leases.Sound(leases) && (Finished(w.stored) ==> !Leases.HasLease(leases))
      modifies this, leases
      ensures Inv(w) && AllInOrder(log) && Onward(old(w.stored), w.stored)
      ensures Leases.Sound(leases) && (Finished(w.stored) ==> !Leases.HasLease(leases))
      ensures Finished(w.stored) ==> w.changed == {} && !Leases.HasLease(leases) && JobsGone(w.sides) && Ended(w)
    {
      hide Inv, Onward, AllInOrder, Kept, Leases.Sound, Leases.HasLease;
      OnwardItself(w.stored);
      for i := 0 to n
        invariant Inv(w) && w.spec == spec && Kept(w.stored) && AllInOrder(log) && Onward(old(w.stored), w.stored)
        invariant Leases.Sound(leases) && (Finished(w.stored) ==> !Leases.HasLease(leases))
      {
        ghost var before := w.stored;
        var over: bool, lost: set<nat> := *, *;
        var _, _ := Reconcile(over, lost);
        OnwardTransitive(old(w.stored), before, w.stored);
      }
      if Finished(w.stored) {
        FinishedIsBack(w);
      }
    }
  }

  // --------------------------------------------------------- the whole life

  /** A planned run. A Cluster that archives nowhere starts out Skipped. */
  ghost predicate Init(w: World) {
    && w.stored == Status(None, false, None, false, false, w.stored.items) && |w.sides| == |w.stored.items| && !w.aborted
    && w.changed == {} && "" !in w.used && !w.finalizing
    && forall i :: 0 <= i < |w.sides| ==> InitItem(w.stored.items[i], w.sides[i], w.used)
  }

  predicate InitItem(item: Item, side: Side, used: set<string>) {
    if item.Volume? then item.phase == Pending && !item.job && side.Claim? && side.job == NoJob && !side.pod && !side.restored
    else
      && (item.phase == Pending || item.phase == Skipped) && item.uid == "" && !item.aborted && side.Instance?
      && (side.cluster.Some? ==> side.cluster.value.uid in used && (side.left.Some? ==> side.left.value == side.cluster.value.uid))
      && (side.left.Some? ==> side.left.value in used) && (side.cluster.Some? && side.cluster.value.mine ==> side.recovered)
      && (side.recovered ==> side.healed)
  }

  lemma InitIsSound(w: World)
    requires Init(w)
    ensures Inv(w) && Kept(w.stored)
  {
    forall i | 0 <= i < |w.sides| ensures InitItem(w.stored.items[i], w.sides[i], w.used) && !ItemBegun(w.stored.items[i]) { }
    forall i | 0 <= i < |w.sides| ensures ItemSound(false, w.used, w.stored.items[i], w.sides[i]) {
      assert InitItem(w.stored.items[i], w.sides[i], w.used);
    }
    assert NoneDeleted(w.stored.items) by {
      forall i | 0 <= i < |w.sides| ensures w.stored.items[i].phase != Deleted { assert InitItem(w.stored.items[i], w.sides[i], w.used); }
    }
  }

  /** A volume that succeeded was restored by a Job that completed, and a Cluster
      that succeeded came back with the run's recovery and became healthy. */
  ghost predicate Delivered(w: World) {
    |w.sides| == |w.stored.items| && forall i :: 0 <= i < |w.sides| && w.stored.items[i].phase == Succeeded ==>
      if w.stored.items[i].Volume? then w.sides[i].Claim? && w.sides[i].restored else w.sides[i].Instance? && w.sides[i].recovered && w.sides[i].healed
  }

  lemma InvDelivers(w: World)
    requires Inv(w)
    ensures Delivered(w)
  {
    forall i | 0 <= i < |w.stored.items| ensures ItemSound(w.stored.selected, w.used, w.stored.items[i], w.sides[i]) { ItemAt(w, i); }
  }

  /** Over the whole life of a run, every change it made was in order, and once
      it is finished everything is given back. */
  method Lifetime(w: World, leases: Leases.Client, passes: nat) returns (end: World, ghost log: seq<Entry>)
    requires Init(w) && Leases.Sound(leases)
    modifies leases
    ensures AllInOrder(log) && Onward(w.stored, end.stored) && Delivered(end)
    ensures Finished(end.stored) ==> end.changed == {} && !Leases.HasLease(leases) && JobsGone(end.sides) && Ended(end)
  {
    hide Inv, Onward, AllInOrder, Kept, Delivered, Leases.Sound, Leases.HasLease;
    InitIsSound(w);
    NothingLogged();
    var r := new RestoreRunReconciler(w, leases);
    r.Passes(passes);
    end, log := r.w, r.log;
    InvDelivers(end);
  }

  lemma NothingLogged()
    ensures AllInOrder([])
  {
  }
}

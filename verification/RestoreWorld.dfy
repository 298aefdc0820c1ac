/**
 The cluster around one RestoreRun, and what every step keeps: the restore Jobs
 and their pods, the Clusters and their instances, and the paused workloads.
 */
module RestoreWorld {
  import opened Common

  // --------------------------------------------------------------- the run

  datatype Phase = Pending | Running | Deleted | Recovering | Succeeded | Failed | Skipped

  /** `job` says that the Job's name is recorded. `uid` is the UID of the Cluster
      that the run deletes. `aborted` says that abort failed the item; its message
      tells so. */
  datatype Item =
    | Volume(name: string, phase: Phase, job: bool)
    | Database(name: string, phase: Phase, uid: string, aborted: bool)

  /** What the pause stops: workloads, and the Kustomizations that apply them. */
  datatype Plan = Plan(workloads: seq<string>, suspended: seq<string>)

  /** One object that the pause patches. */
  datatype Patch = Workload(name: string) | Kustomization(name: string)

  predicate InPlan(p: Patch, plan: Plan) {
    match p
    case Workload(x) => x in plan.workloads
    case Kustomization(k) => k in plan.suspended
  }

  /** `outcome` is None while the run is not finished. */
  datatype Status = Status(
    outcome: Option<Ending>, selected: bool, paused: Option<Plan>, resumed: bool, marked: bool, items: seq<Item>)

  predicate Finished(st: Status) { st.outcome.Some? }

  function Rank(p: Phase): nat {
    if p == Pending then 3 else if p == Running || p == Deleted then 2 else if p == Recovering then 1 else 0
  }

  predicate Done(items: seq<Item>) { forall i :: 0 <= i < |items| ==> Rank(items[i].phase) == 0 }

  predicate NoneFailed(items: seq<Item>) { forall i :: 0 <= i < |items| ==> items[i].phase != Phase.Failed }

  /** What the ending says about the items. */
  predicate EndsRight(items: seq<Item>, e: Ending) {
    Done(items) && (e == AllSucceeded ==> NoneFailed(items)) && (e == SomeFailed ==> !NoneFailed(items))
  }

  /** The run did something that it can't take back to an item: it recorded a Job
      for the volume, or the Cluster to delete. */
  predicate ItemBegun(item: Item) { if item.Volume? then item.job else item.uid != "" }

  ghost predicate Begun(items: seq<Item>) { exists i: nat :: i < |items| && ItemBegun(items[i]) }

  // ----------------------------------------------------------- the cluster

  datatype Job = NoJob | Active | Complete | Broken

  datatype Cluster = Cluster(uid: string, mine: bool, deleting: bool, healthy: bool)

  /** What the cluster holds for one item: the restore Job of a claim, whether a
      pod of it runs and whether it ever completed, whether some pod mounts the
      claim, and whether the claim's repository can be found; or the Cluster of a name, the
      UID of the Cluster whose instance pods and claims are there, whether it ever
      came back with the run's recovery, and whether it was healthy after that. */
  datatype Side =
    | Claim(job: Job, pod: bool, restored: bool, mounted: bool, reachable: bool)
    | Instance(cluster: Option<Cluster>, left: Option<string>, recovered: bool, healed: bool)

  /** What stays as it is: the workloads that spec.pauseDuringRestore lists, the
      ones that the namespace holds, and the Kustomization that applies a workload
      and that its owner did not suspend. */
  datatype Spec = Spec(listed: seq<string>, known: set<string>, flux: map<string, string>)

  /** `changed` holds the patched objects that are not back yet: workloads at zero,
      and suspended Kustomizations. `pods` holds the workloads of which a pod is
      left. `finalizing` says that finalize began, and `aborted` that abort did.
      `used` holds every UID so far. */
  datatype World = World(
    sides: seq<Side>, changed: set<Patch>, pods: set<string>, spec: Spec, used: set<string>,
    deleting: bool, finalizing: bool, aborted: bool, stored: Status)

  datatype SideStep =
    | StartPod | StopPod | CompleteJob | BreakJob | Mount | Unmount
    | OwnerDeletes | Vanish | StopInstance | StartInstance | Recreate(uid: string, mine: bool) | BecomeHealthy

  datatype AppStep = StartAppPod | StopAppPod | FluxApply

  datatype EnvStep = OnSide(i: nat, step: SideStep) | OnApp(x: string, app: AppStep) | DeleteRun

  /** A workload at zero starts no pod. Flux scales it back up, unless its
      Kustomization is suspended. */
  function NextApp(w: World, x: string, step: AppStep): World {
    match step
    case StartAppPod => if Workload(x) !in w.changed then w.(pods := w.pods + {x}) else w
    case StopAppPod => w.(pods := w.pods - {x})
    case FluxApply => if Held(w, x) then w else w.(changed := w.changed - {Workload(x)})
  }

  /** Nothing but the run scales the workload back up. */
  predicate Held(w: World, x: string) {
    Workload(x) in w.changed && (x in w.spec.flux ==> Kustomization(w.spec.flux[x]) in w.changed)
  }

  /** The webhook refuses a new Cluster while an instance of an earlier one is
      left. */
  function NextSide(side: Side, used: set<string>, step: SideStep): Side {
    match side
    case Claim(job, pod, _, _, _) =>
      (match step
       case StartPod => if job.Active? then side.(pod := true) else side
       case StopPod => side.(pod := false)
       case CompleteJob => if job.Active? then side.(job := Complete, pod := false, restored := true) else side
       case BreakJob => if job.Active? then side.(job := Broken) else side
       case Mount => side.(mounted := true)
       case Unmount => side.(mounted := false)
       case _ => side)
    case Instance(cluster, left, recovered, healed) =>
      match step
      case OwnerDeletes => if cluster.Some? then side.(cluster := Some(cluster.value.(deleting := true))) else side
      case Vanish => if cluster.Some? && cluster.value.deleting then side.(cluster := None) else side
      case StopInstance => if cluster.None? || cluster.value.deleting then side.(left := None) else side
      case StartInstance => if cluster.Some? && left.None? then side.(left := Some(cluster.value.uid)) else side
      case Recreate(uid, mine) =>
        if cluster.None? && left.None? && uid !in used && uid != "" then Instance(Some(Cluster(uid, mine, false, false)), None, recovered || mine, healed) else side
      case BecomeHealthy =>
        if cluster.Some? then side.(cluster := Some(cluster.value.(healthy := true)), healed := healed || recovered) else side
      case _ => side
  }

  function EnvNext(w: World, e: EnvStep): World {
    match e
    case OnSide(i, step) =>
      if i >= |w.sides| || (step.Recreate? && (step.uid in w.used || step.uid == "")) then w
      else w.(sides := w.sides[i := NextSide(w.sides[i], w.used, step)], used := if step.Recreate? then w.used + {step.uid} else w.used)
    case OnApp(x, step) => NextApp(w, x, step)
    case DeleteRun => w.(deleting := true)
  }

  // ------------------------------------------------------------ invariants

  /** Nothing of the Cluster with that UID is there any more. */
  predicate OldGone(side: Side, uid: string) { side.Instance? ==> side.left != Some(uid) && OtherCluster(side, uid) }

  predicate OtherCluster(side: Side, uid: string)
    requires side.Instance?
  {
    side.cluster.None? || side.cluster.value.uid != uid
  }

  predicate VolumeSound(selected: bool, item: Item, side: Side)
    requires item.Volume?
  {
    && side.Claim?
    && (side.job != NoJob || side.pod ==> item.job)
    && (item.phase == Running || item.phase == Succeeded ==> item.job)
    && (item.job ==> selected)
    && (side.job == Complete || item.phase == Succeeded ==> side.restored)
    && item.phase != Deleted && item.phase != Recovering && (item.phase == Skipped ==> !selected)
  }

  predicate DatabaseSound(selected: bool, used: set<string>, item: Item, side: Side)
    requires item.Database?
  {
    && side.Instance?
    && (side.cluster.Some? ==> side.cluster.value.uid in used && (side.left.Some? ==> side.left.value == side.cluster.value.uid))
    && (side.left.Some? ==> side.left.value in used)
    && (item.uid != "" ==> selected && item.uid in used)
    && (item.phase == Pending || item.phase == Skipped ==> item.uid == "")
    && (item.phase == Deleted || item.phase == Recovering || item.phase == Succeeded ==> item.uid != "")
    && (item.uid != "" && item.phase != Deleted ==> item.aborted || OldGone(side, item.uid))
    && (item.aborted ==> item.phase == Phase.Failed)
    && (item.phase == Recovering || item.phase == Succeeded || (side.cluster.Some? && side.cluster.value.mine) ==> side.recovered)
    && (item.phase == Succeeded || (side.recovered && side.cluster.Some? && side.cluster.value.healthy) ==> side.healed)
    && item.phase != Running
  }

  predicate ItemSound(selected: bool, used: set<string>, item: Item, side: Side) {
    if item.Volume? then VolumeSound(selected, item, side) else DatabaseSound(selected, used, item, side)
  }

  ghost predicate ItemsSound(w: World) {
    && |w.sides| == |w.stored.items|
    && forall i :: 0 <= i < |w.sides| ==> ItemSound(w.stored.selected, w.used, w.stored.items[i], w.sides[i])
  }

  predicate VolumesSucceeded(items: seq<Item>) {
    forall i :: 0 <= i < |items| && items[i].Volume? ==> items[i].phase == Succeeded
  }

  predicate NoneDeleted(items: seq<Item>) {
    forall i :: 0 <= i < |items| && items[i].Database? ==> items[i].phase != Deleted
  }

  predicate NonePending(items: seq<Item>) { forall i :: 0 <= i < |items| ==> items[i].phase != Pending }

  /** No restore Job that has not failed is left, and no pod of one. */
  predicate JobsGone(sides: seq<Side>) {
    forall i :: 0 <= i < |sides| && sides[i].Claim? ==> JobGone(sides[i])
  }

  predicate JobGone(side: Side)
    requires side.Claim?
  {
    (side.job == NoJob || side.job == Broken) && !side.pod
  }

  /** pausePlan: the listed workloads, and once each the Kustomizations that still
      apply them. */
  predicate Plans(spec: Spec, plan: Plan) {
    && plan.workloads == spec.listed
    && (forall x :: x in spec.listed && x in spec.flux ==> spec.flux[x] in plan.suspended)
    && (forall k :: k in plan.suspended ==> exists x :: x in spec.listed && x in spec.flux && spec.flux[x] == k)
    && (forall i, j :: 0 <= i < j < |plan.suspended| ==> plan.suspended[i] != plan.suspended[j])
  }

  /** The whole plan is applied, and no pod of its workloads is left. */
  ghost predicate Down(changed: set<Patch>, pods: set<string>, plan: Plan) {
    && (forall p :: InPlan(p, plan) ==> p in changed)
    && (forall x :: x in plan.workloads ==> x !in pods)
  }

  /** A run that lists workloads may change the cluster: it stored its pause and not
      its resume, and the app is down. */
  ghost predicate MayStart(w: World, st: Status) { Clear(w.changed, w.pods, w.spec, st.paused, st.resumed) }

  ghost predicate Clear(changed: set<Patch>, pods: set<string>, spec: Spec, paused: Option<Plan>, resumed: bool) {
    && (spec.listed != [] ==> paused.Some?)
    && (paused.Some? ==> !resumed && Down(changed, pods, paused.value))
  }

  /** Nothing is left of a Cluster whose item is Deleted. */
  ghost predicate DeletedGone(w: World) {
    |w.sides| == |w.stored.items| &&
    forall i :: 0 <= i < |w.sides| && w.stored.items[i].Database? && w.stored.items[i].phase == Deleted ==> OldGone(w.sides[i], w.stored.items[i].uid)
  }

  ghost predicate PauseSound(w: World) {
    var st := w.stored;
    && (st.paused.None? ==> w.changed == {} && !st.resumed && !st.marked && (w.spec.listed != [] ==> !Begun(st.items)))
    && (st.paused.Some? ==> st.selected && w.spec.listed != [] && Plans(w.spec, st.paused.value) && forall p :: p in w.changed ==> InPlan(p, st.paused.value))
    && (st.paused.Some? && !st.resumed && Begun(st.items) ==> Down(w.changed, w.pods, st.paused.value))
    && (st.resumed && !w.finalizing ==> NonePending(st.items) && DeletedGone(w))
    && (st.marked ==> st.resumed && w.changed == {})
  }

  /** How the run ended is what became of its items. */
  predicate Ended(w: World) {
    Finished(w.stored) && EndsRight(w.stored.items, w.stored.outcome.value) && (w.stored.outcome.value == Aborted ==> w.aborted)
  }

  ghost predicate Inv(w: World) {
    && ItemsSound(w) && PauseSound(w) && "" !in w.used
    && (NoneDeleted(w.stored.items) || VolumesSucceeded(w.stored.items))
    && (w.finalizing ==> w.deleting)
    && (Finished(w.stored) ==> w.changed == {} && JobsGone(w.sides) && Ended(w))
  }

  // ---------------------------------------------- what the environment keeps

  lemma SideKeepsItem(selected: bool, used: set<string>, item: Item, side: Side, step: SideStep)
    requires ItemSound(selected, used, item, side)
    ensures ItemSound(selected, if step.Recreate? then used + {step.uid} else used, item, NextSide(side, used, step))
  {
  }

  lemma MoreUsed(selected: bool, used: set<string>, item: Item, side: Side, uid: string)
    requires ItemSound(selected, used, item, side)
    ensures ItemSound(selected, used + {uid}, item, side)
  {
  }

  lemma OnSideKeepsInv(w: World, i: nat, step: SideStep)
    requires Inv(w)
    ensures Inv(EnvNext(w, OnSide(i, step)))
  {
    hide ItemSound, NoneDeleted, VolumesSucceeded, NonePending, Begun, InPlan, Plans, NextSide, EndsRight, OldGone;
    var e := OnSide(i, step);
    var w' := EnvNext(w, e);
    if w' != w {
      SideIsRelied(w.sides[i], w.used, step);
      if JobsGone(w.sides) && w.sides[i].Claim? { assert JobGone(w.sides[i]); }
      forall j | 0 <= j < |w.sides| ensures ItemSound(w.stored.selected, w'.used, w.stored.items[j], w'.sides[j]) {
        if j == i { SideKeepsItem(w.stored.selected, w.used, w.stored.items[j], w.sides[j], step); }
        else if step.Recreate? { MoreUsed(w.stored.selected, w.used, w.stored.items[j], w.sides[j], step.uid); }
      }
      if DeletedGone(w) { SideKeepsDeletedGone(w, i, step); }
    }
  }

  lemma SideKeepsDeletedGone(w: World, i: nat, step: SideStep)
    requires Inv(w) && DeletedGone(w) && i < |w.sides|
    ensures DeletedGone(EnvNext(w, OnSide(i, step)))
  {
    hide NextSide, OldGone, JobsGone, EndsRight;
    SideIsRelied(w.sides[i], w.used, step);
    if w.stored.items[i].Database? && w.stored.items[i].phase == Deleted {
      assert ItemSound(w.stored.selected, w.used, w.stored.items[i], w.sides[i]);
      assert w.sides[i].Instance?;
    }
  }

  /** The app stays down while its Kustomizations are suspended. */
  lemma DownStays(w: World, plan: Plan, x: string, step: AppStep)
    requires Down(w.changed, w.pods, plan) && Plans(w.spec, plan)
    ensures var w' := NextApp(w, x, step); Down(w'.changed, w'.pods, plan)
  {
    if x in plan.workloads {
      assert InPlan(Workload(x), plan);
      if x in w.spec.flux { assert InPlan(Kustomization(w.spec.flux[x]), plan); }
    }
    forall p | InPlan(p, plan) ensures p in NextApp(w, x, step).changed { assert p in w.changed; }
  }

  lemma OnAppKeepsInv(w: World, x: string, step: AppStep)
    requires Inv(w)
    ensures Inv(NextApp(w, x, step))
  {
    hide ItemSound, NoneDeleted, VolumesSucceeded, NonePending, Begun, Down, Plans, EndsRight, OldGone, InPlan;
    if w.stored.paused.Some? && Down(w.changed, w.pods, w.stored.paused.value) { DownStays(w, w.stored.paused.value, x, step); }
  }

  lemma DeleteKeepsInv(w: World)
    requires Inv(w)
    ensures Inv(w.(deleting := true))
  {
    hide ItemSound;
  }

  /** Every step of the environment keeps the invariant. */
  lemma EnvKeepsInv(w: World, e: EnvStep)
    requires Inv(w)
    ensures Inv(EnvNext(w, e))
  {
    hide Inv;
    match e
    case OnSide(i, step) => OnSideKeepsInv(w, i, step);
    case OnApp(x, step) => OnAppKeepsInv(w, x, step);
    case DeleteRun => DeleteKeepsInv(w);
  }

  /** The environment never reads the run's status here. */
  lemma EnvIgnoresStatus(w: World, st: Status, e: EnvStep)
    ensures EnvNext(w.(stored := st), e) == EnvNext(w, e).(stored := st)
  {
  }

  ghost predicate SideRely(side: Side, side': Side, used: set<string>) {
    && side.Claim? == side'.Claim?
    && (side.Claim? ==>
          && side.reachable == side'.reachable
          && (side.job == Complete ==> side'.job == Complete) && (side.job == NoJob ==> side'.job == NoJob) && (side.job == Broken ==> side'.job == Broken)
          && (JobGone(side) ==> JobGone(side')))
    && (side.Instance? ==> forall u :: u in used && OldGone(side, u) ==> OldGone(side', u))
    && (side.Instance? ==> forall u :: u in used && OtherCluster(side, u) ==> OtherCluster(side', u))
  }

  ghost predicate Rely(w: World, w': World) {
    && w'.stored == w.stored && w'.changed <= w.changed && w'.finalizing == w.finalizing && w'.aborted == w.aborted && w'.spec == w.spec
    && AppRely(w, w')
    && (w.deleting ==> w'.deleting) && w.used <= w'.used && |w'.sides| == |w.sides|
    && forall i :: 0 <= i < |w.sides| ==> SideRely(w.sides[i], w'.sides[i], w.used)
  }

  /** A suspended Kustomization stays so, and what it applies stays stopped. */
  ghost predicate AppRely(w: World, w': World) {
    && (forall k :: Kustomization(k) in w.changed ==> Kustomization(k) in w'.changed)
    && (forall x :: Held(w, x) ==> Workload(x) in w'.changed && (x !in w.pods ==> x !in w'.pods))
  }

  lemma SideIsRelied(side: Side, used: set<string>, step: SideStep)
    ensures SideRely(side, NextSide(side, used, step), used)
  {
  }

  lemma EnvIsRelied(w: World, e: EnvStep)
    ensures Rely(w, EnvNext(w, e))
  {
    hide SideRely, NextSide;
    assert AppRely(w, EnvNext(w, e));
    forall j | 0 <= j < |w.sides| ensures SideRely(w.sides[j], EnvNext(w, e).sides[j], w.used) {
      SideRelyReflexive(w.sides[j], w.used);
      if e.OnSide? && e.i == j { SideIsRelied(w.sides[j], w.used, e.step); }
    }
  }

  lemma SideRelyReflexive(side: Side, used: set<string>)
    ensures SideRely(side, side, used)
  {
  }

  lemma SideRelyTransitive(a: Side, b: Side, c: Side, used: set<string>, more: set<string>)
    requires SideRely(a, b, used) && SideRely(b, c, more) && used <= more
    ensures SideRely(a, c, used)
  {
  }

  lemma RelyReflexive(w: World)
    ensures Rely(w, w)
  {
    forall i | 0 <= i < |w.sides| ensures SideRely(w.sides[i], w.sides[i], w.used) { SideRelyReflexive(w.sides[i], w.used); }
  }

  lemma RelyTransitive(w: World, v: World, u: World)
    requires Rely(w, v) && Rely(v, u)
    ensures Rely(w, u)
  {
    hide SideRely;
    forall i | 0 <= i < |w.sides| ensures SideRely(w.sides[i], u.sides[i], w.used) {
      SideRelyTransitive(w.sides[i], v.sides[i], u.sides[i], w.used, v.used);
    }
  }
}

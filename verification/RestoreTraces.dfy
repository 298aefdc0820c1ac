/**
 When an ordinary pass of a RestoreRun gives the app back too early: the exact
 condition on the stored status, and a run from its plan to that point.
 */
module RestoreTraces {
  import opened Common
  import opened RestoreWorld
  import opened RestoreEffects
  import opened RestoreRuns

  /** What work asks for before it resumes: the pause and the resume are stored,
      the volumes are done, nothing is Pending, and no Cluster is still shutting
      down. */
  ghost predicate MayGiveBack(w: World, p: Patch) {
    && w.stored.paused.Some? && InPlan(p, w.stored.paused.value) && w.stored.resumed && !Finished(w.stored)
    && (p.Kustomization? ==> AllScaledBack(w, w.stored.paused.value))
    && VolumesDone(w.stored.items) && NonePending(w.stored.items) && |w.sides| == |w.stored.items|
    && forall i :: 0 <= i < |w.stored.items| && w.stored.items[i].Database? && w.stored.items[i].phase == Deleted ==> OldGone(w.sides[i], w.stored.items[i].uid)
  }

  /** Nothing at all is left of the Clusters that the run deleted. */
  ghost predicate StrictlyGone(w: World) {
    && |w.sides| == |w.stored.items|
    && forall i :: 0 <= i < |w.stored.items| && w.stored.items[i].Database? && w.stored.items[i].uid != "" ==> OldGone(w.sides[i], w.stored.items[i].uid)
  }

  /** No Cluster that the run deleted is one that abort stored as Failed. */
  predicate NoneAborted(items: seq<Item>) {
    forall i :: 0 <= i < |items| && items[i].Database? && items[i].uid != "" ==> !items[i].aborted
  }

  /** The cluster in which the old instance of one item is still there. */
  function Lingering(w: World, i: nat): World
    requires i < |w.sides| && w.sides[i].Instance? && i < |w.stored.items| && w.stored.items[i].Database?
  {
    w.(sides := w.sides[i := w.sides[i].(cluster := None, left := Some(w.stored.items[i].uid))])
  }

  lemma LingeringIsSound(w: World, i: nat)
    requires Inv(w) && i < |w.stored.items| && w.stored.items[i].Database? && w.stored.items[i].uid != "" && w.stored.items[i].aborted
    ensures i < |w.sides| && w.sides[i].Instance? && Inv(Lingering(w, i))
  {
    ItemAt(w, i);
    OneSideKeepsInv(w, i, w.sides[i].(cluster := None, left := Some(w.stored.items[i].uid)));
  }

  /** For a stored status under which an ordinary pass gives the app back: nothing
      of the old Clusters is left, whatever the cluster does, if and only if no
      item with a UID is one that an abort stored as Failed. */
  lemma OrdinaryOrderIff(w: World, p: Patch)
    requires Inv(w) && MayGiveBack(w, p)
    ensures (forall v: World :: v.stored == w.stored && Inv(v) && MayGiveBack(v, p) ==> StrictlyGone(v)) <==> NoneAborted(w.stored.items)
  {
    if NoneAborted(w.stored.items) {
      forall v: World | v.stored == w.stored && Inv(v) && MayGiveBack(v, p) ensures StrictlyGone(v) {
        forall i | 0 <= i < |v.stored.items| && v.stored.items[i].Database? && v.stored.items[i].uid != "" ensures OldGone(v.sides[i], v.stored.items[i].uid) {
          ItemAt(v, i);
        }
      }
    } else {
      var i :| 0 <= i < |w.stored.items| && w.stored.items[i].Database? && w.stored.items[i].uid != "" && w.stored.items[i].aborted;
      LingeringIsSound(w, i);
      ItemAt(w, i);
      var v := Lingering(w, i);
      assert v.stored == w.stored && v.sides[i].left == Some(v.stored.items[i].uid);
      assert MayGiveBack(v, p) && !OldGone(v.sides[i], v.stored.items[i].uid);
    }
  }

  // ---------------------------------------------------------- a run to there

  datatype Act =
    | Happens(e: EnvStep)
    | StoreSelection
    | StorePause(plan: Plan)
    | Stop(p: Patch)
    | StoreDeleted(i: nat)
    | DeleteCluster(i: nat)
    | StoreAbort

  /** What a pass tests before each of its writes. */
  ghost predicate Enabled(w: World, a: Act) {
    match a
    case Happens(_) => true
    case StoreSelection => !w.stored.selected && NoVolumeSkipped(w.stored.items)
    case StorePause(plan) => w.stored.selected && w.stored.paused.None? && w.spec.listed != [] && !Missing(w.spec) && Plans(w.spec, plan)
    case Stop(p) =>
      && w.stored.paused.Some? && InPlan(p, w.stored.paused.value) && !w.stored.resumed && !NonePending(w.stored.items)
      && (p.Workload? && p.name in w.spec.flux ==> Kustomization(w.spec.flux[p.name]) in w.changed)
    case StoreDeleted(i) =>
      && w.stored.selected && i < |w.stored.items| && i < |w.sides| && w.stored.items[i].Database? && w.stored.items[i].phase == Pending
      && VolumesSucceeded(w.stored.items) && w.sides[i].Instance? && w.sides[i].cluster.Some? && MayStart(w, w.stored)
    case DeleteCluster(i) =>
      && i < |w.stored.items| && i < |w.sides| && w.stored.items[i].Database? && w.stored.items[i].phase == Deleted
      && w.sides[i].Instance? && w.sides[i].cluster.Some? && w.sides[i].cluster.value.uid == w.stored.items[i].uid
    case StoreAbort => w.stored.paused.Some? && !w.stored.resumed && JobsGone(w.sides)
  }

  function AbortedItems(items: seq<Item>): (r: seq<Item>)
    ensures |r| == |items| && forall i :: 0 <= i < |r| ==> r[i] == if Rank(items[i].phase) > 0 then Failing(items[i], true) else items[i]
  {
    seq(|items|, i requires 0 <= i < |items| => if Rank(items[i].phase) > 0 then Failing(items[i], true) else items[i])
  }

  ghost function Perform(w: World, a: Act): World
    requires Enabled(w, a)
  {
    match a
    case Happens(e) => EnvNext(w, e)
    case StoreSelection => With(w, w.stored.(selected := true))
    case StorePause(plan) => With(w, w.stored.(paused := Some(plan)))
    case Stop(p) => w.(changed := w.changed + {p})
    case StoreDeleted(i) =>
      var item := Database(w.stored.items[i].name, Deleted, w.sides[i].cluster.value.uid, false);
      With(w, w.stored.(items := w.stored.items[i := item]))
    case DeleteCluster(i) => w.(sides := w.sides[i := w.sides[i].(cluster := Some(w.sides[i].cluster.value.(deleting := true)))])
    case StoreAbort => With(w, w.stored.(items := AbortedItems(w.stored.items), resumed := true))
  }

  lemma StoreDeletedKeepsInv(w: World, i: nat)
    requires Inv(w) && !Finished(w.stored) && Enabled(w, StoreDeleted(i))
    ensures Inv(Perform(w, StoreDeleted(i)))
  {
    ItemAt(w, i);
    hide Inv;
    OneItemKeepsInv(w, i, Database(w.stored.items[i].name, Deleted, w.sides[i].cluster.value.uid, false));
  }

  lemma StoreAbortKeepsInv(w: World)
    requires Inv(w) && !Finished(w.stored) && Enabled(w, StoreAbort)
    ensures Inv(Perform(w, StoreAbort))
  {
    var items := AbortedItems(w.stored.items);
    forall i | 0 <= i < |items| ensures ItemSound(w.stored.selected, w.used, items[i], w.sides[i]) {
      ItemAt(w, i);
      if Rank(w.stored.items[i].phase) > 0 { FailKeepsItem(w.stored.selected, w.used, w.stored.items[i], w.sides[i], true); }
    }
    hide ItemSound, JobsGone, Begun, Down, Plans;
    assert NonePending(items) && NoneDeleted(items);
  }

  lemma ActKeepsInv(w: World, a: Act)
    requires Inv(w) && !Finished(w.stored) && Enabled(w, a)
    ensures Inv(Perform(w, a)) && !Finished(Perform(w, a).stored)
  {
    PauseFacts(w);
    match a
    case Happens(e) => EnvKeepsInv(w, e);
    case StoreSelection => SelectKeepsInv(w);
    case StorePause(plan) => PauseKeepsInv(w, plan);
    case Stop(p) => StopKeepsInv(w, p);
    case StoreDeleted(i) => StoreDeletedKeepsInv(w, i);
    case DeleteCluster(i) =>
      ItemAt(w, i);
      OneSideKeepsInv(w, i, w.sides[i].(cluster := Some(w.sides[i].cluster.value.(deleting := true))));
    case StoreAbort => StoreAbortKeepsInv(w);
  }

  ghost function Run(w: World, acts: seq<Act>): Option<World> {
    if acts == [] then Some(w)
    else
      var v := Run(w, acts[..|acts| - 1]);
      if v.Some? && Enabled(v.value, acts[|acts| - 1]) then Some(Perform(v.value, acts[|acts| - 1])) else None
  }

  /** Some sequence of acts leads from one world to the other. */
  ghost predicate Leads(w: World, end: World) { exists acts :: Run(w, acts) == Some(end) }

  lemma LeadsOn(w: World, v: World, a: Act)
    requires (v == w || Leads(w, v)) && Enabled(v, a) && Inv(v) && !Finished(v.stored)
    ensures Leads(w, Perform(v, a)) && Inv(Perform(v, a)) && !Finished(Perform(v, a).stored)
  {
    ActKeepsInv(v, a);
    hide Enabled, Perform, Inv;
    var acts := [];
    if v == w { assert Run(w, []) == Some(v); } else { acts :| Run(w, acts) == Some(v); }
    assert (acts + [a])[..|acts + [a]| - 1] == acts;
    assert Run(w, acts + [a]) == Some(Perform(v, a));
  }

  /** Clusters a and b, whose instances run, and one workload to pause. */
  function Two(deleting: bool, changed: set<Patch>, pods: set<string>, st: Status): World {
    World([Instance(Some(Cluster("a", false, deleting, true)), Some("a"), false, false), Instance(Some(Cluster("b", false, false, true)), Some("b"), false, false)],
          changed, pods, Spec(["x"], {"x"}, map[]), {"a", "b"}, false, false, false, st)
  }

  function Planned(selected: bool, paused: Option<Plan>): Status {
    Status(None, selected, paused, false, false, [Database("a", Pending, "", false), Database("b", Pending, "", false)])
  }

  function Start(): World { Two(false, {}, {"x"}, Planned(false, None)) }

  const X: Patch := Workload("x")

  const JustX: Plan := Plan(["x"], [])

  lemma StartIsInit()
    ensures Init(Start()) && Inv(Start())
  {
    InitIsSound(Start());
  }

  lemma PausesApp() returns (w: World)
    ensures Leads(Start(), w) && Inv(w) && w == Two(false, {X}, {}, Planned(true, Some(JustX)))
  {
    StartIsInit();
    hide Inv, Leads;
    w := Start();
    LeadsOn(Start(), w, StoreSelection);
    w := Two(false, {}, {"x"}, Planned(true, None));
    LeadsOn(Start(), w, StorePause(JustX));
    w := Two(false, {}, {"x"}, Planned(true, Some(JustX)));
    assert w.stored.items[1].phase == Pending;
    LeadsOn(Start(), w, Stop(X));
    assert {} + {X} == {X};
    w := Two(false, {X}, {"x"}, Planned(true, Some(JustX)));
    LeadsOn(Start(), w, Happens(OnApp("x", StopAppPod)));
    assert {"x"} - {"x"} == {};
    w := Two(false, {X}, {}, Planned(true, Some(JustX)));
  }

  /** The run deletes Cluster a; a read of Cluster b fails, so b stays Pending. The
      next pass can't apply the pause again and aborts: it stores every item as
      Failed and the resume, and then can't scale the app back. */
  lemma AbortFailsHalfway() returns (w: World)
    ensures Init(Start()) && Leads(Start(), w) && Inv(w) && w.changed == {X} && MayGiveBack(w, X)
    ensures |w.sides| == 2 == |w.stored.items| && w.stored.items[0] == Database("a", Phase.Failed, "a", true) && !OldGone(w.sides[0], "a")
  {
    StartIsInit();
    hide Inv, Leads, Init;
    w := PausesApp();
    LeadsOn(Start(), w, StoreDeleted(0));
    var st := Planned(true, Some(JustX)).(items := [Database("a", Deleted, "a", false), Database("b", Pending, "", false)]);
    assert Perform(w, StoreDeleted(0)) == Two(false, {X}, {}, st);
    w := Two(false, {X}, {}, st);
    LeadsOn(Start(), w, DeleteCluster(0));
    assert Perform(w, DeleteCluster(0)) == Two(true, {X}, {}, st);
    w := Two(true, {X}, {}, st);
    LeadsOn(Start(), w, StoreAbort);
    var failed := st.(items := [Database("a", Phase.Failed, "a", true), Database("b", Phase.Failed, "", true)], resumed := true);
    assert Perform(w, StoreAbort) == Two(true, {X}, {}, failed);
    w := Two(true, {X}, {}, failed);
  }

  /** So the following ordinary pass scales the app back while the instance of
      Cluster a is still there. */
  lemma OrdinaryPassResumesEarly()
    ensures exists w: World :: Leads(Start(), w) && Inv(w) && MayGiveBack(w, X) && !StrictlyGone(w) && InOrder(Entry(GaveBack(X), w, false)) && !NoneAborted(w.stored.items)
  {
    hide Leads;
    var w := AbortFailsHalfway();
    PauseFacts(w);
    forall i | 0 <= i < |w.stored.items| && w.stored.items[i].Database? && w.stored.items[i].uid != "" && !w.stored.items[i].aborted
      ensures OldGone(w.sides[i], w.stored.items[i].uid)
    {
      ItemAt(w, i);
    }
    assert w.stored.items[0].aborted;
  }
}

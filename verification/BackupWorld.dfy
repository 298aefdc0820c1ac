/**
 The cluster around one BackupRun with spec.all, and what every step keeps.

 The environment is the app, Flux, VolSync, CloudNativePG, the owner who may
 delete the run, and the clock. `version` counts the writes of the app: it
 grows only while a pod of a marked workload runs. A clone, a snapshot and a
 base backup each remember the version they hold.
 */
module BackupWorld {
  import opened Common
  import opened Restic
  import opened Retime

  // ------------------------------------------------------------ the run

  datatype ItemPhase = Pending | Running | Succeeded | Failed | Skipped

  datatype Item =
    | Volume(name: string, phase: ItemPhase, snapshotID: string)
    | Database(name: string, phase: ItemPhase, baseBackup: string, whilePaused: bool)

  datatype PausedWorkload = PausedWorkload(name: string, replicas: nat, resumed: bool)

  /** `outcome` is None while the run is not finished. */
  datatype Status = Status(
    outcome: Option<Ending>,
    pausedAt: Option<nat>,
    resumedAt: Option<nat>,
    paused: seq<PausedWorkload>,
    suspended: seq<string>,
    items: seq<Item>)

  predicate Finished(st: Status) { st.outcome.Some? }

  function Rank(p: ItemPhase): nat { if p == Pending then 2 else if p == Running then 1 else 0 }

  predicate AllDone(items: seq<Item>) { forall i :: 0 <= i < |items| ==> Rank(items[i].phase) == 0 }

  /** What the ending says about the items. */
  predicate EndsRight(items: seq<Item>, e: Ending) {
    AllDone(items) && (e == AllSucceeded ==> NoneFailed(items)) && (e == SomeFailed ==> !NoneFailed(items))
  }

  predicate NoneFailed(items: seq<Item>) { forall i :: 0 <= i < |items| ==> items[i].phase != ItemPhase.Failed }

  // ------------------------------------------------------------ the app

  /** A marked workload: the count its owner wants, what its spec says, its
      pods, and the Kustomization that applies it. */
  datatype App = App(owner: nat, replicas: nat, pods: nat, flux: Option<string>)

  /** The marked workloads and the Kustomizations, as they are and as their
      owner set them. */
  datatype Field = Field(version: nat, apps: map<string, App>, suspends: map<string, bool>, owned: map<string, bool>)

  datatype AppStep = StartPod | StopPod | WriteData | FluxApply

  predicate Blocked(f: Field, x: string)
    requires x in f.apps
  {
    f.apps[x].flux.None? || f.apps[x].flux.value !in f.suspends || f.suspends[f.apps[x].flux.value]
  }

  function NextApp(f: Field, x: string, step: AppStep): Field {
    if x !in f.apps then f
    else
      var app := f.apps[x];
      match step
      case StartPod => if app.pods < app.replicas then f.(apps := f.apps[x := app.(pods := app.pods + 1)]) else f
      case StopPod => if app.pods > 0 then f.(apps := f.apps[x := app.(pods := app.pods - 1)]) else f
      case WriteData => if app.pods > 0 then f.(version := f.version + 1) else f
      case FluxApply => if Blocked(f, x) then f else f.(apps := f.apps[x := app.(replicas := app.owner)])
  }

  // --------------------------------------------- the objects behind an item

  /** The clone of a volume: for which trigger, when its sync started, and the
      version it holds once it is Bound. Its creationTimestamp is the start in
      whole seconds. */
  datatype Clone = Clone(trigger: string, start: nat, cut: Option<nat>)

  /** A ReplicationSource. */
  datatype Source = Source(managed: bool, manual: string, last: string, end: nat, took: nat, clone: Option<Clone>, failing: bool)

  /** The CloudNativePG Backup the run creates for a Cluster. */
  datatype Dump = NoDump | Started | Completed(id: string) | Broken

  /** What the cluster holds for one item: the source and the repository of a
      claim, with the snapshots that were tagged before the run; or a Cluster.
      `slept` says that it was hibernated at some time. `ready` says that the claim
      with its settings, or the Cluster, is there. */
  datatype Side =
    | Claim(source: Option<Source>, store: Store, before: set<string>, ready: bool)
    | Cluster(hibernated: bool, slept: bool, dump: Dump, ready: bool)

  datatype SideStep =
    | StartSync | BindClone | DropClone | SaveSnapshot(id: string) | FailMover | FinishSync
    | CompleteDump(base: string) | BreakDump | Hibernate | Wake

  predicate Busy(s: Source) { s.manual != "" && s.manual != s.last }

  predicate OwnClone(s: Source) { s.clone.Some? && s.clone.value.trigger == s.manual }

  function NextSource(s: Source, now: nat, version: nat, step: SideStep): Source {
    match step
    case StartSync => if Busy(s) && s.clone.None? then s.(clone := Some(Clone(s.manual, now, None))) else s
    case BindClone =>
      if s.clone.Some? && s.clone.value.cut.None? then s.(clone := Some(s.clone.value.(cut := Some(version)))) else s
    case DropClone => if Busy(s) && OwnClone(s) then s else s.(clone := None)
    case FailMover => s.(failing := true)
    case FinishSync =>
      if Busy(s) && OwnClone(s) && s.clone.value.cut.Some? && s.clone.value.start <= now
      then s.(last := s.manual, end := Truncate(now), took := now - s.clone.value.start) else s
    case _ => s
  }

  function NextSide(side: Side, now: nat, version: nat, step: SideStep): Side {
    match side
    case Claim(Some(s), store, _, _) =>
      if !step.SaveSnapshot? then side.(source := Some(NextSource(s, now, version, step)))
      else if Busy(s) && OwnClone(s) && s.clone.value.cut.Some? && step.id !in store && |step.id| == ID_LENGTH
      then side.(store := store[step.id := Snapshot(step.id, now, [], "", Body(s.manual, s.clone.value.cut.value))])
      else side
    case Claim(None, _, _, _) => side
    case Cluster(_, _, dump, _) =>
      match step
      case CompleteDump(id) => if dump == Started then side.(dump := Completed(id)) else side
      case BreakDump => if dump == Started then side.(dump := Broken) else side
      case Hibernate => side.(hibernated := true, slept := true)
      case Wake => side.(hibernated := false)
      case _ => side
  }

  // ------------------------------------------------------------- the world

  /** History: the version at which the run found the app stopped, whether a
      read of the busy check in pause failed on a source that was busy, whether the clock had moved on
      since the last clone and snapshot when the run paused, and whether the
      run is being put back because it was deleted. */
  datatype Past = Past(cut: Option<nat>, blind: bool, ticked: bool, finalizing: bool, aborted: bool)

  /** `sides` has one entry for each item of the run. `bases` gives the version
      at the end of each base backup. */
  datatype World = World(
    now: nat, field: Field, sides: seq<Side>, bases: map<string, nat>,
    deleting: bool, stored: Status, past: Past)

  datatype EnvStep =
    | Tick(ns: nat)
    | OnApp(x: string, app: AppStep)
    | OnSide(i: nat, side: SideStep)
    | DeleteRun

  function EnvNext(w: World, e: EnvStep): World {
    match e
    case Tick(ns) => w.(now := w.now + ns)
    case OnApp(x, step) => w.(field := NextApp(w.field, x, step))
    case OnSide(i, step) =>
      if i >= |w.sides| then w
      else if !step.CompleteDump? then w.(sides := w.sides[i := NextSide(w.sides[i], w.now, w.field.version, step)])
      else if step.base in w.bases || w.sides[i] == NextSide(w.sides[i], w.now, w.field.version, step) then w
      else w.(sides := w.sides[i := NextSide(w.sides[i], w.now, w.field.version, step)],
              bases := if step.base == "" then w.bases else w.bases[step.base := w.field.version])
    case DeleteRun => w.(deleting := true)
  }

  // ------------------------------------------------------- the app put back

  /** Every workload and every Kustomization is as its owner wants it. */
  predicate AllBack(f: Field) {
    (forall x :: x in f.apps ==> f.apps[x].replicas == f.apps[x].owner) && f.suspends == f.owned
  }

  ghost predicate IsPaused(st: Status, x: string) { exists i :: 0 <= i < |st.paused| && st.paused[i].name == x }

  /** What the run may have changed, and that it can put it back. */
  ghost predicate BackInv(f: Field, st: Status) {
    && f.suspends.Keys == f.owned.Keys
    && (st.pausedAt.None? ==> AllBack(f) && st.paused == [] && st.suspended == [] && st.resumedAt.None?)
    && (forall i :: 0 <= i < |st.paused| ==> st.paused[i].name in f.apps && st.paused[i].replicas == f.apps[st.paused[i].name].owner)
    && (st.pausedAt.Some? ==> forall x :: x in f.apps ==> IsPaused(st, x))
    && (st.paused == [] ==> st.suspended == [] && (st.pausedAt.Some? ==> st.resumedAt.Some?))
    && (forall k :: k in st.suspended ==> k in f.owned && !f.owned[k])
    && (forall k :: k in f.owned && k !in st.suspended ==> f.suspends[k] == f.owned[k])
    && (st.pausedAt.Some? && st.resumedAt.None? ==>
          forall x :: x in f.apps && f.apps[x].flux.Some? && f.apps[x].flux.value in f.suspends ==>
                        f.apps[x].flux.value in st.suspended || f.suspends[f.apps[x].flux.value])
    && (forall i :: 0 <= i < |st.paused| && st.paused[i].resumed ==>
          AllBack(f) && st.resumedAt.Some? && forall j :: 0 <= j < |st.paused| ==> st.paused[j].resumed)
    && (Finished(st) ==> AllBack(f))
  }

  // ---------------------------------------------------------- the one cut

  /** No pod of the workload is left, and none can come back. */
  predicate Still(f: Field, x: string)
    requires x in f.apps
  {
    f.apps[x].replicas == 0 && f.apps[x].pods == 0 && Blocked(f, x)
  }

  predicate Frozen(f: Field) { forall x :: x in f.apps ==> Still(f, x) }

  /** The hypotheses of the cut: no read of the busy check failed, and a second
      boundary lies between what was there before and the pause. */
  predicate Quiet(past: Past) { !past.blind && past.ticked }

  /** baseBackupTags: what the databases add to the tags of the snapshots. */
  function TagsOf(items: seq<Item>): seq<string> {
    if items == [] then [] else TagsOf(items[..|items| - 1]) + TagOf(items[|items| - 1])
  }

  function TagOf(item: Item): seq<string> {
    if !item.Database? then []
    else if item.phase == Succeeded && item.whilePaused then [BaseBackupTag(item.name, item.baseBackup)]
    else if item.phase == Skipped then [HibernatedTag(item.name)]
    else []
  }

  function MovedTags(items: seq<Item>): seq<string> { AddTags([], [PAUSED] + TagsOf(items)) }

  /** What an item's soundness depends on besides its side. */
  datatype Context = Context(pauses: bool, pausedAt: Option<nat>, resumedAt: Option<nat>, past: Past, tags: seq<string>, settled: bool)

  function ContextOf(w: World): Context {
    Context(w.field.apps != map[], w.stored.pausedAt, w.stored.resumedAt, w.past, MovedTags(w.stored.items), DatabasesSettled(w.stored.items))
  }

  /** Every database of the run is backed up, or was hibernated. */
  predicate DatabasesSettled(items: seq<Item>) {
    forall i :: 0 <= i < |items| && items[i].Database? ==> items[i].phase == Succeeded || items[i].phase == Skipped
  }

  /** Nothing of the claim carries the run's trigger yet. */
  predicate Fresh(side: Side, t: string)
    requires side.Claim?
  {
    && (side.source.Some? ==>
          var s := side.source.value;
          s.manual != t && s.last != t && (s.clone.Some? ==> s.clone.value.trigger != t))
    && (forall id :: id in side.store ==> side.store[id].body.writer != t)
  }

  /** The clone of the run's trigger is cut, or its sync has ended. */
  predicate CutDone(side: Side, t: string) {
    && side.Claim? && side.source.Some?
    && var s := side.source.value;
       s.manual == t && (s.last == t || (OwnClone(s) && s.clone.value.cut.Some?))
  }

  /** Whatever the run's sync of a volume saved, or will save, holds version v. */
  ghost predicate HoldsVersion(side: Side, t: string, v: nat)
    requires side.Claim?
  {
    && (side.source.Some? && side.source.value.clone.Some? && side.source.value.clone.value.trigger == t ==>
          side.source.value.clone.value.cut.None? || side.source.value.clone.value.cut.value == v)
    && (forall id :: id in side.store && side.store[id].body.writer == t ==> side.store[id].body.tree == v)
  }

  /** VolSync works for the run alone since the pause. */
  ghost predicate Settled(side: Side, t: string, at: nat)
    requires side.Claim?
  {
    && (side.source.Some? ==> SourceSettled(side.source.value, t, at))
    && (forall id :: id in side.store && side.store[id].body.writer != t ==> side.store[id].time + 2 * SECOND <= at)
  }

  ghost predicate SourceSettled(s: Source, t: string, at: nat) {
    && (s.manual != t ==> !Busy(s))
    && (s.clone.Some? && s.clone.value.trigger != t ==> Truncate(s.clone.value.start) < at)
    && (s.clone.Some? && s.clone.value.trigger == t ==> s.clone.value.start >= at)
    && (s.last == t ==> s.end + SECOND > at + s.took)
    && (s.last == t && s.clone.Some? && s.clone.value.trigger == t ==> s.clone.value.cut.Some?)
  }

  /** A snapshot of the run's sync is untouched, or moved to the one moment with
      the one list of tags. */
  predicate SnapshotSound(k: Context, t: string, s: Snapshot) {
    s.body.writer == t ==>
      if PAUSED in s.tags
      then k.resumedAt == Some(s.time) && s.tags == k.tags && k.settled && k.past.cut.Some? && (Quiet(k.past) ==> s.body.tree == k.past.cut.value)
      else s.tags == [] && s.original == ""
  }

  predicate InSync(s: Source, snapshot: Snapshot) { Within(snapshot, s.end - s.took - SECOND, s.end + SECOND) }

  /** A snapshot that the run's sync saved and that is not moved yet lies in the
      window of the sync once it ended, and before that it is no older than the
      clone. */
  predicate InWindow(side: Side, t: string, snapshot: Snapshot)
    requires side.Claim?
  {
    snapshot.body.writer == t && PAUSED !in snapshot.tags ==>
      && side.source.Some?
      && if side.source.value.last == t then InSync(side.source.value, snapshot)
         else side.source.value.clone.Some? && side.source.value.clone.value.trigger == t && side.source.value.clone.value.start <= snapshot.time
  }

  /** Nothing of the run's sync is in the future. */
  predicate InPast(side: Side, t: string, now: nat) {
    side.Claim? ==>
      && (side.source.Some? && side.source.value.clone.Some? && side.source.value.clone.value.trigger == t ==> side.source.value.clone.value.start <= now)
      && (forall id :: id in side.store && side.store[id].body.writer == t && PAUSED !in side.store[id].tags ==> side.store[id].time <= now)
  }

  /** The window of a sync, one second wider on each side because its end is
      stored in whole seconds, holds everything from its start to its end. */
  lemma WindowHolds(start: nat, time: nat, finish: nat)
    requires start <= time <= finish
    ensures Truncate(finish) - (finish - start) - SECOND <= time <= Truncate(finish) + SECOND
  {
  }

  /** The sync saved no snapshot: the volume held no files. */
  predicate NothingSaved(side: Side)
    requires side.Claim? && side.source.Some?
  {
    forall id :: id in side.store ==> !InSync(side.source.value, side.store[id])
  }

  /** A snapshot that a finished item names: the moved one on a run that paused
      and backed up every database, and else the one of the sync. */
  predicate Reported(k: Context, side: Side, snapshot: Snapshot)
    requires side.Claim? && side.source.Some?
  {
    if k.pauses && k.settled then PAUSED in snapshot.tags else InSync(side.source.value, snapshot)
  }

  /** A tagged copy of a snapshot. */
  predicate HasCopy(store: Store, of: string) { exists id :: id in store && id != of && store[id].original == of && PAUSED in store[id].tags }

  /** What the item recorded about its snapshot. */
  ghost predicate RecordSound(k: Context, t: string, item: Item, side: Side)
    requires item.Volume? && side.Claim?
  {
    if item.snapshotID == "" then
      && (forall id :: id in side.store && side.store[id].body.writer == t ==> PAUSED !in side.store[id].tags)
      && (item.phase == Succeeded ==> side.source.Some? && side.source.value.manual == t && side.source.value.last == t && NothingSaved(side))
    else
      && k.resumedAt.Some? && |item.snapshotID| == ID_LENGTH && (item.phase == Running ==> k.pauses && k.settled)
      && side.source.Some? && side.source.value.manual == t && side.source.value.last == t
      && (item.phase == Running && item.snapshotID in side.store ==>
            && (side.store[item.snapshotID].body.writer == t ==> PAUSED !in side.store[item.snapshotID].tags)
            && (Quiet(k.past) ==> side.store[item.snapshotID].body.writer == t))
      && (item.phase == Running && Quiet(k.past) ==> item.snapshotID in side.store || HasCopy(side.store, item.snapshotID))
      && (item.phase == Succeeded ==> item.snapshotID in side.store && Reported(k, side, side.store[item.snapshotID]))
  }

  ghost predicate VolumeSound(k: Context, t: string, item: Item, side: Side)
    requires item.Volume?
  {
    && side.Claim? && Named(side.store)
    && (forall id :: id in side.store ==> SnapshotSound(k, t, side.store[id]) && InWindow(side, t, side.store[id]))
    && (side.source.Some? ==>
          var s := side.source.value;
          s.last == t || (s.clone.Some? && s.clone.value.trigger == t) ==> s.manual == t)
    && (Quiet(k.past) || k.resumedAt.None? ==>
          forall id :: id in side.store && PAUSED in side.store[id].tags ==> id in side.before || side.store[id].body.writer == t)
    && RecordSound(k, t, item, side)
    && (item.phase == Pending ==> item.snapshotID == "")
    && (item.phase == Running ==> side.source.Some? && side.source.value.manual == t)
    && (k.pauses && k.past.cut.None? ==> Fresh(side, t) && item.phase != Running && item.phase != Succeeded)
    && (k.past.cut.Some? && k.resumedAt.None? ==> HoldsVersion(side, t, k.past.cut.value) && item.phase != Succeeded)
    && (k.pauses && k.resumedAt.Some? && !k.past.finalizing ==> item.phase != Pending)
    && (k.past.cut.Some? && k.resumedAt.Some? && !k.past.finalizing && Quiet(k.past) && (item.phase == Running || item.phase == Succeeded) ==>
          CutDone(side, t) && HoldsVersion(side, t, k.past.cut.value))
    && (Quiet(k.past) && k.pausedAt.Some? ==> Settled(side, t, k.pausedAt.value))
  }

  predicate DatabaseSound(k: Context, bases: map<string, nat>, item: Item, side: Side)
    requires item.Database?
  {
    && side.Cluster? && (side.hibernated ==> side.slept)
    && (item.phase == Running ==> !side.dump.NoDump?)
    && (item.phase == Succeeded ==> side.dump == Completed(item.baseBackup))
    && (item.phase == Skipped ==> side.slept)
    && (item.whilePaused ==> k.past.cut.Some? && item.phase == Succeeded && item.baseBackup in bases && bases[item.baseBackup] == k.past.cut.value)
    && (k.past.cut.Some? && item.phase == Succeeded ==> item.whilePaused || item.baseBackup == "")
    && (k.pauses && k.past.cut.None? ==> side.dump == NoDump && item.phase != Running && item.phase != Succeeded)
    && (k.past.cut.Some? && k.resumedAt.None? && side.dump.Completed? && side.dump.id != "" ==>
          side.dump.id in bases && bases[side.dump.id] == k.past.cut.value)
    && (k.pauses && k.resumedAt.Some? && !k.past.finalizing ==> item.phase != Pending && item.phase != Running)
  }

  ghost predicate ItemSound(k: Context, t: string, bases: map<string, nat>, item: Item, side: Side) {
    if item.Volume? then VolumeSound(k, t, item, side) else DatabaseSound(k, bases, item, side)
  }

  ghost predicate ItemsSound(w: World, t: string) {
    && |w.sides| == |w.stored.items|
    && forall i :: 0 <= i < |w.sides| ==> ItemSound(ContextOf(w), t, w.bases, w.stored.items[i], w.sides[i])
  }

  ghost predicate CutInv(w: World, t: string) {
    && t != ""
    && ItemsSound(w, t)
    && (w.past.cut.Some? ==> w.stored.pausedAt.Some? && w.field.apps != map[])
    && (w.past.ticked ==> w.field.apps != map[])
    && (w.stored.pausedAt.Some? ==> w.stored.pausedAt.value <= w.now)
    && (forall i :: 0 <= i < |w.sides| ==> InPast(w.sides[i], t, w.now))
    && (w.past.cut.Some? && w.stored.resumedAt.None? ==> Frozen(w.field) && w.field.version == w.past.cut.value)
  }

  ghost predicate Inv(w: World, t: string) {
    && BackInv(w.field, w.stored) && CutInv(w, t)
    && (Finished(w.stored) ==> EndsRight(w.stored.items, w.stored.outcome.value) && (w.stored.outcome.value == Aborted ==> w.past.aborted))
    && (w.past.finalizing ==> w.deleting)
  }

  // ------------------------------------------------ what the environment keeps

  lemma AppKeepsBackInv(f: Field, st: Status, x: string, step: AppStep)
    requires BackInv(f, st)
    ensures BackInv(NextApp(f, x, step), st)
  {
    assert AllBack(f) ==> AllBack(NextApp(f, x, step));
  }

  /** A stopped app stays stopped, and nothing is written. */
  lemma FrozenStays(f: Field, x: string, step: AppStep)
    ensures Frozen(f) ==> NextApp(f, x, step) == f
    ensures forall y :: y in f.apps && Still(f, y) ==> y in NextApp(f, x, step).apps && Still(NextApp(f, x, step), y)
  {
    if x in f.apps { assert Frozen(f) ==> Still(f, x); }
  }

  /** The end of a sync keeps what is known about a claim. */
  lemma FinishKeepsVolume(k: Context, t: string, item: Item, side: Side, now: nat, version: nat)
    requires InPast(side, t, now)
    requires item.Volume? && VolumeSound(k, t, item, side) && t != "" && side.source.Some?
    requires k.past.cut.Some? ==> k.pausedAt.Some? && (k.resumedAt.None? ==> version == k.past.cut.value)
    requires k.pausedAt.Some? ==> k.pausedAt.value <= now
    ensures VolumeSound(k, t, item, side.(source := Some(NextSource(side.source.value, now, version, FinishSync))))
  {
    var s := side.source.value;
    if OwnClone(s) && s.clone.value.start <= now {
      forall id | id in side.store && side.store[id].body.writer == t && PAUSED !in side.store[id].tags && s.last != t
        ensures Truncate(now) - (now - s.clone.value.start) - SECOND <= side.store[id].time <= Truncate(now) + SECOND
      {
        assert InWindow(side, t, side.store[id]);
        WindowHolds(s.clone.value.start, side.store[id].time, now);
      }
    }
  }

  /** So do VolSync's other steps on the source. */
  lemma SourceKeepsVolume(k: Context, t: string, item: Item, side: Side, now: nat, version: nat, step: SideStep)
    requires InPast(side, t, now)
    requires item.Volume? && VolumeSound(k, t, item, side) && t != "" && side.source.Some?
    requires k.past.cut.Some? ==> k.pausedAt.Some? && (k.resumedAt.None? ==> version == k.past.cut.value)
    requires k.pausedAt.Some? ==> k.pausedAt.value <= now
    requires !step.FinishSync?
    ensures VolumeSound(k, t, item, side.(source := Some(NextSource(side.source.value, now, version, step))))
  {
  }

  /** So does a snapshot that its mover saves from the clone. */
  lemma SaveKeepsVolume(k: Context, t: string, item: Item, side: Side, now: nat, id: string)
    requires InPast(side, t, now)
    requires item.Volume? && VolumeSound(k, t, item, side) && t != "" && side.source.Some? && id !in side.store && |id| == ID_LENGTH
    requires Busy(side.source.value) && OwnClone(side.source.value) && side.source.value.clone.value.cut.Some?
    ensures var s := side.source.value;
            VolumeSound(k, t, item, side.(store := side.store[id := Snapshot(id, now, [], "", Body(s.manual, s.clone.value.cut.value))]))
  {
  }

  /** VolSync keeps what is known about a claim. */
  lemma SideKeepsVolume(k: Context, t: string, item: Item, side: Side, now: nat, version: nat, step: SideStep)
    requires InPast(side, t, now)
    requires item.Volume? && VolumeSound(k, t, item, side) && t != ""
    requires k.past.cut.Some? ==> k.pausedAt.Some? && (k.resumedAt.None? ==> version == k.past.cut.value)
    requires k.pausedAt.Some? ==> k.pausedAt.value <= now
    ensures VolumeSound(k, t, item, NextSide(side, now, version, step))
  {
    IsClaim(k, t, item, side);
    hide VolumeSound, NextSource;
    if side.source.Some? {
      if step.FinishSync? { FinishKeepsVolume(k, t, item, side, now, version); }
      else if !step.SaveSnapshot? { SourceKeepsVolume(k, t, item, side, now, version, step); }
      else if NextSide(side, now, version, step) != side { SaveKeepsVolume(k, t, item, side, now, step.id); }
    }
  }

  lemma IsClaim(k: Context, t: string, item: Item, side: Side)
    requires item.Volume? && VolumeSound(k, t, item, side)
    ensures side.Claim?
  {
  }

  lemma SideStaysInPast(side: Side, t: string, now: nat, version: nat, step: SideStep)
    requires InPast(side, t, now)
    ensures InPast(NextSide(side, now, version, step), t, now)
  {
  }

  lemma SideKeepsDatabase(k: Context, bases: map<string, nat>, item: Item, side: Side, now: nat, version: nat, step: SideStep)
    requires item.Database? && DatabaseSound(k, bases, item, side) && !step.CompleteDump?
    ensures DatabaseSound(k, bases, item, NextSide(side, now, version, step))
  {
  }

  /** A base backup that ends while the app is stopped holds the cut version. */
  lemma DumpKeepsDatabase(k: Context, bases: map<string, nat>, item: Item, side: Side, version: nat, id: string)
    requires item.Database? && DatabaseSound(k, bases, item, side) && id !in bases && side.Cluster? && side.dump == Started
    requires k.past.cut.Some? && k.resumedAt.None? ==> version == k.past.cut.value
    ensures DatabaseSound(k, if id == "" then bases else bases[id := version], item, side.(dump := Completed(id)))
  {
  }

  lemma MoreBases(k: Context, bases: map<string, nat>, item: Item, side: Side, id: string, version: nat)
    requires item.Database? && DatabaseSound(k, bases, item, side) && id !in bases
    ensures DatabaseSound(k, bases[id := version], item, side)
  {
  }

  lemma AppKeepsInv(w: World, t: string, x: string, step: AppStep)
    requires Inv(w, t)
    ensures Inv(w.(field := NextApp(w.field, x, step)), t)
  {
    AppKeepsBackInv(w.field, w.stored, x, step);
    FrozenStays(w.field, x, step);
    var w' := w.(field := NextApp(w.field, x, step));
    assert w'.field.apps.Keys == w.field.apps.Keys;
    assert ContextOf(w') == ContextOf(w);
  }

  lemma SideKeepsItem(w: World, t: string, i: nat, step: SideStep, j: nat)
    requires Inv(w, t) && i < |w.sides| && j < |w.sides|
    ensures var w' := EnvNext(w, OnSide(i, step));
            ItemSound(ContextOf(w), t, w'.bases, w.stored.items[j], w'.sides[j])
  {
    hide VolumeSound, BackInv, NextSource;
    var k, item, side := ContextOf(w), w.stored.items[j], w.sides[j];
    assert ItemSound(k, t, w.bases, item, side);
    if item.Volume? {
      if j == i { SideKeepsVolume(k, t, item, side, w.now, w.field.version, step); }
    } else if !step.CompleteDump? {
      if j == i { SideKeepsDatabase(k, w.bases, item, side, w.now, w.field.version, step); }
    } else if step.base !in w.bases {
      if j != i { MoreBases(k, w.bases, item, side, step.base, w.field.version); }
      else if side.dump == Started { DumpKeepsDatabase(k, w.bases, item, side, w.field.version, step.base); }
    }
  }

  lemma OnSideKeepsInv(w: World, t: string, i: nat, step: SideStep)
    requires Inv(w, t)
    ensures Inv(EnvNext(w, OnSide(i, step)), t)
  {
    hide ItemSound, InPast, BackInv, NextSide, TagsOf, DatabasesSettled;
    if i < |w.sides| {
      var w' := EnvNext(w, OnSide(i, step));
      forall j | 0 <= j < |w.sides|
        ensures ItemSound(ContextOf(w), t, w'.bases, w.stored.items[j], w'.sides[j]) && InPast(w'.sides[j], t, w.now)
      {
        SideKeepsItem(w, t, i, step, j);
        SideStaysInPast(w.sides[j], t, w.now, w.field.version, step);
      }
      SidesKeepInv(w, t, w'.sides, w'.bases);
    }
  }

  /** A change of the sides alone is judged item by item. */
  lemma SidesKeepInv(w: World, t: string, sides: seq<Side>, bases: map<string, nat>)
    requires Inv(w, t) && |sides| == |w.sides|
    requires forall j :: 0 <= j < |sides| ==> ItemSound(ContextOf(w), t, bases, w.stored.items[j], sides[j])
    requires forall j :: 0 <= j < |sides| ==> InPast(sides[j], t, w.now)
    ensures Inv(w.(sides := sides, bases := bases), t)
  {
    hide ItemSound, InPast, BackInv, TagsOf, DatabasesSettled;
    assert ContextOf(w.(sides := sides, bases := bases)) == ContextOf(w);
  }

  lemma TickKeepsInv(w: World, t: string, ns: nat)
    requires Inv(w, t)
    ensures Inv(w.(now := w.now + ns), t)
  {
    assert ContextOf(w.(now := w.now + ns)) == ContextOf(w);
  }

  lemma DeleteKeepsInv(w: World, t: string)
    requires Inv(w, t)
    ensures Inv(w.(deleting := true), t)
  {
    assert ContextOf(w.(deleting := true)) == ContextOf(w);
  }

  /** Every step of the environment keeps the invariant. */
  lemma EnvKeepsInv(w: World, t: string, e: EnvStep)
    requires Inv(w, t)
    ensures Inv(EnvNext(w, e), t)
  {
    match e
    case Tick(ns) => TickKeepsInv(w, t, ns);
    case OnApp(x, step) => AppKeepsInv(w, t, x, step);
    case OnSide(i, step) => OnSideKeepsInv(w, t, i, step);
    case DeleteRun => DeleteKeepsInv(w, t);
  }

  /** What never changes of a side: the snapshots that were tagged before the run,
      and whether its backup can't be started at all. */
  datatype Fixed = Fixed(before: set<string>, cannot: bool)

  /** The claim with its settings or the Cluster is not there, or the source is
      somebody else's. */
  predicate CannotStart(side: Side) { !side.ready || (side.Claim? && side.source.Some? && !side.source.value.managed) }

  function FixedOf(side: Side): Fixed { Fixed(if side.Claim? then side.before else {}, CannotStart(side)) }

  function FixedParts(sides: seq<Side>): (r: seq<Fixed>)
    ensures |r| == |sides| && forall i :: 0 <= i < |sides| ==> r[i] == FixedOf(sides[i])
  {
    seq(|sides|, i requires 0 <= i < |sides| => FixedOf(sides[i]))
  }

  lemma SideKeepsFixed(side: Side, now: nat, version: nat, step: SideStep)
    ensures FixedOf(NextSide(side, now, version, step)) == FixedOf(side)
  {
  }

  lemma EnvKeepsFixed(w: World, e: EnvStep)
    ensures FixedParts(EnvNext(w, e).sides) == FixedParts(w.sides)
  {
    hide NextSide, FixedOf;
    if e.OnSide? && e.i < |w.sides| { SideKeepsFixed(w.sides[e.i], w.now, w.field.version, e.side); }
  }

  /** The environment never touches the run's status, so an in-memory copy of
      the status is as good after its step as it was before. */
  lemma EnvIgnoresStatus(w: World, st: Status, e: EnvStep)
    ensures EnvNext(w.(stored := st), e) == EnvNext(w, e).(stored := st)
  {
  }

  /** What a pass may rely on while other things happen. */
  ghost predicate Rely(w: World, w': World, t: string) {
    && w'.stored == w.stored && w'.past == w.past && w'.now >= w.now
    && (w.deleting ==> w'.deleting)
    && w'.field.apps.Keys == w.field.apps.Keys && w'.field.suspends == w.field.suspends && w'.field.owned == w.field.owned
    && (forall x :: x in w.field.apps ==>
          && w'.field.apps[x].owner == w.field.apps[x].owner && w'.field.apps[x].flux == w.field.apps[x].flux
          && (w.field.apps[x].replicas == w.field.apps[x].owner ==> w'.field.apps[x].replicas == w.field.apps[x].owner)
          && (w.field.apps[x].replicas == 0 && Blocked(w.field, x) ==> w'.field.apps[x].replicas == 0)
          && (Still(w.field, x) ==> Still(w'.field, x)))
    && |w'.sides| == |w.sides|
    && (forall i :: 0 <= i < |w.sides| ==> SideRely(w.sides[i], w'.sides[i], t))
    && (forall id :: id in w.bases ==> id in w'.bases && w'.bases[id] == w.bases[id])
  }

  ghost predicate SideRely(side: Side, side': Side, t: string) {
    && side.Claim? == side'.Claim? && side.ready == side'.ready
    && (CutDone(side, t) ==> CutDone(side', t))
    && (side.Claim? && side.source.Some? ==> side'.source.Some? && SourceRely(side.source.value, side'.source.value))
    && (side.Claim? && side.source.None? ==> side' == side)
    && (side.Claim? && side.source.Some? && !Busy(side.source.value) ==> side'.store == side.store)
    && (side.Cluster? && !side.dump.Started? ==> side'.dump == side.dump)
    && (side.Cluster? && side.dump.Started? ==> !side'.dump.NoDump?)
  }

  ghost predicate SourceRely(s: Source, s': Source) {
    && s'.manual == s.manual && s'.managed == s.managed && (s.failing ==> s'.failing)
    && (!Busy(s) ==>
          && s'.last == s.last && s'.end == s.end && s'.took == s.took
          && (s'.clone.Some? ==>
                s.clone.Some? && s'.clone.value.trigger == s.clone.value.trigger && s'.clone.value.start == s.clone.value.start))
  }

  lemma SideIsRelied(side: Side, now: nat, version: nat, step: SideStep, t: string)
    requires t != ""
    ensures SideRely(side, NextSide(side, now, version, step), t)
  {
  }

  lemma AppIsRelied(w: World, x: string, step: AppStep, t: string)
    ensures Rely(w, w.(field := NextApp(w.field, x, step)), t)
  {
    FrozenStays(w.field, x, step);
    forall i | 0 <= i < |w.sides| ensures SideRely(w.sides[i], w.sides[i], t) { SideRelyReflexive(w.sides[i], t); }
  }

  lemma SideRelyReflexive(side: Side, t: string)
    ensures SideRely(side, side, t)
  {
  }

  lemma EnvIsRelied(w: World, e: EnvStep, t: string)
    requires t != ""
    ensures Rely(w, EnvNext(w, e), t)
  {
    if e.OnApp? {
      AppIsRelied(w, e.x, e.app, t);
    } else {
      forall j | 0 <= j < |w.sides| ensures SideRely(w.sides[j], EnvNext(w, e).sides[j], t) {
        SideRelyReflexive(w.sides[j], t);
        if e.OnSide? && e.i == j { SideIsRelied(w.sides[j], w.now, w.field.version, e.side, t); }
      }
    }
  }

  lemma RelyReflexive(w: World, t: string)
    ensures Rely(w, w, t)
  {
    forall i | 0 <= i < |w.sides| ensures SideRely(w.sides[i], w.sides[i], t) { SideRelyReflexive(w.sides[i], t); }
  }

  lemma RelyTransitive(w: World, v: World, u: World, t: string)
    requires Rely(w, v, t) && Rely(v, u, t)
    ensures Rely(w, u, t)
  {
    forall i | 0 <= i < |w.sides| ensures SideRely(w.sides[i], u.sides[i], t) {
      assert SideRely(w.sides[i], v.sides[i], t) && SideRely(v.sides[i], u.sides[i], t);
    }
  }
}

/**
 The passes of one BackupRun with spec.all, call by call.

 Before every call the environment takes any number of steps, and every call
 may fail before or after it took effect. A process that stops at a call is one
 whose remaining calls all fail before they take effect: the next pass starts
 from the stored status, as it does after a stop.
 */
module BackupRuns {
  import opened Common
  import opened Restic
  import opened Retime
  import opened BackupWorld
  import opened BackupEffects
  import Leases

  // --------------------------------------------------- items only go forward

  /** An item descends Pending, Running, done, and never changes once done. */
  predicate ItemOnward(a: Item, b: Item) {
    && a.Volume? == b.Volume? && a.name == b.name
    && (b.phase == a.phase || Rank(b.phase) < Rank(a.phase))
    && (Rank(a.phase) == 0 ==> b == a)
  }

  ghost predicate Onward(a: Status, b: Status) {
    && |a.items| == |b.items| && (forall i :: 0 <= i < |a.items| ==> ItemOnward(a.items[i], b.items[i]))
    && (a.pausedAt.Some? ==> b.pausedAt == a.pausedAt)
    && (a.resumedAt.Some? ==> b.resumedAt == a.resumedAt)
    && (a.outcome.Some? ==> b.outcome == a.outcome && b.items == a.items)
  }

  lemma OnwardTransitive(a: Status, b: Status, c: Status)
    requires Onward(a, b) && Onward(b, c)
    ensures Onward(a, c)
  {
    forall i | 0 <= i < |a.items| ensures ItemOnward(a.items[i], c.items[i]) {
      assert ItemOnward(a.items[i], b.items[i]) && ItemOnward(b.items[i], c.items[i]);
    }
  }

  lemma OneItemOnward(a: Status, b: Status, i: nat, item: Item)
    requires Onward(a, b) && !Finished(b) && i < |b.items| && ItemOnward(b.items[i], item)
    ensures Onward(a, b.(items := b.items[i := item]))
  {
    OnwardTransitive(a, b, b.(items := b.items[i := item]));
  }

  /** Where a process can stop: the cluster, and whether a Lease names the run. */
  datatype Moment = Moment(w: World, named: bool)

  ghost predicate Traced(trace: seq<Moment>, t: string, first: seq<Fixed>) {
    forall i :: 0 <= i < |trace| ==>
      Inv(trace[i].w, t) && FixedParts(trace[i].w.sides) == first && (Finished(trace[i].w.stored) ==> !trace[i].named)
  }

  predicate Resumed(st: Status) {
    st.resumedAt.Some? && forall i :: 0 <= i < |st.paused| ==> st.paused[i].resumed
  }

  /** Scaled to zero, and nothing scales it back up. */
  predicate Stopped(f: Field, x: string) {
    x in f.apps && f.apps[x].replicas == 0 && Blocked(f, x)
  }

  /** What the environment leaves alone of a stopped or a running app. */
  lemma RelyFacts(w: World, w': World, t: string)
    requires Rely(w, w', t)
    ensures w'.stored == w.stored && w'.past == w.past && w'.field.suspends == w.field.suspends && w'.field.owned == w.field.owned
    ensures w'.field.apps.Keys == w.field.apps.Keys && |w'.sides| == |w.sides|
    ensures forall x :: Stopped(w.field, x) ==> Stopped(w'.field, x)
    ensures forall x :: x in w.field.apps && Blocked(w.field, x) ==> Blocked(w'.field, x)
    ensures forall x :: x in w.field.apps && Still(w.field, x) ==> Still(w'.field, x)
    ensures forall x :: x in w.field.apps && w.field.apps[x].replicas == w.field.apps[x].owner ==> w'.field.apps[x].replicas == w'.field.apps[x].owner
    ensures AllBack(w.field) ==> AllBack(w'.field)
  {
    assert forall x :: x in w.field.apps ==> x in w'.field.apps;
  }

  predicate AtOwner(f: Field, x: string) { x in f.apps && f.apps[x].replicas == f.apps[x].owner }

  lemma MarkedIsBack(w: World, t: string, i: nat)
    requires Inv(w, t) && i < |w.stored.paused| && w.stored.paused[i].resumed
    ensures AtOwner(w.field, w.stored.paused[i].name)
  {
  }

  lemma UnsuspendedIsBack(w: World, t: string)
    requires Inv(w, t) && forall x :: x in w.field.apps ==> AtOwner(w.field, x)
    requires forall j :: 0 <= j < |w.stored.suspended| ==> w.stored.suspended[j] in w.field.suspends && !w.field.suspends[w.stored.suspended[j]]
    ensures AllBack(w.field)
  {
    forall key | key in w.field.owned ensures w.field.suspends[key] == w.field.owned[key] {
      if key in w.stored.suspended { var j :| 0 <= j < |w.stored.suspended| && w.stored.suspended[j] == key; }
    }
  }

  lemma ResumeIsOnward(a: Status, b: Status, at: nat)
    requires Onward(a, b) && b.resumedAt.None?
    ensures Onward(a, b.(resumedAt := Some(at)))
  {
  }

  lemma NearItself(st: Status)
    ensures Near(st, st, 0)
  {
  }

  lemma MarkedIsOnward(a: Status, b: Status, paused: seq<PausedWorkload>)
    requires Onward(a, b)
    ensures Onward(a, b.(paused := paused))
  {
  }

  lemma NearMarked(run: Status, stored: Status, from: nat, paused: seq<PausedWorkload>)
    requires Near(run, stored, from)
    ensures Near(run.(paused := paused), stored, from)
  {
  }

  lemma NotPausedIsBack(w: World, t: string)
    requires Inv(w, t) && (w.stored.pausedAt.None? || Resumed(w.stored))
    ensures AllBack(w.field)
  {
    if w.stored.paused != [] { assert w.stored.paused[0].resumed || w.stored.pausedAt.None?; }
    else if w.stored.pausedAt.Some? { assert forall x :: x in w.field.apps ==> IsPaused(w.stored, x); }
  }

  lemma FinishIsOnward(a: Status, b: Status, e: Ending)
    requires Onward(a, b) && !Finished(b)
    ensures Onward(a, b.(outcome := Some(e)))
  {
  }

  lemma CollectedNear(run: Status, stored: Status, i: nat, item: Item)
    requires Near(run, stored, i) && !Finished(run) && i < |run.items| && ItemOnward(run.items[i], item)
    ensures Near(run.(items := run.items[i := item]), stored, i + 1)
  {
    OneItemOnward(stored, run, i, item);
  }

  lemma IdleStays(side: Side, side': Side, t: string)
    requires SideRely(side, side', t) && Idle(side, t)
    ensures Idle(side', t)
  {
  }

  lemma ClusterIsIdle(side: Side, t: string)
    requires side.Cluster?
    ensures Idle(side, t)
  {
  }

  lemma IdleAllStay(w: World, w': World, t: string)
    requires Rely(w, w', t)
    ensures (forall i :: 0 <= i < |w.sides| ==> Idle(w.sides[i], t)) ==> forall i :: 0 <= i < |w'.sides| ==> Idle(w'.sides[i], t)
  {
    if forall i :: 0 <= i < |w.sides| ==> Idle(w.sides[i], t) {
      forall i | 0 <= i < |w'.sides| ensures Idle(w'.sides[i], t) { IdleStays(w.sides[i], w'.sides[i], t); }
    }
  }

  /** The workloads in some order. */
  predicate Enumerates(order: seq<string>, apps: map<string, App>) {
    (forall x :: x in apps ==> x in order) && (forall x :: x in order ==> x in apps)
  }

  lemma EnumeratesAll(order: seq<string>, apps: map<string, App>)
    requires Enumerates(order, apps)
    ensures forall i :: 0 <= i < |order| ==> order[i] in apps
  {
    forall i | 0 <= i < |order| ensures order[i] in apps { assert order[i] in order; }
  }

  /** The Kustomization of a workload is suspended already, or will be. */
  predicate Covered(f: Field, suspend: seq<string>, x: string) {
    x in f.apps ==> Blocked(f, x) || f.apps[x].flux.value in suspend
  }

  /** What pausePlan read before is still so: nothing is paused yet. */
  lemma ListedIsPlanned(w: World, w': World, t: string, order: seq<string>, paused: seq<PausedWorkload>, suspend: seq<string>)
    requires Inv(w', t) && Rely(w, w', t) && w'.stored.pausedAt.None? && Inv(w, t)
    requires Enumerates(order, w.field.apps)
    requires |paused| == |order| && forall i :: 0 <= i < |order| ==> order[i] in w.field.apps && paused[i] == PausedWorkload(order[i], w.field.apps[order[i]].replicas, false)
    requires forall key :: key in suspend ==> key in w.field.suspends && !w.field.suspends[key]
    requires forall j :: 0 <= j < |order| ==> Covered(w.field, suspend, order[j])
    requires order == [] ==> suspend == []
    ensures Plans(w'.field, paused, suspend)
  {
    hide CutInv;
    RelyFacts(w, w', t);
    assert AllBack(w.field) && AllBack(w'.field);
    forall x | x in w'.field.apps ensures exists i :: 0 <= i < |paused| && paused[i].name == x {
      var i :| 0 <= i < |order| && order[i] == x;
      assert paused[i].name == x;
    }
    forall x | x in w'.field.apps && w'.field.apps[x].flux.Some? && w'.field.apps[x].flux.value in w'.field.suspends
      ensures w'.field.apps[x].flux.value in suspend || w'.field.suspends[w'.field.apps[x].flux.value]
    {
      var j :| 0 <= j < |order| && order[j] == x;
      assert Covered(w.field, suspend, order[j]);
    }
  }

  lemma PauseIsOnward(a: Status, b: Status, paused: seq<PausedWorkload>, suspend: seq<string>, at: nat)
    requires Onward(a, b) && b.pausedAt.None? && b.resumedAt.None?
    ensures Onward(a, PausedStatus(b, paused, suspend, at))
  {
  }

  lemma TruncateIsBefore(now: nat)
    ensures Truncate(now) <= now
  {
  }

  lemma ResumedHasNoPending(w: World, t: string)
    requires Inv(w, t) && !w.past.finalizing && w.stored.resumedAt.Some? && w.field.apps != map[]
    ensures !AnyPending(w.stored.items)
  {
    forall i | 0 <= i < |w.stored.items| ensures w.stored.items[i].phase != Pending { ItemAt(w, t, i); }
  }

  lemma NotFinalizing(w: World, t: string)
    requires Inv(w, t)
    ensures !w.deleting ==> !w.past.finalizing
  {
  }

  lemma OnwardItself(st: Status)
    ensures Onward(st, st)
  {
  }

  lemma SideFacts(w: World, w': World, t: string, i: nat)
    requires Rely(w, w', t) && i < |w.sides|
    ensures i < |w'.sides| && SideRely(w.sides[i], w'.sides[i], t)
  {
  }

  /** The copy in memory went on from the stored one without another moment or
      another record of a snapshot, from item `from` on. */
  ghost predicate Near(run: Status, stored: Status, from: nat) {
    && Onward(stored, run) && run.suspended == stored.suspended && run.resumedAt == stored.resumedAt
    && (forall i :: from <= i < |run.items| && run.items[i].Volume? && run.items[i].snapshotID != "" ==> run.items[i] == stored.items[i])
  }

  lemma OneItemNear(run: Status, stored: Status, i: nat, item: Item)
    requires Near(run, stored, 0) && !Finished(run) && i < |run.items| && ItemOnward(run.items[i], item) && (item.Volume? ==> item.snapshotID == "")
    ensures Near(run.(items := run.items[i := item]), stored, 0)
  {
    OneItemOnward(stored, run, i, item);
  }

  lemma KindsAgree(run: Status, stored: Status, i: nat)
    requires Onward(stored, run) && i < |run.items|
    ensures |stored.items| == |run.items| && stored.items[i].Volume? == run.items[i].Volume?
  {
    assert ItemOnward(stored.items[i], run.items[i]);
  }

  lemma {:induction false} SameTags(a: seq<Item>, b: seq<Item>)
    requires |a| == |b| && forall i :: 0 <= i < |a| ==> TagOf(a[i]) == TagOf(b[i])
    ensures TagsOf(a) == TagsOf(b)
  {
    if a != [] { SameTags(a[..|a| - 1], b[..|b| - 1]); }
  }

  /** After the resume the tags are final. */
  lemma TagsAreFinal(w: World, t: string, run: Status)
    requires Inv(w, t) && Onward(w.stored, run) && w.field.apps != map[] && w.stored.resumedAt.Some? && !w.past.finalizing
    ensures TagsOf(run.items) == TagsOf(w.stored.items)
  {
    forall i | 0 <= i < |run.items| ensures TagOf(run.items[i]) == TagOf(w.stored.items[i]) {
      assert ItemOnward(w.stored.items[i], run.items[i]);
      assert ItemSound(ContextOf(w), t, w.bases, w.stored.items[i], w.sides[i]);
    }
    SameTags(run.items, w.stored.items);
  }

  lemma PendingHasNoRecord(w: World, t: string, run: Status, i: nat)
    requires Inv(With(w, run), t) && Near(run, w.stored, 0) && i < |run.items| && run.items[i].Volume? && run.items[i].phase == Pending
    ensures run.items[i].snapshotID == "" && |w.stored.items| == |run.items| && w.stored.items[i].Volume?
  {
    assert ItemOnward(w.stored.items[i], run.items[i]);
    ItemAt(With(w, run), t, i);
  }

  lemma PausedMeansApps(w: World, t: string)
    requires Inv(w, t)
    ensures w.stored.paused != [] ==> w.field.apps != map[]
    ensures w.stored.paused == [] && w.stored.pausedAt.Some? ==> w.field.apps == map[] && w.stored.resumedAt.Some?
  {
    if w.stored.paused != [] { assert w.stored.paused[0].name in w.field.apps; }
    else if w.stored.pausedAt.Some? {
      assert forall x :: x in w.field.apps ==> IsPaused(w.stored, x);
      assert w.field.apps == map[];
    }
  }

  lemma RunningHasSource(w: World, t: string, i: nat)
    requires Inv(w, t) && i < |w.stored.items| && w.stored.items[i].Volume? && w.stored.items[i].phase == Running
    ensures i < |w.sides| && w.sides[i].Claim? && w.sides[i].source.Some? && w.sides[i].source.value.manual == t && t != ""
  {
    ItemAt(w, t, i);
  }

  /** After the resume a database item is done. */
  lemma ResumedIsSettled(w: World, t: string, i: nat)
    requires Inv(w, t) && i < |w.stored.items| && !w.past.finalizing
    ensures w.stored.items[i].Database? && w.past.cut.Some? && w.stored.resumedAt.Some? ==> Rank(w.stored.items[i].phase) == 0
  {
    ItemAt(w, t, i);
  }

  lemma ResumedAndNoneFailed(w: World, t: string)
    requires Inv(w, t) && !w.past.finalizing && w.stored.resumedAt.Some? && w.field.apps != map[] && !DatabaseFailed(w.stored.items)
    ensures DatabasesSettled(w.stored.items)
  {
    forall i | 0 <= i < |w.stored.items| && w.stored.items[i].Database? ensures w.stored.items[i].phase == Succeeded || w.stored.items[i].phase == Skipped {
      ItemAt(w, t, i);
    }
  }

  /** A source that is done with its trigger stays as it is. */
  lemma IdleSourceStays(side: Side, side': Side, t: string)
    requires SideRely(side, side', t) && side.Claim? && side.source.Some? && !Busy(side.source.value)
    ensures side'.Claim? && side'.source.Some? && side'.store == side.store
    ensures var s, s' := side.source.value, side'.source.value; s'.manual == s.manual && s'.last == s.last && s'.end == s.end && s'.took == s.took
  {
  }

  lemma ResumedWhenCollected(w: World, t: string)
    requires Inv(w, t) && w.stored.pausedAt.Some? && (w.stored.paused != [] ==> w.stored.resumedAt.Some?)
    ensures w.stored.resumedAt.Some?
  {
    PausedMeansApps(w, t);
  }

  /** A recorded snapshot moves after the resume, on a run that paused. */
  lemma MovesAfterResume(w: World, t: string, i: nat)
    requires Inv(w, t) && i < |w.stored.items| && !w.past.finalizing
    requires w.stored.items[i].Volume? && w.stored.items[i].phase == Running && w.stored.items[i].snapshotID != ""
    ensures w.field.apps != map[] && w.stored.resumedAt.Some? && w.past.cut.Some?
    ensures i < |w.sides| && w.sides[i].Claim? && w.sides[i].source.Some? && w.sides[i].source.value.last == t
    ensures Named(w.sides[i].store) && |w.stored.items[i].snapshotID| == ID_LENGTH
  {
    ItemAt(w, t, i);
  }

  /** The move of a recorded snapshot is good for the stored status and for the
      one in memory. */
  lemma MoveKeepsItems(w: World, run: Status, t: string, i: nat, c: Call)
    requires Inv(w, t) && Inv(With(w, run), t) && Near(run, w.stored, i) && i < |run.items| && !w.past.finalizing
    requires run.items[i].Volume? && run.items[i].phase == Running && run.items[i].snapshotID != ""
    requires i < |w.sides| && w.sides[i].Claim? && Fair(w.sides[i].store, w.sides[i].store, c)
    ensures i < |w.stored.items| && run.resumedAt.Some?
    ensures var r := MoveRequest(run, run.items[i].snapshotID);
            var outcome := Retimed(w.sides[i].store, r, c);
            var side := w.sides[i].(store := outcome.store);
            && ItemSound(ContextOf(w), t, w.bases, w.stored.items[i], side)
            && ItemSound(ContextOf(With(w, run)), t, w.bases, run.items[i], side)
            && InPast(side, t, w.now)
            && side.source.Some? && side.source.value.last == t
            && (outcome.result.Some? ==>
                  ItemSound(ContextOf(With(w, run)), t, w.bases, Volume(run.items[i].name, Succeeded, outcome.result.value.id), side))
            && (c.put.NoFault? && c.remove.NoFault? && Quiet(w.past) ==> outcome.result.Some?)
  {
    hide Inv, Onward, VolumeSound, Retimed, Fair, Quiet, TagsOf, DatabasesSettled;
    KindsAgree(run, w.stored, i);
    ItemAt(w, t, i);
    ItemAt(With(w, run), t, i);
    MovesAfterResume(With(w, run), t, i);
    TagsAreFinal(w, t, run);
    var item, r := run.items[i], MoveRequest(run, run.items[i].snapshotID);
    MoveIsSound(ContextOf(w), t, item, w.sides[i], r, c);
    MoveIsSound(ContextOf(With(w, run)), t, item, w.sides[i], r, c);
    MoveStaysInPast(w.sides[i], t, w.now, r, c);
    if c.put.NoFault? && c.remove.NoFault? && Quiet(w.past) { MoveReturns(ContextOf(w), t, item, w.sides[i], r, c); }
  }

  predicate AnyPending(items: seq<Item>) { exists i :: 0 <= i < |items| && items[i].phase == Pending }

  predicate DatabasesRunning(items: seq<Item>) { exists i :: 0 <= i < |items| && items[i].Database? && items[i].phase == Running }

  predicate DatabaseFailed(items: seq<Item>) { exists i :: 0 <= i < |items| && items[i].Database? && items[i].phase == ItemPhase.Failed }

  // --------------------------------------------------- what a pass gets done

  /** The backup of an item has ended. */
  predicate Ripe(side: Side, t: string) {
    match side
    case Claim(source, _, _, _) => source.Some? && source.value.last == t
    case Cluster(_, _, dump, _) => dump.Completed? || dump.Broken?
  }

  /** Its mover or its Backup failed. */
  predicate Broke(side: Side) {
    match side
    case Claim(source, _, _, _) => source.Some? && source.value.failing
    case Cluster(_, _, dump, _) => dump.Broken?
  }

  /** An item that failed in this pass has a cause in the cluster. */
  ghost predicate Caused(began: seq<Item>, items: seq<Item>, sides: seq<Side>) {
    && |began| == |items| == |sides|
    && forall i :: 0 <= i < |sides| && items[i].phase == ItemPhase.Failed && began[i].phase != ItemPhase.Failed ==> CannotStart(sides[i]) || Broke(sides[i])
  }

  ghost predicate AllRipe(ripe: set<nat>, sides: seq<Side>, t: string) { forall i :: i in ripe ==> i < |sides| && Ripe(sides[i], t) }

  ghost function RipeNow(sides: seq<Side>, t: string): (r: set<nat>)
    ensures AllRipe(r, sides, t) && AllRipe({}, sides, t) && forall i :: 0 <= i < |sides| && Ripe(sides[i], t) ==> i in r
  {
    set i: nat | 0 <= i < |sides| && Ripe(sides[i], t)
  }

  /** The run's trigger undoes nothing. */
  lemma TriggerKeepsProgress(side: Side, t: string)
    requires side.Claim?
    ensures Broke(side) ==> Broke(Triggered(side, t))
    ensures Ripe(side, t) ==> Ripe(Triggered(side, t), t)
    ensures FixedOf(Triggered(side, t)) == FixedOf(side)
  {
  }

  lemma StoreKeepsProgress(side: Side, store: Store, t: string)
    requires side.Claim?
    ensures Broke(side) == Broke(side.(store := store)) && Ripe(side, t) == Ripe(side.(store := store), t)
    ensures FixedOf(side.(store := store)) == FixedOf(side)
  {
  }

  /** A step of the environment mends nothing that broke, and undoes no backup. */
  lemma SideStaysRipe(side: Side, now: nat, version: nat, step: SideStep, t: string)
    requires side.Claim? && side.source.Some? && side.source.value.last == t ==> side.source.value.manual == t
    ensures Ripe(side, t) ==> Ripe(NextSide(side, now, version, step), t)
    ensures Broke(side) ==> Broke(NextSide(side, now, version, step))
    ensures CannotStart(NextSide(side, now, version, step)) == CannotStart(side)
  {
  }

  lemma LastMeansManual(w: World, t: string, i: nat)
    requires Inv(w, t) && i < |w.sides|
    ensures w.sides[i].Claim? && w.sides[i].source.Some? && w.sides[i].source.value.last == t ==> w.sides[i].source.value.manual == t
  {
    assert ItemSound(ContextOf(w), t, w.bases, w.stored.items[i], w.sides[i]);
  }

  lemma EnvKeepsProgress(w: World, t: string, e: EnvStep, ripe: set<nat>)
    requires Inv(w, t)
    ensures AllRipe(ripe, w.sides, t) ==> AllRipe(ripe, EnvNext(w, e).sides, t)
    ensures forall began, items :: Caused(began, items, w.sides) ==> Caused(began, items, EnvNext(w, e).sides)
  {
    hide Inv, NextSide, Ripe, Broke, CannotStart;
    if e.OnSide? && e.i < |w.sides| {
      LastMeansManual(w, t, e.i);
      SideStaysRipe(w.sides[e.i], w.now, w.field.version, e.side, t);
    }
  }

  /** Another item keeps the causes of the rest. */
  lemma OneItemCaused(began: seq<Item>, items: seq<Item>, sides: seq<Side>, i: nat, item: Item)
    requires Caused(began, items, sides) && i < |items|
    requires item.phase == ItemPhase.Failed ==> CannotStart(sides[i]) || Broke(sides[i]) || items[i].phase == ItemPhase.Failed
    ensures Caused(began, items[i := item], sides)
  {
    hide CannotStart, Broke;
  }

  lemma OneSideCaused(sides: seq<Side>, i: nat, side: Side)
    requires i < |sides| && (CannotStart(sides[i]) ==> CannotStart(side)) && (Broke(sides[i]) ==> Broke(side))
    ensures forall began, items :: Caused(began, items, sides) ==> Caused(began, items, sides[i := side])
  {
    hide CannotStart, Broke;
  }

  lemma OneSideRipe(ripe: set<nat>, sides: seq<Side>, i: nat, side: Side, t: string)
    requires AllRipe(ripe, sides, t) && i < |sides| && (Ripe(sides[i], t) ==> Ripe(side, t))
    ensures AllRipe(ripe, sides[i := side], t)
  {
    hide Ripe;
  }

  lemma SameItemsCaused(items: seq<Item>, sides: seq<Side>)
    requires |sides| == |items|
    ensures Caused(items, items, sides)
  {
  }

  /** A ripe item was collected: it is done, or its snapshot is recorded and waits
      for the move of the next pass. */
  predicate Collected(was: Item, now: Item, quiet: bool) {
    now.phase != Running || (was.Volume? && now.Volume? && (if was.snapshotID == "" then now.snapshotID != "" else !quiet))
  }

  predicate Collectable(st: Status) { st.paused == [] || st.resumedAt.Some? }

  predicate PodsLeft(f: Field) { exists x :: x in f.apps && f.apps[x].pods > 0 }

  predicate SomeBusy(sides: seq<Side>, t: string) { exists i :: 0 <= i < |sides| && !Idle(sides[i], t) }

  predicate CloneLooksCut(side: Side, pausedAt: nat) {
    side.Claim? && side.source.Some? && side.source.value.clone.Some?
    && side.source.value.clone.value.cut.Some? && Truncate(side.source.value.clone.value.start) >= pausedAt
  }

  /** Some volume has no clone yet that counts. */
  ghost predicate NotCut(items: seq<Item>, sides: seq<Side>, pausedAt: nat) {
    exists i :: 0 <= i < |items| && i < |sides| && items[i].Volume?
                && (items[i].phase == Pending || (items[i].phase == Running && !CloneLooksCut(sides[i], pausedAt)))
  }

  predicate NoPendingVolume(items: seq<Item>) { forall i :: 0 <= i < |items| && items[i].Volume? ==> items[i].phase != Pending }

  /** The syncs of all Running volumes have ended. */
  predicate VolumesRipe(items: seq<Item>, ripe: set<nat>) {
    forall i :: 0 <= i < |items| && items[i].Volume? && items[i].phase == Running ==> i in ripe
  }

  /** Every ripe item that was Running is collected. */
  ghost predicate AllCollected(was: Status, now: Status, ripe: set<nat>, quiet: bool) {
    |was.items| == |now.items| && forall i :: 0 <= i < |was.items| && i in ripe && was.items[i].phase == Running && (was.items[i].Database? || Collectable(was)) ==>
      Collected(was.items[i], now.items[i], quiet)
  }

  /** The pause is stored, and the app scaled to zero where there is one. */
  ghost predicate PauseHolds(w: World) {
    w.stored.pausedAt.Some? && (Pausing(w.stored) ==> forall x :: x in w.field.apps ==> Stopped(w.field, x))
  }

  /** Why a pass ends. */
  datatype Wait = Ended | ForLease | ForSource | JustPaused | ForPods | Working

  /** A pass that got through did all there was to do. */
  ghost predicate WorkedThrough(was: Status, now: Status, ripe: set<nat>, quiet: bool) {
    && !AnyPending(now.items) && !(AllDone(now.items) && Resumed(now))
    && (now.resumedAt.Some? ==> Resumed(now))
    && AllCollected(was, now, ripe, quiet)
    && (!AnyPending(was.items) && VolumesRipe(was.items, ripe) && !DatabasesRunning(was.items) ==> now.resumedAt.Some?)
  }

  /** On a quiet run no source is busy with another trigger. */
  lemma QuietIsIdle(w: World, t: string, i: nat)
    requires Inv(w, t) && i < |w.stored.items| && w.stored.items[i].Volume? && Quiet(w.past) && w.stored.pausedAt.Some?
    ensures i < |w.sides| && Idle(w.sides[i], t)
  {
    ItemAt(w, t, i);
  }

  /** What a Running database item becomes. */
  function ResultOf(dump: Dump, item: Item, paused: bool): Item
    requires item.Database?
  {
    match dump
    case Completed(id) => Database(item.name, Succeeded, id, paused && id != "")
    case Broken => item.(phase := ItemPhase.Failed)
    case _ => item
  }

  /** The newest snapshot in the window of the sync. */
  predicate NewestOfSync(side: Side, id: string)
    requires side.Claim? && side.source.Some?
  {
    && id in side.store && InSync(side.source.value, side.store[id])
    && forall other :: other in side.store && InSync(side.source.value, side.store[other]) ==> side.store[other].time <= side.store[id].time
  }

  /** Only Pending items were changed. */
  ghost predicate OnlyPendingChanged(was: seq<Item>, now: seq<Item>) {
    |was| == |now| && forall i :: 0 <= i < |was| && was[i].phase != Pending ==> now[i] == was[i]
  }

  /** What the start of the Pending items, the resume and the collection got done
      together. */
  lemma DoneTogether(was: Status, started: Status, resumed: Status, now: Status, ripe: set<nat>, quiet: bool)
    requires OnlyPendingChanged(was.items, started.items) && started == was.(items := started.items) && !AnyPending(started.items)
    requires resumed.items == started.items && |resumed.paused| == |was.paused| && (was.resumedAt.Some? ==> resumed.resumedAt.Some?)
    requires now == resumed.(items := now.items) && AllCollected(resumed, now, ripe, quiet)
    requires |now.items| == |was.items| && forall i :: 0 <= i < |now.items| ==> now.items[i].phase != Pending || resumed.items[i].phase == Pending
    ensures AllCollected(was, now, ripe, quiet) && !AnyPending(now.items)
    ensures !AnyPending(was.items) ==> resumed.items == was.items
  {
    hide Collected;
    assert Collectable(was) ==> Collectable(resumed);
    if !AnyPending(was.items) {
      assert forall i :: 0 <= i < |was.items| ==> was.items[i].phase != Pending;
      assert started.items == was.items;
    }
  }

  lemma NearFlags(run: Status, stored: Status)
    requires Near(run, stored, 0)
    ensures run.suspended == stored.suspended && run.resumedAt == stored.resumedAt && Onward(stored, run)
  {
  }

  lemma DoneIsCollected(was: Item, now: Item, quiet: bool)
    ensures now.phase != Running ==> Collected(was, now, quiet)
  {
  }

  class BackupRunReconciler {
    /** The run's manual trigger, from its UID. */
    const t: string
    var w: World
    /** The Leases, as this run uses them among the others. */
    const leases: Leases.Client
    /** The run as the pass holds it in memory, and whether it was being deleted
        when the pass read it. */
    var run: Status
    var seen: bool
    ghost var began: Status
    /** The pass is in abort. */
    ghost var aborting: bool
    /** The items whose backups had ended when the pass began. */
    ghost var ripe: set<nat>
    /** The cluster as the pass saw it when it decided to wait. */
    ghost var sighted: World
    /** A patch of the pause failed. */
    ghost var refused: bool
    /** Some call of the pass failed. */
    ghost var failed: bool
    /** The world at every call so far: where the process can stop. */
    ghost var trace: seq<Moment>
    ghost const first: seq<Fixed>

    /** The stored status and the one in memory are both good for the cluster
        as it is. */
    ghost predicate Good()
      reads this, leases
    {
      && Leases.Sound(leases) && (Finished(w.stored) || Finished(run) ==> !Leases.HasLease(leases))
      && Inv(w, t) && Inv(With(w, run), t)
      && Onward(began, run) && Onward(began, w.stored)
      && Traced(trace, t, first) && FixedParts(w.sides) == first
      && (!seen ==> !w.past.finalizing)
      && AllRipe(ripe, w.sides, t)
      && (Excused() || (Caused(began.items, run.items, w.sides) && Caused(began.items, w.stored.items, w.sides)))
    }

    /** Items may fail without a cause of their own: a call failed, abort fails
        them, or the run is not quiet. */
    ghost predicate Excused()
      reads this
    {
      failed || aborting || !Quiet(w.past)
    }

    constructor (t: string, w: World, leases: Leases.Client)
      requires Inv(w, t)
      ensures this.t == t && this.w == w && this.leases == leases && trace == [] && first == FixedParts(w.sides)
    {
      this.t, this.w, this.leases, run, seen := t, w, leases, w.stored, w.deleting;
      began, failed, trace, first := w.stored, false, [], FixedParts(w.sides);
      aborting, ripe, sighted := false, {}, w;
    }

    lemma GoodFacts()
      requires Good()
      ensures Inv(w, t) && Inv(With(w, run), t) && Onward(began, run) && Onward(began, w.stored) && (!seen ==> !w.past.finalizing)
      ensures Traced(trace, t, first) && FixedParts(w.sides) == first
      ensures Leases.Sound(leases) && (Finished(w.stored) ==> !Leases.HasLease(leases))
    {
    }

    method Interfere()
      requires Good()
      modifies this`w, this`trace
      ensures Good() && Rely(old(w), w, t)
    {
      hide Inv, Rely, Onward, Caused, AllRipe, Leases.Sound, Leases.HasLease;
      RelyReflexive(w, t);
      PauseFacts(w, t);
      var steps: nat := *;
      while steps > 0
        invariant Good() && Rely(old(w), w, t)
      {
        var e: EnvStep := *;
        EnvKeepsInv(w, t, e);
        EnvIgnoresStatus(w, run, e);
        EnvKeepsInv(With(w, run), t, e);
        EnvIsRelied(w, e, t);
        RelyTransitive(old(w), w, EnvNext(w, e), t);
        EnvKeepsFixed(w, e);
        EnvKeepsProgress(w, t, e, ripe);
        w := EnvNext(w, e);
        steps := steps - 1;
      }
      trace := trace + [Moment(w, Leases.HasLease(leases))];
    }

    /** One call reaches the server, or not. */
    method Call() returns (fault: Fault)
      requires Good()
      modifies this`w, this`trace, this`failed
      ensures Good() && Rely(old(w), w, t)
      ensures w.stored == old(w.stored) && w.past == old(w.past) && w.field.apps.Keys == old(w.field.apps.Keys) && |w.sides| == |old(w.sides)|
      ensures failed == (old(failed) || !fault.NoFault?)
    {
      Interfere();
      fault := *;
      failed := failed || !fault.NoFault?;
    }

    /** A read: it changes nothing. */
    method Read() returns (ok: bool)
      requires Good()
      modifies this`w, this`trace, this`failed
      ensures Good() && Rely(old(w), w, t)
      ensures w.stored == old(w.stored) && w.past == old(w.past) && w.field.apps.Keys == old(w.field.apps.Keys) && |w.sides| == |old(w.sides)|
      ensures failed == (old(failed) || !ok)
    {
      var fault := Call();
      ok := fault.NoFault?;
    }

    /** writeStatus: the write carries the version that the pass read, and a
        deletion in between gives the run a new one. */
    method WriteStatus() returns (ok: bool)
      requires Good()
      modifies this`w, this`trace, this`failed
      ensures Good() && Rely(old(w).(stored := w.stored), w, t)
      ensures w.stored == run || w.stored == old(w.stored)
      ensures ok ==> w.stored == run
      ensures w.past == old(w.past)
      ensures failed == (old(failed) || !ok)
    {
      var fault := Call();
      if w.deleting != seen {
        failed := true;
        return false;
      }
      if !fault.FailsBefore? {
        assert With(With(w, run), run) == With(w, run);
        w := With(w, run);
      }
      ok := fault.NoFault?;
    }

    // ------------------------------------------------------------ the pause

    /** applyPause: suspends the Kustomizations, then scales to zero. */
    method ApplyPause() returns (ok: bool)
      requires Good() && run == w.stored && Pausing(run)
      modifies this`refused, this`w, this`trace, this`failed
      ensures Good() && w.stored == run && w.past == old(w.past)
      ensures ok ==> forall x :: x in w.field.apps ==> Stopped(w.field, x)
      ensures failed == (old(failed) || !ok) && refused == (old(refused) || !ok)
    {
      hide Inv, Rely, Onward, Traced, Leases.Sound, Leases.HasLease, Caused, AllRipe;
      for i := 0 to |run.suspended|
        invariant Good() && w.stored == run && w.past == old(w.past) && failed == old(failed) && refused == old(refused)
        invariant forall j :: 0 <= j < i ==> run.suspended[j] in w.field.suspends && w.field.suspends[run.suspended[j]]
      {
        ok := Suspend(run.suspended[i]);
        if !ok {
          refused := true;
          return;
        }
      }
      PauseFacts(w, t);
      ok := ScaleToZero();
      refused := refused || !ok;
    }

    method Suspend(key: string) returns (ok: bool)
      requires Good() && run == w.stored && Pausing(run) && key in run.suspended
      modifies this`w, this`trace, this`failed
      ensures Good() && w.stored == run && w.past == old(w.past)
      ensures forall k :: k in old(w.field.suspends) && old(w.field.suspends[k]) ==> k in w.field.suspends && w.field.suspends[k]
      ensures ok ==> key in w.field.suspends && w.field.suspends[key]
      ensures failed == (old(failed) || !ok)
    {
      hide Inv, Rely, Onward, Traced, Leases.Sound, Leases.HasLease, Caused, AllRipe;
      ghost var before := w;
      var fault := Call();
      RelyFacts(before, w, t);
      PauseFacts(w, t);
      if !fault.FailsBefore? {
        SuspendKeepsInv(w, t, key);
        w := w.(field := Suspended(w.field, key, true));
        assert With(w, run) == w;
      }
      ok := fault.NoFault?;
    }

    method ScaleToZero() returns (ok: bool)
      requires Good() && run == w.stored && Pausing(run) && forall x :: x in w.field.apps ==> Blocked(w.field, x)
      modifies this`w, this`trace, this`failed
      ensures Good() && w.stored == run && w.past == old(w.past)
      ensures ok ==> forall x :: x in w.field.apps ==> Stopped(w.field, x)
      ensures failed == (old(failed) || !ok)
    {
      hide Inv, Rely, Onward, Traced, Leases.Sound, Leases.HasLease, Caused, AllRipe;
      for i := 0 to |run.paused|
        invariant Good() && w.stored == run && w.past == old(w.past) && failed == old(failed)
        invariant forall x :: x in w.field.apps ==> Blocked(w.field, x)
        invariant forall j :: 0 <= j < i ==> Stopped(w.field, run.paused[j].name)
      {
        PauseFacts(w, t);
        ok := ScaleDown(run.paused[i].name);
        if !ok {
          return;
        }
      }
      PauseFacts(w, t);
      forall x | x in w.field.apps ensures Stopped(w.field, x) { assert IsPaused(run, x); }
      ok := true;
    }

    method ScaleDown(x: string) returns (ok: bool)
      requires Good() && run == w.stored && Pausing(run) && x in w.field.apps && forall y :: y in w.field.apps ==> Blocked(w.field, y)
      modifies this`w, this`trace, this`failed
      ensures Good() && w.stored == run && w.past == old(w.past)
      ensures forall y :: y in w.field.apps ==> Blocked(w.field, y)
      ensures forall y :: Stopped(old(w.field), y) ==> Stopped(w.field, y)
      ensures ok ==> Stopped(w.field, x)
      ensures failed == (old(failed) || !ok)
    {
      hide Inv, Rely, Onward, Traced, Leases.Sound, Leases.HasLease, Caused, AllRipe;
      ghost var before := w;
      var fault := Call();
      RelyFacts(before, w, t);
      if !fault.FailsBefore? {
        ScaleDownKeepsInv(w, t, x);
        w := w.(field := Scaled(w.field, x, 0));
        assert With(w, run) == w;
      }
      ok := fault.NoFault?;
    }

    /** pausedPodsGone: once it answers yes, the app is at the version that every
        backup of the run holds. */
    method PausedPodsGone() returns (gone: bool)
      requires Good() && run == w.stored && Pausing(run)
      requires forall x :: x in w.field.apps ==> Stopped(w.field, x)
      modifies this`w, this`trace, this`failed
      ensures Good() && w.stored == run
      ensures gone ==> w.past.cut.Some?
      ensures !gone ==> failed || PodsLeft(w.field)
      ensures old(failed) ==> failed
    {
      hide Inv, Rely, Onward, Traced, Leases.Sound, Leases.HasLease, Caused, AllRipe;
      for i := 0 to |run.paused|
        invariant Good() && w.stored == run && (old(failed) ==> failed)
        invariant forall x :: x in w.field.apps ==> Stopped(w.field, x)
        invariant forall j :: 0 <= j < i ==> run.paused[j].name in w.field.apps && Still(w.field, run.paused[j].name)
      {
        ghost var before := w;
        var ok := Read();
        RelyFacts(before, w, t);
        PauseFacts(w, t);
        assert forall j :: 0 <= j < i ==> Still(w.field, run.paused[j].name);
        if !ok || w.field.apps[run.paused[i].name].pods > 0 {
          return false;
        }
      }
      PauseFacts(w, t);
      if w.past.cut.None? {
        forall x | x in w.field.apps ensures Still(w.field, x) { assert IsPaused(run, x); }
        assert run.paused[0].name in w.field.apps;
        CutKeepsInv(w, t);
        w := w.(past := w.past.(cut := Some(w.field.version)));
        assert With(w, run) == w;
      }
      gone := true;
    }

    // ------------------------------------------------------------ the items

    /** Changes one item of the copy in memory. */
    method SetItem(i: nat, item: Item)
      requires Good() && !Finished(run) && i < |run.items| && i < |w.sides| && ItemOnward(run.items[i], item)
      requires ItemSound(ContextOf(With(w, run)), t, w.bases, item, w.sides[i])
      requires (item.Volume? && run.items[i].Volume?) || w.past.cut.None? || run.resumedAt.None?
      requires item.phase == ItemPhase.Failed ==> Excused() || CannotStart(w.sides[i]) || Broke(w.sides[i])
      modifies this`run
      ensures Good() && run == old(run).(items := old(run).items[i := item])
    {
      hide Inv, ItemSound, Onward, Leases.Sound, Leases.HasLease, Caused, AllRipe, CannotStart, Broke;
      OneItemKeepsInv(With(w, run), t, i, item);
      OneItemOnward(began, run, i, item);
      if !Excused() { OneItemCaused(began.items, run.items, w.sides, i, item); }
      run := run.(items := run.items[i := item]);
    }

    /** Fails an item, for a cause. */
    method Fail(i: nat)
      requires Good() && !Finished(run) && !seen && i < |run.items| && Rank(run.items[i].phase) > 0
      requires Excused() || (i < |w.sides| && (CannotStart(w.sides[i]) || Broke(w.sides[i])))
      modifies this`run
      ensures Good() && run == old(run).(items := old(run).items[i := old(run).items[i].(phase := ItemPhase.Failed)])
    {
      hide Inv, ItemSound, Onward, Leases.Sound, Leases.HasLease, Caused, AllRipe, CannotStart, Broke;
      ItemAt(With(w, run), t, i);
      ResumedIsSettled(With(w, run), t, i);
      AbortKeepsItem(ContextOf(With(w, run)), t, w.bases, run.items[i], w.sides[i]);
      SetItem(i, AbortedItem(run.items[i]));
    }

    /** Changes what the cluster holds for one item. */
    method SetSide(i: nat, side: Side)
      requires Good() && i < |w.sides| && i < |run.items| && i < |w.stored.items|
      requires ItemSound(ContextOf(w), t, w.bases, w.stored.items[i], side)
      requires ItemSound(ContextOf(With(w, run)), t, w.bases, run.items[i], side) && InPast(side, t, w.now) && FixedOf(side) == FixedOf(w.sides[i])
      requires (Broke(w.sides[i]) ==> Broke(side)) && (Ripe(w.sides[i], t) ==> Ripe(side, t))
      modifies this`w
      ensures Good() && w == old(w).(sides := old(w).sides[i := side])
    {
      hide Inv, ItemSound, Onward, Leases.Sound, Leases.HasLease, Caused, AllRipe, CannotStart, Broke, Ripe;
      OneSideKeepsInv(w, t, i, side);
      OneSideKeepsInv(With(w, run), t, i, side);
      OneSideCaused(w.sides, i, side);
      OneSideRipe(ripe, w.sides, i, side, t);
      w := w.(sides := w.sides[i := side]);
    }

    /** A workload was paused only once its pods are gone and while it is. */
    predicate CanStart()
      reads this
    {
      w.field.apps != map[] ==> w.past.cut.Some? && run.resumedAt.None? && w.stored.resumedAt.None?
    }

    /** startItem on a claim: it fails only for a cause. */
    method StartVolume(i: nat)
      requires Good() && !Finished(run) && !seen && CanStart() && i < |run.items| && run.items[i].Volume? && run.items[i].phase == Pending
      requires Near(run, w.stored, 0) && run.pausedAt.Some?
      modifies this`w, this`run, this`trace, this`failed
      ensures Good() && CanStart() && w.stored == old(w.stored) && w.past == old(w.past) && (old(failed) ==> failed)
      ensures run == old(run).(items := old(run).items[i := run.items[i]]) && run.items[i].phase != Pending
      ensures ItemOnward(old(run).items[i], run.items[i]) && run.items[i].snapshotID == ""
      ensures i < |w.sides| && match run.items[i].phase
                               case Running => !CannotStart(w.sides[i])
                               case phase => phase == ItemPhase.Failed && (failed || CannotStart(w.sides[i]) || !Idle(w.sides[i], t))
    {
      hide Inv, VolumeSound, Onward, Near, Rely, Leases.Sound, Leases.HasLease, Caused, AllRipe;
      PendingHasNoRecord(w, t, run, i);
      var ok := Read();
      ItemAt(With(w, run), t, i);
      if !ok || !w.sides[i].ready {
        Fail(i);
        return;
      }
      ok := EnsureSource(i);
      if ok {
        ItemAt(With(w, run), t, i);
        RunningVolumeIsSound(ContextOf(With(w, run)), t, run.items[i], w.sides[i]);
        SetItem(i, Volume(run.items[i].name, Running, run.items[i].snapshotID));
      } else {
        if Quiet(w.past) { QuietIsIdle(With(w, run), t, i); }
        Fail(i);
      }
    }

    /** ensureSource: the run's trigger goes onto a source that is not busy with
        another one. Without it a call failed, the settings or the source are not
        the controller's, or the source is busy. */
    method EnsureSource(i: nat) returns (ok: bool)
      requires Good() && CanStart() && i < |run.items| && run.items[i].Volume?
      requires i < |w.stored.items| && w.stored.items[i].Volume?
      modifies this`w, this`trace, this`failed
      ensures Good() && CanStart() && w.stored == old(w.stored) && w.past == old(w.past) && i < |w.sides| && (old(failed) ==> failed)
      ensures ok ==> w.sides[i].Claim? && w.sides[i].source.Some? && w.sides[i].source.value.manual == t
      ensures if ok then !CannotStart(w.sides[i]) else failed || CannotStart(w.sides[i]) || !Idle(w.sides[i], t)
    {
      hide Inv, VolumeSound, Onward, Rely, Leases.Sound, Leases.HasLease, Caused, AllRipe;
      ItemAt(w, t, i);
      ok := Read();
      if !ok || !w.sides[i].ready {
        return false;
      }
      ghost var before := w;
      ok := Read();
      SideFacts(before, w, t, i);
      if !ok {
        return false;
      }
      ItemAt(w, t, i);
      if w.sides[i].source.Some? {
        var s := w.sides[i].source.value;
        if !s.managed || (Busy(s) && s.manual != t) {
          return false;
        }
      }
      assert FixedOf(w.sides[i]) == first[i];
      ok := WriteTrigger(i);
      assert FixedOf(w.sides[i]) == first[i];
    }

    /** The create or the update of the source. */
    method WriteTrigger(i: nat) returns (ok: bool)
      requires Good() && CanStart() && i < |run.items| && run.items[i].Volume?
      requires i < |w.stored.items| && w.stored.items[i].Volume? && i < |w.sides| && w.sides[i].Claim?
      requires w.sides[i].source.Some? && Busy(w.sides[i].source.value) ==> w.sides[i].source.value.manual == t
      modifies this`w, this`trace, this`failed
      ensures Good() && CanStart() && w.stored == old(w.stored) && w.past == old(w.past) && i < |w.sides| && (old(failed) ==> failed)
      ensures ok ==> w.sides[i].Claim? && w.sides[i].source.Some? && w.sides[i].source.value.manual == t
      ensures !ok ==> failed
    {
      hide Inv, VolumeSound, Onward, Rely, Traced, Leases.Sound, Leases.HasLease, Caused, AllRipe, Broke, Ripe, FixedOf;
      ghost var before := w;
      var fault := Call();
      SideFacts(before, w, t, i);
      if !fault.FailsBefore? {
        TriggerSide(i);
      }
      ok := fault.NoFault?;
    }

    method TriggerSide(i: nat)
      requires Good() && CanStart() && i < |run.items| && run.items[i].Volume?
      requires i < |w.stored.items| && w.stored.items[i].Volume? && i < |w.sides| && w.sides[i].Claim?
      requires w.sides[i].source.Some? && Busy(w.sides[i].source.value) ==> w.sides[i].source.value.manual == t
      modifies this`w
      ensures Good() && w == old(w).(sides := old(w).sides[i := Triggered(old(w).sides[i], t)])
    {
      hide Inv, VolumeSound, Onward, Traced, Leases.Sound, Leases.HasLease, Caused, AllRipe, Broke, Ripe, FixedOf;
      ItemAt(w, t, i);
      TriggerKeepsVolume(ContextOf(w), t, w.stored.items[i], w.sides[i]);
      ItemAt(With(w, run), t, i);
      TriggerKeepsVolume(ContextOf(With(w, run)), t, run.items[i], w.sides[i]);
      TriggerKeepsProgress(w.sides[i], t);
      SetSide(i, Triggered(w.sides[i], t));
    }

    /** startItem on a Cluster: it starts the Backup, skips a hibernated Cluster, or
        fails for a cause. */
    method StartDatabase(i: nat) returns (ghost looked: Side)
      requires Good() && !Finished(run) && !seen && CanStart() && i < |run.items| && run.items[i].Database? && run.items[i].phase == Pending
      requires i < |w.stored.items| && w.stored.items[i].Database?
      modifies this`w, this`run, this`trace, this`failed
      ensures Good() && CanStart() && w.stored == old(w.stored) && w.past == old(w.past) && (old(failed) ==> failed)
      ensures run == old(run).(items := old(run).items[i := run.items[i]]) && run.items[i].phase != Pending
      ensures ItemOnward(old(run).items[i], run.items[i])
      ensures i < |w.sides| && w.sides[i].Cluster?
      ensures looked.Cluster? && match run.items[i].phase
                                 case Running => looked.ready && !looked.hibernated && !w.sides[i].dump.NoDump?
                                 case Skipped => looked.ready && looked.hibernated
                                 case phase => phase == ItemPhase.Failed && (failed || CannotStart(w.sides[i]))
    {
      hide Inv, Onward, Rely, Leases.Sound, Leases.HasLease, Caused, AllRipe;
      var ok := Read();
      ItemAt(With(w, run), t, i);
      looked := w.sides[i];
      if !ok || !w.sides[i].ready {
        Fail(i);
        return;
      }
      var item := run.items[i];
      if w.sides[i].hibernated {
        SetItem(i, Database(item.name, Skipped, item.baseBackup, item.whilePaused));
        return;
      }
      ok := EnsureBackup(i);
      ItemAt(With(w, run), t, i);
      if ok {
        SetItem(i, Database(item.name, Running, item.baseBackup, item.whilePaused));
      } else {
        Fail(i);
      }
    }

    /** ensureBackup: a Backup that exists counts as created. */
    method EnsureBackup(i: nat) returns (ok: bool)
      requires Good() && CanStart() && i < |run.items| && run.items[i].Database?
      requires i < |w.stored.items| && w.stored.items[i].Database?
      modifies this`w, this`trace, this`failed
      ensures Good() && CanStart() && w.stored == old(w.stored) && w.past == old(w.past) && (old(failed) ==> failed)
      ensures !ok ==> failed
      ensures ok ==> i < |w.sides| && w.sides[i].Cluster? && !w.sides[i].dump.NoDump?
    {
      hide Inv, Onward, Rely, DatabaseSound, Leases.Sound, Leases.HasLease, Caused, AllRipe;
      var fault := Call();
      if !fault.FailsBefore? {
        ItemAt(w, t, i);
        DumpKeepsSound(ContextOf(w), w.bases, w.stored.items[i], w.sides[i]);
        ItemAt(With(w, run), t, i);
        DumpKeepsSound(ContextOf(With(w, run)), w.bases, run.items[i], w.sides[i]);
        SetSide(i, Dumped(w.sides[i]));
      }
      ok := fault.NoFault?;
    }

    /** The loop of work over the Pending items. */
    method StartItems()
      requires Good() && !Finished(run) && !seen && Near(run, w.stored, 0) && (AnyPending(run.items) ==> CanStart()) && run.pausedAt.Some?
      modifies this`w, this`run, this`trace, this`failed
      ensures Good() && Near(run, w.stored, 0) && w.stored == old(w.stored) && w.past == old(w.past) && (old(failed) ==> failed)
      ensures run == old(run).(items := run.items) && !AnyPending(run.items)
      ensures OnlyPendingChanged(old(run).items, run.items)
    {
      hide Inv, Onward, Rely, Leases.Sound, Leases.HasLease, Caused, AllRipe;
      ghost var starts := AnyPending(run.items);
      for i := 0 to |run.items|
        invariant Good() && Near(run, w.stored, 0) && w.stored == old(w.stored) && w.past == old(w.past) && (old(failed) ==> failed)
        invariant OnlyPendingChanged(old(run).items, run.items)
        invariant |run.items| == |old(run).items| && run == old(run).(items := run.items)
        invariant starts ==> CanStart()
        invariant !starts ==> run == old(run)
        invariant forall j :: 0 <= j < i ==> run.items[j].phase != Pending
      {
        if run.items[i].phase == Pending {
          ghost var was := run;
          KindsAgree(run, w.stored, i);
          if run.items[i].Volume? {
            StartVolume(i);
          } else {
            var _ := StartDatabase(i);
          }
          OneItemNear(was, w.stored, i, run.items[i]);
        }
      }
    }

    // ----------------------------------------------------------- the resume

    /** clonesCut: with yes, every clone that the run's syncs read is cut. With no,
        some volume has no clone yet that counts; and it is yes once the syncs of
        all volumes have ended. */
    method ClonesCut() returns (cut: bool)
      requires Good() && run.pausedAt.Some? && |w.sides| == |run.items|
      modifies this`w, this`trace, this`failed
      ensures Good() && w.stored == old(w.stored) && w.past == old(w.past) && |w.sides| == |run.items| && (old(failed) ==> failed)
      ensures cut ==> forall i :: 0 <= i < |run.items| && run.items[i].Volume? ==> MayResume(ContextOf(With(w, run)), t, run.items[i], w.sides[i])
      ensures !cut ==> failed || NotCut(run.items, w.sides, run.pausedAt.value)
      ensures NoPendingVolume(run.items) && VolumesRipe(run.items, ripe) ==> cut || failed
    {
      hide Inv, Onward, VolumeSound, CutDone, Rely, Leases.Sound, Leases.HasLease, Caused, AllRipe, CloneLooksCut;
      for i := 0 to |run.items|
        invariant Good() && w.stored == old(w.stored) && w.past == old(w.past) && |w.sides| == |run.items| && (old(failed) ==> failed)
        invariant forall j :: 0 <= j < i && run.items[j].Volume? ==> MayResume(ContextOf(With(w, run)), t, run.items[j], w.sides[j])
      {
        if run.items[i].Database? {
          continue;
        }
        if run.items[i].phase == Pending {
          return false;
        }
        if run.items[i].phase == Running {
          ghost var before := w;
          var done := CloneCut(i);
          if !done {
            return false;
          }
          forall j | 0 <= j < i && run.items[j].Volume? ensures MayResume(ContextOf(With(w, run)), t, run.items[j], w.sides[j]) {
            SideFacts(before, w, t, j);
          }
        }
      }
      cut := true;
    }

    /** One Running volume: its sync ended, or its clone is Bound and no older
        than the pause. */
    method CloneCut(i: nat) returns (cut: bool)
      requires Good() && run.pausedAt.Some? && i < |run.items| && |w.sides| == |run.items|
      requires run.items[i].Volume? && run.items[i].phase == Running
      modifies this`w, this`trace, this`failed
      ensures Good() && Rely(old(w), w, t) && (old(failed) ==> failed)
      ensures w.stored == old(w.stored) && w.past == old(w.past) && |w.sides| == |run.items|
      ensures cut && Quiet(w.past) ==> CutDone(w.sides[i], t)
      ensures !cut ==> failed || (i !in ripe && !CloneLooksCut(w.sides[i], run.pausedAt.value))
    {
      hide Inv, Onward, Rely, Traced, VolumeSound, CutDone, Leases.Sound, Leases.HasLease, Caused;
      var ok := Read();
      RunningHasSource(With(w, run), t, i);
      ItemAt(With(w, run), t, i);
      if ok && w.sides[i].source.value.last == t {
        LooksCutIsCut(ContextOf(With(w, run)), t, run.items[i], w.sides[i], run.pausedAt.value);
        return true;
      }
      ghost var before := w;
      ok := Read();
      RelyTransitive(old(w), before, w, t);
      RunningHasSource(With(w, run), t, i);
      ItemAt(With(w, run), t, i);
      var clone := w.sides[i].source.value.clone;
      cut := ok && clone.Some? && clone.value.cut.Some? && Truncate(clone.value.start) >= run.pausedAt.value;
      if cut {
        LooksCutIsCut(ContextOf(With(w, run)), t, run.items[i], w.sides[i], run.pausedAt.value);
      }
    }

    /** resumeWorkloads: each workload gets its count back, then the
        Kustomizations are resumed. The marks are part of the copy in memory
        only once both loops are through; before that an error ends the pass. */
    method ResumeWorkloads() returns (ok: bool)
      requires Good() && run.pausedAt.Some? && run.resumedAt.Some? && w.stored.resumedAt.Some? && run.suspended == w.stored.suspended
      modifies this`w, this`run, this`trace, this`failed
      ensures Good() && w.stored == old(w.stored) && w.past == old(w.past)
      ensures failed == (old(failed) || !ok)
      ensures run == old(run) || run == old(run).(paused := Marked(old(run).paused))
      ensures ok ==> AllBack(w.field) && Resumed(run)
    {
      hide Inv, Onward, Rely, Leases.Sound, Leases.HasLease, Caused, AllRipe;
      var marks := run.paused;
      for i := 0 to |run.paused|
        invariant Good() && w.stored == old(w.stored) && w.past == old(w.past) && failed == old(failed)
        invariant run == old(run)
        invariant |marks| == |run.paused| && marks[i..] == run.paused[i..]
        invariant forall j :: 0 <= j < i ==> marks[j] == run.paused[j].(resumed := true)
        invariant forall j :: 0 <= j < i ==> AtOwner(w.field, run.paused[j].name)
      {
        assert marks[i] == marks[i..][0] == run.paused[i];
        PauseFacts(With(w, run), t);
        if marks[i].resumed {
          MarkedIsBack(With(w, run), t, i);
        } else {
          ok := ScaleBack(marks[i].name, marks[i].replicas);
          if !ok {
            return;
          }
        }
        marks := marks[i := marks[i].(resumed := true)];
        assert marks[i + 1..] == run.paused[i + 1..];
      }
      PauseFacts(With(w, run), t);
      forall x | x in w.field.apps ensures AtOwner(w.field, x) { assert IsPaused(With(w, run).stored, x); }
      ok := Unsuspend();
      if ok {
        assert marks == Marked(run.paused);
        MarksKeepInv(With(w, run), t);
        MarkedIsOnward(began, run, marks);
        run := run.(paused := marks);
      }
    }

    method ScaleBack(x: string, n: nat) returns (ok: bool)
      requires Good() && run.resumedAt.Some? && w.stored.resumedAt.Some? && x in w.field.apps && n == w.field.apps[x].owner
      modifies this`w, this`trace, this`failed
      ensures Good() && w.stored == old(w.stored) && w.past == old(w.past)
      ensures failed == (old(failed) || !ok)
      ensures ok ==> AtOwner(w.field, x)
      ensures forall y :: AtOwner(old(w.field), y) ==> AtOwner(w.field, y)
    {
      hide Inv, Onward, Rely, Leases.Sound, Leases.HasLease, Caused, AllRipe;
      ghost var before := w;
      var fault := Call();
      RelyFacts(before, w, t);
      if !fault.FailsBefore? {
        ScaleUpKeepsInv(w, t, x);
        ScaleUpKeepsInv(With(w, run), t, x);
        w := w.(field := Scaled(w.field, x, n));
      }
      ok := fault.NoFault?;
    }

    method Unsuspend() returns (ok: bool)
      requires Good() && run.resumedAt.Some? && w.stored.resumedAt.Some? && run.suspended == w.stored.suspended
      requires forall x :: x in w.field.apps ==> AtOwner(w.field, x)
      modifies this`w, this`trace, this`failed
      ensures Good() && w.stored == old(w.stored) && w.past == old(w.past)
      ensures failed == (old(failed) || !ok)
      ensures ok ==> AllBack(w.field)
    {
      hide Inv, Onward, Rely, Leases.Sound, Leases.HasLease, Caused, AllRipe;
      for i := 0 to |run.suspended|
        invariant Good() && w.stored == old(w.stored) && w.past == old(w.past) && failed == old(failed)
        invariant forall x :: x in w.field.apps ==> AtOwner(w.field, x)
        invariant forall j :: 0 <= j < i ==> run.suspended[j] in w.field.suspends && !w.field.suspends[run.suspended[j]]
      {
        ghost var before := w;
        var fault := Call();
        RelyFacts(before, w, t);
        PauseFacts(With(w, run), t);
        if !fault.FailsBefore? {
          ReleaseKeepsInv(w, t, run.suspended[i]);
          ReleaseKeepsInv(With(w, run), t, run.suspended[i]);
          w := w.(field := Suspended(w.field, run.suspended[i], false));
        }
        if !fault.NoFault? {
          return false;
        }
      }
      UnsuspendedIsBack(With(w, run), t);
      ok := true;
    }

    /** resume: the moment is stored before anything is scaled. The app stays paused
        only while a database backup runs or a clone is missing. */
    method Resume() returns (ok: bool)
      requires Good() && !Finished(run) && !seen && run.pausedAt.Some? && !AnyPending(run.items) && Near(run, w.stored, 0)
      modifies this`w, this`run, this`trace, this`failed
      ensures Good() && w.past == old(w.past) && (old(failed) ==> failed) && (!ok ==> failed)
      ensures run.items == old(run).items && run.pausedAt == old(run).pausedAt && run.outcome == old(run).outcome && |run.paused| == |old(run).paused|
      ensures old(run).resumedAt.Some? ==> run.resumedAt == old(run).resumedAt
      ensures ok ==> Near(run, w.stored, 0) && (run.resumedAt.Some? ==> Resumed(run))
      ensures ok && run.resumedAt.None? ==> failed || DatabasesRunning(run.items) || NotCut(run.items, w.sides, run.pausedAt.value)
      ensures ok && VolumesRipe(run.items, ripe) && !DatabasesRunning(run.items) ==> failed || run.resumedAt.Some?
    {
      hide Inv, Onward, Rely, ItemSound, Leases.Sound, Leases.HasLease, Caused, AllRipe, NotCut;
      if run.resumedAt.None? {
        PauseFacts(With(w, run), t);
        var cut := ClonesCut();
        if !cut || DatabasesRunning(run.items) {
          return true;
        }
        ResumeKeepsInv(With(w, run), t, Truncate(w.now));
        ResumeIsOnward(began, run, Truncate(w.now));
        run := run.(resumedAt := Some(Truncate(w.now)));
        ok := WriteStatus();
        if !ok {
          return;
        }
        NearItself(run);
      }
      if Resumed(run) {
        return true;
      }
      NearMarked(run, w.stored, 0, Marked(run.paused));
      ok := ResumeWorkloads();
    }

    // ---------------------------------------------------------- the results

    /** collectDatabase: the result of the Backup, as it is when it is read. */
    method CollectDatabase(i: nat)
      requires Good() && !Finished(run) && !seen && i < |run.items| && run.items[i].Database? && run.items[i].phase == Running
      modifies this`w, this`run, this`trace, this`failed
      ensures Good() && w.stored == old(w.stored) && w.past == old(w.past) && (old(failed) ==> failed)
      ensures run == old(run).(items := old(run).items[i := run.items[i]]) && ItemOnward(old(run).items[i], run.items[i])
      ensures !failed ==> i < |w.sides| && w.sides[i].Cluster?
      ensures !failed ==> run.items[i] == ResultOf(w.sides[i].dump, old(run).items[i], run.paused != [] && run.resumedAt.None?)
      ensures !failed && i in ripe ==> run.items[i].phase != Running
    {
      hide Inv, Onward, Rely, Leases.Sound, Leases.HasLease, Caused;
      var ok := Read();
      ItemAt(With(w, run), t, i);
      var item, dump := run.items[i], w.sides[i].dump;
      if !ok || dump.NoDump? || dump.Started? {
        return;
      }
      if dump.Completed? {
        PausedMeansApps(With(w, run), t);
        SetItem(i, Database(item.name, Succeeded, dump.id, run.paused != [] && run.resumedAt.None? && dump.id != ""));
      } else {
        Fail(i);
      }
    }

    /** collectVolume: it fails only with the mover, waits for the resume, and once
        the sync has ended finds the snapshot in one pass and moves it in the
        next. */
    method CollectVolume(i: nat)
      requires Good() && !Finished(run) && !seen && i < |run.items| && run.items[i].Volume? && run.items[i].phase == Running
      requires run.pausedAt.Some? && Near(run, w.stored, i)
      modifies this`w, this`run, this`trace, this`failed
      ensures Good() && w.stored == old(w.stored) && w.past == old(w.past) && (old(failed) ==> failed)
      ensures run == old(run).(items := old(run).items[i := run.items[i]]) && ItemOnward(old(run).items[i], run.items[i])
      ensures run.items[i].phase == ItemPhase.Failed ==> i < |w.sides| && Broke(w.sides[i]) && i !in ripe
      ensures !failed && i in ripe && Collectable(run) ==> Collected(old(run).items[i], run.items[i], Quiet(w.past))
      ensures i in ripe && !Collectable(run) ==> run.items[i] == old(run).items[i]
      ensures !failed && i < |w.sides| && w.sides[i].Claim? && w.sides[i].source.Some? && w.sides[i].source.value.last != t && Broke(w.sides[i]) ==>
                run.items[i].phase == ItemPhase.Failed
    {
      hide Inv, Onward, Rely, Near, Leases.Sound, Leases.HasLease, Caused;
      var ok := Read();
      if !ok {
        return;
      }
      RunningHasSource(With(w, run), t, i);
      var s := w.sides[i].source.value;
      if s.last != t {
        if s.failing {
          Fail(i);
        }
        return;
      }
      if run.paused != [] && run.resumedAt.None? {
        return;
      }
      ghost var before := w;
      ok := Read();
      SideFacts(before, w, t, i);
      if !ok {
        return;
      }
      if run.items[i].snapshotID == "" {
        FindSnapshot(i, s.end, s.took);
      } else {
        MoveSnapshot(i);
      }
    }

    /** The first half: list the repository and pick the snapshot of the sync. */
    method FindSnapshot(i: nat, end: nat, took: nat)
      requires Good() && !Finished(run) && !seen && i < |run.items| && run.items[i].Volume? && run.items[i].phase == Running && run.items[i].snapshotID == ""
      requires run.pausedAt.Some? && (run.paused != [] ==> run.resumedAt.Some?)
      requires i < |w.sides| && w.sides[i].Claim? && w.sides[i].source.Some?
      requires var s := w.sides[i].source.value; s.manual == t && s.last == t && s.end == end && s.took == took
      modifies this`w, this`run, this`trace, this`failed
      ensures Good() && w.stored == old(w.stored) && w.past == old(w.past) && (old(failed) ==> failed)
      ensures run == old(run).(items := old(run).items[i := run.items[i]]) && ItemOnward(old(run).items[i], run.items[i])
      ensures run.items[i].Volume? && run.items[i].phase != ItemPhase.Failed && (failed || Collected(old(run).items[i], run.items[i], true))
      ensures i < |w.sides| && w.sides[i].Claim? && w.sides[i].source.Some? && w.sides[i].source.value.last == t
    {
      hide Inv, Onward, Rely, VolumeSound, SideRely, Leases.Sound, Leases.HasLease, Caused, AllRipe, Broke, Ripe, CannotStart, Traced;
      ghost var before := w;
      var ok := Read();
      SideFacts(before, w, t, i);
      IdleSourceStays(before.sides[i], w.sides[i], t);
      var files: seq<Snapshot> := *;
      if !ok || !Lists(files, w.sides[i].store) {
        failed := true;
        return;
      }
      RecordFound(i, files, end, took);
    }

    /** What the listing says about the item. */
    method RecordFound(i: nat, files: seq<Snapshot>, end: nat, took: nat)
      requires Good() && !Finished(run) && !seen && i < |run.items| && run.items[i].Volume? && run.items[i].phase == Running && run.items[i].snapshotID == ""
      requires run.pausedAt.Some? && (run.paused != [] ==> run.resumedAt.Some?)
      requires i < |w.sides| && w.sides[i].Claim? && w.sides[i].source.Some? && Lists(files, w.sides[i].store)
      requires var s := w.sides[i].source.value; s.manual == t && s.last == t && s.end == end && s.took == took
      modifies this`run
      ensures Good() && run == old(run).(items := old(run).items[i := run.items[i]]) && ItemOnward(old(run).items[i], run.items[i])
      ensures run.items[i].Volume? && Collected(old(run).items[i], run.items[i], true)
      ensures run.items[i].phase == (if run.items[i].snapshotID == "" || run.paused == [] || DatabaseFailed(old(run).items) then Succeeded else Running)
      ensures if run.items[i].snapshotID == "" then NothingSaved(w.sides[i]) else NewestOfSync(w.sides[i], run.items[i].snapshotID)
    {
      hide Inv, Onward, VolumeSound, SideRely, Leases.Sound, Leases.HasLease, Caused, AllRipe, Broke, Ripe, CannotStart, Traced, Lists;
      var found := SyncedSnapshot(files, end, took);
      ItemAt(With(w, run), t, i);
      ResumedWhenCollected(With(w, run), t);
      var item := run.items[i];
      if found.None? {
        NotFoundIsNothing(w.sides[i], files);
        DoneVolumeIsSound(ContextOf(With(w, run)), t, item, w.sides[i], "");
        SetItem(i, Volume(item.name, Succeeded, ""));
        return;
      }
      FoundIsSound(ContextOf(With(w, run)), t, item, w.sides[i], files, found);
      if run.paused == [] || DatabaseFailed(run.items) {
        PausedMeansApps(With(w, run), t);
        DoneVolumeIsSound(ContextOf(With(w, run)), t, item, w.sides[i], found.value.id);
        SetItem(i, Volume(item.name, Succeeded, found.value.id));
        return;
      }
      PausedMeansApps(With(w, run), t);
      ResumedAndNoneFailed(With(w, run), t);
      RecordIsSound(ContextOf(With(w, run)), t, item, w.sides[i], found.value);
      SetItem(i, Volume(item.name, Running, found.value.id));
    }

    /** The second half: move the recorded snapshot to the resume moment. */
    method MoveSnapshot(i: nat)
      requires Good() && !Finished(run) && !seen && i < |run.items| && run.items[i].Volume? && run.items[i].phase == Running && run.items[i].snapshotID != ""
      requires Near(run, w.stored, i)
      modifies this`w, this`run, this`trace, this`failed
      ensures Good() && w.stored == old(w.stored) && w.past == old(w.past) && (old(failed) ==> failed)
      ensures run == old(run).(items := old(run).items[i := run.items[i]]) && ItemOnward(old(run).items[i], run.items[i])
      ensures run.items[i].Volume? && run.items[i].phase != ItemPhase.Failed && (failed || !Quiet(w.past) || run.items[i].phase == Succeeded)
      ensures i < |w.sides| && w.sides[i].Claim? && w.sides[i].source.Some? && w.sides[i].source.value.last == t
    {
      hide Inv, Onward, Rely, VolumeSound, Retimed, Fair, Traced, Leases.Sound, Leases.HasLease, Caused, AllRipe;
      var ok := Read();
      var c: Call := *;
      ItemAt(With(w, run), t, i);
      MovesAfterResume(With(w, run), t, i);
      if ok && Fair(w.sides[i].store, w.sides[i].store, c) {
        failed := failed || !c.put.NoFault? || !c.remove.NoFault?;
        Move(i, c);
      } else {
        failed := true;
      }
    }

    /** Retime of the recorded snapshot. */
    method Move(i: nat, c: Call)
      requires Good() && !Finished(run) && !seen && i < |run.items| && run.items[i].Volume? && run.items[i].phase == Running && run.items[i].snapshotID != ""
      requires Near(run, w.stored, i) && i < |w.sides| && w.sides[i].Claim? && Fair(w.sides[i].store, w.sides[i].store, c)
      modifies this`w, this`run
      ensures Good() && w.stored == old(w.stored) && w.past == old(w.past)
      ensures run == old(run).(items := old(run).items[i := run.items[i]]) && ItemOnward(old(run).items[i], run.items[i])
      ensures run.items[i].Volume? && run.items[i].phase != ItemPhase.Failed
      ensures c.put.NoFault? && c.remove.NoFault? && Quiet(w.past) ==> run.items[i].phase == Succeeded
      ensures i < |w.sides| && w.sides[i].Claim? && w.sides[i].source.Some? && w.sides[i].source.value.last == t
    {
      hide Inv, Onward, VolumeSound, Retimed, Fair, Traced, Leases.Sound, Leases.HasLease, Caused, AllRipe, Broke, CannotStart, FixedOf, DatabaseSound;
      MoveKeepsItems(w, run, t, i, c);
      var item, r := run.items[i], MoveRequest(run, run.items[i].snapshotID);
      var outcome := Retimed(w.sides[i].store, r, c);
      StoreKeepsProgress(w.sides[i], outcome.store, t);
      SetSide(i, w.sides[i].(store := outcome.store));
      if outcome.result.Some? {
        SetItem(i, Volume(item.name, Succeeded, outcome.result.value.id));
      }
    }

    /** The loop of work over the Running items: every ripe one is collected. */
    method CollectItems()
      requires Good() && !Finished(run) && !seen && run.pausedAt.Some? && Near(run, w.stored, 0)
      modifies this`w, this`run, this`trace, this`failed
      ensures Good() && w.stored == old(w.stored) && w.past == old(w.past) && (old(failed) ==> failed)
      ensures run == old(run).(items := run.items)
      ensures run.suspended == w.stored.suspended && run.resumedAt == w.stored.resumedAt && !Finished(run)
      ensures |run.items| == |old(run).items| && forall i :: 0 <= i < |run.items| ==> run.items[i].phase != Pending || old(run).items[i].phase == Pending
      ensures failed || AllCollected(old(run), run, ripe, Quiet(w.past))
    {
      hide Inv, Onward, Rely, Leases.Sound, Leases.HasLease, Caused, AllRipe, Collected;
      for i := 0 to |run.items|
        invariant Good() && Near(run, w.stored, i) && w.stored == old(w.stored) && w.past == old(w.past) && (old(failed) ==> failed)
        invariant |run.items| == |old(run).items| && run == old(run).(items := run.items) && run.items[i..] == old(run).items[i..]
        invariant forall j :: 0 <= j < i ==> run.items[j].phase != Pending || old(run).items[j].phase == Pending
        invariant failed || forall j :: 0 <= j < i && j in ripe && old(run).items[j].phase == Running && (old(run).items[j].Database? || Collectable(old(run))) ==>
                              Collected(old(run).items[j], run.items[j], Quiet(w.past))
      {
        assert run.items[i] == run.items[i..][0] == old(run).items[i];
        if run.items[i].phase == Running {
          ghost var was := run;
          if run.items[i].Volume? {
            CollectVolume(i);
          } else {
            CollectDatabase(i);
            DoneIsCollected(was.items[i], run.items[i], Quiet(w.past));
          }
          CollectedNear(was, w.stored, i, run.items[i]);
        }
        assert run.items[i + 1..] == old(run).items[i + 1..];
      }
    }

    // -------------------------------------------------------------- the end

    /** release: the app goes back first, then the Leases. */
    method Release() returns (ok: bool)
      requires Good() && Leases.Ready(leases) && run.suspended == w.stored.suspended && run.resumedAt == w.stored.resumedAt
      requires run.resumedAt.None? ==> w.past.finalizing || AllDone(run.items)
      modifies this`w, this`run, this`trace, this`failed, leases
      ensures Good()
      ensures w.past == old(w.past)
      ensures ok ==> AllBack(w.field) && !Leases.HasLease(leases) && run.pausedAt == old(run).pausedAt && run.items == old(run).items && run.outcome == old(run).outcome
      ensures failed == (old(failed) || !ok)
    {
      hide Inv, Onward, Rely, ItemSound, Leases.Sound, Leases.HasLease, Caused, AllRipe;
      if run.pausedAt.Some? && !Resumed(run) {
        if run.resumedAt.None? {
          PauseFacts(With(w, run), t);
          ResumeKeepsInv(With(w, run), t, Truncate(w.now));
          ResumeIsOnward(began, run, Truncate(w.now));
          run := run.(resumedAt := Some(Truncate(w.now)));
          ok := WriteStatus();
          if !ok {
            return;
          }
        }
        ok := ResumeWorkloads();
        if !ok {
          return;
        }
      }
      NotPausedIsBack(With(w, run), t);
      ok := ReleaseLeases();
    }

    /** releaseAll, and the delete of the run's Workload. */
    method ReleaseLeases() returns (ok: bool)
      requires Good() && AllBack(w.field) && Leases.Ready(leases)
      modifies this`w, this`trace, this`failed, leases
      ensures Good() && AllBack(w.field) && w.past == old(w.past)
      ensures ok ==> !Leases.HasLease(leases)
      ensures failed == (old(failed) || !ok)
    {
      hide Inv, Onward, Rely, Traced, Caused, AllRipe;
      ok := Leases.ReleaseLeases(leases);
      if !ok {
        failed := true;
        return;
      }
      ghost var before := w;
      ok := Read();
      RelyFacts(before, w, t);
    }

    /** finish: everything is given back before the terminal phase is written. */
    method Finish(e: Ending)
      requires Good() && Leases.Ready(leases) && !Finished(run) && run.suspended == w.stored.suspended && run.resumedAt == w.stored.resumedAt
      requires EndsRight(run.items, e) && (e == Aborted ==> w.past.aborted)
      modifies this`w, this`run, this`trace, this`failed, leases
      ensures Good()
      ensures old(failed) ==> failed
      ensures !failed ==> w.stored.outcome == Some(e) && w.stored.items == old(run).items
    {
      hide Inv, Onward, Rely, Leases.Sound, Leases.HasLease, Caused, AllRipe;
      var ok := Release();
      if !ok {
        return;
      }
      FinishKeepsInv(With(w, run), t, e);
      FinishIsOnward(began, run, e);
      run := run.(outcome := Some(e));
      ok := WriteStatus();
      if ok {
        ok := Read();
      }
    }

    /** abort: every item that is not done fails, and the run ends. */
    method Abort()
      requires Good() && Leases.Ready(leases) && !Finished(run) && !seen && run.suspended == w.stored.suspended && run.resumedAt == w.stored.resumedAt
      modifies this`w, this`run, this`trace, this`failed, this`aborting, leases
      ensures Good()
      ensures (old(failed) ==> failed) && aborting
      ensures !failed ==> w.stored.outcome == Some(Aborted)
    {
      hide Inv, Onward, Rely, Leases.Sound, Leases.HasLease, Caused, AllRipe;
      AbortedKeepsInv(w, t);
      AbortedKeepsInv(With(w, run), t);
      w, aborting := w.(past := w.past.(aborted := true)), true;
      for i := 0 to |run.items|
        invariant Good() && run == old(run).(items := run.items) && |run.items| == |old(run).items| && w == old(w).(past := old(w).past.(aborted := true)) && failed == old(failed)
        invariant Leases.Ready(leases) && aborting
        invariant forall j :: 0 <= j < i ==> Rank(run.items[j].phase) == 0
      {
        if run.items[i].phase == Pending || run.items[i].phase == Running {
          Fail(i);
        }
      }
      Finish(Aborted);
    }

    /** finalize: a deleted run puts back what it changed. */
    method Finalize() returns (gone: bool)
      requires Good() && Leases.Ready(leases) && seen && w.deleting && run == w.stored
      modifies this`w, this`run, this`trace, this`failed, leases
      ensures Good()
      ensures gone ==> AllBack(w.field) && !Leases.HasLease(leases)
      ensures !failed ==> gone
    {
      hide Inv, Onward, Rely, Leases.Sound, Leases.HasLease, Caused, AllRipe;
      FinalizingKeepsInv(w, t);
      w := w.(past := w.past.(finalizing := true));
      assert With(w, run) == w;
      gone := Release();
      if !gone {
        return;
      }
      if run.pausedAt.Some? {
        ghost var before := w;
        gone := WriteStatus();
        if !gone {
          return;
        }
        RelyFacts(before.(stored := w.stored), w, t);
      }
      ghost var before := w;
      gone := Read();
      RelyFacts(before, w, t);
    }

    // ------------------------------------------------------------ the start

    /** The busy check of pause, on one claim. A read that fails counts as not
        busy. */
    method SourceIdle(i: nat) returns (idle: bool)
      requires Good() && run == w.stored && run.pausedAt.None? && i < |w.sides| && !w.past.ticked
      modifies this`w, this`trace, this`failed
      ensures Good() && w.stored == run && |w.sides| == |old(w.sides)| && !w.past.ticked
      ensures w.past.blind || (w.past == old(w.past) && Rely(old(w), w, t))
      ensures idle && !w.past.blind ==> Idle(w.sides[i], t)
      ensures (old(failed) ==> failed) && (!idle ==> !Idle(w.sides[i], t))
    {
      hide Inv, Onward, Rely, SideRely, Idle, Leases.Sound, Leases.HasLease, Caused, AllRipe;
      var ok := Read();
      if ok {
        idle := Idle(w.sides[i], t);
      } else {
        var blind := w.past.blind || !Idle(w.sides[i], t);
        UnpausedKeepsInv(w, t, blind, false);
        w := w.(past := w.past.(blind := blind));
        assert With(w, run) == w;
        idle := true;
      }
    }

    method SourcesIdle() returns (idle: bool)
      requires Good() && run == w.stored && run.pausedAt.None?
      modifies this`w, this`trace, this`failed
      ensures Good() && w.stored == run && |w.sides| == |run.items|
      ensures idle && !w.past.blind ==> forall i :: 0 <= i < |w.sides| ==> Idle(w.sides[i], t)
      ensures (old(failed) ==> failed) && (!idle ==> SomeBusy(w.sides, t))
    {
      hide Inv, Onward, Rely, SideRely, Idle, ItemSound, Leases.Sound, Leases.HasLease, Caused, AllRipe;
      PauseFacts(w, t);
      UnpausedKeepsInv(w, t, false, false);
      w := w.(past := w.past.(blind := false, ticked := false));
      assert With(w, run) == w;
      for i := 0 to |run.items|
        invariant Good() && w.stored == run && |w.sides| == |run.items| && !w.past.ticked && (old(failed) ==> failed)
        invariant !w.past.blind ==> forall j :: 0 <= j < i ==> Idle(w.sides[j], t)
      {
        ItemAt(w, t, i);
        if run.items[i].Database? {
          ClusterIsIdle(w.sides[i], t);
          continue;
        }
        ghost var before := w;
        idle := SourceIdle(i);
        if !idle {
          return;
        }
        if !w.past.blind {
          forall j | 0 <= j < i ensures Idle(w.sides[j], t) {
            SideFacts(before, w, t, j);
            IdleStays(before.sides[j], w.sides[j], t);
          }
        }
      }
      idle := true;
    }

    /** pausePlan: every marked workload with its count, and the Kustomizations
        that still apply them. */
    method PausePlan() returns (ok: bool, paused: seq<PausedWorkload>, suspend: seq<string>)
      requires Good() && run == w.stored && run.pausedAt.None?
      modifies this`w, this`trace, this`failed
      ensures Good() && w.stored == run && w.past == old(w.past) && Rely(old(w), w, t)
      ensures ok ==> Plans(w.field, paused, suspend)
      ensures (old(failed) ==> failed) && (!ok ==> failed)
    {
      hide Inv, Onward, Rely, Leases.Sound, Leases.HasLease, Caused, AllRipe;
      paused, suspend := [], [];
      ok := Read();
      var order: seq<string> := *;
      var targets := w.field.apps;
      if !ok || !Enumerates(order, targets) {
        failed := true;
        return false, [], [];
      }
      EnumeratesAll(order, targets);
      ghost var listed := w;
      RelyReflexive(w, t);
      for i := 0 to |order|
        invariant Good() && w.stored == run && w.past == old(w.past) && (old(failed) ==> failed)
        invariant Rely(old(w), w, t) && Rely(listed, w, t)
        invariant forall key :: key in suspend ==> key in listed.field.suspends && !listed.field.suspends[key]
        invariant forall j :: 0 <= j < i ==> Covered(listed.field, suspend, order[j])
        invariant i == 0 ==> suspend == []
      {
        if targets[order[i]].flux.Some? {
          var key := targets[order[i]].flux.value;
          ghost var before := w;
          ok := Read();
          RelyTransitive(old(w), before, w, t);
          RelyTransitive(listed, before, w, t);
          RelyFacts(listed, w, t);
          if !ok {
            return false, [], [];
          }
          if key in w.field.suspends && !w.field.suspends[key] && key !in suspend {
            suspend := suspend + [key];
          }
        }
      }
      paused := seq(|order|, i requires 0 <= i < |order| && order[i] in targets => PausedWorkload(order[i], targets[order[i]].replicas, false));
      ListedIsPlanned(listed, w, t, order, paused, suspend);
      ok := true;
    }

    /** Records the pause in the copy in memory. */
    method RecordPause(paused: seq<PausedWorkload>, suspend: seq<string>)
      requires Good() && run == w.stored && run.pausedAt.None? && run.items == began.items && Plans(w.field, paused, suspend)
      requires !w.past.blind ==> forall i :: 0 <= i < |w.sides| ==> Idle(w.sides[i], t)
      modifies this`w, this`run
      ensures Good() && run == PausedStatus(old(run), paused, suspend, Truncate(old(w.now)))
    {
      hide Inv, Onward, Rely, Plans, Older, Idle, Truncate, Leases.Sound, Leases.HasLease, Caused, AllRipe, Traced, SomeBusy, FixedParts;
      var at := Truncate(w.now);
      assert at <= w.now by { TruncateIsBefore(w.now); }
      var ticked := w.field.apps != map[] && forall i :: 0 <= i < |w.sides| ==> Older(w.sides[i], at);
      UnpausedKeepsInv(w, t, w.past.blind, ticked);
      w := w.(past := w.past.(ticked := ticked));
      PauseFacts(w, t);
      SameItemsCaused(run.items, w.sides);
      PauseKeepsInv(w, t, paused, suspend, at);
      PauseIsOnward(began, run, paused, suspend, at);
      run := PausedStatus(run, paused, suspend, at);
    }

    /** pause: the plan is stored before anything is stopped. It waits only for a
        source that is busy. */
    method Pause() returns (wait: Wait)
      requires Good() && Leases.Ready(leases) && !seen && run == w.stored && run.pausedAt.None? && !Finished(run) && run.items == began.items
      requires !refused
      modifies this`refused, this`w, this`run, this`trace, this`failed, this`aborting, this`sighted, leases
      ensures Good() && (refused ==> aborting) && (old(failed) ==> failed)
      ensures !failed ==> if wait == ForSource then SomeBusy(sighted.sides, t) else wait == JustPaused && PauseHolds(w)
    {
      hide Inv, Onward, Rely, Plans, Idle, Leases.Sound, Leases.HasLease, Caused, AllRipe, SomeBusy;
      var idle := SourcesIdle();
      if !idle {
        sighted := w;
        var _ := WriteStatus();
        return ForSource;
      }
      wait := JustPaused;
      ghost var checked := w;
      var ok, paused, suspend := PausePlan();
      if !ok {
        return;
      }
      IdleAllStay(checked, w, t);
      RecordPause(paused, suspend);
      ok := WriteStatus();
      if ok && run.resumedAt.None? {
        ok := ApplyPause();
        if !ok {
          Abort();
        }
      }
    }

    /** holding: a run that does not hold all its Leases waits, or a call failed. */
    method Hold() returns (held: bool)
      requires Good() && run == w.stored && !Finished(run) && Leases.Ready(leases) && Leases.AtStart(leases)
      modifies this`failed, leases
      ensures Good() && (old(failed) ==> failed)
      ensures held ==> Leases.Ready(leases) && Leases.HoldsAll(leases)
      ensures !held ==> failed || Leases.Stopped(leases)
    {
      hide Inv, Onward, Rely, Traced, Caused, AllRipe;
      var answer := Leases.TakeLeases(leases);
      held := answer.Held?;
      if answer.Errored? {
        failed := true;
      }
    }

    /** Steps 3 and 4 of work: with yes, the items may start. With no, a pod of the
        app is left. */
    method AppIsDown() returns (down: bool)
      requires Good() && Leases.Ready(leases) && !seen && run == w.stored && !Finished(run) && run.pausedAt.Some?
      requires !refused
      modifies this`refused, this`w, this`run, this`trace, this`failed, this`aborting, this`sighted, leases
      ensures Good() && (refused ==> aborting) && (old(failed) ==> failed)
      ensures down ==> Leases.Ready(leases) && run == w.stored && run == old(run) && (AnyPending(run.items) ==> CanStart())
      ensures !down ==> failed || PodsLeft(sighted.field)
    {
      hide Inv, Onward, Rely, Leases.Sound, Leases.HasLease, Caused, AllRipe, PodsLeft;
      if run.resumedAt.Some? || !AnyPending(run.items) {
        if run.resumedAt.Some? && w.field.apps != map[] {
          ResumedHasNoPending(w, t);
        }
        return true;
      }
      var ok := ApplyPause();
      if !ok {
        Abort();
        return false;
      }
      down := PausedPodsGone();
      if !down {
        sighted := w;
        var _ := WriteStatus();
      }
    }

    /** work. `over` says that Kueue evicted the run, that its timeout does not
        parse, or that its deadline has passed. */
    method Work(over: bool) returns (wait: Wait)
      requires Good() && Leases.Ready(leases) && Leases.AtStart(leases) && !seen && run == w.stored && run == began && !Finished(run)
      requires !refused
      modifies this`refused, this`w, this`run, this`trace, this`failed, this`aborting, this`sighted, leases
      ensures Good() && (refused ==> aborting)
      ensures over && !failed ==> w.stored.outcome == Some(Aborted)
      ensures !over && !failed ==> Waited(wait)
    {
      hide Good, Inv, Onward, Rely, Traced, WorkedThrough, SomeBusy, PodsLeft, PauseHolds, Leases.Sound, Leases.HasLease, Caused, AllRipe;
      if over {
        Abort();
        wait := Ended;
      } else {
        var held := Hold();
        if held {
          wait := Act();
        } else {
          var _ := WriteStatus();
          wait := ForLease;
        }
      }
    }

    /** work of a run that holds its Leases. */
    method Act() returns (wait: Wait)
      requires Good() && Leases.Ready(leases) && !seen && run == w.stored && run == began && !Finished(run)
      requires !refused
      modifies this`refused, this`w, this`run, this`trace, this`failed, this`aborting, this`sighted, leases
      ensures Good() && (refused ==> aborting) && (old(failed) ==> failed)
      ensures !failed ==> wait != ForLease && Waited(wait)
    {
      hide Good, Inv, Onward, Rely, Traced, Leases.Sound, Leases.HasLease, Caused, AllRipe, WorkedThrough, SomeBusy, PodsLeft, PauseHolds;
      if run.pausedAt.None? {
        wait := Pause();
      } else {
        var down := AppIsDown();
        wait := ForPods;
        if down {
          wait := Proceed();
        }
      }
    }

    /** Why a pass in which every call went through ended, and what it got done. */
    ghost predicate Waited(wait: Wait)
      reads this, leases
    {
      match wait
      case Ended => Finished(w.stored) && w.stored.outcome.value != Aborted
      case ForLease => Leases.Stopped(leases)
      case ForSource => SomeBusy(sighted.sides, t)
      case JustPaused => PauseHolds(w)
      case ForPods => PodsLeft(sighted.field)
      case Working => !Finished(w.stored) && WorkedThrough(began, w.stored, ripe, Quiet(w.past))
    }

    /** Steps 5 to 7 of work. */
    method Proceed() returns (wait: Wait)
      requires Good() && Leases.Ready(leases) && !seen && run == w.stored && run == began && !Finished(run) && run.pausedAt.Some?
      requires AnyPending(run.items) ==> CanStart()
      modifies this`w, this`run, this`trace, this`failed, leases
      ensures Good() && (old(failed) ==> failed)
      ensures !failed ==> (wait == Ended || wait == Working) && Waited(wait)
    {
      hide Good, Inv, Onward, Rely, Traced, Near, Leases.Sound, Leases.HasLease, Caused, AllRipe, AllCollected, NotCut;
      wait := Working;
      NearItself(run);
      StartItems();
      ghost var started := run;
      var ok := Resume();
      if ok {
        ghost var resumed := run;
        CollectItems();
        if !failed { DoneTogether(began, started, resumed, run, ripe, Quiet(w.past)); }
        if AllDone(run.items) && Resumed(run) {
          Finish(if NoneFailed(run.items) then AllSucceeded else SomeFailed);
          wait := Ended;
        } else {
          var _ := WriteStatus();
        }
      }
    }

    /** A pass begins with nothing in memory. */
    method Reset()
      requires Inv(w, t) && Traced(trace, t, first) && FixedParts(w.sides) == first
      requires Leases.Sound(leases) && (Finished(w.stored) ==> !Leases.HasLease(leases))
      modifies this
      ensures Good() && run == w.stored == began && w == old(w) && !failed && !refused && !aborting && trace == old(trace)
    {
      hide Inv, Traced, Onward, Leases.Sound, Leases.HasLease, Caused, AllRipe;
      PauseFacts(w, t);
      OnwardItself(w.stored);
      SameItemsCaused(w.stored.items, w.sides);
      assert AllRipe({}, w.sides, t) by { var _ := RipeNow(w.sides, t); }
      run, began, seen, failed, refused, aborting, ripe := w.stored, w.stored, true, false, false, false, {};
    }

    /** It reads the run, and looks whether its Leases are taken. */
    method StartPass() returns (ok: bool)
      requires Inv(w, t) && Traced(trace, t, first) && FixedParts(w.sides) == first
      requires Leases.Sound(leases) && (Finished(w.stored) ==> !Leases.HasLease(leases))
      modifies this, leases
      ensures Good() && run == w.stored == began == old(w.stored) && seen == w.deleting && failed == !ok && !refused
      ensures ok ==> Leases.Ready(leases) && Leases.AtStart(leases) && ripe == RipeNow(w.sides, t)
    {
      hide Inv, Traced, Rely, Onward, RipeNow, Leases.Sound, Leases.HasLease, Caused, AllRipe;
      Reset();
      ok := Read();
      NotFinalizing(w, t);
      seen, ripe := w.deleting, RipeNow(w.sides, t);
      if ok {
        Leases.BeginPass(leases);
      }
    }

    /** Reconcile: one pass, from the stored run. */
    method Reconcile(over: bool) returns (gone: bool, wait: Wait)
      requires Inv(w, t) && Traced(trace, t, first) && FixedParts(w.sides) == first
      requires Leases.Sound(leases) && (Finished(w.stored) ==> !Leases.HasLease(leases))
      modifies this, leases
      ensures Inv(w, t) && Traced(trace, t, first) && FixedParts(w.sides) == first && Onward(old(w.stored), w.stored)
      ensures Leases.Sound(leases) && (Finished(w.stored) ==> !Leases.HasLease(leases))
      ensures !failed && !seen && !Finished(began) ==> if over then w.stored.outcome == Some(Aborted) else Waited(wait)
      ensures !failed && seen ==> gone
      ensures refused ==> aborting
      ensures gone ==> AllBack(w.field) && !Leases.HasLease(leases)
    {
      hide Good, Inv, Onward, Rely, Traced, Waited, Leases.Sound, Leases.HasLease, Caused, AllRipe;
      var ok := StartPass();
      gone, wait := false, Ended;
      if ok {
        if seen {
          gone := Finalize();
        } else if !Finished(run) {
          wait := Work(over);
        }
      }
      GoodFacts();
    }

    /** Any number of passes, whatever fails in them. */
    method Passes(n: nat)
      requires Inv(w, t) && Traced(trace, t, first) && FixedParts(w.sides) == first
      requires Leases.Sound(leases) && (Finished(w.stored) ==> !Leases.HasLease(leases))
      modifies this, leases
      ensures Inv(w, t) && Traced(trace, t, first) && FixedParts(w.sides) == first && Onward(old(w.stored), w.stored)
      ensures Leases.Sound(leases) && (Finished(w.stored) ==> !Leases.HasLease(leases))
    {
      hide Inv, Onward, Traced, Leases.Sound, Leases.HasLease, Caused, AllRipe;
      OnwardItself(w.stored);
      for i := 0 to n
        invariant Inv(w, t) && Traced(trace, t, first) && FixedParts(w.sides) == first && Onward(old(w.stored), w.stored)
        invariant Leases.Sound(leases) && (Finished(w.stored) ==> !Leases.HasLease(leases))
      {
        ghost var before := w.stored;
        var over: bool := *;
        var _, _ := Reconcile(over);
        OnwardTransitive(old(w.stored), before, w.stored);
      }
    }
  }
}

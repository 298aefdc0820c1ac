/**
 Runs of a BackupRun step by step, for the examples that show what the cut needs.

 A step is one step of the environment, or one write of a pass under the test
 that the pass makes before it, with the status stored at once. Every world that
 such steps reach from a planned run satisfies the invariant of the passes.
 */
module BackupTraces {
  import opened Common
  import opened Restic
  import opened Retime
  import opened BackupWorld
  import opened BackupEffects
  import opened BackupRuns
  import opened BackupGuarantees

  datatype Act =
    | Env(e: EnvStep)
    | StorePause(paused: seq<PausedWorkload>, suspend: seq<string>, unread: set<nat>)
    | ScaleToZero(x: string)
    | SeeStopped
    | StartItem(i: nat)
    | StoreResume
    | ScaleBack(x: string)
    | StoreSnapshotID(i: nat, files: seq<Snapshot>)
    | MoveSnapshot(i: nat, c: Call)

  predicate MayStoreResume(item: Item, side: Side, t: string, pausedAt: nat) {
    item.phase != Pending && (item.phase == Running ==> item.Volume? && LooksCut(side, t, pausedAt))
  }

  function SyncOf(side: Side, files: seq<Snapshot>): Option<Snapshot>
    requires side.Claim? && side.source.Some?
  {
    Newest(files, side.source.value.end - side.source.value.took - SECOND, side.source.value.end + SECOND)
  }

  predicate RunningVolume(w: World, i: nat) {
    i < |w.stored.items| && i < |w.sides| && w.stored.items[i].Volume? && w.stored.items[i].phase == Running && w.sides[i].Claim?
  }

  ghost predicate Enabled(w: World, t: string, a: Act) {
    match a
    case Env(_) => true
    case StorePause(paused, suspend, unread) =>
      && w.stored.pausedAt.None? && Plans(w.field, paused, suspend)
      && forall i :: 0 <= i < |w.sides| ==> i in unread || Idle(w.sides[i], t)
    case ScaleToZero(_) => Pausing(w.stored)
    case SeeStopped => Pausing(w.stored) && Frozen(w.field) && w.field.apps != map[] && w.past.cut.None?
    case StartItem(i) =>
      && i < |w.stored.items| && i < |w.sides| && w.stored.items[i].Volume? && w.stored.items[i].phase == Pending && w.sides[i].Claim?
      && Startable(ContextOf(w)) && Idle(w.sides[i], t) && !CannotStart(w.sides[i])
    case StoreResume =>
      && Pausing(w.stored) && |w.sides| == |w.stored.items|
      && forall i :: 0 <= i < |w.sides| ==> MayStoreResume(w.stored.items[i], w.sides[i], t, w.stored.pausedAt.value)
    case ScaleBack(x) => w.stored.resumedAt.Some? && x in w.field.apps
    case StoreSnapshotID(i, files) =>
      && RunningVolume(w, i) && w.stored.items[i].snapshotID == "" && w.stored.resumedAt.Some? && w.field.apps != map[]
      && w.sides[i].source.Some? && w.sides[i].source.value.last == t && Lists(files, w.sides[i].store)
      && !DatabaseFailed(w.stored.items) && SyncOf(w.sides[i], files).Some?
    case MoveSnapshot(i, c) =>
      && RunningVolume(w, i) && w.stored.items[i].snapshotID != "" && w.stored.resumedAt.Some?
      && Fair(w.sides[i].store, w.sides[i].store, c)
  }

  function SetItem(w: World, i: nat, item: Item): World
    requires i < |w.stored.items|
  {
    With(w, w.stored.(items := w.stored.items[i := item]))
  }

  ghost function Perform(w: World, t: string, a: Act): World
    requires Enabled(w, t, a)
  {
    match a
    case Env(e) => EnvNext(w, e)
    case StorePause(paused, suspend, unread) =>
      var at := Truncate(w.now);
      var blind := exists i :: 0 <= i < |w.sides| && i in unread && !Idle(w.sides[i], t);
      var ticked := w.field.apps != map[] && forall i :: 0 <= i < |w.sides| ==> Older(w.sides[i], at);
      With(w.(past := w.past.(blind := blind, ticked := ticked)), PausedStatus(w.stored, paused, suspend, at))
    case ScaleToZero(x) => w.(field := Scaled(w.field, x, 0))
    case SeeStopped => w.(past := w.past.(cut := Some(w.field.version)))
    case StartItem(i) => SetItem(w.(sides := w.sides[i := Triggered(w.sides[i], t)]), i, Volume(w.stored.items[i].name, Running, w.stored.items[i].snapshotID))
    case StoreResume => With(w, w.stored.(resumedAt := Some(Truncate(w.now))))
    case ScaleBack(x) => w.(field := Scaled(w.field, x, w.field.apps[x].owner))
    case StoreSnapshotID(i, files) => SetItem(w, i, Volume(w.stored.items[i].name, Running, SyncOf(w.sides[i], files).value.id))
    case MoveSnapshot(i, c) =>
      var o := Retimed(w.sides[i].store, MoveRequest(w.stored, w.stored.items[i].snapshotID), c);
      var v := w.(sides := w.sides[i := w.sides[i].(store := o.store)]);
      if o.result.Some? then SetItem(v, i, Volume(w.stored.items[i].name, Succeeded, o.result.value.id)) else v
  }

  // ---------------------------------------------------- every step is sound

  lemma StorePauseKeepsInv(w: World, t: string, a: Act)
    requires Inv(w, t) && a.StorePause? && Enabled(w, t, a)
    ensures Inv(Perform(w, t, a), t)
  {
    hide Inv, Plans, Idle, Older;
    var at := Truncate(w.now);
    var blind := exists i :: 0 <= i < |w.sides| && i in a.unread && !Idle(w.sides[i], t);
    var ticked := w.field.apps != map[] && forall i :: 0 <= i < |w.sides| ==> Older(w.sides[i], at);
    UnpausedKeepsInv(w, t, blind, ticked);
    PauseKeepsInv(w.(past := w.past.(blind := blind, ticked := ticked)), t, a.paused, a.suspend, at);
  }

  lemma StartItemKeepsInv(w: World, t: string, i: nat)
    requires Inv(w, t) && Enabled(w, t, StartItem(i)) && !Finished(w.stored)
    ensures Inv(Perform(w, t, StartItem(i)), t)
  {
    hide Inv, VolumeSound;
    ItemAt(w, t, i);
    TriggerKeepsVolume(ContextOf(w), t, w.stored.items[i], w.sides[i]);
    var v := w.(sides := w.sides[i := Triggered(w.sides[i], t)]);
    OneSideKeepsInv(w, t, i, Triggered(w.sides[i], t));
    ItemAt(v, t, i);
    RunningVolumeIsSound(ContextOf(v), t, v.stored.items[i], v.sides[i]);
    OneItemKeepsInv(v, t, i, Volume(w.stored.items[i].name, Running, w.stored.items[i].snapshotID));
  }

  lemma StoreResumeKeepsInv(w: World, t: string)
    requires Inv(w, t) && Enabled(w, t, StoreResume)
    ensures Inv(Perform(w, t, StoreResume), t)
  {
    hide Inv, VolumeSound;
    forall i | 0 <= i < |w.sides| ensures MayResume(ContextOf(w), t, w.stored.items[i], w.sides[i]) {
      ItemAt(w, t, i);
      assert MayStoreResume(w.stored.items[i], w.sides[i], t, w.stored.pausedAt.value);
      if w.stored.items[i].Volume? && w.stored.items[i].phase == Running {
        LooksCutIsCut(ContextOf(w), t, w.stored.items[i], w.sides[i], w.stored.pausedAt.value);
      }
    }
    ResumeKeepsInv(w, t, Truncate(w.now));
  }

  lemma StoreSnapshotIDKeepsInv(w: World, t: string, i: nat, files: seq<Snapshot>)
    requires Inv(w, t) && Enabled(w, t, StoreSnapshotID(i, files)) && !w.past.finalizing && !Finished(w.stored)
    ensures Inv(Perform(w, t, StoreSnapshotID(i, files)), t)
  {
    hide Inv, VolumeSound;
    ItemAt(w, t, i);
    PausedAtIsSet(w, t);
    var found := SyncOf(w.sides[i], files);
    FoundIsSound(ContextOf(w), t, w.stored.items[i], w.sides[i], files, found);
    ResumedAndNoneFailed(w, t);
    RecordIsSound(ContextOf(w), t, w.stored.items[i], w.sides[i], found.value);
    OneItemKeepsInv(w, t, i, Volume(w.stored.items[i].name, Running, found.value.id));
  }

  lemma PausedAtIsSet(w: World, t: string)
    requires Inv(w, t) && w.stored.resumedAt.Some?
    ensures w.stored.pausedAt.Some?
  {
  }

  lemma MoveKeepsInv(w: World, t: string, i: nat, c: Call)
    requires Inv(w, t) && Enabled(w, t, MoveSnapshot(i, c)) && !w.past.finalizing && !Finished(w.stored)
    ensures Inv(Perform(w, t, MoveSnapshot(i, c)), t)
  {
    hide Inv, VolumeSound, Retimed, Fair;
    ItemAt(w, t, i);
    MovesAfterResume(w, t, i);
    var item, r := w.stored.items[i], MoveRequest(w.stored, w.stored.items[i].snapshotID);
    MoveIsSound(ContextOf(w), t, item, w.sides[i], r, c);
    MoveStaysInPast(w.sides[i], t, w.now, r, c);
    var o := Retimed(w.sides[i].store, r, c);
    var side := w.sides[i].(store := o.store);
    OneSideKeepsInv(w, t, i, side);
    if o.result.Some? { OneItemKeepsInv(w.(sides := w.sides[i := side]), t, i, Volume(item.name, Succeeded, o.result.value.id)); }
  }

  /** No act ends the run. */
  lemma ActLeavesOpen(w: World, t: string, a: Act)
    requires Enabled(w, t, a) && !w.past.finalizing && !Finished(w.stored)
    ensures !Perform(w, t, a).past.finalizing && !Finished(Perform(w, t, a).stored)
  {
    hide Plans, Idle, Older, Retimed, NextSide, NextApp, Newest;
  }

  lemma ActKeepsInv(w: World, t: string, a: Act)
    requires Inv(w, t) && Enabled(w, t, a) && !w.past.finalizing && !Finished(w.stored)
    ensures Inv(Perform(w, t, a), t)
  {
    hide Inv, Retimed, Plans, Idle, Older, NextSide, NextApp, Newest;
    match a
    case Env(e) => EnvKeepsInv(w, t, e);
    case StorePause(_, _, _) => StorePauseKeepsInv(w, t, a);
    case ScaleToZero(x) => ScaleDownKeepsInv(w, t, x);
    case SeeStopped => CutKeepsInv(w, t);
    case StartItem(i) => StartItemKeepsInv(w, t, i);
    case StoreResume => StoreResumeKeepsInv(w, t);
    case ScaleBack(x) => ScaleUpKeepsInv(w, t, x);
    case StoreSnapshotID(i, files) => StoreSnapshotIDKeepsInv(w, t, i, files);
    case MoveSnapshot(i, c) => MoveKeepsInv(w, t, i, c);
  }

  // ------------------------------------------------------------------- runs

  ghost function Run(w: World, t: string, acts: seq<Act>): Option<World> {
    if acts == [] then Some(w)
    else
      var v := Run(w, t, acts[..|acts| - 1]);
      if v.Some? && Enabled(v.value, t, acts[|acts| - 1]) then Some(Perform(v.value, t, acts[|acts| - 1])) else None
  }

  /** Some sequence of acts leads from one world to the other. */
  ghost predicate Leads(w: World, t: string, end: World) { exists acts :: Run(w, t, acts) == Some(end) }

  lemma LeadsItself(w: World, t: string)
    ensures Leads(w, t, w)
  {
    assert Run(w, t, []) == Some(w);
  }

  lemma LeadsOn(w: World, t: string, v: World, a: Act)
    requires Leads(w, t, v) && Enabled(v, t, a)
    ensures Leads(w, t, Perform(v, t, a))
  {
    hide Enabled, Perform;
    var acts :| Run(w, t, acts) == Some(v);
    assert (acts + [a])[..|acts + [a]| - 1] == acts;
    assert Run(w, t, acts + [a]) == Some(Perform(v, t, a));
  }

  lemma {:induction false} RunKeepsInv(w: World, t: string, acts: seq<Act>)
    requires Init(w, t) && Run(w, t, acts).Some?
    ensures var e := Run(w, t, acts).value; Inv(e, t) && !e.past.finalizing && !Finished(e.stored)
  {
    if acts == [] {
      InitIsSound(w, t);
    } else {
      hide Enabled, Perform, Inv;
      RunKeepsInv(w, t, acts[..|acts| - 1]);
      var v := Run(w, t, acts[..|acts| - 1]).value;
      ActKeepsInv(v, t, acts[|acts| - 1]);
      ActLeavesOpen(v, t, acts[|acts| - 1]);
    }
  }

  /** Whatever such steps reach from a planned run is sound. */
  lemma LeadsToSound(w: World, t: string, end: World)
    requires Init(w, t) && Leads(w, t, end)
    ensures Inv(end, t)
  {
    hide Run, Inv, Init;
    var acts :| Run(w, t, acts) == Some(end);
    RunKeepsInv(w, t, acts);
  }

  // ------------------------------------------------------------ the examples

  /** A namespace with one marked workload of one replica and one claim. */
  datatype Small = Small(now: nat, version: nat, replicas: nat, pods: nat, source: Option<Source>, store: Store, st: Status, past: Past)

  function World_(s: Small): World {
    World(s.now, Field(s.version, map["x" := App(1, s.replicas, s.pods, None)], map[], map[]), [Claim(s.source, s.store, {}, true)], map[], false, s.st, s.past)
  }

  const T: string := "t"
  const AT: nat := 20 * SECOND
  const PLAN: seq<PausedWorkload> := [PausedWorkload("x", 1, false)]

  function Planned(): Status { Status(None, None, None, [], [], [Volume("v", Pending, "")]) }

  function Paused(resumedAt: Option<nat>, phase: ItemPhase, id: string): Status {
    Status(None, Some(AT), resumedAt, PLAN, [], [Volume("v", phase, id)])
  }

  /** The pause is stored. */
  lemma StoresPause(start: World, s: Small, unread: set<nat>, ticked: bool)
    requires Leads(start, T, World_(s)) && s.now == AT && s.replicas == 1 && s.st == Planned() && s.past == Past(None, false, false, false, false)
    requires 0 in unread || Idle(Claim(s.source, s.store, {}, true), T)
    requires ticked == Older(Claim(s.source, s.store, {}, true), AT)
    ensures Leads(start, T, World_(s.(st := Paused(None, Pending, ""), past := Past(None, !Idle(Claim(s.source, s.store, {}, true), T), ticked, false, false))))
  {
    hide Leads, Older, Idle;
    var w, a := World_(s), StorePause(PLAN, [], unread);
    assert PLAN[0].name == "x";
    assert Enabled(w, T, a);
    assert w.sides[0] == Claim(s.source, s.store, {}, true);
    LeadsOn(start, T, w, a);
  }

  /** The app is scaled to zero, stops, and the run sees it stopped. */
  lemma StopsApp(start: World, s: Small)
    requires Leads(start, T, World_(s)) && s.replicas == 1 && s.pods == 1 && s.st == Paused(None, Pending, "") && s.past.cut.None?
    ensures Leads(start, T, World_(s.(replicas := 0, pods := 0, past := s.past.(cut := Some(s.version)))))
  {
    hide Leads;
    LeadsOn(start, T, World_(s), ScaleToZero("x"));
    var v := s.(replicas := 0);
    assert Perform(World_(s), T, ScaleToZero("x")) == World_(v);
    LeadsOn(start, T, World_(v), Env(OnApp("x", StopPod)));
    var u := v.(pods := 0);
    assert Perform(World_(v), T, Env(OnApp("x", StopPod))) == World_(u);
    assert "x" in World_(u).field.apps;
    LeadsOn(start, T, World_(u), SeeStopped);
    assert Perform(World_(u), T, SeeStopped) == World_(u.(past := u.past.(cut := Some(u.version))));
  }

  /** The volume starts on a source that is not busy. */
  lemma StartsVolume(start: World, s: Small)
    requires Leads(start, T, World_(s)) && s.source.Some? && s.source.value.managed && !Busy(s.source.value) && s.st == Paused(None, Pending, "") && s.past.cut.Some?
    ensures Leads(start, T, World_(s.(source := Some(s.source.value.(manual := T)), st := Paused(None, Running, ""))))
  {
    hide Leads;
    var v := s.(source := Some(s.source.value.(manual := T)), st := Paused(None, Running, ""));
    LeadsOn(start, T, World_(s), StartItem(0));
    assert Perform(World_(s), T, StartItem(0)) == World_(v);
  }

  /** The test of clonesCut passes, and the app is back and runs. */
  lemma GivesBack(start: World, s: Small)
    requires Leads(start, T, World_(s)) && s.now == AT && s.replicas == 0 && s.pods == 0 && s.st == Paused(None, Running, "")
    requires LooksCut(Claim(s.source, s.store, {}, true), T, AT)
    ensures Leads(start, T, World_(s.(replicas := 1, pods := 1, st := Paused(Some(AT), Running, ""))))
  {
    hide Leads, LooksCut;
    var w := World_(s);
    assert w.sides[0] == Claim(s.source, s.store, {}, true);
    LeadsOn(start, T, w, StoreResume);
    var v := s.(st := Paused(Some(AT), Running, ""));
    assert Perform(w, T, StoreResume) == World_(v);
    LeadsOn(start, T, World_(v), ScaleBack("x"));
    var u := v.(replicas := 1);
    assert Perform(World_(v), T, ScaleBack("x")) == World_(u);
    LeadsOn(start, T, World_(u), Env(OnApp("x", StartPod)));
    assert Perform(World_(u), T, Env(OnApp("x", StartPod))) == World_(u.(pods := 1));
  }

  lemma EnvLeads(start: World, s: Small, e: EnvStep, v: Small)
    requires Leads(start, T, World_(s)) && EnvNext(World_(s), e) == World_(v)
    ensures Leads(start, T, World_(v))
  {
    hide Leads, EnvNext;
    LeadsOn(start, T, World_(s), Env(e));
  }

  /** The run records the snapshot it finds and moves it. */
  lemma Moves(start: World, s: Small, saved: Snapshot, newID: string)
    requires Leads(start, T, World_(s)) && s.st == Paused(Some(AT), Running, "") && s.source.Some? && s.source.value.last == T
    requires s.store == map[saved.id := saved] && |saved.id| == |newID| == ID_LENGTH && saved.id != newID && saved.tags == [] && saved.original == ""
    requires InSync(s.source.value, saved)
    ensures Leads(start, T, World_(s.(store := map[newID := Snapshot(newID, AT, [PAUSED], saved.id, saved.body)], st := Paused(Some(AT), Succeeded, newID))))
  {
    hide Leads, First, Retimed;
    var w := World_(s);
    NewestIsNewest([saved], s.source.value.end - s.source.value.took - SECOND, s.source.value.end + SECOND);
    assert saved in [saved];
    assert SyncOf(w.sides[0], [saved]) == Some(saved);
    assert "x" in w.field.apps && Lists([saved], w.sides[0].store);
    LeadsOn(start, T, w, StoreSnapshotID(0, [saved]));
    var v := s.(st := Paused(Some(AT), Running, saved.id));
    assert Perform(w, T, StoreSnapshotID(0, [saved])) == World_(v);
    var c := Call([saved], newID, NoFault, NoFault);
    LeadsOn(start, T, World_(v), MoveSnapshot(0, c));
    NoDatabaseNoTags();
    MoveOfOne(saved, newID, MoveRequest(v.st, saved.id));
    var moved := Snapshot(newID, AT, [PAUSED], saved.id, saved.body);
    assert Perform(World_(v), T, MoveSnapshot(0, c)) == World_(s.(store := map[newID := moved], st := Paused(Some(AT), Succeeded, newID)));
  }

  lemma NoDatabaseNoTags()
    ensures forall phase, id :: TagsOf([Volume("v", phase, id)]) == []
  {
    forall phase, id ensures TagsOf([Volume("v", phase, id)]) == [] {
      var items := [Volume("v", phase, id)];
      assert items[..0] == [];
    }
  }

  lemma MoveOfOne(s: Snapshot, newID: string, r: Request)
    requires s.id == r.id && s.id != newID && s.tags == [] && r.extra == [] && r.tag == PAUSED && s.original == ""
    ensures Retimed(map[s.id := s], r, Call([s], newID, NoFault, NoFault)) ==
            Outcome(map[newID := Snapshot(newID, r.at, [PAUSED], s.id, s.body)], Some(Snapshot(newID, r.at, [PAUSED], s.id, s.body)))
  {
    assert First([s], ByID(r.id)) == Some(s);
    FirstMeans([s], CopyOf(s, r.at, r.tag));
    assert [PAUSED] + r.extra == [PAUSED];
    assert AddTags([], [PAUSED]) == [PAUSED] by { assert [PAUSED][..0] == []; }
  }

  /** An older sync: its trigger, the one it completed, and its clone. */
  function OldSync(last: string, clone: Option<Clone>): Source { Source(true, "old", last, if last == "" then 0 else AT, 0, clone, false) }

  const LEFT: Clone := Clone("old", AT, Some(0))

  /** From a pause beside a clone of an older sync, made at the second of the pause
      and cut before the app's last write: the run takes that clone for its own,
      resumes the app, and tags what the app wrote afterwards. */
  lemma OldCloneBreaksTheCut(start: World, past: Past, oldID: string, newID: string) returns (end: Small)
    requires Leads(start, T, World_(Small(AT, 1, 1, 1, Some(OldSync("old", Some(LEFT))), map[], Paused(None, Pending, ""), past)))
    requires past.cut.None? && |oldID| == |newID| == ID_LENGTH && oldID != newID
    ensures Leads(start, T, World_(end)) && end.past == past.(cut := Some(1))
    ensures end.store == map[newID := Snapshot(newID, AT, [PAUSED], oldID, Body(T, 2))]
  {
    hide Leads;
    var s := Small(AT, 1, 1, 1, Some(OldSync("old", Some(LEFT))), map[], Paused(None, Pending, ""), past);
    StopsApp(start, s);
    s := s.(replicas := 0, pods := 0, past := past.(cut := Some(1)));
    StartsVolume(start, s);
    s := s.(source := Some(OldSync("old", Some(LEFT)).(manual := T)), st := Paused(None, Running, ""));
    GivesBack(start, s);
    s := s.(replicas := 1, pods := 1, st := Paused(Some(AT), Running, ""));
    end := SyncsLate(start, s, oldID);
    Moves(start, end, Snapshot(oldID, AT, [], "", Body(T, 2)), newID);
    end := end.(store := map[newID := Snapshot(newID, AT, [PAUSED], oldID, Body(T, 2))], st := Paused(Some(AT), Succeeded, newID));
  }

  /** The app writes, the old clone goes, and only then VolSync cuts the clone of
      the run and saves it. */
  lemma SyncsLate(start: World, s: Small, oldID: string) returns (end: Small)
    requires Leads(start, T, World_(s)) && s.now == AT && s.version == 1 && s.replicas == 1 && s.pods == 1 && |oldID| == ID_LENGTH
    requires s.source == Some(OldSync("old", Some(LEFT)).(manual := T)) && s.store == map[]
    ensures Leads(start, T, World_(end)) && end.source.Some? && end.source.value.last == T && end.st == s.st && end.past == s.past
    ensures end.store == map[oldID := Snapshot(oldID, AT, [], "", Body(T, 2))] && InSync(end.source.value, Snapshot(oldID, AT, [], "", Body(T, 2)))
  {
    hide Leads;
    var source := s.source.value;
    end := s.(version := 2);
    EnvLeads(start, s, OnApp("x", WriteData), end);
    EnvLeads(start, end, OnSide(0, DropClone), end.(source := Some(source.(clone := None))));
    end := end.(source := Some(source.(clone := None)));
    EnvLeads(start, end, OnSide(0, StartSync), end.(source := Some(source.(clone := Some(Clone(T, AT, None))))));
    end := end.(source := Some(source.(clone := Some(Clone(T, AT, None)))));
    EnvLeads(start, end, OnSide(0, BindClone), end.(source := Some(source.(clone := Some(Clone(T, AT, Some(2)))))));
    end := end.(source := Some(source.(clone := Some(Clone(T, AT, Some(2))))));
    end := SavesAndEnds(start, end, oldID);
  }

  lemma SavesAndEnds(start: World, s: Small, oldID: string) returns (end: Small)
    requires Leads(start, T, World_(s)) && s.now == AT && |oldID| == ID_LENGTH && s.store == map[]
    requires s.source.Some? && s.source.value.manual == T && s.source.value.last == "old" && s.source.value.clone == Some(Clone(T, AT, Some(2)))
    ensures Leads(start, T, World_(end)) && end == s.(store := end.store, source := end.source) && end.source.Some? && end.source.value.last == T
    ensures end.store == map[oldID := Snapshot(oldID, AT, [], "", Body(T, 2))] && InSync(end.source.value, Snapshot(oldID, AT, [], "", Body(T, 2)))
  {
    hide Leads;
    end := s.(store := map[oldID := Snapshot(oldID, AT, [], "", Body(T, 2))]);
    EnvLeads(start, s, OnSide(0, SaveSnapshot(oldID)), end);
    var done := end.(source := Some(s.source.value.(last := T, end := AT, took := 0)));
    EnvLeads(start, end, OnSide(0, FinishSync), done);
    end := done;
  }

  lemma SmallIsInit(s: Small)
    requires s.replicas == 1 && s.st == Planned() && s.past == Past(None, false, false, false, false) && Named(s.store)
    requires s.source.Some? ==> s.source.value.manual == "old" && s.source.value.last != T && (s.source.value.clone.Some? ==> s.source.value.clone.value.trigger == "old")
    requires forall id :: id in s.store ==> s.store[id].body.writer == "old" && PAUSED !in s.store[id].tags
    ensures Init(World_(s), T)
  {
    var w := World_(s);
    assert w.sides[0].before == TaggedIn(s.store);
  }

  lemma SmallHasNotOneCut(s: Small, id: string)
    requires id in s.store && PAUSED in s.store[id].tags && (s.store[id].body.writer != T || s.past.cut != Some(s.store[id].body.tree))
    ensures !OneCut(World_(s), T)
  {
    var w := World_(s);
    assert TaggedBy(w, T, 0, id);
    if MovedBy(w, T, 0, id) { assert At(w, T, 0, id) == s.store[id]; }
  }

  /** A busy source that the busy check could not read breaks the cut, although
      everything before the pause is old enough. */
  lemma BlindReadBreaksTheCut(oldID: string, newID: string) returns (start: Small, end: Small)
    requires |oldID| == |newID| == ID_LENGTH && oldID != newID
    ensures Init(World_(start), T) && Leads(World_(start), T, World_(end)) && Inv(World_(end), T)
    ensures end.past.blind && end.past.ticked && !OneCut(World_(end), T)
  {
    hide Leads, Inv, OneCut, Init, Older, Idle, World_;
    BusyAndOld();
    var s := Small(AT, 0, 1, 1, Some(OldSync("", None)), map[], Planned(), Past(None, false, false, false, false));
    start := s;
    SmallIsInit(s);
    LeadsItself(World_(start), T);
    StoresPause(World_(start), s, {0}, true);
    var past := Past(None, true, true, false, false);
    s := s.(st := Paused(None, Pending, ""), past := past);
    s := OldSyncEnds(World_(start), s);
    end := OldCloneBreaksTheCut(World_(start), past, oldID, newID);
    SmallHasNotOneCut(end, newID);
    LeadsToSound(World_(start), T, World_(end));
  }

  /** The older sync cuts its clone, the app writes, and the sync ends. */
  lemma OldSyncEnds(start: World, s: Small) returns (end: Small)
    requires Leads(start, T, World_(s)) && s.now == AT && s.version == 0 && s.pods == 1 && s.source == Some(OldSync("", None))
    ensures end == s.(version := 1, source := Some(OldSync("old", Some(LEFT)))) && Leads(start, T, World_(end))
  {
    hide Leads;
    end := s.(source := Some(OldSync("", Some(Clone("old", AT, None)))));
    EnvLeads(start, s, OnSide(0, StartSync), end);
    EnvLeads(start, end, OnSide(0, BindClone), end.(source := Some(OldSync("", Some(LEFT)))));
    end := end.(source := Some(OldSync("", Some(LEFT))));
    EnvLeads(start, end, OnApp("x", WriteData), end.(version := 1));
    end := end.(version := 1);
    EnvLeads(start, end, OnSide(0, FinishSync), end.(source := Some(OldSync("old", Some(LEFT)))));
    end := end.(source := Some(OldSync("old", Some(LEFT))));
  }

  /** A source that is busy with another trigger, and nothing old beside it. */
  lemma BusyAndOld()
    ensures var side := Claim(Some(OldSync("", None)), map[], {}, true); !Idle(side, T) && Older(side, AT)
  {
  }

  function Young(id: string): Snapshot { Snapshot(id, AT - 2 * SECOND + 1, [], "", Body("old", 7)) }

  /** What the second of the pause leaves too young. */
  lemma TooYoung(id: string)
    ensures var side := Claim(Some(OldSync("old", Some(LEFT))), map[], {}, true); Idle(side, T) && !Older(side, AT)
    ensures var side := Claim(Some(OldSync("old", None)), map[id := Young(id)], {}, true); Idle(side, T) && !Older(side, AT)
  {
    var store := map[id := Young(id)];
    assert id in store && store[id].time + 2 * SECOND > AT;
  }

  /** A clone of an older sync that was made within the second of the pause breaks
      the cut, although every read was answered. */
  lemma CloneOfTheSecondBreaksTheCut(oldID: string, newID: string) returns (start: Small, end: Small)
    requires |oldID| == |newID| == ID_LENGTH && oldID != newID
    ensures Init(World_(start), T) && Leads(World_(start), T, World_(end)) && Inv(World_(end), T)
    ensures !end.past.blind && !end.past.ticked && !OneCut(World_(end), T)
    ensures start.store == map[]
  {
    hide Leads, Inv, OneCut, Init, Older, Idle, World_;
    TooYoung(oldID);
    var s := Small(AT, 1, 1, 1, Some(OldSync("old", Some(LEFT))), map[], Planned(), Past(None, false, false, false, false));
    start := s;
    SmallIsInit(s);
    LeadsItself(World_(start), T);
    StoresPause(World_(start), s, {}, false);
    end := OldCloneBreaksTheCut(World_(start), Past(None, false, false, false, false), oldID, newID);
    SmallHasNotOneCut(end, newID);
    LeadsToSound(World_(start), T, World_(end));
  }

  /** A snapshot of an older sync that is younger than two seconds at the pause
      breaks the cut: the run's own sync saves nothing, because the volume holds
      no files, and its window reaches back to that snapshot. One nanosecond
      short of the two seconds is enough. */
  lemma YoungSnapshotBreaksTheCut(oldID: string, newID: string) returns (start: Small, end: Small)
    requires |oldID| == |newID| == ID_LENGTH && oldID != newID
    ensures Init(World_(start), T) && Leads(World_(start), T, World_(end)) && Inv(World_(end), T)
    ensures !end.past.blind && !end.past.ticked && !OneCut(World_(end), T)
    ensures start.store == map[oldID := Young(oldID)] && start.source.Some? && start.source.value.clone.None? && end.st.pausedAt == Some(AT)
  {
    hide Leads, Inv, OneCut, Init, Older, Idle, World_;
    TooYoung(oldID);
    var s := Small(AT, 0, 1, 1, Some(OldSync("old", None)), map[oldID := Young(oldID)], Planned(), Past(None, false, false, false, false));
    start := s;
    SmallIsInit(s);
    LeadsItself(World_(start), T);
    StoresPause(World_(start), s, {}, false);
    end := YoungIsMoved(World_(start), s.(st := Paused(None, Pending, "")), oldID, newID);
    SmallHasNotOneCut(end, newID);
    LeadsToSound(World_(start), T, World_(end));
  }

  lemma YoungIsMoved(start: World, s: Small, oldID: string, newID: string) returns (end: Small)
    requires Leads(start, T, World_(s)) && |oldID| == |newID| == ID_LENGTH && oldID != newID
    requires s == Small(AT, 0, 1, 1, Some(OldSync("old", None)), map[oldID := Young(oldID)], Paused(None, Pending, ""), Past(None, false, false, false, false))
    ensures Leads(start, T, World_(end)) && end.past == s.past.(cut := Some(0)) && end.st == Paused(Some(AT), Succeeded, newID)
    ensures end.store == map[newID := Snapshot(newID, AT, [PAUSED], oldID, Body("old", 7))]
  {
    hide Leads;
    StopsApp(start, s);
    end := s.(replicas := 0, pods := 0, past := s.past.(cut := Some(0)));
    StartsVolume(start, end);
    end := end.(source := Some(OldSync("old", None).(manual := T)), st := Paused(None, Running, ""));
    end := SyncSavesNothing(start, end);
    Moves(start, end, Young(oldID), newID);
    end := end.(store := map[newID := Snapshot(newID, AT, [PAUSED], oldID, Body("old", 7))], st := Paused(Some(AT), Succeeded, newID));
  }

  /** The run's clone is cut, the app comes back, and the sync ends without a
      snapshot. */
  lemma SyncSavesNothing(start: World, s: Small) returns (end: Small)
    requires Leads(start, T, World_(s)) && s.now == AT && s.version == 0 && s.replicas == 0 && s.pods == 0
    requires s.source == Some(OldSync("old", None).(manual := T)) && s.st == Paused(None, Running, "")
    ensures Leads(start, T, World_(end)) && end.store == s.store && end.past == s.past && end.st == Paused(Some(AT), Running, "")
    ensures end.source.Some? && end.source.value.last == T && end.source.value.end == AT && end.source.value.took == SECOND - 1
  {
    hide Leads;
    var source := s.source.value;
    end := s.(source := Some(source.(clone := Some(Clone(T, AT, None)))));
    EnvLeads(start, s, OnSide(0, StartSync), end);
    EnvLeads(start, end, OnSide(0, BindClone), end.(source := Some(source.(clone := Some(Clone(T, AT, Some(0)))))));
    end := end.(source := Some(source.(clone := Some(Clone(T, AT, Some(0))))));
    GivesBack(start, end);
    end := end.(replicas := 1, pods := 1, st := Paused(Some(AT), Running, ""));
    EnvLeads(start, end, Tick(SECOND - 1), end.(now := AT + SECOND - 1));
    end := end.(now := AT + SECOND - 1);
    var done := end.(source := Some(end.source.value.(last := T, end := AT, took := SECOND - 1)));
    EnvLeads(start, end, OnSide(0, FinishSync), done);
    end := done;
  }
}

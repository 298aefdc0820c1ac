/**
 What each write of a BackupRun's pass keeps: the writes to the cluster, and
 the changes to the copy of the status that the pass holds in memory.
 */
module BackupEffects {
  import opened Common
  import opened Restic
  import opened Retime
  import opened BackupWorld

  /** What a pass may read off the invariant about the pause. */
  lemma PauseFacts(w: World, t: string)
    requires Inv(w, t)
    ensures t != "" && |w.sides| == |w.stored.items|
    ensures forall key :: key in w.stored.suspended ==> key in w.field.suspends && key in w.field.owned && !w.field.owned[key]
    ensures forall i :: 0 <= i < |w.stored.paused| ==>
              w.stored.paused[i].name in w.field.apps && w.stored.paused[i].replicas == w.field.apps[w.stored.paused[i].name].owner
    ensures w.stored.pausedAt.Some? ==> forall x :: x in w.field.apps ==> IsPaused(w.stored, x)
    ensures w.stored.pausedAt.None? ==> w.stored.resumedAt.None? && AllBack(w.field)
    ensures Pausing(w.stored) ==> w.stored.paused != []
    ensures Pausing(w.stored) && (forall key :: key in w.stored.suspended ==> w.field.suspends[key]) ==>
              forall x :: x in w.field.apps ==> Blocked(w.field, x)
  {
  }

  // ------------------------------------------------------ writes to the app

  function Scaled(f: Field, x: string, n: nat): Field {
    if x in f.apps then f.(apps := f.apps[x := f.apps[x].(replicas := n)]) else f
  }

  function Suspended(f: Field, key: string, on: bool): Field {
    if key in f.suspends then f.(suspends := f.suspends[key := on]) else f
  }

  /** The run may stop the app: it stored the pause and not the resume. */
  predicate Pausing(st: Status) { st.pausedAt.Some? && st.resumedAt.None? && !Finished(st) }

  /** A change of the workloads is judged by itself. */
  lemma FieldKeepsInv(w: World, t: string, f: Field)
    requires Inv(w, t) && BackInv(f, w.stored) && f.apps.Keys == w.field.apps.Keys && f.version == w.field.version
    requires w.past.cut.Some? && w.stored.resumedAt.None? ==> Frozen(f)
    ensures Inv(w.(field := f), t)
  {
    assert f.apps == map[] <==> f.apps.Keys == {};
    assert w.field.apps == map[] <==> w.field.apps.Keys == {};
    assert ContextOf(w.(field := f)) == ContextOf(w);
  }

  lemma ScaleDownKeepsInv(w: World, t: string, x: string)
    requires Inv(w, t) && Pausing(w.stored)
    ensures Inv(w.(field := Scaled(w.field, x, 0)), t)
  {
    var f := Scaled(w.field, x, 0);
    assert BackInv(f, w.stored);
    if Frozen(w.field) {
      forall y | y in f.apps ensures Still(f, y) { assert Still(w.field, y); }
    }
    FieldKeepsInv(w, t, f);
  }

  lemma ScaleUpKeepsInv(w: World, t: string, x: string)
    requires Inv(w, t) && w.stored.resumedAt.Some? && x in w.field.apps
    ensures Inv(w.(field := Scaled(w.field, x, w.field.apps[x].owner)), t)
  {
    var f := Scaled(w.field, x, w.field.apps[x].owner);
    assert AllBack(w.field) ==> AllBack(f);
    assert BackInv(f, w.stored);
    FieldKeepsInv(w, t, f);
  }

  lemma SuspendKeepsInv(w: World, t: string, key: string)
    requires Inv(w, t) && Pausing(w.stored) && key in w.stored.suspended
    ensures Inv(w.(field := Suspended(w.field, key, true)), t)
  {
    var f := Suspended(w.field, key, true);
    assert BackInv(f, w.stored);
    if Frozen(w.field) {
      forall y | y in f.apps ensures Still(f, y) { assert Still(w.field, y); }
    }
    FieldKeepsInv(w, t, f);
  }

  lemma ReleaseKeepsInv(w: World, t: string, key: string)
    requires Inv(w, t) && w.stored.resumedAt.Some? && key in w.stored.suspended
    ensures Inv(w.(field := Suspended(w.field, key, false)), t)
  {
    var f := Suspended(w.field, key, false);
    assert key in f.owned && !f.owned[key];
    assert AllBack(w.field) ==> AllBack(f);
    assert BackInv(f, w.stored);
    FieldKeepsInv(w, t, f);
  }

  // ---------------------------------------------------------- other writes

  /** A change of one side is judged by its own item. */
  lemma OneSideKeepsInv(w: World, t: string, i: nat, side: Side)
    requires Inv(w, t) && i < |w.sides| && ItemSound(ContextOf(w), t, w.bases, w.stored.items[i], side) && InPast(side, t, w.now)
    ensures Inv(w.(sides := w.sides[i := side]), t)
  {
    hide ItemSound, InPast, BackInv, TagsOf, DatabasesSettled;
    SidesKeepInv(w, t, w.sides[i := side], w.bases);
  }

  /** The trigger of the run on the source of a claim. */
  function Triggered(side: Side, t: string): Side
    requires side.Claim?
  {
    match side.source
    case None => side.(source := Some(Source(true, t, "", 0, 0, None, false)))
    case Some(s) => side.(source := Some(s.(manual := t)))
  }

  predicate Startable(k: Context) { k.pauses ==> k.past.cut.Some? && k.resumedAt.None? }

  lemma TriggerKeepsVolume(k: Context, t: string, item: Item, side: Side)
    requires item.Volume? && VolumeSound(k, t, item, side) && Startable(k) && t != ""
    requires k.past.cut.Some? ==> k.pauses
    requires side.source.Some? && Busy(side.source.value) ==> side.source.value.manual == t
    requires !k.pauses ==> !k.past.ticked
    ensures VolumeSound(k, t, item, Triggered(side, t))
  {
  }

  /** A triggered volume is Running. */
  lemma RunningVolumeIsSound(k: Context, t: string, item: Item, side: Side)
    requires item.Volume? && item.phase == Pending && VolumeSound(k, t, item, side) && Startable(k)
    requires k.past.cut.Some? ==> k.pauses
    requires side.source.Some? && side.source.value.manual == t
    ensures VolumeSound(k, t, Volume(item.name, Running, item.snapshotID), side)
  {
  }

  /** The item of a stored status is sound. */
  lemma ItemAt(w: World, t: string, i: nat)
    requires Inv(w, t) && i < |w.stored.items|
    ensures i < |w.sides| && ItemSound(ContextOf(w), t, w.bases, w.stored.items[i], w.sides[i])
    ensures w.sides[i].Claim? <==> w.stored.items[i].Volume?
    ensures InPast(w.sides[i], t, w.now)
    ensures ContextOf(w).pausedAt.Some? || ContextOf(w).past.cut.None?
    ensures ContextOf(w).past.cut.Some? ==> ContextOf(w).pauses
    ensures ContextOf(w).past.ticked ==> ContextOf(w).pauses
    ensures t != ""
  {
  }

  function Dumped(side: Side): Side
    requires side.Cluster?
  {
    if side.dump.NoDump? then side.(dump := Started) else side
  }

  lemma DumpKeepsSound(k: Context, bases: map<string, nat>, item: Item, side: Side)
    requires item.Database? && DatabaseSound(k, bases, item, side) && Startable(k)
    ensures DatabaseSound(k, bases, item, Dumped(side))
  {
  }

  /** The pods are gone: this is the version every backup of the run holds. */
  lemma CutKeepsInv(w: World, t: string)
    requires Inv(w, t) && Pausing(w.stored) && Frozen(w.field) && w.field.apps != map[] && w.past.cut.None?
    ensures Inv(w.(past := w.past.(cut := Some(w.field.version))), t)
  {
    var w' := w.(past := w.past.(cut := Some(w.field.version)));
    forall i | 0 <= i < |w.sides| ensures ItemSound(ContextOf(w'), t, w.bases, w.stored.items[i], w.sides[i]) {
      CutKeepsItem(ContextOf(w), t, w.bases, w.stored.items[i], w.sides[i], w.field.version);
    }
  }

  lemma CutKeepsItem(k: Context, t: string, bases: map<string, nat>, item: Item, side: Side, v: nat)
    requires ItemSound(k, t, bases, item, side) && k.pauses && k.past.cut.None? && k.resumedAt.None?
    ensures ItemSound(k.(past := k.past.(cut := Some(v))), t, bases, item, side)
  {
    var k' := k.(past := k.past.(cut := Some(v)));
    if item.Volume? {
      forall id | id in side.store ensures SnapshotSound(k', t, side.store[id]) { assert SnapshotSound(k, t, side.store[id]); }
    }
  }

  /** Before the pause nothing depends on what the history says about it. */
  lemma UnpausedKeepsItem(k: Context, t: string, bases: map<string, nat>, item: Item, side: Side, blind: bool, ticked: bool)
    requires ItemSound(k, t, bases, item, side) && k.pausedAt.None? && k.resumedAt.None? && k.past.cut.None?
    ensures ItemSound(k.(past := k.past.(blind := blind, ticked := ticked)), t, bases, item, side)
  {
    var k' := k.(past := k.past.(blind := blind, ticked := ticked));
    if item.Volume? {
      forall id | id in side.store ensures SnapshotSound(k', t, side.store[id]) { assert SnapshotSound(k, t, side.store[id]); }
    }
  }

  lemma UnpausedKeepsInv(w: World, t: string, blind: bool, ticked: bool)
    requires Inv(w, t) && w.stored.pausedAt.None? && (ticked ==> w.field.apps != map[])
    ensures Inv(w.(past := w.past.(blind := blind, ticked := ticked)), t)
  {
    var w' := w.(past := w.past.(blind := blind, ticked := ticked));
    forall i | 0 <= i < |w.sides| ensures ItemSound(ContextOf(w'), t, w.bases, w.stored.items[i], w.sides[i]) {
      UnpausedKeepsItem(ContextOf(w), t, w.bases, w.stored.items[i], w.sides[i], blind, ticked);
    }
  }

  lemma LaterKeepsItem(k: Context, t: string, bases: map<string, nat>, item: Item, side: Side, finalizing: bool)
    requires ItemSound(k, t, bases, item, side)
    ensures ItemSound(k.(past := k.past.(finalizing := k.past.finalizing || finalizing, aborted := true)), t, bases, item, side)
    ensures ItemSound(k.(past := k.past.(finalizing := k.past.finalizing || finalizing)), t, bases, item, side)
  {
    var k' := k.(past := k.past.(finalizing := k.past.finalizing || finalizing, aborted := true));
    var k'' := k.(past := k.past.(finalizing := k.past.finalizing || finalizing));
    if item.Volume? {
      forall id | id in side.store ensures SnapshotSound(k', t, side.store[id]) && SnapshotSound(k'', t, side.store[id]) { assert SnapshotSound(k, t, side.store[id]); }
    }
  }

  lemma FinalizingKeepsInv(w: World, t: string)
    requires Inv(w, t) && w.deleting
    ensures Inv(w.(past := w.past.(finalizing := true)), t)
  {
    hide ItemSound, BackInv, TagsOf, DatabasesSettled;
    var w' := w.(past := w.past.(finalizing := true));
    forall i | 0 <= i < |w.sides| ensures ItemSound(ContextOf(w'), t, w.bases, w.stored.items[i], w.sides[i]) {
      LaterKeepsItem(ContextOf(w), t, w.bases, w.stored.items[i], w.sides[i], true);
    }
  }

  lemma AbortedKeepsInv(w: World, t: string)
    requires Inv(w, t)
    ensures Inv(w.(past := w.past.(aborted := true)), t)
  {
    hide ItemSound, BackInv, TagsOf, DatabasesSettled;
    var w' := w.(past := w.past.(aborted := true));
    forall i | 0 <= i < |w.sides| ensures ItemSound(ContextOf(w'), t, w.bases, w.stored.items[i], w.sides[i]) {
      LaterKeepsItem(ContextOf(w), t, w.bases, w.stored.items[i], w.sides[i], false);
    }
  }

  // --------------------------------------------------- the move of a snapshot

  function MoveRequest(st: Status, id: string): Request
    requires st.resumedAt.Some?
  {
    Request(id, st.resumedAt.value, PAUSED, TagsOf(st.items))
  }

  /** The copy that Retime writes is sound. */
  lemma CopyIsSound(k: Context, t: string, item: Item, side: Side, r: Request, newID: string)
    requires item.Volume? && item.phase == Running && VolumeSound(k, t, item, side) && item.snapshotID in side.store && item.snapshotID != ""
    requires k.past.cut.Some? && k.resumedAt == Some(r.at) && !k.past.finalizing
    requires r.tag == PAUSED && k.tags == AddTags([], [PAUSED] + r.extra)
    ensures SnapshotSound(k, t, Copy(side.store[item.snapshotID], r, newID))
    ensures Quiet(k.past) ==> side.store[item.snapshotID].body == Body(t, k.past.cut.value)
  {
    assert SnapshotSound(k, t, side.store[item.snapshotID]);
    AddTagsMeans([], [PAUSED] + r.extra);
    assert PAUSED in [PAUSED] + r.extra;
  }

  /** Writing the copy keeps what is known about the claim. */
  lemma PutKeepsVolume(k: Context, t: string, item: Item, side: Side, r: Request, newID: string)
    requires item.Volume? && item.phase == Running && VolumeSound(k, t, item, side) && item.snapshotID in side.store && item.snapshotID != ""
    requires k.past.cut.Some? && k.resumedAt == Some(r.at) && !k.past.finalizing
    requires r.tag == PAUSED && k.tags == AddTags([], [PAUSED] + r.extra)
    requires newID !in side.store && |newID| == ID_LENGTH
    ensures VolumeSound(k, t, item, side.(store := side.store[newID := Copy(side.store[item.snapshotID], r, newID)]))
  {
    CopyIsSound(k, t, item, side, r, newID);
  }

  /** So does removing the snapshot that was moved. */
  lemma RemoveKeepsVolume(k: Context, t: string, item: Item, side: Side)
    requires item.Volume? && item.phase == Running && VolumeSound(k, t, item, side)
    requires Quiet(k.past) ==> side.Claim? && HasCopy(side.store, item.snapshotID)
    ensures VolumeSound(k, t, item, side.(store := side.store - {item.snapshotID}))
  {
    if Quiet(k.past) {
      var c :| c in side.store && c != item.snapshotID && side.store[c].original == item.snapshotID && PAUSED in side.store[c].tags;
      assert c in side.store - {item.snapshotID};
    }
  }

  /** A snapshot that waits for its move is no copy itself. */
  lemma OriginOfRecorded(k: Context, t: string, item: Item, side: Side)
    requires item.Volume? && item.phase == Running && VolumeSound(k, t, item, side) && item.snapshotID in side.store && item.snapshotID != "" && Quiet(k.past)
    ensures Origin(side.store[item.snapshotID]) == item.snapshotID
  {
    assert SnapshotSound(k, t, side.store[item.snapshotID]);
  }

  lemma RetimeKeepsVolume(k: Context, t: string, item: Item, side: Side, r: Request, c: Call)
    requires item.Volume? && item.phase == Running && VolumeSound(k, t, item, side) && item.snapshotID == r.id != ""
    requires k.past.cut.Some? && k.resumedAt == Some(r.at) && !k.past.finalizing
    requires r.tag == PAUSED && k.tags == AddTags([], [PAUSED] + r.extra)
    requires Fair(side.store, side.store, c)
    ensures VolumeSound(k, t, item, side.(store := Retimed(side.store, r, c).store))
  {
    FindsByID(side.store, r.id, c.files);
    if r.id in side.store {
      var old_ := side.store[r.id];
      FirstMeans(c.files, CopyOf(old_, r.at, r.tag));
      if Quiet(k.past) { OriginOfRecorded(k, t, item, side); }
      if First(c.files, CopyOf(old_, r.at, r.tag)).Some? {
        assert Quiet(k.past) ==> HasCopy(side.store, r.id) by { assert First(c.files, CopyOf(old_, r.at, r.tag)).value.id in side.store; }
        RemoveKeepsVolume(k, t, item, side);
        assert !c.remove.FailsBefore? || side.(store := Retimed(side.store, r, c).store) == side;
      } else {
        PutKeepsVolume(k, t, item, side, r, c.newID);
        var put := side.(store := side.store[c.newID := Copy(old_, r, c.newID)]);
        AddTagsMeans(old_.tags, [r.tag] + r.extra);
        assert r.tag in [r.tag] + r.extra;
        assert Quiet(k.past) ==> HasCopy(put.store, r.id) by { assert c.newID in put.store; }
        RemoveKeepsVolume(k, t, item, put);
        assert c.put.FailsBefore? ==> side.(store := Retimed(side.store, r, c).store) == side;
      }
    } else {
      assert side.(store := side.store) == side;
    }
  }

  /** On a quiet run a move without a failed call returns. */
  lemma MoveReturns(k: Context, t: string, item: Item, side: Side, r: Request, c: Call)
    requires item.Volume? && item.phase == Running && VolumeSound(k, t, item, side) && item.snapshotID == r.id != "" && Quiet(k.past)
    requires r.tag == PAUSED && Fair(side.store, side.store, c) && c.put.NoFault? && c.remove.NoFault?
    ensures Retimed(side.store, r, c).result.Some?
  {
    FindsByID(side.store, r.id, c.files);
    if r.id !in side.store {
      var id :| id in side.store && id != r.id && side.store[id].original == r.id && PAUSED in side.store[id].tags;
      FirstMeans(c.files, ByOriginal(r.id, r.tag));
      assert side.store[id] in c.files && Matches(ByOriginal(r.id, r.tag), side.store[id]);
    }
  }

  /** The move leaves nothing of the sync in the future. */
  lemma MoveStaysInPast(side: Side, t: string, now: nat, r: Request, c: Call)
    requires side.Claim? && InPast(side, t, now) && r.tag == PAUSED && Fair(side.store, side.store, c)
    ensures InPast(side.(store := Retimed(side.store, r, c).store), t, now)
  {
    var found := First(c.files, ByID(r.id));
    if found.Some? {
      AddTagsMeans(found.value.tags, [r.tag] + r.extra);
      assert r.tag in [r.tag] + r.extra;
    }
  }

  /** What Retime returns is there and carries the tag. */
  lemma RetimeReturnsTagged(store: Store, r: Request, c: Call)
    requires Named(store) && |r.id| == ID_LENGTH && Fair(store, store, c)
    ensures var o := Retimed(store, r, c);
            o.result.Some? ==> |o.result.value.id| == ID_LENGTH && o.result.value.id in o.store && r.tag in o.store[o.result.value.id].tags
  {
    FindsByID(store, r.id, c.files);
    if r.id in store {
      FirstMeans(c.files, CopyOf(store[r.id], r.at, r.tag));
      AddTagsMeans(store[r.id].tags, [r.tag] + r.extra);
      assert r.tag in [r.tag] + r.extra;
    } else {
      FirstMeans(c.files, ByOriginal(r.id, r.tag));
    }
  }

  /** On a quiet run the move writes nothing but a copy of the run's own
      snapshot at the cut, and leaves every other snapshot as it is. */
  lemma MovesOnlyItsOwn(k: Context, t: string, item: Item, side: Side, r: Request, c: Call)
    requires item.Volume? && item.phase == Running && VolumeSound(k, t, item, side) && item.snapshotID == r.id != ""
    requires k.past.cut.Some? && k.resumedAt == Some(r.at) && !k.past.finalizing && Quiet(k.past)
    requires r.tag == PAUSED && k.tags == AddTags([], [PAUSED] + r.extra)
    requires Fair(side.store, side.store, c)
    ensures var store := Retimed(side.store, r, c).store;
            && (forall id :: id in store ==> (id in side.store && store[id] == side.store[id]) || store[id].body == Body(t, k.past.cut.value))
            && (forall id :: id in side.store && side.store[id].body.writer != t ==> id in store && store[id] == side.store[id])
  {
    hide First, AddTags, Settled, HoldsVersion, Fresh, CutDone;
    FindsByID(side.store, r.id, c.files);
    if r.id in side.store { CopyIsSound(k, t, item, side, r, c.newID); }
  }

  // ------------------------------------------------ the result of a volume

  /** The snapshot that SyncedSnapshot picks has a full ID, and on a quiet run
      the run's own sync wrote it. */
  lemma FoundIsSound(k: Context, t: string, item: Item, side: Side, files: seq<Snapshot>, found: Option<Snapshot>)
    requires item.Volume? && VolumeSound(k, t, item, side) && Lists(files, side.store) && k.pausedAt.Some?
    requires side.source.Some? && side.source.value.last == t
    requires found == Newest(files, side.source.value.end - side.source.value.took - SECOND, side.source.value.end + SECOND) && found.Some?
    ensures found.value.id in side.store && side.store[found.value.id] == found.value && |found.value.id| == ID_LENGTH
    ensures InSync(side.source.value, found.value)
    ensures Quiet(k.past) ==> found.value.body.writer == t
    ensures forall id :: id in side.store && InSync(side.source.value, side.store[id]) ==> side.store[id].time <= found.value.time
  {
    NewestIsNewest(files, side.source.value.end - side.source.value.took - SECOND, side.source.value.end + SECOND);
  }

  lemma NotFoundIsNothing(side: Side, files: seq<Snapshot>)
    requires side.Claim? && side.source.Some? && Lists(files, side.store)
    requires Newest(files, side.source.value.end - side.source.value.took - SECOND, side.source.value.end + SECOND).None?
    ensures NothingSaved(side)
  {
    NewestIsNewest(files, side.source.value.end - side.source.value.took - SECOND, side.source.value.end + SECOND);
  }

  /** Recording the snapshot before it moves. */
  lemma RecordIsSound(k: Context, t: string, item: Item, side: Side, s: Snapshot)
    requires item.Volume? && item.phase == Running && item.snapshotID == "" && VolumeSound(k, t, item, side)
    requires k.pauses && k.resumedAt.Some? && k.settled
    requires side.source.Some? && side.source.value.last == t
    requires s.id in side.store && side.store[s.id] == s && |s.id| == ID_LENGTH && (Quiet(k.past) ==> s.body.writer == t)
    ensures VolumeSound(k, t, Volume(item.name, Running, s.id), side)
  {
  }

  lemma DoneVolumeIsSound(k: Context, t: string, item: Item, side: Side, id: string)
    requires item.Volume? && item.phase == Running && VolumeSound(k, t, item, side)
    requires k.resumedAt.Some? && side.source.Some? && side.source.value.manual == t && side.source.value.last == t
    requires if id == "" then item.snapshotID == "" else |id| == ID_LENGTH
    requires if id == "" then NothingSaved(side) else id in side.store && Reported(k, side, side.store[id])
    ensures VolumeSound(k, t, Volume(item.name, Succeeded, id), side)
  {
  }

  /** The move, and the item once it returned. */
  lemma MoveIsSound(k: Context, t: string, item: Item, side: Side, r: Request, c: Call)
    requires item.Volume? && item.phase == Running && VolumeSound(k, t, item, side) && item.snapshotID == r.id != ""
    requires k.past.cut.Some? && k.resumedAt == Some(r.at) && !k.past.finalizing
    requires r.tag == PAUSED && k.tags == AddTags([], [PAUSED] + r.extra)
    requires Fair(side.store, side.store, c)
    ensures var o := Retimed(side.store, r, c);
            && VolumeSound(k, t, item, side.(store := o.store))
            && (o.result.Some? ==> VolumeSound(k, t, Volume(item.name, Succeeded, o.result.value.id), side.(store := o.store)))
  {
    RecordFacts(k, t, item, side);
    hide VolumeSound, Retimed, First, AddTags;
    RetimeKeepsVolume(k, t, item, side, r, c);
    RetimeReturnsTagged(side.store, r, c);
    var o := Retimed(side.store, r, c);
    if o.result.Some? { DoneVolumeIsSound(k, t, item, side.(store := o.store), o.result.value.id); }
  }

  lemma RecordFacts(k: Context, t: string, item: Item, side: Side)
    requires item.Volume? && item.phase == Running && item.snapshotID != "" && VolumeSound(k, t, item, side)
    ensures side.Claim? && Named(side.store) && |item.snapshotID| == ID_LENGTH && k.pauses && k.settled && k.resumedAt.Some?
    ensures side.source.Some? && side.source.value.manual == t && side.source.value.last == t
  {
  }

  // -------------------------------------------- changes to the copy in memory

  /** The world as it would be with another status stored. */
  function With(w: World, st: Status): World { w.(stored := st) }

  /** The context of an item differs in what the databases say alone, and no
      snapshot is moved yet. */
  lemma TagsKeepItem(k: Context, t: string, bases: map<string, nat>, item: Item, side: Side, tags: seq<string>, settled: bool)
    requires ItemSound(k, t, bases, item, side)
    requires (tags == k.tags && settled == k.settled) || k.past.cut.None? || k.resumedAt.None?
    ensures ItemSound(k.(tags := tags, settled := settled), t, bases, item, side)
  {
    var k' := k.(tags := tags, settled := settled);
    if item.Volume? {
      forall id | id in side.store ensures SnapshotSound(k', t, side.store[id]) { assert SnapshotSound(k, t, side.store[id]); }
    }
  }

  lemma BackInvIgnoresItems(f: Field, st: Status, items: seq<Item>)
    requires BackInv(f, st)
    ensures BackInv(f, st.(items := items))
  {
    assert forall x :: IsPaused(st, x) ==> IsPaused(st.(items := items), x);
  }

  /** New items in the status are judged one by one. */
  lemma ItemsKeepInv(w: World, t: string, items: seq<Item>)
    requires Inv(w, t) && !Finished(w.stored) && |items| == |w.stored.items|
    requires forall i :: 0 <= i < |items| ==> ItemSound(ContextOf(w), t, w.bases, items[i], w.sides[i])
    requires (TagsOf(items) == TagsOf(w.stored.items) && DatabasesSettled(items) == DatabasesSettled(w.stored.items)) ||
             w.past.cut.None? || w.stored.resumedAt.None?
    ensures Inv(With(w, w.stored.(items := items)), t)
  {
    hide ItemSound, AddTags, TagsOf, DatabasesSettled, BackInv, Frozen, AllDone, NoneFailed;
    var w' := With(w, w.stored.(items := items));
    BackInvIgnoresItems(w.field, w.stored, items);
    forall i | 0 <= i < |items| ensures ItemSound(ContextOf(w'), t, w.bases, items[i], w.sides[i]) {
      TagsKeepItem(ContextOf(w), t, w.bases, items[i], w.sides[i], MovedTags(items), DatabasesSettled(items));
    }
  }

  lemma {:induction false} TagsOfUpdate(items: seq<Item>, i: nat, item: Item)
    requires i < |items| && TagOf(items[i]) == TagOf(item)
    ensures TagsOf(items[i := item]) == TagsOf(items)
  {
    var n := |items| - 1;
    if i < n {
      assert items[i := item][..n] == items[..n][i := item];
      TagsOfUpdate(items[..n], i, item);
    } else {
      assert items[i := item][..n] == items[..n];
    }
  }

  lemma OneItemKeepsInv(w: World, t: string, i: nat, item: Item)
    requires Inv(w, t) && !Finished(w.stored) && i < |w.sides| && ItemSound(ContextOf(w), t, w.bases, item, w.sides[i])
    requires (item.Volume? && w.stored.items[i].Volume?) || w.past.cut.None? || w.stored.resumedAt.None?
    ensures Inv(With(w, w.stored.(items := w.stored.items[i := item])), t)
  {
    hide ItemSound, AddTags, BackInv;
    if item.Volume? && w.stored.items[i].Volume? { TagsOfUpdate(w.stored.items, i, item); }
    ItemsKeepInv(w, t, w.stored.items[i := item]);
  }

  /** What abort does to an item. */
  function AbortedItem(item: Item): Item {
    if item.phase == Pending || item.phase == Running then item.(phase := ItemPhase.Failed) else item
  }

  lemma AbortKeepsItem(k: Context, t: string, bases: map<string, nat>, item: Item, side: Side)
    requires ItemSound(k, t, bases, item, side)
    ensures ItemSound(k, t, bases, AbortedItem(item), side)
  {
  }

  /** The item no longer needs the app stopped. */
  predicate MayResume(k: Context, t: string, item: Item, side: Side) {
    if item.Database? then item.phase != Pending && item.phase != Running
    else
      && item.phase != Pending
      && (Quiet(k.past) && item.phase == Running ==> CutDone(side, t))
  }

  /** The test of clonesCut on one Running volume. */
  predicate LooksCut(side: Side, t: string, pausedAt: nat) {
    && side.Claim? && side.source.Some?
    && var s := side.source.value;
       s.last == t || (s.clone.Some? && s.clone.value.cut.Some? && Truncate(s.clone.value.start) >= pausedAt)
  }

  /** On a quiet run the test of clonesCut is right. */
  lemma LooksCutIsCut(k: Context, t: string, item: Item, side: Side, pausedAt: nat)
    requires item.Volume? && item.phase == Running && VolumeSound(k, t, item, side) && k.pausedAt == Some(pausedAt) && LooksCut(side, t, pausedAt)
    ensures Quiet(k.past) ==> CutDone(side, t)
  {
  }

  lemma ResumeKeepsItem(k: Context, t: string, bases: map<string, nat>, item: Item, side: Side, at: nat)
    requires ItemSound(k, t, bases, item, side) && k.pauses && k.resumedAt.None?
    requires k.past.finalizing || MayResume(k, t, item, side)
    ensures ItemSound(k.(resumedAt := Some(at)), t, bases, item, side)
  {
    var k' := k.(resumedAt := Some(at));
    if item.Volume? {
      forall id | id in side.store ensures SnapshotSound(k', t, side.store[id]) { assert SnapshotSound(k, t, side.store[id]); }
    }
  }

  /** The resume moment is recorded once every item allows it. */
  lemma ResumeKeepsInv(w: World, t: string, at: nat)
    requires Inv(w, t) && w.stored.pausedAt.Some? && w.stored.resumedAt.None?
    requires w.past.finalizing || forall i :: 0 <= i < |w.sides| ==> MayResume(ContextOf(w), t, w.stored.items[i], w.sides[i])
    ensures Inv(With(w, w.stored.(resumedAt := Some(at))), t)
  {
    var w' := With(w, w.stored.(resumedAt := Some(at)));
    assert w.stored.paused != [];
    assert w.stored.paused[0].name in w.field.apps;
    assert BackInv(w.field, w'.stored);
    forall i | 0 <= i < |w.sides| ensures ItemSound(ContextOf(w'), t, w.bases, w.stored.items[i], w.sides[i]) {
      ResumeKeepsItem(ContextOf(w), t, w.bases, w.stored.items[i], w.sides[i], at);
    }
  }

  function Marked(paused: seq<PausedWorkload>): (r: seq<PausedWorkload>)
    ensures |r| == |paused| && forall i :: 0 <= i < |r| ==> r[i] == paused[i].(resumed := true)
  {
    seq(|paused|, i requires 0 <= i < |paused| => paused[i].(resumed := true))
  }

  lemma MarksKeepInv(w: World, t: string)
    requires Inv(w, t) && AllBack(w.field) && w.stored.resumedAt.Some?
    ensures Inv(With(w, w.stored.(paused := Marked(w.stored.paused))), t)
  {
    var w' := With(w, w.stored.(paused := Marked(w.stored.paused)));
    forall x | x in w.field.apps && w'.stored.pausedAt.Some? ensures IsPaused(w'.stored, x) {
      assert IsPaused(w.stored, x);
      var i :| 0 <= i < |w.stored.paused| && w.stored.paused[i].name == x;
      assert w'.stored.paused[i].name == x;
    }
    forall i | 0 <= i < |w'.stored.paused| ensures w'.stored.paused[i].name in w.field.apps && w'.stored.paused[i].replicas == w.field.apps[w'.stored.paused[i].name].owner {
      assert w.stored.paused[i].name in w.field.apps;
    }
    assert BackInv(w.field, w'.stored);
    assert ContextOf(w') == ContextOf(w);
  }

  lemma FinishKeepsInv(w: World, t: string, e: Ending)
    requires Inv(w, t) && AllBack(w.field) && EndsRight(w.stored.items, e) && (e == Aborted ==> w.past.aborted)
    ensures Inv(With(w, w.stored.(outcome := Some(e))), t)
  {
    var w' := With(w, w.stored.(outcome := Some(e)));
    assert BackInv(w.field, w'.stored);
    assert ContextOf(w') == ContextOf(w);
  }

  // ------------------------------------------------------------- the pause

  /** What the pause records: every workload with its count, and the
      Kustomizations to suspend. */
  ghost predicate Plans(f: Field, paused: seq<PausedWorkload>, suspend: seq<string>) {
    && (forall i :: 0 <= i < |paused| ==> paused[i].name in f.apps && paused[i].replicas == f.apps[paused[i].name].replicas && !paused[i].resumed)
    && (forall x :: x in f.apps ==> exists i :: 0 <= i < |paused| && paused[i].name == x)
    && (forall key :: key in suspend ==> key in f.suspends && !f.suspends[key])
    && (forall x :: x in f.apps && f.apps[x].flux.Some? && f.apps[x].flux.value in f.suspends ==>
                      f.apps[x].flux.value in suspend || f.suspends[f.apps[x].flux.value])
    && (paused == [] ==> suspend == [])
  }

  /** Everything VolSync did before is older than the pause. */
  predicate Older(side: Side, at: nat) {
    side.Claim? ==>
      && (side.source.Some? && side.source.value.clone.Some? ==> Truncate(side.source.value.clone.value.start) < at)
      && (forall id :: id in side.store ==> side.store[id].time + 2 * SECOND <= at)
  }

  predicate Idle(side: Side, t: string) {
    side.Claim? && side.source.Some? ==> !Busy(side.source.value) || side.source.value.manual == t
  }

  function PausedStatus(st: Status, paused: seq<PausedWorkload>, suspend: seq<string>, at: nat): Status {
    st.(paused := paused, suspended := suspend, pausedAt := Some(at), resumedAt := if paused == [] then Some(at) else None)
  }

  lemma PlanKeepsBackInv(f: Field, st: Status, paused: seq<PausedWorkload>, suspend: seq<string>, at: nat)
    requires BackInv(f, st) && st.pausedAt.None? && Plans(f, paused, suspend)
    ensures BackInv(f, PausedStatus(st, paused, suspend, at))
  {
    var st' := PausedStatus(st, paused, suspend, at);
    forall x | x in f.apps ensures IsPaused(st', x) {
      var i :| 0 <= i < |paused| && paused[i].name == x;
      assert st'.paused[i].name == x;
    }
  }

  lemma PauseKeepsItem(k: Context, t: string, bases: map<string, nat>, item: Item, side: Side, at: nat)
    requires ItemSound(k, t, bases, item, side) && k.pausedAt.None? && k.resumedAt.None? && k.past.cut.None? && t != ""
    requires Quiet(k.past) ==> k.pauses && Older(side, at) && Idle(side, t)
    ensures ItemSound(k.(pausedAt := Some(at), resumedAt := if k.pauses then None else Some(at)), t, bases, item, side)
  {
    var k' := k.(pausedAt := Some(at), resumedAt := if k.pauses then None else Some(at));
    if item.Volume? {
      forall id | id in side.store ensures SnapshotSound(k', t, side.store[id]) { assert SnapshotSound(k, t, side.store[id]); }
    }
  }

  lemma PauseKeepsInv(w: World, t: string, paused: seq<PausedWorkload>, suspend: seq<string>, at: nat)
    requires Inv(w, t) && w.stored.pausedAt.None? && Plans(w.field, paused, suspend) && at <= w.now
    requires Quiet(w.past) ==> forall i :: 0 <= i < |w.sides| ==> Older(w.sides[i], at) && Idle(w.sides[i], t)
    ensures Inv(With(w, PausedStatus(w.stored, paused, suspend, at)), t)
  {
    var w' := With(w, PausedStatus(w.stored, paused, suspend, at));
    PlanKeepsBackInv(w.field, w.stored, paused, suspend, at);
    if paused != [] { assert paused[0].name in w.field.apps; }
    assert paused == [] <==> w.field.apps == map[];
    forall i | 0 <= i < |w.sides| ensures ItemSound(ContextOf(w'), t, w.bases, w.stored.items[i], w.sides[i]) {
      PauseKeepsItem(ContextOf(w), t, w.bases, w.stored.items[i], w.sides[i], at);
    }
  }
}

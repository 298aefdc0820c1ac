/**
 What the passes of a BackupRun guarantee, stated without their invariant.
 */
module BackupGuarantees {
  import opened Common
  import opened Restic
  import opened Retime
  import opened BackupWorld
  import opened BackupEffects
  import opened BackupRuns
  import Leases

  /** A planned run: nothing is changed yet, every item is Pending, and nothing
      carries its trigger. */
  ghost predicate Init(w: World, t: string) {
    && t != "" && AllBack(w.field) && w.field.suspends.Keys == w.field.owned.Keys
    && !w.past.finalizing && !w.past.ticked && w.past.cut.None? && !w.past.aborted
    && w.stored == Status(None, None, None, [], [], w.stored.items)
    && |w.sides| == |w.stored.items|
    && forall i :: 0 <= i < |w.sides| ==> InitItem(w.stored.items[i], w.sides[i], t)
  }

  function TaggedIn(store: Store): set<string> { set id | id in store && PAUSED in store[id].tags }

  ghost predicate InitItem(item: Item, side: Side, t: string) {
    if item.Volume? then item.phase == Pending && item.snapshotID == "" && side.Claim? && Named(side.store) && Fresh(side, t) && side.before == TaggedIn(side.store)
    else item.phase == Pending && !item.whilePaused && side.Cluster? && side.dump == NoDump && (side.hibernated ==> side.slept)
  }

  lemma InitItemIsSound(k: Context, t: string, bases: map<string, nat>, item: Item, side: Side, now: nat)
    requires InitItem(item, side, t) && k.past.cut.None? && k.pausedAt.None? && k.resumedAt.None?
    ensures ItemSound(k, t, bases, item, side) && InPast(side, t, now)
  {
  }

  lemma InitIsSound(w: World, t: string)
    requires Init(w, t)
    ensures Inv(w, t)
  {
    hide ItemSound, InPast, InitItem, TagsOf, DatabasesSettled;
    forall i | 0 <= i < |w.sides| ensures ItemSound(ContextOf(w), t, w.bases, w.stored.items[i], w.sides[i]) && InPast(w.sides[i], t, w.now) {
      InitItemIsSound(ContextOf(w), t, w.bases, w.stored.items[i], w.sides[i], w.now);
    }
  }

  /** A snapshot that the run moved: its own sync wrote it, and it is tagged. */
  predicate MovedBy(w: World, t: string, i: nat, id: string) {
    && i < |w.sides| && w.sides[i].Claim? && id in w.sides[i].store
    && w.sides[i].store[id].body.writer == t && PAUSED in w.sides[i].store[id].tags
  }

  function At(w: World, t: string, i: nat, id: string): Snapshot
    requires MovedBy(w, t, i, id)
  {
    w.sides[i].store[id]
  }

  /** A snapshot that the run tagged: it was not tagged before the run. */
  predicate TaggedBy(w: World, t: string, i: nat, id: string) {
    && i < |w.sides| && w.sides[i].Claim? && id in w.sides[i].store && PAUSED in w.sides[i].store[id].tags
    && (id !in w.sides[i].before || w.sides[i].store[id].body.writer == t)
  }

  /** Every snapshot the run tagged is one that its own sync wrote, and it and
      every base backup its tags name holds what the app had written when it was
      stopped. */
  ghost predicate OneCut(w: World, t: string) {
    forall i, id :: TaggedBy(w, t, i, id) ==>
      && MovedBy(w, t, i, id)
      && w.past.cut == Some(At(w, t, i, id).body.tree)
      && forall c, b :: '=' !in c && PausedBaseBackup(At(w, t, i, id).tags, c) == Some(b) ==> b in w.bases && w.bases[b] == w.past.cut.value
  }

  /** Every snapshot the run tagged is one that its own sync wrote. */
  ghost predicate OwnTags(w: World, t: string) { forall i, id :: TaggedBy(w, t, i, id) ==> MovedBy(w, t, i, id) }

  /** All snapshots the run moved carry one time, the resume moment, and one list
      of tags, that of the run's databases. */
  ghost predicate OneMoment(w: World, t: string) {
    forall i, id :: MovedBy(w, t, i, id) ==> w.stored.resumedAt == Some(At(w, t, i, id).time) && At(w, t, i, id).tags == MovedTags(w.stored.items)
  }

  /** A moved snapshot comes with a base backup of every database of the run, or
      says that the database was hibernated. A Backup that completed without an
      ID is the one gap. */
  ghost predicate NamesEveryDatabase(w: World, t: string) {
    forall i, id, j :: MovedBy(w, t, i, id) && 0 <= j < |w.stored.items| && w.stored.items[j].Database? ==> Accounts(At(w, t, i, id).tags, w.stored.items[j])
  }

  predicate Accounts(tags: seq<string>, item: Item)
    requires item.Database?
  {
    || (item.phase == Skipped && HibernatedTag(item.name) in tags)
    || (item.phase == Succeeded && (item.baseBackup == "" || BaseBackupTag(item.name, item.baseBackup) in tags))
  }

  /** Once a run that paused workloads has its resume moment, its databases are
      done. */
  ghost predicate DatabasesAreFinal(w: World) {
    w.field.apps != map[] && w.stored.resumedAt.Some? && !w.past.finalizing ==>
      forall j :: 0 <= j < |w.stored.items| && w.stored.items[j].Database? ==> Rank(w.stored.items[j].phase) == 0
  }

  /** What the run reports is so. A volume that succeeded names a snapshot in the
      repository, the tagged one on a run that paused workloads and backed up
      every database, or its sync saved none; a database that succeeded has a
      completed Backup with that ID; and one that was skipped was hibernated. */
  predicate ReportIsTrue(w: World, t: string, i: nat)
    requires i < |w.stored.items| && i < |w.sides|
  {
    var item, side := w.stored.items[i], w.sides[i];
    match item
    case Volume(_, phase, id) =>
      phase == Succeeded ==>
        && side.Claim? && side.source.Some?
        && (id == "" ==> forall s :: s in side.store ==> side.store[s].body.writer != t)
        && (id != "" ==> id in side.store)
        && (id != "" ==> if w.field.apps != map[] && DatabasesSettled(w.stored.items) then PAUSED in side.store[id].tags else InSync(side.source.value, side.store[id]))
    case Database(_, phase, id, _) =>
      side.Cluster? && (phase == Succeeded ==> side.dump == Completed(id)) && (phase == Skipped ==> side.slept)
  }

  ghost predicate ReportsAreTrue(w: World, t: string) {
    |w.sides| == |w.stored.items| && forall i :: 0 <= i < |w.stored.items| ==> ReportIsTrue(w, t, i)
  }

  /** A finished run gave everything back and all its items are done. Unless abort
      ended it, it ended Succeeded exactly when none failed. */
  predicate GivenBack(w: World) {
    Finished(w.stored) ==>
      && AllBack(w.field) && AllDone(w.stored.items)
      && (w.stored.outcome.value == Aborted ==> w.past.aborted)
      && (w.stored.outcome.value != Aborted ==> (w.stored.outcome.value == AllSucceeded <==> NoneFailed(w.stored.items)))
  }

  ghost predicate Guarantees(w: World, t: string) {
    GivenBack(w) && OneMoment(w, t) && NamesEveryDatabase(w, t) && DatabasesAreFinal(w) && ReportsAreTrue(w, t)
    && (Quiet(w.past) && PlainNames(w.stored.items) ==> OneCut(w, t))
  }

  /** Names of Clusters hold no "=": Kubernetes allows none. */
  predicate PlainNames(items: seq<Item>) { forall i :: 0 <= i < |items| ==> '=' !in items[i].name }

  lemma MovedIsSound(w: World, t: string, i: nat, id: string)
    requires Inv(w, t) && MovedBy(w, t, i, id)
    ensures SnapshotSound(ContextOf(w), t, At(w, t, i, id))
  {
    ItemAt(w, t, i);
  }

  /** A tag of TagsOf is the tag of one of the databases. */
  lemma {:induction false} TagHasItem(items: seq<Item>, tag: string) returns (i: nat)
    requires tag in TagsOf(items)
    ensures i < |items| && tag in TagOf(items[i])
  {
    if tag in TagOf(items[|items| - 1]) {
      i := |items| - 1;
    } else {
      i := TagHasItem(items[..|items| - 1], tag);
    }
  }

  lemma {:induction false} NamesATag(tags: seq<string>, c: string)
    ensures PausedBaseBackup(tags, c).Some? ==>
              exists k :: 0 <= k < |tags| && BASE_BACKUP + c + "=" < tags[k] && PausedBaseBackup(tags, c).value == tags[k][|BASE_BACKUP + c + "="|..]
  {
    if tags != [] && !(BASE_BACKUP + c + "=" < tags[0]) {
      NamesATag(tags[1..], c);
      if PausedBaseBackup(tags, c).Some? {
        var k :| 0 <= k < |tags| - 1 && BASE_BACKUP + c + "=" < tags[1..][k] && PausedBaseBackup(tags, c).value == tags[1..][k][|BASE_BACKUP + c + "="|..];
        assert tags[k + 1] == tags[1..][k];
      }
    }
  }

  /** The base backup a moved snapshot names is one the run took while the app
      was stopped. */
  lemma NamedBackupIsRecorded(items: seq<Item>, c: string, b: string) returns (i: nat)
    requires PlainNames(items) && '=' !in c && PausedBaseBackup(MovedTags(items), c) == Some(b)
    ensures i < |items| && items[i].Database? && items[i].name == c && items[i].baseBackup == b && items[i].whilePaused
  {
    var tags := MovedTags(items);
    NamesATag(tags, c);
    var k :| 0 <= k < |tags| && BASE_BACKUP + c + "=" < tags[k] && b == tags[k][|BASE_BACKUP + c + "="|..];
    AddTagsMeans([], [PAUSED] + TagsOf(items));
    HibernatedIsNoBackup(c, c);
    assert tags[k] in [PAUSED] + TagsOf(items) && tags[k] != PAUSED;
    i := TagHasItem(items, tags[k]);
    HibernatedIsNoBackup(items[i].name, c);
    assert tags[k] == BaseBackupTag(items[i].name, items[i].baseBackup);
    NamesItsBackup(items[i].name, c, items[i].baseBackup, b);
  }

  /** A hibernated tag on a moved snapshot is that of a database the run skipped. */
  lemma HibernatedIsRecorded(items: seq<Item>, c: string) returns (i: nat)
    requires HibernatedTag(c) in MovedTags(items)
    ensures i < |items| && items[i].Database? && items[i].name == c && items[i].phase == Skipped
  {
    AddTagsMeans([], [PAUSED] + TagsOf(items));
    var tag := HibernatedTag(c);
    assert tag[0] == 'h' && PAUSED[0] == 'p';
    i := TagHasItem(items, tag);
    assert BaseBackupTag(items[i].name, if items[i].Database? then items[i].baseBackup else "")[0] == 'b';
    var n := |"hibernated/"|;
    assert HibernatedTag(items[i].name) == tag;
    assert items[i].name == HibernatedTag(items[i].name)[n..] && c == tag[n..];
  }

  lemma NamesItsBackup(name: string, c: string, backup: string, b: string)
    requires '=' !in name && '=' !in c
    requires BASE_BACKUP + c + "=" < BaseBackupTag(name, backup) && b == BaseBackupTag(name, backup)[|BASE_BACKUP + c + "="|..]
    ensures name == c && backup == b
  {
    if backup == "" {
      var tag := BaseBackupTag(name, backup);
      assert tag == BASE_BACKUP + name + "=";
      EndsOnce(name, c);
    } else {
      TagReadsBack(name, c, backup);
    }
  }

  /** The bare prefix of one Cluster goes no further than that of another. */
  lemma EndsOnce(name: string, c: string)
    requires '=' !in name
    ensures !(BASE_BACKUP + c + "=" < BASE_BACKUP + name + "=")
  {
    var p, q := BASE_BACKUP + c + "=", BASE_BACKUP + name + "=";
    assert p[|p| - 1] == '=';
    assert forall k :: |BASE_BACKUP| <= k < |q| - 1 ==> q[k] == name[k - |BASE_BACKUP|];
  }

  /** On a quiet run a tagged snapshot is the run's own, at the cut. */
  lemma TaggedIsAtCut(w: World, t: string, i: nat, id: string)
    requires Inv(w, t) && Quiet(w.past) && TaggedBy(w, t, i, id)
    ensures MovedBy(w, t, i, id) && w.past.cut == Some(At(w, t, i, id).body.tree) && At(w, t, i, id).tags == MovedTags(w.stored.items)
  {
    PauseFacts(w, t);
    hide Inv, TagsOf;
    ItemAt(w, t, i);
    MovedIsSound(w, t, i, id);
  }

  /** The base backup that the run's tags name for a Cluster holds the cut. */
  lemma NamedIsAtCut(w: World, t: string, c: string, b: string)
    requires Inv(w, t) && PlainNames(w.stored.items) && '=' !in c && PausedBaseBackup(MovedTags(w.stored.items), c) == Some(b)
    ensures w.past.cut.Some? && b in w.bases && w.bases[b] == w.past.cut.value
  {
    hide Inv, PausedBaseBackup, TagsOf;
    var k := NamedBackupIsRecorded(w.stored.items, c, b);
    ItemAt(w, t, k);
  }

  lemma InvHasOneCut(w: World, t: string)
    requires Inv(w, t) && Quiet(w.past) && PlainNames(w.stored.items)
    ensures OneCut(w, t)
  {
    hide Inv, PausedBaseBackup, MovedTags;
    forall i, id | TaggedBy(w, t, i, id)
      ensures MovedBy(w, t, i, id) && w.past.cut == Some(At(w, t, i, id).body.tree)
      ensures forall c, b :: '=' !in c && PausedBaseBackup(At(w, t, i, id).tags, c) == Some(b) ==> b in w.bases && w.bases[b] == w.past.cut.value
    {
      TaggedIsAtCut(w, t, i, id);
      forall c, b | '=' !in c && PausedBaseBackup(At(w, t, i, id).tags, c) == Some(b) ensures b in w.bases && w.bases[b] == w.past.cut.value {
        NamedIsAtCut(w, t, c, b);
      }
    }
  }

  lemma InvHasOneMoment(w: World, t: string)
    requires Inv(w, t)
    ensures OneMoment(w, t)
  {
    hide Inv, TagsOf;
    forall i, id | MovedBy(w, t, i, id)
      ensures w.stored.resumedAt == Some(At(w, t, i, id).time) && At(w, t, i, id).tags == MovedTags(w.stored.items)
    {
      MovedIsSound(w, t, i, id);
    }
  }

  lemma {:induction false} ItemHasTag(items: seq<Item>, j: nat)
    requires j < |items|
    ensures forall tag :: tag in TagOf(items[j]) ==> tag in TagsOf(items)
  {
    if j < |items| - 1 { ItemHasTag(items[..|items| - 1], j); }
  }

  lemma InvNamesEveryDatabase(w: World, t: string)
    requires Inv(w, t)
    ensures NamesEveryDatabase(w, t)
  {
    hide Inv;
    forall i, id, j | MovedBy(w, t, i, id) && 0 <= j < |w.stored.items| && w.stored.items[j].Database?
      ensures Accounts(At(w, t, i, id).tags, w.stored.items[j])
    {
      MovedIsSound(w, t, i, id);
      ItemAt(w, t, j);
      ItemHasTag(w.stored.items, j);
      AddTagsMeans([], [PAUSED] + TagsOf(w.stored.items));
    }
  }

  lemma InvHasFinalDatabases(w: World, t: string)
    requires Inv(w, t)
    ensures DatabasesAreFinal(w)
  {
    forall j | 0 <= j < |w.stored.items| ensures ItemSound(ContextOf(w), t, w.bases, w.stored.items[j], w.sides[j]) { ItemAt(w, t, j); }
  }

  /** What a finished volume reports: a volume reported empty is one whose sync
      saved nothing at all. */
  lemma VolumeReports(k: Context, t: string, item: Item, side: Side)
    requires item.Volume? && VolumeSound(k, t, item, side) && item.phase == Succeeded
    ensures side.Claim? && side.source.Some?
    ensures item.snapshotID == "" ==> forall id :: id in side.store ==> side.store[id].body.writer != t
    ensures item.snapshotID != "" ==> item.snapshotID in side.store && Reported(k, side, side.store[item.snapshotID])
  {
    forall id | id in side.store ensures InWindow(side, t, side.store[id]) { }
  }

  lemma InvReportsTrue(w: World, t: string)
    requires Inv(w, t)
    ensures ReportsAreTrue(w, t)
  {
    PauseFacts(w, t);
    hide Inv, TagsOf, VolumeSound;
    forall i | 0 <= i < |w.stored.items| ensures ReportIsTrue(w, t, i) {
      ItemAt(w, t, i);
      if w.stored.items[i].Volume? && w.stored.items[i].phase == Succeeded { VolumeReports(ContextOf(w), t, w.stored.items[i], w.sides[i]); }
    }
  }

  lemma InvGuarantees(w: World, t: string)
    requires Inv(w, t)
    ensures Guarantees(w, t)
  {
    hide CutInv, OneCut, OneMoment, NamesEveryDatabase, DatabasesAreFinal, ReportsAreTrue;
    InvNamesEveryDatabase(w, t);
    InvHasFinalDatabases(w, t);
    InvReportsTrue(w, t);
    InvHasOneMoment(w, t);
    if Quiet(w.past) && PlainNames(w.stored.items) { InvHasOneCut(w, t); }
  }

  /** The whole life of a run, with any number of passes and stops: at every call
      of every pass the guarantees hold, and no Lease names a finished run. */
  method Lifetime(t: string, w: World, leases: Leases.Client, passes: nat) returns (end: World, ghost trace: seq<Moment>)
    requires Init(w, t) && Leases.Sound(leases)
    modifies leases
    ensures Guarantees(end, t) && Onward(w.stored, end.stored) && FixedParts(end.sides) == FixedParts(w.sides)
    ensures Finished(end.stored) ==> !Leases.HasLease(leases)
    ensures forall i :: 0 <= i < |trace| ==>
              Guarantees(trace[i].w, t) && FixedParts(trace[i].w.sides) == FixedParts(w.sides) && (Finished(trace[i].w.stored) ==> !trace[i].named)
  {
    hide Inv, Onward, Guarantees, Leases.Sound, Leases.HasLease;
    InitIsSound(w, t);
    var r := new BackupRunReconciler(t, w, leases);
    r.Passes(passes);
    end, trace := r.w, r.trace;
    InvGuarantees(end, t);
    forall i | 0 <= i < |trace| ensures Guarantees(trace[i].w, t) { InvGuarantees(trace[i].w, t); }
  }

  // ------------------------------------------- items descend to their end

  function TotalRank(items: seq<Item>): nat {
    if items == [] then 0 else TotalRank(items[..|items| - 1]) + Rank(items[|items| - 1].phase)
  }

  lemma {:induction false} RanksDescend(a: seq<Item>, b: seq<Item>)
    requires |a| == |b| && forall i :: 0 <= i < |a| ==> ItemOnward(a[i], b[i])
    ensures TotalRank(b) <= TotalRank(a)
    ensures TotalRank(b) == TotalRank(a) ==> forall i :: 0 <= i < |a| ==> a[i].phase == b[i].phase
  {
    if a != [] {
      var n := |a| - 1;
      assert ItemOnward(a[n], b[n]);
      RanksDescend(a[..n], b[..n]);
      assert forall i :: 0 <= i < n ==> a[i] == a[..n][i] && b[i] == b[..n][i];
    }
  }

  /** Whatever a pass stores, the phases descend a well-founded order, and at its
      bottom the items stay as they are. */
  lemma PhasesDescend(a: Status, b: Status)
    requires Onward(a, b)
    ensures TotalRank(b.items) <= TotalRank(a.items)
    ensures TotalRank(b.items) == TotalRank(a.items) ==> forall i :: 0 <= i < |a.items| ==> a.items[i].phase == b.items[i].phase
    ensures AllDone(a.items) ==> b.items == a.items
  {
    RanksDescend(a.items, b.items);
    assert AllDone(a.items) ==> forall i :: 0 <= i < |a.items| ==> ItemOnward(a.items[i], b.items[i]) && Rank(a.items[i].phase) == 0;
  }
}

/**
 What a RestoreRun restores: selectSnapshot, selectBaseBackup and selectBackups.

 What a read answers is part of the input: `None` is a read that failed and that
 a later pass repeats, `Missing` is something that is not there.
 */
module Selection {
  import opened Common
  import opened Restic

  // ----------------------------------------------------------- one snapshot

  predicate InReach(s: Snapshot, at: Option<nat>, paused: bool) {
    (paused ==> PAUSED in s.tags) && (at.Some? ==> s.time <= at.value)
  }

  /** How many snapshots in reach are from `from` or later. */
  function Count(snapshots: seq<Snapshot>, at: Option<nat>, paused: bool, from: nat): nat {
    if snapshots == [] then 0
    else
      var s := snapshots[|snapshots| - 1];
      Count(snapshots[..|snapshots| - 1], at, paused, from) + if InReach(s, at, paused) && s.time >= from then 1 else 0
  }

  /** The snapshot is the (previous + 1)-th newest in reach: at most `previous`
      are newer, and more than that are as new. */
  predicate IsPrevious(snapshots: seq<Snapshot>, at: Option<nat>, paused: bool, previous: nat, s: Snapshot) {
    && s in snapshots && InReach(s, at, paused)
    && Count(snapshots, at, paused, s.time + 1) <= previous < Count(snapshots, at, paused, s.time)
  }

  /** The snapshots a synced restore may use. */
  function Kept(snapshots: seq<Snapshot>, paused: bool): seq<Snapshot> {
    if snapshots == [] then []
    else Kept(snapshots[..|snapshots| - 1], paused) +
         if paused && PAUSED !in snapshots[|snapshots| - 1].tags then [] else [snapshots[|snapshots| - 1]]
  }

  /** The stable sort by time, one element at a time. */
  function SortedInsert(sorted: seq<Snapshot>, s: Snapshot): seq<Snapshot> {
    if sorted == [] || sorted[|sorted| - 1].time <= s.time then sorted + [s]
    else SortedInsert(sorted[..|sorted| - 1], s) + [sorted[|sorted| - 1]]
  }

  function SortByTime(snapshots: seq<Snapshot>): seq<Snapshot> {
    if snapshots == [] then [] else SortedInsert(SortByTime(snapshots[..|snapshots| - 1]), snapshots[|snapshots| - 1])
  }

  predicate Ascending(s: seq<Snapshot>) { forall i, j :: 0 <= i < j < |s| ==> s[i].time <= s[j].time }

  lemma CountAppend(front: seq<Snapshot>, s: Snapshot, at: Option<nat>, paused: bool, from: nat)
    ensures Count(front + [s], at, paused, from) == Count(front, at, paused, from) + if InReach(s, at, paused) && s.time >= from then 1 else 0
  {
    assert (front + [s])[..|front|] == front;
  }

  lemma {:induction false} InsertSorts(sorted: seq<Snapshot>, s: Snapshot)
    requires Ascending(sorted)
    ensures Ascending(SortedInsert(sorted, s)) && |SortedInsert(sorted, s)| == |sorted| + 1
    ensures forall x :: x in SortedInsert(sorted, s) <==> x == s || x in sorted
  {
    if sorted != [] {
      var front, last := sorted[..|sorted| - 1], sorted[|sorted| - 1];
      assert sorted == front + [last];
      InsertSorts(front, s);
      if last.time > s.time {
        assert forall x :: x in SortedInsert(front, s) ==> x.time <= last.time;
      }
    }
  }

  lemma {:induction false} InsertCounts(sorted: seq<Snapshot>, s: Snapshot, at: Option<nat>, paused: bool, from: nat)
    ensures Count(SortedInsert(sorted, s), at, paused, from) == Count(sorted, at, paused, from) + if InReach(s, at, paused) && s.time >= from then 1 else 0
  {
    if sorted == [] || sorted[|sorted| - 1].time <= s.time {
      CountAppend(sorted, s, at, paused, from);
    } else {
      var front, last := sorted[..|sorted| - 1], sorted[|sorted| - 1];
      InsertCounts(front, s, at, paused, from);
      CountAppend(SortedInsert(front, s), last, at, paused, from);
    }
  }

  /** Sorting loses nothing and invents nothing. */
  lemma {:induction false} SortByTimeSorts(snapshots: seq<Snapshot>)
    ensures Ascending(SortByTime(snapshots)) && |SortByTime(snapshots)| == |snapshots|
    ensures forall x :: x in SortByTime(snapshots) <==> x in snapshots
  {
    if snapshots != [] {
      var front, last := snapshots[..|snapshots| - 1], snapshots[|snapshots| - 1];
      SortByTimeSorts(front);
      InsertSorts(SortByTime(front), last);
      assert snapshots == front + [last];
    }
  }

  lemma {:induction false} SortByTimeCounts(snapshots: seq<Snapshot>, at: Option<nat>, paused: bool, from: nat)
    ensures Count(SortByTime(snapshots), at, paused, from) == Count(snapshots, at, paused, from)
  {
    if snapshots != [] {
      var front, last := snapshots[..|snapshots| - 1], snapshots[|snapshots| - 1];
      SortByTimeCounts(front, at, paused, from);
      InsertCounts(SortByTime(front), last, at, paused, from);
    }
  }

  lemma {:induction false} KeptCounts(snapshots: seq<Snapshot>, at: Option<nat>, paused: bool, from: nat)
    ensures Count(Kept(snapshots, paused), at, false, from) == Count(snapshots, at, paused, from)
  {
    if snapshots != [] {
      var front, last := snapshots[..|snapshots| - 1], snapshots[|snapshots| - 1];
      KeptCounts(front, at, paused, from);
      if !(paused && PAUSED !in last.tags) { CountAppend(Kept(front, paused), last, at, false, from); }
      else { assert Kept(snapshots, paused) == Kept(front, paused); }
    }
  }

  lemma {:induction false} KeptHolds(snapshots: seq<Snapshot>, paused: bool)
    ensures forall x :: x in Kept(snapshots, paused) <==> x in snapshots && (paused ==> PAUSED in x.tags)
  {
    if snapshots != [] {
      var front, last := snapshots[..|snapshots| - 1], snapshots[|snapshots| - 1];
      KeptHolds(front, paused);
      assert snapshots == front + [last];
    }
  }

  /** In a sorted list the ones in reach come first. */
  predicate ReachesTo(sorted: seq<Snapshot>, at: Option<nat>, n: nat) {
    n <= |sorted| && forall i :: 0 <= i < |sorted| ==> (InReach(sorted[i], at, false) <==> i < n)
  }

  lemma {:induction false} CountBelow(sorted: seq<Snapshot>, at: Option<nat>, n: nat, from: nat)
    requires forall i :: 0 <= i < |sorted| ==> !(InReach(sorted[i], at, false) && sorted[i].time >= from)
    ensures Count(sorted, at, false, from) == 0
  {
    if sorted != [] { CountBelow(sorted[..|sorted| - 1], at, n, from); }
  }

  /** The k-th of the n in reach has n - 1 - k at most above it, and n - k at
      least as new. */
  lemma {:induction false} CountSorted(sorted: seq<Snapshot>, at: Option<nat>, n: nat, k: nat)
    requires Ascending(sorted) && ReachesTo(sorted, at, n) && k < n
    ensures Count(sorted, at, false, sorted[k].time) >= n - k && Count(sorted, at, false, sorted[k].time + 1) <= n - 1 - k
    decreases |sorted|
  {
    var m := |sorted| - 1;
    var front := sorted[..m];
    if n <= m {
      CountSorted(front, at, n, k);
    } else if k < m {
      CountSorted(front, at, m, k);
    } else {
      CountBelow(front, at, m, sorted[k].time + 1);
    }
  }

  lemma {:induction false} CountAll(sorted: seq<Snapshot>, at: Option<nat>, n: nat)
    requires ReachesTo(sorted, at, n)
    ensures Count(sorted, at, false, 0) == n
  {
    if sorted != [] {
      var m := |sorted| - 1;
      CountAll(sorted[..m], at, if n <= m then n else m);
    }
  }

  /** selectSnapshot, once the repository is listed. */
  method SelectSnapshot(snapshots: seq<Snapshot>, at: Option<nat>, previous: Option<nat>, paused: bool) returns (chosen: Option<Snapshot>)
    ensures var p := if previous.Some? then previous.value else 0;
            && (chosen.None? <==> Count(snapshots, at, paused, 0) <= p)
            && (chosen.Some? ==> IsPrevious(snapshots, at, paused, p, chosen.value))
  {
    hide Count, Kept, SortByTime;
    var kept := Kept(snapshots, paused);
    var sorted := SortByTime(kept);
    SortByTimeSorts(kept);
    KeptHolds(snapshots, paused);
    KeptCounts(snapshots, at, paused, 0);
    SortByTimeCounts(kept, at, false, 0);
    var index := |sorted| - 1;
    if at.Some? {
      index := LastInReach(sorted, at);
    }
    CountAll(sorted, at, index + 1);
    if index < 0 {
      return None;
    }
    if previous.Some? {
      index := index - previous.value;
      if index < 0 {
        return None;
      }
    }
    var s := sorted[index];
    var n := Count(sorted, at, false, 0);
    CountSorted(sorted, at, n, index);
    SortByTimeCounts(kept, at, false, s.time);
    KeptCounts(snapshots, at, paused, s.time);
    SortByTimeCounts(kept, at, false, s.time + 1);
    KeptCounts(snapshots, at, paused, s.time + 1);
    chosen := Some(s);
  }

  /** The loop that finds the newest snapshot at or before the moment. */
  method LastInReach(sorted: seq<Snapshot>, at: Option<nat>) returns (index: int)
    requires Ascending(sorted) && at.Some?
    ensures -1 <= index < |sorted| && ReachesTo(sorted, at, index + 1)
  {
    index := -1;
    for i := 0 to |sorted|
      invariant -1 <= index < i
      invariant forall j :: 0 <= j < i ==> (sorted[j].time <= at.value <==> j <= index)
    {
      if sorted[i].time <= at.value {
        index := i;
      }
    }
  }

  // --------------------------------------------------------- one base backup

  datatype BaseBackup = BaseBackup(id: string, end: nat)

  /** bootstrap.AtOrBefore: the newest base backup that ended by a time; of
      several, the first one listed. */
  function NewestBy(backups: seq<BaseBackup>, t: nat): Option<BaseBackup> {
    if backups == [] then None
    else
      var front, b := NewestBy(backups[..|backups| - 1], t), backups[|backups| - 1];
      if b.end > t || (front.Some? && b.end <= front.value.end) then front else Some(b)
  }

  lemma {:induction false} NewestByMeans(backups: seq<BaseBackup>, t: nat)
    ensures NewestBy(backups, t).None? <==> forall b :: b in backups ==> b.end > t
    ensures NewestBy(backups, t).Some? ==>
              var best := NewestBy(backups, t).value;
              best in backups && best.end <= t && forall b :: b in backups && b.end <= t ==> b.end <= best.end
  {
    if backups != [] {
      var front, last := backups[..|backups| - 1], backups[|backups| - 1];
      NewestByMeans(front, t);
      assert backups == front + [last];
    }
  }

  /** Of several with the same end it is the first one listed. */
  lemma {:induction false} NewestByIsFirst(backups: seq<BaseBackup>, t: nat, k: nat)
    requires k < |backups| && backups[k].end <= t && (forall b :: b in backups && b.end <= t ==> b.end <= backups[k].end)
    requires forall j :: 0 <= j < k ==> backups[j].end < backups[k].end || backups[j].end > t
    ensures NewestBy(backups, t) == Some(backups[k])
  {
    var front, last := backups[..|backups| - 1], backups[|backups| - 1];
    assert backups == front + [last];
    if k < |front| {
      NewestByIsFirst(front, t, k);
    } else {
      NewestByMeans(front, t);
    }
  }

  method AtOrBefore(backups: seq<BaseBackup>, t: nat) returns (found: Option<BaseBackup>)
    ensures found == NewestBy(backups, t)
  {
    found := None;
    for i := 0 to |backups|
      invariant found == NewestBy(backups[..i], t)
    {
      assert backups[..i + 1][..i] == backups[..i];
      if backups[i].end > t {
        continue;
      }
      if found.None? || backups[i].end > found.value.end {
        found := Some(backups[i]);
      }
    }
    assert backups[..|backups|] == backups;
  }

  predicate Holds(backups: seq<BaseBackup>, id: string) { exists i :: 0 <= i < |backups| && backups[i].id == id }

  /** The archive of a Cluster: its completed base backups, oldest first, and the
      times at which its WAL files were written. */
  datatype Archive = Archive(backups: seq<BaseBackup>, wal: seq<nat>)

  predicate WrittenSince(a: Archive, t: nat) { exists i :: 0 <= i < |a.wal| && a.wal[i] > t }

  /** Where a recovery stops: at the end of a base backup, or at the end of the
      archive. */
  datatype Target = StopAt(id: string) | WholeArchive(start: string)

  /** The base backup that the synced snapshot names and the store holds. */
  predicate TaggedHeld(name: string, a: Archive, synced: Option<Snapshot>, id: string) {
    synced.Some? && PausedBaseBackup(synced.value.tags, name) == Some(id) && Holds(a.backups, id)
  }

  /** The end of the archive is not ahead: no moment is asked for, or the Cluster
      was hibernated at the moment and wrote nothing since. */
  predicate EndServes(name: string, a: Archive, at: Option<nat>, synced: Option<Snapshot>) {
    if synced.Some? then HibernatedTag(name) in synced.value.tags && !WrittenSince(a, synced.value.time) else at.None?
  }

  /** The i-th backup ended by the moment, no other that did ended later, and none
      before it in the list ended as late. */
  predicate NewestEnded(a: Archive, moment: nat, i: nat) {
    && i < |a.backups| && a.backups[i].end <= moment
    && (forall j :: 0 <= j < |a.backups| && a.backups[j].end <= moment ==> a.backups[j].end <= a.backups[i].end)
    && (forall j :: 0 <= j < i && a.backups[j].end <= moment ==> a.backups[j].end < a.backups[i].end)
  }

  function MomentOf(at: Option<nat>, synced: Option<Snapshot>): nat
    requires synced.Some? || at.Some?
  {
    if synced.Some? then synced.value.time else at.value
  }

  /** Where the recovery has to stop: at the tagged base backup while the store
      holds it; else at the end of the archive where that is not ahead, from the
      last backup listed; else at the newest base backup that ended by the
      moment. */
  ghost predicate RightTarget(name: string, a: Archive, at: Option<nat>, synced: Option<Snapshot>, target: Target) {
    && a.backups != []
    && (forall id :: TaggedHeld(name, a, synced, id) ==> target == StopAt(id))
    && ((forall id :: !TaggedHeld(name, a, synced, id)) ==>
          if EndServes(name, a, at, synced) then target == WholeArchive(a.backups[|a.backups| - 1].id)
          else exists i: nat :: NewestEnded(a, MomentOf(at, synced), i) && target == StopAt(a.backups[i].id))
  }

  /** The target is not ahead of the moment. With a synced snapshot the moment is
      its time, and the snapshot says what the database held then. */
  predicate NotAhead(name: string, a: Archive, at: Option<nat>, synced: Option<Snapshot>, target: Target) {
    match target
    case StopAt(id) =>
      && Holds(a.backups, id)
      && (|| TaggedHeld(name, a, synced, id)
          || ((synced.Some? || at.Some?) && exists i :: 0 <= i < |a.backups| && a.backups[i].id == id && a.backups[i].end <= MomentOf(at, synced)))
    case WholeArchive(start) => Holds(a.backups, start) && EndServes(name, a, at, synced)
  }

  /** The right target is never ahead, and there is only one. */
  lemma RightIsNotAhead(name: string, a: Archive, at: Option<nat>, synced: Option<Snapshot>, target: Target)
    requires RightTarget(name, a, at, synced, target)
    ensures NotAhead(name, a, at, synced, target)
  {
    hide PausedBaseBackup, HibernatedTag, WrittenSince;
    if id :| TaggedHeld(name, a, synced, id) {
      assert target == StopAt(id);
    } else if EndServes(name, a, at, synced) {
      assert a.backups[|a.backups| - 1].id == target.start;
    } else {
      var i: nat :| NewestEnded(a, MomentOf(at, synced), i) && target == StopAt(a.backups[i].id);
    }
  }

  lemma RightIsUnique(name: string, a: Archive, at: Option<nat>, synced: Option<Snapshot>, target: Target, other: Target)
    requires RightTarget(name, a, at, synced, target) && RightTarget(name, a, at, synced, other)
    ensures target == other
  {
    hide PausedBaseBackup, HibernatedTag, WrittenSince;
    if id :| TaggedHeld(name, a, synced, id) {
      assert target == StopAt(id) && other == StopAt(id);
    } else if !EndServes(name, a, at, synced) {
      var i: nat :| NewestEnded(a, MomentOf(at, synced), i) && target == StopAt(a.backups[i].id);
      var j: nat :| NewestEnded(a, MomentOf(at, synced), j) && other == StopAt(a.backups[j].id);
      assert i == j;
    }
  }

  /** No base backup serves the moment. */
  predicate OutOfReach(name: string, a: Archive, at: Option<nat>, synced: Option<Snapshot>) {
    || a.backups == []
    || (&& (synced.Some? || at.Some?)
        && (forall i :: 0 <= i < |a.backups| ==> a.backups[i].end > if synced.Some? then synced.value.time else at.value)
        && (synced.Some? ==>
              && (PausedBaseBackup(synced.value.tags, name).Some? ==> !Holds(a.backups, PausedBaseBackup(synced.value.tags, name).value))
              && (HibernatedTag(name) in synced.value.tags ==> WrittenSince(a, synced.value.time))))
  }

  /** selectBaseBackup, once the archive is listed: the right target, or none
      exactly when no base backup serves the moment. */
  method SelectBaseBackup(name: string, a: Archive, at: Option<nat>, synced: Option<Snapshot>) returns (target: Option<Target>)
    ensures target.Some? ==> RightTarget(name, a, at, synced, target.value)
    ensures target.None? <==> OutOfReach(name, a, at, synced)
  {
    hide PausedBaseBackup, HibernatedTag, NewestBy, WrittenSince;
    if a.backups == [] {
      return None;
    }
    var newest := a.backups[|a.backups| - 1].id;
    var moment := 0;
    if synced.Some? {
      var tagged := PausedBaseBackup(synced.value.tags, name);
      if tagged.Some? && Holds(a.backups, tagged.value) {
        assert TaggedHeld(name, a, synced, tagged.value);
        return Some(StopAt(tagged.value));
      }
      if HibernatedTag(name) in synced.value.tags && !WrittenSince(a, synced.value.time) {
        return Some(WholeArchive(newest));
      }
      moment := synced.value.time;
    } else if at.None? {
      return Some(WholeArchive(newest));
    } else {
      moment := at.value;
    }
    var found := AtOrBefore(a.backups, moment);
    NewestByMeans(a.backups, moment);
    if found.None? {
      assert forall i :: 0 <= i < |a.backups| ==> a.backups[i] in a.backups;
      return None;
    }
    ghost var i := FirstNewest(a, moment);
    target := Some(StopAt(found.value.id));
  }

  /** The search gives the first of the newest. */
  lemma {:induction false} FirstNewest(a: Archive, moment: nat) returns (i: nat)
    requires NewestBy(a.backups, moment).Some?
    ensures NewestEnded(a, moment, i) && a.backups[i] == NewestBy(a.backups, moment).value
    decreases |a.backups|
  {
    var n := |a.backups| - 1;
    var front := a.(backups := a.backups[..n]);
    NewestByMeans(front.backups, moment);
    if NewestBy(front.backups, moment) == NewestBy(a.backups, moment) {
      i := FirstNewest(front, moment);
    } else {
      i := n;
      forall j | 0 <= j < n && a.backups[j].end <= moment ensures a.backups[j].end < a.backups[n].end { assert front.backups[j] in front.backups; }
    }
  }

  // --------------------------------------------------------- all or nothing

  datatype Phase = Pending | Failed | Skipped

  datatype Item =
    | Volume(name: string, phase: Phase, chosen: Option<Snapshot>)
    | Database(name: string, phase: Phase, target: Option<Target>)

  /** What the reads for one item give. */
  datatype Reply = Unreadable | Missing | Repository(snapshots: seq<Snapshot>) | Stored(archive: Archive)

  /** restoreAsOf, previous and syncDatabaseToVolume. */
  datatype Spec = Spec(at: Option<nat>, previous: Option<nat>, sync: bool)

  function Back(spec: Spec): nat { if spec.previous.Some? then spec.previous.value else 0 }

  /** `Retry` is an error, after which the stored status is as it was. `synced` is
      the snapshot that gave the moment of a synced restore. */
  datatype Outcome = Retry | Unreachable(items: seq<Item>, synced: Option<Snapshot>) | Selected(items: seq<Item>, synced: Option<Snapshot>)

  predicate Replies(items: seq<Item>, replies: seq<Reply>) {
    |items| == |replies| && forall i :: 0 <= i < |items| ==> if items[i].Volume? then !replies[i].Stored? else !replies[i].Repository?
  }

  /** A Pending item got its backup: a volume the right snapshot, of the one
      moment in sync mode, and a Cluster the right target. */
  ghost predicate Served(item: Item, out: Item, reply: Reply, spec: Spec, synced: Option<Snapshot>) {
    && out.Volume? == item.Volume? && out.name == item.name && out.phase == Pending
    && match out
       case Volume(_, _, chosen) =>
         && reply.Repository? && chosen.Some? && IsPrevious(reply.snapshots, spec.at, spec.sync, Back(spec), chosen.value)
         && (spec.sync ==> synced.Some? && chosen.value.time == synced.value.time)
       case Database(_, _, target) =>
         && reply.Stored? && target.Some? && RightTarget(item.name, reply.archive, spec.at, synced, target.value)
         && (spec.sync ==> synced.Some?)
  }

  /** A Pending item has no backup in reach. */
  predicate Unserved(item: Item, out: Item, reply: Reply, spec: Spec, synced: Option<Snapshot>) {
    && out.Volume? == item.Volume? && out.name == item.name && out.phase == Failed
    && (|| reply.Missing?
        || (reply.Repository? && Count(reply.snapshots, spec.at, spec.sync, 0) <= Back(spec))
        || (reply.Repository? && spec.sync && synced.Some? &&
              exists s :: s in reply.snapshots && IsPrevious(reply.snapshots, spec.at, true, Back(spec), s) && s.time != synced.value.time)
        || (reply.Stored? && OutOfReach(item.name, reply.archive, spec.at, synced))
        || (item.Database? && spec.sync && synced.None?))
  }

  ghost predicate Handled(item: Item, out: Item, reply: Reply, spec: Spec, synced: Option<Snapshot>) {
    if item.phase != Pending then out == item
    else Served(item, out, reply, spec, synced) || Unserved(item, out, reply, spec, synced)
  }

  /** The snapshot that gives the moment is a paused one that a volume selected. */
  predicate GivesMoment(out: seq<Item>, spec: Spec, synced: Option<Snapshot>) {
    synced.Some? ==>
      spec.sync && PAUSED in synced.value.tags && exists i :: 0 <= i < |out| && out[i].Volume? && out[i].chosen == synced
  }

  predicate AnyFailed(items: seq<Item>, out: seq<Item>) {
    |out| == |items| && exists i :: 0 <= i < |items| && items[i].phase == Pending && out[i].phase == Failed
  }

  /** An item that was handled while there was no moment selected nothing. */
  lemma MomentComesLater(item: Item, out: Item, reply: Reply, spec: Spec, moment: Option<Snapshot>)
    requires item.Volume? && !reply.Stored? && Handled(item, out, reply, spec, None) && spec.sync
    ensures Handled(item, out, reply, spec, moment)
  {
    hide Count, IsPrevious;
  }

  lemma GivesMomentStays(out: seq<Item>, next: Item, spec: Spec, synced: Option<Snapshot>, moment: Option<Snapshot>)
    requires GivesMoment(out, spec, synced) && (synced.Some? ==> moment == synced)
    requires synced.None? && moment.Some? ==> spec.sync && PAUSED in moment.value.tags && next.Volume? && next.chosen == moment
    ensures GivesMoment(out + [next], spec, moment)
  {
    if synced.Some? {
      var i :| 0 <= i < |out| && out[i].Volume? && out[i].chosen == synced;
      assert (out + [next])[i] == out[i];
    } else if moment.Some? {
      assert (out + [next])[|out|] == next;
    }
  }

  /** What one turn of the first loop does to a Pending volume. */
  method SelectVolume(item: Item, reply: Reply, spec: Spec, synced: Option<Snapshot>) returns (out: Item, moment: Option<Snapshot>)
    requires item.Volume? && item.phase == Pending && (reply.Missing? || reply.Repository?) && (synced.Some? ==> spec.sync)
    ensures synced.Some? ==> moment == synced
    ensures synced.None? && moment.Some? ==> spec.sync && PAUSED in moment.value.tags && out.Volume? && out.chosen == moment
    ensures Handled(item, out, reply, spec, moment) && out.Volume?
    ensures out.phase == Pending ==> (spec.sync <==> moment.Some?)
  {
    hide Count;
    moment := synced;
    out := Volume(item.name, Failed, item.chosen);
    if reply.Missing? {
      return;
    }
    var snapshot := SelectSnapshot(reply.snapshots, spec.at, spec.previous, spec.sync);
    if snapshot.None? {
      return;
    }
    if spec.sync {
      if synced.None? {
        moment := snapshot;
      } else if snapshot.value.time != synced.value.time {
        return;
      }
    }
    out := Volume(item.name, Pending, snapshot);
  }

  method SelectVolumes(items: seq<Item>, replies: seq<Reply>, spec: Spec) returns (ok: bool, out: seq<Item>, synced: Option<Snapshot>)
    requires Replies(items, replies)
    ensures ok ==>
      && |out| == |items| && GivesMoment(out, spec, synced)
      && forall i :: 0 <= i < |items| ==> if items[i].Volume? then Handled(items[i], out[i], replies[i], spec, synced) else out[i] == items[i]
    ensures !ok ==> exists i :: 0 <= i < |items| && items[i].phase == Pending && replies[i].Unreadable?
  {
    hide Count, IsPrevious, Served, Unserved;
    out, synced := items, None;
    for n := 0 to |items|
      invariant |out| == |items| && out[n..] == items[n..] && (synced.Some? ==> spec.sync)
      invariant GivesMoment(out[..n], spec, synced)
      invariant forall i :: 0 <= i < n ==> if items[i].Volume? then Handled(items[i], out[i], replies[i], spec, synced) else out[i] == items[i]
    {
      assert out[n] == out[n..][0] == items[n];
      if items[n].Volume? && items[n].phase == Pending {
        if replies[n].Unreadable? {
          return false, out, synced;
        }
        var next, moment := SelectVolume(items[n], replies[n], spec, synced);
        if synced.None? && moment.Some? {
          forall i | 0 <= i < n && items[i].Volume? ensures Handled(items[i], out[i], replies[i], spec, moment) {
            MomentComesLater(items[i], out[i], replies[i], spec, moment);
          }
        }
        GivesMomentStays(out[..n], next, spec, synced, moment);
        out, synced := out[n := next], moment;
        assert out[..n + 1] == out[..n] + [next];
      } else {
        GivesMomentStays(out[..n], out[n], spec, synced, synced);
        assert out[..n + 1] == out[..n] + [out[n]];
      }
      assert out[n + 1..] == items[n + 1..];
    }
    assert out[..|items|] == out;
    ok := true;
  }

  /** What one turn of the second loop does to a Pending Cluster. */
  method SelectDatabase(item: Item, reply: Reply, spec: Spec, synced: Option<Snapshot>) returns (out: Item)
    requires item.Database? && item.phase == Pending && (reply.Missing? || reply.Stored?)
    ensures Handled(item, out, reply, spec, synced) && out.Database?
  {
    hide RightTarget, OutOfReach;
    out := Database(item.name, Failed, item.target);
    if reply.Missing? || (spec.sync && synced.None?) {
      return;
    }
    var target := SelectBaseBackup(item.name, reply.archive, spec.at, synced);
    if target.Some? {
      out := Database(item.name, Pending, target);
    }
  }

  method SelectDatabases(items: seq<Item>, first: seq<Item>, replies: seq<Reply>, spec: Spec, synced: Option<Snapshot>)
    returns (ok: bool, out: seq<Item>)
    requires Replies(items, replies) && |first| == |items|
    requires forall i :: 0 <= i < |items| ==> if items[i].Volume? then first[i].Volume? else first[i] == items[i]
    ensures ok ==>
      && |out| == |items|
      && forall i :: 0 <= i < |items| ==> if items[i].Database? then Handled(items[i], out[i], replies[i], spec, synced) else out[i] == first[i]
    ensures !ok ==> exists i :: 0 <= i < |items| && items[i].phase == Pending && replies[i].Unreadable?
  {
    hide Served, Unserved;
    out := first;
    for n := 0 to |items|
      invariant |out| == |items| && out[n..] == first[n..]
      invariant forall i :: 0 <= i < n ==> if items[i].Database? then Handled(items[i], out[i], replies[i], spec, synced) else out[i] == first[i]
    {
      assert out[n] == out[n..][0] == first[n];
      if items[n].Database? && items[n].phase == Pending {
        if replies[n].Unreadable? {
          return false, out;
        }
        var next := SelectDatabase(items[n], replies[n], spec, synced);
        out := out[n := next];
      }
      assert out[n + 1..] == first[n + 1..];
    }
    ok := true;
  }

  function SkipPending(out: seq<Item>): (r: seq<Item>)
    ensures |r| == |out|
    ensures forall i :: 0 <= i < |out| ==> r[i] == if out[i].phase == Pending then out[i].(phase := Skipped) else out[i]
  {
    seq(|out|, i requires 0 <= i < |out| => if out[i].phase == Pending then out[i].(phase := Skipped) else out[i])
  }

  /** selectBackups: every Pending item gets its backup, in sync mode of one
      moment, or no item stays Pending and one has no backup in reach. */
  method SelectBackups(items: seq<Item>, replies: seq<Reply>, spec: Spec) returns (r: Outcome)
    requires Replies(items, replies)
    ensures r.Retry? ==> exists i :: 0 <= i < |items| && items[i].phase == Pending && replies[i].Unreadable?
    ensures !r.Retry? ==>
      && |r.items| == |items| && GivesMoment(r.items, spec, r.synced)
      && forall i :: 0 <= i < |items| && items[i].phase != Pending ==> r.items[i] == items[i]
    ensures r.Selected? ==> forall i :: 0 <= i < |items| && items[i].phase == Pending ==> Served(items[i], r.items[i], replies[i], spec, r.synced)
    ensures r.Unreachable? ==>
      && AnyFailed(items, r.items)
      && forall i :: 0 <= i < |items| && items[i].phase == Pending ==>
           if r.items[i].phase == Failed then Unserved(items[i], r.items[i], replies[i], spec, r.synced)
           else r.items[i].phase == Skipped && Served(items[i], r.items[i].(phase := Pending), replies[i], spec, r.synced)
  {
    hide Served, Unserved, GivesMoment;
    var ok, first, synced := SelectVolumes(items, replies, spec);
    if !ok {
      return Retry;
    }
    KindsStay(items, first, replies, spec, synced);
    var out;
    ok, out := SelectDatabases(items, first, replies, spec, synced);
    if !ok {
      return Retry;
    }
    assert forall i :: 0 <= i < |items| ==> Handled(items[i], out[i], replies[i], spec, synced);
    SplitHandled(items, out, replies, spec, synced);
    MomentStays(items, first, out, spec, synced);
    if AnyFailed(items, out) {
      var i :| 0 <= i < |items| && items[i].phase == Pending && out[i].phase == Failed;
      r := Unreachable(SkipPending(out), synced);
      assert r.items[i].phase == Failed;
      SkippedGivesMoment(out, r.items, spec, synced);
      forall k | 0 <= k < |items| && items[k].phase == Pending && out[k].phase == Pending ensures r.items[k].(phase := Pending) == out[k] { }
    } else {
      r := Selected(out, synced);
    }
  }

  lemma SkippedGivesMoment(out: seq<Item>, skipped: seq<Item>, spec: Spec, synced: Option<Snapshot>)
    requires GivesMoment(out, spec, synced) && skipped == SkipPending(out)
    ensures GivesMoment(skipped, spec, synced)
  {
    if synced.Some? {
      var i :| 0 <= i < |out| && out[i].Volume? && out[i].chosen == synced;
      assert skipped[i].Volume? && skipped[i].chosen == synced;
    }
  }

  lemma KindsStay(items: seq<Item>, first: seq<Item>, replies: seq<Reply>, spec: Spec, synced: Option<Snapshot>)
    requires |first| == |items| == |replies|
    requires forall i :: 0 <= i < |items| ==> if items[i].Volume? then Handled(items[i], first[i], replies[i], spec, synced) else first[i] == items[i]
    ensures forall i :: 0 <= i < |items| ==> if items[i].Volume? then first[i].Volume? else first[i] == items[i]
  {
    hide IsPrevious, Count;
  }

  lemma SplitHandled(items: seq<Item>, out: seq<Item>, replies: seq<Reply>, spec: Spec, synced: Option<Snapshot>)
    requires |out| == |items| == |replies| && forall i :: 0 <= i < |items| ==> Handled(items[i], out[i], replies[i], spec, synced)
    ensures forall i :: 0 <= i < |items| && items[i].phase == Pending ==>
              if out[i].phase == Failed then Unserved(items[i], out[i], replies[i], spec, synced)
              else out[i].phase == Pending && Served(items[i], out[i], replies[i], spec, synced)
    ensures forall i :: 0 <= i < |items| && items[i].phase != Pending ==> out[i] == items[i]
  {
    hide IsPrevious, Count, RightTarget, OutOfReach;
  }

  lemma MomentStays(items: seq<Item>, first: seq<Item>, out: seq<Item>, spec: Spec, synced: Option<Snapshot>)
    requires |first| == |items| == |out| && GivesMoment(first, spec, synced)
    requires forall i :: 0 <= i < |items| ==> if items[i].Volume? then first[i].Volume? else first[i] == items[i]
    requires forall i :: 0 <= i < |items| && !items[i].Database? ==> out[i] == first[i]
    ensures GivesMoment(out, spec, synced)
  {
    if synced.Some? {
      var i :| 0 <= i < |first| && first[i].Volume? && first[i].chosen == synced;
      assert out[i] == first[i];
    }
  }

  /** In sync mode all volumes come back from one paused second, and that is the
      moment the databases stop at. */
  lemma OneMomentForAll(items: seq<Item>, out: seq<Item>, replies: seq<Reply>, spec: Spec, synced: Option<Snapshot>, i: nat, j: nat)
    requires |out| == |items| == |replies| && spec.sync && i < |items| && j < |items|
    requires forall k :: 0 <= k < |items| && items[k].phase == Pending ==> Served(items[k], out[k], replies[k], spec, synced)
    requires items[i].Volume? && items[j].Volume? && items[i].phase == Pending && items[j].phase == Pending
    ensures out[i].Volume? && out[j].Volume? && out[i].chosen.Some? && out[j].chosen.Some?
    ensures out[i].chosen.value.time == out[j].chosen.value.time && PAUSED in out[i].chosen.value.tags
  {
    assert Served(items[i], out[i], replies[i], spec, synced) && Served(items[j], out[j], replies[j], spec, synced);
  }
}

/**
 The paused moment of a namespace, the snapshot that fills a claim, and the test
 of the webhook for the same moment.
 */
module Synced {
  import opened Common
  import opened Restic

  /** The snapshots of each repository, by the name of its Secret. */
  type Repositories = map<string, seq<Snapshot>>

  predicate PausedAt(s: Snapshot, moment: nat) { PAUSED in s.tags && Truncate(s.time) == moment }

  predicate HoldsMoment(snapshots: seq<Snapshot>, moment: nat) { exists i :: 0 <= i < |snapshots| && PausedAt(snapshots[i], moment) }

  /** The first paused snapshot of a moment. */
  function FirstAt(snapshots: seq<Snapshot>, moment: nat): Option<Snapshot> {
    if snapshots == [] then None
    else if PausedAt(snapshots[0], moment) then Some(snapshots[0])
    else FirstAt(snapshots[1..], moment)
  }

  lemma {:induction false} FirstAtMeans(snapshots: seq<Snapshot>, moment: nat)
    ensures FirstAt(snapshots, moment).Some? <==> HoldsMoment(snapshots, moment)
    ensures FirstAt(snapshots, moment).Some? ==> FirstAt(snapshots, moment).value in snapshots && PausedAt(FirstAt(snapshots, moment).value, moment)
    ensures forall k: nat :: k < |snapshots| && PausedAt(snapshots[k], moment) && (forall j :: 0 <= j < k ==> !PausedAt(snapshots[j], moment)) ==>
              FirstAt(snapshots, moment) == Some(snapshots[k])
  {
    if snapshots != [] && !PausedAt(snapshots[0], moment) {
      var rest := snapshots[1..];
      FirstAtMeans(rest, moment);
      assert forall i :: 0 <= i < |rest| ==> rest[i] == snapshots[i + 1];
      if HoldsMoment(snapshots, moment) {
        var i :| 0 <= i < |snapshots| && PausedAt(snapshots[i], moment);
        assert PausedAt(rest[i - 1], moment);
      }
    }
  }

  /** At. */
  method At(snapshots: seq<Snapshot>, moment: nat) returns (found: Option<Snapshot>)
    ensures found == FirstAt(snapshots, moment)
  {
    for i := 0 to |snapshots|
      invariant FirstAt(snapshots, moment) == FirstAt(snapshots[i..], moment)
    {
      if PausedAt(snapshots[i], moment) {
        return Some(snapshots[i]);
      }
    }
    found := None;
  }

  /** The repositories in the order in which a loop over the map meets them. */
  ghost predicate Enumerates(order: seq<string>, repositories: Repositories) {
    (forall n :: n in order <==> n in repositories)
  }

  /** No paused snapshot of the listed repositories is from a later second. */
  ghost predicate NoneLater(repositories: Repositories, names: seq<string>, moment: nat) {
    forall k, i :: 0 <= k < |names| && names[k] in repositories && 0 <= i < |repositories[names[k]]| && PAUSED in repositories[names[k]][i].tags ==>
      Truncate(repositories[names[k]][i].time) <= moment
  }

  /** The namespace's moment: the newest paused second, which is not the zero
      time and which every repository holds. */
  ghost predicate IsMoment(repositories: Repositories, moment: nat) {
    && moment > 0 && repositories != map[]
    && (forall n :: n in repositories ==> HoldsMoment(repositories[n], moment))
    && (forall n, i :: n in repositories && 0 <= i < |repositories[n]| && PAUSED in repositories[n][i].tags ==> Truncate(repositories[n][i].time) <= moment)
  }

  lemma MomentIsUnique(repositories: Repositories, a: nat, b: nat)
    requires IsMoment(repositories, a) && IsMoment(repositories, b)
    ensures a == b
  {
    var n :| n in repositories;
    assert HoldsMoment(repositories[n], a) && HoldsMoment(repositories[n], b);
  }

  /** The inner loop of Moment. */
  method NewestIn(snapshots: seq<Snapshot>, before: nat) returns (newest: nat)
    ensures newest >= before && (newest == before || HoldsMoment(snapshots, newest))
    ensures forall i :: 0 <= i < |snapshots| && PAUSED in snapshots[i].tags ==> Truncate(snapshots[i].time) <= newest
  {
    newest := before;
    for i := 0 to |snapshots|
      invariant newest >= before && (newest == before || HoldsMoment(snapshots, newest))
      invariant forall j :: 0 <= j < i && PAUSED in snapshots[j].tags ==> Truncate(snapshots[j].time) <= newest
    {
      var t := Truncate(snapshots[i].time);
      if PAUSED in snapshots[i].tags && t > newest {
        newest := t;
        assert PausedAt(snapshots[i], newest);
      }
    }
  }

  /** Moment: the newest paused second exactly when every repository holds it, in
      whatever order the map is walked. */
  method Moment(repositories: Repositories, order: seq<string>) returns (moment: Option<nat>)
    requires Enumerates(order, repositories)
    ensures moment.Some? ==> IsMoment(repositories, moment.value)
    ensures moment.None? ==> forall m :: !IsMoment(repositories, m)
  {
    var newest := 0;
    for k := 0 to |order|
      invariant NoneLater(repositories, order[..k], newest)
      invariant newest > 0 ==> exists n :: n in repositories && HoldsMoment(repositories[n], newest)
    {
      assert order[k] in order;
      ghost var before := newest;
      newest := NewestIn(repositories[order[k]], newest);
      assert order[..k + 1] == order[..k] + [order[k]];
    }
    assert order[..|order|] == order;
    EveryoneIsListed(repositories, order, newest);
    if newest == 0 {
      if m :| IsMoment(repositories, m) { NoOtherMoment(repositories, newest, m); }
      return None;
    }
    for k := 0 to |order|
      invariant forall j :: 0 <= j < k ==> HoldsMoment(repositories[order[j]], newest)
    {
      assert order[k] in order;
      var found := At(repositories[order[k]], newest);
      FirstAtMeans(repositories[order[k]], newest);
      if found.None? {
        if m :| IsMoment(repositories, m) { NoOtherMoment(repositories, newest, m); }
        return None;
      }
    }
    moment := Some(newest);
  }

  lemma EveryoneIsListed(repositories: Repositories, order: seq<string>, newest: nat)
    requires Enumerates(order, repositories) && NoneLater(repositories, order, newest)
    ensures forall n, i :: n in repositories && 0 <= i < |repositories[n]| && PAUSED in repositories[n][i].tags ==> Truncate(repositories[n][i].time) <= newest
  {
    forall n, i | n in repositories && 0 <= i < |repositories[n]| && PAUSED in repositories[n][i].tags
      ensures Truncate(repositories[n][i].time) <= newest
    {
      var k :| 0 <= k < |order| && order[k] == n;
    }
  }

  /** Any moment is the newest paused second. */
  lemma NoOtherMoment(repositories: Repositories, newest: nat, m: nat)
    requires IsMoment(repositories, m)
    requires forall n, i :: n in repositories && 0 <= i < |repositories[n]| && PAUSED in repositories[n][i].tags ==> Truncate(repositories[n][i].time) <= newest
    requires newest > 0 ==> exists n :: n in repositories && HoldsMoment(repositories[n], newest)
    ensures m == newest
  {
    var n :| n in repositories;
    assert HoldsMoment(repositories[n], m);
    if newest > 0 {
      var k :| k in repositories && HoldsMoment(repositories[k], newest);
    }
  }

  // ------------------------------------------------------------- populator

  /** The newest snapshot; of several, the first one listed. */
  function Latest(snapshots: seq<Snapshot>): Snapshot
    requires snapshots != []
  {
    if |snapshots| == 1 then snapshots[0]
    else
      var front, s := Latest(snapshots[..|snapshots| - 1]), snapshots[|snapshots| - 1];
      if s.time > front.time then s else front
  }

  lemma {:induction false} LatestIsLatest(snapshots: seq<Snapshot>)
    requires snapshots != []
    ensures Latest(snapshots) in snapshots && forall s :: s in snapshots ==> s.time <= Latest(snapshots).time
  {
    if |snapshots| > 1 {
      LatestIsLatest(snapshots[..|snapshots| - 1]);
      assert snapshots == snapshots[..|snapshots| - 1] + [snapshots[|snapshots| - 1]];
    }
  }

  /** Latest is the newest of a window that holds all. */
  lemma {:induction false} LatestIsNewest(snapshots: seq<Snapshot>, hi: nat)
    requires snapshots != [] && forall s :: s in snapshots ==> s.time <= hi
    ensures Newest(snapshots, 0, hi) == Some(Latest(snapshots))
  {
    var front, last := snapshots[..|snapshots| - 1], snapshots[|snapshots| - 1];
    assert last in snapshots && Within(last, 0, hi);
    if front != [] {
      forall s | s in front ensures s.time <= hi { assert s in snapshots; }
      LatestIsNewest(front, hi);
    }
  }

  /** What fills a claim: a snapshot, nothing because the repository is empty,
      or an error because no snapshot serves the pin. */
  datatype Choice = Fill(snapshot: Snapshot) | BindEmpty | PinOutOfReach

  function Choose(snapshots: seq<Snapshot>, pin: Option<nat>, moment: Option<nat>): Choice {
    if pin.Some? then
      match Newest(snapshots, 0, pin.value) { case Some(s) => Fill(s) case None => PinOutOfReach }
    else if moment.Some? && FirstAt(snapshots, moment.value).Some? then Fill(FirstAt(snapshots, moment.value).value)
    else if snapshots == [] then BindEmpty
    else Fill(Latest(snapshots))
  }

  /** What choose promises: with a pin the newest snapshot at or before it, or an
      error exactly when there is none; without one a paused snapshot of the
      moment when the repository holds one, and else the newest snapshot. */
  lemma ChooseMeans(snapshots: seq<Snapshot>, pin: Option<nat>, moment: Option<nat>)
    ensures var c := Choose(snapshots, pin, moment);
            && (c.Fill? ==> c.snapshot in snapshots)
            && (c.PinOutOfReach? <==> pin.Some? && forall s :: s in snapshots ==> s.time > pin.value)
            && (c.BindEmpty? <==> pin.None? && snapshots == [])
            && (pin.Some? && c.Fill? ==> c.snapshot.time <= pin.value && forall s :: s in snapshots && s.time <= pin.value ==> s.time <= c.snapshot.time)
            && (pin.None? && c.Fill? ==>
                  if moment.Some? && HoldsMoment(snapshots, moment.value) then PausedAt(c.snapshot, moment.value)
                  else forall s :: s in snapshots ==> s.time <= c.snapshot.time)
  {
    if pin.Some? { NewestIsNewest(snapshots, 0, pin.value); }
    if moment.Some? { FirstAtMeans(snapshots, moment.value); }
    if snapshots != [] { LatestIsLatest(snapshots); }
  }

  // -------------------------------------------------------- the webhook's test

  /** An entry in the status of a VolumeRestore: which claim was filled, with a
      snapshot of which time, and when that restore started. */
  datatype Entry = Entry(uid: string, snapshotTime: Option<nat>, startedAt: Option<nat>)

  /** A VolumeRestore: its repository, whether it sets a pin, and its entries. */
  datatype VolumeRestore = VolumeRestore(repository: string, pinned: bool, entries: seq<Entry>)

  /** A claim. `ref` is its VolumeRestore, or None when it names none or the one
      it names is gone. */
  datatype Claim = Claim(uid: string, enabled: bool, ref: Option<VolumeRestore>, pinned: bool, bound: bool)

  predicate FromMoment(e: Entry, uid: string, moment: nat) {
    e.uid == uid && e.snapshotTime.Some? && Truncate(e.snapshotTime.value) == moment && e.startedAt.Some?
  }

  /** The place of the first entry that passes. */
  function EntryAt(entries: seq<Entry>, uid: string, moment: nat): Option<nat> {
    if entries == [] then None
    else if FromMoment(entries[0], uid, moment) then Some(0)
    else match EntryAt(entries[1..], uid, moment) { case Some(i) => Some(i + 1) case None => None }
  }

  lemma {:induction false} EntryAtMeans(entries: seq<Entry>, uid: string, moment: nat)
    ensures EntryAt(entries, uid, moment).None? <==> forall i :: 0 <= i < |entries| ==> !FromMoment(entries[i], uid, moment)
    ensures EntryAt(entries, uid, moment).Some? ==>
              EntryAt(entries, uid, moment).value < |entries| && FromMoment(entries[EntryAt(entries, uid, moment).value], uid, moment)
  {
    if entries != [] {
      EntryAtMeans(entries[1..], uid, moment);
      assert forall i :: 0 < i < |entries| ==> entries[i] == entries[1..][i - 1];
    }
  }

  /** The claim comes back from the moment, or came back from it. */
  predicate ComesBack(c: Claim, moment: nat) {
    && c.ref.Some? && !c.pinned && !c.ref.value.pinned
    && (c.bound ==> exists i :: 0 <= i < |c.ref.value.entries| && FromMoment(c.ref.value.entries[i], c.uid, moment))
  }

  /** When the restore of a bound claim started. */
  function StartOf(c: Claim, moment: nat): nat
    requires ComesBack(c, moment) && c.bound
  {
    EntryAtMeans(c.ref.value.entries, c.uid, moment);
    c.ref.value.entries[EntryAt(c.ref.value.entries, c.uid, moment).value].startedAt.value
  }

  predicate Earliest(claims: seq<Claim>, moment: nat, filled: Option<nat>)
    requires forall i :: 0 <= i < |claims| && claims[i].enabled ==> ComesBack(claims[i], moment)
  {
    && (filled.None? <==> forall i :: 0 <= i < |claims| && claims[i].enabled ==> !claims[i].bound)
    && (filled.Some? ==>
          && (exists i :: 0 <= i < |claims| && claims[i].enabled && claims[i].bound && StartOf(claims[i], moment) == filled.value)
          && (forall i :: 0 <= i < |claims| && claims[i].enabled && claims[i].bound ==> filled.value <= StartOf(claims[i], moment)))
  }

  /** claimsFromMoment: yes exactly when every marked claim comes back from the
      moment, with the earliest start of a restore that is done. */
  method ClaimsFromMoment(claims: seq<Claim>, moment: nat) returns (all: bool, filled: Option<nat>)
    ensures all <==> forall i :: 0 <= i < |claims| && claims[i].enabled ==> ComesBack(claims[i], moment)
    ensures all ==> Earliest(claims, moment, filled)
  {
    filled := None;
    for n := 0 to |claims|
      invariant forall i :: 0 <= i < n && claims[i].enabled ==> ComesBack(claims[i], moment)
      invariant Earliest(claims[..n], moment, filled)
    {
      var c := claims[n];
      assert claims[..n + 1] == claims[..n] + [c];
      if c.enabled {
        if c.ref.None? || c.pinned || c.ref.value.pinned {
          return false, None;
        }
        if c.bound {
          var i := EntryAt(c.ref.value.entries, c.uid, moment);
          EntryAtMeans(c.ref.value.entries, c.uid, moment);
          if i.None? {
            return false, None;
          }
          var started := c.ref.value.entries[i.value].startedAt.value;
          EarliestStep(claims[..n], c, moment, filled);
          if filled.None? || started < filled.value {
            filled := Some(started);
          }
        } else {
          EarliestSkip(claims[..n], c, moment, filled);
        }
      } else {
        EarliestSkip(claims[..n], c, moment, filled);
      }
    }
    assert claims[..|claims|] == claims;
    all := true;
  }

  lemma EarliestSkip(claims: seq<Claim>, c: Claim, moment: nat, filled: Option<nat>)
    requires forall i :: 0 <= i < |claims| && claims[i].enabled ==> ComesBack(claims[i], moment)
    requires Earliest(claims, moment, filled) && (c.enabled ==> ComesBack(c, moment) && !c.bound)
    ensures Earliest(claims + [c], moment, filled)
  {
    var more := claims + [c];
    assert forall i :: 0 <= i < |claims| ==> more[i] == claims[i];
    assert more[|claims|] == c;
  }

  lemma EarliestStep(claims: seq<Claim>, c: Claim, moment: nat, filled: Option<nat>)
    requires forall i :: 0 <= i < |claims| && claims[i].enabled ==> ComesBack(claims[i], moment)
    requires Earliest(claims, moment, filled) && c.enabled && c.bound && ComesBack(c, moment)
    ensures var started := StartOf(c, moment);
            Earliest(claims + [c], moment, if filled.None? || started < filled.value then Some(started) else filled)
  {
    var more := claims + [c];
    assert forall i :: 0 <= i < |claims| ==> more[i] == claims[i];
    assert more[|claims|] == c;
  }

  /** The populator and the webhook agree: at the namespace's moment, choose
      without a pin gives each repository a paused snapshot of that second, and
      the entry the populator records passes the webhook's test for the moment. */
  lemma PopulatorMeetsWebhook(repositories: Repositories, moment: nat, name: string, uid: string, started: nat)
    requires IsMoment(repositories, moment) && name in repositories
    ensures var c := Choose(repositories[name], None, Some(moment));
            c.Fill? && PausedAt(c.snapshot, moment) && FromMoment(Entry(uid, Some(Truncate(c.snapshot.time)), Some(started)), uid, moment)
  {
    ChooseMeans(repositories[name], None, Some(moment));
    assert HoldsMoment(repositories[name], moment);
  }
}

/**
 The snapshots of a restic repository, as the controller reads them.

 Times are nanoseconds since the zero time of Go, so 0 is the time that
 IsZero reports.
 */
module Restic {
  import opened Common

  const SECOND: nat := 1_000_000_000

  /** The fields of a snapshot document that the controller never reads: which
      sync wrote it, and the tree it points at. */
  datatype Body = Body(writer: string, tree: nat)

  datatype Snapshot = Snapshot(id: string, time: nat, tags: seq<string>, original: string, body: Body)

  const PAUSED: string := "paused"

  function Truncate(t: nat): nat { t - t % SECOND }

  // ------------------------------------------------- the newest in a window

  predicate Within(s: Snapshot, lo: int, hi: int) { lo <= s.time <= hi }

  /** The newest snapshot of a window; of several with the same time, the first
      one listed. */
  function Newest(snapshots: seq<Snapshot>, lo: int, hi: int): Option<Snapshot> {
    if snapshots == [] then None
    else
      var front, s := Newest(snapshots[..|snapshots| - 1], lo, hi), snapshots[|snapshots| - 1];
      if !Within(s, lo, hi) || (front.Some? && s.time <= front.value.time) then front else Some(s)
  }

  /** What Newest means, without its recursion. */
  lemma {:induction false} NewestIsNewest(snapshots: seq<Snapshot>, lo: int, hi: int)
    ensures Newest(snapshots, lo, hi).None? <==> forall s :: s in snapshots ==> !Within(s, lo, hi)
    ensures Newest(snapshots, lo, hi).Some? ==>
              var best := Newest(snapshots, lo, hi).value;
              best in snapshots && Within(best, lo, hi) && forall s :: s in snapshots && Within(s, lo, hi) ==> s.time <= best.time
  {
    if snapshots != [] {
      var front, last := snapshots[..|snapshots| - 1], snapshots[|snapshots| - 1];
      NewestIsNewest(front, lo, hi);
      assert snapshots == front + [last];
    }
  }

  /** Of several with the same time it is the first one listed. */
  lemma {:induction false} NewestIsFirst(snapshots: seq<Snapshot>, lo: int, hi: int)
    ensures Newest(snapshots, lo, hi).Some? ==> exists k: nat :: IsFirst(snapshots, lo, hi, k, Newest(snapshots, lo, hi).value)
  {
    if snapshots != [] {
      var front, last := snapshots[..|snapshots| - 1], snapshots[|snapshots| - 1];
      NewestIsFirst(front, lo, hi);
      NewestIsNewest(front, lo, hi);
      assert snapshots == front + [last];
      if Newest(front, lo, hi).Some? && Newest(snapshots, lo, hi) == Newest(front, lo, hi) {
        var k: nat :| IsFirst(front, lo, hi, k, Newest(front, lo, hi).value);
        assert IsFirst(snapshots, lo, hi, k, Newest(front, lo, hi).value);
      } else if Newest(snapshots, lo, hi).Some? {
        forall j | 0 <= j < |front| && Within(snapshots[j], lo, hi) ensures snapshots[j].time < last.time { assert front[j] in front; }
        assert IsFirst(snapshots, lo, hi, |front|, last);
      }
    }
  }

  predicate IsFirst(snapshots: seq<Snapshot>, lo: int, hi: int, k: nat, best: Snapshot) {
    k < |snapshots| && snapshots[k] == best && forall j :: 0 <= j < k && Within(snapshots[j], lo, hi) ==> snapshots[j].time < best.time
  }

  /** AtOrBefore: the newest snapshot taken at or before a time. */
  method AtOrBefore(snapshots: seq<Snapshot>, t: nat) returns (best: Option<Snapshot>)
    ensures best == Newest(snapshots, 0, t)
  {
    best := None;
    for i := 0 to |snapshots|
      invariant best == Newest(snapshots[..i], 0, t)
    {
      assert snapshots[..i + 1][..i] == snapshots[..i];
      var s := snapshots[i];
      if s.time > t {
        continue;
      }
      if best.None? || s.time > best.value.time {
        best := Some(s);
      }
    }
    assert snapshots[..|snapshots|] == snapshots;
  }

  /** SyncedSnapshot: the newest snapshot of one sync, whose window is widened
      by one second on each side. */
  method SyncedSnapshot(snapshots: seq<Snapshot>, end: nat, took: nat) returns (best: Option<Snapshot>)
    ensures best == Newest(snapshots, end - took - SECOND, end + SECOND)
  {
    var lo: int, hi: int := end - took - SECOND, end + SECOND;
    best := None;
    for i := 0 to |snapshots|
      invariant best == Newest(snapshots[..i], lo, hi)
    {
      assert snapshots[..i + 1][..i] == snapshots[..i];
      var s := snapshots[i];
      if s.time < lo || s.time > hi {
        continue;
      }
      if best.None? || s.time > best.value.time {
        best := Some(s);
      }
    }
    assert snapshots[..|snapshots|] == snapshots;
  }

  // ------------------------------------------------------------------ tags

  const BASE_BACKUP: string := "base-backup/"

  function BaseBackupTag(cluster: string, backup: string): string {
    BASE_BACKUP + cluster + "=" + backup
  }

  function HibernatedTag(cluster: string): string {
    "hibernated/" + cluster
  }

  /** The base backup a tag list names for a Cluster: what follows the prefix
      in the first tag that carries it with something behind it. */
  function PausedBaseBackup(tags: seq<string>, cluster: string): Option<string> {
    var prefix := BASE_BACKUP + cluster + "=";
    if tags == [] then None
    else if prefix < tags[0] then Some(tags[0][|prefix|..])
    else PausedBaseBackup(tags[1..], cluster)
  }

  /** The first tag with the prefix of the Cluster, and something behind it. */
  ghost predicate NamesFirst(tags: seq<string>, cluster: string, k: nat) {
    && k < |tags| && BASE_BACKUP + cluster + "=" < tags[k]
    && forall j :: 0 <= j < k ==> !(BASE_BACKUP + cluster + "=" < tags[j])
  }

  /** A base backup is found exactly when some tag carries the prefix, and it is
      what follows the prefix in the first such tag. */
  lemma {:induction false} PausedBaseBackupMeans(tags: seq<string>, cluster: string)
    ensures PausedBaseBackup(tags, cluster).Some? <==> exists k: nat :: NamesFirst(tags, cluster, k)
    ensures forall k: nat :: NamesFirst(tags, cluster, k) ==> tags[k] == BASE_BACKUP + cluster + "=" + PausedBaseBackup(tags, cluster).value
  {
    if tags != [] {
      var prefix, rest := BASE_BACKUP + cluster + "=", tags[1..];
      PausedBaseBackupMeans(rest, cluster);
      if prefix < tags[0] {
        assert NamesFirst(tags, cluster, 0);
        assert tags[0] == tags[0][..|prefix|] + tags[0][|prefix|..];
      } else {
        forall k: nat | NamesFirst(tags, cluster, k) ensures k > 0 && NamesFirst(rest, cluster, k - 1) { assert forall j :: 0 <= j < k - 1 ==> rest[j] == tags[j + 1]; }
        forall k: nat | NamesFirst(rest, cluster, k) ensures NamesFirst(tags, cluster, k + 1) { assert forall j :: 0 < j < k + 1 ==> tags[j] == rest[j - 1]; }
      }
    }
  }

  /** The tag of one Cluster is read back for that Cluster, and for no other
      whose name holds no "=". */
  lemma TagReadsBack(c: string, d: string, backup: string)
    requires '=' !in c && '=' !in d && backup != ""
    ensures BASE_BACKUP + d + "=" < BaseBackupTag(c, backup) <==> c == d
    ensures BaseBackupTag(c, backup)[|BASE_BACKUP + c + "="|..] == backup
  {
    var prefix, tag := BASE_BACKUP + d + "=", BaseBackupTag(c, backup);
    var b := |BASE_BACKUP|;
    assert tag == BASE_BACKUP + (c + "=" + backup);
    assert tag[b..] == c + "=" + backup;
    assert prefix[b..] == d + "=";
    if prefix < tag {
      assert tag[..|prefix|] == prefix;
      assert (c + "=" + backup)[..|d| + 1] == d + "=" by {
        forall i | 0 <= i < |d| + 1 ensures (c + "=" + backup)[i] == (d + "=")[i] {
          assert tag[b + i] == prefix[b + i];
        }
      }
      EqualsSplits(c, d, backup);
    }
  }

  lemma EqualsSplits(c: string, d: string, backup: string)
    requires '=' !in c && '=' !in d && |d| < |c + "=" + backup|
    requires (c + "=" + backup)[..|d| + 1] == d + "="
    ensures c == d
  {
    var whole := c + "=" + backup;
    assert forall i :: 0 <= i <= |d| ==> whole[i] == (d + "=")[i];
    assert whole[|c|] == '=' && whole[|d|] == '=';
    assert |c| == |d|;
    assert c == whole[..|c|] && d == whole[..|d|];
  }

  /** A hibernated tag is no base backup tag. */
  lemma HibernatedIsNoBackup(c: string, d: string)
    ensures !(BASE_BACKUP + d + "=" < HibernatedTag(c)) && !(BASE_BACKUP + d + "=" < PAUSED)
  {
    assert (BASE_BACKUP + d + "=")[0] == 'b' && HibernatedTag(c)[0] == 'h' && PAUSED[0] == 'p';
  }
}

/**
 What a BackupRun guarantees is what the recovery of its namespace relies on: the
 tags of the moment are uniform, and the volumes and databases that come back
 from the moment hold one version of the app.
 */
module Recovery {
  import opened Common
  import opened Restic
  import Retime
  import BackupWorld
  import BackupGuarantees
  import opened Selection
  import opened Synced
  import Webhook

  /** The repositories of the namespace are those of the run's claims, each listed
      in some order, and every paused snapshot of the moment is one that the run
      tagged. `of` gives the place of each repository's claim. */
  ghost predicate MomentOfRun(w: BackupWorld.World, t: string, repositories: Repositories, of: map<string, nat>, moment: nat) {
    && repositories.Keys <= of.Keys
    && forall n :: n in repositories ==>
         && of[n] < |w.sides| && w.sides[of[n]].Claim? && Retime.Lists(repositories[n], w.sides[of[n]].store) && Retime.Named(w.sides[of[n]].store)
         && forall s :: s in repositories[n] && PausedAt(s, moment) ==> s.id !in w.sides[of[n]].before || s.body.writer == t
  }

  /** Such a snapshot is one that the run moved: on a quiet run it tagged no
      other. */
  lemma MomentIsMoved(w: BackupWorld.World, t: string, repositories: Repositories, of: map<string, nat>, moment: nat, n: string, s: Snapshot)
    requires BackupGuarantees.OwnTags(w, t)
    requires MomentOfRun(w, t, repositories, of, moment) && n in repositories && s in repositories[n] && PausedAt(s, moment)
    ensures BackupGuarantees.MovedBy(w, t, of[n], s.id) && BackupGuarantees.At(w, t, of[n], s.id) == s
  {
    assert BackupGuarantees.TaggedBy(w, t, of[n], s.id);
  }

  lemma CutMeansOwnTags(w: BackupWorld.World, t: string)
    requires BackupGuarantees.OneCut(w, t)
    ensures BackupGuarantees.OwnTags(w, t)
  {
  }

  /** Uniform tags, on which automaticRecovery relies, are what the passes of one
      BackupRun guarantee. */
  lemma MomentIsUniform(w: BackupWorld.World, t: string, repositories: Repositories, of: map<string, nat>, moment: nat)
    requires BackupGuarantees.OneMoment(w, t) && BackupGuarantees.OwnTags(w, t) && MomentOfRun(w, t, repositories, of, moment)
    ensures Webhook.Uniform(repositories, moment)
  {
    forall n, i, m, j | n in repositories && 0 <= i < |repositories[n]| && m in repositories && 0 <= j < |repositories[m]|
                        && PausedAt(repositories[n][i], moment) && PausedAt(repositories[m][j], moment)
      ensures repositories[n][i].tags == repositories[m][j].tags
    {
      MomentIsMoved(w, t, repositories, of, moment, n, repositories[n][i]);
      MomentIsMoved(w, t, repositories, of, moment, m, repositories[m][j]);
    }
  }

  /** What the guarantees say about one moved snapshot. */
  lemma MovedAtCut(w: BackupWorld.World, t: string, i: nat, id: string, name: string)
    requires BackupGuarantees.OneCut(w, t) && BackupGuarantees.MovedBy(w, t, i, id) && '=' !in name
    ensures w.past.cut == Some(BackupGuarantees.At(w, t, i, id).body.tree)
    ensures var tagged := PausedBaseBackup(BackupGuarantees.At(w, t, i, id).tags, name);
            tagged.Some? ==> tagged.value in w.bases && w.bases[tagged.value] == w.past.cut.value
  {
    hide PausedBaseBackup;
    assert BackupGuarantees.TaggedBy(w, t, i, id);
    var tagged := PausedBaseBackup(BackupGuarantees.At(w, t, i, id).tags, name);
    assert tagged.Some? ==> tagged == Some(tagged.value);
  }

  /** At the moment of a quiet run, the populator fills every claim with the
      version at which the run stopped the app. */
  lemma VolumesComeBackAtCut(w: BackupWorld.World, t: string, repositories: Repositories, of: map<string, nat>, moment: nat, n: string)
    requires BackupGuarantees.OneCut(w, t) && MomentOfRun(w, t, repositories, of, moment) && IsMoment(repositories, moment) && n in repositories
    ensures w.past.cut.Some?
    ensures var c := Choose(repositories[n], None, Some(moment)); c.Fill? && c.snapshot.body.tree == w.past.cut.value
  {
    CutMeansOwnTags(w, t);
    hide BackupGuarantees.OneCut, BackupGuarantees.OwnTags, Choose;
    assert HoldsMoment(repositories[n], moment);
    ChooseMeans(repositories[n], None, Some(moment));
    var s := Choose(repositories[n], None, Some(moment)).snapshot;
    MomentIsMoved(w, t, repositories, of, moment, n, s);
    MovedAtCut(w, t, of[n], s.id, "");
  }

  /** The tags of the moment are the tags the run gave. */
  lemma TagsAreTheRuns(w: BackupWorld.World, t: string, repositories: Repositories, of: map<string, nat>, moment: nat, tags: seq<string>)
    returns (n: string, s: Snapshot)
    requires BackupGuarantees.OwnTags(w, t) && MomentOfRun(w, t, repositories, of, moment) && Webhook.TagsOfMoment(repositories, moment, tags)
    ensures n in repositories && s in repositories[n] && PausedAt(s, moment) && s.tags == tags
    ensures BackupGuarantees.MovedBy(w, t, of[n], s.id) && BackupGuarantees.At(w, t, of[n], s.id) == s
  {
    hide BackupGuarantees.OwnTags;
    var m, i :| m in repositories && 0 <= i < |repositories[m]| && PausedAt(repositories[m][i], moment) && repositories[m][i].tags == tags;
    n, s := m, repositories[m][i];
    MomentIsMoved(w, t, repositories, of, moment, n, s);
  }

  /** A Cluster whose base backup the moment names, and whose store still holds it,
      recovers to that base backup, and it holds the version of the volumes. */
  lemma TaggedComesBackAtCut(w: BackupWorld.World, t: string, repositories: Repositories, of: map<string, nat>, moment: nat, name: string, a: Archive, tags: seq<string>)
    requires BackupGuarantees.OneCut(w, t) && MomentOfRun(w, t, repositories, of, moment)
    requires Webhook.TagsOfMoment(repositories, moment, tags) && '=' !in name
    requires PausedBaseBackup(tags, name).Some? && Holds(a.backups, PausedBaseBackup(tags, name).value)
    ensures var id := PausedBaseBackup(tags, name).value;
            && Webhook.GoalAt(name, a, moment, tags) == Webhook.AtBackup(id)
            && w.past.cut.Some? && id in w.bases && w.bases[id] == w.past.cut.value
  {
    CutMeansOwnTags(w, t);
    hide BackupGuarantees.OneCut, BackupGuarantees.OwnTags, PausedBaseBackup, HibernatedTag;
    var n, s := TagsAreTheRuns(w, t, repositories, of, moment, tags);
    MovedAtCut(w, t, of[n], s.id, name);
  }

  /** A Cluster that the moment says was hibernated, and whose archive got no WAL
      since, recovers to the end of its archive; the run found it hibernated. */
  lemma HibernatedComesBack(w: BackupWorld.World, t: string, repositories: Repositories, of: map<string, nat>, moment: nat, name: string, a: Archive, tags: seq<string>)
    returns (j: nat)
    requires BackupGuarantees.OwnTags(w, t) && BackupGuarantees.OneMoment(w, t) && BackupGuarantees.ReportsAreTrue(w, t)
    requires MomentOfRun(w, t, repositories, of, moment) && Webhook.TagsOfMoment(repositories, moment, tags)
    requires HibernatedTag(name) in tags && !WrittenSince(a, moment)
    requires PausedBaseBackup(tags, name).Some? ==> !Holds(a.backups, PausedBaseBackup(tags, name).value)
    ensures Webhook.GoalAt(name, a, moment, tags) == Webhook.AtEnd
    ensures j < |w.stored.items| && j < |w.sides| && w.stored.items[j].Database? && w.stored.items[j].name == name && w.sides[j].Cluster? && w.sides[j].slept
  {
    hide BackupGuarantees.OwnTags, PausedBaseBackup, HibernatedTag, BackupWorld.TagsOf;
    var n, s := TagsAreTheRuns(w, t, repositories, of, moment, tags);
    j := BackupGuarantees.HibernatedIsRecorded(w.stored.items, name);
    assert BackupGuarantees.ReportIsTrue(w, t, j);
  }

  /** In every other case the goal is a base backup that ended by the moment, and
      past the moment only when there is none. */
  lemma OthersComeBackBefore(name: string, a: Archive, moment: nat, tags: seq<string>)
    requires PausedBaseBackup(tags, name).Some? ==> !Holds(a.backups, PausedBaseBackup(tags, name).value)
    requires HibernatedTag(name) !in tags || WrittenSince(a, moment)
    ensures match Webhook.GoalAt(name, a, moment, tags)
            case AtBackup(id) => exists b :: b in a.backups && b.id == id && b.end <= moment && forall c :: c in a.backups && c.end <= moment ==> c.end <= b.end
            case AtEnd => forall b :: b in a.backups ==> b.end > moment
  {
    hide PausedBaseBackup, HibernatedTag;
    NewestByMeans(a.backups, moment);
  }
}

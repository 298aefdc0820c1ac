/**
 What the webhook decides about the create of a Cluster: the RestoreRun that
 waits for it, where its recovery stops, and whether it may start empty.
 */
module Webhook {
  import opened Common
  import opened Restic
  import opened Selection
  import opened Synced

  /** Where a recovery stops: at the end of a base backup, or of the archive. */
  datatype Goal = AtBackup(id: string) | AtEnd

  // ------------------------------------------------------ the waiting run

  /** An item of a RestoreRun as its status records it. */
  datatype RunItem = RunItem(cluster: bool, name: string, deleted: bool, baseBackup: string, stop: bool)

  datatype RestoreRun = RestoreRun(name: string, finished: bool, deleting: bool, items: seq<RunItem>)

  predicate WaitsFor(run: RestoreRun, name: string) {
    !run.finished && !run.deleting && exists i :: 0 <= i < |run.items| && run.items[i].cluster && run.items[i].name == name && run.items[i].deleted
  }

  ghost predicate IsFirstWaiting(runs: seq<RestoreRun>, name: string, i: nat) {
    i < |runs| && WaitsFor(runs[i], name) && forall j :: 0 <= j < i ==> !WaitsFor(runs[j], name)
  }

  /** waitingRun: the first run that deleted the Cluster and waits for it. */
  method WaitingRun(runs: seq<RestoreRun>, name: string) returns (run: Option<RestoreRun>)
    ensures run.None? <==> forall i :: 0 <= i < |runs| ==> !WaitsFor(runs[i], name)
    ensures run.Some? ==> exists i: nat :: IsFirstWaiting(runs, name, i) && runs[i] == run.value
  {
    for i := 0 to |runs|
      invariant forall j :: 0 <= j < i ==> !WaitsFor(runs[j], name)
    {
      if runs[i].finished || runs[i].deleting {
        continue;
      }
      for k := 0 to |runs[i].items|
        invariant forall j :: 0 <= j < k ==> !(runs[i].items[j].cluster && runs[i].items[j].name == name && runs[i].items[j].deleted)
      {
        var item := runs[i].items[k];
        if item.cluster && item.name == name && item.deleted {
          assert IsFirstWaiting(runs, name, i);
          return Some(runs[i]);
        }
      }
    }
    run := None;
  }

  /** The base backup that a run records to stop at for a Cluster. */
  function RecordedStop(items: seq<RunItem>, name: string): Option<string> {
    if items == [] then None
    else if items[0].cluster && items[0].name == name && items[0].stop then Some(items[0].baseBackup)
    else RecordedStop(items[1..], name)
  }

  /** What the record asks for, or None when the store no longer holds it. */
  function Recorded(run: Option<RestoreRun>, name: string, backups: seq<BaseBackup>): Option<Goal> {
    if run.None? || RecordedStop(run.value.items, name).None? then Some(AtEnd)
    else
      var id := RecordedStop(run.value.items, name).value;
      if Holds(backups, id) then Some(AtBackup(id)) else None
  }

  /** recoveryFor: None refuses the create. */
  method RecoveryFor(name: string, run: Option<RestoreRun>, backups: seq<BaseBackup>) returns (goal: Option<Goal>)
    ensures goal == Recorded(run, name, backups)
  {
    if run.None? {
      return Some(AtEnd);
    }
    var items := run.value.items;
    for i := 0 to |items|
      invariant RecordedStop(items, name) == RecordedStop(items[i..], name)
    {
      if !items[i].cluster || items[i].name != name || !items[i].stop {
        continue;
      }
      for k := 0 to |backups|
        invariant forall j :: 0 <= j < k ==> backups[j].id != items[i].baseBackup
      {
        if backups[k].id == items[i].baseBackup {
          return Some(AtBackup(backups[k].id));
        }
      }
      return None;
    }
    goal := Some(AtEnd);
  }

  /** How the run records a target that it selected. */
  function RecordOf(name: string, target: Target): RunItem {
    match target
    case StopAt(id) => RunItem(true, name, true, id, true)
    case WholeArchive(start) => RunItem(true, name, true, start, false)
  }

  predicate Alone(items: seq<RunItem>, k: nat) {
    k < |items| && forall i :: 0 <= i < |items| && i != k ==> !(items[i].cluster && items[i].name == items[k].name)
  }

  lemma {:induction false} RecordIsFound(items: seq<RunItem>, k: nat)
    requires Alone(items, k) && items[k].cluster
    ensures RecordedStop(items, items[k].name) == if items[k].stop then Some(items[k].baseBackup) else None
  {
    if k > 0 {
      assert forall i :: 0 <= i < |items| - 1 ==> items[1..][i] == items[i + 1];
      RecordIsFound(items[1..], k - 1);
    } else if !items[0].stop {
      NoRecord(items[1..], items[0].name);
    }
  }

  lemma {:induction false} NoRecord(items: seq<RunItem>, name: string)
    requires forall i :: 0 <= i < |items| ==> !(items[i].cluster && items[i].name == name)
    ensures RecordedStop(items, name).None?
  {
    if items != [] { NoRecord(items[1..], name); }
  }

  /** A target that was not ahead of the moment when the run selected it is what
      the webhook writes when the Cluster comes back, or the create is refused
      because the store lost the base backup. */
  lemma NeverAhead(name: string, a: Archive, at: Option<nat>, synced: Option<Snapshot>, target: Target, run: RestoreRun, k: nat, later: seq<BaseBackup>)
    requires RightTarget(name, a, at, synced, target)
    requires Alone(run.items, k) && run.items[k] == RecordOf(name, target)
    ensures Recorded(Some(run), name, later) ==
            match target { case StopAt(id) => (if Holds(later, id) then Some(AtBackup(id)) else None) case WholeArchive(_) => Some(AtEnd) }
    ensures Recorded(Some(run), name, later) == Some(AtEnd) && synced.Some? ==> HibernatedTag(name) in synced.value.tags && !WrittenSince(a, synced.value.time)
    ensures Recorded(Some(run), name, later) == Some(AtEnd) && synced.None? ==> at.None?
  {
    hide HibernatedTag, PausedBaseBackup;
    RecordIsFound(run.items, k);
  }

  // ----------------------------------------------------- without a RestoreRun

  /** All paused snapshots of one second carry the same tags. One BackupRun moved
      them (see BackupGuarantees.OneMoment). */
  ghost predicate Uniform(repositories: Repositories, moment: nat) {
    forall n, i, m, j :: n in repositories && 0 <= i < |repositories[n]| && m in repositories && 0 <= j < |repositories[m]|
                         && PausedAt(repositories[n][i], moment) && PausedAt(repositories[m][j], moment) ==>
      repositories[n][i].tags == repositories[m][j].tags
  }

  ghost predicate TagsOfMoment(repositories: Repositories, moment: nat, tags: seq<string>) {
    exists n, i :: n in repositories && 0 <= i < |repositories[n]| && PausedAt(repositories[n][i], moment) && repositories[n][i].tags == tags
  }

  predicate AllComeBack(claims: seq<Claim>, moment: nat) {
    forall i :: 0 <= i < |claims| && claims[i].enabled ==> ComesBack(claims[i], moment)
  }

  /** A database wrote next to a claim that was filled already. */
  predicate WroteBeside(claims: seq<Claim>, moment: nat, a: Archive)
    requires AllComeBack(claims, moment)
  {
    exists i :: 0 <= i < |claims| && claims[i].enabled && claims[i].bound && WrittenSince(a, StartOf(claims[i], moment))
  }

  lemma EarliestDecides(claims: seq<Claim>, moment: nat, a: Archive, filled: Option<nat>)
    requires AllComeBack(claims, moment) && Earliest(claims, moment, filled)
    ensures WroteBeside(claims, moment, a) <==> filled.Some? && WrittenSince(a, filled.value)
  {
    if filled.Some? {
      var i :| 0 <= i < |claims| && claims[i].enabled && claims[i].bound && StartOf(claims[i], moment) == filled.value;
    }
  }

  /** The goal at a moment whose snapshots carry the tags. */
  function GoalAt(name: string, a: Archive, moment: nat, tags: seq<string>): Goal {
    var tagged := PausedBaseBackup(tags, name);
    if tagged.Some? && Holds(a.backups, tagged.value) then AtBackup(tagged.value)
    else if HibernatedTag(name) in tags && !WrittenSince(a, moment) then AtEnd
    else match NewestBy(a.backups, moment) { case Some(b) => AtBackup(b.id) case None => AtEnd }
  }

  /** The namespace comes back from a moment, and nothing wrote since. */
  ghost predicate ComesBackFrom(repositories: Repositories, claims: seq<Claim>, a: Archive, moment: nat) {
    IsMoment(repositories, moment) && AllComeBack(claims, moment) && !WroteBeside(claims, moment, a)
  }

  /** What automaticRecovery promises, without the order in which it walks the
      repositories. */
  ghost predicate IsAutomatic(name: string, a: Archive, repositories: Repositories, claims: seq<Claim>, goal: Goal) {
    && (forall moment, tags :: ComesBackFrom(repositories, claims, a, moment) && TagsOfMoment(repositories, moment, tags) ==> goal == GoalAt(name, a, moment, tags))
    && ((forall moment :: !ComesBackFrom(repositories, claims, a, moment)) ==> goal == AtEnd)
  }

  lemma {:induction false} MomentHasTags(repositories: Repositories, moment: nat, n: string, s: Snapshot)
    requires n in repositories && s in repositories[n] && PausedAt(s, moment)
    ensures TagsOfMoment(repositories, moment, s.tags)
  {
    var i :| 0 <= i < |repositories[n]| && repositories[n][i] == s;
  }

  /** With uniform tags the goal is one and the same for every walk. */
  lemma AutomaticIsUnique(name: string, a: Archive, repositories: Repositories, claims: seq<Claim>, g: Goal, h: Goal)
    requires IsAutomatic(name, a, repositories, claims, g) && IsAutomatic(name, a, repositories, claims, h)
    ensures g == h
  {
    if moment :| ComesBackFrom(repositories, claims, a, moment) {
      var n :| n in repositories;
      assert HoldsMoment(repositories[n], moment);
      var i :| 0 <= i < |repositories[n]| && PausedAt(repositories[n][i], moment);
      assert TagsOfMoment(repositories, moment, repositories[n][i].tags);
    }
  }

  /** The goal is past the moment only when no base backup ended by it, or when
      the database was hibernated and has not written since. */
  lemma PastTheMoment(name: string, a: Archive, moment: nat, tags: seq<string>)
    ensures GoalAt(name, a, moment, tags) == AtEnd ==>
              (HibernatedTag(name) in tags && !WrittenSince(a, moment)) || (forall b :: b in a.backups ==> b.end > moment)
    ensures GoalAt(name, a, moment, tags).AtBackup? ==>
              var id := GoalAt(name, a, moment, tags).id;
              Holds(a.backups, id) && (PausedBaseBackup(tags, name) == Some(id) || exists b :: b in a.backups && b.id == id && b.end <= moment)
  {
    hide PausedBaseBackup, HibernatedTag;
    NewestByMeans(a.backups, moment);
    if NewestBy(a.backups, moment).Some? {
      var i :| 0 <= i < |a.backups| && a.backups[i] == NewestBy(a.backups, moment).value;
    }
  }

  lemma SomeoneHolds(repositories: Repositories, order: seq<string>, moment: nat)
    requires Enumerates(order, repositories) && IsMoment(repositories, moment)
    ensures exists k :: 0 <= k < |order| && order[k] in repositories && HoldsMoment(repositories[order[k]], moment)
  {
    var n :| n in repositories;
    var k :| 0 <= k < |order| && order[k] == n;
    assert HoldsMoment(repositories[order[k]], moment);
  }

  /** The loop of automaticRecovery over the repositories: the tags of the first
      snapshot of the moment that it meets. */
  method TagsAtMoment(repositories: Repositories, order: seq<string>, moment: nat) returns (tags: seq<string>)
    requires Enumerates(order, repositories) && IsMoment(repositories, moment)
    ensures TagsOfMoment(repositories, moment, tags)
  {
    SomeoneHolds(repositories, order, moment);
    var found: Option<Snapshot>, k := None, 0;
    while k < |order| && found.None?
      invariant 0 <= k <= |order|
      invariant found.None? ==> forall j :: 0 <= j < k ==> order[j] in repositories && !HoldsMoment(repositories[order[j]], moment)
      invariant found.Some? ==> TagsOfMoment(repositories, moment, found.value.tags)
    {
      assert order[k] in order;
      found := At(repositories[order[k]], moment);
      FirstAtMeans(repositories[order[k]], moment);
      if found.Some? {
        MomentHasTags(repositories, moment, order[k], found.value);
      }
      k := k + 1;
    }
    tags := found.value.tags;
  }

  /** What automaticRecovery reads of a namespace, with the orders in which its
      two loops walk the repositories. */
  datatype Namespace = Namespace(repositories: Repositories, first: seq<string>, second: seq<string>, claims: seq<Claim>)

  ghost predicate Walked(ns: Namespace) { Enumerates(ns.first, ns.repositories) && Enumerates(ns.second, ns.repositories) }

  /** One BackupRun moved the snapshots of the moment. */
  ghost predicate UniformMoment(ns: Namespace) { forall m :: IsMoment(ns.repositories, m) ==> Uniform(ns.repositories, m) }

  /** automaticRecovery: a base backup of the listing or the end of the archive;
      and with uniform tags the one goal, whatever the orders are. */
  method AutomaticRecovery(name: string, a: Archive, ns: Namespace) returns (goal: Goal)
    requires Walked(ns)
    ensures goal.AtBackup? ==> Holds(a.backups, goal.id)
    ensures UniformMoment(ns) ==> IsAutomatic(name, a, ns.repositories, ns.claims, goal)
  {
    hide PausedBaseBackup, HibernatedTag, GoalAt, IsMoment, HoldsMoment, ComesBack, Earliest, WroteBeside, Uniform, TagsOfMoment, Holds;
    var moment := Moment(ns.repositories, ns.first);
    if moment.None? {
      return AtEnd;
    }
    var all, filled := ClaimsFromMoment(ns.claims, moment.value);
    OnlyMoment(ns.repositories, moment.value);
    if !all {
      return AtEnd;
    }
    EarliestDecides(ns.claims, moment.value, a, filled);
    if filled.Some? && WrittenSince(a, filled.value) {
      return AtEnd;
    }
    var tags := TagsAtMoment(ns.repositories, ns.second, moment.value);
    assert ComesBackFrom(ns.repositories, ns.claims, a, moment.value);
    if Uniform(ns.repositories, moment.value) { SameTags(ns.repositories, moment.value, tags); }
    PastTheMoment(name, a, moment.value, tags);
    goal := DecideAt(name, a, moment.value, tags);
  }

  method DecideAt(name: string, a: Archive, moment: nat, tags: seq<string>) returns (goal: Goal)
    ensures goal == GoalAt(name, a, moment, tags)
  {
    hide PausedBaseBackup, HibernatedTag, NewestBy;
    var tagged := PausedBaseBackup(tags, name);
    if tagged.Some? && Holds(a.backups, tagged.value) {
      return AtBackup(tagged.value);
    }
    if HibernatedTag(name) in tags && !WrittenSince(a, moment) {
      return AtEnd;
    }
    var found := Selection.AtOrBefore(a.backups, moment);
    goal := if found.Some? then AtBackup(found.value.id) else AtEnd;
  }

  lemma OnlyMoment(repositories: Repositories, moment: nat)
    requires IsMoment(repositories, moment)
    ensures forall m :: IsMoment(repositories, m) ==> m == moment
  {
    forall m | IsMoment(repositories, m) ensures m == moment { MomentIsUnique(repositories, m, moment); }
  }

  lemma SameTags(repositories: Repositories, moment: nat, tags: seq<string>)
    requires Uniform(repositories, moment) && TagsOfMoment(repositories, moment, tags)
    ensures forall other :: TagsOfMoment(repositories, moment, other) ==> other == tags
  {
  }

  // ---------------------------------------------------------------- Handle

  datatype Operation = Create | Update | Other

  /** The Cluster of a create. */
  datatype NewCluster = NewCluster(name: string, declared: bool, archives: bool, optOut: bool)

  /** What is stored under the archive prefix of the Cluster: how many objects,
      among them the completed base backups and the WAL. */
  datatype Stock = Stock(objects: nat, archive: Archive)

  predicate Coherent(stock: Stock) { stock.objects == 0 ==> stock.archive.backups == [] && stock.archive.wal == [] }

  /** The answers of the reads; None is one that failed. `namespace` is what
      automaticRecovery reads. */
  datatype Answers = Answers(
    left: Option<bool>, located: bool, holder: Option<bool>, runs: Option<seq<RestoreRun>>,
    listed: bool, emptyKnown: bool, namespace: Option<Namespace>)

  datatype Request = Request(operation: Operation, dryRun: bool, cluster: Option<NewCluster>)

  datatype Response = Unchanged | Recover(goal: Goal, run: Option<string>) | Denied | Errored | Kept

  ghost predicate Automatic(ns: Option<Namespace>, name: string, stock: Stock, goal: Goal) {
    ns.Some? && (UniformMoment(ns.value) ==> IsAutomatic(name, stock.archive, ns.value.repositories, ns.value.claims, goal))
  }

  /** optedOut, and withoutBaseBackup of a Cluster that no run waits for. */
  method StartEmpty(stock: Stock, known: bool) returns (response: Response)
    ensures response == if !known then Errored else if stock.objects == 0 then Unchanged else Denied
  {
    if !known {
      return Errored;
    }
    response := if stock.objects == 0 then Unchanged else Denied;
  }

  // When each response is due. The conditions name the facts, not the branches.

  /** A create that counts. */
  predicate Asked(request: Request) { request.operation == Create && !request.dryRun }

  /** The Cluster can be read, and nothing of an earlier one is left. */
  predicate Clear(request: Request, answers: Answers) { Asked(request) && request.cluster.Some? && answers.left == Some(false) }

  /** It archives to a place that no other database uses. */
  predicate Placed(request: Request, answers: Answers) {
    Clear(request, answers) && request.cluster.value.archives && answers.located && answers.holder == Some(false)
  }

  /** It does not ask for an empty database, and the RestoreRuns can be read. */
  predicate Judged(request: Request, answers: Answers) { Placed(request, answers) && !request.cluster.value.optOut && answers.runs.Some? }

  /** It leaves the decision to the webhook, and the base backups can be listed. */
  predicate Open(request: Request, answers: Answers) { Judged(request, answers) && !request.cluster.value.declared && answers.listed }

  predicate Waited(request: Request, answers: Answers)
    requires Judged(request, answers)
  {
    exists i :: 0 <= i < |answers.runs.value| && WaitsFor(answers.runs.value[i], request.cluster.value.name)
  }

  /** The waiting run's target is gone from the store. */
  ghost predicate TargetLost(request: Request, answers: Answers, stock: Stock)
    requires Judged(request, answers)
  {
    exists i: nat :: IsFirstWaiting(answers.runs.value, request.cluster.value.name, i)
                && Recorded(Some(answers.runs.value[i]), request.cluster.value.name, stock.archive.backups).None?
  }

  ghost predicate RecoverDue(request: Request, answers: Answers, stock: Stock) {
    && Open(request, answers) && stock.archive.backups != []
    && (if Waited(request, answers) then !TargetLost(request, answers, stock) else answers.namespace.Some?)
  }

  predicate UnchangedDue(request: Request, answers: Answers, stock: Stock) {
    || request.operation == Other || (request.operation == Create && request.dryRun)
    || (Clear(request, answers) && !request.cluster.value.archives)
    || (Placed(request, answers) && request.cluster.value.optOut && answers.emptyKnown && stock.objects == 0)
    || (Judged(request, answers) && !Waited(request, answers) && request.cluster.value.declared)
    || (Open(request, answers) && !Waited(request, answers) && stock.archive.backups == [] && answers.emptyKnown && stock.objects == 0)
  }

  ghost predicate DeniedDue(request: Request, answers: Answers, stock: Stock) {
    || (Asked(request) && request.cluster.Some? && answers.left == Some(true))
    || (Clear(request, answers) && request.cluster.value.archives && answers.located && answers.holder == Some(true))
    || (Placed(request, answers) && request.cluster.value.optOut && answers.emptyKnown && stock.objects > 0)
    || (Judged(request, answers) && Waited(request, answers) && request.cluster.value.declared)
    || (Open(request, answers) && stock.archive.backups == [] && (Waited(request, answers) || (answers.emptyKnown && stock.objects > 0)))
    || (Open(request, answers) && stock.archive.backups != [] && TargetLost(request, answers, stock))
  }

  /** The body is no Cluster, or a read that the decision needs failed. */
  predicate ErroredDue(request: Request, answers: Answers, stock: Stock) {
    Asked(request) &&
      (|| request.cluster.None? || answers.left.None?
       || (Clear(request, answers) && request.cluster.value.archives && (!answers.located || answers.holder.None?))
       || (Placed(request, answers) && request.cluster.value.optOut && !answers.emptyKnown)
       || (Placed(request, answers) && !request.cluster.value.optOut && answers.runs.None?)
       || (Judged(request, answers) && !request.cluster.value.declared && !answers.listed)
       || (Open(request, answers) && !Waited(request, answers) &&
             if stock.archive.backups == [] then !answers.emptyKnown else answers.namespace.None?))
  }

  /** The goal and the run that a recovery carries. */
  ghost predicate RightRecovery(request: Request, answers: Answers, stock: Stock, response: Response)
    requires Judged(request, answers) && response.Recover?
  {
    var name, runs := request.cluster.value.name, answers.runs.value;
    if Waited(request, answers) then
      exists i: nat :: IsFirstWaiting(runs, name, i) && response.run == Some(runs[i].name)
                  && Recorded(Some(runs[i]), name, stock.archive.backups) == Some(response.goal)
    else response.run.None? && Automatic(answers.namespace, name, stock, response.goal)
  }

  /** Handle: each response exactly when it is due. */
  method Handle(request: Request, answers: Answers, stock: Stock) returns (response: Response)
    requires Coherent(stock) && (answers.namespace.Some? ==> Walked(answers.namespace.value))
    ensures response.Kept? <==> request.operation == Update
    ensures response.Unchanged? <==> UnchangedDue(request, answers, stock)
    ensures response.Recover? <==> RecoverDue(request, answers, stock)
    ensures response.Denied? <==> DeniedDue(request, answers, stock)
    ensures response.Errored? <==> ErroredDue(request, answers, stock)
    ensures response.Recover? ==>
              RightRecovery(request, answers, stock, response) && (response.goal.AtEnd? || Holds(stock.archive.backups, response.goal.id))
  {
    hide WaitsFor, Recorded, IsAutomatic, UniformMoment, Walked, Holds;
    if request.operation == Update {
      return Kept;
    }
    if request.operation != Create || request.dryRun {
      return Unchanged;
    }
    if request.cluster.None? || answers.left.None? {
      return Errored;
    }
    if answers.left.value {
      return Denied;
    }
    var cluster := request.cluster.value;
    if !cluster.archives {
      return Unchanged;
    }
    if !answers.located || answers.holder.None? {
      return Errored;
    }
    if answers.holder.value {
      return Denied;
    }
    if cluster.optOut {
      response := StartEmpty(stock, answers.emptyKnown);
      return;
    }
    if answers.runs.None? {
      return Errored;
    }
    var run := WaitingRun(answers.runs.value, cluster.name);
    if cluster.declared {
      return if run.Some? then Denied else Unchanged;
    }
    FirstIsOne(answers.runs.value, cluster.name);
    response := DecideRecovery(cluster.name, run, answers, stock);
  }

  lemma FirstIsOne(runs: seq<RestoreRun>, name: string)
    ensures forall i: nat, j: nat :: IsFirstWaiting(runs, name, i) && IsFirstWaiting(runs, name, j) ==> i == j
  {
    hide WaitsFor;
  }

  /** The second half of Handle: a Cluster that declares no recovery. */
  method DecideRecovery(name: string, run: Option<RestoreRun>, answers: Answers, stock: Stock) returns (response: Response)
    requires Coherent(stock) && answers.runs.Some? && (answers.namespace.Some? ==> Walked(answers.namespace.value))
    ensures !answers.listed ==> response == Errored
    ensures answers.listed && stock.archive.backups == [] ==>
              response == if run.Some? then Denied else if !answers.emptyKnown then Errored else if stock.objects == 0 then Unchanged else Denied
    ensures answers.listed && stock.archive.backups != [] && run.Some? ==>
              match Recorded(run, name, stock.archive.backups)
              case None => response == Denied
              case Some(goal) => response == Recover(goal, Some(run.value.name))
    ensures answers.listed && stock.archive.backups != [] && run.None? ==>
              if answers.namespace.None? then response == Errored
              else response.Recover? && response.run.None? && Automatic(answers.namespace, name, stock, response.goal)
    ensures response.Recover? ==> response.goal.AtEnd? || Holds(stock.archive.backups, response.goal.id)
  {
    hide IsAutomatic, UniformMoment, Walked, RecordedStop;
    var backups := stock.archive.backups;
    if !answers.listed {
      return Errored;
    }
    if backups == [] {
      if run.Some? {
        return Denied;
      }
      response := StartEmpty(stock, answers.emptyKnown);
      return;
    }
    var goal := RecoveryFor(name, run, backups);
    if goal.None? {
      return Denied;
    }
    if run.None? {
      if answers.namespace.None? {
        return Errored;
      }
      var automatic := AutomaticRecovery(name, stock.archive, answers.namespace.value);
      goal := Some(automatic);
    }
    response := Recover(goal.value, if run.Some? then Some(run.value.name) else None);
  }

  /** No empty database over an archive: a Cluster that archives is created
      unchanged only when it declares its own recovery or nothing is stored. */
  lemma NeverEmptyOverAnArchive(request: Request, answers: Answers, stock: Stock)
    requires UnchangedDue(request, answers, stock) && Asked(request)
    ensures request.cluster.Some? && (request.cluster.value.archives ==> request.cluster.value.declared || stock.objects == 0)
  {
  }
}

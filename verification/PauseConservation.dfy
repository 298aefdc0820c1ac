/**
 Any number of BackupRuns and RestoreRuns that pause and resume the workloads of
 one namespace, as a state machine over single API calls.

 A run takes turns through the Lease backup-pause. `Restart` drops what the pass
 held in memory and is possible at every point, so it stands for a stop, for a
 call that failed, and for the answer of a call that was lost. A run may give up
 at any point: abort and finalize resume and release without taking the Lease.
 */
module PauseConservation {
  import opened Common

  datatype App = App(owner: nat, replicas: nat, flux: Option<string>)

  /** status.paused and status.suspendedKustomizations. */
  datatype Plan = Plan(counts: map<string, nat>, suspend: set<string>)

  /** The stored status: the plan once pausedAt is set, whether resumedAt is set,
      whether every workload is marked Resumed, and whether the run is terminal
      or its finalizer is gone. */
  datatype Record = Record(plan: Option<Plan>, resumed: bool, marks: bool, finished: bool)

  /** Where a pass stands. `Resuming` remembers what this pass gave back. */
  datatype Pos =
    | Begun
    | Held
    | Planning(partial: Plan)
    | Resuming(scaled: set<string>, released: set<string>)
    | Back
    | Released

  /** `early` says that the run gave its Leases back while its terminal phase was
      not stored yet. */
  datatype Run = Run(targets: set<string>, stored: Record, pos: Pos, early: bool)

  datatype State = State(
    apps: map<string, App>, suspends: map<string, bool>, owned: map<string, bool>,
    holder: Option<nat>, runs: map<nat, Run>)

  datatype Move =
    | Restart
    | Take
    | StartPlan
    | ReadWorkload(x: string)
    | ReadKustomization(x: string)
    | StorePlan
    | Suspend(key: string)
    | ScaleDown(x: string)
    | StoreResume
    | ScaleUp(x: string)
    | Unsuspend(key: string)
    | Mark
    | StoreMarks
    | Release
    | Finish

  datatype Step = NewRun(r: nat, targets: set<string>) | Flux(x: string) | Act(r: nat, move: Move)

  function SetPos(s: State, r: nat, pos: Pos): State
    requires r in s.runs
  {
    s.(runs := s.runs[r := s.runs[r].(pos := pos)])
  }

  function SetRecord(s: State, r: nat, record: Record, pos: Pos): State
    requires r in s.runs
  {
    s.(runs := s.runs[r := s.runs[r].(stored := record, pos := pos)])
  }

  function SetReplicas(s: State, x: string, n: nat): State
    requires x in s.apps
  {
    s.(apps := s.apps[x := s.apps[x].(replicas := n)])
  }

  predicate Applied(s: State, x: string)
    requires x in s.apps
  {
    s.apps[x].flux.Some? && s.apps[x].flux.value in s.suspends && !s.suspends[s.apps[x].flux.value]
  }

  /** backup-pause is free, the run's own, or that of a run that ended. */
  predicate Free(s: State, r: nat) {
    s.holder.None? || s.holder.value == r || s.holder.value !in s.runs || s.runs[s.holder.value].stored.finished
  }

  function Next(s: State, step: Step): State {
    match step
    case NewRun(r, targets) =>
      if r in s.runs || s.holder == Some(r) || !(targets <= s.apps.Keys) then s
      else s.(runs := s.runs[r := Run(targets, Record(None, false, false, false), Begun, false)])
    case Flux(x) => if x in s.apps && Applied(s, x) then SetReplicas(s, x, s.apps[x].owner) else s
    case Act(r, move) => if r in s.runs && !s.runs[r].stored.finished then NextMove(s, r, move) else s
  }

  function NextMove(s: State, r: nat, move: Move): State
    requires r in s.runs
  {
    var run := s.runs[r];
    match move
    case Restart => SetPos(s, r, Begun)
    case Take => if run.pos == Begun && Free(s, r) then SetPos(s, r, Held).(holder := Some(r)) else s
    case StartPlan => if run.pos == Held && run.stored.plan.None? then SetPos(s, r, Planning(Plan(map[], {}))) else s
    case ReadWorkload(x) =>
      if run.pos.Planning? && x in run.targets && x in s.apps
      then SetPos(s, r, Planning(run.pos.partial.(counts := run.pos.partial.counts[x := s.apps[x].replicas]))) else s
    case ReadKustomization(x) =>
      if run.pos.Planning? && x in run.targets && x in s.apps && Applied(s, x)
      then SetPos(s, r, Planning(run.pos.partial.(suspend := run.pos.partial.suspend + {s.apps[x].flux.value}))) else s
    case StorePlan =>
      if run.pos.Planning? && run.pos.partial.counts.Keys == run.targets
      then SetRecord(s, r, run.stored.(plan := Some(run.pos.partial)), Held) else s
    case _ => if run.stored.plan.None? then NextEnd(s, r, move) else NextPaused(s, r, run.stored.plan.value, move)
  }

  /** The calls of a run that stored its pause. */
  function NextPaused(s: State, r: nat, plan: Plan, move: Move): State
    requires r in s.runs
  {
    var run := s.runs[r];
    match move
    case Suspend(key) =>
      if run.pos == Held && !run.stored.resumed && key in plan.suspend && key in s.suspends then s.(suspends := s.suspends[key := true]) else s
    case ScaleDown(x) =>
      if run.pos == Held && !run.stored.resumed && x in plan.counts && x in s.apps then SetReplicas(s, x, 0) else s
    case StoreResume =>
      if (run.pos == Begun || run.pos == Held) && !run.stored.marks
      then SetRecord(s, r, run.stored.(resumed := true), Resuming({}, {})) else s
    case ScaleUp(x) =>
      if run.pos.Resuming? && x in plan.counts && x in s.apps
      then SetPos(SetReplicas(s, x, plan.counts[x]), r, run.pos.(scaled := run.pos.scaled + {x})) else s
    case Unsuspend(key) =>
      if run.pos.Resuming? && run.pos.scaled == plan.counts.Keys && key in plan.suspend && key in s.suspends
      then SetPos(s.(suspends := s.suspends[key := false]), r, run.pos.(released := run.pos.released + {key})) else s
    case Mark =>
      if run.pos.Resuming? && run.pos.scaled == plan.counts.Keys && run.pos.released == plan.suspend then SetPos(s, r, Back) else s
    case StoreMarks => if run.pos == Back then SetRecord(s, r, run.stored.(marks := true), Back) else s
    case _ => NextEnd(s, r, move)
  }

  /** release and finish: the Leases go back first, then the phase is stored. */
  function NextEnd(s: State, r: nat, move: Move): State
    requires r in s.runs
  {
    var run := s.runs[r];
    var settled := run.pos == Back || ((run.pos == Begun || run.pos == Held) && (run.stored.plan.None? || run.stored.marks));
    match move
    case Release =>
      if settled then
        s.(holder := if s.holder == Some(r) then None else s.holder, runs := s.runs[r := run.(pos := Released, early := true)])
      else s
    case Finish => if run.pos == Released then SetRecord(s, r, run.stored.(finished := true), Begun) else s
    case _ => s
  }

  function Play(s: State, steps: seq<Step>): State {
    if steps == [] then s else Next(Play(s, steps[..|steps| - 1]), steps[|steps| - 1])
  }

  // ------------------------------------------------------------- what holds

  predicate AllBack(s: State) {
    (forall x :: x in s.apps ==> s.apps[x].replicas == s.apps[x].owner) && s.suspends == s.owned
  }

  predicate Init(s: State) { AllBack(s) && s.holder.None? && s.runs == map[] }

  /** Every recorded count is the owner's, and every recorded Kustomization is one
      that its owner does not suspend. */
  predicate OwnersPlan(s: State, plan: Plan) {
    && (forall x :: x in plan.counts ==> x in s.apps && plan.counts[x] == s.apps[x].owner)
    && (forall key :: key in plan.suspend ==> key in s.owned && !s.owned[key])
  }

  /** The run that may have changed something: it holds the Lease, it is not
      finished, and its stored plan says what it changed. */
  predicate Pauser(s: State) {
    s.holder.Some? && s.holder.value in s.runs && !s.runs[s.holder.value].stored.finished && s.runs[s.holder.value].stored.plan.Some?
  }

  function PauserPlan(s: State): Plan
    requires Pauser(s)
  {
    s.runs[s.holder.value].stored.plan.value
  }

  predicate OnlyThePauser(s: State) {
    && s.suspends.Keys == s.owned.Keys
    && (forall x :: x in s.apps && s.apps[x].replicas != s.apps[x].owner ==> Pauser(s) && x in PauserPlan(s).counts)
    && (forall key :: key in s.owned && s.suspends[key] != s.owned[key] ==> Pauser(s) && key in PauserPlan(s).suspend)
  }

  predicate RunInv(s: State, r: nat)
    requires r in s.runs
  {
    var run := s.runs[r];
    var mine := s.holder == Some(r);
    && (run.stored.plan.Some? ==> OwnersPlan(s, run.stored.plan.value))
    && (run.stored.plan.Some? && !run.stored.finished ==> mine || (run.early && run.stored.resumed))
    && (run.pos == Held || run.pos.Planning? ==> mine && !run.stored.finished)
    && (run.pos.Planning? ==> run.stored.plan.None? && OwnersPlan(s, run.pos.partial))
    && (run.pos.Resuming? ==> run.stored.plan.Some? && run.stored.resumed && (mine ==> GivenBack(s, run.pos)))
    && ((run.pos == Back || run.stored.marks) ==> run.stored.plan.Some? && run.stored.resumed && (mine ==> AllBack(s)))
    && (run.pos == Released ==> !mine)
  }

  predicate GivenBack(s: State, pos: Pos)
    requires pos.Resuming?
  {
    && (forall x :: x in pos.scaled ==> x in s.apps && s.apps[x].replicas == s.apps[x].owner)
    && (forall key :: key in pos.released ==> key in s.suspends && !s.suspends[key])
  }

  ghost predicate Inv(s: State) {
    OnlyThePauser(s) && forall r :: r in s.runs ==> RunInv(s, r)
  }

  // ---------------------------------------------------------------- proofs

  /** A step that leaves the workloads alone and changes one run. */
  lemma RunStepKeepsInv(s: State, s': State, r: nat)
    requires Inv(s) && r in s.runs && r in s'.runs
    requires s'.apps == s.apps && s'.suspends == s.suspends && s'.owned == s.owned
    requires s'.runs == s.runs[r := s'.runs[r]]
    requires s'.holder == s.holder || s'.holder == Some(r) || (s'.holder.None? && s.holder == Some(r))
    requires s'.holder != s.holder ==> AllBack(s) && forall q :: q in s.runs && q != r ==> s.holder != Some(q) || s.runs[q].stored.finished
    requires OnlyThePauser(s') && RunInv(s', r)
    ensures Inv(s')
  {
    forall q | q in s'.runs ensures RunInv(s', q) {
      if q != r { assert RunInv(s, q); }
    }
  }

  lemma RunKeeps(s: State, r: nat)
    requires Inv(s) && r in s.runs
    ensures RunInv(s, r)
    ensures s.holder == Some(r) && s.runs[r].stored.plan.None? ==> AllBack(s)
    ensures s.holder.None? ==> AllBack(s)
    ensures s.holder.Some? && (s.holder.value !in s.runs || s.runs[s.holder.value].stored.finished) ==> AllBack(s)
  {
  }

  lemma HasOnlyThePauser(s: State)
    requires Inv(s)
    ensures OnlyThePauser(s)
  {
  }

  /** A move to a place that says nothing about the workloads. */
  lemma PosKeepsInv(s: State, r: nat, pos: Pos)
    requires Inv(s) && r in s.runs && !s.runs[r].stored.finished && RunInv(SetPos(s, r, pos), r)
    ensures Inv(SetPos(s, r, pos))
  {
    hide Inv, RunInv;
    HasOnlyThePauser(s);
    RunStepKeepsInv(s, SetPos(s, r, pos), r);
  }

  lemma TakeKeepsInv(s: State, r: nat)
    requires Inv(s) && r in s.runs && !s.runs[r].stored.finished && s.runs[r].pos == Begun && Free(s, r)
    ensures Inv(SetPos(s, r, Held).(holder := Some(r)))
  {
    hide Inv;
    RunKeeps(s, r);
    HasOnlyThePauser(s);
    RunStepKeepsInv(s, SetPos(s, r, Held).(holder := Some(r)), r);
  }

  lemma StorePlanKeepsInv(s: State, r: nat)
    requires Inv(s) && r in s.runs && !s.runs[r].stored.finished && s.runs[r].pos.Planning?
    ensures Inv(SetRecord(s, r, s.runs[r].stored.(plan := Some(s.runs[r].pos.partial)), Held))
  {
    hide Inv;
    RunKeeps(s, r);
    HasOnlyThePauser(s);
    RunStepKeepsInv(s, SetRecord(s, r, s.runs[r].stored.(plan := Some(s.runs[r].pos.partial)), Held), r);
  }

  lemma StoreResumeKeepsInv(s: State, r: nat)
    requires Inv(s) && r in s.runs && !s.runs[r].stored.finished && (s.runs[r].pos == Begun || s.runs[r].pos == Held) && s.runs[r].stored.plan.Some?
    ensures Inv(SetRecord(s, r, s.runs[r].stored.(resumed := true), Resuming({}, {})))
  {
    hide Inv;
    RunKeeps(s, r);
    HasOnlyThePauser(s);
    RunStepKeepsInv(s, SetRecord(s, r, s.runs[r].stored.(resumed := true), Resuming({}, {})), r);
  }

  lemma StoreMarksKeepsInv(s: State, r: nat)
    requires Inv(s) && r in s.runs && !s.runs[r].stored.finished && s.runs[r].pos == Back
    ensures Inv(SetRecord(s, r, s.runs[r].stored.(marks := true), Back))
  {
    hide Inv;
    RunKeeps(s, r);
    HasOnlyThePauser(s);
    RunStepKeepsInv(s, SetRecord(s, r, s.runs[r].stored.(marks := true), Back), r);
  }

  lemma FinishKeepsInv(s: State, r: nat)
    requires Inv(s) && r in s.runs && !s.runs[r].stored.finished && s.runs[r].pos == Released
    ensures Inv(SetRecord(s, r, s.runs[r].stored.(finished := true), Begun))
  {
    hide Inv;
    RunKeeps(s, r);
    HasOnlyThePauser(s);
    RunStepKeepsInv(s, SetRecord(s, r, s.runs[r].stored.(finished := true), Begun), r);
  }

  /** Once a pass gave everything back, the holder left nothing changed. */
  lemma MarkedIsBack(s: State, r: nat)
    requires Inv(s) && r in s.runs && s.runs[r].pos.Resuming? && s.runs[r].stored.plan.Some?
    requires s.runs[r].pos.scaled == s.runs[r].stored.plan.value.counts.Keys && s.runs[r].pos.released == s.runs[r].stored.plan.value.suspend
    ensures s.holder == Some(r) && !s.runs[r].stored.finished ==> AllBack(s)
  {
    assert RunInv(s, r);
  }

  /** Only a run that gave everything back releases the Lease. */
  lemma ReleaseKeepsInv(s: State, r: nat)
    requires Inv(s) && r in s.runs && !s.runs[r].stored.finished
    ensures Inv(NextEnd(s, r, Release))
  {
    hide Inv;
    RunKeeps(s, r);
    HasOnlyThePauser(s);
    var s' := NextEnd(s, r, Release);
    if s' != s {
      assert s.holder == Some(r) ==> AllBack(s);
      RunStepKeepsInv(s, s', r);
    }
  }

  /** A write to the workloads, judged run by run. */
  lemma FieldStepKeepsInv(s: State, s': State)
    requires Inv(s) && s'.holder == s.holder && s'.owned == s.owned && s'.apps.Keys == s.apps.Keys
    requires forall x :: x in s.apps ==> s'.apps[x].owner == s.apps[x].owner
    requires s'.runs.Keys == s.runs.Keys && forall q :: q in s.runs && s.holder != Some(q) ==> s'.runs[q] == s.runs[q]
    requires OnlyThePauser(s') && (s.holder.Some? && s.holder.value in s.runs ==> RunInv(s', s.holder.value))
    ensures Inv(s')
  {
    forall q | q in s'.runs ensures RunInv(s', q) {
      assert RunInv(s, q);
    }
  }

  lemma PauseKeepsInv(s: State, r: nat, move: Move)
    requires Inv(s) && r in s.runs && !s.runs[r].stored.finished && s.runs[r].stored.plan.Some? && (move.Suspend? || move.ScaleDown?)
    ensures Inv(NextPaused(s, r, s.runs[r].stored.plan.value, move))
  {
    hide Inv;
    RunKeeps(s, r);
    HasOnlyThePauser(s);
    var s' := NextPaused(s, r, s.runs[r].stored.plan.value, move);
    if s' != s { FieldStepKeepsInv(s, s'); }
  }

  /** Giving back what the owner wants hurts nobody's record. */
  lemma OwnersValueKeepsInv(s: State, s': State)
    requires Inv(s) && s'.holder == s.holder && s'.owned == s.owned && s'.apps.Keys == s.apps.Keys && s'.runs == s.runs
    requires s'.suspends.Keys == s.suspends.Keys
    requires forall x :: x in s.apps ==> s'.apps[x] == s.apps[x] || s'.apps[x] == s.apps[x].(replicas := s.apps[x].owner)
    requires forall key :: key in s.owned ==> key in s.suspends && (s'.suspends[key] == s.suspends[key] || (s'.suspends[key] == s.owned[key] && !s.owned[key]))
    ensures Inv(s')
  {
    assert AllBack(s) ==> AllBack(s');
    forall q | q in s'.runs ensures RunInv(s', q) {
      assert RunInv(s, q);
    }
  }

  lemma ScaleUpKeepsInv(s: State, r: nat, x: string)
    requires Inv(s) && r in s.runs && !s.runs[r].stored.finished && s.runs[r].stored.plan.Some?
    ensures Inv(NextPaused(s, r, s.runs[r].stored.plan.value, ScaleUp(x)))
  {
    hide Inv;
    RunKeeps(s, r);
    var run, s' := s.runs[r], NextPaused(s, r, s.runs[r].stored.plan.value, ScaleUp(x));
    if s' != s {
      var v := SetReplicas(s, x, run.stored.plan.value.counts[x]);
      HasOnlyThePauser(s);
      OwnersValueKeepsInv(s, v);
      RunKeeps(v, r);
      PosKeepsInv(v, r, run.pos.(scaled := run.pos.scaled + {x}));
    }
  }

  lemma UnsuspendKeepsInv(s: State, r: nat, key: string)
    requires Inv(s) && r in s.runs && !s.runs[r].stored.finished && s.runs[r].stored.plan.Some?
    ensures Inv(NextPaused(s, r, s.runs[r].stored.plan.value, Unsuspend(key)))
  {
    hide Inv;
    RunKeeps(s, r);
    var run, s' := s.runs[r], NextPaused(s, r, s.runs[r].stored.plan.value, Unsuspend(key));
    if s' != s {
      var v := s.(suspends := s.suspends[key := false]);
      HasOnlyThePauser(s);
      OwnersValueKeepsInv(s, v);
      RunKeeps(v, r);
      PosKeepsInv(v, r, run.pos.(released := run.pos.released + {key}));
    }
  }

  lemma PlanningKeepsInv(s: State, r: nat, move: Move)
    requires Inv(s) && r in s.runs && !s.runs[r].stored.finished && (move.StartPlan? || move.ReadWorkload? || move.ReadKustomization?)
    ensures Inv(NextMove(s, r, move))
  {
    hide Inv;
    RunKeeps(s, r);
    HasOnlyThePauser(s);
    var s' := NextMove(s, r, move);
    if s' != s { PosKeepsInv(s, r, s'.runs[r].pos); }
  }

  lemma PausedMoveKeepsInv(s: State, r: nat, move: Move)
    requires Inv(s) && r in s.runs && !s.runs[r].stored.finished && s.runs[r].stored.plan.Some?
    ensures Inv(NextPaused(s, r, s.runs[r].stored.plan.value, move))
  {
    hide Inv, RunInv;
    var s', run := NextPaused(s, r, s.runs[r].stored.plan.value, move), s.runs[r];
    if s' != s {
      match move
      case Suspend(_) => PauseKeepsInv(s, r, move);
      case ScaleDown(_) => PauseKeepsInv(s, r, move);
      case StoreResume => StoreResumeKeepsInv(s, r);
      case ScaleUp(x) => ScaleUpKeepsInv(s, r, x);
      case Unsuspend(key) => UnsuspendKeepsInv(s, r, key);
      case Mark =>
        MarkKeepsInv(s, r);
      case StoreMarks => StoreMarksKeepsInv(s, r);
      case Release => ReleaseKeepsInv(s, r);
      case Finish => FinishKeepsInv(s, r);
      case _ =>
    }
  }

  lemma MarkKeepsInv(s: State, r: nat)
    requires Inv(s) && r in s.runs && !s.runs[r].stored.finished && s.runs[r].pos.Resuming? && s.runs[r].stored.plan.Some?
    requires s.runs[r].pos.scaled == s.runs[r].stored.plan.value.counts.Keys && s.runs[r].pos.released == s.runs[r].stored.plan.value.suspend
    ensures Inv(SetPos(s, r, Back))
  {
    hide Inv;
    MarkedIsBack(s, r);
    RunKeeps(s, r);
    PosKeepsInv(s, r, Back);
  }

  lemma RestartKeepsInv(s: State, r: nat)
    requires Inv(s) && r in s.runs && !s.runs[r].stored.finished
    ensures Inv(SetPos(s, r, Begun))
  {
    hide Inv;
    RunKeeps(s, r);
    PosKeepsInv(s, r, Begun);
  }

  lemma MoveKeepsInv(s: State, r: nat, move: Move)
    requires Inv(s) && r in s.runs && !s.runs[r].stored.finished
    ensures Inv(NextMove(s, r, move))
  {
    hide Inv, RunInv, NextPaused;
    var s' := NextMove(s, r, move);
    if s' != s {
      match move
      case Restart => RestartKeepsInv(s, r);
      case Take => TakeKeepsInv(s, r);
      case StartPlan => PlanningKeepsInv(s, r, move);
      case ReadWorkload(_) => PlanningKeepsInv(s, r, move);
      case ReadKustomization(_) => PlanningKeepsInv(s, r, move);
      case StorePlan => StorePlanKeepsInv(s, r);
      case _ =>
        if s.runs[r].stored.plan.Some? { PausedMoveKeepsInv(s, r, move); }
        else if move == Release { ReleaseKeepsInv(s, r); }
        else if move == Finish { FinishKeepsInv(s, r); }
    }
  }

  lemma NewRunKeepsInv(s: State, r: nat, targets: set<string>)
    requires Inv(s)
    ensures Inv(Next(s, NewRun(r, targets)))
  {
    var s' := Next(s, NewRun(r, targets));
    forall q | q in s'.runs ensures RunInv(s', q) {
      if q in s.runs { assert RunInv(s, q); }
    }
  }

  lemma StepKeepsInv(s: State, step: Step)
    requires Inv(s)
    ensures Inv(Next(s, step))
  {
    match step
    case NewRun(r, targets) => NewRunKeepsInv(s, r, targets);
    case Flux(x) => if x in s.apps && Applied(s, x) { OwnersValueKeepsInv(s, SetReplicas(s, x, s.apps[x].owner)); }
    case Act(r, move) => if r in s.runs && !s.runs[r].stored.finished { MoveKeepsInv(s, r, move); }
  }

  lemma {:induction false} PlayKeepsInv(s: State, steps: seq<Step>)
    requires Init(s)
    ensures Inv(Play(s, steps))
  {
    if steps != [] {
      PlayKeepsInv(s, steps[..|steps| - 1]);
      StepKeepsInv(Play(s, steps[..|steps| - 1]), steps[|steps| - 1]);
    }
  }

  // ----------------------------------------------------------- conservation

  predicate SameOwners(s: State, s': State) {
    && s'.owned == s.owned && s'.apps.Keys == s.apps.Keys
    && forall x :: x in s.apps ==> s'.apps[x].owner == s.apps[x].owner && s'.apps[x].flux == s.apps[x].flux
  }

  lemma PausedKeepsOwners(s: State, r: nat, plan: Plan, move: Move)
    requires r in s.runs
    ensures SameOwners(s, NextPaused(s, r, plan, move))
  {
    hide Free, Applied;
  }

  lemma StepKeepsOwners(s: State, step: Step)
    ensures SameOwners(s, Next(s, step))
  {
    hide NextPaused;
    if step.Act? && step.r in s.runs && s.runs[step.r].stored.plan.Some? {
      PausedKeepsOwners(s, step.r, s.runs[step.r].stored.plan.value, step.move);
    }
  }

  lemma {:induction false} OwnersStay(s: State, steps: seq<Step>)
    ensures SameOwners(s, Play(s, steps))
  {
    hide Next;
    if steps != [] {
      OwnersStay(s, steps[..|steps| - 1]);
      StepKeepsOwners(Play(s, steps[..|steps| - 1]), steps[|steps| - 1]);
    }
  }

  /** In every interleaving, each recorded count is what the owner wants, never
      a zero that some run caused, and once every run has ended each workload
      and each Kustomization is as it was before the first one. */
  lemma Conservation(s: State, steps: seq<Step>)
    requires Init(s)
    ensures var e := Play(s, steps);
            && (forall r :: r in e.runs && e.runs[r].stored.plan.Some? ==>
                  && (forall x :: x in e.runs[r].stored.plan.value.counts ==> x in s.apps && e.runs[r].stored.plan.value.counts[x] == s.apps[x].replicas)
                  && (forall key :: key in e.runs[r].stored.plan.value.suspend ==> key in s.suspends && !s.suspends[key]))
            && ((forall r :: r in e.runs ==> e.runs[r].stored.finished) ==> e.apps == s.apps && e.suspends == s.suspends)
  {
    PlayKeepsInv(s, steps);
    OwnersStay(s, steps);
    var e := Play(s, steps);
    assert forall r :: r in e.runs ==> RunInv(e, r);
    if forall r :: r in e.runs ==> e.runs[r].stored.finished {
      assert !Pauser(e);
      forall x | x in s.apps ensures e.apps[x] == s.apps[x] { }
    }
  }

  /** Apart from the window in which a run gave its Leases back and its terminal
      phase is not stored, a run that gives back holds the Lease, so it touches
      no pause of another run. */
  lemma OnlyTheWindowTouches(s: State, steps: seq<Step>, r: nat)
    requires Init(s) && r in Play(s, steps).runs
    ensures var e := Play(s, steps);
            e.runs[r].pos.Resuming? && !e.runs[r].stored.finished ==> e.holder == Some(r) || e.runs[r].early
  {
    PlayKeepsInv(s, steps);
    assert RunInv(Play(s, steps), r);
  }

  // ----------------------------------------------------- one run undisturbed

  /** Calls of the run alone lead from one state to the other. */
  ghost predicate Own(s: State, e: State, r: nat) {
    exists steps: seq<Step> :: Play(s, steps) == e && forall i :: 0 <= i < |steps| ==> steps[i].Act? && steps[i].r == r
  }

  lemma OwnOn(s: State, e: State, r: nat, move: Move)
    requires Own(s, e, r)
    ensures Own(s, Next(e, Act(r, move)), r)
  {
    var steps: seq<Step> :| Play(s, steps) == e && forall i :: 0 <= i < |steps| ==> steps[i].Act? && steps[i].r == r;
    Extend(s, steps, Act(r, move));
    assert Play(s, steps + [Act(r, move)]) == Next(e, Act(r, move));
  }

  lemma OwnStarts(s: State, r: nat)
    ensures Own(s, s, r)
  {
    assert Play(s, []) == s;
  }

  /** The state with another record and place of one run. */
  function At(s: State, r: nat, run: Run): State { s.(holder := Some(r), runs := s.runs[r := run]) }

  /** The first half of a run: it reads its targets and stores the plan. */
  lemma Plans(s: State, r: nat) returns (plan: Plan)
    requires r in s.runs && s.runs[r].stored == Record(None, false, false, false) && s.runs[r].pos == Begun && Free(s, r) && s.runs[r].targets <= s.apps.Keys
    ensures Own(s, At(s, r, s.runs[r].(stored := Record(Some(plan), false, false, false), pos := Held)), r)
    ensures plan.counts.Keys == s.runs[r].targets && forall x :: x in plan.counts ==> plan.counts[x] == s.apps[x].replicas
    ensures forall x :: x in plan.counts && Applied(s, x) ==> s.apps[x].flux.value in plan.suspend
    ensures plan.suspend <= s.suspends.Keys
  {
    hide Own;
    var run := s.runs[r];
    OwnStarts(s, r);
    OwnOn(s, s, r, Take);
    OwnOn(s, At(s, r, run.(pos := Held)), r, StartPlan);
    plan := Plan(map[], {});
    assert Next(At(s, r, run.(pos := Held)), Act(r, StartPlan)) == At(s, r, run.(pos := Planning(plan)));
    var left := run.targets;
    while left != {}
      invariant left <= run.targets && plan.counts.Keys == run.targets - left && plan.suspend <= s.suspends.Keys
      invariant forall x :: x in plan.counts ==> plan.counts[x] == s.apps[x].replicas && (Applied(s, x) ==> s.apps[x].flux.value in plan.suspend)
      invariant Own(s, At(s, r, run.(pos := Planning(plan))), r)
      decreases left
    {
      var x :| x in left;
      plan := ReadTarget(s, r, plan, x);
      left := left - {x};
    }
    OwnOn(s, At(s, r, run.(pos := Planning(plan))), r, StorePlan);
    assert At(s, r, run.(pos := Planning(plan))).runs[r := run.(stored := Record(Some(plan), false, false, false), pos := Held)]
        == s.runs[r := run.(stored := Record(Some(plan), false, false, false), pos := Held)];
  }

  lemma ReadTarget(s: State, r: nat, plan: Plan, x: string) returns (more: Plan)
    requires r in s.runs && !s.runs[r].stored.finished && x in s.runs[r].targets && x in s.apps
    requires Own(s, At(s, r, s.runs[r].(pos := Planning(plan))), r)
    ensures Own(s, At(s, r, s.runs[r].(pos := Planning(more))), r)
    ensures more.counts == plan.counts[x := s.apps[x].replicas]
    ensures more.suspend == if Applied(s, x) then plan.suspend + {s.apps[x].flux.value} else plan.suspend
  {
    hide Own;
    var run, e := s.runs[r], At(s, r, s.runs[r].(pos := Planning(plan)));
    more := plan.(counts := plan.counts[x := s.apps[x].replicas]);
    OwnOn(s, e, r, ReadWorkload(x));
    assert Next(e, Act(r, ReadWorkload(x))) == At(s, r, run.(pos := Planning(more)));
    e := At(s, r, run.(pos := Planning(more)));
    OwnOn(s, e, r, ReadKustomization(x));
    if Applied(s, x) {
      more := more.(suspend := more.suspend + {s.apps[x].flux.value});
      assert Next(e, Act(r, ReadKustomization(x))) == At(s, r, run.(pos := Planning(more)));
    }
  }

  /** Some calls of its own bring a run that may begin to the point where each of
      its workloads is at zero and Flux does not apply it: and back again to an
      end where everything is as its owner wants it and the Lease is free. */
  lemma RunComesAndGoes(s: State, r: nat) returns (down: State, end: State)
    requires Inv(s) && r in s.runs && s.runs[r].stored == Record(None, false, false, false) && s.runs[r].pos == Begun && Free(s, r) && s.runs[r].targets <= s.apps.Keys
    ensures Own(s, down, r) && r in down.runs && down.runs[r].pos == Held && down.runs[r].stored.plan.Some?
    ensures forall x :: x in s.runs[r].targets ==> x in down.apps && down.apps[x].replicas == 0 && !Applied(down, x)
    ensures Own(down, end, r) && r in end.runs && end.runs[r].stored.finished && AllBack(end) && end.holder.None?
  {
    hide Own, Inv;
    var plan := Plans(s, r);
    OwnKeepsInv(s, At(s, r, s.runs[r].(stored := Record(Some(plan), false, false, false), pos := Held)), r);
    down := Stops(s, At(s, r, s.runs[r].(stored := Record(Some(plan), false, false, false), pos := Held)), r, plan);
    OwnKeepsInv(s, down, r);
    end := Returns(down, r, plan);
  }

  lemma OwnKeepsInv(s: State, e: State, r: nat)
    requires Inv(s) && Own(s, e, r)
    ensures Inv(e)
  {
    hide Inv;
    var steps: seq<Step> :| Play(s, steps) == e && forall i :: 0 <= i < |steps| ==> steps[i].Act? && steps[i].r == r;
    PlayOnKeepsInv(s, steps);
  }

  lemma {:induction false} PlayOnKeepsInv(s: State, steps: seq<Step>)
    requires Inv(s)
    ensures Inv(Play(s, steps))
  {
    hide Inv, Next;
    if steps != [] {
      PlayOnKeepsInv(s, steps[..|steps| - 1]);
      StepKeepsInv(Play(s, steps[..|steps| - 1]), steps[|steps| - 1]);
    }
  }

  /** applyPause. */
  lemma Stops(s: State, from: State, r: nat, plan: Plan) returns (e: State)
    requires Own(s, from, r) && r in from.runs && from.runs[r].pos == Held && from.runs[r].stored == Record(Some(plan), false, false, false)
    requires from.holder == Some(r) && plan.counts.Keys <= from.apps.Keys && plan.suspend <= from.suspends.Keys
    requires forall x :: x in plan.counts && Applied(from, x) ==> from.apps[x].flux.value in plan.suspend
    ensures Own(s, e, r) && e.runs == from.runs && e.holder == Some(r)
    ensures forall x :: x in plan.counts ==> x in e.apps && e.apps[x].replicas == 0 && !Applied(e, x)
  {
    hide Own;
    e := from;
    var keys := plan.suspend;
    while keys != {}
      invariant keys <= plan.suspend && Own(s, e, r) && e == from.(suspends := e.suspends) && e.suspends.Keys == from.suspends.Keys
      invariant forall k :: k in from.suspends ==> (e.suspends[k] <==> from.suspends[k] || k in plan.suspend - keys)
      decreases keys
    {
      var key :| key in keys;
      OwnOn(s, e, r, Suspend(key));
      e, keys := e.(suspends := e.suspends[key := true]), keys - {key};
    }
    var stopped := e;
    assert forall x :: x in plan.counts ==> !Applied(stopped, x);
    var left := plan.counts.Keys;
    while left != {}
      invariant left <= plan.counts.Keys && Own(s, e, r) && e == stopped.(apps := e.apps) && e.apps.Keys == from.apps.Keys
      invariant forall x :: x in from.apps ==> e.apps[x] == if x in plan.counts.Keys - left then from.apps[x].(replicas := 0) else from.apps[x]
      decreases left
    {
      var x :| x in left;
      OwnOn(s, e, r, ScaleDown(x));
      e, left := SetReplicas(e, x, 0), left - {x};
    }
    forall x | x in plan.counts ensures !Applied(e, x) { assert !Applied(stopped, x); }
  }

  lemma SomeLeft(a: set<string>, b: set<string>)
    requires a <= b && a != b
    ensures b - a != {}
  {
    assert b == a + (b - a);
  }

  /** The resume, its stores and the end. */
  lemma Returns(s: State, r: nat, plan: Plan) returns (e: State)
    requires Inv(s) && r in s.runs && s.runs[r].pos == Held && s.runs[r].stored == Record(Some(plan), false, false, false) && s.holder == Some(r)
    ensures Own(s, e, r) && r in e.runs && e.runs[r].stored.finished && AllBack(e) && e.holder.None?
  {
    hide Own, Inv, NextPaused;
    RunKeeps(s, r);
    HasOnlyThePauser(s);
    OwnStarts(s, r);
    e := ScalesBack(s, r, plan);
    e := Releases(s, e, r, plan);
    e := Ends(s, e, r);
  }

  lemma ScalesBack(s: State, r: nat, plan: Plan) returns (e: State)
    requires Own(s, s, r) && r in s.runs && s.runs[r].pos == Held && s.runs[r].stored == Record(Some(plan), false, false, false) && s.holder == Some(r)
    requires plan.counts.Keys <= s.apps.Keys
    ensures Own(s, e, r) && e.suspends == s.suspends && e.holder == s.holder && r in e.runs
    ensures e.runs[r].stored == Record(Some(plan), true, false, false) && e.runs[r].pos == Resuming(plan.counts.Keys, {})
  {
    hide Own;
    OwnOn(s, s, r, StoreResume);
    var run := s.runs[r].(stored := Record(Some(plan), true, false, false));
    var none: set<string> := {};
    e := At(s, r, run.(pos := Resuming(none, none)));
    var scaled := none;
    while scaled != plan.counts.Keys
      invariant scaled <= plan.counts.Keys && Own(s, e, r) && e.apps.Keys == s.apps.Keys
      invariant e == At(s, r, run.(pos := Resuming(scaled, none))).(apps := e.apps)
      decreases plan.counts.Keys - scaled
    {
      SomeLeft(scaled, plan.counts.Keys);
      var x :| x in plan.counts.Keys - scaled;
      OwnOn(s, e, r, ScaleUp(x));
      var e' := Next(e, Act(r, ScaleUp(x)));
      scaled := scaled + {x};
      assert e'.runs == s.runs[r := run.(pos := Resuming(scaled, none))];
      e := e';
    }
  }

  lemma Releases(s: State, from: State, r: nat, plan: Plan) returns (e: State)
    requires Own(s, from, r) && r in from.runs && from.runs[r].stored == Record(Some(plan), true, false, false)
    requires from.runs[r].pos == Resuming(plan.counts.Keys, {}) && plan.suspend <= from.suspends.Keys
    ensures Own(s, e, r) && e.holder == from.holder && r in e.runs
    ensures e.runs[r].stored == from.runs[r].stored && e.runs[r].pos == Resuming(plan.counts.Keys, plan.suspend)
  {
    hide Own;
    e := from;
    var released: set<string> := {};
    while released != plan.suspend
      invariant released <= plan.suspend && Own(s, e, r) && e.suspends.Keys == from.suspends.Keys
      invariant e == SetPos(from, r, Resuming(plan.counts.Keys, released)).(suspends := e.suspends)
      decreases plan.suspend - released
    {
      SomeLeft(released, plan.suspend);
      var key :| key in plan.suspend - released;
      OwnOn(s, e, r, Unsuspend(key));
      var e' := Next(e, Act(r, Unsuspend(key)));
      released := released + {key};
      assert e'.runs == SetPos(from, r, Resuming(plan.counts.Keys, released)).runs;
      e := e';
    }
  }

  /** Mark, the store of the marks, release and finish. */
  lemma Ends(s: State, from: State, r: nat) returns (e: State)
    requires Inv(s) && Own(s, from, r) && r in from.runs && from.holder == Some(r) && !from.runs[r].stored.finished && from.runs[r].stored.plan.Some?
    requires from.runs[r].pos == Resuming(from.runs[r].stored.plan.value.counts.Keys, from.runs[r].stored.plan.value.suspend)
    ensures Own(s, e, r) && r in e.runs && e.runs[r].stored.finished && AllBack(e) && e.holder.None?
  {
    hide Own, Inv, Next;
    var run := from.runs[r];
    e := Marked(s, from, r);
    OwnOn(s, e, r, Release);
    var released := Run(run.targets, run.stored.(marks := true), Released, true);
    assert Next(e, Act(r, Release)) == e.(holder := None, runs := e.runs[r := released]) by { Settled(e, r); }
    e := e.(holder := None, runs := e.runs[r := released]);
    OwnOn(s, e, r, Finish);
    Settled(e, r);
    e := Next(e, Act(r, Finish));
    OwnKeepsInv(s, e, r);
    RunKeeps(e, r);
  }

  /** What release and finish do. */
  lemma Settled(s: State, r: nat)
    requires r in s.runs && !s.runs[r].stored.finished && s.runs[r].stored.plan.Some?
    ensures s.runs[r].pos == Back && s.holder == Some(r) ==>
              Next(s, Act(r, Release)) == s.(holder := None, runs := s.runs[r := s.runs[r].(pos := Released, early := true)])
    ensures s.runs[r].pos == Released ==> Next(s, Act(r, Finish)) == SetRecord(s, r, s.runs[r].stored.(finished := true), Begun)
  {
  }

  lemma Marked(s: State, from: State, r: nat) returns (e: State)
    requires Own(s, from, r) && r in from.runs && !from.runs[r].stored.finished && from.runs[r].stored.plan.Some?
    requires from.runs[r].pos == Resuming(from.runs[r].stored.plan.value.counts.Keys, from.runs[r].stored.plan.value.suspend)
    ensures Own(s, e, r) && e == SetRecord(from, r, from.runs[r].stored.(marks := true), Back)
  {
    hide Own;
    OwnOn(s, from, r, Mark);
    OwnOn(s, SetPos(from, r, Back), r, StoreMarks);
    e := SetRecord(from, r, from.runs[r].stored.(marks := true), Back);
    assert Next(SetPos(from, r, Back), Act(r, StoreMarks)).runs == e.runs;
  }

  // -------------------------------------------------------------- the window

  lemma Extend(s: State, steps: seq<Step>, step: Step)
    ensures Play(s, []) == s
    ensures Play(s, steps + [step]) == Next(Play(s, steps), step)
  {
    assert (steps + [step])[..|steps + [step]| - 1] == steps;
  }

  function One(replicas: nat, holder: Option<nat>, runs: map<nat, Run>): State {
    State(map["x" := App(1, replicas, None)], map[], map[], holder, runs)
  }

  function Paused(resumed: bool): Record { Record(Some(Plan(map["x" := 1], {})), resumed, false, false) }

  /** A run pauses the one workload, while every other run leaves it alone. */
  lemma OnePauses(s: State, steps: seq<Step>, r: nat, runs: map<nat, Run>) returns (more: seq<Step>)
    requires Play(s, steps) == One(1, None, runs) && r !in runs
    ensures Play(s, more) == One(0, Some(r), runs[r := Run({"x"}, Paused(false), Held, false)])
  {
    hide Play, NextPaused;
    var blank := Record(None, false, false, false);
    more := steps + [NewRun(r, {"x"})];
    Extend(s, steps, NewRun(r, {"x"}));
    assert Play(s, more) == One(1, None, runs[r := Run({"x"}, blank, Begun, false)]);
    Extend(s, more, Act(r, Take));
    more := more + [Act(r, Take)];
    assert Play(s, more) == One(1, Some(r), runs[r := Run({"x"}, blank, Held, false)]);
    Extend(s, more, Act(r, StartPlan));
    more := more + [Act(r, StartPlan)];
    assert Play(s, more) == One(1, Some(r), runs[r := Run({"x"}, blank, Planning(Plan(map[], {})), false)]);
    Extend(s, more, Act(r, ReadWorkload("x")));
    more := more + [Act(r, ReadWorkload("x"))];
    assert Play(s, more) == One(1, Some(r), runs[r := Run({"x"}, blank, Planning(Plan(map["x" := 1], {})), false)]);
    Extend(s, more, Act(r, StorePlan));
    more := more + [Act(r, StorePlan)];
    assert Play(s, more) == One(1, Some(r), runs[r := Run({"x"}, Paused(false), Held, false)]);
    Extend(s, more, Act(r, ScaleDown("x")));
    more := more + [Act(r, ScaleDown("x"))];
    OneScales(1, Some(r), runs, r, Run({"x"}, Paused(false), Held, false));
  }

  lemma OneScales(n: nat, holder: Option<nat>, runs: map<nat, Run>, r: nat, run: Run)
    requires run.stored == Paused(run.stored.resumed)
    ensures run.pos == Held && !run.stored.resumed ==>
              Next(One(n, holder, runs[r := run]), Act(r, ScaleDown("x"))) == One(0, holder, runs[r := run])
    ensures run.pos == Resuming({}, {}) ==>
              Next(One(n, holder, runs[r := run]), Act(r, ScaleUp("x"))) == One(1, holder, runs[r := run.(pos := Resuming({"x"}, {}))])
  {
    var none: set<string> := {};
    assert none + {"x"} == {"x"};
  }

  lemma OneStores(n: nat, holder: Option<nat>, runs: map<nat, Run>, r: nat, run: Run)
    requires run.stored == Paused(run.stored.resumed) && (run.pos == Held || run.pos == Begun)
    ensures Next(One(n, holder, runs[r := run]), Act(r, StoreResume)) ==
            One(n, holder, runs[r := run.(stored := Paused(true), pos := Resuming({}, {}))])
  {
  }

  /** A run that stored its pause stores the resume and scales back. */
  lemma OneResumes(s: State, steps: seq<Step>, r: nat, replicas: nat, holder: Option<nat>, runs: map<nat, Run>, run: Run) returns (more: seq<Step>)
    requires Play(s, steps) == One(replicas, holder, runs[r := run]) && run.stored == Paused(run.stored.resumed)
    requires run.pos == Held || run.pos == Begun
    ensures Play(s, more) == One(1, holder, runs[r := run.(stored := Paused(true), pos := Resuming({"x"}, {}))])
  {
    hide Play, Next;
    Extend(s, steps, Act(r, StoreResume));
    more := steps + [Act(r, StoreResume)];
    OneStores(replicas, holder, runs, r, run);
    OneScales(replicas, holder, runs, r, run.(stored := Paused(true), pos := Resuming({}, {})));
    Extend(s, more, Act(r, ScaleUp("x")));
    more := more + [Act(r, ScaleUp("x"))];
  }

  /** The window is real: the first run released its Leases and lost its last
      write. The second run pauses, and the first one, timed out, scales the
      workload of the second back up. */
  lemma WindowTouchesAPause() returns (steps: seq<Step>)
    ensures Init(One(1, None, map[]))
    ensures var e := Play(One(1, None, map[]), steps);
            && e.holder == Some(2) && 2 in e.runs && e.runs[2].pos == Held && e.runs[2].stored == Paused(false)
            && "x" in e.apps && e.apps["x"].replicas == 1
  {
    hide Play, Next;
    var s := One(1, None, map[]);
    Extend(s, [], Flux("x"));
    steps := OnePauses(s, [], 1, map[]);
    var run := Run({"x"}, Paused(false), Held, false);
    steps := OneResumes(s, steps, 1, 0, Some(1), map[], run);
    var resumed := run.(stored := Paused(true), pos := Resuming({"x"}, {}));
    steps := OneReleases(s, steps, resumed);
    var again := resumed.(pos := Begun, early := true);
    steps := OnePauses(s, steps, 2, map[1 := again]);
    assert map[1 := again][2 := run] == map[2 := run][1 := again];
    steps := OneResumes(s, steps, 1, 0, Some(2), map[2 := run], again);
  }

  /** The run releases its Lease; the write of its terminal phase fails. */
  lemma OneReleases(s: State, steps: seq<Step>, run: Run) returns (more: seq<Step>)
    requires Play(s, steps) == One(1, Some(1), map[1 := run]) && run.stored == Paused(true) && run.pos == Resuming({"x"}, {})
    ensures Play(s, more) == One(1, None, map[1 := run.(pos := Begun, early := true)])
  {
    hide Play;
    Extend(s, steps, Act(1, Mark));
    more := steps + [Act(1, Mark)];
    assert Play(s, more) == One(1, Some(1), map[1 := run.(pos := Back)]);
    Extend(s, more, Act(1, Release));
    more := more + [Act(1, Release)];
    assert Play(s, more) == One(1, None, map[1 := run.(pos := Released, early := true)]);
    Extend(s, more, Act(1, Restart));
    more := more + [Act(1, Restart)];
  }
}

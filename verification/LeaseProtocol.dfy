/**
 The Lease protocol of the runs, as a state machine over single API calls.

 The API server holds the Leases, each with a resourceVersion that is new on
 every write. Any number of runs interleave their calls, and a call may fail
 before or after it took effect. A run keeps its position in a pass in memory;
 BeginPass drops it, which is also what a stop of the process does.
 */
module LeaseProtocol {
  import opened Common
  import opened Holders
  import opened LeaseNames

  datatype Lease = Lease(identity: string, rv: nat)

  /** Where a run stands inside Take or Release. A pass that has to wait, or
      that met an error, is Over. */
  datatype Op =
    | Idle
    | Over
    | Reading
    | Judging(owner: Holder, rv: nat)
    | Writing(owner: Holder, rv: nat)
    | Dropping(name: LeaseName, rv: nat)

  /** A run: the Leases it takes in order, the next one of this pass, how many
      it took in a row so far, and whether it was stopped while it gave its
      Leases back, so that it may hold a later one without an earlier one. */
  datatype Run = Run(names: seq<LeaseName>, pos: nat, reach: nat, op: Op, partway: bool)

  /** `took` holds each (run, Lease) that Take answered with true and for which
      no Release began since. `runs` holds every run there ever was. */
  datatype State = State(
    leases: map<LeaseName, Lease>,
    nextRv: nat,
    runs: map<Holder, Run>,
    live: set<Holder>,
    took: set<(Holder, LeaseName)>)

  datatype Call =
    | Start(names: seq<LeaseName>)
    | End
    | BeginPass
    | Create(fault: Fault)
    | Read(fault: Fault)
    | Judge(fault: Fault)
    | Write(fault: Fault)
    | ReleaseRead(name: LeaseName, fault: Fault)
    | ReleaseDelete(fault: Fault)

  datatype Action = Action(who: Holder, call: Call)

  predicate Holds(s: State, h: Holder, n: LeaseName) {
    n in s.leases && s.leases[n].identity == Identity(h)
  }

  predicate Named(s: State, h: Holder) {
    exists n :: n in s.leases && s.leases[n].identity == Identity(h)
  }

  function SetOp(s: State, h: Holder, op: Op): State
    requires h in s.runs
  {
    s.(runs := s.runs[h := s.runs[h].(op := op)])
  }

  /** The server stores the run's identity under the Lease's name. */
  function Stored(s: State, h: Holder, n: LeaseName): State {
    s.(leases := s.leases[n := Lease(Identity(h), s.nextRv)], nextRv := s.nextRv + 1)
  }

  /** Take answers true: the run goes on to its next Lease. */
  function Taken(s: State, h: Holder): State
    requires h in s.runs && s.runs[h].pos < |s.runs[h].names|
  {
    var r := s.runs[h];
    s.(took := s.took + {(h, r.names[r.pos])},
       runs := s.runs[h := r.(pos := r.pos + 1, op := Idle, reach := if r.pos == r.reach then r.pos + 1 else r.reach)])
  }

  /** One call of a run. A call the run can't make where it stands changes
      nothing. */
  function Next(s: State, a: Action): State {
    var h := a.who;
    if a.call.Start? then
      if h in s.runs || !WellFormed(h) || Named(s, h) then s
      else s.(runs := s.runs[h := Run(a.call.names, 0, 0, Over, false)], live := s.live + {h})
    else if h !in s.runs then s
    else
      match a.call
      case End => s.(live := s.live - {h})
      case BeginPass => NextBegin(s, h)
      case Create(fault) => NextCreate(s, h, fault)
      case Read(fault) => NextRead(s, h, fault)
      case Judge(fault) => NextJudge(s, h, fault)
      case Write(fault) => NextWrite(s, h, fault)
      case ReleaseRead(n, fault) => NextReleaseRead(s, h, n, fault)
      case ReleaseDelete(fault) => NextReleaseDelete(s, h, fault)
  }

  function NextBegin(s: State, h: Holder): State
    requires h in s.runs
  {
    var r := s.runs[h];
    s.(runs := s.runs[h := if Named(s, h) then r.(pos := 0, op := Idle) else Run(r.names, 0, 0, Idle, false)])
  }

  function NextCreate(s: State, h: Holder, fault: Fault): State
    requires h in s.runs
  {
    var r := s.runs[h];
    if r.op != Idle || r.pos >= |r.names| then s
    else if fault.FailsBefore? then SetOp(s, h, Over)
    else if r.names[r.pos] in s.leases then
      SetOp(s, h, if fault.NoFault? then Reading else Over)
    else
      var s' := Stored(s, h, r.names[r.pos]);
      if fault.NoFault? then Taken(s', h) else SetOp(s', h, Over)
  }

  function NextRead(s: State, h: Holder, fault: Fault): State
    requires h in s.runs
  {
    var r := s.runs[h];
    if r.op != Reading || r.pos >= |r.names| then s
    else if !fault.NoFault? || r.names[r.pos] !in s.leases then SetOp(s, h, Over)
    else
      var lease := s.leases[r.names[r.pos]];
      var owner := ParseHolder(lease.identity);
      if lease.identity == Identity(h) then Taken(s, h)
      else if owner.None? then SetOp(s, h, Over)
      else SetOp(s, h, Judging(owner.value, lease.rv))
  }

  function NextJudge(s: State, h: Holder, fault: Fault): State
    requires h in s.runs
  {
    var op := s.runs[h].op;
    if !op.Judging? then s
    else if !fault.NoFault? || op.owner in s.live then SetOp(s, h, Over)
    else SetOp(s, h, Writing(op.owner, op.rv))
  }

  function NextWrite(s: State, h: Holder, fault: Fault): State
    requires h in s.runs
  {
    var r := s.runs[h];
    if !r.op.Writing? || r.pos >= |r.names| then s
    else
      var n := r.names[r.pos];
      if fault.FailsBefore? || n !in s.leases || s.leases[n].rv != r.op.rv then SetOp(s, h, Over)
      else
        var s' := Stored(s, h, n);
        if fault.NoFault? then Taken(s', h) else SetOp(s', h, Over)
  }

  function NextReleaseRead(s: State, h: Holder, n: LeaseName, fault: Fault): State
    requires h in s.runs
  {
    var r := s.runs[h];
    if r.op != Idle then s
    else
      var op :=
        if !fault.NoFault? then Over
        else if Holds(s, h, n) then Dropping(n, s.leases[n].rv)
        else Idle;
      s.(took := s.took - {(h, n)}, runs := s.runs[h := r.(op := op, partway := true)])
  }

  function NextReleaseDelete(s: State, h: Holder, fault: Fault): State
    requires h in s.runs
  {
    var op := s.runs[h].op;
    if !op.Dropping? then s
    else if fault.FailsBefore? then SetOp(s, h, Over)
    else
      var s' := if op.name in s.leases && s.leases[op.name].rv == op.rv then s.(leases := s.leases - {op.name}) else s;
      SetOp(s', h, if fault.NoFault? then Idle else Over)
  }

  function Play(s: State, actions: seq<Action>): State {
    if actions == [] then s
    else Next(Play(s, actions[..|actions| - 1]), actions[|actions| - 1])
  }

  /** No run exists yet. The Leases on the server are arbitrary. */
  predicate Init(s: State) {
    && s.runs == map[] && s.live == {} && s.took == {}
    && forall n :: n in s.leases ==> s.leases[n].rv < s.nextRv
  }

  /** While the Lease still has the version the run read, the server's Lease is
      the one the run decided on. */
  ghost predicate OpSound(s: State, h: Holder)
    requires h in s.runs
  {
    var r := s.runs[h];
    match r.op
    case Idle => true
    case Over => true
    case Reading => r.pos < |r.names|
    case Judging(owner, rv) =>
      && r.pos < |r.names| && rv < s.nextRv && WellFormed(owner)
      && (At(s, r.names[r.pos], rv) ==> s.leases[r.names[r.pos]].identity == Identity(owner))
    case Writing(owner, rv) =>
      && r.pos < |r.names| && rv < s.nextRv && WellFormed(owner)
      && (At(s, r.names[r.pos], rv) ==> s.leases[r.names[r.pos]].identity == Identity(owner) && owner !in s.live)
    case Dropping(n, rv) =>
      && rv < s.nextRv && (h, n) !in s.took && r.partway
      && (At(s, n, rv) ==> s.leases[n].identity == Identity(h))
  }

  predicate At(s: State, n: LeaseName, rv: nat) {
    n in s.leases && s.leases[n].rv == rv
  }

  /** The Leases a run took in a row, and the next one. */
  function Sofar(r: Run): seq<LeaseName> {
    if r.reach < |r.names| then r.names[..r.reach + 1] else r.names
  }

  /** A run that gave nothing back yet holds a prefix of its Leases, in order,
      and at most the next one besides, when the answer of its create was lost. */
  ghost predicate InOrder(s: State, h: Holder)
    requires h in s.runs
  {
    var r := s.runs[h];
    && r.pos <= r.reach <= |r.names|
    && (forall i :: 0 <= i < r.reach ==> (h, r.names[i]) in s.took)
    && (forall n :: n in s.leases && s.leases[n].identity == Identity(h) ==> n in Sofar(r))
  }

  /** What the protocol keeps for one run. */
  ghost predicate InvOf(s: State, h: Holder)
    requires h in s.runs
  {
    && WellFormed(h)
    && OpSound(s, h)
    && (h in s.live ==> forall n :: (h, n) in s.took ==> Holds(s, h, n))
    && (h in s.live && !s.runs[h].partway ==> InOrder(s, h))
  }

  ghost predicate Inv(s: State) {
    && s.live <= s.runs.Keys
    && (forall n :: n in s.leases ==> s.leases[n].rv < s.nextRv)
    && (forall h, n :: (h, n) in s.took ==> h in s.runs)
    && (forall h :: h in s.runs ==> InvOf(s, h))
  }

  /** The change of one Lease that a call of run h may make: none, a write of
      its own identity over no live run's Lease, or the delete of its own. */
  ghost predicate OwnLeaseChange(s: State, s': State, h: Holder, n: LeaseName) {
    || (n !in s.leases && n !in s'.leases)
    || (n in s.leases && n in s'.leases && s'.leases[n] == s.leases[n])
    || (n in s'.leases && s'.leases[n].identity == Identity(h) && s'.leases[n].rv >= s.nextRv
        && forall g :: g in s.live && g != h ==> !Holds(s, g, n))
    || (n !in s'.leases && Holds(s, h, n))
  }

  /** What a call of run h leaves alone. */
  ghost predicate OwnChange(s: State, s': State, h: Holder) {
    && (forall g :: g in s.runs && g != h ==> g in s'.runs && s'.runs[g] == s.runs[g])
    && (forall g :: g in s'.runs && g != h ==> g in s.runs)
    && (forall g :: g != h ==> (g in s'.live <==> g in s.live))
    && (h in s'.live && h !in s.live ==> !Named(s, h))
    && s'.nextRv >= s.nextRv
    && (forall g, n :: g != h ==> ((g, n) in s'.took <==> (g, n) in s.took))
    && (forall n :: OwnLeaseChange(s, s', h, n))
  }

  lemma OthersKeep(s: State, s': State, h: Holder, g: Holder)
    requires Inv(s) && OwnChange(s, s', h) && WellFormed(h) && g in s.runs && g != h
    ensures InvOf(s', g)
    ensures forall n :: Holds(s', g, n) ==> Holds(s, g, n)
  {
    assert InvOf(s, g);
    Distinct(g, h);
    forall n | n in s'.leases && s'.leases[n].identity == Identity(g)
      ensures n in s.leases && s.leases[n].identity == Identity(g)
    {
      assert OwnLeaseChange(s, s', h, n);
    }
    forall n | g in s.live && Holds(s, g, n) ensures Holds(s', g, n) {
      assert OwnLeaseChange(s, s', h, n);
    }
    var r := s.runs[g];
    if r.pos < |r.names| { assert OwnLeaseChange(s, s', h, r.names[r.pos]); }
    if r.op.Dropping? { assert OwnLeaseChange(s, s', h, r.op.name); }
  }

  /** The call of run h keeps the invariant once it keeps it for run h. */
  lemma OwnChangeKeepsInv(s: State, s': State, h: Holder)
    requires Inv(s) && OwnChange(s, s', h) && WellFormed(h)
    requires h in s'.runs && InvOf(s', h)
    requires s'.live <= s'.runs.Keys
    requires forall n :: n in s'.leases ==> s'.leases[n].rv < s'.nextRv
    requires forall n :: (h, n) in s'.took ==> h in s'.runs
    ensures Inv(s')
  {
    forall g | g in s'.runs ensures InvOf(s', g) {
      if g != h { OthersKeep(s, s', h, g); }
    }
  }

  lemma Distinct(g: Holder, h: Holder)
    requires WellFormed(g) && WellFormed(h) && g != h
    ensures Identity(g) != Identity(h)
  {
    if Identity(g) == Identity(h) { IdentityInjective(g, h); }
  }

  lemma TakenKeepsInvOf(s: State, h: Holder)
    requires h in s.runs && WellFormed(h)
    requires h in s.live ==> forall n :: (h, n) in s.took ==> Holds(s, h, n)
    requires h in s.live && !s.runs[h].partway ==> InOrder(s, h)
    requires s.runs[h].pos < |s.runs[h].names| && Holds(s, h, s.runs[h].names[s.runs[h].pos])
    ensures InvOf(Taken(s, h), h)
  {
    var r, r' := s.runs[h], Taken(s, h).runs[h];
    assert r.reach <= |r.names| ==> forall n :: n in Sofar(r) ==> n in Sofar(r');
  }

  lemma StoredKeepsInvOf(s: State, h: Holder)
    requires Inv(s) && h in s.runs && s.runs[h].pos < |s.runs[h].names|
    ensures var n := s.runs[h].names[s.runs[h].pos];
            var s' := Stored(s, h, n);
            && Holds(s', h, n)
            && (h in s'.live ==> forall m :: (h, m) in s'.took ==> Holds(s', h, m))
            && (h in s'.live && !s'.runs[h].partway ==> InOrder(s', h))
  {
    assert InvOf(s, h);
    var r := s.runs[h];
    var s' := Stored(s, h, r.names[r.pos]);
    if h in s'.live && !r.partway {
      assert r.pos < |Sofar(r)| && Sofar(r)[r.pos] == r.names[r.pos];
    }
  }

  /** A write of the run's identity over no live run's Lease. */
  lemma StoreKeepsInv(s: State, h: Holder, answered: bool)
    requires Inv(s) && h in s.runs && s.runs[h].pos < |s.runs[h].names|
    requires forall g :: g in s.live && g != h ==> !Holds(s, g, s.runs[h].names[s.runs[h].pos])
    ensures var v := Stored(s, h, s.runs[h].names[s.runs[h].pos]);
            var s' := if answered then Taken(v, h) else SetOp(v, h, Over);
            Inv(s') && OwnChange(s, s', h)
  {
    assert InvOf(s, h);
    var v := Stored(s, h, s.runs[h].names[s.runs[h].pos]);
    StoredKeepsInvOf(s, h);
    if answered {
      TakenKeepsInvOf(v, h);
      OwnChangeKeepsInv(s, Taken(v, h), h);
    } else {
      OwnChangeKeepsInv(s, SetOp(v, h, Over), h);
    }
  }

  lemma CreateKeepsInv(s: State, h: Holder, fault: Fault)
    requires Inv(s) && h in s.runs
    ensures Inv(NextCreate(s, h, fault)) && OwnChange(s, NextCreate(s, h, fault), h)
  {
    var r := s.runs[h];
    if r.op == Idle && r.pos < |r.names| && !fault.FailsBefore? && r.names[r.pos] !in s.leases {
      hide Inv, OwnChange;
      StoreKeepsInv(s, h, fault.NoFault?);
    } else {
      assert InvOf(s, h);
      OwnChangeKeepsInv(s, NextCreate(s, h, fault), h);
    }
  }

  lemma ReadKeepsInv(s: State, h: Holder, fault: Fault)
    requires Inv(s) && h in s.runs
    ensures Inv(NextRead(s, h, fault)) && OwnChange(s, NextRead(s, h, fault), h)
  {
    var s', r := NextRead(s, h, fault), s.runs[h];
    assert InvOf(s, h);
    if r.op == Reading && r.pos < |r.names| && fault.NoFault? && r.names[r.pos] in s.leases {
      IdentityInvertsParse(s.leases[r.names[r.pos]].identity);
      if Holds(s, h, r.names[r.pos]) { TakenKeepsInvOf(s, h); }
    }
    OwnChangeKeepsInv(s, s', h);
  }

  /** A take-over writes over no live run's Lease. */
  lemma WritingOverDead(s: State, h: Holder)
    requires Inv(s) && h in s.runs && s.runs[h].op.Writing?
    requires s.runs[h].pos < |s.runs[h].names| && At(s, s.runs[h].names[s.runs[h].pos], s.runs[h].op.rv)
    ensures forall g :: g in s.live && g != h ==> !Holds(s, g, s.runs[h].names[s.runs[h].pos])
  {
    assert InvOf(s, h);
    var owner := s.runs[h].op.owner;
    forall g | g in s.live && g != h ensures !Holds(s, g, s.runs[h].names[s.runs[h].pos]) {
      assert InvOf(s, g);
      Distinct(g, owner);
    }
  }

  lemma WriteKeepsInv(s: State, h: Holder, fault: Fault)
    requires Inv(s) && h in s.runs
    ensures Inv(NextWrite(s, h, fault)) && OwnChange(s, NextWrite(s, h, fault), h)
  {
    var r := s.runs[h];
    assert InvOf(s, h);
    if r.op.Writing? && !fault.FailsBefore? && At(s, r.names[r.pos], r.op.rv) {
      WritingOverDead(s, h);
      StoreKeepsInv(s, h, fault.NoFault?);
    } else {
      OwnChangeKeepsInv(s, NextWrite(s, h, fault), h);
    }
  }

  lemma BeginKeepsInv(s: State, h: Holder)
    requires Inv(s) && h in s.runs
    ensures Inv(NextBegin(s, h)) && OwnChange(s, NextBegin(s, h), h)
  {
    assert InvOf(s, h);
    OwnChangeKeepsInv(s, NextBegin(s, h), h);
  }

  lemma JudgeKeepsInv(s: State, h: Holder, fault: Fault)
    requires Inv(s) && h in s.runs
    ensures Inv(NextJudge(s, h, fault)) && OwnChange(s, NextJudge(s, h, fault), h)
  {
    assert InvOf(s, h);
    OwnChangeKeepsInv(s, NextJudge(s, h, fault), h);
  }

  lemma EndKeepsInv(s: State, h: Holder)
    requires Inv(s) && h in s.runs
    ensures Inv(s.(live := s.live - {h})) && OwnChange(s, s.(live := s.live - {h}), h)
  {
    assert InvOf(s, h);
    OwnChangeKeepsInv(s, s.(live := s.live - {h}), h);
  }

  lemma StartKeepsInv(s: State, h: Holder, names: seq<LeaseName>)
    requires Inv(s)
    ensures Inv(Next(s, Action(h, Start(names)))) && OwnChange(s, Next(s, Action(h, Start(names))), h)
  {
    var s' := Next(s, Action(h, Start(names)));
    if s' != s { OwnChangeKeepsInv(s, s', h); }
  }

  lemma ReleaseReadKeepsInv(s: State, h: Holder, n: LeaseName, fault: Fault)
    requires Inv(s) && h in s.runs
    ensures Inv(NextReleaseRead(s, h, n, fault)) && OwnChange(s, NextReleaseRead(s, h, n, fault), h)
  {
    assert InvOf(s, h);
    OwnChangeKeepsInv(s, NextReleaseRead(s, h, n, fault), h);
  }

  lemma ReleaseDeleteKeepsInv(s: State, h: Holder, fault: Fault)
    requires Inv(s) && h in s.runs
    ensures Inv(NextReleaseDelete(s, h, fault)) && OwnChange(s, NextReleaseDelete(s, h, fault), h)
  {
    assert InvOf(s, h);
    OwnChangeKeepsInv(s, NextReleaseDelete(s, h, fault), h);
  }

  /** Every call of a run is its own change and keeps the invariant. */
  lemma StepKeepsInv(s: State, a: Action)
    requires Inv(s)
    ensures Inv(Next(s, a))
    ensures OwnChange(s, Next(s, a), a.who)
  {
    var h := a.who;
    if a.call.Start? {
      StartKeepsInv(s, h, a.call.names);
    } else if h in s.runs {
      match a.call
      case End => EndKeepsInv(s, h);
      case BeginPass => BeginKeepsInv(s, h);
      case Create(fault) => CreateKeepsInv(s, h, fault);
      case Read(fault) => ReadKeepsInv(s, h, fault);
      case Judge(fault) => JudgeKeepsInv(s, h, fault);
      case Write(fault) => WriteKeepsInv(s, h, fault);
      case ReleaseRead(n, fault) => ReleaseReadKeepsInv(s, h, n, fault);
      case ReleaseDelete(fault) => ReleaseDeleteKeepsInv(s, h, fault);
      case Start(_) =>
    }
  }

  /** The invariant holds after every interleaving of calls. */
  lemma {:induction false} PlayKeepsInv(s: State, actions: seq<Action>)
    requires Inv(s)
    ensures Inv(Play(s, actions))
  {
    if actions != [] {
      PlayKeepsInv(s, actions[..|actions| - 1]);
      StepKeepsInv(Play(s, actions[..|actions| - 1]), actions[|actions| - 1]);
    }
  }

  /** A Take with no other call in between answers true exactly when the Lease
      is free, is the run's own, or names a run that no longer needs it. */
  lemma TakeAlone(s: State, h: Holder)
    requires Inv(s) && h in s.runs && s.runs[h].op == Idle && s.runs[h].pos < |s.runs[h].names|
    ensures var n := s.runs[h].names[s.runs[h].pos];
            var e := NextWrite(NextJudge(NextRead(NextCreate(s, h, NoFault), h, NoFault), h, NoFault), h, NoFault);
            && h in e.runs
            && (e.runs[h].op == Idle <==>
                || n !in s.leases || s.leases[n].identity == Identity(h)
                || (ParseHolder(s.leases[n].identity).Some? && ParseHolder(s.leases[n].identity).value !in s.live))
            && (e.runs[h].op == Idle ==> (h, n) in e.took && Holds(e, h, n) && e.runs[h].pos == s.runs[h].pos + 1)
            && (e.runs[h].op != Idle ==> e.leases == s.leases && e.took == s.took)
  {
    var n := s.runs[h].names[s.runs[h].pos];
    var s1 := NextCreate(s, h, NoFault);
    var s2 := NextRead(s1, h, NoFault);
    var s3 := NextJudge(s2, h, NoFault);
    if n in s.leases {
      assert s1 == SetOp(s, h, Reading);
      var owner := ParseHolder(s.leases[n].identity);
      if s.leases[n].identity != Identity(h) && owner.Some? {
        assert s2 == SetOp(s1, h, Judging(owner.value, s.leases[n].rv));
        assert s3 == SetOp(s2, h, if owner.value in s.live then Over else Writing(owner.value, s.leases[n].rv));
      }
    }
  }

  /** In every interleaving, a Lease that a live run took and did not start to
      release names that run, so two live runs never both hold it. */
  lemma Exclusion(s: State, actions: seq<Action>, g: Holder, h: Holder, n: LeaseName)
    requires Init(s)
    ensures var e := Play(s, actions);
            && ((h, n) in e.took && h in e.live ==> Holds(e, h, n))
            && ((g, n) in e.took && g in e.live && (h, n) in e.took && h in e.live ==> g == h)
  {
    PlayKeepsInv(s, actions);
    var e := Play(s, actions);
    if (g, n) in e.took && g in e.live && (h, n) in e.took && h in e.live {
      assert InvOf(e, g) && InvOf(e, h);
      if g != h { Distinct(g, h); }
    }
  }
}

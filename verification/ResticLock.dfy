/**
 restic's lock protocol: check, write, wait, check.

 Any number of processes share one linearizable store. A process lists the
 lock files, reads them one by one, writes its own lock, waits, and lists and
 reads again. The controller asks for an exclusive lock; a mover asks for a
 shared one, which only an exclusive lock blocks. A process may crash at any
 time and leave its lock behind.
 */
module ResticLock {
  import opened Common
  import Rewrite = Retime
  import Restic

  const STALE_AGE: nat := 1_800_000_000_000

  datatype Process = Process(host: string, pid: nat)

  datatype Lock = Lock(time: nat, exclusive: bool, owner: Process)

  /** Where a process stands. `rest` are the listed names it has not read yet. */
  datatype Stage =
    | Outside
    | FirstCheck(exclusive: bool, rest: seq<string>)
    | Waiting(exclusive: bool, own: string)
    | SecondCheck(exclusive: bool, own: string, rest: seq<string>)
    | Holding(exclusive: bool, own: string)
    | Unlocking(exclusive: bool, own: string)

  datatype State = State(now: nat, locks: map<string, Lock>, used: set<string>, at: map<Process, Stage>)

  datatype Step =
    | Tick(ns: nat)
    | List(p: Process, exclusive: bool, names: seq<string>)
    | Load(p: Process, fault: Fault)
    | Write(p: Process, id: string, fault: Fault)
    | ListAgain(p: Process, names: seq<string>)
    | Acquire(p: Process)
    | Cancel(p: Process)
    | Unlock(p: Process, fault: Fault)
    | Crash(p: Process)

  function StageOf(s: State, p: Process): Stage {
    if p in s.at then s.at[p] else Outside
  }

  predicate ListsLocks(names: seq<string>, s: State) {
    (forall id :: id in names ==> id in s.locks) && (forall id :: id in s.locks ==> id in names)
  }

  predicate Stale(s: State, id: string) {
    id in s.locks && s.now - s.locks[id].time > STALE_AGE
  }

  function Move(s: State, p: Process, stage: Stage): State {
    s.(at := s.at[p := stage])
  }

  /** What a process does with one listed name. */
  datatype Verdict = Passes | RemovesOwn | Blocked

  function Judge(s: State, p: Process, exclusive: bool, own: string, name: string): Verdict {
    if name == own then Passes
    else if name !in s.locks then Blocked
    else
      var lock := s.locks[name];
      if lock.owner == p then RemovesOwn
      else if s.now - lock.time > STALE_AGE then Passes
      else if exclusive || lock.exclusive then Blocked
      else Passes
  }

  function Next(s: State, a: Step): State {
    match a
    case Tick(ns) => s.(now := s.now + ns)
    case List(p, exclusive, names) =>
      if StageOf(s, p).Outside? && ListsLocks(names, s) then Move(s, p, FirstCheck(exclusive, names)) else s
    case Load(p, fault) => NextLoad(s, p, fault)
    case Write(p, id, fault) => NextWrite(s, p, id, fault)
    case ListAgain(p, names) =>
      var stage := StageOf(s, p);
      if stage.Waiting? && ListsLocks(names, s) then Move(s, p, SecondCheck(stage.exclusive, stage.own, names)) else s
    case Acquire(p) =>
      var stage := StageOf(s, p);
      if stage.SecondCheck? && stage.rest == [] then Move(s, p, Holding(stage.exclusive, stage.own)) else s
    case Cancel(p) =>
      var stage := StageOf(s, p);
      if stage.Waiting? then Move(s, p, Unlocking(stage.exclusive, stage.own)) else s
    case Unlock(p, fault) =>
      var stage := StageOf(s, p);
      if !stage.Unlocking? && !stage.Holding? then s
      else Move(if fault.FailsBefore? then s else s.(locks := s.locks - {stage.own}), p, Outside)
    case Crash(p) => Move(s, p, Outside)
  }

  function NextLoad(s: State, p: Process, fault: Fault): State {
    match StageOf(s, p)
    case FirstCheck(exclusive, rest) =>
      if rest == [] then s
      else
        var verdict := Judge(s, p, exclusive, "", rest[0]);
        var s' := if verdict.RemovesOwn? && !fault.FailsBefore? then s.(locks := s.locks - {rest[0]}) else s;
        if verdict.Blocked? || !fault.NoFault? then Move(s', p, Outside)
        else Move(s', p, FirstCheck(exclusive, rest[1..]))
    case SecondCheck(exclusive, own, rest) =>
      if rest == [] then s
      else
        var verdict := Judge(s, p, exclusive, own, rest[0]);
        var s' := if verdict.RemovesOwn? && !fault.FailsBefore? then s.(locks := s.locks - {rest[0]}) else s;
        if verdict.Blocked? || !fault.NoFault? then Move(s', p, Unlocking(exclusive, own))
        else Move(s', p, SecondCheck(exclusive, own, rest[1..]))
    case _ => s
  }

  function NextWrite(s: State, p: Process, id: string, fault: Fault): State {
    var stage := StageOf(s, p);
    if !stage.FirstCheck? || stage.rest != [] || id in s.used || id == "" then s
    else if fault.FailsBefore? then Move(s, p, Outside)
    else
      var s' := s.(locks := s.locks[id := Lock(s.now, stage.exclusive, p)], used := s.used + {id});
      Move(s', p, if fault.NoFault? then Waiting(stage.exclusive, id) else Outside)
  }

  function Run(s: State, steps: seq<Step>): State {
    if steps == [] then s else Next(Run(s, steps[..|steps| - 1]), steps[|steps| - 1])
  }

  /** The stages of a process whose own lock is in place. */
  predicate HasOwn(stage: Stage) { stage.Waiting? || stage.SecondCheck? || stage.Holding? || stage.Unlocking? }

  predicate Listed(stage: Stage) { stage.SecondCheck? || stage.Holding? }

  function Rest(stage: Stage): seq<string> { if stage.SecondCheck? then stage.rest else [] }

  ghost predicate OwnInPlace(s: State, p: Process) {
    var stage := StageOf(s, p);
    HasOwn(stage) ==> stage.own in s.locks && s.locks[stage.own].owner == p && s.locks[stage.own].exclusive == stage.exclusive
  }

  /** Of two conflicting processes that have both listed again, one still has to
      read the other's lock, or one of the two locks is stale. */
  ghost predicate SeesTheOther(s: State, p: Process, q: Process) {
    var x, y := StageOf(s, p), StageOf(s, q);
    p != q && Listed(x) && Listed(y) && (x.exclusive || y.exclusive) ==>
      y.own in Rest(x) || x.own in Rest(y) || Stale(s, x.own) || Stale(s, y.own)
  }

  ghost predicate Inv(s: State) {
    && "" !in s.used && (forall id :: id in s.locks ==> id in s.used)
    && (forall p :: OwnInPlace(s, p))
    && (forall p, q :: SeesTheOther(s, p, q))
  }

  predicate Init(s: State) {
    s.at == map[] && "" !in s.used && forall id :: id in s.locks ==> id in s.used
  }

  /** What the step of one process changes: itself, and locks of its own. */
  ghost predicate Frame(s: State, s': State, p: Process) {
    && (forall q :: q != p ==> StageOf(s', q) == StageOf(s, q))
    && (forall id :: id in s.locks && s.locks[id].owner != p ==> id in s'.locks && s'.locks[id] == s.locks[id])
    && s'.now >= s.now
  }

  /** A step that frames the others keeps the invariant once it keeps what it
      says about its own process. */
  lemma FrameKeepsInv(s: State, s': State, p: Process)
    requires Inv(s) && Frame(s, s', p)
    requires "" !in s'.used && forall id :: id in s'.locks ==> id in s'.used
    requires OwnInPlace(s', p)
    requires forall q :: SeesTheOther(s', p, q) && SeesTheOther(s', q, p)
    ensures Inv(s')
  {
    forall q ensures OwnInPlace(s', q) { assert OwnInPlace(s, q); }
    forall q, r ensures SeesTheOther(s', q, r) {
      if q != p && r != p {
        assert SeesTheOther(s, q, r) && OwnInPlace(s, q) && OwnInPlace(s, r);
      }
    }
  }

  lemma LoadKeepsInv(s: State, p: Process, fault: Fault)
    requires Inv(s)
    ensures Inv(NextLoad(s, p, fault))
  {
    var s', x, x' := NextLoad(s, p, fault), StageOf(s, p), StageOf(NextLoad(s, p, fault), p);
    assert OwnInPlace(s, p);
    forall q ensures SeesTheOther(s', p, q) && SeesTheOther(s', q, p) {
      assert SeesTheOther(s, p, q) && SeesTheOther(s, q, p) && OwnInPlace(s, q);
      if p != q && Listed(x') && Listed(StageOf(s, q)) && x.SecondCheck? && x.rest != [] {
        assert x.rest == [x.rest[0]] + x.rest[1..];
      }
    }
    FrameKeepsInv(s, s', p);
  }

  lemma WriteKeepsInv(s: State, p: Process, id: string, fault: Fault)
    requires Inv(s)
    ensures Inv(NextWrite(s, p, id, fault))
  {
    OwnStepKeepsInv(s, NextWrite(s, p, id, fault), p);
  }

  /** A step that only changes the process and its own locks. */
  lemma OwnStepKeepsInv(s: State, s': State, p: Process)
    requires Inv(s) && Frame(s, s', p) && OwnInPlace(s', p)
    requires "" !in s'.used && forall id :: id in s'.locks ==> id in s'.used
    requires Listed(StageOf(s', p)) ==> Listed(StageOf(s, p)) && StageOf(s', p).own == StageOf(s, p).own && Rest(StageOf(s', p)) == Rest(StageOf(s, p))
    requires Listed(StageOf(s', p)) ==> StageOf(s', p).exclusive == StageOf(s, p).exclusive && StageOf(s, p).own in s'.locks
    requires Listed(StageOf(s', p)) ==> StageOf(s, p).own in s.locks && s'.locks[StageOf(s, p).own] == s.locks[StageOf(s, p).own]
    ensures Inv(s')
  {
    assert OwnInPlace(s, p);
    forall q ensures SeesTheOther(s', p, q) && SeesTheOther(s', q, p) {
      assert SeesTheOther(s, p, q) && SeesTheOther(s, q, p) && OwnInPlace(s, q);
    }
    FrameKeepsInv(s, s', p);
  }

  /** Every step keeps the invariant. */
  lemma StepKeepsInv(s: State, a: Step)
    requires Inv(s)
    ensures Inv(Next(s, a))
  {
    var s' := Next(s, a);
    match a
    case Tick(ns) =>
      forall p ensures OwnInPlace(s', p) { assert OwnInPlace(s, p); }
      forall p, q ensures SeesTheOther(s', p, q) { assert SeesTheOther(s, p, q); }
    case Load(p, fault) => LoadKeepsInv(s, p, fault);
    case Write(p, id, fault) => WriteKeepsInv(s, p, id, fault);
    case _ =>
      var p := a.p;
      assert OwnInPlace(s, p);
      forall q ensures SeesTheOther(s', p, q) && SeesTheOther(s', q, p) {
        assert SeesTheOther(s, p, q) && SeesTheOther(s, q, p) && OwnInPlace(s, q);
      }
      FrameKeepsInv(s, s', p);
  }

  lemma {:induction false} RunKeepsInv(s: State, steps: seq<Step>)
    requires Inv(s)
    ensures Inv(Run(s, steps))
  {
    if steps != [] {
      RunKeepsInv(s, steps[..|steps| - 1]);
      StepKeepsInv(Run(s, steps[..|steps| - 1]), steps[|steps| - 1]);
    }
  }

  /** Two processes never both hold conflicting locks while both locks are
      younger than the stale age. */
  lemma LockExclusion(s: State, steps: seq<Step>, p: Process, q: Process)
    requires Init(s) && p != q
    ensures var e := Run(s, steps);
            StageOf(e, p).Holding? && StageOf(e, q).Holding? && (StageOf(e, p).exclusive || StageOf(e, q).exclusive) ==>
              Stale(e, StageOf(e, p).own) || Stale(e, StageOf(e, q).own)
  {
    RunKeepsInv(s, steps);
    assert SeesTheOther(Run(s, steps), p, q);
  }

  // ----------------------------------------------------------- the program

  /** What the steps of other processes, and time, leave alone. */
  ghost predicate Rely(p: Process, s: State, s': State) {
    && StageOf(s', p) == StageOf(s, p)
    && s'.now >= s.now
    && (forall id :: id in s.locks && s.locks[id].owner == p ==> id in s'.locks && s'.locks[id] == s.locks[id])
    && (forall id :: id in s'.locks && s'.locks[id].owner == p ==> id in s.locks && s.locks[id] == s'.locks[id])
  }

  predicate Foreign(a: Step, p: Process) { a.Tick? || a.p != p }

  /** No lock of the process appeared. */
  ghost predicate NoNewLock(p: Process, s: State, s': State) {
    forall id :: id in s'.locks && s'.locks[id].owner == p ==> id in s.locks && s.locks[id].owner == p
  }

  /** No lock of the process appeared but one. */
  ghost predicate NoNewLockBut(p: Process, s: State, s': State, own: string) {
    forall id :: id in s'.locks && s'.locks[id].owner == p && id != own ==> id in s.locks && s.locks[id].owner == p
  }

  lemma OthersAreRelied(p: Process, s: State, a: Step)
    requires Inv(s) && Foreign(a, p)
    ensures Inv(Next(s, a)) && Rely(p, s, Next(s, a))
  {
    StepKeepsInv(s, a);
    if !a.Tick? { assert OwnInPlace(s, a.p); }
  }

  /** The first check, or the second one after the lock is written. */
  function Check(second: bool, exclusive: bool, own: string, names: seq<string>): Stage {
    if second then SecondCheck(exclusive, own, names) else FirstCheck(exclusive, names)
  }

  function OwnOf(stage: Stage): string { if stage.Waiting? then stage.own else "" }

  /** One process of the controller and its view of a repository. */
  /** The step went through, as far as the store decides. */
  predicate Passed(a: Step) {
    match a
    case Load(_, f) => f.NoFault?
    case Write(_, _, f) => f.NoFault?
    case Unlock(_, f) => f.NoFault?
    case _ => true
  }

  /** Between the two logs there are only steps of the process, all went through,
      and the clock stood still. */
  predicate Alone(p: Process, before: seq<Step>, after: seq<Step>) {
    before <= after && forall i :: |before| <= i < |after| ==> !Foreign(after[i], p) && Passed(after[i])
  }

  lemma AloneParts(p: Process, a: seq<Step>, b: seq<Step>, c: seq<Step>)
    requires a <= b <= c
    ensures Alone(p, a, c) <==> Alone(p, a, b) && Alone(p, b, c)
  {
    assert forall i :: |a| <= i < |b| ==> c[i] == b[i];
  }

  /** No lock blocks the process, but for its own. */
  predicate Unblocked(s: State, p: Process, exclusive: bool, own: string) {
    forall id :: id in s.locks ==> !Judge(s, p, exclusive, own, id).Blocked?
  }

  /** Only a lock of another process that is at most 30 minutes old blocks, and
      only when one of the two is exclusive. */
  lemma UnblockedMeans(s: State, p: Process, exclusive: bool)
    requires "" !in s.locks
    ensures Unblocked(s, p, exclusive, "") <==>
              forall id :: id in s.locks && s.locks[id].owner != p && s.now <= s.locks[id].time + 30 * 60 * Restic.SECOND ==> !exclusive && !s.locks[id].exclusive
  {
    forall id | id in s.locks
      ensures Judge(s, p, exclusive, "", id).Blocked? <==>
              s.locks[id].owner != p && s.now <= s.locks[id].time + 30 * 60 * Restic.SECOND && (exclusive || s.locks[id].exclusive)
    {
    }
  }

  /** At the same time, with no new lock. */
  predicate Fewer(s: State, s': State) {
    s'.now == s.now && forall id :: id in s'.locks ==> id in s.locks && s'.locks[id] == s.locks[id]
  }

  lemma FewerIsUnblocked(s: State, s': State, p: Process, exclusive: bool, own: string)
    requires Fewer(s, s') && Unblocked(s, p, exclusive, own)
    ensures Unblocked(s', p, exclusive, own)
  {
    forall id | id in s'.locks ensures !Judge(s', p, exclusive, own, id).Blocked? { assert !Judge(s, p, exclusive, own, id).Blocked?; }
  }

  /** At the same time, without some locks of those names. */
  predicate SameBut(s: State, s': State, names: seq<string>) {
    && s'.now == s.now && (forall id :: id in s'.locks ==> id in s.locks && s'.locks[id] == s.locks[id])
    && forall id :: id in s.locks && id !in names ==> id in s'.locks
  }

  /** The locks that were read before do not change what the next one says. */
  lemma SameJudge(s: State, s': State, p: Process, exclusive: bool, own: string, names: seq<string>, i: nat)
    requires i < |names| && ListsLocks(names, s) && SameBut(s, s', names[..i])
    requires forall j, k :: 0 <= j < k < |names| ==> names[j] != names[k]
    ensures Judge(s', p, exclusive, own, names[i]) == Judge(s, p, exclusive, own, names[i])
  {
    assert names[i] in names && names[i] !in names[..i];
  }

  lemma SameButOn(a: State, b: State, c: State, names: seq<string>, i: nat)
    requires i < |names| && SameBut(a, b, names[..i]) && SameBut(b, c, [names[i]])
    ensures SameBut(a, c, names[..i + 1]) && SameBut(a, c, names)
  {
  }

  lemma NothingSame(s: State, p: Process)
    ensures SameBut(s, s, []) && NoNewLock(p, s, s)
  {
  }

  lemma NoNewOn(p: Process, a: State, b: State, c: State)
    requires NoNewLock(p, a, b) && NoNewLock(p, b, c)
    ensures NoNewLock(p, a, c)
  {
  }

  lemma RelyMeansNoNew(p: Process, s: State, s': State)
    requires Rely(p, s, s')
    ensures NoNewLock(p, s, s') && StageOf(s', p) == StageOf(s, p)
  {
  }

  /** The process listed the locks. */
  lemma ListedAt(s: State, s': State, p: Process, second: bool, exclusive: bool, own: string, names: seq<string>)
    requires ListsLocks(names, s) && s' == Next(s, if second then ListAgain(p, names) else List(p, exclusive, names))
    requires if second then StageOf(s, p) == Waiting(exclusive, own) else StageOf(s, p).Outside? && own == ""
    ensures StageOf(s', p) == Check(second, exclusive, own, names) && ListsLocks(names, s') && s'.locks == s.locks && s'.now == s.now && NoNewLock(p, s, s')
  {
  }

  lemma AllJudged(first: State, from: State, s: State, p: Process, exclusive: bool, own: string, names: seq<string>, ok: bool)
    requires ListsLocks(names, from) && from.locks == first.locks && from.now == first.now && SameBut(from, s, names)
    requires ok <==> forall i :: 0 <= i < |names| ==> !Judge(from, p, exclusive, own, names[i]).Blocked?
    ensures (ok <==> Unblocked(first, p, exclusive, own)) && Fewer(first, s)
  {
    assert forall id :: Judge(from, p, exclusive, own, id) == Judge(first, p, exclusive, own, id);
    if ok { forall id | id in first.locks ensures !Judge(first, p, exclusive, own, id).Blocked? { var i :| 0 <= i < |names| && names[i] == id; } }
    else {
      var i :| 0 <= i < |names| && Judge(from, p, exclusive, own, names[i]).Blocked?;
      assert names[i] in names;
    }
  }

  /** The own lock does not block. */
  lemma OwnIsUnblocked(s: State, s': State, p: Process, own: string)
    requires Unblocked(s, p, true, "") && s'.now == s.now && "" !in s.locks
    requires forall id :: id in s'.locks && id != own ==> id in s.locks && s'.locks[id] == s.locks[id]
    ensures Unblocked(s', p, true, own)
  {
    forall id | id in s'.locks ensures !Judge(s', p, true, own, id).Blocked? { if id != own { assert !Judge(s, p, true, "", id).Blocked?; } }
  }

  class Locker {
    const me: Process
    var s: State
    ghost var log: seq<Step>
    var snapshots: Rewrite.Store

    ghost predicate Valid()
      reads this
    {
      Inv(s)
    }

    constructor (me: Process, s: State, snapshots: Rewrite.Store)
      requires Inv(s)
      ensures Valid() && this.me == me && this.s == s && this.snapshots == snapshots
    {
      this.me, this.s, this.snapshots, log := me, s, snapshots, [];
    }

    /** Any number of steps of other processes, and the clock. */
    method Interfere()
      requires Valid()
      modifies this`s, this`log
      ensures Valid() && Rely(me, old(s), s) && old(log) <= log
      ensures Alone(me, old(log), log) ==> s == old(s) && log == old(log)
    {
      var steps: nat := *;
      while steps > 0
        invariant Valid() && Rely(me, old(s), s) && old(log) <= log
        invariant Alone(me, old(log), log) ==> s == old(s) && log == old(log)
      {
        var a: Step := *;
        if Foreign(a, me) {
          OthersAreRelied(me, s, a);
          assert (log + [a])[|log|] == a;
          s, log := Next(s, a), log + [a];
        }
        steps := steps - 1;
      }
    }

    /** One step of this process. */
    method Act(a: Step)
      requires Valid() && !Foreign(a, me)
      modifies this`s, this`log
      ensures Valid() && s == Next(old(s), a) && log == old(log) + [a]
      ensures forall before :: before <= old(log) ==> (Alone(me, before, log) <==> Alone(me, before, old(log)) && Passed(a))
    {
      hide Inv, Next;
      StepKeepsInv(s, a);
      forall before | before <= log ensures Alone(me, before, log + [a]) <==> Alone(me, before, log) && Passed(a) {
        AloneParts(me, before, log, log + [a]);
        assert (log + [a])[|log|] == a;
      }
      s, log := Next(s, a), log + [a];
    }

    /** The names under locks/, in any order. */
    method ListNames() returns (names: seq<string>)
      ensures ListsLocks(names, s) && forall i, j :: 0 <= i < j < |names| ==> names[i] != names[j]
    {
      var left := s.locks.Keys;
      names := [];
      while left != {}
        invariant forall id :: id in s.locks <==> id in left || id in names
        invariant forall id :: id in left ==> id !in names
        invariant forall i, j :: 0 <= i < j < |names| ==> names[i] != names[j]
        decreases left
      {
        var name :| name in left;
        names, left := names + [name], left - {name};
      }
    }

    /** checkLocks, before the lock is written or after it. With nothing in between
        it passes exactly when no lock blocks. */
    method CheckLocks(exclusive: bool) returns (ok: bool)
      requires Valid() && (StageOf(s, me).Outside? || (StageOf(s, me).Waiting? && StageOf(s, me).exclusive == exclusive))
      modifies this`s, this`log
      ensures Valid() && NoNewLock(me, old(s), s) && old(log) <= log
      ensures ok && old(StageOf(s, me).Outside?) ==> StageOf(s, me) == FirstCheck(exclusive, [])
      ensures ok && old(StageOf(s, me).Waiting?) ==> StageOf(s, me) == SecondCheck(exclusive, old(StageOf(s, me).own), [])
      ensures !ok && old(StageOf(s, me).Outside?) ==> StageOf(s, me).Outside?
      ensures !ok && old(StageOf(s, me).Waiting?) ==> StageOf(s, me) == Unlocking(exclusive, old(StageOf(s, me).own))
      ensures Alone(me, old(log), log) ==>
                && (ok <==> Unblocked(old(s), me, exclusive, OwnOf(old(StageOf(s, me)))))
                && Fewer(old(s), s)
    {
      hide Inv, Alone, Judge, SameBut, Next, ListsLocks, NoNewLock;
      ghost var first, mark := s, log;
      var second := StageOf(s, me).Waiting?;
      var own := OwnOf(StageOf(s, me));
      Interfere();
      ghost var listed := log;
      AloneItself(mark, log);
      RelyMeansNoNew(me, first, s);
      ghost var before := s;
      var names := ListNames();
      Act(if second then ListAgain(me, names) else List(me, exclusive, names));
      ListedAt(before, s, me, second, exclusive, own, names);
      ghost var sofar, from := log, s;
      ok := ReadLocks(second, exclusive, own, names);
      AloneParts(me, mark, sofar, log);
      NoNewOn(me, first, from, s);
      if Alone(me, mark, log) { AllJudged(first, from, s, me, exclusive, own, names, ok); }
    }

    /** The loop over the listed names. */
    method ReadLocks(second: bool, exclusive: bool, own: string, names: seq<string>) returns (ok: bool)
      requires Valid() && StageOf(s, me) == Check(second, exclusive, own, names) && (!second ==> own == "")
      requires forall i, j :: 0 <= i < j < |names| ==> names[i] != names[j]
      modifies this`s, this`log
      ensures Valid() && NoNewLock(me, old(s), s) && old(log) <= log
      ensures ok ==> StageOf(s, me) == Check(second, exclusive, own, [])
      ensures !ok ==> if second then StageOf(s, me) == Unlocking(exclusive, own) else StageOf(s, me).Outside?
      ensures Alone(me, old(log), log) && ListsLocks(names, old(s)) ==>
                && (ok <==> forall i :: 0 <= i < |names| ==> !Judge(old(s), me, exclusive, own, names[i]).Blocked?)
                && SameBut(old(s), s, names)
    {
      hide Inv, Alone, Judge, SameBut, Next, ListsLocks, NoNewLock;
      ghost var first, mark := s, log;
      AloneItself(mark, log);
      NothingSame(s, me);
      for i := 0 to |names|
        invariant Valid() && NoNewLock(me, first, s) && mark <= log
        invariant StageOf(s, me) == Check(second, exclusive, own, names[i..])
        invariant Alone(me, mark, log) ==> SameBut(first, s, names[..i])
        invariant Alone(me, mark, log) && ListsLocks(names, first) ==> forall j :: 0 <= j < i ==> !Judge(first, me, exclusive, own, names[j]).Blocked?
      {
        assert names[i..][1..] == names[i + 1..] && names[..i + 1] == names[..i] + [names[i]];
        ghost var before, sofar := s, log;
        ok := CheckLock(second, exclusive, own, names[i..]);
        AloneParts(me, mark, sofar, log);
        NoNewOn(me, first, before, s);
        if Alone(me, mark, log) {
          SameButOn(first, before, s, names, i);
          if ListsLocks(names, first) { SameJudge(first, before, me, exclusive, own, names, i); }
        }
        if !ok {
          return;
        }
      }
      assert names[..|names|] == names && names[|names|..] == [];
      ok := true;
    }

    lemma AloneItself(before: seq<Step>, after: seq<Step>)
      ensures before == after ==> Alone(me, before, after)
    {
    }

    /** One turn of its loop: reads a lock and judges it. */
    method CheckLock(second: bool, exclusive: bool, own: string, names: seq<string>) returns (ok: bool)
      requires Valid() && names != [] && StageOf(s, me) == Check(second, exclusive, own, names) && (!second ==> own == "")
      modifies this`s, this`log
      ensures Valid() && NoNewLock(me, old(s), s) && old(log) <= log
      ensures ok ==> StageOf(s, me) == Check(second, exclusive, own, names[1..])
      ensures !ok ==> if second then StageOf(s, me) == Unlocking(exclusive, own) else StageOf(s, me).Outside?
      ensures Alone(me, old(log), log) ==> (ok <==> !Judge(old(s), me, exclusive, own, names[0]).Blocked?) && SameBut(old(s), s, [names[0]])
    {
      hide Inv, Alone;
      ghost var mark := log;
      Interfere();
      var fault: Fault := *;
      var verdict := Judge(s, me, exclusive, own, names[0]);
      Act(Load(me, fault));
      ok := !verdict.Blocked? && fault.NoFault?;
    }

    /** Removes the lock of this attempt. */
    method Unlock() returns (removed: bool)
      requires Valid() && (StageOf(s, me).Unlocking? || StageOf(s, me).Holding?)
      modifies this`s, this`log
      ensures Valid() && StageOf(s, me).Outside? && NoNewLock(me, old(s), s) && old(log) <= log
      ensures removed ==> old(StageOf(s, me).own) !in s.locks
      ensures Alone(me, old(log), log) ==> removed
    {
      hide Inv, Alone;
      ghost var mark := log;
      Interfere();
      var fault: Fault := *;
      Act(Step.Unlock(me, fault));
      removed := fault.NoFault?;
    }

    /** A name that no lock had: any string, and where it is taken a longer one. */
    method NewID() returns (id: string)
      ensures id !in s.used && id != ""
    {
      id := *;
      if id in s.used || id == "" {
        var left: set<string>, n: nat := s.used, 0;
        while left != {}
          invariant forall u :: u in s.used ==> u in left || |u| <= n
          decreases left
        {
          var u :| u in left;
          left, n := left - {u}, if |u| > n then |u| else n;
        }
        id := seq(n + 1, _ => 'a');
        assert |id| == n + 1;
      }
    }

    /** lockExclusive. With ok the process holds the lock; without it the
        process is outside, and unless a call failed on its own lock it has no
        lock that it did not have before. With nothing in between it is ok exactly
        when no lock blocks; `cancelled` says that the context ends during the
        wait. */
    method LockExclusive(cancelled: bool) returns (ok: bool, left: bool)
      requires Valid() && StageOf(s, me).Outside?
      modifies this`s, this`log
      ensures Valid() && old(log) <= log
      ensures ok ==> StageOf(s, me).Holding? && StageOf(s, me).exclusive
      ensures !ok ==> StageOf(s, me).Outside?
      ensures !ok && !left ==> NoNewLock(me, old(s), s)
      ensures ok ==> !left && NoNewLockBut(me, old(s), s, StageOf(s, me).own)
      ensures Alone(me, old(log), log) ==> !left && (ok <==> !cancelled && Unblocked(old(s), me, true, ""))
    {
      hide Inv, Alone, Judge;
      ghost var first, mark := s, log;
      left := false;
      ok := CheckLocks(true);
      if !ok {
        return;
      }
      ghost var checked, sofar := s, log;
      Interfere();
      AloneParts(me, mark, sofar, log);
      assert mark <= log;
      var id := NewID();
      var fault: Fault := *;
      Act(Write(me, id, fault));
      if !fault.NoFault? {
        return false, !fault.FailsBefore?;
      }
      ghost var written, wrote := s, log;
      ok, left := Confirm(cancelled, id);
      AloneParts(me, mark, wrote, log);
      if Alone(me, mark, log) {
        NoEmptyName(checked);
        FewerIsUnblocked(first, checked, me, true, "");
        OwnIsUnblocked(checked, written, me, id);
      }
    }

    /** The wait and the second check, once the own lock is written. */
    method Confirm(cancelled: bool, own: string) returns (ok: bool, left: bool)
      requires Valid() && StageOf(s, me) == Waiting(true, own)
      modifies this`s, this`log
      ensures Valid() && old(log) <= log && NoNewLock(me, old(s), s)
      ensures ok ==> StageOf(s, me) == Holding(true, own) && !left
      ensures !ok ==> StageOf(s, me).Outside? && (!left ==> own !in s.locks)
      ensures Alone(me, old(log), log) ==> !left && (ok <==> !cancelled && Unblocked(old(s), me, true, own))
    {
      hide Inv, Alone, Judge;
      ghost var mark := log;
      left := false;
      Interfere();
      ghost var waited := log;
      if cancelled {
        Act(Cancel(me));
        ok := false;
      } else {
        ok := CheckLocks(true);
      }
      AloneParts(me, mark, waited, log);
      if ok {
        Act(Acquire(me));
      } else {
        ghost var sofar := log;
        var removed := Unlock();
        AloneParts(me, mark, sofar, log);
        left := !removed;
      }
    }

    /** Retime: nothing is written without the lock, and the lock is given back.
        `left` says that a call on the own lock file failed. With nothing in between
        and no lock that blocks, the rewrite happens. */
    method Retime(r: Rewrite.Request, c: Rewrite.Call, cancelled: bool) returns (result: Option<Restic.Snapshot>, locked: bool, left: bool)
      requires Valid() && StageOf(s, me).Outside?
      modifies this
      ensures Valid() && StageOf(s, me).Outside?
      ensures !left ==> NoNewLock(me, old(s), s)
      ensures if locked then snapshots == Rewrite.Retimed(old(snapshots), r, c).store else snapshots == old(snapshots)
      ensures result == if locked && !left then Rewrite.Retimed(old(snapshots), r, c).result else None
      ensures old(log) <= log && (Alone(me, old(log), log) ==> !left && (locked <==> r.id != "" && !cancelled && Unblocked(old(s), me, true, "")))
    {
      hide Inv, Alone, Unblocked, Rewrite.Retimed;
      ghost var first, mark := s, log;
      AloneItself(mark, log);
      left := false;
      if r.id == "" {
        return None, false, false;
      }
      locked, left := LockExclusive(cancelled);
      if !locked {
        return None, false, left;
      }
      var repository := new Rewrite.Repository(snapshots);
      result := repository.Retime(r, c);
      snapshots := repository.snapshots;
      ghost var held := log;
      var removed := Unlock();
      AloneParts(me, mark, held, log);
      if !removed {
        return None, true, true;
      }
    }
  }

  lemma NoEmptyName(s: State)
    requires Inv(s)
    ensures "" !in s.locks
  {
  }
}

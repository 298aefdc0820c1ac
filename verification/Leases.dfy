/**
 Take, Release, holding and releaseAll of one run, call by call.

 Before every call any number of calls of other runs may happen, and every
 call may fail. Each call of this run is the step of the protocol that the run
 stands at, so whatever these methods do is one of the interleavings of module
 LeaseProtocol.
 */
module Leases {
  import opened Common
  import opened Holders
  import opened LeaseNames
  import opened LeaseProtocol

  datatype Reply = Done | AlreadyExists | NotFound | Conflict | Failed

  /** Take's answer: it holds the Lease; another run holds it or won a race,
      with the identity Take saw; or a call failed or the Lease is foreign. */
  datatype Answer = Held | Waits(other: string) | Errored

  /** What the calls of other runs leave alone for a live run. */
  ghost predicate Rely(h: Holder, s: State, s': State) {
    && h in s.runs && h in s'.runs && s'.runs[h] == s.runs[h]
    && (h in s.live ==> h in s'.live)
    && (forall n :: (h, n) in s'.took <==> (h, n) in s.took)
    && (forall n :: n in s.leases && s.leases[n].identity == Identity(h) ==> n in s'.leases && s'.leases[n] == s.leases[n])
    && (forall n :: n in s'.leases && s'.leases[n].identity == Identity(h) ==> n in s.leases && s'.leases[n] == s.leases[n])
  }

  lemma OthersAreRelied(h: Holder, s: State, a: Action)
    requires Inv(s) && h in s.live && a.who != h
    ensures Inv(Next(s, a)) && Rely(h, s, Next(s, a))
  {
    StepKeepsInv(s, a);
    var s' := Next(s, a);
    assert InvOf(s, h);
    if s' != s {
      assert WellFormed(a.who) by { assert a.who in s.runs ==> InvOf(s, a.who); }
      Distinct(h, a.who);
      forall n ensures OwnLeaseChange(s, s', a.who, n) && (Holds(s, h, n) ==> n in s'.leases && s'.leases[n] == s.leases[n])
                       && (Holds(s', h, n) ==> n in s.leases && s'.leases[n] == s.leases[n])
      {
        assert OwnLeaseChange(s, s', a.who, n);
      }
    }
  }

  predicate Through(call: Call) {
    match call
    case Create(f) => f.NoFault?
    case Read(f) => f.NoFault?
    case Judge(f) => f.NoFault?
    case Write(f) => f.NoFault?
    case ReleaseRead(_, f) => f.NoFault?
    case ReleaseDelete(f) => f.NoFault?
    case _ => true
  }

  /** Between the two logs there are only calls of the run, and all went through. */
  predicate Alone(h: Holder, before: seq<Action>, after: seq<Action>) {
    before <= after && forall i :: |before| <= i < |after| ==> after[i].who == h && Through(after[i].call)
  }

  lemma AloneParts(h: Holder, a: seq<Action>, b: seq<Action>, c: seq<Action>)
    requires a <= b <= c
    ensures Alone(h, a, c) <==> Alone(h, a, b) && Alone(h, b, c)
  {
    if Alone(h, a, c) { assert forall i :: |a| <= i < |b| ==> c[i] == b[i]; }
    if Alone(h, a, b) && Alone(h, b, c) { assert forall i :: |a| <= i < |b| ==> c[i] == b[i]; }
  }

  /** The Lease as a Take finds it: free, the run's own or a dead run's; an identity
      that names no run; or the Lease of a run that is alive. */
  function Verdict(s: State, h: Holder, n: LeaseName): Answer {
    if n !in s.leases || s.leases[n].identity == Identity(h) then Held
    else
      match ParseHolder(s.leases[n].identity)
      case None => Errored
      case Some(owner) => if owner in s.live then Waits(s.leases[n].identity) else Held
  }

  /** Nothing but that Lease changed. */
  ghost predicate Touches(s: State, s': State, n: LeaseName) {
    s'.live == s.live && forall m :: m != n ==> (m in s'.leases <==> m in s.leases) && (m in s.leases ==> s'.leases[m] == s.leases[m])
  }

  /** A Take of the Lease would succeed. */
  predicate Free(s: State, h: Holder, n: LeaseName) { Verdict(s, h, n).Held? }

  /** A Take that succeeded leaves every Lease as free as it was. */
  lemma TakenStaysFree(s: State, s': State, h: Holder, n: LeaseName)
    requires Touches(s, s', n) && Free(s, h, n) && Holds(s', h, n)
    ensures forall m :: Free(s', h, m) == Free(s, h, m)
  {
  }

  class Client {
    const me: Holder
    var s: State
    /** status.leases as the pass holds it in memory, and as it is stored. */
    var recorded: seq<LeaseName>
    var stored: seq<LeaseName>
    ghost var log: seq<Action>
    ghost const origin: State

    /** Every call is a step of the protocol, and every Lease that names the
        run is in its stored status. */
    ghost predicate Valid()
      reads this
    {
      && Init(origin) && s == Play(origin, log) && Inv(s)
      && me in s.live
      && (forall n :: n in s.leases && s.leases[n].identity == Identity(me) ==> n in stored)
    }

    function Mine(): Run
      reads this
      requires me in s.runs
    {
      s.runs[me]
    }

    /** The run stands before a Take. */
    ghost predicate AtTake()
      reads this
    {
      me in s.runs && Mine().op == Idle && Mine().pos < |Mine().names|
    }

    constructor (me: Holder, s: State, recorded: seq<LeaseName>, stored: seq<LeaseName>, ghost origin: State, ghost log: seq<Action>)
      requires Init(origin) && s == Play(origin, log) && me in s.live
      requires forall n :: n in s.leases && s.leases[n].identity == Identity(me) ==> n in stored
      ensures Valid()
      ensures this.me == me && this.s == s && this.recorded == recorded && this.stored == stored && this.log == log
    {
      PlayKeepsInv(origin, log);
      this.me, this.s, this.recorded, this.stored, this.origin, this.log := me, s, recorded, stored, origin, log;
    }

    /** Any number of calls of other runs. */
    method Interfere()
      requires Valid()
      modifies this`s, this`log
      ensures Valid() && Rely(me, old(s), s) && old(log) <= log
      ensures Alone(me, old(log), log) ==> s == old(s) && log == old(log)
    {
      hide Next, NextCreate, NextRead, NextWrite, Identity;
      assert InvOf(s, me);
      var calls: nat := *;
      while calls > 0
        invariant Valid() && Rely(me, old(s), s) && old(log) <= log
        invariant Alone(me, old(log), log) ==> s == old(s) && log == old(log)
      {
        var a: Action := *;
        if a.who != me {
          OthersAreRelied(me, s, a);
          assert (log + [a])[..|log|] == log && (log + [a])[|log|] == a;
          s, log := Next(s, a), log + [a];
        }
        calls := calls - 1;
      }
    }

    /** The server carries out one call of this run. */
    method Act(call: Call)
      requires Valid() && !call.End? && !call.Start?
      requires forall n :: Holds(Next(s, Action(me, call)), me, n) ==> n in stored
      modifies this`s, this`log
      ensures Valid() && s == Next(old(s), Action(me, call)) && log == old(log) + [Action(me, call)]
    {
      var a := Action(me, call);
      StepKeepsInv(s, a);
      assert (log + [a])[..|log|] == log;
      s, log := Next(s, a), log + [a];
      forall n | n in s.leases && s.leases[n].identity == Identity(me) ensures n in stored { assert Holds(s, me, n); }
    }

    /** What the calls of Take leave alone. */
    twostate predicate Kept()
      reads this
    {
      && old(me in s.runs) && me in s.runs
      && Mine().names == old(Mine().names) && Mine().partway == old(Mine().partway)
      && (forall n :: old((me, n) in s.took) ==> (me, n) in s.took)
      && old(log) <= log
    }

    /** The run took its i-th Lease and goes on to the next. */
    ghost predicate TookIt(i: nat)
      reads this
    {
      && me in s.runs && Mine().op == Idle && Mine().pos == i + 1 && i < |Mine().names|
      && (me, Mine().names[i]) in s.took && Holds(s, me, Mine().names[i])
    }

    method CreateLease() returns (reply: Reply)
      requires Valid() && AtTake() && Mine().names[Mine().pos] in stored
      modifies this`s, this`log
      ensures Valid() && Kept()
      ensures reply == Done ==> TookIt(old(Mine().pos))
      ensures reply == AlreadyExists ==> Mine().op == Reading && Mine().pos == old(Mine().pos)
      ensures reply != Done && reply != AlreadyExists ==> Mine().op == Over
      ensures Alone(me, old(log), log) ==>
                && s == NextCreate(old(s), me, NoFault)
                && reply == if old(Mine().names[Mine().pos] in s.leases) then AlreadyExists else Done
    {
      hide Play, Inv, Identity;
      Interfere();
      ghost var before := log;
      var fault: Fault := *;
      reply := if !fault.NoFault? then Failed else if Mine().names[Mine().pos] in s.leases then AlreadyExists else Done;
      Act(Create(fault));
      AloneParts(me, old(log), before, log);
      assert log[|before|] == Action(me, Create(fault));
    }

    method GetLease() returns (reply: Reply, lease: Lease)
      requires Valid() && me in s.runs && Mine().op == Reading && Mine().pos < |Mine().names|
      modifies this`s, this`log
      ensures Valid() && Kept()
      ensures reply != Done ==> Mine().op == Over
      ensures reply == Done && lease.identity == Identity(me) ==> TookIt(old(Mine().pos))
      ensures reply == Done && lease.identity != Identity(me) ==>
                && Mine().pos == old(Mine().pos)
                && Mine().op == match ParseHolder(lease.identity) { case None => Over case Some(h) => Judging(h, lease.rv) }
      ensures Alone(me, old(log), log) ==>
                && s == NextRead(old(s), me, NoFault)
                && if old(Mine().names[Mine().pos] in s.leases) then reply == Done && lease == old(s.leases[Mine().names[Mine().pos]]) else reply == NotFound
    {
      Interfere();
      ghost var before := log;
      var fault: Fault := *;
      var name := Mine().names[Mine().pos];
      reply := if !fault.NoFault? then Failed else if name !in s.leases then NotFound else Done;
      lease := if reply == Done then s.leases[name] else Lease("", 0);
      Act(Read(fault));
      AloneParts(me, old(log), before, log);
      assert log[|before|] == Action(me, Read(fault));
    }

    method CheckOwner() returns (failed: bool, alive: bool)
      requires Valid() && me in s.runs && Mine().op.Judging?
      modifies this`s, this`log
      ensures Valid() && Kept() && Mine().pos == old(Mine().pos)
      ensures Mine().op == if failed || alive then Over else Writing(old(Mine().op.owner), old(Mine().op.rv))
      ensures Alone(me, old(log), log) ==> s == NextJudge(old(s), me, NoFault) && !failed && alive == (old(Mine().op.owner) in old(s).live)
    {
      Interfere();
      ghost var before := log;
      var fault: Fault := *;
      failed, alive := !fault.NoFault?, Mine().op.owner in s.live;
      Act(Judge(fault));
      AloneParts(me, old(log), before, log);
      assert log[|before|] == Action(me, Judge(fault));
    }

    method UpdateLease() returns (reply: Reply)
      requires Valid() && me in s.runs && Mine().op.Writing? && Mine().pos < |Mine().names|
      requires Mine().names[Mine().pos] in stored
      modifies this`s, this`log
      ensures Valid() && Kept()
      ensures reply == Done ==> TookIt(old(Mine().pos))
      ensures reply != Done ==> Mine().op == Over
      ensures Alone(me, old(log), log) ==>
                && s == NextWrite(old(s), me, NoFault)
                && reply == if old(At(s, Mine().names[Mine().pos], Mine().op.rv)) then Done else Conflict
    {
      Interfere();
      ghost var before := log;
      var fault: Fault := *;
      var current := At(s, Mine().names[Mine().pos], Mine().op.rv);
      reply := if fault.FailsBefore? then Failed else if !current then Conflict else if fault.NoFault? then Done else Failed;
      Act(Write(fault));
      AloneParts(me, old(log), before, log);
      assert log[|before|] == Action(me, Write(fault));
    }

    /** Take of the run's next Lease. With nothing in between, the Lease as it is
        decides. */
    method Take() returns (answer: Answer)
      requires Valid() && AtTake() && Mine().names[Mine().pos] in stored
      modifies this`s, this`log
      ensures Valid() && Kept()
      ensures answer.Held? ==> TookIt(old(Mine().pos))
      ensures !answer.Held? ==> Mine().op == Over
      ensures Alone(me, old(log), log) ==> answer == Verdict(old(s), me, old(Mine().names[Mine().pos])) && Touches(old(s), s, old(Mine().names[Mine().pos]))
    {
      hide Inv, Play, Identity, Alone;
      var created := CreateLease();
      ghost var sofar := log;
      if created == Done {
        answer := Held;
      } else if created == AlreadyExists {
        answer := TakeExisting();
      } else {
        answer := Errored;
      }
      AloneParts(me, old(log), sofar, log);
    }

    /** The Lease exists: the run that holds it decides. */
    method TakeExisting() returns (answer: Answer)
      requires Valid() && me in s.runs && Mine().op == Reading && Mine().pos < |Mine().names| && Mine().names[Mine().pos] in stored
      modifies this`s, this`log
      ensures Valid() && Kept()
      ensures answer.Held? ==> TookIt(old(Mine().pos))
      ensures !answer.Held? ==> Mine().op == Over
      ensures Alone(me, old(log), log) && old(Mine().names[Mine().pos] in s.leases) ==>
                answer == Verdict(old(s), me, old(Mine().names[Mine().pos])) && Touches(old(s), s, old(Mine().names[Mine().pos]))
    {
      hide Inv, Play, Identity, Alone;
      var got, current := GetLease();
      ghost var sofar := log;
      if got == NotFound {
        answer := Waits("");
      } else if got != Done || (current.identity != Identity(me) && ParseHolder(current.identity).None?) {
        answer := Errored;
      } else if current.identity == Identity(me) {
        answer := Held;
      } else {
        answer := TakeOver(current.identity);
      }
      AloneParts(me, old(log), sofar, log);
    }

    /** Another run holds it: only a dead run's Lease is taken over. */
    method TakeOver(identity: string) returns (answer: Answer)
      requires Valid() && me in s.runs && Mine().op.Judging? && Mine().pos < |Mine().names| && Mine().names[Mine().pos] in stored
      modifies this`s, this`log
      ensures Valid() && Kept()
      ensures answer.Held? ==> TookIt(old(Mine().pos))
      ensures !answer.Held? ==> Mine().op == Over
      ensures Alone(me, old(log), log) && old(At(s, Mine().names[Mine().pos], Mine().op.rv)) ==>
                && answer == (if old(Mine().op.owner) in old(s).live then Waits(identity) else Held)
                && Touches(old(s), s, old(Mine().names[Mine().pos]))
    {
      hide Inv, Play, Identity, Alone;
      var failed, alive := CheckOwner();
      ghost var sofar := log;
      if failed {
        answer := Errored;
      } else if alive {
        answer := Waits(identity);
      } else {
        var updated := UpdateLease();
        answer := match updated { case Done => Held case Conflict => Waits(identity) case _ => Errored };
      }
      AloneParts(me, old(log), sofar, log);
    }

    /** Release of one Lease. Without an error it no longer names the run. */
    method Release(name: LeaseName) returns (ok: bool)
      requires Valid() && me in s.runs && Mine().op == Idle
      modifies this`s, this`log
      ensures Valid() && old(log) <= log
      ensures Mine().names == old(Mine().names)
      ensures ok ==> Mine().op == Idle && !Holds(s, me, name)
      ensures Alone(me, old(log), log) ==> ok
      ensures forall n :: Holds(s, me, n) ==> Holds(old(s), me, n)
      ensures forall n :: n != name && Holds(old(s), me, n) ==> Holds(s, me, n)
    {
      hide Inv, Play, Identity;
      Interfere();
      ghost var log1 := log;
      var fault: Fault := *;
      var mine := Holds(s, me, name);
      Act(ReleaseRead(name, fault));
      assert log[|log1|] == Action(me, ReleaseRead(name, fault));
      if !fault.NoFault? || !mine {
        return fault.NoFault?;
      }
      Interfere();
      ghost var log2 := log;
      fault := *;
      Act(ReleaseDelete(fault));
      assert log[|log2|] == Action(me, ReleaseDelete(fault));
      ok := fault.NoFault?;
    }

    /** A pass begins: it knows what is stored. */
    method Begin()
      requires Valid()
      modifies this
      ensures Valid() && old(log) <= log
      ensures me in s.runs && Mine().op == Idle && Mine().pos == 0 && recorded == stored && stored == old(stored)
      ensures Named(s, me) == old(Named(s, me))
    {
      assert InvOf(s, me);
      Act(BeginPass);
      recorded := stored;
    }

    /** holding: records the names, stores the record, and only then takes the
        Leases in order. It keeps what it took when it has to wait. */
    method Holding() returns (answer: Answer, ghost recordedAll: bool)
      requires Valid() && me in s.runs && Mine().op == Idle && Mine().pos == 0
      requires recorded == stored
      modifies this
      ensures Valid() && old(log) <= log && Mine().names == old(Mine().names)
      ensures forall n :: n in stored ==> n in recorded
      ensures answer.Held? ==> Mine().op == Idle && forall n :: n in Mine().names ==> (me, n) in s.took && Holds(s, me, n)
      ensures answer.Waits? ==> Mine().op == Over
      ensures !recordedAll ==> answer.Errored?
      ensures recordedAll && Alone(me, old(log), log) ==> (answer.Held? <==> forall n :: n in Mine().names ==> Free(old(s), me, n))
    {
      var names := Mine().names;
      var added := false;
      for i := 0 to |names|
        invariant Valid() && s == old(s) && stored == old(stored) && log == old(log)
        invariant stored <= recorded && (!added ==> recorded == stored)
        invariant forall j :: 0 <= j < i ==> names[j] in recorded
      {
        if names[i] !in recorded {
          recorded := recorded + [names[i]];
          added := true;
        }
      }
      if added {
        var fault: Fault := *;
        if !fault.FailsBefore? {
          stored := recorded;
        }
        if !fault.NoFault? {
          return Errored, false;
        }
      }
      recordedAll := true;
      answer := TakeAll(names);
    }

    /** The second loop of holding. With nothing in between, the run gets all its
        Leases exactly when all of them are free. */
    method TakeAll(names: seq<LeaseName>) returns (answer: Answer)
      requires Valid() && me in s.runs && Mine().names == names && Mine().op == Idle && Mine().pos == 0
      requires forall n :: n in names ==> n in stored
      modifies this`s, this`log
      ensures Valid() && old(log) <= log && Mine().names == names
      ensures answer.Held? ==> Mine().op == Idle && forall n :: n in names ==> (me, n) in s.took && Holds(s, me, n)
      ensures !answer.Held? ==> Mine().op == Over
      ensures Alone(me, old(log), log) ==> (answer.Held? <==> forall n :: n in names ==> Free(old(s), me, n))
    {
      hide Inv, Play, Identity, Alone, Verdict;
      AloneParts(me, log, log, log);
      for i := 0 to |names|
        invariant Valid() && old(log) <= log && me in s.runs && Mine().names == names && Mine().op == Idle && Mine().pos == i
        invariant forall j :: 0 <= j < i ==> (me, names[j]) in s.took
        invariant Alone(me, old(log), log) ==> (forall m :: Free(s, me, m) == Free(old(s), me, m)) && forall j :: 0 <= j < i ==> Free(old(s), me, names[j])
      {
        ghost var before, sofar := s, log;
        answer := Take();
        AloneParts(me, old(log), sofar, log);
        if !answer.Held? {
          assert Alone(me, old(log), log) ==> !Free(before, me, names[i]);
          return;
        }
        if Alone(me, old(log), log) { TakenStaysFree(before, s, me, names[i]); }
      }
      TookMeansHolds();
      answer := Held;
    }

    lemma TookMeansHolds()
      requires Valid() && me in s.runs
      ensures forall n :: (me, n) in s.took ==> Holds(s, me, n)
    {
      assert InvOf(s, me);
    }

    /** releaseAll: without an error, no Lease names the run. */
    method ReleaseAll() returns (ok: bool)
      requires Valid() && me in s.runs && Mine().op == Idle
      requires forall n :: n in stored ==> n in recorded
      modifies this`s, this`log
      ensures Valid() && old(log) <= log
      ensures ok ==> !Named(s, me)
      ensures Alone(me, old(log), log) ==> ok
      ensures forall n :: Holds(s, me, n) ==> Holds(old(s), me, n)
    {
      hide Play, Identity, Alone;
      for i := 0 to |recorded|
        invariant forall n :: Holds(s, me, n) ==> Holds(old(s), me, n)
        invariant Valid() && old(log) <= log && me in s.runs && Mine().op == Idle
        invariant forall j :: 0 <= j < i ==> !Holds(s, me, recorded[j])
      {
        ghost var before, sofar := s, log;
        ok := Release(recorded[i]);
        AloneParts(me, old(log), sofar, log);
        if !ok {
          return;
        }
        forall j | 0 <= j < i ensures !Holds(s, me, recorded[j]) { assert !Holds(before, me, recorded[j]); }
      }
      ok := true;
      assert forall n :: n in s.leases && s.leases[n].identity == Identity(me) ==> n in recorded;
    }
  }

  // ------------------------------------------- what a reconciler sees of them

  /** The Leases of the run are as the protocol allows. */
  ghost predicate Sound(c: Client)
    reads c
  {
    c.Valid()
  }

  /** The pass may take or release. */
  ghost predicate Ready(c: Client)
    reads c
  {
    c.Valid() && c.me in c.s.runs && c.Mine().op == Idle && forall n :: n in c.stored ==> n in c.recorded
  }

  /** Some Lease names the run. */
  ghost predicate HasLease(c: Client)
    reads c
  {
    Named(c.s, c.me)
  }

  /** A Take ended the pass: the run waits, or a call failed. */
  ghost predicate Stopped(c: Client)
    reads c
  {
    c.me in c.s.runs && c.Mine().op == Over
  }

  /** The run holds every Lease it asks for. */
  ghost predicate HoldsAll(c: Client)
    reads c
  {
    c.me in c.s.runs && forall n :: n in c.Mine().names ==> Holds(c.s, c.me, n)
  }

  method BeginPass(c: Client)
    requires Sound(c)
    modifies c
    ensures Sound(c) && Ready(c) && AtStart(c) && HasLease(c) == old(HasLease(c))
  {
    c.Begin();
  }

  /** The pass has not taken anything yet. */
  ghost predicate AtStart(c: Client)
    reads c
  {
    c.me in c.s.runs && c.Mine().pos == 0 && c.recorded == c.stored
  }

  method TakeLeases(c: Client) returns (answer: Answer)
    requires Sound(c) && Ready(c) && AtStart(c)
    modifies c
    ensures Sound(c) && (answer.Held? ==> Ready(c) && HoldsAll(c)) && (answer.Waits? ==> Stopped(c))
  {
    ghost var recordedAll: bool;
    answer, recordedAll := c.Holding();
  }

  method ReleaseLeases(c: Client) returns (ok: bool)
    requires Sound(c) && Ready(c)
    modifies c
    ensures Sound(c) && (ok ==> !HasLease(c)) && (HasLease(c) ==> old(HasLease(c)))
  {
    ok := c.ReleaseAll();
    if HasLease(c) {
      var n :| n in c.s.leases && c.s.leases[n].identity == Identity(c.me);
      assert Holds(c.s, c.me, n);
    }
  }
}

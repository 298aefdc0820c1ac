/**
 OpenCached: any number of calls at once share one cache of master keys and one
 slot for the key derivation.

 The key files of a location are fixed by their names, and the name of a cache
 entry is taken as the location, the password and the listed names themselves,
 which stands for a hash without collisions.
 */
module KeyCache {
  import opened Common

  /** What a key file gives for a password. */
  datatype Verdict = WrongKey | Undecodable | Opens(master: nat)

  /** The key files: what the file of a name at a location gives for a password. */
  type Files = (string, string, string) -> Verdict

  datatype Entry = Entry(location: string, password: string, names: seq<string>)

  /** How an open ends: with a master key, because there is no repository, because
      no key file opens, or because a file does not decode. A call that was cut
      short, by its context or by a failed read, gives no answer. */
  datatype Result = Master(master: nat) | NoRepository | NoKeyOpens | BadKeyFile

  function OpenKeys(files: Files, e: Entry): Result
    decreases |e.names|
  {
    if e.names == [] then NoKeyOpens
    else
      match files(e.location, e.password, e.names[0])
      case WrongKey => OpenKeys(files, e.(names := e.names[1..]))
      case Undecodable => BadKeyFile
      case Opens(master) => Master(master)
  }

  /** The first key file that the password does not fail on. */
  ghost predicate Decides(files: Files, e: Entry, k: nat) {
    && k < |e.names| && files(e.location, e.password, e.names[k]) != WrongKey
    && forall j :: 0 <= j < k ==> files(e.location, e.password, e.names[j]) == WrongKey
  }

  /** The first file that is not a wrong key decides: it opens, or it does not
      decode; and no key opens exactly when all are wrong keys. */
  lemma {:induction false} OpenMeans(files: Files, e: Entry)
    ensures forall k: nat :: Decides(files, e, k) ==>
              OpenKeys(files, e) == match files(e.location, e.password, e.names[k]) { case Opens(master) => Master(master) case _ => BadKeyFile }
    ensures OpenKeys(files, e) == NoKeyOpens <==> forall k :: 0 <= k < |e.names| ==> files(e.location, e.password, e.names[k]) == WrongKey
    ensures Open(files, e) == NoRepository <==> e.names == []
    decreases |e.names|
  {
    if e.names != [] {
      var rest := e.(names := e.names[1..]);
      OpenMeans(files, rest);
      if files(e.location, e.password, e.names[0]) == WrongKey {
        assert forall k: nat :: 0 < k < |e.names| ==> rest.names[k - 1] == e.names[k];
        forall k: nat | Decides(files, e, k) ensures k > 0 && Decides(files, rest, k - 1) { assert forall j: nat :: j < k - 1 ==> rest.names[j] == e.names[j + 1]; }
      }
    }
  }

  /** What Open gives. */
  function Open(files: Files, e: Entry): Result { if e.names == [] then NoRepository else OpenKeys(files, e) }

  // ------------------------------------------------------- the state machine

  datatype Stage =
    | Waiting
    | Checking
    | Deriving(left: seq<string>)
    | Answered(result: Result)
    | CutShort

  datatype Call = Call(entry: Entry, stage: Stage)

  /** `derived` counts the derivations that gave the master key of an entry. */
  datatype State = State(masters: map<Entry, nat>, slot: Option<nat>, calls: map<nat, Call>, derived: map<Entry, nat>)

  datatype Step =
    | Begin(id: nat, entry: Entry)
    | Acquire(id: nat)
    | Recheck(id: nat)
    | TryKey(id: nat, fault: Fault)
    | Cancel(id: nat)

  function Put(s: State, id: nat, stage: Stage): State
    requires id in s.calls
  {
    s.(calls := s.calls[id := s.calls[id].(stage := stage)])
  }

  function Derived(s: State, e: Entry): nat { if e in s.derived then s.derived[e] else 0 }

  function Next(files: Files, s: State, step: Step): State {
    if step.Begin? then
      if step.id in s.calls then s
      else
        var e := step.entry;
        var stage := if e.names == [] then Answered(NoRepository) else if e in s.masters then Answered(Master(s.masters[e])) else Waiting;
        s.(calls := s.calls[step.id := Call(e, stage)])
    else if step.id !in s.calls then s
    else
      var e, stage := s.calls[step.id].entry, s.calls[step.id].stage;
      match step
      case Acquire(id) => if stage == Waiting && s.slot.None? then Put(s, id, Checking).(slot := Some(id)) else s
      case Recheck(id) =>
        if stage != Checking then s
        else if e in s.masters then Put(s, id, Answered(Master(s.masters[e]))).(slot := None)
        else Put(s, id, Deriving(e.names))
      case TryKey(id, fault) => if stage.Deriving? then NextTry(files, s, id, fault) else s
      case Cancel(id) => if stage == Waiting then Put(s, id, CutShort) else s
  }

  /** One turn of the loop in openKeys. The slot is given back on every way out. */
  function NextTry(files: Files, s: State, id: nat, fault: Fault): State
    requires id in s.calls && s.calls[id].stage.Deriving?
  {
    var e, left := s.calls[id].entry, s.calls[id].stage.left;
    if left == [] then Put(s, id, Answered(NoKeyOpens)).(slot := None)
    else if !fault.NoFault? then Put(s, id, CutShort).(slot := None)
    else
      match files(e.location, e.password, left[0])
      case WrongKey => Put(s, id, Deriving(left[1..]))
      case Undecodable => Put(s, id, Answered(BadKeyFile)).(slot := None)
      case Opens(master) =>
        Put(s, id, Answered(Master(master))).(slot := None, masters := s.masters[e := master], derived := s.derived[e := Derived(s, e) + 1])
  }

  function Play(files: Files, s: State, steps: seq<Step>): State {
    if steps == [] then s else Next(files, Play(files, s, steps[..|steps| - 1]), steps[|steps| - 1])
  }

  predicate Init(s: State) { s == State(map[], None, map[], map[]) }

  // -------------------------------------------------------------- invariants

  predicate CallInv(files: Files, s: State, id: nat)
    requires id in s.calls
  {
    var e, stage := s.calls[id].entry, s.calls[id].stage;
    && (stage.Checking? || stage.Deriving? ==> s.slot == Some(id))
    && (stage.Waiting? || stage.Checking? || stage.Deriving? ==> e.names != [])
    && (stage.Deriving? ==> e !in s.masters && OpenKeys(files, e) == OpenKeys(files, e.(names := stage.left)))
    && (stage.Answered? ==> stage.result == Open(files, e))
  }

  ghost predicate Inv(files: Files, s: State) {
    && (forall id :: id in s.calls ==> CallInv(files, s, id))
    && (s.slot.Some? ==> s.slot.value in s.calls && (s.calls[s.slot.value].stage.Checking? || s.calls[s.slot.value].stage.Deriving?))
    && (forall e :: e in s.masters ==> e.names != [] && Open(files, e) == Master(s.masters[e]))
    && (forall e :: Derived(s, e) == if e in s.masters then 1 else 0)
  }

  lemma TryKeepsInv(files: Files, s: State, id: nat, fault: Fault)
    requires Inv(files, s) && id in s.calls && s.calls[id].stage.Deriving?
    ensures Inv(files, NextTry(files, s, id, fault))
  {
    var s' := NextTry(files, s, id, fault);
    assert CallInv(files, s, id);
    forall q | q in s'.calls ensures CallInv(files, s', q) {
      assert CallInv(files, s, q);
    }
    forall e ensures Derived(s', e) == if e in s'.masters then 1 else 0 { assert Derived(s, e) == if e in s.masters then 1 else 0; }
  }

  lemma StepKeepsInv(files: Files, s: State, step: Step)
    requires Inv(files, s)
    ensures Inv(files, Next(files, s, step))
  {
    hide OpenKeys, NextTry;
    if step.TryKey? && step.id in s.calls && s.calls[step.id].stage.Deriving? {
      TryKeepsInv(files, s, step.id, step.fault);
    } else {
      var s' := Next(files, s, step);
      if step.id in s.calls { assert CallInv(files, s, step.id); }
      forall q | q in s'.calls ensures CallInv(files, s', q) {
        if q in s.calls { assert CallInv(files, s, q); }
      }
      assert forall e :: Derived(s', e) == Derived(s, e);
    }
  }

  lemma {:induction false} PlayKeepsInv(files: Files, s: State, steps: seq<Step>)
    requires Init(s)
    ensures Inv(files, Play(files, s, steps))
  {
    if steps != [] {
      PlayKeepsInv(files, s, steps[..|steps| - 1]);
      StepKeepsInv(files, Play(files, s, steps[..|steps| - 1]), steps[|steps| - 1]);
    }
  }

  /** Over any interleaving, each answer is the one Open gives, at most one
      derivation runs at a time, and each entry is derived at most once. */
  lemma CachedOpenRefinesOpen(files: Files, s: State, steps: seq<Step>, p: nat, q: nat, e: Entry)
    requires Init(s)
    ensures var end := Play(files, s, steps);
            && (p in end.calls && end.calls[p].stage.Answered? ==> end.calls[p].stage.result == Open(files, end.calls[p].entry))
            && (p in end.calls && q in end.calls && end.calls[p].stage.Deriving? && end.calls[q].stage.Deriving? ==> p == q)
            && Derived(end, e) <= 1
  {
    PlayKeepsInv(files, s, steps);
    var end := Play(files, s, steps);
    if p in end.calls { assert CallInv(files, end, p); }
    if q in end.calls { assert CallInv(files, end, q); }
    assert Derived(end, e) == if e in end.masters then 1 else 0;
  }

  // ------------------------------------------------------------- the program

  /** What other calls leave alone. */
  ghost predicate Rely(id: nat, s: State, s': State) {
    && (id in s.calls <==> id in s'.calls) && (id in s.calls ==> s'.calls[id] == s.calls[id])
    && (s.slot == Some(id) <==> s'.slot == Some(id))
    && (s.slot == Some(id) ==> s'.masters == s.masters)
    && (forall e :: e in s.masters ==> e in s'.masters && s'.masters[e] == s.masters[e])
  }

  lemma TryIsRelied(files: Files, id: nat, s: State, other: nat, fault: Fault)
    requires other in s.calls && s.calls[other].stage.Deriving? && s.slot == Some(other) && s.calls[other].entry !in s.masters && other != id
    ensures Rely(id, s, NextTry(files, s, other, fault))
  {
  }

  lemma OthersAreRelied(files: Files, id: nat, s: State, step: Step)
    requires Inv(files, s) && step.id != id
    ensures Inv(files, Next(files, s, step)) && Rely(id, s, Next(files, s, step))
  {
    hide Inv, OpenKeys, NextTry;
    StepKeepsInv(files, s, step);
    if step.id in s.calls {
      HasAnswer(files, s, step.id);
      if step.TryKey? && s.calls[step.id].stage.Deriving? { TryIsRelied(files, id, s, step.id, step.fault); }
    }
  }

  /** One call of OpenCached among others. */
  /** Between the two logs there are only steps of the call, and every read of a key
      file went through. */
  predicate Alone(id: nat, before: seq<Step>, after: seq<Step>) {
    before <= after && forall i :: |before| <= i < |after| ==> after[i].id == id && (after[i].TryKey? ==> after[i].fault.NoFault?)
  }

  lemma AloneParts(id: nat, a: seq<Step>, b: seq<Step>, c: seq<Step>)
    requires a <= b <= c
    ensures Alone(id, a, c) <==> Alone(id, a, b) && Alone(id, b, c)
  {
    assert forall i :: |a| <= i < |b| ==> c[i] == b[i];
  }

  class Caller {
    const files: Files
    const id: nat
    var s: State
    ghost var log: seq<Step>

    ghost predicate Valid()
      reads this
    {
      Inv(files, s)
    }

    constructor (files: Files, id: nat, s: State)
      requires Inv(files, s)
      ensures Valid() && this.files == files && this.id == id && this.s == s
    {
      this.files, this.id, this.s, log := files, id, s, [];
    }

    method Interfere()
      requires Valid()
      modifies this
      ensures Valid() && Rely(id, old(s), s) && old(log) <= log
      ensures Alone(id, old(log), log) ==> s == old(s) && log == old(log)
    {
      hide Inv;
      var steps: nat := *;
      while steps > 0
        invariant Valid() && Rely(id, old(s), s) && old(log) <= log
        invariant Alone(id, old(log), log) ==> s == old(s) && log == old(log)
      {
        var step: Step := *;
        if step.id != id {
          OthersAreRelied(files, id, s, step);
          assert (log + [step])[|log|] == step;
          s, log := Next(files, s, step), log + [step];
        }
        steps := steps - 1;
      }
    }

    method Act(step: Step)
      requires Valid() && step.id == id
      modifies this
      ensures Valid() && s == Next(files, old(s), step) && log == old(log) + [step]
      ensures forall before :: before <= old(log) ==> (Alone(id, before, log) <==> Alone(id, before, old(log)) && (step.TryKey? ==> step.fault.NoFault?))
    {
      hide Inv, Next;
      StepKeepsInv(files, s, step);
      forall before | before <= log ensures Alone(id, before, log + [step]) <==> Alone(id, before, log) && (step.TryKey? ==> step.fault.NoFault?) {
        AloneParts(id, before, log, log + [step]);
        assert (log + [step])[|log|] == step;
      }
      s, log := Next(files, s, step), log + [step];
    }

    /** OpenCached: None when the context ended before the slot was free or a
        read failed; otherwise the answer of Open. The slot is never kept. With
        nothing in between, a free slot and every read through, there is an answer.
        `cancelled` says that the context ends while the call waits. */
    method OpenCached(e: Entry, cancelled: bool) returns (result: Option<Result>)
      requires Valid() && id !in s.calls
      modifies this
      ensures Valid() && s.slot != Some(id) && old(log) <= log
      ensures result.Some? ==> result.value == Open(files, e)
      ensures result.Some? && result.value.Master? ==> e in s.masters
      ensures Alone(id, old(log), log) && !cancelled && old(s).slot.None? ==> result.Some?
    {
      hide Inv, OpenKeys, Alone;
      ghost var mark := log;
      Interfere();
      SlotIsACall(files, s, id);
      Act(Begin(id, e));
      HasAnswer(files, s, id);
      if s.calls[id].stage.Answered? {
        return Some(s.calls[id].stage.result);
      }
      ghost var begun := log;
      Interfere();
      AloneParts(id, mark, begun, log);
      assert mark <= log && (Alone(id, mark, log) ==> s.slot == old(s).slot);
      if cancelled || s.slot.Some? {
        Act(Cancel(id));
        return None;
      }
      Act(Acquire(id));
      ghost var acquired := log;
      result := Recheck(e);
      AloneParts(id, mark, acquired, log);
    }

    /** Inside the slot: the cache once more, and then the key files. */
    method Recheck(e: Entry) returns (result: Option<Result>)
      requires Valid() && id in s.calls && s.calls[id] == Call(e, Checking)
      modifies this
      ensures Valid() && s.slot != Some(id) && old(log) <= log
      ensures result.Some? ==> result.value == Open(files, e)
      ensures result.Some? && result.value.Master? ==> e in s.masters
      ensures Alone(id, old(log), log) ==> result.Some?
    {
      hide Inv, OpenKeys, Alone;
      ghost var mark := log;
      Interfere();
      Act(Step.Recheck(id));
      HasAnswer(files, s, id);
      if s.calls[id].stage.Answered? {
        return Some(s.calls[id].stage.result);
      }
      ghost var checked := log;
      result := Derive(e);
      AloneParts(id, mark, checked, log);
    }

    /** openKeys inside the slot, and the store of the master key. */
    method Derive(e: Entry) returns (result: Option<Result>)
      requires Valid() && id in s.calls && s.calls[id] == Call(e, Deriving(e.names))
      modifies this
      ensures Valid() && s.slot != Some(id) && old(log) <= log
      ensures result.Some? ==> result.value == Open(files, e)
      ensures result.Some? && result.value.Master? ==> e in s.masters
      ensures Alone(id, old(log), log) ==> result.Some?
    {
      hide Inv, OpenKeys, Alone;
      ghost var mark := log;
      while true
        invariant Valid() && id in s.calls && s.calls[id].entry == e && s.calls[id].stage.Deriving? && mark <= log
        decreases |s.calls[id].stage.left|
      {
        ghost var sofar := log;
        Interfere();
        var fault: Fault := *;
        Act(TryKey(id, fault));
        AloneParts(id, mark, sofar, log);
        HasAnswer(files, s, id);
        if s.calls[id].stage.Answered? {
          return Some(s.calls[id].stage.result);
        }
        if s.calls[id].stage.CutShort? {
          return None;
        }
      }
    }
  }

  lemma HasAnswer(files: Files, s: State, id: nat)
    requires Inv(files, s) && id in s.calls
    ensures CallInv(files, s, id)
  {
  }

  lemma SlotIsACall(files: Files, s: State, id: nat)
    requires Inv(files, s) && id !in s.calls
    ensures s.slot != Some(id)
  {
  }
}

/**
 Can runs wait for each other in a circle?

 A run keeps what it took while it waits for the next Lease. All runs take
 their Leases along one order, so a circle needs a run that holds a Lease
 behind the one it waits for. That takes a run that was stopped while it gave
 its Leases back: releaseAll deletes the first ones first, and the next pass of
 the run starts to take them again while it still holds the later ones.
 */
module LeaseCycles {
  import opened Common
  import opened Holders
  import opened LeaseNames
  import opened LeaseProtocol

  /** Run h waits at its i-th Lease, which the live run g holds. */
  ghost predicate WaitsAt(s: State, h: Holder, i: nat, g: Holder) {
    && h in s.live && h in s.runs && g in s.live && g != h
    && i < |s.runs[h].names|
    && (forall j :: 0 <= j < i ==> Holds(s, h, s.runs[h].names[j]))
    && Holds(s, g, s.runs[h].names[i])
  }

  /** One run after the other waits for the next one, and the last for the first. */
  ghost predicate Circle(s: State, runs: seq<Holder>, at: seq<nat>) {
    && |runs| == |at| > 0
    && (forall k :: 0 <= k < |runs| - 1 ==> WaitsAt(s, runs[k], at[k], runs[k + 1]))
    && WaitsAt(s, runs[|runs| - 1], at[|runs| - 1], runs[0])
  }

  /** Every run that starts takes the Leases of a plan. */
  ghost predicate PlannedStarts(ns: Namespace, actions: seq<Action>) {
    forall i :: 0 <= i < |actions| && actions[i].call.Start? ==>
                  exists plan :: Planned(ns, plan) && actions[i].call.names == LeasesOf(plan)
  }

  /** The names of a run are those it started with. */
  lemma StepKeepsNames(s: State, a: Action, h: Holder)
    requires h in Next(s, a).runs
    ensures if h in s.runs then Next(s, a).runs[h].names == s.runs[h].names
            else a.who == h && a.call.Start? && Next(s, a).runs[h].names == a.call.names
  {
  }

  lemma {:induction false} NamesAlongTheOrder(ns: Namespace, s: State, actions: seq<Action>, h: Holder)
    requires Unshared(ns) && PlannedStarts(ns, actions) && s.runs == map[]
    requires h in Play(s, actions).runs
    ensures AlongTheOrder(ns, Play(s, actions).runs[h].names)
  {
    if actions != [] {
      var a, before := actions[|actions| - 1], Play(s, actions[..|actions| - 1]);
      StepKeepsNames(before, a, h);
      if h in before.runs {
        NamesAlongTheOrder(ns, s, actions[..|actions| - 1], h);
      } else {
        var plan :| Planned(ns, plan) && a.call.names == LeasesOf(plan);
        LeasesAlongTheOrder(ns, plan);
      }
    }
  }

  /** A waiting run that was not stopped partway holds only Leases before the one it
      waits for. */
  lemma HoldsOnlyEarlier(s: State, h: Holder, i: nat, g: Holder, n: LeaseName)
    requires Inv(s) && WaitsAt(s, h, i, g) && !s.runs[h].partway && Holds(s, h, n)
    ensures n in s.runs[h].names[..i]
  {
    var r := s.runs[h];
    assert InvOf(s, h) && InvOf(s, g);
    Distinct(g, h);
    var j :| 0 <= j < |Sofar(r)| && Sofar(r)[j] == n;
    assert i >= r.reach;
    assert j < i;
    assert r.names[..i][j] == n;
  }

  /** Where the circle stands: the Lease that its k-th run waits for. */
  ghost function Wanted(s: State, runs: seq<Holder>, at: seq<nat>, k: nat): LeaseName
    requires Circle(s, runs, at) && k < |runs|
  {
    assert k < |runs| - 1 ==> WaitsAt(s, runs[k], at[k], runs[k + 1]);
    s.runs[runs[k]].names[at[k]]
  }

  /** What a run waits for comes before what its holder waits for. */
  lemma WaitsForward(ns: Namespace, s: State, h: Holder, i: nat, g: Holder, j: nat, f: Holder)
    requires Inv(s) && WaitsAt(s, h, i, g) && WaitsAt(s, g, j, f)
    requires !s.runs[g].partway && AlongTheOrder(ns, s.runs[g].names)
    ensures KeyLess(KeyOf(ns, s.runs[h].names[i]), KeyOf(ns, s.runs[g].names[j]))
  {
    HoldsOnlyEarlier(s, g, j, f, s.runs[h].names[i]);
    var m :| 0 <= m < j && s.runs[g].names[..j][m] == s.runs[h].names[i];
    assert s.runs[g].names[m] == s.runs[h].names[i];
  }

  lemma {:induction false} WantedAscends(ns: Namespace, s: State, runs: seq<Holder>, at: seq<nat>, k: nat)
    requires Inv(s) && Circle(s, runs, at) && 0 < k < |runs|
    requires forall j :: 0 <= j < |runs| ==> runs[j] in s.runs && !s.runs[runs[j]].partway && AlongTheOrder(ns, s.runs[runs[j]].names)
    ensures KeyLess(KeyOf(ns, Wanted(s, runs, at, 0)), KeyOf(ns, Wanted(s, runs, at, k)))
  {
    var f := if k == |runs| - 1 then runs[0] else runs[k + 1];
    WaitsForward(ns, s, runs[k - 1], at[k - 1], runs[k], at[k], f);
    if k > 1 {
      WantedAscends(ns, s, runs, at, k - 1);
      KeyLessTransitive(KeyOf(ns, Wanted(s, runs, at, 0)), KeyOf(ns, Wanted(s, runs, at, k - 1)), KeyOf(ns, Wanted(s, runs, at, k)));
    }
  }

  /** In every interleaving, each circle of waiting runs contains a run that
      was stopped partway through giving its Leases back. So without a stop or
      a failed call inside releaseAll no runs wait in a circle. */
  lemma CirclesNeedAReturn(ns: Namespace, s: State, actions: seq<Action>, runs: seq<Holder>, at: seq<nat>)
    requires Init(s) && Unshared(ns) && PlannedStarts(ns, actions)
    requires Circle(Play(s, actions), runs, at)
    ensures exists k :: 0 <= k < |runs| && runs[k] in Play(s, actions).runs && Play(s, actions).runs[runs[k]].partway
  {
    hide Inv, Play, KeyOf, KeyLess, AlongTheOrder;
    var e := Play(s, actions);
    PlayKeepsInv(s, actions);
    forall k | 0 <= k < |runs| ensures runs[k] in e.runs && AlongTheOrder(ns, e.runs[runs[k]].names) {
      assert k < |runs| - 1 ==> WaitsAt(e, runs[k], at[k], runs[k + 1]);
      NamesAlongTheOrder(ns, s, actions, runs[k]);
    }
    if forall k :: 0 <= k < |runs| ==> !e.runs[runs[k]].partway {
      var last := |runs| - 1;
      if last > 0 {
        WantedAscends(ns, e, runs, at, last);
        WaitsForward(ns, e, runs[last], at[last], runs[0], at[0], runs[1]);
        KeyLessTransitive(KeyOf(ns, Wanted(e, runs, at, 0)), KeyOf(ns, Wanted(e, runs, at, last)), KeyOf(ns, Wanted(e, runs, at, 0)));
      }
      KeyLessIrreflexive(KeyOf(ns, Wanted(e, runs, at, 0)));
    }
  }

  lemma {:induction false} PlayAppend(s: State, xs: seq<Action>, ys: seq<Action>)
    ensures Play(s, xs + ys) == Play(Play(s, xs), ys)
  {
    if ys == [] {
      assert xs + ys == xs;
    } else {
      PlayAppend(s, xs, ys[..|ys| - 1]);
      assert (xs + ys)[..|xs + ys| - 1] == xs + ys[..|ys| - 1];
    }
  }

  lemma PlayThree(s: State, x: Action, y: Action, z: Action)
    ensures Play(s, [x, y]) == Next(Next(s, x), y)
    ensures Play(s, [x, y, z]) == Next(Next(Next(s, x), y), z)
  {
    assert [x, y, z][..2] == [x, y] && [x, y][..1] == [x] && [x][..0] == [];
    assert Play(s, [x]) == Next(s, x);
  }

  /** Two runs of the same plan have started, and nothing is taken. */
  function BothStarted(a: Holder, b: Holder, names: seq<LeaseName>): State {
    var run := Run(names, 0, 0, Over, false);
    State(map[], 0, map[a := run, b := run], {a, b}, {})
  }

  /** Run a took both Leases of the plan. */
  lemma FirstTakesBoth(a: Holder, b: Holder, m: LeaseName, n: LeaseName)
    requires a != b && m != n
    ensures var s := BothStarted(a, b, [m, n]);
            Play(s, [Action(a, BeginPass), Action(a, Create(NoFault)), Action(a, Create(NoFault))])
            == s.(leases := map[m := Lease(Identity(a), 0), n := Lease(Identity(a), 1)], nextRv := 2,
                  runs := s.runs[a := Run([m, n], 2, 2, Idle, false)], took := {(a, m), (a, n)})
  {
    var s := BothStarted(a, b, [m, n]);
    PlayThree(s, Action(a, BeginPass), Action(a, Create(NoFault)), Action(a, Create(NoFault)));
    var s1 := Next(s, Action(a, BeginPass));
    var s2 := Next(s1, Action(a, Create(NoFault)));
    assert s2.leases == map[m := Lease(Identity(a), 0)] && s2.runs[a] == Run([m, n], 1, 1, Idle, false);
    assert s2.took == {(a, m)};
  }

  /** Run a starts to give its Leases back. */
  lemma FirstReturnsOne(s: State, a: Holder, b: Holder, m: LeaseName, n: LeaseName)
    requires a != b && m != n && s.leases == map[m := Lease(Identity(a), 0), n := Lease(Identity(a), 1)] && s.nextRv == 2
    requires a in s.runs && s.runs[a] == Run([m, n], 2, 2, Idle, false)
    requires b in s.runs && s.runs[b] == Run([m, n], 0, 0, Over, false)
    ensures var e := Play(s, [Action(a, ReleaseRead(m, NoFault)), Action(a, ReleaseDelete(NoFault))]);
            && e.leases == map[n := Lease(Identity(a), 1)] && e.nextRv == 2
            && e.live == s.live && e.runs == s.runs[a := Run([m, n], 2, 2, Idle, true)]
  {
    var x, y := Action(a, ReleaseRead(m, NoFault)), Action(a, ReleaseDelete(NoFault));
    PlayThree(s, x, y, x);
    assert Next(s, x).runs[a] == Run([m, n], 2, 2, Dropping(m, 0), true);
  }

  /** It is stopped; run b takes the Lease, and both go on with their passes. */
  lemma SecondTakesIt(s: State, a: Holder, b: Holder, m: LeaseName, n: LeaseName)
    requires a != b && m != n && s.leases == map[n := Lease(Identity(a), 1)] && s.nextRv == 2
    requires a in s.runs && s.runs[a] == Run([m, n], 2, 2, Idle, true)
    requires b in s.runs && s.runs[b] == Run([m, n], 0, 0, Over, false)
    ensures var e := Play(s, [Action(b, BeginPass), Action(b, Create(NoFault)), Action(a, BeginPass)]);
            && e.leases == map[n := Lease(Identity(a), 1), m := Lease(Identity(b), 2)]
            && e.live == s.live && e.runs.Keys == s.runs.Keys && e.runs[a].names == [m, n] && e.runs[b].names == [m, n]
  {
    var x, y, z := Action(b, BeginPass), Action(b, Create(NoFault)), Action(a, BeginPass);
    PlayThree(s, x, y, z);
    assert Next(s, x).runs[b] == Run([m, n], 0, 0, Idle, false);
  }

  function Empty(): State { State(map[], 0, map[], {}, {}) }

  function Starts(a: Holder, b: Holder, names: seq<LeaseName>): seq<Action> {
    [Action(a, Start(names)), Action(b, Start(names))]
  }

  lemma BothStart(a: Holder, b: Holder, names: seq<LeaseName>)
    requires a != b && WellFormed(a) && WellFormed(b)
    ensures Play(Empty(), Starts(a, b, names)) == BothStarted(a, b, names)
  {
    PlayThree(Empty(), Starts(a, b, names)[0], Starts(a, b, names)[1], Action(a, End));
  }

  /** The calls after which runs a and b wait for each other. */
  function Script(a: Holder, b: Holder, m: LeaseName, n: LeaseName): seq<Action> {
    Starts(a, b, [m, n])
    + [Action(a, BeginPass), Action(a, Create(NoFault)), Action(a, Create(NoFault))]
    + [Action(a, ReleaseRead(m, NoFault)), Action(a, ReleaseDelete(NoFault))]
    + [Action(b, BeginPass), Action(b, Create(NoFault)), Action(a, BeginPass)]
  }

  lemma ScriptEndsInACircle(a: Holder, b: Holder, m: LeaseName, n: LeaseName)
    requires a != b && WellFormed(a) && WellFormed(b) && m != n
    ensures Circle(Play(Empty(), Script(a, b, m, n)), [a, b], [0, 1])
  {
    var starts := Starts(a, b, [m, n]);
    var takes := [Action(a, BeginPass), Action(a, Create(NoFault)), Action(a, Create(NoFault))];
    var stops := [Action(a, ReleaseRead(m, NoFault)), Action(a, ReleaseDelete(NoFault))];
    var again := [Action(b, BeginPass), Action(b, Create(NoFault)), Action(a, BeginPass)];
    BothStart(a, b, [m, n]);
    FirstTakesBoth(a, b, m, n);
    PlayAppend(Empty(), starts, takes);
    FirstReturnsOne(Play(Empty(), starts + takes), a, b, m, n);
    PlayAppend(Empty(), starts + takes, stops);
    SecondTakesIt(Play(Empty(), starts + takes + stops), a, b, m, n);
    PlayAppend(Empty(), starts + takes + stops, again);
  }

  /** A circle does occur. Two restores of one claim pause the app; the first
      one finishes, deletes the Lease backup-pause and is stopped. The second
      takes backup-pause and waits for the claim, and the next pass of the
      first waits for backup-pause. */
  lemma StoppedReturnMakesACircle() returns (actions: seq<Action>, runs: seq<Holder>)
    ensures PlannedStarts(Namespace({}, map[]), actions)
    ensures Circle(Play(Empty(), actions), runs, [0, 1])
  {
    var a, b := Holder("RestoreRun", "a", "1"), Holder("RestoreRun", "b", "2");
    var plan := Plan(true, [Volume("data")], map[]);
    ItemNamesStep(plan.items, 0, map[]);
    assert plan.items[..1] == plan.items && plan.items[..0] == [];
    assert LeasesOf(plan) == [Pause, Claim("data")] && Planned(Namespace({}, map[]), plan);
    actions, runs := Script(a, b, Pause, Claim("data")), [a, b];
    ScriptEndsInACircle(a, b, Pause, Claim("data"));
  }
}

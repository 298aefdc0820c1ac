/** The tick of a schedule that is due: dueTick and the loop that feeds it. */
module Schedule {
  import opened Common

  /** A cron schedule: the least tick after a time. A schedule without a next tick
      is outside this contract. */
  type Next = nat -> nat

  ghost predicate Ticks(next: Next, tick: nat -> bool) {
    forall t: nat :: next(t) > t && tick(next(t)) && forall u: nat :: t < u < next(t) ==> !tick(u)
  }

  /** The greatest tick after the baseline and not after now, or none. */
  ghost predicate IsDue(tick: nat -> bool, baseline: nat, now: nat, due: Option<nat>) {
    match due
    case Some(d) => tick(d) && baseline < d <= now && forall u: nat :: d < u <= now ==> !tick(u)
    case None => forall u: nat :: baseline < u <= now ==> !tick(u)
  }

  method DueTick(next: Next, ghost tick: nat -> bool, baseline: nat, now: nat) returns (due: Option<nat>)
    requires Ticks(next, tick)
    ensures IsDue(tick, baseline, now, due)
  {
    var d := next(baseline);
    if d > now {
      return None;
    }
    var n := next(d);
    while n <= now
      invariant tick(d) && baseline < d <= now && n == next(d) && d < n
      decreases now - d
    {
      d := n;
      n := next(n);
    }
    due := Some(d);
  }

  /** The baseline: the newest tick that has a run, or the creation of the
      namespace. A run without a readable label counts for nothing. */
  method Baseline(created: nat, labels: seq<Option<nat>>) returns (baseline: nat)
    ensures baseline >= created && (baseline == created || Some(baseline) in labels)
    ensures forall t: nat :: Some(t) in labels ==> t <= baseline
  {
    baseline := created;
    for i := 0 to |labels|
      invariant baseline >= created && (baseline == created || Some(baseline) in labels)
      invariant forall j :: 0 <= j < i && labels[j].Some? ==> labels[j].value <= baseline
    {
      if labels[i].Some? && labels[i].value > baseline {
        baseline := labels[i].value;
        assert labels[i] == Some(baseline);
      }
    }
  }

  /** What Baseline gives. */
  ghost predicate IsBaseline(created: nat, labels: set<nat>, baseline: nat) {
    baseline >= created && (baseline == created || baseline in labels) && forall t :: t in labels ==> t <= baseline
  }

  /** An earlier tick is due again if and only if neither its run nor a run of a
      later tick is left, and no tick came since. */
  lemma DueAgainIff(tick: nat -> bool, created: nat, labels: set<nat>, baseline: nat, now: nat, due: Option<nat>, d: nat)
    requires IsBaseline(created, labels, baseline) && IsDue(tick, baseline, now, due)
    requires tick(d) && created < d <= now
    ensures due == Some(d) <==> (forall t :: t in labels ==> t < d) && (forall u: nat :: d < u <= now ==> !tick(u))
  {
    if (forall t :: t in labels ==> t < d) && (forall u: nat :: d < u <= now ==> !tick(u)) {
      assert baseline < d;
    }
  }

  // ------------------------------------------------------ the whole schedule

  /** One reconcile: the time, the ticks whose runs disappeared before it, and
      whether a due tick has to wait: the controller is paused, a run is
      unfinished, or nothing is marked. */
  datatype Visit = Visit(now: nat, gone: set<nat>, waits: bool)

  /** The ticks that have a run after the first k visits; `runs` gives the tick for
      which each visit created one. */
  function Standing(visits: seq<Visit>, runs: seq<Option<nat>>, k: nat): set<nat>
    requires k <= |visits| && k <= |runs|
  {
    if k == 0 then {}
    else (Standing(visits, runs, k - 1) - visits[k - 1].gone) + (if runs[k - 1].Some? then {runs[k - 1].value} else {})
  }

  /** What visit k finds. */
  function Left(visits: seq<Visit>, runs: seq<Option<nat>>, k: nat): set<nat>
    requires k < |visits| && k <= |runs|
  {
    Standing(visits, runs, k) - visits[k].gone
  }

  lemma {:induction false} MoreRuns(visits: seq<Visit>, runs: seq<Option<nat>>, more: seq<Option<nat>>, k: nat)
    requires k <= |visits| && k <= |runs|
    ensures Standing(visits, runs + more, k) == Standing(visits, runs, k)
  {
    if k > 0 { MoreRuns(visits, runs, more, k - 1); }
  }

  /** The visit created a run exactly when a tick was due and nothing made it wait,
      and the run is for the newest due tick, given the runs that were left. */
  ghost predicate VisitRight(tick: nat -> bool, created: nat, visits: seq<Visit>, runs: seq<Option<nat>>, k: nat)
    requires k < |visits| && k < |runs|
  {
    if visits[k].waits then runs[k].None?
    else exists baseline :: IsBaseline(created, Left(visits, runs, k), baseline) && IsDue(tick, baseline, visits[k].now, runs[k])
  }

  ghost predicate AllRight(tick: nat -> bool, created: nat, visits: seq<Visit>, runs: seq<Option<nat>>) {
    |runs| <= |visits| && forall k :: 0 <= k < |runs| ==> VisitRight(tick, created, visits, runs, k)
  }

  /** No tick has two runs. */
  predicate NoneTwice(runs: seq<Option<nat>>) { forall i, j :: 0 <= i < j < |runs| && runs[i].Some? ==> runs[i] != runs[j] }

  /** A tick gets a second run only after its first one and the run of every later
      tick disappeared, and while no later tick is due. */
  lemma TwiceMeansGone(tick: nat -> bool, created: nat, visits: seq<Visit>, runs: seq<Option<nat>>, i: nat, j: nat)
    requires AllRight(tick, created, visits, runs) && i < j < |runs| && runs[i].Some? && runs[i] == runs[j]
    ensures forall t :: t in Left(visits, runs, j) ==> t < runs[i].value
    ensures forall u: nat :: runs[i].value < u <= visits[j].now ==> !tick(u)
  {
    assert VisitRight(tick, created, visits, runs, j);
    var baseline :| IsBaseline(created, Left(visits, runs, j), baseline) && IsDue(tick, baseline, visits[j].now, runs[j]);
    DueAgainIff(tick, created, Left(visits, runs, j), baseline, visits[j].now, runs[j], runs[i].value);
  }

  /** Runs disappear only `ttl` after their tick, as expire makes them, the clock
      does not go back, and no two ticks are further apart than that. */
  ghost predicate Expires(next: Next, ttl: nat, visits: seq<Visit>) {
    && (forall k, t :: 0 <= k < |visits| && t in visits[k].gone ==> t + ttl <= visits[k].now)
    && (forall k, l :: 0 <= k < l < |visits| ==> visits[k].now <= visits[l].now)
    && (forall t: nat :: next(t) <= t + ttl)
  }

  /** The labels of the runs that are left, in any order. */
  method ListLabels(left: set<nat>) returns (labels: seq<Option<nat>>)
    ensures forall t: nat :: Some(t) in labels <==> t in left
  {
    var rest := left;
    labels := [];
    while rest != {}
      invariant rest <= left && forall t: nat :: Some(t) in labels <==> t in left && t !in rest
      decreases rest
    {
      var t :| t in rest;
      labels, rest := labels + [Some(t)], rest - {t};
    }
  }

  /** Every run that was made is left, or disappeared `ttl` after its tick. */
  predicate Accounted(runs: seq<Option<nat>>, left: set<nat>, ttl: nat, now: nat) {
    forall i :: 0 <= i < |runs| && runs[i].Some? ==> runs[i].value in left || runs[i].value + ttl <= now
  }

  /** The scheduler over any sequence of reconciles, with runs that disappear in
      between: a reconcile creates a run exactly when a tick is due and nothing
      makes it wait, and the run is for the newest tick that was due, so ticks that
      were missed give one run. No tick gets two runs when no run disappears, and
      when runs only expire and no two ticks are further apart than their time to
      live. */
  method Reconciles(next: Next, ghost tick: nat -> bool, created: nat, visits: seq<Visit>, ghost ttl: nat) returns (runs: seq<Option<nat>>)
    requires Ticks(next, tick)
    ensures |runs| == |visits| && AllRight(tick, created, visits, runs)
    ensures (forall k :: 0 <= k < |visits| ==> visits[k].gone == {}) || Expires(next, ttl, visits) ==> NoneTwice(runs)
  {
    var left: set<nat> := {};
    runs := [];
    ghost var stays, expires := forall k :: 0 <= k < |visits| ==> visits[k].gone == {}, Expires(next, ttl, visits);
    for k := 0 to |visits|
      invariant |runs| == k && AllRight(tick, created, visits, runs) && left == Standing(visits, runs, k)
      invariant stays ==> forall i :: 0 <= i < |runs| && runs[i].Some? ==> runs[i].value in left
      invariant expires && k > 0 ==> Accounted(runs, left, ttl, visits[k - 1].now)
      invariant stays || expires ==> NoneTwice(runs)
    {
      left := left - visits[k].gone;
      var now := visits[k].now;
      assert expires ==> Accounted(runs, left, ttl, now);
      var labels := ListLabels(left);
      var baseline := Baseline(created, labels);
      assert IsBaseline(created, left, baseline) by { BaselineOfLabels(created, labels, left, baseline); }
      var due := DueTick(next, tick, baseline, now);
      if visits[k].waits {
        due := None;
      }
      if due.Some? {
        if stays || expires { NotAgain(next, tick, runs, left, ttl, stays, baseline, now, due.value); }
        left := left + {due.value};
      }
      OneMoreRight(tick, created, visits, runs, due, baseline);
      runs := runs + [due];
    }
  }

  lemma OneMoreRight(tick: nat -> bool, created: nat, visits: seq<Visit>, runs: seq<Option<nat>>, due: Option<nat>, baseline: nat)
    requires AllRight(tick, created, visits, runs) && |runs| < |visits|
    requires IsBaseline(created, Left(visits, runs, |runs|), baseline)
    requires if visits[|runs|].waits then due.None? else IsDue(tick, baseline, visits[|runs|].now, due)
    ensures AllRight(tick, created, visits, runs + [due]) && Standing(visits, runs + [due], |runs|) == Standing(visits, runs, |runs|)
  {
    var all := runs + [due];
    forall k | 0 <= k < |all| ensures VisitRight(tick, created, visits, all, k) {
      MoreRuns(visits, runs, [due], k);
      assert Left(visits, all, k) == Left(visits, runs, k);
      if k < |runs| { assert VisitRight(tick, created, visits, runs, k); }
    }
    MoreRuns(visits, runs, [due], |runs|);
  }

  lemma BaselineOfLabels(created: nat, labels: seq<Option<nat>>, left: set<nat>, baseline: nat)
    requires baseline >= created && (baseline == created || Some(baseline) in labels) && forall t: nat :: Some(t) in labels ==> t <= baseline
    requires forall t: nat :: Some(t) in labels <==> t in left
    ensures IsBaseline(created, left, baseline)
  {
    forall t | t in left ensures t <= baseline { assert Some(t) in labels; }
  }

  /** A tick whose run expired is not due: a later one is. */
  lemma NotAgain(next: Next, tick: nat -> bool, runs: seq<Option<nat>>, left: set<nat>, ttl: nat, stays: bool, baseline: nat, now: nat, due: nat)
    requires Ticks(next, tick) && IsDue(tick, baseline, now, Some(due)) && forall t :: t in left ==> t <= baseline
    requires if stays then forall i :: 0 <= i < |runs| && runs[i].Some? ==> runs[i].value in left else Accounted(runs, left, ttl, now) && forall t: nat :: next(t) <= t + ttl
    ensures forall i :: 0 <= i < |runs| ==> runs[i] != Some(due)
  {
    assert tick(next(due)) && due < next(due);
    assert next(due) > now;
  }

  // -------------------------------------------------------- a tick runs twice

  const DAY: nat := 86_400

  /** The time to live of a scheduled run: scheduledTTL, in seconds. */
  const TTL: nat := 30 * DAY

  /** A tick on the first of every month, in months of 31 days. */
  function Monthly(t: nat): nat { (t / (31 * DAY) + 1) * (31 * DAY) }

  predicate FirstOfMonth(t: nat) { t > 0 && t % (31 * DAY) == 0 }

  lemma MonthlyTicks()
    ensures Ticks(Monthly, FirstOfMonth)
  {
    forall t: nat
      ensures Monthly(t) > t && FirstOfMonth(Monthly(t)) && forall u: nat :: t < u < Monthly(t) ==> !FirstOfMonth(u)
    {
      var m := 31 * DAY;
      assert t == m * (t / m) + t % m;
      assert Monthly(t) % m == 0;
      forall u: nat | t < u < Monthly(t) ensures !FirstOfMonth(u) {
        assert u / m == t / m;
        assert u == m * (u / m) + u % m;
      }
    }
  }

  /** A namespace with one tick a month: the run of the first month ends after ten
      minutes and expires 30 days later. Nothing is left to tell of it, so the
      same tick is due again on the last day of the month. */
  lemma ExpiredTickRunsAgain()
    ensures var first, later := 31 * DAY, 31 * DAY + 600 + TTL;
            && Ticks(Monthly, FirstOfMonth) && later < 2 * first
            && IsBaseline(1, {}, 1)
            && IsDue(FirstOfMonth, 1, first, Some(first))
            && IsDue(FirstOfMonth, 1, later, Some(first))
  {
    MonthlyTicks();
    var first, later := 31 * DAY, 31 * DAY + 600 + TTL;
    assert Monthly(first) == 2 * first && FirstOfMonth(first);
    assert forall u: nat :: first < u < Monthly(first) ==> !FirstOfMonth(u);
  }
}

/**
 The Leases a run needs and the order in which it takes them.

 Every run takes backup-pause first, then its claims by name, each followed by
 the repository of the claim, and then its Clusters by name. This module gives
 all Leases of a namespace one strict order and shows that every planned run
 takes its Leases along it.
 */
module LeaseNames {
  datatype LeaseName = Pause | Claim(name: string) | Repository(name: string) | Cluster(name: string)

  /** The name of the Lease object. */
  function Render(n: LeaseName): string {
    match n
    case Pause => "backup-pause"
    case Claim(name) => "backup-claim-" + name
    case Repository(name) => "backup-repository-" + name
    case Cluster(name) => "backup-cluster-" + name
  }

  /** The names that operators see. */
  lemma RenderedNames()
    ensures Render(Pause) == "backup-pause"
    ensures Render(Claim("data")) == "backup-claim-data"
    ensures Render(Repository("restic")) == "backup-repository-restic"
    ensures Render(Cluster("db")) == "backup-cluster-db"
  {
  }

  /** Two guarded objects never share a Lease object. */
  lemma RenderInjective(m: LeaseName, n: LeaseName)
    requires Render(m) == Render(n)
    ensures m == n
  {
    assert |"backup-claim-"| == 13 && |"backup-repository-"| == 18 && |"backup-cluster-"| == 15;
    assert Render(m)[7..10] == Render(n)[7..10];
    assert m.Claim? ==> Render(m)[7..10] == "cla" && Render(m)[13..] == m.name;
    assert n.Claim? ==> Render(n)[7..10] == "cla" && Render(n)[13..] == n.name;
    assert m.Repository? ==> Render(m)[7..10] == "rep" && Render(m)[18..] == m.name;
    assert n.Repository? ==> Render(n)[7..10] == "rep" && Render(n)[18..] == n.name;
    assert m.Cluster? ==> Render(m)[7..10] == "clu" && Render(m)[15..] == m.name;
    assert n.Cluster? ==> Render(n)[7..10] == "clu" && Render(n)[15..] == n.name;
    assert m.Pause? ==> Render(m)[7..10] == "pau";
    assert n.Pause? ==> Render(n)[7..10] == "pau";
  }

  // ---------------------------------------------------------------- names

  /** The order of Go strings. */
  predicate Before(a: string, b: string) {
    if b == "" then false
    else if a == "" then true
    else a[0] < b[0] || (a[0] == b[0] && Before(a[1..], b[1..]))
  }

  lemma {:induction false} BeforeTransitive(a: string, b: string, c: string)
    requires Before(a, b) && Before(b, c)
    ensures Before(a, c)
  {
    if a != "" && b != "" && c != "" && a[0] == b[0] && b[0] == c[0] {
      BeforeTransitive(a[1..], b[1..], c[1..]);
    }
  }

  lemma {:induction false} BeforeIrreflexive(a: string)
    ensures !Before(a, a)
  {
    if a != "" { BeforeIrreflexive(a[1..]); }
  }

  lemma {:induction false} BeforeTotal(a: string, b: string)
    ensures a == b || Before(a, b) || Before(b, a)
  {
    if a != "" && b != "" && a[0] == b[0] {
      BeforeTotal(a[1..], b[1..]);
      assert a == [a[0]] + a[1..] && b == [b[0]] + b[1..];
    }
  }

  predicate Ascending(names: seq<string>) {
    forall i, j :: 0 <= i < j < |names| ==> Before(names[i], names[j])
  }

  function Insert(name: string, sorted: seq<string>): seq<string> {
    if sorted == [] || Before(name, sorted[0]) then [name] + sorted
    else [sorted[0]] + Insert(name, sorted[1..])
  }

  /** The names of the marked claims or Clusters, in the order a run lists them. */
  function SortByName(names: seq<string>): seq<string> {
    if names == [] then [] else Insert(names[0], SortByName(names[1..]))
  }

  lemma {:induction false} InsertKeepsOrder(name: string, sorted: seq<string>)
    requires Ascending(sorted) && name !in sorted
    ensures Ascending(Insert(name, sorted))
    ensures forall x :: x in Insert(name, sorted) <==> x == name || x in sorted
  {
    if sorted != [] {
      var rest := sorted[1..];
      assert forall i :: 0 <= i < |rest| ==> rest[i] == sorted[i + 1];
      if Before(name, sorted[0]) {
        forall j | 0 < j < |sorted| ensures Before(name, sorted[j]) { BeforeTransitive(name, sorted[0], sorted[j]); }
      } else {
        InsertKeepsOrder(name, rest);
        BeforeTotal(name, sorted[0]);
        forall x | x in Insert(name, rest) ensures Before(sorted[0], x) { }
      }
    }
  }

  /** Sorting distinct names gives them in strict order, and keeps them all. */
  lemma {:induction false} SortByNameAscends(names: seq<string>)
    requires forall i, j :: 0 <= i < j < |names| ==> names[i] != names[j]
    ensures Ascending(SortByName(names))
    ensures forall x :: x in SortByName(names) <==> x in names
  {
    if names != [] {
      var rest := names[1..];
      assert forall i :: 0 <= i < |rest| ==> rest[i] == names[i + 1];
      SortByNameAscends(rest);
      InsertKeepsOrder(names[0], SortByName(rest));
    }
  }

  // ----------------------------------------------------------------- items

  datatype Item = Volume(name: string) | Database(name: string)

  /** A planned run: whether it pauses workloads, its items, and the repository
      it found for each volume item. A volume without one gets no repository
      Lease. */
  datatype Plan = Plan(pauses: bool, items: seq<Item>, repository: map<string, string>)

  function NamesOf(item: Item, repository: map<string, string>): seq<LeaseName> {
    match item
    case Volume(name) => [Claim(name)] + if name in repository then [Repository(repository[name])] else []
    case Database(name) => [Cluster(name)]
  }

  function ItemNames(items: seq<Item>, repository: map<string, string>): seq<LeaseName> {
    if items == [] then []
    else ItemNames(items[..|items| - 1], repository) + NamesOf(items[|items| - 1], repository)
  }

  lemma NoItemsNoNames(repository: map<string, string>)
    ensures ItemNames([], repository) == []
  {
  }

  lemma ItemNamesStep(items: seq<Item>, i: nat, repository: map<string, string>)
    requires i < |items|
    ensures ItemNames(items[..i + 1], repository) == ItemNames(items[..i], repository) + NamesOf(items[i], repository)
  {
    assert items[..i + 1][..i] == items[..i];
  }

  function LeasesOf(plan: Plan): seq<LeaseName> {
    (if plan.pauses then [Pause] else []) + ItemNames(plan.items, plan.repository)
  }

  /** What one turn of the loop in leaseNames appends. */
  method AppendNames(names: seq<LeaseName>, item: Item, repository: map<string, string>) returns (more: seq<LeaseName>)
    ensures more == names + NamesOf(item, repository)
  {
    match item
    case Volume(name) =>
      more := names + [Claim(name)];
      if name in repository {
        more := more + [Repository(repository[name])];
      }
    case Database(name) =>
      more := names + [Cluster(name)];
  }

  /** leaseNames of both reconcilers: one loop over the items. */
  method CollectLeaseNames(plan: Plan) returns (names: seq<LeaseName>)
    ensures names == LeasesOf(plan)
  {
    hide NamesOf, ItemNames;
    NoItemsNoNames(plan.repository);
    names := if plan.pauses then [Pause] else [];
    ghost var head := names;
    for i := 0 to |plan.items|
      invariant names == head + ItemNames(plan.items[..i], plan.repository)
    {
      ItemNamesStep(plan.items, i, plan.repository);
      names := AppendNames(names, plan.items[i], plan.repository);
    }
    assert plan.items[..|plan.items|] == plan.items;
  }

  /** The Leases a planned run needs, without the order. */
  ghost predicate Needs(plan: Plan, n: LeaseName) {
    match n
    case Pause => plan.pauses
    case Claim(c) => Volume(c) in plan.items
    case Repository(r) => exists c :: Volume(c) in plan.items && c in plan.repository && plan.repository[c] == r
    case Cluster(d) => Database(d) in plan.items
  }

  lemma {:induction false} ItemNamesAre(items: seq<Item>, repository: map<string, string>, n: LeaseName)
    ensures n in ItemNames(items, repository) <==> Needs(Plan(false, items, repository), n)
  {
    if items != [] {
      var front, last := items[..|items| - 1], items[|items| - 1];
      ItemNamesAre(front, repository, n);
      assert items == front + [last];
      assert n in ItemNames(items, repository) <==> n in ItemNames(front, repository) || n in NamesOf(last, repository);
    }
  }

  /** leaseNames gives exactly the Leases the run needs. */
  lemma LeasesAreNeeded(plan: Plan, n: LeaseName)
    ensures n in LeasesOf(plan) <==> Needs(plan, n)
  {
    hide ItemNames;
    ItemNamesAre(plan.items, plan.repository, n);
  }

  // ------------------------------------------------------------- the order

  /** The namespace: the claims that some run with spec.all lists, and the
      repository of each claim. No two of those claims share a repository. */
  datatype Namespace = Namespace(enabled: set<string>, repositoryOf: map<string, string>)

  ghost predicate BelongsTo(ns: Namespace, repository: string, claim: string) {
    claim in ns.enabled && claim in ns.repositoryOf && ns.repositoryOf[claim] == repository
  }

  ghost predicate Unshared(ns: Namespace) {
    forall r, c, d :: BelongsTo(ns, r, c) && BelongsTo(ns, r, d) ==> c == d
  }

  datatype Key = Key(level: nat, name: string, sub: nat)

  predicate KeyLess(a: Key, b: Key) {
    || a.level < b.level
    || (a.level == b.level && Before(a.name, b.name))
    || (a.level == b.level && a.name == b.name && a.sub < b.sub)
  }

  lemma KeyLessTransitive(a: Key, b: Key, c: Key)
    requires KeyLess(a, b) && KeyLess(b, c)
    ensures KeyLess(a, c)
  {
    if a.level == b.level == c.level && Before(a.name, b.name) && Before(b.name, c.name) {
      BeforeTransitive(a.name, b.name, c.name);
    }
  }

  lemma KeyLessIrreflexive(a: Key)
    ensures !KeyLess(a, a)
  {
    BeforeIrreflexive(a.name);
  }

  /** The place of a Lease: backup-pause, the claims and repositories that only
      runs for one claim use, the listed claims by name each followed by its
      repository, and the Clusters by name. */
  ghost function KeyOf(ns: Namespace, n: LeaseName): Key {
    match n
    case Pause => Key(0, "", 0)
    case Claim(c) => if c in ns.enabled then Key(3, c, 0) else Key(1, c, 0)
    case Repository(r) =>
      if exists c :: BelongsTo(ns, r, c) then
        var c :| BelongsTo(ns, r, c);
        Key(3, c, 1)
      else Key(2, r, 0)
    case Cluster(d) => Key(4, d, 0)
  }

  ghost predicate AlongTheOrder(ns: Namespace, names: seq<LeaseName>) {
    forall i, j :: 0 <= i < j < |names| ==> KeyLess(KeyOf(ns, names[i]), KeyOf(ns, names[j]))
  }

  predicate ItemBefore(a: Item, b: Item) {
    (a.Volume? && b.Database?) || (a.Volume? == b.Volume? && Before(a.name, b.name))
  }

  /** A run with spec.all: listed claims by name, then Clusters by name. */
  ghost predicate ListsAll(ns: Namespace, plan: Plan) {
    && (forall i :: 0 <= i < |plan.items| && plan.items[i].Volume? ==> plan.items[i].name in ns.enabled)
    && (forall i, j :: 0 <= i < j < |plan.items| ==> ItemBefore(plan.items[i], plan.items[j]))
  }

  /** The volume items of the plan read the repositories of their own claims. */
  ghost predicate OwnRepositories(ns: Namespace, plan: Plan) {
    forall c :: c in plan.repository ==> c in ns.repositoryOf && ns.repositoryOf[c] == plan.repository[c]
  }

  /** The plans that runs make: everything listed, one claim in place, one
      Cluster, or one new claim that is not a listed one, filled from any
      repository. */
  ghost predicate Planned(ns: Namespace, plan: Plan) {
    || (ListsAll(ns, plan) && OwnRepositories(ns, plan))
    || (|plan.items| == 1 && plan.items[0].Volume? && OwnRepositories(ns, plan))
    || (|plan.items| == 1 && plan.items[0].Database?)
    || (|plan.items| == 1 && plan.items[0].Volume? && plan.items[0].name !in ns.enabled)
  }

  /** items of a run with spec.all: the marked claims sorted by name, then the
      marked Clusters sorted by name. */
  function AllItems(claims: seq<string>, clusters: seq<string>): seq<Item> {
    var cs, ds := SortByName(claims), SortByName(clusters);
    seq(|cs|, i requires 0 <= i < |cs| => Volume(cs[i])) + seq(|ds|, i requires 0 <= i < |ds| => Database(ds[i]))
  }

  lemma AllItemsListsAll(ns: Namespace, pauses: bool, claims: seq<string>, clusters: seq<string>, repository: map<string, string>)
    requires forall i, j :: 0 <= i < j < |claims| ==> claims[i] != claims[j]
    requires forall i, j :: 0 <= i < j < |clusters| ==> clusters[i] != clusters[j]
    requires forall c :: c in claims ==> c in ns.enabled
    ensures ListsAll(ns, Plan(pauses, AllItems(claims, clusters), repository))
  {
    SortByNameAscends(claims);
    SortByNameAscends(clusters);
    var cs, ds := SortByName(claims), SortByName(clusters);
    var items := AllItems(claims, clusters);
    forall i | 0 <= i < |items|
      ensures items[i] == if i < |cs| then Volume(cs[i]) else Database(ds[i - |cs|])
    { }
    forall i | 0 <= i < |cs| ensures cs[i] in ns.enabled { assert cs[i] in cs; }
    forall i, j | 0 <= i < j < |items| ensures ItemBefore(items[i], items[j]) {
      if j < |cs| { assert Before(cs[i], cs[j]); }
      if i >= |cs| { assert Before(ds[i - |cs|], ds[j - |cs|]); }
    }
  }

  /** The repository of a listed claim comes right after the claim. */
  lemma RepositoryKey(ns: Namespace, c: string)
    requires Unshared(ns) && c in ns.enabled && c in ns.repositoryOf
    ensures KeyOf(ns, Repository(ns.repositoryOf[c])) == Key(3, c, 1)
  {
    assert BelongsTo(ns, ns.repositoryOf[c], c);
  }

  /** The names of one item ascend. */
  lemma NamesOfAscend(ns: Namespace, plan: Plan, i: nat)
    requires Unshared(ns) && Planned(ns, plan) && i < |plan.items|
    ensures AlongTheOrder(ns, NamesOf(plan.items[i], plan.repository))
  {
    var item := plan.items[i];
    if item.Volume? && item.name in plan.repository {
      assert NamesOf(item, plan.repository) == [Claim(item.name), Repository(plan.repository[item.name])];
      if item.name in ns.enabled { RepositoryKey(ns, item.name); }
    }
  }

  ghost function ItemLevel(item: Item): nat { if item.Volume? then 3 else 4 }

  /** In a run with spec.all, the key of a name is that of its item. */
  lemma ListedKey(ns: Namespace, plan: Plan, i: nat, n: LeaseName)
    requires Unshared(ns) && ListsAll(ns, plan) && OwnRepositories(ns, plan) && i < |plan.items|
    requires n in NamesOf(plan.items[i], plan.repository)
    ensures KeyOf(ns, n).level == ItemLevel(plan.items[i]) && KeyOf(ns, n).name == plan.items[i].name
  {
    var item := plan.items[i];
    if item.Volume? && n != Claim(item.name) { RepositoryKey(ns, item.name); }
  }

  /** The names of a run with spec.all ascend, item by item. */
  lemma {:induction false} ListedNamesAscend(ns: Namespace, plan: Plan, k: nat)
    requires Unshared(ns) && ListsAll(ns, plan) && OwnRepositories(ns, plan) && k <= |plan.items|
    ensures AlongTheOrder(ns, ItemNames(plan.items[..k], plan.repository))
    ensures forall n :: n in ItemNames(plan.items[..k], plan.repository) ==>
              exists i :: 0 <= i < k && n in NamesOf(plan.items[i], plan.repository)
  {
    if k > 0 {
      ListedNamesAscend(ns, plan, k - 1);
      assert plan.items[..k][..k - 1] == plan.items[..k - 1];
      var front, last := ItemNames(plan.items[..k - 1], plan.repository), NamesOf(plan.items[k - 1], plan.repository);
      NamesOfAscend(ns, plan, k - 1);
      forall m, n | m in front && n in last ensures KeyLess(KeyOf(ns, m), KeyOf(ns, n)) {
        var i :| 0 <= i < k - 1 && m in NamesOf(plan.items[i], plan.repository);
        ListedKey(ns, plan, i, m);
        ListedKey(ns, plan, k - 1, n);
        assert ItemBefore(plan.items[i], plan.items[k - 1]);
      }
      AppendAscending(ns, front, last);
    }
  }

  lemma AppendAscending(ns: Namespace, front: seq<LeaseName>, last: seq<LeaseName>)
    requires AlongTheOrder(ns, front) && AlongTheOrder(ns, last)
    requires forall m, n :: m in front && n in last ==> KeyLess(KeyOf(ns, m), KeyOf(ns, n))
    ensures AlongTheOrder(ns, front + last)
  {
  }

  /** Every planned run takes its Leases along the one order. */
  lemma LeasesAlongTheOrder(ns: Namespace, plan: Plan)
    requires Unshared(ns) && Planned(ns, plan)
    ensures AlongTheOrder(ns, LeasesOf(plan))
  {
    var names := ItemNames(plan.items, plan.repository);
    if ListsAll(ns, plan) && OwnRepositories(ns, plan) {
      ListedNamesAscend(ns, plan, |plan.items|);
      assert plan.items[..|plan.items|] == plan.items;
    } else {
      NamesOfAscend(ns, plan, 0);
      ItemNamesStep(plan.items, 0, plan.repository);
      assert plan.items[..1] == plan.items;
    }
    NoPauseAmongItems(ns, plan.items, plan.repository);
    AppendAscending(ns, if plan.pauses then [Pause] else [], names);
  }

  lemma {:induction false} NoPauseAmongItems(ns: Namespace, items: seq<Item>, repository: map<string, string>)
    ensures forall n :: n in ItemNames(items, repository) ==> KeyOf(ns, n).level > 0
  {
    if items != [] { NoPauseAmongItems(ns, items[..|items| - 1], repository); }
  }
}

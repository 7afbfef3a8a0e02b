/** One reconciliation pass over tenants and branches (cmd/daemon/reconcile.go), with nothing running beside it. */
module Topology {
  import opened Text
  import opened BranchKeys
  import opened Registry

  datatype Opening = Opens | FailsToOpen | FailsToSubscribe

  /** A worker of a branch, numbered in the order of the starts. */
  datatype Worker = Worker(id: nat, dbName: string, branchID: int)

  /** No database name goes on with a colon after another one. */
  predicate Unnested(names: set<string>) {
    forall a, b | a in names && b in names && a != b :: !HasPrefix(b, Prefix(a))
  }

  predicate ColonFree(names: set<string>) {
    forall n | n in names :: ':' !in n
  }

  lemma ColonFreeIsUnnested(names: set<string>)
    requires ColonFree(names)
    ensures Unnested(names)
  {
    forall a, b | a in names && b in names
      ensures !HasPrefix(b, Prefix(a))
    {
      PrefixHasColon(a, b);
    }
  }

  function ByDbName(tenants: seq<Tenant>): (m: map<string, Tenant>) {
    if tenants == [] then map[]
    else ByDbName(tenants[..|tenants| - 1])[tenants[|tenants| - 1].dbName := tenants[|tenants| - 1]]
  }

  /** The branches of a database that have a worker. */
  function Served(workers: map<string, Worker>, dbName: string): set<int> {
    set key | key in workers && workers[key].dbName == dbName :: workers[key].branchID
  }

  function Elements(s: seq<int>): set<int> {
    set i | 0 <= i < |s| :: s[i]
  }

  /** Whether a key is under the prefix of a database and, unless all are meant, its branch is not active. */
  predicate IsChosen(key: string, dbName: string, active: Option<set<int>>) {
    HasPrefix(key, Prefix(dbName)) && (active.None? || BranchIDFromKey(key) !in active.value)
  }

  function Chosen(workers: map<string, Worker>, dbName: string, active: Option<set<int>>): set<string> {
    set key | key in workers && IsChosen(key, dbName, active)
  }

  function Ids(workers: map<string, Worker>, keys: set<string>): set<nat> {
    set key | key in keys && key in workers :: workers[key].id
  }

  function OnboardSub(dbName: string): string {
    "onboard:" + dbName
  }

  function ReconcileSub(tenantKey: string): string {
    "reconcile:" + tenantKey
  }

  function SubsOf(tenants: map<string, Tenant>): set<string> {
    (set db | db in tenants :: OnboardSub(db)) + (set db | db in tenants :: ReconcileSub(tenants[db].tenantKey))
  }

  /** Every key is that of its worker. */
  predicate Keyed(workers: map<string, Worker>) {
    forall key | key in workers :: key == BranchKey(workers[key].dbName, workers[key].branchID)
  }

  ghost predicate DistinctTenants(tenants: map<string, Tenant>) {
    && (forall db | db in tenants :: tenants[db].dbName == db)
    && (forall a, b | a in tenants && b in tenants && a != b :: tenants[a].tenantKey != tenants[b].tenantKey)
  }

  class Reconciler {
    const registry: Snapshot
    var tenants: map<string, Tenant>
    var workers: map<string, Worker>
    var subs: set<string>
    var started: nat
    var stopped: set<nat>

    /** Tenants and keys are distinct, every worker belongs to a live tenant and runs, every other worker ever started
        is stopped, and the subscriptions are those of the live tenants. */
    ghost predicate Valid()
      reads this
    {
      && DistinctTenants(tenants)
      && Keyed(workers)
      && (forall key | key in workers :: workers[key].dbName in tenants)
      && Accounted(workers, stopped, started)
      && subs == SubsOf(tenants)
    }

    constructor ()
      ensures Valid() && tenants == map[] && workers == map[]
    {
      registry := new Snapshot();
      tenants, workers, subs, started, stopped := map[], map[], {}, 0, {};
    }

    /** startBranch: registers and starts a worker unless the tenant is not served or the branch has one. */
    method StartBranch(t: Tenant, branchID: int)
      requires Valid()
      modifies this`workers, this`started
      ensures Valid()
      ensures var key := BranchKey(t.dbName, branchID);
        if t.dbName in tenants && tenants[t.dbName] == t && key !in old(workers)
        then workers == old(workers)[key := Worker(old(started), t.dbName, branchID)]
        else workers == old(workers)
    {
      if t.dbName !in tenants || tenants[t.dbName] != t { return; }
      hide BranchKey, Accounted, SubsOf;
      var key := BranchKey(t.dbName, branchID);
      if key in workers { return; }
      OneMoreStarts(workers, key, Worker(started, t.dbName, branchID), stopped, started);
      workers := workers[key := Worker(started, t.dbName, branchID)];
      started := started + 1;
    }

    /** The loop of removeTenant and reconcileBranches: the chosen workers leave the map and are stopped. */
    method StopWorkers(dbName: string, active: Option<set<int>>)
      modifies this`workers, this`stopped
      ensures workers == old(workers) - Chosen(old(workers), dbName, active)
      ensures stopped == old(stopped) + Ids(old(workers), Chosen(old(workers), dbName, active))
    {
      hide IsChosen;
      var rest := workers.Keys;
      ghost var chosen := Chosen(workers, dbName, active);
      while rest != {}
        invariant rest <= old(workers).Keys
        invariant workers == old(workers) - (chosen - rest)
        invariant stopped == old(stopped) + Ids(old(workers), chosen - rest)
        decreases |rest|
      {
        var key :| key in rest;
        var worker := workers[key];
        if IsChosen(key, dbName, active) {
          assert chosen - (rest - {key}) == (chosen - rest) + {key};
          workers := workers - {key};
          stopped := stopped + {worker.id};
        } else {
          assert chosen - (rest - {key}) == chosen - rest;
        }
        rest := rest - {key};
      }
      assert chosen - rest == chosen;
    }

    /** removeTenant: the tenant, the workers under its prefix and its subscriptions go, and the workers are stopped. */
    method RemoveTenant(dbName: string)
      requires Valid() && dbName in tenants
      modifies this`tenants, this`workers, this`subs, this`stopped
      ensures Valid()
      ensures tenants == old(tenants) - {dbName}
      ensures workers == old(workers) - Chosen(old(workers), dbName, None)
    {
      hide Accounted, SubsOf, OnboardSub, ReconcileSub, DistinctTenants, Keyed, Chosen;
      var t := tenants[dbName];
      RestIsKept(workers, tenants, dbName);
      tenants := tenants - {dbName};
      StopWorkers(dbName, None);
      subs := subs - {OnboardSub(dbName), ReconcileSub(t.tenantKey)};
      SubsWithout(old(tenants), dbName);
      StoppedLeave(old(workers), workers, Chosen(old(workers), dbName, None), old(stopped), started);
    }

    /** addTenant: the tenant is served with its two subscriptions, or, when it does not open or cannot subscribe, not
        at all. */
    method AddTenant(t: Tenant, opening: Opening) returns (ok: bool)
      requires Valid() && t.dbName !in tenants
      requires forall db | db in tenants :: tenants[db].tenantKey != t.tenantKey
      modifies this`tenants, this`workers, this`subs, this`stopped
      ensures Valid()
      ensures ok <==> opening.Opens?
      ensures tenants == if ok then old(tenants)[t.dbName := t] else old(tenants)
      ensures FewerWorkers(workers, old(workers))
      ensures ok || Unnested(old(tenants).Keys + {t.dbName}) ==> workers == old(workers)
    {
      hide Accounted, SubsOf, OnboardSub, ReconcileSub, Keyed, DistinctTenants, Unnested;
      DistinctWith(tenants, t);
      if opening.FailsToOpen? { return false; }
      tenants := tenants[t.dbName := t];
      subs := subs + {OnboardSub(t.dbName), ReconcileSub(t.tenantKey)};
      SubsWith(old(tenants), t);
      if opening.FailsToSubscribe? {
        RemoveTenant(t.dbName);
        NothingOfTheNew(old(workers), old(tenants), t.dbName);
        return false;
      }
      return true;
    }

    /** reconcileBranches: every active branch has a worker, and under the prefix of the tenant no other branch has
        one. */
    method ReconcileBranches(t: Tenant, found: Option<seq<int>>) returns (ok: bool)
      requires Valid() && t.dbName in tenants && tenants[t.dbName] == t
      modifies this`workers, this`started, this`stopped
      ensures Valid()
      ensures ok <==> found.Some?
      ensures !ok ==> workers == old(workers)
      ensures forall key | key in workers && key in old(workers) :: workers[key] == old(workers)[key]
      ensures ok ==> workers.Keys == NextKeys(old(workers).Keys, t.dbName, found.value)
    {
      hide Accounted, SubsOf, BranchKey, HasPrefix, Prefix, BranchIDFromKey, DistinctTenants;
      if found.None? { return false; }
      var branches := found.value;
      for i := 0 to |branches|
        invariant Valid()
        invariant workers.Keys == old(workers).Keys + KeysOf(t.dbName, branches[..i])
        invariant forall key | key in old(workers) :: workers[key] == old(workers)[key]
      {
        assert branches[..i + 1] == branches[..i] + [branches[i]];
        StartBranch(t, branches[i]);
      }
      assert branches[..|branches|] == branches;
      ghost var before := workers;
      ghost var was := stopped;
      StopWorkers(t.dbName, Some(Elements(branches)));
      StoppedLeave(before, workers, Chosen(before, t.dbName, Some(Elements(branches))), was, started);
      return true;
    }

    /** First, tenants that are gone or have changed are removed. */
    method RemoveGone(desired: map<string, Tenant>)
      requires Valid()
      modifies this`tenants, this`workers, this`subs, this`stopped
      ensures Valid()
      ensures tenants == Kept(old(tenants), desired)
      ensures FewerWorkers(workers, old(workers))
      ensures Unnested(old(tenants).Keys) ==> workers == OwnedBy(old(workers), tenants.Keys)
    {
      hide Accounted, SubsOf, Keyed, Chosen, OwnedBy, Unnested, DistinctTenants;
      var rest := tenants.Keys;
      OwnedByAll(workers, tenants.Keys);
      KeptSoFar(tenants, desired);
      while rest != {}
        invariant Valid() && rest <= tenants.Keys
        invariant tenants == Remaining(old(tenants), desired, rest)
        invariant FewerWorkers(workers, old(workers))
        invariant Unnested(old(tenants).Keys) ==> workers == OwnedBy(old(workers), tenants.Keys)
        decreases |rest|
      {
        var dbName :| dbName in rest;
        ghost var before := tenants;
        RemainingWithout(old(tenants), desired, rest, dbName);
        rest := rest - {dbName};
        var t := tenants[dbName];
        if dbName !in desired || desired[dbName].tenantKey != t.tenantKey || desired[dbName] != t {
          OwnedWithout(old(workers), old(tenants).Keys, workers, tenants, dbName);
          RemoveTenant(dbName);
        }
      }
      KeptSoFar(old(tenants), desired);
    }

    /** Then every tenant that is not served is added. */
    method AddMissing(discovered: seq<Tenant>, opening: Tenant -> Opening) returns (ok: bool)
      requires Valid() && ValidRegistry(discovered) && SubMap(tenants, ByDbName(discovered))
      modifies this`tenants, this`workers, this`subs, this`stopped
      ensures Valid()
      ensures tenants == Target(old(tenants), ByDbName(discovered), opening)
      ensures ok <==> tenants == ByDbName(discovered)
      ensures FewerWorkers(workers, old(workers))
      ensures Unnested(ByDbName(discovered).Keys) ==> workers == old(workers)
    {
      hide Valid, Unnested, Tenant.Valid, ByDbName, Added, DistinctTenants;
      ok := true;
      ghost var desired, kept := ByDbName(discovered), tenants;
      ghost var seen: set<string> := {};
      ByDbNameHolds(discovered);
      AddedBounds(kept, desired, opening);
      for i := 0 to |discovered|
        invariant Valid()
        invariant seen == set j | 0 <= j < i :: discovered[j].dbName
        invariant tenants == Added(kept, desired, opening, seen)
        invariant ok <==> seen <= tenants.Keys
        invariant FewerWorkers(workers, old(workers))
        invariant Unnested(desired.Keys) ==> workers == old(workers)
      {
        var target := discovered[i];
        assert target.dbName !in seen;
        AddedOne(kept, desired, opening, seen, target);
        AddedIsDesired(kept, desired, opening, seen);
        OthersHaveOtherKeys(tenants, desired, target);
        seen := seen + {target.dbName};
        if target.dbName !in tenants {
          UnnestedSubset(tenants.Keys + {target.dbName}, desired.Keys);
          var added := AddTenant(target, opening(target));
          ok := ok && added;
        }
      }
      assert seen == desired.Keys;
    }

    /** Last, the branches of every served tenant. */
    method ReconcileAll(branches: string -> Option<seq<int>>) returns (ok: bool)
      requires Valid()
      modifies this`workers, this`started, this`stopped
      ensures Valid()
      ensures ok <==> forall db | db in tenants :: branches(db).Some?
      ensures ServedAs(workers, old(workers), tenants.Keys, {}, branches)
    {
      hide Accounted, SubsOf, Keyed, ServedAs, NextKeys, Unnested;
      ok := true;
      var rest := tenants.Keys;
      NothingServedYet(workers, tenants.Keys, branches);
      while rest != {}
        invariant Valid() && rest <= tenants.Keys
        invariant ok <==> forall db | db in tenants && db !in rest :: branches(db).Some?
        invariant ServedAs(workers, old(workers), tenants.Keys, rest, branches)
        decreases |rest|
      {
        var dbName :| dbName in rest;
        ghost var before := workers;
        var done := ReconcileBranches(tenants[dbName], branches(dbName));
        ServedNext(before, workers, old(workers), tenants.Keys, rest, dbName, branches);
        rest := rest - {dbName};
        ok := ok && done;
      }
    }

    /** The pass over a valid registry: the tenants that are gone, those that are missing, and the branches. */
    method ServeAll(discovered: seq<Tenant>, opening: Tenant -> Opening, branches: string -> Option<seq<int>>)
      returns (ok: bool)
      requires Valid() && ValidRegistry(discovered)
      modifies this`tenants, this`workers, this`subs, this`started, this`stopped
      ensures Valid()
      ensures tenants == Target(Kept(old(tenants), ByDbName(discovered)), ByDbName(discovered), opening)
      ensures ok <==> tenants == ByDbName(discovered) && forall db | db in tenants :: branches(db).Some?
      ensures Passed(old(tenants), old(workers), ByDbName(discovered), tenants, workers, branches)
      ensures ok && ColonFree(tenants.Keys) ==> ExactKeys(workers, tenants, branches)
    {
      hide Accounted, SubsOf, BranchKey, HasPrefix, Prefix, BranchIDFromKey, Served, Elements, DistinctTenants, Keyed,
        Unnested, IsServed, ExactKeys, OwnedBy, Target, Kept, FewerWorkers, ServedAs, ColonFree, Passed, ByDbName,
        ValidRegistry;
      var desired: map<string, Tenant> := map[];
      NoneByDbName(discovered);
      for i := 0 to |discovered|
        invariant desired == ByDbName(discovered[..i])
        modifies {}
      {
        OneMore(discovered, i);
        desired := desired[discovered[i].dbName := discovered[i]];
      }
      assert discovered[..|discovered|] == discovered;
      KeptIsSubMap(tenants, desired);
      RemoveGone(desired);
      ghost var left, kept := workers, tenants;
      var added := AddMissing(discovered, opening);
      ghost var was := workers;
      var reconciled := ReconcileAll(branches);
      ok := added && reconciled;
      TargetIsDesired(kept, desired, opening);
      PassServes(workers, was, left, old(workers), old(tenants), desired, tenants, branches);
      PassIsExact(workers, was, tenants, branches);
    }

    /** One pass. Without an answer from the master registry, or with an invalid one, nothing changes. Otherwise the
        tenants kept are those that have not changed and every other one is served if it opens and subscribes, the
        workers are as Passed says, and without colons in the names a pass without failure leaves exactly the keys of
        the active branches. */
    method Reconcile(discovered: Option<seq<Tenant>>, opening: Tenant -> Opening, branches: string -> Option<seq<int>>)
      returns (ok: bool)
      requires Valid()
      modifies this, registry
      ensures Valid()
      ensures discovered.None? || !ValidRegistry(discovered.value) ==>
        !ok && tenants == old(tenants) && workers == old(workers) && registry.tenants == old(registry.tenants)
      ensures discovered.Some? && ValidRegistry(discovered.value) ==>
        var desired := ByDbName(discovered.value);
        && registry.tenants == ByKey(discovered.value)
        && tenants == Target(Kept(old(tenants), desired), desired, opening)
        && (ok <==> tenants == desired && forall db | db in tenants :: branches(db).Some?)
        && Passed(old(tenants), old(workers), desired, tenants, workers, branches)
        && (ok && ColonFree(tenants.Keys) ==> ExactKeys(workers, tenants, branches))
    {
      hide Accounted, SubsOf, DistinctTenants, ByKey, ByDbName, Keyed, Target, Kept, ExactKeys, ColonFree, Passed,
        ValidRegistry;
      if discovered.None? { return false; }
      var valid, change := registry.Reconcile(discovered.value);
      if !valid { return false; }
      ok := ServeAll(discovered.value, opening, branches);
    }
  }

  /** What a pass makes of the workers. A served tenant whose branches can be read has workers for its active branches
      only, and one is missing only where another tenant disturbs it. One whose branches cannot be read gets no new
      worker. When no database name is nested in another, the former have a worker for each active branch and the latter
      keep theirs. */
  ghost predicate Passed(before: map<string, Tenant>, was: map<string, Worker>, desired: map<string, Tenant>,
                         tenants: map<string, Tenant>, workers: map<string, Worker>,
                         branches: string -> Option<seq<int>>)
  {
    var kept := Kept(before, desired);
    && (forall db | db in tenants && branches(db).Some? :: IsServed(workers, was, tenants.Keys, {}, branches, db))
    && (forall db | db in tenants && branches(db).None? ::
          Served(workers, db) <= if db in kept then Served(was, db) else {})
    && (Unnested(before.Keys + desired.Keys) ==>
          forall db | db in tenants ::
            Served(workers, db) == if branches(db).Some? then Elements(branches(db).value)
                                   else if db in kept then Served(was, db) else {})
  }

  lemma NoneByDbName(tenants: seq<Tenant>)
    ensures ByDbName(tenants[..0]) == map[]
  {
  }

  lemma TargetIsDesired(kept: map<string, Tenant>, desired: map<string, Tenant>, opening: Tenant -> Opening)
    ensures Target(kept, desired, opening).Keys <= desired.Keys
  {
  }

  predicate FewerWorkers(some: map<string, Worker>, all: map<string, Worker>) {
    forall key | key in some :: key in all && some[key] == all[key]
  }

  lemma FewerServed(some: map<string, Worker>, all: map<string, Worker>)
    requires FewerWorkers(some, all)
    ensures forall db :: Served(some, db) <= Served(all, db)
  {
  }

  lemma NothingServedOf(workers: map<string, Worker>, names: set<string>)
    requires forall key | key in workers :: workers[key].dbName in names
    ensures forall db | db !in names :: Served(workers, db) == {}
  {
  }

  lemma KeptIsSubMap(tenants: map<string, Tenant>, desired: map<string, Tenant>)
    ensures SubMap(Kept(tenants, desired), desired) && Kept(tenants, desired).Keys <= tenants.Keys
  {
  }

  /** The three parts of a pass together: all holds what there was before, left what the removal left, was what the
      adding left. */
  lemma PassServes(workers: map<string, Worker>, was: map<string, Worker>, left: map<string, Worker>,
                   all: map<string, Worker>, before: map<string, Tenant>, desired: map<string, Tenant>,
                   tenants: map<string, Tenant>, branches: string -> Option<seq<int>>)
    requires FewerWorkers(left, all) && FewerWorkers(was, left)
    requires forall key | key in left :: left[key].dbName in Kept(before, desired)
    requires tenants.Keys <= desired.Keys
    requires Unnested(before.Keys) ==> left == OwnedBy(all, Kept(before, desired).Keys)
    requires Unnested(desired.Keys) ==> was == left
    requires ServedAs(workers, was, tenants.Keys, {}, branches)
    ensures Passed(before, all, desired, tenants, workers, branches)
  {
    var kept := Kept(before, desired);
    hide Kept;
    hide Served, Elements, HasPrefix, Prefix, FewerWorkers, Unnested, OwnedBy;
    FewerServed(left, all);
    FewerServed(was, left);
    NothingServedOf(left, kept.Keys);
    forall db | db in tenants
      ensures branches(db).Some? ==> IsServed(workers, all, tenants.Keys, {}, branches, db)
      ensures branches(db).None? ==> Served(workers, db) <= if db in kept then Served(all, db) else {}
    {
      assert IsServed(workers, was, tenants.Keys, {}, branches, db);
    }
    if Unnested(before.Keys + desired.Keys) {
      UnnestedSubset(before.Keys, before.Keys + desired.Keys);
      UnnestedSubset(desired.Keys, before.Keys + desired.Keys);
      UnnestedSubset(tenants.Keys, before.Keys + desired.Keys);
      UnnestedServed(workers, was, tenants.Keys, branches);
      OwnedServed(all, kept.Keys);
    }
  }

  predicate IsKept(db: string, tenants: map<string, Tenant>, desired: map<string, Tenant>) {
    db in tenants && db in desired && desired[db] == tenants[db]
  }

  /** The tenants that stay as they are. */
  function Kept(tenants: map<string, Tenant>, desired: map<string, Tenant>): map<string, Tenant> {
    map db | db in tenants && IsKept(db, tenants, desired) :: tenants[db]
  }

  /** While the pass goes over the tenants: those still to look at, and those kept. */
  function Remaining(tenants: map<string, Tenant>, desired: map<string, Tenant>, rest: set<string>)
    : map<string, Tenant>
  {
    map db | db in tenants && (db in rest || IsKept(db, tenants, desired)) :: tenants[db]
  }

  lemma KeptSoFar(tenants: map<string, Tenant>, desired: map<string, Tenant>)
    ensures Remaining(tenants, desired, tenants.Keys) == tenants
    ensures Remaining(tenants, desired, {}) == Kept(tenants, desired)
  {
  }

  lemma RemainingWithout(tenants: map<string, Tenant>, desired: map<string, Tenant>, rest: set<string>, dbName: string)
    requires dbName in rest && dbName in tenants
    ensures var now := Remaining(tenants, desired, rest);
      && dbName in now && now[dbName] == tenants[dbName] && now.Keys <= tenants.Keys
      && Remaining(tenants, desired, rest - {dbName}) == if IsKept(dbName, tenants, desired) then now
        else now - {dbName}
  {
  }

  lemma OwnedByAll(workers: map<string, Worker>, names: set<string>)
    requires forall key | key in workers :: workers[key].dbName in names
    ensures OwnedBy(workers, names) == workers
  {
  }

  lemma OwnedWithout(was: map<string, Worker>, names: set<string>, workers: map<string, Worker>,
                     tenants: map<string, Tenant>, dbName: string)
    requires Keyed(workers) && (forall key | key in workers :: workers[key].dbName in tenants)
    requires dbName in tenants && tenants.Keys <= names
    ensures Unnested(names) && workers == OwnedBy(was, tenants.Keys) ==>
      workers - Chosen(workers, dbName, None) == OwnedBy(was, (tenants - {dbName}).Keys)
  {
    hide BranchKey, HasPrefix, Prefix;
    if Unnested(names) {
      NoForeignKeys(workers, tenants, dbName);
      OwnKeysAreChosen(workers, dbName);
    }
  }

  function OwnedBy(workers: map<string, Worker>, names: set<string>): map<string, Worker> {
    map key | key in workers && workers[key].dbName in names :: workers[key]
  }

  predicate SubMap(a: map<string, Tenant>, b: map<string, Tenant>) {
    forall db | db in a :: db in b && b[db] == a[db]
  }

  predicate IsAdded(db: string, kept: map<string, Tenant>, desired: map<string, Tenant>, opening: Tenant -> Opening,
                    seen: set<string>)
  {
    db in desired && (db in kept || (db in seen && opening(desired[db]).Opens?))
  }

  /** The kept tenants and those of the seen names that open and subscribe. */
  function Added(kept: map<string, Tenant>, desired: map<string, Tenant>, opening: Tenant -> Opening, seen: set<string>)
    : map<string, Tenant>
  {
    map db | db in desired && IsAdded(db, kept, desired, opening, seen) :: desired[db]
  }

  function Target(kept: map<string, Tenant>, desired: map<string, Tenant>, opening: Tenant -> Opening)
    : map<string, Tenant>
  {
    Added(kept, desired, opening, desired.Keys)
  }

  lemma AddedBounds(kept: map<string, Tenant>, desired: map<string, Tenant>, opening: Tenant -> Opening)
    requires SubMap(kept, desired)
    ensures Added(kept, desired, opening, {}) == kept
    ensures Target(kept, desired, opening) == desired <==> desired.Keys <= Target(kept, desired, opening).Keys
  {
  }

  lemma AddedOne(kept: map<string, Tenant>, desired: map<string, Tenant>, opening: Tenant -> Opening, seen: set<string>,
                 t: Tenant)
    requires t.dbName in desired && desired[t.dbName] == t
    ensures var (now, next) := (Added(kept, desired, opening, seen), Added(kept, desired, opening, seen + {t.dbName}));
      next == if t.dbName !in now && opening(t).Opens? then now[t.dbName := t] else now
  {
    var (now, next) := (Added(kept, desired, opening, seen), Added(kept, desired, opening, seen + {t.dbName}));
    forall db | db in desired && db != t.dbName
      ensures db in next <==> db in now
    {
    }
    assert t.dbName in next <==> t.dbName in now || opening(t).Opens?;
    hide IsAdded;
  }

  lemma OthersHaveOtherKeys(some: map<string, Tenant>, desired: map<string, Tenant>, t: Tenant)
    requires SubMap(some, desired) && DistinctTenants(desired) && t.dbName in desired && desired[t.dbName] == t
    ensures t.dbName !in some ==> forall db | db in some :: some[db].tenantKey != t.tenantKey
  {
  }

  lemma AddedIsDesired(kept: map<string, Tenant>, desired: map<string, Tenant>, opening: Tenant -> Opening,
                       seen: set<string>)
    ensures SubMap(Added(kept, desired, opening, seen), desired)
  {
  }

  lemma UnnestedSubset(some: set<string>, all: set<string>)
    ensures some <= all && Unnested(all) ==> Unnested(some)
  {
  }

  lemma OneMore(tenants: seq<Tenant>, i: nat)
    requires i < |tenants|
    ensures ByDbName(tenants[..i + 1]) == ByDbName(tenants[..i])[tenants[i].dbName := tenants[i]]
  {
    assert tenants[..i + 1][..i] == tenants[..i];
  }

  ghost predicate DistinctNames(tenants: seq<Tenant>) {
    forall i, j | 0 <= i < j < |tenants| :: tenants[i].dbName != tenants[j].dbName
  }

  lemma {:induction false} ByDbNameAt(tenants: seq<Tenant>, i: nat)
    requires DistinctNames(tenants) && i < |tenants|
    ensures tenants[i].dbName in ByDbName(tenants) && ByDbName(tenants)[tenants[i].dbName] == tenants[i]
  {
    if i < |tenants| - 1 {
      ByDbNameAt(tenants[..|tenants| - 1], i);
    }
  }

  lemma {:induction false} ByDbNameFrom(tenants: seq<Tenant>, db: string) returns (i: nat)
    requires db in ByDbName(tenants)
    ensures i < |tenants| && tenants[i].dbName == db
  {
    i := |tenants| - 1;
    if tenants[i].dbName != db {
      i := ByDbNameFrom(tenants[..|tenants| - 1], db);
    }
  }

  lemma ByDbNameHolds(tenants: seq<Tenant>)
    requires ValidRegistry(tenants)
    ensures ByDbName(tenants).Keys == set i | 0 <= i < |tenants| :: tenants[i].dbName
    ensures forall i | 0 <= i < |tenants| :: ByDbName(tenants)[tenants[i].dbName] == tenants[i]
    ensures DistinctTenants(ByDbName(tenants))
  {
    hide Tenant.Valid, ByDbName;
    forall i | 0 <= i < |tenants|
      ensures tenants[i].dbName in ByDbName(tenants) && ByDbName(tenants)[tenants[i].dbName] == tenants[i]
    {
      ByDbNameAt(tenants, i);
    }
    forall db | db in ByDbName(tenants)
      ensures exists i :: 0 <= i < |tenants| && tenants[i].dbName == db
    {
      var i := ByDbNameFrom(tenants, db);
    }
  }

  /** Whether the name of another tenant is a prefix of this one up to a colon, and this number is no active branch of
      it. */
  ghost predicate Disturbed(names: set<string>, branches: string -> Option<seq<int>>, db: string, b: int) {
    exists t :: t in names && t != db && HasPrefix(db, Prefix(t)) && branches(t).Some?
      && b !in Elements(branches(t).value)
  }

  /** A pass over one tenant leaves the workers of its active branches and no other of its own. Of another tenant it
      stops exactly those under its prefix whose number is not among its own active branches. */
  lemma NextServed(before: map<string, Worker>, after: map<string, Worker>, dbName: string, branches: seq<int>,
                   db: string)
    requires Keyed(before) && Keyed(after) && after.Keys == NextKeys(before.Keys, dbName, branches)
    ensures db == dbName ==> forall b :: b in Served(after, db) <==> b in Elements(branches)
    ensures db != dbName ==>
      forall b :: b in Served(after, db) <==>
        b in Served(before, db) && (!HasPrefix(db, Prefix(dbName)) || b in Elements(branches))
  {
    hide BranchKey, NextKeys, Served, Elements, HasPrefix, Prefix;
    ServedByKey(before, db);
    ServedByKey(after, db);
    forall b
      ensures BranchKey(db, b) in after <==>
        if db == dbName then b in Elements(branches)
        else BranchKey(db, b) in before && (!HasPrefix(db, Prefix(dbName)) || b in Elements(branches))
    {
      NextKey(before.Keys, dbName, branches, db, b);
    }
  }

  /** A tenant that the pass has been over has workers only for its active branches, any other only for those it had,
      and a worker is missing only where another tenant disturbs it. */
  ghost predicate ServedAs(workers: map<string, Worker>, was: map<string, Worker>, names: set<string>,
                           rest: set<string>, branches: string -> Option<seq<int>>)
  {
    forall db | db in names :: IsServed(workers, was, names, rest, branches, db)
  }

  ghost predicate IsServed(workers: map<string, Worker>, was: map<string, Worker>, names: set<string>,
                           rest: set<string>, branches: string -> Option<seq<int>>, db: string)
  {
    var goal := if branches(db).Some? && db !in rest then Elements(branches(db).value) else Served(was, db);
    Served(workers, db) <= goal && forall b | b in goal && b !in Served(workers, db) ::
      Disturbed(names, branches, db, b)
  }

  lemma NothingServedYet(workers: map<string, Worker>, names: set<string>, branches: string -> Option<seq<int>>)
    ensures ServedAs(workers, workers, names, names, branches)
  {
  }

  lemma ServedNext(before: map<string, Worker>, after: map<string, Worker>, was: map<string, Worker>,
                   names: set<string>, rest: set<string>, dbName: string, branches: string -> Option<seq<int>>)
    requires Keyed(before) && Keyed(after) && dbName in rest && rest <= names
    requires if branches(dbName).Some? then after.Keys == NextKeys(before.Keys, dbName, branches(dbName).value)
             else after == before
    requires ServedAs(before, was, names, rest, branches)
    ensures ServedAs(after, was, names, rest - {dbName}, branches)
  {
    hide Keyed, NextKeys, Served, Elements, Disturbed;
    forall db | db in names
      ensures IsServed(after, was, names, rest - {dbName}, branches, db)
    {
      assert IsServed(before, was, names, rest, branches, db);
      if branches(dbName).Some? { ServedAfter(before, after, was, names, rest, dbName, branches, db); }
    }
  }

  lemma ServedAfter(before: map<string, Worker>, after: map<string, Worker>, was: map<string, Worker>,
                    names: set<string>, rest: set<string>, dbName: string, branches: string -> Option<seq<int>>,
                    db: string)
    requires Keyed(before) && Keyed(after) && dbName in rest && rest <= names && db in names && branches(dbName).Some?
    requires after.Keys == NextKeys(before.Keys, dbName, branches(dbName).value)
    requires IsServed(before, was, names, rest, branches, db)
    ensures IsServed(after, was, names, rest - {dbName}, branches, db)
  {
    hide Keyed, NextKeys, Served, Elements, HasPrefix, Prefix;
    var own := branches(dbName).value;
    NextServed(before, after, dbName, own, db);
    if db == dbName {
      SameMembers(Served(after, db), Elements(own));
    } else {
      forall b | b in Served(after, db)
        ensures b in Served(before, db)
      {
      }
      forall b | b in Served(before, db) && b !in Served(after, db)
        ensures Disturbed(names, branches, db, b)
      {
      }
    }
  }

  lemma SameMembers(a: set<int>, b: set<int>)
    requires forall x :: x in a <==> x in b
    ensures a == b
  {
    forall x | x in a
      ensures x in b
    {
    }
    forall x | x in b
      ensures x in a
    {
    }
  }

  lemma Undisturbed(names: set<string>, branches: string -> Option<seq<int>>, db: string, b: int)
    requires Unnested(names) && db in names
    ensures !Disturbed(names, branches, db, b)
  {
    hide HasPrefix, Prefix, Elements;
  }

  /** Among unnested names nobody disturbs anybody. */
  lemma UnnestedServed(workers: map<string, Worker>, was: map<string, Worker>, names: set<string>,
                       branches: string -> Option<seq<int>>)
    requires Unnested(names) && ServedAs(workers, was, names, {}, branches)
    ensures forall db | db in names ::
      Served(workers, db) == if branches(db).Some? then Elements(branches(db).value) else Served(was, db)
  {
    hide Served, Elements, Disturbed, Unnested;
    forall db | db in names
      ensures Served(workers, db) == if branches(db).Some? then Elements(branches(db).value) else Served(was, db)
    {
      var goal := if branches(db).Some? then Elements(branches(db).value) else Served(was, db);
      assert IsServed(workers, was, names, {}, branches, db);
      forall b | b in goal
        ensures b in Served(workers, db)
      {
        Undisturbed(names, branches, db, b);
      }
      assert Served(workers, db) == goal;
    }
  }

  lemma ServedByKey(workers: map<string, Worker>, db: string)
    requires Keyed(workers)
    ensures forall b :: b in Served(workers, db) <==> BranchKey(db, b) in workers
  {
    forall b
      ensures b in Served(workers, db) <==> BranchKey(db, b) in workers
    {
      if BranchKey(db, b) in workers {
        var w := workers[BranchKey(db, b)];
        BranchKeyIdentifies(db, b, w.dbName, w.branchID);
      }
    }
  }

  lemma NextKey(keys: set<string>, dbName: string, branches: seq<int>, db: string, b: int)
    ensures BranchKey(db, b) in NextKeys(keys, dbName, branches) <==>
      if db == dbName then b in Elements(branches)
      else BranchKey(db, b) in keys && (!HasPrefix(db, Prefix(dbName)) || b in Elements(branches))
  {
    hide BranchKey, HasPrefix, Prefix, BranchIDFromKey;
    PrefixSelects(dbName, db, b);
    BranchIDOfKey(db, b);
    forall i | 0 <= i < |branches|
      ensures BranchKey(dbName, branches[i]) == BranchKey(db, b) <==> dbName == db && branches[i] == b
    {
      BranchKeyIdentifies(dbName, branches[i], db, b);
    }
  }

  lemma OwnedServed(workers: map<string, Worker>, names: set<string>)
    ensures forall db :: Served(OwnedBy(workers, names), db) == if db in names then Served(workers, db) else {}
  {
    forall db
      ensures Served(OwnedBy(workers, names), db) == if db in names then Served(workers, db) else {}
    {
      var owned := OwnedBy(workers, names);
      assert forall key | key in workers && workers[key].dbName == db && db in names ::
        key in owned && owned[key] == workers[key];
    }
  }

  function KeysOf(dbName: string, branches: seq<int>): set<string> {
    set i | 0 <= i < |branches| :: BranchKey(dbName, branches[i])
  }

  /** The worker keys after a pass over one tenant. */
  function NextKeys(keys: set<string>, dbName: string, branches: seq<int>): set<string> {
    set key | key in keys + KeysOf(dbName, branches)
           && !IsChosen(key, dbName, Some(Elements(branches)))
  }

  ghost predicate Accounted(workers: map<string, Worker>, stopped: set<nat>, started: nat) {
    && (forall key | key in workers :: workers[key].id < started)
    && (forall id | id in stopped :: id < started)
    && (forall j, k | j in workers && k in workers && j != k :: workers[j].id != workers[k].id)
    && (forall id: nat | id < started :: id in stopped <==> forall key | key in workers :: workers[key].id != id)
  }

  lemma OneMoreStarts(workers: map<string, Worker>, key: string, worker: Worker, stopped: set<nat>, started: nat)
    requires Accounted(workers, stopped, started) && key !in workers && worker.id == started
    ensures Accounted(workers[key := worker], stopped, started + 1)
  {
    var more := workers[key := worker];
    assert forall k | k in more :: k == key || (k in workers && more[k] == workers[k]);
    assert key in more && more[key].id == started;
    forall id: nat | id < started + 1
      ensures id in stopped <==> forall k | k in more :: more[k].id != id
    {
      if id < started && id !in stopped {
        var k :| k in workers && workers[k].id == id;
        assert k in more && more[k].id == id;
      }
    }
  }

  lemma StoppedLeave(before: map<string, Worker>, after: map<string, Worker>, chosen: set<string>, stopped: set<nat>,
                     started: nat)
    requires Accounted(before, stopped, started) && chosen <= before.Keys && after == before - chosen
    ensures Accounted(after, stopped + Ids(before, chosen), started)
  {
    assert forall key | key in before && key !in chosen :: key in after && after[key] == before[key];
    forall id: nat | id < started && id in Ids(before, chosen)
      ensures forall key | key in after :: after[key].id != id
    {
      var k :| k in chosen && before[k].id == id;
    }
    forall id: nat | id < started && forall key | key in after :: after[key].id != id
      ensures id in stopped + Ids(before, chosen)
    {
      if id !in stopped {
        var k :| k in before && before[k].id == id;
        assert k in chosen;
      }
    }
  }

  /** The keys of a tenant's own workers are under its prefix. */
  lemma OwnKeysAreChosen(workers: map<string, Worker>, dbName: string)
    requires Keyed(workers)
    ensures forall key | key in workers && workers[key].dbName == dbName :: key in Chosen(workers, dbName, None)
  {
    forall key | key in workers && workers[key].dbName == dbName
      ensures HasPrefix(key, Prefix(dbName))
    {
      KeyHasPrefix(dbName, workers[key].branchID);
    }
  }

  /** Among unnested names, a prefix takes no key of another database. */
  lemma NoForeignKeys(workers: map<string, Worker>, tenants: map<string, Tenant>, dbName: string)
    requires Keyed(workers) && forall key | key in workers :: workers[key].dbName in tenants
    ensures Unnested(tenants.Keys + {dbName}) ==>
      forall key | key in workers && HasPrefix(key, Prefix(dbName)) :: workers[key].dbName == dbName
  {
    if Unnested(tenants.Keys + {dbName}) {
      forall key | key in workers && HasPrefix(key, Prefix(dbName))
        ensures workers[key].dbName == dbName
      {
        PrefixSelects(dbName, workers[key].dbName, workers[key].branchID);
      }
    }
  }

  lemma RestIsKept(workers: map<string, Worker>, tenants: map<string, Tenant>, dbName: string)
    requires Keyed(workers) && DistinctTenants(tenants) && forall key | key in workers :: workers[key].dbName in tenants
    ensures var (rest, left) := (workers - Chosen(workers, dbName, None), tenants - {dbName});
      && Chosen(workers, dbName, None) <= workers.Keys
      && Keyed(rest) && DistinctTenants(left) && forall key | key in rest :: rest[key].dbName in left
  {
    OwnKeysAreChosen(workers, dbName);
    hide BranchKey, HasPrefix, Prefix;
  }

  lemma DistinctWith(tenants: map<string, Tenant>, t: Tenant)
    requires DistinctTenants(tenants) && t.dbName !in tenants
    requires forall db | db in tenants :: tenants[db].tenantKey != t.tenantKey
    ensures DistinctTenants(tenants[t.dbName := t]) && tenants[t.dbName := t] - {t.dbName} == tenants
  {
  }

  lemma NothingOfTheNew(workers: map<string, Worker>, tenants: map<string, Tenant>, dbName: string)
    requires Keyed(workers) && dbName !in tenants && forall key | key in workers :: workers[key].dbName in tenants
    ensures Unnested(tenants.Keys + {dbName}) ==> workers - Chosen(workers, dbName, None) == workers
  {
    NoForeignKeys(workers, tenants, dbName);
    hide BranchKey, HasPrefix, Prefix;
  }

  lemma SubsAreDistinct(a: string, b: string)
    ensures OnboardSub(a) != ReconcileSub(b)
    ensures OnboardSub(a) == OnboardSub(b) <==> a == b
    ensures ReconcileSub(a) == ReconcileSub(b) <==> a == b
  {
    assert OnboardSub(a)[0] == 'o' && ReconcileSub(b)[0] == 'r';
    assert OnboardSub(a)[8..] == a && OnboardSub(b)[8..] == b;
    assert ReconcileSub(a)[10..] == a && ReconcileSub(b)[10..] == b;
  }

  lemma SubsWithout(tenants: map<string, Tenant>, dbName: string)
    requires DistinctTenants(tenants) && dbName in tenants
    ensures SubsOf(tenants - {dbName}) == SubsOf(tenants) - {OnboardSub(dbName),
                                                             ReconcileSub(tenants[dbName].tenantKey)}
  {
    hide OnboardSub, ReconcileSub;
    var less, gone := tenants - {dbName}, {OnboardSub(dbName), ReconcileSub(tenants[dbName].tenantKey)};
    forall db | db in less
      ensures OnboardSub(db) !in gone && ReconcileSub(less[db].tenantKey) !in gone
    {
      SubsAreDistinct(db, dbName);
      SubsAreDistinct(less[db].tenantKey, tenants[dbName].tenantKey);
      SubsAreDistinct(db, tenants[dbName].tenantKey);
      SubsAreDistinct(dbName, less[db].tenantKey);
    }
    forall s | s in SubsOf(tenants) && s !in gone
      ensures s in SubsOf(less)
    {
      var db :| db in tenants && (s == OnboardSub(db) || s == ReconcileSub(tenants[db].tenantKey));
      assert db in less && less[db] == tenants[db];
    }
  }

  lemma SubsWith(tenants: map<string, Tenant>, t: Tenant)
    requires t.dbName !in tenants
    ensures SubsOf(tenants[t.dbName := t]) == SubsOf(tenants) + {OnboardSub(t.dbName), ReconcileSub(t.tenantKey)}
  {
    hide OnboardSub, ReconcileSub;
    var more := tenants[t.dbName := t];
    assert t.dbName in more && more[t.dbName] == t;
    forall s | s in SubsOf(tenants)
      ensures s in SubsOf(more)
    {
      var db :| db in tenants && (s == OnboardSub(db) || s == ReconcileSub(tenants[db].tenantKey));
      assert db in more && more[db] == tenants[db];
    }
  }

  // ---------------------------------------------------------------- results

  /** The worker keys are exactly those of the active branches of the served tenants. */
  ghost predicate ExactKeys(workers: map<string, Worker>, tenants: map<string, Tenant>,
                            branches: string -> Option<seq<int>>)
  {
    forall key :: key in workers <==>
      exists db, b :: db in tenants && branches(db).Some? && b in Elements(branches(db).value)
        && key == BranchKey(db, b)
  }

  lemma WorkerKeysAreExact(workers: map<string, Worker>, tenants: map<string, Tenant>,
                           branches: string -> Option<seq<int>>)
    requires Keyed(workers) && forall key | key in workers :: workers[key].dbName in tenants
    requires forall db | db in tenants :: branches(db).Some? && Served(workers, db) == Elements(branches(db).value)
    ensures ExactKeys(workers, tenants, branches)
  {
    hide BranchKey, Served, Elements;
    forall db | db in tenants
      ensures forall b :: b in Elements(branches(db).value) <==> BranchKey(db, b) in workers
    {
      ServedByKey(workers, db);
    }
    forall key | key in workers
      ensures exists db, b ::
        db in tenants && branches(db).Some? && b in Elements(branches(db).value) && key == BranchKey(db, b)
    {
      var (db, b) := (workers[key].dbName, workers[key].branchID);
      assert BranchKey(db, b) in workers;
    }
  }

  lemma PassIsExact(workers: map<string, Worker>, was: map<string, Worker>, tenants: map<string, Tenant>,
                    branches: string -> Option<seq<int>>)
    requires Keyed(workers) && forall key | key in workers :: workers[key].dbName in tenants
    requires ServedAs(workers, was, tenants.Keys, {}, branches)
    ensures (forall db | db in tenants :: branches(db).Some?) && ColonFree(tenants.Keys) ==>
      ExactKeys(workers, tenants, branches)
  {
    hide Keyed, ServedAs, ColonFree, ExactKeys, Served, Elements, Unnested;
    if (forall db | db in tenants :: branches(db).Some?) && ColonFree(tenants.Keys) {
      ColonFreeIsUnnested(tenants.Keys);
      UnnestedServed(workers, was, tenants.Keys, branches);
      WorkerKeysAreExact(workers, tenants, branches);
    }
  }

  /** The exact limit: a pass over one tenant leaves the worker of another tenant's branch alone if and only if the
      other name does not go on with a colon after its own, or the same number is an active branch of its own. */
  lemma ForeignWorkerSurvives(keys: set<string>, dbName: string, branches: seq<int>, other: string, b: int)
    requires other != dbName && BranchKey(other, b) in keys
    ensures BranchKey(other, b) in NextKeys(keys, dbName, branches) <==>
      !HasPrefix(other, Prefix(dbName)) || b in Elements(branches)
  {
    hide BranchKey, HasPrefix, Prefix, BranchIDFromKey;
    PrefixSelects(dbName, other, b);
    BranchIDOfKey(other, b);
  }

  /** The registry admits a name that goes on with a colon after another one, and then a pass over the shorter name
      stops the worker of every branch of the longer one that is not an active branch of its own. */
  lemma NestedNamesLoseWorkers(branches: seq<int>, b: int) returns (tenants: seq<Tenant>)
    requires b !in Elements(branches)
    ensures ValidRegistry(tenants) && |tenants| == 2
    ensures var (name, other) := (tenants[0].dbName, tenants[1].dbName);
      BranchKey(other, b) !in NextKeys({BranchKey(other, b)}, name, branches)
  {
    hide NextKeys, BranchKey, Elements, ValidRegistry;
    tenants := [Tenant(1, "k", "", "a", "", ""), Tenant(2, "l", "", "a:b", "", "")];
    NestedNamesAreValid();
    assert HasPrefix("a:b", Prefix("a")) by { assert "a:b"[..2] == Prefix("a"); }
    NextKey({BranchKey("a:b", b)}, "a", branches, "a:b", b);
  }

  lemma NestedNamesAreValid()
    ensures ValidRegistry([Tenant(1, "k", "", "a", "", ""), Tenant(2, "l", "", "a:b", "", "")])
  {
    ShortNameIsValid("k");
    ShortNameIsValid("l");
    ShortNameIsValid("a");
    ShortNameIsValid("a:b");
    hide ValidIdentityText;
    assert "k"[0] != "l"[0];
  }

  lemma ShortNameIsValid(s: string)
    requires s == "k" || s == "l" || s == "a" || s == "a:b"
    ensures ValidIdentityText(s, 64)
  {
  }
}

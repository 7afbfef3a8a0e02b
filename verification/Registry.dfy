/** The tenant registry (tenant/tenant.go). */
module Registry {
  import opened Text

  datatype Tenant = Tenant(id: int, tenantKey: string, name: string, dbName: string, env: string, alertEmail: string)
  {
    predicate Valid() {
      && ValidIdentityText(tenantKey, 64) && ValidIdentityText(dbName, 64)
      && (env == "" || env == "sandbox" || env == "simulation" || env == "production")
    }
  }

  /** A registry that can be served: every tenant is valid, and no key and no database is used twice. */
  ghost predicate ValidRegistry(tenants: seq<Tenant>) {
    && (forall i | 0 <= i < |tenants| :: tenants[i].Valid())
    && (forall i, j | 0 <= i < j < |tenants| ::
          tenants[i].tenantKey != tenants[j].tenantKey && tenants[i].dbName != tenants[j].dbName)
  }

  method ValidateAll(tenants: seq<Tenant>) returns (ok: bool)
    ensures ok <==> ValidRegistry(tenants)
  {
    var tenantKeys: set<string>, dbNames: set<string> := {}, {};
    for i := 0 to |tenants|
      invariant ValidRegistry(tenants[..i])
      invariant tenantKeys == set j | 0 <= j < i :: tenants[j].tenantKey
      invariant dbNames == set j | 0 <= j < i :: tenants[j].dbName
    {
      var t := tenants[i];
      if !t.Valid() || t.tenantKey in tenantKeys || t.dbName in dbNames { return false; }
      tenantKeys, dbNames := tenantKeys + {t.tenantKey}, dbNames + {t.dbName};
      assert tenants[..i + 1][..i] == tenants[..i];
    }
    assert tenants[..|tenants|] == tenants;
    return true;
  }

  datatype Change = Change(added: seq<Tenant>, removed: set<Tenant>, updated: seq<Tenant>, kept: seq<Tenant>)

  function ByKey(tenants: seq<Tenant>): (m: map<string, Tenant>) {
    if tenants == [] then map[]
    else ByKey(tenants[..|tenants| - 1])[tenants[|tenants| - 1].tenantKey := tenants[|tenants| - 1]]
  }

  lemma {:induction false} ByKeyHolds(tenants: seq<Tenant>)
    requires ValidRegistry(tenants)
    ensures forall k :: k in ByKey(tenants) <==> exists i :: 0 <= i < |tenants| && tenants[i].tenantKey == k
    ensures forall i | 0 <= i < |tenants| :: ByKey(tenants)[tenants[i].tenantKey] == tenants[i]
  {
    if tenants != [] {
      var n := |tenants| - 1;
      ByKeyHolds(tenants[..n]);
      forall i | 0 <= i < |tenants|
        ensures tenants[i].tenantKey in ByKey(tenants) && ByKey(tenants)[tenants[i].tenantKey] == tenants[i]
      {
        if i < n { assert tenants[..n][i] == tenants[i]; }
      }
      forall k | k in ByKey(tenants)
        ensures exists i :: 0 <= i < |tenants| && tenants[i].tenantKey == k
      {
        if k != tenants[n].tenantKey {
          assert k in ByKey(tenants[..n]);
          var i :| 0 <= i < |tenants[..n]| && tenants[..n][i].tenantKey == k;
          assert tenants[i].tenantKey == k;
        }
      }
    }
  }

  /** Keeps the elements with a property, in their order. */
  function Filter<T>(s: seq<T>, p: T -> bool): seq<T> {
    if s == [] then [] else Filter(s[..|s| - 1], p) + (if p(s[|s| - 1]) then [s[|s| - 1]] else [])
  }

  /** The last validated snapshot, by tenant key. */
  class Snapshot {
    var tenants: map<string, Tenant>

    constructor ()
      ensures tenants == map[]
    {
      tenants := map[];
    }

    /** A valid snapshot replaces the last one and is split into what is new, changed and the same, in its own order,
        and what is gone. An invalid one changes nothing. */
    method Reconcile(next: seq<Tenant>) returns (ok: bool, change: Change)
      modifies this
      ensures ok <==> ValidRegistry(next)
      ensures !ok ==> tenants == old(tenants) && change == Change([], {}, [], [])
      ensures ok ==>
        && tenants == ByKey(next)
        && change.added == Filter(next, (t: Tenant) => t.tenantKey !in old(tenants))
        && change.updated == Filter(next, (t: Tenant) => t.tenantKey in old(tenants) && old(tenants)[t.tenantKey] != t)
        && change.kept == Filter(next, (t: Tenant) => t.tenantKey in old(tenants) && old(tenants)[t.tenantKey] == t)
        && change.removed == set k | k in old(tenants) && k !in tenants :: old(tenants)[k]
    {
      change := Change([], {}, [], []);
      ok := ValidateAll(next);
      if !ok { return; }
      ghost var was := tenants;
      var nextByKey: map<string, Tenant> := map[];
      var added: seq<Tenant>, updated: seq<Tenant>, kept: seq<Tenant> := [], [], [];
      for i := 0 to |next|
        invariant tenants == was && nextByKey == ByKey(next[..i])
        invariant added == Filter(next[..i], (t: Tenant) => t.tenantKey !in was)
        invariant updated == Filter(next[..i], (t: Tenant) => t.tenantKey in was && was[t.tenantKey] != t)
        invariant kept == Filter(next[..i], (t: Tenant) => t.tenantKey in was && was[t.tenantKey] == t)
      {
        assert next[..i + 1][..i] == next[..i];
        var current := next[i];
        nextByKey := nextByKey[current.tenantKey := current];
        if current.tenantKey !in tenants {
          added := added + [current];
        } else if tenants[current.tenantKey] == current {
          kept := kept + [current];
        } else {
          updated := updated + [current];
        }
      }
      assert next[..|next|] == next;
      var removed: set<Tenant>, rest := {}, tenants.Keys;
      while rest != {}
        invariant tenants == was && rest <= was.Keys
        invariant removed == set k | k in was && k !in rest && k !in nextByKey :: was[k]
        decreases |rest|
      {
        var key :| key in rest;
        rest := rest - {key};
        if key !in nextByKey { removed := removed + {tenants[key]}; }
      }
      tenants := nextByKey;
      change := Change(added, removed, updated, kept);
    }
  }

  lemma {:induction false} FilterKeepsExactly<T>(s: seq<T>, p: T -> bool, x: T)
    ensures multiset(Filter(s, p))[x] == if p(x) then multiset(s)[x] else 0
  {
    if s != [] {
      var n := |s| - 1;
      assert s == s[..n] + [s[n]];
      FilterKeepsExactly(s[..n], p, x);
    }
  }

  /** The split loses and repeats nothing: together the three parts hold every tenant of the new snapshot once. */
  lemma ChangeIsAPartition(was: map<string, Tenant>, next: seq<Tenant>, t: Tenant)
    ensures var added := Filter(next, (t: Tenant) => t.tenantKey !in was);
      var updated := Filter(next, (t: Tenant) => t.tenantKey in was && was[t.tenantKey] != t);
      var kept := Filter(next, (t: Tenant) => t.tenantKey in was && was[t.tenantKey] == t);
      multiset(next)[t] == multiset(added)[t] + multiset(updated)[t] + multiset(kept)[t]
  {
    FilterKeepsExactly(next, (t: Tenant) => t.tenantKey !in was, t);
    FilterKeepsExactly(next, (t: Tenant) => t.tenantKey in was && was[t.tenantKey] != t, t);
    FilterKeepsExactly(next, (t: Tenant) => t.tenantKey in was && was[t.tenantKey] == t, t);
  }
}

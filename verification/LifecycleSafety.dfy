/** What every interleaving of removal, workers and onboarding keeps. */
module LifecycleSafety {
  import opened Text
  import opened BranchKeys
  import opened Lifecycle

  /** The goroutine of an admitted onboarding, from its admission to the end of its wait group. */
  predicate InGroup(p: Phase) {
    p.Working? || p.Starting? || p.Spawning? || p.Ending? || p.Leaving?
  }

  predicate Flagged(p: Phase) {
    p.Marked? || p.Refused? || p.Working? || p.Starting? || p.Spawning? || p.Ending?
  }

  function Group(requests: seq<Onboarding>, c: nat): set<nat> {
    set o: nat | o < |requests| && requests[o].context == c && InGroup(requests[o].phase)
  }

  function Awaited(pc: Pc): set<nat> {
    match pc
    case Idle => {}
    case Starts(_) => {}
    case Cancels(_, ws) => ws
    case WaitsForOnboarding(_, ws) => ws
    case WaitsForWorkers(_, ws) => ws
    case Stops(ws) => ws
    case WaitsForStopped(ws) => ws
  }

  predicate Quiet(pool: seq<Worker>, c: nat) {
    forall w: nat | w < |pool| && pool[w].context == c :: pool[w].state.Finished?
  }

  // ---------------------------------------------------------------- invariant

  /** A context serves its tenant exactly until it is told to stop, its wait group counts its onboardings, and it is
      closed only when nothing of it runs. */
  ghost predicate ContextOk(s: State, c: nat)
    requires c < |s.contexts|
  {
    && (Live(s, c) <==> !s.contexts[c].stopping)
    && s.contexts[c].admitted == |Group(s.requests, c)|
    && (s.contexts[c].closed ==> s.contexts[c].stopping && s.contexts[c].admitted == 0 && Quiet(s.pool, c))
  }

  ghost predicate Mapped(s: State) {
    && (forall db | db in s.tenants :: s.tenants[db] < |s.contexts| && s.contexts[s.tenants[db]].dbName == db)
    && (forall w: nat | w < |s.pool| :: s.pool[w].context < |s.contexts|)
    && (forall o: nat | o < |s.requests| :: s.requests[o].context < |s.contexts|)
  }

  ghost predicate KeyOk(s: State, key: string)
    requires Mapped(s) && key in s.workers
  {
    s.workers[key] < |s.pool| && KeyOf(s, s.workers[key]) == key && Live(s, s.pool[s.workers[key]].context)
  }

  /** A worker that has not finished is in the map under its key, or the reconciler waits for it. */
  ghost predicate Held(s: State, w: nat)
    requires Mapped(s) && w < |s.pool|
  {
    || (KeyOf(s, w) in s.workers && s.workers[KeyOf(s, w)] == w)
    || w in Awaited(s.pc)
  }

  ghost predicate AwaitedOk(s: State)
    requires Mapped(s)
  {
    && (forall w | w in Awaited(s.pc) :: w < |s.pool| && forall key | key in s.workers :: s.workers[key] != w)
    && (forall v, w | v in Awaited(s.pc) && w in Awaited(s.pc) && KeyOf(s, v) == KeyOf(s, w) :: v == w)
  }

  function RequestKey(s: State, o: nat): string
    requires o < |s.requests| && s.requests[o].context < |s.contexts|
  {
    BranchKey(s.contexts[s.requests[o].context].dbName, s.requests[o].branchID)
  }

  /** A marked branch is in the set, and no other request holds its mark. */
  ghost predicate FlagsOk(s: State)
    requires Mapped(s)
  {
    && (forall o: nat | o < |s.requests| && Flagged(s.requests[o].phase) :: RequestKey(s, o) in s.onboarding)
    && (forall o: nat, p: nat | o < p < |s.requests| && Flagged(s.requests[o].phase) && Flagged(s.requests[p].phase) ::
          RequestKey(s, o) != RequestKey(s, p))
  }

  predicate StartedBy(requests: seq<Onboarding>, o: nat, w: nat)
    requires o < |requests|
  {
    requests[o].phase == Phase.Spawning(w)
  }

  /** Exactly one party is about to start a registered worker. */
  ghost predicate StartersOk(s: State) {
    && (forall o: nat, w: nat | o < |s.requests| && StartedBy(s.requests, o, w) ::
          && w < |s.pool| && s.pool[w].state.Registered? && s.pool[w].context == s.requests[o].context
          && s.pc != Starts(w))
    && (forall o: nat, p: nat, w: nat | o < p < |s.requests| && StartedBy(s.requests, o, w) ::
          !StartedBy(s.requests, p, w))
    && (s.pc.Starts? ==> s.pc.worker < |s.pool| && s.pool[s.pc.worker].state.Registered?)
    && (forall w: nat | w < |s.pool| && s.pool[w].state.Registered? ::
          s.pc == Starts(w) || exists o: nat :: o < |s.requests| && StartedBy(s.requests, o, w))
  }

  ghost predicate PcOk(s: State) {
    && (s.pc.Cancels? || s.pc.WaitsForOnboarding? || s.pc.WaitsForWorkers? ==>
          s.pc.context < |s.contexts| && s.contexts[s.pc.context].stopping && !s.contexts[s.pc.context].closed)
    && (s.pc.WaitsForWorkers? ==> s.contexts[s.pc.context].admitted == 0)
    && (s.pc.WaitsForOnboarding? || s.pc.WaitsForWorkers? || s.pc.WaitsForStopped? ==>
          forall w | w in s.pc.workers && w < |s.pool| :: s.pool[w].cancelled)
  }

  /** Every context, worker and mark is where it belongs. */
  ghost predicate Placed(s: State) {
    && Mapped(s)
    && (forall c: nat | c < |s.contexts| :: ContextOk(s, c))
    && (forall key | key in s.workers :: KeyOk(s, key))
    && (forall w: nat | w < |s.pool| && !s.pool[w].state.Finished? :: Held(s, w))
    && AwaitedOk(s)
    && FlagsOk(s)
  }

  ghost predicate Ordered(s: State) {
    Placed(s) && StartersOk(s) && PcOk(s)
  }

  // ---------------------------------------------------------------- the reconciler

  lemma AddTenantKeepsOrdered(s: State, dbName: string)
    requires Ordered(s) && s.pc.Idle? && dbName !in s.tenants
    ensures Ordered(Do(s, AddTenant(dbName)))
  {
    hide BranchKey;
    var s' := Do(s, AddTenant(dbName));
    forall c: nat | c < |s'.contexts|
      ensures ContextOk(s', c)
    {
      if c < |s.contexts| { assert ContextOk(s, c); } else { assert Group(s'.requests, c) == {}; }
    }
    forall key | key in s'.workers
      ensures KeyOk(s', key)
    {
      assert KeyOk(s, key);
    }
    forall w: nat | w < |s'.pool| && !s'.pool[w].state.Finished?
      ensures Held(s', w)
    {
      assert Held(s, w);
    }
  }

  lemma RemoveKeepsContexts(s: State, dbName: string)
    requires Ordered(s) && s.pc.Idle? && dbName in s.tenants
    ensures var s' := Remove(s, dbName);
      Mapped(s') && PcOk(s') && forall c: nat | c < |s'.contexts| :: ContextOk(s', c)
  {
    hide FlagsOk, StartersOk, AwaitedOk, KeyOk, Held, BranchKey;
    var s' := Remove(s, dbName);
    assert ContextOk(s, s.tenants[dbName]);
    forall c: nat | c < |s'.contexts|
      ensures ContextOk(s', c)
    {
      assert ContextOk(s, c);
    }
  }

  lemma RemoveKeepsKeys(s: State, dbName: string)
    requires Ordered(s) && s.pc.Idle? && dbName in s.tenants
    ensures var s' := Remove(s, dbName); Mapped(s') && forall key | key in s'.workers :: KeyOk(s', key)
  {
    hide FlagsOk, StartersOk, AwaitedOk, ContextOk, Held, BranchKey, Prefix, HasPrefix;
    var s' := Remove(s, dbName);
    forall key | key in s'.workers
      ensures KeyOk(s', key)
    {
      assert KeyOk(s, key);
      KeyHasPrefix(dbName, s.pool[s.workers[key]].branchID);
    }
  }

  lemma RemoveKeepsHeld(s: State, dbName: string)
    requires Ordered(s) && s.pc.Idle? && dbName in s.tenants
    ensures var s' := Remove(s, dbName);
      Mapped(s') && forall w: nat | w < |s'.pool| && !s'.pool[w].state.Finished? :: Held(s', w)
  {
    hide FlagsOk, StartersOk, AwaitedOk, ContextOk, KeyOk, Prefix, BranchKey;
    var s' := Remove(s, dbName);
    forall w: nat | w < |s'.pool| && !s'.pool[w].state.Finished?
      ensures Held(s', w)
    {
      assert Held(s, w);
      assert KeyOf(s', w) == KeyOf(s, w);
    }
  }

  lemma RemoveKeepsFlags(s: State, dbName: string)
    requires Ordered(s) && s.pc.Idle? && dbName in s.tenants
    ensures Mapped(Remove(s, dbName)) && FlagsOk(Remove(s, dbName)) && StartersOk(Remove(s, dbName))
  {
    hide AwaitedOk, KeyOk, Held, ContextOk, BranchKey;
    var s' := Remove(s, dbName);
    forall o: nat | o < |s.requests|
      ensures RequestKey(s', o) == RequestKey(s, o)
    {
    }
  }

  lemma RemoveKeepsOrdered(s: State, dbName: string)
    requires Ordered(s) && s.pc.Idle? && dbName in s.tenants
    ensures Ordered(Remove(s, dbName))
  {
    hide FlagsOk, StartersOk, KeyOk, Held, ContextOk;
    RemoveKeepsContexts(s, dbName);
    RemoveKeepsKeys(s, dbName);
    RemoveKeepsHeld(s, dbName);
    RemoveKeepsFlags(s, dbName);
    TakenIsAwaited(s, Remove(s, dbName));
  }

  /** Workers taken out of the map are in it no more, and have different keys. */
  lemma TakenIsAwaited(s: State, s': State)
    requires Ordered(s) && Mapped(s') && s'.pool == s.pool
    requires forall c: nat | c < |s.contexts| :: c < |s'.contexts| && s'.contexts[c].dbName == s.contexts[c].dbName
    requires forall key | key in s'.workers :: key in s.workers && s'.workers[key] == s.workers[key]
    requires forall w | w in Awaited(s'.pc) :: exists key ::
      key in s.workers && key !in s'.workers && s.workers[key] == w
    ensures AwaitedOk(s')
  {
    hide BranchKey;
    forall w | w in Awaited(s'.pc)
      ensures w < |s'.pool| && KeyOf(s', w) !in s'.workers && KeyOf(s', w) in s.workers && s.workers[KeyOf(s', w)] == w
    {
      var key :| key in s.workers && key !in s'.workers && s.workers[key] == w;
      assert KeyOk(s, key);
    }
    forall w, key | w in Awaited(s'.pc) && key in s'.workers
      ensures s'.workers[key] != w
    {
      assert KeyOk(s, key);
    }
  }

  lemma StopKeepsOrdered(s: State, dbName: string, active: set<int>)
    requires Ordered(s) && s.pc.Idle? && dbName in s.tenants
    ensures Ordered(Stop(s, dbName, active))
  {
    hide BranchKey;
    var s' := Stop(s, dbName, active);
    forall c: nat | c < |s'.contexts|
      ensures ContextOk(s', c)
    {
      assert ContextOk(s, c);
    }
    forall key | key in s'.workers
      ensures KeyOk(s', key)
    {
      assert KeyOk(s, key);
    }
    forall w: nat | w < |s'.pool| && !s'.pool[w].state.Finished?
      ensures Held(s', w)
    {
      assert Held(s, w);
    }
    TakenIsAwaited(s, s');
  }

  lemma RegisterKeepsContexts(s: State, c: nat, branchID: int)
    requires Ordered(s) && CanRegister(s, c, branchID)
    ensures var s' := Register(s, c, branchID);
      forall d: nat | d < |s'.contexts| :: ContextOk(s', d)
  {
    hide BranchKey;
    var s' := Register(s, c, branchID);
    assert ContextOk(s, c);
    forall d: nat | d < |s'.contexts|
      ensures ContextOk(s', d)
    {
      assert ContextOk(s, d);
    }
  }

  lemma RegisterKeepsKeys(s: State, c: nat, branchID: int)
    requires Ordered(s) && CanRegister(s, c, branchID)
    ensures var s' := Register(s, c, branchID);
      && Mapped(s')
      && (forall key | key in s'.workers :: KeyOk(s', key))
      && (forall w: nat | w < |s'.pool| && !s'.pool[w].state.Finished? :: Held(s', w))
  {
    hide BranchKey;
    var s' := Register(s, c, branchID);
    forall key | key in s'.workers
      ensures KeyOk(s', key)
    {
      if key in s.workers { assert KeyOk(s, key); }
    }
    forall w: nat | w < |s'.pool| && !s'.pool[w].state.Finished?
      ensures Held(s', w)
    {
      if w < |s.pool| { assert Held(s, w); }
    }
  }

  lemma RegisterKeepsAwaited(s: State, c: nat, branchID: int)
    requires Ordered(s) && CanRegister(s, c, branchID)
    ensures Mapped(Register(s, c, branchID)) && AwaitedOk(Register(s, c, branchID))
  {
    hide BranchKey;
    var s' := Register(s, c, branchID);
    forall v, w | v in Awaited(s'.pc) && w in Awaited(s'.pc) && KeyOf(s', v) == KeyOf(s', w)
      ensures v == w
    {
      assert KeyOf(s, v) == KeyOf(s, w);
    }
  }

  lemma RegisterKeepsFlags(s: State, c: nat, branchID: int)
    requires Ordered(s) && CanRegister(s, c, branchID)
    ensures Mapped(Register(s, c, branchID)) && FlagsOk(Register(s, c, branchID))
  {
    hide BranchKey, RequestKey;
    var s' := Register(s, c, branchID);
    forall o: nat | o < |s.requests|
      ensures RequestKey(s', o) == RequestKey(s, o)
    {
      SameRequestKey(s, s', o);
    }
  }

  lemma RegisterKeepsPc(s: State, c: nat, branchID: int)
    requires Ordered(s) && CanRegister(s, c, branchID)
    ensures PcOk(Register(s, c, branchID))
  {
    hide BranchKey;
    var s' := Register(s, c, branchID);
    if s.pc.WaitsForOnboarding? || s.pc.WaitsForWorkers? || s.pc.WaitsForStopped? {
      forall w | w in s.pc.workers && w < |s'.pool|
        ensures s'.pool[w].cancelled
      {
        assert w in Awaited(s.pc);
      }
    }
  }

  lemma SameRequestKey(s: State, s': State, o: nat)
    requires s'.requests == s.requests && s'.contexts == s.contexts
    requires o < |s.requests| && s.requests[o].context < |s.contexts|
    ensures RequestKey(s', o) == RequestKey(s, o)
  {
    hide BranchKey;
  }

  lemma RegisterKeepsPlaced(s: State, c: nat, branchID: int)
    requires Ordered(s) && CanRegister(s, c, branchID)
    ensures Placed(Register(s, c, branchID)) && PcOk(Register(s, c, branchID))
  {
    hide ContextOk, KeyOk, Held, AwaitedOk, FlagsOk, StartersOk, PcOk;
    RegisterKeepsContexts(s, c, branchID);
    RegisterKeepsKeys(s, c, branchID);
    RegisterKeepsAwaited(s, c, branchID);
    RegisterKeepsFlags(s, c, branchID);
    RegisterKeepsPc(s, c, branchID);
  }

  lemma StartKeepsOrdered(s: State, c: nat, branchID: int)
    requires Ordered(s) && s.pc.Idle? && CanRegister(s, c, branchID)
    ensures Ordered(Register(s, c, branchID).(pc := Starts(|s.pool|)))
  {
    hide BranchKey;
    RegisterKeepsPlaced(s, c, branchID);
    var r, s' := Register(s, c, branchID), Register(s, c, branchID).(pc := Starts(|s.pool|));
    forall d: nat | d < |s'.contexts| ensures ContextOk(s', d) { assert ContextOk(r, d); }
    forall key | key in s'.workers ensures KeyOk(s', key) { assert KeyOk(r, key); }
    forall w: nat | w < |s'.pool| && !s'.pool[w].state.Finished? ensures Held(s', w) { assert Held(r, w); }
    forall w: nat | w < |s'.pool| && s'.pool[w].state.Registered? && s'.pc != Starts(w)
      ensures exists o: nat :: o < |s'.requests| && StartedBy(s'.requests, o, w)
    {
      assert w < |s.pool| && s.pool[w].state.Registered?;
    }
  }

  lemma RegisterKeepsStarters(s: State, o: nat)
    requires Ordered(s) && o < |s.requests| && s.requests[o].phase.Starting?
    requires CanRegister(s, s.requests[o].context, s.requests[o].branchID)
    ensures StartersOk(OnboardStep(s, o, true))
  {
    hide AwaitedOk, KeyOk, Held, ContextOk, FlagsOk;
    var s' := OnboardStep(s, o, true);
    assert StartedBy(s'.requests, o, |s.pool|);
    forall p: nat, w: nat | p < |s.requests| && StartedBy(s'.requests, p, w)
      ensures if p == o then w == |s.pool| else StartedBy(s.requests, p, w) && w < |s.pool|
    {
      if p != o { assert StartedBy(s.requests, p, w); }
    }
    forall w: nat | w < |s.pool| && s.pool[w].state.Registered? && s.pc != Starts(w)
      ensures exists p: nat :: p < |s'.requests| && StartedBy(s'.requests, p, w)
    {
      var p: nat :| p < |s.requests| && StartedBy(s.requests, p, w);
      assert StartedBy(s'.requests, p, w);
    }
  }

  /** A change of one phase that leaves the wait group as it is and marks nothing. */
  lemma PhaseKeepsPlaced(s: State, o: nat, phase: Phase)
    requires Placed(s) && o < |s.requests|
    requires InGroup(phase) == InGroup(s.requests[o].phase) && (Flagged(phase) ==> Flagged(s.requests[o].phase))
    ensures Placed(SetPhase(s, o, phase))
  {
    hide BranchKey;
    var s' := SetPhase(s, o, phase);
    forall c: nat | c < |s'.contexts|
      ensures ContextOk(s', c)
    {
      assert ContextOk(s, c);
      assert Group(s'.requests, c) == Group(s.requests, c);
    }
    forall key | key in s'.workers ensures KeyOk(s', key) { assert KeyOk(s, key); }
    forall w: nat | w < |s'.pool| && !s'.pool[w].state.Finished? ensures Held(s', w) { assert Held(s, w); }
    forall v, w | v in Awaited(s'.pc) && w in Awaited(s'.pc) && KeyOf(s', v) == KeyOf(s', w)
      ensures v == w
    {
      assert KeyOf(s, v) == KeyOf(s, w);
    }
    forall p: nat | p < |s.requests|
      ensures RequestKey(s', p) == RequestKey(s, p)
    {
    }
  }

  /** Workers only move on. */
  ghost predicate MovesOn(pool: seq<Worker>, pool': seq<Worker>) {
    && |pool'| == |pool|
    && forall w: nat | w < |pool| ::
         && pool'[w].context == pool[w].context && pool'[w].branchID == pool[w].branchID
         && (pool[w].state.Finished? ==> pool'[w].state.Finished?)
         && (pool[w].cancelled ==> pool'[w].cancelled)
  }

  lemma PoolKeepsPlaced(s: State, pool': seq<Worker>)
    requires Placed(s) && MovesOn(s.pool, pool')
    ensures Placed(s.(pool := pool'))
  {
    hide BranchKey;
    var s' := s.(pool := pool');
    forall c: nat | c < |s'.contexts| ensures ContextOk(s', c) { assert ContextOk(s, c); }
    forall key | key in s'.workers ensures KeyOk(s', key) { assert KeyOk(s, key); }
    forall w: nat | w < |s'.pool| && !s'.pool[w].state.Finished? ensures Held(s', w) { assert Held(s, w); }
    forall v, w | v in Awaited(s'.pc) && w in Awaited(s'.pc) && KeyOf(s', v) == KeyOf(s', w)
      ensures v == w
    {
      assert KeyOf(s, v) == KeyOf(s, w);
    }
  }

  /** The reconciler may stop waiting for workers that have finished. */
  lemma PcKeepsPlaced(s: State, pc': Pc)
    requires Placed(s) && Awaited(pc') <= Awaited(s.pc)
    requires forall w | w in Awaited(s.pc) && w < |s.pool| && !s.pool[w].state.Finished? :: w in Awaited(pc')
    ensures Placed(s.(pc := pc'))
  {
    hide BranchKey;
    var s' := s.(pc := pc');
    forall c: nat | c < |s'.contexts| ensures ContextOk(s', c) { assert ContextOk(s, c); }
    forall key | key in s'.workers ensures KeyOk(s', key) { assert KeyOk(s, key); }
    forall w: nat | w < |s'.pool| && !s'.pool[w].state.Finished? ensures Held(s', w) { assert Held(s, w); }
    forall v, w | v in Awaited(s'.pc) && w in Awaited(s'.pc) && KeyOf(s', v) == KeyOf(s', w)
      ensures v == w
    {
      assert KeyOf(s, v) == KeyOf(s, w);
    }
  }

  /** No worker of a context whose awaited workers have finished is left. */
  lemma NothingLeft(s: State)
    requires Ordered(s) && s.pc.WaitsForWorkers? && AllFinished(s, s.pc.workers)
    ensures Quiet(s.pool, s.pc.context)
  {
    var c := s.pc.context;
    assert ContextOk(s, c);
    forall key | key in s.workers
      ensures s.workers[key] < |s.pool| && s.pool[s.workers[key]].context != c
    {
      assert KeyOk(s, key);
    }
    forall w: nat | w < |s.pool| && s.pool[w].context == c
      ensures s.pool[w].state.Finished?
    {
      assert s.pool[w].state.Finished? || Held(s, w);
    }
  }

  lemma CloseKeepsPlaced(s: State)
    requires Ordered(s) && s.pc.WaitsForWorkers? && AllFinished(s, s.pc.workers)
    ensures Placed(Reconcile(s))
  {
    hide StartersOk, BranchKey;
    NothingLeft(s);
    var c := s.pc.context;
    PcKeepsPlaced(s, Idle);
    var m, s' := s.(pc := Idle), Reconcile(s);
    forall d: nat | d < |s'.contexts| ensures ContextOk(s', d) { assert ContextOk(m, d); }
    forall key | key in s'.workers ensures KeyOk(s', key) { assert KeyOk(m, key); }
    forall w: nat | w < |s'.pool| && !s'.pool[w].state.Finished? ensures Held(s', w) { assert Held(m, w); }
    forall o: nat | o < |s.requests| ensures RequestKey(s', o) == RequestKey(m, o) {}
  }

  /** A worker that starts: its starter goes on, every other starter keeps its own worker. */
  lemma ReconcileKeepsStarters(s: State)
    requires Ordered(s)
    ensures StartersOk(Reconcile(s))
  {
    hide ContextOk, KeyOk, Held, AwaitedOk, FlagsOk;
    var s' := Reconcile(s);
    forall w: nat | w < |s'.pool| && s'.pool[w].state.Registered? && s'.pc != Starts(w)
      ensures exists o: nat :: o < |s'.requests| && StartedBy(s'.requests, o, w)
    {
      assert s.pool[w].state.Registered? && s.pc != Starts(w);
    }
  }

  lemma ReconcileKeepsOrdered(s: State)
    requires Ordered(s)
    ensures Ordered(Reconcile(s))
  {
    hide ContextOk, KeyOk, Held, AwaitedOk, FlagsOk;
    ReconcileKeepsStarters(s);
    var s' := Reconcile(s);
    if s.pc.WaitsForWorkers? && AllFinished(s, s.pc.workers) {
      CloseKeepsPlaced(s);
    } else {
      PoolKeepsPlaced(s, s'.pool);
      PcKeepsPlaced(s.(pool := s'.pool), s'.pc);
    }
  }

  lemma FinishKeepsOrdered(s: State, w: nat)
    requires Ordered(s) && w < |s.pool| && s.pool[w].state.Running?
    ensures Ordered(SetWorker(s, w, Finished))
  {
    hide ContextOk, KeyOk, Held, AwaitedOk, FlagsOk;
    var s' := SetWorker(s, w, Finished);
    PoolKeepsPlaced(s, s'.pool);
    forall v: nat | v < |s'.pool| && s'.pool[v].state.Registered? && s'.pc != Starts(v)
      ensures exists o: nat :: o < |s'.requests| && StartedBy(s'.requests, o, v)
    {
      assert s.pool[v].state.Registered?;
    }
  }

  // ---------------------------------------------------------------- onboarding

  lemma RequestKeepsOrdered(s: State, c: nat, branchID: int)
    requires Ordered(s) && c < |s.contexts| && BranchKey(s.contexts[c].dbName, branchID) !in s.onboarding
    ensures Ordered(Do(s, Request(c, branchID)))
  {
    hide BranchKey;
    var s' := Do(s, Request(c, branchID));
    RequestKeepsPlaced(s, c, branchID);
    forall w: nat | w < |s.pool| && s.pool[w].state.Registered? && s.pc != Starts(w)
      ensures exists o: nat :: o < |s'.requests| && StartedBy(s'.requests, o, w)
    {
      var o: nat :| o < |s.requests| && StartedBy(s.requests, o, w);
      assert StartedBy(s'.requests, o, w);
    }
    forall o: nat, w: nat | o < |s'.requests| && StartedBy(s'.requests, o, w)
      ensures o < |s.requests| && StartedBy(s.requests, o, w)
    {
    }
  }

  lemma RequestKeepsPlaced(s: State, c: nat, branchID: int)
    requires Placed(s) && c < |s.contexts| && BranchKey(s.contexts[c].dbName, branchID) !in s.onboarding
    ensures Placed(Do(s, Request(c, branchID)))
  {
    hide BranchKey;
    var s' := Do(s, Request(c, branchID));
    forall d: nat | d < |s'.contexts|
      ensures ContextOk(s', d)
    {
      assert ContextOk(s, d);
      assert Group(s'.requests, d) == Group(s.requests, d);
    }
    forall key | key in s'.workers ensures KeyOk(s', key) { assert KeyOk(s, key); }
    forall w: nat | w < |s'.pool| && !s'.pool[w].state.Finished? ensures Held(s', w) { assert Held(s, w); }
    forall v, w | v in Awaited(s'.pc) && w in Awaited(s'.pc) && KeyOf(s', v) == KeyOf(s', w)
      ensures v == w
    {
      assert KeyOf(s, v) == KeyOf(s, w);
    }
    forall o: nat | o < |s.requests| ensures RequestKey(s', o) == RequestKey(s, o) {}
  }

  lemma GroupOfChange(s: State, o: nat, phase: Phase, c: nat, x: nat)
    requires o < |s.requests|
    ensures x in Group(SetPhase(s, o, phase).requests, c)
       <==> if x == o then InGroup(phase) && s.requests[o].context == c else x in Group(s.requests, c)
  {
  }

  /** Admission counts one more, and only while the tenant is not stopping; leaving counts one less. */
  lemma GroupChanges(s: State, o: nat, phase: Phase, c: nat)
    requires o < |s.requests| && InGroup(phase) != InGroup(s.requests[o].phase)
    ensures var (g, g') := (Group(s.requests, c), Group(SetPhase(s, o, phase).requests, c));
      |g'| == (if s.requests[o].context != c then |g| else if InGroup(phase) then |g| + 1 else |g| - 1)
  {
    var (g, g') := (Group(s.requests, c), Group(SetPhase(s, o, phase).requests, c));
    assert o in g <==> InGroup(s.requests[o].phase) && s.requests[o].context == c;
    hide Group, SetPhase;
    forall x: nat ensures x in g' <==> if x == o then InGroup(phase) && s.requests[o].context == c else x in g {
      GroupOfChange(s, o, phase, c, x);
    }
    if s.requests[o].context != c {
      assert g' == g;
    } else if InGroup(phase) {
      assert g' == g + {o};
    } else {
      assert g == g' + {o};
    }
  }

  /** A change of one phase together with the count of its wait group. */
  function Counted(s: State, o: nat, phase: Phase): State
    requires o < |s.requests| && s.requests[o].context < |s.contexts|
  {
    var (c, d) := (s.requests[o].context, if InGroup(phase) then 1 else -1);
    if s.contexts[c].admitted + d < 0 then s
    else SetContext(SetPhase(s, o, phase), c, s.contexts[c].(admitted := s.contexts[c].admitted + d))
  }

  ghost predicate CanCount(s: State, o: nat, phase: Phase) {
    && Placed(s) && o < |s.requests| && InGroup(phase) != InGroup(s.requests[o].phase)
    && (Flagged(phase) ==> Flagged(s.requests[o].phase))
    && (InGroup(phase) ==> !s.contexts[s.requests[o].context].stopping)
  }

  lemma CountKeepsContexts(s: State, o: nat, phase: Phase)
    requires CanCount(s, o, phase)
    ensures forall c: nat | c < |Counted(s, o, phase).contexts| :: ContextOk(Counted(s, o, phase), c)
  {
    hide KeyOk, Held, AwaitedOk, FlagsOk, Group, BranchKey;
    var s' := Counted(s, o, phase);
    forall e: nat | e < |s'.contexts|
      ensures ContextOk(s', e)
    {
      assert ContextOk(s, e);
      GroupChanges(s, o, phase, e);
    }
  }

  lemma CountKeepsKeys(s: State, o: nat, phase: Phase)
    requires CanCount(s, o, phase)
    ensures var s' := Counted(s, o, phase);
      && Mapped(s')
      && (forall key | key in s'.workers :: KeyOk(s', key))
      && (forall w: nat | w < |s'.pool| && !s'.pool[w].state.Finished? :: Held(s', w))
  {
    hide ContextOk, AwaitedOk, FlagsOk, BranchKey;
    var s' := Counted(s, o, phase);
    forall key | key in s'.workers ensures KeyOk(s', key) { assert KeyOk(s, key); }
    forall w: nat | w < |s'.pool| && !s'.pool[w].state.Finished? ensures Held(s', w) { assert Held(s, w); }
  }

  lemma CountKeepsAwaited(s: State, o: nat, phase: Phase)
    requires CanCount(s, o, phase)
    ensures Mapped(Counted(s, o, phase)) && AwaitedOk(Counted(s, o, phase))
  {
    hide ContextOk, KeyOk, Held, FlagsOk, BranchKey;
    var s' := Counted(s, o, phase);
    forall v, w | v in Awaited(s'.pc) && w in Awaited(s'.pc) && KeyOf(s', v) == KeyOf(s', w)
      ensures v == w
    {
      assert KeyOf(s, v) == KeyOf(s, w);
    }
  }

  lemma CountKeepsFlags(s: State, o: nat, phase: Phase)
    requires CanCount(s, o, phase)
    ensures Mapped(Counted(s, o, phase)) && FlagsOk(Counted(s, o, phase))
  {
    hide ContextOk, KeyOk, Held, AwaitedOk, BranchKey;
    var s' := Counted(s, o, phase);
    forall p: nat | p < |s.requests|
      ensures RequestKey(s', p) == RequestKey(s, p) && (Flagged(s'.requests[p].phase) ==> Flagged(s.requests[p].phase))
    {
    }
  }

  lemma CountKeepsPlaced(s: State, o: nat, phase: Phase)
    requires CanCount(s, o, phase)
    ensures Placed(Counted(s, o, phase))
  {
    hide ContextOk, KeyOk, Held, AwaitedOk, FlagsOk, Counted;
    CountKeepsContexts(s, o, phase);
    CountKeepsKeys(s, o, phase);
    CountKeepsAwaited(s, o, phase);
    CountKeepsFlags(s, o, phase);
  }

  /** The mark of a request that no longer holds it can go. */
  lemma UnmarkKeepsPlaced(s: State, o: nat, phase: Phase)
    requires Placed(s) && o < |s.requests| && Flagged(s.requests[o].phase)
    requires !Flagged(phase) && InGroup(phase) == InGroup(s.requests[o].phase)
    ensures Placed(SetPhase(s, o, phase).(onboarding := s.onboarding - {RequestKey(s, o)}))
  {
    hide BranchKey;
    PhaseKeepsPlaced(s, o, phase);
    var m := SetPhase(s, o, phase);
    var s' := m.(onboarding := s.onboarding - {RequestKey(s, o)});
    forall c: nat | c < |s'.contexts| ensures ContextOk(s', c) { assert ContextOk(m, c); }
    forall key | key in s'.workers ensures KeyOk(s', key) { assert KeyOk(m, key); }
    forall w: nat | w < |s'.pool| && !s'.pool[w].state.Finished? ensures Held(s', w) { assert Held(m, w); }
    forall v, w | v in Awaited(s'.pc) && w in Awaited(s'.pc) && KeyOf(s', v) == KeyOf(s', w)
      ensures v == w
    {
      assert KeyOf(m, v) == KeyOf(m, w);
    }
    forall p: nat | p < |s.requests| ensures RequestKey(s', p) == RequestKey(s, p) {}
  }

  lemma OnboardKeepsPlaced(s: State, o: nat, succeeds: bool)
    requires Ordered(s) && o < |s.requests|
    ensures Placed(OnboardStep(s, o, succeeds))
  {
    hide ContextOk, KeyOk, Held, AwaitedOk, FlagsOk;
    var c, branchID := s.requests[o].context, s.requests[o].branchID;
    match s.requests[o].phase
    case Marked =>
      if s.contexts[c].stopping { PhaseKeepsPlaced(s, o, Refused); } else { CountKeepsPlaced(s, o, Working); }
    case Refused => UnmarkKeepsPlaced(s, o, Over);
    case Working => PhaseKeepsPlaced(s, o, if succeeds then Starting else Ending);
    case Starting =>
      if CanRegister(s, c, branchID) {
        RegisterKeepsPlaced(s, c, branchID);
        PhaseKeepsPlaced(Register(s, c, branchID), o, Phase.Spawning(|s.pool|));
      } else {
        PhaseKeepsPlaced(s, o, Ending);
      }
    case Spawning(w) =>
      if w < |s.pool| {
        PhaseKeepsPlaced(s, o, Ending);
        PoolKeepsPlaced(SetPhase(s, o, Ending), SetWorker(s, w, Running).pool);
      }
    case Ending => UnmarkKeepsPlaced(s, o, Leaving);
    case Leaving => if s.contexts[c].admitted > 0 { CountKeepsPlaced(s, o, Over); }
    case Over =>
  }

  /** The onboarding that has started its worker is no starter any more, and no worker loses its starter. */
  lemma StartedKeepsStarters(s: State, o: nat)
    requires Ordered(s) && o < |s.requests| && s.requests[o].phase.Spawning?
    ensures StartersOk(OnboardStep(s, o, true))
  {
    hide ContextOk, KeyOk, Held, AwaitedOk, FlagsOk, PcOk, BranchKey;
    var s', w0 := OnboardStep(s, o, true), s.requests[o].phase.worker;
    assert StartedBy(s.requests, o, w0);
    forall p: nat, w: nat | p < |s'.requests| && StartedBy(s'.requests, p, w)
      ensures p != o && w != w0 && StartedBy(s.requests, p, w)
    {
      assert p != o && StartedBy(s.requests, p, w);
    }
    forall w: nat | w < |s'.pool| && s'.pool[w].state.Registered? && s'.pc != Starts(w)
      ensures exists p: nat :: p < |s'.requests| && StartedBy(s'.requests, p, w)
    {
      var p: nat :| p < |s.requests| && StartedBy(s.requests, p, w);
      assert StartedBy(s'.requests, p, w);
    }
  }

  lemma PhaseKeepsStarters(s: State, s': State, o: nat)
    requires StartersOk(s) && o < |s.requests| && !s.requests[o].phase.Spawning?
    requires s'.pool == s.pool && s'.pc == s.pc && |s'.requests| == |s.requests| && !s'.requests[o].phase.Spawning?
    requires forall p: nat | p < |s.requests| && p != o :: s'.requests[p] == s.requests[p]
    ensures StartersOk(s')
  {
    forall p: nat, w: nat | p < |s'.requests| && StartedBy(s'.requests, p, w)
      ensures p != o && StartedBy(s.requests, p, w)
    {
    }
    forall w: nat | w < |s'.pool| && s'.pool[w].state.Registered? && s'.pc != Starts(w)
      ensures exists p: nat :: p < |s'.requests| && StartedBy(s'.requests, p, w)
    {
      var p: nat :| p < |s.requests| && StartedBy(s.requests, p, w);
      assert StartedBy(s'.requests, p, w);
    }
  }

  lemma OnboardKeepsStarters(s: State, o: nat, succeeds: bool)
    requires Ordered(s) && o < |s.requests|
    ensures StartersOk(OnboardStep(s, o, succeeds))
  {
    hide ContextOk, KeyOk, Held, AwaitedOk, FlagsOk, PcOk, StartersOk, BranchKey;
    if s.requests[o].phase.Spawning? {
      StartedKeepsStarters(s, o);
    } else if s.requests[o].phase.Starting? && CanRegister(s, s.requests[o].context, s.requests[o].branchID) {
      RegisterKeepsStarters(s, o);
    } else {
      PhaseKeepsStarters(s, OnboardStep(s, o, succeeds), o);
    }
  }

  /** An onboarding leaves the reconciler, the marks of contexts and the cancelled workers as they are, and admits
      nobody to a stopping tenant. */
  lemma OnboardTouches(s: State, o: nat, succeeds: bool)
    requires o < |s.requests| && s.requests[o].context < |s.contexts|
    ensures var s' := OnboardStep(s, o, succeeds);
      && s'.pc == s.pc && |s'.contexts| == |s.contexts| && |s'.pool| >= |s.pool|
      && (forall c: nat | c < |s.contexts| ::
            && s'.contexts[c].stopping == s.contexts[c].stopping && s'.contexts[c].closed == s.contexts[c].closed
            && (s.contexts[c].stopping && s.contexts[c].admitted == 0 ==> s'.contexts[c].admitted == 0))
      && (forall w: nat | w < |s.pool| :: s'.pool[w].cancelled == s.pool[w].cancelled)
  {
    hide BranchKey;
  }

  lemma AwaitedInPool(s: State)
    requires Ordered(s)
    ensures forall w | w in Awaited(s.pc) :: w < |s.pool|
    ensures forall o | 0 <= o < |s.requests| :: s.requests[o].context < |s.contexts|
  {
    hide ContextOk, KeyOk, Held, FlagsOk, StartersOk, PcOk;
  }

  lemma OnboardKeepsPc(s: State, o: nat, succeeds: bool)
    requires Ordered(s) && o < |s.requests|
    ensures PcOk(OnboardStep(s, o, succeeds))
  {
    AwaitedInPool(s);
    hide Placed, StartersOk, OnboardStep, PcOk;
    OnboardTouches(s, o, succeeds);
    UntouchedKeepsPc(s, OnboardStep(s, o, succeeds));
  }

  lemma UntouchedKeepsPc(s: State, s': State)
    requires PcOk(s) && (forall w | w in Awaited(s.pc) :: w < |s.pool|)
    requires s'.pc == s.pc && |s'.contexts| == |s.contexts| && |s'.pool| >= |s.pool|
    requires forall c: nat | c < |s.contexts| ::
      && s'.contexts[c].stopping == s.contexts[c].stopping && s'.contexts[c].closed == s.contexts[c].closed
      && (s.contexts[c].stopping && s.contexts[c].admitted == 0 ==> s'.contexts[c].admitted == 0)
    requires forall w: nat | w < |s.pool| :: s'.pool[w].cancelled == s.pool[w].cancelled
    ensures PcOk(s')
  {
    if s.pc.WaitsForOnboarding? || s.pc.WaitsForWorkers? || s.pc.WaitsForStopped? {
      forall w | w in s'.pc.workers && w < |s'.pool|
        ensures s'.pool[w].cancelled
      {
        assert w in Awaited(s.pc);
      }
    }
  }

  // ---------------------------------------------------------------- runs

  lemma DoKeepsOrdered(s: State, a: Action)
    requires Ordered(s)
    ensures Ordered(Do(s, a))
  {
    hide ContextOk, KeyOk, Held, AwaitedOk, FlagsOk, StartersOk, PcOk;
    if Do(s, a) == s { return; }
    match a
    case AddTenant(dbName) => AddTenantKeepsOrdered(s, dbName);
    case RemoveTenant(dbName) => RemoveKeepsOrdered(s, dbName);
    case StartBranch(dbName, branchID) => StartKeepsOrdered(s, s.tenants[dbName], branchID);
    case StopBranches(dbName, active) => StopKeepsOrdered(s, dbName, active);
    case Reconciler => ReconcileKeepsOrdered(s);
    case Request(c, branchID) => RequestKeepsOrdered(s, c, branchID);
    case Onboard(o, succeeds) =>
      OnboardKeepsPlaced(s, o, succeeds);
      OnboardKeepsStarters(s, o, succeeds);
      OnboardKeepsPc(s, o, succeeds);
    case Finish(w) => FinishKeepsOrdered(s, w);
  }

  lemma {:induction false} RunIsOrdered(actions: seq<Action>)
    ensures Ordered(Run(START, actions))
  {
    if actions != [] {
      RunIsOrdered(actions[..|actions| - 1]);
      DoKeepsOrdered(Run(START, actions[..|actions| - 1]), actions[|actions| - 1]);
    }
  }

  // ---------------------------------------------------------------- results

  /** Main result: in every run, once the databases of a tenant are closed, and forever after, every worker ever started
      for it has finished and no admitted onboarding of it still runs. */
  lemma ClosedTenantIsQuiet(actions: seq<Action>, c: nat)
    requires c < |Run(START, actions).contexts| && Run(START, actions).contexts[c].closed
    ensures var z := Run(START, actions);
      && (forall w: nat | w < |z.pool| && z.pool[w].context == c :: z.pool[w].state.Finished?)
      && (forall o: nat | o < |z.requests| && z.requests[o].context == c :: !InGroup(z.requests[o].phase))
  {
    RunIsOrdered(actions);
    var z := Run(START, actions);
    assert ContextOk(z, c);
    forall o: nat | o < |z.requests| && z.requests[o].context == c
      ensures !InGroup(z.requests[o].phase)
    {
      assert o !in Group(z.requests, c);
    }
  }

  /** The action is a step of an onboarding of the removed tenant or of the starter of an awaited worker, or the end of
      an awaited worker that was told to stop. */
  predicate Awaits(z: State, a: Action) {
    match a
    case Onboard(o, _) =>
      o < |z.requests| && InGroup(z.requests[o].phase)
      && ((z.pc.WaitsForOnboarding? && z.requests[o].context == z.pc.context)
          || (z.requests[o].phase.Spawning? && z.requests[o].phase.worker in Awaited(z.pc)))
    case Finish(w) => w in Awaited(z.pc) && w < |z.pool| && z.pool[w].cancelled
    case _ => false
  }

  /** While a removal or a stop waits, someone it waits for can move: an onboarding of the tenant, a worker that runs
      and was told to stop, or the onboarding that is about to start a worker. */
  lemma WaitsAreNeverStuck(actions: seq<Action>) returns (next: Action)
    requires var z := Run(START, actions); !z.pc.Idle? && Reconcile(z) == z
    ensures var z := Run(START, actions); Do(z, next) != z && Awaits(z, next)
  {
    RunIsOrdered(actions);
    next := SomeoneMoves(Run(START, actions));
  }

  lemma SomeoneMoves(z: State) returns (next: Action)
    requires Ordered(z) && !z.pc.Idle? && Reconcile(z) == z
    ensures Do(z, next) != z && Awaits(z, next)
  {
    hide KeyOk, Held, FlagsOk;
    if z.pc.WaitsForOnboarding? {
      assert ContextOk(z, z.pc.context);
      var o :| o in Group(z.requests, z.pc.context);
      OnboardMoves(z, o);
      return Onboard(o, true);
    }
    var w :| w in z.pc.workers && w < |z.pool| && !z.pool[w].state.Finished?;
    if z.pool[w].state.Running? {
      assert SetWorker(z, w, Finished).pool[w] != z.pool[w];
      return Finish(w);
    }
    var o: nat :| o < |z.requests| && StartedBy(z.requests, o, w);
    OnboardMoves(z, o);
    return Onboard(o, true);
  }

  lemma OnboardMoves(z: State, o: nat)
    requires Ordered(z) && o < |z.requests| && InGroup(z.requests[o].phase)
    ensures Do(z, Onboard(o, true)) != z
  {
    hide KeyOk, Held, FlagsOk, BranchKey;
    assert ContextOk(z, z.requests[o].context);
    assert o in Group(z.requests, z.requests[o].context);
    var z' := Do(z, Onboard(o, true));
    if z.requests[o].phase.Spawning? { assert StartedBy(z.requests, o, z.requests[o].phase.worker); }
    assert z'.requests[o].phase != z.requests[o].phase;
  }

  // ---------------------------------------------------------------- the work a wait is for

  function Sum(s: seq<nat>): nat {
    if s == [] then 0 else Sum(s[..|s| - 1]) + s[|s| - 1]
  }

  lemma {:induction false} SumGrows(a: seq<nat>, b: seq<nat>)
    requires |a| <= |b| && (forall i | 0 <= i < |a| :: b[i] <= a[i]) && forall i | |a| <= i < |b| :: b[i] == 0
    ensures Sum(b) <= Sum(a)
    ensures (exists i :: 0 <= i < |a| && b[i] < a[i]) ==> Sum(b) < Sum(a)
    decreases |b|
  {
    if b != [] {
      var n := |b| - 1;
      SumGrows(if |a| == |b| then a[..n] else a, b[..n]);
      if i :| 0 <= i < |a| && b[i] < a[i] && i < n {
        assert b[..n][i] == b[i];
      }
    }
  }

  /** How many steps an admitted onboarding has left, and a worker. */
  function StepsOfPhase(p: Phase): nat {
    match p
    case Working => 5
    case Starting => 4
    case Spawning(_) => 3
    case Ending => 2
    case Leaving => 1
    case _ => 0
  }

  function StepsOfWorker(state: WorkerState): nat {
    match state
    case Registered => 2
    case Running => 1
    case Finished => 0
  }

  function OnboardingSteps(z: State): seq<nat> {
    seq(|z.requests|, o requires 0 <= o < |z.requests| =>
      if z.pc.WaitsForOnboarding? && z.requests[o].context == z.pc.context then StepsOfPhase(z.requests[o].phase)
        else 0)
  }

  function WorkerSteps(z: State): seq<nat> {
    seq(|z.pool|, w requires 0 <= w < |z.pool| => if w in Awaited(z.pc) then StepsOfWorker(z.pool[w].state) else 0)
  }

  /** The steps left to the parties a wait is for. */
  function Work(z: State): nat {
    Sum(OnboardingSteps(z)) + Sum(WorkerSteps(z))
  }

  lemma OnboardMovesOne(z: State, o: nat, succeeds: bool)
    requires o < |z.requests| && z.requests[o].context < |z.contexts|
    ensures var (r, r') := (z.requests, OnboardStep(z, o, succeeds).requests);
      |r'| == |r| && r'[o].context == r[o].context && forall i | 0 <= i < |r| && i != o :: r'[i] == r[i]
  {
    hide BranchKey;
  }

  lemma ReconcileMovesNone(z: State)
    ensures Reconcile(z).requests == z.requests
  {
  }

  /** An action moves at most the request it names, and a new request is not admitted. */
  lemma RequestsMove(z: State, a: Action)
    ensures var (r, r') := (z.requests, Do(z, a).requests);
      && |r| <= |r'|
      && (forall i | 0 <= i < |r| && !(a.Onboard? && a.request == i) :: r'[i] == r[i])
      && (forall i | 0 <= i < |r| :: r'[i].context == r[i].context)
      && (forall i | |r| <= i < |r'| :: r'[i].phase.Marked?)
  {
    hide BranchKey, HasPrefix, BranchIDFromKey, OnboardStep, Reconcile;
    if a.Onboard? && a.request < |z.requests| && z.requests[a.request].context < |z.contexts| {
      OnboardMovesOne(z, a.request, a.succeeds);
    }
    ReconcileMovesNone(z);
  }

  /** A request that is admitted goes one step on, and one that is not is not admitted once its tenant stops. */
  lemma PhaseMoves(z: State, o: nat, succeeds: bool)
    requires Ordered(z) && o < |z.requests|
    ensures var (p, p') := (z.requests[o].phase, OnboardStep(z, o, succeeds).requests[o].phase);
      && (InGroup(p) ==> StepsOfPhase(p') < StepsOfPhase(p))
      && (!InGroup(p) && z.contexts[z.requests[o].context].stopping ==> StepsOfPhase(p') == 0)
  {
    hide KeyOk, Held, FlagsOk, BranchKey, AwaitedOk;
    assert ContextOk(z, z.requests[o].context);
    if InGroup(z.requests[o].phase) { assert o in Group(z.requests, z.requests[o].context); }
    if z.requests[o].phase.Spawning? { assert StartedBy(z.requests, o, z.requests[o].phase.worker); }
  }

  lemma OnboardingStepsShrink(z: State, a: Action)
    requires Ordered(z) && z.pc.WaitsForOnboarding? && Do(z, a).pc == z.pc
    ensures var (before, after) := (OnboardingSteps(z), OnboardingSteps(Do(z, a)));
      && |before| <= |after| && (forall i | 0 <= i < |before| :: after[i] <= before[i])
      && (forall i | |before| <= i < |after| :: after[i] == 0)
    ensures a.Onboard? && a.request < |z.requests| && z.requests[a.request].context == z.pc.context
         && InGroup(z.requests[a.request].phase)
      ==> OnboardingSteps(Do(z, a))[a.request] < OnboardingSteps(z)[a.request]
  {
    RequestsMove(z, a);
    if a.Onboard? && a.request < |z.requests| {
      PhaseMoves(z, a.request, a.succeeds);
      assert Do(z, a) == OnboardStep(z, a.request, a.succeeds);
    }
    hide Do, OnboardStep, Placed, StartersOk;
  }

  /** No worker goes back a step. */
  ghost predicate GoesOn(pool: seq<Worker>, pool': seq<Worker>) {
    |pool| <= |pool'| && forall w | 0 <= w < |pool| :: StepsOfWorker(pool'[w].state) <= StepsOfWorker(pool[w].state)
  }

  lemma OnboardGoesOn(z: State, o: nat, succeeds: bool)
    requires Ordered(z) && o < |z.requests| && z.requests[o].context < |z.contexts|
    ensures GoesOn(z.pool, OnboardStep(z, o, succeeds).pool)
  {
    hide KeyOk, Held, FlagsOk, BranchKey, ContextOk, AwaitedOk, PcOk;
    if z.requests[o].phase.Spawning? { assert StartedBy(z.requests, o, z.requests[o].phase.worker); }
  }

  lemma ReconcileGoesOn(z: State)
    requires Reconcile(z).pc == z.pc && z.pc != Idle
    ensures GoesOn(z.pool, Reconcile(z).pool)
  {
  }

  lemma WorkersGoOn(z: State, a: Action)
    requires Ordered(z) && Do(z, a).pc == z.pc && z.pc != Idle
    ensures GoesOn(z.pool, Do(z, a).pool)
  {
    hide Placed, StartersOk, PcOk, BranchKey, HasPrefix, BranchIDFromKey, OnboardStep, Reconcile;
    if a.Onboard? && a.request < |z.requests| && z.requests[a.request].context < |z.contexts| {
      OnboardGoesOn(z, a.request, a.succeeds);
    }
    if a.Reconciler? { ReconcileGoesOn(z); }
  }

  lemma AwaitedExist(z: State)
    requires Ordered(z)
    ensures forall w | w in Awaited(z.pc) :: w < |z.pool|
  {
    hide KeyOk, Held, FlagsOk, BranchKey, ContextOk, StartersOk, PcOk;
  }

  lemma WorkerStepsShrink(z: State, a: Action)
    requires Ordered(z) && Do(z, a).pc == z.pc && z.pc != Idle
    ensures var (before, after) := (WorkerSteps(z), WorkerSteps(Do(z, a)));
      && |before| <= |after| && (forall i | 0 <= i < |before| :: after[i] <= before[i])
      && (forall i | |before| <= i < |after| :: after[i] == 0)
  {
    hide Ordered, Do, StepsOfWorker;
    WorkersGoOn(z, a);
    AwaitedExist(z);
  }

  lemma AwaitedWorkerMoves(z: State, a: Action)
    requires Ordered(z) && Do(z, a).pc == z.pc && Do(z, a) != z && Awaits(z, a)
    requires a.Onboard? ==> z.requests[a.request].phase.Spawning? && z.requests[a.request].phase.worker in Awaited(z.pc)
    ensures exists w :: 0 <= w < |WorkerSteps(z)| && |WorkerSteps(z)| == |WorkerSteps(Do(z, a))|
              && WorkerSteps(Do(z, a))[w] < WorkerSteps(z)[w]
  {
    hide KeyOk, Held, FlagsOk, BranchKey, ContextOk;
    var w := if a.Finish? then a.worker else z.requests[a.request].phase.worker;
    if a.Onboard? { assert StartedBy(z.requests, a.request, w); }
    assert WorkerSteps(Do(z, a))[w] < WorkerSteps(z)[w];
  }

  /** While a wait goes on no action adds to its work, and every step of an awaited party takes some away. So a wait
      sees only as many steps of awaited parties as its work says, and then it ends. */
  lemma WaitingWorkShrinks(z: State, a: Action)
    requires Ordered(z) && (z.pc.WaitsForOnboarding? || z.pc.WaitsForWorkers? || z.pc.WaitsForStopped?)
    requires Do(z, a).pc == z.pc
    ensures Work(Do(z, a)) <= Work(z)
    ensures Do(z, a) != z && Awaits(z, a) ==> Work(Do(z, a)) < Work(z)
  {
    hide Ordered, Do, Awaits, OnboardingSteps, WorkerSteps;
    var z' := Do(z, a);
    WorkerStepsShrink(z, a);
    SumGrows(WorkerSteps(z), WorkerSteps(z'));
    OtherSteps(z, a);
    SumGrows(OnboardingSteps(z), OnboardingSteps(z'));
    if z' != z && Awaits(z, a) {
      AwaitedMoves(z, a);
    }
  }

  lemma OtherSteps(z: State, a: Action)
    requires Ordered(z) && (z.pc.WaitsForOnboarding? || z.pc.WaitsForWorkers? || z.pc.WaitsForStopped?)
    requires Do(z, a).pc == z.pc
    ensures var (before, after) := (OnboardingSteps(z), OnboardingSteps(Do(z, a)));
      && |before| <= |after| && (forall i | 0 <= i < |before| :: after[i] <= before[i])
      && forall i | |before| <= i < |after| :: after[i] == 0
  {
    hide Ordered, Do;
    RequestsMove(z, a);
    if z.pc.WaitsForOnboarding? {
      OnboardingStepsShrink(z, a);
    }
  }

  lemma AwaitedMoves(z: State, a: Action)
    requires Ordered(z) && (z.pc.WaitsForOnboarding? || z.pc.WaitsForWorkers? || z.pc.WaitsForStopped?)
    requires Do(z, a).pc == z.pc
    requires Do(z, a) != z && Awaits(z, a)
    ensures (exists i :: 0 <= i < |OnboardingSteps(z)| <= |OnboardingSteps(Do(z, a))|
                      && OnboardingSteps(Do(z, a))[i] < OnboardingSteps(z)[i])
         || (exists w ::
               && 0 <= w < |WorkerSteps(z)| <= |WorkerSteps(Do(z, a))|
               && WorkerSteps(Do(z, a))[w] < WorkerSteps(z)[w])
  {
    hide Ordered, Do;
    if a.Onboard? && z.pc.WaitsForOnboarding? && z.requests[a.request].context == z.pc.context {
      OnboardingStepsShrink(z, a);
      assert OnboardingSteps(Do(z, a))[a.request] < OnboardingSteps(z)[a.request];
    } else {
      AwaitedWorkerMoves(z, a);
    }
  }

  predicate IsWait(pc: Pc) {
    pc.WaitsForOnboarding? || pc.WaitsForWorkers? || pc.WaitsForStopped?
  }

  /** The run goes on while the reconciler stays where it is. */
  ghost predicate StaysIn(z: State, actions: seq<Action>) {
    actions != [] ==> StaysIn(z, actions[..|actions| - 1]) && Run(z, actions).pc == z.pc
  }

  /** How many of the actions are steps of an awaited party. */
  function AwaitedSteps(z: State, actions: seq<Action>): nat {
    if actions == [] then 0
    else
      var (front, a) := (actions[..|actions| - 1], actions[|actions| - 1]);
      var y := Run(z, front);
      AwaitedSteps(z, front) + if Awaits(y, a) && Do(y, a) != y then 1 else 0
  }

  lemma {:induction false} WaitIsBounded(z: State, actions: seq<Action>)
    requires Ordered(z) && IsWait(z.pc) && StaysIn(z, actions)
    ensures Ordered(Run(z, actions)) && Run(z, actions).pc == z.pc
    ensures AwaitedSteps(z, actions) + Work(Run(z, actions)) <= Work(z)
  {
    hide Ordered, Do, Awaits, Work;
    if actions != [] {
      var (front, a) := (actions[..|actions| - 1], actions[|actions| - 1]);
      WaitIsBounded(z, front);
      DoKeepsOrdered(Run(z, front), a);
      WaitingWorkShrinks(Run(z, front), a);
    }
  }

  lemma AwaitedKeepsPc(z: State, a: Action)
    requires Awaits(z, a)
    ensures Do(z, a).pc == z.pc
  {
    hide BranchKey;
  }

  /** Main result: a wait of the reconciler ends. In every run that goes on from it, once the awaited parties have made
      as many steps as they had left, in any order and with anything between them, the reconciler can go on; and until
      then one of them can move. */
  lemma WaitsEnd(actions: seq<Action>, more: seq<Action>) returns (next: Action)
    requires IsWait(Run(START, actions).pc) && StaysIn(Run(START, actions), more)
    ensures var z := Run(START, actions);
      var y := Run(z, more);
      && AwaitedSteps(z, more) <= Work(z)
      && (AwaitedSteps(z, more) == Work(z) ==> Reconcile(y) != y)
      && (Reconcile(y) == y ==> Awaits(y, next) && Do(y, next) != y)
  {
    hide Ordered, Do, Awaits, Work, Reconcile, AwaitedSteps, StaysIn, Run;
    var z := Run(START, actions);
    var y := Run(z, more);
    RunIsOrdered(actions);
    WaitIsBounded(z, more);
    next := Reconciler;
    if Reconcile(y) == y {
      next := SomeoneMoves(y);
      AwaitedKeepsPc(y, next);
      WaitingWorkShrinks(y, next);
    }
  }

  /** Two unfinished workers of one key are never both in the map: the reconciler waits for one of them. So outside a
      wait a branch has at most one worker. */
  lemma OneWorkerOutsideWaits(actions: seq<Action>, v: nat, w: nat)
    requires var z := Run(START, actions);
      && v < |z.pool| && w < |z.pool| && v != w && !z.pool[v].state.Finished? && !z.pool[w].state.Finished?
      && z.pool[v].context < |z.contexts| && z.pool[w].context < |z.contexts| && KeyOf(z, v) == KeyOf(z, w)
    ensures var z := Run(START, actions);
      && (v in Awaited(z.pc)) != (w in Awaited(z.pc))
      && forall u: nat | u < |z.pool| && !z.pool[u].state.Finished? && z.pool[u].context < |z.contexts|
           && KeyOf(z, u) == KeyOf(z, v) :: u == v || u == w
  {
    hide BranchKey;
    RunIsOrdered(actions);
    var z := Run(START, actions);
    assert Held(z, v) && Held(z, w);
    forall u: nat | u < |z.pool| && !z.pool[u].state.Finished? && z.pool[u].context < |z.contexts|
      && KeyOf(z, u) == KeyOf(z, v)
      ensures u == v || u == w
    {
      assert Held(z, u);
    }
  }

  /** During a wait there can be two: an onboarding that ends while the reconciler waits for the stopped worker of its
      branch starts a second one. */
  lemma TwoWorkersDuringAStop(dbName: string, branchID: int) returns (actions: seq<Action>)
    ensures Run(START, actions).pool == [Worker(0, branchID, Running, true), Worker(0, branchID, Running, false)]
  {
    hide Run, BranchKey, HasPrefix, BranchIDFromKey;
    var key := BranchKey(dbName, branchID);
    actions := OnboardingBesideAWorker(dbName, branchID);
    // The branch is not active any more: its worker is stopped, and while the reconciler waits the onboarding goes on.
    KeyHasPrefix(dbName, branchID);
    actions := Then(actions, StopBranches(dbName, {}));
    assert Run(START, actions).workers == map[] && Run(START, actions).pc == Stops({0});
    actions := Then(actions, Reconciler);
    assert Run(START, actions).pool == [Worker(0, branchID, Running, true)];
    actions := Then(actions, Onboard(0, true));
    actions := Then(actions, Onboard(0, true));
  }

  /** The worker of a branch runs, and an onboarding of the same branch is about to start one. */
  lemma OnboardingBesideAWorker(dbName: string, branchID: int) returns (actions: seq<Action>)
    ensures var (z, key) := (Run(START, actions), BranchKey(dbName, branchID));
      && z.contexts == [Context(dbName, false, 1, false)] && z.tenants == map[dbName := 0] && z.pc == Idle
      && z.pool == [Worker(0, branchID, Running, false)] && z.workers == map[key := 0]
      && z.requests == [Onboarding(0, branchID, Starting)]
  {
    hide BranchKey;
    actions := [];
    assert Run(START, actions) == START;
    hide Run;
    actions := Then(actions, AddTenant(dbName));
    actions := Then(actions, StartBranch(dbName, branchID));
    actions := Then(actions, Reconciler);
    assert Run(START, actions).pool == [Worker(0, branchID, Running, false)];
    actions := Then(actions, Request(0, branchID));
    assert Run(START, actions).requests == [Onboarding(0, branchID, Marked)];
    actions := Then(actions, Onboard(0, true));
    actions := Then(actions, Onboard(0, true));
  }

  lemma Then(actions: seq<Action>, a: Action) returns (r: seq<Action>)
    ensures r == actions + [a] && Run(START, r) == Do(Run(START, actions), a)
  {
    r := actions + [a];
    assert r[..|actions|] == actions;
  }
}

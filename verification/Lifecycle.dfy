/** Tenant removal against workers and onboarding (cmd/daemon/reconcile.go, cmd/daemon/worker.go). One action is one
    critical section or one effect outside the locks, so runs are all interleavings. The reconciler acts under its own
    mutex, one removal or stop at a time. */
module Lifecycle {
  import opened Text
  import opened BranchKeys

  /** A tenantCtx. admitted is the count of its wait group, closed says that its databases were closed. */
  datatype Context = Context(dbName: string, stopping: bool, admitted: nat, closed: bool)

  /** A worker is registered under its key first and started after the lock is released. */
  datatype WorkerState = Registered | Running | Finished

  datatype Worker = Worker(context: nat, branchID: int, state: WorkerState, cancelled: bool)

  /** One onboarding request: the branch is marked, then admitted or refused; an admitted one runs in its goroutine. */
  datatype Phase =
    | Marked
    | Refused
    | Working
    | Starting
    | Spawning(worker: nat)
    | Ending
    | Leaving
    | Over

  datatype Onboarding = Onboarding(context: nat, branchID: int, phase: Phase)

  /** Where the reconciler is. The sets are the workers it has taken out of the map and waits for. */
  datatype Pc =
    | Idle
    | Starts(worker: nat)
    | Cancels(context: nat, workers: set<nat>)
    | WaitsForOnboarding(context: nat, workers: set<nat>)
    | WaitsForWorkers(context: nat, workers: set<nat>)
    | Stops(workers: set<nat>)
    | WaitsForStopped(workers: set<nat>)

  datatype State = State(
    contexts: seq<Context>,
    tenants: map<string, nat>,
    pool: seq<Worker>,
    workers: map<string, nat>,
    requests: seq<Onboarding>,
    onboarding: set<string>,
    pc: Pc)

  datatype Action =
    | AddTenant(dbName: string)
    | RemoveTenant(dbName: string)
    | StartBranch(dbName: string, branchID: int)
    | StopBranches(dbName: string, active: set<int>)
    | Reconciler
    | Request(context: nat, branchID: int)
    | Onboard(request: nat, succeeds: bool)
    | Finish(worker: nat)

  function KeyOf(s: State, w: nat): string
    requires w < |s.pool| && s.pool[w].context < |s.contexts|
  {
    BranchKey(s.contexts[s.pool[w].context].dbName, s.pool[w].branchID)
  }

  predicate Live(s: State, c: nat) {
    c < |s.contexts| && s.contexts[c].dbName in s.tenants && s.tenants[s.contexts[c].dbName] == c
  }

  /** The locked section of startBranch: a worker is registered unless the tenant is gone or the key is taken. */
  predicate CanRegister(s: State, c: nat, branchID: int) {
    Live(s, c) && BranchKey(s.contexts[c].dbName, branchID) !in s.workers
  }

  function Register(s: State, c: nat, branchID: int): State
    requires CanRegister(s, c, branchID)
  {
    s.(pool := s.pool + [Worker(c, branchID, Registered, false)],
       workers := s.workers[BranchKey(s.contexts[c].dbName, branchID) := |s.pool|])
  }

  function SetWorker(s: State, w: nat, state: WorkerState): State
    requires w < |s.pool|
  {
    s.(pool := s.pool[w := s.pool[w].(state := state)])
  }

  function Cancelled(pool: seq<Worker>, ws: set<nat>): (r: seq<Worker>)
    ensures |r| == |pool|
    ensures forall w | 0 <= w < |pool| :: r[w] == (if w in ws then pool[w].(cancelled := true) else pool[w])
  {
    seq(|pool|, w requires 0 <= w < |pool| => if w in ws then pool[w].(cancelled := true) else pool[w])
  }

  function SetPhase(s: State, o: nat, phase: Phase): State
    requires o < |s.requests|
  {
    s.(requests := s.requests[o := s.requests[o].(phase := phase)])
  }

  function SetContext(s: State, c: nat, context: Context): State
    requires c < |s.contexts|
  {
    s.(contexts := s.contexts[c := context])
  }

  /** The locked section of removeTenant. */
  function Remove(s: State, dbName: string): State
    requires dbName in s.tenants && s.tenants[dbName] < |s.contexts|
  {
    var c := s.tenants[dbName];
    var taken := set key | key in s.workers && HasPrefix(key, Prefix(dbName));
    SetContext(s, c, s.contexts[c].(stopping := true))
    .(tenants := s.tenants - {dbName}, workers := s.workers - taken,
      pc := Cancels(c, set key | key in taken :: s.workers[key]))
  }

  /** The locked section at the end of reconcileBranches. */
  function Stop(s: State, dbName: string, active: set<int>): State {
    var taken := set key | key in s.workers && HasPrefix(key, Prefix(dbName)) && BranchIDFromKey(key) !in active;
    s.(workers := s.workers - taken, pc := Stops(set key | key in taken :: s.workers[key]))
  }

  predicate AllFinished(s: State, ws: set<nat>) {
    forall w | w in ws && w < |s.pool| :: s.pool[w].state.Finished?
  }

  function Reconcile(s: State): State {
    match s.pc
    case Idle => s
    case Starts(w) => if w < |s.pool| then SetWorker(s, w, Running).(pc := Idle) else s
    case Cancels(c, ws) => s.(pool := Cancelled(s.pool, ws), pc := WaitsForOnboarding(c, ws))
    case WaitsForOnboarding(c, ws) =>
      if c < |s.contexts| && s.contexts[c].admitted == 0 then s.(pc := WaitsForWorkers(c, ws)) else s
    case WaitsForWorkers(c, ws) =>
      if c < |s.contexts| && AllFinished(s, ws)
      then SetContext(s, c, s.contexts[c].(closed := true)).(pc := Idle) else s
    case Stops(ws) => s.(pool := Cancelled(s.pool, ws), pc := WaitsForStopped(ws))
    case WaitsForStopped(ws) => if AllFinished(s, ws) then s.(pc := Idle) else s
  }

  function OnboardStep(s: State, o: nat, succeeds: bool): State
    requires o < |s.requests| && s.requests[o].context < |s.contexts|
  {
    var (c, branchID) := (s.requests[o].context, s.requests[o].branchID);
    var key := BranchKey(s.contexts[c].dbName, branchID);
    match s.requests[o].phase
    case Marked =>
      if s.contexts[c].stopping then SetPhase(s, o, Refused)
      else SetContext(SetPhase(s, o, Working), c, s.contexts[c].(admitted := s.contexts[c].admitted + 1))
    case Refused => SetPhase(s, o, Over).(onboarding := s.onboarding - {key})
    case Working => SetPhase(s, o, if succeeds then Starting else Ending)
    case Starting =>
      if CanRegister(s, c, branchID) then SetPhase(Register(s, c, branchID), o, Phase.Spawning(|s.pool|))
      else SetPhase(s, o, Ending)
    case Spawning(w) => if w < |s.pool| then SetWorker(SetPhase(s, o, Ending), w, Running) else s
    case Ending => SetPhase(s, o, Leaving).(onboarding := s.onboarding - {key})
    case Leaving =>
      if s.contexts[c].admitted > 0
      then SetContext(SetPhase(s, o, Over), c, s.contexts[c].(admitted := s.contexts[c].admitted - 1)) else s
    case Over => s
  }

  /** An action that is not enabled changes nothing. */
  function Do(s: State, a: Action): State {
    match a
    case AddTenant(dbName) =>
      if s.pc.Idle? && dbName !in s.tenants
      then s.(contexts := s.contexts + [Context(dbName, false, 0, false)],
              tenants := s.tenants[dbName := |s.contexts|]) else s
    case RemoveTenant(dbName) =>
      if s.pc.Idle? && dbName in s.tenants && s.tenants[dbName] < |s.contexts| then Remove(s, dbName) else s
    case StartBranch(dbName, branchID) =>
      if s.pc.Idle? && dbName in s.tenants && CanRegister(s, s.tenants[dbName], branchID)
      then Register(s, s.tenants[dbName], branchID).(pc := Starts(|s.pool|)) else s
    case StopBranches(dbName, active) => if s.pc.Idle? && dbName in s.tenants then Stop(s, dbName, active) else s
    case Reconciler => Reconcile(s)
    case Request(c, branchID) =>
      if c < |s.contexts| && BranchKey(s.contexts[c].dbName, branchID) !in s.onboarding
      then s.(requests := s.requests + [Onboarding(c, branchID, Marked)],
              onboarding := s.onboarding + {BranchKey(s.contexts[c].dbName, branchID)}) else s
    case Onboard(o, succeeds) =>
      if o < |s.requests| && s.requests[o].context < |s.contexts| then OnboardStep(s, o, succeeds) else s
    case Finish(w) => if w < |s.pool| && s.pool[w].state.Running? then SetWorker(s, w, Finished) else s
  }

  function Run(s: State, actions: seq<Action>): State {
    if actions == [] then s else Do(Run(s, actions[..|actions| - 1]), actions[|actions| - 1])
  }

  const START := State([], map[], [], map[], [], {}, Idle)
}

/**
 Two-phase runtime dispatch and leased cleanup, as a transition system.

 Any number of server processes work on any number of executions.  Every
 shared access of the source (one SQL statement, one provider call, one clock
 reading that starts a context deadline) is one action, so a list of actions is
 one interleaving.  An action that is not enabled leaves the world unchanged;
 a crash or any unclassified error sends the process back to Idle.  A create
 request whose reply is lost stays in flight, whatever its sender does, and may
 land until `lag` after the deadline of the context it was sent under.
 */
module RuntimeProtocol {
  import opened Prelude

  type ExecutionId = nat
  type Scope = nat
  type Name = nat
  type Uid = nat
  type Token = nat
  type Proc = nat

  const DOCKER_SCOPE: Scope := 0

  datatype Backend = Docker | Kubernetes

  /**
   nameOf need not be injective: two executions may hash to one workload name.  `namespaces` are
   those that servers are configured with.
   */
  datatype Config = Config(
    backend: Backend, nameOf: ExecutionId -> Name, namespaces: set<Scope>, dispatchLease: nat, lag: nat, retention: int)

  datatype Status = Created | Dispatching | Starting | Running | Succeeded | Failed | Cancelled | TimedOut
  {
    predicate Terminal() { Succeeded? || Failed? || Cancelled? || TimedOut? }

    predicate Diagnostic() { Failed? || TimedOut? }
  }

  datatype Cleanup = NotNeeded | Pending | Done | Blocked

  datatype Identity = Identity(scope: Scope, workload: Name, uid: Uid)

  datatype Record = Record(
    status: Status,
    scope: Option<Scope>, workload: Option<Name>, instance: Option<Uid>,
    dispatchToken: Option<Token>, dispatchClaimedAt: int,
    cleanup: Cleanup, cleanupToken: Option<Token>, cleanupAt: int, cleanupNextAt: Option<int>,
    completedAt: Option<int>)
  {
    predicate Complete() { scope.Some? && workload.Some? && instance.Some? }

    predicate Holds(id: Identity) {
      scope == Some(id.scope) && workload == Some(id.workload) && instance == Some(id.uid)
    }

    /** The WHERE clause of every identity write: each member is unset or already equal. */
    predicate Fits(id: Identity) {
      && (scope.None? || scope == Some(id.scope))
      && (workload.None? || workload == Some(id.workload))
      && (instance.None? || instance == Some(id.uid))
    }

    function With(id: Identity): Record {
      this.(scope := Some(id.scope), workload := Some(id.workload), instance := Some(id.uid))
    }

    function Identify(): Identity
      requires Complete()
    {
      Identity(scope.value, workload.value, instance.value)
    }
  }

  datatype Phase = Suspended | Active | Finished

  datatype Job = Job(uid: Uid, owner: ExecutionId, phase: Phase)

  datatype Key = Key(scope: Scope, name: Name)

  datatype Outcome = Removed | Permanent | Transient

  /** A create request in flight: it may take effect until then. */
  datatype Request = Request(e: ExecutionId, scope: Scope, until: int)

  /**
   Why a dispatcher compensates: the identity write was not acknowledged, the record could not be
   read back, another server had already brought the execution to running, the terminal write after
   a failed activation did not succeed, the record has another identity, or the execution has ended.
   */
  datatype Cause = Unacknowledged | ReloadFailed | Overtaken | Unterminated | Lost | Ended
  {
    predicate Doubtful() { Unacknowledged? || ReloadFailed? || Overtaken? || Unterminated? }
  }

  /** Program points; the first row is dispatchCurrentExecution, the second cleanupExecution. */
  datatype Stage =
    | Idle | Claimed | Timed | Refreshed | Preparing | Creating | Prepared | Failing | Fenced | Completed
    | Activating | StartingUp | Activated | Compensating | Undoing
    | Candidate | CleanClaimed | CleanTimed | Barrier | Lookup | Binding | Bound | Deleting | Removing
    | Finishing | Releasing

  /**
   The local state of one process: the execution it works on, its lease token, the context
   deadline `dl`, its configured namespace, a possibly stale copy `snap` of the record and
   the runtime identity it is handling.  Fields a stage does not use keep their last value.
   */
  datatype Pc = Pc(
    stage: Stage, e: ExecutionId, tok: Token, dl: int, lease: nat, ns: Scope, snap: Record, id: Identity,
    conflicted: bool, dispatching: bool, cause: Cause, outcome: Outcome)

  const IDLE: Pc := Pc(
    Idle, 0, 0, 0, 0, 0, Record(Created, None, None, None, None, 0, NotNeeded, None, 0, None, None),
    Identity(0, 0, 0), false, false, Ended, Transient)

  datatype World = World(
    now: int, recs: map<ExecutionId, Record>, jobs: map<Key, Job>, sent: map<Token, Request>,
    nextUid: Uid, nextToken: Token, procs: map<Proc, Pc>)
  {
    function At(p: Proc): Pc { if p in procs then procs[p] else IDLE }

    function Go(p: Proc, pc: Pc): World { this.(procs := procs[p := pc]) }

    function Put(e: ExecutionId, r: Record): World { this.(recs := recs[e := r]) }
  }

  /** Clocks, the provider, users and crashes. */
  datatype EnvironmentAction =
    | Tick(dt: nat)
    | Terminalize(e: ExecutionId, to: Status)
    | BootstrapStarts(e: ExecutionId)
    | Vanish(k: Key)
    | Exit(k: Key)
    | Crash(p: Proc)
    | Land(tok: Token)
    | Reopen(e: ExecutionId, scope: Option<Scope>, workload: Option<Name>, instance: Option<Uid>)

  /** dispatchCurrentExecution up to CompleteDispatch, with Prepare inside. */
  datatype DispatchAction =
    | ClaimDispatch(e: ExecutionId)
    | StartPrepare
    | RefreshClaim
    | LoadClaimed(ns: Scope)
    | AbandonClaim
    | InspectForPrepare(matches: bool)
    | CreateWorkload
    | LoseReply
    | PrepareFails
    | RefreshBarrier
    | FailDispatch
    | CompleteDispatch(committed: bool, acknowledged: bool)

  /** Activate, and compensatePreparedRuntime. */
  datatype ActivationAction =
    | ReloadPrepared(readable: bool)
    | LoadForActivation(e: ExecutionId)
    | InspectForActivate
    | StartWorkload
    | CheckActivated(permanent: bool, recorded: bool)
    | InspectForUndo
    | UndoWorkload

  /** cleanupExecution, with ResolveExecutionCleanupRuntime and Delete inside. */
  datatype CleanupAction =
    | LoadCandidate(e: ExecutionId)
    | ClaimCleanup(lease: nat)
    | StartDelete
    | ResolveStored
    | CheckBarrier
    | ResolvePrepared(ns: Scope)
    | BindIdentity
    | ReloadBound
    | InspectForDelete
    | RemoveWorkload
    | DeleteTimesOut
    | FinishCleanup(backoff: nat)
    | ReleaseCleanup

  datatype Action =
    | Environment(env: EnvironmentAction)
    | Dispatch(p: Proc, dispatch: DispatchAction)
    | Activate(p: Proc, activation: ActivationAction)
    | Clean(p: Proc, cleanup: CleanupAction)

  // ----- store and provider operations -----

  predicate DispatchStale(c: Config, w: World, r: Record) { r.dispatchClaimedAt <= w.now - c.dispatchLease }

  /** DispatchClaimActive: a preparation may still be in flight. */
  predicate DispatchActive(c: Config, w: World, r: Record) { r.dispatchToken.Some? && !DispatchStale(c, w, r) }

  /** Every transition to a terminal status stamps completed_at and makes cleanup pending. */
  function Terminate(w: World, r: Record, to: Status): Record {
    r.(status := to, completedAt := Some(w.now), cleanup := Pending)
  }

  predicate Configured(c: Config, ns: Scope) { c.backend.Docker? || ns in c.namespaces }

  function ScopeOf(c: Config, ns: Scope): Scope { if c.backend.Docker? then DOCKER_SCOPE else ns }

  /** The namespace in which absence of the workload proves absence of the execution's runtime. */
  function ProvenScope(c: Config, r: Record): Option<Scope> {
    if c.backend.Docker? then Some(DOCKER_SCOPE) else r.scope
  }

  /** What Prepare concludes from an existing workload under the deterministic name. */
  function PrepareFrom(c: Config, pc: Pc, j: Job, matches: bool): Pc
    requires pc.stage.Preparing?
  {
    var name := c.nameOf(pc.e);
    var frozen := if c.backend.Docker? then pc.snap.instance.Some?
                  else pc.snap.scope == Some(pc.ns) && pc.snap.workload == Some(name);
    if !matches || j.owner != pc.e then pc.(stage := Failing)
    else if c.backend.Docker? && pc.snap.instance.Some? && pc.snap.instance != Some(j.uid) then pc.(stage := Failing)
    else if !j.phase.Suspended? && !frozen then pc.(stage := Failing)
    else pc.(stage := Prepared, id := Identity(pc.ns, name, j.uid))
  }

  /** The retention gate of cleanupExecution, evaluated on a stale snapshot. */
  predicate RetentionOver(c: Config, now: int, r: Record) {
    r.status.Diagnostic() && c.retention > 0 && r.completedAt.Some? ==> now - r.completedAt.value >= c.retention
  }

  predicate CleanupClaimable(w: World, r: Record, lease: nat) {
    && r.cleanup.Pending?
    && (r.cleanupNextAt.None? || r.cleanupNextAt.value <= w.now)
    && (r.cleanupToken.None? || r.cleanupAt <= w.now - lease)
  }

  predicate HoldsCleanup(r: Record, tok: Token) { r.cleanup.Pending? && r.cleanupToken == Some(tok) }

  // ----- one action -----

  function Step(c: Config, w: World, a: Action): World {
    match a
    case Environment(env) => EnvironmentStep(c, w, env)
    case Dispatch(p, d) => DispatchStep(c, w, p, d)
    case Activate(p, v) => ActivationStep(c, w, p, v)
    case Clean(p, k) => CleanupStep(c, w, p, k)
  }

  function EnvironmentStep(c: Config, w: World, a: EnvironmentAction): World {
    match a
    case Tick(dt) => StepTick(w, dt)
    case Terminalize(e, to) => StepTerminalize(w, e, to)
    case BootstrapStarts(e) => StepBootstrap(w, e)
    case Vanish(k) => StepVanish(w, k)
    case Exit(k) => StepExit(w, k)
    case Crash(p) => w.Go(p, IDLE)
    case Land(tok) => StepLand(c, w, tok)
    case Reopen(e, scope, workload, instance) => StepReopen(w, e, scope, workload, instance)
  }

  function DispatchStep(c: Config, w: World, p: Proc, a: DispatchAction): World {
    match a
    case ClaimDispatch(e) => StepClaimDispatch(c, w, p, e)
    case StartPrepare => StepStartPrepare(c, w, p)
    case RefreshClaim => StepRefresh(c, w, p)
    case LoadClaimed(ns) => StepLoadClaimed(c, w, p, ns)
    case AbandonClaim => StepAbandonClaim(w, p)
    case InspectForPrepare(matches) => StepInspectForPrepare(c, w, p, matches)
    case CreateWorkload => StepCreate(c, w, p)
    case LoseReply => StepLoseReply(c, w, p)
    case PrepareFails => StepPrepareFails(w, p)
    case RefreshBarrier => StepRefreshBarrier(c, w, p)
    case FailDispatch => StepFailDispatch(c, w, p)
    case CompleteDispatch(committed, acknowledged) => StepComplete(c, w, p, committed, acknowledged)
  }

  function ActivationStep(c: Config, w: World, p: Proc, a: ActivationAction): World {
    match a
    case ReloadPrepared(readable) => StepReloadPrepared(c, w, p, readable)
    case LoadForActivation(e) => StepLoadForActivation(w, p, e)
    case InspectForActivate => StepInspectForActivate(c, w, p)
    case StartWorkload => StepStart(c, w, p)
    case CheckActivated(permanent, recorded) => StepCheckActivated(c, w, p, permanent, recorded)
    case InspectForUndo => StepInspectForUndo(c, w, p)
    case UndoWorkload => StepUndo(c, w, p)
  }

  function CleanupStep(c: Config, w: World, p: Proc, a: CleanupAction): World {
    match a
    case LoadCandidate(e) => StepLoadCandidate(c, w, p, e)
    case ClaimCleanup(lease) => StepClaimCleanup(c, w, p, lease)
    case StartDelete => StepStartDelete(w, p)
    case ResolveStored => StepResolveStored(c, w, p)
    case CheckBarrier => StepCheckBarrier(c, w, p)
    case ResolvePrepared(ns) => StepResolvePrepared(c, w, p, ns)
    case BindIdentity => StepBind(c, w, p)
    case ReloadBound => StepReloadBound(c, w, p)
    case InspectForDelete => StepInspectForDelete(c, w, p)
    case RemoveWorkload => StepRemove(c, w, p)
    case DeleteTimesOut => StepDeleteTimesOut(w, p)
    case FinishCleanup(backoff) => StepFinish(c, w, p, backoff)
    case ReleaseCleanup => StepRelease(c, w, p)
  }

  function StepTick(w: World, dt: nat): World { w.(now := w.now + dt) }

  function StepTerminalize(w: World, e: ExecutionId, to: Status): World {
    if e in w.recs && !w.recs[e].status.Terminal() && to.Terminal()
    then w.Put(e, Terminate(w, w.recs[e], to)) else w
  }

  /** Bootstrap moves a starting execution to running; its guarded identity write changes nothing. */
  function StepBootstrap(w: World, e: ExecutionId): World {
    if e in w.recs && w.recs[e].status.Starting? then w.Put(e, w.recs[e].(status := Running)) else w
  }

  function StepVanish(w: World, k: Key): World { w.(jobs := w.jobs - {k}) }

  function StepExit(w: World, k: Key): World {
    if k in w.jobs && w.jobs[k].phase.Active?
    then w.(jobs := w.jobs[k := w.jobs[k].(phase := Finished)]) else w
  }

  /** A request in flight reaches the provider; under a name that is taken it has no effect. */
  function StepLand(c: Config, w: World, tok: Token): World {
    if tok in w.sent && w.now <= w.sent[tok].until then
      var q := w.sent[tok];
      var k := Key(q.scope, c.nameOf(q.e));
      var gone := w.(sent := w.sent - {tok});
      if k in w.jobs then gone else gone.(jobs := w.jobs[k := Job(w.nextUid, q.e, Suspended)], nextUid := w.nextUid + 1)
    else w
  }

  /** ReopenBlockedCleanup: an operator reopens exactly the blocked identity that was reviewed. */
  function StepReopen(w: World, e: ExecutionId, scope: Option<Scope>, workload: Option<Name>, instance: Option<Uid>): World {
    if e in w.recs && w.recs[e].cleanup.Blocked? && w.recs[e].status.Terminal() &&
       w.recs[e].scope == scope && w.recs[e].workload == workload && w.recs[e].instance == instance
    then w.Put(e, w.recs[e].(cleanup := Pending, cleanupToken := None, cleanupNextAt := None)) else w
  }

  function StepStartPrepare(c: Config, w: World, p: Proc): World {
    if w.At(p).stage.Claimed? && c.dispatchLease / 2 > 0
    then w.Go(p, w.At(p).(stage := Timed, dl := w.now + c.dispatchLease / 2)) else w
  }

  function StepPrepareFails(w: World, p: Proc): World {
    if w.At(p).stage.Preparing? || w.At(p).stage.Creating? then w.Go(p, w.At(p).(stage := Failing)) else w
  }

  /** The reconciler activates a starting execution from whatever it read. */
  function StepLoadForActivation(w: World, p: Proc, e: ExecutionId): World {
    if w.At(p).stage.Idle? && e in w.recs && w.recs[e].status.Starting?
    then w.Go(p, IDLE.(stage := Activating, e := e, snap := w.recs[e])) else w
  }

  /** Terminal executions are cleaned; without retention `fail` also cleans from its pre-failure snapshot. */
  function StepLoadCandidate(c: Config, w: World, p: Proc, e: ExecutionId): World {
    if w.At(p).stage.Idle? && e in w.recs && (w.recs[e].status.Terminal() || c.retention <= 0)
    then w.Go(p, IDLE.(stage := Candidate, e := e, snap := w.recs[e])) else w
  }

  function StepStartDelete(w: World, p: Proc): World {
    if w.At(p).stage.CleanClaimed?
    then w.Go(p, w.At(p).(stage := CleanTimed, dl := w.now + w.At(p).lease / 2)) else w
  }

  function StepDeleteTimesOut(w: World, p: Proc): World {
    var s := w.At(p).stage;
    if s.CleanTimed? || s.Barrier? || s.Lookup? || s.Binding? || s.Bound? || s.Deleting? || s.Removing?
    then w.Go(p, w.At(p).(stage := Finishing, outcome := Transient)) else w
  }

  function StepClaimDispatch(c: Config, w: World, p: Proc, e: ExecutionId): World {
    if w.At(p).stage.Idle? && e in w.recs &&
       (w.recs[e].status.Created? || (w.recs[e].status.Dispatching? && DispatchStale(c, w, w.recs[e])))
    then
      var tok := w.nextToken;
      w.Put(e, w.recs[e].(status := Dispatching, dispatchToken := Some(tok), dispatchClaimedAt := w.now))
      .(nextToken := tok + 1).Go(p, IDLE.(stage := Claimed, e := e, tok := tok))
    else w
  }

  function StepRefresh(c: Config, w: World, p: Proc): World {
    var pc := w.At(p);
    if pc.stage.Timed? && pc.e in w.recs then
      if w.recs[pc.e].dispatchToken == Some(pc.tok) && w.now <= pc.dl
      then w.Put(pc.e, w.recs[pc.e].(dispatchClaimedAt := w.now)).Go(p, pc.(stage := Refreshed))
      else w.Go(p, IDLE)
    else w
  }

  function StepLoadClaimed(c: Config, w: World, p: Proc, ns: Scope): World {
    var pc := w.At(p);
    if pc.stage.Refreshed? && pc.e in w.recs && Configured(c, ns) then
      var r := w.recs[pc.e];
      if w.now > pc.dl || !r.status.Dispatching? || r.dispatchToken != Some(pc.tok) then w.Go(p, IDLE)
      // validateExecution / Prepare: a frozen scope or workload must be the one this server would use
      else if (r.scope.Some? && r.scope != Some(ScopeOf(c, ns))) || (r.workload.Some? && r.workload != Some(c.nameOf(pc.e)))
      then w.Go(p, pc.(stage := Failing))
      else w.Go(p, pc.(stage := Preparing, ns := ScopeOf(c, ns), snap := r, conflicted := false))
    else w
  }

  /** The claimed record could not be read: the claim is given back. */
  function StepAbandonClaim(w: World, p: Proc): World {
    var pc := w.At(p);
    if pc.stage.Refreshed? && pc.e in w.recs then
      var r := w.recs[pc.e];
      if r.status.Dispatching? && r.dispatchToken == Some(pc.tok)
      then w.Put(pc.e, r.(status := Created, dispatchToken := None)).Go(p, IDLE)
      else w.Go(p, IDLE)
    else w
  }

  function StepInspectForPrepare(c: Config, w: World, p: Proc, matches: bool): World {
    var pc := w.At(p);
    if pc.stage.Preparing? && w.now <= pc.dl then
      var k := Key(pc.ns, c.nameOf(pc.e));
      if k in w.jobs then w.Go(p, PrepareFrom(c, pc, w.jobs[k], matches))
      else if pc.conflicted || (c.backend.Docker? && pc.snap.instance.Some?) then w.Go(p, pc.(stage := Failing))
      else w.Go(p, pc.(stage := Creating))
    else w
  }

  function StepCreate(c: Config, w: World, p: Proc): World {
    var pc := w.At(p);
    if pc.stage.Creating? && w.now <= pc.dl then
      var k := Key(pc.ns, c.nameOf(pc.e));
      if k in w.jobs then w.Go(p, pc.(stage := Preparing, conflicted := true))
      else
        w.(jobs := w.jobs[k := Job(w.nextUid, pc.e, Suspended)], nextUid := w.nextUid + 1)
        .Go(p, pc.(stage := Prepared, id := Identity(pc.ns, k.name, w.nextUid)))
    else w
  }

  /** The request was sent, and its reply does not arrive in time. */
  function StepLoseReply(c: Config, w: World, p: Proc): World {
    var pc := w.At(p);
    if pc.stage.Creating? && w.now <= pc.dl
    then w.(sent := w.sent[pc.tok := Request(pc.e, pc.ns, pc.dl + c.lag)]).Go(p, pc.(stage := Failing)) else w
  }

  /** refreshRuntimeDispatchBarrier: without it the failure is not recorded. */
  function StepRefreshBarrier(c: Config, w: World, p: Proc): World {
    var pc := w.At(p);
    if pc.stage.Failing? && pc.e in w.recs then
      if w.recs[pc.e].dispatchToken == Some(pc.tok)
      then w.Put(pc.e, w.recs[pc.e].(dispatchClaimedAt := w.now)).Go(p, pc.(stage := Fenced))
      else w.Go(p, IDLE)
    else w
  }

  function StepFailDispatch(c: Config, w: World, p: Proc): World {
    var pc := w.At(p);
    if pc.stage.Fenced? && pc.e in w.recs then
      var r := w.recs[pc.e];
      if r.status.Dispatching? && r.dispatchToken == Some(pc.tok)
      then w.Put(pc.e, Terminate(w, r, Failed)).Go(p, IDLE)
      else w.Go(p, IDLE)
    else w
  }

  /**
   `acknowledged == false` is a database error, after which the update may or may not have committed.
   On an identity conflict `committed` says whether the failure could be recorded.
   */
  function StepComplete(c: Config, w: World, p: Proc, committed: bool, acknowledged: bool): World {
    var pc := w.At(p);
    if pc.stage.Prepared? && pc.e in w.recs then
      var r := w.recs[pc.e];
      var wins := r.status.Dispatching? && r.dispatchToken == Some(pc.tok) && r.Fits(pc.id);
      var won := w.Put(pc.e, r.With(pc.id).(status := Starting, dispatchToken := None));
      if !acknowledged then (if committed && wins then won else w).Go(p, pc.(stage := Compensating, cause := Unacknowledged))
      else if wins then won.Go(p, pc.(stage := Completed))
      else if r.status.Dispatching? && r.dispatchToken == Some(pc.tok) then
        // identity conflict: failDispatch, then compensate
        (if committed then w.Put(pc.e, Terminate(w, r, Failed)) else w).Go(p, pc.(stage := Compensating, cause := Lost))
      // resolveLostDispatchCompletion
      else if r.status.Terminal() then w.Go(p, pc.(stage := Compensating, cause := Ended))
      else if r.Complete() && !r.Holds(pc.id) then w.Go(p, pc.(stage := Compensating, cause := Lost))
      else w.Go(p, IDLE)
    else w
  }

  /** Only a record read back as starting, with this identity, gives the authority to activate. */
  function StepReloadPrepared(c: Config, w: World, p: Proc, readable: bool): World {
    var pc := w.At(p);
    if pc.stage.Completed? && pc.e in w.recs then
      var r := w.recs[pc.e];
      if !readable then w.Go(p, pc.(stage := Compensating, cause := ReloadFailed))
      else if r.status.Starting? && r.Holds(pc.id) then w.Go(p, pc.(stage := Activating, snap := r, dispatching := true))
      else w.Go(p, pc.(stage := Compensating, cause := if r.status.Terminal() then Ended else Overtaken))
    else w
  }

  function StepInspectForActivate(c: Config, w: World, p: Proc): World {
    var pc := w.At(p);
    if pc.stage.Activating? then
      if !pc.snap.Complete() || pc.snap.workload != Some(c.nameOf(pc.e)) then w.Go(p, IDLE)
      else
        var k := Key(pc.snap.scope.value, pc.snap.workload.value);
        if k !in w.jobs || w.jobs[k].owner != pc.e || Some(w.jobs[k].uid) != pc.snap.instance then w.Go(p, pc.(stage := Activated))
        else if w.jobs[k].phase.Suspended? then w.Go(p, pc.(stage := StartingUp, id := pc.snap.Identify()))
        else w.Go(p, pc.(stage := Activated))
    else w
  }

  /** Docker starts the inspected id; Kubernetes updates the inspected resource version. */
  function StepStart(c: Config, w: World, p: Proc): World {
    var pc := w.At(p);
    if pc.stage.StartingUp? && pc.snap.Complete() then
      var k := Key(pc.snap.scope.value, pc.snap.workload.value);
      if k in w.jobs && w.jobs[k].uid == pc.id.uid && w.jobs[k].phase.Suspended?
      then w.(jobs := w.jobs[k := w.jobs[k].(phase := Active)]).Go(p, pc.(stage := Activated))
      else w.Go(p, pc.(stage := Activated))
    else w
  }

  /**
   After activation a permanent error terminalizes the attempt, if that can be recorded; only the
   dispatch path then compensates, in either case.
   */
  function StepCheckActivated(c: Config, w: World, p: Proc, permanent: bool, recorded: bool): World {
    var pc := w.At(p);
    if pc.stage.Activated? && pc.e in w.recs && pc.snap.Complete() then
      var r := w.recs[pc.e];
      var next := if pc.dispatching then pc.(stage := Compensating, id := pc.snap.Identify(), cause := Ended) else IDLE;
      if r.status.Terminal() then w.Go(p, next)
      else if permanent && recorded then w.Put(pc.e, Terminate(w, r, Failed)).Go(p, next)
      else if permanent && pc.dispatching then w.Go(p, next.(cause := Unterminated))
      else w.Go(p, IDLE)
    else w
  }

  function StepInspectForUndo(c: Config, w: World, p: Proc): World {
    var pc := w.At(p);
    if pc.stage.Compensating? then
      var k := Key(pc.id.scope, c.nameOf(pc.e));
      if k in w.jobs && w.jobs[k].owner == pc.e && w.jobs[k].uid == pc.id.uid then w.Go(p, pc.(stage := Undoing))
      else w.Go(p, IDLE)
    else w
  }

  function StepUndo(c: Config, w: World, p: Proc): World {
    var pc := w.At(p);
    if pc.stage.Undoing? then RemoveUid(c, w, pc.e, pc.id).Go(p, IDLE) else w
  }

  /** Removal by immutable id (Docker) or with a UID precondition (Kubernetes). */
  function RemoveUid(c: Config, w: World, e: ExecutionId, id: Identity): World {
    var k := Key(id.scope, c.nameOf(e));
    if k in w.jobs && w.jobs[k].uid == id.uid then w.(jobs := w.jobs - {k}) else w
  }

  function StepClaimCleanup(c: Config, w: World, p: Proc, lease: nat): World {
    var pc := w.At(p);
    if pc.stage.Candidate? && pc.e in w.recs then
      if pc.snap.cleanup.Done? || pc.snap.cleanup.Blocked? || !RetentionOver(c, w.now, pc.snap) then w.Go(p, IDLE)
      else if CleanupClaimable(w, w.recs[pc.e], lease) then
        var tok := w.nextToken;
        w.Put(pc.e, w.recs[pc.e].(cleanupToken := Some(tok), cleanupAt := w.now))
        .(nextToken := tok + 1).Go(p, pc.(stage := CleanClaimed, tok := tok, lease := lease))
      else w.Go(p, IDLE)
    else w
  }

  function StepResolveStored(c: Config, w: World, p: Proc): World {
    var pc := w.At(p);
    if pc.stage.CleanTimed? && pc.e in w.recs && w.now <= pc.dl then
      var r := w.recs[pc.e];
      if !HoldsCleanup(r, pc.tok) then w.Go(p, pc.(stage := Finishing, outcome := Transient))
      else if r.Complete() then w.Go(p, pc.(stage := Deleting, id := r.Identify()))
      else w.Go(p, pc.(stage := Barrier, snap := r))
    else w
  }

  function StepCheckBarrier(c: Config, w: World, p: Proc): World {
    var pc := w.At(p);
    if pc.stage.Barrier? && pc.e in w.recs && w.now <= pc.dl then
      if DispatchActive(c, w, w.recs[pc.e]) then w.Go(p, pc.(stage := Finishing, outcome := Transient))
      else w.Go(p, pc.(stage := Lookup))
    else w
  }

  /** A 404 counts as absence only in a proven namespace. */
  function StepResolvePrepared(c: Config, w: World, p: Proc, ns: Scope): World {
    var pc := w.At(p);
    if pc.stage.Lookup? && w.now <= pc.dl && Configured(c, ns) then
      var scope := if ProvenScope(c, pc.snap).Some? then ProvenScope(c, pc.snap).value else ns;
      var k := Key(scope, c.nameOf(pc.e));
      if pc.snap.workload.Some? && pc.snap.workload != Some(k.name) then w.Go(p, pc.(stage := Finishing, outcome := Permanent))
      else if k !in w.jobs then
        w.Go(p, pc.(stage := Finishing, outcome := if ProvenScope(c, pc.snap).Some? then Removed else Permanent))
      else if w.jobs[k].owner != pc.e || (pc.snap.instance.Some? && pc.snap.instance != Some(w.jobs[k].uid))
      then w.Go(p, pc.(stage := Finishing, outcome := Permanent))
      else w.Go(p, pc.(stage := Binding, id := Identity(scope, k.name, w.jobs[k].uid)))
    else w
  }

  function StepBind(c: Config, w: World, p: Proc): World {
    var pc := w.At(p);
    if pc.stage.Binding? && pc.e in w.recs && w.now <= pc.dl then
      var r := w.recs[pc.e];
      if !HoldsCleanup(r, pc.tok) then w.Go(p, pc.(stage := Finishing, outcome := Transient))
      else if !r.Fits(pc.id) then w.Go(p, pc.(stage := Finishing, outcome := Permanent))
      else w.Put(pc.e, r.With(pc.id)).Go(p, pc.(stage := Bound))
    else w
  }

  function StepReloadBound(c: Config, w: World, p: Proc): World {
    var pc := w.At(p);
    if pc.stage.Bound? && pc.e in w.recs && w.now <= pc.dl then
      var r := w.recs[pc.e];
      if !HoldsCleanup(r, pc.tok) then w.Go(p, pc.(stage := Finishing, outcome := Transient))
      else if !r.Holds(pc.id) then w.Go(p, pc.(stage := Finishing, outcome := Permanent))
      else w.Go(p, pc.(stage := Deleting))
    else w
  }

  function StepInspectForDelete(c: Config, w: World, p: Proc): World {
    var pc := w.At(p);
    if pc.stage.Deleting? && w.now <= pc.dl then
      var k := Key(pc.id.scope, c.nameOf(pc.e));
      if pc.id.workload != k.name then w.Go(p, pc.(stage := Finishing, outcome := Permanent))
      else if k !in w.jobs then w.Go(p, pc.(stage := Finishing, outcome := Removed))
      else if w.jobs[k].owner != pc.e || w.jobs[k].uid != pc.id.uid then w.Go(p, pc.(stage := Finishing, outcome := Permanent))
      else w.Go(p, pc.(stage := Removing))
    else w
  }

  /** A removal may take effect after its context ended, and is then not known to have. */
  function StepRemove(c: Config, w: World, p: Proc): World {
    var pc := w.At(p);
    if pc.stage.Removing?
    then RemoveUid(c, w, pc.e, pc.id).Go(p, pc.(stage := Finishing, outcome := if w.now <= pc.dl then Removed else Transient))
    else w
  }

  /** CompleteCleanup, BlockCleanup and FailCleanup, by the lease holder. */
  function Concluded(now: int, r: Record, outcome: Outcome, backoff: nat): Record {
    match outcome
    case Removed => r.(cleanupToken := None, cleanup := Done, cleanupNextAt := None, dispatchToken := None)
    case Permanent => r.(cleanupToken := None, cleanup := Blocked, cleanupNextAt := None)
    case Transient => r.(cleanupToken := None, cleanupNextAt := Some(now + backoff))
  }

  function StepFinish(c: Config, w: World, p: Proc, backoff: nat): World {
    var pc := w.At(p);
    if pc.stage.Finishing? && pc.e in w.recs then
      var r := w.recs[pc.e];
      if !HoldsCleanup(r, pc.tok) then w.Go(p, pc.(stage := Releasing))
      else w.Put(pc.e, Concluded(w.now, r, pc.outcome, backoff)).Go(p, pc.(stage := Releasing))
    else w
  }

  function StepRelease(c: Config, w: World, p: Proc): World {
    var pc := w.At(p);
    if pc.stage.Releasing? && pc.e in w.recs then
      if HoldsCleanup(w.recs[pc.e], pc.tok) then w.Put(pc.e, w.recs[pc.e].(cleanupToken := None)).Go(p, IDLE)
      else w.Go(p, IDLE)
    else w
  }

  /** A whole run: any interleaving of any processes is one list of actions. */
  function Run(c: Config, w: World, acts: seq<Action>): World
    decreases |acts|
  {
    if acts == [] then w else Run(c, Step(c, w, acts[0]), acts[1..])
  }

  /** createCurrentExecution: a new record has no identity, no lease and no workload. */
  predicate Fresh(r: Record) {
    && r.status.Created? && r.scope.None? && r.workload.None? && r.instance.None?
    && r.dispatchToken.None? && r.cleanup.NotNeeded? && r.cleanupToken.None? && r.cleanupNextAt.None? && r.completedAt.None?
  }

  ghost predicate Init(w: World) {
    && w.jobs == map[] && w.sent == map[] && w.procs == map[]
    && forall e :: e in w.recs ==> Fresh(w.recs[e])
  }
}

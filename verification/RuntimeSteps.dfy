/** Every action of every process keeps the invariant and only moves records forward. */
module RuntimeSteps {
  import opened Prelude
  import opened RuntimeProtocol
  import opened RuntimeSafety
  import opened RuntimeRuns
  import opened RuntimeActions

  // ----- every action keeps the invariant and the store -----

  lemma TerminalizeKeeps(c: Config, w: World, e: ExecutionId, to: Status)
    requires Inv(c, w)
    ensures Safe(c, w, StepTerminalize(w, e, to))
  {
    if StepTerminalize(w, e, to) != w {
      TerminalizeUpdates(c, w, e, to);
      QuietKeeps(c, w, StepTerminalize(w, e, to), None, e);
    } else {
      Unchanged(c, w);
    }
  }

  lemma BootstrapKeeps(c: Config, w: World, e: ExecutionId)
    requires Inv(c, w)
    ensures Safe(c, w, StepBootstrap(w, e))
  {
    if StepBootstrap(w, e) != w {
      BootstrapUpdates(c, w, e);
      QuietKeeps(c, w, StepBootstrap(w, e), None, e);
    } else {
      Unchanged(c, w);
    }
  }

  lemma VanishKeeps(c: Config, w: World, k: Key)
    requires Inv(c, w)
    ensures Safe(c, w, StepVanish(w, k))
  {
    ActiveHolds(c, w);
    VanishRemoves(c, w, k);
    JobsKeep(c, w, StepVanish(w, k), None);
  }

  lemma ExitKeeps(c: Config, w: World, k: Key)
    requires Inv(c, w)
    ensures Safe(c, w, StepExit(w, k))
  {
    ActiveHolds(c, w);
    ExitRemoves(c, w, k);
    JobsKeep(c, w, StepExit(w, k), None);
  }

  lemma ReopenKeeps(c: Config, w: World, e: ExecutionId, scope: Option<Scope>, workload: Option<Name>, instance: Option<Uid>)
    requires Inv(c, w)
    ensures Safe(c, w, StepReopen(w, e, scope, workload, instance))
  {
    if StepReopen(w, e, scope, workload, instance) != w {
      assert RecordOk(c, w, e, w.recs[e]);
      ReopenUpdates(c, w, e, scope, workload, instance);
      QuietKeeps(c, w, StepReopen(w, e, scope, workload, instance), None, e);
    } else {
      Unchanged(c, w);
    }
  }

  lemma CrashKeeps(c: Config, w: World, p: Proc)
    requires Inv(c, w)
    ensures Safe(c, w, w.Go(p, IDLE))
  {
    Compensates(c, w, p, IDLE);
    LocalKeeps(c, w, w.Go(p, IDLE), p);
  }

  lemma StartPrepareKeeps(c: Config, w: World, p: Proc)
    requires Inv(c, w)
    ensures Safe(c, w, StepStartPrepare(c, w, p))
  {
    FactsHold(c, w, p);
    StartPrepareLocal(c, w, p);
    LocalKeeps(c, w, StepStartPrepare(c, w, p), p);
  }

  lemma RefreshKeeps(c: Config, w: World, p: Proc)
    requires Inv(c, w)
    ensures Safe(c, w, StepRefresh(c, w, p))
  {
    FactsHold(c, w, p);
    RefreshUpdates(c, w, p);
    QuietStepKeeps(c, w, StepRefresh(c, w, p), p, w.At(p).e);
  }

  lemma LoadClaimedKeeps(c: Config, w: World, p: Proc, ns: Scope)
    requires Inv(c, w)
    ensures Safe(c, w, StepLoadClaimed(c, w, p, ns))
  {
    FactsHold(c, w, p);
    LoadClaimedLocal(c, w, p, ns);
    LocalKeeps(c, w, StepLoadClaimed(c, w, p, ns), p);
  }

  lemma InspectForPrepareKeeps(c: Config, w: World, p: Proc, matches: bool)
    requires Inv(c, w)
    ensures Safe(c, w, StepInspectForPrepare(c, w, p, matches))
  {
    FactsHold(c, w, p);
    KeyFactsHold(c, w, Key(w.At(p).ns, c.nameOf(w.At(p).e)));
    InspectForPrepareLocal(c, w, p, matches);
    LocalKeeps(c, w, StepInspectForPrepare(c, w, p, matches), p);
  }

  lemma PrepareFailsKeeps(c: Config, w: World, p: Proc)
    requires Inv(c, w)
    ensures Safe(c, w, StepPrepareFails(w, p))
  {
    FactsHold(c, w, p);
    PrepareFailsLocal(c, w, p);
    LocalKeeps(c, w, StepPrepareFails(w, p), p);
  }

  lemma RefreshBarrierKeeps(c: Config, w: World, p: Proc)
    requires Inv(c, w)
    ensures Safe(c, w, StepRefreshBarrier(c, w, p))
  {
    FactsHold(c, w, p);
    RefreshBarrierUpdates(c, w, p);
    QuietStepKeeps(c, w, StepRefreshBarrier(c, w, p), p, w.At(p).e);
  }

  lemma FailDispatchKeeps(c: Config, w: World, p: Proc)
    requires Inv(c, w)
    ensures Safe(c, w, StepFailDispatch(c, w, p))
  {
    FactsHold(c, w, p);
    FailDispatchUpdates(c, w, p);
    QuietStepKeeps(c, w, StepFailDispatch(c, w, p), p, w.At(p).e);
  }

  lemma ReloadPreparedKeeps(c: Config, w: World, p: Proc, readable: bool)
    requires Inv(c, w)
    ensures Safe(c, w, StepReloadPrepared(c, w, p, readable))
  {
    FactsHold(c, w, p);
    ReloadPreparedLocal(c, w, p, readable);
    LocalKeeps(c, w, StepReloadPrepared(c, w, p, readable), p);
  }

  lemma LoadForActivationKeeps(c: Config, w: World, p: Proc, e: ExecutionId)
    requires Inv(c, w)
    ensures Safe(c, w, StepLoadForActivation(w, p, e))
  {
    FactsHold(c, w, p);
    LoadForActivationLocal(c, w, p, e);
    LocalKeeps(c, w, StepLoadForActivation(w, p, e), p);
  }

  lemma InspectForActivateKeeps(c: Config, w: World, p: Proc)
    requires Inv(c, w)
    ensures Safe(c, w, StepInspectForActivate(c, w, p))
  {
    FactsHold(c, w, p);
    var snap := w.At(p).snap;
    if snap.Complete() { KeyFactsHold(c, w, Key(snap.scope.value, snap.workload.value)); }
    InspectForActivateLocal(c, w, p);
    LocalKeeps(c, w, StepInspectForActivate(c, w, p), p);
  }

  lemma StartKeeps(c: Config, w: World, p: Proc)
    requires Inv(c, w)
    ensures Safe(c, w, StepStart(c, w, p))
  {
    FactsHold(c, w, p);
    if w.At(p).stage.StartingUp? {
      ActiveHolds(c, w);
      StartActivates(c, w, p);
      JobsKeep(c, w, StepStart(c, w, p), Some(p));
    } else {
      Unchanged(c, w);
    }
  }

  lemma CheckActivatedKeeps(c: Config, w: World, p: Proc, permanent: bool, recorded: bool)
    requires Inv(c, w)
    ensures Safe(c, w, StepCheckActivated(c, w, p, permanent, recorded))
  {
    FactsHold(c, w, p);
    CheckActivatedUpdates(c, w, p, permanent, recorded);
    QuietStepKeeps(c, w, StepCheckActivated(c, w, p, permanent, recorded), p, w.At(p).e);
  }

  lemma InspectForUndoKeeps(c: Config, w: World, p: Proc)
    requires Inv(c, w)
    ensures Safe(c, w, StepInspectForUndo(c, w, p))
  {
    FactsHold(c, w, p);
    KeyFactsHold(c, w, Key(w.At(p).id.scope, c.nameOf(w.At(p).e)));
    InspectForUndoLocal(c, w, p);
    LocalKeeps(c, w, StepInspectForUndo(c, w, p), p);
  }

  lemma UndoKeeps(c: Config, w: World, p: Proc)
    requires Inv(c, w)
    ensures Safe(c, w, StepUndo(c, w, p))
  {
    FactsHold(c, w, p);
    if w.At(p).stage.Undoing? {
      ActiveHolds(c, w);
      UndoRemoves(c, w, p);
      JobsKeep(c, w, StepUndo(c, w, p), Some(p));
    } else {
      Unchanged(c, w);
    }
  }

  lemma LoadCandidateKeeps(c: Config, w: World, p: Proc, e: ExecutionId)
    requires Inv(c, w)
    ensures Safe(c, w, StepLoadCandidate(c, w, p, e))
  {
    FactsHold(c, w, p);
    LoadCandidateLocal(c, w, p, e);
    LocalKeeps(c, w, StepLoadCandidate(c, w, p, e), p);
  }

  lemma ClaimCleanupKeeps(c: Config, w: World, p: Proc, lease: nat)
    requires Inv(c, w)
    ensures Safe(c, w, StepClaimCleanup(c, w, p, lease))
  {
    FactsHold(c, w, p);
    ClaimCleanupUpdates(c, w, p, lease);
    QuietStepKeeps(c, w, StepClaimCleanup(c, w, p, lease), p, w.At(p).e);
  }

  lemma StartDeleteKeeps(c: Config, w: World, p: Proc)
    requires Inv(c, w)
    ensures Safe(c, w, StepStartDelete(w, p))
  {
    FactsHold(c, w, p);
    StartDeleteLocal(c, w, p);
    LocalKeeps(c, w, StepStartDelete(w, p), p);
  }

  lemma ResolveStoredKeeps(c: Config, w: World, p: Proc)
    requires Inv(c, w)
    ensures Safe(c, w, StepResolveStored(c, w, p))
  {
    FactsHold(c, w, p);
    var e := w.At(p).e;
    if e in w.recs && w.recs[e].instance.Some? { InstanceMeansNoLive(c, w, e); }
    ResolveStoredLocal(c, w, p);
    LocalKeeps(c, w, StepResolveStored(c, w, p), p);
  }

  lemma CheckBarrierKeeps(c: Config, w: World, p: Proc)
    requires Inv(c, w)
    ensures Safe(c, w, StepCheckBarrier(c, w, p))
  {
    FactsHold(c, w, p);
    var e := w.At(p).e;
    if e in w.recs && !DispatchActive(c, w, w.recs[e]) { BarrierMeansNoLive(c, w, e); }
    CheckBarrierLocal(c, w, p);
    LocalKeeps(c, w, StepCheckBarrier(c, w, p), p);
  }

  lemma ResolvePreparedKeeps(c: Config, w: World, p: Proc, ns: Scope)
    requires Inv(c, w)
    ensures Safe(c, w, StepResolvePrepared(c, w, p, ns))
  {
    FactsHold(c, w, p);
    ResolvePreparedLocal(c, w, p, ns);
    LocalKeeps(c, w, StepResolvePrepared(c, w, p, ns), p);
  }

  lemma ReloadBoundKeeps(c: Config, w: World, p: Proc)
    requires Inv(c, w)
    ensures Safe(c, w, StepReloadBound(c, w, p))
  {
    FactsHold(c, w, p);
    ReloadBoundLocal(c, w, p);
    LocalKeeps(c, w, StepReloadBound(c, w, p), p);
  }

  lemma InspectForDeleteKeeps(c: Config, w: World, p: Proc)
    requires Inv(c, w)
    ensures Safe(c, w, StepInspectForDelete(c, w, p))
  {
    FactsHold(c, w, p);
    InspectForDeleteLocal(c, w, p);
    LocalKeeps(c, w, StepInspectForDelete(c, w, p), p);
  }

  lemma RemoveKeeps(c: Config, w: World, p: Proc)
    requires Inv(c, w)
    ensures Safe(c, w, StepRemove(c, w, p))
  {
    FactsHold(c, w, p);
    if w.At(p).stage.Removing? {
      ActiveHolds(c, w);
      RemovedPcOk(c, w, p);
      RemoveRemoves(c, w, p);
      JobsKeep(c, w, StepRemove(c, w, p), Some(p));
    } else {
      Unchanged(c, w);
    }
  }

  lemma DeleteTimesOutKeeps(c: Config, w: World, p: Proc)
    requires Inv(c, w)
    ensures Safe(c, w, StepDeleteTimesOut(w, p))
  {
    FactsHold(c, w, p);
    DeleteTimesOutLocal(c, w, p);
    LocalKeeps(c, w, StepDeleteTimesOut(w, p), p);
  }

  lemma ReleaseKeeps(c: Config, w: World, p: Proc)
    requires Inv(c, w)
    ensures Safe(c, w, StepRelease(c, w, p))
  {
    FactsHold(c, w, p);
    ReleaseUpdates(c, w, p);
    QuietStepKeeps(c, w, StepRelease(c, w, p), p, w.At(p).e);
  }

  lemma EnvironmentKeeps(c: Config, w: World, a: EnvironmentAction)
    requires Inv(c, w)
    ensures Safe(c, w, EnvironmentStep(c, w, a))
  {
    match a
    case Tick(dt) => TickKeeps(c, w, dt);
    case Terminalize(e, to) => TerminalizeKeeps(c, w, e, to);
    case BootstrapStarts(e) => BootstrapKeeps(c, w, e);
    case Vanish(k) => VanishKeeps(c, w, k);
    case Exit(k) => ExitKeeps(c, w, k);
    case Crash(p) => CrashKeeps(c, w, p);
    case Land(t) => LandKeeps(c, w, t);
    case Reopen(e, scope, workload, instance) => ReopenKeeps(c, w, e, scope, workload, instance);
  }

  lemma DispatchKeeps(c: Config, w: World, p: Proc, a: DispatchAction)
    requires Inv(c, w)
    ensures Safe(c, w, DispatchStep(c, w, p, a))
  {
    match a
    case ClaimDispatch(e) => ClaimDispatchKeeps(c, w, p, e);
    case StartPrepare => StartPrepareKeeps(c, w, p);
    case RefreshClaim => RefreshKeeps(c, w, p);
    case LoadClaimed(ns) => LoadClaimedKeeps(c, w, p, ns);
    case AbandonClaim => AbandonKeeps(c, w, p);
    case InspectForPrepare(matches) => InspectForPrepareKeeps(c, w, p, matches);
    case CreateWorkload => CreateKeeps(c, w, p);
    case LoseReply => LoseReplyKeeps(c, w, p);
    case PrepareFails => PrepareFailsKeeps(c, w, p);
    case RefreshBarrier => RefreshBarrierKeeps(c, w, p);
    case FailDispatch => FailDispatchKeeps(c, w, p);
    case CompleteDispatch(committed, acknowledged) => CompleteKeeps(c, w, p, committed, acknowledged);
  }

  lemma ActivationKeeps(c: Config, w: World, p: Proc, a: ActivationAction)
    requires Inv(c, w)
    ensures Safe(c, w, ActivationStep(c, w, p, a))
  {
    match a
    case ReloadPrepared(readable) => ReloadPreparedKeeps(c, w, p, readable);
    case LoadForActivation(e) => LoadForActivationKeeps(c, w, p, e);
    case InspectForActivate => InspectForActivateKeeps(c, w, p);
    case StartWorkload => StartKeeps(c, w, p);
    case CheckActivated(permanent, recorded) => CheckActivatedKeeps(c, w, p, permanent, recorded);
    case InspectForUndo => InspectForUndoKeeps(c, w, p);
    case UndoWorkload => UndoKeeps(c, w, p);
  }

  lemma CleanupKeeps(c: Config, w: World, p: Proc, a: CleanupAction)
    requires Inv(c, w)
    ensures Safe(c, w, CleanupStep(c, w, p, a))
  {
    match a
    case LoadCandidate(e) => LoadCandidateKeeps(c, w, p, e);
    case ClaimCleanup(lease) => ClaimCleanupKeeps(c, w, p, lease);
    case StartDelete => StartDeleteKeeps(c, w, p);
    case ResolveStored => ResolveStoredKeeps(c, w, p);
    case CheckBarrier => CheckBarrierKeeps(c, w, p);
    case ResolvePrepared(ns) => ResolvePreparedKeeps(c, w, p, ns);
    case BindIdentity => BindKeeps(c, w, p);
    case ReloadBound => ReloadBoundKeeps(c, w, p);
    case InspectForDelete => InspectForDeleteKeeps(c, w, p);
    case RemoveWorkload => RemoveKeeps(c, w, p);
    case DeleteTimesOut => DeleteTimesOutKeeps(c, w, p);
    case FinishCleanup(backoff) => FinishKeeps(c, w, p, backoff);
    case ReleaseCleanup => ReleaseKeeps(c, w, p);
  }

  lemma StepKeeps(c: Config, w: World, a: Action)
    requires Inv(c, w)
    ensures Safe(c, w, Step(c, w, a))
  {
    match a
    case Environment(env) => EnvironmentKeeps(c, w, env);
    case Dispatch(p, d) => DispatchKeeps(c, w, p, d);
    case Activate(p, v) => ActivationKeeps(c, w, p, v);
    case Clean(p, k) => CleanupKeeps(c, w, p, k);
  }

  lemma {:induction false} RunKeeps(c: Config, w: World, acts: seq<Action>)
    requires Inv(c, w)
    ensures Inv(c, Run(c, w, acts))
    decreases |acts|
  {
    if acts != [] {
      StepKeeps(c, w, acts[0]);
      RunKeeps(c, Step(c, w, acts[0]), acts[1..]);
    }
  }

  lemma InitInv(c: Config, w: World)
    requires Init(w)
    ensures Inv(c, w)
  {
  }
}

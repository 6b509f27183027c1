/** Namespaces: an execution dispatched in one namespace has one workload, and none once cleanup is done. */
module RuntimeScopes {
  import opened Prelude
  import opened RuntimeProtocol
  import opened RuntimeSafety
  import opened RuntimeActions
  import opened RuntimeSteps
  import opened RuntimeTheorems

  /** A process that is about to create, persist or bind a workload of e does so in scope s. */
  predicate PcIn(pc: Pc, e: ExecutionId, s: Scope) {
    && (Window(pc) && pc.e == e ==> pc.ns == s)
    && ((pc.stage.Prepared? || pc.stage.Binding?) && pc.e == e ==> pc.id.scope == s)
  }

  /** Everything of e that exists, is in flight or is persisted is in scope s. */
  ghost predicate Confined(w: World, e: ExecutionId, s: Scope) {
    && (e in w.recs && w.recs[e].scope.Some? ==> w.recs[e].scope == Some(s))
    && (forall k :: k in w.jobs && w.jobs[k].owner == e ==> k.scope == s)
    && (forall t :: t in w.sent && w.sent[t].e == e ==> w.sent[t].scope == s)
    && (forall p :: p in w.procs ==> PcIn(w.procs[p], e, s))
  }

  /** The action loads a claim of e for another scope. */
  predicate Strays(c: Config, w: World, a: Action, e: ExecutionId, s: Scope) {
    a.Dispatch? && a.dispatch.LoadClaimed? && w.At(a.p).e == e && Configured(c, a.dispatch.ns) && ScopeOf(c, a.dispatch.ns) != s
  }

  /** An action of p that adds nothing of e outside scope s. */
  ghost predicate Contained(w: World, w': World, p: Proc, e: ExecutionId, s: Scope) {
    && (forall q :: q in w'.procs && q != p ==> q in w.procs && w'.procs[q] == w.procs[q])
    && PcIn(w'.At(p), e, s)
    && (e in w'.recs ==> e in w.recs && (w'.recs[e].scope == w.recs[e].scope || w'.recs[e].scope == Some(s)))
    && (forall k :: k in w'.jobs ==> (k in w.jobs && w'.jobs[k].owner == w.jobs[k].owner) || w'.jobs[k].owner != e || k.scope == s)
    && (forall t :: t in w'.sent ==> (t in w.sent && w'.sent[t] == w.sent[t]) || w'.sent[t].e != e || w'.sent[t].scope == s)
  }

  lemma ContainedStaysIn(w: World, w': World, p: Proc, e: ExecutionId, s: Scope)
    requires Confined(w, e, s) && Contained(w, w', p, e, s)
    ensures Confined(w', e, s)
  {
    forall q | q in w'.procs ensures PcIn(w'.procs[q], e, s) {
      if q != p { assert PcIn(w.procs[q], e, s); } else { assert w'.At(p) == w'.procs[p]; }
    }
  }

  lemma EnvironmentStaysIn(c: Config, w: World, a: EnvironmentAction, e: ExecutionId, s: Scope)
    requires Confined(w, e, s)
    ensures Confined(EnvironmentStep(c, w, a), e, s)
  {}

  predicate Framed(w: World, w': World, p: Proc) {
    w'.jobs == w.jobs && w'.sent == w.sent && (w'.procs == w.procs || w'.procs == w.procs[p := w'.At(p)])
  }

  predicate Recorded(w: World, w': World, p: Proc, e: ExecutionId, s: Scope) {
    var x := w.At(p).e;
    || w'.recs == w.recs
    || (&& x in w.recs && x in w'.recs && w'.recs == w.recs[x := w'.recs[x]]
        && (w'.recs[x].scope == w.recs[x].scope || x != e || w'.recs[x].scope == Some(s)))
  }

  /** Only p and the record it works on change. */
  predicate Quiet(w: World, w': World, p: Proc, e: ExecutionId, s: Scope) {
    Framed(w, w', p) && Recorded(w, w', p, e, s) && PcIn(w'.At(p), e, s)
  }

  lemma QuietContained(w: World, w': World, p: Proc, e: ExecutionId, s: Scope)
    requires Quiet(w, w', p, e, s)
    ensures Contained(w, w', p, e, s)
  {}

  lemma GoQuiet(w: World, p: Proc, pc: Pc, e: ExecutionId, s: Scope)
    requires PcIn(pc, e, s)
    ensures Quiet(w, w.Go(p, pc), p, e, s)
  {
    assert w.Go(p, pc).At(p) == pc;
  }

  lemma PutQuiet(w: World, p: Proc, r: Record, pc: Pc, e: ExecutionId, s: Scope)
    requires PcIn(pc, e, s) && w.At(p).e in w.recs && (r.scope == w.recs[w.At(p).e].scope || w.At(p).e != e || r.scope == Some(s))
    ensures Quiet(w, w.Put(w.At(p).e, r).Go(p, pc), p, e, s)
  {
    assert w.Put(w.At(p).e, r).Go(p, pc).At(p) == pc;
  }

  lemma QuietStaysIn(w: World, w': World, p: Proc, e: ExecutionId, s: Scope)
    requires Confined(w, e, s) && Quiet(w, w', p, e, s)
    ensures Confined(w', e, s)
  {
    QuietContained(w, w', p, e, s);
    ContainedStaysIn(w, w', p, e, s);
  }

  // ----- dispatch -----

  lemma ClaimDispatchContained(c: Config, w: World, p: Proc, x: ExecutionId, e: ExecutionId, s: Scope)
    requires PcIn(w.At(p), e, s)
    ensures Contained(w, StepClaimDispatch(c, w, p, x), p, e, s)
  {}

  lemma StartPrepareQuiet(c: Config, w: World, p: Proc, e: ExecutionId, s: Scope)
    requires PcIn(w.At(p), e, s)
    ensures Quiet(w, StepStartPrepare(c, w, p), p, e, s)
  {}

  lemma RefreshClaimQuiet(c: Config, w: World, p: Proc, e: ExecutionId, s: Scope)
    requires PcIn(w.At(p), e, s)
    ensures Quiet(w, StepRefresh(c, w, p), p, e, s)
  {}

  lemma LoadClaimedQuiet(c: Config, w: World, p: Proc, ns: Scope, e: ExecutionId, s: Scope)
    requires PcIn(w.At(p), e, s) && !Strays(c, w, Dispatch(p, LoadClaimed(ns)), e, s)
    ensures Quiet(w, StepLoadClaimed(c, w, p, ns), p, e, s)
  {}

  lemma AbandonClaimQuiet(c: Config, w: World, p: Proc, e: ExecutionId, s: Scope)
    requires PcIn(w.At(p), e, s)
    ensures Quiet(w, StepAbandonClaim(w, p), p, e, s)
  {}

  lemma InspectForPrepareQuiet(c: Config, w: World, p: Proc, matches: bool, e: ExecutionId, s: Scope)
    requires PcIn(w.At(p), e, s)
    ensures Quiet(w, StepInspectForPrepare(c, w, p, matches), p, e, s)
  {}

  lemma CreateWorkloadContained(c: Config, w: World, p: Proc, e: ExecutionId, s: Scope)
    requires PcIn(w.At(p), e, s)
    ensures Contained(w, StepCreate(c, w, p), p, e, s)
  {}

  lemma LoseReplyContained(c: Config, w: World, p: Proc, e: ExecutionId, s: Scope)
    requires PcIn(w.At(p), e, s)
    ensures Contained(w, StepLoseReply(c, w, p), p, e, s)
  {}

  lemma PrepareFailsQuiet(c: Config, w: World, p: Proc, e: ExecutionId, s: Scope)
    requires PcIn(w.At(p), e, s)
    ensures Quiet(w, StepPrepareFails(w, p), p, e, s)
  {}

  lemma RefreshBarrierQuiet(c: Config, w: World, p: Proc, e: ExecutionId, s: Scope)
    requires PcIn(w.At(p), e, s)
    ensures Quiet(w, StepRefreshBarrier(c, w, p), p, e, s)
  {}

  lemma FailDispatchQuiet(c: Config, w: World, p: Proc, e: ExecutionId, s: Scope)
    requires PcIn(w.At(p), e, s)
    ensures Quiet(w, StepFailDispatch(c, w, p), p, e, s)
  {}

  lemma CompleteDispatchQuiet(c: Config, w: World, p: Proc, committed: bool, acknowledged: bool, e: ExecutionId, s: Scope)
    requires PcIn(w.At(p), e, s)
    ensures Quiet(w, StepComplete(c, w, p, committed, acknowledged), p, e, s)
  {
    var pc := w.At(p);
    if pc.stage.Prepared? && pc.e in w.recs {
      var r := w.recs[pc.e];
      var won := r.With(pc.id).(status := Starting, dispatchToken := None);
      GoQuiet(w, p, IDLE, e, s);
      GoQuiet(w, p, pc.(stage := Compensating, cause := Unacknowledged), e, s);
      GoQuiet(w, p, pc.(stage := Compensating, cause := Lost), e, s);
      GoQuiet(w, p, pc.(stage := Compensating, cause := Ended), e, s);
      PutQuiet(w, p, won, pc.(stage := Compensating, cause := Unacknowledged), e, s);
      PutQuiet(w, p, won, pc.(stage := Completed), e, s);
      PutQuiet(w, p, Terminate(w, r, Failed), pc.(stage := Compensating, cause := Lost), e, s);
    }
  }

  lemma DispatchStaysIn(c: Config, w: World, p: Proc, a: DispatchAction, e: ExecutionId, s: Scope)
    requires Confined(w, e, s) && !Strays(c, w, Dispatch(p, a), e, s)
    ensures Confined(DispatchStep(c, w, p, a), e, s)
  {
    assert PcIn(w.At(p), e, s);
    match a
    case ClaimDispatch(x) => ClaimDispatchContained(c, w, p, x, e, s); ContainedStaysIn(w, StepClaimDispatch(c, w, p, x), p, e, s);
    case StartPrepare => StartPrepareQuiet(c, w, p, e, s); QuietStaysIn(w, StepStartPrepare(c, w, p), p, e, s);
    case RefreshClaim => RefreshClaimQuiet(c, w, p, e, s); QuietStaysIn(w, StepRefresh(c, w, p), p, e, s);
    case LoadClaimed(ns) => LoadClaimedQuiet(c, w, p, ns, e, s); QuietStaysIn(w, StepLoadClaimed(c, w, p, ns), p, e, s);
    case AbandonClaim => AbandonClaimQuiet(c, w, p, e, s); QuietStaysIn(w, StepAbandonClaim(w, p), p, e, s);
    case InspectForPrepare(matches) => InspectForPrepareQuiet(c, w, p, matches, e, s); QuietStaysIn(w, StepInspectForPrepare(c, w, p, matches), p, e, s);
    case CreateWorkload => CreateWorkloadContained(c, w, p, e, s); ContainedStaysIn(w, StepCreate(c, w, p), p, e, s);
    case LoseReply => LoseReplyContained(c, w, p, e, s); ContainedStaysIn(w, StepLoseReply(c, w, p), p, e, s);
    case PrepareFails => PrepareFailsQuiet(c, w, p, e, s); QuietStaysIn(w, StepPrepareFails(w, p), p, e, s);
    case RefreshBarrier => RefreshBarrierQuiet(c, w, p, e, s); QuietStaysIn(w, StepRefreshBarrier(c, w, p), p, e, s);
    case FailDispatch => FailDispatchQuiet(c, w, p, e, s); QuietStaysIn(w, StepFailDispatch(c, w, p), p, e, s);
    case CompleteDispatch(committed, acknowledged) => CompleteDispatchQuiet(c, w, p, committed, acknowledged, e, s); QuietStaysIn(w, StepComplete(c, w, p, committed, acknowledged), p, e, s);
  }

  // ----- activation and compensation -----

  lemma ReloadPreparedQuiet(c: Config, w: World, p: Proc, readable: bool, e: ExecutionId, s: Scope)
    requires PcIn(w.At(p), e, s)
    ensures Quiet(w, StepReloadPrepared(c, w, p, readable), p, e, s)
  {}

  lemma LoadForActivationQuiet(c: Config, w: World, p: Proc, x: ExecutionId, e: ExecutionId, s: Scope)
    requires PcIn(w.At(p), e, s)
    ensures Quiet(w, StepLoadForActivation(w, p, x), p, e, s)
  {}

  lemma InspectForActivateQuiet(c: Config, w: World, p: Proc, e: ExecutionId, s: Scope)
    requires PcIn(w.At(p), e, s)
    ensures Quiet(w, StepInspectForActivate(c, w, p), p, e, s)
  {}

  lemma StartWorkloadContained(c: Config, w: World, p: Proc, e: ExecutionId, s: Scope)
    requires PcIn(w.At(p), e, s)
    ensures Contained(w, StepStart(c, w, p), p, e, s)
  {}

  lemma CheckActivatedQuiet(c: Config, w: World, p: Proc, permanent: bool, recorded: bool, e: ExecutionId, s: Scope)
    requires PcIn(w.At(p), e, s)
    ensures Quiet(w, StepCheckActivated(c, w, p, permanent, recorded), p, e, s)
  {}

  lemma InspectForUndoQuiet(c: Config, w: World, p: Proc, e: ExecutionId, s: Scope)
    requires PcIn(w.At(p), e, s)
    ensures Quiet(w, StepInspectForUndo(c, w, p), p, e, s)
  {}

  lemma UndoWorkloadContained(c: Config, w: World, p: Proc, e: ExecutionId, s: Scope)
    requires PcIn(w.At(p), e, s)
    ensures Contained(w, StepUndo(c, w, p), p, e, s)
  {}

  lemma ActivationStaysIn(c: Config, w: World, p: Proc, a: ActivationAction, e: ExecutionId, s: Scope)
    requires Confined(w, e, s)
    ensures Confined(ActivationStep(c, w, p, a), e, s)
  {
    assert PcIn(w.At(p), e, s);
    match a
    case ReloadPrepared(readable) => ReloadPreparedQuiet(c, w, p, readable, e, s); QuietStaysIn(w, StepReloadPrepared(c, w, p, readable), p, e, s);
    case LoadForActivation(x) => LoadForActivationQuiet(c, w, p, x, e, s); QuietStaysIn(w, StepLoadForActivation(w, p, x), p, e, s);
    case InspectForActivate => InspectForActivateQuiet(c, w, p, e, s); QuietStaysIn(w, StepInspectForActivate(c, w, p), p, e, s);
    case StartWorkload => StartWorkloadContained(c, w, p, e, s); ContainedStaysIn(w, StepStart(c, w, p), p, e, s);
    case CheckActivated(permanent, recorded) => CheckActivatedQuiet(c, w, p, permanent, recorded, e, s); QuietStaysIn(w, StepCheckActivated(c, w, p, permanent, recorded), p, e, s);
    case InspectForUndo => InspectForUndoQuiet(c, w, p, e, s); QuietStaysIn(w, StepInspectForUndo(c, w, p), p, e, s);
    case UndoWorkload => UndoWorkloadContained(c, w, p, e, s); ContainedStaysIn(w, StepUndo(c, w, p), p, e, s);
  }

  // ----- cleanup -----

  lemma LoadCandidateQuiet(c: Config, w: World, p: Proc, x: ExecutionId, e: ExecutionId, s: Scope)
    requires PcIn(w.At(p), e, s)
    ensures Quiet(w, StepLoadCandidate(c, w, p, x), p, e, s)
  {}

  lemma ClaimCleanupQuiet(c: Config, w: World, p: Proc, lease: nat, e: ExecutionId, s: Scope)
    requires PcIn(w.At(p), e, s)
    ensures Quiet(w, StepClaimCleanup(c, w, p, lease), p, e, s)
  {}

  lemma StartDeleteQuiet(c: Config, w: World, p: Proc, e: ExecutionId, s: Scope)
    requires PcIn(w.At(p), e, s)
    ensures Quiet(w, StepStartDelete(w, p), p, e, s)
  {}

  lemma ResolveStoredQuiet(c: Config, w: World, p: Proc, e: ExecutionId, s: Scope)
    requires PcIn(w.At(p), e, s)
    ensures Quiet(w, StepResolveStored(c, w, p), p, e, s)
  {}

  lemma CheckBarrierQuiet(c: Config, w: World, p: Proc, e: ExecutionId, s: Scope)
    requires PcIn(w.At(p), e, s)
    ensures Quiet(w, StepCheckBarrier(c, w, p), p, e, s)
  {}

  /** Where cleanup looks for the workload; what it finds there of e is in scope s. */
  function FoundKey(c: Config, pc: Pc, ns: Scope): Key {
    Key(if ProvenScope(c, pc.snap).Some? then ProvenScope(c, pc.snap).value else ns, c.nameOf(pc.e))
  }

  lemma ResolvePreparedQuiet(c: Config, w: World, p: Proc, ns: Scope, e: ExecutionId, s: Scope)
    requires PcIn(w.At(p), e, s)
    requires var k := FoundKey(c, w.At(p), ns); k in w.jobs && w.jobs[k].owner == e ==> k.scope == s
    ensures Quiet(w, StepResolvePrepared(c, w, p, ns), p, e, s)
  {
    var pc := w.At(p);
    if pc.stage.Lookup? {
      var k := FoundKey(c, pc, ns);
      GoQuiet(w, p, pc.(stage := Finishing, outcome := Permanent), e, s);
      GoQuiet(w, p, pc.(stage := Finishing, outcome := Removed), e, s);
      if k in w.jobs && w.jobs[k].owner == pc.e {
        GoQuiet(w, p, pc.(stage := Binding, id := Identity(k.scope, k.name, w.jobs[k].uid)), e, s);
      }
    }
  }

  lemma BindIdentityQuiet(c: Config, w: World, p: Proc, e: ExecutionId, s: Scope)
    requires PcIn(w.At(p), e, s)
    ensures Quiet(w, StepBind(c, w, p), p, e, s)
  {}

  lemma ReloadBoundQuiet(c: Config, w: World, p: Proc, e: ExecutionId, s: Scope)
    requires PcIn(w.At(p), e, s)
    ensures Quiet(w, StepReloadBound(c, w, p), p, e, s)
  {}

  lemma InspectForDeleteQuiet(c: Config, w: World, p: Proc, e: ExecutionId, s: Scope)
    requires PcIn(w.At(p), e, s)
    ensures Quiet(w, StepInspectForDelete(c, w, p), p, e, s)
  {
    var pc := w.At(p);
    if pc.stage.Deleting? {
      GoQuiet(w, p, pc.(stage := Finishing, outcome := Permanent), e, s);
      GoQuiet(w, p, pc.(stage := Finishing, outcome := Removed), e, s);
      GoQuiet(w, p, pc.(stage := Removing), e, s);
    }
  }

  lemma RemoveWorkloadContained(c: Config, w: World, p: Proc, e: ExecutionId, s: Scope)
    requires PcIn(w.At(p), e, s)
    ensures Contained(w, StepRemove(c, w, p), p, e, s)
  {}

  lemma DeleteTimesOutQuiet(c: Config, w: World, p: Proc, e: ExecutionId, s: Scope)
    requires PcIn(w.At(p), e, s)
    ensures Quiet(w, StepDeleteTimesOut(w, p), p, e, s)
  {}

  lemma FinishCleanupQuiet(c: Config, w: World, p: Proc, backoff: nat, e: ExecutionId, s: Scope)
    requires PcIn(w.At(p), e, s)
    ensures Quiet(w, StepFinish(c, w, p, backoff), p, e, s)
  {}

  lemma ReleaseCleanupQuiet(c: Config, w: World, p: Proc, e: ExecutionId, s: Scope)
    requires PcIn(w.At(p), e, s)
    ensures Quiet(w, StepRelease(c, w, p), p, e, s)
  {}

  lemma CleanupStaysIn(c: Config, w: World, p: Proc, a: CleanupAction, e: ExecutionId, s: Scope)
    requires Confined(w, e, s)
    ensures Confined(CleanupStep(c, w, p, a), e, s)
  {
    assert PcIn(w.At(p), e, s);
    match a
    case LoadCandidate(x) => LoadCandidateQuiet(c, w, p, x, e, s); QuietStaysIn(w, StepLoadCandidate(c, w, p, x), p, e, s);
    case ClaimCleanup(lease) => ClaimCleanupQuiet(c, w, p, lease, e, s); QuietStaysIn(w, StepClaimCleanup(c, w, p, lease), p, e, s);
    case StartDelete => StartDeleteQuiet(c, w, p, e, s); QuietStaysIn(w, StepStartDelete(w, p), p, e, s);
    case ResolveStored => ResolveStoredQuiet(c, w, p, e, s); QuietStaysIn(w, StepResolveStored(c, w, p), p, e, s);
    case CheckBarrier => CheckBarrierQuiet(c, w, p, e, s); QuietStaysIn(w, StepCheckBarrier(c, w, p), p, e, s);
    case ResolvePrepared(ns) => ResolvePreparedQuiet(c, w, p, ns, e, s); QuietStaysIn(w, StepResolvePrepared(c, w, p, ns), p, e, s);
    case BindIdentity => BindIdentityQuiet(c, w, p, e, s); QuietStaysIn(w, StepBind(c, w, p), p, e, s);
    case ReloadBound => ReloadBoundQuiet(c, w, p, e, s); QuietStaysIn(w, StepReloadBound(c, w, p), p, e, s);
    case InspectForDelete => InspectForDeleteQuiet(c, w, p, e, s); QuietStaysIn(w, StepInspectForDelete(c, w, p), p, e, s);
    case RemoveWorkload => RemoveWorkloadContained(c, w, p, e, s); ContainedStaysIn(w, StepRemove(c, w, p), p, e, s);
    case DeleteTimesOut => DeleteTimesOutQuiet(c, w, p, e, s); QuietStaysIn(w, StepDeleteTimesOut(w, p), p, e, s);
    case FinishCleanup(backoff) => FinishCleanupQuiet(c, w, p, backoff, e, s); QuietStaysIn(w, StepFinish(c, w, p, backoff), p, e, s);
    case ReleaseCleanup => ReleaseCleanupQuiet(c, w, p, e, s); QuietStaysIn(w, StepRelease(c, w, p), p, e, s);
  }

  lemma StepStaysIn(c: Config, w: World, a: Action, e: ExecutionId, s: Scope)
    requires Confined(w, e, s) && !Strays(c, w, a, e, s)
    ensures Confined(Step(c, w, a), e, s)
  {
    match a
    case Environment(env) => EnvironmentStaysIn(c, w, env, e, s);
    case Dispatch(p, d) => DispatchStaysIn(c, w, p, d, e, s);
    case Activate(p, v) => ActivationStaysIn(c, w, p, v, e, s);
    case Clean(p, k) => CleanupStaysIn(c, w, p, k, e, s);
  }

  /** Along the run, every claim of e is loaded for scope s. */
  predicate KeepsTo(c: Config, w: World, acts: seq<Action>, e: ExecutionId, s: Scope)
    decreases |acts|
  {
    acts == [] || (!Strays(c, w, acts[0], e, s) && KeepsTo(c, Step(c, w, acts[0]), acts[1..], e, s))
  }

  lemma {:induction false} RunStaysIn(c: Config, w: World, acts: seq<Action>, e: ExecutionId, s: Scope)
    requires Confined(w, e, s) && KeepsTo(c, w, acts, e, s)
    ensures Confined(Run(c, w, acts), e, s)
    decreases |acts|
  {
    if acts != [] {
      StepStaysIn(c, w, acts[0], e, s);
      RunStaysIn(c, Step(c, w, acts[0]), acts[1..], e, s);
    }
  }

  // ----- one execution -----

  /** An execution whose claims are always loaded for one scope has at most one workload, of any phase. */
  lemma OneWorkload(c: Config, w0: World, acts: seq<Action>, e: ExecutionId, s: Scope, k: Key, k': Key)
    requires Init(w0) && KeepsTo(c, w0, acts, e, s)
    requires k in Run(c, w0, acts).jobs && k' in Run(c, w0, acts).jobs
    requires Run(c, w0, acts).jobs[k].owner == e && Run(c, w0, acts).jobs[k'].owner == e
    ensures k == k' && k.scope == s
  {
    InitInv(c, w0);
    RunKeeps(c, w0, acts);
    RunStaysIn(c, w0, acts, e, s);
    var w := Run(c, w0, acts);
    OneWorkloadPerScope(c, w, e, s, k);
    OneWorkloadPerScope(c, w, e, s, k');
  }

  /** With prompt requests it has none anywhere once its cleanup is done. */
  lemma DoneLeavesNothing(c: Config, w0: World, acts: seq<Action>, e: ExecutionId, s: Scope, k: Key)
    requires Prompt(c) && Init(w0) && KeepsTo(c, w0, acts, e, s)
    requires e in Run(c, w0, acts).recs && Run(c, w0, acts).recs[e].cleanup.Done? && k in Run(c, w0, acts).jobs
    ensures Run(c, w0, acts).jobs[k].owner != e
  {
    InitInv(c, w0);
    RunKeeps(c, w0, acts);
    RunStaysIn(c, w0, acts, e, s);
    var w := Run(c, w0, acts);
    assert Gone(c, w, e);
    assert JobOk(c, w, k, w.jobs[k]);
  }

  // ----- all executions -----

  /** Every server works in one scope. */
  predicate OneScope(c: Config) {
    c.backend.Docker? || forall a, b :: a in c.namespaces && b in c.namespaces ==> a == b
  }

  function CommonScope(c: Config): Scope
    requires OneScope(c)
  {
    if c.backend.Docker? || c.namespaces == {} then DOCKER_SCOPE else var s :| s in c.namespaces; s
  }

  lemma {:induction false} OneScopeKeepsTo(c: Config, w: World, acts: seq<Action>, e: ExecutionId)
    requires OneScope(c)
    ensures KeepsTo(c, w, acts, e, CommonScope(c))
    decreases |acts|
  {
    if acts != [] { OneScopeKeepsTo(c, Step(c, w, acts[0]), acts[1..], e); }
  }

  lemma OneScopeWorkloads(c: Config, w: World, k: Key, k': Key)
    requires OneScope(c) && Reachable(c, w) && k in w.jobs && k' in w.jobs && w.jobs[k].owner == w.jobs[k'].owner
    ensures k == k'
  {
    var w0: World, acts: seq<Action> :| Init(w0) && w == Run(c, w0, acts);
    OneScopeKeepsTo(c, w0, acts, w.jobs[k].owner);
    OneWorkload(c, w0, acts, w.jobs[k].owner, CommonScope(c), k, k');
  }

  lemma OneScopeDone(c: Config, w: World, e: ExecutionId, k: Key)
    requires OneScope(c) && Prompt(c) && Reachable(c, w) && e in w.recs && w.recs[e].cleanup.Done? && k in w.jobs
    ensures w.jobs[k].owner != e
  {
    var w0: World, acts: seq<Action> :| Init(w0) && w == Run(c, w0, acts);
    OneScopeKeepsTo(c, w0, acts, e);
    DoneLeavesNothing(c, w0, acts, e, CommonScope(c), k);
  }
}

/** Safety of every run: any number of servers, executions, crashes, retries, late requests and lost workloads. */
module RuntimeTheorems {
  import opened Prelude
  import opened RuntimeProtocol
  import opened RuntimeSafety
  import opened RuntimeRuns
  import opened RuntimeActions
  import opened RuntimeSteps

  // ----- reachable worlds -----

  ghost predicate Reachable(c: Config, w: World) {
    exists w0: World, acts: seq<Action> :: Init(w0) && w == Run(c, w0, acts)
  }

  lemma ReachableInv(c: Config, w: World)
    requires Reachable(c, w)
    ensures Inv(c, w)
  {
    var w0: World, acts: seq<Action> :| Init(w0) && w == Run(c, w0, acts);
    InitInv(c, w0);
    RunKeeps(c, w0, acts);
  }

  lemma {:induction false} RunSnoc(c: Config, w: World, acts: seq<Action>, a: Action)
    ensures Run(c, w, acts + [a]) == Step(c, Run(c, w, acts), a)
    decreases |acts|
  {
    if acts == [] {
      assert acts + [a] == [a];
      assert Run(c, w, [a]) == Run(c, Step(c, w, a), []);
    } else {
      assert (acts + [a])[0] == acts[0] && (acts + [a])[1..] == acts[1..] + [a];
      RunSnoc(c, Step(c, w, acts[0]), acts[1..], a);
    }
  }

  lemma ReachableStep(c: Config, w: World, a: Action)
    requires Reachable(c, w)
    ensures Reachable(c, Step(c, w, a))
  {
    var w0: World, acts: seq<Action> :| Init(w0) && w == Run(c, w0, acts);
    RunSnoc(c, w0, acts, a);
    assert Init(w0) && Step(c, w, a) == Run(c, w0, acts + [a]);
  }

  // ----- running workloads -----

  /** A workload runs only if its instance id is the one persisted for its execution. */
  lemma RunningIsPersisted(c: Config, w: World, k: Key)
    requires Reachable(c, w) && k in w.jobs && w.jobs[k].phase.Active?
    ensures w.jobs[k].owner in w.recs
    ensures w.recs[w.jobs[k].owner].Holds(Identity(k.scope, k.name, w.jobs[k].uid))
  {
    ReachableInv(c, w);
    assert JobOk(c, w, k, w.jobs[k]);
  }

  /** Each execution has at most one running workload, in any namespace. */
  lemma AtMostOneRunning(c: Config, w: World, k: Key, k': Key)
    requires Reachable(c, w) && k in w.jobs && k' in w.jobs
    requires w.jobs[k].phase.Active? && w.jobs[k'].phase.Active? && w.jobs[k].owner == w.jobs[k'].owner
    ensures k == k'
  {
    RunningIsPersisted(c, w, k);
    RunningIsPersisted(c, w, k');
  }

  // ----- the store -----

  /**
   Over any run from a reachable world, a persisted identity member never changes, a terminal
   outcome never changes, and cleanup never leaves done.
   */
  lemma {:induction false} StoreIsWriteOnce(c: Config, w: World, acts: seq<Action>, e: ExecutionId)
    requires Inv(c, w) && e in w.recs
    ensures e in Run(c, w, acts).recs
    ensures Earlier(w.recs[e], Run(c, w, acts).recs[e])
    ensures w.recs[e].cleanup.Done? ==> Run(c, w, acts).recs[e].cleanup.Done?
    ensures w.recs[e].status.Terminal() ==> !Run(c, w, acts).recs[e].cleanup.NotNeeded?
    decreases |acts|
  {
    assert RecordOk(c, w, e, w.recs[e]);
    if acts != [] {
      StepKeeps(c, w, acts[0]);
      StoreIsWriteOnce(c, Step(c, w, acts[0]), acts[1..], e);
    }
  }

  predicate Unblocked(w: World, w': World, e: ExecutionId) {
    e in w.recs && e in w'.recs && w.recs[e].cleanup.Blocked? && !w'.recs[e].cleanup.Blocked?
  }

  lemma EnvironmentUnblocks(c: Config, w: World, a: EnvironmentAction, e: ExecutionId)
    requires e in w.recs && RecordOk(c, w, e, w.recs[e]) && Unblocked(w, EnvironmentStep(c, w, a), e)
    ensures a == Reopen(e, w.recs[e].scope, w.recs[e].workload, w.recs[e].instance)
  {}

  lemma DispatchUnblocksNothing(c: Config, w: World, p: Proc, a: DispatchAction, e: ExecutionId)
    requires e in w.recs && RecordOk(c, w, e, w.recs[e])
    ensures !Unblocked(w, DispatchStep(c, w, p, a), e)
  {}

  lemma ActivationUnblocksNothing(c: Config, w: World, p: Proc, a: ActivationAction, e: ExecutionId)
    requires e in w.recs && RecordOk(c, w, e, w.recs[e])
    ensures !Unblocked(w, ActivationStep(c, w, p, a), e)
  {}

  lemma CleanupUnblocksNothing(c: Config, w: World, p: Proc, a: CleanupAction, e: ExecutionId)
    ensures !Unblocked(w, CleanupStep(c, w, p, a), e)
  {}

  predicate BlockedOrReopened(w: World, w': World, a: Action, e: ExecutionId) {
    && e in w.recs && e in w'.recs
    && (|| w'.recs[e].cleanup.Blocked?
        || (&& a == Environment(Reopen(e, w.recs[e].scope, w.recs[e].workload, w.recs[e].instance))
            && w'.recs[e] == w.recs[e].(cleanup := Pending, cleanupToken := None, cleanupNextAt := None)))
  }

  /** Blocked is left only when an operator reopens exactly this identity, and only to pending. */
  lemma BlockedIsLeftByReopen(c: Config, w: World, a: Action, e: ExecutionId)
    requires Reachable(c, w) && e in w.recs && w.recs[e].cleanup.Blocked?
    ensures BlockedOrReopened(w, Step(c, w, a), a, e)
  {
    ReachableInv(c, w);
    StepKeeps(c, w, a);
    assert RecordOk(c, w, e, w.recs[e]);
    if Unblocked(w, Step(c, w, a), e) {
      match a
      case Environment(env) => EnvironmentUnblocks(c, w, env, e);
      case Dispatch(p, d) => DispatchUnblocksNothing(c, w, p, d, e);
      case Activate(p, v) => ActivationUnblocksNothing(c, w, p, v, e);
      case Clean(p, k) => CleanupUnblocksNothing(c, w, p, k, e);
    }
  }

  // ----- cleanup done -----

  /**
   With prompt requests: once cleanup is recorded done, no workload of the execution exists in its
   proven scope, and no later interleaving, late requests included, can create one there.
   */
  lemma DoneIsForever(c: Config, w: World, acts: seq<Action>, e: ExecutionId)
    requires Prompt(c) && Reachable(c, w) && e in w.recs && w.recs[e].cleanup.Done?
    ensures var w' := Run(c, w, acts); e in w'.recs && w'.recs[e].cleanup.Done? && Gone(c, w', e)
  {
    ReachableInv(c, w);
    RunKeeps(c, w, acts);
    StoreIsWriteOnce(c, w, acts, e);
  }

  predicate Completed(w: World, w': World, e: ExecutionId) {
    e in w.recs && e in w'.recs && !w.recs[e].cleanup.Done? && w'.recs[e].cleanup.Done?
  }

  lemma EnvironmentCompletesNothing(c: Config, w: World, a: EnvironmentAction, e: ExecutionId)
    ensures !Completed(w, EnvironmentStep(c, w, a), e)
  {}

  lemma DispatchCompletesNothing(c: Config, w: World, p: Proc, a: DispatchAction, e: ExecutionId)
    ensures !Completed(w, DispatchStep(c, w, p, a), e)
  {}

  lemma ActivationCompletesNothing(c: Config, w: World, p: Proc, a: ActivationAction, e: ExecutionId)
    ensures !Completed(w, ActivationStep(c, w, p, a), e)
  {}

  lemma OnlyFinishCompletes(c: Config, w: World, p: Proc, a: CleanupAction, e: ExecutionId)
    requires Completed(w, CleanupStep(c, w, p, a), e)
    ensures a.FinishCleanup? && w.At(p).stage.Finishing? && w.At(p).e == e && w.At(p).outcome.Removed?
  {}

  /** Cleanup becomes done only in the step that reports removal, when the workload is already gone. */
  lemma DoneOnlyAfterAbsence(c: Config, w: World, a: Action, e: ExecutionId)
    requires Reachable(c, w) && Completed(w, Step(c, w, a), e)
    ensures a.Clean? && a.cleanup.FinishCleanup? && w.At(a.p).stage.Finishing? && w.At(a.p).outcome.Removed?
    ensures ProvenScope(c, w.recs[e]).Some? && (Prompt(c) ==> Gone(c, w, e))
  {
    match a
    case Environment(env) => EnvironmentCompletesNothing(c, w, env, e);
    case Dispatch(p, d) => DispatchCompletesNothing(c, w, p, d, e);
    case Activate(p, v) => ActivationCompletesNothing(c, w, p, v, e);
    case Clean(p, k) =>
      OnlyFinishCompletes(c, w, p, k, e);
      ReachableInv(c, w);
      FactsHold(c, w, p);
  }

  /** Kubernetes: without a persisted namespace cleanup is never done. */
  lemma UnscopedIsNeverDone(c: Config, w: World, e: ExecutionId)
    requires Reachable(c, w) && c.backend.Kubernetes? && e in w.recs && w.recs[e].scope.None?
    ensures !w.recs[e].cleanup.Done?
  {
    ReachableInv(c, w);
    assert RecordOk(c, w, e, w.recs[e]);
  }

  // ----- how a workload disappears -----

  predicate Lost(w: World, w': World, k: Key) { k in w.jobs && k !in w'.jobs }

  /** The process means exactly this instance under this key. */
  predicate Names(c: Config, w: World, pc: Pc, k: Key) {
    k in w.jobs && k == Key(pc.id.scope, c.nameOf(pc.e)) && w.jobs[k].uid == pc.id.uid
  }

  predicate Undoes(c: Config, w: World, a: Action, k: Key) {
    a.Activate? && a.activation.UndoWorkload? && w.At(a.p).stage.Undoing? && Names(c, w, w.At(a.p), k)
  }

  predicate Cleans(c: Config, w: World, a: Action, k: Key) {
    a.Clean? && a.cleanup.RemoveWorkload? && w.At(a.p).stage.Removing? && Names(c, w, w.At(a.p), k)
  }

  lemma EnvironmentLoses(c: Config, w: World, a: EnvironmentAction, k: Key)
    requires k in w.jobs
    ensures Lost(w, EnvironmentStep(c, w, a), k) <==> a == Vanish(k)
  {}

  lemma DispatchLosesNothing(c: Config, w: World, p: Proc, a: DispatchAction, k: Key)
    ensures !Lost(w, DispatchStep(c, w, p, a), k)
  {}

  lemma OnlyUndoLoses(c: Config, w: World, p: Proc, a: ActivationAction, k: Key)
    requires k in w.jobs
    ensures Lost(w, ActivationStep(c, w, p, a), k) <==> Undoes(c, w, Activate(p, a), k)
  {}

  lemma OnlyRemoveLoses(c: Config, w: World, p: Proc, a: CleanupAction, k: Key)
    requires k in w.jobs
    ensures Lost(w, CleanupStep(c, w, p, a), k) <==> Cleans(c, w, Clean(p, a), k)
  {}

  /** A workload disappears exactly by an external loss, by compensation, or by cleanup, and these two name it. */
  lemma LossIsNamed(c: Config, w: World, a: Action, k: Key)
    requires k in w.jobs
    ensures Lost(w, Step(c, w, a), k) <==> a == Environment(Vanish(k)) || Undoes(c, w, a, k) || Cleans(c, w, a, k)
  {
    match a
    case Environment(env) => EnvironmentLoses(c, w, env, k);
    case Dispatch(p, d) => DispatchLosesNothing(c, w, p, d, k);
    case Activate(p, v) => OnlyUndoLoses(c, w, p, v, k);
    case Clean(p, x) => OnlyRemoveLoses(c, w, p, x, k);
  }

  /** Cleanup removes exactly the instance persisted for the terminal execution it works on. */
  lemma CleanupDeletesOnlyPersisted(c: Config, w: World, a: Action, k: Key)
    requires Reachable(c, w) && Cleans(c, w, a, k)
    ensures var e := w.At(a.p).e;
      && w.jobs[k].owner == e && e in w.recs && w.recs[e].Holds(Identity(k.scope, k.name, w.jobs[k].uid))
      && w.recs[e].status.Terminal() && RetentionOver(c, w.now, w.recs[e])
  {
    ReachableInv(c, w);
    FactsHold(c, w, a.p);
    KeyFactsHold(c, w, k);
  }

  /** The workload that its non-terminal execution is meant to run in. */
  predicate InUse(w: World, k: Key) {
    && k in w.jobs && w.jobs[k].owner in w.recs && !w.recs[w.jobs[k].owner].status.Terminal()
    && w.recs[w.jobs[k].owner].Holds(Identity(k.scope, k.name, w.jobs[k].uid))
  }

  /**
   Compensation removes only the workload this process itself prepared for its execution; one that is
   in use only if the process compensates in doubt.
   */
  lemma CompensationRemovesOwn(c: Config, w: World, a: Action, k: Key)
    requires Reachable(c, w) && Undoes(c, w, a, k)
    ensures w.jobs[k].owner == w.At(a.p).e && w.At(a.p).e in w.recs
    ensures Identity(k.scope, k.name, w.jobs[k].uid) == w.At(a.p).id
    ensures InUse(w, k) ==> w.At(a.p).cause.Doubtful()
    ensures w.jobs[k].phase.Active? && !w.At(a.p).cause.Doubtful() ==> w.recs[w.At(a.p).e].status.Terminal()
  {
    ReachableInv(c, w);
    FactsHold(c, w, a.p);
    KeyFactsHold(c, w, k);
  }

  /**
   While a failed or timed-out execution is inside its retention period, its workload disappears
   exactly by an external loss or by a dispatcher compensating that very workload.
   */
  lemma RetentionKept(c: Config, w: World, a: Action, k: Key)
    requires Reachable(c, w) && k in w.jobs && w.jobs[k].owner in w.recs
    requires var r := w.recs[w.jobs[k].owner];
             r.status.Diagnostic() && c.retention > 0 && r.completedAt.Some? && w.now - r.completedAt.value < c.retention
    ensures Lost(w, Step(c, w, a), k) <==> a == Environment(Vanish(k)) || Undoes(c, w, a, k)
  {
    LossIsNamed(c, w, a, k);
    if Cleans(c, w, a, k) { CleanupDeletesOnlyPersisted(c, w, a, k); }
  }

  // ----- verdicts of a cleaner -----

  /** No action is by p, and none crashes it. */
  predicate Others(acts: seq<Action>, p: Proc) {
    forall i :: 0 <= i < |acts| ==> match acts[i]
      case Environment(env) => env != Crash(p)
      case Dispatch(q, _) => q != p
      case Activate(q, _) => q != p
      case Clean(q, _) => q != p
  }

  lemma OthersLeave(c: Config, w: World, a: Action, p: Proc)
    requires Others([a], p)
    ensures Step(c, w, a).At(p) == w.At(p)
  {
    assert [a][0] == a;
    match a
    case Environment(env) =>
    case Dispatch(q, d) => DispatchLeaves(c, w, q, d, p);
    case Activate(q, v) => ActivationLeaves(c, w, q, v, p);
    case Clean(q, k) => CleanupLeaves(c, w, q, k, p);
  }

  lemma DispatchLeaves(c: Config, w: World, q: Proc, a: DispatchAction, p: Proc)
    requires q != p
    ensures DispatchStep(c, w, q, a).At(p) == w.At(p)
  {}

  lemma ActivationLeaves(c: Config, w: World, q: Proc, a: ActivationAction, p: Proc)
    requires q != p
    ensures ActivationStep(c, w, q, a).At(p) == w.At(p)
  {}

  /** The actions before the lookup of the workload. */
  predicate Opening(a: CleanupAction) {
    a.LoadCandidate? || a.ClaimCleanup? || a.StartDelete? || a.ResolveStored? || a.CheckBarrier?
  }

  lemma OpeningLeaves(c: Config, w: World, q: Proc, a: CleanupAction, p: Proc)
    requires q != p && Opening(a)
    ensures CleanupStep(c, w, q, a).At(p) == w.At(p)
  {}

  lemma ClosingLeaves(c: Config, w: World, q: Proc, a: CleanupAction, p: Proc)
    requires q != p && !Opening(a)
    ensures CleanupStep(c, w, q, a).At(p) == w.At(p)
  {}

  lemma CleanupLeaves(c: Config, w: World, q: Proc, a: CleanupAction, p: Proc)
    requires q != p
    ensures CleanupStep(c, w, q, a).At(p) == w.At(p)
  {
    if Opening(a) { OpeningLeaves(c, w, q, a, p); } else { ClosingLeaves(c, w, q, a, p); }
  }

  lemma {:induction false} OthersRun(c: Config, w: World, acts: seq<Action>, p: Proc)
    requires Inv(c, w) && Others(acts, p)
    ensures Run(c, w, acts).At(p) == w.At(p) && Inv(c, Run(c, w, acts))
    decreases |acts|
  {
    if acts != [] {
      StepKeeps(c, w, acts[0]);
      assert Others([acts[0]], p) by { assert [acts[0]][0] == acts[0]; }
      OthersLeave(c, w, acts[0], p);
      assert Others(acts[1..], p) by { assert forall i :: 0 <= i < |acts[1..]| ==> acts[1..][i] == acts[i + 1]; }
      OthersRun(c, Step(c, w, acts[0]), acts[1..], p);
    }
  }

  /** p has seen a permanent conflict for e under its lease token. */
  predicate Condemned(w: World, p: Proc, e: ExecutionId) {
    w.At(p).stage.Finishing? && w.At(p).outcome.Permanent? && w.At(p).e == e
  }

  /** From then on p can only crash or finish, and finishing never records done. */
  lemma CondemnedStaysOrEnds(c: Config, w: World, p: Proc, e: ExecutionId, a: Action)
    requires e in w.recs && Condemned(w, p, e)
    ensures Step(c, w, a).At(p) == w.At(p) || a == Environment(Crash(p)) || Ends(c, w, p, e, a)
  {
    match a
    case Environment(env) =>
    case Dispatch(q, d) => if q == p { CondemnedDispatch(c, w, p, e, d); } else { DispatchLeaves(c, w, q, d, p); }
    case Activate(q, v) => if q == p { CondemnedActivation(c, w, p, e, v); } else { ActivationLeaves(c, w, q, v, p); }
    case Clean(q, k) => if q == p { CondemnedCleanup(c, w, p, e, k); } else { CleanupLeaves(c, w, q, k, p); }
  }

  predicate Ends(c: Config, w: World, p: Proc, e: ExecutionId, a: Action) {
    a.Clean? && a.p == p && a.cleanup.FinishCleanup? && Blocks(w, StepFinish(c, w, p, a.cleanup.backoff), p, e)
  }

  lemma CondemnedDispatch(c: Config, w: World, p: Proc, e: ExecutionId, a: DispatchAction)
    requires Condemned(w, p, e)
    ensures DispatchStep(c, w, p, a) == w
  {}

  lemma CondemnedActivation(c: Config, w: World, p: Proc, e: ExecutionId, a: ActivationAction)
    requires Condemned(w, p, e)
    ensures ActivationStep(c, w, p, a) == w
  {}

  lemma CondemnedCleanup(c: Config, w: World, p: Proc, e: ExecutionId, a: CleanupAction)
    requires e in w.recs && Condemned(w, p, e)
    ensures if a.FinishCleanup? then Ends(c, w, p, e, Clean(p, a)) else CleanupStep(c, w, p, a) == w
  {
    if a.FinishCleanup? { FinishBlocks(c, w, p, e, a.backoff); } else { CondemnedWaits(c, w, p, e, a); }
  }

  lemma CondemnedWaits(c: Config, w: World, p: Proc, e: ExecutionId, a: CleanupAction)
    requires Condemned(w, p, e) && !a.FinishCleanup?
    ensures CleanupStep(c, w, p, a) == w
  {}

  /** The finish of p: blocked if p still holds the lease, no change to the record otherwise. */
  predicate Blocks(w: World, w': World, p: Proc, e: ExecutionId) {
    && e in w.recs && e in w'.recs
    && if HoldsCleanup(w.recs[e], w.At(p).tok) then w'.recs[e].cleanup.Blocked? else w'.recs[e] == w.recs[e]
  }

  lemma FinishBlocks(c: Config, w: World, p: Proc, e: ExecutionId, backoff: nat)
    requires Condemned(w, p, e) && e in w.recs
    ensures Blocks(w, StepFinish(c, w, p, backoff), p, e)
  {}

  /** Whatever others do before p finishes, its finish blocks cleanup or, without the lease, changes nothing. */
  ghost predicate EndsBlocked(c: Config, w: World, p: Proc, e: ExecutionId, acts: seq<Action>, backoff: nat) {
    var v := Run(c, w, acts);
    Condemned(v, p, e) && Blocks(v, StepFinish(c, v, p, backoff), p, e)
  }

  lemma CondemnedEndsBlocked(c: Config, w: World, p: Proc, e: ExecutionId, acts: seq<Action>, backoff: nat)
    requires Inv(c, w) && Condemned(w, p, e) && Others(acts, p)
    ensures EndsBlocked(c, w, p, e, acts, backoff)
  {
    OthersRun(c, w, acts, p);
    var v := Run(c, w, acts);
    FactsHold(c, v, p);
    FinishBlocks(c, v, p, e, backoff);
  }

  lemma ConflictCondemns(c: Config, w: World, p: Proc)
    requires w.At(p).stage.Deleting? && w.now <= w.At(p).dl
    requires var k := Key(w.At(p).id.scope, c.nameOf(w.At(p).e));
             k in w.jobs && (w.jobs[k].owner != w.At(p).e || w.jobs[k].uid != w.At(p).id.uid)
    ensures Condemned(StepInspectForDelete(c, w, p), p, w.At(p).e)
  {}

  /**
   A workload under the right name that is not the persisted instance: from any reachable world where
   p sees it, and after anything that others do meanwhile, p ends in blocked or has lost its lease.
   */
  lemma ConflictEndsBlocked(c: Config, w: World, p: Proc, acts: seq<Action>, backoff: nat)
    requires Reachable(c, w) && w.At(p).stage.Deleting? && w.now <= w.At(p).dl
    requires var k := Key(w.At(p).id.scope, c.nameOf(w.At(p).e));
             k in w.jobs && (w.jobs[k].owner != w.At(p).e || w.jobs[k].uid != w.At(p).id.uid)
    requires Others(acts, p)
    ensures EndsBlocked(c, StepInspectForDelete(c, w, p), p, w.At(p).e, acts, backoff)
  {
    ReachableInv(c, w);
    InspectForDeleteKeeps(c, w, p);
    ConflictCondemns(c, w, p);
    CondemnedEndsBlocked(c, StepInspectForDelete(c, w, p), p, w.At(p).e, acts, backoff);
  }

  lemma UnprovenCondemns(c: Config, w: World, p: Proc, ns: Scope)
    requires w.At(p).stage.Lookup? && w.now <= w.At(p).dl
    requires c.backend.Kubernetes? && ns in c.namespaces && w.At(p).snap.scope.None? && Key(ns, c.nameOf(w.At(p).e)) !in w.jobs
    ensures Condemned(StepResolvePrepared(c, w, p, ns), p, w.At(p).e)
  {}

  /** The same for a Kubernetes 404 in a namespace that was never persisted. */
  lemma UnprovenAbsenceEndsBlocked(c: Config, w: World, p: Proc, ns: Scope, acts: seq<Action>, backoff: nat)
    requires Reachable(c, w) && w.At(p).stage.Lookup? && w.now <= w.At(p).dl
    requires c.backend.Kubernetes? && ns in c.namespaces && w.At(p).snap.scope.None? && Key(ns, c.nameOf(w.At(p).e)) !in w.jobs
    requires Others(acts, p)
    ensures EndsBlocked(c, StepResolvePrepared(c, w, p, ns), p, w.At(p).e, acts, backoff)
  {
    ReachableInv(c, w);
    ResolvePreparedKeeps(c, w, p, ns);
    UnprovenCondemns(c, w, p, ns);
    CondemnedEndsBlocked(c, StepResolvePrepared(c, w, p, ns), p, w.At(p).e, acts, backoff);
  }
}

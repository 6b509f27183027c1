/** Who may change the record of an execution, and what each step of a process depends on, in any state. */
module RuntimeWrites {
  import opened Prelude
  import opened RuntimeProtocol

  /** The action changes the record of e. */
  ghost predicate Writes(w: World, w': World, e: ExecutionId) { e in w.recs && e in w'.recs && w'.recs[e] != w.recs[e] }

  /** Some identity member of e changes. */
  ghost predicate Identifies(w: World, w': World, e: ExecutionId) {
    && e in w.recs && e in w'.recs
    && (w'.recs[e].scope != w.recs[e].scope || w'.recs[e].workload != w.recs[e].workload || w'.recs[e].instance != w.recs[e].instance)
  }

  /** A dispatch claim may be taken: nobody ever had it, or its holder is out of time. */
  ghost predicate Unclaimed(c: Config, w: World, r: Record) {
    r.status.Created? || (r.status.Dispatching? && r.dispatchClaimedAt + c.dispatchLease <= w.now)
  }

  /** A cleanup lease may be taken: the cleanup is pending and due, and the lease is free or out of time. */
  ghost predicate Due(w: World, r: Record, lease: nat) {
    && r.cleanup.Pending? && (r.cleanupNextAt.Some? ==> r.cleanupNextAt.value <= w.now)
    && (r.cleanupToken.Some? ==> r.cleanupAt + lease <= w.now)
  }

  /** What the process read of it allows cleanup: not ended, and the retention of a diagnostic workload is over. */
  ghost predicate Overdue(c: Config, w: World, r: Record) {
    && !r.cleanup.Done? && !r.cleanup.Blocked?
    && (r.status.Failed? || r.status.TimedOut? ==>
          c.retention <= 0 || r.completedAt.None? || r.completedAt.value + c.retention <= w.now)
  }

  /** Every write of a dispatcher is under its own token, except the claim itself, which needs a free or stale one. */
  lemma DispatchWrites(c: Config, w: World, p: Proc, a: DispatchAction, e: ExecutionId)
    requires Writes(w, DispatchStep(c, w, p, a), e)
    ensures if a.ClaimDispatch? then a.e == e && w.At(p).stage.Idle? && Unclaimed(c, w, w.recs[e])
            else w.At(p).e == e && w.recs[e].dispatchToken == Some(w.At(p).tok)
  {
  }

  /** Every write of a cleaner is under its own lease token, except the claim itself, which needs a due cleanup. */
  lemma CleanupWrites(c: Config, w: World, p: Proc, a: CleanupAction, e: ExecutionId)
    requires Writes(w, CleanupStep(c, w, p, a), e)
    ensures w.At(p).e == e && w.recs[e].cleanup.Pending?
    ensures if a.ClaimCleanup? then w.At(p).stage.Candidate? && Due(w, w.recs[e], a.lease) && Overdue(c, w, w.At(p).snap)
            else w.recs[e].cleanupToken == Some(w.At(p).tok)
  {
  }

  /** An activation writes only the failure of an execution that has not ended. */
  lemma ActivationWrites(c: Config, w: World, p: Proc, a: ActivationAction, e: ExecutionId)
    requires Writes(w, ActivationStep(c, w, p, a), e)
    ensures a == CheckActivated(true, true) && w.At(p).e == e && !w.recs[e].status.Terminal()
    ensures ActivationStep(c, w, p, a).recs[e].status.Failed?
  {
  }

  /** Otherwise a record changes when its execution ends or reports in, or when a reviewed cleanup is reopened. */
  lemma EnvironmentWrites(c: Config, w: World, a: EnvironmentAction, e: ExecutionId)
    requires Writes(w, EnvironmentStep(c, w, a), e)
    ensures match a
      case Terminalize(x, to) => x == e && !w.recs[e].status.Terminal() && to.Terminal()
      case BootstrapStarts(x) => x == e && w.recs[e].status.Starting?
      case Reopen(x, scope, workload, instance) =>
        && x == e && w.recs[e].cleanup.Blocked? && w.recs[e].status.Terminal()
        && w.recs[e].scope == scope && w.recs[e].workload == workload && w.recs[e].instance == instance
      case _ => false
  {
  }

  /** Each member is unset or already the one of id. */
  ghost predicate Extends(r: Record, id: Identity) {
    && (r.scope.Some? ==> r.scope.value == id.scope) && (r.workload.Some? ==> r.workload.value == id.workload)
    && (r.instance.Some? ==> r.instance.value == id.uid)
  }

  /** What an identity write puts there. */
  ghost predicate Becomes(r: Record, r': Record, id: Identity) {
    Extends(r, id) && r'.scope == Some(id.scope) && r'.workload == Some(id.workload) && r'.instance == Some(id.uid)
  }

  /** A dispatcher persists an identity only on completion, by its token, while the execution is in dispatch. */
  lemma DispatchIdentifies(c: Config, w: World, p: Proc, a: DispatchAction, e: ExecutionId)
    requires Identifies(w, DispatchStep(c, w, p, a), e)
    ensures a.CompleteDispatch? && w.At(p).stage.Prepared? && w.At(p).e == e
    ensures w.recs[e].status.Dispatching? && w.recs[e].dispatchToken == Some(w.At(p).tok)
    ensures Becomes(w.recs[e], DispatchStep(c, w, p, a).recs[e], w.At(p).id)
  {
  }

  /** A cleaner does only when it binds what it found, under its lease. */
  lemma CleanupIdentifies(c: Config, w: World, p: Proc, a: CleanupAction, e: ExecutionId)
    requires Identifies(w, CleanupStep(c, w, p, a), e)
    ensures a.BindIdentity? && w.At(p).stage.Binding? && w.At(p).e == e
    ensures w.recs[e].cleanup.Pending? && w.recs[e].cleanupToken == Some(w.At(p).tok)
    ensures Becomes(w.recs[e], CleanupStep(c, w, p, a).recs[e], w.At(p).id)
  {
  }

  /** Completing succeeds exactly for the token holder whose identity extends the record; otherwise it tells why not. */
  lemma CompleteDecides(c: Config, w: World, p: Proc)
    requires w.At(p).stage.Prepared? && w.At(p).e in w.recs
    ensures var pc, r := w.At(p), w.recs[w.At(p).e];
      var w' := Step(c, w, Dispatch(p, CompleteDispatch(true, true)));
      var held := r.status.Dispatching? && r.dispatchToken == Some(pc.tok);
      && (w'.At(p).stage.Completed? <==> held && Extends(r, pc.id))
      && (w'.At(p).stage.Completed? ==> w'.recs[pc.e].status.Starting? && Becomes(r, w'.recs[pc.e], pc.id) && w'.recs[pc.e].dispatchToken.None?)
      && (held && !Extends(r, pc.id) ==> w'.recs[pc.e].status.Failed? && w'.At(p).stage.Compensating?)
      && (!held ==> w'.recs == w.recs)
      && (!held ==> (w'.At(p).stage.Compensating? <==>
            r.status.Terminal() || (r.Complete() && (r.scope != Some(pc.id.scope) || r.workload != Some(pc.id.workload) || r.instance != Some(pc.id.uid)))))
  {
  }

  /** Binding succeeds exactly under the lease, for an identity that extends the record; a conflict is permanent. */
  lemma BindDecides(c: Config, w: World, p: Proc)
    requires w.At(p).stage.Binding? && w.At(p).e in w.recs && w.now <= w.At(p).dl
    ensures var pc, r := w.At(p), w.recs[w.At(p).e];
      var w' := Step(c, w, Clean(p, BindIdentity));
      var held := r.cleanup.Pending? && r.cleanupToken == Some(pc.tok);
      && (w'.At(p).stage.Bound? <==> held && Extends(r, pc.id))
      && (w'.At(p).stage.Bound? ==> Becomes(r, w'.recs[pc.e], pc.id))
      && (!w'.At(p).stage.Bound? ==> w'.recs == w.recs && w'.At(p).stage.Finishing?)
      && (!w'.At(p).stage.Bound? ==> (w'.At(p).outcome.Permanent? <==> held) && (w'.At(p).outcome.Transient? <==> !held))
  {
  }

  /** A claim is refreshed exactly by its holder in time; otherwise the attempt is given up. */
  lemma RefreshDecides(c: Config, w: World, p: Proc)
    requires w.At(p).stage.Timed? && w.At(p).e in w.recs
    ensures var pc, w' := w.At(p), Step(c, w, Dispatch(p, RefreshClaim));
      if w.recs[pc.e].dispatchToken == Some(pc.tok) && w.now <= pc.dl
      then w'.At(p).stage.Refreshed? && w'.recs[pc.e] == w.recs[pc.e].(dispatchClaimedAt := w.now)
      else w'.At(p).stage.Idle? && w'.recs == w.recs
  {
  }

  /** Preparation starts exactly for a claim still held in time, in the frozen scope and under the frozen name, if any. */
  lemma LoadDecides(c: Config, w: World, p: Proc, ns: Scope)
    requires w.At(p).stage.Refreshed? && w.At(p).e in w.recs && (c.backend.Docker? || ns in c.namespaces)
    ensures var pc, r, w' := w.At(p), w.recs[w.At(p).e], Step(c, w, Dispatch(p, LoadClaimed(ns)));
      var scope := if c.backend.Docker? then 0 else ns;
      var held := w.now <= pc.dl && r.status.Dispatching? && r.dispatchToken == Some(pc.tok);
      var agrees := (r.scope.None? || r.scope.value == scope) && (r.workload.None? || r.workload.value == c.nameOf(pc.e));
      && w'.recs == w.recs && w'.jobs == w.jobs
      && (w'.At(p).stage.Preparing? <==> held && agrees) && (w'.At(p).stage.Failing? <==> held && !agrees)
      && (w'.At(p).stage.Idle? <==> !held)
      && (w'.At(p).stage.Preparing? ==> w'.At(p).ns == scope && w'.At(p).snap == r && !w'.At(p).conflicted)
  {
  }

  /** Once its context has ended, a preparation can only fail. */
  lemma LatePreparationFails(c: Config, w: World, p: Proc, a: DispatchAction)
    requires (w.At(p).stage.Preparing? || w.At(p).stage.Creating?) && w.now > w.At(p).dl
    ensures var w' := Step(c, w, Dispatch(p, a)); w' == if a.PrepareFails? then w.Go(p, w.At(p).(stage := Failing)) else w
  {
  }

  /** A create under a free name is the workload of e; a conflict sends the process back to look once more. */
  lemma CreateDecides(c: Config, w: World, p: Proc)
    requires w.At(p).stage.Creating? && w.now <= w.At(p).dl
    ensures var pc, k, w' := w.At(p), Key(w.At(p).ns, c.nameOf(w.At(p).e)), Step(c, w, Dispatch(p, CreateWorkload));
      if k in w.jobs then w'.jobs == w.jobs && w'.At(p).stage.Preparing? && w'.At(p).conflicted
      else w'.jobs == w.jobs[k := Job(w.nextUid, pc.e, Suspended)] && w'.At(p).stage.Prepared? && w'.At(p).id == Identity(k.scope, k.name, w.nextUid)
  {
  }

  /** The authority to activate is exactly a record read back as starting with the identity just persisted. */
  lemma ReloadDecides(c: Config, w: World, p: Proc, readable: bool)
    requires w.At(p).stage.Completed? && w.At(p).e in w.recs
    ensures var pc, r, w' := w.At(p), w.recs[w.At(p).e], Step(c, w, Activate(p, ReloadPrepared(readable)));
      var authority := readable && r.status.Starting? && r.scope == Some(pc.id.scope) && r.workload == Some(pc.id.workload) && r.instance == Some(pc.id.uid);
      w'.recs == w.recs && if authority then w'.At(p).stage.Activating? && w'.At(p).snap == r else w'.At(p).stage.Compensating?
  {
  }

  /** A workload is started exactly if it is the persisted instance, owned by the execution, and still suspended. */
  lemma ActivationDecides(c: Config, w: World, p: Proc)
    requires w.At(p).stage.Activating?
    ensures var pc, w' := w.At(p), Step(c, w, Activate(p, InspectForActivate));
      w'.At(p).stage.StartingUp? <==>
        && pc.snap.Complete() && pc.snap.workload.value == c.nameOf(pc.e)
        && var k := Key(pc.snap.scope.value, pc.snap.workload.value);
           k in w.jobs && w.jobs[k] == Job(pc.snap.instance.value, pc.e, Suspended)
  {
  }

  ghost function PhaseRank(phase: Phase): nat {
    match phase case Suspended => 0 case Active => 1 case Finished => 2
  }

  /** The same instance is there before and after, of the same owner, and its phase has not gone back. */
  ghost predicate Forward(w: World, w': World, k: Key) {
    k in w.jobs && k in w'.jobs && w'.jobs[k].uid == w.jobs[k].uid ==>
      PhaseRank(w.jobs[k].phase) <= PhaseRank(w'.jobs[k].phase) && w'.jobs[k].owner == w.jobs[k].owner
  }

  lemma EnvironmentForward(c: Config, w: World, a: EnvironmentAction, k: Key)
    ensures Forward(w, EnvironmentStep(c, w, a), k)
  {
  }

  lemma DispatchForward(c: Config, w: World, p: Proc, a: DispatchAction, k: Key)
    ensures Forward(w, DispatchStep(c, w, p, a), k)
  {
  }

  lemma ActivationForward(c: Config, w: World, p: Proc, a: ActivationAction, k: Key)
    ensures Forward(w, ActivationStep(c, w, p, a), k)
  {
  }

  lemma CleanupForward(c: Config, w: World, p: Proc, a: CleanupAction, k: Key)
    ensures Forward(w, CleanupStep(c, w, p, a), k)
  {
  }

  /** A workload is started at most once: as long as it is the same instance, its phase only moves forward. */
  lemma PhaseForward(c: Config, w: World, a: Action, k: Key)
    ensures Forward(w, Step(c, w, a), k)
  {
    match a
    case Environment(env) => EnvironmentForward(c, w, env, k);
    case Dispatch(p, d) => DispatchForward(c, w, p, d, k);
    case Activate(p, v) => ActivationForward(c, w, p, v, k);
    case Clean(p, x) => CleanupForward(c, w, p, x, k);
  }

  /** Once its context has ended, a cleaner can only time out; a removal already sent may still take effect. */
  lemma LateCleanupTimesOut(c: Config, w: World, p: Proc, a: CleanupAction)
    requires w.At(p).stage in {CleanTimed, Barrier, Lookup, Binding, Bound, Deleting} && w.now > w.At(p).dl
    ensures var w' := Step(c, w, Clean(p, a));
      w' == if a.DeleteTimesOut? then w.Go(p, w.At(p).(stage := Finishing, outcome := Transient)) else w
  {
  }

  /** What the lookup of an unpersisted workload concludes, from the record as the process read it. */
  ghost predicate Looked(c: Config, w: World, pc: Pc, pc': Pc, ns: Scope) {
    var proven := c.backend.Docker? || pc.snap.scope.Some?;
    var k := Key(if c.backend.Docker? then 0 else if pc.snap.scope.Some? then pc.snap.scope.value else ns, c.nameOf(pc.e));
    var named := pc.snap.workload.None? || pc.snap.workload.value == k.name;
    var own := k in w.jobs && w.jobs[k].owner == pc.e && (pc.snap.instance.None? || pc.snap.instance.value == w.jobs[k].uid);
    if named && own then pc'.stage.Binding? && pc'.id == Identity(k.scope, k.name, w.jobs[k].uid)
    else pc'.stage.Finishing? && pc'.outcome == if named && k !in w.jobs && proven then Removed else Permanent
  }

  lemma LookupStep(c: Config, w: World, p: Proc, ns: Scope)
    requires w.At(p).stage.Lookup? && w.now <= w.At(p).dl && (c.backend.Docker? || ns in c.namespaces)
    ensures Looked(c, w, w.At(p), StepResolvePrepared(c, w, p, ns).At(p), ns)
  {
  }

  lemma LookupDecides(c: Config, w: World, p: Proc, ns: Scope)
    requires w.At(p).stage.Lookup? && w.now <= w.At(p).dl && (c.backend.Docker? || ns in c.namespaces)
    ensures Looked(c, w, w.At(p), Step(c, w, Clean(p, ResolvePrepared(ns))).At(p), ns)
  {
    LookupStep(c, w, p, ns);
  }

  /** What the inspection before a removal concludes. */
  lemma RemovalDecides(c: Config, w: World, p: Proc)
    requires w.At(p).stage.Deleting? && w.now <= w.At(p).dl
    ensures var pc, pc' := w.At(p), Step(c, w, Clean(p, InspectForDelete)).At(p);
      var k := Key(pc.id.scope, c.nameOf(pc.e));
      var own := k in w.jobs && w.jobs[k].owner == pc.e && w.jobs[k].uid == pc.id.uid;
      && (pc'.stage.Removing? <==> pc.id.workload == k.name && own) && (pc'.stage.Finishing? <==> !pc'.stage.Removing?)
      && (pc'.stage.Finishing? ==> pc'.outcome == if pc.id.workload == k.name && k !in w.jobs then Removed else Permanent)
  {
  }

  /** A bound identity is deleted exactly if it is read back under the lease; another one there is a conflict. */
  lemma BoundDecides(c: Config, w: World, p: Proc)
    requires w.At(p).stage.Bound? && w.At(p).e in w.recs && w.now <= w.At(p).dl
    ensures var pc, r, pc' := w.At(p), w.recs[w.At(p).e], Step(c, w, Clean(p, ReloadBound)).At(p);
      var held := r.cleanup.Pending? && r.cleanupToken == Some(pc.tok);
      var same := r.scope == Some(pc.id.scope) && r.workload == Some(pc.id.workload) && r.instance == Some(pc.id.uid);
      && (pc'.stage.Deleting? <==> held && same) && (pc'.stage.Finishing? <==> !(held && same))
      && (pc'.stage.Finishing? ==> pc'.outcome == if held then Permanent else Transient)
  {
  }

  // ----- what a process takes up -----

  /** The reconciler activates exactly starting executions. */
  lemma ActivationTakes(c: Config, w: World, p: Proc, e: ExecutionId)
    requires w.At(p).stage.Idle?
    ensures var w' := Step(c, w, Activate(p, LoadForActivation(e)));
      if e in w.recs && w.recs[e].status.Starting? then w'.At(p).stage.Activating? && w'.At(p).e == e && w'.At(p).snap == w.recs[e]
      else w' == w
  {
  }

  /** Cleanup takes up ended executions and, without a retention, any that is about to fail. */
  lemma CleanupTakes(c: Config, w: World, p: Proc, e: ExecutionId)
    requires w.At(p).stage.Idle?
    ensures var w' := Step(c, w, Clean(p, LoadCandidate(e)));
      if e in w.recs && (c.retention > 0 ==> w.recs[e].status.Terminal())
      then w'.At(p).stage.Candidate? && w'.At(p).e == e && w'.At(p).snap == w.recs[e] else w' == w
  {
  }

  /** Between its claim and its report a cleaner can always run out of time, which is not permanent. */
  lemma CleanerTimesOut(c: Config, w: World, p: Proc)
    requires w.At(p).stage in {CleanTimed, Barrier, Lookup, Binding, Bound, Deleting, Removing}
    ensures var w' := Step(c, w, Clean(p, DeleteTimesOut));
      w' == w.Go(p, w'.At(p)) && w'.At(p).stage.Finishing? && w'.At(p).outcome.Transient?
  {
  }
}

/** Stretches of runs that one process makes alone; the example runs are put together from them. */
module RuntimeFlows {
  import opened Prelude
  import opened RuntimeProtocol
  import opened RuntimeTheorems

  /** No time passes, and no other process moves. */
  ghost predicate Alone(w: World, w': World, p: Proc) {
    && w'.now == w.now && w'.recs.Keys == w.recs.Keys
    && forall q :: q != p ==> w'.At(q) == w.At(q)
  }

  /** The identity members p would persist are still unset. */
  predicate Unbound(r: Record) { r.scope.None? && r.workload.None? && r.instance.None? }

  /** No cleanup yet. */
  predicate Unclean(r: Record) { r.cleanup.NotNeeded? && r.cleanupToken.None? && r.cleanupNextAt.None? }

  predicate Claimable(c: Config, w: World, r: Record) {
    r.status.Created? || (r.status.Dispatching? && DispatchStale(c, w, r))
  }

  // ----- dispatch -----

  lemma Claims(c: Config, w: World, p: Proc, e: ExecutionId) returns (w': World)
    requires Reachable(c, w) && w.At(p).stage.Idle? && e in w.recs && Claimable(c, w, w.recs[e])
    requires Unbound(w.recs[e]) && Unclean(w.recs[e]) && c.dispatchLease >= 2
    ensures Reachable(c, w') && Alone(w, w', p) && w'.jobs == w.jobs && w'.sent == w.sent && w'.nextUid == w.nextUid
    ensures var pc := w'.At(p); pc.stage.Timed? && pc.e == e && pc.tok == w.nextToken && pc.dl == w.now + c.dispatchLease / 2
    ensures var r := w'.recs[e]; r.status.Dispatching? && r.dispatchToken == Some(w.nextToken) && Unbound(r) && Unclean(r)
    ensures w'.nextToken == w.nextToken + 1
  {
    var w1 := StepClaimDispatch(c, w, p, e);
    ReachableStep(c, w, Dispatch(p, ClaimDispatch(e)));
    assert w1.At(p).stage.Claimed?;
    w' := StepStartPrepare(c, w1, p);
    ReachableStep(c, w1, Dispatch(p, StartPrepare));
  }

  lemma Loads(c: Config, w: World, p: Proc, e: ExecutionId, ns: Scope) returns (w': World)
    requires Reachable(c, w) && w.At(p).stage.Timed? && w.At(p).e == e && w.now <= w.At(p).dl && e in w.recs && Configured(c, ns)
    requires w.recs[e].status.Dispatching? && w.recs[e].dispatchToken == Some(w.At(p).tok)
    requires Unbound(w.recs[e]) && Unclean(w.recs[e])
    ensures Reachable(c, w') && Alone(w, w', p) && w'.jobs == w.jobs && w'.sent == w.sent && w'.nextUid == w.nextUid
    ensures var pc := w'.At(p); pc.stage.Preparing? && pc.e == e && pc.tok == w.At(p).tok && pc.dl == w.At(p).dl
    ensures var pc := w'.At(p); pc.ns == ScopeOf(c, ns) && !pc.conflicted && pc.snap == w'.recs[e]
    ensures var r := w'.recs[e]; r.status.Dispatching? && r.dispatchToken == Some(w.At(p).tok) && Unbound(r) && Unclean(r)
    ensures w'.recs[e].dispatchClaimedAt == w.now && w'.nextToken == w.nextToken
  {
    var w1 := StepRefresh(c, w, p);
    ReachableStep(c, w, Dispatch(p, RefreshClaim));
    assert w1.At(p).stage.Refreshed?;
    w' := StepLoadClaimed(c, w1, p, ns);
    ReachableStep(c, w1, Dispatch(p, LoadClaimed(ns)));
  }

  /** p claims e and gets ready to create its workload under a free name. */
  lemma Readies(c: Config, w: World, p: Proc, e: ExecutionId, ns: Scope) returns (w': World)
    requires Reachable(c, w) && w.At(p).stage.Idle? && e in w.recs && Claimable(c, w, w.recs[e]) && Configured(c, ns)
    requires Unbound(w.recs[e]) && Unclean(w.recs[e]) && c.dispatchLease >= 2
    requires Key(ScopeOf(c, ns), c.nameOf(e)) !in w.jobs
    ensures Reachable(c, w') && Alone(w, w', p) && w'.jobs == w.jobs && w'.sent == w.sent && w'.nextUid == w.nextUid
    ensures var pc := w'.At(p); pc.stage.Creating? && pc.e == e && pc.tok == w.nextToken && pc.dl == w.now + c.dispatchLease / 2
    ensures w'.At(p).ns == ScopeOf(c, ns)
    ensures var r := w'.recs[e]; r.status.Dispatching? && r.dispatchToken == Some(w.nextToken) && Unbound(r) && Unclean(r)
    ensures w'.recs[e].dispatchClaimedAt == w.now && w'.nextToken == w.nextToken + 1
  {
    var w1 := Claims(c, w, p, e);
    var w2 := Loads(c, w1, p, e, ns);
    w' := StepInspectForPrepare(c, w2, p, true);
    ReachableStep(c, w2, Dispatch(p, InspectForPrepare(true)));
  }

  /** The workload that p has created and, once completed, persisted. */
  predicate Made(c: Config, w: World, p: Proc, e: ExecutionId, id: Identity) {
    && w.At(p).e == e && w.At(p).id == id && id.workload == c.nameOf(e)
    && Key(id.scope, id.workload) in w.jobs && w.jobs[Key(id.scope, id.workload)] == Job(id.uid, e, Suspended)
  }

  lemma Creates(c: Config, w: World, p: Proc) returns (w': World)
    requires Reachable(c, w) && w.At(p).stage.Creating? && w.now <= w.At(p).dl && w.At(p).e in w.recs
    requires Key(w.At(p).ns, c.nameOf(w.At(p).e)) !in w.jobs
    ensures Reachable(c, w') && Alone(w, w', p) && w'.recs == w.recs && w'.sent == w.sent
    ensures w'.At(p).stage.Prepared? && w'.At(p).tok == w.At(p).tok
    ensures var e := w.At(p).e; Made(c, w', p, e, Identity(w.At(p).ns, c.nameOf(e), w.nextUid))
    ensures w'.jobs == w.jobs[Key(w.At(p).ns, c.nameOf(w.At(p).e)) := Job(w.nextUid, w.At(p).e, Suspended)]
    ensures w'.nextUid == w.nextUid + 1
  {
    w' := StepCreate(c, w, p);
    ReachableStep(c, w, Dispatch(p, CreateWorkload));
  }

  /** p persists what it prepared; `acknowledged` or not, the write commits. */
  lemma Persists(c: Config, w: World, p: Proc, e: ExecutionId, id: Identity, acknowledged: bool) returns (w': World)
    requires Reachable(c, w) && w.At(p).stage.Prepared? && Made(c, w, p, e, id) && e in w.recs
    requires w.recs[e].status.Dispatching? && w.recs[e].dispatchToken == Some(w.At(p).tok) && Unbound(w.recs[e]) && Unclean(w.recs[e])
    ensures Reachable(c, w') && Alone(w, w', p) && w'.jobs == w.jobs && w'.sent == w.sent
    ensures Made(c, w', p, e, id) && w'.recs[e].status.Starting? && w'.recs[e].Holds(id) && Unclean(w'.recs[e])
    ensures if acknowledged then w'.At(p).stage.Completed? else w'.At(p).stage.Compensating? && w'.At(p).cause.Unacknowledged?
  {
    w' := StepComplete(c, w, p, true, acknowledged);
    ReachableStep(c, w, Dispatch(p, CompleteDispatch(true, acknowledged)));
  }

  /** All of the above: p dispatches e. */
  lemma Dispatches(c: Config, w: World, p: Proc, e: ExecutionId, ns: Scope, acknowledged: bool) returns (w': World, id: Identity)
    requires Reachable(c, w) && w.At(p).stage.Idle? && e in w.recs && Claimable(c, w, w.recs[e]) && Configured(c, ns)
    requires Unbound(w.recs[e]) && Unclean(w.recs[e]) && c.dispatchLease >= 2
    requires Key(ScopeOf(c, ns), c.nameOf(e)) !in w.jobs
    ensures Reachable(c, w') && Alone(w, w', p) && w'.sent == w.sent
    ensures id == Identity(ScopeOf(c, ns), c.nameOf(e), w.nextUid)
    ensures w'.jobs == w.jobs[Key(id.scope, id.workload) := Job(id.uid, e, Suspended)]
    ensures Made(c, w', p, e, id) && w'.recs[e].status.Starting? && w'.recs[e].Holds(id) && Unclean(w'.recs[e])
    ensures if acknowledged then w'.At(p).stage.Completed? else w'.At(p).stage.Compensating? && w'.At(p).cause.Unacknowledged?
  {
    var w1 := Readies(c, w, p, e, ns);
    var w2 := Creates(c, w1, p);
    id := Identity(ScopeOf(c, ns), c.nameOf(e), w.nextUid);
    w' := Persists(c, w2, p, e, id, acknowledged);
  }

  // ----- activation -----

  /** Another process q activates the persisted workload of e, and its agent reports in. */
  lemma Starts(c: Config, w: World, q: Proc, e: ExecutionId, id: Identity) returns (w': World)
    requires Reachable(c, w) && w.At(q).stage.Idle? && e in w.recs && w.recs[e].status.Starting? && w.recs[e].Holds(id)
    requires id.workload == c.nameOf(e) && Key(id.scope, id.workload) in w.jobs
    requires w.jobs[Key(id.scope, id.workload)] == Job(id.uid, e, Suspended)
    ensures Reachable(c, w') && Alone(w, w', q) && w'.sent == w.sent
    ensures w'.jobs == w.jobs[Key(id.scope, id.workload) := Job(id.uid, e, Active)]
    ensures w'.recs == w.recs[e := w.recs[e].(status := Running)]
  {
    var w1 := StepLoadForActivation(w, q, e);
    ReachableStep(c, w, Activate(q, LoadForActivation(e)));
    assert w1.At(q).stage.Activating? && w1.At(q).snap == w.recs[e] && w1.At(q).e == e;
    var w2 := StepInspectForActivate(c, w1, q);
    ReachableStep(c, w1, Activate(q, InspectForActivate));
    assert w2.At(q).stage.StartingUp? && w2.At(q).id == id && w2.At(q).snap == w.recs[e];
    w' := Runs(c, w2, q, e, id);
  }

  lemma Runs(c: Config, w: World, q: Proc, e: ExecutionId, id: Identity) returns (w': World)
    requires Reachable(c, w) && w.At(q).stage.StartingUp? && w.At(q).e == e && w.At(q).id == id && w.At(q).snap.Holds(id)
    requires e in w.recs && w.recs[e].status.Starting?
    requires Key(id.scope, id.workload) in w.jobs && w.jobs[Key(id.scope, id.workload)] == Job(id.uid, e, Suspended)
    ensures Reachable(c, w') && Alone(w, w', q) && w'.sent == w.sent
    ensures w'.At(q) == w.At(q).(stage := Activated)
    ensures w'.jobs == w.jobs[Key(id.scope, id.workload) := Job(id.uid, e, Active)]
    ensures w'.recs == w.recs[e := w.recs[e].(status := Running)]
  {
    var w1 := StepStart(c, w, q);
    ReachableStep(c, w, Activate(q, StartWorkload));
    assert w1.At(q) == w.At(q).(stage := Activated);
    w' := StepBootstrap(w1, e);
    ReachableStep(c, w1, Environment(BootstrapStarts(e)));
  }

  // ----- cleanup -----

  /** e ends well, and p cleans up its persisted workload. */
  lemma Claimed(c: Config, w: World, p: Proc, e: ExecutionId, id: Identity) returns (w': World)
    requires Reachable(c, w) && w.At(p).stage.Idle? && e in w.recs && !w.recs[e].status.Terminal() && w.recs[e].Holds(id) && Unclean(w.recs[e])
    ensures Reachable(c, w') && Alone(w, w', p) && w'.jobs == w.jobs && w'.sent == w.sent
    ensures w'.At(p).stage.CleanClaimed? && w'.At(p).e == e && w'.At(p).lease == 10
    ensures w'.recs[e].status.Succeeded? && w'.recs[e].Holds(id) && HoldsCleanup(w'.recs[e], w'.At(p).tok)
  {
    var w1 := Terminates(c, w, e, Succeeded);
    assert w1.At(p) == w.At(p);
    w' := Leases(c, w1, p, e);
  }

  lemma Leases(c: Config, w: World, p: Proc, e: ExecutionId) returns (w': World)
    requires Reachable(c, w) && w.At(p).stage.Idle? && e in w.recs && w.recs[e].status.Succeeded?
    requires w.recs[e].cleanup.Pending? && w.recs[e].cleanupToken.None? && w.recs[e].cleanupNextAt.None?
    ensures Reachable(c, w') && Alone(w, w', p) && w'.jobs == w.jobs && w'.sent == w.sent
    ensures w'.At(p).stage.CleanClaimed? && w'.At(p).e == e && w'.At(p).lease == 10
    ensures w'.recs[e] == w.recs[e].(cleanupToken := Some(w'.At(p).tok), cleanupAt := w.now)
  {
    var w1 := StepLoadCandidate(c, w, p, e);
    ReachableStep(c, w, Clean(p, LoadCandidate(e)));
    assert w1.At(p) == IDLE.(stage := Candidate, e := e, snap := w.recs[e]);
    w' := StepClaimCleanup(c, w1, p, 10);
    ReachableStep(c, w1, Clean(p, ClaimCleanup(10)));
  }

  lemma Terminates(c: Config, w: World, e: ExecutionId, to: Status) returns (w': World)
    requires Reachable(c, w) && e in w.recs && !w.recs[e].status.Terminal() && to.Terminal()
    ensures Reachable(c, w') && w' == w.Put(e, Terminate(w, w.recs[e], to))
  {
    w' := StepTerminalize(w, e, to);
    ReachableStep(c, w, Environment(Terminalize(e, to)));
  }

  lemma Resolves(c: Config, w: World, p: Proc, e: ExecutionId, id: Identity) returns (w': World)
    requires Reachable(c, w) && w.At(p).stage.CleanClaimed? && w.At(p).e == e && w.At(p).lease == 10 && e in w.recs
    requires w.recs[e].Holds(id) && HoldsCleanup(w.recs[e], w.At(p).tok)
    ensures Reachable(c, w') && Alone(w, w', p) && w'.jobs == w.jobs && w'.sent == w.sent && w'.recs == w.recs
    ensures w'.At(p).stage.Deleting? && w'.At(p).e == e && w'.At(p).id == id && w'.At(p).dl == w.now + 5 && w'.At(p).tok == w.At(p).tok
  {
    var w1 := StepStartDelete(w, p);
    ReachableStep(c, w, Clean(p, StartDelete));
    assert w1.At(p) == w.At(p).(stage := CleanTimed, dl := w.now + 5);
    w' := StepResolveStored(c, w1, p);
    ReachableStep(c, w1, Clean(p, ResolveStored));
  }

  lemma Deletes(c: Config, w: World, p: Proc, e: ExecutionId, id: Identity) returns (w': World)
    requires Reachable(c, w) && w.At(p).stage.Deleting? && w.At(p).e == e && w.At(p).id == id && w.now <= w.At(p).dl && e in w.recs
    requires HoldsCleanup(w.recs[e], w.At(p).tok) && w.recs[e].Holds(id) && id.workload == c.nameOf(e)
    requires Key(id.scope, id.workload) in w.jobs && w.jobs[Key(id.scope, id.workload)].owner == e
    requires w.jobs[Key(id.scope, id.workload)].uid == id.uid
    ensures Reachable(c, w') && Alone(w, w', p) && w'.sent == w.sent
    ensures w'.jobs == w.jobs - {Key(id.scope, id.workload)}
    ensures w'.recs[e].cleanup.Done? && w'.recs[e].Holds(id) && w'.recs[e].status == w.recs[e].status
  {
    var w1 := StepInspectForDelete(c, w, p);
    ReachableStep(c, w, Clean(p, InspectForDelete));
    assert w1 == w.Go(p, w.At(p).(stage := Removing));
    w' := Finishes(c, w1, p, e);
  }

  lemma Finishes(c: Config, w: World, p: Proc, e: ExecutionId) returns (w': World)
    requires Reachable(c, w) && w.At(p).stage.Removing? && w.At(p).e == e && w.now <= w.At(p).dl && e in w.recs
    requires HoldsCleanup(w.recs[e], w.At(p).tok)
    requires var k := Key(w.At(p).id.scope, c.nameOf(e)); k in w.jobs && w.jobs[k].uid == w.At(p).id.uid
    ensures Reachable(c, w') && Alone(w, w', p) && w'.sent == w.sent
    ensures w'.jobs == w.jobs - {Key(w.At(p).id.scope, c.nameOf(e))}
    ensures w'.recs[e] == Concluded(w.now, w.recs[e], Removed, 0)
  {
    var w1 := StepRemove(c, w, p);
    ReachableStep(c, w, Clean(p, RemoveWorkload));
    assert w1.At(p) == w.At(p).(stage := Finishing, outcome := Removed);
    w' := StepFinish(c, w1, p, 0);
    ReachableStep(c, w1, Clean(p, FinishCleanup(0)));
  }

  lemma CleansUp(c: Config, w: World, p: Proc, e: ExecutionId, id: Identity) returns (w': World)
    requires Reachable(c, w) && w.At(p).stage.Idle? && e in w.recs && !w.recs[e].status.Terminal() && w.recs[e].Holds(id) && Unclean(w.recs[e])
    requires id.workload == c.nameOf(e) && Key(id.scope, id.workload) in w.jobs
    requires w.jobs[Key(id.scope, id.workload)].owner == e && w.jobs[Key(id.scope, id.workload)].uid == id.uid
    ensures Reachable(c, w') && Alone(w, w', p) && w'.sent == w.sent && w'.jobs == w.jobs - {Key(id.scope, id.workload)}
    ensures w'.recs[e].cleanup.Done? && w'.recs[e].Holds(id) && w'.recs[e].status.Succeeded?
  {
    var w1 := Claimed(c, w, p, e, id);
    var w2 := Resolves(c, w1, p, e, id);
    w' := Deletes(c, w2, p, e, id);
  }

  // ----- the environment -----

  /** An installation with one new execution. */
  lemma Begins(c: Config) returns (w: World)
    ensures Reachable(c, w) && w.now == 0 && w.jobs == map[] && w.sent == map[] && w.nextUid == 0 && w.nextToken == 0
    ensures 0 in w.recs && w.recs[0].status.Created? && Unbound(w.recs[0]) && Unclean(w.recs[0]) && forall p :: w.At(p) == IDLE
  {
    w := World(0, map[0 := IDLE.snap], map[], map[], 0, 0, map[]);
    assert Init(w) && w == Run(c, w, []);
  }

  lemma Waits(c: Config, w: World, dt: nat) returns (w': World)
    requires Reachable(c, w)
    ensures Reachable(c, w') && w' == w.(now := w.now + dt) && forall q :: w'.At(q) == w.At(q)
  {
    w' := StepTick(w, dt);
    ReachableStep(c, w, Environment(Tick(dt)));
  }
}

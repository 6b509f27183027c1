/** What the protocol can still achieve from every reachable state, and what decides it. */
module RuntimeProgress {
  import opened Prelude
  import opened RuntimeProtocol
  import opened RuntimeSafety
  import opened RuntimeTheorems
  import opened RuntimeFlows

  // ----- a workload that Prepare finds -----

  /** The identity is already frozen in what the process read. */
  ghost predicate Frozen(c: Config, pc: Pc) {
    match c.backend
    case Docker => pc.snap.instance.Some?
    case Kubernetes => pc.snap.scope == Some(pc.ns) && pc.snap.workload == Some(c.nameOf(pc.e))
  }

  /** It is the execution's own, as desired, not another instance than Docker knows, and not started too early. */
  ghost predicate Adoptable(c: Config, pc: Pc, j: Job, matches: bool) {
    && matches && j.owner == pc.e && (j.phase.Suspended? || Frozen(c, pc))
    && (c.backend.Docker? && pc.snap.instance.Some? ==> pc.snap.instance == Some(j.uid))
  }

  /** Prepare adopts exactly such a workload, under its own instance id, and fails on any other. */
  lemma InspectDecides(c: Config, w: World, p: Proc, matches: bool)
    requires var pc := w.At(p); pc.stage.Preparing? && w.now <= pc.dl && Key(pc.ns, c.nameOf(pc.e)) in w.jobs
    ensures var pc, k, w' := w.At(p), Key(w.At(p).ns, c.nameOf(w.At(p).e)), Step(c, w, Dispatch(p, InspectForPrepare(matches)));
      && w' == w.Go(p, w'.At(p))
      && (Adoptable(c, pc, w.jobs[k], matches) ==> w'.At(p) == pc.(stage := Prepared, id := Identity(k.scope, k.name, w.jobs[k].uid)))
      && (!Adoptable(c, pc, w.jobs[k], matches) ==> w'.At(p) == pc.(stage := Failing))
  {
  }

  /** Under a free name it goes on to create, unless it lost a race for it or Docker knows of an instance. */
  lemma MissingDecides(c: Config, w: World, p: Proc, matches: bool)
    requires var pc := w.At(p); pc.stage.Preparing? && w.now <= pc.dl && Key(pc.ns, c.nameOf(pc.e)) !in w.jobs
    ensures var pc, w' := w.At(p), Step(c, w, Dispatch(p, InspectForPrepare(matches)));
      && (w'.At(p).stage.Creating? <==> !pc.conflicted && (c.backend.Docker? ==> pc.snap.instance.None?))
      && (w'.At(p).stage.Creating? || w'.At(p).stage.Failing?)
  {
  }

  // ----- a process that has not done anything yet -----

  lemma {:induction false} Above(s: set<Proc>) returns (n: Proc)
    ensures forall x :: x in s ==> x < n
  {
    if s == {} {
      n := 0;
    } else {
      var y :| y in s;
      var m := Above(s - {y});
      n := if m <= y then y + 1 else m;
      assert forall x :: x in s ==> x == y || x in s - {y};
    }
  }

  lemma Newcomer(w: World) returns (p: Proc)
    ensures w.At(p) == IDLE
  {
    p := Above(w.procs.Keys);
    assert p !in w.procs.Keys;
  }

  /** Before the identity is persisted the record holds no part of it, and no cleanup. */
  lemma Pristine(c: Config, w: World, e: ExecutionId)
    requires Reachable(c, w) && e in w.recs && (w.recs[e].status.Created? || w.recs[e].status.Dispatching?)
    ensures Unbound(w.recs[e]) && Unclean(w.recs[e])
    ensures w.recs[e].status.Created? || (w.recs[e].dispatchToken.Some? && w.recs[e].dispatchClaimedAt <= w.now)
  {
    ReachableInv(c, w);
    assert RecordOk(c, w, e, w.recs[e]);
  }

  // ----- dispatch -----

  lemma Adopts(c: Config, w: World, p: Proc, e: ExecutionId) returns (w': World)
    requires Reachable(c, w) && w.At(p).stage.Preparing? && w.At(p).e == e && w.now <= w.At(p).dl
    requires Key(w.At(p).ns, c.nameOf(e)) in w.jobs && w.At(p).snap.instance.None?
    requires w.jobs[Key(w.At(p).ns, c.nameOf(e))].owner == e && w.jobs[Key(w.At(p).ns, c.nameOf(e))].phase.Suspended?
    ensures Reachable(c, w') && Alone(w, w', p) && w'.recs == w.recs && w'.jobs == w.jobs && w'.sent == w.sent
    ensures w'.At(p).stage.Prepared? && w'.At(p).tok == w.At(p).tok
    ensures Made(c, w', p, e, Identity(w.At(p).ns, c.nameOf(e), w.jobs[Key(w.At(p).ns, c.nameOf(e))].uid))
  {
    InspectDecides(c, w, p, true);
    w' := Step(c, w, Dispatch(p, InspectForPrepare(true)));
    ReachableStep(c, w, Dispatch(p, InspectForPrepare(true)));
  }

  /** Another execution's workload under the name: the attempt is fenced and recorded as failed. */
  lemma GivesUp(c: Config, w: World, p: Proc, e: ExecutionId) returns (w': World)
    requires Reachable(c, w) && w.At(p).stage.Preparing? && w.At(p).e == e && w.now <= w.At(p).dl && e in w.recs
    requires Key(w.At(p).ns, c.nameOf(e)) in w.jobs && w.jobs[Key(w.At(p).ns, c.nameOf(e))].owner != e
    requires w.recs[e].status.Dispatching? && w.recs[e].dispatchToken == Some(w.At(p).tok)
    ensures Reachable(c, w') && w'.jobs == w.jobs && e in w'.recs && w'.recs[e].status.Failed? && w'.recs[e].cleanup.Pending?
  {
    InspectDecides(c, w, p, true);
    var w1 := Step(c, w, Dispatch(p, InspectForPrepare(true)));
    ReachableStep(c, w, Dispatch(p, InspectForPrepare(true)));
    w' := Fails(c, w1, p, e);
  }

  lemma Fails(c: Config, w: World, p: Proc, e: ExecutionId) returns (w': World)
    requires Reachable(c, w) && w.At(p).stage.Failing? && w.At(p).e == e && e in w.recs
    requires w.recs[e].status.Dispatching? && w.recs[e].dispatchToken == Some(w.At(p).tok)
    ensures Reachable(c, w') && w'.jobs == w.jobs && e in w'.recs && w'.recs[e].status.Failed? && w'.recs[e].cleanup.Pending?
  {
    var w1 := StepRefreshBarrier(c, w, p);
    ReachableStep(c, w, Dispatch(p, RefreshBarrier));
    assert w1.At(p) == w.At(p).(stage := Fenced) && w1.recs[e] == w.recs[e].(dispatchClaimedAt := w.now);
    w' := StepFailDispatch(c, w1, p);
    ReachableStep(c, w1, Dispatch(p, FailDispatch));
  }

  /** How a new attempt on e in this namespace ends: it creates, adopts what is there, or fails on a stranger. */
  ghost predicate Redispatched(c: Config, w: World, w': World, e: ExecutionId, ns: Scope) {
    var k := Key(ScopeOf(c, ns), c.nameOf(e));
    && e in w'.recs
    && if k !in w.jobs then
         && w'.recs[e].status.Starting? && w'.recs[e].Holds(Identity(k.scope, k.name, w.nextUid))
         && w'.jobs == w.jobs[k := Job(w.nextUid, e, Suspended)]
       else if w.jobs[k].owner == e then
         && w'.recs[e].status.Starting? && w'.recs[e].Holds(Identity(k.scope, k.name, w.jobs[k].uid))
         && w'.jobs == w.jobs
       else w'.recs[e].status.Failed? && w'.jobs == w.jobs
  }

  lemma Prepares(c: Config, w: World, p: Proc, e: ExecutionId, ns: Scope) returns (w': World)
    requires Reachable(c, w) && w.At(p).stage.Preparing? && w.At(p).e == e && w.now <= w.At(p).dl && e in w.recs
    requires w.recs[e].status.Dispatching? && w.recs[e].dispatchToken == Some(w.At(p).tok) && Unbound(w.recs[e]) && Unclean(w.recs[e])
    requires w.At(p).ns == ScopeOf(c, ns) && !w.At(p).conflicted && w.At(p).snap == w.recs[e]
    ensures Reachable(c, w') && Redispatched(c, w, w', e, ns)
  {
    var k := Key(ScopeOf(c, ns), c.nameOf(e));
    if k !in w.jobs {
      MissingDecides(c, w, p, true);
      var w1 := Step(c, w, Dispatch(p, InspectForPrepare(true)));
      ReachableStep(c, w, Dispatch(p, InspectForPrepare(true)));
      var w2 := Creates(c, w1, p);
      w' := Persists(c, w2, p, e, Identity(k.scope, k.name, w.nextUid), true);
    } else if w.jobs[k].owner == e {
      ReachableInv(c, w);
      assert JobOk(c, w, k, w.jobs[k]);
      var w1 := Adopts(c, w, p, e);
      w' := Persists(c, w1, p, e, Identity(k.scope, k.name, w.jobs[k].uid), true);
    } else {
      w' := GivesUp(c, w, p, e);
    }
  }

  /**
   From every reachable state, whatever other processes are doing, a new attempt can be made on an
   execution that is not yet dispatched: it creates the workload, or adopts the one a lost attempt left.
   */
  lemma DispatchRecovers(c: Config, w: World, e: ExecutionId, ns: Scope) returns (w': World)
    requires Reachable(c, w) && e in w.recs && (w.recs[e].status.Created? || w.recs[e].status.Dispatching?)
    requires Configured(c, ns) && c.dispatchLease >= 2
    ensures Reachable(c, w') && Redispatched(c, w, w', e, ns)
  {
    Pristine(c, w, e);
    var p := Newcomer(w);
    var w1 := Waits(c, w, c.dispatchLease);
    var w2 := Claims(c, w1, p, e);
    var w3 := Loads(c, w2, p, e, ns);
    w' := Prepares(c, w3, p, e, ns);
  }

  /** A server creates the workload and crashes before it persists: the next attempt ends starting, with that very instance. */
  lemma RetryAdopts(c: Config, ns: Scope) returns (w: World)
    requires c.dispatchLease >= 2 && Configured(c, ns)
    ensures Reachable(c, w) && 0 in w.recs && w.recs[0].status.Starting?
    ensures var k := Key(ScopeOf(c, ns), c.nameOf(0)); w.recs[0].Holds(Identity(k.scope, k.name, 0)) && w.jobs == map[k := Job(0, 0, Suspended)]
  {
    var w0 := Begins(c);
    var w1 := Readies(c, w0, 0, 0, ns);
    var w2 := Creates(c, w1, 0);
    var w3 := EnvironmentStep(c, w2, Crash(0));
    ReachableStep(c, w2, Environment(Crash(0)));
    assert w3.recs == w2.recs && w3.jobs == w2.jobs;
    w := DispatchRecovers(c, w3, 0, ns);
  }

  // ----- activation -----

  /** From every reachable state, the suspended workload of a starting execution can be brought to run. */
  lemma ActivationRecovers(c: Config, w: World, e: ExecutionId) returns (w': World)
    requires Reachable(c, w) && e in w.recs && w.recs[e].status.Starting?
    requires var r := w.recs[e]; r.Complete() ==>
      var k := Key(r.scope.value, r.workload.value); k in w.jobs && w.jobs[k] == Job(r.instance.value, e, Suspended)
    ensures Reachable(c, w') && e in w'.recs && w'.recs[e].status.Running? && w.recs[e].Complete()
    ensures w'.jobs == w.jobs[Key(w.recs[e].scope.value, w.recs[e].workload.value) := Job(w.recs[e].instance.value, e, Active)]
  {
    ReachableInv(c, w);
    assert RecordOk(c, w, e, w.recs[e]);
    var q := Newcomer(w);
    w' := Starts(c, w, q, e, w.recs[e].Identify());
  }

  // ----- cleanup -----

  /** Where cleanup of e looks. */
  ghost function CleanKey(c: Config, r: Record, e: ExecutionId, ns: Scope): Key {
    Key(if r.scope.Some? then r.scope.value else ScopeOf(c, ns), c.nameOf(e))
  }

  /**
   Cleanup can be completed: the workload is the persisted one or, if none is persisted, the execution's
   own; or it is missing where that proves absence.
   */
  ghost predicate Cleanable(c: Config, w: World, e: ExecutionId, ns: Scope)
    requires e in w.recs
  {
    var r := w.recs[e];
    var k := CleanKey(c, r, e, ns);
    if k in w.jobs then w.jobs[k].owner == e && (r.instance.Some? ==> r.instance == Some(w.jobs[k].uid))
    else r.scope.Some? || c.backend.Docker?
  }

  /** Cleanup of e is over: done, with the workload gone, or blocked, with everything as it was. */
  ghost predicate Cleaned(c: Config, w: World, w': World, e: ExecutionId, ns: Scope)
    requires e in w.recs
  {
    && e in w'.recs && w'.recs[e].status == w.recs[e].status
    && w'.recs[e].cleanup == (if Cleanable(c, w, e, ns) then Done else Blocked)
    && w'.jobs == (if Cleanable(c, w, e, ns) then w.jobs - {CleanKey(c, w.recs[e], e, ns)} else w.jobs)
  }

  /** The lease and the retention allow a new cleanup. */
  predicate Ripe(c: Config, w: World, r: Record) {
    r.status.Terminal() && CleanupClaimable(w, r, 10) && RetentionOver(c, w.now, r) && !DispatchActive(c, w, r)
  }

  lemma Ripens(c: Config, w: World, e: ExecutionId) returns (w': World)
    requires Reachable(c, w) && e in w.recs && w.recs[e].status.Terminal() && w.recs[e].cleanup.Pending?
    ensures Reachable(c, w') && w'.recs == w.recs && w'.jobs == w.jobs && Ripe(c, w', w.recs[e])
    ensures forall q :: w'.At(q) == w.At(q)
  {
    var r := w.recs[e];
    var latest := MaxOf(r.cleanupAt + 10, r.dispatchClaimedAt + c.dispatchLease);
    if r.cleanupNextAt.Some? { latest := MaxOf(latest, r.cleanupNextAt.value); }
    if r.completedAt.Some? { latest := MaxOf(latest, r.completedAt.value + c.retention); }
    w' := Waits(c, w, MaxOf(latest - w.now, 0));
  }

  function MaxOf(a: int, b: int): (m: int)
    ensures m >= a && m >= b
  {
    if a < b then b else a
  }

  /** p takes the cleanup lease and starts its deadline. */
  lemma Takes(c: Config, w: World, p: Proc, e: ExecutionId) returns (w': World)
    requires Reachable(c, w) && w.At(p).stage.Idle? && e in w.recs && Ripe(c, w, w.recs[e])
    ensures Reachable(c, w') && w'.jobs == w.jobs && w'.now == w.now && e in w'.recs
    ensures w'.recs[e] == w.recs[e].(cleanupToken := Some(w'.At(p).tok), cleanupAt := w.now)
    ensures w'.At(p).stage.CleanTimed? && w'.At(p).e == e && w'.At(p).dl == w.now + 5
  {
    var w1 := StepLoadCandidate(c, w, p, e);
    ReachableStep(c, w, Clean(p, LoadCandidate(e)));
    assert w1.At(p) == IDLE.(stage := Candidate, e := e, snap := w.recs[e]);
    var w2 := StepClaimCleanup(c, w1, p, 10);
    ReachableStep(c, w1, Clean(p, ClaimCleanup(10)));
    assert w2.At(p).stage.CleanClaimed? && w2.At(p).lease == 10;
    w' := StepStartDelete(w2, p);
    ReachableStep(c, w2, Clean(p, StartDelete));
  }

  /** p records its outcome. */
  lemma Concludes(c: Config, w: World, p: Proc, e: ExecutionId) returns (w': World)
    requires Reachable(c, w) && w.At(p).stage.Finishing? && w.At(p).e == e && e in w.recs && HoldsCleanup(w.recs[e], w.At(p).tok)
    ensures Reachable(c, w') && w'.jobs == w.jobs && e in w'.recs && w'.recs[e].status == w.recs[e].status
    ensures w'.recs[e].cleanup == match w.At(p).outcome case Removed => Done case Permanent => Blocked case Transient => Pending
  {
    w' := StepFinish(c, w, p, 0);
    ReachableStep(c, w, Clean(p, FinishCleanup(0)));
  }

  /** p deletes under a complete identity, or finds that it must not. */
  lemma DeletesOrBlocks(c: Config, w: World, p: Proc, e: ExecutionId, id: Identity) returns (w': World)
    requires Reachable(c, w) && w.At(p).stage.Deleting? && w.At(p).e == e && w.At(p).id == id && w.now <= w.At(p).dl && e in w.recs
    requires HoldsCleanup(w.recs[e], w.At(p).tok) && w.recs[e].Holds(id) && id.workload == c.nameOf(e)
    ensures Reachable(c, w') && e in w'.recs && w'.recs[e].status == w.recs[e].status
    ensures var k := Key(id.scope, id.workload);
      if k !in w.jobs || (w.jobs[k].owner == e && w.jobs[k].uid == id.uid)
      then w'.recs[e].cleanup.Done? && w'.jobs == w.jobs - {k}
      else w'.recs[e].cleanup.Blocked? && w'.jobs == w.jobs
  {
    var k := Key(id.scope, id.workload);
    if k in w.jobs && w.jobs[k].owner == e && w.jobs[k].uid == id.uid {
      w' := Deletes(c, w, p, e, id);
    } else {
      var w1 := StepInspectForDelete(c, w, p);
      ReachableStep(c, w, Clean(p, InspectForDelete));
      assert w1 == w.Go(p, w.At(p).(stage := Finishing, outcome := if k in w.jobs then Permanent else Removed));
      w' := Concludes(c, w1, p, e);
      assert k !in w.jobs ==> w.jobs - {k} == w.jobs;
    }
  }

  /** Without a persisted identity p waits for the dispatch barrier. */
  lemma PassesBarrier(c: Config, w: World, p: Proc, e: ExecutionId) returns (w': World)
    requires Reachable(c, w) && w.At(p).stage.CleanTimed? && w.At(p).e == e && w.now <= w.At(p).dl && e in w.recs
    requires HoldsCleanup(w.recs[e], w.At(p).tok) && Unbound(w.recs[e]) && !DispatchActive(c, w, w.recs[e])
    ensures Reachable(c, w') && w'.recs == w.recs && w'.jobs == w.jobs && w'.now == w.now
    ensures w'.At(p) == w.At(p).(stage := Lookup, snap := w.recs[e])
  {
    var w1 := StepResolveStored(c, w, p);
    ReachableStep(c, w, Clean(p, ResolveStored));
    assert w1 == w.Go(p, w.At(p).(stage := Barrier, snap := w.recs[e]));
    w' := StepCheckBarrier(c, w1, p);
    ReachableStep(c, w1, Clean(p, CheckBarrier));
  }

  /** What p finds there. */
  ghost predicate FoundBy(c: Config, w: World, pc: Pc, pc': Pc, k: Key) {
    && pc'.e == pc.e && pc'.tok == pc.tok && pc'.dl == pc.dl
    && if k in w.jobs && w.jobs[k].owner == pc.e then pc'.stage.Binding? && pc'.id == Identity(k.scope, k.name, w.jobs[k].uid)
       else pc'.stage.Finishing? && pc'.outcome == if k !in w.jobs && c.backend.Docker? then Removed else Permanent
  }

  lemma ResolveFinds(c: Config, w: World, p: Proc, ns: Scope)
    requires w.At(p).stage.Lookup? && w.now <= w.At(p).dl && Unbound(w.At(p).snap) && Configured(c, ns)
    ensures var w' := StepResolvePrepared(c, w, p, ns);
      w' == w.Go(p, w'.At(p)) && FoundBy(c, w, w.At(p), w'.At(p), Key(ScopeOf(c, ns), c.nameOf(w.At(p).e)))
  {
  }

  lemma LooksUp(c: Config, w: World, p: Proc, ns: Scope) returns (w': World)
    requires Reachable(c, w) && w.At(p).stage.Lookup? && w.now <= w.At(p).dl && Unbound(w.At(p).snap) && Configured(c, ns)
    ensures Reachable(c, w') && w'.recs == w.recs && w'.jobs == w.jobs && w'.now == w.now
    ensures FoundBy(c, w, w.At(p), w'.At(p), Key(ScopeOf(c, ns), c.nameOf(w.At(p).e)))
  {
    ResolveFinds(c, w, p, ns);
    w' := StepResolvePrepared(c, w, p, ns);
    ReachableStep(c, w, Clean(p, ResolvePrepared(ns)));
  }

  /** p persists the identity it found, and reads it back. */
  lemma Binds(c: Config, w: World, p: Proc, e: ExecutionId) returns (w': World)
    requires Reachable(c, w) && w.At(p).stage.Binding? && w.At(p).e == e && w.now <= w.At(p).dl && e in w.recs
    requires HoldsCleanup(w.recs[e], w.At(p).tok) && Unbound(w.recs[e])
    ensures Reachable(c, w') && w'.jobs == w.jobs && w'.now == w.now && e in w'.recs
    ensures w'.recs[e] == w.recs[e].With(w.At(p).id) && w'.At(p) == w.At(p).(stage := Deleting)
  {
    var w1 := StepBind(c, w, p);
    ReachableStep(c, w, Clean(p, BindIdentity));
    assert w1.At(p) == w.At(p).(stage := Bound) && w1.recs[e] == w.recs[e].With(w.At(p).id);
    w' := StepReloadBound(c, w1, p);
    ReachableStep(c, w1, Clean(p, ReloadBound));
  }

  lemma CleansStored(c: Config, w: World, p: Proc, e: ExecutionId, ns: Scope) returns (w': World)
    requires Reachable(c, w) && w.At(p).stage.CleanTimed? && w.At(p).e == e && w.now <= w.At(p).dl && e in w.recs
    requires HoldsCleanup(w.recs[e], w.At(p).tok) && w.recs[e].Complete() && w.recs[e].workload == Some(c.nameOf(e))
    ensures Reachable(c, w') && Cleaned(c, w, w', e, ns)
  {
    var w1 := StepResolveStored(c, w, p);
    ReachableStep(c, w, Clean(p, ResolveStored));
    assert w1 == w.Go(p, w.At(p).(stage := Deleting, id := w.recs[e].Identify()));
    w' := DeletesOrBlocks(c, w1, p, e, w.recs[e].Identify());
  }

  lemma CleansFound(c: Config, w: World, p: Proc, e: ExecutionId, ns: Scope) returns (w': World)
    requires Reachable(c, w) && w.At(p).stage.CleanTimed? && w.At(p).e == e && w.now <= w.At(p).dl && e in w.recs && Configured(c, ns)
    requires HoldsCleanup(w.recs[e], w.At(p).tok) && Unbound(w.recs[e]) && !DispatchActive(c, w, w.recs[e])
    ensures Reachable(c, w') && Cleaned(c, w, w', e, ns)
  {
    var k := Key(ScopeOf(c, ns), c.nameOf(e));
    var w0 := PassesBarrier(c, w, p, e);
    var w1 := LooksUp(c, w0, p, ns);
    if k in w.jobs && w.jobs[k].owner == e {
      var w2 := Binds(c, w1, p, e);
      w' := DeletesOrBlocks(c, w2, p, e, w1.At(p).id);
    } else {
      w' := Concludes(c, w1, p, e);
      assert k !in w.jobs ==> w.jobs - {k} == w.jobs;
    }
  }

  /**
   From every reachable state, whoever held the lease and whatever is in flight, a pending cleanup can
   be brought to its end, and what is deployed under the name decides between done and blocked.
   */
  lemma CleanupRecovers(c: Config, w: World, e: ExecutionId, ns: Scope) returns (w': World)
    requires Reachable(c, w) && e in w.recs && w.recs[e].status.Terminal() && w.recs[e].cleanup.Pending? && Configured(c, ns)
    ensures Reachable(c, w') && Cleaned(c, w, w', e, ns)
  {
    ReachableInv(c, w);
    assert RecordOk(c, w, e, w.recs[e]);
    var p := Newcomer(w);
    var w1 := Ripens(c, w, e);
    var w2 := Takes(c, w1, p, e);
    if w.recs[e].instance.Some? { w' := CleansStored(c, w2, p, e, ns); } else { w' := CleansFound(c, w2, p, e, ns); }
  }

  /** After a review a blocked cleanup can be brought to its end as well. */
  lemma ReopenedRecovers(c: Config, w: World, e: ExecutionId, ns: Scope) returns (w': World)
    requires Reachable(c, w) && e in w.recs && w.recs[e].cleanup.Blocked? && Configured(c, ns)
    ensures Reachable(c, w') && Cleaned(c, w, w', e, ns)
  {
    var r := w.recs[e];
    ReachableInv(c, w);
    assert RecordOk(c, w, e, r);
    var w1 := StepReopen(w, e, r.scope, r.workload, r.instance);
    ReachableStep(c, w, Environment(Reopen(e, r.scope, r.workload, r.instance)));
    assert w1.recs[e] == r.(cleanup := Pending, cleanupToken := None, cleanupNextAt := None) && w1.jobs == w.jobs;
    w' := CleanupRecovers(c, w1, e, ns);
  }

  /** No reachable state is a dead end: every execution can be ended, and its cleanup brought to its end. */
  lemma CanAlwaysEnd(c: Config, w: World, e: ExecutionId, ns: Scope) returns (w': World)
    requires Reachable(c, w) && e in w.recs && Configured(c, ns)
    ensures Reachable(c, w') && e in w'.recs && w'.recs[e].status.Terminal()
    ensures w'.recs[e].cleanup.Done? || (w'.recs[e].cleanup.Blocked? && !Cleanable(c, w, e, ns))
  {
    ReachableInv(c, w);
    assert RecordOk(c, w, e, w.recs[e]);
    if !w.recs[e].status.Terminal() {
      var w1 := Terminates(c, w, e, Cancelled);
      w' := CleanupRecovers(c, w1, e, ns);
    } else if w.recs[e].cleanup.Pending? {
      w' := CleanupRecovers(c, w, e, ns);
    } else if w.recs[e].cleanup.Blocked? {
      w' := ReopenedRecovers(c, w, e, ns);
    } else {
      w' := w;
    }
  }
}

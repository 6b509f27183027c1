/** The individual actions of the runtime protocol, each reduced to one of the three shapes of step. */
module RuntimeActions {
  import opened Prelude
  import opened RuntimeProtocol
  import opened RuntimeSafety
  import opened RuntimeRuns

  // ----- what the invariant says about one workload key -----

  ghost predicate KeyFacts(c: Config, w: World, k: Key) {
    k in w.jobs ==> JobOk(c, w, k, w.jobs[k]) && Owned(w, w.jobs[k].uid, w.jobs[k].owner)
  }

  lemma KeyFactsHold(c: Config, w: World, k: Key)
    requires JobsOk(c, w)
    ensures KeyFacts(c, w, k)
  {
    if k in w.jobs { assert JobOk(c, w, k, w.jobs[k]); }
  }

  /** One key per execution and scope: its absence there is the absence of every workload of e there. */
  lemma AbsentMeansGone(c: Config, w: World, e: ExecutionId)
    requires JobsOk(c, w) && e in w.recs && ProvenScope(c, w.recs[e]).Some?
    requires Key(ProvenScope(c, w.recs[e]).value, c.nameOf(e)) !in w.jobs
    ensures Gone(c, w, e)
  {
    forall k | k in w.jobs ensures JobOk(c, w, k, w.jobs[k]) {}
  }

  lemma OneWorkloadPerScope(c: Config, w: World, e: ExecutionId, scope: Scope, k: Key)
    requires JobsOk(c, w) && k in w.jobs && w.jobs[k].owner == e && k.scope == scope
    ensures k == Key(scope, c.nameOf(e))
  {
    assert JobOk(c, w, k, w.jobs[k]);
  }

  /** An instance is persisted only by the holder of the dispatch lease, who has left its window. */
  lemma InstanceMeansNoLive(c: Config, w: World, e: ExecutionId)
    requires Inv(c, w) && e in w.recs && w.recs[e].instance.Some?
    ensures NoLive(c, w, e)
  {
    forall q | q in w.procs ensures !LiveWindow(w, w.procs[q], e) { assert PcOk(c, w, w.procs[q]); }
    forall t | t in w.sent && Prompt(c) ensures !LiveRequest(w, w.sent[t], e) { assert RequestOk(c, w, t, w.sent[t]); }
  }

  /**
   A dispatch claim that is free or stale has outlived every preparation started under it and, with
   prompt requests, everything those preparations sent.
   */
  lemma BarrierMeansNoLive(c: Config, w: World, e: ExecutionId)
    requires Inv(c, w) && e in w.recs && !DispatchActive(c, w, w.recs[e])
    ensures NoLive(c, w, e)
  {
    forall q | q in w.procs ensures !LiveWindow(w, w.procs[q], e) { assert PcOk(c, w, w.procs[q]); }
    forall t | t in w.sent && Prompt(c) ensures !LiveRequest(w, w.sent[t], e) { assert RequestOk(c, w, t, w.sent[t]); }
  }

  // ----- changing one record -----

  lemma Changes(c: Config, w: World, p: Proc, e: ExecutionId, r: Record, pc: Pc)
    requires e in w.recs && RecordStep(w.nextToken, w.recs[e], r) && RecordOk(c, w, e, r)
    requires !Window(pc) && !Cleaner(pc) && DispatcherOk(c, w.Put(e, r), pc)
    requires WindowToken(pc).Some? ==> WindowToken(pc) == WindowToken(w.At(p)) && (GaveUp(w.At(p)) ==> GaveUp(pc))
    ensures RecordUpdate(c, w, w.Put(e, r).Go(p, pc), Some(p), e)
  {
    assert w.Put(e, r).Go(p, pc).At(p) == pc;
  }

  /** A record changes except for its dispatch token and instance, and p moves. */
  lemma Rewrites(c: Config, w: World, p: Proc, e: ExecutionId, r: Record, pc: Pc)
    requires e in w.recs && RecordStep(w.nextToken, w.recs[e], r) && RecordOk(c, w, e, r)
    requires r.dispatchToken == w.recs[e].dispatchToken && r.instance == w.recs[e].instance
    requires r.cleanup.Done? ==> w.recs[e].cleanup.Done?
    requires !Window(pc) && !Cleaner(pc) && DispatcherOk(c, w.Put(e, r), pc)
    requires WindowToken(pc).Some? ==> WindowToken(pc) == WindowToken(w.At(p)) && (GaveUp(w.At(p)) ==> GaveUp(pc))
    ensures QuietStep(c, w, w.Put(e, r).Go(p, pc), p, e)
  {
    Changes(c, w, p, e, r, pc);
  }

  // ----- dispatch: local moves -----

  lemma Moves(c: Config, w: World, p: Proc, pc: Pc)
    requires PcOk(c, w, pc) && !Window(pc)
    requires WindowToken(pc).Some? ==> WindowToken(pc) == WindowToken(w.At(p)) && (GaveUp(w.At(p)) ==> GaveUp(pc))
    ensures LocalStep(c, w, w.Go(p, pc), p)
  {
    assert w.Go(p, pc).At(p) == pc;
  }

  /** Giving up on everything, or turning to compensation, is a local move. */
  lemma Compensates(c: Config, w: World, p: Proc, pc: Pc)
    requires pc.stage.Idle? || (pc.stage.Compensating? && pc.e in w.recs && pc.id.workload == c.nameOf(pc.e) && CauseOk(w.recs[pc.e], pc.id, pc.cause))
    ensures LocalStep(c, w, w.Go(p, pc), p)
  {
    assert w.Go(p, pc).At(p) == pc;
  }

  lemma StartPrepareLocal(c: Config, w: World, p: Proc)
    requires Facts(c, w, p)
    ensures LocalStep(c, w, StepStartPrepare(c, w, p), p)
  {}

  lemma LoadClaimedLocal(c: Config, w: World, p: Proc, ns: Scope)
    requires Facts(c, w, p)
    ensures LocalStep(c, w, StepLoadClaimed(c, w, p, ns), p)
  {
    var pc := w.At(p);
    if pc.stage.Refreshed? {
      Compensates(c, w, p, IDLE);
      Moves(c, w, p, pc.(stage := Failing));
      var r := w.recs[pc.e];
      if w.now <= pc.dl && r.status.Dispatching? && r.dispatchToken == Some(pc.tok) {
        Enters(c, w, p, pc.(stage := Preparing, ns := ScopeOf(c, ns), snap := r, conflicted := false));
      }
    }
  }

  /** Starting to prepare, for an execution that is still in dispatch. */
  lemma Enters(c: Config, w: World, p: Proc, pc: Pc)
    requires Window(pc) && WindowOk(c, w, pc) && !w.recs[pc.e].status.Terminal() && WindowToken(w.At(p)) == Some(pc.tok) && !GaveUp(w.At(p))
    ensures LocalStep(c, w, w.Go(p, pc), p)
  {
    assert w.Go(p, pc).At(p) == pc;
  }

  lemma InspectForPrepareLocal(c: Config, w: World, p: Proc, matches: bool)
    requires Facts(c, w, p) && KeyFacts(c, w, Key(w.At(p).ns, c.nameOf(w.At(p).e)))
    ensures LocalStep(c, w, StepInspectForPrepare(c, w, p, matches), p)
  {}

  lemma PrepareFailsLocal(c: Config, w: World, p: Proc)
    requires Facts(c, w, p)
    ensures LocalStep(c, w, StepPrepareFails(w, p), p)
  {}

  lemma ReloadPreparedLocal(c: Config, w: World, p: Proc, readable: bool)
    requires Facts(c, w, p)
    ensures LocalStep(c, w, StepReloadPrepared(c, w, p, readable), p)
  {
    var pc := w.At(p);
    if pc.stage.Completed? {
      var r := w.recs[pc.e];
      Compensates(c, w, p, pc.(stage := Compensating, cause := ReloadFailed));
      Compensates(c, w, p, pc.(stage := Compensating, cause := if r.status.Terminal() then Ended else Overtaken));
      Moves(c, w, p, pc.(stage := Activating, snap := r, dispatching := true));
    }
  }

  lemma LoadForActivationLocal(c: Config, w: World, p: Proc, e: ExecutionId)
    requires Facts(c, w, p)
    ensures LocalStep(c, w, StepLoadForActivation(w, p, e), p)
  {}

  lemma InspectForActivateLocal(c: Config, w: World, p: Proc)
    requires Facts(c, w, p)
    requires w.At(p).snap.Complete() ==> KeyFacts(c, w, Key(w.At(p).snap.scope.value, w.At(p).snap.workload.value))
    ensures LocalStep(c, w, StepInspectForActivate(c, w, p), p)
  {
    var pc := w.At(p);
    if pc.stage.Activating? {
      Compensates(c, w, p, IDLE);
      Moves(c, w, p, pc.(stage := Activated));
      if pc.snap.Complete() { FoundForActivate(c, w, p); }
    }
  }

  lemma FoundForActivate(c: Config, w: World, p: Proc)
    requires Facts(c, w, p) && w.At(p).stage.Activating? && w.At(p).snap.Complete()
    requires KeyFacts(c, w, Key(w.At(p).snap.scope.value, w.At(p).snap.workload.value))
    ensures var pc := w.At(p); var k := Key(pc.snap.scope.value, pc.snap.workload.value);
            k in w.jobs && w.jobs[k].owner == pc.e && Some(w.jobs[k].uid) == pc.snap.instance ==>
              LocalStep(c, w, w.Go(p, pc.(stage := StartingUp, id := pc.snap.Identify())), p)
  {
    var pc := w.At(p);
    var k := Key(pc.snap.scope.value, pc.snap.workload.value);
    if k in w.jobs && w.jobs[k].owner == pc.e && Some(w.jobs[k].uid) == pc.snap.instance {
      Moves(c, w, p, pc.(stage := StartingUp, id := pc.snap.Identify()));
    }
  }

  lemma InspectForUndoLocal(c: Config, w: World, p: Proc)
    requires Facts(c, w, p) && KeyFacts(c, w, Key(w.At(p).id.scope, c.nameOf(w.At(p).e)))
    ensures LocalStep(c, w, StepInspectForUndo(c, w, p), p)
  {
    var pc := w.At(p);
    if pc.stage.Compensating? {
      var k := Key(pc.id.scope, c.nameOf(pc.e));
      Compensates(c, w, p, IDLE);
      if k in w.jobs && w.jobs[k].owner == pc.e && w.jobs[k].uid == pc.id.uid { Moves(c, w, p, pc.(stage := Undoing)); }
    }
  }

  // ----- cleanup: local moves -----

  lemma CleanerMoves(c: Config, w: World, p: Proc, pc: Pc)
    requires Cleaner(pc) && !Window(pc) && CleanerOk(c, w, pc)
    ensures LocalStep(c, w, w.Go(p, pc), p)
  {
    assert w.Go(p, pc).At(p) == pc;
  }

  lemma CleanerFinishes(c: Config, w: World, p: Proc, outcome: Outcome)
    requires Facts(c, w, p) && Cleaner(w.At(p)) && !Window(w.At(p))
    requires outcome.Removed? ==> PastBarrier(w.At(p)) && ProvenScope(c, w.recs[w.At(p).e]).Some? && (Prompt(c) ==> Gone(c, w, w.At(p).e))
    ensures LocalStep(c, w, w.Go(p, w.At(p).(stage := Finishing, outcome := outcome)), p)
  {
    CleanerMoves(c, w, p, w.At(p).(stage := Finishing, outcome := outcome));
  }

  lemma LoadCandidateLocal(c: Config, w: World, p: Proc, e: ExecutionId)
    requires Facts(c, w, p)
    ensures LocalStep(c, w, StepLoadCandidate(c, w, p, e), p)
  {}

  lemma StartDeleteLocal(c: Config, w: World, p: Proc)
    requires Facts(c, w, p)
    ensures LocalStep(c, w, StepStartDelete(w, p), p)
  {}

  lemma ResolveStoredLocal(c: Config, w: World, p: Proc)
    requires Facts(c, w, p)
    requires w.At(p).e in w.recs && w.recs[w.At(p).e].instance.Some? ==> NoLive(c, w, w.At(p).e)
    ensures LocalStep(c, w, StepResolveStored(c, w, p), p)
  {
    var pc := w.At(p);
    if pc.stage.CleanTimed? && w.now <= pc.dl {
      var r := w.recs[pc.e];
      if !HoldsCleanup(r, pc.tok) { CleanerFinishes(c, w, p, Transient); }
      else if r.Complete() { CleanerMoves(c, w, p, pc.(stage := Deleting, id := r.Identify())); }
      else { CleanerMoves(c, w, p, pc.(stage := Barrier, snap := r)); }
    }
  }

  lemma CheckBarrierLocal(c: Config, w: World, p: Proc)
    requires Facts(c, w, p)
    requires w.At(p).e in w.recs && !DispatchActive(c, w, w.recs[w.At(p).e]) ==> NoLive(c, w, w.At(p).e)
    ensures LocalStep(c, w, StepCheckBarrier(c, w, p), p)
  {
    var pc := w.At(p);
    if pc.stage.Barrier? {
      CleanerFinishes(c, w, p, Transient);
      if !DispatchActive(c, w, w.recs[pc.e]) { CleanerMoves(c, w, p, pc.(stage := Lookup)); }
    }
  }

  lemma ResolvePreparedLocal(c: Config, w: World, p: Proc, ns: Scope)
    requires Facts(c, w, p) && JobsOk(c, w)
    ensures LocalStep(c, w, StepResolvePrepared(c, w, p, ns), p)
  {
    var pc := w.At(p);
    if pc.stage.Lookup? && w.now <= pc.dl {
      var scope := if ProvenScope(c, pc.snap).Some? then ProvenScope(c, pc.snap).value else ns;
      var k := Key(scope, c.nameOf(pc.e));
      if k !in w.jobs {
        if ProvenScope(c, pc.snap).Some? { AbsentMeansGone(c, w, pc.e); }
        CleanerFinishes(c, w, p, if ProvenScope(c, pc.snap).Some? then Removed else Permanent);
      } else {
        KeyFactsHold(c, w, k);
        CleanerMoves(c, w, p, pc.(stage := Binding, id := Identity(scope, k.name, w.jobs[k].uid)));
      }
      CleanerFinishes(c, w, p, Permanent);
    }
  }

  lemma ReloadBoundLocal(c: Config, w: World, p: Proc)
    requires Facts(c, w, p)
    ensures LocalStep(c, w, StepReloadBound(c, w, p), p)
  {
    var pc := w.At(p);
    if pc.stage.Bound? && w.now <= pc.dl {
      CleanerFinishes(c, w, p, Transient);
      CleanerFinishes(c, w, p, Permanent);
      if w.recs[pc.e].Holds(pc.id) { CleanerMoves(c, w, p, pc.(stage := Deleting)); }
    }
  }

  lemma InspectForDeleteLocal(c: Config, w: World, p: Proc)
    requires Facts(c, w, p) && JobsOk(c, w)
    ensures LocalStep(c, w, StepInspectForDelete(c, w, p), p)
  {
    var pc := w.At(p);
    if pc.stage.Deleting? {
      var k := Key(pc.id.scope, c.nameOf(pc.e));
      CleanerFinishes(c, w, p, Permanent);
      if k !in w.jobs {
        AbsentMeansGone(c, w, pc.e);
        CleanerFinishes(c, w, p, Removed);
      } else if w.jobs[k].owner == pc.e && w.jobs[k].uid == pc.id.uid {
        KeyFactsHold(c, w, k);
        forall x | x in w.jobs && w.jobs[x].owner == pc.e && x.scope == pc.id.scope ensures x == k {
          OneWorkloadPerScope(c, w, pc.e, pc.id.scope, x);
        }
        CleanerMoves(c, w, p, pc.(stage := Removing));
      }
    }
  }

  lemma DeleteTimesOutLocal(c: Config, w: World, p: Proc)
    requires Facts(c, w, p)
    ensures LocalStep(c, w, StepDeleteTimesOut(w, p), p)
  {}

  // ----- environment -----

  lemma TickRecords(c: Config, w: World, dt: nat)
    requires RecordsOk(c, w) && JobsOk(c, w)
    ensures RecordsOk(c, StepTick(w, dt)) && JobsOk(c, StepTick(w, dt))
  {
    var w' := StepTick(w, dt);
    forall e | e in w.recs ensures RecordOk(c, w', e, w'.recs[e]) { assert RecordOk(c, w, e, w.recs[e]); }
    forall k | k in w.jobs ensures JobOk(c, w', k, w'.jobs[k]) { assert JobOk(c, w, k, w.jobs[k]); }
  }

  lemma TickOrderly(c: Config, w: World, dt: nat)
    ensures Orderly(c, w, StepTick(w, dt), None)
  {
  }

  lemma TickKeeps(c: Config, w: World, dt: nat)
    requires Inv(c, w)
    ensures Safe(c, w, StepTick(w, dt))
  {
    TickRecords(c, w, dt);
    TickOrderly(c, w, dt);
    KeepWindows(c, w, StepTick(w, dt), None);
    Carry(c, w, StepTick(w, dt), None);
  }

  lemma TerminalizeUpdates(c: Config, w: World, e: ExecutionId, to: Status)
    requires e in w.recs && RecordOk(c, w, e, w.recs[e]) && !w.recs[e].status.Terminal() && to.Terminal()
    ensures RecordUpdate(c, w, StepTerminalize(w, e, to), None, e)
  {}

  lemma BootstrapUpdates(c: Config, w: World, e: ExecutionId)
    requires e in w.recs && RecordOk(c, w, e, w.recs[e]) && w.recs[e].status.Starting?
    ensures RecordUpdate(c, w, StepBootstrap(w, e), None, e)
  {}

  lemma VanishRemoves(c: Config, w: World, k: Key)
    requires ActiveHeld(w)
    ensures JobStep(c, w, StepVanish(w, k), None)
  {
  }

  lemma ExitRemoves(c: Config, w: World, k: Key)
    requires ActiveHeld(w)
    ensures JobStep(c, w, StepExit(w, k), None)
  {
  }

  lemma ReopenUpdates(c: Config, w: World, e: ExecutionId, scope: Option<Scope>, workload: Option<Name>, instance: Option<Uid>)
    requires e in w.recs && RecordOk(c, w, e, w.recs[e]) && StepReopen(w, e, scope, workload, instance) != w
    ensures RecordUpdate(c, w, StepReopen(w, e, scope, workload, instance), None, e)
  {}

  // ----- requests in flight -----

  lemma LandRecords(c: Config, w: World, t: Token)
    requires RecordsOk(c, w) && JobsOk(c, w) && t in w.sent && RequestOk(c, w, t, w.sent[t]) && w.now <= w.sent[t].until
    ensures RecordsOk(c, StepLand(c, w, t)) && JobsOk(c, StepLand(c, w, t))
  {
    var w' := StepLand(c, w, t);
    var k := Key(w.sent[t].scope, c.nameOf(w.sent[t].e));
    forall x | x in w'.jobs ensures JobOk(c, w', x, w'.jobs[x]) { if x in w.jobs { assert JobOk(c, w, x, w.jobs[x]); } }
    forall x | x in w'.recs ensures RecordOk(c, w', x, w'.recs[x]) { assert RecordOk(c, w, x, w.recs[x]); }
    forall x, y | x in w'.jobs && y in w'.jobs && w'.jobs[x].uid == w'.jobs[y].uid ensures x == y {
      if x in w.jobs { assert JobOk(c, w, x, w.jobs[x]); }
      if y in w.jobs { assert JobOk(c, w, y, w.jobs[y]); }
    }
  }

  lemma LandOrderly(c: Config, w: World, t: Token)
    requires t in w.sent && w.now <= w.sent[t].until
    ensures Orderly(c, w, StepLand(c, w, t), None)
  {
    assert LiveRequest(w, w.sent[t], w.sent[t].e);
  }

  lemma LandKeeps(c: Config, w: World, t: Token)
    requires Inv(c, w)
    ensures Safe(c, w, StepLand(c, w, t))
  {
    if t in w.sent && w.now <= w.sent[t].until {
      assert RequestOk(c, w, t, w.sent[t]);
      LandRecords(c, w, t);
      LandOrderly(c, w, t);
      KeepWindows(c, w, StepLand(c, w, t), None);
      Carry(c, w, StepLand(c, w, t), None);
    } else {
      Unchanged(c, w);
    }
  }

  lemma LoseReplyOrderly(c: Config, w: World, p: Proc)
    requires Facts(c, w, p) && w.At(p).stage.Creating? && w.now <= w.At(p).dl
    ensures var w' := StepLoseReply(c, w, p);
            Orderly(c, w, w', Some(p)) && PcOk(c, w', w'.At(p)) && TokenKept(w, w', p)
  {
    var w' := StepLoseReply(c, w, p);
    assert LiveWindow(w, w.procs[p], w.At(p).e);
    assert w'.At(p) == w.At(p).(stage := Failing);
  }

  lemma LoseReplyKeeps(c: Config, w: World, p: Proc)
    requires Inv(c, w)
    ensures Safe(c, w, StepLoseReply(c, w, p))
  {
    FactsHold(c, w, p);
    var w' := StepLoseReply(c, w, p);
    if w.At(p).stage.Creating? && w.now <= w.At(p).dl {
      LoseReplyOrderly(c, w, p);
      SameRecords(c, w, w');
      KeepWindows(c, w, w', Some(p));
      Carry(c, w, w', Some(p));
    } else {
      Unchanged(c, w);
    }
  }

  // ----- dispatch: record updates -----

  lemma ClaimUpdates(c: Config, w: World, p: Proc, e: ExecutionId)
    requires e in w.recs && RecordOk(c, w, e, w.recs[e]) && StepClaimDispatch(c, w, p, e) != w
    ensures RecordUpdate(c, w, StepClaimDispatch(c, w, p, e), Some(p), e)
  {
    assert StepClaimDispatch(c, w, p, e).At(p).stage.Claimed?;
  }

  /** Stealing needs a stale claim, and a stale claim outlives every preparation it covered. */
  lemma ClaimDispatchKeeps(c: Config, w: World, p: Proc, e: ExecutionId)
    requires Inv(c, w)
    ensures Safe(c, w, StepClaimDispatch(c, w, p, e))
  {
    var w' := StepClaimDispatch(c, w, p, e);
    if w' != w {
      assert RecordOk(c, w, e, w.recs[e]);
      ClaimUpdates(c, w, p, e);
      BarrierMeansNoLive(c, w, e);
      KeepOtherWindows(c, w, w', Some(p), e);
      UpdateKeeps(c, w, w', Some(p), e);
    }
  }

  lemma RefreshUpdates(c: Config, w: World, p: Proc)
    requires Facts(c, w, p)
    ensures QuietStep(c, w, StepRefresh(c, w, p), p, w.At(p).e)
  {
    var pc := w.At(p);
    if pc.stage.Timed? {
      Compensates(c, w, p, IDLE);
      if w.recs[pc.e].dispatchToken == Some(pc.tok) && w.now <= pc.dl {
        Rewrites(c, w, p, pc.e, w.recs[pc.e].(dispatchClaimedAt := w.now), pc.(stage := Refreshed));
      }
    }
  }

  lemma RefreshBarrierUpdates(c: Config, w: World, p: Proc)
    requires Facts(c, w, p)
    ensures QuietStep(c, w, StepRefreshBarrier(c, w, p), p, w.At(p).e)
  {
    var pc := w.At(p);
    if pc.stage.Failing? {
      Compensates(c, w, p, IDLE);
      if w.recs[pc.e].dispatchToken == Some(pc.tok) {
        Rewrites(c, w, p, pc.e, w.recs[pc.e].(dispatchClaimedAt := w.now), pc.(stage := Fenced));
      }
    }
  }

  lemma FailDispatchUpdates(c: Config, w: World, p: Proc)
    requires Facts(c, w, p)
    ensures QuietStep(c, w, StepFailDispatch(c, w, p), p, w.At(p).e)
  {
    var pc := w.At(p);
    if pc.stage.Fenced? {
      Compensates(c, w, p, IDLE);
      if w.recs[pc.e].status.Dispatching? { TerminateUpdates(c, w, p, IDLE, pc.e); }
    }
  }

  lemma TerminateUpdates(c: Config, w: World, p: Proc, pc: Pc, e: ExecutionId)
    requires e in w.recs && RecordOk(c, w, e, w.recs[e]) && !w.recs[e].status.Terminal()
    requires pc == IDLE || (pc.stage.Compensating? && pc.e == e && pc.id.workload == c.nameOf(e) && CauseOk(Terminate(w, w.recs[e], Failed), pc.id, pc.cause))
    ensures QuietStep(c, w, w.Put(e, Terminate(w, w.recs[e], Failed)).Go(p, pc), p, e)
  {
    Rewrites(c, w, p, e, Terminate(w, w.recs[e], Failed), pc);
  }

  lemma CheckActivatedUpdates(c: Config, w: World, p: Proc, permanent: bool, recorded: bool)
    requires Facts(c, w, p)
    ensures QuietStep(c, w, StepCheckActivated(c, w, p, permanent, recorded), p, w.At(p).e)
  {
    var pc := w.At(p);
    if pc.stage.Activated? && pc.snap.Complete() {
      var next := if pc.dispatching then pc.(stage := Compensating, id := pc.snap.Identify(), cause := Ended) else IDLE;
      if !w.recs[pc.e].status.Terminal() {
        TerminateUpdates(c, w, p, next, pc.e);
      } else {
        Compensates(c, w, p, next);
      }
      Compensates(c, w, p, next.(cause := Unterminated));
      Compensates(c, w, p, IDLE);
    }
  }

  // ----- dispatch: creating and completing -----

  lemma CreateRecords(c: Config, w: World, p: Proc)
    requires Facts(c, w, p) && RecordsOk(c, w) && JobsOk(c, w)
    requires w.At(p).stage.Creating? && w.now <= w.At(p).dl && Key(w.At(p).ns, c.nameOf(w.At(p).e)) !in w.jobs
    ensures RecordsOk(c, StepCreate(c, w, p)) && JobsOk(c, StepCreate(c, w, p))
  {
    var pc, w' := w.At(p), StepCreate(c, w, p);
    var k := Key(pc.ns, c.nameOf(pc.e));
    forall x | x in w'.jobs ensures JobOk(c, w', x, w'.jobs[x]) {
      if x != k { assert JobOk(c, w, x, w.jobs[x]); }
    }
    forall x | x in w'.recs ensures RecordOk(c, w', x, w'.recs[x]) { assert RecordOk(c, w, x, w.recs[x]); }
    forall x, y | x in w'.jobs && y in w'.jobs && w'.jobs[x].uid == w'.jobs[y].uid ensures x == y {
      if x != k { assert JobOk(c, w, x, w.jobs[x]); }
      if y != k { assert JobOk(c, w, y, w.jobs[y]); }
    }
  }

  lemma CreateConflictLocal(c: Config, w: World, p: Proc)
    requires Facts(c, w, p)
    requires w.At(p).stage.Creating? && w.now <= w.At(p).dl && Key(w.At(p).ns, c.nameOf(w.At(p).e)) in w.jobs
    ensures LocalStep(c, w, StepCreate(c, w, p), p)
  {}

  lemma CreateOrderly(c: Config, w: World, p: Proc)
    requires Facts(c, w, p)
    requires w.At(p).stage.Creating? && w.now <= w.At(p).dl && Key(w.At(p).ns, c.nameOf(w.At(p).e)) !in w.jobs
    ensures var w' := StepCreate(c, w, p);
            Orderly(c, w, w', Some(p)) && PcOk(c, w', w'.At(p)) && TokenKept(w, w', p)
  {
    assert LiveWindow(w, w.procs[p], w.At(p).e);
    assert StepCreate(c, w, p).At(p).stage.Prepared?;
  }

  lemma CreateKeeps(c: Config, w: World, p: Proc)
    requires Inv(c, w)
    ensures Safe(c, w, StepCreate(c, w, p))
  {
    FactsHold(c, w, p);
    var pc, w' := w.At(p), StepCreate(c, w, p);
    if pc.stage.Creating? && w.now <= pc.dl {
      if Key(pc.ns, c.nameOf(pc.e)) in w.jobs {
        CreateConflictLocal(c, w, p);
        LocalKeeps(c, w, w', p);
      } else {
        CreateRecords(c, w, p);
        CreateOrderly(c, w, p);
        KeepWindows(c, w, w', Some(p));
        Carry(c, w, w', Some(p));
      }
    }
  }

  predicate Wins(w: World, p: Proc) {
    var pc := w.At(p);
    && pc.stage.Prepared? && pc.e in w.recs && w.recs[pc.e].status.Dispatching?
    && w.recs[pc.e].dispatchToken == Some(pc.tok) && w.recs[pc.e].Fits(pc.id)
  }

  lemma CompleteUpdates(c: Config, w: World, p: Proc, committed: bool, acknowledged: bool)
    requires Facts(c, w, p)
    requires Wins(w, p) && (acknowledged || committed)
    ensures RecordUpdate(c, w, StepComplete(c, w, p, committed, acknowledged), Some(p), w.At(p).e)
    ensures StepComplete(c, w, p, committed, acknowledged).recs[w.At(p).e].cleanup == w.recs[w.At(p).e].cleanup
  {
    var pc := w.At(p);
    var r := w.recs[pc.e].With(pc.id).(status := Starting, dispatchToken := None);
    if acknowledged { Changes(c, w, p, pc.e, r, pc.(stage := Completed)); }
    else { Changes(c, w, p, pc.e, r, pc.(stage := Compensating, cause := Unacknowledged)); }
  }

  lemma CompleteLosesUpdates(c: Config, w: World, p: Proc, committed: bool, acknowledged: bool)
    requires Facts(c, w, p)
    requires !Wins(w, p) || (!acknowledged && !committed)
    ensures QuietStep(c, w, StepComplete(c, w, p, committed, acknowledged), p, w.At(p).e)
  {
    var pc := w.At(p);
    if pc.stage.Prepared? {
      var r := w.recs[pc.e];
      Compensates(c, w, p, pc.(stage := Compensating, cause := Unacknowledged));
      Compensates(c, w, p, IDLE);
      if r.status.Terminal() { Compensates(c, w, p, pc.(stage := Compensating, cause := Ended)); }
      if Mismatch(r, pc.id) { Compensates(c, w, p, pc.(stage := Compensating, cause := Lost)); }
    }
  }

  /**
   Only one process holds a dispatch token, so nobody else can create for e or pass the guard of a
   write for it, and nothing is in flight for it.
   */
  lemma TokenHolderIsAlone(c: Config, w: World, p: Proc, e: ExecutionId)
    requires Inv(c, w) && e in w.recs && p in w.procs
    requires WindowToken(w.procs[p]).Some? && !GaveUp(w.procs[p]) && w.recs[e].dispatchToken == WindowToken(w.procs[p])
    ensures forall q :: q in w.procs && Some(q) != Some(p) ==> !LiveWindow(w, w.procs[q], e)
    ensures forall q :: q in w.procs && q != p ==> WindowToken(w.procs[q]) != w.recs[e].dispatchToken
    ensures Prompt(c) ==> NoRequest(w, e)
  {
    forall q | q in w.procs && q != p ensures !LiveWindow(w, w.procs[q], e) {
      assert PcOk(c, w, w.procs[q]);
    }
    forall t | t in w.sent && Prompt(c) ensures !LiveRequest(w, w.sent[t], e) {
      assert RequestOk(c, w, t, w.sent[t]);
    }
  }

  lemma AbandonUpdates(c: Config, w: World, p: Proc)
    requires Facts(c, w, p) && w.At(p).stage.Refreshed?
    requires w.recs[w.At(p).e].status.Dispatching? && w.recs[w.At(p).e].dispatchToken == Some(w.At(p).tok)
    ensures RecordUpdate(c, w, StepAbandonClaim(w, p), Some(p), w.At(p).e)
  {
    assert StepAbandonClaim(w, p).At(p) == IDLE;
  }

  lemma AbandonKeeps(c: Config, w: World, p: Proc)
    requires Inv(c, w)
    ensures Safe(c, w, StepAbandonClaim(w, p))
  {
    FactsHold(c, w, p);
    var pc, w' := w.At(p), StepAbandonClaim(w, p);
    if pc.stage.Refreshed? && w.recs[pc.e].status.Dispatching? && w.recs[pc.e].dispatchToken == Some(pc.tok) {
      AbandonUpdates(c, w, p);
      TokenHolderIsAlone(c, w, p, pc.e);
      KeepOtherWindows(c, w, w', Some(p), pc.e);
      UpdateKeeps(c, w, w', Some(p), pc.e);
    } else if pc.stage.Refreshed? {
      Compensates(c, w, p, IDLE);
      LocalKeeps(c, w, w', p);
    } else {
      Unchanged(c, w);
    }
  }

  lemma CompleteKeeps(c: Config, w: World, p: Proc, committed: bool, acknowledged: bool)
    requires Inv(c, w)
    ensures Safe(c, w, StepComplete(c, w, p, committed, acknowledged))
  {
    FactsHold(c, w, p);
    var pc, w' := w.At(p), StepComplete(c, w, p, committed, acknowledged);
    if Wins(w, p) && (acknowledged || committed) {
      CompleteUpdates(c, w, p, committed, acknowledged);
      TokenHolderIsAlone(c, w, p, pc.e);
      KeepOtherWindows(c, w, w', Some(p), pc.e);
      UpdateKeeps(c, w, w', Some(p), pc.e);
    } else {
      CompleteLosesUpdates(c, w, p, committed, acknowledged);
      QuietStepKeeps(c, w, w', p, pc.e);
    }
  }

  // ----- workloads: starting and removing -----

  /** Activation: the started workload carries the uid of the snapshot, hence of the record. */
  lemma StartActivates(c: Config, w: World, p: Proc)
    requires Facts(c, w, p) && ActiveHeld(w) && w.At(p).stage.StartingUp?
    ensures JobStep(c, w, StepStart(c, w, p), Some(p))
  {
    var pc := w.At(p);
    var k := Key(pc.snap.scope.value, pc.snap.workload.value);
    if k in w.jobs && w.jobs[k].uid == pc.id.uid && w.jobs[k].phase.Suspended? {
      StartedStep(c, w, w.(jobs := w.jobs[k := w.jobs[k].(phase := Active)]), p, k);
    } else {
      StartedStep(c, w, w, p, k);
    }
  }

  lemma StartedStep(c: Config, w: World, v: World, p: Proc, k: Key)
    requires w.At(p).stage.StartingUp? && w.At(p).e in w.recs && Earlier(w.At(p).snap, w.recs[w.At(p).e]) && ActiveHeld(w)
    requires w.At(p).snap.Holds(w.At(p).id) && k == Key(w.At(p).id.scope, w.At(p).id.workload)
    requires v == w || (&& k in w.jobs && w.jobs[k].uid == w.At(p).id.uid && w.jobs[k].owner == w.At(p).e
                        && v == w.(jobs := w.jobs[k := w.jobs[k].(phase := Active)]))
    ensures JobStep(c, w, v.Go(p, w.At(p).(stage := Activated)), Some(p))
  {
    assert v.Go(p, w.At(p).(stage := Activated)).At(p) == w.At(p).(stage := Activated);
  }

  /** Every workload that was started carries the persisted identity. */
  ghost predicate ActiveHeld(w: World) {
    forall k :: k in w.jobs && !w.jobs[k].phase.Suspended? ==>
      w.jobs[k].owner in w.recs && w.recs[w.jobs[k].owner].Holds(Identity(k.scope, k.name, w.jobs[k].uid))
  }

  lemma ActiveHolds(c: Config, w: World)
    requires JobsOk(c, w)
    ensures ActiveHeld(w)
  {
    forall x | x in w.jobs ensures JobOk(c, w, x, w.jobs[x]) {}
  }

  lemma UndoRemoves(c: Config, w: World, p: Proc)
    requires ActiveHeld(w) && w.At(p).stage.Undoing?
    ensures JobStep(c, w, StepUndo(c, w, p), Some(p))
  {
    assert StepUndo(c, w, p).At(p) == IDLE;
  }

  lemma RemoveLeavesGone(c: Config, w: World, p: Proc)
    requires Facts(c, w, p) && JobsOk(c, w) && w.At(p).stage.Removing? && Prompt(c)
    ensures Gone(c, RemoveUid(c, w, w.At(p).e, w.At(p).id), w.At(p).e)
  {
    var pc := w.At(p);
    forall x | x in w.jobs && w.jobs[x].owner == pc.e && x.scope == pc.id.scope
      ensures x == Key(pc.id.scope, c.nameOf(pc.e)) {
      OneWorkloadPerScope(c, w, pc.e, pc.id.scope, x);
    }
  }

  lemma RemovedPcOk(c: Config, w: World, p: Proc)
    requires Facts(c, w, p) && JobsOk(c, w) && w.At(p).stage.Removing?
    ensures PcOk(c, StepRemove(c, w, p), StepRemove(c, w, p).At(p))
  {
    var pc := w.At(p);
    if Prompt(c) { RemoveLeavesGone(c, w, p); }
    var v := RemoveUid(c, w, pc.e, pc.id);
    var pc' := pc.(stage := Finishing, outcome := if w.now <= pc.dl then Removed else Transient);
    SameLive(c, w, v, pc.e);
    assert CleanerOk(c, v, pc');
    PcAfterGo(c, v, p, pc');
  }

  lemma SameLive(c: Config, w: World, v: World, e: ExecutionId)
    requires NoLive(c, w, e) && v.procs == w.procs && v.sent == w.sent && v.now == w.now
    ensures NoLive(c, v, e)
  {
    forall q | q in v.procs ensures !LiveWindow(v, v.procs[q], e) { assert !LiveWindow(w, w.procs[q], e); }
    forall t | t in v.sent && Prompt(c) ensures !LiveRequest(v, v.sent[t], e) { assert !LiveRequest(w, w.sent[t], e); }
  }

  lemma RemoveRemoves(c: Config, w: World, p: Proc)
    requires ActiveHeld(w) && w.At(p).stage.Removing? && PcOk(c, StepRemove(c, w, p), StepRemove(c, w, p).At(p))
    ensures JobStep(c, w, StepRemove(c, w, p), Some(p))
  {
    assert StepRemove(c, w, p).At(p).stage.Finishing?;
  }

  // ----- cleanup: record updates -----

  lemma ClaimCleanupUpdates(c: Config, w: World, p: Proc, lease: nat)
    requires Facts(c, w, p)
    ensures QuietStep(c, w, StepClaimCleanup(c, w, p, lease), p, w.At(p).e)
  {
    var pc := w.At(p);
    if pc.stage.Candidate? {
      Compensates(c, w, p, IDLE);
      if RetentionOver(c, w.now, pc.snap) && CleanupClaimable(w, w.recs[pc.e], lease) { ClaimedCleanup(c, w, p, lease); }
    }
  }

  lemma ClaimedCleanup(c: Config, w: World, p: Proc, lease: nat)
    requires Facts(c, w, p) && w.At(p).stage.Candidate?
    requires RetentionOver(c, w.now, w.At(p).snap) && CleanupClaimable(w, w.recs[w.At(p).e], lease)
    ensures var pc, tok := w.At(p), w.nextToken;
            QuietStep(c, w, w.Put(pc.e, w.recs[pc.e].(cleanupToken := Some(tok), cleanupAt := w.now)).(nextToken := tok + 1)
                            .Go(p, pc.(stage := CleanClaimed, tok := tok, lease := lease)), p, pc.e)
  {
    var pc, tok := w.At(p), w.nextToken;
    var r := w.recs[pc.e].(cleanupToken := Some(tok), cleanupAt := w.now);
    var pc' := pc.(stage := CleanClaimed, tok := tok, lease := lease);
    var w' := w.Put(pc.e, r).(nextToken := tok + 1).Go(p, pc');
    assert w'.At(p) == pc';
    assert Cleaning(c, w', pc.e, tok);
    Leases(c, w, w', p, pc.e);
  }

  lemma Leases(c: Config, w: World, w': World, p: Proc, e: ExecutionId)
    requires e in w.recs && RecordOk(c, w, e, w.recs[e]) && w.recs[e].cleanup.Pending?
    requires w' == w.Put(e, w.recs[e].(cleanupToken := Some(w.nextToken), cleanupAt := w.now)).(nextToken := w.nextToken + 1).Go(p, w'.At(p))
    requires w'.At(p).stage.CleanClaimed? && w'.At(p).e == e && w'.At(p).tok == w.nextToken && Cleaning(c, w', e, w.nextToken)
    ensures QuietStep(c, w, w', p, e)
  {
  }

  lemma BindUpdates(c: Config, w: World, p: Proc)
    requires Facts(c, w, p) && w.At(p).stage.Binding? && w.now <= w.At(p).dl
    requires HoldsCleanup(w.recs[w.At(p).e], w.At(p).tok) && w.recs[w.At(p).e].Fits(w.At(p).id)
    ensures RecordUpdate(c, w, StepBind(c, w, p), Some(p), w.At(p).e)
    ensures StepBind(c, w, p).recs[w.At(p).e].cleanup == w.recs[w.At(p).e].cleanup
  {
    var pc, w' := w.At(p), StepBind(c, w, p);
    var v := w.Put(pc.e, w.recs[pc.e].With(pc.id));
    SameLive(c, w, v, pc.e);
    PcAfterGo(c, v, p, pc.(stage := Bound));
    assert w'.At(p) == pc.(stage := Bound);
  }

  lemma BindKeeps(c: Config, w: World, p: Proc)
    requires Inv(c, w)
    ensures Safe(c, w, StepBind(c, w, p))
  {
    FactsHold(c, w, p);
    var pc, w' := w.At(p), StepBind(c, w, p);
    if pc.stage.Binding? && w.now <= pc.dl {
      var r := w.recs[pc.e];
      if HoldsCleanup(r, pc.tok) && r.Fits(pc.id) {
        BindUpdates(c, w, p);
        KeepOtherWindows(c, w, w', Some(p), pc.e);
        UpdateKeeps(c, w, w', Some(p), pc.e);
      } else {
        CleanerFinishes(c, w, p, if HoldsCleanup(r, pc.tok) then Permanent else Transient);
        LocalKeeps(c, w, w', p);
      }
    }
  }

  lemma FinishUpdates(c: Config, w: World, p: Proc, backoff: nat)
    requires Facts(c, w, p) && w.At(p).stage.Finishing?
    ensures var w' := StepFinish(c, w, p, backoff);
            LocalStep(c, w, w', p) || RecordUpdate(c, w, w', Some(p), w.At(p).e)
  {
    var pc := w.At(p);
    if HoldsCleanup(w.recs[pc.e], pc.tok) {
      ConcludedOk(c, w, p, backoff);
      Changes(c, w, p, pc.e, Concluded(w.now, w.recs[pc.e], pc.outcome, backoff), pc.(stage := Releasing));
    } else {
      Moves(c, w, p, pc.(stage := Releasing));
    }
  }

  lemma ConcludedOk(c: Config, w: World, p: Proc, backoff: nat)
    requires Facts(c, w, p) && w.At(p).stage.Finishing? && HoldsCleanup(w.recs[w.At(p).e], w.At(p).tok)
    ensures var e := w.At(p).e; var r := Concluded(w.now, w.recs[e], w.At(p).outcome, backoff);
            RecordStep(w.nextToken, w.recs[e], r) && RecordOk(c, w, e, r)
  {
  }

  lemma FinishGone(c: Config, w: World, p: Proc, backoff: nat)
    requires Facts(c, w, p) && w.At(p).stage.Finishing? && w.At(p).outcome.Removed? && Prompt(c)
    ensures Gone(c, StepFinish(c, w, p, backoff), w.At(p).e)
  {
  }

  lemma FinishKeeps(c: Config, w: World, p: Proc, backoff: nat)
    requires Inv(c, w)
    ensures Safe(c, w, StepFinish(c, w, p, backoff))
  {
    FactsHold(c, w, p);
    var pc, w' := w.At(p), StepFinish(c, w, p, backoff);
    if pc.stage.Finishing? {
      FinishUpdates(c, w, p, backoff);
      if LocalStep(c, w, w', p) {
        LocalKeeps(c, w, w', p);
      } else if pc.outcome.Removed? {
        FinishDoneKeeps(c, w, p, backoff);
      } else {
        QuietKeeps(c, w, w', Some(p), pc.e);
      }
    } else {
      Unchanged(c, w);
    }
  }

  lemma FinishDoneKeeps(c: Config, w: World, p: Proc, backoff: nat)
    requires Inv(c, w) && w.At(p).stage.Finishing? && w.At(p).outcome.Removed?
    requires RecordUpdate(c, w, StepFinish(c, w, p, backoff), Some(p), w.At(p).e)
    ensures Safe(c, w, StepFinish(c, w, p, backoff))
  {
    var pc, w' := w.At(p), StepFinish(c, w, p, backoff);
    FactsHold(c, w, p);
    if Prompt(c) { FinishGone(c, w, p, backoff); }
    KeepOtherWindows(c, w, w', Some(p), pc.e);
    UpdateKeeps(c, w, w', Some(p), pc.e);
  }

  lemma ReleaseUpdates(c: Config, w: World, p: Proc)
    requires Facts(c, w, p)
    ensures QuietStep(c, w, StepRelease(c, w, p), p, w.At(p).e)
  {
    var pc := w.At(p);
    if pc.stage.Releasing? {
      Compensates(c, w, p, IDLE);
      Rewrites(c, w, p, pc.e, w.recs[pc.e].(cleanupToken := None), IDLE);
    }
  }
}

/** Reachable runs, for any configuration: what the protocol can do, and where it fails its promises. */
module RuntimeExamples {
  import opened Prelude
  import opened RuntimeProtocol
  import opened RuntimeSafety
  import opened RuntimeTheorems
  import opened RuntimeScopes
  import opened RuntimeFlows

  // ----- the protocol can finish -----

  /** Dispatch, success and cleanup run through: the workload ran under its persisted identity and is gone. */
  lemma LifecycleCompletes(c: Config, ns: Scope) returns (w: World)
    requires c.dispatchLease >= 2 && Configured(c, ns)
    ensures Reachable(c, w) && 0 in w.recs && w.recs[0].status.Succeeded? && w.recs[0].cleanup.Done?
    ensures w.recs[0].Holds(Identity(ScopeOf(c, ns), c.nameOf(0), 0)) && w.jobs == map[]
  {
    var w0 := Begins(c);
    var w1, id := Dispatches(c, w0, 0, 0, ns, true);
    var w2 := Starts(c, w1, 1, 0, id);
    w := CleansUp(c, w2, 2, 0, id);
  }

  // ----- compensation -----

  /** p is about to remove the workload k under `cause`. */
  predicate AboutToUndo(c: Config, w: World, p: Proc, k: Key, cause: Cause) {
    w.At(p).stage.Undoing? && Names(c, w, w.At(p), k) && w.At(p).cause == cause
  }

  lemma Inspects(c: Config, w: World, p: Proc, e: ExecutionId, id: Identity) returns (w': World)
    requires Reachable(c, w) && w.At(p).stage.Compensating? && w.At(p).e == e && w.At(p).id == id && id.workload == c.nameOf(e)
    requires var k := Key(id.scope, id.workload); k in w.jobs && w.jobs[k].owner == e && w.jobs[k].uid == id.uid
    ensures Reachable(c, w') && w'.jobs == w.jobs && w'.recs == w.recs && w'.now == w.now
    ensures AboutToUndo(c, w', p, Key(id.scope, id.workload), w.At(p).cause)
  {
    w' := StepInspectForUndo(c, w, p);
    ReachableStep(c, w, Activate(p, InspectForUndo));
  }

  /** The running workload of a running execution, which the process is about to remove. */
  predicate Fatal(c: Config, w: World, p: Proc, k: Key, cause: Cause) {
    AboutToUndo(c, w, p, k, cause) && InUse(w, k) && w.jobs[k].phase.Active? && w.recs[w.jobs[k].owner].status.Running?
  }

  lemma FatalRun(c: Config, w: World, p: Proc, e: ExecutionId, id: Identity) returns (w': World)
    requires Reachable(c, w) && w.At(p).stage.Compensating? && w.At(p).e == e && w.At(p).id == id && id.workload == c.nameOf(e)
    requires e in w.recs && w.recs[e].status.Running? && w.recs[e].Holds(id)
    requires Key(id.scope, id.workload) in w.jobs && w.jobs[Key(id.scope, id.workload)] == Job(id.uid, e, Active)
    ensures Reachable(c, w') && Fatal(c, w', p, Key(id.scope, id.workload), w.At(p).cause)
  {
    w' := Inspects(c, w, p, e, id);
  }

  /** The identity write committed but was not acknowledged; another server activated the workload meanwhile. */
  lemma UnacknowledgedIsFatal(c: Config, ns: Scope) returns (w: World, k: Key)
    requires c.dispatchLease >= 2 && Configured(c, ns)
    ensures Reachable(c, w) && Fatal(c, w, 0, k, Unacknowledged)
  {
    var w0 := Begins(c);
    var w1, id := Dispatches(c, w0, 0, 0, ns, false);
    var w2 := Starts(c, w1, 1, 0, id);
    w := FatalRun(c, w2, 0, 0, id);
    k := Key(id.scope, id.workload);
  }

  lemma Reloads(c: Config, w: World, p: Proc, e: ExecutionId, id: Identity, readable: bool) returns (w': World)
    requires Reachable(c, w) && w.At(p).stage.Completed? && w.At(p).e == e && w.At(p).id == id && e in w.recs
    requires !readable || w.recs[e].status.Running?
    ensures Reachable(c, w') && Alone(w, w', p) && w'.jobs == w.jobs && w'.recs == w.recs
    ensures w'.At(p) == w.At(p).(stage := Compensating, cause := if readable then Overtaken else ReloadFailed)
  {
    w' := StepReloadPrepared(c, w, p, readable);
    ReachableStep(c, w, Activate(p, ReloadPrepared(readable)));
  }

  /** The record could not be read back; another server activated the workload meanwhile. */
  lemma ReloadFailedIsFatal(c: Config, ns: Scope) returns (w: World, k: Key)
    requires c.dispatchLease >= 2 && Configured(c, ns)
    ensures Reachable(c, w) && Fatal(c, w, 0, k, ReloadFailed)
  {
    var w0 := Begins(c);
    var w1, id := Dispatches(c, w0, 0, 0, ns, true);
    var w2 := Reloads(c, w1, 0, 0, id, false);
    var w3 := Starts(c, w2, 1, 0, id);
    w := FatalRun(c, w3, 0, 0, id);
    k := Key(id.scope, id.workload);
  }

  /** No error at all: another server was so fast that the record is read back as running. */
  lemma OvertakenIsFatal(c: Config, ns: Scope) returns (w: World, k: Key)
    requires c.dispatchLease >= 2 && Configured(c, ns)
    ensures Reachable(c, w) && Fatal(c, w, 0, k, Overtaken)
  {
    var w0 := Begins(c);
    var w1, id := Dispatches(c, w0, 0, 0, ns, true);
    var w2 := Starts(c, w1, 1, 0, id);
    var w3 := Reloads(c, w2, 0, 0, id, true);
    w := FatalRun(c, w3, 0, 0, id);
    k := Key(id.scope, id.workload);
  }

  /** p activates what it dispatched, and its agent reports in. */
  lemma Activates(c: Config, w: World, p: Proc, e: ExecutionId, id: Identity) returns (w': World)
    requires Reachable(c, w) && w.At(p).stage.Completed? && Made(c, w, p, e, id) && e in w.recs
    requires w.recs[e].status.Starting? && w.recs[e].Holds(id)
    ensures Reachable(c, w') && w'.recs == w.recs[e := w.recs[e].(status := Running)] && w'.now == w.now
    ensures w'.jobs == w.jobs[Key(id.scope, id.workload) := Job(id.uid, e, Active)]
    ensures var pc := w'.At(p); pc.stage.Activated? && pc.e == e && pc.snap.Complete() && pc.snap.Identify() == id && pc.dispatching
  {
    var w1 := StepReloadPrepared(c, w, p, true);
    ReachableStep(c, w, Activate(p, ReloadPrepared(true)));
    assert w1 == w.Go(p, w.At(p).(stage := Activating, snap := w.recs[e], dispatching := true));
    var w2 := StepInspectForActivate(c, w1, p);
    ReachableStep(c, w1, Activate(p, InspectForActivate));
    assert w2 == w1.Go(p, w1.At(p).(stage := StartingUp, id := id));
    w' := Runs(c, w2, p, e, id);
  }

  lemma Checks(c: Config, w: World, p: Proc, permanent: bool) returns (w': World)
    requires Reachable(c, w) && w.At(p).stage.Activated? && w.At(p).e in w.recs && w.At(p).snap.Complete() && w.At(p).dispatching
    requires w.recs[w.At(p).e].status.Terminal() || permanent
    ensures Reachable(c, w') && w'.jobs == w.jobs && w'.recs == w.recs && w'.now == w.now
    ensures var pc := w'.At(p); pc.stage.Compensating? && pc.e == w.At(p).e && pc.id == w.At(p).snap.Identify()
    ensures w'.At(p).cause == if w.recs[w.At(p).e].status.Terminal() then Ended else Unterminated
  {
    w' := StepCheckActivated(c, w, p, permanent, false);
    ReachableStep(c, w, Activate(p, CheckActivated(permanent, false)));
  }

  /** Activation reported a permanent error, and the terminal status could not be written. */
  lemma UnterminatedIsFatal(c: Config, ns: Scope) returns (w: World, k: Key)
    requires c.dispatchLease >= 2 && Configured(c, ns)
    ensures Reachable(c, w) && Fatal(c, w, 0, k, Unterminated)
  {
    var w0 := Begins(c);
    var w1, id := Dispatches(c, w0, 0, 0, ns, true);
    var w2 := Activates(c, w1, 0, 0, id);
    var w3 := Checks(c, w2, 0, true);
    w := FatalRun(c, w3, 0, 0, id);
    k := Key(id.scope, id.workload);
  }

  /**
   The retention period does not bind the dispatcher: the workload of an execution that fails right
   after its activation is removed at once.
   */
  lemma CompensationIgnoresRetention(c: Config, ns: Scope) returns (w: World, k: Key)
    requires c.dispatchLease >= 2 && Configured(c, ns)
    ensures Reachable(c, w) && AboutToUndo(c, w, 0, k, Ended) && w.jobs[k].phase.Active?
    ensures var e := w.jobs[k].owner; e in w.recs && w.recs[e].status.Failed? && w.recs[e].completedAt == Some(w.now)
    ensures w.recs[w.jobs[k].owner].Holds(Identity(k.scope, k.name, w.jobs[k].uid))
  {
    var w0 := Begins(c);
    var w1, id := Dispatches(c, w0, 0, 0, ns, true);
    var w2 := Activates(c, w1, 0, 0, id);
    var w3 := Terminates(c, w2, 0, Failed);
    assert w3.At(0) == w2.At(0);
    var w4 := Checks(c, w3, 0, false);
    w := Inspects(c, w4, 0, 0, id);
    k := Key(id.scope, id.workload);
  }

  // ----- two namespaces -----

  /** A server in namespace a crashes before it persists; a server in namespace b dispatches again. */
  lemma TwoWorkloads(c: Config, a: Scope, b: Scope) returns (w: World, id: Identity)
    requires c.dispatchLease >= 2 && c.backend.Kubernetes? && a in c.namespaces && b in c.namespaces && a != b
    ensures Reachable(c, w) && 0 in w.recs && id == Identity(b, c.nameOf(0), 1) && w.At(2) == IDLE
    ensures w.jobs == map[Key(a, c.nameOf(0)) := Job(0, 0, Suspended), Key(b, c.nameOf(0)) := Job(1, 0, Suspended)]
    ensures w.recs[0].status.Starting? && w.recs[0].Holds(id) && Unclean(w.recs[0])
  {
    var w0 := Begins(c);
    var w1 := Readies(c, w0, 0, 0, a);
    var w2 := Creates(c, w1, 0);
    var w3 := Waits(c, w2, c.dispatchLease);
    w, id := Dispatches(c, w3, 1, 0, b, true);
  }

  /** Cleanup of that execution ends done, and its workload in namespace a stays. */
  lemma DoneLeavesStray(c: Config, a: Scope, b: Scope) returns (w: World, k: Key)
    requires c.dispatchLease >= 2 && c.backend.Kubernetes? && a in c.namespaces && b in c.namespaces && a != b
    ensures Reachable(c, w) && 0 in w.recs && w.recs[0].cleanup.Done? && k in w.jobs && w.jobs[k].owner == 0
  {
    var w1, id := TwoWorkloads(c, a, b);
    w := CleansUp(c, w1, 2, 0, id);
    k := Key(a, c.nameOf(0));
  }

  // ----- a late request -----

  lemma LosesReply(c: Config, w: World, p: Proc) returns (w': World)
    requires Reachable(c, w) && w.At(p).stage.Creating? && w.now <= w.At(p).dl
    ensures Reachable(c, w') && Alone(w, w', p) && w'.recs == w.recs && w'.jobs == w.jobs && w'.nextUid == w.nextUid
    ensures w'.sent == w.sent[w.At(p).tok := Request(w.At(p).e, w.At(p).ns, w.At(p).dl + c.lag)]
  {
    w' := StepLoseReply(c, w, p);
    ReachableStep(c, w, Dispatch(p, LoseReply));
  }

  lemma Lands(c: Config, w: World, t: Token) returns (w': World)
    requires Reachable(c, w) && t in w.sent && w.now <= w.sent[t].until && Key(w.sent[t].scope, c.nameOf(w.sent[t].e)) !in w.jobs
    ensures Reachable(c, w') && w'.recs == w.recs
    ensures w'.jobs == w.jobs[Key(w.sent[t].scope, c.nameOf(w.sent[t].e)) := Job(w.nextUid, w.sent[t].e, Suspended)]
  {
    w' := StepLand(c, w, t);
    ReachableStep(c, w, Environment(Land(t)));
  }

  /**
   A create request that takes at least the half lease left at its deadline lands after the execution
   was dispatched again, ended, and was recorded as cleaned up.
   */
  lemma LateRequestRevives(c: Config, ns: Scope) returns (w: World)
    requires c.dispatchLease >= 2 && c.lag >= c.dispatchLease - c.dispatchLease / 2 && Configured(c, ns)
    ensures Reachable(c, w) && 0 in w.recs && w.recs[0].cleanup.Done? && !Gone(c, w, 0)
    ensures exists k :: k in w.jobs && w.jobs[k].owner == 0
  {
    var w0 := Begins(c);
    var w1 := Readies(c, w0, 0, 0, ns);
    var w2 := LosesReply(c, w1, 0);
    var w3 := Waits(c, w2, c.dispatchLease);
    var w4, id := Dispatches(c, w3, 1, 0, ns, true);
    var w5 := CleansUp(c, w4, 2, 0, id);
    w := Lands(c, w5, 0);
    assert Key(ScopeOf(c, ns), c.nameOf(0)) in w.jobs && w.jobs[Key(ScopeOf(c, ns), c.nameOf(0))].owner == 0;
  }
}

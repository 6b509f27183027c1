/** Exactly when the promises of the runtime protocol hold, over every run of a configuration. */
module RuntimeExact {
  import opened Prelude
  import opened RuntimeProtocol
  import opened RuntimeSafety
  import opened RuntimeTheorems
  import opened RuntimeScopes
  import opened RuntimeExamples

  /** Some server can work at all. */
  predicate Usable(c: Config) { c.backend.Docker? || c.namespaces != {} }

  lemma SomeNamespace(c: Config) returns (ns: Scope)
    requires Usable(c)
    ensures Configured(c, ns)
  {
    if c.backend.Docker? { ns := 0; } else { ns :| ns in c.namespaces; }
  }

  /** Whenever cleanup is recorded done, no workload of the execution is left in its proven scope. */
  ghost predicate DoneMeansGoneAlways(c: Config) {
    forall w: World, e: ExecutionId :: Reachable(c, w) && e in w.recs && w.recs[e].cleanup.Done? ==> Gone(c, w, e)
  }

  /** That holds exactly if a create request cannot land later than the half lease left at its deadline. */
  lemma DoneMeansGoneIff(c: Config)
    requires Usable(c)
    ensures DoneMeansGoneAlways(c) <==> Prompt(c)
  {
    if Prompt(c) {
      forall w: World, e: ExecutionId | Reachable(c, w) && e in w.recs && w.recs[e].cleanup.Done? ensures Gone(c, w, e) {
        ReachableInv(c, w);
      }
    } else {
      var ns := SomeNamespace(c);
      var w := LateRequestRevives(c, ns);
    }
  }

  /** No execution ever has two workloads, of any phase. */
  ghost predicate OneWorkloadAlways(c: Config) {
    forall w: World, k: Key, k': Key ::
      Reachable(c, w) && k in w.jobs && k' in w.jobs && w.jobs[k].owner == w.jobs[k'].owner ==> k == k'
  }

  /** That holds exactly if all servers work in one scope, as on Docker (or can never dispatch). */
  lemma OneWorkloadIff(c: Config)
    ensures OneWorkloadAlways(c) <==> OneScope(c) || c.dispatchLease < 2
  {
    if OneScope(c) {
      forall w: World, k: Key, k': Key | Reachable(c, w) && k in w.jobs && k' in w.jobs && w.jobs[k].owner == w.jobs[k'].owner
        ensures k == k'
      {
        OneScopeWorkloads(c, w, k, k');
      }
    } else if c.dispatchLease < 2 {
      forall w: World, k: Key | Reachable(c, w) ensures k !in w.jobs { NeverAny(c, w, k); }
    } else {
      var a, b :| a in c.namespaces && b in c.namespaces && a != b;
      var w, id := TwoWorkloads(c, a, b);
      assert Key(a, c.nameOf(0)) in w.jobs && Key(b, c.nameOf(0)) in w.jobs;
    }
  }

  lemma NeverAny(c: Config, w: World, k: Key)
    requires c.dispatchLease < 2 && Reachable(c, w)
    ensures k !in w.jobs
  {
    ReachableInv(c, w);
    assert k in w.jobs ==> JobOk(c, w, k, w.jobs[k]);
  }

  /** Whenever cleanup is recorded done, no workload of the execution is left anywhere. */
  ghost predicate NothingLeftAlways(c: Config) {
    forall w: World, e: ExecutionId, k: Key ::
      Reachable(c, w) && e in w.recs && w.recs[e].cleanup.Done? && k in w.jobs ==> w.jobs[k].owner != e
  }

  /** That takes both. */
  lemma NothingLeftIff(c: Config)
    requires Usable(c)
    ensures NothingLeftAlways(c) <==> (Prompt(c) && OneScope(c)) || c.dispatchLease < 2
  {
    if c.dispatchLease < 2 {
      forall w: World, k: Key | Reachable(c, w) ensures k !in w.jobs { NeverAny(c, w, k); }
    } else if Prompt(c) && OneScope(c) {
      forall w: World, e: ExecutionId, k: Key | Reachable(c, w) && e in w.recs && w.recs[e].cleanup.Done? && k in w.jobs
        ensures w.jobs[k].owner != e
      {
        OneScopeDone(c, w, e, k);
      }
    } else if !Prompt(c) {
      var ns := SomeNamespace(c);
      var w := LateRequestRevives(c, ns);
      var k :| k in w.jobs && w.jobs[k].owner == 0;
    } else {
      var a, b :| a in c.namespaces && b in c.namespaces && a != b;
      var w, k := DoneLeavesStray(c, a, b);
    }
  }

  /** A dispatcher that compensates for this cause can be about to remove the workload its execution is using. */
  ghost predicate CanRemoveInUse(c: Config, cause: Cause) {
    exists w: World, p: Proc, k: Key :: Reachable(c, w) && AboutToUndo(c, w, p, k, cause) && InUse(w, k)
  }

  /** Exactly the causes that leave a doubt can: the execution may be running in that very workload. */
  lemma CompensationIff(c: Config, cause: Cause)
    requires Usable(c) && c.dispatchLease >= 2
    ensures CanRemoveInUse(c, cause) <==> cause.Doubtful()
  {
    if cause.Doubtful() {
      var w, k := FatalFor(c, cause);
      assert Reachable(c, w) && AboutToUndo(c, w, 0, k, cause) && InUse(w, k);
    } else {
      forall w: World, p: Proc, k: Key | Reachable(c, w) && AboutToUndo(c, w, p, k, cause) ensures !InUse(w, k) {
        CompensationRemovesOwn(c, w, Activate(p, UndoWorkload), k);
      }
    }
  }

  lemma FatalFor(c: Config, cause: Cause) returns (w: World, k: Key)
    requires Usable(c) && c.dispatchLease >= 2 && cause.Doubtful()
    ensures Reachable(c, w) && Fatal(c, w, 0, k, cause)
  {
    var ns := SomeNamespace(c);
    match cause
    case Unacknowledged => w, k := UnacknowledgedIsFatal(c, ns);
    case ReloadFailed => w, k := ReloadFailedIsFatal(c, ns);
    case Overtaken => w, k := OvertakenIsFatal(c, ns);
    case Unterminated => w, k := UnterminatedIsFatal(c, ns);
  }
}

/** Every action keeps the invariant of the runtime protocol. */
module RuntimeRuns {
  import opened Prelude
  import opened RuntimeProtocol
  import opened RuntimeSafety

  // ----- three shapes of step -----

  ghost predicate WindowEntered(w: World, w': World, p: Proc) {
    var pc, pc' := w.At(p), w'.At(p);
    Window(pc') ==> (Window(pc) && pc.e == pc'.e && pc.dl == pc'.dl) || (pc'.e in w.recs && !w.recs[pc'.e].status.Terminal())
  }

  /** Only process p moves. */
  ghost predicate LocalStep(c: Config, w: World, w': World, p: Proc) {
    w' == w || (w' == w.Go(p, w'.At(p)) && PcOk(c, w, w'.At(p)) && TokenKept(w, w', p) && WindowEntered(w, w', p))
  }

  /** The record of e changes, and at most process p moves; w'' is w' without the move. */
  ghost predicate RecordUpdate(c: Config, w: World, w': World, p: Option<Proc>, e: ExecutionId) {
    && e in w.recs && e in w'.recs
    && w'.now == w.now && w'.jobs == w.jobs && w'.sent == w.sent && w'.nextUid == w.nextUid && w'.nextToken >= w.nextToken
    && w'.recs == w.recs[e := w'.recs[e]]
    && w'.procs == (if p.Some? then w.procs[p.value := w'.At(p.value)] else w.procs)
    && RecordStep(w.nextToken, w.recs[e], w'.recs[e]) && RecordOk(c, w', e, w'.recs[e])
    && (p.Some? ==> PcOk(c, w', w'.At(p.value)) && TokenKept(w, w', p.value) && !Window(w'.At(p.value)))
  }

  /** Workloads only disappear or change phase. */
  ghost predicate JobStep(c: Config, w: World, w': World, p: Option<Proc>) {
    && w'.recs == w.recs && w'.sent == w.sent && w'.now == w.now && w'.nextUid == w.nextUid && w'.nextToken == w.nextToken
    && w'.procs == (if p.Some? then w.procs[p.value := w'.At(p.value)] else w.procs)
    && (forall k :: k in w'.jobs ==>
          && k in w.jobs && w'.jobs[k].uid == w.jobs[k].uid && w'.jobs[k].owner == w.jobs[k].owner
          && (!w'.jobs[k].phase.Suspended? ==>
                && w'.jobs[k].owner in w.recs
                && w.recs[w'.jobs[k].owner].Holds(Identity(k.scope, k.name, w'.jobs[k].uid))))
    && (p.Some? ==> PcOk(c, w', w'.At(p.value)) && WindowToken(w'.At(p.value)).None?)
  }

  lemma NoLiveAfterGo(c: Config, w: World, p: Proc, pc: Pc, e: ExecutionId)
    requires NoLive(c, w, e) && !Window(pc)
    ensures NoLive(c, w.Go(p, pc), e)
  {
    var w' := w.Go(p, pc);
    forall q | q in w'.procs ensures !LiveWindow(w', w'.procs[q], e) {
      if q != p { assert !LiveWindow(w, w.procs[q], e); }
    }
    forall t | t in w'.sent && Prompt(c) ensures !LiveRequest(w', w'.sent[t], e) { assert !LiveRequest(w, w.sent[t], e); }
  }

  lemma PcAfterGo(c: Config, w: World, p: Proc, pc: Pc)
    requires PcOk(c, w, pc)
    ensures PcOk(c, w.Go(p, pc), pc)
  {
    if !Window(pc) && Cleaner(pc) && PastBarrier(pc) { NoLiveAfterGo(c, w, p, pc, pc.e); }
  }

  /** Windows and requests are kept when no record loses its dispatch token or gains an instance. */
  lemma KeepWindows(c: Config, w: World, w': World, p: Option<Proc>)
    requires Inv(c, w) && w.now <= w'.now && w'.recs.Keys == w.recs.Keys
    requires forall e :: e in w.recs ==>
               w'.recs[e].dispatchToken == w.recs[e].dispatchToken && w'.recs[e].instance == w.recs[e].instance
    ensures WindowsKept(c, w, w', p) && RequestsKept(c, w, w')
  {
    forall q | q in w.procs && Some(q) != p && Window(w.procs[q]) && w'.now <= w.procs[q].dl
      ensures && w'.recs[w.procs[q].e].dispatchToken == Some(w.procs[q].tok)
              && w'.recs[w.procs[q].e].instance.None?
    {
      assert PcOk(c, w, w.procs[q]);
    }
    forall t | t in w.sent && w'.now <= w.sent[t].until && Prompt(c)
      ensures w'.recs[w.sent[t].e].dispatchToken == Some(t) && w'.recs[w.sent[t].e].instance.None?
    {
      assert RequestOk(c, w, t, w.sent[t]);
    }
  }

  /** A record's dispatch token changes hands only when nothing else can still create its workload. */
  lemma KeepOtherWindows(c: Config, w: World, w': World, p: Option<Proc>, e: ExecutionId)
    requires Inv(c, w) && w'.now == w.now && e in w.recs && e in w'.recs && w'.recs == w.recs[e := w'.recs[e]]
    requires forall q :: q in w.procs && Some(q) != p ==> !LiveWindow(w, w.procs[q], e)
    requires Prompt(c) ==> NoRequest(w, e)
    ensures WindowsKept(c, w, w', p) && RequestsKept(c, w, w')
  {
    forall q | q in w.procs && Some(q) != p && Window(w.procs[q]) && w'.now <= w.procs[q].dl
      ensures && w.procs[q].e in w'.recs && w'.recs[w.procs[q].e].dispatchToken == Some(w.procs[q].tok)
              && w'.recs[w.procs[q].e].instance.None?
    {
      assert PcOk(c, w, w.procs[q]);
      assert !LiveWindow(w, w.procs[q], e);
    }
    forall t | t in w.sent && w'.now <= w.sent[t].until && Prompt(c)
      ensures w.sent[t].e in w'.recs && w'.recs[w.sent[t].e].dispatchToken == Some(t) && w'.recs[w.sent[t].e].instance.None?
    {
      assert RequestOk(c, w, t, w.sent[t]);
      assert !LiveRequest(w, w.sent[t], e);
    }
  }

  /** What every shape of step does to the facts of others. */
  ghost predicate Orderly(c: Config, w: World, w': World, p: Option<Proc>) {
    Evolves(w, w', p) && Moved(w, w', p) && SentGrows(c, w, w', p)
  }

  lemma LocalOrderly(c: Config, w: World, w': World, p: Proc)
    requires LocalStep(c, w, w', p) && w' != w
    ensures Orderly(c, w, w', Some(p)) && w'.recs == w.recs && w'.jobs == w.jobs
  {
  }

  lemma SameRecords(c: Config, w: World, w': World)
    requires RecordsOk(c, w) && JobsOk(c, w)
    requires w'.recs == w.recs && w'.jobs == w.jobs && w'.now == w.now && w'.nextUid == w.nextUid && w'.nextToken == w.nextToken
    ensures RecordsOk(c, w') && JobsOk(c, w')
  {
    forall x | x in w'.recs ensures RecordOk(c, w', x, w'.recs[x]) { assert RecordOk(c, w, x, w.recs[x]); }
    forall k | k in w'.jobs ensures JobOk(c, w', k, w'.jobs[k]) { assert JobOk(c, w, k, w.jobs[k]); }
  }

  lemma LocalKeeps(c: Config, w: World, w': World, p: Proc)
    requires Inv(c, w) && LocalStep(c, w, w', p)
    ensures Safe(c, w, w')
  {
    if w' != w {
      LocalOrderly(c, w, w', p);
      SameRecords(c, w, w');
      PcAfterGo(c, w, p, w'.At(p));
      KeepWindows(c, w, w', Some(p));
      Carry(c, w, w', Some(p));
    } else {
      Unchanged(c, w);
    }
  }

  lemma Unchanged(c: Config, w: World)
    requires Inv(c, w)
    ensures Safe(c, w, w)
  {
  }

  lemma RecordsAfterUpdate(c: Config, w: World, w': World, p: Option<Proc>, e: ExecutionId)
    requires RecordsOk(c, w) && JobsOk(c, w) && RecordUpdate(c, w, w', p, e)
    ensures RecordsOk(c, w') && JobsOk(c, w')
  {
    forall x | x in w'.recs ensures RecordOk(c, w', x, w'.recs[x]) {
      if x != e { assert RecordOk(c, w, x, w.recs[x]); }
    }
    forall k | k in w'.jobs ensures JobOk(c, w', k, w'.jobs[k]) {
      assert JobOk(c, w, k, w.jobs[k]);
    }
  }

  lemma UpdateKeeps(c: Config, w: World, w': World, p: Option<Proc>, e: ExecutionId)
    requires Inv(c, w) && RecordUpdate(c, w, w', p, e) && WindowsKept(c, w, w', p) && RequestsKept(c, w, w')
    requires Prompt(c) && w'.recs[e].cleanup.Done? && !w.recs[e].cleanup.Done? ==> Gone(c, w', e)
    ensures Safe(c, w, w')
  {
    UpdateOrderly(c, w, w', p, e);
    RecordsAfterUpdate(c, w, w', p, e);
    Carry(c, w, w', p);
  }

  lemma UpdateOrderly(c: Config, w: World, w': World, p: Option<Proc>, e: ExecutionId)
    requires RecordUpdate(c, w, w', p, e)
    ensures Orderly(c, w, w', p)
  {
  }

  /** The common record step: neither the dispatch token nor the instance of e changes. */
  ghost predicate QuietStep(c: Config, w: World, w': World, p: Proc, e: ExecutionId) {
    || LocalStep(c, w, w', p)
    || (&& RecordUpdate(c, w, w', Some(p), e)
        && w'.recs[e].dispatchToken == w.recs[e].dispatchToken && w'.recs[e].instance == w.recs[e].instance
        && (w'.recs[e].cleanup.Done? ==> w.recs[e].cleanup.Done?))
  }

  lemma QuietKeeps(c: Config, w: World, w': World, p: Option<Proc>, e: ExecutionId)
    requires Inv(c, w) && RecordUpdate(c, w, w', p, e)
    requires w'.recs[e].dispatchToken == w.recs[e].dispatchToken && w'.recs[e].instance == w.recs[e].instance
    requires w'.recs[e].cleanup.Done? ==> w.recs[e].cleanup.Done?
    ensures Safe(c, w, w')
  {
    KeepWindows(c, w, w', p);
    UpdateKeeps(c, w, w', p, e);
  }

  lemma QuietStepKeeps(c: Config, w: World, w': World, p: Proc, e: ExecutionId)
    requires Inv(c, w) && QuietStep(c, w, w', p, e)
    ensures Safe(c, w, w')
  {
    if LocalStep(c, w, w', p) { LocalKeeps(c, w, w', p); } else { QuietKeeps(c, w, w', Some(p), e); }
  }

  lemma JobOrderly(c: Config, w: World, w': World, p: Option<Proc>)
    requires RecordsOk(c, w) && JobsOk(c, w) && JobStep(c, w, w', p)
    ensures Orderly(c, w, w', p) && RecordsOk(c, w') && JobsOk(c, w')
  {
    forall k | k in w'.jobs ensures JobOk(c, w', k, w'.jobs[k]) {
      assert JobOk(c, w, k, w.jobs[k]);
    }
    forall x | x in w'.recs ensures RecordOk(c, w', x, w'.recs[x]) {
      assert RecordOk(c, w, x, w.recs[x]);
    }
  }

  lemma JobsKeep(c: Config, w: World, w': World, p: Option<Proc>)
    requires Inv(c, w) && JobStep(c, w, w', p)
    ensures Safe(c, w, w')
  {
    JobOrderly(c, w, w', p);
    KeepWindows(c, w, w', p);
    Carry(c, w, w', p);
  }

  /** The two facts every step of process p starts from. */
  ghost predicate Facts(c: Config, w: World, p: Proc) {
    PcOk(c, w, w.At(p)) && (w.At(p).e in w.recs ==> RecordOk(c, w, w.At(p).e, w.recs[w.At(p).e]))
  }

  lemma FactsHold(c: Config, w: World, p: Proc)
    requires Inv(c, w)
    ensures Facts(c, w, p)
  {
  }
}

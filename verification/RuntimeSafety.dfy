/** What every action of the runtime protocol keeps, and the safety of whole runs. */
module RuntimeSafety {
  import opened Prelude
  import opened RuntimeProtocol

  // ----- the invariant -----

  /** The time a lost create request may take fits in the half of the lease that is left at its deadline. */
  predicate Prompt(c: Config) { c.dispatchLease < 2 || c.lag < c.dispatchLease - c.dispatchLease / 2 }

  /** A process that may still create a workload: its snapshot is loaded and Prepare has not returned. */
  predicate Window(pc: Pc) { pc.stage.Preparing? || pc.stage.Creating? }

  predicate LiveWindow(w: World, pc: Pc, e: ExecutionId) { Window(pc) && pc.e == e && w.now <= pc.dl }

  predicate LiveRequest(w: World, q: Request, e: ExecutionId) { q.e == e && w.now <= q.until }

  ghost predicate NoWindow(w: World, e: ExecutionId) {
    forall p :: p in w.procs ==> !LiveWindow(w, w.procs[p], e)
  }

  ghost predicate NoRequest(w: World, e: ExecutionId) {
    forall t :: t in w.sent ==> !LiveRequest(w, w.sent[t], e)
  }

  /** Nobody can send a create request for e any more and, with prompt requests, none is in flight. */
  ghost predicate NoLive(c: Config, w: World, e: ExecutionId) { NoWindow(w, e) && (Prompt(c) ==> NoRequest(w, e)) }

  /** No workload of e is left where the record says its runtime lives. */
  ghost predicate Gone(c: Config, w: World, e: ExecutionId) {
    && e in w.recs && ProvenScope(c, w.recs[e]).Some?
    && forall k :: k in w.jobs && k.scope == ProvenScope(c, w.recs[e]).value ==> w.jobs[k].owner != e
  }

  /** s is an earlier version of r: identity members are write-once, terminal outcomes are frozen. */
  predicate Earlier(s: Record, r: Record) {
    && (s.scope.Some? ==> r.scope == s.scope)
    && (s.workload.Some? ==> r.workload == s.workload)
    && (s.instance.Some? ==> r.instance == s.instance)
    && (s.status.Terminal() ==> r.status == s.status && r.completedAt == s.completedAt)
  }

  ghost predicate RecordOk(c: Config, w: World, e: ExecutionId, r: Record) {
    && (r.status.Created? ==> r.dispatchToken.None?) && (r.status.Dispatching? ==> r.dispatchToken.Some?)
    && (r.cleanup.NotNeeded? <==> !r.status.Terminal())
    && (!r.status.Terminal() ==> r.cleanupToken.None? && r.cleanupNextAt.None?)
    && (r.scope.Some? || r.workload.Some? ==> r.instance.Some?)
    && (r.status.Created? || r.status.Dispatching? ==> r.instance.None?)
    && (r.status.Starting? || r.status.Running? ==> r.Complete())
    && (r.instance.Some? ==> r.Complete() && r.workload == Some(c.nameOf(e)) && r.instance.value < w.nextUid)
    && (r.dispatchToken.Some? ==> r.dispatchToken.value < w.nextToken && r.dispatchClaimedAt <= w.now)
    && (r.cleanupToken.Some? ==> r.cleanupToken.value < w.nextToken)
    && (c.backend.Docker? && r.scope.Some? ==> r.scope == Some(DOCKER_SCOPE))
    && (r.status.Terminal() ==> r.completedAt.Some?)
    && (r.cleanup.Done? ==> r.dispatchToken.None? && ProvenScope(c, r).Some?)
  }

  ghost predicate RecordsOk(c: Config, w: World) {
    forall e :: e in w.recs ==> RecordOk(c, w, e, w.recs[e])
  }

  ghost predicate DoneMeansGone(c: Config, w: World) {
    Prompt(c) ==> forall e :: e in w.recs && w.recs[e].cleanup.Done? ==> Gone(c, w, e)
  }

  ghost predicate JobOk(c: Config, w: World, k: Key, j: Job) {
    && j.uid < w.nextUid && j.owner in w.recs && k.name == c.nameOf(j.owner) && c.dispatchLease >= 2
    && (c.backend.Docker? ==> k.scope == DOCKER_SCOPE)
    && (!j.phase.Suspended? ==> w.recs[j.owner].Holds(Identity(k.scope, k.name, j.uid)))
  }

  ghost predicate JobsOk(c: Config, w: World) {
    && (forall k :: k in w.jobs ==> JobOk(c, w, k, w.jobs[k]))
    && (forall k, k' :: k in w.jobs && k' in w.jobs && w.jobs[k].uid == w.jobs[k'].uid ==> k == k')
  }

  /** A request in flight; a prompt one lands under the dispatch claim it was sent with. */
  ghost predicate RequestOk(c: Config, w: World, t: Token, q: Request) {
    && t < w.nextToken && q.e in w.recs && c.dispatchLease >= 2
    && (c.backend.Docker? ==> q.scope == DOCKER_SCOPE)
    && (Prompt(c) && w.now <= q.until ==>
          && w.recs[q.e].dispatchToken == Some(t) && w.recs[q.e].instance.None?
          && q.until - c.lag - c.dispatchLease / 2 <= w.recs[q.e].dispatchClaimedAt)
  }

  /** Whoever sent a request that is in flight has given up on it. */
  ghost predicate SentOk(c: Config, w: World) {
    && (forall t :: t in w.sent ==> RequestOk(c, w, t, w.sent[t]))
    && (forall p, t :: p in w.procs && t in w.sent && WindowToken(w.procs[p]) == Some(t) ==> GaveUp(w.procs[p]))
  }

  predicate GaveUp(pc: Pc) { pc.stage.Failing? || pc.stage.Fenced? }

  /** A member of the identity is already persisted with another value, for good. */
  predicate Mismatch(r: Record, id: Identity) {
    || (r.scope.Some? && r.scope != Some(id.scope))
    || (r.workload.Some? && r.workload != Some(id.workload))
    || (r.instance.Some? && r.instance != Some(id.uid))
  }

  ghost predicate IdentityOk(c: Config, w: World, e: ExecutionId, id: Identity) {
    && id.uid < w.nextUid && id.workload == c.nameOf(e)
    && (c.backend.Docker? ==> id.scope == DOCKER_SCOPE)
  }

  /** Any workload with this uid belongs to e (uids are never reused). */
  ghost predicate Owned(w: World, uid: Uid, e: ExecutionId) {
    uid < w.nextUid && forall k :: k in w.jobs && w.jobs[k].uid == uid ==> w.jobs[k].owner == e
  }

  ghost predicate Cleaning(c: Config, w: World, e: ExecutionId, tok: Token) {
    && e in w.recs && tok < w.nextToken && w.recs[e].status.Terminal() && RetentionOver(c, w.now, w.recs[e])
  }

  ghost predicate WindowOk(c: Config, w: World, pc: Pc)
    requires Window(pc)
  {
    && pc.e in w.recs && pc.tok < w.nextToken && Earlier(pc.snap, w.recs[pc.e])
    && (c.backend.Docker? ==> pc.ns == DOCKER_SCOPE) && c.dispatchLease >= 2
    && (w.now <= pc.dl ==>
          && w.recs[pc.e].dispatchToken == Some(pc.tok) && w.recs[pc.e].instance.None?
          && pc.dl - c.dispatchLease / 2 <= w.recs[pc.e].dispatchClaimedAt)
  }

  predicate Cleaner(pc: Pc) {
    || pc.stage.CleanClaimed? || pc.stage.CleanTimed? || pc.stage.Barrier? || pc.stage.Lookup? || pc.stage.Binding? || pc.stage.Bound?
    || pc.stage.Deleting? || pc.stage.Removing? || pc.stage.Finishing?
  }

  /** Past the preparation barrier nobody can create the workload any more. */
  predicate PastBarrier(pc: Pc) {
    pc.stage.Lookup? || pc.stage.Binding? || pc.stage.Bound? || pc.stage.Deleting? || pc.stage.Removing? || (pc.stage.Finishing? && pc.outcome.Removed?)
  }

  ghost predicate AloneInScope(w: World, e: ExecutionId, id: Identity) {
    forall k :: k in w.jobs && w.jobs[k].owner == e && k.scope == id.scope ==> w.jobs[k].uid == id.uid
  }

  ghost predicate CleanerOk(c: Config, w: World, pc: Pc)
    requires Cleaner(pc)
  {
    && Cleaning(c, w, pc.e, pc.tok)
    && (PastBarrier(pc) ==> NoLive(c, w, pc.e))
    && (pc.stage.Barrier? || pc.stage.Lookup? ==> Earlier(pc.snap, w.recs[pc.e]))
    && (pc.stage.Binding? || pc.stage.Bound? ==> IdentityOk(c, w, pc.e, pc.id))
    && (pc.stage.Deleting? || pc.stage.Removing? ==> w.recs[pc.e].Holds(pc.id))
    && (pc.stage.Removing? ==> Owned(w, pc.id.uid, pc.e) && (Prompt(c) ==> AloneInScope(w, pc.e, pc.id)))
    && (pc.stage.Finishing? && pc.outcome.Removed? ==> ProvenScope(c, w.recs[pc.e]).Some? && (Prompt(c) ==> Gone(c, w, pc.e)))
  }

  /** Without doubt, the execution has ended or never gets this identity. */
  predicate CauseOk(r: Record, id: Identity, cause: Cause) {
    (cause.Ended? ==> r.status.Terminal()) && (cause.Lost? ==> Mismatch(r, id))
  }

  ghost predicate DispatcherOk(c: Config, w: World, pc: Pc)
    requires !Cleaner(pc) && !Window(pc)
  {
    && (!pc.stage.Idle? ==> pc.e in w.recs)
    && match pc.stage
       case Claimed => pc.tok < w.nextToken
       case Timed => pc.tok < w.nextToken && c.dispatchLease >= 2 && pc.dl <= w.now + c.dispatchLease / 2
       case Refreshed =>
         && pc.tok < w.nextToken && c.dispatchLease >= 2
         && (w.recs[pc.e].dispatchToken == Some(pc.tok) ==> pc.dl - c.dispatchLease / 2 <= w.recs[pc.e].dispatchClaimedAt)
       case Prepared => pc.tok < w.nextToken && IdentityOk(c, w, pc.e, pc.id)
       case Failing => pc.tok < w.nextToken
       case Fenced => pc.tok < w.nextToken
       case Completed => IdentityOk(c, w, pc.e, pc.id) && w.recs[pc.e].Holds(pc.id)
       case Activating => Earlier(pc.snap, w.recs[pc.e])
       case StartingUp =>
         Earlier(pc.snap, w.recs[pc.e]) && pc.snap.Complete() && pc.snap.Identify() == pc.id && Owned(w, pc.id.uid, pc.e)
       case Activated => Earlier(pc.snap, w.recs[pc.e])
       case Compensating => pc.id.workload == c.nameOf(pc.e) && CauseOk(w.recs[pc.e], pc.id, pc.cause)
       case Undoing => pc.id.workload == c.nameOf(pc.e) && CauseOk(w.recs[pc.e], pc.id, pc.cause) && Owned(w, pc.id.uid, pc.e)
       case Candidate => Earlier(pc.snap, w.recs[pc.e]) && (pc.snap.status.Terminal() || c.retention <= 0)
       case _ => true
  }

  ghost predicate PcOk(c: Config, w: World, pc: Pc) {
    if Window(pc) then WindowOk(c, w, pc)
    else if Cleaner(pc) then CleanerOk(c, w, pc)
    else DispatcherOk(c, w, pc)
  }

  ghost predicate ProcsOk(c: Config, w: World) {
    forall p :: p in w.procs ==> PcOk(c, w, w.procs[p])
  }

  function WindowToken(pc: Pc): Option<Token> {
    if pc.stage.Claimed? || pc.stage.Timed? || pc.stage.Refreshed? || Window(pc) || pc.stage.Prepared? || GaveUp(pc) then Some(pc.tok) else None
  }

  ghost predicate TokensDistinct(w: World) {
    forall p, q :: p in w.procs && q in w.procs && p != q && WindowToken(w.procs[p]).Some?
      ==> WindowToken(w.procs[p]) != WindowToken(w.procs[q])
  }

  ghost predicate Inv(c: Config, w: World) {
    RecordsOk(c, w) && DoneMeansGone(c, w) && JobsOk(c, w) && SentOk(c, w) && ProcsOk(c, w) && TokensDistinct(w)
  }

  /** A step that keeps the invariant and respects the write-once store. */
  ghost predicate Safe(c: Config, w: World, w': World) {
    && Inv(c, w')
    && w'.recs.Keys == w.recs.Keys && forall e :: e in w.recs ==> RecordStep(w.nextToken, w.recs[e], w'.recs[e])
  }

  // ----- what one action may do to the facts other processes rely on -----

  predicate RecordStep(nextToken: Token, r: Record, r': Record) {
    && Earlier(r, r')
    && (r.cleanup.Done? ==> r'.cleanup.Done?) && (r.cleanup.Blocked? ==> r'.cleanup.Blocked? || r'.cleanup.Pending?)
    && (r'.dispatchToken == r.dispatchToken ==> r'.dispatchClaimedAt >= r.dispatchClaimedAt)
    && (r'.dispatchToken != r.dispatchToken && r'.dispatchToken.Some? ==> !r.status.Terminal())
    && (r'.dispatchToken != r.dispatchToken && r'.dispatchToken.Some? ==> r'.dispatchToken.value >= nextToken)
  }

  ghost predicate Evolves(w: World, w': World, p: Option<Proc>) {
    && w.now <= w'.now && w.nextUid <= w'.nextUid && w.nextToken <= w'.nextToken
    && w'.recs.Keys == w.recs.Keys
    && (forall e :: e in w.recs ==> RecordStep(w.nextToken, w.recs[e], w'.recs[e]))
    && (forall k :: k in w'.jobs ==>
          || (k in w.jobs && w'.jobs[k].uid == w.jobs[k].uid && w'.jobs[k].owner == w.jobs[k].owner)
          || (w'.jobs[k].uid >= w.nextUid && !(NoWindow(w, w'.jobs[k].owner) && NoRequest(w, w'.jobs[k].owner))))
    && (forall t :: t in w'.sent ==>
          (t in w.sent && w'.sent[t] == w.sent[t]) || !NoWindow(w, w'.sent[t].e))
  }

  /** At most process p moved; a window it enters is for an execution still in dispatch. */
  ghost predicate Moved(w: World, w': World, p: Option<Proc>) {
    && (forall q :: q in w'.procs && Some(q) != p ==> q in w.procs && w'.procs[q] == w.procs[q])
    && (p.Some? ==> var pc, pc' := w.At(p.value), w'.At(p.value);
        Window(pc') ==>
          || (Window(pc) && pc.e == pc'.e && pc.dl == pc'.dl)
          || (pc'.e in w.recs && !w.recs[pc'.e].status.Terminal()))
  }

  /** A live window of another process keeps its dispatch lease and still sees no instance. */
  ghost predicate WindowsKept(c: Config, w: World, w': World, p: Option<Proc>) {
    forall q :: q in w.procs && Some(q) != p && Window(w.procs[q]) && w'.now <= w.procs[q].dl && w.procs[q].e in w'.recs ==>
      && w'.recs[w.procs[q].e].dispatchToken == Some(w.procs[q].tok)
      && w'.recs[w.procs[q].e].instance.None?
  }

  /** So does a prompt request in flight. */
  ghost predicate RequestsKept(c: Config, w: World, w': World) {
    Prompt(c) ==> forall t :: t in w.sent && w'.now <= w.sent[t].until && w.sent[t].e in w'.recs ==>
      && w'.recs[w.sent[t].e].dispatchToken == Some(t)
      && w'.recs[w.sent[t].e].instance.None?
  }

  /** A request that is new was sent in a live window of p, which gives up on it. */
  ghost predicate SentGrows(c: Config, w: World, w': World, p: Option<Proc>) {
    forall t :: t in w'.sent ==>
      || (t in w.sent && w'.sent[t] == w.sent[t])
      || (&& p.Some? && Window(w.At(p.value)) && w.At(p.value).tok == t && GaveUp(w'.At(p.value)) && w'.At(p.value).tok == t
          && RequestOk(c, w', t, w'.sent[t]))
  }

  lemma TerminalKeepsNoLive(c: Config, w: World, w': World, p: Option<Proc>, e: ExecutionId)
    requires Evolves(w, w', p) && Moved(w, w', p)
    requires e in w.recs && w.recs[e].status.Terminal() && NoLive(c, w, e)
    ensures NoLive(c, w', e)
  {
    forall q | q in w'.procs ensures !LiveWindow(w', w'.procs[q], e) {
      if q in w.procs { assert !LiveWindow(w, w.procs[q], e); }
    }
  }

  lemma GoneStays(c: Config, w: World, w': World, p: Option<Proc>, e: ExecutionId)
    requires Evolves(w, w', p) && NoLive(c, w, e) && Prompt(c) && Gone(c, w, e)
    ensures Gone(c, w', e)
  {
    assert RecordStep(w.nextToken, w.recs[e], w'.recs[e]);
  }

  /** A finished cleanup leaves no dispatch lease, hence nothing that could still create a workload. */
  lemma DoneHasNoLive(c: Config, w: World, e: ExecutionId)
    requires Inv(c, w) && e in w.recs && w.recs[e].dispatchToken.None?
    ensures NoLive(c, w, e)
  {
    forall p | p in w.procs ensures !LiveWindow(w, w.procs[p], e) { assert PcOk(c, w, w.procs[p]); }
    forall t | t in w.sent && Prompt(c) ensures !LiveRequest(w, w.sent[t], e) { assert RequestOk(c, w, t, w.sent[t]); }
  }

  lemma WindowStable(c: Config, w: World, w': World, p: Option<Proc>, pc: Pc)
    requires Window(pc) && WindowOk(c, w, pc) && Evolves(w, w', p)
    requires w'.now <= pc.dl ==>
               pc.e in w'.recs && w'.recs[pc.e].dispatchToken == Some(pc.tok) && w'.recs[pc.e].instance.None?
    ensures WindowOk(c, w', pc)
  {
    assert RecordStep(w.nextToken, w.recs[pc.e], w'.recs[pc.e]);
  }

  lemma RequestStable(c: Config, w: World, w': World, p: Option<Proc>, t: Token, q: Request)
    requires RequestOk(c, w, t, q) && Evolves(w, w', p)
    requires Prompt(c) && w'.now <= q.until ==> w'.recs[q.e].dispatchToken == Some(t) && w'.recs[q.e].instance.None?
    ensures RequestOk(c, w', t, q)
  {
    assert RecordStep(w.nextToken, w.recs[q.e], w'.recs[q.e]);
  }

  lemma AloneStable(c: Config, w: World, w': World, p: Option<Proc>, e: ExecutionId, id: Identity)
    requires Evolves(w, w', p) && NoLive(c, w, e) && Prompt(c) && AloneInScope(w, e, id)
    ensures AloneInScope(w', e, id)
  {
  }

  lemma CleaningStable(c: Config, w: World, w': World, p: Option<Proc>, e: ExecutionId, tok: Token)
    requires Evolves(w, w', p) && Cleaning(c, w, e, tok)
    ensures Cleaning(c, w', e, tok)
  {
    assert RecordStep(w.nextToken, w.recs[e], w'.recs[e]);
  }

  lemma CleanerSnapshotStable(c: Config, w: World, w': World, p: Option<Proc>, pc: Pc)
    requires Cleaner(pc) && CleanerOk(c, w, pc) && Evolves(w, w', p)
    ensures pc.e in w'.recs
    ensures pc.stage.Barrier? || pc.stage.Lookup? ==> Earlier(pc.snap, w'.recs[pc.e])
    ensures pc.stage.Binding? || pc.stage.Bound? ==> IdentityOk(c, w', pc.e, pc.id)
    ensures pc.stage.Deleting? || pc.stage.Removing? ==> w'.recs[pc.e].Holds(pc.id)
    ensures pc.stage.Removing? ==> Owned(w', pc.id.uid, pc.e)
    ensures pc.stage.Finishing? && pc.outcome.Removed? ==> ProvenScope(c, w'.recs[pc.e]).Some?
  {
    assert RecordStep(w.nextToken, w.recs[pc.e], w'.recs[pc.e]);
  }

  lemma CleanerStable(c: Config, w: World, w': World, p: Option<Proc>, pc: Pc)
    requires Cleaner(pc) && CleanerOk(c, w, pc) && Evolves(w, w', p) && Moved(w, w', p)
    ensures CleanerOk(c, w', pc)
  {
    CleaningStable(c, w, w', p, pc.e, pc.tok);
    CleanerSnapshotStable(c, w, w', p, pc);
    if PastBarrier(pc) {
      TerminalKeepsNoLive(c, w, w', p, pc.e);
      if Prompt(c) && pc.stage.Removing? { AloneStable(c, w, w', p, pc.e, pc.id); }
      if Prompt(c) && pc.stage.Finishing? { GoneStays(c, w, w', p, pc.e); }
    }
  }

  lemma DispatcherStable(c: Config, w: World, w': World, p: Option<Proc>, pc: Pc)
    requires !Cleaner(pc) && !Window(pc) && DispatcherOk(c, w, pc) && Evolves(w, w', p)
    ensures DispatcherOk(c, w', pc)
  {
    if !pc.stage.Idle? { assert RecordStep(w.nextToken, w.recs[pc.e], w'.recs[pc.e]); }
  }

  /** PcOk of a process that did not move survives any action. */
  lemma PcStable(c: Config, w: World, w': World, p: Option<Proc>, q: Proc)
    requires Inv(c, w) && Evolves(w, w', p) && Moved(w, w', p) && WindowsKept(c, w, w', p)
    requires q in w.procs && Some(q) != p
    ensures PcOk(c, w', w.procs[q])
  {
    var pc := w.procs[q];
    assert PcOk(c, w, pc);
    if Window(pc) { WindowStable(c, w, w', p, pc); }
    else if Cleaner(pc) { CleanerStable(c, w, w', p, pc); }
    else { DispatcherStable(c, w, w', p, pc); }
  }

  lemma DoneStays(c: Config, w: World, w': World, p: Option<Proc>)
    requires Inv(c, w) && Evolves(w, w', p)
    requires Prompt(c) ==> forall e :: e in w.recs && w'.recs[e].cleanup.Done? && !w.recs[e].cleanup.Done? ==> Gone(c, w', e)
    ensures DoneMeansGone(c, w')
  {
    forall e | e in w'.recs && w'.recs[e].cleanup.Done? && Prompt(c) ensures Gone(c, w', e) {
      if w.recs[e].cleanup.Done? {
        assert RecordOk(c, w, e, w.recs[e]);
        DoneHasNoLive(c, w, e);
        GoneStays(c, w, w', p, e);
      }
    }
  }

  lemma TokensStay(c: Config, w: World, w': World, p: Option<Proc>)
    requires TokensDistinct(w) && ProcsOk(c, w) && Moved(w, w', p)
    requires p.Some? && WindowToken(w'.At(p.value)).Some? ==>
               || WindowToken(w'.At(p.value)) == WindowToken(w.At(p.value))
               || WindowToken(w'.At(p.value)).value >= w.nextToken
    ensures TokensDistinct(w')
  {
    forall q | q in w.procs ensures WindowToken(w.procs[q]).Some? ==> WindowToken(w.procs[q]).value < w.nextToken {
      assert PcOk(c, w, w.procs[q]);
    }
  }

  /** p keeps its dispatch token or takes a new one, and does not come back from giving up. */
  ghost predicate TokenKept(w: World, w': World, p: Proc) {
    WindowToken(w'.At(p)).Some? ==>
      || (WindowToken(w'.At(p)) == WindowToken(w.At(p)) && (GaveUp(w.At(p)) ==> GaveUp(w'.At(p))))
      || WindowToken(w'.At(p)).value >= w.nextToken
  }

  /** Whoever holds the token of a request in flight has given up on it, also after the action. */
  lemma GivenUpStays(c: Config, w: World, w': World, p: Option<Proc>, q: Proc, t: Token)
    requires SentOk(c, w) && TokensDistinct(w) && Moved(w, w', p) && SentGrows(c, w, w', p)
    requires p.Some? ==> TokenKept(w, w', p.value)
    requires q in w'.procs && t in w'.sent && WindowToken(w'.procs[q]) == Some(t)
    ensures GaveUp(w'.procs[q])
  {
    if t in w.sent { assert RequestOk(c, w, t, w.sent[t]); }
  }

  lemma SentStays(c: Config, w: World, w': World, p: Option<Proc>)
    requires SentOk(c, w) && TokensDistinct(w) && Evolves(w, w', p) && Moved(w, w', p)
    requires RequestsKept(c, w, w') && SentGrows(c, w, w', p)
    requires p.Some? ==> TokenKept(w, w', p.value)
    ensures SentOk(c, w')
  {
    forall t | t in w'.sent ensures RequestOk(c, w', t, w'.sent[t]) {
      if t in w.sent && w'.sent[t] == w.sent[t] { RequestStable(c, w, w', p, t, w.sent[t]); }
    }
    forall q, t | q in w'.procs && t in w'.sent && WindowToken(w'.procs[q]) == Some(t) ensures GaveUp(w'.procs[q]) {
      GivenUpStays(c, w, w', p, q, t);
    }
  }

  /** The rely/guarantee rule: the mover re-establishes its own facts, everyone else's are stable. */
  lemma Carry(c: Config, w: World, w': World, p: Option<Proc>)
    requires Inv(c, w) && Evolves(w, w', p) && Moved(w, w', p) && WindowsKept(c, w, w', p)
    requires RequestsKept(c, w, w') && SentGrows(c, w, w', p)
    requires RecordsOk(c, w') && JobsOk(c, w')
    requires Prompt(c) ==> forall e :: e in w.recs && w'.recs[e].cleanup.Done? && !w.recs[e].cleanup.Done? ==> Gone(c, w', e)
    requires p.Some? ==> PcOk(c, w', w'.At(p.value)) && TokenKept(w, w', p.value)
    ensures Safe(c, w, w')
  {
    DoneStays(c, w, w', p);
    TokensStay(c, w, w', p);
    SentStays(c, w, w', p);
    forall q | q in w'.procs ensures PcOk(c, w', w'.procs[q]) {
      if Some(q) != p { PcStable(c, w, w', p, q); }
    }
  }
}

/**
 The cleanup lease of one execution: ClaimCleanup, the half-lease context timeout, and release.

 The lease length is an argument of each claim (the reconciler and the cancellation path are
 configured separately), and staleness is judged with the claimer's own length.  The timeout
 starts only after the claim has returned; `startDelay` bounds that pause.
 */
module CleanupLease {
  import opened Prelude

  type Token = nat
  type Proc = nat

  datatype Setup = Setup(leases: set<nat>, startDelay: nat)

  datatype Phase =
    | Idle
    | Claimed(tok: Token, claimedAt: int, lease: nat)
    | Timed(tok: Token, deadline: int)
    | Deleting(tok: Token, deadline: int)

  datatype State = State(now: int, token: Option<Token>, at: int, nextToken: Token, procs: map<Proc, Phase>)
  {
    function Of(p: Proc): Phase { if p in procs then procs[p] else Idle }

    function Go(p: Proc, ph: Phase): State { this.(procs := procs[p := ph]) }

    /** p resolved the runtime under its token and may still delete: its context has not expired. */
    predicate Live(p: Proc) { Of(p).Deleting? && now < Of(p).deadline }
  }

  datatype Action =
    | Tick(dt: nat) | Claim(p: Proc, lease: nat) | Start(p: Proc) | Resolve(p: Proc) | End(p: Proc) | Crash(p: Proc)

  function Step(c: Setup, s: State, a: Action): State {
    match a
    case Tick(dt) => s.(now := s.now + dt)
    case Claim(p, lease) =>
      if s.Of(p).Idle? && lease in c.leases && (s.token.None? || s.at <= s.now - lease)
      then s.(token := Some(s.nextToken), at := s.now, nextToken := s.nextToken + 1).Go(p, Claimed(s.nextToken, s.now, lease))
      else s
    case Start(p) =>
      if s.Of(p).Claimed? && s.now <= s.Of(p).claimedAt + c.startDelay
      then s.Go(p, Timed(s.Of(p).tok, s.now + s.Of(p).lease / 2)) else s
    case Resolve(p) =>
      if s.Of(p).Timed? then
        if s.token == Some(s.Of(p).tok) && s.now < s.Of(p).deadline
        then s.Go(p, Deleting(s.Of(p).tok, s.Of(p).deadline)) else s.Go(p, Idle)
      else s
    case End(p) =>
      if s.Of(p).Timed? || s.Of(p).Deleting?
      then (if s.token == Some(s.Of(p).tok) then s.(token := None) else s).Go(p, Idle) else s
    case Crash(p) => s.Go(p, Idle)
  }

  function Run(c: Setup, s: State, acts: seq<Action>): State
    decreases |acts|
  {
    if acts == [] then s else Run(c, Step(c, s, acts[0]), acts[1..])
  }

  const INITIAL := State(0, None, 0, 0, map[])

  /** Resolve-and-delete periods of two processes never overlap. */
  ghost predicate Exclusive(s: State) {
    forall p, q :: s.Live(p) && s.Live(q) ==> p == q
  }

  /** Every holder stops before any claimer may judge its lease stale. */
  predicate Covers(c: Setup) {
    forall a, b :: a in c.leases && b in c.leases ==> c.startDelay + a / 2 <= b
  }

  ghost predicate PhaseOk(c: Setup, s: State, ph: Phase) {
    && (!ph.Idle? ==> ph.tok < s.nextToken)
    && (ph.Claimed? ==> ph.lease in c.leases)
    && (ph.Claimed? && s.token == Some(ph.tok) ==> ph.claimedAt == s.at)
    && (ph.Timed? && s.token == Some(ph.tok) ==> forall b :: b in c.leases ==> ph.deadline <= s.at + b)
    && (ph.Deleting? && s.now < ph.deadline ==>
          s.token == Some(ph.tok) && forall b :: b in c.leases ==> ph.deadline <= s.at + b)
  }

  ghost predicate Inv(c: Setup, s: State) {
    && (s.token.Some? ==> s.token.value < s.nextToken)
    && (forall p :: p in s.procs ==> PhaseOk(c, s, s.procs[p]))
    && (forall p, q :: p in s.procs && q in s.procs && p != q && !s.procs[p].Idle? && !s.procs[q].Idle?
          ==> s.procs[p].tok != s.procs[q].tok)
  }

  lemma TickKeeps(c: Setup, s: State, dt: nat)
    requires Inv(c, s)
    ensures Inv(c, Step(c, s, Tick(dt)))
  {
    var s' := Step(c, s, Tick(dt));
    forall p | p in s'.procs ensures PhaseOk(c, s', s'.procs[p]) { assert PhaseOk(c, s, s.procs[p]); }
  }

  /** A lease that may be stolen has no deleter left. */
  lemma ClaimKeeps(c: Setup, s: State, p: Proc, lease: nat)
    requires Inv(c, s)
    ensures Inv(c, Step(c, s, Claim(p, lease)))
  {
    var s' := Step(c, s, Claim(p, lease));
    forall q | q in s'.procs ensures PhaseOk(c, s', s'.procs[q]) {
      if q in s.procs { assert PhaseOk(c, s, s.procs[q]); }
    }
    forall q | q in s.procs && !s.procs[q].Idle? ensures s.procs[q].tok < s.nextToken {
      assert PhaseOk(c, s, s.procs[q]);
    }
  }

  /** p alone changes, to a phase with no token or the token it had. */
  lemma GoKeeps(c: Setup, s: State, p: Proc, ph: Phase)
    requires Inv(c, s) && PhaseOk(c, s, ph)
    requires ph.Idle? || (p in s.procs && !s.procs[p].Idle? && ph.tok == s.procs[p].tok)
    ensures Inv(c, s.Go(p, ph))
  {
    var s' := s.Go(p, ph);
    forall q | q in s'.procs ensures PhaseOk(c, s', s'.procs[q]) {
      if q != p { assert PhaseOk(c, s, s.procs[q]); }
    }
  }

  /** The timeout that starts now ends before any claimer may steal. */
  lemma StartKeeps(c: Setup, s: State, p: Proc)
    requires Covers(c) && Inv(c, s)
    ensures Inv(c, Step(c, s, Start(p)))
  {
    if s.Of(p).Claimed? && s.now <= s.Of(p).claimedAt + c.startDelay {
      assert PhaseOk(c, s, s.procs[p]);
      GoKeeps(c, s, p, Timed(s.Of(p).tok, s.now + s.Of(p).lease / 2));
    }
  }

  lemma EndKeeps(c: Setup, s: State, p: Proc)
    requires Inv(c, s)
    ensures Inv(c, Step(c, s, End(p)))
  {
    var s' := Step(c, s, End(p));
    forall q | q in s'.procs ensures PhaseOk(c, s', s'.procs[q]) {
      if q != p { assert PhaseOk(c, s, s.procs[q]); }
    }
  }

  lemma StepKeeps(c: Setup, s: State, a: Action)
    requires Covers(c) && Inv(c, s)
    ensures Inv(c, Step(c, s, a))
  {
    match a
    case Tick(dt) => TickKeeps(c, s, dt);
    case Claim(p, lease) => ClaimKeeps(c, s, p, lease);
    case Start(p) => StartKeeps(c, s, p);
    case End(p) => EndKeeps(c, s, p);
    case Crash(p) => GoKeeps(c, s, p, Idle);
    case Resolve(p) =>
      if s.Of(p).Timed? {
        assert PhaseOk(c, s, s.procs[p]);
        GoKeeps(c, s, p, Idle);
        if s.token == Some(s.Of(p).tok) && s.now < s.Of(p).deadline {
          GoKeeps(c, s, p, Deleting(s.Of(p).tok, s.Of(p).deadline));
        }
      }
  }

  lemma {:induction false} RunKeeps(c: Setup, s: State, acts: seq<Action>)
    requires Covers(c) && Inv(c, s)
    ensures Inv(c, Run(c, s, acts))
    decreases |acts|
  {
    if acts != [] {
      StepKeeps(c, s, acts[0]);
      RunKeeps(c, Step(c, s, acts[0]), acts[1..]);
    }
  }

  lemma InvExclusive(c: Setup, s: State)
    requires Inv(c, s)
    ensures Exclusive(s)
  {
  }

  /** A process goes on to delete exactly while it holds the token and its deadline has not passed. */
  lemma ResolveDecides(c: Setup, s: State, p: Proc)
    requires s.Of(p).Timed?
    ensures var s' := Step(c, s, Resolve(p));
      if s.token == Some(s.Of(p).tok) && s.now < s.Of(p).deadline then s'.Of(p).Deleting? && s'.Live(p) else s'.Of(p).Idle?
  {
  }

  /** Ending frees the lease, if it is still held, for the next claim of any length; otherwise the new holder keeps it. */
  lemma EndFrees(c: Setup, s: State, p: Proc, q: Proc, lease: nat)
    requires (s.Of(p).Timed? || s.Of(p).Deleting?) && q != p && s.Of(q).Idle? && lease in c.leases
    ensures var s' := Step(c, s, End(p));
      && s'.Of(p).Idle?
      && (s.token == Some(s.Of(p).tok) ==> Step(c, s', Claim(q, lease)).Of(q).Claimed?)
      && (s.token != Some(s.Of(p).tok) ==> s'.token == s.token)
  {
  }

  /** Two processes, one holding with lease a and one stealing with lease b, when the bound fails. */
  function Overlap(c: Setup, a: nat, b: nat): seq<Action> {
    var start := if c.startDelay <= b then c.startDelay else b;
    [Claim(0, a), Tick(start), Start(0), Resolve(0), Tick(b - start), Claim(1, b), Start(1), Resolve(1)]
  }

  lemma OverlapHappens(c: Setup, a: nat, b: nat)
    requires a in c.leases && b in c.leases && a >= 2 && b >= 2 && c.startDelay + a / 2 > b
    ensures !Exclusive(Run(c, INITIAL, Overlap(c, a, b)))
  {
    var start := if c.startDelay <= b then c.startDelay else b;
    var acts := Overlap(c, a, b);
    var s1 := Step(c, INITIAL, acts[0]);
    var s2 := Step(c, s1, acts[1]);
    var s3 := Step(c, s2, acts[2]);
    var s4 := Step(c, s3, acts[3]);
    assert s4.Of(0) == Deleting(0, start + a / 2) && s4.token == Some(0) && s4.at == 0;
    var s5 := Step(c, s4, acts[4]);
    var s6 := Step(c, s5, acts[5]);
    assert s6.Of(1) == Claimed(1, b, b) && s6.Of(0) == s4.Of(0);
    var s7 := Step(c, s6, acts[6]);
    var s8 := Step(c, s7, acts[7]);
    assert s8.Live(0) && s8.Live(1);
    RunsTo(c, acts, [INITIAL, s1, s2, s3, s4, s5, s6, s7, s8]);
  }

  /** A list of states, each the step of the one before, is the run. */
  lemma {:induction false} RunsTo(c: Setup, acts: seq<Action>, ss: seq<State>)
    requires |ss| == |acts| + 1
    requires forall i :: 0 <= i < |acts| ==> ss[i + 1] == Step(c, ss[i], acts[i])
    ensures Run(c, ss[0], acts) == ss[|acts|]
    decreases |acts|
  {
    if acts != [] {
      forall i | 0 <= i < |acts[1..]| ensures ss[1..][i + 1] == Step(c, ss[1..][i], acts[1..][i]) {
        assert ss[i + 2] == Step(c, ss[i + 1], acts[i + 1]);
      }
      RunsTo(c, acts[1..], ss[1..]);
    }
  }

  /**
   With several reconcilers and expiring leases, delete periods never overlap in any run exactly
   when the pause before the timeout plus half of any lease fits inside every lease.
   */
  lemma ExclusiveIffCovers(c: Setup)
    requires forall a :: a in c.leases ==> a >= 2
    ensures Covers(c) <==> forall acts: seq<Action> :: Exclusive(Run(c, INITIAL, acts))
  {
    if Covers(c) {
      forall acts: seq<Action> ensures Exclusive(Run(c, INITIAL, acts)) {
        RunKeeps(c, INITIAL, acts);
        InvExclusive(c, Run(c, INITIAL, acts));
      }
    } else {
      var a, b :| a in c.leases && b in c.leases && c.startDelay + a / 2 > b;
      OverlapHappens(c, a, b);
    }
  }

  /** The shipped setting: one common lease L is safe exactly when the pause is at most the other half. */
  lemma CommonLease(lease: nat, startDelay: nat)
    requires lease >= 2
    ensures Covers(Setup({lease}, startDelay)) <==> startDelay <= lease - lease / 2
  {
  }
}

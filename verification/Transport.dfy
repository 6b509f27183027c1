/**
 The retry engine (retryRequest in runtime-claude/src/transport.ts).

 The outside world is a script: what each attempt does, what the clock and the abort signal say at
 each point where the loop looks, and the jitter.  Contracts hold for every script.
 */
module Transport {
  import opened Prelude

  const MAX_ATTEMPTS: nat := 4

  datatype Code =
    | ConnectionReset | NetworkTimeout | NetworkUnavailable | RateLimited | ServiceUnavailable | InvalidRequest
    | Unauthorized | ExecutionConflict | SignatureExpired | IntegrityMismatch | ProtocolError | DeadlineExceeded
    | Cancelled

  datatype Failure = Failure(code: Code, retryable: bool, retryAfter: real)

  /** What an attempt throws: an already typed error, a recognised network code, a TypeError, or anything else. */
  datatype Caught = Typed(failure: Failure) | Reset | TimedOut | Unreachable | TypeError | Other

  datatype Attempt<T> = Success(value: T) | Threw(caught: Caught, childTimedOut: bool)

  /** The failure that an error stands for. */
  ghost function Normalize(caught: Caught, childTimedOut: bool): Failure {
    match caught
    case Typed(f) => f
    case Reset => Failure(if childTimedOut then NetworkTimeout else ConnectionReset, true, 0.0)
    case TimedOut => Failure(NetworkTimeout, true, 0.0)
    case Unreachable => Failure(if childTimedOut then NetworkTimeout else NetworkUnavailable, true, 0.0)
    case TypeError => Failure(if childTimedOut then NetworkTimeout else NetworkUnavailable, true, 0.0)
    case Other => Failure(if childTimedOut then NetworkTimeout else ProtocolError, childTimedOut, 0.0)
  }

  /** normalizeError */
  method NormalizeError(error: Caught, timedOut: bool) returns (f: Failure)
    ensures f == Normalize(error, timedOut)
  {
    if error.Typed? { return error.failure; }
    if timedOut { return Failure(NetworkTimeout, true, 0.0); }
    if error.Reset? { return Failure(ConnectionReset, true, 0.0); }
    if error.TimedOut? { return Failure(NetworkTimeout, true, 0.0); }
    if error.Unreachable? || error.TypeError? { return Failure(NetworkUnavailable, true, 0.0); }
    return Failure(ProtocolError, false, 0.0);
  }

  /** transportErrorFromResponse, code and retryable flag by status. */
  function FromResponse(status: nat, expired: bool, retryAfter: real): Failure {
    var code :=
      if status == 403 && expired then SignatureExpired
      else if status == 408 then NetworkTimeout
      else if status == 429 then RateLimited
      else if status == 500 || status == 502 || status == 503 || status == 504 then ServiceUnavailable
      else if status == 401 || status == 403 then Unauthorized
      else if status == 409 then ExecutionConflict
      else if 400 <= status < 500 then InvalidRequest
      else ProtocolError;
    Failure(code, status in {408, 429, 500, 502, 503, 504}, retryAfter)
  }

  /** A result of Math.random. */
  type Fraction = r: real | 0.0 <= r < 1.0

  /** The script, by attempt number. */
  datatype World<!T> = World(
    attempt: nat -> Attempt<T>,
    abortedBefore: nat -> bool,
    abortedAfter: nat -> bool,
    nowBefore: nat -> real,
    nowAfter: nat -> real,
    random: nat -> Fraction,
    sleepAborted: nat -> bool,
    abortIsDeadline: bool)

  datatype Sleep = Sleep(at: real, delay: real)

  /** An attempt that was made, and the sleep after it if there was one. */
  datatype Try = Try(number: nat, slept: Option<Sleep>)

  datatype Outcome<T> = Returned(value: T) | Raised(code: Code, attempts: nat)

  ghost function AbortCode<T>(w: World<T>): Code { if w.abortIsDeadline then DeadlineExceeded else Cancelled }

  function Pow2(n: nat): (r: nat)
    ensures r >= 1
  {
    if n == 0 then 1 else 2 * Pow2(n - 1)
  }

  /** 250, 500, 1000 and then always 2000 milliseconds. */
  ghost function Cap(n: nat): nat {
    if n <= 1 then 250 else if n == 2 then 500 else if n == 3 then 1000 else 2000
  }

  /** Math.min(2_000, 250 * 2 ** (n - 1)) */
  method DelayCap(n: nat) returns (cap: nat)
    requires n >= 1
    ensures cap == Cap(n)
  {
    Doubles(n - 1);
    cap := 250 * Pow2(n - 1);
    if cap > 2000 { cap := 2000; }
  }

  lemma {:induction false} Doubles(n: nat)
    ensures Pow2(0) == 1 && Pow2(1) == 2 && Pow2(2) == 4 && Pow2(3) == 8
    ensures n >= 3 ==> Pow2(n) >= 8
  {
    assert Pow2(3) == 2 * Pow2(2) && Pow2(2) == 2 * Pow2(1) && Pow2(1) == 2 * Pow2(0);
    if n > 3 { Doubles(n - 1); }
  }

  ghost function Failed<T>(w: World<T>, n: nat): Failure
    requires w.attempt(n).Threw?
  {
    Normalize(w.attempt(n).caught, w.attempt(n).childTimedOut)
  }

  ghost function Max(a: real, b: real): real { if a < b then b else a }

  /** Math.floor(random() * cap) */
  function Jitter(random: Fraction, cap: nat): (r: nat)
    requires cap > 0
    ensures r < cap
  {
    assert 0.0 <= random * cap as real < cap as real;
    (random * cap as real).Floor
  }

  ghost function Delay<T>(w: World<T>, n: nat): real
    requires 1 <= n && w.attempt(n).Threw?
  {
    Max(Jitter(w.random(n), Cap(n)) as real, Failed(w, n).retryAfter)
  }

  /** There is no deadline, or t is before it. */
  ghost predicate Before(deadline: Option<real>, t: real) { deadline.Some? ==> t < deadline.value }

  /** Attempt n is started once the loop gets to it. */
  ghost predicate Starts<T>(w: World<T>, deadline: Option<real>, n: nat) {
    !w.abortedBefore(n) && Before(deadline, w.nowBefore(n))
  }

  /** Attempt n failed in a way that may be retried. */
  ghost predicate Retriable<T>(w: World<T>, n: nat) { w.attempt(n).Threw? && !w.abortedAfter(n) && Failed(w, n).retryable }

  /** The loop goes on to attempt n + 1. */
  ghost predicate GoesOn<T>(w: World<T>, deadline: Option<real>, n: nat) {
    && 1 <= n < MAX_ATTEMPTS && Starts(w, deadline, n) && Retriable(w, n)
    && Before(deadline, w.nowAfter(n) + Delay(w, n)) && !w.sleepAborted(n)
  }

  /** Attempts are numbered from 1, and every retry comes after a sleep. */
  ghost predicate Ordered(log: seq<Try>) {
    forall i :: 0 <= i < |log| ==> log[i].number == i + 1 && (i + 1 < |log| ==> log[i].slept.Some?)
  }

  /** Every sleep follows a failure that may be retried, honours Retry-After, is otherwise capped, and ends before the deadline. */
  ghost predicate SleepsAreSafe<T>(w: World<T>, deadline: Option<real>, log: seq<Try>) {
    forall i :: 0 <= i < |log| && log[i].slept.Some? ==> SafeSleep(w, deadline, i + 1, log[i].slept.value)
  }

  ghost predicate SafeSleep<T>(w: World<T>, deadline: Option<real>, n: nat, e: Sleep) {
    && 1 <= n < MAX_ATTEMPTS && Retriable(w, n)
    && Before(deadline, e.at + e.delay)
    && Failed(w, n).retryAfter <= e.delay
    && 0.0 <= e.delay
    && (e.delay < Cap(n) as real || e.delay == Failed(w, n).retryAfter)
  }

  lemma DelayIsSafe<T>(w: World<T>, deadline: Option<real>, n: nat)
    requires 1 <= n < MAX_ATTEMPTS && Retriable(w, n) && Before(deadline, w.nowAfter(n) + Delay(w, n))
    ensures SafeSleep(w, deadline, n, Sleep(w.nowAfter(n), Delay(w, n)))
  {
  }

  /** Some attempt succeeds after only failures that the loop retries. */
  ghost predicate Succeeds<T>(w: World<T>, deadline: Option<real>, value: T) {
    exists n :: SucceedsAt(w, deadline, n) && w.attempt(n) == Success(value)
  }

  ghost predicate SucceedsAt<T>(w: World<T>, deadline: Option<real>, n: nat) {
    && 1 <= n <= MAX_ATTEMPTS && Starts(w, deadline, n) && w.attempt(n).Success?
    && forall j :: 1 <= j < n ==> GoesOn(w, deadline, j)
  }

  /** Why a request that made n attempts raises `code`. */
  ghost predicate Explained<T>(w: World<T>, deadline: Option<real>, n: nat, code: Code) {
    // stopped before attempt n + 1
    || (n < MAX_ATTEMPTS && w.abortedBefore(n + 1) && code == AbortCode(w))
    || (n < MAX_ATTEMPTS && !Before(deadline, w.nowBefore(n + 1)) && code == DeadlineExceeded)
    // stopped by attempt n or the sleep after it
    || (n > 0 && w.attempt(n).Threw? && (
        || (w.abortedAfter(n) && code == AbortCode(w))
        || (!Failed(w, n).retryable && code == Failed(w, n).code)
        || (n == MAX_ATTEMPTS && code == Failed(w, n).code)
        || (n < MAX_ATTEMPTS && !Before(deadline, w.nowAfter(n) + Delay(w, n)) && code == DeadlineExceeded)
        || (w.sleepAborted(n) && code == AbortCode(w))))
  }

  // ----- what each kind of error leads to, case by case -----

  /** A network error, a timeout of the attempt, or a typed error that says so. */
  ghost predicate Transient(caught: Caught, childTimedOut: bool) {
    match caught
    case Typed(f) => f.retryable
    case Other => childTimedOut
    case _ => true
  }

  /** The code that ends the request on this error. */
  ghost predicate Blamed(caught: Caught, childTimedOut: bool, code: Code) {
    && (caught.Typed? ==> code == caught.failure.code)
    && (!caught.Typed? && childTimedOut ==> code.NetworkTimeout?)
    && (caught.TimedOut? ==> code.NetworkTimeout?)
    && (!childTimedOut && caught.Reset? ==> code.ConnectionReset?)
    && (!childTimedOut && (caught.Unreachable? || caught.TypeError?) ==> code.NetworkUnavailable?)
    && (!childTimedOut && caught.Other? ==> code.ProtocolError?)
  }

  /** Attempt n + 1 is not made: the signal fired during the sleep or before it, or the deadline has passed. */
  ghost predicate StoppedAfter<T>(w: World<T>, deadline: Option<real>, n: nat) {
    w.sleepAborted(n) || w.abortedBefore(n + 1) || (deadline.Some? && w.nowBefore(n + 1) >= deadline.value)
  }

  /** The sleep after attempt n would not end before the deadline. */
  ghost predicate NoTime<T>(w: World<T>, deadline: Option<real>, n: nat, delay: real) {
    deadline.Some? && w.nowAfter(n) + delay >= deadline.value
  }

  /** A transient error of attempt n is retried after a sleep, unless attempts, time or the caller's patience run out. */
  ghost predicate Retried<T>(w: World<T>, deadline: Option<real>, log: seq<Try>, r: Outcome<T>, n: nat)
    requires 1 <= n <= |log|
  {
    var a := w.attempt(n);
    a.Threw? && !w.abortedAfter(n) ==>
      if !Transient(a.caught, a.childTimedOut) || n == 4 then
        |log| == n && r.Raised? && r.attempts == n && Blamed(a.caught, a.childTimedOut, r.code)
      else if n < |log| then log[n - 1].slept.Some?
      else r.Raised? && r.attempts == n && (StoppedAfter(w, deadline, n) || LateAfter(w, deadline, r, n))
  }

  /** A delay that attempt n's error asks for: what Retry-After says, or a jitter below the cap. */
  ghost predicate Owed<T>(w: World<T>, n: nat, delay: real)
    requires w.attempt(n).Threw?
  {
    var caught := w.attempt(n).caught;
    || (caught.Typed? && delay == caught.failure.retryAfter)
    || (0.0 <= delay < (if n <= 1 then 250.0 else if n == 2 then 500.0 else if n == 3 then 1000.0 else 2000.0))
  }

  /** How the request ends on an error of attempt n. */
  ghost predicate Ends<T>(w: World<T>, deadline: Option<real>, r: Outcome<T>, n: nat) {
    var a := w.attempt(n);
    a.Threw? && !w.abortedAfter(n) ==>
      && r.Raised? && r.attempts == n
      && if !Transient(a.caught, a.childTimedOut) || n == 4 then Blamed(a.caught, a.childTimedOut, r.code)
         else w.sleepAborted(n) || LateAfter(w, deadline, r, n)
  }

  ghost predicate LateAfter<T>(w: World<T>, deadline: Option<real>, r: Outcome<T>, n: nat)
    requires w.attempt(n).Threw? && r.Raised?
  {
    r.code.DeadlineExceeded? && exists delay :: Owed(w, n, delay) && NoTime(w, deadline, n, delay)
  }

  /** What one turn of the loop for attempt n may add to the log. */
  ghost predicate TurnTry<T>(w: World<T>, deadline: Option<real>, n: nat, made: Option<Try>) {
    made.Some? ==>
      && made.value.number == n
      && (made.value.slept.Some? ==> SafeSleep(w, deadline, n, made.value.slept.value))
  }

  /** One turn: None goes on to the next attempt. */
  method Turn<T>(w: World<T>, deadline: Option<real>, n: nat) returns (done: Option<Outcome<T>>, made: Option<Try>)
    requires 1 <= n <= MAX_ATTEMPTS
    ensures TurnTry(w, deadline, n, made)
    ensures done.None? ==> GoesOn(w, deadline, n) && made.Some? && made.value.slept.Some?
    ensures done.Some? && done.value.Returned? ==>
      Starts(w, deadline, n) && w.attempt(n) == Success(done.value.value) && made == Some(Try(n, None))
    ensures done.Some? && done.value.Raised? ==>
      && !GoesOn(w, deadline, n)
      && !(Starts(w, deadline, n) && w.attempt(n).Success?)
      && done.value.attempts == (if made.None? then n - 1 else n)
      && Explained(w, deadline, done.value.attempts, done.value.code)
    ensures done.Some? && made.Some? ==> Ends(w, deadline, done.value, n)
    ensures done.Some? && made.None? ==> done.value.Raised? && !Starts(w, deadline, n)
  {
    made := None;
    var abortCode := if w.abortIsDeadline then DeadlineExceeded else Cancelled;
    if w.abortedBefore(n) { return Some(Raised(abortCode, n - 1)), made; }
    if deadline.Some? && w.nowBefore(n) >= deadline.value { return Some(Raised(DeadlineExceeded, n - 1)), made; }
    made := Some(Try(n, None));
    var result := w.attempt(n);
    if result.Success? { return Some(Returned(result.value)), made; }
    if w.abortedAfter(n) { return Some(Raised(abortCode, n)), made; }
    var slept: Option<Sleep>;
    done, slept := AfterError(w, deadline, n, result.caught, result.childTimedOut, abortCode);
    made := Some(Try(n, slept));
  }

  /** The catch block of attempt n: give up, or sleep. */
  method AfterError<T>(w: World<T>, deadline: Option<real>, n: nat, caught: Caught, timedOut: bool, abortCode: Code)
    returns (done: Option<Outcome<T>>, slept: Option<Sleep>)
    requires 1 <= n <= MAX_ATTEMPTS && w.attempt(n) == Threw(caught, timedOut) && !w.abortedAfter(n) && abortCode == AbortCode(w)
    ensures slept.Some? ==> SafeSleep(w, deadline, n, slept.value)
    ensures done.None? <==> n < MAX_ATTEMPTS && Retriable(w, n) && Before(deadline, w.nowAfter(n) + Delay(w, n)) && !w.sleepAborted(n)
    ensures done.None? ==> slept.Some?
    ensures done.Some? ==> done.value.Raised? && done.value.attempts == n && Explained(w, deadline, n, done.value.code)
    ensures done.Some? ==> Ends(w, deadline, done.value, n)
  {
    slept := None;
    NormalizeMeans(caught, timedOut);
    var error := NormalizeError(caught, timedOut);
    if !error.retryable || n == MAX_ATTEMPTS { return Some(Raised(error.code, n)), slept; }
    var cap := DelayCap(n);
    var delay := Jitter(w.random(n), cap) as real;
    if error.retryAfter > delay { delay := error.retryAfter; }
    assert delay == Delay(w, n) && Owed(w, n, delay);
    if deadline.Some? && w.nowAfter(n) + delay >= deadline.value { return Some(Raised(DeadlineExceeded, n)), slept; }
    DelayIsSafe(w, deadline, n);
    slept := Some(Sleep(w.nowAfter(n), delay));
    if w.sleepAborted(n) { return Some(Raised(abortCode, n)), slept; }
    return None, slept;
  }

  lemma NormalizeMeans(caught: Caught, timedOut: bool)
    ensures var f := Normalize(caught, timedOut);
      && (f.retryable <==> Transient(caught, timedOut)) && Blamed(caught, timedOut, f.code)
      && f.retryAfter == if caught.Typed? then caught.failure.retryAfter else 0.0
  {
  }

  ghost predicate Sound<T>(w: World<T>, deadline: Option<real>, log: seq<Try>) {
    Ordered(log) && SleepsAreSafe(w, deadline, log)
  }

  lemma LogGrows<T>(w: World<T>, deadline: Option<real>, log: seq<Try>, made: Try)
    requires Sound(w, deadline, log) && (log != [] ==> log[|log| - 1].slept.Some?)
    requires TurnTry(w, deadline, |log| + 1, Some(made))
    ensures Sound(w, deadline, log + [made])
  {
  }

  /** retryRequest */
  method RetryRequest<T>(w: World<T>, deadline: Option<real>) returns (r: Outcome<T>, log: seq<Try>)
    ensures forall n :: 1 <= n <= |log| ==> Retried(w, deadline, log, r, n)
    ensures Sound(w, deadline, log) && |log| <= MAX_ATTEMPTS
    ensures r.Raised? ==> r.attempts == |log| && Explained(w, deadline, r.attempts, r.code)
    ensures forall v :: r == Returned(v) <==> Succeeds(w, deadline, v)
  {
    log := [];
    var n := 1;
    while n <= MAX_ATTEMPTS
      invariant 1 <= n <= MAX_ATTEMPTS && |log| == n - 1
      invariant Sound(w, deadline, log) && (log != [] ==> log[|log| - 1].slept.Some?)
      invariant forall j :: 1 <= j < n ==> GoesOn(w, deadline, j)
      decreases MAX_ATTEMPTS - n
    {
      var done, made := Turn(w, deadline, n);
      if made.Some? {
        LogGrows(w, deadline, log, made.value);
        log := log + [made.value];
      }
      if done.Some? {
        if done.value.Returned? { OnlySuccess(w, deadline, n); } else { NeverSucceeds(w, deadline, n); }
        forall j | 1 <= j <= |log| ensures Retried(w, deadline, log, done.value, j) {
          assert j < n ==> GoesOn(w, deadline, j);
        }
        return done.value, log;
      }
      n := n + 1;
    }
  }

  lemma NeverSucceeds<T>(w: World<T>, deadline: Option<real>, n: nat)
    requires 1 <= n <= MAX_ATTEMPTS && (forall j :: 1 <= j < n ==> GoesOn(w, deadline, j))
    requires !GoesOn(w, deadline, n) && !SucceedsAt(w, deadline, n)
    ensures forall v :: !Succeeds(w, deadline, v)
  {
    forall k: nat ensures !SucceedsAt(w, deadline, k) {
      assert k < n && k >= 1 ==> GoesOn(w, deadline, k);
    }
  }

  lemma OnlySuccess<T>(w: World<T>, deadline: Option<real>, n: nat)
    requires SucceedsAt(w, deadline, n)
    ensures forall v :: Succeeds(w, deadline, v) <==> w.attempt(n) == Success(v)
  {
    forall k: nat | SucceedsAt(w, deadline, k) ensures k == n {
      SucceedsOnce(w, deadline, n, k);
      SucceedsOnce(w, deadline, k, n);
    }
  }

  lemma SucceedsOnce<T>(w: World<T>, deadline: Option<real>, j: nat, k: nat)
    requires SucceedsAt(w, deadline, j)
    ensures j < k ==> !SucceedsAt(w, deadline, k)
  {
    assert j < k && SucceedsAt(w, deadline, k) ==> GoesOn(w, deadline, j);
  }

  /** Which statuses a code stands for. */
  lemma CodeOfStatus(status: nat, expired: bool, retryAfter: real)
    ensures var f := FromResponse(status, expired, retryAfter);
      && (f.code.SignatureExpired? <==> status == 403 && expired)
      && (f.code.Unauthorized? <==> status == 401 || (status == 403 && !expired))
      && (f.code.NetworkTimeout? <==> status == 408)
      && (f.code.ExecutionConflict? <==> status == 409)
      && (f.code.RateLimited? <==> status == 429)
      && (f.code.ServiceUnavailable? <==> status == 500 || 502 <= status <= 504)
      && (f.code.InvalidRequest? <==> 400 <= status <= 499 && status !in {401, 403, 408, 409, 429})
      && (f.code.ProtocolError? <==> status < 400 || status > 504 || status == 501)
      && f.retryAfter == retryAfter
  {
  }

  /** A response is retried exactly when its code says so; an expired signature never is. */
  lemma RetryableByCode(status: nat, expired: bool, retryAfter: real)
    ensures var f := FromResponse(status, expired, retryAfter);
      f.retryable <==> f.code == NetworkTimeout || f.code == RateLimited || f.code == ServiceUnavailable
  {
  }
}

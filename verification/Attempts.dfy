// One execution from its start to its release: the retry loop, how its outcome becomes the
// final state, and every exit and panic of runExecution and runStreamExecution in
// core/execution/manager.go.

module Executions {
  import opened Option

  datatype ExecState =
    | NoState | Pending | Queued | Running | Retrying | Succeeded | Failed | Cancelled | TimedOut

  predicate Terminal(s: ExecState) { s.Succeeded? || s.Failed? || s.Cancelled? || s.TimedOut? }

  datatype Status =
    | NoStatus | StatusSucceeded | StatusFailed | StatusCancelled | StatusTimedOut | OtherStatus(name: string)

  datatype Category =
    | ConfigCategory | ProviderCategory | TimeoutCategory | CancelledCategory
    | ValidationCategory | InternalCategory | SaturationCategory | AuthCategory

  // A Go error: a PlatformError with its category, or any other error.
  datatype Error = Platform(category: Category, message: string, retryable: bool) | Plain(message: string)

  datatype ExecutionError = ExecutionError(category: Category, message: string, retryable: bool)

  datatype Attempt = Attempt(number: nat, error: Option<ExecutionError>)

  datatype Result = Result(
    status: Status, state: ExecState, error: Option<ExecutionError>,
    attemptCount: nat, retryCount: int, attempts: seq<Attempt>)

  function ToExecutionError(e: Error): ExecutionError {
    match e
    case Platform(c, m, r) => ExecutionError(c, m, r)
    case Plain(m) => ExecutionError(InternalCategory, m, false)
  }
}

module Attempts {
  import opened Option
  import opened Executions
  import opened Retry

  // How one provider call ends: it answers, or its context expires first; whole says that the
  // context of the whole execution (deadline or cancellation) is over too.
  datatype Outcome = Answered(res: Option<Result>, err: Option<Error>) | Expired(whole: bool)

  // The places where code outside the manager can panic: the predicates of event subscribers
  // inside Publish, the registry, the provider, RetryableCheck and the recording of costs.
  datatype Site =
    | StartedEvent | ResolveProvider | ResolveFailedEvent
    | InAttempt(n: nat) | AfterAttempt(n: nat) | RetryEvent(n: nat)
    | OutcomeEvent | StreamOpening | StreamEvent

  // Everything the loop does not control: the outcome of each attempt; the text of the context's
  // error when it cuts the wait before an attempt short; the policy's RetryableCheck; the random
  // draws of each backoff; and the panics.
  datatype World = World(
    outcome: nat -> Outcome,
    interrupt: nat -> Option<string>,
    check: Option<Error -> bool>,
    draw: nat -> (int -> int),
    panics: Site -> bool)

  ghost predicate FairDraws(w: World) {
    forall a, n :: 0 < n ==> 0 <= w.draw(a)(n) < n
  }

  const DEADLINE := Platform(TimeoutCategory, "execution exceeded configured deadline", false)
  const ATTEMPT_TIMEOUT := Platform(TimeoutCategory, "per-attempt timeout exceeded", true)

  function ErrorOf(o: Outcome): Option<Error> {
    match o
    case Answered(_, e) => e
    case Expired(whole) => Some(if whole then DEADLINE else ATTEMPT_TIMEOUT)
  }

  function ResultOf(o: Outcome): Option<Result> {
    if o.Answered? && o.err.None? then o.res else None
  }

  predicate Retryable(w: World, e: Error) {
    match w.check
    case Some(check) => check(e)
    case None => if e.Platform? then e.retryable else true
  }

  // Attempt n ended in an error that allows another try.
  predicate Failing(w: World, n: nat) {
    ErrorOf(w.outcome(n)).Some? && Retryable(w, ErrorOf(w.outcome(n)).value)
  }

  function RecordOf(w: World, n: nat): Attempt {
    Attempt(n, match ErrorOf(w.outcome(n)) case Some(e) => Some(ToExecutionError(e)) case None => None)
  }

  function Records(w: World, k: nat): (r: seq<Attempt>)
    ensures |r| == k
    ensures forall i :: 0 <= i < k ==> r[i] == RecordOf(w, i + 1) && r[i].number == i + 1
  {
    if k == 0 then [] else Records(w, k - 1) + [RecordOf(w, k)]
  }

  // Attempt i was made and judged without a panic.
  predicate Made(w: World, i: nat) { !w.panics(InAttempt(i)) && !w.panics(AfterAttempt(i)) }

  // Attempt i failed with a retryable error and the wait after it ran to its end.
  predicate GoesOn(w: World, i: nat) {
    Made(w, i) && Failing(w, i) && !w.panics(RetryEvent(i + 1)) && w.interrupt(i + 1).None?
  }

  // How the loop ends after k recorded attempts: with the answer of the last one; in the wait
  // after it, cut short or by a panic; by a panic while judging it; or by a panic in the next
  // attempt before that one was recorded.
  datatype How = Complete | WaitCut | WaitPanic | JudgePanic | AttemptPanic

  datatype End = End(k: nat, how: How, res: Option<Result>, err: Option<Error>)

  function Loop(w: World, max: int, n: nat): End
    requires 1 <= n <= max
    decreases max - n
  {
    if w.panics(InAttempt(n)) then End(n - 1, AttemptPanic, None, None)
    else if w.panics(AfterAttempt(n)) then End(n, JudgePanic, None, None)
    else if n == max || !Failing(w, n) then End(n, Complete, ResultOf(w.outcome(n)), ErrorOf(w.outcome(n)))
    else if w.panics(RetryEvent(n + 1)) then End(n, WaitPanic, None, None)
    else if w.interrupt(n + 1).Some? then End(n, WaitCut, None, Some(Plain(w.interrupt(n + 1).value)))
    else Loop(w, max, n + 1)
  }

  function WholeLoop(w: World, max: int): End {
    if max < 1 then End(0, Complete, None, None) else Loop(w, max, 1)
  }

  // The retry loop records k <= MaxAttempts attempts. Every attempt before the last failed with
  // a retryable error and the wait after it ran to the end; and the loop stops for one of its
  // five reasons, with the matching result and error.
  lemma {:induction false} LoopMeaning(w: World, max: int, n: nat)
    requires 1 <= n <= max
    ensures var e := Loop(w, max, n);
      && n - 1 <= e.k <= max
      && (forall i: nat :: n <= i < e.k ==> GoesOn(w, i))
      && (match e.how
          case Complete =>
            n <= e.k && Made(w, e.k) && (e.k == max || !Failing(w, e.k))
            && e.res == ResultOf(w.outcome(e.k)) && e.err == ErrorOf(w.outcome(e.k))
          case WaitCut =>
            n <= e.k < max && Made(w, e.k) && Failing(w, e.k) && !w.panics(RetryEvent(e.k + 1))
            && w.interrupt(e.k + 1).Some? && e.res.None? && e.err == Some(Plain(w.interrupt(e.k + 1).value))
          case WaitPanic => n <= e.k < max && Made(w, e.k) && Failing(w, e.k) && w.panics(RetryEvent(e.k + 1))
          case JudgePanic => n <= e.k && w.panics(AfterAttempt(e.k))
          case AttemptPanic => e.k < max && w.panics(InAttempt(e.k + 1)) && (n <= e.k ==> GoesOn(w, e.k)))
    decreases max - n
  {
    if n < max && GoesOn(w, n) { LoopMeaning(w, max, n + 1); }
  }

  lemma {:induction false} LoopReaches(w: World, max: int, m: nat, n: nat)
    requires 1 <= m <= n <= max
    requires forall i: nat :: m <= i < n ==> GoesOn(w, i)
    ensures Loop(w, max, m) == Loop(w, max, n)
    decreases n - m
  {
    if m < n {
      assert GoesOn(w, m);
      LoopReaches(w, max, m + 1, n);
    }
  }

  // ---------------------------------------------------------------- classification

  function FinalState(e: Error): ExecState {
    match e
    case Platform(TimeoutCategory, _, _) => TimedOut
    case Platform(CancelledCategory, _, _) => Cancelled
    case _ => Failed
  }

  function StatusFor(s: ExecState): Status {
    match s case TimedOut => StatusTimedOut case Cancelled => StatusCancelled case _ => StatusFailed
  }

  // A result that says itself that it failed.
  predicate ReportsFailure(r: Result) {
    r.error.Some? || (r.status != NoStatus && r.status != StatusSucceeded)
  }

  // The result handleResult records, or None for the nil-result, nil-error case that panics.
  function Verdict(res: Option<Result>, err: Option<Error>, attempts: seq<Attempt>): Option<Result> {
    if err.None? && res.None? then None
    else if err.None? then
      var r := res.value;
      if ReportsFailure(r) then Some(if r.state == NoState then r.(state := Failed) else r)
      else Some(Result(StatusSucceeded, Succeeded, r.error, |attempts|, |attempts| - 1, attempts))
    else
      var s := FinalState(err.value);
      Some(Result(StatusFor(s), s, Some(ToExecutionError(err.value)), |attempts|, |attempts| - 1, attempts))
  }

  // Publishing a failure event reads Result.Error, which must not be nil.
  predicate ReadsNilError(r: Result) {
    !(r.state.Succeeded? || r.state.TimedOut? || r.state.Cancelled?) && r.error.None?
  }

  // What the wait before an attempt asks for: the backoff of the attempt that failed.
  function Requested(w: World, policy: Policy, attempt: nat): int {
    var d := Delay(policy, attempt - 1);
    if policy.jitter && d > 0 then w.draw(attempt)(d) else d
  }

  // How many waits run to their end, whether the loop ends inside one more, and how many
  // backoffs are asked for.
  function Resumed(e: End): nat {
    if e.how.AttemptPanic? then e.k else if e.k > 0 then e.k - 1 else 0
  }

  predicate EndsWaiting(e: End) { e.how.WaitCut? || e.how.WaitPanic? }

  function Backoffs(e: End): nat { Resumed(e) + if EndsWaiting(e) then 1 else 0 }

  lemma RequestedAtMostMax(w: World, policy: Policy, attempt: nat)
    requires FairDraws(w) && policy.maxDelay > 0
    ensures Requested(w, policy, attempt) <= policy.maxDelay
  {
    DelayAtMostMax(policy, attempt - 1);
  }

  // ---------------------------------------------------------------- whole runs

  datatype Answer = Answer(res: Option<Result>, err: Option<Error>)

  // What the middleware does before the core handler: pass the request on, answer itself, or panic.
  datatype Before = Passes | Answers(answer: Answer) | Panics

  // after is what it makes of the core's answer; None is a panic.
  datatype Chain = Chain(before: Before, after: Answer -> Option<Answer>)

  const NO_CHAIN := Chain(Passes, a => Some(a))

  datatype StreamEnd = OpenFailed(error: Error) | Drained | OutOfTime(error: Error)

  // Everything one run depends on. resolveError is the registry's error, stream the way a
  // streaming run ends.
  datatype Case = Case(w: World, policy: Policy, resolveError: Option<string>, stream: Option<StreamEnd>, chain: Chain)

  const PANICKED :=
    Result(StatusFailed, Failed, Some(ExecutionError(InternalCategory, "internal panic", false)), 0, 0, [])

  function ResolveFailure(message: string): Result {
    Result(StatusFailed, Failed,
      Some(ExecutionError(InternalCategory, "failed to resolve provider: " + message, false)), 0, 0, [])
  }

  function StreamResult(end: StreamEnd): Result {
    match end
    case OpenFailed(e) => Result(StatusFailed, Failed, Some(ToExecutionError(e)), 0, 0, [])
    case Drained => Result(StatusSucceeded, Succeeded, None, 0, 0, [])
    case OutOfTime(e) => Result(StatusTimedOut, TimedOut, Some(ToExecutionError(e)), 0, 0, [])
  }

  // The retry loop of a run that gets that far; one without attempts stands for all others.
  const NO_LOOP := End(0, Complete, None, None)

  predicate EntersLoop(c: Case) {
    !c.w.panics(StartedEvent) && !c.w.panics(ResolveProvider) && c.resolveError.None? && c.stream.None?
      && c.chain.before.Passes?
  }

  function LoopOf(c: Case): End { if EntersLoop(c) then WholeLoop(c.w, c.policy.maxAttempts) else NO_LOOP }

  predicate LoopPanics(e: End) { e.how.WaitPanic? || e.how.JudgePanic? || e.how.AttemptPanic? }

  // The answer that reaches handleResult, or None after a panic in the loop or the middleware.
  function Final(c: Case): Option<Answer> {
    match c.chain.before
    case Panics => None
    case Answers(a) => Some(a)
    case Passes => if LoopPanics(LoopOf(c)) then None else c.chain.after(Answer(LoopOf(c).res, LoopOf(c).err))
  }

  // The result the run writes, or None when it panics before writing one.
  function Written(c: Case): Option<Result> {
    if c.w.panics(StartedEvent) || c.w.panics(ResolveProvider) then None
    else if c.resolveError.Some? then Some(ResolveFailure(c.resolveError.value))
    else if c.stream.Some? then if c.w.panics(StreamOpening) then None else Some(StreamResult(c.stream.value))
    else if Final(c).None? then None
    else Verdict(Final(c).value.res, Final(c).value.err, Records(c.w, LoopOf(c).k))
  }

  // Publishing the written result panics.
  predicate PublishPanics(c: Case)
    requires Written(c).Some?
  {
    if c.resolveError.Some? then c.w.panics(ResolveFailedEvent)
    else if c.stream.Some? then c.w.panics(StreamEvent)
    else c.w.panics(OutcomeEvent) || ReadsNilError(Written(c).value)
  }

  predicate Overwritten(c: Case) { Written(c).Some? && PublishPanics(c) }

  // The result the run leaves behind: the recovery block's after any panic.
  function RunResult(c: Case): Result {
    if Written(c).None? || PublishPanics(c) then PANICKED else Written(c).value
  }

  // ---------------------------------------------------------------- what a run does, step by step

  // The writes of the execution's state, and the two acts that end a run.
  datatype Move = Begin | Wait | Resume | Write(state: ExecState) | Release | Notify

  function WaitMoves(n: nat): seq<Move> { if n == 0 then [] else WaitMoves(n - 1) + [Wait, Resume] }

  // A run that waits through n backoffs, perhaps ends inside another wait, writes a final state,
  // perhaps has it overwritten by the recovery block, and then releases and notifies.
  function Moves(n: nat, waiting: bool, written: ExecState, overwritten: bool): seq<Move> {
    [Begin] + WaitMoves(n) + (if waiting then [Wait] else []) + [Write(written)]
    + (if overwritten then [Write(Failed)] else []) + [Release, Notify]
  }

  function RunMoves(c: Case): seq<Move> {
    Moves(Resumed(LoopOf(c)), EndsWaiting(LoopOf(c)),
          if Written(c).Some? then Written(c).value.state else Failed, Overwritten(c))
  }

  // ---------------------------------------------------------------- the execution object

  class Execution {
    var state: ExecState
    var attempts: seq<Attempt>
    var result: Option<Result>

    // What the run did to the manager: receives from the semaphore, and notifications.
    var receives: nat
    var notifies: nat

    ghost var moves: seq<Move>

    constructor (s: ExecState)
      ensures state == s && attempts == [] && result == None && receives == notifies == 0 && moves == []
    {
      state, attempts, result, receives, notifies, moves := s, [], None, 0, 0, [];
    }

    method RunSingleAttempt(w: World, attempt: nat) returns (res: Option<Result>, err: Option<Error>, panicked: bool)
      modifies this`attempts
      ensures panicked <==> !Made(w, attempt)
      ensures attempts == if w.panics(InAttempt(attempt)) then old(attempts) else old(attempts) + [RecordOf(w, attempt)]
      ensures !panicked ==> res == ResultOf(w.outcome(attempt)) && err == ErrorOf(w.outcome(attempt))
    {
      res, err, panicked := None, None, false;
      if w.panics(InAttempt(attempt)) { return None, None, true; }
      match w.outcome(attempt) {
        case Answered(r, e) =>
          if e.None? {
            attempts := attempts + [Attempt(attempt, None)];
            res := r;
          } else {
            attempts := attempts + [Attempt(attempt, Some(ToExecutionError(e.value)))];
            err := e;
          }
        case Expired(whole) =>
          var lastErr := if whole then DEADLINE else ATTEMPT_TIMEOUT;
          attempts := attempts + [Attempt(attempt, Some(ToExecutionError(lastErr)))];
          err := Some(lastErr);
      }
      if w.panics(AfterAttempt(attempt)) { panicked := true; }
    }

    method WaitBackoff(w: World, policy: Policy, attempt: nat) returns (err: Option<Error>, delay: int, panicked: bool)
      requires FairDraws(w) && Fits(policy.baseDelay) && Fits(policy.maxDelay) && 1 <= attempt && Fits(attempt)
      modifies this`state, this`moves
      ensures delay == Requested(w, policy, attempt) && panicked == w.panics(RetryEvent(attempt))
      ensures !panicked ==> (err.Some? <==> w.interrupt(attempt).Some?)
      ensures !panicked && err.Some? ==> err.value == Plain(w.interrupt(attempt).value)
      ensures state == if panicked || err.Some? then Retrying else Running
      ensures moves == old(moves) + if panicked || err.Some? then [Wait] else [Wait, Resume]
    {
      delay := CalculateBackoff(Some(policy), attempt - 1, w.draw(attempt));
      state, moves := Retrying, moves + [Wait];
      if w.panics(RetryEvent(attempt)) { return None, delay, true; }
      if w.interrupt(attempt).None? {
        state, moves := Running, moves + [Resume];
        return None, delay, false;
      }
      return Some(Plain(w.interrupt(attempt).value)), delay, false;
    }

    // delays lists the backoff delays asked for.
    method ExecuteAttempts(w: World, policy: Policy)
      returns (res: Option<Result>, err: Option<Error>, delays: seq<int>, panicked: bool)
      requires FairDraws(w) && Fits(policy.baseDelay) && Fits(policy.maxDelay) && Fits(policy.maxAttempts)
      requires attempts == []
      modifies this`state, this`attempts, this`moves
      ensures var e := WholeLoop(w, policy.maxAttempts);
        && attempts == Records(w, e.k) && panicked == LoopPanics(e)
        && (!panicked ==> res == e.res && err == e.err)
        && moves == old(moves) + WaitMoves(Resumed(e)) + (if EndsWaiting(e) then [Wait] else [])
        && |delays| == Backoffs(e)
      ensures forall i :: 0 <= i < |delays| ==> delays[i] == Requested(w, policy, i + 2)
    {
      hide Fits, FairDraws, Failing, Delay, Requested, WaitMoves, Records, Loop, Made;
      OneMoreWait(0);
      OneMoreRecord(w, 0);
      res, err, delays, panicked := None, None, [], false;
      var max := policy.maxAttempts;
      var attempt := 1;
      while attempt <= max
        invariant 1 <= attempt && (max >= 1 ==> attempt <= max) && (max < 1 ==> attempt == 1)
        invariant attempts == Records(w, attempt - 1)
        invariant attempt == 1 ==> delays == [] && moves == old(moves) && res == None && err == None
        invariant attempt > 1 ==> |delays| == attempt - 2 && moves == old(moves) + WaitMoves(attempt - 2)
        invariant forall i :: 0 <= i < |delays| ==> delays[i] == Requested(w, policy, i + 2)
        invariant attempt > 1 ==> Made(w, attempt - 1) && Failing(w, attempt - 1)
        invariant attempt > 1 ==> WholeLoop(w, max) == Loop(w, max, attempt - 1)
        invariant !panicked
        decreases max - attempt
      {
        if attempt > 1 {
          LoopStep(w, max, attempt - 1);
          OneMoreWait(attempt - 2);
          var cut, delay;
          assert Fits(attempt) by { FitsBetween(attempt, max); }
          cut, delay, panicked := WaitBackoff(w, policy, attempt);
          delays := delays + [delay];
          if panicked { return; }
          if cut.Some? {
            res, err := None, cut;
            return;
          }
          assert WholeLoop(w, max) == Loop(w, max, attempt);
        }
        var stop;
        res, err, panicked, stop := TryAttempt(w, max, attempt);
        if stop { return; }
        attempt := attempt + 1;
      }
    }

    // One attempt and its judgement; stop says that the loop ends here.
    method TryAttempt(w: World, max: int, attempt: nat)
      returns (res: Option<Result>, err: Option<Error>, panicked: bool, stop: bool)
      requires 1 <= attempt <= max && attempts == Records(w, attempt - 1)
      modifies this`attempts
      ensures stop ==> var e := Loop(w, max, attempt);
        && attempts == Records(w, e.k) && panicked == LoopPanics(e) && (!panicked ==> res == e.res && err == e.err)
        && !EndsWaiting(e) && Resumed(e) == attempt - 1
      ensures !stop ==>
        !panicked && attempt < max && Made(w, attempt) && Failing(w, attempt) && attempts == Records(w, attempt)
    {
      hide Records, RecordOf, Loop;
      LoopStep(w, max, attempt);
      OneMoreRecord(w, attempt);
      res, err, panicked := RunSingleAttempt(w, attempt);
      stop := panicked || err.None? || !Retryable(w, err.value) || attempt == max;
    }

    // panicked stands for the nil dereference in translateError.
    method HandleResult(res: Option<Result>, err: Option<Error>) returns (panicked: bool)
      modifies this`state, this`result, this`moves
      ensures panicked <==> Verdict(res, err, attempts).None?
      ensures !panicked ==>
        result == Verdict(res, err, attempts) && state == result.value.state && moves == old(moves) + [Write(state)]
      ensures panicked ==> state == old(state) && result == old(result) && moves == old(moves)
    {
      if err.None? && res.Some? {
        var r := res.value;
        if r.error.Some? || (r.status != NoStatus && r.status != StatusSucceeded) {
          if r.state == NoState { r := r.(state := Failed); }
          WriteResult(r);
          return false;
        }
        r := r.(state := Succeeded, status := StatusSucceeded,
                attemptCount := |attempts|, retryCount := |attempts| - 1, attempts := attempts);
        WriteResult(r);
        return false;
      }
      if err.None? { return true; }
      var finalState, status;
      match err.value {
        case Platform(TimeoutCategory, _, _) => finalState, status := TimedOut, StatusTimedOut;
        case Platform(CancelledCategory, _, _) => finalState, status := Cancelled, StatusCancelled;
        case _ => finalState, status := Failed, StatusFailed;
      }
      WriteResult(Result(status, finalState, Some(ToExecutionError(err.value)), |attempts|, |attempts| - 1, attempts));
      return false;
    }

    method WriteResult(r: Result)
      modifies this`state, this`result, this`moves
      ensures state == r.state && result == Some(r) && moves == old(moves) + [Write(r.state)]
    {
      state, result, moves := r.state, Some(r), moves + [Write(r.state)];
    }

    method ReleaseSlots()
      modifies this`receives, this`moves
      ensures receives == old(receives) + 1 && moves == old(moves) + [Release]
    {
      receives, moves := receives + 1, moves + [Release];
    }

    method NotifyWaiters()
      modifies this`notifies, this`moves
      ensures notifies == old(notifies) + 1 && moves == old(moves) + [Notify]
    {
      notifies, moves := notifies + 1, moves + [Notify];
    }

    method RunStream(c: Case) returns (panicked: bool)
      requires c.stream.Some?
      modifies this`state, this`result, this`receives, this`notifies, this`moves
      ensures panicked <==> c.w.panics(StreamOpening) || c.w.panics(StreamEvent)
      ensures if c.w.panics(StreamOpening) then state == old(state) && result == old(result)
              else result == Some(StreamResult(c.stream.value)) && state == result.value.state
      ensures receives == old(receives) + (if panicked then 0 else 1)
        && notifies == old(notifies) + (if panicked then 0 else 1)
      ensures moves == old(moves)
        + (if c.w.panics(StreamOpening) then [] else [Write(StreamResult(c.stream.value).state)])
                       + (if panicked then [] else [Release, Notify])
    {
      if c.w.panics(StreamOpening) { return true; }
      match c.stream.value {
        case OpenFailed(e) =>
          WriteResult(Result(StatusFailed, Failed, Some(ToExecutionError(e)), 0, 0, []));
          if c.w.panics(StreamEvent) { return true; }
          ReleaseSlots();
          NotifyWaiters();
        case Drained =>
          WriteResult(Result(StatusSucceeded, Succeeded, None, 0, 0, []));
          if c.w.panics(StreamEvent) { return true; }
          ReleaseSlots();
          NotifyWaiters();
        case OutOfTime(e) =>
          WriteResult(Result(StatusTimedOut, TimedOut, Some(ToExecutionError(e)), 0, 0, []));
          if c.w.panics(StreamEvent) { return true; }
          ReleaseSlots();
          NotifyWaiters();
      }
      return false;
    }

    // The middleware around the retry loop; panicked covers both.
    method Handle(c: Case) returns (res: Option<Result>, err: Option<Error>, delays: seq<int>, panicked: bool)
      requires FairDraws(c.w) && Fits(c.policy.baseDelay) && Fits(c.policy.maxDelay) && Fits(c.policy.maxAttempts)
      requires attempts == [] && (c.chain.before.Passes? <==> EntersLoop(c))
      modifies this`state, this`attempts, this`moves
      ensures panicked <==> Final(c).None?
      ensures !panicked ==> Final(c) == Some(Answer(res, err))
      ensures attempts == Records(c.w, LoopOf(c).k) && |delays| == Backoffs(LoopOf(c))
      ensures moves == old(moves) + WaitMoves(Resumed(LoopOf(c))) + (if EndsWaiting(LoopOf(c)) then [Wait] else [])
      ensures forall i :: 0 <= i < |delays| ==> delays[i] == Requested(c.w, c.policy, i + 2)
    {
      hide WholeLoop, Requested, WaitMoves;
      res, err, delays, panicked := None, None, [], false;
      match c.chain.before {
        case Panics =>
          NothingWaited(c.w);
          panicked := true;
        case Answers(a) =>
          NothingWaited(c.w);
          res, err := a.res, a.err;
        case Passes =>
          res, err, delays, panicked := ExecuteAttempts(c.w, c.policy);
          if panicked { return; }
          var a := c.chain.after(Answer(res, err));
          if a.None? { panicked := true; } else { res, err := a.value.res, a.value.err; }
      }
    }

    // runExecution up to its recovery block; panicked tells that the block is entered.
    method RunBody(c: Case) returns (delays: seq<int>, panicked: bool)
      requires FairDraws(c.w) && Fits(c.policy.baseDelay) && Fits(c.policy.maxDelay) && Fits(c.policy.maxAttempts)
      requires attempts == [] && moves == []
      modifies this
      ensures panicked <==> Written(c).None? || PublishPanics(c)
      ensures !panicked ==> result == Written(c) && state == result.value.state
      ensures receives == old(receives) + (if panicked then 0 else 1)
        && notifies == old(notifies) + (if panicked then 0 else 1)
      ensures moves == [Begin] + LoopMoves(c) + (if panicked then [] else [Release, Notify])
      ensures attempts == Records(c.w, LoopOf(c).k) && |delays| == Backoffs(LoopOf(c))
      ensures forall i :: 0 <= i < |delays| ==> delays[i] == Requested(c.w, c.policy, i + 2)
    {
      hide WholeLoop, Requested, WaitMoves, Verdict, Final, Records;
      NothingWaited(c.w);
      delays, panicked := [], true;
      state, moves := Running, [Begin];
      if c.w.panics(StartedEvent) { return; }
      if c.w.panics(ResolveProvider) { return; }
      if c.resolveError.Some? {
        WriteResult(ResolveFailure(c.resolveError.value));
        if c.w.panics(ResolveFailedEvent) { return; }
        ReleaseSlots();
        NotifyWaiters();
        return delays, false;
      }
      if c.stream.Some? {
        panicked := RunStream(c);
        return;
      }
      delays, panicked := RunCall(c);
    }

    // The part of a run without stream that follows the resolution of the provider.
    method RunCall(c: Case) returns (delays: seq<int>, panicked: bool)
      requires FairDraws(c.w) && Fits(c.policy.baseDelay) && Fits(c.policy.maxDelay) && Fits(c.policy.maxAttempts)
      requires attempts == [] && c.resolveError.None? && c.stream.None?
      requires !c.w.panics(StartedEvent) && !c.w.panics(ResolveProvider)
      modifies this
      ensures panicked <==> Written(c).None? || PublishPanics(c)
      ensures !panicked ==> result == Written(c) && state == result.value.state
      ensures receives == old(receives) + (if panicked then 0 else 1)
        && notifies == old(notifies) + (if panicked then 0 else 1)
      ensures moves == old(moves) + LoopMoves(c) + (if panicked then [] else [Release, Notify])
      ensures attempts == Records(c.w, LoopOf(c).k) && |delays| == Backoffs(LoopOf(c))
      ensures forall i :: 0 <= i < |delays| ==> delays[i] == Requested(c.w, c.policy, i + 2)
    {
      hide WholeLoop, Requested, WaitMoves, Verdict, Final;
      var res, err;
      res, err, delays, panicked := Handle(c);
      if panicked { return; }
      panicked := HandleResult(res, err);
      if panicked { return; }
      if c.w.panics(OutcomeEvent) || ReadsNilError(result.value) { return delays, true; }
      ReleaseSlots();
      NotifyWaiters();
      return delays, false;
    }

    // A whole run, by whatever exit or panic: it leaves the result of the specification, with
    // its attempt records and backoffs; it receives from the semaphore exactly once and notifies
    // exactly once, in this order, after its last write of the state.
    method RunExecution(c: Case) returns (delays: seq<int>)
      requires FairDraws(c.w) && Fits(c.policy.baseDelay) && Fits(c.policy.maxDelay) && Fits(c.policy.maxAttempts)
      requires attempts == [] && moves == []
      modifies this
      ensures result == Some(RunResult(c)) && state == RunResult(c).state
      ensures receives == old(receives) + 1 && notifies == old(notifies) + 1
      ensures moves == RunMoves(c)
      ensures attempts == Records(c.w, LoopOf(c).k) && |delays| == Backoffs(LoopOf(c))
      ensures forall i :: 0 <= i < |delays| ==> delays[i] == Requested(c.w, c.policy, i + 2)
      ensures forall i :: 0 <= i < |delays| ==>
        if c.policy.jitter && Delay(c.policy, i + 1) > 0 then 0 <= delays[i] < Delay(c.policy, i + 1)
        else delays[i] == Delay(c.policy, i + 1)
    {
      hide WholeLoop, Requested, WaitMoves, Written, Final;
      var panicked;
      delays, panicked := RunBody(c);
      if panicked {
        WriteResult(PANICKED);
        ReleaseSlots();
        NotifyWaiters();
      }
      forall i | 0 <= i < |delays|
        ensures if c.policy.jitter && Delay(c.policy, i + 1) > 0 then 0 <= delays[i] < Delay(c.policy, i + 1)
          else delays[i] == Delay(c.policy, i + 1)
      {
        RequestedRange(c.w, c.policy, i + 2);
      }
    }
  }

  // The wait before attempt n asks for the delay of attempt n - 1, or with jitter for less.
  lemma RequestedRange(w: World, policy: Policy, n: nat)
    requires FairDraws(w)
    ensures var d := Delay(policy, n - 1);
      if policy.jitter && d > 0 then 0 <= Requested(w, policy, n) < d else Requested(w, policy, n) == d
  {
    hide Delay;
  }

  // The moves of the loop and the first write of the result.
  function LoopMoves(c: Case): seq<Move> {
    WaitMoves(Resumed(LoopOf(c))) + (if EndsWaiting(LoopOf(c)) then [Wait] else [])
    + (if Written(c).Some? then [Write(Written(c).value.state)] else [])
  }

  lemma OneMoreWait(n: nat)
    ensures WaitMoves(n + 1) == WaitMoves(n) + [Wait, Resume] && WaitMoves(0) == []
  {
  }

  lemma OneMoreRecord(w: World, n: nat)
    ensures Records(w, 0) == [] && (n > 0 ==> Records(w, n) == Records(w, n - 1) + [RecordOf(w, n)])
  {
  }

  // One unfolding of the loop.
  lemma LoopStep(w: World, max: int, n: nat)
    requires 1 <= n <= max
    ensures w.panics(InAttempt(n)) ==> Loop(w, max, n) == End(n - 1, AttemptPanic, None, None)
    ensures !w.panics(InAttempt(n)) && w.panics(AfterAttempt(n)) ==> Loop(w, max, n) == End(n, JudgePanic, None, None)
    ensures Made(w, n) <==> !w.panics(InAttempt(n)) && !w.panics(AfterAttempt(n))
    ensures Made(w, n) && (n == max || !Failing(w, n)) ==>
      Loop(w, max, n) == End(n, Complete, ResultOf(w.outcome(n)), ErrorOf(w.outcome(n)))
    ensures Made(w, n) && n < max && Failing(w, n) ==>
      Loop(w, max, n) ==
        if w.panics(RetryEvent(n + 1)) then End(n, WaitPanic, None, None)
        else if w.interrupt(n + 1).Some? then End(n, WaitCut, None, Some(Plain(w.interrupt(n + 1).value)))
        else Loop(w, max, n + 1)
  {
  }

  lemma NothingWaited(w: World)
    ensures WaitMoves(0) == [] && Records(w, 0) == []
  {
  }

  lemma FitsBetween(n: int, max: int)
    requires 1 <= n <= max && Fits(max)
    ensures Fits(n)
  {
  }

  // ---------------------------------------------------------------- attempts and delays

  function Sum(s: seq<int>): int { if s == [] then 0 else s[0] + Sum(s[1..]) }

  lemma {:induction false} SumBound(s: seq<int>, bound: int)
    requires forall i :: 0 <= i < |s| ==> s[i] <= bound
    ensures Sum(s) <= |s| * bound
  {
    if s != [] {
      SumBound(s[1..], bound);
      assert (|s| - 1) * bound + bound == |s| * bound;
    }
  }

  lemma FewerBackoffs(c: Case)
    requires c.policy.maxAttempts >= 1
    ensures Backoffs(LoopOf(c)) <= c.policy.maxAttempts - 1
  {
    LoopMeaning(c.w, c.policy.maxAttempts, 1);
  }

  // The waits of one run ask for at most (MaxAttempts - 1) * MaxDelay in total.
  lemma TotalBackoff(c: Case, delays: seq<int>)
    requires FairDraws(c.w) && c.policy.maxDelay > 0 && c.policy.maxAttempts >= 1
    requires |delays| == Backoffs(LoopOf(c))
    requires forall i :: 0 <= i < |delays| ==> delays[i] == Requested(c.w, c.policy, i + 2)
    ensures Sum(delays) <= (c.policy.maxAttempts - 1) * c.policy.maxDelay
  {
    hide Requested, Backoffs, FairDraws;
    FewerBackoffs(c);
    forall i | 0 <= i < |delays| ensures delays[i] <= c.policy.maxDelay { RequestedAtMostMax(c.w, c.policy, i + 2); }
    SumBound(delays, c.policy.maxDelay);
    MulMonotone(c.policy.maxDelay, |delays|, c.policy.maxAttempts - 1);
  }

  // AttemptCount is the number of attempts recorded whenever an error, or a result that reports
  // no failure, reaches handleResult and is published; an error decides the state by its category.
  lemma AttemptsCounted(c: Case)
    requires Written(c).Some? && !PublishPanics(c) && c.resolveError.None? && c.stream.None?
    ensures var a := Final(c).value;
      a.err.Some? || !ReportsFailure(a.res.value) ==>
        RunResult(c).attemptCount == LoopOf(c).k == |RunResult(c).attempts|
        && (a.err.Some? ==> RunResult(c).state == FinalState(a.err.value))
  {
  }

  // ---------------------------------------------------------------- which errors are retried

  // Once attempt n < MaxAttempts is recorded, and nothing panics or cuts the wait after it
  // short, attempt n + 1 is recorded exactly in these cases. Without a RetryableCheck: after a
  // platform error that is marked retryable, after any other error, and after the attempt's own
  // timeout; not after an answer without error, nor when the whole execution is out of time. A
  // RetryableCheck decides alone on every error, timeouts included.
  lemma NextAttemptIff(w: World, max: int, n: nat)
    requires 1 <= n < max && WholeLoop(w, max).k >= n
    requires !w.panics(AfterAttempt(n)) && !w.panics(RetryEvent(n + 1)) && !w.panics(InAttempt(n + 1))
    requires w.interrupt(n + 1).None?
    ensures WholeLoop(w, max).k < n + 1 ==> WholeLoop(w, max).k == n
    ensures var again := WholeLoop(w, max).k >= n + 1;
      match w.outcome(n)
      case Answered(_, None) => !again
      case Answered(_, Some(e)) =>
        if w.check.Some? then again <==> w.check.value(e)
        else (match e case Platform(_, _, retryable) => again <==> retryable case Plain(_) => again)
      case Expired(whole) =>
        if w.check.None? then again <==> !whole
        else if whole then
          again <==> w.check.value(Platform(TimeoutCategory, "execution exceeded configured deadline", false))
        else again <==> w.check.value(Platform(TimeoutCategory, "per-attempt timeout exceeded", true))
  {
    LoopMeaning(w, max, 1);
    assert WholeLoop(w, max).k > n ==> GoesOn(w, n);
  }

  // ---------------------------------------------------------------- what each end records

  // The three ends of a stream, unless something panics: an error on opening is FAILED with
  // that error, a closed channel SUCCEEDED without error, and the end of the context TIMED_OUT
  // with its error.
  lemma StreamEnds(c: Case)
    requires c.stream.Some? && c.resolveError.None?
    requires !c.w.panics(StartedEvent) && !c.w.panics(ResolveProvider)
    requires !c.w.panics(StreamOpening) && !c.w.panics(StreamEvent)
    ensures match c.stream.value
      case OpenFailed(e) =>
        && RunResult(c).state == Failed && RunResult(c).status == StatusFailed
        && RunResult(c).error == Some(ToExecutionError(e))
      case Drained =>
        RunResult(c).state == Succeeded && RunResult(c).status == StatusSucceeded && RunResult(c).error == None
      case OutOfTime(e) =>
        && RunResult(c).state == TimedOut && RunResult(c).status == StatusTimedOut
        && RunResult(c).error == Some(ToExecutionError(e))
  {
  }

  // Every panic, and a provider that does not resolve, is recorded as an internal failure that
  // is not retryable, with its own text.
  lemma FailuresRecorded(c: Case)
    ensures Written(c).None? || PublishPanics(c) ==>
      && RunResult(c).state == Failed && RunResult(c).status == StatusFailed
      && RunResult(c).error == Some(ExecutionError(InternalCategory, "internal panic", false))
    ensures c.resolveError.Some? && Written(c).Some? && !PublishPanics(c) ==>
      && RunResult(c).state == Failed && RunResult(c).status == StatusFailed
      && RunResult(c).error
         == Some(ExecutionError(InternalCategory, "failed to resolve provider: " + c.resolveError.value, false))
  {
  }

  // An error that reaches handleResult is recorded with its category, text and flag (an error
  // of another kind as an internal, not retryable one); timeouts end TIMED_OUT, cancellations
  // CANCELLED, everything else FAILED, each with the status of the same name.
  lemma ErrorsRecorded(c: Case)
    requires Written(c).Some? && !PublishPanics(c) && c.resolveError.None? && c.stream.None?
    requires Final(c).value.err.Some?
    ensures match Final(c).value.err.value
      case Platform(cat, text, retryable) =>
        && RunResult(c).error == Some(ExecutionError(cat, text, retryable))
        && (cat == TimeoutCategory ==> RunResult(c).state == TimedOut && RunResult(c).status == StatusTimedOut)
        && (cat == CancelledCategory ==> RunResult(c).state == Cancelled && RunResult(c).status == StatusCancelled)
        && (cat !in {TimeoutCategory, CancelledCategory} ==>
              RunResult(c).state == Failed && RunResult(c).status == StatusFailed)
      case Plain(text) =>
        && RunResult(c).error == Some(ExecutionError(InternalCategory, text, false))
        && RunResult(c).state == Failed && RunResult(c).status == StatusFailed
  {
  }

  // A result that reaches handleResult without an error: it ends SUCCEEDED when it carries
  // neither an error nor a status other than success; otherwise in the state it names, FAILED
  // if it names none. One that is none of SUCCEEDED, TIMED_OUT and CANCELLED must carry an
  // error, or publishing it panics.
  lemma ResultsRecorded(c: Case)
    requires Final(c).Some? && Final(c).value.err.None? && Final(c).value.res.Some?
    requires c.resolveError.None? && c.stream.None?
    requires !c.w.panics(StartedEvent) && !c.w.panics(ResolveProvider) && !c.w.panics(OutcomeEvent)
    ensures var r := Final(c).value.res.value;
      if r.error.None? && r.status in {NoStatus, StatusSucceeded} then
        RunResult(c).state == Succeeded && RunResult(c).status == StatusSucceeded && RunResult(c).error == None
      else if r.error.None? && r.state !in {Succeeded, TimedOut, Cancelled} then
        && RunResult(c).state == Failed
        && RunResult(c).error == Some(ExecutionError(InternalCategory, "internal panic", false))
      else
        RunResult(c).state == (if r.state == NoState then Failed else r.state) && RunResult(c).error == r.error
  {
  }

  // The k-th record has number k, and an error exactly when attempt k did not answer cleanly.
  lemma AttemptsRecorded(w: World, k: nat, n: nat)
    requires 1 <= n <= k
    ensures Records(w, k)[n - 1].number == n
    ensures var error := Records(w, k)[n - 1].error;
      match w.outcome(n)
      case Answered(_, None) => error == None
      case Answered(_, Some(Platform(cat, text, r))) => error == Some(ExecutionError(cat, text, r))
      case Answered(_, Some(Plain(text))) => error == Some(ExecutionError(InternalCategory, text, false))
      case Expired(whole) => error.Some? && error.value.category == TimeoutCategory && error.value.retryable == !whole
  {
  }

  // ---------------------------------------------------------------- final states of runs without middleware

  // A run with no stream and no middleware whose provider resolves.
  function Direct(w: World, policy: Policy): Case { Case(w, policy, None, None, NO_CHAIN) }

  // Attempt k is made, after retryable failures only, and ends the loop; nothing around the loop panics.
  predicate Last(w: World, max: int, k: nat) {
    && 1 <= k <= max && Made(w, k) && (forall i: nat :: 1 <= i < k ==> GoesOn(w, i))
    && (k == max || !Failing(w, k))
    && !w.panics(StartedEvent) && !w.panics(ResolveProvider) && !w.panics(OutcomeEvent)
  }

  lemma LastEnds(w: World, policy: Policy, k: nat)
    requires Last(w, policy.maxAttempts, k)
    ensures LoopOf(Direct(w, policy)) == End(k, Complete, ResultOf(w.outcome(k)), ErrorOf(w.outcome(k)))
    ensures Final(Direct(w, policy)) == Some(Answer(ResultOf(w.outcome(k)), ErrorOf(w.outcome(k))))
  {
    LoopReaches(w, policy.maxAttempts, 1, k);
  }

  // The state a run leaves that ends with this outcome of its last attempt.
  function StateAfter(o: Outcome): ExecState {
    if ErrorOf(o).Some? then FinalState(ErrorOf(o).value)
    else if ResultOf(o).None? then Failed
    else if !ReportsFailure(ResultOf(o).value) then Succeeded
    else if ResultOf(o).value.state == NoState || ReadsNilError(ResultOf(o).value) then Failed
    else ResultOf(o).value.state
  }

  // Either some attempt is the last one, and its outcome alone decides the state; or the run is
  // FAILED: a wait was cut short, something panicked, or no attempt was allowed.
  lemma StateDecided(w: World, policy: Policy)
    ensures forall k :: Last(w, policy.maxAttempts, k) ==>
      RunResult(Direct(w, policy)).state == StateAfter(w.outcome(k))
    ensures (forall k :: !Last(w, policy.maxAttempts, k)) ==> RunResult(Direct(w, policy)).state == Failed
  {
    var c, max := Direct(w, policy), policy.maxAttempts;
    forall k | Last(w, max, k) ensures RunResult(c).state == StateAfter(w.outcome(k)) {
      LastEnds(w, policy, k);
    }
    if forall k :: !Last(w, max, k) {
      if max >= 1 {
        LoopMeaning(w, max, 1);
        assert !Last(w, max, LoopOf(c).k);
      }
    }
  }

  // Attempt k is the last and answers without an error, with a result that reports no failure.
  predicate CleanEnd(w: World, max: int, k: nat) {
    Last(w, max, k) && ResultOf(w.outcome(k)).Some? && !ReportsFailure(ResultOf(w.outcome(k)).value)
  }

  // Attempt k is the last and its result reports a failure but carries the state SUCCEEDED.
  predicate Contradiction(w: World, max: int, k: nat) {
    Last(w, max, k) && ResultOf(w.outcome(k)).Some? && ReportsFailure(ResultOf(w.outcome(k)).value)
    && ResultOf(w.outcome(k)).value.state.Succeeded?
  }

  // SUCCEEDED means that the last attempt answered cleanly, exactly when that attempt's result
  // does not contradict itself.
  lemma SucceedsIff(w: World, policy: Policy)
    ensures (RunResult(Direct(w, policy)).state.Succeeded? <==> exists k :: CleanEnd(w, policy.maxAttempts, k))
       <==> !(exists k :: Contradiction(w, policy.maxAttempts, k))
  {
    var max := policy.maxAttempts;
    StateDecided(w, policy);
    if k :| Last(w, max, k) {
      forall i | Last(w, max, i) ensures i == k { OneLast(w, max, i, k); }
      assert Contradiction(w, max, k) || CleanEnd(w, max, k) || !StateAfter(w.outcome(k)).Succeeded?;
    }
  }

  lemma OneLast(w: World, max: int, i: nat, k: nat)
    requires Last(w, max, i) && Last(w, max, k)
    ensures i == k
  {
    assert i != k ==> GoesOn(w, if i < k then i else k);
  }

  // A result that reports an error and yet carries the state SUCCEEDED makes the run SUCCEEDED.
  lemma ContradictoryResultSucceeds(e: ExecutionError)
    ensures var r := Result(StatusFailed, Succeeded, Some(e), 0, 0, []);
      var w := World(_ => Answered(Some(r), None), _ => None, None, _ => _ => 0, _ => false);
      var p := Policy(1, Constant, 0, 0, false);
      Contradiction(w, 1, 1) && RunResult(Direct(w, p)) == r
  {
    var r := Result(StatusFailed, Succeeded, Some(e), 0, 0, []);
    var w := World(_ => Answered(Some(r), None), _ => None, None, _ => _ => 0, _ => false);
    LastEnds(w, Policy(1, Constant, 0, 0, false), 1);
  }

  // The last attempt expired, or the provider itself answered that it timed out.
  predicate EndsTimedOut(o: Outcome) {
    match o
    case Expired(_) => true
    case Answered(r, Some(e)) => e.Platform? && e.category.TimeoutCategory?
    case Answered(r, None) => r.Some? && ReportsFailure(r.value) && r.value.state.TimedOut?
  }

  // Exactly the runs whose last attempt expired (or reports a timeout itself) end TIMED_OUT.
  lemma TimedOutIff(w: World, policy: Policy)
    ensures RunResult(Direct(w, policy)).state.TimedOut?
       <==> exists k :: Last(w, policy.maxAttempts, k) && EndsTimedOut(w.outcome(k))
  {
    StateDecided(w, policy);
  }

  // A RUNNING execution is cancelled while attempt n is made or before the wait after it is
  // entered, so that this wait, if the loop asks for one, is cut short. It is not always
  // reported as a timeout: it ends TIMED_OUT exactly when no wait follows attempt n and the
  // attempt was cut off (or answered itself that it timed out), FAILED when a wait follows or
  // when the provider's own plain error won the race, and otherwise as the attempt ended.
  lemma CancelledRunState(w: World, policy: Policy, n: nat)
    requires 1 <= n <= policy.maxAttempts && Made(w, n) && forall i: nat :: 1 <= i < n ==> GoesOn(w, i)
    requires !w.panics(StartedEvent) && !w.panics(ResolveProvider) && !w.panics(OutcomeEvent)
    requires n < policy.maxAttempts && Failing(w, n) ==> w.interrupt(n + 1).Some?
    ensures var st := RunResult(Direct(w, policy)).state; var waits := n < policy.maxAttempts && Failing(w, n);
      && (st.TimedOut? <==> !waits && EndsTimedOut(w.outcome(n)))
      && (waits || (ErrorOf(w.outcome(n)).Some? && ErrorOf(w.outcome(n)).value.Plain?) ==> st == Failed)
      && (!waits ==> st == StateAfter(w.outcome(n)))
  {
    StateDecided(w, policy);
    LoopReaches(w, policy.maxAttempts, 1, n);
    if n < policy.maxAttempts && Failing(w, n) {
      forall k | Last(w, policy.maxAttempts, k) ensures false { LastEnds(w, policy, k); }
    } else {
      assert Last(w, policy.maxAttempts, n);
    }
  }

  // Both happen: cut off in the attempt, the run is TIMED_OUT; cancelled after a retryable
  // failure, before the wait, it is FAILED.
  lemma CancelledRunWitnesses() returns (timedOut: World, failed: World, p: Policy)
    ensures timedOut.outcome(1) == Expired(true) && RunResult(Direct(timedOut, p)).state == TimedOut
    ensures failed.interrupt(2) == Some("context canceled") && RunResult(Direct(failed, p)).state == Failed
  {
    p := Policy(2, Constant, 0, 0, false);
    timedOut := World(_ => Expired(true), _ => None, None, _ => _ => 0, _ => false);
    failed := timedOut.(outcome := _ => Answered(None, Some(Plain("busy"))),
                        interrupt := _ => Some("context canceled"));
    CancelledRunState(timedOut, p, 1);
    CancelledRunState(failed, p, 1);
  }
}

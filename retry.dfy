/** The login retry machine both agents run: up to three attempts, a
    backoff sleep after every failed attempt but the last, and a terminal
    error chosen by how the last attempt failed. An attempt is a function
    of the agent's state, so the same machine serves both agents. */
module Retry {
  import opened Wrappers
  import opened Browser

  const MaxRetries: nat := 3

  /** How one login attempt ends: the login check passes, it fails, or the
      attempt raises. */
  datatype AttemptOutcome = Validated | NotValidated | AttemptRaised(error: Raised)

  /** The exceptions `login` raises to its caller. */
  datatype LoginFailure =
    | TimeoutError(message: string)
    | LoginError(message: string)
    | ProxyAuthenticationError(message: string)

  datatype LoginResult = LoggedIn | LoginFailed(failure: LoginFailure)

  /** What `login` did: its result, how many attempts it made, and the
      backoff sleeps it performed, in seconds, in order. */
  datatype LoginRun = LoginRun(result: LoginResult, attempts: nat, sleeps: seq<int>)

  const TimedOutMessage: string := "Login timed out after 3 attempts"
  const InvalidCredentialsDetail: string := "Invalid credentials or login process failed"

  const FailedPrefix: string := "Login failed after 3 attempts: "

  function FailedMessage(detail: string): string {
    FailedPrefix + detail
  }

  function Pow2(k: nat): nat {
    if k == 0 then 1 else 2 * Pow2(k - 1)
  }

  /** `[2**i for i in range(1, max_retries + 1)]`. */
  function BackoffSchedule(maxRetries: nat): (delays: seq<int>)
    ensures |delays| == maxRetries
    ensures forall i :: 0 <= i < maxRetries ==> delays[i] == Pow2(i + 1)
  {
    if maxRetries == 0 then [] else BackoffSchedule(maxRetries - 1) + [Pow2(maxRetries)]
  }

  /** The Rapras schedule is 2, 4, 8 seconds. */
  lemma BackoffScheduleValues()
    ensures BackoffSchedule(MaxRetries) == [2, 4, 8]
  {
    assert Pow2(1) == 2 && Pow2(2) == 4 && Pow2(3) == 8;
  }

  /** The exception the last attempt's exception turns into. */
  function FinalFailure(e: Raised): LoginFailure {
    match e
    case Timeout(_) => TimeoutError(TimedOutMessage)
    case Failure(m) => LoginError(FailedMessage(m))
  }

  /** What the caller sees when `outcome` ends the run. */
  function Terminal(outcome: AttemptOutcome): LoginResult {
    match outcome
    case Validated => LoggedIn
    case NotValidated => LoginFailed(LoginError(FailedMessage(InvalidCredentialsDetail)))
    case AttemptRaised(e) => LoginFailed(FinalFailure(e))
  }

  /** Whether the run stops after `outcome` at index `attempt`: on success,
      and on an exception in the last attempt. */
  predicate Stops(attempt: nat, outcome: AttemptOutcome) {
    outcome.Validated? || (outcome.AttemptRaised? && attempt >= MaxRetries - 1)
  }

  /** `_retry_with_backoff(attempt)`, performed only when `attempt < 2`. */
  function Backoff(attempt: nat, delays: seq<int>): seq<int>
    requires |delays| >= MaxRetries - 1
  {
    if attempt < MaxRetries - 1 then [delays[attempt]] else []
  }

  /** The `for attempt in range(3)` loop of `login` from index `attempt`
      on: `step` runs one attempt on the agent's state. Returns the run and
      the final state. */
  function RunFrom<S>(s: S, step: (S, nat) -> (AttemptOutcome, S), delays: seq<int>, attempt: nat)
    : (LoginRun, S)
    requires |delays| >= MaxRetries - 1
    decreases MaxRetries - attempt
  {
    if attempt >= MaxRetries then (LoginRun(Terminal(NotValidated), 0, []), s)
    else
      var (o, s1) := step(s, attempt);
      if Stops(attempt, o) then (LoginRun(Terminal(o), 1, []), s1)
      else
        var (rest, s2) := RunFrom(s1, step, delays, attempt + 1);
        (LoginRun(rest.result, rest.attempts + 1, Backoff(attempt, delays) + rest.sleeps), s2)
  }

  /** A run from index `n` on, seen from the start: the `n` attempts
      already made and the sleeps already taken come first. */
  function Prefixed<S>(n: nat, sleeps: seq<int>, tail: (LoginRun, S)): (LoginRun, S) {
    (LoginRun(tail.0.result, tail.0.attempts + n, sleeps + tail.0.sleeps), tail.1)
  }

  /** How a loop running the machine one attempt at a time advances it:
      an attempt that does not stop the run adds its backoff to the sleeps
      taken and moves on to the next index. */
  lemma PrefixedContinue<S>(s: S, step: (S, nat) -> (AttemptOutcome, S), delays: seq<int>, attempt: nat,
                            sleeps: seq<int>)
    requires |delays| >= MaxRetries - 1 && attempt < MaxRetries
    requires !Stops(attempt, step(s, attempt).0)
    ensures Prefixed(attempt, sleeps, RunFrom(s, step, delays, attempt))
            == Prefixed(attempt + 1, sleeps + Backoff(attempt, delays),
                        RunFrom(step(s, attempt).1, step, delays, attempt + 1))
  {
    var rest := RunFrom(step(s, attempt).1, step, delays, attempt + 1);
    assert sleeps + (Backoff(attempt, delays) + rest.0.sleeps)
           == (sleeps + Backoff(attempt, delays)) + rest.0.sleeps;
  }

  /** An attempt that stops the run ends it with the result it decides. */
  lemma PrefixedStop<S>(s: S, step: (S, nat) -> (AttemptOutcome, S), delays: seq<int>, attempt: nat,
                        sleeps: seq<int>)
    requires |delays| >= MaxRetries - 1 && attempt < MaxRetries
    requires Stops(attempt, step(s, attempt).0)
    ensures Prefixed(attempt, sleeps, RunFrom(s, step, delays, attempt))
            == (LoginRun(Terminal(step(s, attempt).0), attempt + 1, sleeps), step(s, attempt).1)
  {
    assert sleeps + [] == sleeps;
  }

  /** Running out of attempts ends the run with the invalid-credentials
      failure. */
  lemma PrefixedExhausted<S>(s: S, step: (S, nat) -> (AttemptOutcome, S), delays: seq<int>, sleeps: seq<int>)
    requires |delays| >= MaxRetries - 1
    ensures Prefixed(MaxRetries, sleeps, RunFrom(s, step, delays, MaxRetries))
            == (LoginRun(Terminal(NotValidated), MaxRetries, sleeps), s)
  {
    assert sleeps + [] == sleeps;
  }

  /** The loop's starting point: nothing done yet. */
  lemma PrefixedStart<S>(s: S, step: (S, nat) -> (AttemptOutcome, S), delays: seq<int>)
    requires |delays| >= MaxRetries - 1
    ensures Prefixed(0, [], RunFrom(s, step, delays, 0)) == RunFrom(s, step, delays, 0)
  {
    assert [] + RunFrom(s, step, delays, 0).0.sleeps == RunFrom(s, step, delays, 0).0.sleeps;
  }

  /** The state after `n` attempts starting at index `attempt`. */
  function StateFrom<S>(s: S, step: (S, nat) -> (AttemptOutcome, S), attempt: nat, n: nat): S
    decreases n
  {
    if n == 0 then s else StateFrom(step(s, attempt).1, step, attempt + 1, n - 1)
  }

  /** The outcome of the `n`-th attempt counted from index `attempt`. */
  function OutcomeFrom<S>(s: S, step: (S, nat) -> (AttemptOutcome, S), attempt: nat, n: nat)
    : AttemptOutcome
  {
    step(StateFrom(s, step, attempt, n), attempt + n).0
  }

  /** The retry machine: at least one and at most the remaining attempts;
      one backoff before every attempt after the first, taken from the
      schedule in order; every attempt but the last failed; the run stops
      early only on success; the result is decided by the last attempt,
      and the final state is the one that attempt left. */
  lemma {:induction false} RunFromSpec<S>(s: S, step: (S, nat) -> (AttemptOutcome, S),
                                          delays: seq<int>, attempt: nat)
    requires |delays| >= MaxRetries - 1 && attempt < MaxRetries
    ensures var run := RunFrom(s, step, delays, attempt).0;
            var final := RunFrom(s, step, delays, attempt).1;
            && 1 <= run.attempts <= MaxRetries - attempt
            && run.sleeps == delays[attempt..attempt + run.attempts - 1]
            && final == StateFrom(s, step, attempt, run.attempts)
            && (forall n :: 0 <= n < run.attempts - 1 ==> !OutcomeFrom(s, step, attempt, n).Validated?)
            && (run.attempts < MaxRetries - attempt ==> OutcomeFrom(s, step, attempt, run.attempts - 1).Validated?)
            && run.result == Terminal(OutcomeFrom(s, step, attempt, run.attempts - 1))
    decreases MaxRetries - attempt
  {
    var (o, s1) := step(s, attempt);
    assert OutcomeFrom(s, step, attempt, 0) == o;
    if !Stops(attempt, o) && attempt + 1 < MaxRetries {
      RunFromSpec(s1, step, delays, attempt + 1);
      var (rest, s2) := RunFrom(s1, step, delays, attempt + 1);
      assert delays[attempt..attempt + 1 + rest.attempts - 1]
             == [delays[attempt]] + delays[attempt + 1..attempt + 1 + rest.attempts - 1];
    }
  }

  /** `login` from its first attempt: at most three attempts and at most
      two sleeps, which are the first entries of the schedule. */
  lemma LoginRunBounds<S>(s: S, step: (S, nat) -> (AttemptOutcome, S), delays: seq<int>)
    requires |delays| >= MaxRetries - 1
    ensures var run := RunFrom(s, step, delays, 0).0;
            && 1 <= run.attempts <= MaxRetries
            && |run.sleeps| == run.attempts - 1 <= MaxRetries - 1
            && run.sleeps == delays[..run.attempts - 1]
  {
    RunFromSpec(s, step, delays, 0);
  }

  /** From index `attempt` on, the run succeeds exactly when one of the
      remaining attempts validates. */
  lemma {:induction false} RunSucceedsIff<S>(s: S, step: (S, nat) -> (AttemptOutcome, S),
                                             delays: seq<int>, attempt: nat)
    requires |delays| >= MaxRetries - 1 && attempt < MaxRetries
    ensures RunFrom(s, step, delays, attempt).0.result == LoggedIn
            <==> exists k :: 0 <= k < MaxRetries - attempt && OutcomeFrom(s, step, attempt, k).Validated?
    decreases MaxRetries - attempt
  {
    var (o, s1) := step(s, attempt);
    assert OutcomeFrom(s, step, attempt, 0) == o;
    if !Stops(attempt, o) && attempt + 1 < MaxRetries {
      RunSucceedsIff(s1, step, delays, attempt + 1);
      forall k | 1 <= k < MaxRetries - attempt
        ensures OutcomeFrom(s, step, attempt, k) == OutcomeFrom(s1, step, attempt + 1, k - 1)
      {
        assert StateFrom(s, step, attempt, k) == StateFrom(s1, step, attempt + 1, k - 1);
      }
      if exists k :: 0 <= k < MaxRetries - attempt && OutcomeFrom(s, step, attempt, k).Validated? {
        var k :| 0 <= k < MaxRetries - attempt && OutcomeFrom(s, step, attempt, k).Validated?;
        assert k > 0 && OutcomeFrom(s1, step, attempt + 1, k - 1).Validated?;
      }
      if RunFrom(s1, step, delays, attempt + 1).0.result == LoggedIn {
        var k :| 0 <= k < MaxRetries - (attempt + 1) && OutcomeFrom(s1, step, attempt + 1, k).Validated?;
        assert OutcomeFrom(s, step, attempt, k + 1).Validated?;
      }
    } else if !Stops(attempt, o) {
      assert RunFrom(s1, step, delays, attempt + 1).0.result == Terminal(NotValidated);
    }
  }

  /** `login` succeeds exactly when one of its three attempts validates. */
  lemma LoginSucceedsIff<S>(s: S, step: (S, nat) -> (AttemptOutcome, S), delays: seq<int>)
    requires |delays| >= MaxRetries - 1
    ensures RunFrom(s, step, delays, 0).0.result == LoggedIn
            <==> exists k :: 0 <= k < MaxRetries && OutcomeFrom(s, step, 0, k).Validated?
  {
    RunSucceedsIff(s, step, delays, 0);
  }

  /** How a failed `login` ends: after three attempts, with the error the
      third attempt's outcome decides: a timeout gives the timeout error,
      any other exception a `LoginError` carrying its message, and a failed
      check the invalid-credentials `LoginError`. */
  lemma LoginFailureKinds<S>(s: S, step: (S, nat) -> (AttemptOutcome, S), delays: seq<int>)
    requires |delays| >= MaxRetries - 1
    ensures var run := RunFrom(s, step, delays, 0).0;
            var last := OutcomeFrom(s, step, 0, 2);
            run.result.LoginFailed? ==>
              && run.attempts == 3
              && |run.sleeps| == 2
              && (last.AttemptRaised? && last.error.Timeout? ==> run.result.failure == TimeoutError(TimedOutMessage))
              && ((last.AttemptRaised? && last.error.Failure?)
                  ==> run.result.failure == LoginError(FailedMessage(last.error.message)))
              && (last.NotValidated? ==> run.result.failure == LoginError(FailedMessage(InvalidCredentialsDetail)))
  {
    RunFromSpec(s, step, delays, 0);
  }

  /** The machine itself never raises `ProxyAuthenticationError`: that
      error comes only from the proxy check before it. */
  lemma LoginRunNeverProxyError<S>(s: S, step: (S, nat) -> (AttemptOutcome, S), delays: seq<int>)
    requires |delays| >= MaxRetries - 1
    ensures var run := RunFrom(s, step, delays, 0).0;
            && 1 <= run.attempts <= MaxRetries
            && !(run.result.LoginFailed? && run.result.failure.ProxyAuthenticationError?)
  {
    RunFromSpec(s, step, delays, 0);
  }
}

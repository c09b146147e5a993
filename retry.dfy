/**
 * The send loop that each service client repeats (`send` in `src/ec2.rs`, `src/s3.rs`,
 * `src/ssm.rs` and `src/secretsmanager.rs`): the signed request is re-sent until an
 * attempt succeeds or a failure arrives when the retry counter has already reached 3.
 * Every failure is retried alike; before the `k`-th retry (`k > 0`) the loop sleeps `k * 10` ms.
 */
module Retry {
  import opened Wrappers

  /** The counter value at which a failure is returned instead of retried. */
  const MaxRetries: nat := 3
  const MaxAttempts: nat := MaxRetries + 1

  /** A finished loop: the result, what each attempt sent, and the sleeps (in ms) in order. */
  datatype Run<P, R, E> = Run(result: Result<R, E>, sent: seq<P>, sleeps: seq<nat>)

  /** The sleep taken after a failure when the counter stands at `retries`. */
  function Pause(retries: nat): seq<nat> {
    if retries > 0 then [retries * 10] else []
  }

  /**
   * The loop as a state machine, from the state in which the counter reads `retries`:
   * attempt number `retries` is made with `call`, its error converted with `into`.
   */
  function SpecFrom<P, R, E0, E>(payload: P, call: (P, nat) -> Result<R, E0>, into: E0 -> E,
                                 retries: nat): Run<P, R, E>
    requires retries <= MaxRetries
    decreases MaxRetries - retries
  {
    var outcome := call(payload, retries).MapFailure(into);
    if outcome.Success? || retries >= MaxRetries then Run(outcome, [payload], [])
    else
      var rest := SpecFrom(payload, call, into, retries + 1);
      Run(rest.result, [payload] + rest.sent, Pause(retries) + rest.sleeps)
  }

  function Spec<P, R, E0, E>(payload: P, call: (P, nat) -> Result<R, E0>, into: E0 -> E): Run<P, R, E> {
    SpecFrom(payload, call, into, 0)
  }

  /** The sleeps taken after failures at counters `from`, `from + 1`, ..., `from + n - 1`. */
  function Pauses(from: nat, n: nat): seq<nat>
    decreases n
  {
    if n == 0 then [] else Pause(from) + Pauses(from + 1, n - 1)
  }

  /** The sleeps of a loop that made `attempts` attempts. */
  function Backoff(attempts: nat): seq<nat> {
    Pauses(0, if attempts > 0 then attempts - 1 else 0)
  }

  /** No sleep before the 2nd attempt, 10 ms before the 3rd and 20 ms before the 4th. */
  lemma BackoffValues()
    ensures Backoff(1) == [] && Backoff(2) == [] && Backoff(3) == [10] && Backoff(4) == [10, 20]
  {
    assert Pauses(3, 0) == [];
    assert Pauses(2, 1) == [20];
    assert Pauses(1, 2) == [10, 20];
  }

  lemma {:induction false} SpecFromShape<P, R, E0, E>(payload: P, call: (P, nat) -> Result<R, E0>,
                                                      into: E0 -> E, retries: nat)
    requires retries <= MaxRetries
    ensures 1 <= |SpecFrom(payload, call, into, retries).sent| <= MaxAttempts - retries
    ensures forall i :: 0 <= i < |SpecFrom(payload, call, into, retries).sent| ==>
      SpecFrom(payload, call, into, retries).sent[i] == payload
    ensures forall i :: retries <= i < retries + |SpecFrom(payload, call, into, retries).sent| - 1 ==>
      call(payload, i).Failure?
    ensures SpecFrom(payload, call, into, retries).result ==
      call(payload, retries + |SpecFrom(payload, call, into, retries).sent| - 1).MapFailure(into)
    ensures SpecFrom(payload, call, into, retries).result.Failure? ==>
      retries + |SpecFrom(payload, call, into, retries).sent| == MaxAttempts
    ensures SpecFrom(payload, call, into, retries).sleeps ==
      Pauses(retries, |SpecFrom(payload, call, into, retries).sent| - 1)
    decreases MaxRetries - retries
  {
    var outcome := call(payload, retries).MapFailure(into);
    if !(outcome.Success? || retries >= MaxRetries) {
      SpecFromShape(payload, call, into, retries + 1);
      var rest := SpecFrom(payload, call, into, retries + 1);
      var run := SpecFrom(payload, call, into, retries);
      assert run.sent == [payload] + rest.sent;
      assert run.sleeps == Pause(retries) + rest.sleeps;
      assert forall i :: 1 <= i < |run.sent| ==> run.sent[i] == rest.sent[i - 1];
    }
  }

  /**
   * The loop makes between 1 and 4 attempts, each sending the same payload; every attempt
   * but the last failed; the result is the last attempt's outcome, and it is a failure only
   * after the 4th attempt; the sleeps are those of `Backoff`.
   */
  lemma SpecShape<P, R, E0, E>(payload: P, call: (P, nat) -> Result<R, E0>, into: E0 -> E)
    ensures 1 <= |Spec(payload, call, into).sent| <= MaxAttempts
    ensures forall i :: 0 <= i < |Spec(payload, call, into).sent| ==> Spec(payload, call, into).sent[i] == payload
    ensures forall i :: 0 <= i < |Spec(payload, call, into).sent| - 1 ==> call(payload, i).Failure?
    ensures Spec(payload, call, into).result == call(payload, |Spec(payload, call, into).sent| - 1).MapFailure(into)
    ensures Spec(payload, call, into).result.Failure? ==> |Spec(payload, call, into).sent| == MaxAttempts
    ensures Spec(payload, call, into).sleeps == Backoff(|Spec(payload, call, into).sent|)
  {
    SpecFromShape(payload, call, into, 0);
  }

  /** The first success ends the loop: no later attempt is made. */
  lemma FirstSuccessStops<P, R, E0, E>(payload: P, call: (P, nat) -> Result<R, E0>, into: E0 -> E, n: nat)
    requires n < MaxAttempts
    requires call(payload, n).Success?
    requires forall i :: 0 <= i < n ==> call(payload, i).Failure?
    ensures var run := Spec(payload, call, into);
      && |run.sent| == n + 1
      && run.result == Success(call(payload, n).value)
      && run.sleeps == Backoff(n + 1)
  {
    SpecShape(payload, call, into);
  }

  /** When every attempt fails the loop makes exactly 4 attempts, sleeps 10 then 20 ms, and returns the 4th error. */
  lemma AllFailuresExhaust<P, R, E0, E>(payload: P, call: (P, nat) -> Result<R, E0>, into: E0 -> E)
    requires forall i :: 0 <= i < MaxAttempts ==> call(payload, i).Failure?
    ensures var run := Spec(payload, call, into);
      && |run.sent| == MaxAttempts
      && run.result == Failure(into(call(payload, MaxAttempts - 1).error))
      && run.sleeps == [10, 20]
  {
    SpecShape(payload, call, into);
    BackoffValues();
  }

  /**
   * The loop never looks at the kind of a failure: two networks whose attempts succeed and
   * fail at the same points, with the same successes, give runs of the same length, the same
   * sleeps and the same success.
   */
  lemma {:induction false} KindOfFailureIgnored<P, R, E0, E>(payload: P, call1: (P, nat) -> Result<R, E0>,
                                                           call2: (P, nat) -> Result<R, E0>, into: E0 -> E,
                                                           retries: nat)
    requires retries <= MaxRetries
    requires forall i :: retries <= i <= MaxRetries ==>
      call1(payload, i).Success? == call2(payload, i).Success? &&
      (call1(payload, i).Success? ==> call1(payload, i) == call2(payload, i))
    ensures var run1, run2 := SpecFrom(payload, call1, into, retries), SpecFrom(payload, call2, into, retries);
      && run1.sent == run2.sent
      && run1.sleeps == run2.sleeps
      && run1.result.Success? == run2.result.Success?
      && (run1.result.Success? ==> run1.result == run2.result)
    decreases MaxRetries - retries
  {
    if retries < MaxRetries && call1(payload, retries).Failure? {
      KindOfFailureIgnored(payload, call1, call2, into, retries + 1);
    }
  }

  /** A run whose first attempts and sleeps are already known, followed by the rest of the loop. */
  function After<P, R, E>(sent: seq<P>, sleeps: seq<nat>, rest: Run<P, R, E>): Run<P, R, E> {
    Run(rest.result, sent + rest.sent, sleeps + rest.sleeps)
  }

  /** A success, or any failure once the counter has reached 3, ends the loop with that outcome. */
  lemma Stop<P, R, E0, E>(payload: P, call: (P, nat) -> Result<R, E0>, into: E0 -> E, retries: nat,
                          sent: seq<P>, sleeps: seq<nat>)
    requires retries <= MaxRetries
    requires call(payload, retries).Success? || retries == MaxRetries
    ensures After(sent, sleeps, SpecFrom(payload, call, into, retries)) ==
      Run(call(payload, retries).MapFailure(into), sent + [payload], sleeps)
  {
    assert sleeps + [] == sleeps;
  }

  /** A failure below the bound records the attempt and the pause, and the loop goes on. */
  lemma Continue<P, R, E0, E>(payload: P, call: (P, nat) -> Result<R, E0>, into: E0 -> E, retries: nat,
                              sent: seq<P>, sleeps: seq<nat>)
    requires retries < MaxRetries
    requires call(payload, retries).Failure?
    ensures After(sent, sleeps, SpecFrom(payload, call, into, retries)) ==
      After(sent + [payload], sleeps + Pause(retries), SpecFrom(payload, call, into, retries + 1))
  {
    var next := SpecFrom(payload, call, into, retries + 1);
    assert sent + ([payload] + next.sent) == sent + [payload] + next.sent;
    assert sleeps + (Pause(retries) + next.sleeps) == sleeps + Pause(retries) + next.sleeps;
  }

  /**
   * The loop itself, as the clients write it.  `call` is the network (attempt number to
   * outcome), `into` is the error conversion applied with `map_err(Into::into)`.
   */
  method Loop<P, R, E0, E>(payload: P, call: (P, nat) -> Result<R, E0>, into: E0 -> E) returns (run: Run<P, R, E>)
    ensures run == Spec(payload, call, into)
    ensures 1 <= |run.sent| <= MaxAttempts
    ensures forall i :: 0 <= i < |run.sent| ==> run.sent[i] == payload
    ensures run.result == call(payload, |run.sent| - 1).MapFailure(into)
    ensures run.result.Failure? ==> |run.sent| == MaxAttempts
    ensures run.sleeps == Backoff(|run.sent|)
  {
    var retries: nat := 0;
    var sent: seq<P> := [];
    var sleeps: seq<nat> := [];
    while true
      invariant retries <= MaxRetries
      invariant Spec(payload, call, into) == After(sent, sleeps, SpecFrom(payload, call, into, retries))
      decreases MaxRetries - retries
    {
      var outcome := call(payload, retries).MapFailure(into);
      if outcome.Success? || retries >= MaxRetries {
        Stop(payload, call, into, retries, sent, sleeps);
        run := Run(outcome, sent + [payload], sleeps);
        break;
      }
      Continue(payload, call, into, retries, sent, sleeps);
      sent := sent + [payload];
      if retries > 0 {
        sleeps := sleeps + [retries * 10];
      }
      retries := retries + 1;
    }
    SpecShape(payload, call, into);
  }
}

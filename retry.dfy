/** `retry.Do`: call an operation until it succeeds or the attempt budget is spent. */
module Retry {
  import opened Errors
  import Decimal

  /** Go's `int` on the 64-bit platforms the service targets. */
  newtype int64 = x: int | -0x8000_0000_0000_0000 <= x < 0x8000_0000_0000_0000

  /** The right-hand side of the exit test `i >= (attempts - 1)`, computed in Go's
      wrapping `int` arithmetic: `attempts - 1` modulo 2^64, in the `int64` range. */
  function Limit(attempts: int64): (r: int64)
    ensures (attempts as int - 1 - r as int) % 0x1_0000_0000_0000_0000 == 0
  {
    if attempts as int == -0x8000_0000_0000_0000 then 0x7fff_ffff_ffff_ffff else attempts - 1
  }

  /** How many calls `Do` makes at most: one more than the first counter value that
      passes the exit test, which runs only after a call. A non-positive budget
      allows one call, except `math.MinInt64`, where `attempts - 1` wraps to
      `math.MaxInt64`. */
  function Budget(attempts: int64): (n: nat)
    ensures n >= 1 && n >= attempts as int
    ensures attempts >= 1 ==> n == attempts as int
    ensures -0x8000_0000_0000_0000 < attempts as int <= 0 ==> n == 1
    ensures attempts as int == -0x8000_0000_0000_0000 ==> n == 0x8000_0000_0000_0000
  {
    if Limit(attempts) <= 0 then 1 else Limit(attempts) as int + 1
  }

  /** The error text on exhaustion. It names the `attempts` argument, not the number
      of calls made. */
  function ExhaustedMessage(attempts: int64, last: string): string
  {
    "after " + Decimal.IntToString(attempts as int) + " attempts, last error: " + last
  }

  /** What one run of `Do` observably does: its result, how often it called the
      operation and how often it slept. */
  datatype Attempts = Attempts(err: Status, calls: nat, sleeps: nat)

  /** The outcome of `Do` once calls `0 .. i-1` have failed; `fn(j)` is the result
      of the operation's `j`-th call. */
  function RetryFrom(attempts: int64, fn: nat -> Status, i: nat): (r: Attempts)
    requires i < Budget(attempts)
    decreases Budget(attempts) - i
    ensures i + 1 <= r.calls <= Budget(attempts)
    ensures r.sleeps + 1 == r.calls
    ensures forall j :: i <= j < r.calls - 1 ==> fn(j).Err?
    ensures r.err.Nil? <==> fn(r.calls - 1).Nil?
    ensures r.err.Err? ==>
              r.calls == Budget(attempts) &&
              r.err == Err(ExhaustedMessage(attempts, fn(r.calls - 1).msg))
  {
    match fn(i)
    case Nil => Attempts(Nil, i + 1, i)
    case Err(e) =>
      if i >= Limit(attempts) as int then Attempts(Err(ExhaustedMessage(attempts, e)), i + 1, i)
      else RetryFrom(attempts, fn, i + 1)
  }

  /** The whole run of `Do(attempts, sleep, fn)`. */
  function Outcome(attempts: int64, fn: nat -> Status): Attempts
  {
    RetryFrom(attempts, fn, 0)
  }

  /** `Do` proper. `slept` lists the durations passed to `time.Sleep`, in order. */
  method Do(attempts: int64, sleep: int, fn: nat -> Status)
    returns (err: Status, calls: nat, slept: seq<int>)
    ensures Attempts(err, calls, |slept|) == Outcome(attempts, fn)
    ensures forall k :: 0 <= k < |slept| ==> slept[k] == sleep
  {
    var i: nat := 0;
    calls, slept := 0, [];
    while true
      invariant i < Budget(attempts)
      invariant calls == i && |slept| == i
      invariant forall k :: 0 <= k < |slept| ==> slept[k] == sleep
      invariant RetryFrom(attempts, fn, i) == Outcome(attempts, fn)
      decreases Budget(attempts) - i
    {
      err := fn(i);
      calls := calls + 1;
      if err.Nil? {
        return;
      }
      if i >= Limit(attempts) as int {
        break;
      }
      slept := slept + [sleep];
      i := i + 1;
    }
    err := Err(ExhaustedMessage(attempts, err.msg));
  }

  /** The operation always runs at least once, whatever `attempts` is. */
  lemma CalledAtLeastOnce(attempts: int64, fn: nat -> Status)
    ensures Outcome(attempts, fn).calls >= 1
  {
  }

  /** An operation that never succeeds is called exactly `Budget(attempts)` times and
      its last error is reported. */
  lemma AlwaysFailing(attempts: int64, fn: nat -> Status)
    requires forall j :: fn(j).Err?
    ensures Outcome(attempts, fn).calls == Budget(attempts)
    ensures Outcome(attempts, fn).sleeps == Budget(attempts) - 1
    ensures Outcome(attempts, fn).err == Err(ExhaustedMessage(attempts, fn(Budget(attempts) - 1).msg))
  {
  }

  /** `k` failures followed by a success within the budget: `nil` after `k + 1` calls. */
  lemma FailThenSucceed(attempts: int64, fn: nat -> Status, k: nat)
    requires k < attempts as int
    requires forall j :: 0 <= j < k ==> fn(j).Err?
    requires fn(k).Nil?
    ensures Outcome(attempts, fn) == Attempts(Nil, k + 1, k)
  {
  }

  /** The first success ends the run: no later call is made. */
  lemma StopsAtFirstSuccess(attempts: int64, fn: nat -> Status)
    ensures Outcome(attempts, fn).err.Nil? ==>
              forall j :: 0 <= j < Outcome(attempts, fn).calls - 1 ==> fn(j).Err?
  {
  }

  /** With `attempts == 0` one call is made, yet the message says "after 0 attempts". */
  lemma ZeroAttemptsMessage(fn: nat -> Status)
    requires forall j :: fn(j) == Err("boom")
    ensures Outcome(0, fn) == Attempts(Err("after 0 attempts, last error: boom"), 1, 0)
  {
    assert Decimal.IntToString(0) == "0";
    assert ExhaustedMessage(0, "boom") == "after 0 attempts, last error: boom";
    assert Limit(0) == -1 && Budget(0) == 1;
    AlwaysFailing(0, fn);
    assert fn(0).msg == "boom";
  }

  /** `attempts == math.MinInt64`: `attempts - 1` wraps to `math.MaxInt64`, so an
      operation that always fails is called 2^63 times. */
  lemma MinAttemptsWraps(fn: nat -> Status)
    requires forall j :: fn(j).Err?
    ensures Outcome(-0x8000_0000_0000_0000, fn).calls == 0x8000_0000_0000_0000
  {
    AlwaysFailing(-0x8000_0000_0000_0000, fn);
  }

  /** Three attempts, two failures then success: three calls and two sleeps. */
  lemma ThreeAttemptsTwoFailures(fn: nat -> Status)
    requires fn(0).Err? && fn(1).Err? && fn(2).Nil?
    ensures Outcome(3, fn) == Attempts(Nil, 3, 2)
  {
    FailThenSucceed(3, fn, 2);
  }

  /** Three attempts that all fail: three calls and the message names the count. */
  lemma ThreeAttemptsAllFail(fn: nat -> Status)
    requires forall j :: fn(j) == Err("down")
    ensures Outcome(3, fn) == Attempts(Err("after 3 attempts, last error: down"), 3, 2)
  {
    assert Decimal.IntToString(3) == "3";
    assert ExhaustedMessage(3, "down") == "after 3 attempts, last error: down";
    assert Limit(3) == 2 && Budget(3) == 3;
    AlwaysFailing(3, fn);
    assert fn(2).msg == "down";
  }
}

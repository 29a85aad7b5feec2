/**
 * The retry policy that internal/services/rpc_client.go writes out three
 * times: at most three attempts, stopping at the first success, and a sleep
 * of i + 1 seconds after failed attempt i (0-based), the last one included.
 *
 * A remote call is scripted: `replies(c)` is the outcome of the c-th call of
 * that kind, and a loop that starts when `first` calls have been made sees
 * `replies(first)`, `replies(first + 1)`, ... in turn.
 */
module Retry {
  import opened Wrappers

  const MaxAttempts: nat := 3

  /** The 0-based attempt at which a loop now at attempt `i` stops. */
  function StopFrom<T, E>(replies: nat -> Result<T, E>, first: nat, i: nat): (k: nat)
    requires i < MaxAttempts
    ensures i <= k < MaxAttempts
    decreases MaxAttempts - i
  {
    if replies(first + i).Success? || i == MaxAttempts - 1 then i else StopFrom(replies, first, i + 1)
  }

  /** The number of calls the loop makes. */
  function Attempts<T, E>(replies: nat -> Result<T, E>, first: nat): (n: nat)
    ensures 1 <= n <= MaxAttempts
  {
    StopFrom(replies, first, 0) + 1
  }

  /** The reply the loop ends with: its first success, or its last failure. */
  function Outcome<T, E>(replies: nat -> Result<T, E>, first: nat): Result<T, E>
  {
    replies(first + Attempts(replies, first) - 1)
  }

  /** The sleeps, in seconds, after the first n failed attempts: 1, 2, ..., n. */
  function Backoff(n: nat): (delays: seq<nat>)
    ensures |delays| == n && forall i | 0 <= i < n :: delays[i] == i + 1
  {
    if n == 0 then [] else Backoff(n - 1) + [n]
  }

  /** The sleeps of one run of the loop: one per failed attempt. */
  function Sleeps<T, E>(replies: nat -> Result<T, E>, first: nat): seq<nat>
  {
    var n := Attempts(replies, first);
    Backoff(if Outcome(replies, first).Success? then n - 1 else n)
  }

  /** `n` copies of `x`: the requests a loop of `n` attempts sends. */
  function Repeat<X>(x: X, n: nat): (s: seq<X>)
    ensures |s| == n && forall i | 0 <= i < n :: s[i] == x
  {
    if n == 0 then [] else Repeat(x, n - 1) + [x]
  }

  lemma {:induction false} StopFromSpec<T, E>(replies: nat -> Result<T, E>, first: nat, i: nat)
    requires i < MaxAttempts
    ensures forall c | first + i <= c < first + StopFrom(replies, first, i) :: replies(c).Failure?
    ensures replies(first + StopFrom(replies, first, i)).Success? || StopFrom(replies, first, i) == MaxAttempts - 1
    decreases MaxAttempts - i
  {
    if !(replies(first + i).Success? || i == MaxAttempts - 1) {
      StopFromSpec(replies, first, i + 1);
    }
  }

  /**
   * A loop whose attempts before `i` all failed, and which succeeds at `i` or
   * has no attempt left after it, stops at `i`.
   */
  lemma {:induction false} StopFromIs<T, E>(replies: nat -> Result<T, E>, first: nat, j: nat, i: nat)
    requires j <= i < MaxAttempts
    requires forall c | first + j <= c < first + i :: replies(c).Failure?
    requires replies(first + i).Success? || i == MaxAttempts - 1
    ensures StopFrom(replies, first, j) == i
    decreases i - j
  {
    if j < i {
      StopFromIs(replies, first, j + 1, i);
    }
  }

  /**
   * The loop stops at the first success: every earlier attempt failed, it
   * fails only when all three attempts fail, and then it has slept 1, 2 and 3
   * seconds.
   */
  lemma RetryStopsAtFirstSuccess<T, E>(replies: nat -> Result<T, E>, first: nat)
    ensures forall c | first <= c < first + Attempts(replies, first) - 1 :: replies(c).Failure?
    ensures Outcome(replies, first).Success?
        <==> exists c | first <= c < first + MaxAttempts :: replies(c).Success?
    ensures Outcome(replies, first).Failure?
        ==> Attempts(replies, first) == MaxAttempts && Sleeps(replies, first) == [1, 2, 3]
    ensures Outcome(replies, first).Success? ==> |Sleeps(replies, first)| == Attempts(replies, first) - 1
  {
    StopFromSpec(replies, first, 0);
    if Outcome(replies, first).Failure? {
      assert Backoff(3) == [1, 2, 3];
    }
  }

  /**
   * Retrying is transparent to the caller: succeeding on the third attempt
   * yields the same reply as succeeding on the first; only the number of calls
   * and the sleeps differ.
   */
  lemma RetryTransparent<T, E>(
    replies1: nat -> Result<T, E>, first1: nat, replies2: nat -> Result<T, E>, first2: nat, v: T)
    requires replies1(first1).Failure? && replies1(first1 + 1).Failure?
    requires replies1(first1 + 2) == Success(v)
    requires replies2(first2) == Success(v)
    ensures Outcome(replies1, first1) == Outcome(replies2, first2) == Success(v)
    ensures Attempts(replies1, first1) == 3 && Sleeps(replies1, first1) == [1, 2]
    ensures Attempts(replies2, first2) == 1 && Sleeps(replies2, first2) == []
  {
    StopFromIs(replies1, first1, 0, 2);
    StopFromIs(replies2, first2, 0, 0);
    assert Backoff(2) == [1, 2];
  }
}

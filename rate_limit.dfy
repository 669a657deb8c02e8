/**
 * The sign-in rate limiter: failed attempts are counted within a sliding window,
 * the fifth one locks the form for fifteen minutes, and a countdown reports the
 * time left. The clock is the `now` parameter of each operation, in
 * milliseconds; the browser's stored copy of the state is the constructor's
 * argument.
 */
module RateLimit {
  import opened Common
  import opened Text

  const MaxAttempts := 5
  const LockoutDurationMs := 15 * 60 * 1000
  const AttemptWindowMs := 5 * 60 * 1000

  /**
   * `{attempts, lockoutUntil, lastAttempt}`; a `lastAttempt` of 0 means no
   * attempt is on record.
   */
  datatype RateState = RateState(attempts: int, lockoutUntil: Option<int>, lastAttempt: int)

  const Cleared := RateState(0, None, 0)

  /** `lockoutUntil` is truthy: present and not zero. */
  predicate LockoutSet(s: RateState)
  {
    s.lockoutUntil.Some? && s.lockoutUntil.value != 0
  }

  /** The previous failure is on record and lies more than the window before `now`. */
  predicate WindowExpired(s: RateState, now: int)
  {
    s.lastAttempt != 0 && now - s.lastAttempt > AttemptWindowMs
  }

  /** The state after a failed attempt at `now`. */
  function AfterFailure(prev: RateState, now: int): (r: RateState)
    ensures r.lastAttempt == now
    ensures WindowExpired(prev, now) ==> r.attempts == 1
    ensures !WindowExpired(prev, now) ==> r.attempts == prev.attempts + 1
    ensures r.attempts >= MaxAttempts ==> r.lockoutUntil == Some(now + LockoutDurationMs)
    ensures r.attempts < MaxAttempts ==> r.lockoutUntil == prev.lockoutUntil
  {
    var attempts := if WindowExpired(prev, now) then 1 else prev.attempts + 1;
    RateState(attempts, if attempts >= MaxAttempts then Some(now + LockoutDurationMs) else prev.lockoutUntil, now)
  }

  /**
   * `isLocked`: a lockout is set and has not yet passed. `FiveQuickFailuresLock`
   * and `ExpiryUnlocks` say when a run of failures sets it and when it clears.
   */
  predicate IsLocked(s: RateState, now: int): (r: bool)
    ensures !LockoutSet(s) ==> !r
    ensures r <==> s.lockoutUntil.Some? && s.lockoutUntil.value != 0 && now < s.lockoutUntil.value
    ensures r ==> RemainingSeconds(s.lockoutUntil.value - now) >= 1
  {
    LockoutSet(s) && now < s.lockoutUntil.value
  }

  /** `Math.ceil(ms / 1000)` for a positive number of milliseconds. */
  function RemainingSeconds(ms: int): (r: int)
    requires ms > 0
    ensures r >= 1
    ensures (r - 1) * 1000 < ms <= r * 1000
  {
    (ms + 999) / 1000
  }

  /** The state once a lockout has run out: no lockout and no attempts, the last attempt kept. */
  function Expired(s: RateState): (r: RateState)
    ensures !LockoutSet(r) && r.attempts == 0 && r.lastAttempt == s.lastAttempt
  {
    s.(lockoutUntil := None, attempts := 0)
  }

  /** `getAttemptsRemaining`: `max(0, 5 - attempts)`. */
  function AttemptsRemaining(s: RateState): (r: int)
    ensures 0 <= r
    ensures s.attempts >= 0 ==> r <= MaxAttempts
    ensures r == 0 <==> s.attempts >= MaxAttempts
    ensures r > 0 ==> r + s.attempts == MaxAttempts
  {
    if MaxAttempts - s.attempts > 0 then MaxAttempts - s.attempts else 0
  }

  /** `formatRemainingTime`: empty when nothing remains, otherwise minutes, a colon and two-digit seconds. */
  function FormatRemaining(seconds: int): (r: string)
    ensures r == [] <==> seconds <= 0
  {
    if seconds <= 0 then "" else NatToString(seconds / 60) + ":" + PadTwo(seconds % 60)
  }

  class RateLimiter {
    var state: RateState
    /** The countdown in seconds that the form shows. */
    var remainingTime: int

    /** The stored state if there is one that parses, the cleared state otherwise. */
    constructor (stored: Option<RateState>)
      ensures state == (if stored.Some? then stored.value else Cleared)
      ensures remainingTime == 0
    {
      state := if stored.Some? then stored.value else Cleared;
      remainingTime := 0;
    }

    /** `recordFailedAttempt` at time `now`. */
    method RecordFailedAttempt(now: int)
      modifies this
      ensures state == AfterFailure(old(state), now)
      ensures remainingTime == old(remainingTime)
    {
      var attempts := state.attempts + 1;
      if state.lastAttempt != 0 && now - state.lastAttempt > AttemptWindowMs {
        attempts := 1;
      }
      var lockout := state.lockoutUntil;
      if attempts >= MaxAttempts {
        lockout := Some(now + LockoutDurationMs);
      }
      state := RateState(attempts, lockout, now);
    }

    /** `recordSuccessfulAttempt`: everything is forgotten. */
    method RecordSuccessfulAttempt()
      modifies this
      ensures state == Cleared
      ensures remainingTime == old(remainingTime)
    {
      state := Cleared;
    }

    /**
     * One tick of the countdown at time `now`: with no lockout the countdown is
     * zero; during a lockout it is the whole seconds left, rounded up; once the
     * lockout has passed the countdown is zero and the lockout and attempts are
     * cleared.
     */
    method Tick(now: int)
      modifies this
      ensures !LockoutSet(old(state)) ==> remainingTime == 0 && state == old(state)
      ensures IsLocked(old(state), now) ==>
        remainingTime == RemainingSeconds(old(state).lockoutUntil.value - now) && state == old(state)
      ensures LockoutSet(old(state)) && !IsLocked(old(state), now) ==>
        remainingTime == 0 && state == Expired(old(state))
    {
      if !LockoutSet(state) {
        remainingTime := 0;
        return;
      }
      if now < state.lockoutUntil.value {
        remainingTime := RemainingSeconds(state.lockoutUntil.value - now);
      } else {
        remainingTime := 0;
        state := state.(lockoutUntil := None, attempts := 0);
      }
    }
  }

  // ------------------------------------------------------------ properties

  /** The failures at `times`, in order, starting from `s`. */
  function Failures(s: RateState, times: seq<int>): RateState
    decreases |times|
  {
    if times == [] then s else Failures(AfterFailure(s, times[0]), times[1..])
  }

  /** What the `i`-th failure of `times` sees as the previous attempt. */
  function Before(s: RateState, times: seq<int>, i: int): RateState
    requires 0 <= i < |times|
  {
    if i == 0 then s else RateState(0, None, times[i - 1])
  }

  /** Each failure in `times` comes within the window of the one before it (or none is on record). */
  predicate Consecutive(s: RateState, times: seq<int>)
  {
    forall i :: 0 <= i < |times| ==> !WindowExpired(Before(s, times, i), times[i])
  }

  /** Failures that each come within the window of the previous one all add up. */
  lemma {:induction false} ConsecutiveFailuresAccumulate(s: RateState, times: seq<int>)
    requires Consecutive(s, times)
    ensures Failures(s, times).attempts == s.attempts + |times|
    ensures times != [] ==> Failures(s, times).lastAttempt == times[|times| - 1]
    decreases |times|
  {
    if times != [] {
      var next := AfterFailure(s, times[0]);
      var rest := times[1..];
      assert !WindowExpired(Before(s, times, 0), times[0]);
      forall i | 0 <= i < |rest|
        ensures !WindowExpired(Before(next, rest, i), rest[i])
      {
        assert !WindowExpired(Before(s, times, i + 1), times[i + 1]);
      }
      ConsecutiveFailuresAccumulate(next, rest);
    }
  }

  /** After at least one failure, a count at the limit means a lockout from the last failure. */
  lemma {:induction false} LastFailureSetsLockout(s: RateState, times: seq<int>)
    requires times != []
    ensures Failures(s, times).attempts >= MaxAttempts ==>
      Failures(s, times).lockoutUntil == Some(times[|times| - 1] + LockoutDurationMs)
    decreases |times|
  {
    if |times| > 1 {
      LastFailureSetsLockout(AfterFailure(s, times[0]), times[1..]);
    }
  }

  /**
   * From a non-negative count, five failures each within five minutes of the
   * one before lock the form for fifteen minutes after the last of them.
   */
  lemma FiveQuickFailuresLock(s: RateState, times: seq<int>, now: int)
    requires s.attempts >= 0 && |times| == MaxAttempts && Consecutive(s, times)
    requires 0 <= now && times[MaxAttempts - 1] <= now < times[MaxAttempts - 1] + LockoutDurationMs
    ensures Failures(s, times).lockoutUntil == Some(times[MaxAttempts - 1] + LockoutDurationMs)
    ensures IsLocked(Failures(s, times), now)
    ensures AttemptsRemaining(Failures(s, times)) == 0
  {
    ConsecutiveFailuresAccumulate(s, times);
    LastFailureSetsLockout(s, times);
  }

  /** A failure more than five minutes after the previous one counts as the first. */
  lemma LateFailureStartsOver(s: RateState, now: int)
    requires s.lastAttempt != 0 && now > s.lastAttempt + AttemptWindowMs
    ensures AfterFailure(s, now).attempts == 1
    ensures AttemptsRemaining(AfterFailure(s, now)) == MaxAttempts - 1
    ensures AfterFailure(s, now).lockoutUntil == s.lockoutUntil
  {
  }

  /** An expired lockout no longer locks and leaves the full number of attempts. */
  lemma ExpiryUnlocks(s: RateState, now: int)
    ensures !IsLocked(Expired(s), now)
    ensures AttemptsRemaining(Expired(s)) == MaxAttempts
    ensures FormatRemaining(0) == ""
  {
  }

  /** The formatted countdown reads back as the number of seconds it shows. */
  lemma FormatRemainingReadsBack(seconds: int)
    requires seconds > 0
    ensures var f := FormatRemaining(seconds);
      && |f| >= 4 && f[|f| - 3] == ':'
      && AllDigits(f[..|f| - 3]) && AllDigits(f[|f| - 2..])
      && DigitsValue(f[|f| - 2..]) < 60
      && DigitsValue(f[..|f| - 3]) * 60 + DigitsValue(f[|f| - 2..]) == seconds
      && (f[0] == '0' ==> f[..|f| - 3] == "0")
  {
    var m := NatToString(seconds / 60);
    var ss := PadTwo(seconds % 60);
    var f := FormatRemaining(seconds);
    assert f == m + ":" + ss;
    assert f[..|f| - 3] == m;
    assert f[|f| - 2..] == ss;
    NatToStringRoundTrip(seconds / 60);
  }
}

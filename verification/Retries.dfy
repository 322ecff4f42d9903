/**
 * The retry loop: how often a call is made again, and how long it waits in between.  The calls, the
 * clock and the jitter are arguments; durations are real numbers of seconds.
 */
module Retries {
  import opened Wrappers

  datatype Class = Success | Throttled | Transient | Fatal

  datatype Policy = Policy(maxAttempts: nat, maxElapsed: real, baseDelay: real, maxDelay: real)

  /** How an attempt ended; a failure may carry the server's own `Retry-After`. */
  datatype Attempt = Done | Failed(class_: Class, retryAfter: Option<real>)

  datatype Stop = NotRetryable | AttemptsExhausted | DeadlineExceeded

  datatype Decision = Retry(delay: real) | GiveUp(reason: Stop)

  datatype Answer = Answered | Refused(reason: Stop, attempts: nat)

  predicate Sane(p: Policy) {
    p.maxElapsed >= 0.0 && p.baseDelay >= 0.0 && p.maxDelay >= 0.0
  }

  predicate Retryable(c: Class) {
    c == Throttled || c == Transient
  }

  function Min(a: real, b: real): real {
    if a <= b then a else b
  }

  /** The base doubled `n` times. */
  function Doubled(base: real, n: nat): (d: real)
    ensures base >= 0.0 ==> d >= base
  {
    if n == 0 then base else 2.0 * Doubled(base, n - 1)
  }

  function Doublings(attempt: nat): nat {
    if attempt == 0 then 0 else if attempt - 1 < 16 then attempt - 1 else 16
  }

  /** The backoff window after the given number of failures; it stops doubling at 65536 times the base. */
  function Window(p: Policy, attempt: nat): (w: real)
    requires Sane(p)
    ensures 0.0 <= w <= p.maxDelay
  {
    Min(Doubled(p.baseDelay, Doublings(attempt)), p.maxDelay)
  }

  /** A fraction of the window, the fraction brought into the unit interval first. */
  function Jittered(window: real, jitter: real): (part: real)
    requires window >= 0.0
    ensures 0.0 <= part <= window
  {
    if jitter < 0.0 then 0.0 else if jitter > 1.0 then window else Fraction(window, jitter); window * jitter
  }

  lemma Fraction(window: real, jitter: real)
    requires window >= 0.0 && 0.0 <= jitter <= 1.0
    ensures 0.0 <= window * jitter <= window
  {
    assert window * (1.0 - jitter) >= 0.0;
  }

  function Delay(p: Policy, attempt: nat, retryAfter: Option<real>, jitter: real): real
    requires Sane(p)
  {
    (if retryAfter.Some? then retryAfter.value else 0.0) + Jittered(Window(p, attempt), jitter)
  }

  function Decide(p: Policy, c: Class, attempt: nat, elapsed: real, retryAfter: Option<real>, jitter: real): Decision
    requires Sane(p)
  {
    if !Retryable(c) then GiveUp(NotRetryable)
    else if attempt >= p.maxAttempts then GiveUp(AttemptsExhausted)
    else if elapsed + Delay(p, attempt, retryAfter, jitter) >= p.maxElapsed then GiveUp(DeadlineExceeded)
    else Retry(Delay(p, attempt, retryAfter, jitter))
  }

  /** One run: how attempt `k` (from 1) ends, the time on the clock then, and the jitter drawn. */
  datatype Run = Run(ends: nat -> Attempt, elapsed: nat -> real, jitter: nat -> real)

  function AfterAttempt(p: Policy, r: Run, k: nat): Option<Decision>
    requires Sane(p)
  {
    match r.ends(k)
    case Done => None
    case Failed(c, after) => Some(Decide(p, c, k, r.elapsed(k), after, r.jitter(k)))
  }

  /** Attempt `k` is followed by another. */
  predicate GoesOn(p: Policy, r: Run, k: nat)
    requires Sane(p)
  {
    AfterAttempt(p, r, k).Some? && AfterAttempt(p, r, k).value.Retry?
  }

  function SleepAfter(p: Policy, r: Run, k: nat): real
    requires Sane(p) && GoesOn(p, r, k)
  {
    AfterAttempt(p, r, k).value.delay
  }

  /** The loop ends at the first attempt that succeeds or after which the policy gives up, and says which. */
  method Perform(p: Policy, r: Run) returns (answer: Answer, attempts: nat)
    requires Sane(p)
    ensures attempts >= 1 && !GoesOn(p, r, attempts) && forall k: nat | 1 <= k < attempts :: GoesOn(p, r, k)
    ensures answer.Answered? <==> r.ends(attempts).Done?
    ensures answer.Refused? ==>
              AfterAttempt(p, r, attempts) == Some(GiveUp(answer.reason)) && answer.attempts == attempts
    ensures answer.Refused? ==>
              && r.ends(attempts).Failed?
              && (answer.reason == NotRetryable <==>
                    r.ends(attempts).class_ == Success || r.ends(attempts).class_ == Fatal)
              && (answer.reason == AttemptsExhausted ==> attempts >= p.maxAttempts)
              && (answer.reason == DeadlineExceeded ==> attempts < p.maxAttempts)
  {
    attempts := 0;
    while true
      invariant forall k: nat | 1 <= k <= attempts :: GoesOn(p, r, k)
      decreases p.maxAttempts - attempts
    {
      attempts := attempts + 1;
      match r.ends(attempts) {
        case Done =>
          return Answered, attempts;
        case Failed(c, after) =>
          var decision := Decide(p, c, attempts, r.elapsed(attempts), after, r.jitter(attempts));
          if decision.GiveUp? {
            return Refused(decision.reason, attempts), attempts;
          }
      }
    }
  }

  /** The loop makes `n` attempts. */
  ghost predicate Makes(p: Policy, r: Run, n: nat)
    requires Sane(p)
  {
    n >= 1 && !GoesOn(p, r, n) && forall k: nat | 1 <= k < n :: GoesOn(p, r, k)
  }

  /** At most the allowed number of attempts, of which the first is always made; only invited failures are repeated. */
  lemma AttemptsAreBounded(p: Policy, r: Run, n: nat)
    requires Sane(p) && Makes(p, r, n)
    ensures n <= p.maxAttempts || n == 1
    ensures forall k: nat | 1 <= k < n ::
              r.ends(k).Failed? && (r.ends(k).class_ == Throttled || r.ends(k).class_ == Transient)
  {
    forall k: nat | 1 <= k < n
      ensures r.ends(k).Failed? && Retryable(r.ends(k).class_) && k < p.maxAttempts
    {
      assert GoesOn(p, r, k);
    }
    if n > 1 {
      assert n - 1 < p.maxAttempts by { assert r.ends(n - 1).Failed?; }
    }
  }

  lemma {:induction false} DoubledGrows(base: real, m: nat, n: nat)
    requires base >= 0.0 && m <= n
    ensures base <= Doubled(base, m) <= Doubled(base, n)
  {
    if n > 0 {
      DoubledGrows(base, if m < n then m else m - 1, n - 1);
    }
  }

  /** The window never shrinks, is at least the base or the ceiling, and never exceeds the ceiling. */
  lemma WindowGrows(p: Policy, m: nat, n: nat)
    requires Sane(p) && m <= n
    ensures Min(p.baseDelay, p.maxDelay) <= Window(p, m) <= Window(p, n) <= p.maxDelay
  {
    DoubledGrows(p.baseDelay, Doublings(m), Doublings(n));
  }

  /** Each further failure doubles the window, up to the ceiling and the sixteenth doubling. */
  lemma WindowDoubles(p: Policy, attempt: nat)
    requires Sane(p) && 1 <= attempt <= 16
    ensures Window(p, attempt + 1) == Min(2.0 * Window(p, attempt), p.maxDelay)
  {
    DoubledGrows(p.baseDelay, 0, attempt - 1);
  }

  /** The doubling begins with the base after the first failure, and ends at 65536 times the base. */
  lemma WindowEnds(p: Policy, attempt: nat)
    requires Sane(p)
    ensures attempt <= 1 ==> Window(p, attempt) == Min(p.baseDelay, p.maxDelay)
    ensures attempt >= 17 ==> Window(p, attempt) == Min(65536.0 * p.baseDelay, p.maxDelay)
  {
    DoubledFour(p.baseDelay, 0);
    DoubledFour(p.baseDelay, 4);
    DoubledFour(p.baseDelay, 8);
    DoubledFour(p.baseDelay, 12);
  }

  lemma DoubledFour(base: real, n: nat)
    ensures Doubled(base, n + 4) == 16.0 * Doubled(base, n)
  {
    assert Doubled(base, n + 2) == 2.0 * Doubled(base, n + 1) && Doubled(base, n + 3) == 2.0 * Doubled(base, n + 2);
  }

  /**
   * A sleep is what the server asked and a part of the window of that attempt, all of it or none at the
   * ends of the jitter, and ends within the budget.
   */
  lemma SleepsAreFair(p: Policy, r: Run, k: nat)
    requires Sane(p) && GoesOn(p, r, k)
    ensures var asked := if r.ends(k).retryAfter.Some? then r.ends(k).retryAfter.value else 0.0;
            && asked <= SleepAfter(p, r, k) <= asked + Window(p, k) <= asked + p.maxDelay
            && (r.jitter(k) <= 0.0 ==> SleepAfter(p, r, k) == asked)
            && (0.0 <= r.jitter(k) <= 1.0 ==> SleepAfter(p, r, k) == asked + Window(p, k) * r.jitter(k))
            && (r.jitter(k) >= 1.0 ==> SleepAfter(p, r, k) == asked + Window(p, k))
    ensures r.elapsed(k) + SleepAfter(p, r, k) < p.maxElapsed
  {
    DelayIs(p, k, r.ends(k).retryAfter, r.jitter(k));
  }

  lemma DelayIs(p: Policy, attempt: nat, retryAfter: Option<real>, jitter: real)
    requires Sane(p)
    ensures var asked := if retryAfter.Some? then retryAfter.value else 0.0;
            && asked <= Delay(p, attempt, retryAfter, jitter) <= asked + Window(p, attempt)
            && (jitter <= 0.0 ==> Delay(p, attempt, retryAfter, jitter) == asked)
            && (0.0 <= jitter <= 1.0 ==>
                  Delay(p, attempt, retryAfter, jitter) == asked + Window(p, attempt) * jitter)
            && (jitter >= 1.0 ==> Delay(p, attempt, retryAfter, jitter) == asked + Window(p, attempt))
  {
    if jitter == 0.0 {
      assert Window(p, attempt) * jitter == 0.0;
    } else if jitter == 1.0 {
      assert Window(p, attempt) * jitter == Window(p, attempt);
    }
  }

  /**
   * Why the loop gives up: the failure is of a kind that is not repeated; or it is, and the attempts are used
   * up; or they are not, and the sleep would not end within the budget.
   */
  lemma GivesUpIff(p: Policy, c: Class, attempt: nat, elapsed: real, retryAfter: Option<real>, jitter: real)
    requires Sane(p)
    ensures var decision := Decide(p, c, attempt, elapsed, retryAfter, jitter);
            var again := (c == Throttled || c == Transient) && attempt < p.maxAttempts;
            var inTime := elapsed + Delay(p, attempt, retryAfter, jitter) < p.maxElapsed;
            && (decision == GiveUp(NotRetryable) <==> c == Success || c == Fatal)
            && (decision == GiveUp(AttemptsExhausted) <==>
                  (c == Throttled || c == Transient) && attempt >= p.maxAttempts)
            && (decision == GiveUp(DeadlineExceeded) <==> again && !inTime)
            && (decision.Retry? <==> again && inTime)
            && (decision.Retry? ==> decision.delay == Delay(p, attempt, retryAfter, jitter))
  {
  }

  function Slept(p: Policy, r: Run, n: nat): real
    requires Sane(p) && forall k: nat | 1 <= k <= n :: GoesOn(p, r, k)
  {
    if n == 0 then 0.0 else Slept(p, r, n - 1) + SleepAfter(p, r, n)
  }

  /** The clock starts at no less than zero and covers the sleeps: after a sleep it is at least that much later. */
  ghost predicate ClockCounts(p: Policy, r: Run, n: nat)
    requires Sane(p) && forall k: nat | 1 <= k < n :: GoesOn(p, r, k)
  {
    r.elapsed(1) >= 0.0 && forall k: nat | 1 <= k < n :: r.elapsed(k + 1) >= r.elapsed(k) + SleepAfter(p, r, k)
  }

  lemma {:induction false} ClockCoversSleeps(p: Policy, r: Run, n: nat, k: nat)
    requires Sane(p) && Makes(p, r, n) && ClockCounts(p, r, n) && 1 <= k <= n
    ensures Slept(p, r, k - 1) <= r.elapsed(k)
  {
    if k > 1 {
      ClockCoversSleeps(p, r, n, k - 1);
      assert r.elapsed(k - 1 + 1) >= r.elapsed(k - 1) + SleepAfter(p, r, k - 1);
    }
  }

  /** All sleeps of a run together are shorter than the budget. */
  lemma SleepsFitTheBudget(p: Policy, r: Run, n: nat)
    requires Sane(p) && Makes(p, r, n) && ClockCounts(p, r, n) && n > 1
    ensures Slept(p, r, n - 1) < p.maxElapsed
  {
    ClockCoversSleeps(p, r, n, n - 1);
    SleepsAreFair(p, r, n - 1);
  }
}

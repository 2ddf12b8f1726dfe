/**
 The agent's reconnection loop (Run, handleUnauthorized and ReconnectManager in ws/dispatcher.go).
 What the network and the server do is a script: one entry for every dial. The loop leaves a trace
 of everything it does; delays are real numbers of seconds.
 */
module Reconnect {
  import opened Base

  /** CloseCodeRevoked */
  const CLOSE_REVOKED: int := 4001

  /** How one call of connect ends. The first two had a connection. */
  datatype Outcome = Closed(code: int) | ConnectionLost | Unauthorized | Forbidden | DialFailed

  /** How one call of reEnrollOnce ends. */
  datatype EnrollResult = Enrolled | Refused403 | EnrollFailed

  /** enrolls: the attempts after a 401, and whether the context ends during the pause after each. */
  datatype Entry = Entry(outcome: Outcome, enrolls: seq<EnrollResult>, pauseCancelled: seq<bool>, sleepCancelled: bool)

  datatype Action =
    | Dialled(outcome: Outcome)
    | EnrollAttempt(result: EnrollResult)
    | Pause(seconds: int)     // between two attempts to enrol
    | Sleep(delay: real)      // before the next dial
    | Stop(reason: Reason)

  datatype Reason = Revoked | EnrollmentFailed | Cancelled

  /** enrollable: RegisterURL and PrivateKey are set. */
  datatype Config = Config(base: real, max: real, maxRetries: int, enrollable: bool)

  // ---- ReconnectManager ----

  function Pow2(n: nat): real
  {
    if n == 0 then 1.0 else 2.0 * Pow2(n - 1)
  }

  function Delay(base: real, max: real, attempt: nat): real
  {
    if base * Pow2(attempt) > max then max else base * Pow2(attempt)
  }

  class ReconnectManager {
    const baseDelay: real
    const maxDelay: real
    var attempt: nat

    constructor (baseDelay: real, maxDelay: real)
      ensures this.baseDelay == baseDelay && this.maxDelay == maxDelay && attempt == 0
    {
      this.baseDelay, this.maxDelay, attempt := baseDelay, maxDelay, 0;
    }

    method NextDelay() returns (delay: real)
      modifies this
      ensures delay == Delay(baseDelay, maxDelay, old(attempt)) && attempt == old(attempt) + 1
    {
      delay := baseDelay * Pow2(attempt);
      if delay > maxDelay {
        delay := maxDelay;
      }
      attempt := attempt + 1;
    }

    method Reset()
      modifies this
      ensures attempt == 0
    {
      attempt := 0;
    }
  }

  lemma {:induction false} Pow2Grows(n: nat)
    ensures 0.0 < Pow2(n) < Pow2(n + 1)
  {
    if n > 0 {
      Pow2Grows(n - 1);
    }
  }

  /** Delays never shrink between resets and never exceed the maximum. */
  lemma {:induction false} DelaysGrow(base: real, max: real, i: nat, j: nat)
    requires 0.0 < base <= max && i <= j
    ensures base <= Delay(base, max, i) <= Delay(base, max, j) <= max
    decreases j
  {
    if i < j {
      DelaysGrow(base, max, i, j - 1);
      Pow2Grows(j - 1);
      assert base * Pow2(j - 1) <= base * Pow2(j);
    } else {
      AtLeastBase(base, i);
    }
  }

  /** The first delay is base, and each one is twice the one before, up to max. */
  lemma DelayDoubles(base: real, max: real, k: nat)
    requires 0.0 < base <= max
    ensures Delay(base, max, 0) == base
    ensures var twice := 2.0 * Delay(base, max, k); Delay(base, max, k + 1) == if twice > max then max else twice
  {
    assert base * Pow2(k + 1) == 2.0 * (base * Pow2(k));
  }

  lemma {:induction false} AtLeastBase(base: real, i: nat)
    requires 0.0 < base
    ensures base <= base * Pow2(i)
  {
    if i > 0 {
      AtLeastBase(base, i - 1);
      assert base * Pow2(i) == 2.0 * (base * Pow2(i - 1));
    }
  }

  // ---- handleUnauthorized ----

  function NthResult(e: Entry, n: nat): EnrollResult
  {
    if n < |e.enrolls| then e.enrolls[n] else EnrollFailed
  }

  function NthCancelled(e: Entry, n: nat): bool
  {
    if n < |e.pauseCancelled| then e.pauseCancelled[n] else false
  }

  /** The attempts from number n on, after trace; and whether the last one enrolled the agent. */
  function Attempts(max: nat, e: Entry, n: nat, trace: seq<Action>): (seq<Action>, bool)
    requires 1 <= n <= max
    decreases max - n
  {
    var r := NthResult(e, n - 1);
    var tried := trace + [EnrollAttempt(r)];
    if r == Enrolled then (tried, true)
    else if r == Refused403 || n == max then (tried, false)
    else
      var paused := tried + [Pause(5 * n)];
      if NthCancelled(e, n - 1) then (paused, false) else Attempts(max, e, n + 1, paused)
  }

  function Retries(cfg: Config): nat
  {
    if cfg.maxRetries <= 0 then 3 else cfg.maxRetries
  }

  function Unauthorised(cfg: Config, e: Entry, trace: seq<Action>): (seq<Action>, bool)
  {
    if cfg.enrollable then Attempts(Retries(cfg), e, 1, trace) else (trace, false)
  }

  /** The first n attempts failed with no 403, and none of the pauses after them was cancelled. */
  predicate FailedSoFar(e: Entry, n: nat)
  {
    forall b: nat | b < n :: NthResult(e, b) == EnrollFailed && !NthCancelled(e, b)
  }

  /** Attempt a, within MaxRetries, is the one that enrolls the agent. */
  predicate EnrolledAt(cfg: Config, e: Entry, a: nat)
  {
    1 <= a <= Retries(cfg) && FailedSoFar(e, a - 1) && NthResult(e, a - 1) == Enrolled
  }

  /** Attempt a is the last one in vain: refused with 403, or number MaxRetries, or cancelled in the pause after it. */
  predicate GaveUpAt(cfg: Config, e: Entry, a: nat)
  {
    && 1 <= a <= Retries(cfg) && FailedSoFar(e, a - 1)
    && (NthResult(e, a - 1) == Refused403
        || (NthResult(e, a - 1) == EnrollFailed && (a == Retries(cfg) || NthCancelled(e, a - 1))))
  }

  /** The first a attempts and the pauses between them. */
  function Tries(e: Entry, a: nat): seq<Action>
  {
    if a == 0 then []
    else Tries(e, a - 1) + (if a == 1 then [] else [Pause(5 * (a - 1))]) + [EnrollAttempt(NthResult(e, a - 1))]
  }

  /** After a failed attempt that is not the last there is one more pause, the one that was cancelled. */
  function LastPause(cfg: Config, e: Entry, a: nat): seq<Action>
    requires a >= 1
  {
    if NthResult(e, a - 1) == EnrollFailed && a < Retries(cfg) then [Pause(5 * a)] else []
  }

  /** Attempts are made until one enrolls the agent, or one is the last in vain. */
  ghost predicate Retried(cfg: Config, e: Entry, before: seq<Action>, trace: seq<Action>, enrolled: bool, a: nat)
  {
    && (if enrolled then EnrolledAt(cfg, e, a) else GaveUpAt(cfg, e, a))
    && trace == before + Tries(e, a) + LastPause(cfg, e, a)
  }

  lemma {:induction false} AttemptsRetried(cfg: Config, e: Entry, n: nat, before: seq<Action>, trace: seq<Action>)
    returns (a: nat)
    requires 1 <= n <= Retries(cfg) && FailedSoFar(e, n - 1)
    requires trace == before + Tries(e, n - 1) + if n == 1 then [] else [Pause(5 * (n - 1))]
    ensures var (t, enrolled) := Attempts(Retries(cfg), e, n, trace); Retried(cfg, e, before, t, enrolled, a)
    decreases Retries(cfg) - n
  {
    var r := NthResult(e, n - 1);
    assert trace + [EnrollAttempt(r)] == before + Tries(e, n);
    if r == EnrollFailed && n < Retries(cfg) && !NthCancelled(e, n - 1) {
      a := AttemptsRetried(cfg, e, n + 1, before, trace + [EnrollAttempt(r)] + [Pause(5 * n)]);
    } else {
      a := n;
      assert r == Enrolled ==> EnrolledAt(cfg, e, n);
      assert r != Enrolled ==> GaveUpAt(cfg, e, n);
    }
  }

  /** Nothing without an enrollment configuration; with one, attempts up to the one that settles the matter. */
  method HandleUnauthorized(cfg: Config, e: Entry, before: seq<Action>) returns (trace: seq<Action>, enrolled: bool)
    ensures (trace, enrolled) == Unauthorised(cfg, e, before)
    ensures !cfg.enrollable ==> trace == before && !enrolled
    ensures cfg.enrollable ==> exists a: nat :: Retried(cfg, e, before, trace, enrolled, a)
  {
    trace := before;
    if !cfg.enrollable {
      return trace, false;
    }
    ghost var a := AttemptsRetried(cfg, e, 1, before, before);
    var maxRetries := if cfg.maxRetries <= 0 then 3 else cfg.maxRetries;
    var attempt := 1;
    while attempt <= maxRetries
      invariant 1 <= attempt <= maxRetries
      invariant Attempts(maxRetries, e, attempt, trace) == Attempts(maxRetries, e, 1, before)
      decreases maxRetries - attempt
    {
      var r := NthResult(e, attempt - 1);
      trace := trace + [EnrollAttempt(r)];
      if r == Enrolled {
        return trace, true;
      }
      if r == Refused403 {
        return trace, false;
      }
      if attempt == maxRetries {
        return trace, false;
      }
      trace := trace + [Pause(5 * attempt)];
      if NthCancelled(e, attempt - 1) {
        return trace, false;
      }
      attempt := attempt + 1;
    }
  }

  // ---- Run ----

  predicate Connected(o: Outcome)
  {
    o.Closed? || o.ConnectionLost?
  }

  /**
   One round of the loop, after trace, with the manager at this attempt: the trace after it, and where the
   manager then is unless the loop has stopped.
   */
  function Round(cfg: Config, e: Entry, attempt: nat, trace: seq<Action>): (seq<Action>, Option<nat>)
  {
    var dialled := trace + [Dialled(e.outcome)];
    if e.outcome == Closed(CLOSE_REVOKED) then (dialled + [Stop(Revoked)], None)
    else if e.outcome == Unauthorized then
      var (tried, enrolled) := Unauthorised(cfg, e, dialled);
      if enrolled then (tried, Some(0)) else (tried + [Stop(EnrollmentFailed)], None)
    else
      var k := if Connected(e.outcome) then 0 else attempt;
      var slept := dialled + [Sleep(Delay(cfg.base, cfg.max, k))];
      if e.sleepCancelled then (slept + [Stop(Cancelled)], None) else (slept, Some(k + 1))
  }

  /** The loop from entry i of the script on. */
  function Loop(cfg: Config, script: seq<Entry>, i: nat, attempt: nat, trace: seq<Action>): seq<Action>
    requires i <= |script|
    decreases |script| - i
  {
    if i == |script| then trace
    else
      var (t, next) := Round(cfg, script[i], attempt, trace);
      if next.None? then t else Loop(cfg, script, i + 1, next.value, t)
  }

  method Run(cfg: Config, script: seq<Entry>) returns (trace: seq<Action>)
    ensures trace == Loop(cfg, script, 0, 0, [])
    ensures Follows(cfg, script, trace) && Due(cfg, script, trace) == None
    ensures RightDials(cfg, script, trace)
  {
    EveryActionIsDue(cfg, script);
    DialsGoOn(cfg, script);
    var reconnect := new ReconnectManager(cfg.base, cfg.max);
    trace := [];
    var i := 0;
    while i < |script|
      invariant 0 <= i <= |script| && reconnect.baseDelay == cfg.base && reconnect.maxDelay == cfg.max
      invariant fresh(reconnect)
      invariant Loop(cfg, script, i, reconnect.attempt, trace) == Loop(cfg, script, 0, 0, [])
    {
      var e := script[i];
      trace := trace + [Dialled(e.outcome)];
      if Connected(e.outcome) {
        reconnect.Reset();
      }
      i := i + 1;
      if e.outcome == Closed(CLOSE_REVOKED) {
        trace := trace + [Stop(Revoked)];
        return;
      }
      if e.outcome == Unauthorized {
        var enrolled;
        trace, enrolled := HandleUnauthorized(cfg, e, trace);
        if !enrolled {
          trace := trace + [Stop(EnrollmentFailed)];
          return;
        }
        reconnect.Reset();
      } else {
        var delay := reconnect.NextDelay();
        trace := trace + [Sleep(delay)];
        if e.sleepCancelled {
          trace := trace + [Stop(Cancelled)];
          return;
        }
      }
    }
  }

  // ---- What every trace keeps ----

  /** Sleeps since the last connection or successful enrollment. */
  function SleepsSinceReset(trace: seq<Action>): nat
  {
    if trace == [] then 0
    else
      var front, last := trace[..|trace| - 1], trace[|trace| - 1];
      match last
      case Sleep(_) => SleepsSinceReset(front) + 1
      case Dialled(o) => if Connected(o) then 0 else SleepsSinceReset(front)
      case EnrollAttempt(r) => if r == Enrolled then 0 else SleepsSinceReset(front)
      case _ => SleepsSinceReset(front)
  }

  /** Attempts to enrol since the last dial. */
  function AttemptsSinceDial(trace: seq<Action>): nat
  {
    if trace == [] then 0
    else
      var front, last := trace[..|trace| - 1], trace[|trace| - 1];
      match last
      case EnrollAttempt(_) => AttemptsSinceDial(front) + 1
      case Dialled(_) => 0
      case _ => AttemptsSinceDial(front)
  }

  /** After these the agent must not come back. */
  predicate Final(a: Action)
  {
    a == Dialled(Closed(CLOSE_REVOKED)) || a == EnrollAttempt(Refused403) || a.Stop?
  }

  predicate NoFinal(trace: seq<Action>)
  {
    forall a | a in trace :: !Final(a)
  }

  /** What an action may be after what went before. */
  predicate ActionOk(cfg: Config, before: seq<Action>, a: Action)
  {
    match a
    case Dialled(_) => NoFinal(before)
    case EnrollAttempt(_) => NoFinal(before) && AttemptsSinceDial(before) < Retries(cfg)
    case Pause(seconds) => NoFinal(before) && seconds == 5 * AttemptsSinceDial(before)
    case Sleep(d) => NoFinal(before) && d == Delay(cfg.base, cfg.max, SleepsSinceReset(before))
    case Stop(_) => true
  }

  predicate AllOk(cfg: Config, trace: seq<Action>)
  {
    trace == [] ||
    var front, last := trace[..|trace| - 1], trace[|trace| - 1];
    AllOk(cfg, front) && ActionOk(cfg, front, last)
  }

  lemma Snoc(cfg: Config, trace: seq<Action>, a: Action)
    requires AllOk(cfg, trace) && ActionOk(cfg, trace, a)
    ensures AllOk(cfg, trace + [a])
    ensures (trace + [a])[..|trace|] == trace && (trace + [a])[|trace|] == a
  {
    assert (trace + [a])[..|trace|] == trace;
  }

  lemma {:induction false} NthOk(cfg: Config, trace: seq<Action>, i: nat)
    requires AllOk(cfg, trace) && i < |trace|
    ensures ActionOk(cfg, trace[..i], trace[i])
  {
    if i < |trace| - 1 {
      var front := trace[..|trace| - 1];
      NthOk(cfg, front, i);
      assert front[..i] == trace[..i];
    }
  }

  /** One attempt to enrol, and the pause after a failed one. */
  lemma AttemptOk(cfg: Config, trace: seq<Action>, r: EnrollResult, n: nat)
    requires 1 <= n <= Retries(cfg) && AllOk(cfg, trace) && NoFinal(trace) && AttemptsSinceDial(trace) == n - 1
    ensures var tried := trace + [EnrollAttempt(r)];
            && AllOk(cfg, tried)
            && (r == Enrolled ==> NoFinal(tried) && SleepsSinceReset(tried) == 0)
            && (r == EnrollFailed ==>
                  && AllOk(cfg, tried + [Pause(5 * n)]) && NoFinal(tried + [Pause(5 * n)])
                  && AttemptsSinceDial(tried + [Pause(5 * n)]) == n)
  {
    Snoc(cfg, trace, EnrollAttempt(r));
    var tried := trace + [EnrollAttempt(r)];
    if r == EnrollFailed {
      Snoc(cfg, tried, Pause(5 * n));
    }
  }

  lemma {:induction false} AttemptsOk(cfg: Config, e: Entry, n: nat, trace: seq<Action>)
    requires 1 <= n <= Retries(cfg) && AllOk(cfg, trace) && NoFinal(trace) && AttemptsSinceDial(trace) == n - 1
    ensures var (t, enrolled) := Attempts(Retries(cfg), e, n, trace);
            AllOk(cfg, t) && (enrolled ==> NoFinal(t) && SleepsSinceReset(t) == 0)
    decreases Retries(cfg) - n
  {
    var r := NthResult(e, n - 1);
    AttemptOk(cfg, trace, r, n);
    var tried := trace + [EnrollAttempt(r)];
    var paused := tried + [Pause(5 * n)];
    if r != EnrollFailed || n == Retries(cfg) {
      assert Attempts(Retries(cfg), e, n, trace) == (tried, r == Enrolled);
    } else if NthCancelled(e, n - 1) {
      assert Attempts(Retries(cfg), e, n, trace) == (paused, false);
    } else {
      AttemptsOk(cfg, e, n + 1, paused);
    }
  }

  lemma SleepOk(cfg: Config, trace: seq<Action>, k: nat)
    requires AllOk(cfg, trace) && NoFinal(trace) && SleepsSinceReset(trace) == k
    ensures var slept := trace + [Sleep(Delay(cfg.base, cfg.max, k))];
            && AllOk(cfg, slept) && NoFinal(slept) && SleepsSinceReset(slept) == k + 1
            && AllOk(cfg, slept + [Stop(Cancelled)])
  {
    var a := Sleep(Delay(cfg.base, cfg.max, k));
    Snoc(cfg, trace, a);
    Snoc(cfg, trace + [a], Stop(Cancelled));
  }

  lemma RoundOk(cfg: Config, e: Entry, attempt: nat, trace: seq<Action>)
    requires AllOk(cfg, trace) && NoFinal(trace) && SleepsSinceReset(trace) == attempt
    ensures var (t, next) := Round(cfg, e, attempt, trace);
            AllOk(cfg, t) && (next.Some? ==> NoFinal(t) && SleepsSinceReset(t) == next.value)
  {
    var dialled := trace + [Dialled(e.outcome)];
    Snoc(cfg, trace, Dialled(e.outcome));
    if e.outcome == Closed(CLOSE_REVOKED) {
      Snoc(cfg, dialled, Stop(Revoked));
    } else if e.outcome == Unauthorized {
      if cfg.enrollable {
        AttemptsOk(cfg, e, 1, dialled);
      }
      var (tried, enrolled) := Unauthorised(cfg, e, dialled);
      if !enrolled {
        Snoc(cfg, tried, Stop(EnrollmentFailed));
      }
    } else {
      SleepOk(cfg, dialled, if Connected(e.outcome) then 0 else attempt);
    }
  }

  lemma {:induction false} LoopOk(cfg: Config, script: seq<Entry>, i: nat, attempt: nat, trace: seq<Action>)
    requires i <= |script| && AllOk(cfg, trace) && NoFinal(trace) && SleepsSinceReset(trace) == attempt
    ensures AllOk(cfg, Loop(cfg, script, i, attempt, trace))
    decreases |script| - i
  {
    if i < |script| {
      RoundOk(cfg, script[i], attempt, trace);
      var (t, next) := Round(cfg, script[i], attempt, trace);
      if next.Some? {
        LoopOk(cfg, script, i + 1, next.value, t);
      }
    }
  }

  /**
   Over every run: no dial, attempt or sleep follows a close with 4001 or a 403 while enrolling;
   between two dials there are at most MaxRetries attempts to enrol; and the k-th sleep since the
   last connection or enrollment, counting from 0, lasts min(base * 2^k, max); the n-th pause is 5n seconds.
   */
  lemma RunIsDisciplined(cfg: Config, script: seq<Entry>, i: nat)
    ensures var trace := Loop(cfg, script, 0, 0, []);
            i < |trace| ==>
              && (!trace[i].Stop? ==> NoFinal(trace[..i]))
              && (trace[i].EnrollAttempt? ==> AttemptsSinceDial(trace[..i]) + 1 <= Retries(cfg))
              && (trace[i].Sleep? ==> trace[i].delay == Delay(cfg.base, cfg.max, SleepsSinceReset(trace[..i])))
              && (trace[i].Pause? ==> trace[i].seconds == 5 * AttemptsSinceDial(trace[..i]))
  {
    LoopOk(cfg, script, 0, 0, []);
    var trace := Loop(cfg, script, 0, 0, []);
    if i < |trace| {
      NthOk(cfg, trace, i);
    }
  }

  // ---- What is due at every moment ----

  /** How many dials there were. */
  function Dials(trace: seq<Action>): nat
  {
    if trace == [] then 0 else Dials(trace[..|trace| - 1]) + if trace[|trace| - 1].Dialled? then 1 else 0
  }

  function NextDial(script: seq<Entry>, n: nat): Option<Action>
  {
    if n < |script| then Some(Dialled(script[n].outcome)) else None
  }

  /** What comes after an action, by itself and the entry of the latest dial; None at the end. */
  function Due(cfg: Config, script: seq<Entry>, trace: seq<Action>): Option<Action>
  {
    var n := Dials(trace);
    if n == 0 || n > |script| || trace == [] then NextDial(script, n)
    else
      var e, tries := script[n - 1], AttemptsSinceDial(trace);
      match trace[|trace| - 1]
      case Dialled(o) =>
        if o == Closed(CLOSE_REVOKED) then Some(Stop(Revoked))
        else if o != Unauthorized then Some(Sleep(Delay(cfg.base, cfg.max, SleepsSinceReset(trace))))
        else if cfg.enrollable then Some(EnrollAttempt(NthResult(e, 0)))
        else Some(Stop(EnrollmentFailed))
      case EnrollAttempt(r) =>
        if r == Enrolled then NextDial(script, n)
        else if r == EnrollFailed && tries < Retries(cfg) then Some(Pause(5 * tries))
        else Some(Stop(EnrollmentFailed))
      case Pause(_) =>
        if tries > 0 && NthCancelled(e, tries - 1) then Some(Stop(EnrollmentFailed))
        else Some(EnrollAttempt(NthResult(e, tries)))
      case Sleep(_) => if e.sleepCancelled then Some(Stop(Cancelled)) else NextDial(script, n)
      case Stop(_) => None
  }

  /** Every action is the one that is due. */
  predicate Follows(cfg: Config, script: seq<Entry>, trace: seq<Action>)
  {
    trace == [] ||
    var front, last := trace[..|trace| - 1], trace[|trace| - 1];
    Follows(cfg, script, front) && Due(cfg, script, front) == Some(last)
  }

  lemma FollowsSnoc(cfg: Config, script: seq<Entry>, trace: seq<Action>, a: Action)
    requires Follows(cfg, script, trace) && Due(cfg, script, trace) == Some(a)
    ensures var next := trace + [a];
            && Follows(cfg, script, next) && next[|next| - 1] == a
            && Dials(next) == Dials(trace) + (if a.Dialled? then 1 else 0)
            && AttemptsSinceDial(next) == (if a.EnrollAttempt? then AttemptsSinceDial(trace) + 1
                                           else if a.Dialled? then 0 else AttemptsSinceDial(trace))
            && SleepsSinceReset(next) ==
               (if a.Sleep? then SleepsSinceReset(trace) + 1
                else if a == EnrollAttempt(Enrolled) || (a.Dialled? && Connected(a.outcome)) then 0
                else SleepsSinceReset(trace))
  {
    assert (trace + [a])[..|trace + [a]| - 1] == trace;
  }

  lemma AttemptIsDue(cfg: Config, script: seq<Entry>, i: nat, n: nat, trace: seq<Action>)
    requires 1 <= n <= Retries(cfg) && i < |script| && Dials(trace) == i + 1 && AttemptsSinceDial(trace) == n - 1
    requires Follows(cfg, script, trace)
    requires Due(cfg, script, trace) == Some(EnrollAttempt(NthResult(script[i], n - 1)))
    ensures var r := NthResult(script[i], n - 1);
            var tried := trace + [EnrollAttempt(r)];
            && Follows(cfg, script, tried) && Dials(tried) == i + 1 && AttemptsSinceDial(tried) == n
            && (r == Enrolled ==> SleepsSinceReset(tried) == 0)
            && Due(cfg, script, tried) == (if r == Enrolled then NextDial(script, i + 1)
                                           else if r == EnrollFailed && n < Retries(cfg) then Some(Pause(5 * n))
                                           else Some(Stop(EnrollmentFailed)))
  {
    FollowsSnoc(cfg, script, trace, EnrollAttempt(NthResult(script[i], n - 1)));
  }

  lemma PauseIsDue(cfg: Config, script: seq<Entry>, i: nat, n: nat, tried: seq<Action>)
    requires 1 <= n && i < |script| && Dials(tried) == i + 1 && AttemptsSinceDial(tried) == n
    requires Follows(cfg, script, tried) && Due(cfg, script, tried) == Some(Pause(5 * n))
    ensures var paused := tried + [Pause(5 * n)];
            && Follows(cfg, script, paused) && Dials(paused) == i + 1 && AttemptsSinceDial(paused) == n
            && Due(cfg, script, paused) == (if NthCancelled(script[i], n - 1) then Some(Stop(EnrollmentFailed))
                                            else Some(EnrollAttempt(NthResult(script[i], n))))
  {
    FollowsSnoc(cfg, script, tried, Pause(5 * n));
  }

  lemma {:induction false} AttemptsAreDue(cfg: Config, script: seq<Entry>, i: nat, n: nat, trace: seq<Action>)
    requires 1 <= n <= Retries(cfg) && i < |script| && Dials(trace) == i + 1 && AttemptsSinceDial(trace) == n - 1
    requires Follows(cfg, script, trace)
    requires Due(cfg, script, trace) == Some(EnrollAttempt(NthResult(script[i], n - 1)))
    ensures var (t, enrolled) := Attempts(Retries(cfg), script[i], n, trace);
            && Follows(cfg, script, t) && Dials(t) == i + 1
            && Due(cfg, script, t) == (if enrolled then NextDial(script, i + 1) else Some(Stop(EnrollmentFailed)))
            && (enrolled ==> SleepsSinceReset(t) == 0)
    decreases Retries(cfg) - n
  {
    var r := NthResult(script[i], n - 1);
    AttemptIsDue(cfg, script, i, n, trace);
    if r == EnrollFailed && n < Retries(cfg) {
      var tried := trace + [EnrollAttempt(r)];
      PauseIsDue(cfg, script, i, n, tried);
      if !NthCancelled(script[i], n - 1) {
        AttemptsAreDue(cfg, script, i, n + 1, tried + [Pause(5 * n)]);
      }
    }
  }

  lemma SleepIsDue(cfg: Config, script: seq<Entry>, i: nat, k: nat, dialled: seq<Action>)
    requires i < |script| && Follows(cfg, script, dialled) && Dials(dialled) == i + 1 && SleepsSinceReset(dialled) == k
    requires Due(cfg, script, dialled) == Some(Sleep(Delay(cfg.base, cfg.max, k)))
    ensures var slept := dialled + [Sleep(Delay(cfg.base, cfg.max, k))];
            && Follows(cfg, script, slept) && Dials(slept) == i + 1 && SleepsSinceReset(slept) == k + 1
            && (if script[i].sleepCancelled
                then Follows(cfg, script, slept + [Stop(Cancelled)])
                     && Due(cfg, script, slept + [Stop(Cancelled)]) == None
                else Due(cfg, script, slept) == NextDial(script, i + 1))
  {
    var slept := dialled + [Sleep(Delay(cfg.base, cfg.max, k))];
    FollowsSnoc(cfg, script, dialled, Sleep(Delay(cfg.base, cfg.max, k)));
    if script[i].sleepCancelled {
      FollowsSnoc(cfg, script, slept, Stop(Cancelled));
    }
  }

  /** The manager is where the trace says, and the next dial is due. */
  predicate Ready(cfg: Config, script: seq<Entry>, i: nat, attempt: nat, trace: seq<Action>)
  {
    && Follows(cfg, script, trace) && Dials(trace) == i && SleepsSinceReset(trace) == attempt
    && Due(cfg, script, trace) == NextDial(script, i)
  }

  lemma RoundIsDue(cfg: Config, script: seq<Entry>, i: nat, attempt: nat, trace: seq<Action>)
    requires i < |script| && Ready(cfg, script, i, attempt, trace)
    ensures var (t, next) := Round(cfg, script[i], attempt, trace);
            if next.Some? then Ready(cfg, script, i + 1, next.value, t)
            else Follows(cfg, script, t) && Due(cfg, script, t) == None
  {
    var e := script[i];
    var dialled := trace + [Dialled(e.outcome)];
    FollowsSnoc(cfg, script, trace, Dialled(e.outcome));
    if e.outcome == Closed(CLOSE_REVOKED) {
      FollowsSnoc(cfg, script, dialled, Stop(Revoked));
    } else if e.outcome == Unauthorized {
      if cfg.enrollable {
        AttemptsAreDue(cfg, script, i, 1, dialled);
      }
      var (tried, enrolled) := Unauthorised(cfg, e, dialled);
      if !enrolled {
        FollowsSnoc(cfg, script, tried, Stop(EnrollmentFailed));
      }
    } else {
      SleepIsDue(cfg, script, i, if Connected(e.outcome) then 0 else attempt, dialled);
    }
  }

  lemma {:induction false} LoopIsDue(cfg: Config, script: seq<Entry>, i: nat, attempt: nat, trace: seq<Action>)
    requires i <= |script| && Ready(cfg, script, i, attempt, trace)
    ensures var t := Loop(cfg, script, i, attempt, trace); Follows(cfg, script, t) && Due(cfg, script, t) == None
    decreases |script| - i
  {
    if i < |script| {
      RoundIsDue(cfg, script, i, attempt, trace);
      var (t, next) := Round(cfg, script[i], attempt, trace);
      if next.Some? {
        LoopIsDue(cfg, script, i + 1, next.value, t);
      }
    }
  }

  /** Over every script: each action of the trace is the one that was due, and at its end nothing is. */
  lemma EveryActionIsDue(cfg: Config, script: seq<Entry>)
    ensures var trace := Loop(cfg, script, 0, 0, []); Follows(cfg, script, trace) && Due(cfg, script, trace) == None
  {
    LoopIsDue(cfg, script, 0, 0, []);
  }

  // ---- How far the script is dialled ----

  /** After this dial the agent comes back: exactly when nothing ends the loop. */
  ghost predicate GoesOn(cfg: Config, e: Entry)
  {
    && e.outcome != Closed(CLOSE_REVOKED)
    && if e.outcome == Unauthorized then cfg.enrollable && exists a: nat :: EnrolledAt(cfg, e, a) else !e.sleepCancelled
  }

  /** Why the loop ended at this entry. */
  ghost predicate EndsWith(cfg: Config, e: Entry, reason: Reason)
  {
    match reason
    case Revoked => e.outcome == Closed(CLOSE_REVOKED)
    case Cancelled => e.outcome != Closed(CLOSE_REVOKED) && e.outcome != Unauthorized && e.sleepCancelled
    case EnrollmentFailed => e.outcome == Unauthorized && (!cfg.enrollable || exists a: nat :: GaveUpAt(cfg, e, a))
  }

  /** The outcomes dialled, in order. */
  function Outcomes(trace: seq<Action>): seq<Outcome>
  {
    if trace == [] then []
    else
      var front, last := trace[..|trace| - 1], trace[|trace| - 1];
      Outcomes(front) + if last.Dialled? then [last.outcome] else []
  }

  predicate NoStop(trace: seq<Action>)
  {
    forall a | a in trace :: !a.Stop?
  }

  /** The entries dialled are those of the script in order, and after each but the last the agent goes on. */
  ghost predicate DialledInOrder(cfg: Config, script: seq<Entry>, dials: seq<Outcome>)
  {
    && |dials| <= |script|
    && (forall n | 0 <= n < |dials| :: dials[n] == script[n].outcome)
    && (forall n | 0 <= n < |dials| - 1 :: GoesOn(cfg, script[n]))
  }

  /**
   The whole script is dialled unless the loop stops; it stops exactly after an entry after which the agent
   does not go on, once, at the end, and for the reason of that entry.
   */
  ghost predicate RightDials(cfg: Config, script: seq<Entry>, trace: seq<Action>)
  {
    var dials := Outcomes(trace);
    && DialledInOrder(cfg, script, dials)
    && (if NoStop(trace) then |dials| == |script| && (script != [] ==> GoesOn(cfg, script[|script| - 1]))
        else
          && |dials| > 0 && !GoesOn(cfg, script[|dials| - 1])
          && trace[|trace| - 1].Stop? && EndsWith(cfg, script[|dials| - 1], trace[|trace| - 1].reason)
          && NoStop(trace[..|trace| - 1]))
  }

  /** The first i entries have been dialled, and the agent goes on after each. */
  ghost predicate Passed(cfg: Config, script: seq<Entry>, i: nat, trace: seq<Action>)
  {
    && i <= |script| && |Outcomes(trace)| == i && NoStop(trace)
    && (forall n | 0 <= n < i :: Outcomes(trace)[n] == script[n].outcome && GoesOn(cfg, script[n]))
  }

  /** Entry i has been dialled, too. */
  ghost predicate At(cfg: Config, script: seq<Entry>, i: nat, trace: seq<Action>)
  {
    && i < |script| && |Outcomes(trace)| == i + 1 && NoStop(trace)
    && (forall n | 0 <= n <= i :: Outcomes(trace)[n] == script[n].outcome)
    && (forall n | 0 <= n < i :: GoesOn(cfg, script[n]))
  }

  lemma OutcomesSnoc(trace: seq<Action>, a: Action)
    ensures Outcomes(trace + [a]) == Outcomes(trace) + if a.Dialled? then [a.outcome] else []
    ensures NoStop(trace + [a]) <==> NoStop(trace) && !a.Stop?
    ensures (trace + [a])[..|trace + [a]| - 1] == trace
  {
    assert (trace + [a])[..|trace + [a]| - 1] == trace;
  }

  /** Actions that are neither a dial nor a stop. */
  predicate Between(more: seq<Action>)
  {
    forall a | a in more :: !a.Dialled? && !a.Stop?
  }

  lemma {:induction false} BetweenDialsNothing(before: seq<Action>, more: seq<Action>)
    requires Between(more) && NoStop(before)
    ensures Outcomes(before + more) == Outcomes(before) && NoStop(before + more)
    decreases |more|
  {
    if more == [] {
      assert before + more == before;
    } else {
      var init := more[..|more| - 1];
      BetweenDialsNothing(before, init);
      OutcomesSnoc(before + init, more[|more| - 1]);
      assert before + more == before + init + [more[|more| - 1]];
    }
  }

  lemma {:induction false} TriesAreBetween(e: Entry, a: nat)
    ensures Between(Tries(e, a))
  {
    if a > 0 {
      TriesAreBetween(e, a - 1);
    }
  }

  lemma RetriedDialNothing(cfg: Config, e: Entry, before: seq<Action>, trace: seq<Action>, enrolled: bool, a: nat)
    requires Retried(cfg, e, before, trace, enrolled, a) && NoStop(before)
    ensures Outcomes(trace) == Outcomes(before) && NoStop(trace)
  {
    TriesAreBetween(e, a);
    BetweenDialsNothing(before, Tries(e, a));
    BetweenDialsNothing(before + Tries(e, a), LastPause(cfg, e, a));
  }

  /** If one attempt is the last in vain, none enrolls the agent. */
  lemma NotBoth(cfg: Config, e: Entry, a: nat, b: nat)
    requires GaveUpAt(cfg, e, a)
    ensures !EnrolledAt(cfg, e, b)
  {
  }

  lemma StopsAt(cfg: Config, script: seq<Entry>, i: nat, trace: seq<Action>, reason: Reason)
    requires At(cfg, script, i, trace) && !GoesOn(cfg, script[i]) && EndsWith(cfg, script[i], reason)
    ensures RightDials(cfg, script, trace + [Stop(reason)])
  {
    OutcomesSnoc(trace, Stop(reason));
    assert Stop(reason) in trace + [Stop(reason)];
  }

  lemma UnauthorizedAt(cfg: Config, script: seq<Entry>, i: nat, dialled: seq<Action>)
    requires At(cfg, script, i, dialled) && script[i].outcome == Unauthorized
    ensures var (tried, enrolled) := Unauthorised(cfg, script[i], dialled);
            && At(cfg, script, i, tried) && (enrolled <==> GoesOn(cfg, script[i]))
            && (!enrolled ==> EndsWith(cfg, script[i], EnrollmentFailed))
  {
    if cfg.enrollable {
      var a := AttemptsRetried(cfg, script[i], 1, dialled, dialled);
      var (tried, enrolled) := Unauthorised(cfg, script[i], dialled);
      RetriedDialNothing(cfg, script[i], dialled, tried, enrolled, a);
      if !enrolled {
        forall b: nat ensures !EnrolledAt(cfg, script[i], b) {
          NotBoth(cfg, script[i], a, b);
        }
      }
    }
  }

  lemma RoundDials(cfg: Config, script: seq<Entry>, i: nat, attempt: nat, trace: seq<Action>)
    requires i < |script| && Passed(cfg, script, i, trace)
    ensures var (t, next) := Round(cfg, script[i], attempt, trace);
            if next.Some? then Passed(cfg, script, i + 1, t) else RightDials(cfg, script, t)
  {
    var e := script[i];
    var dialled := trace + [Dialled(e.outcome)];
    OutcomesSnoc(trace, Dialled(e.outcome));
    if e.outcome == Closed(CLOSE_REVOKED) {
      StopsAt(cfg, script, i, dialled, Revoked);
    } else if e.outcome == Unauthorized {
      UnauthorizedAt(cfg, script, i, dialled);
      var (tried, enrolled) := Unauthorised(cfg, e, dialled);
      if !enrolled {
        StopsAt(cfg, script, i, tried, EnrollmentFailed);
      }
    } else {
      var sleep := Sleep(Delay(cfg.base, cfg.max, if Connected(e.outcome) then 0 else attempt));
      OutcomesSnoc(dialled, sleep);
      if e.sleepCancelled {
        StopsAt(cfg, script, i, dialled + [sleep], Cancelled);
      }
    }
  }

  lemma {:induction false} LoopDials(cfg: Config, script: seq<Entry>, i: nat, attempt: nat, trace: seq<Action>)
    requires Passed(cfg, script, i, trace)
    ensures RightDials(cfg, script, Loop(cfg, script, i, attempt, trace))
    decreases |script| - i
  {
    if i < |script| {
      RoundDials(cfg, script, i, attempt, trace);
      var (t, next) := Round(cfg, script[i], attempt, trace);
      if next.Some? {
        LoopDials(cfg, script, i + 1, next.value, t);
      }
    }
  }

  /** Over every script: the n-th dial is that of entry n, and the agent dials on exactly as long as nothing ends it. */
  lemma DialsGoOn(cfg: Config, script: seq<Entry>)
    ensures RightDials(cfg, script, Loop(cfg, script, 0, 0, []))
  {
    LoopDials(cfg, script, 0, 0, []);
  }
}

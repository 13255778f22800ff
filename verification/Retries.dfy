/** The executor's transient-retry loop with capped exponential backoff (agent_as_tool.py). */
module Retries {
  import opened Values

  // ----- classification -----

  /** What is read off an exception or a result; `mentions` says whether its message holds a transient token. */
  datatype Symptoms = Symptoms(errorType: string, message: string, statusCode: Option<int>, retryable: Option<bool>,
                               mentions: bool)

  /** One answer of the executor: an exception, or a result with its status. */
  datatype Attempt = Raised(symptoms: Symptoms) | Returned(payload: Value, failed: bool, symptoms: Symptoms)

  datatype Lexicon = Lexicon(statusCodes: set<int>, errorTypes: set<string>)

  const TRANSIENT := Lexicon({408, 409, 425, 429, 500, 502, 503, 504}, {
    "APITimeoutError", "APIConnectionError", "APIStatusError", "RateLimitError", "TimeoutError", "ReadTimeout",
    "ConnectTimeout", "PoolTimeout", "TimeoutException", "ConnectError", "ReadError", "NetworkError",
    "ServiceUnavailableError"})

  predicate IsTransient(s: Symptoms, lexicon: Lexicon) {
    || s.retryable == Some(true)
    || (s.statusCode.Some? && s.statusCode.value in lexicon.statusCodes)
    || s.errorType in lexicon.errorTypes
    || s.mentions
  }

  /** Exceptions carry no retryable flag; results count only when failed and not marked as not retryable. */
  predicate Transient(a: Attempt, lexicon: Lexicon) {
    match a
    case Raised(s) => IsTransient(s.(retryable := None), lexicon)
    case Returned(_, failed, s) => failed && s.retryable != Some(false) && IsTransient(s, lexicon)
  }

  datatype ErrorRecord = ErrorRecord(attempt: nat, errorType: string, message: string)

  function RecordOf(a: Attempt, attempt: nat): ErrorRecord {
    ErrorRecord(attempt, if a.Returned? && a.symptoms.errorType == "" then "TransientFailure" else a.symptoms.errorType,
                a.symptoms.message)
  }

  // ----- the policy and its delays -----

  datatype RetryPolicy = RetryPolicy(maxAttempts: int, baseDelay: real, maxDelay: real)

  /** `AgentRuntimeRetryPolicy`: attempts are kept between one and five, delays are not negative. */
  function Clamped(p: RetryPolicy): RetryPolicy {
    var attempts := if p.maxAttempts == 0 then 1 else p.maxAttempts;
    RetryPolicy(if attempts > 5 then 5 else if attempts < 1 then 1 else attempts,
                if p.baseDelay < 0.0 then 0.0 else p.baseDelay,
                if p.maxDelay < 0.0 then 0.0 else p.maxDelay)
  }

  predicate ValidPolicy(p: RetryPolicy) {
    p.maxAttempts >= 1 && p.baseDelay >= 0.0 && p.maxDelay >= 0.0
  }

  lemma ClampedIsValid(p: RetryPolicy)
    ensures ValidPolicy(Clamped(p)) && Clamped(p).maxAttempts <= 5
    ensures ValidPolicy(p) && p.maxAttempts <= 5 ==> Clamped(p) == p
  {
  }

  function Pow2(n: nat): nat {
    if n == 0 then 1 else 2 * Pow2(n - 1)
  }

  /** The delay after a failed attempt, 0 when the sleeper is not called. */
  function Delay(p: RetryPolicy, attempt: nat): real
    requires attempt >= 1
  {
    if p.baseDelay <= 0.0 then 0.0
    else
      var d := p.baseDelay * (Pow2(attempt - 1) as real);
      if p.maxDelay > 0.0 && p.maxDelay < d then p.maxDelay else d
  }

  /** The time slept over the first n failed attempts. */
  function Backoff(p: RetryPolicy, n: nat): real {
    if n == 0 then 0.0 else Backoff(p, n - 1) + Delay(p, n)
  }

  function Total(delays: seq<real>): real {
    if delays == [] then 0.0 else Total(delays[..|delays| - 1]) + delays[|delays| - 1]
  }

  lemma Distribute(a: real, x: real, y: real)
    ensures a * (x + y) == a * x + a * y
  {
  }

  lemma NotNegative(a: real, x: real)
    requires a >= 0.0 && x >= 0.0
    ensures a * x >= 0.0
  {
  }

  lemma NoMore(a: real, x: real, y: real)
    requires a >= 0.0 && x <= y
    ensures a * x <= a * y
  {
    NotNegative(a, y - x);
    Distribute(a, x, y - x);
  }

  /** What n failures cost when nothing caps the delays: base * (2^n - 1). */
  function Uncapped(p: RetryPolicy, n: nat): real {
    p.baseDelay * ((Pow2(n) as real) - 1.0)
  }

  lemma UncappedStep(p: RetryPolicy, n: nat)
    requires n > 0
    ensures Uncapped(p, n) == Uncapped(p, n - 1) + p.baseDelay * (Pow2(n - 1) as real)
  {
    var half := Pow2(n - 1) as real;
    assert Pow2(n) as real == half + half;
    Distribute(p.baseDelay, half - 1.0, half);
  }

  lemma DelayFacts(p: RetryPolicy, n: nat)
    requires ValidPolicy(p) && n >= 1
    ensures 0.0 <= Delay(p, n) <= p.baseDelay * (Pow2(n - 1) as real)
    ensures p.maxDelay == 0.0 ==> Delay(p, n) == p.baseDelay * (Pow2(n - 1) as real)
    ensures p.maxDelay > 0.0 ==> Delay(p, n) <= p.maxDelay
    ensures p.baseDelay * (Pow2(n - 1) as real) <= p.maxDelay ==> Delay(p, n) == p.baseDelay * (Pow2(n - 1) as real)
  {
    NotNegative(p.baseDelay, Pow2(n - 1) as real);
    if p.baseDelay == 0.0 { assert p.baseDelay * (Pow2(n - 1) as real) == 0.0; }
  }

  /**
   Uncapped, n failures cost base * (2^n - 1); capped, they cost no more than that and no more than n times the cap.
   */
  lemma {:induction false} BackoffBound(p: RetryPolicy, n: nat)
    requires ValidPolicy(p)
    ensures 0.0 <= Backoff(p, n) <= Uncapped(p, n)
    ensures p.maxDelay == 0.0 ==> Backoff(p, n) == Uncapped(p, n)
    ensures p.maxDelay > 0.0 ==> Backoff(p, n) <= p.maxDelay * (n as real)
  {
    hide Delay, Pow2, Uncapped;
    if n == 0 {
      assert Uncapped(p, 0) == 0.0 by { UncappedAtZero(p); }
    } else {
      BackoffBound(p, n - 1);
      DelayFacts(p, n);
      UncappedStep(p, n);
      Distribute(p.maxDelay, (n - 1) as real, 1.0);
    }
  }

  lemma UncappedAtZero(p: RetryPolicy)
    ensures Uncapped(p, 0) == 0.0
  {
  }

  /** As long as the last uncapped delay stays under the cap, the cap changes nothing. */
  lemma {:induction false} CapUnreached(p: RetryPolicy, n: nat)
    requires ValidPolicy(p) && (n > 0 ==> p.baseDelay * (Pow2(n - 1) as real) <= p.maxDelay)
    ensures Backoff(p, n) == Uncapped(p, n)
  {
    hide Delay, Uncapped;
    if n == 0 {
      UncappedAtZero(p);
    } else {
      if n > 1 { NoMore(p.baseDelay, Pow2(n - 2) as real, Pow2(n - 1) as real); }
      CapUnreached(p, n - 1);
      DelayFacts(p, n);
      UncappedStep(p, n);
    }
  }

  // ----- the loop -----

  /**
   How the loop ends: the exception passes, the result passes as it is or with its retry record, or the attempts ran
   out.
   */
  datatype Ending =
    | Propagated(symptoms: Symptoms)
    | Plain(payload: Value)
    | Annotated(payload: Value, attempts: nat, recovered: bool, errors: seq<ErrorRecord>)
    | Exhausted(attempts: nat, errors: seq<ErrorRecord>)

  /** The first attempt that is not transient, or the limit. */
  ghost predicate StopsAt(answers: nat -> Attempt, lexicon: Lexicon, limit: nat, k: nat) {
    && 1 <= k <= limit
    && (forall j :: 1 <= j < k ==> Transient(answers(j), lexicon))
    && (k < limit ==> !Transient(answers(k), lexicon))
  }

  ghost predicate Numbered(answers: nat -> Attempt, errors: seq<ErrorRecord>) {
    forall i :: 0 <= i < |errors| ==> errors[i] == RecordOf(answers(i + 1), i + 1)
  }

  /** What an ending must say, given where the loop stopped. */
  ghost predicate EndsAs(answers: nat -> Attempt, lexicon: Lexicon, limit: nat, k: nat, e: Ending) {
    var last := answers(k);
    if Transient(last, lexicon) then
      if last.Raised? then e.Exhausted? && e.attempts == limit && |e.errors| == k && Numbered(answers, e.errors)
      else
        e.Annotated? && e.payload == last.payload && e.attempts == k && !e.recovered && |e.errors| == k &&
        Numbered(answers, e.errors)
    else if last.Raised? then e == Propagated(last.symptoms)
    else if k == 1 then e == Plain(last.payload)
    else
      e.Annotated? && e.payload == last.payload && e.attempts == k && e.recovered && |e.errors| == k - 1 &&
      Numbered(answers, e.errors)
  }

  /**
   `_call_executor_with_transient_retries`, under a policy as its constructor keeps it: `calls` counts executor calls
   and `slept` records the sleeper's.
   */
  method CallWithRetries(answers: nat -> Attempt, given: RetryPolicy, lexicon: Lexicon := TRANSIENT)
    returns (ending: Ending, calls: nat, slept: seq<real>)
    ensures 1 <= calls <= 5
    ensures StopsAt(answers, lexicon, Clamped(given).maxAttempts, calls)
    ensures EndsAs(answers, lexicon, Clamped(given).maxAttempts, calls, ending)
    ensures Total(slept) == Backoff(Clamped(given), calls - 1)
    ensures forall d <- slept :: d > 0.0
  {
    hide Transient, RecordOf, Delay, Clamped;
    var policy := Clamped(given);
    ClampedIsValid(given);
    var errors: seq<ErrorRecord> := [];
    var maxAttempts: nat := policy.maxAttempts;
    calls, slept := 0, [];
    ending := Exhausted(maxAttempts, errors);
    var attempt: nat := 1;
    while attempt <= maxAttempts
      invariant 1 <= attempt <= maxAttempts
      invariant calls == attempt - 1 == |errors|
      invariant forall j :: 1 <= j < attempt ==> Transient(answers(j), lexicon)
      invariant Numbered(answers, errors)
      invariant Total(slept) == Backoff(policy, attempt - 1)
      invariant forall d <- slept :: d > 0.0
      decreases maxAttempts - attempt
    {
      var answer := answers(attempt);
      calls := calls + 1;
      if !Transient(answer, lexicon) {
        if answer.Raised? {
          ending := Propagated(answer.symptoms);
        } else if errors != [] {
          ending := Annotated(answer.payload, attempt, true, errors);
        } else {
          ending := Plain(answer.payload);
        }
        return;
      }
      errors := errors + [RecordOf(answer, attempt)];
      if attempt >= maxAttempts {
        if answer.Raised? {
          ending := Exhausted(maxAttempts, errors);
        } else {
          ending := Annotated(answer.payload, attempt, false, errors);
        }
        return;
      }
      var delay := Delay(policy, attempt);
      SleptOneMore(policy, slept, attempt);
      if delay > 0.0 {
        slept := slept + [delay];
      }
      attempt := attempt + 1;
    }
    // Every attempt returns or leaves another one to make.
    assert false;
  }

  /** Calling the sleeper only for positive delays adds up to the same. */
  lemma SleptOneMore(p: RetryPolicy, slept: seq<real>, attempt: nat)
    requires ValidPolicy(p) && attempt >= 1 && Total(slept) == Backoff(p, attempt - 1)
    ensures Total(if Delay(p, attempt) > 0.0 then slept + [Delay(p, attempt)] else slept) == Backoff(p, attempt)
  {
    var d := Delay(p, attempt);
    assert d >= 0.0 by { DelayFacts(p, attempt); }
    assert (slept + [d])[..|slept|] == slept;
  }

  /** Where the loop stops is determined by the answers alone. */
  lemma StopIsUnique(answers: nat -> Attempt, lexicon: Lexicon, limit: nat, k: nat, l: nat)
    requires StopsAt(answers, lexicon, limit, k) && StopsAt(answers, lexicon, limit, l)
    ensures k == l
  {
    assert k < l ==> Transient(answers(k), lexicon);
    assert l < k ==> Transient(answers(l), lexicon);
  }

  /** `recovered` is reported exactly when a result that is not a transient failure followed at least one error. */
  lemma RecoveredIff(answers: nat -> Attempt, lexicon: Lexicon, limit: nat, k: nat, e: Ending)
    requires StopsAt(answers, lexicon, limit, k) && EndsAs(answers, lexicon, limit, k, e)
    ensures (e.Annotated? && e.recovered) <==> k > 1 && answers(k).Returned? && !Transient(answers(k), lexicon)
    ensures e.Annotated? || e.Exhausted? ==> |e.errors| >= 1 && forall i :: 0 <= i < |e.errors| ==>
            e.errors[i].attempt == i + 1
  {
  }
}

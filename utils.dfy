/**
 * The escalation predicates the routers consult, two naming helpers, and the
 * two retry loops of the shared utilities: the generic `retry_async` and the
 * retry/counter accounting of the generation service's `invoke`.
 */
module Utils {
  import opened Text
  import opened PipelineState

  // ---------------------------------------------------------------------------
  // Escalation predicates
  // ---------------------------------------------------------------------------

  /** An error that counts as critical once the last run succeeded. */
  predicate IsCriticalError(e: ErrorRecord)
  {
    e.severity == Some(High) || e.severity == Some(Critical)
    || Contains(e.message, "No module named") || Contains(e.message, "ImportError")
  }

  /** The loop over `errors` that returns True at the first critical one. */
  function AnyCritical(errors: seq<ErrorRecord>): (r: bool)
    ensures r <==> exists i :: 0 <= i < |errors| && IsCriticalError(errors[i])
  {
    if |errors| == 0 then false
    else IsCriticalError(errors[0]) || AnyCritical(errors[1..])
  }

  /**
   * `has_critical_errors`: a missing or unsuccessful run result is critical by
   * itself (the indented block after that `return` can never execute);
   * otherwise some error must be critical.
   */
  function HasCriticalErrors(s: State): (r: bool)
    ensures !RunSucceeded(s.runResult) ==> r
    ensures RunSucceeded(s.runResult) ==>
              (r <==> exists i :: 0 <= i < |s.errors| && IsCriticalError(s.errors[i]))
  {
    if !RunSucceeded(s.runResult) then true else AnyCritical(s.errors)
  }

  /** `should_retry_generation(state, max_retries)` */
  function ShouldRetryGeneration(s: State, maxRetries: int): (r: bool)
    ensures r ==> s.generationRetryCount < maxRetries
    ensures r ==> HasCriticalErrors(s)
    ensures s.generationRetryCount < maxRetries && !RunSucceeded(s.runResult) ==> r
  {
    s.generationRetryCount < maxRetries && HasCriticalErrors(s)
  }

  /** Why `should_stop_workflow` asks to stop. */
  datatype StopReason = KeepGoing | EnvironmentFix | LowConfidence(confidence: int)

  /** Below this confidence (0.3, in thousandths) the analysis is not trusted. */
  const ConfidenceFloor: int := 300

  /** The confidence read when the analysis gives none (0.5, in thousandths). */
  const DefaultConfidence: int := 500

  /**
   * `should_stop_workflow`: an empty analysis never stops the run; otherwise an
   * "environment_fix" verdict stops it, checked first, and so does a
   * confidence below 0.3.
   */
  function ShouldStopWorkflow(s: State): (r: StopReason)
    ensures s.errorAnalysis.NoDiagnosis? ==> r == KeepGoing
    ensures s.errorAnalysis.Diagnosis? && s.errorAnalysis.nextAction == Some("environment_fix") ==>
              r == EnvironmentFix
    ensures r.LowConfidence? ==> r.confidence < ConfidenceFloor
    ensures s.errorAnalysis.Diagnosis? && s.errorAnalysis.nextAction != Some("environment_fix") ==>
              (r != KeepGoing <==>
                 (if s.errorAnalysis.confidence.Some? then s.errorAnalysis.confidence.value
                  else DefaultConfidence) < ConfidenceFloor)
  {
    match s.errorAnalysis
    case NoDiagnosis => KeepGoing
    case Diagnosis(action, confidence, _) =>
      var next := if action.Some? then action.value else "continue";
      var c := if confidence.Some? then confidence.value else DefaultConfidence;
      if next == "environment_fix" then EnvironmentFix
      else if c < ConfidenceFloor then LowConfidence(c)
      else KeepGoing
  }

  /** A diagnosis without keys (the one the review stage stores) never stops the run. */
  lemma KeylessDiagnosisNeverStops(s: State)
    requires s.errorAnalysis == Diagnosis(None, None, None)
    ensures ShouldStopWorkflow(s) == KeepGoing
  {
  }

  // ---------------------------------------------------------------------------
  // Naming helpers
  // ---------------------------------------------------------------------------

  predicate IsIdentChar(c: char) { IsAlnum(c) || c == '_' }

  /** The comprehension keeping alphanumerics and underscores. */
  function KeepIdentChars(name: string): (r: string)
    ensures |r| <= |name|
    ensures forall i :: 0 <= i < |r| ==> IsIdentChar(r[i])
  {
    if |name| == 0 then ""
    else if IsIdentChar(name[0]) then [name[0]] + KeepIdentChars(name[1..])
    else KeepIdentChars(name[1..])
  }

  /** `safe_module_name` before lower-casing: digits first get "mcp_", nothing left gives "mcp_service". */
  function SafeModuleStem(kept: string): (r: string)
    requires forall i :: 0 <= i < |kept| ==> IsIdentChar(kept[i])
    ensures |r| > 0 && !IsDigit(r[0])
    ensures forall i :: 0 <= i < |r| ==> IsIdentChar(r[i])
  {
    if kept == "" then "mcp_service"
    else if IsDigit(kept[0]) then "mcp_" + kept
    else kept
  }

  /**
   * `safe_module_name`: a non-empty, lower-case identifier that never starts
   * with a digit, made of the name's letters, digits and underscores in order
   * ("mcp_" is put in front of a leading digit; "mcp_service" stands in when
   * nothing is left).
   */
  function SafeModuleName(name: string): (r: string)
    ensures |r| > 0 && !IsDigit(r[0])
    ensures forall i :: 0 <= i < |r| ==> IsIdentChar(r[i]) && !('A' <= r[i] <= 'Z')
    ensures KeepIdentChars(name) == "" ==> r == "mcp_service"
    ensures KeepIdentChars(name) != "" ==> EndsWith(r, Lower(KeepIdentChars(name)))
  {
    var stem := SafeModuleStem(KeepIdentChars(name));
    LowerKeepsIdent(stem);
    StemKeepsName(KeepIdentChars(name));
    Lower(stem)
  }

  lemma StemKeepsName(kept: string)
    requires forall i :: 0 <= i < |kept| ==> IsIdentChar(kept[i])
    ensures kept != "" ==> EndsWith(Lower(SafeModuleStem(kept)), Lower(kept))
  {
    if kept != "" && IsDigit(kept[0]) {
      LowerAppend("mcp_", kept);
    }
  }

  lemma {:induction false} LowerAppend(a: string, b: string)
    ensures Lower(a + b) == Lower(a) + Lower(b)
  {
    hide Lower, LowerChar;
    forall i | 0 <= i < |a + b|
      ensures Lower(a + b)[i] == (Lower(a) + Lower(b))[i]
    {
      if i < |a| {
        assert (a + b)[i] == a[i];
      } else {
        assert (a + b)[i] == b[i - |a|];
      }
    }
  }

  lemma LowerKeepsIdent(s: string)
    requires |s| > 0 && !IsDigit(s[0])
    requires forall i :: 0 <= i < |s| ==> IsIdentChar(s[i])
    ensures forall i :: 0 <= i < |s| ==> IsIdentChar(Lower(s)[i])
    ensures !IsDigit(Lower(s)[0])
  {
    assert forall i :: 0 <= i < |s| ==> Lower(s)[i] == LowerChar(s[i]);
  }

  /** A text made only of identifier characters passes the filter untouched. */
  lemma {:induction false} KeepIdentCharsIdentity(s: string)
    requires forall i :: 0 <= i < |s| ==> IsIdentChar(s[i])
    ensures KeepIdentChars(s) == s
    decreases |s|
  {
    if |s| > 0 {
      KeepIdentCharsIdentity(s[1..]);
    }
  }

  /** Lower-casing a text without capitals changes nothing. */
  lemma {:induction false} LowerIdentity(s: string)
    requires forall i :: 0 <= i < |s| ==> !('A' <= s[i] <= 'Z')
    ensures Lower(s) == s
  {
    assert forall i :: 0 <= i < |s| ==> Lower(s)[i] == s[i];
  }

  /** A safe name is its own safe name. */
  lemma SafeModuleNameIdempotent(name: string)
    ensures SafeModuleName(SafeModuleName(name)) == SafeModuleName(name)
  {
    var r := SafeModuleName(name);
    KeepIdentCharsIdentity(r);
    LowerIdentity(r);
  }

  /**
   * `text[:stop]` with Python's slice rules: a negative stop counts from the
   * end and the result is clamped to the text.
   */
  function PySliceTo(text: string, stop: int): (r: string)
    ensures r <= text
  {
    if stop >= 0 then text[..if stop <= |text| then stop else |text|]
    else text[..if |text| + stop >= 0 then |text| + stop else 0]
  }

  /** `truncate_text` as written: `text[:max_length - len(suffix)] + suffix`. */
  function TruncateTextAsWritten(text: string, maxLength: int, suffix: string): (r: string)
    ensures |text| <= maxLength ==> r == text
    ensures |text| > maxLength ==> EndsWith(r, suffix)
  {
    if |text| <= maxLength then text
    else PySliceTo(text, maxLength - |suffix|) + suffix
  }

  /**
   * With a limit below the suffix length the slice index turns negative and
   * counts from the end: "abcdef" limited to 2 becomes "abcde...", eight
   * characters long.
   */
  lemma TruncateAsWrittenOverflows()
    ensures TruncateTextAsWritten("abcdef", 2, "...") == "abcde..."
    ensures |TruncateTextAsWritten("abcdef", 2, "...")| > 2
  {
    assert PySliceTo("abcdef", -1) == "abcde";
  }

  /**
   * `truncate_text` with the limit honoured: a text that fits is returned as
   * is; otherwise the result keeps a prefix of the text, and carries the
   * suffix whenever the limit leaves room for it.
   */
  function TruncateText(text: string, maxLength: int, suffix: string): (r: string)
    ensures |text| <= maxLength ==> r == text
    ensures |text| > maxLength ==> |r| <= (if maxLength > 0 then maxLength else 0)
    ensures |text| > maxLength && maxLength >= |suffix| ==>
              |r| == maxLength && EndsWith(r, suffix) && r[..|r| - |suffix|] <= text
    ensures |text| > maxLength && maxLength < |suffix| ==> r <= text
  {
    if |text| <= maxLength then text
    else if maxLength >= |suffix| then text[..maxLength - |suffix|] + suffix
    else text[..if maxLength > 0 then maxLength else 0]
  }

  /** Where the limit leaves room for the suffix the correction changes nothing. */
  lemma TruncateTextAgrees(text: string, maxLength: int, suffix: string)
    requires maxLength >= |suffix|
    ensures TruncateText(text, maxLength, suffix) == TruncateTextAsWritten(text, maxLength, suffix)
  {
  }

  // ---------------------------------------------------------------------------
  // retry_async
  // ---------------------------------------------------------------------------

  /** `RetryConfig`: attempts after the first, the first delay and its growth factor. */
  datatype RetryConfig = RetryConfig(maxRetries: int, delay: real, backoff: real)

  /** The configuration used when none is given. */
  const DefaultRetryConfig := RetryConfig(3, 1.0, 2.0)

  datatype CallOutcome<T> = Ok(value: T) | Err(error: string)

  /**
   * How `retry_async` ends: the first successful value, the last exception
   * re-raised, or `raise None` (a TypeError) when no attempt was made at all.
   */
  datatype RetryResult<T> = Returned(value: T) | Reraised(error: string) | NothingToRaise

  function Power(b: real, n: nat): real
  {
    if n == 0 then 1.0 else b * Power(b, n - 1)
  }

  /** The pause before retry `j + 1`: the first delay multiplied by the factor `j` times. */
  function Backoff(c: RetryConfig, j: nat): real
  {
    if j == 0 then c.delay else Backoff(c, j - 1) * c.backoff
  }

  /** The pauses grow geometrically: `delay * backoff^j`. */
  lemma {:induction false} BackoffClosedForm(c: RetryConfig, j: nat)
    ensures Backoff(c, j) == c.delay * Power(c.backoff, j)
  {
    if j > 0 {
      BackoffClosedForm(c, j - 1);
      assert Backoff(c, j) == (c.delay * Power(c.backoff, j - 1)) * c.backoff;
    }
  }

  /** The number of attempts `range(max_retries + 1)` allows. */
  function AttemptBudget(c: RetryConfig): nat
  {
    if c.maxRetries + 1 > 0 then c.maxRetries + 1 else 0
  }

  /**
   * `retry_async`: call `call(0)`, `call(1)`, ... (the i-th call's outcome),
   * at most `max_retries + 1` times; return the first success; sleep
   * `delay * backoff^j` after the j-th failure, but only when another attempt
   * follows; after the last failure re-raise it.
   */
  method RetryAsync<T>(call: nat -> CallOutcome<T>, config: RetryConfig)
    returns (r: RetryResult<T>, calls: nat, sleeps: seq<real>)
    ensures calls <= AttemptBudget(config)
    ensures forall j :: 0 <= j < calls - 1 ==> call(j).Err?
    ensures r.Returned? <==> exists i :: 0 <= i < AttemptBudget(config) && call(i).Ok?
    ensures r.Returned? ==> calls >= 1 && call(calls - 1) == Ok(r.value)
    ensures r.Reraised? ==> calls == AttemptBudget(config) >= 1 && call(calls - 1) == Err(r.error)
    ensures r.NothingToRaise? <==> AttemptBudget(config) == 0
    ensures |sleeps| == if calls == 0 then 0 else calls - 1
    ensures forall j :: 0 <= j < |sleeps| ==> sleeps[j] == Backoff(config, j)
  {
    var n := AttemptBudget(config);
    var delay := config.delay;
    var last: Option<string> := None;
    sleeps := [];
    var attempt: nat := 0;
    calls := 0;
    while attempt < n
      invariant attempt <= n && calls == attempt
      invariant forall j :: 0 <= j < attempt ==> call(j).Err?
      invariant attempt == 0 <==> last.None?
      invariant attempt > 0 ==> last == Some(call(attempt - 1).error)
      invariant |sleeps| == if attempt == n && n > 0 then n - 1 else attempt
      invariant delay == Backoff(config, |sleeps|)
      invariant forall j :: 0 <= j < |sleeps| ==> sleeps[j] == Backoff(config, j)
    {
      calls := calls + 1;
      var outcome := call(attempt);
      if outcome.Ok? {
        r := Returned(outcome.value);
        return;
      }
      last := Some(outcome.error);
      if attempt < config.maxRetries {
        sleeps := sleeps + [delay];
        delay := delay * config.backoff;
      } else {
        assert attempt + 1 == n;
      }
      attempt := attempt + 1;
    }
    if last.None? {
      r := NothingToRaise;
    } else {
      r := Reraised(last.value);
    }
  }

  // ---------------------------------------------------------------------------
  // The generation service's invoke
  // ---------------------------------------------------------------------------

  /** What one request to the service did. */
  datatype Attempt =
    | Reply(content: string, completionTokens: nat)
    | ClientError(code: string)
    | Failure(message: string)

  /** The exception `invoke` lets out. */
  datatype Escape =
    | RetriesExceeded(lastError: Attempt)
    | ClientErrorRaised(code: string)
    | NameErrorInHandler

  datatype Invocation = Answered(content: string, completionTokens: nat) | Threw(escape: Escape)

  /** One pause before a retry: after a throttling error or after any other failure. */
  datatype Pause = ThrottlePause(retry: nat) | FailurePause(retry: nat)

  /** The whole course of one call: outcome, retries counted, pauses taken, whether it counts as failed. */
  datatype Course = Course(result: Invocation, retries: nat, pauses: seq<Pause>, failed: bool)

  predicate IsThrottling(code: string)
  {
    code == "Throttling" || code == "TooManyRequestsException"
  }

  /** An attempt after which `invoke` counts a retry. */
  predicate Retryable(a: Attempt, hasAws: bool)
  {
    hasAws && (a.Failure? || (a.ClientError? && IsThrottling(a.code)))
  }

  /**
   * The loop of `invoke` from the attempt after `k` counted retries.  Without
   * the AWS libraries the name `ClientError` is undefined, so the first failed
   * request raises a NameError from the `except` clause itself.
   */
  function CourseFrom(attempt: nat -> Attempt, k: nat, maxRetries: int, hasAws: bool): (c: Course)
    ensures c.retries >= k
    decreases if maxRetries >= k then maxRetries - k else 0
  {
    var a := attempt(k);
    if a.Reply? then Course(Answered(a.content, a.completionTokens), k, [], false)
    else if !hasAws then Course(Threw(NameErrorInHandler), k, [], false)
    else if a.ClientError? && !IsThrottling(a.code) then Course(Threw(ClientErrorRaised(a.code)), k, [], true)
    else if k + 1 > maxRetries then Course(Threw(RetriesExceeded(a)), k + 1, [], true)
    else
      var rest := CourseFrom(attempt, k + 1, maxRetries, hasAws);
      var pause := if a.ClientError? then ThrottlePause(k + 1) else FailurePause(k + 1);
      rest.(pauses := [pause] + rest.pauses)
  }

  /** A course with `ps` slept before it. */
  function After(ps: seq<Pause>, c: Course): (d: Course)
    ensures d.result == c.result && d.retries == c.retries && d.failed == c.failed
    ensures d.pauses == ps + c.pauses
  {
    c.(pauses := ps + c.pauses)
  }

  lemma AfterAfter(ps: seq<Pause>, p: Pause, c: Course)
    ensures After(ps, c.(pauses := [p] + c.pauses)) == After(ps + [p], c)
  {
    assert ps + ([p] + c.pauses) == (ps + [p]) + c.pauses;
  }

  /** Seconds slept before a retry; `jitterFraction` is the uniform draw scaled to [0, 1]. */
  function PauseSeconds(p: Pause, jitterFraction: real): real
  {
    match p
    case ThrottlePause(n) =>
      var base := if n >= 7 then 60.0 else if n == 0 then 0.5 else Power(2.0, n - 1);
      base + jitterFraction * 0.1 * base
    case FailurePause(n) => 2.0 * n as real
  }

  lemma {:induction false} PowerTwoGrows(m: nat, n: nat)
    requires m <= n
    ensures 1.0 <= Power(2.0, m) <= Power(2.0, n)
    decreases n
  {
    if m < n {
      PowerTwoGrows(m, n - 1);
    } else if m > 0 {
      PowerTwoGrows(m - 1, m - 1);
    }
  }

  /** A throttling pause is at least one second and, jitter included, at most 66. */
  lemma ThrottlePauseBounded(n: nat, jitterFraction: real)
    requires n >= 1 && 0.0 <= jitterFraction <= 1.0
    ensures 1.0 <= PauseSeconds(ThrottlePause(n), jitterFraction) <= 66.0
  {
    if n < 7 {
      PowerTwoGrows(n - 1, 5);
      assert Power(2.0, 5) == 32.0;
    }
  }

  /**
   * Every retry is preceded by a failed request, and the count of retries never
   * exceeds `max_retries + 1`; an answer comes after at most `max_retries`.
   */
  lemma {:induction false} CourseBounds(attempt: nat -> Attempt, k: nat, maxRetries: int, hasAws: bool)
    ensures var c := CourseFrom(attempt, k, maxRetries, hasAws);
            (c.retries <= (if maxRetries > k then maxRetries else k) + 1)
            && (c.result.Answered? ==> c.retries <= (if maxRetries > k then maxRetries else k))
            && (c.result.Answered? ==> |c.pauses| == c.retries - k)
            && (forall i :: 0 <= i < |c.pauses| ==> c.pauses[i].retry == k + i + 1)
    decreases if maxRetries >= k then maxRetries - k else 0
  {
    var a := attempt(k);
    if a.Reply? || !hasAws || (a.ClientError? && !IsThrottling(a.code)) || k + 1 > maxRetries {
    } else {
      CourseBounds(attempt, k + 1, maxRetries, hasAws);
    }
  }

  /**
   * With the AWS libraries present a call that raises is counted as failed
   * exactly once; an answered call never is; without them nothing but the
   * call itself is counted.
   */
  lemma {:induction false} CourseFailureAccounting(attempt: nat -> Attempt, k: nat, maxRetries: int, hasAws: bool)
    ensures var c := CourseFrom(attempt, k, maxRetries, hasAws);
            (c.result.Answered? ==> !c.failed)
            && (hasAws && c.result.Threw? ==> c.failed)
            && (!hasAws ==> !c.failed && c.retries == k && c.pauses == [])
    decreases if maxRetries >= k then maxRetries - k else 0
  {
    var a := attempt(k);
    if a.Reply? || !hasAws || (a.ClientError? && !IsThrottling(a.code)) || k + 1 > maxRetries {
    } else {
      CourseFailureAccounting(attempt, k + 1, maxRetries, hasAws);
    }
  }

  /**
   * When the first `max_retries + 1` requests all fail with retryable errors
   * the call raises with `max_retries + 1` retries counted.
   */
  lemma {:induction false} ExhaustedRetriesRaise(attempt: nat -> Attempt, k: nat, maxRetries: int)
    requires k <= maxRetries + 1
    requires forall j :: k <= j <= maxRetries ==> Retryable(attempt(j), true)
    requires k <= maxRetries
    ensures CourseFrom(attempt, k, maxRetries, true).result.Threw?
    ensures CourseFrom(attempt, k, maxRetries, true).retries == maxRetries + 1
    decreases maxRetries - k
  {
    if k + 1 <= maxRetries {
      ExhaustedRetriesRaise(attempt, k + 1, maxRetries);
    }
  }

  /** The generation service's call counters. */
  class LlmService {
    var totalCalls: nat
    var failedCalls: nat
    var retryCount: nat
    var totalPromptTokens: nat
    var totalCompletionTokens: nat
    var totalTokens: nat
    /** Whether the AWS libraries (and with them `ClientError`) imported. */
    const hasAws: bool

    constructor(hasAws: bool)
      ensures this.hasAws == hasAws
      ensures totalCalls == 0 && failedCalls == 0 && retryCount == 0
      ensures totalPromptTokens == 0 && totalCompletionTokens == 0 && totalTokens == 0
    {
      this.hasAws := hasAws;
      totalCalls := 0;
      failedCalls := 0;
      retryCount := 0;
      totalPromptTokens := 0;
      totalCompletionTokens := 0;
      totalTokens := 0;
    }

    /**
     * `invoke`: `attempt(i)` is what the i-th request does; the call follows
     * `CourseFrom`, the counters move as its course says, and the token
     * totals only on an answer.
     */
    method Invoke(attempt: nat -> Attempt, maxRetries: int, promptTokens: nat)
      returns (r: Invocation, pauses: seq<Pause>)
      modifies this
      ensures var c := CourseFrom(attempt, 0, maxRetries, hasAws);
              r == c.result && pauses == c.pauses
              && totalCalls == old(totalCalls) + 1
              && retryCount == old(retryCount) + c.retries
              && failedCalls == old(failedCalls) + (if c.failed then 1 else 0)
      ensures r.Answered? ==>
                totalPromptTokens == old(totalPromptTokens) + promptTokens
                && totalCompletionTokens == old(totalCompletionTokens) + r.completionTokens
                && totalTokens == old(totalTokens) + promptTokens + r.completionTokens
      ensures r.Threw? ==>
                totalPromptTokens == old(totalPromptTokens)
                && totalCompletionTokens == old(totalCompletionTokens)
                && totalTokens == old(totalTokens)
    {
      totalCalls := totalCalls + 1;
      var k: nat := 0;
      pauses := [];
      while true
        invariant totalCalls == old(totalCalls) + 1
        invariant retryCount == old(retryCount) + k
        invariant failedCalls == old(failedCalls)
        invariant totalPromptTokens == old(totalPromptTokens)
        invariant totalCompletionTokens == old(totalCompletionTokens)
        invariant totalTokens == old(totalTokens)
        invariant k == 0 || k <= maxRetries
        invariant CourseFrom(attempt, 0, maxRetries, hasAws) == After(pauses, CourseFrom(attempt, k, maxRetries, hasAws))
        decreases if maxRetries >= k then maxRetries - k else 0
      {
        var a := attempt(k);
        if a.Reply? {
          totalPromptTokens := totalPromptTokens + promptTokens;
          totalCompletionTokens := totalCompletionTokens + a.completionTokens;
          totalTokens := totalTokens + (promptTokens + a.completionTokens);
          r := Answered(a.content, a.completionTokens);
          return;
        }
        if !hasAws {
          r := Threw(NameErrorInHandler);
          return;
        }
        if a.ClientError? && !IsThrottling(a.code) {
          failedCalls := failedCalls + 1;
          r := Threw(ClientErrorRaised(a.code));
          return;
        }
        k := k + 1;
        retryCount := retryCount + 1;
        if k > maxRetries {
          failedCalls := failedCalls + 1;
          r := Threw(RetriesExceeded(a));
          return;
        }
        var pause := if a.ClientError? then ThrottlePause(k) else FailurePause(k);
        AfterAfter(pauses, pause, CourseFrom(attempt, k, maxRetries, hasAws));
        pauses := pauses + [pause];
      }
    }
  }
}

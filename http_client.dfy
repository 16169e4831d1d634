/**
 * The gateway's outbound call policy: the retry and circuit settings read from the
 * environment, and `PostWithRetryAndCircuit`, which asks the breaker once, then posts up to
 * `MaxRetries + 1` times with a growing, capped wait between attempts, and classifies each
 * outcome as success, retryable failure or final answer.
 *
 * Durations are integer nanoseconds with Go's 64-bit wrap-around on multiplication written
 * out. The downstream service is a script of attempts: whether the context is cancelled
 * during the wait before it, what the request gives, and the clock reading the breaker sees.
 */
module HttpClient {
  import opened Wrappers
  import opened Strings
  import opened Breaker
  import opened Environment

  const MaxInt64: int := 0x7FFF_FFFF_FFFF_FFFF
  const MinInt64: int := -0x8000_0000_0000_0000
  const Millisecond: int := 1_000_000
  const Second: int := 1_000_000_000

  /** The cap on the wait between attempts (5 s). */
  const MaxBackoff: int := 5 * Second

  /** Two's-complement wrap-around of a 64-bit signed result. */
  function Wrap64(x: int): (r: int)
    ensures MinInt64 <= r <= MaxInt64
    ensures MinInt64 <= x <= MaxInt64 ==> r == x
  {
    (x - MinInt64) % 0x1_0000_0000_0000_0000 + MinInt64
  }

  function Clamp64(x: int): (r: int)
    ensures MinInt64 <= r <= MaxInt64
  {
    if x > MaxInt64 then MaxInt64 else if x < MinInt64 then MinInt64 else x
  }

  // ---------------------------------------------------------------------------------------------
  // Reading the environment
  // ---------------------------------------------------------------------------------------------

  /** The digits after an optional sign. */
  function Unsigned(s: string): string {
    if |s| > 0 && (s[0] == '+' || s[0] == '-') then s[1..] else s
  }

  /** What `strconv.Atoi` accepts: an optional sign and at least one decimal digit. */
  predicate IsDecimal(s: string) {
    |Unsigned(s)| > 0 && forall i :: 0 <= i < |Unsigned(s)| ==> IsDigit(Unsigned(s)[i])
  }

  /**
   * `strconv.Atoi(s)` with its error ignored: 0 for text that is not a decimal, the value
   * clamped to the 64-bit range when it does not fit.
   */
  function Atoi(s: string): (n: int)
    ensures MinInt64 <= n <= MaxInt64
  {
    if !IsDecimal(s) then 0
    else
      var v: int := DigitsValue(Unsigned(s));
      if s[0] == '-' then Clamp64(-v) else Clamp64(v)
  }

  /** The decimal text of a value in range reads back as that value. */
  lemma {:induction false} AtoiOfDecimal(n: nat)
    requires n <= MaxInt64
    ensures Atoi(NatToString(n)) == n
  {
    var s := NatToString(n);
    assert IsDigit(s[0]);
    assert Unsigned(s) == s;
    NatToStringRoundTrip(n);
  }

  /** A minus sign before the digits of a positive value reads as a negative number. */
  lemma {:induction false} AtoiOfNegative(n: nat)
    requires 0 < n
    ensures Atoi("-" + NatToString(n)) < 0
  {
    var s := "-" + NatToString(n);
    assert Unsigned(s) == NatToString(n);
    NatToStringRoundTrip(n);
  }

  /** `intEnv(key, def)`: unset, empty or negative gives the default. */
  function IntEnv(env: Env, key: string, def: int): (n: int)
    ensures def >= 0 ==> n >= 0
  {
    var s := Getenv(env, key);
    if s == "" then def
    else
      var n := Atoi(s);
      if n < 0 then def else n
  }

  /** `durEnv(key, def)`: like `intEnv`, in seconds. */
  function DurEnv(env: Env, key: string, def: int): int {
    var s := Getenv(env, key);
    if s == "" then def
    else
      var n := Atoi(s);
      if n < 0 then def else Wrap64(n * Second)
  }

  datatype ClientConfig = ClientConfig(
    maxRetries: int,
    backoffBase: int,
    circuitThreshold: int,
    circuitWindow: int,
    circuitCooldown: int)

  /** The milliseconds of the first wait: the variable's value, or 100 when that is not positive. */
  function BackoffMs(env: Env): (ms: int)
    ensures 1 <= ms <= MaxInt64
  {
    var ms := IntEnv(env, "PIPELINE_RETRY_BACKOFF_MS", 100);
    if ms <= 0 then 100 else ms
  }

  /** `loadClientConfig()`. */
  function LoadClientConfig(env: Env): (cfg: ClientConfig)
    ensures cfg.maxRetries >= 0 && cfg.circuitThreshold >= 0
  {
    ClientConfig(
      IntEnv(env, "PIPELINE_MAX_RETRIES", 3),
      Wrap64(BackoffMs(env) * Millisecond),
      IntEnv(env, "PIPELINE_CIRCUIT_FAILURE_THRESHOLD", 5),
      DurEnv(env, "PIPELINE_CIRCUIT_WINDOW_SEC", 30 * Second),
      DurEnv(env, "PIPELINE_CIRCUIT_COOLDOWN_SEC", 30 * Second))
  }

  /** With none of the variables set: 3 retries, 100 ms, threshold 5, 30 s window and cool-down. */
  lemma {:induction false} ConfigDefaults(env: Env)
    requires forall k :: k in env ==> env[k] == ""
    ensures LoadClientConfig(env) == ClientConfig(3, 100 * Millisecond, 5, 30 * Second, 30 * Second)
  {
  }

  /** A variable holding the decimal text of `n` sets that count; a negative one leaves the default. */
  lemma {:induction false} IntEnvReads(env: Env, key: string, def: int, n: nat)
    requires n <= MaxInt64
    ensures Getenv(env, key) == NatToString(n) ==> IntEnv(env, key, def) == n
    ensures n > 0 && Getenv(env, key) == "-" + NatToString(n) ==> IntEnv(env, key, def) == def
  {
    AtoiOfDecimal(n);
    if n > 0 {
      AtoiOfNegative(n);
    }
  }

  /** The first wait is the configured number of milliseconds, at least one, while that fits. */
  lemma {:induction false} BackoffBaseIsMs(env: Env)
    requires BackoffMs(env) <= MaxInt64 / Millisecond
    ensures LoadClientConfig(env).backoffBase == BackoffMs(env) * Millisecond >= Millisecond
  {
  }

  // ---------------------------------------------------------------------------------------------
  // Retries
  // ---------------------------------------------------------------------------------------------

  const CircuitOpenMessage: string := "service unavailable (circuit open)"

  /** What one request gives: a transport error or a status code. */
  datatype Outcome = NetworkError(message: string) | Status(code: int)

  /**
   * The environment of one attempt: whether the context is done during the wait before it,
   * the request's outcome, and the breaker's clock reading when it records a failure.
   */
  datatype Attempt = Attempt(cancelled: bool, outcome: Outcome, at: int)

  /** What the call returns: a response (with its status) or an error. */
  datatype CallResult = Response(code: int) | CallError(message: string)

  /** A report to the breaker. */
  datatype BreakerCall = Failed(at: int) | Succeeded

  /** A call's observable course: the result, requests sent, waits begun, breaker reports. */
  datatype RetryTrace = RetryTrace(result: CallResult, sent: nat, waits: seq<int>, calls: seq<BreakerCall>)

  /** A transport error, 429 and 5xx are worth another attempt. */
  predicate Retryable(o: Outcome) {
    o.NetworkError? || o.code == 429 || (500 <= o.code < 600)
  }

  /** `lastErr.Error()` for a retryable outcome. */
  function ErrorText(o: Outcome): string
    requires Retryable(o)
  {
    if o.NetworkError? then o.message else "HTTP " + IntToString(o.code)
  }

  /** `backoff *= 3`, then the 5 s cap. */
  function NextBackoff(b: int): (r: int)
    ensures r <= MaxBackoff
  {
    var t := Wrap64(b * 3);
    if t > MaxBackoff then MaxBackoff else t
  }

  /** The wait before retry `j + 1`. */
  function Backoff(base: int, j: nat): int {
    if j == 0 then base else NextBackoff(Backoff(base, j - 1))
  }

  /** The loop from attempt `i` on, given the current wait and the last error. */
  function RetryFrom(maxRetries: int, atts: seq<Attempt>, i: nat, backoff: int, lastErr: string, ctxErr: string): RetryTrace
    requires i <= maxRetries + 1 <= |atts|
    decreases maxRetries + 1 - i
  {
    if i > maxRetries then RetryTrace(CallError(lastErr), 0, [], [])
    else if i > 0 && atts[i].cancelled then RetryTrace(CallError(ctxErr), 0, [backoff], [])
    else
      var waits := if i > 0 then [backoff] else [];
      var next := if i > 0 then NextBackoff(backoff) else backoff;
      var o := atts[i].outcome;
      if Retryable(o) then
        var rest := RetryFrom(maxRetries, atts, i + 1, next, ErrorText(o), ctxErr);
        RetryTrace(rest.result, rest.sent + 1, waits + rest.waits, [Failed(atts[i].at)] + rest.calls)
      else RetryTrace(Response(o.code), 1, waits, [Succeeded])
  }

  /** The whole call, given the breaker's verdict. */
  function PostSpec(cfg: ClientConfig, allowed: bool, atts: seq<Attempt>, ctxErr: string): RetryTrace
    requires 0 <= cfg.maxRetries < |atts|
  {
    if !allowed then RetryTrace(CallError(CircuitOpenMessage), 0, [], [])
    else RetryFrom(cfg.maxRetries, atts, 0, cfg.backoffBase, "", ctxErr)
  }

  /** From attempt `i`: at most the remaining attempts are sent, with one breaker report each. */
  lemma {:induction false} RetrySent(maxRetries: int, atts: seq<Attempt>, i: nat, backoff: int, lastErr: string, ctxErr: string)
    requires i <= maxRetries + 1 <= |atts|
    decreases maxRetries + 1 - i
    ensures var t := RetryFrom(maxRetries, atts, i, backoff, lastErr, ctxErr);
            i + t.sent <= maxRetries + 1 && |t.calls| == t.sent
  {
    if i <= maxRetries && !(i > 0 && atts[i].cancelled) && Retryable(atts[i].outcome) {
      var o := atts[i].outcome;
      var next := if i > 0 then NextBackoff(backoff) else backoff;
      RetrySent(maxRetries, atts, i + 1, next, ErrorText(o), ctxErr);
    }
  }

  /** Every request of `t` but the last was retryable and was reported as a failure. */
  predicate EarlierFailed(atts: seq<Attempt>, i: nat, t: RetryTrace)
    requires i + t.sent <= |atts| && |t.calls| == t.sent
  {
    forall j :: 0 <= j < t.sent - 1 ==> FailedAt(atts, i, t, j)
  }

  /** Request `j` of `t` was retryable and was reported as a failure at its clock reading. */
  predicate FailedAt(atts: seq<Attempt>, i: nat, t: RetryTrace, j: int)
    requires 0 <= j < t.sent && i + t.sent <= |atts| && |t.calls| == t.sent
  {
    Retryable(atts[i + j].outcome) && t.calls[j] == Failed(atts[i + j].at)
  }

  /** One retried attempt: the trace from `i` is that attempt followed by the trace from `i + 1`. */
  lemma {:induction false} RetryUnfold(maxRetries: int, atts: seq<Attempt>, i: nat, backoff: int, lastErr: string, ctxErr: string)
    requires i <= maxRetries + 1 <= |atts|
    requires i <= maxRetries && !(i > 0 && atts[i].cancelled) && Retryable(atts[i].outcome)
    ensures var rest := RetryFrom(maxRetries, atts, i + 1, if i > 0 then NextBackoff(backoff) else backoff,
                                  ErrorText(atts[i].outcome), ctxErr);
            RetryFrom(maxRetries, atts, i, backoff, lastErr, ctxErr) ==
            RetryTrace(rest.result, rest.sent + 1, (if i > 0 then [backoff] else []) + rest.waits,
                       [Failed(atts[i].at)] + rest.calls)
  {
  }

  lemma {:induction false} EarlierFailedCons(atts: seq<Attempt>, i: nat, t: RetryTrace, rest: RetryTrace)
    requires i + 1 + rest.sent <= |atts| && |rest.calls| == rest.sent
    requires Retryable(atts[i].outcome) && EarlierFailed(atts, i + 1, rest)
    requires t.sent == rest.sent + 1 && t.calls == [Failed(atts[i].at)] + rest.calls
    ensures EarlierFailed(atts, i, t)
  {
    forall j | 0 <= j < t.sent - 1
      ensures FailedAt(atts, i, t, j)
    {
      if j == 0 {
        assert t.calls[0] == Failed(atts[i].at);
      } else {
        var k := j - 1;
        assert FailedAt(atts, i + 1, rest, k);
        assert t.calls[j] == rest.calls[k];
        assert i + j == (i + 1) + k;
      }
    }
  }

  /**
   * From attempt `i`: every request but the last was retryable and was reported as a failure
   * at its clock reading.
   */
  lemma {:induction false} RetryEarlier(maxRetries: int, atts: seq<Attempt>, i: nat, backoff: int, lastErr: string, ctxErr: string)
    requires i <= maxRetries + 1 <= |atts|
    decreases maxRetries + 1 - i
    ensures var t := RetryFrom(maxRetries, atts, i, backoff, lastErr, ctxErr);
            i + t.sent <= |atts| && |t.calls| == t.sent && EarlierFailed(atts, i, t)
  {
    RetrySent(maxRetries, atts, i, backoff, lastErr, ctxErr);
    if i <= maxRetries && !(i > 0 && atts[i].cancelled) && Retryable(atts[i].outcome) {
      var next := if i > 0 then NextBackoff(backoff) else backoff;
      var rest := RetryFrom(maxRetries, atts, i + 1, next, ErrorText(atts[i].outcome), ctxErr);
      RetryEarlier(maxRetries, atts, i + 1, next, ErrorText(atts[i].outcome), ctxErr);
      RetryUnfold(maxRetries, atts, i, backoff, lastErr, ctxErr);
      EarlierFailedCons(atts, i, RetryFrom(maxRetries, atts, i, backoff, lastErr, ctxErr), rest);
    }
  }

  /**
   * The last request of `t` is reported as a success exactly when it was not retryable (and
   * as a failure at its clock reading otherwise), and exactly then `t` ends with its response.
   */
  predicate LastReported(atts: seq<Attempt>, i: nat, t: RetryTrace)
    requires i + t.sent <= |atts| && |t.calls| == t.sent
  {
    (t.sent > 0 ==>
       t.calls[t.sent - 1] == (if Retryable(atts[i + t.sent - 1].outcome) then Failed(atts[i + t.sent - 1].at) else Succeeded)) &&
    (t.result.Response? <==> t.sent > 0 && !Retryable(atts[i + t.sent - 1].outcome)) &&
    (t.result.Response? ==> atts[i + t.sent - 1].outcome == Status(t.result.code))
  }

  lemma {:induction false} LastReportedCons(atts: seq<Attempt>, i: nat, t: RetryTrace, rest: RetryTrace)
    requires i + 1 + rest.sent <= |atts| && |rest.calls| == rest.sent
    requires Retryable(atts[i].outcome) && LastReported(atts, i + 1, rest)
    requires t.result == rest.result && t.sent == rest.sent + 1 && t.calls == [Failed(atts[i].at)] + rest.calls
    ensures LastReported(atts, i, t)
  {
    if rest.sent > 0 {
      assert t.calls[t.sent - 1] == rest.calls[rest.sent - 1];
      assert i + t.sent - 1 == (i + 1) + rest.sent - 1;
    }
  }

  /** From attempt `i`, the last request is reported and answered as `LastReported` says. */
  lemma {:induction false} RetryLast(maxRetries: int, atts: seq<Attempt>, i: nat, backoff: int, lastErr: string, ctxErr: string)
    requires i <= maxRetries + 1 <= |atts|
    decreases maxRetries + 1 - i
    ensures var t := RetryFrom(maxRetries, atts, i, backoff, lastErr, ctxErr);
            i + t.sent <= |atts| && |t.calls| == t.sent && LastReported(atts, i, t)
  {
    RetrySent(maxRetries, atts, i, backoff, lastErr, ctxErr);
    if i <= maxRetries && !(i > 0 && atts[i].cancelled) && Retryable(atts[i].outcome) {
      var next := if i > 0 then NextBackoff(backoff) else backoff;
      var rest := RetryFrom(maxRetries, atts, i + 1, next, ErrorText(atts[i].outcome), ctxErr);
      RetryLast(maxRetries, atts, i + 1, next, ErrorText(atts[i].outcome), ctxErr);
      RetryUnfold(maxRetries, atts, i, backoff, lastErr, ctxErr);
      LastReportedCons(atts, i, RetryFrom(maxRetries, atts, i, backoff, lastErr, ctxErr), rest);
    }
  }

  /**
   * An error result of `t`, run from attempt `i`, is either the context's error, returned
   * from the wait before an attempt that was cancelled, or, once every attempt has been
   * spent, the error of the last one (`lastErr` when none was left).
   */
  predicate ErrorExplained(maxRetries: int, atts: seq<Attempt>, i: nat, lastErr: string, ctxErr: string, t: RetryTrace)
    requires maxRetries < |atts|
  {
    var k := i + t.sent;
    t.result.CallError? ==>
      (0 < k <= maxRetries && atts[k].cancelled && t.result.message == ctxErr) ||
      (k == maxRetries + 1 && t.sent > 0 && maxRetries >= 0 && Retryable(atts[maxRetries].outcome) &&
       t.result.message == ErrorText(atts[maxRetries].outcome)) ||
      (k == maxRetries + 1 && t.sent == 0 && t.result.message == lastErr)
  }

  lemma {:induction false} RetryErrors(maxRetries: int, atts: seq<Attempt>, i: nat, backoff: int, lastErr: string, ctxErr: string)
    requires i <= maxRetries + 1 <= |atts|
    decreases maxRetries + 1 - i
    ensures ErrorExplained(maxRetries, atts, i, lastErr, ctxErr, RetryFrom(maxRetries, atts, i, backoff, lastErr, ctxErr))
  {
    if i <= maxRetries && !(i > 0 && atts[i].cancelled) && Retryable(atts[i].outcome) {
      var o := atts[i].outcome;
      var next := if i > 0 then NextBackoff(backoff) else backoff;
      var rest := RetryFrom(maxRetries, atts, i + 1, next, ErrorText(o), ctxErr);
      RetryErrors(maxRetries, atts, i + 1, next, ErrorText(o), ctxErr);
      var t := RetryFrom(maxRetries, atts, i, backoff, lastErr, ctxErr);
      assert t.result == rest.result && t.sent == rest.sent + 1;
      assert i + t.sent == (i + 1) + rest.sent;
    }
  }

  /** The waits are the successive backoffs from `backoff`. */
  predicate WaitsFollow(waits: seq<int>, backoff: int) {
    forall j :: 0 <= j < |waits| ==> waits[j] == Backoff(backoff, j)
  }

  /**
   * From attempt `i`, the waits begun are the successive backoffs from the current one, and
   * there is at most one per remaining retry.
   */
  lemma {:induction false} RetryWaits(maxRetries: int, atts: seq<Attempt>, i: nat, backoff: int, lastErr: string, ctxErr: string)
    requires i <= maxRetries + 1 <= |atts|
    decreases maxRetries + 1 - i
    ensures var t := RetryFrom(maxRetries, atts, i, backoff, lastErr, ctxErr);
            (i > 0 ==> |t.waits| <= maxRetries + 1 - i) &&
            (i == 0 && maxRetries >= 0 ==> |t.waits| <= maxRetries) &&
            WaitsFollow(t.waits, backoff)
  {
    if i <= maxRetries && !(i > 0 && atts[i].cancelled) && Retryable(atts[i].outcome) {
      var o := atts[i].outcome;
      var next := if i > 0 then NextBackoff(backoff) else backoff;
      RetryWaits(maxRetries, atts, i + 1, next, ErrorText(o), ctxErr);
      var rest := RetryFrom(maxRetries, atts, i + 1, next, ErrorText(o), ctxErr);
      var t := RetryFrom(maxRetries, atts, i, backoff, lastErr, ctxErr);
      if i == 0 {
        assert t.waits == rest.waits;
      } else {
        assert t.waits == [backoff] + rest.waits;
        forall j | 0 <= j < |t.waits|
          ensures t.waits[j] == Backoff(backoff, j)
        {
          if j > 0 {
            assert t.waits[j] == rest.waits[j - 1];
            BackoffShift(backoff, j - 1);
          }
        }
      }
    }
  }

  /** Every wait after the first is at most 5 s. */
  lemma {:induction false} WaitsCapped(waits: seq<int>, backoff: int)
    requires WaitsFollow(waits, backoff)
    ensures forall j :: 1 <= j < |waits| ==> waits[j] <= MaxBackoff
  {
    forall j | 1 <= j < |waits|
      ensures waits[j] <= MaxBackoff
    {
      assert waits[j] == NextBackoff(Backoff(backoff, j - 1));
    }
  }

  /** The backoffs from the next wait on are the backoffs from this one, one step later. */
  lemma {:induction false} BackoffShift(base: int, j: nat)
    ensures Backoff(NextBackoff(base), j) == Backoff(base, j + 1)
  {
    if j > 0 {
      BackoffShift(base, j - 1);
    }
  }

  /** When the circuit is open, no request is sent and the call fails with the circuit error. */
  lemma {:induction false} PostRefused(cfg: ClientConfig, atts: seq<Attempt>, ctxErr: string)
    requires 0 <= cfg.maxRetries < |atts|
    ensures PostSpec(cfg, false, atts, ctxErr) == RetryTrace(CallError(CircuitOpenMessage), 0, [], [])
  {
  }

  /**
   * An allowed call sends between one and `MaxRetries + 1` requests and reports each to the
   * breaker; it returns the first response that is not retryable (a 2xx or any other status
   * such as 400), reporting it as a success; every request before it failed retryably and was
   * reported as a failure; an error result is the context's error or, after the last attempt,
   * that attempt's error. It waits at most `MaxRetries` times, first `BackoffBase`, each later
   * wait three times the previous one with 5 s as the cap.
   */
  lemma {:induction false} PostAllowed(cfg: ClientConfig, atts: seq<Attempt>, ctxErr: string)
    requires 0 <= cfg.maxRetries < |atts|
    ensures var t := PostSpec(cfg, true, atts, ctxErr);
            1 <= t.sent <= cfg.maxRetries + 1 && |t.calls| == t.sent &&
            EarlierFailed(atts, 0, t) && LastReported(atts, 0, t) &&
            ErrorExplained(cfg.maxRetries, atts, 0, "", ctxErr, t) &&
            |t.waits| <= cfg.maxRetries && WaitsFollow(t.waits, cfg.backoffBase)
  {
    RetrySent(cfg.maxRetries, atts, 0, cfg.backoffBase, "", ctxErr);
    RetryEarlier(cfg.maxRetries, atts, 0, cfg.backoffBase, "", ctxErr);
    RetryLast(cfg.maxRetries, atts, 0, cfg.backoffBase, "", ctxErr);
    RetryErrors(cfg.maxRetries, atts, 0, cfg.backoffBase, "", ctxErr);
    RetryWaits(cfg.maxRetries, atts, 0, cfg.backoffBase, "", ctxErr);
  }

  function Pow3(j: nat): (r: nat)
    ensures r >= 1
  {
    if j == 0 then 1 else 3 * Pow3(j - 1)
  }

  lemma {:induction false} TripleProduct(a: int, q: nat)
    requires a > 0 && q >= 1
    ensures a * (3 * q) == 3 * (a * q) && a * q >= a
  {
    assert a * q == a + a * (q - 1);
  }

  /** From a positive first wait of at most 5 s, wait `j` is `base * 3^j` capped at 5 s. */
  lemma {:induction false} BackoffGrowth(base: int, j: nat)
    requires 0 < base <= MaxBackoff
    ensures Backoff(base, j) == Min(base * Pow3(j), MaxBackoff)
  {
    if j > 0 {
      BackoffGrowth(base, j - 1);
      var q := Pow3(j - 1);
      var p := base * q;
      TripleProduct(base, q);
      assert base * Pow3(j) == 3 * p;
      var x := Backoff(base, j - 1);
      assert x == Min(p, MaxBackoff);
      assert 0 < x <= MaxBackoff;
      assert Wrap64(x * 3) == x * 3;
      assert Backoff(base, j) == NextBackoff(x);
    }
  }

  // ---------------------------------------------------------------------------------------------
  // The call against the breaker
  // ---------------------------------------------------------------------------------------------

  /** One report applied to the breaker's table. */
  function Apply(m: Circuits, key: string, c: BreakerCall, threshold: int, window: int): Circuits {
    match c
    case Failed(at) => FailureStep(m, key, at, threshold, window)
    case Succeeded => SuccessStep(m, key)
  }

  /** The reports applied in order. */
  function Replay(m: Circuits, key: string, calls: seq<BreakerCall>, threshold: int, window: int): Circuits
    decreases |calls|
  {
    if calls == [] then m else Apply(Replay(m, key, Init(calls), threshold, window), key, Last(calls), threshold, window)
  }

  /** A call's reports leave every other key's circuit as it was. */
  lemma {:induction false} ReplayOtherKeys(m: Circuits, key: string, calls: seq<BreakerCall>, threshold: int, window: int)
    decreases |calls|
    ensures var r := Replay(m, key, calls, threshold, window);
            forall k :: k != key ==> (k in r <==> k in m) && (k in m ==> r[k] == m[k])
  {
    if calls != [] {
      ReplayOtherKeys(m, key, Init(calls), threshold, window);
    }
  }

  /** `Replay` one report further. */
  lemma {:induction false} ReplayAppend(m: Circuits, key: string, calls: seq<BreakerCall>, c: BreakerCall, threshold: int, window: int)
    ensures Replay(m, key, calls + [c], threshold, window) == Apply(Replay(m, key, calls, threshold, window), key, c, threshold, window)
  {
    assert Init(calls + [c]) == calls;
  }

  /**
   * The loop from attempt `i` on, carrying what is done so far: the requests sent, the waits
   * begun and the reports made. It takes the same steps as `RetryFrom`.
   */
  function RetryAcc(maxRetries: int, atts: seq<Attempt>, i: nat, backoff: int, lastErr: string, ctxErr: string,
                    sent: nat, waits: seq<int>, calls: seq<BreakerCall>): RetryTrace
    requires i <= maxRetries + 1 <= |atts|
    decreases maxRetries + 1 - i
  {
    if i > maxRetries then RetryTrace(CallError(lastErr), sent, waits, calls)
    else if i > 0 && atts[i].cancelled then RetryTrace(CallError(ctxErr), sent, waits + [backoff], calls)
    else
      var waits' := if i > 0 then waits + [backoff] else waits;
      var next := if i > 0 then NextBackoff(backoff) else backoff;
      var o := atts[i].outcome;
      if Retryable(o) then
        RetryAcc(maxRetries, atts, i + 1, next, ErrorText(o), ctxErr, sent + 1, waits', calls + [Failed(atts[i].at)])
      else RetryTrace(Response(o.code), sent + 1, waits', calls + [Succeeded])
  }

  /** What is done so far followed by the rest of the run, as `RetryFrom` gives it. */
  lemma {:induction false} RetryAccSplits(maxRetries: int, atts: seq<Attempt>, i: nat, backoff: int, lastErr: string,
                                          ctxErr: string, sent: nat, waits: seq<int>, calls: seq<BreakerCall>)
    requires i <= maxRetries + 1 <= |atts|
    decreases maxRetries + 1 - i
    ensures var rest := RetryFrom(maxRetries, atts, i, backoff, lastErr, ctxErr);
            RetryAcc(maxRetries, atts, i, backoff, lastErr, ctxErr, sent, waits, calls) ==
            RetryTrace(rest.result, sent + rest.sent, waits + rest.waits, calls + rest.calls)
  {
    if i > maxRetries {
      assert waits + [] == waits && calls + [] == calls;
    } else if i > 0 && atts[i].cancelled {
      assert calls + [] == calls;
    } else if Retryable(atts[i].outcome) {
      var o := atts[i].outcome;
      var w: seq<int> := if i > 0 then [backoff] else [];
      var next := if i > 0 then NextBackoff(backoff) else backoff;
      var rest := RetryFrom(maxRetries, atts, i + 1, next, ErrorText(o), ctxErr);
      RetryAccRetry(maxRetries, atts, i, backoff, lastErr, ctxErr, sent, waits, calls);
      RetryUnfold(maxRetries, atts, i, backoff, lastErr, ctxErr);
      RetryAccSplits(maxRetries, atts, i + 1, next, ErrorText(o), ctxErr, sent + 1, waits + w, calls + [Failed(atts[i].at)]);
      TraceShift(rest, sent, waits, w, calls, Failed(atts[i].at));
    } else {
      assert i == 0 ==> waits + [] == waits;
    }
  }

  /** A retryable attempt is one step of `RetryAcc`. */
  lemma {:induction false} RetryAccRetry(maxRetries: int, atts: seq<Attempt>, i: nat, backoff: int, lastErr: string,
                      ctxErr: string, sent: nat, waits: seq<int>, calls: seq<BreakerCall>)
    requires i <= maxRetries + 1 <= |atts|
    requires i <= maxRetries && !(i > 0 && atts[i].cancelled) && Retryable(atts[i].outcome)
    ensures RetryAcc(maxRetries, atts, i, backoff, lastErr, ctxErr, sent, waits, calls) ==
            RetryAcc(maxRetries, atts, i + 1, if i > 0 then NextBackoff(backoff) else backoff,
                     ErrorText(atts[i].outcome), ctxErr, sent + 1, waits + (if i > 0 then [backoff] else []),
                     calls + [Failed(atts[i].at)])
  {
    if i == 0 {
      assert waits + [] == waits;
    }
  }

  lemma {:induction false} TraceShift(rest: RetryTrace, sent: nat, waits: seq<int>, w: seq<int>, calls: seq<BreakerCall>, c: BreakerCall)
    ensures RetryTrace(rest.result, (sent + 1) + rest.sent, (waits + w) + rest.waits, (calls + [c]) + rest.calls) ==
            RetryTrace(rest.result, sent + (rest.sent + 1), waits + (w + rest.waits), calls + ([c] + rest.calls))
  {
    assert (waits + w) + rest.waits == waits + (w + rest.waits);
    assert (calls + [c]) + rest.calls == calls + ([c] + rest.calls);
  }

  /** `cb.Failure(key)` or `cb.Success(key)`, as the report says. */
  method Report(cb: CircuitBreaker, key: string, c: BreakerCall)
    requires cb.Valid()
    modifies cb
    ensures cb.Valid()
    ensures cb.byKey == Apply(old(cb.byKey), key, c, cb.threshold, cb.window)
  {
    match c
    case Failed(at) => cb.Failure(key, at);
    case Succeeded => cb.Success(key);
  }

  /**
   * `PostWithRetryAndCircuit(ctx, client, url, contentType, body, key)` against the breaker
   * `cb`: the result, the number of requests sent and the waits begun are those of the
   * specification above, and the breaker ends as its verdict followed by the call's reports.
   */
  method PostWithRetryAndCircuit(cb: CircuitBreaker, cfg: ClientConfig, key: string, startAt: int,
                                 atts: seq<Attempt>, ctxErr: string)
    returns (result: CallResult, sent: nat, waits: seq<int>)
    requires cb.Valid() && 0 <= cfg.maxRetries < |atts|
    modifies cb
    ensures cb.Valid()
    ensures var (allowed, m) := AllowStep(old(cb.byKey), key, startAt, cb.cooldown);
            var t := PostSpec(cfg, allowed, atts, ctxErr);
            result == t.result && sent == t.sent && waits == t.waits &&
            cb.byKey == Replay(m, key, t.calls, cb.threshold, cb.window)
  {
    var allowed := cb.Allow(key, startAt);
    if !allowed {
      return CallError(CircuitOpenMessage), 0, [];
    }
    result, sent, waits := RetryLoop(cb, cfg, key, atts, ctxErr);
  }

  /** The retry loop of `PostWithRetryAndCircuit`, once the breaker has let the call through. */
  method RetryLoop(cb: CircuitBreaker, cfg: ClientConfig, key: string, atts: seq<Attempt>, ctxErr: string)
    returns (result: CallResult, sent: nat, waits: seq<int>)
    requires cb.Valid() && 0 <= cfg.maxRetries < |atts|
    modifies cb
    ensures cb.Valid()
    ensures var t := RetryFrom(cfg.maxRetries, atts, 0, cfg.backoffBase, "", ctxErr);
            result == t.result && sent == t.sent && waits == t.waits &&
            cb.byKey == Replay(old(cb.byKey), key, t.calls, cb.threshold, cb.window)
  {
    ghost var m := cb.byKey;
    ghost var total := RetryAcc(cfg.maxRetries, atts, 0, cfg.backoffBase, "", ctxErr, 0, [], []);
    RetryAccSplits(cfg.maxRetries, atts, 0, cfg.backoffBase, "", ctxErr, 0, [], []);
    ghost var t := RetryFrom(cfg.maxRetries, atts, 0, cfg.backoffBase, "", ctxErr);
    assert [] + t.waits == t.waits && [] + t.calls == t.calls;
    ghost var calls: seq<BreakerCall> := [];
    var lastErr := "";
    var backoff := cfg.backoffBase;
    var attempt := 0;
    sent, waits := 0, [];
    while attempt <= cfg.maxRetries
      invariant 0 <= attempt <= cfg.maxRetries + 1
      invariant cb.Valid()
      invariant RetryAcc(cfg.maxRetries, atts, attempt, backoff, lastErr, ctxErr, sent, waits, calls) == total
      invariant cb.byKey == Replay(m, key, calls, cb.threshold, cb.window)
      decreases cfg.maxRetries + 1 - attempt
    {
      ghost var (backoff0, lastErr0, sent0, waits0) := (backoff, lastErr, sent, waits);
      if attempt > 0 {
        waits := waits + [backoff];
        if atts[attempt].cancelled {
          return CallError(ctxErr), sent, waits;
        }
        backoff := NextBackoff(backoff);
      }
      var o := atts[attempt].outcome;
      sent := sent + 1;
      if Retryable(o) {
        RetryAccRetry(cfg.maxRetries, atts, attempt, backoff0, lastErr0, ctxErr, sent0, waits0, calls);
        Report(cb, key, Failed(atts[attempt].at));
        ReplayAppend(m, key, calls, Failed(atts[attempt].at), cb.threshold, cb.window);
        calls := calls + [Failed(atts[attempt].at)];
        lastErr := ErrorText(o);
        attempt := attempt + 1;
        continue;
      }
      Report(cb, key, Succeeded);
      ReplayAppend(m, key, calls, Succeeded, cb.threshold, cb.window);
      calls := calls + [Succeeded];
      return Response(o.code), sent, waits;
    }
    return CallError(lastErr), sent, waits;
  }
}

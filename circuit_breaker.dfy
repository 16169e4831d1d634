/**
 * The gateway's per-key circuit breaker (one circuit per downstream service URL). A circuit is
 * closed, open or half-open; failures close to one another open it, a cool-down lets one trial
 * call through (half-open), a success closes it again. Time is an integer clock reading; Go's
 * zero `time.Time` is `None`.
 */
module Breaker {
  import opened Wrappers

  datatype CircuitState = Closed | Open | HalfOpen

  /** One key's record: `state`, `failures`, `lastFailure`, `lastTry`. */
  datatype Circuit = Circuit(state: CircuitState, failures: int, lastFailure: Option<int>, lastTry: Option<int>)

  type Circuits = map<string, Circuit>

  /** The record `Failure` creates for a key it has not seen: closed, no failures, zero times. */
  const NewCircuit: Circuit := Circuit(Closed, 0, None, None)

  // ---------------------------------------------------------------------------------------------
  // One record
  // ---------------------------------------------------------------------------------------------

  /**
   * `Allow` on a known record at time `now`. An open circuit whose last failure is at least
   * `cooldown` old turns half-open and lets the call through. (Against the zero time the
   * elapsed duration saturates at its maximum, which no cool-down exceeds.)
   */
  function AllowCircuit(c: Circuit, now: int, cooldown: int): (bool, Circuit) {
    match c.state
    case Closed => (true, c)
    case HalfOpen => (true, c)
    case Open =>
      if c.lastFailure.None? || now - c.lastFailure.value >= cooldown then
        (true, c.(state := HalfOpen, lastTry := Some(now)))
      else (false, c)
  }

  /** `Success` on a known record. */
  function SuccessCircuit(c: Circuit): Circuit {
    c.(state := Closed, failures := 0)
  }

  /**
   * `Failure` on a record at time `now`: a half-open circuit re-opens at the threshold count;
   * otherwise a closed circuit whose previous failure lies more than `window` back starts
   * counting afresh, the count goes up, and reaching the threshold opens the circuit.
   */
  function FailureCircuit(c: Circuit, now: int, threshold: int, window: int): Circuit {
    var tried := c.(lastTry := Some(now));
    if tried.state == HalfOpen then
      tried.(state := Open, lastFailure := Some(now), failures := threshold)
    else
      var base := if tried.state == Closed && tried.lastFailure.Some? && now - tried.lastFailure.value > window
                  then 0 else tried.failures;
      var counted := tried.(failures := base + 1, lastFailure := Some(now));
      if counted.failures >= threshold then counted.(state := Open) else counted
  }

  // ---------------------------------------------------------------------------------------------
  // The table of records
  // ---------------------------------------------------------------------------------------------

  /** `cb.Allow(key)`: the verdict and the table afterwards. */
  function AllowStep(m: Circuits, key: string, now: int, cooldown: int): (r: (bool, Circuits))
    ensures r.1.Keys == m.Keys
    ensures forall k :: k in m && k != key ==> r.1[k] == m[k]
  {
    if key !in m then (true, m)
    else
      var (ok, c) := AllowCircuit(m[key], now, cooldown);
      (ok, m[key := c])
  }

  /** `cb.Success(key)`. */
  function SuccessStep(m: Circuits, key: string): (r: Circuits)
    ensures r.Keys == m.Keys
    ensures forall k :: k in m && k != key ==> r[k] == m[k]
  {
    if key in m then m[key := SuccessCircuit(m[key])] else m
  }

  /** `cb.Failure(key)`. */
  function FailureStep(m: Circuits, key: string, now: int, threshold: int, window: int): (r: Circuits)
    ensures r.Keys == m.Keys + {key}
    ensures forall k :: k in m && k != key ==> r[k] == m[k]
  {
    var c := if key in m then m[key] else NewCircuit;
    m[key := FailureCircuit(c, now, threshold, window)]
  }

  /**
   * What every record of a breaker satisfies: a circuit that is not closed has failed at some
   * time and holds at least the threshold count.
   */
  predicate Consistent(c: Circuit, threshold: int) {
    c.state != Closed ==> c.lastFailure.Some? && c.failures >= threshold
  }

  predicate AllConsistent(m: Circuits, threshold: int) {
    forall k :: k in m ==> Consistent(m[k], threshold)
  }

  // ---------------------------------------------------------------------------------------------
  // Properties
  // ---------------------------------------------------------------------------------------------

  /** An unknown key, a closed and a half-open circuit are let through, and nothing changes. */
  lemma {:induction false} AllowPasses(m: Circuits, key: string, now: int, cooldown: int)
    requires key !in m || m[key].state != Open
    ensures AllowStep(m, key, now, cooldown) == (true, m)
  {
    if key in m {
      assert m[key := m[key]] == m;
    }
  }

  /**
   * An open circuit that has failed lets the call through exactly when the cool-down has
   * passed, and then turns half-open with `lastTry = now`; otherwise it refuses and nothing
   * changes.
   */
  lemma {:induction false} AllowOpen(m: Circuits, key: string, now: int, cooldown: int)
    requires key in m && m[key].state == Open && m[key].lastFailure.Some?
    ensures var (ok, m') := AllowStep(m, key, now, cooldown);
            (ok <==> now - m[key].lastFailure.value >= cooldown) &&
            (ok ==> m' == m[key := m[key].(state := HalfOpen, lastTry := Some(now))]) &&
            (!ok ==> m' == m)
  {
  }

  /** `Success` creates no record for an unknown key and closes a known one with no failures. */
  lemma {:induction false} SuccessCloses(m: Circuits, key: string)
    ensures key !in m ==> SuccessStep(m, key) == m
    ensures key in m ==> SuccessStep(m, key)[key].state == Closed && SuccessStep(m, key)[key].failures == 0 &&
                         SuccessStep(m, key)[key].lastFailure == m[key].lastFailure
  {
  }

  /** A failed trial call re-opens a half-open circuit with the threshold count. */
  lemma {:induction false} FailureReopens(m: Circuits, key: string, now: int, threshold: int, window: int)
    requires key in m && m[key].state == HalfOpen
    ensures var c := FailureStep(m, key, now, threshold, window)[key];
            c.state == Open && c.failures == threshold && c.lastFailure == Some(now) && c.lastTry == Some(now)
  {
  }

  /**
   * In a closed circuit a failure counts one more, unless the previous one lies more than
   * `window` back, when the count restarts at one; the circuit opens when the count reaches
   * the threshold. A new key starts as a closed circuit with no failures.
   */
  lemma {:induction false} FailureCounts(m: Circuits, key: string, now: int, threshold: int, window: int)
    requires key !in m || m[key].state == Closed
    ensures var old_ := if key in m then m[key] else NewCircuit;
            var c := FailureStep(m, key, now, threshold, window)[key];
            var stale := old_.lastFailure.Some? && now - old_.lastFailure.value > window;
            c.failures == (if stale then 1 else old_.failures + 1) &&
            c.lastFailure == Some(now) && c.lastTry == Some(now) &&
            (c.state == Open <==> c.failures >= threshold) &&
            (c.state != Open ==> c.state == Closed)
  {
  }

  /** Each operation keeps every record consistent. */
  lemma {:induction false} StepsKeepConsistent(m: Circuits, key: string, now: int, threshold: int, window: int, cooldown: int)
    requires AllConsistent(m, threshold)
    ensures AllConsistent(AllowStep(m, key, now, cooldown).1, threshold)
    ensures AllConsistent(SuccessStep(m, key), threshold)
    ensures AllConsistent(FailureStep(m, key, now, threshold, window), threshold)
  {
    var f := FailureStep(m, key, now, threshold, window);
    assert Consistent(f[key], threshold);
  }

  /** A run of failures at times `times`, one after another, on one record. */
  function Failures(c: Circuit, times: seq<int>, threshold: int, window: int): Circuit
    decreases |times|
  {
    if times == [] then c else Failures(FailureCircuit(c, times[0], threshold, window), times[1..], threshold, window)
  }

  /** Each failure of `times` lies within `window` of the one before it (`last` for the first). */
  predicate Close(last: Option<int>, times: seq<int>, window: int) {
    (|times| > 0 && last.Some? ==> times[0] - last.value <= window) &&
    forall i :: 0 < i < |times| ==> times[i] - times[i - 1] <= window
  }

  /**
   * Failures that follow one another within the window all count: starting from a circuit
   * that is not half-open, the count grows by the number of failures, and the circuit ends
   * open exactly when it started open or the count reached the threshold.
   */
  lemma {:induction false} CloseFailuresOpen(c: Circuit, times: seq<int>, threshold: int, window: int)
    requires c.state != HalfOpen
    requires Close(c.lastFailure, times, window)
    decreases |times|
    ensures var r := Failures(c, times, threshold, window);
            r.failures == c.failures + |times| &&
            (r.state == Open <==> c.state == Open || (|times| > 0 && c.failures + |times| >= threshold)) &&
            (r.state != Open ==> r.state == Closed)
  {
    if times != [] {
      var c' := FailureCircuit(c, times[0], threshold, window);
      assert c'.failures == c.failures + 1;
      assert c'.lastFailure == Some(times[0]);
      assert Close(c'.lastFailure, times[1..], window) by {
        forall i | 0 < i < |times[1..]|
          ensures times[1..][i] - times[1..][i - 1] <= window
        {
          assert times[1..][i] == times[i + 1] && times[1..][i - 1] == times[i];
        }
        if |times| > 1 {
          assert times[1..][0] == times[1];
        }
      }
      CloseFailuresOpen(c', times[1..], threshold, window);
    }
  }

  /** `CircuitBreaker`: the table of records and the three settings it was made with. */
  class CircuitBreaker {
    var byKey: Circuits
    const threshold: int
    const window: int
    const cooldown: int

    ghost predicate Valid()
      reads this
    {
      AllConsistent(byKey, threshold)
    }

    /** `NewCircuitBreaker(threshold, window, cooldown)`: no records yet. */
    constructor (threshold: int, window: int, cooldown: int)
      ensures byKey == map[] && this.threshold == threshold && this.window == window && this.cooldown == cooldown
      ensures Valid()
    {
      byKey := map[];
      this.threshold := threshold;
      this.window := window;
      this.cooldown := cooldown;
    }

    method Allow(key: string, now: int) returns (ok: bool)
      requires Valid()
      modifies this
      ensures Valid()
      ensures (ok, byKey) == AllowStep(old(byKey), key, now, cooldown)
    {
      StepsKeepConsistent(byKey, key, now, threshold, window, cooldown);
      if key !in byKey {
        return true;
      }
      var c := byKey[key];
      assert byKey[key := c] == byKey;
      match c.state
      case Closed => ok := true;
      case HalfOpen => ok := true;
      case Open =>
        if c.lastFailure.None? || now - c.lastFailure.value >= cooldown {
          byKey := byKey[key := c.(state := HalfOpen, lastTry := Some(now))];
          ok := true;
        } else {
          ok := false;
        }
    }

    method Success(key: string)
      requires Valid()
      modifies this
      ensures Valid()
      ensures byKey == SuccessStep(old(byKey), key)
    {
      StepsKeepConsistent(byKey, key, 0, threshold, window, cooldown);
      if key !in byKey {
        return;
      }
      var c := byKey[key];
      byKey := byKey[key := c.(state := Closed, failures := 0)];
    }

    method Failure(key: string, now: int)
      requires Valid()
      modifies this
      ensures Valid()
      ensures byKey == FailureStep(old(byKey), key, now, threshold, window)
    {
      StepsKeepConsistent(byKey, key, now, threshold, window, cooldown);
      var c := if key in byKey then byKey[key] else NewCircuit;
      c := c.(lastTry := Some(now));
      if c.state == HalfOpen {
        byKey := byKey[key := c.(state := Open, lastFailure := Some(now), failures := threshold)];
        return;
      }
      if c.state == Closed && c.lastFailure.Some? && now - c.lastFailure.value > window {
        c := c.(failures := 0);
      }
      c := c.(failures := c.failures + 1, lastFailure := Some(now));
      if c.failures >= threshold {
        c := c.(state := Open);
      }
      byKey := byKey[key := c];
    }
  }
}

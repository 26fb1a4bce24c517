/**
 * The probe package: service statuses, the prober configuration and
 * capability, and the shared duration check used by concrete probes.
 */
module Probe {
  import opened Wrappers
  import Decimal

  /** A service status. The source's Status is a string type. */
  type Status = string

  const StatusUnknown: Status := ""
  const StatusWarning: Status := "WARNING"
  const StatusError: Status := "ERROR"
  const StatusOK: Status := "OK"

  /** The four named statuses are distinct, and "never probed" is the empty string. */
  lemma StatusConstants()
    ensures StatusUnknown == ""
    ensures StatusUnknown != StatusWarning && StatusUnknown != StatusError && StatusUnknown != StatusOK
    ensures StatusWarning != StatusError && StatusWarning != StatusOK
    ensures StatusError != StatusOK
  {
  }

  /** time.Duration: a signed 64-bit count of nanoseconds. */
  type Duration = d: int | -0x8000_0000_0000_0000 <= d < 0x8000_0000_0000_0000

  /** The configuration a prober is initialised with (options and the fatal threshold are not modelled). */
  datatype ProberConfig = ProberConfig(target: string, warning: Duration)

  /** Which concrete prober implementation a registry constructor makes. */
  datatype ProberKind = ProberKind(name: string)

  /** A prober after a successful Init: its implementation and its configuration. */
  datatype Prober = Prober(kind: ProberKind, config: ProberConfig)

  /** What one call of Probe() returns. */
  datatype ProbeResult = ProbeResult(status: Status, message: string)

  const NanosPerMilli: int := 1_000_000

  /** Go's integer division: the quotient rounded toward zero. */
  function TruncDiv(n: int, d: int): int
    requires d > 0
  {
    if n >= 0 then n / d else -((-n) / d)
  }

  /** `q` is the quotient of `n` by `d` rounded toward zero: the remainder is smaller than `d` and has the sign of `n`. */
  predicate IsTruncatedQuotient(q: int, n: int, d: int) {
    var rem := n - q * d;
    -d < rem < d && (n >= 0 ==> rem >= 0) && (n <= 0 ==> rem <= 0)
  }

  lemma TruncDivTruncates(n: int)
    ensures IsTruncatedQuotient(TruncDiv(n, NanosPerMilli), n, NanosPerMilli)
  {
  }

  /** Reads the number of milliseconds back out of a "<n> ms" message. */
  function ParseMillisMessage(msg: string): Option<int>
  {
    if |msg| >= 3 && msg[|msg| - 3..] == " ms" then Decimal.ParseInt(msg[..|msg| - 3]) else None
  }

  /**
   * Compares a measured duration with the warning threshold and reports
   * the whole milliseconds it took.
   */
  function EvaluateDuration(duration: Duration, warning: Duration): (r: ProbeResult)
    ensures r.status == StatusOK || r.status == StatusWarning
  {
    var status := if duration >= warning then StatusWarning else StatusOK;
    ProbeResult(status, Decimal.FormatInt(TruncDiv(duration, NanosPerMilli)) + " ms")
  }

  /** A duration at or above the threshold, equality included, is a warning; one below it is OK. */
  lemma EvaluateDurationStatus(duration: Duration, warning: Duration)
    ensures EvaluateDuration(duration, warning).status == StatusWarning <==> duration >= warning
    ensures EvaluateDuration(duration, warning).status == StatusOK <==> duration < warning
  {
  }

  /** The duration check never reports an error and never leaves the status unknown. */
  lemma EvaluateDurationNeverErrorOrUnknown(duration: Duration, warning: Duration)
    ensures EvaluateDuration(duration, warning).status != StatusError
    ensures EvaluateDuration(duration, warning).status != StatusUnknown
  {
  }

  /** Taking longer never turns a warning back into OK. */
  lemma EvaluateDurationMonotone(d1: Duration, d2: Duration, warning: Duration)
    requires d1 <= d2
    requires EvaluateDuration(d1, warning).status == StatusWarning
    ensures EvaluateDuration(d2, warning).status == StatusWarning
  {
  }

  /** The message is the duration in whole milliseconds, rounded toward zero, then " ms". */
  lemma EvaluateDurationMessage(duration: Duration, warning: Duration)
    ensures ParseMillisMessage(EvaluateDuration(duration, warning).message) == Some(TruncDiv(duration, NanosPerMilli))
    ensures IsTruncatedQuotient(ParseMillisMessage(EvaluateDuration(duration, warning).message).value, duration, NanosPerMilli)
  {
    var q := TruncDiv(duration, NanosPerMilli);
    var msg := EvaluateDuration(duration, warning).message;
    Decimal.FormatIntRoundTrip(q);
    assert msg[..|msg| - 3] == Decimal.FormatInt(q);
    assert msg[|msg| - 3..] == " ms";
  }
}

/**
 * The rule the manager applies after each probe to decide whether to alert,
 * and what that rule yields over a run of successive probes of one service.
 */
module Transition {
  import opened Probe

  /** Alert when the status changed and the new or the previous status is an error. */
  predicate ShouldAlert(prev: Status, next: Status) {
    prev != next && (next == StatusError || prev == StatusError)
  }

  predicate IsError(s: Status) {
    s == StatusError
  }

  /** An alert is raised exactly when the status crosses into or out of error. */
  lemma ShouldAlertCrossesError(prev: Status, next: Status)
    ensures ShouldAlert(prev, next) <==> IsError(prev) != IsError(next)
  {
  }

  /** The status a service has before round `k`, starting from `start`. */
  function Before(start: Status, ss: seq<Status>, k: nat): Status
    requires k <= |ss|
  {
    if k == 0 then start else ss[k - 1]
  }

  /** The rounds (0-based) after which an alert is raised. */
  function AlertRounds(start: Status, ss: seq<Status>): seq<nat>
  {
    if ss == [] then []
    else
      var n := |ss|;
      AlertRounds(start, ss[..n - 1]) + (if ShouldAlert(Before(start, ss, n - 1), ss[n - 1]) then [n - 1] else [])
  }

  /** Every listed round is a round of the run. */
  lemma {:induction false} AlertRoundsBounded(start: Status, ss: seq<Status>, i: nat)
    requires i < |AlertRounds(start, ss)|
    ensures AlertRounds(start, ss)[i] < |ss|
  {
    var n := |ss|;
    var earlier := AlertRounds(start, ss[..n - 1]);
    if i < |earlier| {
      AlertRoundsBounded(start, ss[..n - 1], i);
      assert AlertRounds(start, ss)[i] == earlier[i];
    }
  }

  /** A round is listed iff the rule fires on it. */
  lemma {:induction false} AlertRoundsMembership(start: Status, ss: seq<Status>, k: nat)
    ensures k in AlertRounds(start, ss) <==> k < |ss| && ShouldAlert(Before(start, ss, k), ss[k])
  {
    if ss != [] {
      var n := |ss|;
      AlertRoundsMembership(start, ss[..n - 1], k);
      if k < n - 1 {
        assert Before(start, ss[..n - 1], k) == Before(start, ss, k);
      }
    }
  }

  /** The rounds are listed in increasing order, each once. */
  lemma {:induction false} AlertRoundsIncreasing(start: Status, ss: seq<Status>, i: nat, j: nat)
    requires i < j < |AlertRounds(start, ss)|
    ensures AlertRounds(start, ss)[i] < AlertRounds(start, ss)[j]
  {
    var n := |ss|;
    var earlier := AlertRounds(start, ss[..n - 1]);
    assert AlertRounds(start, ss)[i] == earlier[i];
    AlertRoundsBounded(start, ss[..n - 1], i);
    if j < |earlier| {
      AlertRoundsIncreasing(start, ss[..n - 1], i, j);
      assert AlertRounds(start, ss)[j] == earlier[j];
    }
  }

  /** The number of alerts of a run is that of its first round plus that of the rest. */
  lemma {:induction false} AlertRoundsFirst(start: Status, ss: seq<Status>)
    requires ss != []
    ensures |AlertRounds(start, ss)| == (if ShouldAlert(start, ss[0]) then 1 else 0) + |AlertRounds(ss[0], ss[1..])|
  {
    var n := |ss|;
    if n > 1 {
      var prefix := ss[..n - 1];
      AlertRoundsFirst(start, prefix);
      assert prefix[1..] == ss[1..][..n - 2];
      assert Before(ss[0], ss[1..], n - 2) == Before(start, ss, n - 1);
    } else {
      assert ss[1..] == [];
    }
  }

  /** Every round index one later: the alert rounds of a run seen from a run with one more round in front. */
  function Shift(ks: seq<nat>): seq<nat>
  {
    seq(|ks|, i requires 0 <= i < |ks| => ks[i] + 1)
  }

  lemma ShiftAppend(a: seq<nat>, b: seq<nat>)
    ensures Shift(a + b) == Shift(a) + Shift(b)
  {
  }

  /** The alert rounds of a run: round 0 if the first probe alerts, then those of the rest, one later. */
  lemma {:induction false} AlertRoundsShift(start: Status, ss: seq<Status>)
    requires ss != []
    ensures AlertRounds(start, ss) == (if ShouldAlert(start, ss[0]) then [0] else []) + Shift(AlertRounds(ss[0], ss[1..]))
  {
    var n := |ss|;
    var head: seq<nat> := if ShouldAlert(start, ss[0]) then [0] else [];
    if n == 1 {
      assert ss[..0] == [] && ss[1..] == [];
      assert AlertRounds(start, ss) == AlertRounds(start, ss[..0]) + head;
    } else {
      var prefix := ss[..n - 1];
      var rest := ss[1..];
      AlertRoundsShift(start, prefix);
      assert prefix[0] == ss[0];
      assert prefix[1..] == rest[..n - 2];
      assert Before(ss[0], rest, n - 2) == Before(start, ss, n - 1);
      var fires := ShouldAlert(Before(start, ss, n - 1), ss[n - 1]);
      var earlier := AlertRounds(ss[0], prefix[1..]);
      var last: seq<nat> := if fires then [n - 2] else [];
      assert AlertRounds(start, ss) == AlertRounds(start, prefix) + (if fires then [n - 1] else []);
      assert AlertRounds(ss[0], rest) == earlier + last;
      ShiftAppend(earlier, last);
      assert Shift(last) == (if fires then [n - 1] else []);
      assert AlertRounds(start, prefix) == head + Shift(earlier);
      assert AlertRounds(start, ss) == head + (Shift(earlier) + Shift(last));
    }
  }

  /**
   * After a run of rounds the service is in error iff it started in error
   * with an even number of alerts, or out of error with an odd number.
   */
  lemma {:induction false} AlertParity(start: Status, ss: seq<Status>)
    ensures IsError(Before(start, ss, |ss|)) == (IsError(start) != (|AlertRounds(start, ss)| % 2 == 1))
  {
    if ss != [] {
      var n := |ss|;
      AlertParity(start, ss[..n - 1]);
      assert Before(start, ss[..n - 1], n - 1) == Before(start, ss, n - 1);
    }
  }

  /** Alerts alternate: from a healthy start the 0th, 2nd, ... alerts enter error and the others recover (the reverse from an error start). */
  lemma {:induction false} AlertsAlternate(start: Status, ss: seq<Status>, j: nat)
    requires j < |AlertRounds(start, ss)|
    ensures AlertRounds(start, ss)[j] < |ss|
    ensures IsError(ss[AlertRounds(start, ss)[j]]) == (IsError(start) == (j % 2 == 1))
  {
    var n := |ss|;
    var prefix := ss[..n - 1];
    var earlier := AlertRounds(start, prefix);
    var fires := ShouldAlert(Before(start, ss, n - 1), ss[n - 1]);
    assert AlertRounds(start, ss) == earlier + (if fires then [n - 1] else []);
    if j < |earlier| {
      AlertsAlternate(start, prefix, j);
      assert AlertRounds(start, ss)[j] == earlier[j];
    } else {
      assert fires && AlertRounds(start, ss)[j] == n - 1 && j == |earlier|;
      AlertParity(start, prefix);
      assert Before(start, prefix, n - 1) == Before(start, ss, n - 1);
    }
  }

  /** OK, OK, ERROR, ERROR, OK from a never-probed service alerts after the third and fifth probes only. */
  lemma ExampleErrorAndRecovery()
    ensures AlertRounds(StatusUnknown, [StatusOK, StatusOK, StatusError, StatusError, StatusOK]) == [2, 4]
  {
    var ss := [StatusOK, StatusOK, StatusError, StatusError, StatusOK];
    assert ss[..4] == [StatusOK, StatusOK, StatusError, StatusError];
    assert ss[..4][..3] == [StatusOK, StatusOK, StatusError];
    assert ss[..4][..3][..2] == [StatusOK, StatusOK];
    assert ss[..4][..3][..2][..1] == [StatusOK];
    assert AlertRounds(StatusUnknown, [StatusOK]) == [];
    assert AlertRounds(StatusUnknown, [StatusOK, StatusOK]) == [];
    assert AlertRounds(StatusUnknown, [StatusOK, StatusOK, StatusError]) == [2];
    assert AlertRounds(StatusUnknown, [StatusOK, StatusOK, StatusError, StatusError]) == [2];
  }

  /** UNKNOWN, OK, WARNING, OK never crosses the error boundary, so nothing alerts. */
  lemma ExampleNoErrorCrossing()
    ensures AlertRounds(StatusUnknown, [StatusUnknown, StatusOK, StatusWarning, StatusOK]) == []
  {
    var ss := [StatusUnknown, StatusOK, StatusWarning, StatusOK];
    assert ss[..3] == [StatusUnknown, StatusOK, StatusWarning];
    assert ss[..3][..2] == [StatusUnknown, StatusOK];
    assert ss[..3][..2][..1] == [StatusUnknown];
    assert AlertRounds(StatusUnknown, [StatusUnknown]) == [];
    assert AlertRounds(StatusUnknown, [StatusUnknown, StatusOK]) == [];
    assert AlertRounds(StatusUnknown, [StatusUnknown, StatusOK, StatusWarning]) == [];
  }
}

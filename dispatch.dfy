/**
 * What broadcasting an alert over the manager's alerter slice does, and the
 * calls a run of probes of one service leads to. A nil entry in the slice
 * is None; calling Alert on it is a Go runtime panic, which ends the program.
 */
module Dispatch {
  import opened Wrappers
  import opened Probe
  import opened Alert
  import opened Transition

  /** The Alert calls made, in order, and whether the program panicked. */
  datatype Outcome = Outcome(calls: seq<AlertCall>, panicked: bool)

  /** Calls Alert on each entry front to back with the same event; stops at a nil entry. */
  function Broadcast(alerts: seq<Option<Alerter>>, ev: AlertEvent): Outcome
  {
    if alerts == [] then Outcome([], false)
    else if alerts[0].None? then Outcome([], true)
    else
      var rest := Broadcast(alerts[1..], ev);
      Outcome([AlertCall(alerts[0].value, ev)] + rest.calls, rest.panicked)
  }

  /** The index of the first nil entry, or the length when there is none. */
  function FirstNil(alerts: seq<Option<Alerter>>): (k: nat)
    ensures k <= |alerts|
    ensures forall j :: 0 <= j < k ==> alerts[j].Some?
    ensures k < |alerts| ==> alerts[k].None?
  {
    if alerts == [] || alerts[0].None? then 0 else 1 + FirstNil(alerts[1..])
  }

  predicate NoNil(alerts: seq<Option<Alerter>>) {
    forall k :: 0 <= k < |alerts| ==> alerts[k].Some?
  }

  /** `n` nil entries, as `make([]alert.Alerter, n)` creates. */
  function Placeholders(n: nat): (r: seq<Option<Alerter>>)
    ensures |r| == n && forall k :: 0 <= k < n ==> r[k].None?
  {
    seq(n, _ => None)
  }

  function Wrap(xs: seq<Alerter>): (r: seq<Option<Alerter>>)
    ensures |r| == |xs| && NoNil(r)
    ensures forall k :: 0 <= k < |xs| ==> r[k].value == xs[k]
  {
    seq(|xs|, k requires 0 <= k < |xs| => Some(xs[k]))
  }

  /**
   * Every alerter before the first nil entry is called exactly once, in
   * slice order, with the same event; the program panics iff there is a nil entry.
   */
  lemma {:induction false} BroadcastReachesPrefix(alerts: seq<Option<Alerter>>, ev: AlertEvent)
    ensures Broadcast(alerts, ev).panicked == (FirstNil(alerts) < |alerts|)
    ensures |Broadcast(alerts, ev).calls| == FirstNil(alerts)
    ensures forall k :: 0 <= k < FirstNil(alerts) ==> Broadcast(alerts, ev).calls[k] == AlertCall(alerts[k].value, ev)
  {
    if alerts != [] && alerts[0].Some? {
      BroadcastReachesPrefix(alerts[1..], ev);
    }
  }

  /** With no nil entry, every alerter receives the one event, in slice order, and nothing panics. */
  lemma {:induction false} BroadcastComplete(alerts: seq<Option<Alerter>>, ev: AlertEvent)
    requires NoNil(alerts)
    ensures !Broadcast(alerts, ev).panicked
    ensures |Broadcast(alerts, ev).calls| == |alerts|
    ensures forall k :: 0 <= k < |alerts| ==> Broadcast(alerts, ev).calls[k] == AlertCall(alerts[k].value, ev)
  {
    BroadcastReachesPrefix(alerts, ev);
  }

  /** A slice that starts with a nil placeholder panics before any alerter is called. */
  lemma PlaceholdersSilenceBroadcast(n: nat, built: seq<Alerter>, ev: AlertEvent)
    requires n > 0
    ensures Broadcast(Placeholders(n) + Wrap(built), ev) == Outcome([], true)
  {
  }

  /** A slice holding only the constructed alerters reaches each of them once, in order. */
  lemma ConstructedBroadcastReachesAll(built: seq<Alerter>, ev: AlertEvent)
    ensures Broadcast(Wrap(built), ev) == Outcome(seq(|built|, k requires 0 <= k < |built| => AlertCall(built[k], ev)), false)
  {
    BroadcastComplete(Wrap(built), ev);
  }

  /** One probing round of a service: the probe's result and the timestamp an alert of that round carries. */
  datatype Round = Round(result: ProbeResult, date: string)

  function StatusesOf(rounds: seq<Round>): (ss: seq<Status>)
    ensures |ss| == |rounds| && forall k :: 0 <= k < |rounds| ==> ss[k] == rounds[k].result.status
  {
    seq(|rounds|, k requires 0 <= k < |rounds| => rounds[k].result.status)
  }

  /** The event an alert after `round` carries: the service's new status and message, and the round's date. */
  function EventOf(category: string, name: string, target: string, round: Round): AlertEvent
  {
    AlertEvent(round.result.status, category, name, round.result.message, target, round.date)
  }

  /** The calls one probe of a service leads to: a broadcast of its new state if the rule fires. */
  function RoundLog(alerts: seq<Option<Alerter>>, category: string, name: string, target: string,
                    prev: Status, round: Round): Outcome
  {
    if ShouldAlert(prev, round.result.status)
    then Broadcast(alerts, EventOf(category, name, target, round))
    else Outcome([], false)
  }

  /** The calls a run of probes of one service leads to, from status `prev`, up to the first panic. */
  function ReplayLog(alerts: seq<Option<Alerter>>, category: string, name: string, target: string,
                     prev: Status, rounds: seq<Round>): Outcome
    decreases rounds
  {
    if rounds == [] then Outcome([], false)
    else
      var now := RoundLog(alerts, category, name, target, prev, rounds[0]);
      if now.panicked then now
      else
        var rest := ReplayLog(alerts, category, name, target, rounds[0].result.status, rounds[1..]);
        Outcome(now.calls + rest.calls, rest.panicked)
  }

  /**
   * With no nil alerter, a run never panics and every alerter receives one
   * call for each round the rule fires on.
   */
  lemma {:induction false} ReplayCount(alerts: seq<Option<Alerter>>, category: string, name: string, target: string,
                                       prev: Status, rounds: seq<Round>)
    requires NoNil(alerts)
    ensures !ReplayLog(alerts, category, name, target, prev, rounds).panicked
    ensures |ReplayLog(alerts, category, name, target, prev, rounds).calls|
         == |alerts| * |AlertRounds(prev, StatusesOf(rounds))|
    decreases rounds
  {
    if rounds != [] {
      var ss := StatusesOf(rounds);
      var r := rounds[0].result;
      ReplayCount(alerts, category, name, target, r.status, rounds[1..]);
      assert ss[1..] == StatusesOf(rounds[1..]);
      AlertRoundsFirst(prev, ss);
      var c := |AlertRounds(r.status, ss[1..])|;
      BroadcastComplete(alerts, EventOf(category, name, target, rounds[0]));
      if ShouldAlert(prev, r.status) {
        MulSucc(|alerts|, c);
      }
    }
  }

  /** The calls of broadcasting, one listed round after the other, the event of each listed round. */
  function Deliveries(alerts: seq<Option<Alerter>>, category: string, name: string, target: string,
                      rounds: seq<Round>, ks: seq<nat>): seq<AlertCall>
    decreases ks
  {
    if ks == [] then []
    else
      (if ks[0] < |rounds| then Broadcast(alerts, EventOf(category, name, target, rounds[ks[0]])).calls else [])
      + Deliveries(alerts, category, name, target, rounds, ks[1..])
  }

  /** Listing rounds one later against a run with one more round in front delivers the same calls. */
  lemma {:induction false} DeliveriesShift(alerts: seq<Option<Alerter>>, category: string, name: string, target: string,
                                           rounds: seq<Round>, ks: seq<nat>)
    requires rounds != []
    ensures Deliveries(alerts, category, name, target, rounds, Shift(ks))
         == Deliveries(alerts, category, name, target, rounds[1..], ks)
    decreases ks
  {
    if ks == [] {
      assert Shift(ks) == [];
    } else {
      assert Shift(ks)[0] == ks[0] + 1 && Shift(ks)[1..] == Shift(ks[1..]);
      DeliveriesShift(alerts, category, name, target, rounds, ks[1..]);
      if ks[0] + 1 < |rounds| {
        assert rounds[ks[0] + 1] == rounds[1..][ks[0]];
      }
    }
  }

  /**
   * With no nil alerter, a run of probes makes exactly the calls of
   * broadcasting, for each round the rule fires on and in round order,
   * that round's status, message and date to every alerter.
   */
  lemma {:induction false} ReplayDeliveries(alerts: seq<Option<Alerter>>, category: string, name: string, target: string,
                                            prev: Status, rounds: seq<Round>)
    requires NoNil(alerts)
    ensures ReplayLog(alerts, category, name, target, prev, rounds).calls
         == Deliveries(alerts, category, name, target, rounds, AlertRounds(prev, StatusesOf(rounds)))
    decreases rounds
  {
    if rounds != [] {
      var ss := StatusesOf(rounds);
      var first := rounds[0];
      assert ss[1..] == StatusesOf(rounds[1..]);
      AlertRoundsShift(prev, ss);
      var later := AlertRounds(first.result.status, ss[1..]);
      ReplayDeliveries(alerts, category, name, target, first.result.status, rounds[1..]);
      BroadcastComplete(alerts, EventOf(category, name, target, first));
      DeliveriesShift(alerts, category, name, target, rounds, later);
      if ShouldAlert(prev, first.result.status) {
        var ks := [0] + Shift(later);
        assert ks[0] == 0 && ks[1..] == Shift(later);
      } else {
        assert AlertRounds(prev, ss) == Shift(later);
      }
    }
  }

  /** With a nil placeholder first, no run of probes ever reaches an alerter. */
  lemma {:induction false} AsWrittenReplayDeliversNothing(n: nat, built: seq<Alerter>, category: string, name: string,
                                                          target: string, prev: Status, rounds: seq<Round>)
    requires n > 0
    ensures ReplayLog(Placeholders(n) + Wrap(built), category, name, target, prev, rounds).calls == []
    decreases rounds
  {
    if rounds != [] {
      PlaceholdersSilenceBroadcast(n, built, EventOf(category, name, target, rounds[0]));
      AsWrittenReplayDeliversNothing(n, built, category, name, target, rounds[0].result.status, rounds[1..]);
    }
  }

  lemma MulSucc(a: nat, c: nat)
    ensures a * (c + 1) == a * c + a
  {
  }
}

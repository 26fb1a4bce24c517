/** The alert capability as the manager sees it, and a record of the calls made on it. */
module Alert {
  import opened Probe
  import Configuration

  /** Which concrete alerter implementation a registry constructor makes. */
  datatype AlerterKind = AlerterKind(name: string)

  /** A constructed alerter: its implementation and the declaration it was made from. */
  datatype Alerter = Alerter(kind: AlerterKind, decl: Configuration.AlertDecl)

  /** The arguments of one Alert call. */
  datatype AlertEvent = AlertEvent(status: Status, category: string, name: string, message: string, target: string, date: string)

  datatype AlertCall = AlertCall(alerter: Alerter, event: AlertEvent)

  /** The outside world's view of the alert channels: every Alert call made, in order. */
  class AlertSink {
    var calls: seq<AlertCall>

    constructor ()
      ensures calls == []
    {
      calls := [];
    }
  }
}

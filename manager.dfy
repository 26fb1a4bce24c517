/**
 * The manager: building the monitored services and alert channels from
 * configuration, the per-service probe step with its alert decision, and
 * the broadcast of an alert to every channel.
 */
module Manager {
  import opened Wrappers
  import opened Probe
  import opened Configuration
  import opened Alert
  import opened Categories
  import opened Transition
  import opened Dispatch

  /** Probe type name to the implementation its constructor makes (probe.ProbeConstructors). */
  type ProbeRegistry = map<string, ProberKind>

  /** Alert type name to the implementation its constructor makes (alert.AlertConstructors). */
  type AlertRegistry = map<string, AlerterKind>

  /** config.SetProbeConfigDefaults, not part of this model. */
  type Defaults = ProberConfig -> ProberConfig

  /** Prober.Init of a fresh prober of the given implementation: None for success, else the error text. */
  type Init = (ProberKind, ProberConfig) -> Option<string>

  /** The observable fields of a service. */
  datatype ServiceState = ServiceState(prober: Prober, name: string, target: string, status: Status, message: string)

  /** One monitored service; only its status and message change after construction. */
  class Service {
    const prober: Prober
    const name: string
    const target: string
    var status: Status
    var message: string

    constructor (prober: Prober, name: string, target: string)
      ensures this.prober == prober && this.name == name && this.target == target
      ensures status == StatusUnknown && message == ""
    {
      this.prober := prober;
      this.name := name;
      this.target := target;
      status := StatusUnknown;
      message := "";
    }

    function State(): ServiceState
      reads this
    {
      ServiceState(prober, name, target, status, message)
    }
  }

  /** The error a single probe declaration produces, if any (manager.go's first loop body). */
  function DeclError(d: ProbeDecl, registry: ProbeRegistry, defaults: Defaults, init: Init): Option<string>
  {
    if d.kind !in registry then Some("unknown probe type: " + d.kind)
    else init(registry[d.kind], defaults(d.config))
  }

  /** The error of the first failing probe declaration; later declarations are not looked at. */
  function ProbeError(decls: seq<ProbeDecl>, registry: ProbeRegistry, defaults: Defaults, init: Init): Option<string>
  {
    if decls == [] then None
    else if DeclError(decls[0], registry, defaults, init).Some? then DeclError(decls[0], registry, defaults, init)
    else ProbeError(decls[1..], registry, defaults, init)
  }

  /** The error of the first alert declaration whose type is not registered. */
  function AlertError(decls: seq<AlertDecl>, registry: AlertRegistry): Option<string>
  {
    if decls == [] then None
    else if decls[0].kind !in registry then Some("unknown alert type: " + decls[0].kind)
    else AlertError(decls[1..], registry)
  }

  /** Construction fails with the probe error if there is one, else with the alert error. */
  function ConstructionError(cfg: Config, probes: ProbeRegistry, alerts: AlertRegistry, defaults: Defaults, init: Init): Option<string>
  {
    var e := ProbeError(cfg.probes, probes, defaults, init);
    if e.Some? then e else AlertError(cfg.alerts, alerts)
  }

  predicate AllRegistered(decls: seq<AlertDecl>, registry: AlertRegistry) {
    forall k :: 0 <= k < |decls| ==> decls[k].kind in registry
  }

  /** The alerters the alert declarations construct, in declaration order. */
  function Constructed(decls: seq<AlertDecl>, registry: AlertRegistry): (r: seq<Alerter>)
    requires AllRegistered(decls, registry)
    ensures |r| == |decls|
  {
    seq(|decls|, k requires 0 <= k < |decls| => Alerter(registry[decls[k].kind], decls[k]))
  }

  /** The state a freshly built service has for a declaration whose type is registered. */
  function InitialState(d: ProbeDecl, registry: ProbeRegistry, defaults: Defaults): ServiceState
    requires d.kind in registry
  {
    var config := defaults(d.config);
    ServiceState(Prober(registry[d.kind], config), d.name, config.target, StatusUnknown, "")
  }

  /** A probe declaration list fails iff some declaration fails, and then with the first failure. */
  lemma {:induction false} ProbeErrorFirstFailure(decls: seq<ProbeDecl>, registry: ProbeRegistry, defaults: Defaults, init: Init)
    ensures ProbeError(decls, registry, defaults, init).None?
        <==> forall k :: 0 <= k < |decls| ==> DeclError(decls[k], registry, defaults, init).None?
    ensures ProbeError(decls, registry, defaults, init).Some? ==>
      exists i :: 0 <= i < |decls| && ProbeError(decls, registry, defaults, init) == DeclError(decls[i], registry, defaults, init)
        && forall k :: 0 <= k < i ==> DeclError(decls[k], registry, defaults, init).None?
  {
    if decls != [] && DeclError(decls[0], registry, defaults, init).None? {
      var rest := decls[1..];
      ProbeErrorFirstFailure(rest, registry, defaults, init);
      if ProbeError(rest, registry, defaults, init).Some? {
        var i :| 0 <= i < |rest| && ProbeError(rest, registry, defaults, init) == DeclError(rest[i], registry, defaults, init)
          && forall k :: 0 <= k < i ==> DeclError(rest[k], registry, defaults, init).None?;
        assert decls[i + 1] == rest[i];
        forall k | 0 <= k < i + 1
          ensures DeclError(decls[k], registry, defaults, init).None?
        {
          if k > 0 { assert decls[k] == rest[k - 1]; }
        }
      } else {
        forall k | 0 <= k < |decls|
          ensures DeclError(decls[k], registry, defaults, init).None?
        {
          if k > 0 { assert decls[k] == rest[k - 1]; }
        }
      }
    } else if decls != [] {
      assert DeclError(decls[0], registry, defaults, init).Some?;
    }
  }

  /** An unregistered probe type, reached with every earlier declaration fine, is the construction error. */
  lemma {:induction false} UnknownProbeType(decls: seq<ProbeDecl>, registry: ProbeRegistry, defaults: Defaults, init: Init, i: nat)
    requires i < |decls| && decls[i].kind !in registry
    requires forall k :: 0 <= k < i ==> DeclError(decls[k], registry, defaults, init).None?
    ensures ProbeError(decls, registry, defaults, init) == Some("unknown probe type: " + decls[i].kind)
  {
    if i > 0 {
      assert DeclError(decls[0], registry, defaults, init).None?;
      forall k | 0 <= k < i - 1
        ensures DeclError(decls[1..][k], registry, defaults, init).None?
      {
        assert decls[1..][k] == decls[k + 1];
      }
      UnknownProbeType(decls[1..], registry, defaults, init, i - 1);
    }
  }

  /** Once a prefix of the declarations fails, what follows it is never processed. */
  lemma {:induction false} ProbeErrorIgnoresLater(decls: seq<ProbeDecl>, later: seq<ProbeDecl>, registry: ProbeRegistry, defaults: Defaults, init: Init)
    requires ProbeError(decls, registry, defaults, init).Some?
    ensures ProbeError(decls + later, registry, defaults, init) == ProbeError(decls, registry, defaults, init)
  {
    assert (decls + later)[0] == decls[0];
    if DeclError(decls[0], registry, defaults, init).None? {
      assert (decls + later)[1..] == decls[1..] + later;
      ProbeErrorIgnoresLater(decls[1..], later, registry, defaults, init);
    }
  }

  /** Alert declarations fail iff some type is unregistered, and then with the first such type. */
  lemma {:induction false} AlertErrorFirstUnknown(decls: seq<AlertDecl>, registry: AlertRegistry)
    ensures AlertError(decls, registry).None? <==> AllRegistered(decls, registry)
    ensures AlertError(decls, registry).Some? ==>
      exists i :: 0 <= i < |decls| && decls[i].kind !in registry
        && AlertError(decls, registry) == Some("unknown alert type: " + decls[i].kind)
        && forall k :: 0 <= k < i ==> decls[k].kind in registry
  {
    if decls != [] && decls[0].kind in registry {
      var rest := decls[1..];
      AlertErrorFirstUnknown(rest, registry);
      if AlertError(rest, registry).Some? {
        var i :| 0 <= i < |rest| && rest[i].kind !in registry
          && AlertError(rest, registry) == Some("unknown alert type: " + rest[i].kind)
          && forall k :: 0 <= k < i ==> rest[k].kind in registry;
        assert decls[i + 1] == rest[i];
        forall k | 0 <= k < i + 1
          ensures decls[k].kind in registry
        {
          if k > 0 { assert decls[k] == rest[k - 1]; }
        }
      } else {
        forall k | 0 <= k < |decls|
          ensures decls[k].kind in registry
        {
          if k > 0 { assert decls[k] == rest[k - 1]; }
        }
      }
    }
  }

  /**
   * The alerter slice as the source builds it: one nil placeholder per
   * alert declaration, then the constructed alerters in declaration order.
   */
  lemma AsWrittenAlertSlice(decls: seq<AlertDecl>, registry: AlertRegistry)
    requires AllRegistered(decls, registry)
    ensures var alerts := Placeholders(|decls|) + Wrap(Constructed(decls, registry));
      |alerts| == 2 * |decls|
      && (forall k :: 0 <= k < |decls| ==> alerts[k].None?)
      && (forall k :: 0 <= k < |decls| ==> alerts[|decls| + k] == Some(Alerter(registry[decls[k].kind], decls[k])))
  {
  }

  predicate DistinctServices(order: seq<(string, Service)>) {
    forall i, j :: 0 <= i < j < |order| ==> order[i].1 != order[j].1
  }

  /**
   * Resolves every probe declaration, in order: looks its type up, applies
   * the defaults, initialises the prober and appends a new service to the
   * slice of its category (manager.go's first loop).
   */
  method ResolveProbes(decls: seq<ProbeDecl>, registry: ProbeRegistry, defaults: Defaults, init: Init)
    returns (services: map<string, seq<Service>>, ghost order: seq<(string, Service)>, err: Option<string>)
    ensures err == ProbeError(decls, registry, defaults, init)
    ensures err.None? ==> services == Group(order) && |order| == |decls| && DistinctServices(order)
    ensures err.None? ==> forall k :: 0 <= k < |decls| ==>
      decls[k].kind in registry && order[k].0 == decls[k].category && fresh(order[k].1)
      && order[k].1.State() == InitialState(decls[k], registry, defaults)
  {
    services, order, err := map[], [], None;
    var i := 0;
    while i < |decls|
      invariant 0 <= i <= |decls|
      invariant ProbeError(decls, registry, defaults, init) == ProbeError(decls[i..], registry, defaults, init)
      invariant services == Group(order) && |order| == i && DistinctServices(order)
      invariant forall k :: 0 <= k < i ==>
        decls[k].kind in registry && order[k].0 == decls[k].category && fresh(order[k].1)
        && order[k].1.State() == InitialState(decls[k], registry, defaults)
    {
      var d := decls[i];
      assert decls[i..][0] == d && decls[i..][1..] == decls[i + 1..];
      if d.kind !in registry {
        err := Some("unknown probe type: " + d.kind);
        return;
      }
      var config := defaults(d.config);
      var prober := Prober(registry[d.kind], config);
      var initErr := init(registry[d.kind], config);
      if initErr.Some? {
        err := initErr;
        return;
      }
      var s := new Service(prober, d.name, config.target);
      var entry := (d.category, s);
      assert (order + [entry])[..|order|] == order;
      assert forall k :: 0 <= k < i ==> order[k].1 != s;
      services := services[d.category := Lookup(services, d.category) + [s]];
      order := order + [entry];
      i := i + 1;
    }
    assert decls[i..] == [];
  }

  /**
   * Looks up every alert declaration's type, in order, and appends the
   * constructed alerter to `initial` (manager.go's second loop).
   */
  method AppendAlerters(initial: seq<Option<Alerter>>, decls: seq<AlertDecl>, registry: AlertRegistry)
    returns (alerts: seq<Option<Alerter>>, err: Option<string>)
    ensures err == AlertError(decls, registry)
    ensures err.None? ==> AllRegistered(decls, registry) && alerts == initial + Wrap(Constructed(decls, registry))
  {
    alerts, err := initial, None;
    var i := 0;
    while i < |decls|
      invariant 0 <= i <= |decls|
      invariant AlertError(decls, registry) == AlertError(decls[i..], registry)
      invariant AllRegistered(decls[..i], registry)
      invariant alerts == initial + Wrap(Constructed(decls[..i], registry))
    {
      var d := decls[i];
      assert decls[i..][0] == d && decls[i..][1..] == decls[i + 1..];
      if d.kind !in registry {
        err := Some("unknown alert type: " + d.kind);
        return;
      }
      alerts := alerts + [Some(Alerter(registry[d.kind], d))];
      assert decls[..i + 1] == decls[..i] + [d];
      i := i + 1;
    }
    assert decls[i..] == [] && decls[..i] == decls;
  }

  /** A point in time; the clock is not part of this model. */
  datatype Time = ZeroTime | Instant(nanos: int)

  class Manager {
    var lastUpdate: Time
    var services: map<string, seq<Service>>
    var alerts: seq<Option<Alerter>>
    /** Every service with its category, in declaration order. */
    ghost var order: seq<(string, Service)>

    ghost predicate Valid()
      reads this
    {
      services == Group(order) && DistinctServices(order)
    }

    constructor (services: map<string, seq<Service>>, ghost order: seq<(string, Service)>, alerts: seq<Option<Alerter>>)
      ensures this.services == services && this.order == order && this.alerts == alerts
      ensures lastUpdate == ZeroTime
    {
      this.services := services;
      this.order := order;
      this.alerts := alerts;
      lastUpdate := ZeroTime;
    }

    /** Records the start of a probing round. */
    method RecordRound(now: Time)
      modifies this`lastUpdate
      ensures lastUpdate == now
    {
      lastUpdate := now;
    }

    /**
     * Calls Alert on every entry of the alerter slice, in order, with the
     * service's current state and one timestamp. A nil entry panics.
     */
    method AlertAll(category: string, service: Service, date: string, sink: AlertSink) returns (panicked: bool)
      requires Valid() && (category, service) in order
      modifies sink
      ensures var out := Broadcast(alerts, AlertEvent(service.status, category, service.name, service.message, service.target, date));
        sink.calls == old(sink.calls) + out.calls && panicked == out.panicked
    {
      var ev := AlertEvent(service.status, category, service.name, service.message, service.target, date);
      panicked := false;
      var i := 0;
      while i < |alerts|
        invariant 0 <= i <= |alerts|
        invariant old(sink.calls) + Broadcast(alerts, ev).calls == sink.calls + Broadcast(alerts[i..], ev).calls
        invariant Broadcast(alerts, ev).panicked == Broadcast(alerts[i..], ev).panicked
      {
        assert alerts[i..][0] == alerts[i] && alerts[i..][1..] == alerts[i + 1..];
        match alerts[i]
        case None =>
          panicked := true;
          return;
        case Some(alerter) =>
          sink.calls := sink.calls + [AlertCall(alerter, ev)];
        i := i + 1;
      }
      assert alerts[i..] == [];
    }

    /**
     * One probe of one service: the probe result replaces the service's
     * status and message, and the alert rule decides on a broadcast.
     */
    method ProbeService(category: string, service: Service, round: Round, sink: AlertSink)
      returns (alerted: bool, panicked: bool)
      requires Valid() && (category, service) in order
      modifies service, sink
      ensures service.status == round.result.status && service.message == round.result.message
      ensures alerted == ShouldAlert(old(service.status), round.result.status)
      ensures var out := RoundLog(alerts, category, service.name, service.target, old(service.status), round);
        sink.calls == old(sink.calls) + out.calls && panicked == out.panicked
    {
      var prevStatus := service.status;
      service.status, service.message := round.result.status, round.result.message;
      alerted, panicked := false, false;
      if prevStatus != service.status {
        if service.status == StatusError {
          alerted := true;
          panicked := AlertAll(category, service, round.date, sink);
        } else if prevStatus == StatusError {
          alerted := true;
          panicked := AlertAll(category, service, round.date, sink);
        }
      }
    }

    /**
     * Successive probing rounds of one service, until the rounds run out
     * or an alert panics.
     */
    method ProbeRounds(category: string, service: Service, rounds: seq<Round>, sink: AlertSink)
      returns (panicked: bool)
      requires Valid() && (category, service) in order
      modifies service, sink
      ensures var log := ReplayLog(alerts, category, service.name, service.target, old(service.status), rounds);
        sink.calls == old(sink.calls) + log.calls && panicked == log.panicked
      ensures !panicked && rounds != [] ==> service.status == rounds[|rounds| - 1].result.status
      ensures !panicked && rounds != [] ==> service.message == rounds[|rounds| - 1].result.message
      ensures rounds == [] ==> service.status == old(service.status) && service.message == old(service.message)
    {
      ghost var full := ReplayLog(alerts, category, service.name, service.target, service.status, rounds);
      ghost var current := ProbeResult(service.status, service.message);
      panicked := false;
      ghost var i := 0;
      var pending := rounds;
      while pending != []
        invariant 0 <= i <= |rounds| && pending == rounds[i..]
        invariant service.status == current.status && service.message == current.message
        invariant i == 0 ==> current == ProbeResult(old(service.status), old(service.message))
        invariant i > 0 ==> current == rounds[i - 1].result
        invariant var rest := ReplayLog(alerts, category, service.name, service.target, current.status, pending);
          old(sink.calls) + full.calls == sink.calls + rest.calls && full.panicked == rest.panicked
      {
        var alerted;
        alerted, panicked := ProbeService(category, service, pending[0], sink);
        if panicked {
          return;
        }
        current := pending[0].result;
        pending := pending[1..];
        i := i + 1;
      }
    }
  }

  /**
   * Builds the manager from configuration as the source does: the alerter
   * slice begins with one nil placeholder per alert declaration, followed
   * by the constructed alerters.
   */
  method NewManager(cfg: Config, probeRegistry: ProbeRegistry, alertRegistry: AlertRegistry, defaults: Defaults, init: Init)
    returns (m: Manager?, err: Option<string>)
    ensures err == ConstructionError(cfg, probeRegistry, alertRegistry, defaults, init)
    ensures m == null <==> err.Some?
    ensures m != null ==> fresh(m) && m.Valid() && m.lastUpdate == ZeroTime && |m.order| == |cfg.probes|
    ensures m != null ==> TotalLength(m.services) == |cfg.probes|
    ensures m != null ==> forall k :: 0 <= k < |cfg.probes| ==>
      cfg.probes[k].kind in probeRegistry && m.order[k].0 == cfg.probes[k].category && fresh(m.order[k].1)
      && m.order[k].1.State() == InitialState(cfg.probes[k], probeRegistry, defaults)
    ensures m != null ==> (AllRegistered(cfg.alerts, alertRegistry)
      && m.alerts == Placeholders(|cfg.alerts|) + Wrap(Constructed(cfg.alerts, alertRegistry)))
  {
    var services: map<string, seq<Service>>;
    ghost var order: seq<(string, Service)>;
    var alerts: seq<Option<Alerter>>;
    services, order, err := ResolveProbes(cfg.probes, probeRegistry, defaults, init);
    if err.Some? {
      return null, err;
    }
    alerts, err := AppendAlerters(Placeholders(|cfg.alerts|), cfg.alerts, alertRegistry);
    if err.Some? {
      return null, err;
    }
    GroupTotal(order);
    m := new Manager(services, order, alerts);
  }

  /**
   * Builds the manager with an alerter slice holding only the constructed
   * alerters, in declaration order, so that every broadcast reaches them all.
   */
  method NewManagerCorrected(cfg: Config, probeRegistry: ProbeRegistry, alertRegistry: AlertRegistry, defaults: Defaults, init: Init)
    returns (m: Manager?, err: Option<string>)
    ensures err == ConstructionError(cfg, probeRegistry, alertRegistry, defaults, init)
    ensures m == null <==> err.Some?
    ensures m != null ==> fresh(m) && m.Valid() && m.lastUpdate == ZeroTime && |m.order| == |cfg.probes|
    ensures m != null ==> TotalLength(m.services) == |cfg.probes|
    ensures m != null ==> forall k :: 0 <= k < |cfg.probes| ==>
      cfg.probes[k].kind in probeRegistry && m.order[k].0 == cfg.probes[k].category && fresh(m.order[k].1)
      && m.order[k].1.State() == InitialState(cfg.probes[k], probeRegistry, defaults)
    ensures m != null ==> (AllRegistered(cfg.alerts, alertRegistry)
      && m.alerts == Wrap(Constructed(cfg.alerts, alertRegistry)) && NoNil(m.alerts))
  {
    var services: map<string, seq<Service>>;
    ghost var order: seq<(string, Service)>;
    var alerts: seq<Option<Alerter>>;
    services, order, err := ResolveProbes(cfg.probes, probeRegistry, defaults, init);
    if err.Some? {
      return null, err;
    }
    alerts, err := AppendAlerters([], cfg.alerts, alertRegistry);
    if err.Some? {
      return null, err;
    }
    GroupTotal(order);
    m := new Manager(services, order, alerts);
  }
}

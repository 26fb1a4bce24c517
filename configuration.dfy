/** The declarations the manager is built from (the config package's types). */
module Configuration {
  import opened Probe

  /** One probe declaration: its type name, category, service name and prober configuration. */
  datatype ProbeDecl = ProbeDecl(kind: string, category: string, name: string, config: ProberConfig)

  /** One alert channel declaration: its type name and channel-specific settings. */
  datatype AlertDecl = AlertDecl(kind: string, settings: map<string, string>)

  datatype Config = Config(probes: seq<ProbeDecl>, alerts: seq<AlertDecl>)
}

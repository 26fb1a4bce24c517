# Service-health board: manager core

A Dafny model of the orchestration core of a small service-health monitor.
The monitor builds its monitored services and alert channels from
configuration. Each probe of a service replaces that service's status and
message. When a service crosses into or out of the `ERROR` status, every
registered alert channel is called.

The model covers:

- `probe.dfy` (module `Probe`): the four status constants; the prober
  configuration and capability as values; `EvaluateDuration`, the shared
  check that compares a measured `time.Duration` (a signed 64-bit count of
  nanoseconds) with the warning threshold. Go's integer division rounds
  toward zero, so `TruncDiv` models it; Dafny's own `/` rounds differently
  for negative numbers.
- `decimal.dfy` (module `Decimal`): the `%d` rendering the message uses,
  with a parser that reads it back.
- `configuration.dfy`, `alert.dfy`: the declarations the manager is built
  from; the alerter capability; `AlertSink`, a record of the `Alert` calls
  made, in order, standing for the outside world.
- `categories.dfy` (module `Categories`): the category-to-services map that
  repeated `append` builds (`Group`), and its meaning (`Filter`, `TotalLength`).
- `transition.dfy` (module `Transition`): the alert rule, and the rounds on
  which a run of probes alerts.
- `dispatch.dfy` (module `Dispatch`): what a broadcast over the alerter slice
  does, including the runtime panic on a nil entry; the calls a run of
  probes of one service leads to (`ReplayLog`).
- `manager.dfy` (module `Manager`): the `Service` and `Manager` classes;
  construction (`ResolveProbes`, `AppendAlerters`, `NewManager`); the
  per-service probe step (`ProbeService`); `AlertAll`; and `ProbeRounds`,
  successive rounds of one service.

The registries (`probe.ProbeConstructors`, `alert.AlertConstructors`) are
maps from type name to the implementation a constructor makes. Two
collaborators are parameters given as functions:
`config.SetProbeConfigDefaults` (`Defaults`) and `Prober.Init` (`Init`,
which gives `None` on success or the error text). Whatever `Probe()`
returns, and the timestamps `AlertAll` would read from the clock, are
inputs too (`Round`).

### Where the code departs from its evident intent

Every constructed alerter is evidently meant to receive every qualifying
event. The code does something else, and the model follows the code.
`NewManager` creates the alerter slice with
`make([]alert.Alerter, len(cfg.Alerts))` and then appends to it.
So the slice starts with one nil entry per alert declaration, and
`AlertAll` calls `Alert` on a nil interface first. In Go that is a runtime
panic. `Broadcast` and `AlertAll` therefore return whether the program
panicked. The intended behaviour is modelled beside it
(`NewManagerCorrected`); see "## Findings".

## Model

| member | source | states |
|---|---|---|
| `Probe.StatusConstants` | probe/probe.go:28-33 | the four statuses are pairwise distinct and `StatusUnknown` is the empty string |
| `Probe.EvaluateDuration` | probe/probe.go:40-50 | the duration check reports only `OK` or `WARNING` |
| `Probe.EvaluateDurationStatus` | probe/probe.go:41-45 | `WARNING` iff the duration is at least the threshold, equality included; `OK` iff it is below |
| `Probe.EvaluateDurationNeverErrorOrUnknown` | probe/probe.go:40-50 | the check never yields `ERROR` nor the unknown status |
| `Probe.EvaluateDurationMonotone` | probe/probe.go:41-45 | a longer duration against the same threshold is still a warning |
| `Probe.EvaluateDurationMessage` | probe/probe.go:47 | the message parses back as "<n> ms", with n the duration's whole milliseconds rounded toward zero (remainder below one millisecond, with the duration's sign) |
| `Probe.TruncDiv` | probe/probe.go:47 | definition: Go's `/` on integers, the quotient rounded toward zero, which Dafny's `/` is not for a negative dividend |
| `Probe.TruncDivTruncates` | probe/probe.go:47 | Go-style division by 1,000,000 leaves a remainder smaller than the divisor and with the sign of the dividend |
| `Decimal.FormatNat` | probe/probe.go:47 | definition: the decimal digits of a natural number, most significant first |
| `Decimal.FormatInt` | probe/probe.go:47 | definition: `%d` of an integer, a minus sign followed by the digits of its absolute value when it is negative |
| `Decimal.FormatNatDigits` | probe/probe.go:47 | the digits rendered for a natural number are non-empty, all decimal, denote that number and have no leading zero; zero renders as the single digit "0" |
| `Decimal.FormatIntRoundTrip` | probe/probe.go:47 | parsing the `%d` rendering of any integer gives the integer back |
| `Decimal.FormatIntInjective` | probe/probe.go:47 | different integers render as different messages |
| `Categories.Group` | manager/manager.go:55 | definition: the map obtained by appending each (category, service) entry, in order, to its category's slice, an absent category counting as an empty slice |
| `Categories.GroupIsFilter` | manager/manager.go:55-59 | each category's slice holds exactly the services declared with that category, in declaration order; a category is a key iff some declaration has it |
| `Categories.GroupContains` | manager/manager.go:97-99 | every grouped (category, service) entry is stored in the slice under its own category, so the category `probeAll` passes along is the service's own |
| `Categories.GroupTotal` | manager/manager.go:40-59 | the slices of all categories together hold as many services as there were entries |
| `Transition.ShouldAlert` | manager/manager.go:103-108 | definition: the status changed, and the new or the previous status is `ERROR` |
| `Transition.ShouldAlertCrossesError` | manager/manager.go:103-108 | the nested condition fires iff exactly one of the previous and new status is `ERROR` |
| `Transition.AlertRounds` | manager/manager.go:100-109 | definition: the indices, in order, of the rounds of a run after which the rule fires, each round compared with the status the previous one left |
| `Transition.AlertRoundsShift` | manager/manager.go:100-109 | the alerting rounds of a run are round 0 if the first probe alerts, then the alerting rounds of the rest of the run, each one later |
| `Transition.AlertRoundsMembership` | manager/manager.go:100-109 | a round of a run alerts iff the rule fires on the status before it and the status it yields |
| `Transition.AlertRoundsIncreasing` | manager/manager.go:100-109 | the alerting rounds are listed once each, in increasing order |
| `Transition.AlertParity` | manager/manager.go:103-108 | after a run the service is in error iff its start status and the parity of the number of alerts say so |
| `Transition.AlertsAlternate` | manager/manager.go:103-108 | alerts alternate between entering and leaving error |
| `Transition.ExampleErrorAndRecovery` | manager/manager.go:100-109 | OK, OK, ERROR, ERROR, OK from a never-probed service alerts exactly on the third and fifth probes |
| `Transition.ExampleNoErrorCrossing` | manager/manager.go:100-109 | UNKNOWN, OK, WARNING, OK never alerts |
| `Dispatch.Broadcast` | manager/manager.go:120-122 | definition: one `Alert` call per entry, front to back, all with the same event, stopping with a panic at the first nil entry |
| `Dispatch.Placeholders` | manager/manager.go:62 | definition: the given number of nil entries, as `make([]alert.Alerter, n)` creates |
| `Dispatch.BroadcastReachesPrefix` | manager/manager.go:120-122 | every alerter before the first nil entry is called once, in slice order, with the same arguments; the program panics iff there is a nil entry |
| `Dispatch.BroadcastComplete` | manager/manager.go:120-122 | with no nil entry, every alerter gets exactly one call, in slice order, with an identical event, and nothing panics |
| `Dispatch.PlaceholdersSilenceBroadcast` | manager/manager.go:120-121 | a slice that starts with a nil placeholder panics before any alerter is called |
| `Dispatch.ConstructedBroadcastReachesAll` | manager/manager.go:120-122 | a slice of only the constructed alerters gives each one call, in order, without a panic |
| `Dispatch.EventOf` | manager/manager.go:121 | definition: the arguments of an alert after a round: the service's new status and message, its category, name and target, and the round's date |
| `Dispatch.RoundLog` | manager/manager.go:100-109 | definition: the broadcast of the round's event when the rule fires on the previous and the new status, otherwise no call |
| `Dispatch.ReplayLog` | manager/manager.go:100-109 | definition: the calls of successive rounds, each round compared with the status the previous one left, up to the first panic |
| `Dispatch.ReplayCount` | manager/manager.go:100-109 | with no nil alerter, a run of probes never panics, and the total number of calls is the number of alerters times the number of alerting rounds |
| `Dispatch.ReplayDeliveries` | manager/manager.go:100-109 | with no nil alerter, the calls of a run are exactly, for each alerting round in round order, a broadcast to every alerter of that round's status, message and date (`Deliveries`) |
| `Dispatch.AsWrittenReplayDeliversNothing` | manager/manager.go:62-69 | with the placeholders the source puts first, no run of probes ever reaches an alerter |
| `Manager.Service.constructor` | manager/manager.go:55-59 | a new service has the given prober, name and target, the unknown status and an empty message |
| `Manager.DeclError` | manager/manager.go:41-53 | definition: "unknown probe type: " + type for an unregistered type, otherwise what `Init` returns for the defaulted configuration |
| `Manager.ProbeError` | manager/manager.go:40-53 | definition: the error of the first failing probe declaration, if any |
| `Manager.AlertError` | manager/manager.go:63-67 | definition: "unknown alert type: " + the first unregistered alert type, if any |
| `Manager.ConstructionError` | manager/manager.go:40-70 | definition: the probe error if there is one, otherwise the alert error, since the probes are resolved first |
| `Manager.InitialState` | manager/manager.go:46-59 | definition: a new service's prober with the defaulted configuration, its name, the defaulted target, the unknown status and an empty message |
| `Manager.Constructed` | manager/manager.go:63-69 | definition: one alerter per alert declaration, in declaration order, of the implementation its type is registered with |
| `Manager.ProbeErrorFirstFailure` | manager/manager.go:40-53 | construction of the services fails iff some declaration has an unregistered type or a failing `Init`, and then with the first such failure |
| `Manager.UnknownProbeType` | manager/manager.go:41-44 | the first unregistered probe type yields the error "unknown probe type: " + type |
| `Manager.ProbeErrorIgnoresLater` | manager/manager.go:50-53 | once a declaration fails, the declarations after it change nothing |
| `Manager.AlertErrorFirstUnknown` | manager/manager.go:63-67 | the alerts fail iff some type is unregistered, and then with "unknown alert type: " + the first such type |
| `Manager.AsWrittenAlertSlice` | manager/manager.go:62-69 | the slice has twice as many entries as alert declarations: nil placeholders, then the constructed alerters in declaration order |
| `Manager.ResolveProbes` | manager/manager.go:39-60 | returns the first probe error, or a fresh, distinct service per declaration in the initial state, grouped by category in declaration order |
| `Manager.AppendAlerters` | manager/manager.go:62-70 | returns the first unknown-alert-type error, or the initial slice followed by the constructed alerters in declaration order |
| `Manager.NewManager` | manager/manager.go:32-76 | no manager and the first construction error, or a fresh manager whose services and alerter slice are as above, with placeholders first |
| `Manager.NewManagerCorrected` | manager/manager.go:62-69 | as `NewManager`, but the alerter slice holds only the constructed alerters |
| `Manager.Manager.constructor` | manager/manager.go:34-39 | the manager holds the given services and alerters and a zero last-update time |
| `Manager.Manager.RecordRound` | manager/manager.go:95 | the last-update time becomes the round's start time; nothing else changes |
| `Manager.Manager.AlertAll` | manager/manager.go:117-123 | the calls made are exactly a broadcast of the service's current status, category, name, message, target and one timestamp over the alerter slice; it is called only for a service stored under that category |
| `Manager.Manager.ProbeService` | manager/manager.go:100-109 | status and message become the probe result; it alerts iff the rule fires on the old and new status; the calls made are that round's broadcast; the service is one stored under the category passed |
| `Manager.Manager.ProbeRounds` | manager/manager.go:79-88 | successive rounds of one service make exactly the calls of `ReplayLog` and leave the last round's status and message |

## Left out

- Goroutines and the overlap of rounds (manager.go:97-112): per-service updates are modelled as one sequential step, with no interleaving.
- Iteration over `m.Services` in `probeAll`: Go's map order is unspecified, and each service's result does not depend on it.
- Manager.Manager.ProbeRounds: models `ProbeLoop` for a single service over a finite list of rounds. The timer, `time.Tick` and the infinite loop are not modelled.
- Clock reads: `time.Now()` for `LastUpdate` and the `"15:04:05 MST"` date are inputs (`Time`, `Round.date`); the timestamp format is not modelled.
- Logging (`logrus`) and `NewKubeClient`: they do not affect the modelled behaviour.
- `config.SetProbeConfigDefaults`, `Prober.Init` and `Prober.Probe`: these are foreign code, so they enter as parameters. Nothing says whether `Init` is called for declarations after a failure, because `Init` is a pure parameter here.
- Concrete probers, concrete alerters and the contents of the registries are not part of this model. A Go registry entry that is present but nil behaves like an absent one, and is not modelled separately.
- `ProberConfig.Options`, the `Fatal` threshold and `defaultConnectErrorMsg`: the modelled code does not use them.
- What an `Alert` call does outside the program, and failures inside it: the model only records that the call was made.
- What happens after a panic: the program ends, so the model claims nothing about services' states after that round.

## Findings

| source | as written | input that shows it | evidently intended | confidence | as-written member | corrected member |
|---|---|---|---|---|---|---|
| manager/manager.go:62 | `make([]alert.Alerter, len(cfg.Alerts))` creates one nil entry per alert declaration, and line 69 appends the real alerters after them; `AlertAll` (line 121) then calls `Alert` on the nil entry first | one alert declaration of a registered type, and a service whose probe goes from OK to ERROR: the program panics and no channel is notified | `make([]alert.Alerter, 0, len(cfg.Alerts))`, so the slice holds only the constructed alerters and each gets every alert | high, not executed | `Dispatch.AsWrittenReplayDeliversNothing` (with `Dispatch.PlaceholdersSilenceBroadcast`, `Manager.NewManager`) | `Manager.NewManagerCorrected` (with `Dispatch.ConstructedBroadcastReachesAll`, `Dispatch.ReplayDeliveries`) |

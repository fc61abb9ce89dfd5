# Cheetah monitoring: the alerting and registry core in Dafny

Cheetah monitoring is a Spring Boot service. Agents register their hosts, report CPU, disk
and RAM usage, and declare the ports they expect to be open. The service raises Telegram
alerts when something is wrong and answers a few Telegram commands. This project models the
parts of it that decide what is stored and what is sent:

- **The liveness sweep** (`PortStatusJob.dfy`). A lock record guards the sweep. It visits
  every registered agent, moves the agent's status between UP and DOWN, and raises
  deduplicated AGENT and PORT alerts against a 24-hour cutoff taken when the job starts.
- **The alert history** (`Alerts.dfy`). The two "latest alert" queries, and the suppression
  tests built on them. The sweep fires when the latest alert is strictly older than the
  cutoff. The metric services stay silent when it is strictly newer. The two tests disagree
  when the latest alert sits exactly on the cutoff.
- **Metric alerting**, in its two variants:
  - `ThresholdAlerting.dfy`: limits come from stored thresholds, with defaults.
  - `FixedAlerting.dfy`: hard-coded limits.

  Both variants share one step function and one closed form of a round. The closed form
  says which alerts and notifications a round appends.
- **The threshold store** (`Thresholds.dfy`), **agent registration** (`AgentRegistration.dfy`)
  and **the API-client registry** (`ApiClients.dfy`). These are keyed stores. The insert
  paths keep one record per key, and the model carries that as an invariant.
- **The external alert endpoints** (`ExternalAlerts.dfy`). An API key is issued per
  application name. A custom alert is forwarded only when its key checks out.
- **The Telegram command responder** (`TelegramBot.dfy`). It parses a command line,
  dispatches it, and renders each reply. All of this is a function of read-only snapshots of
  the agents and metrics.

`Domain.dfy` holds the documents as datatypes. `Repositories.dfy` holds the MongoDB
collections as small classes whose sequence fields the services reassign. `Text.dfy` holds
the Java string operations the source relies on: `trim`, `split("\\s+", 2)`, `toLowerCase`,
`isBlank`, decimal rendering and joining.

The environment enters the model as parameters:

- The TCP probe is an oracle `reachable(ip, port)`.
- Every clock reading is an `int` argument.
- The random API key is an argument.
- The human-readable date formatter is an argument.
- `%.2f` is an abstract `fmt: real -> string`.

Every Telegram send is recorded as one `Notification(metricType, text)` in the notifier's
outbox. The source swallows every delivery failure, so the outbox holds send attempts.

Hostnames are not unique among agents, and Spring Data's single-result `findByHostname`
throws when two agents share one. `/ports <host>` therefore has an error outcome
(`QueryError`, and `Failed` for the whole update). The model keeps this outcome and does
not hide it.

## Model

Paths are relative to the repository root.

| member | source | states |
|---|---|---|
| `Text.Lower` | src/main/java/org/cheetah/monitoring/services/TelegramBotService.java:49 | same length, every character folded by the ASCII lower-case mapping |
| `Text.TrimStart` | src/main/java/org/cheetah/monitoring/services/TelegramBotService.java:47 | the result is a suffix of the input, everything dropped is at most U+0020, and the result is empty or starts above U+0020 |
| `Text.TrimEnd` | src/main/java/org/cheetah/monitoring/services/TelegramBotService.java:47 | the result is a prefix of the input, everything dropped is at most U+0020, and the result is empty or ends above U+0020 |
| `Text.Trim` | src/main/java/org/cheetah/monitoring/services/TelegramBotService.java:47 | no longer than the input; empty, or starting and ending with a visible character |
| `Text.TrimInfix` | src/main/java/org/cheetah/monitoring/services/TelegramBotService.java:47 | `trim` keeps one contiguous piece of the input, character by character, and removes only characters at most U+0020 at both ends |
| `Text.Split2` | src/main/java/org/cheetah/monitoring/services/TelegramBotService.java:48 | one or two parts; one part, equal to the input, exactly when the input holds no `\s`; otherwise the first part is the text before the first run of `\s`, the second is everything after that run, and it does not start with `\s` |
| `Text.NatToString` | src/main/java/org/cheetah/monitoring/services/TelegramBotService.java:46 | at least one decimal digit, no leading zero |
| `Text.NatToStringRoundTrip` | src/main/java/org/cheetah/monitoring/services/TelegramBotService.java:46 | reading the rendered digits back gives the number |
| `Text.IntToString` | src/main/java/org/cheetah/monitoring/services/TelegramBotService.java:114-116 | a non-negative number renders as digits; a negative one as `-` followed by digits |
| `Text.SplitJoin` | src/main/java/org/cheetah/monitoring/services/TelegramBotService.java:81-83 | splitting lines joined by `\n` gives the lines back when none of them holds a line break |
| `AlertLookup.LatestAlert` | src/main/java/org/cheetah/monitoring/repository/AlertRepository.java:10-15 | nothing exactly when no alert matches the key; otherwise a matching alert from the collection whose timestamp is the greatest among the matches |
| `AlertLookup.SweepMayFireIff` | src/main/java/org/cheetah/monitoring/job/PortStatusJob.java:84-85 | the sweep's test on the latest alert holds exactly when every alert under the key is strictly older than the cutoff |
| `AlertLookup.ServiceFiresIff` | src/main/java/org/cheetah/monitoring/services/AlertService.java:76-80 | the services fire exactly when no alert under the key is newer than the cutoff |
| `AlertLookup.BoundaryDiscrepancy` | src/main/java/org/cheetah/monitoring/job/PortStatusJob.java:85 | the sweep's test (here) and the services' test (services/AlertService.java:77) disagree exactly when the latest alert's timestamp equals the cutoff; there the services fire and the sweep does not |
| `AlertLookup.LatestAfterAppend` | src/main/java/org/cheetah/monitoring/job/PortStatusJob.java:88-95 | after an alert is saved, the latest alert under its key is at least as recent as it; the latest alert under any other key does not change |
| `Thresholds.IndexOfType` | src/main/java/org/cheetah/monitoring/repositories/ThresholdRepository.java:7 | nothing exactly when no threshold has the type; otherwise the first position holding it |
| `Thresholds.FindUnique` | src/main/java/org/cheetah/monitoring/repositories/ThresholdRepository.java:7 | with one threshold per type, the lookup of a stored threshold's type returns that threshold |
| `Thresholds.AppendNewType` | src/main/java/org/cheetah/monitoring/services/ThresholdService.java:36-42 | storing a threshold for a new type keeps one threshold per type; it becomes the answer for its type and no other type's answer changes |
| `Thresholds.SetValueLookup` | src/main/java/org/cheetah/monitoring/services/ThresholdService.java:47-54 | overwriting one threshold's value leaves every type's position alone and changes only the answer for that threshold's own type |
| `Thresholds.RemoveLookup` | src/main/java/org/cheetah/monitoring/services/ThresholdService.java:59-66 | removing a threshold keeps one per type, leaves its type with no answer, and changes no other type's answer |
| `Thresholds.ThresholdService.GetAllThresholds` | src/main/java/org/cheetah/monitoring/services/ThresholdService.java:21-23 | the stored thresholds, in collection order |
| `Thresholds.ThresholdService.GetThresholdByMetricType` | src/main/java/org/cheetah/monitoring/services/ThresholdService.java:28-30 | nothing exactly when no threshold has the type; otherwise a stored threshold of that type |
| `Thresholds.ThresholdService.CreateThreshold` | src/main/java/org/cheetah/monitoring/services/ThresholdService.java:36-42 | a taken type gives nothing and leaves the store as it was; otherwise the threshold is appended, returned and found for its type; other types are unaffected; one threshold per type holds afterwards |
| `Thresholds.ThresholdService.UpdateThreshold` | src/main/java/org/cheetah/monitoring/services/ThresholdService.java:47-54 | an absent type gives nothing and leaves the store as it was; otherwise only the stored threshold's value changes (same id, type and position), it is returned and the lookup yields it; other types are unaffected |
| `Thresholds.ThresholdService.DeleteThreshold` | src/main/java/org/cheetah/monitoring/services/ThresholdService.java:59-66 | true exactly when the type was present; false leaves the store as it was; true removes that one threshold; afterwards the type has no threshold and other types are unaffected |
| `ThresholdAlerting.MetricAlertStep` | src/main/java/org/cheetah/monitoring/services/AlertService.java:71-101 | with a quiet 24-hour history under (ip, type): one alert with no port, stamped now, and one notification appended; otherwise nothing changes |
| `ThresholdAlerting.FiringTypes` | src/main/java/org/cheetah/monitoring/services/AlertService.java:43-62 | exactly the checked types whose history is quiet; no longer than the checked types; no repeats when the checked types have none |
| `ThresholdAlerting.FiringTypesInOrder` | src/main/java/org/cheetah/monitoring/services/AlertService.java:43-62 | the types that fire are a subsequence of the checked types: their order is the order in which the checks run |
| `ThresholdAlerting.QuietIgnoresOthers` | src/main/java/org/cheetah/monitoring/services/AlertService.java:76 | alerts of other metric types do not change whether a type is suppressed |
| `ThresholdAlerting.MetricAlertsClosedForm` | src/main/java/org/cheetah/monitoring/services/AlertService.java:43-62 | a round over distinct types appends one alert and one notification per type whose history was quiet before the round, in check order, and nothing else |
| `ThresholdAlerting.MetricAlertSpacing` | src/main/java/org/cheetah/monitoring/services/AlertService.java:73-80 | every alert a round records is at least 24 hours later than every earlier alert under the same (ip, type) |
| `ThresholdAlerting.LimitForConfigured` | src/main/java/org/cheetah/monitoring/services/AlertService.java:45-58 | the limit is the stored threshold's value when one exists for the type, the default otherwise |
| `ThresholdAlerting.BreachedTypes` | src/main/java/org/cheetah/monitoring/services/AlertService.java:45-61 | exactly CPU, Disk and RAM whose usage is at or above their limit (inclusive), in that order, at most three |
| `ThresholdAlerting.BreachedClosedForm` | src/main/java/org/cheetah/monitoring/services/AlertService.java:43-62 | a call's effects: one alert and one notification per breached type whose history is quiet, CPU then Disk then RAM |
| `ThresholdAlerting.InclusiveLimit` | src/main/java/org/cheetah/monitoring/services/AlertService.java:47 | with no stored thresholds, 95.0 CPU breaches and 94.99 does not |
| `ThresholdAlerting.AlertService.CheckAndSendAlerts` | src/main/java/org/cheetah/monitoring/services/AlertService.java:43-62 | the alert store gains exactly the dated alerts of the breached, quiet types in order, and the outbox their messages; thresholds are not modified |
| `ThresholdAlerting.AlertService.CheckAndSendAlertForMetric` | src/main/java/org/cheetah/monitoring/services/AlertService.java:71-101 | the alert store and outbox after one step: nothing when suppressed, else the message and then the record |
| `ThresholdAlerting.AlertService.SendCustomTelegramAlert` | src/main/java/org/cheetah/monitoring/services/AlertService.java:129-139 | exactly one notification of the given type and text is appended |
| `FixedAlerting.FixedLimitsAreDefaults` | src/main/java/org/cheetah/monitoring/service/AlertService.java:36-46 | the fixed limits 95 / 85 / 80 breach exactly the types the configurable service breaches with no stored thresholds |
| `FixedAlerting.AlertService.CheckAndSendAlerts` | src/main/java/org/cheetah/monitoring/service/AlertService.java:36-46 | the alert store gains exactly the undated alerts of the types at or over the fixed limits whose history is quiet, in order, and the outbox their messages |
| `FixedAlerting.AlertService.CheckAndSendAlertForMetric` | src/main/java/org/cheetah/monitoring/service/AlertService.java:48-66 | nothing when the latest alert under (ip, type) is newer than the cutoff; otherwise the message, then a record with no date and no port |
| `FixedAlerting.AlertService.SendTelegramAlert` | src/main/java/org/cheetah/monitoring/service/AlertService.java:73-87 | exactly one notification with the usage message for the type is appended |
| `PortStatusJob.Transition` | src/main/java/org/cheetah/monitoring/job/PortStatusJob.java:79-82 | the new status equals the target ignoring case; it is kept exactly when it already matched ignoring case, and is the target otherwise |
| `PortStatusJob.LowerCaseStatusKept` | src/main/java/org/cheetah/monitoring/job/PortStatusJob.java:79-82 | a status "down" stays "down" for an unreachable agent; a missing status becomes "DOWN" |
| `PortStatusJob.Swept` | src/main/java/org/cheetah/monitoring/job/PortStatusJob.java:77-102 | a visit changes only the status; the status then matches UP or DOWN by the probe, and the record is unchanged exactly when it already matched |
| `PortStatusJob.SweptPrefix` | src/main/java/org/cheetah/monitoring/job/PortStatusJob.java:70-128 | the agent collection after some visits: same length, only statuses differ, unvisited agents untouched |
| `PortStatusJob.SweepAlertStep` | src/main/java/org/cheetah/monitoring/job/PortStatusJob.java:84-95 | the alert and its notification are appended exactly when every alert under its key is strictly older than the cutoff; otherwise nothing changes |
| `PortStatusJob.AgentAlertEffects` | src/main/java/org/cheetah/monitoring/job/PortStatusJob.java:77-96 | an AGENT alert (no port, dated) and the "down on port" message are appended exactly when the agent port is unreachable and no AGENT alert for the ip is at or after the cutoff |
| `PortStatusJob.NoDeclaredPortsNoProbes` | src/main/java/org/cheetah/monitoring/job/PortStatusJob.java:106-109 | an agent with a null or empty port list has only its agent port checked |
| `PortStatusJob.PortsAccounted` | src/main/java/org/cheetah/monitoring/job/PortStatusJob.java:110-127 | the port loop only appends; each new PORT alert keys a closed port, had nothing at or after the cutoff before the run, is paired with a notification, and shares no key with another new alert; every closed port ends up covered |
| `PortStatusJob.SweepAccounted` | src/main/java/org/cheetah/monitoring/job/PortStatusJob.java:71-128 | the same accounting for a whole sweep over the issues found down |
| `PortStatusJob.SweepSummary` | src/main/java/org/cheetah/monitoring/job/PortStatusJob.java:67-128 | a sweep only appends; one notification of the same type per new alert; each new alert keys an issue found down and is stamped by the run; at most one new AGENT alert per ip and one new PORT alert per (ip, port); an issue gets an alert exactly when nothing under its key was at or after the cutoff |
| `PortStatusJob.StampAfterCutoff` | src/main/java/org/cheetah/monitoring/job/PortStatusJob.java:67 | alerts stamped no earlier than the job start are at or after the cutoff |
| `PortStatusJob.PortStatusJob.CheckPortsStatus` | src/main/java/org/cheetah/monitoring/job/PortStatusJob.java:49-134 | a held lock: skipped with agents, alerts, locks and outbox unchanged; otherwise the lock (id and lock id the instance UUID, job name "PortStatusJob", timestamp `start`) is written before the agents are read and held through the visits, the lock is gone on every exit (even after a fault), the agents are swept up to the fault and the alerts and outbox are the sweep's effects up to it |
| `PortStatusJob.PortStatusJob.VisitAgents` | src/main/java/org/cheetah/monitoring/job/PortStatusJob.java:70-128 | runs only while the job's lock is in the store and leaves it there; the visits in collection order, stopping at a faulting visit; agents and effects are those of the visited prefix |
| `PortStatusJob.PortStatusJob.CheckAgentPort` | src/main/java/org/cheetah/monitoring/job/PortStatusJob.java:77-102 | the status write at the agent's position, and the AGENT alert effects of the probe |
| `PortStatusJob.PortStatusJob.CheckDeclaredPorts` | src/main/java/org/cheetah/monitoring/job/PortStatusJob.java:106-127 | the PORT alert effects of the declared ports in order; nothing for a null or empty list |
| `PortStatusJob.PortStatusJob.CheckPort` | src/main/java/org/cheetah/monitoring/job/PortStatusJob.java:110-125 | an open port changes nothing; a closed one adds a PORT alert stamped now and one PORT notification exactly when no PORT alert for the ip and port is at or after the cutoff |
| `TelegramBot.ParseCommandShape` | src/main/java/org/cheetah/monitoring/services/TelegramBotService.java:47-50 | the parsed command holds no white space; the argument is empty or starts with a non-space and ends with a visible character |
| `TelegramBot.TrimPadded` | src/main/java/org/cheetah/monitoring/services/TelegramBotService.java:47 | trimming removes exactly the padding around a piece that starts and ends visibly |
| `TelegramBot.Split2Render` | src/main/java/org/cheetah/monitoring/services/TelegramBotService.java:48 | a command, a run of white space and an argument split back into the command and the argument |
| `TelegramBot.ParseRender` | src/main/java/org/cheetah/monitoring/services/TelegramBotService.java:47-50 | parsing inverts typing: any padded command token with an optional argument parses to the lower-cased token and the argument exactly as typed |
| `TelegramBot.ParseBare` | src/main/java/org/cheetah/monitoring/services/TelegramBotService.java:50 | a lone command token parses with an empty argument |
| `TelegramBot.LatestMetrics` | src/main/java/org/cheetah/monitoring/repositories/MetricsRepository.java:14 | nothing exactly when the host has no samples; otherwise one of its samples with the greatest timestamp |
| `TelegramBot.HostMatches` | src/main/java/org/cheetah/monitoring/repositories/AgentInfoRepository.java:19 | exactly the agents with that hostname: empty exactly when there are none, every member is a stored agent with it, every stored agent with it is a member |
| `TelegramBot.HostMatchesSingle` | src/main/java/org/cheetah/monitoring/services/TelegramBotService.java:127 | a hostname held by one agent matches only that agent |
| `TelegramBot.HostMatchesTwo` | src/main/java/org/cheetah/monitoring/services/TelegramBotService.java:127 | a hostname held by two agents matches at least two, so the single-result query throws |
| `TelegramBot.PortsTextExamples` | src/main/java/org/cheetah/monitoring/services/TelegramBotService.java:129 | a port list renders as `[80, 443]`, an empty one as `[]`, a missing one as `null` |
| `TelegramBot.HandlePorts` | src/main/java/org/cheetah/monitoring/services/TelegramBotService.java:123-130 | a blank argument gives the usage hint; the query error exactly when the argument is not blank and the hostname is shared; an unknown host gives "No agent registered with hostname: "; a host held by one agent gives "Open ports for" with that agent's ports |
| `TelegramBot.Respond` | src/main/java/org/cheetah/monitoring/services/TelegramBotService.java:53-68 | any command other than the four gets the unknown-command hint; an error only comes from an ambiguous /ports |
| `TelegramBot.HandleUpdate` | src/main/java/org/cheetah/monitoring/services/TelegramBotService.java:44-71 | ignored exactly when there is no message, no text or an empty text; a reply goes to the message's chat id; a failure only from an ambiguous /ports |
| `TelegramBot.CommandLineReply` | src/main/java/org/cheetah/monitoring/services/TelegramBotService.java:44-71 | a typed line is answered in its chat with the handler's reply for the lower-cased command and the argument as typed; unknown commands get the hint |
| `TelegramBot.BareCommandUsage` | src/main/java/org/cheetah/monitoring/services/TelegramBotService.java:92-94 | /status and /ports with no argument, in any letter case, get their usage hints |
| `TelegramBot.BlankUsage` | src/main/java/org/cheetah/monitoring/services/TelegramBotService.java:124-126 | /status and /ports with any blank argument (empty or white space only, in the sense of `isBlank`) answer with their usage hints |
| `TelegramBot.TypedBlankArgumentUsage` | src/main/java/org/cheetah/monitoring/services/TelegramBotService.java:47-50 | a typed /status or /ports line (any letter case) whose argument survives `trim` and the split but is blank is answered with the usage hint |
| `TelegramBot.IdeographicSpaceArgument` | src/main/java/org/cheetah/monitoring/services/TelegramBotService.java:48 | U+3000 is above U+0020 and not `\s`, so it survives `trim` and the split, yet `isBlank` holds for it |
| `TelegramBot.ListReplyLines` | src/main/java/org/cheetah/monitoring/services/TelegramBotService.java:76-85 | the /list reply read line by line is the header, then every hostname in collection order |
| `TelegramBot.StatusAllLines` | src/main/java/org/cheetah/monitoring/services/TelegramBotService.java:95-110 | the `/status *` reply has one line per agent in collection order, "no metrics available" for an agent without samples |
| `TelegramBot.StatusReportLines` | src/main/java/org/cheetah/monitoring/services/TelegramBotService.java:114-116 | the one-host report reads back as its five lines: host, CPU, Disk, RAM, timestamp |
| `TelegramBot.AbsenceReplies` | src/main/java/org/cheetah/monitoring/services/TelegramBotService.java:95-113 | /list and `/status *` with no agents answer "No agents registered."; `/status <host>` for a host without samples answers "No metrics found for host: " and the host |
| `TelegramBot.StatusHostReply` | src/main/java/org/cheetah/monitoring/services/TelegramBotService.java:112-116 | for a host with samples, the reply is the report of its newest sample |
| `AgentRegistration.IndexOfIdentity` | src/main/java/org/cheetah/monitoring/repositories/AgentInfoRepository.java:14 | nothing exactly when no agent has the (ip, hostname); otherwise the first position holding it |
| `AgentRegistration.IndexOfUnique` | src/main/java/org/cheetah/monitoring/repositories/AgentInfoRepository.java:14 | with one record per pair, a record is the lookup's answer for its own pair |
| `AgentRegistration.Refreshed` | src/main/java/org/cheetah/monitoring/services/AgentRegistrationService.java:25-27 | id, ip, hostname and status are kept; ports, timestamp and agent port come from the registration |
| `AgentRegistration.RegisterKnown` | src/main/java/org/cheetah/monitoring/services/AgentRegistrationService.java:22-28 | a known pair: same count, the record keeps its id, pair and status and takes the new ports, timestamp and agent port; all other records untouched |
| `AgentRegistration.RegisterUnknown` | src/main/java/org/cheetah/monitoring/services/AgentRegistrationService.java:29-31 | an unknown pair: the record is appended exactly as sent |
| `AgentRegistration.RegisterKeepsUnique` | src/main/java/org/cheetah/monitoring/services/AgentRegistrationService.java:21-33 | one record per pair is kept, and afterwards exactly one record carries the registered pair |
| `AgentRegistration.RegisterTwice` | src/main/java/org/cheetah/monitoring/services/AgentRegistrationService.java:21-33 | registering a pair twice leaves one record for it, with the second call's ports, timestamp and agent port, and no extra record |
| `AgentRegistration.RegisterIdempotent` | src/main/java/org/cheetah/monitoring/services/AgentRegistrationService.java:21-33 | repeating a registration changes nothing |
| `AgentRegistration.AgentRegistrationService.RegisterAgent` | src/main/java/org/cheetah/monitoring/services/AgentRegistrationService.java:21-33 | the collection becomes the upsert of the registration, one record per pair is kept, and the saved record is stored with the pair and the new ports, timestamp and agent port |
| `ApiClients.IndexOfApp` | src/main/java/org/cheetah/monitoring/repositories/ApiClientRepository.java:12 | nothing exactly when no client has the name; otherwise the first position holding it |
| `ApiClients.ValidKeyIff` | src/main/java/org/cheetah/monitoring/services/ApiClientService.java:52-55 | with one client per name, a key is valid for a name exactly when a stored client pairs them |
| `ApiClients.AddClient` | src/main/java/org/cheetah/monitoring/services/ApiClientService.java:40-46 | storing a client under a new name keeps one client per name, makes exactly its key valid for it, and changes no other name's lookup |
| `ApiClients.ApiClientService.CreateClient` | src/main/java/org/cheetah/monitoring/services/ApiClientService.java:33-47 | a taken name gives nothing and leaves the store as it was; otherwise one client with the name, the fresh key and `now` is appended and returned, and only that key validates; other names unaffected |
| `ApiClients.ApiClientService.ValidateKey` | src/main/java/org/cheetah/monitoring/services/ApiClientService.java:52-55 | true only when a stored client pairs the name and key; with one client per name, true whenever one does |
| `ExternalAlerts.CustomAlertMessageLines` | src/main/java/org/cheetah/monitoring/controllers/ExternalAlertController.java:55-57 | the forwarded text reads as "[app] ", "Application: ...", "Date: ...", "Log:", then the log's lines, or "(no log provided)" when there is no log |
| `ExternalAlerts.NoLogSingleLine` | src/main/java/org/cheetah/monitoring/controllers/ExternalAlertController.java:57 | the no-log notice is a single line |
| `ExternalAlerts.ExternalAlertController.CreateApiKey` | src/main/java/org/cheetah/monitoring/controllers/ExternalAlertController.java:38-44 | 400 "appName already exists" with the registry unchanged for a taken name; otherwise 200 with the new client, which is stored and whose key validates |
| `ExternalAlerts.ExternalAlertController.SendCustomAlert` | src/main/java/org/cheetah/monitoring/controllers/ExternalAlertController.java:50-61 | an invalid key gives 401 and sends nothing; a valid one sends exactly one EXTERNAL notification with the templated text and answers 200 "Alert sent"; no alert record is written |

## Left out

- The TCP probe (`isPortOpen`, with its 200 ms timeout) is the oracle `reachable(ip, port)`. A probe is assumed to give the same answer for the same ip and port within one run.
- Telegram delivery is not modelled. This covers the `restTemplate` calls of both alert services, `TelegramBotService.sendMessage` and the bot configuration. The outbox records send attempts. A failed send changes nothing the model tracks, because the source swallows it in both alert services.
- `TelegramBotService.sendMessage` is not guarded, so a network failure after a reply is composed is not modelled. `HandleUpdate` ends at the reply it would send.
- Clock readings are parameters.
  - Each metric service call uses one reading, `now`, for the cutoff and for the timestamp and date of every alert it records. The source reads the clock again for each breached metric: services/AlertService.java reads it for the cutoff, for `new Date()` and for the timestamp, and service/AlertService.java for the cutoff and for the timestamp.
  - The sweep uses `start` for the lock timestamp and the cutoff. The source reads these at two instants a few statements apart.
  - The sweep uses one `stamp` for all of its alerts, where the source reads the clock at each alert.
- `UUID.randomUUID`, `HUMAN_FORMATTER` and `%.2f` are parameters (`freshKey`, `formatHuman`, `fmt`). The bytes they produce are not modelled.
- The lock's random per-class-load key, the non-atomic find-then-save of the lock, the dedup lookup-then-insert race and `@Scheduled` are not modelled. The model claims only "skip if present", "held during the visits" and "released on every exit".
- A fault in the sweep is placed at the start of an agent's visit, before any of its writes. A fault partway through one agent's writes is not modelled.
- TTL expiry of alerts (24 hours) and metrics (30 days) is enforced by storage, not by the code, and is not modelled. Old records stay in the sequences.
- `ThresholdAlerting.LimitFor` and `ThresholdAlerting.AlertService.CheckAndSendAlerts` take the first stored threshold of a type when several are stored, where `findByMetricType` would throw. The insert paths never store two.
- Usages are `real`: NaN and the infinities, for which Java's `>=` is false, are not modelled.
- `Thresholds.ThresholdService.GetThresholdByMetricType`, `CreateThreshold`, `UpdateThreshold` and `DeleteThreshold` require one threshold per type. `AgentRegistration.AgentRegistrationService.RegisterAgent` requires one agent per (ip, hostname). `ApiClients.ApiClientService.CreateClient` requires one client per name. The insert paths maintain these invariants. With duplicates, Spring Data's single-result queries throw, and the model does not cover that.
- Saving is positional: an updated record replaces the one it was read from. Id generation, and a client-supplied id that collides with another record, are not modelled. The `id` of `ApiClient` is not modelled.
- `toLowerCase` is modelled as ASCII folding and `\s` as ASCII white space. `isBlank` uses Java's `Character.isWhitespace` set. Locale-dependent folding and non-ASCII letters are not modelled.
- Bean validation (`@Valid`, `@NotBlank`) on the request bodies happens in the framework before the controller runs, and is not modelled.
- The thin controllers are not modelled: thresholds, agent registration, metrics, the Telegram webhook and the bot test. The same goes for `MetricsService` and `BotTestService`, which save and then delegate.
- Null elements of `AgentInfo.openPorts` are not modelled: the declared ports are a sequence of integers. In the source, a null port makes the sweep throw while unboxing it for the probe, partway through that agent's visit, so every later agent goes unvisited on that run. `/ports` prints such an element as `null`.
- `ApiClientRepository.findByApiKey` is never called by the core and is not modelled.
- Integers are unbounded. Java's 64-bit timestamps and 32-bit ports do not overflow in any computation the core makes.
- `AlertLookup.LatestAlert` and `TelegramBot.LatestMetrics` state which record is latest only up to ties. When two records share the greatest timestamp, the model picks the later one in collection order, while MongoDB's choice is unspecified.
- The `/help` reply is the join of the five help lines. No lemma reads it back line by line.

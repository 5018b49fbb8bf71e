# Event4U print agent: the relay link and the job pipeline

The Event4U print agent is an Electron desktop process that registers with
the Event4U management server and keeps one WebSocket open to the server's
relay. Over that socket it authenticates, answers pings and sends heartbeats.
It also takes `print_job` frames, prints them on the configured printer and
reports each job's status back. This project models the agent's main process,
`main.js`, as a verified Dafny program.

The model has these parts:

- **`Link`** (link.dfy) holds the agent's whole state as one value,
  `AgentState`. That value is main.js's module variables plus what the
  JavaScript runtime holds for them:
  - every socket ever created, with its ready state and the token and company id its `open` handler captured;
  - the timers still armed;
  - the frames sent, in order;
  - the print jobs whose `printTicket` promise has not settled yet.

  Each handler of main.js is one function from state to state.
- **`LinkProperties`** (link.dfy) lists the events the runtime can deliver and
  when each one can happen. It defines the invariant `Inv` and proves that every
  handler keeps it, so `Inv` holds after any sequence of events (`RunKeepsInv`).
  `Inv` says:
  - only the socket `relayWs` refers to can be connecting or open;
  - the runtime runs exactly the timers the two handles name, so at most one of each;
  - `pendingJobs` equals the number of unsettled jobs;
  - every job has gone through `sendJobStatus('printing')` and then at most one terminal `sendJobStatus` call, whether or not the socket was open to carry them;
  - nothing was ever sent on a socket that had not opened.
- **`AgentProperties`** (properties.dfy) states the behaviour main.js promises,
  one handler at a time.
- **`PrintAgent.Agent`** (agent.dfy) is the agent as an object. Its fields are
  main.js's variables, and each method is one handler or helper, run to
  completion. Each method is proved to produce the new state the `Link`
  function gives, and each handler method is also proved to keep `Inv`.
  `TestPrint` changes nothing.
- **`Protocol`** (protocol.dfy) has the wire frames, the configuration record,
  the `updateStatus` merge, `printTicket`'s decision, the heartbeat status and
  the registration decisions.
- **`Text`** (text.dfy) models JavaScript's `String.prototype.replace` with a
  string pattern and a replacement that contains no `$` (such as main.js:123's
  `https://` and `http://`). It replaces the first occurrence wherever it is, and
  main.js:123 uses it to derive the registration URL.
- **`Logging`** (logging.dfy) is the bounded log buffer behind the log view.
- **`Scenarios`** (scenarios.dfy) runs concrete sessions through the class.

Socket ready states follow the `ws` library:
- `close()` moves a connecting or open socket to closing;
- an `error` event is followed by closing;
- a `close` event is the last event a socket delivers.

A message can arrive only on an open or closing socket. The `pong` reply
(main.js:238) is sent without a ready-state check. On a socket that is not
open, `ws` either throws, which the `message` handler catches, or drops the
frame. In both cases nothing reaches the relay, so the model sends a frame
only on an open socket. Timers are identified
by the runtime's handle numbers.

The model keeps main.js's quirks as written:
- the status says connected as soon as the socket opens, before `auth_success`;
- `auth_error` changes nothing;
- `disconnect` leaves a pending reconnect alone;
- the `close` event of a socket that `disconnect` or a reconnect tore down still schedules a reconnect;
- so a connect while a socket is open churns: the old socket's late `close` stops the new socket's heartbeat and arms a reconnect, which tears the new socket down, whose `close` arms the next one;
- the heartbeat frame carries the status's `printerName` (main.js:307), not the device name.

## Model

| member | source | states |
|---|---|---|
| Text.IndexOf | main.js:123 | the result is the first index at or after `from` where the pattern occurs, or none when it occurs nowhere from there |
| Text.ReplaceFirst | main.js:123 | `replace` substitutes the first occurrence of the pattern, wherever it is, and leaves a string without one unchanged |
| Text.SecureSchemeFirst | main.js:123 | a URL starting with `wss://` gets `https://` in its place |
| Text.HttpBaseOfSecureUrl | main.js:123 | `wss://rest` becomes `https://rest` when `rest` holds no `ws://` |
| Text.HttpBaseOfPlainUrl | main.js:123 | `ws://rest` becomes `http://rest` when `rest` holds no `wss://` |
| Text.HttpBaseRewritesEmbeddedScheme | main.js:123 | the rewrite is not anchored: in `wss://` + host + `ws://` + rest, for a host with no `w` in it, the embedded `ws://` becomes `http://` too |
| Logging.LastNOfLastN | main.js:64-65 | keeping the last n of (last n of s, then t) is keeping the last n of s then t |
| Logging.PushKeepsMostRecent | main.js:60-65 | one `addLog` leaves at most 200 entries, which are the most recent ones in insertion order |
| Logging.PushDropsOldest | main.js:64-65 | on a full buffer the entry dropped is the oldest one |
| Logging.PushAllKeepsMostRecent | main.js:59-65 | after any number of `addLog` calls the buffer is the last min(n, 200) entries, oldest first |
| Logging.LogBuffer.constructor | main.js:59 | the buffer starts empty |
| Logging.LogBuffer.AddLog | main.js:62-65 | appends the entry, shifts once over capacity, and keeps the buffer equal to the last 200 entries ever added |
| Logging.LogBuffer.GetLogs | main.js:362 | `get-logs` returns the last 200 entries ever added, at most 200 of them |
| Protocol.MergeOverwritesExactlyPresent | main.js:332-333 | `updateStatus` overwrites exactly the fields present in the update and leaves every other field as it was |
| Protocol.MergeIdentityAndIdempotent | main.js:332-333 | an empty update changes nothing, and applying an update twice is applying it once |
| Protocol.MergeComposes | main.js:332-333 | two updates in a row equal one combined update in which the second wins |
| Protocol.PrintTicket | main.js:270-283 | refuses with "No printer configured" exactly when no printer is configured; succeeds exactly when a printer is configured and the payload is present; with a printer and no payload it rejects with the engine's TypeError message |
| Protocol.TerminalReport | main.js:253-265 | a job's terminal report is never `printing`; it is `failed` with "No printer configured" exactly when no printer is configured, and `completed` exactly when one is and the payload is present |
| Protocol.HeartbeatStatus | main.js:306 | the heartbeat status is "online" exactly when the printer is ready, and "error" otherwise |
| Protocol.RegistrationRequest | main.js:115-138 | no request without a company id; otherwise a POST to the rewritten URL's register endpoint carrying the company id, device name, printer name and the capabilities `thermalPrint: true`, `paperWidth: 80` |
| Protocol.Registration | main.js:118-155 | an agent is returned exactly when a company id is set and the response is ok with an agent body, and it carries that body's id and token |
| Text.HttpBase | main.js:123 | the scheme rewrite as written, two first-occurrence replaces; the definition the `Text` lemmas are about |
| Logging.Push | main.js:64-65 | push, then one shift over capacity; the definition the `Logging` lemmas are about |
| Protocol.Merge | main.js:332-333 | `Object.assign` of the present fields; the definition the `Merge` lemmas are about |
| Link.Initial | main.js:32-57 | the state at start-up: the stored configuration, no socket, no timers, no agent id, the initial status; the definition `InitialInv` and `Agent.constructor` are about |
| Link.UpdateStatus | main.js:332-337 | `updateStatus` as a `Merge` into the status; the definition `UpdateStatusKeepsInv` and `Agent.UpdateStatus` are about |
| Link.Send | main.js:286-288 | `relayWs.send`, which reaches the relay only on an open current socket (also the `pong` at main.js:238); the definition `SendKeepsInv`, `PingAnswered` and `Agent.Send` are about |
| Link.SendJobStatus | main.js:285-296 | `sendJobStatus` with its open-socket gate; the definition `SendJobStatusGated` and `Agent.SendJobStatus` are about |
| Link.StopHeartbeat | main.js:315-320 | `stopHeartbeat`; the definition `StopHeartbeatIdempotent`, `TimersKeepInv` and `Agent.StopHeartbeat` are about |
| Link.StartHeartbeat | main.js:298-313 | `startHeartbeat`: stop, then arm a new interval; the definition `StartHeartbeatReplaces`, `TimersKeepInv` and `Agent.StartHeartbeat` are about |
| Link.ScheduleReconnect | main.js:322-330 | `scheduleReconnect`, a no-op while one is pending; the definition `ScheduleReconnectSerialized`, `TimersKeepInv` and `Agent.ScheduleReconnect` are about |
| Link.CloseCurrent | main.js:168-171 | close the current socket and null `relayWs`, as at main.js:168-171 and 374-377; the definition `CloseCurrentKeepsInv` and `Agent.CloseCurrent` are about |
| Protocol.Terminal | main.js:255-265 | the terminal status for a settled print: `completed`, or `failed` with the result's error or the thrown message; the definition `TerminalReport` is about |
| Protocol.RegisterUrl | main.js:123-126 | the rewritten base URL plus `/api/printers/agents/register`; the definition `RegistrationRequest` states its request's URL with |
| LinkProperties.Enabled | main.js:178-214 | when the runtime can deliver each event: `open` only on a connecting socket, messages on an open or closing one, `close` and `error` on one not yet closed, a timer only while armed, a settle only for an in-flight job; the condition `StepKeepsInv` and every handler lemma assume |
| Link.ConnectToRelay | main.js:157-219 | `connectToRelay`'s three branches; the definition the `AgentProperties` connect lemmas and `Agent.ConnectToRelay` are about |
| Link.OnOpen | main.js:178-193 | the `open` handler; the definition `OpenAuthenticates` and `Agent.OnOpen` are about |
| Link.OnClose | main.js:204-209 | the `close` handler; the definition `CloseSchedulesReconnect` and `Agent.OnClose` are about |
| Link.OnError | main.js:211-214 | the `error` handler; the definition `ErrorOnlyDisconnects` and `Agent.OnError` are about |
| Link.HandleRelayMessage | main.js:221-244 | the dispatch on the frame's type; the definition `LogOnlyMessages`, `PingAnswered` and `Agent.HandleRelayMessage` are about |
| Link.HandlePrintJob | main.js:246-253 | the arrival half of `handlePrintJob`; the definition `ArrivalReportsPrinting` and `Agent.HandlePrintJob` are about |
| Link.SettleJob | main.js:253-267 | the settling half of `handlePrintJob`; the definition `SettleReportsTerminal` and `Agent.SettleJob` are about |
| Link.HeartbeatTick | main.js:300-311 | one tick of the heartbeat interval; the definition `HeartbeatGated` and `Agent.HeartbeatTick` are about |
| Link.ReconnectTick | main.js:326-329 | the reconnect timeout; the definition `ReconnectTickRetries`, `ReconnectTickClears` and `Agent.ReconnectTick` are about |
| Link.Disconnect | main.js:373-381 | the `disconnect` handler; the definition the `Disconnect` lemmas and `Agent.Disconnect` are about |
| Link.SaveConfig | main.js:348-358 | the `save-config` handler; the definition `SaveConfigPrinterReady` and `Agent.SaveConfig` are about |
| Link.RegisterAgent | main.js:114-155 | what `registerAgent` stores; the definition `RegisterAgentStores` and `Agent.RegisterAgent` are about |
| Link.Connect | main.js:364-371 | the `connect` handler; the definition `ConnectOnlyAfterRegistration` and `Agent.Connect` are about |
| Link.Start | main.js:402-414 | start-up; the definition `StartKeepsInv` and `Agent.Start` are about |
| LinkProperties.InitialInv | main.js:32-57 | the state at start-up satisfies the invariant |
| LinkProperties.UpdateStatusKeepsInv | main.js:332-337 | a merge that leaves `pendingJobs` alone keeps the invariant |
| LinkProperties.SendKeepsInv | main.js:285-296 | a send keeps the invariant, because frames go only to an open socket |
| LinkProperties.CloseCurrentKeepsInv | main.js:168-171 | closing and dropping the current socket keeps the invariant and leaves no current and no live socket |
| LinkProperties.TimersKeepInv | main.js:298-330 | starting or stopping the heartbeat and scheduling a reconnect keep the invariant, so the armed timers stay exactly those the handles name |
| LinkProperties.ConnectToRelayKeepsInv | main.js:157-219 | `connectToRelay` keeps the invariant in all three of its branches |
| LinkProperties.OnOpenKeepsInv | main.js:178-193 | the `open` handler keeps the invariant |
| LinkProperties.OnCloseKeepsInv | main.js:204-209 | the `close` handler keeps the invariant |
| LinkProperties.OnErrorKeepsInv | main.js:211-214 | the `error` handler keeps the invariant |
| LinkProperties.AdmitJobKeepsInv | main.js:246-253 | recording a new in-flight job with its `printing` report keeps the invariant |
| LinkProperties.HandlePrintJobKeepsInv | main.js:246-253 | a job's arrival keeps the invariant |
| LinkProperties.HandleRelayMessageKeepsInv | main.js:221-244 | dispatching any frame keeps the invariant |
| LinkProperties.SettleJobKeepsInv | main.js:253-267 | settling a job keeps the invariant |
| LinkProperties.HeartbeatTickKeepsInv | main.js:300-311 | a heartbeat tick keeps the invariant |
| LinkProperties.ReconnectTickKeepsInv | main.js:326-329 | the reconnect timeout keeps the invariant |
| LinkProperties.DisconnectKeepsInv | main.js:373-381 | `disconnect` keeps the invariant |
| LinkProperties.SaveConfigKeepsInv | main.js:348-358 | `save-config` keeps the invariant |
| LinkProperties.ConnectKeepsInv | main.js:364-371 | registration, and `connect` after it, keep the invariant |
| LinkProperties.StartKeepsInv | main.js:402-414 | start-up with auto-connect keeps the invariant |
| LinkProperties.StepKeepsInv | main.js:157-381 | every event the runtime can deliver keeps the invariant |
| LinkProperties.RunKeepsInv | main.js:157-381 | the invariant holds after any sequence of events |
| AgentProperties.AtMostOneLiveSocket | main.js:168-176 | at most one socket is connecting or open, and it is the one `relayWs` refers to |
| AgentProperties.AtMostOneTimerEach | main.js:298-330 | at most one heartbeat interval and at most one reconnect timeout exist |
| AgentProperties.StopHeartbeatIdempotent | main.js:315-320 | `stopHeartbeat` is idempotent and leaves no interval running |
| AgentProperties.StartHeartbeatReplaces | main.js:298-300 | after `startHeartbeat` exactly the new interval runs |
| AgentProperties.ScheduleReconnectSerialized | main.js:322-326 | `scheduleReconnect` does nothing while a reconnect is pending, and otherwise arms exactly one |
| AgentProperties.ReconnectTickRetries | main.js:326-329 | the timeout clears its handle before connecting, so an attempt whose constructor throws arms a fresh retry |
| AgentProperties.ReconnectTickClears | main.js:326-329 | a reconnect that creates its socket leaves no reconnect pending |
| AgentProperties.ConnectWithoutCompanyId | main.js:162-166 | without a company id the new state is the old one with `connected` false: no socket is created and nothing else changes |
| AgentProperties.ConnectTearsDownFirst | main.js:168-176 | the old socket is closed and dropped before the new one is created; the new one is then the only live socket and carries the stored URL, token and company id |
| AgentProperties.ConnectConstructorThrows | main.js:175-218 | when the constructor throws, no socket is current, none is live, and a reconnect is pending |
| AgentProperties.OpenAuthenticates | main.js:178-193 | `open` sends exactly one auth frame with the captured token and company id and the current agent id and device name, then the status says connected and exactly one heartbeat runs |
| AgentProperties.CloseSchedulesReconnect | main.js:204-209 | `close` says disconnected, stops the heartbeat and leaves exactly one reconnect pending, and sends nothing |
| AgentProperties.ErrorOnlyDisconnects | main.js:211-214 | `error` changes only the status's `connected`, to false, besides the socket starting to close |
| AgentProperties.LogOnlyMessages | main.js:224-243 | `auth_success`, `auth_error`, unknown types, unparsable frames and a `print_job` without a payload change nothing |
| AgentProperties.PingAnswered | main.js:237-239 | `ping` is answered with one `pong` exactly when the current socket is open |
| AgentProperties.SendJobStatusGated | main.js:285-296 | `sendJobStatus` appends one frame exactly when the current socket is open, and otherwise changes nothing |
| AgentProperties.HeartbeatGated | main.js:300-311 | when the socket is open, a heartbeat tick sends one heartbeat with the agent id, status and printer name, records its time and changes nothing else; otherwise it does nothing |
| AgentProperties.PendingJobsCount | main.js:248-267 | `pendingJobs` is never negative and is zero once every arrived job has settled |
| AgentProperties.ArrivalReportsPrinting | main.js:246-253 | an arrival adds one to `pendingJobs`, reports `printing`, and fixes the outcome from the printer configured at that moment |
| AgentProperties.SettleReportsTerminal | main.js:253-267 | settling reports the job's one terminal status after `printing`, removes the job and takes one off the counter |
| AgentProperties.JobLifecycle | main.js:246-283 | a job that arrives and settles reports `printing` then `completed`, or `failed` with "No printer configured" exactly when no printer is configured, and leaves the counter as it was |
| AgentProperties.ReportsInOrder | main.js:251-265 | every job ever received reported `printing` first and at most one terminal status after it, and every settled job exactly one |
| AgentProperties.DisconnectEffects | main.js:373-381 | `disconnect` leaves no live socket, stops the heartbeat and says disconnected, but leaves a pending reconnect as it was |
| AgentProperties.DisconnectIdempotent | main.js:373-381 | calling `disconnect` twice is calling it once |
| AgentProperties.DisconnectThenCloseReconnects | main.js:204-209 | after `disconnect`, the closed socket's `close` event still schedules a reconnect |
| AgentProperties.TeardownCloseSchedulesReconnect | main.js:168-209 | reconnecting while open: the old socket's later `close` says disconnected and schedules a reconnect while the new socket is current |
| AgentProperties.ReconnectChurn | main.js:168-209 | after a connect while open, the new socket opens, the old socket's late `close` stops its heartbeat and arms a reconnect, that reconnect tears the new socket down, and its `close` arms the next reconnect |
| AgentProperties.StartWithDefaultStore | main.js:402-414 | with the default store of main.js:33-39 (no company id), start-up only publishes the empty printer status and never registers or connects |
| AgentProperties.SaveConfigPrinterReady | main.js:348-354 | `save-config` stores the four fields, keeps the token, and sets `printerReady = !!printerName` |
| AgentProperties.RegisterAgentStores | main.js:114-155 | a successful registration stores the token and the agent id; any other outcome changes nothing |
| AgentProperties.ConnectOnlyAfterRegistration | main.js:364-371 | `connect` creates a socket, carrying the new token, only after a successful registration |
| PrintAgent.Agent.constructor | main.js:32-57 | the agent starts with no socket, no timers, no agent id and the initial status |
| PrintAgent.Agent.UpdateStatus | main.js:332-337 | the status becomes the merge of the update |
| PrintAgent.Agent.Send | main.js:286-288 | a frame is appended for the current socket exactly when it is open |
| PrintAgent.Agent.SendJobStatus | main.js:285-296 | a job report is sent only on an open socket |
| PrintAgent.Agent.StopHeartbeat | main.js:315-320 | the interval is cleared and the handle reset |
| PrintAgent.Agent.StartHeartbeat | main.js:298-313 | the old interval is cleared, then a new one is armed |
| PrintAgent.Agent.ScheduleReconnect | main.js:322-330 | a timeout is armed only when none is pending |
| PrintAgent.Agent.CloseCurrent | main.js:168-171 | the current socket is asked to close and dropped |
| PrintAgent.Agent.ConnectToRelay | main.js:157-219 | runs `connectToRelay` and keeps the invariant |
| PrintAgent.Agent.OnOpen | main.js:178-193 | runs the `open` handler and keeps the invariant |
| PrintAgent.Agent.OnMessage | main.js:195-202 | a frame delivered on an open or closing socket is dispatched, and the invariant is kept |
| PrintAgent.Agent.HandleRelayMessage | main.js:221-244 | dispatches on the frame's type and keeps the invariant |
| PrintAgent.Agent.HandlePrintJob | main.js:246-253 | the arrival half of `handlePrintJob`; keeps the invariant |
| PrintAgent.Agent.SettleJob | main.js:253-267 | the settling half of `handlePrintJob`; keeps the invariant |
| PrintAgent.Agent.HeartbeatTick | main.js:300-311 | one tick of the heartbeat interval; keeps the invariant |
| PrintAgent.Agent.ReconnectTick | main.js:326-329 | the reconnect timeout clears its handle, then connects; keeps the invariant |
| PrintAgent.Agent.OnClose | main.js:204-209 | runs the `close` handler and keeps the invariant |
| PrintAgent.Agent.OnError | main.js:211-214 | runs the `error` handler and keeps the invariant |
| PrintAgent.Agent.Disconnect | main.js:373-381 | runs `disconnect`, keeps the invariant and resolves with success |
| PrintAgent.Agent.SaveConfig | main.js:348-358 | runs `save-config`, keeps the invariant and resolves with success |
| PrintAgent.Agent.RegisterAgent | main.js:114-155 | returns the registration decision and the request made, stores what a success brings, and keeps the invariant |
| PrintAgent.Agent.Connect | main.js:364-371 | resolves with `{ success: true }` and no error exactly when registration succeeded, and with "Registration failed" otherwise |
| PrintAgent.Agent.Start | main.js:402-414 | publishes the printer status, then registers and connects when auto-connect is on and a company id is set |
| PrintAgent.Agent.TestPrint | main.js:383-397 | `test-print` refuses with "No printer configured" exactly when no printer is configured, and prints otherwise |
| Scenarios.Opened | main.js:178-193 | start-up with an accepted registration, then `open`: one auth frame sent, connected, nothing pending |
| Scenarios.Arrive | main.js:246-253 | one `print_job` frame on the open socket: one `printing` report, one more in-flight job |
| Scenarios.PrintOneJob | main.js:246-283 | one job printed end to end: auth, `printing`, `completed`, and the counter back at zero |
| Scenarios.PrintWithoutPrinter | main.js:270-275 | without a printer the job reports `printing`, then `failed` with "No printer configured" |
| Scenarios.OneJobInFlight | main.js:246-253 | one job arrived and still printing: auth and `printing` sent, one job counted |
| Scenarios.ClosedWithTwoJobs | main.js:204-209 | two jobs in flight when the socket closes: a reconnect is pending and both are still counted |
| Scenarios.JobsOutliveTheSocket | main.js:246-268 | jobs settling after the close send no terminal report, and the counter still returns to zero |
| Scenarios.DisconnectDoesNotStick | main.js:373-381 | after `disconnect`, the closed socket's `close` and the reconnect timeout bring a new socket |
| Scenarios.IgnoredFrames | main.js:225-243 | `auth_error`, an unknown type and an unparsable frame send nothing and leave the status alone |
| Scenarios.RejectedRegistration | main.js:364-371 | a rejected registration makes `connect` fail with "Registration failed", and no socket is opened |

## Left out

- The Electron window, the single-instance lock, app lifecycle and `createWindow` (main.js:1-30, 88-108, 399-401, 415-434) are process and UI plumbing.
- The status push to the window (`status:update`, main.js:334-336) and the log push (`log:entry`, main.js:66-68) are IPC sends with no effect on the agent's state.
- The electron-log transport and the `log.info`, `log.warn` and `log.error` wrappers (main.js:7-10, 71-86) are not modelled. The handlers' log lines are therefore not fed into `Logging.LogBuffer`. The buffer's policy is modelled on its own, with the timestamp, level and message as inputs.
- electron-store persistence is not modelled: the configuration is a plain `Config` record.
- The `fetch` transport and `response.json()` are not modelled. Their result is the `FetchOutcome` input of `RegisterAgent`. A body that is not an agent record is `NotAgentJson`, and a JSON body is assumed to carry `id` and `authToken`.
- Registration runs as one step. The model does not capture events interleaving with the `await fetch`, nor the log lines of the error paths.
- WebSocket I/O and `JSON.parse` of inbound frames are not modelled. The result of the constructor is the `created` input, and a frame arrives already parsed as an `Inbound` value.
- Time is not modelled: the 5 s reconnect delay, the 30 s heartbeat interval, the 1 s delay in `printTicket`, and every `Date` timestamp. Timers are handles the runtime can fire in any order, and a heartbeat's timestamp is an input.
- `os.hostname()` is the agent's fixed `deviceName`.
- `printTicket` is modelled as decided when the job arrives. The code reads the printer name before its first `await`, so this is the same. A refused print settles one microtask later, and the model lets any events run between arrival and settling, which covers that case.
- `get-config` and `get-status` (main.js:339-346, 360) only return fields the model holds, so they are not separate members.
- renderer.js and preload.js are not part of this model. They are DOM rendering and a bridge with no logic.
- PrintAgent.Agent.TestPrint: the test payload's text, built from the printer name and the date, is a fixed payload in the model, because `printTicket` only logs it.
- A job whose `payload` field is absent, with a printer configured, fails with the engine's TypeError message. `JSON.stringify(undefined)` has no `substring`, so `printTicket` rejects at main.js:278. The model keeps this path (`Threw`), so a job completes only when a printer is configured and its payload is present.

/**
 * The properties main.js's connection manager and job pipeline promise,
 * each stated on the handlers of module Link.
 */
module AgentProperties {
  import opened Wrappers
  import opened Protocol
  import opened Link
  import opened LinkProperties

  // ------------------------------------------------- sockets and timers

  /** At most one socket is connecting or open, and it is the one relayWs refers to. */
  lemma AtMostOneLiveSocket(s: AgentState)
    requires Inv(s)
    ensures forall i, j :: 0 <= i < |s.sockets| && 0 <= j < |s.sockets| && Live(s.sockets[i].state) && Live(s.sockets[j].state) ==> i == j
    ensures forall i :: 0 <= i < |s.sockets| && Live(s.sockets[i].state) ==> s.relayWs == Some(i)
  {
  }

  /** At most one heartbeat interval and at most one reconnect timeout exist. */
  lemma AtMostOneTimerEach(s: AgentState)
    requires Inv(s)
    ensures |s.armedHeartbeat| <= 1 && |s.armedReconnect| <= 1
  {
  }

  /** stopHeartbeat is idempotent and leaves no interval running. */
  lemma StopHeartbeatIdempotent(s: AgentState)
    requires TimersInv(s)
    ensures StopHeartbeat(StopHeartbeat(s)) == StopHeartbeat(s)
    ensures StopHeartbeat(s).armedHeartbeat == {} && StopHeartbeat(s).heartbeatTimer.None?
  {
  }

  /** startHeartbeat stops the running interval first: afterwards exactly the new one runs. */
  lemma StartHeartbeatReplaces(s: AgentState)
    requires TimersInv(s)
    ensures StartHeartbeat(s).heartbeatTimer == Some(s.nextTimer)
    ensures StartHeartbeat(s).armedHeartbeat == {s.nextTimer}
  {
  }

  /** scheduleReconnect does nothing while a reconnect is pending, and otherwise arms exactly one. */
  lemma ScheduleReconnectSerialized(s: AgentState)
    requires TimersInv(s)
    ensures s.relayReconnectTimer.Some? ==> ScheduleReconnect(s) == s
    ensures s.relayReconnectTimer.None? ==> ScheduleReconnect(s).armedReconnect == {s.nextTimer}
    ensures ScheduleReconnect(s).relayReconnectTimer.Some?
  {
  }

  /**
   * The reconnect timeout clears its handle before connecting, so a
   * connection attempt that fails at once arms a fresh retry.
   */
  lemma ReconnectTickRetries(s: AgentState, timer: nat)
    requires Inv(s) && timer in s.armedReconnect && s.store.companyId != ""
    ensures ReconnectTick(s, timer, false).relayReconnectTimer.Some?
    ensures |ReconnectTick(s, timer, false).armedReconnect| == 1
    ensures ReconnectTick(s, timer, false).relayWs.None?
  {
  }

  /** A successful reconnect leaves no reconnect pending. */
  lemma ReconnectTickClears(s: AgentState, timer: nat)
    requires Inv(s) && timer in s.armedReconnect && s.store.companyId != ""
    ensures ReconnectTick(s, timer, true).relayReconnectTimer.None?
    ensures ReconnectTick(s, timer, true).armedReconnect == {}
  {
  }

  // ------------------------------------------------------ connectToRelay

  /**
   * Without a company id no socket is created and the status says
   * disconnected; nothing else changes.
   */
  lemma ConnectWithoutCompanyId(s: AgentState, created: bool)
    requires s.store.companyId == ""
    ensures ConnectToRelay(s, created) == s.(currentStatus := s.currentStatus.(connected := false))
  {
  }

  /**
   * With a company id the previous socket is closed and dropped before the
   * new one is created; the new one is then the only live socket, and it
   * carries the stored token and company id.
   */
  lemma ConnectTearsDownFirst(s: AgentState)
    requires Inv(s) && s.store.companyId != ""
    ensures var r := ConnectToRelay(s, true);
      && r.relayWs == Some(|s.sockets|) && |r.sockets| == |s.sockets| + 1
      && r.sockets[|s.sockets|] == Socket(s.store.serverUrl + "/ws/print-agent", s.store.authToken, s.store.companyId, Connecting)
      && (forall i :: 0 <= i < |s.sockets| ==> !Live(r.sockets[i].state))
      && (s.relayWs.Some? ==> r.sockets[s.relayWs.value].state == RequestClose(s.sockets[s.relayWs.value].state))
  {
    CloseCurrentKeepsInv(s);
  }

  /** When the WebSocket constructor throws, no socket is left and a reconnect is pending. */
  lemma ConnectConstructorThrows(s: AgentState)
    requires Inv(s) && s.store.companyId != ""
    ensures var r := ConnectToRelay(s, false);
      r.relayWs.None? && |r.sockets| == |s.sockets| && r.relayReconnectTimer.Some?
      && forall i :: 0 <= i < |r.sockets| ==> !Live(r.sockets[i].state)
  {
    CloseCurrentKeepsInv(s);
  }

  // ------------------------------------------------------- socket events

  /**
   * `open` sends exactly one auth frame, on that socket, with the token and
   * company id captured at connect time and the current agent id and device
   * name; then the status says connected and exactly one heartbeat runs.
   */
  lemma OpenAuthenticates(s: AgentState, id: nat)
    requires Inv(s) && Enabled(s, SocketOpened(id))
    ensures var r := OnOpen(s, id);
      && r.outbox == s.outbox + [Outgoing(id, Auth(s.sockets[id].token, s.sockets[id].companyId, s.agentId, s.deviceName))]
      && r.currentStatus.connected
      && r.sockets[id].state == Open
      && r.armedHeartbeat == {s.nextTimer} && r.heartbeatTimer == Some(s.nextTimer)
  {
  }

  /** `close` marks the status disconnected, stops the heartbeat and leaves exactly one reconnect pending. */
  lemma CloseSchedulesReconnect(s: AgentState, id: nat)
    requires Inv(s) && Enabled(s, SocketClosed(id))
    ensures var r := OnClose(s, id);
      && !r.currentStatus.connected
      && r.heartbeatTimer.None? && r.armedHeartbeat == {}
      && r.relayReconnectTimer.Some? && |r.armedReconnect| == 1
      && r.outbox == s.outbox && r.relayWs == s.relayWs
  {
  }

  /**
   * `error` only marks the status disconnected, besides the socket starting
   * to close: no timer, frame, handle, job or configuration changes.
   */
  lemma ErrorOnlyDisconnects(s: AgentState, id: nat)
    requires Enabled(s, SocketErrored(id))
    ensures OnError(s, id) == s.(sockets := s.sockets[id := s.sockets[id].(state := RequestClose(s.sockets[id].state))],
                                 currentStatus := s.currentStatus.(connected := false))
  {
  }

  // ---------------------------------------------------- message dispatch

  /** `auth_success`, `auth_error`, unknown types and unparsable frames change nothing. */
  lemma LogOnlyMessages(s: AgentState, m: Inbound)
    requires m.AuthSuccess? || m.AuthError? || m.Unknown? || m.Unparsable? || m == PrintJobMsg(None)
    ensures HandleRelayMessage(s, m) == s
  {
  }

  /** `ping` is answered with exactly one `pong` when the current socket is open, and with nothing otherwise. */
  lemma PingAnswered(s: AgentState)
    ensures HandleRelayMessage(s, Ping).outbox == if CurrentOpen(s) then s.outbox + [Outgoing(s.relayWs.value, Pong)] else s.outbox
    ensures HandleRelayMessage(s, Ping).currentStatus == s.currentStatus
  {
  }

  // ------------------------------------------------------ status reports

  /** sendJobStatus appends one frame exactly when the current socket is open, and changes nothing else. */
  lemma SendJobStatusGated(s: AgentState, jobId: string, st: JobStatus)
    ensures var r := SendJobStatus(s, jobId, st);
      && (CurrentOpen(s) ==> r.outbox == s.outbox + [Outgoing(s.relayWs.value, JobStatusMsg(jobId, st))])
      && (!CurrentOpen(s) ==> r == s)
      && r.currentStatus == s.currentStatus && r.sockets == s.sockets
  {
  }

  /**
   * A heartbeat tick sends one heartbeat, with the status HeartbeatStatus
   * chooses, and records its time, when the current socket is open; it does
   * nothing otherwise.
   */
  lemma HeartbeatGated(s: AgentState, now: string)
    ensures var r := HeartbeatTick(s, now);
      && (!CurrentOpen(s) ==> r == s)
      && (CurrentOpen(s) ==>
            r == s.(outbox := s.outbox + [Outgoing(s.relayWs.value, Heartbeat(s.agentId, HeartbeatStatus(s.currentStatus.printerReady), s.currentStatus.printerName))],
                    currentStatus := s.currentStatus.(lastHeartbeat := Some(now))))
  {
  }

  // ---------------------------------------------------------- the pipeline

  /** The job counter is never negative and is zero once every arrived job has settled. */
  lemma PendingJobsCount(s: AgentState)
    requires Inv(s)
    ensures s.currentStatus.pendingJobs >= 0
    ensures s.jobs == map[] ==> s.currentStatus.pendingJobs == 0
  {
  }

  /**
   * A job's arrival adds one to the counter, reports `printing` (sent if the
   * socket is open), and fixes its outcome from the printer name configured
   * at that moment.
   */
  lemma ArrivalReportsPrinting(s: AgentState, job: Job)
    requires Inv(s)
    ensures var r := HandlePrintJob(s, job);
      && r.currentStatus.pendingJobs == s.currentStatus.pendingJobs + 1
      && s.nextTicket in r.jobs && s.nextTicket !in s.jobs
      && r.jobs[s.nextTicket] == PendingJob(job.id, PrintTicket(s.store.printerName, job.payload))
      && r.lifecycle[s.nextTicket] == [Printing]
      && r.outbox == (if CurrentOpen(s) then s.outbox + [Outgoing(s.relayWs.value, JobStatusMsg(job.id, Printing))] else s.outbox)
  {
  }

  /**
   * Settling a job reports its one terminal status after `printing`, removes
   * it so that it can never be reported again, and takes one off the counter.
   */
  lemma SettleReportsTerminal(s: AgentState, ticket: nat)
    requires Inv(s) && ticket in s.jobs
    ensures var r := SettleJob(s, ticket);
      && r.lifecycle[ticket] == [Printing, Terminal(s.jobs[ticket].outcome)]
      && ticket !in r.jobs
      && r.currentStatus.pendingJobs == s.currentStatus.pendingJobs - 1
      && r.outbox == (if CurrentOpen(s) then s.outbox + [Outgoing(s.relayWs.value, JobStatusMsg(s.jobs[ticket].jobId, Terminal(s.jobs[ticket].outcome)))] else s.outbox)
  {
    assert s.lifecycle[ticket] == [Printing];
  }

  /**
   * A job that arrives and settles with no other event between reports
   * `printing` and then `completed`, or `failed` with "No printer configured"
   * exactly when no printer is configured.
   */
  lemma JobLifecycle(s: AgentState, job: Job)
    requires Inv(s)
    ensures var r := SettleJob(HandlePrintJob(s, job), s.nextTicket);
      && r.lifecycle[s.nextTicket] == [Printing, Terminal(PrintTicket(s.store.printerName, job.payload))]
      && (r.lifecycle[s.nextTicket][1] == Failed(NoPrinterError) <==> s.store.printerName == "")
      && (r.lifecycle[s.nextTicket][1] == Completed <==> s.store.printerName != "" && job.payload.Some?)
      && r.currentStatus.pendingJobs == s.currentStatus.pendingJobs
  {
    var a := HandlePrintJob(s, job);
    HandlePrintJobKeepsInv(s, job);
    ArrivalReportsPrinting(s, job);
    SettleReportsTerminal(a, s.nextTicket);
    TerminalReport(s.store.printerName, job.payload);
  }

  /** Every job ever received has reported `printing` first and at most one terminal status. */
  lemma ReportsInOrder(s: AgentState)
    requires Inv(s)
    ensures forall t :: 0 <= t < s.nextTicket ==> 1 <= |s.lifecycle[t]| <= 2 && s.lifecycle[t][0] == Printing
    ensures forall t :: 0 <= t < s.nextTicket && |s.lifecycle[t]| == 2 ==> s.lifecycle[t][1] != Printing && t !in s.jobs
    ensures forall t :: 0 <= t < s.nextTicket && t !in s.jobs ==> |s.lifecycle[t]| == 2
  {
  }

  // ---------------------------------------------------------- disconnect

  /**
   * disconnect drops the socket, stops the heartbeat and marks the status
   * disconnected, but leaves a pending reconnect timer alone.
   */
  lemma DisconnectEffects(s: AgentState)
    requires Inv(s)
    ensures var r := Disconnect(s);
      && r.relayWs.None? && (forall i :: 0 <= i < |r.sockets| ==> !Live(r.sockets[i].state))
      && r.heartbeatTimer.None? && r.armedHeartbeat == {}
      && !r.currentStatus.connected
      && r.relayReconnectTimer == s.relayReconnectTimer && r.armedReconnect == s.armedReconnect
  {
    if s.relayWs.Some? { CloseCurrentKeepsInv(s); }
  }

  /** Calling disconnect twice is the same as calling it once. */
  lemma DisconnectIdempotent(s: AgentState)
    ensures Disconnect(Disconnect(s)) == Disconnect(s)
  {
  }

  /**
   * The socket disconnect closes still fires its `close` handler, which
   * schedules a reconnect: the link does not stay disconnected.
   */
  lemma DisconnectThenCloseReconnects(s: AgentState)
    requires Inv(s) && s.relayWs.Some? && Live(s.sockets[s.relayWs.value].state)
    ensures var d := Disconnect(s);
      Enabled(d, SocketClosed(s.relayWs.value)) && OnClose(d, s.relayWs.value).relayReconnectTimer.Some?
  {
  }

  /**
   * Connecting again while a socket is open: the old socket's `close` handler
   * later marks the status disconnected and schedules a reconnect even though
   * the new socket is the current one.
   */
  lemma TeardownCloseSchedulesReconnect(s: AgentState)
    requires Inv(s) && s.store.companyId != "" && s.relayWs.Some? && s.sockets[s.relayWs.value].state == Open
    ensures var previous := s.relayWs.value;
      var c := ConnectToRelay(s, true);
      && Enabled(c, SocketClosed(previous))
      && var r := OnClose(c, previous);
      && r.relayWs == Some(|s.sockets|) && r.sockets[|s.sockets|].state == Connecting
      && !r.currentStatus.connected && r.relayReconnectTimer.Some?
  {
  }

  /**
   * The churn that quirk causes. After a connect while a socket is open, the
   * new socket opens; the old socket's late `close` then stops the new
   * socket's heartbeat and arms a reconnect; that reconnect tears the new
   * socket down, and its `close` arms the next reconnect.
   */
  lemma ReconnectChurn(s: AgentState)
    requires Inv(s) && s.store.companyId != "" && s.relayWs.Some? && s.sockets[s.relayWs.value].state == Open
    ensures var previous := s.relayWs.value;
      var n := |s.sockets|;
      var c := ConnectToRelay(s, true);
      && Enabled(c, SocketOpened(n))
      && var o := OnOpen(c, n);
      && o.currentStatus.connected && o.heartbeatTimer.Some?
      && Enabled(o, SocketClosed(previous))
      && var r := OnClose(o, previous);
      && r.relayWs == Some(n) && r.sockets[n].state == Open
      && r.heartbeatTimer.None? && r.armedHeartbeat == {} && !r.currentStatus.connected
      && r.relayReconnectTimer.Some? && Enabled(r, ReconnectFired(r.relayReconnectTimer.value, true))
      && var k := ReconnectTick(r, r.relayReconnectTimer.value, true);
      && k.relayWs == Some(n + 1) && k.sockets[n].state == Closing && k.relayReconnectTimer.None?
      && Enabled(k, SocketClosed(n))
      && OnClose(k, n).relayReconnectTimer.Some?
  {
  }

  // -------------------------------------------------- config and registration

  /**
   * At start-up with the default store there is no company id, so the agent
   * only publishes its printer status and never registers or connects.
   */
  lemma StartWithDefaultStore(deviceName: string, outcome: FetchOutcome, created: bool)
    ensures var s := Initial(deviceName, DefaultConfig);
      && Start(s, outcome, created) == UpdateStatus(s, SetPrinter(""))
      && Start(s, outcome, created).sockets == [] && Start(s, outcome, created).agentId.None?
  {
  }

  /** save-config sets the printer name and `printerReady = !!printerName`, and keeps the token. */
  lemma SaveConfigPrinterReady(s: AgentState, serverUrl: string, companyId: string, printerName: string, autoConnect: bool)
    ensures var r := SaveConfig(s, serverUrl, companyId, printerName, autoConnect);
      && r.currentStatus.printerReady == (printerName != "")
      && r.currentStatus.printerName == Some(printerName)
      && r.store == Config(serverUrl, companyId, s.store.authToken, printerName, autoConnect)
      && r.currentStatus.connected == s.currentStatus.connected
      && r.currentStatus.pendingJobs == s.currentStatus.pendingJobs
  {
  }

  /** A successful registration stores the token and the agent id; any other outcome changes nothing. */
  lemma RegisterAgentStores(s: AgentState, outcome: FetchOutcome)
    ensures var r := RegisterAgent(s, outcome);
      && (Registration(s.store.companyId, outcome).None? ==> r == s)
      && (Registration(s.store.companyId, outcome).Some? ==>
            && r.agentId == Some(outcome.body.id)
            && r.store == s.store.(authToken := outcome.body.authToken))
  {
  }

  /** The connect handler creates a socket only after a successful registration. */
  lemma ConnectOnlyAfterRegistration(s: AgentState, outcome: FetchOutcome, created: bool)
    ensures Registration(s.store.companyId, outcome).None? ==> Connect(s, outcome, created) == s
    ensures Registration(s.store.companyId, outcome).Some? && created ==>
      |Connect(s, outcome, created).sockets| == |s.sockets| + 1
      && Connect(s, outcome, created).sockets[|s.sockets|].token == outcome.body.authToken
  {
  }
}

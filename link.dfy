/**
 * The relay link and job pipeline of main.js as a state machine over one
 * value: the module-level variables of main.js (`store`, `agentId`,
 * `currentStatus`, `relayWs`, `relayReconnectTimer`, `heartbeatTimer`)
 * together with what the JavaScript runtime holds for them (every socket
 * created so far and its ready state, the armed timers, the frames sent,
 * the print jobs whose promise has not settled yet).
 *
 * Each handler of main.js is one function; the class PrintAgent.Agent runs
 * the same handlers imperatively and is proved to agree with them.
 */
module Link {
  import opened Wrappers
  import opened Protocol

  /** A WebSocket's readyState. */
  datatype ReadyState = Connecting | Open | Closing | Closed

  /**
   * A socket created by connectToRelay, with the token and company id its
   * handlers captured when it was created.
   */
  datatype Socket = Socket(url: string, token: string, companyId: string, state: ReadyState)

  /** A frame handed to the transport, with the socket it was sent on. */
  datatype Outgoing = Outgoing(socket: nat, msg: OutMsg)

  /** A job whose printTicket promise is pending; its outcome is already decided. */
  datatype PendingJob = PendingJob(jobId: string, outcome: PrintOutcome)

  datatype AgentState = AgentState(
    deviceName: string,                    // os.hostname()
    store: Config,
    agentId: Option<string>,
    currentStatus: Status,
    relayWs: Option<nat>,                  // index into sockets
    sockets: seq<Socket>,
    relayReconnectTimer: Option<nat>,
    heartbeatTimer: Option<nat>,
    armedReconnect: set<nat>,              // reconnect timeouts the runtime will still fire
    armedHeartbeat: set<nat>,              // heartbeat intervals the runtime is running
    nextTimer: nat,
    outbox: seq<Outgoing>,
    jobs: map<nat, PendingJob>,            // in-flight jobs, by ticket
    nextTicket: nat,
    lifecycle: seq<seq<JobStatus>>)        // per ticket: the statuses reported so far, in order

  function Initial(deviceName: string, store: Config): AgentState {
    AgentState(deviceName, store, None, InitialStatus, None, [], None, None, {}, {}, 0, [], map[], 0, [])
  }

  function Ids(t: Option<nat>): set<nat> {
    if t.Some? then {t.value} else {}
  }

  predicate Live(rs: ReadyState) {
    rs == Connecting || rs == Open
  }

  /** The effect of `ws.close()` on a socket's readyState. */
  function RequestClose(rs: ReadyState): ReadyState {
    if Live(rs) then Closing else rs
  }

  /** `relayWs && relayWs.readyState === WebSocket.OPEN`. */
  predicate CurrentOpen(s: AgentState) {
    s.relayWs.Some? && s.relayWs.value < |s.sockets| && s.sockets[s.relayWs.value].state == Open
  }

  function WithSocketState(s: AgentState, id: nat, rs: ReadyState): AgentState
    requires id < |s.sockets|
  {
    s.(sockets := s.sockets[id := s.sockets[id].(state := rs)])
  }

  // ---------------------------------------------------------------- helpers

  /** `updateStatus(u)` (main.js:332-337). */
  function UpdateStatus(s: AgentState, u: StatusUpdate): AgentState {
    s.(currentStatus := Merge(s.currentStatus, u))
  }

  /** `relayWs.send(m)`: the frame goes out only on an open socket. */
  function Send(s: AgentState, m: OutMsg): AgentState {
    if CurrentOpen(s) then s.(outbox := s.outbox + [Outgoing(s.relayWs.value, m)]) else s
  }

  /** `sendJobStatus(jobId, status, errorMessage)` (main.js:285-296). */
  function SendJobStatus(s: AgentState, jobId: string, st: JobStatus): AgentState {
    if !CurrentOpen(s) then s else Send(s, JobStatusMsg(jobId, st))
  }

  /** `stopHeartbeat()` (main.js:315-320). */
  function StopHeartbeat(s: AgentState): AgentState {
    s.(heartbeatTimer := None, armedHeartbeat := s.armedHeartbeat - Ids(s.heartbeatTimer))
  }

  /** `startHeartbeat()` (main.js:298-313): stop the old interval, then arm a new one. */
  function StartHeartbeat(s: AgentState): AgentState {
    var t := StopHeartbeat(s);
    t.(heartbeatTimer := Some(t.nextTimer), armedHeartbeat := t.armedHeartbeat + {t.nextTimer}, nextTimer := t.nextTimer + 1)
  }

  /** `scheduleReconnect()` (main.js:322-330). */
  function ScheduleReconnect(s: AgentState): AgentState {
    if s.relayReconnectTimer.Some? then s
    else s.(relayReconnectTimer := Some(s.nextTimer), armedReconnect := s.armedReconnect + {s.nextTimer}, nextTimer := s.nextTimer + 1)
  }

  /** `relayWs.close(); relayWs = null;` */
  function CloseCurrent(s: AgentState): AgentState {
    if s.relayWs.Some? && s.relayWs.value < |s.sockets| then
      WithSocketState(s, s.relayWs.value, RequestClose(s.sockets[s.relayWs.value].state)).(relayWs := None)
    else s.(relayWs := None)
  }

  // --------------------------------------------------------------- handlers

  /**
   * `connectToRelay()` (main.js:157-219); `created` says whether the
   * WebSocket constructor returned or threw.
   */
  function ConnectToRelay(s: AgentState, created: bool): AgentState {
    if s.store.companyId == "" then UpdateStatus(s, SetConnected(false))
    else
      var t := if s.relayWs.Some? then CloseCurrent(s) else s;
      if created then
        var sock := Socket(s.store.serverUrl + "/ws/print-agent", s.store.authToken, s.store.companyId, Connecting);
        t.(sockets := t.sockets + [sock], relayWs := Some(|t.sockets|))
      else ScheduleReconnect(t)
  }

  /** The socket's `open` handler (main.js:178-193). */
  function OnOpen(s: AgentState, id: nat): AgentState
    requires id < |s.sockets|
  {
    var sock := s.sockets[id];
    var t := WithSocketState(s, id, Open);
    var u := Send(t, Auth(sock.token, sock.companyId, t.agentId, t.deviceName));
    StartHeartbeat(UpdateStatus(u, SetConnected(true)))
  }

  /** The socket's `close` handler (main.js:204-209), after the socket reached CLOSED. */
  function OnClose(s: AgentState, id: nat): AgentState
    requires id < |s.sockets|
  {
    var t := WithSocketState(s, id, Closed);
    ScheduleReconnect(StopHeartbeat(UpdateStatus(t, SetConnected(false))))
  }

  /** The socket's `error` handler (main.js:211-214); the socket itself goes to CLOSING. */
  function OnError(s: AgentState, id: nat): AgentState
    requires id < |s.sockets|
  {
    var t := WithSocketState(s, id, RequestClose(s.sockets[id].state));
    UpdateStatus(t, SetConnected(false))
  }

  /** `handleRelayMessage(message)` (main.js:221-244), reached from the `message` handler. */
  function HandleRelayMessage(s: AgentState, m: Inbound): AgentState {
    match m
    case PrintJobMsg(job) => if job.Some? then HandlePrintJob(s, job.value) else s
    case Ping => Send(s, Pong)
    case _ => s
  }

  /**
   * The synchronous part of `handlePrintJob(job)` (main.js:246-253): count the
   * job, report `printing`, and decide printTicket's outcome up to its first
   * `await`. The job then waits, under ticket `nextTicket`, for SettleJob.
   */
  function HandlePrintJob(s: AgentState, job: Job): AgentState {
    var t := UpdateStatus(s, SetPendingJobs(s.currentStatus.pendingJobs + 1));
    var u := SendJobStatus(t, job.id, Printing);
    var outcome := PrintTicket(u.store.printerName, job.payload);
    u.(jobs := u.jobs[u.nextTicket := PendingJob(job.id, outcome)],
       nextTicket := u.nextTicket + 1,
       lifecycle := u.lifecycle + [[Printing]])
  }

  /** The rest of `handlePrintJob` once printTicket's promise settles (main.js:255-267). */
  function SettleJob(s: AgentState, ticket: nat): AgentState
    requires ticket in s.jobs
  {
    var job := s.jobs[ticket];
    var st := Terminal(job.outcome);
    var t := SendJobStatus(s, job.jobId, st);
    var u := t.(jobs := t.jobs - {ticket},
                lifecycle := if ticket < |t.lifecycle| then t.lifecycle[ticket := t.lifecycle[ticket] + [st]] else t.lifecycle);
    UpdateStatus(u, SetPendingJobs(Max0(u.currentStatus.pendingJobs - 1)))
  }

  function Max0(n: int): int { if n < 0 then 0 else n }

  /** One tick of the heartbeat interval (main.js:300-311); `now` is the tick's ISO timestamp. */
  function HeartbeatTick(s: AgentState, now: string): AgentState {
    if CurrentOpen(s) then
      var hb := Heartbeat(s.agentId, HeartbeatStatus(s.currentStatus.printerReady), s.currentStatus.printerName);
      UpdateStatus(Send(s, hb), SetLastHeartbeat(now))
    else s
  }

  /** The reconnect timeout firing (main.js:326-329): clear the handle, then connect. */
  function ReconnectTick(s: AgentState, timer: nat, created: bool): AgentState {
    var t := s.(relayReconnectTimer := None, armedReconnect := s.armedReconnect - {timer});
    ConnectToRelay(t, created)
  }

  /** The `disconnect` handler (main.js:373-381). */
  function Disconnect(s: AgentState): AgentState {
    var t := if s.relayWs.Some? then CloseCurrent(s) else s;
    UpdateStatus(StopHeartbeat(t), SetConnected(false))
  }

  /** The `save-config` handler (main.js:348-358). */
  function SaveConfig(s: AgentState, serverUrl: string, companyId: string, printerName: string, autoConnect: bool): AgentState {
    var t := s.(store := s.store.(serverUrl := serverUrl, companyId := companyId, printerName := printerName, autoConnect := autoConnect));
    UpdateStatus(t, SetPrinter(printerName))
  }

  /** `registerAgent()` (main.js:114-155): on success store the token and the agent id. */
  function RegisterAgent(s: AgentState, outcome: FetchOutcome): AgentState {
    match Registration(s.store.companyId, outcome)
    case None => s
    case Some(a) => s.(store := s.store.(authToken := a.authToken), agentId := Some(a.id))
  }

  /** The `connect` handler (main.js:364-371). */
  function Connect(s: AgentState, outcome: FetchOutcome, created: bool): AgentState {
    var t := RegisterAgent(s, outcome);
    if Registration(s.store.companyId, outcome).Some? then ConnectToRelay(t, created) else t
  }

  /** Start-up (main.js:402-414): publish the printer status, then auto-connect if configured. */
  function Start(s: AgentState, outcome: FetchOutcome, created: bool): AgentState {
    var t := UpdateStatus(s, SetPrinter(s.store.printerName));
    if t.store.autoConnect && t.store.companyId != "" then Connect(t, outcome, created) else t
  }
}

/**
 * The events the JavaScript runtime can deliver to the agent, the invariant
 * of the state machine of module Link, and the proofs that every handler,
 * and so every sequence of events, keeps it.
 */
module LinkProperties {
  import opened Wrappers
  import opened Protocol
  import opened Link

  // ---------------------------------------------------------------- events

  datatype Event =
    | ConfigSaved(serverUrl: string, companyId: string, printerName: string, autoConnect: bool)
    | ConnectRequested(outcome: FetchOutcome, created: bool)
    | DisconnectRequested
    | SocketOpened(socket: nat)
    | SocketMessage(socket: nat, msg: Inbound)
    | SocketClosed(socket: nat)
    | SocketErrored(socket: nat)
    | HeartbeatFired(timer: nat, now: string)
    | ReconnectFired(timer: nat, created: bool)
    | JobSettled(ticket: nat)

  /** When the runtime can deliver an event. */
  predicate Enabled(s: AgentState, e: Event) {
    match e
    case SocketOpened(id) => id < |s.sockets| && s.sockets[id].state == Connecting
    case SocketMessage(id, _) => id < |s.sockets| && (s.sockets[id].state == Open || s.sockets[id].state == Closing)
    case SocketClosed(id) => id < |s.sockets| && s.sockets[id].state != Closed
    case SocketErrored(id) => id < |s.sockets| && s.sockets[id].state != Closed
    case HeartbeatFired(timer, _) => timer in s.armedHeartbeat
    case ReconnectFired(timer, _) => timer in s.armedReconnect
    case JobSettled(ticket) => ticket in s.jobs
    case _ => true
  }

  function Step(s: AgentState, e: Event): AgentState
    requires Enabled(s, e)
  {
    match e
    case ConfigSaved(url, company, printer, auto) => SaveConfig(s, url, company, printer, auto)
    case ConnectRequested(outcome, created) => Connect(s, outcome, created)
    case DisconnectRequested => Disconnect(s)
    case SocketOpened(id) => OnOpen(s, id)
    case SocketMessage(_, m) => HandleRelayMessage(s, m)
    case SocketClosed(id) => OnClose(s, id)
    case SocketErrored(id) => OnError(s, id)
    case HeartbeatFired(_, now) => HeartbeatTick(s, now)
    case ReconnectFired(timer, created) => ReconnectTick(s, timer, created)
    case JobSettled(ticket) => SettleJob(s, ticket)
  }

  /** Any sequence of events, one handler at a time; an event that cannot happen is skipped. */
  function Run(s: AgentState, es: seq<Event>): AgentState
    decreases |es|
  {
    if es == [] then s
    else Run(if Enabled(s, es[0]) then Step(s, es[0]) else s, es[1..])
  }

  // ------------------------------------------------------------- invariant

  /** Every socket other than the one relayWs refers to has been closed or is closing. */
  ghost predicate SocketsInv(s: AgentState) {
    && (s.relayWs.Some? ==> s.relayWs.value < |s.sockets|)
    && forall i :: 0 <= i < |s.sockets| && Live(s.sockets[i].state) ==> s.relayWs == Some(i)
  }

  /** The runtime runs exactly the timers the two handles refer to. */
  ghost predicate TimersInv(s: AgentState) {
    s.armedHeartbeat == Ids(s.heartbeatTimer) && s.armedReconnect == Ids(s.relayReconnectTimer)
  }

  /**
   * A job's `sendJobStatus` calls: `printing`, then at most one terminal
   * status. A call is recorded even when the socket is not open and nothing
   * goes out.
   */
  predicate Trace(tr: seq<JobStatus>) {
    tr == [Printing] || (|tr| == 2 && tr[0] == Printing && tr[1] != Printing)
  }

  /** The job counter counts the in-flight jobs, and exactly those still await their terminal report. */
  ghost predicate JobsInv(s: AgentState) {
    && s.currentStatus.pendingJobs == |s.jobs|
    && |s.lifecycle| == s.nextTicket
    && (forall t :: t in s.jobs ==> t < s.nextTicket)
    && (forall t :: 0 <= t < |s.lifecycle| ==> Trace(s.lifecycle[t]))
    && (forall t :: 0 <= t < |s.lifecycle| ==> (t in s.jobs <==> |s.lifecycle[t]| == 1))
  }

  /** Nothing was ever sent on a socket that had not opened. */
  ghost predicate OutboxInv(s: AgentState) {
    forall k :: 0 <= k < |s.outbox| ==> s.outbox[k].socket < |s.sockets| && s.sockets[s.outbox[k].socket].state != Connecting
  }

  ghost predicate Inv(s: AgentState) {
    SocketsInv(s) && TimersInv(s) && JobsInv(s) && OutboxInv(s)
  }

  lemma InitialInv(deviceName: string, store: Config)
    ensures Inv(Initial(deviceName, store))
  {
  }

  // ---------------------------------------------- the helpers keep it

  lemma UpdateStatusKeepsInv(s: AgentState, u: StatusUpdate)
    requires Inv(s) && u.pendingJobs.None?
    ensures Inv(UpdateStatus(s, u))
  {
  }

  lemma SendKeepsInv(s: AgentState, m: OutMsg)
    requires Inv(s)
    ensures Inv(Send(s, m))
  {
  }

  lemma CloseCurrentKeepsInv(s: AgentState)
    requires Inv(s)
    ensures Inv(CloseCurrent(s)) && CloseCurrent(s).relayWs.None?
    ensures forall i :: 0 <= i < |CloseCurrent(s).sockets| ==> !Live(CloseCurrent(s).sockets[i].state)
  {
    var r := CloseCurrent(s);
    forall k | 0 <= k < |r.outbox|
      ensures r.outbox[k].socket < |r.sockets| && r.sockets[r.outbox[k].socket].state != Connecting
    {
      assert s.outbox[k].socket < |s.sockets|;
    }
  }

  lemma TimersKeepInv(s: AgentState)
    requires Inv(s)
    ensures Inv(StopHeartbeat(s)) && Inv(StartHeartbeat(s)) && Inv(ScheduleReconnect(s))
  {
  }

  // ---------------------------------------------- the handlers keep it

  lemma ConnectToRelayKeepsInv(s: AgentState, created: bool)
    requires Inv(s)
    ensures Inv(ConnectToRelay(s, created))
  {
    if s.store.companyId != "" {
      var t := if s.relayWs.Some? then CloseCurrent(s) else s;
      if s.relayWs.Some? { CloseCurrentKeepsInv(s); }
      TimersKeepInv(t);
    }
  }

  lemma OnOpenKeepsInv(s: AgentState, id: nat)
    requires Inv(s) && Enabled(s, SocketOpened(id))
    ensures Inv(OnOpen(s, id))
  {
    var t := WithSocketState(s, id, Open);
    assert Inv(t);
    var u := Send(t, Auth(s.sockets[id].token, s.sockets[id].companyId, t.agentId, t.deviceName));
    TimersKeepInv(UpdateStatus(u, SetConnected(true)));
  }

  lemma OnCloseKeepsInv(s: AgentState, id: nat)
    requires Inv(s) && Enabled(s, SocketClosed(id))
    ensures Inv(OnClose(s, id))
  {
    var t := WithSocketState(s, id, Closed);
    assert Inv(t);
    var u := StopHeartbeat(UpdateStatus(t, SetConnected(false)));
    TimersKeepInv(UpdateStatus(t, SetConnected(false)));
    TimersKeepInv(u);
  }

  lemma OnErrorKeepsInv(s: AgentState, id: nat)
    requires Inv(s) && Enabled(s, SocketErrored(id))
    ensures Inv(OnError(s, id))
  {
    var t := WithSocketState(s, id, RequestClose(s.sockets[id].state));
    assert Inv(t);
  }

  /** Recording a new in-flight job under the next ticket restores the job counter's invariant. */
  lemma AdmitJobKeepsInv(u: AgentState, p: PendingJob)
    requires SocketsInv(u) && TimersInv(u) && OutboxInv(u)
    requires JobsInv(u.(currentStatus := u.currentStatus.(pendingJobs := u.currentStatus.pendingJobs - 1)))
    ensures Inv(u.(jobs := u.jobs[u.nextTicket := p], nextTicket := u.nextTicket + 1, lifecycle := u.lifecycle + [[Printing]]))
  {
    var r := u.(jobs := u.jobs[u.nextTicket := p], nextTicket := u.nextTicket + 1, lifecycle := u.lifecycle + [[Printing]]);
    assert SocketsInv(r) && TimersInv(r) && OutboxInv(r);
    assert |r.jobs| == |u.jobs| + 1 by { assert u.nextTicket !in u.jobs; }
    assert forall t :: 0 <= t < |r.lifecycle| ==> Trace(r.lifecycle[t]) by {
      forall t | 0 <= t < |r.lifecycle| ensures Trace(r.lifecycle[t]) {
        if t < |u.lifecycle| { assert r.lifecycle[t] == u.lifecycle[t]; }
      }
    }
    assert forall t :: 0 <= t < |r.lifecycle| ==> (t in r.jobs <==> |r.lifecycle[t]| == 1) by {
      forall t | 0 <= t < |r.lifecycle| ensures (t in r.jobs <==> |r.lifecycle[t]| == 1) {
        if t < |u.lifecycle| { assert r.lifecycle[t] == u.lifecycle[t]; }
      }
    }
    assert forall t :: t in r.jobs ==> t < r.nextTicket;
  }

  lemma HandlePrintJobKeepsInv(s: AgentState, job: Job)
    requires Inv(s)
    ensures Inv(HandlePrintJob(s, job))
  {
    var t := UpdateStatus(s, SetPendingJobs(s.currentStatus.pendingJobs + 1));
    var u := SendJobStatus(t, job.id, Printing);
    assert u.(currentStatus := u.currentStatus.(pendingJobs := u.currentStatus.pendingJobs - 1)) == SendJobStatus(s, job.id, Printing);
    AdmitJobKeepsInv(u, PendingJob(job.id, PrintTicket(u.store.printerName, job.payload)));
  }

  lemma HandleRelayMessageKeepsInv(s: AgentState, m: Inbound)
    requires Inv(s)
    ensures Inv(HandleRelayMessage(s, m))
  {
    if m.PrintJobMsg? && m.job.Some? { HandlePrintJobKeepsInv(s, m.job.value); }
  }

  lemma SettleJobKeepsInv(s: AgentState, ticket: nat)
    requires Inv(s) && ticket in s.jobs
    ensures Inv(SettleJob(s, ticket))
  {
    var job := s.jobs[ticket];
    var t := SendJobStatus(s, job.jobId, Terminal(job.outcome));
    var r := SettleJob(s, ticket);
    assert r.jobs.Keys == t.jobs.Keys - {ticket};
    assert |r.jobs| == |t.jobs| - 1;
    assert Trace(r.lifecycle[ticket]);
  }

  lemma HeartbeatTickKeepsInv(s: AgentState, now: string)
    requires Inv(s)
    ensures Inv(HeartbeatTick(s, now))
  {
  }

  lemma ReconnectTickKeepsInv(s: AgentState, timer: nat, created: bool)
    requires Inv(s) && timer in s.armedReconnect
    ensures Inv(ReconnectTick(s, timer, created))
  {
    var t := s.(relayReconnectTimer := None, armedReconnect := s.armedReconnect - {timer});
    assert Inv(t);
    ConnectToRelayKeepsInv(t, created);
  }

  lemma DisconnectKeepsInv(s: AgentState)
    requires Inv(s)
    ensures Inv(Disconnect(s))
  {
    if s.relayWs.Some? { CloseCurrentKeepsInv(s); TimersKeepInv(CloseCurrent(s)); } else { TimersKeepInv(s); }
  }

  lemma SaveConfigKeepsInv(s: AgentState, serverUrl: string, companyId: string, printerName: string, autoConnect: bool)
    requires Inv(s)
    ensures Inv(SaveConfig(s, serverUrl, companyId, printerName, autoConnect))
  {
  }

  lemma ConnectKeepsInv(s: AgentState, outcome: FetchOutcome, created: bool)
    requires Inv(s)
    ensures Inv(RegisterAgent(s, outcome)) && Inv(Connect(s, outcome, created))
  {
    ConnectToRelayKeepsInv(RegisterAgent(s, outcome), created);
  }

  lemma StartKeepsInv(s: AgentState, outcome: FetchOutcome, created: bool)
    requires Inv(s)
    ensures Inv(Start(s, outcome, created))
  {
    ConnectKeepsInv(UpdateStatus(s, SetPrinter(s.store.printerName)), outcome, created);
  }

  /** Every handler keeps the invariant. */
  lemma StepKeepsInv(s: AgentState, e: Event)
    requires Inv(s) && Enabled(s, e)
    ensures Inv(Step(s, e))
  {
    match e
    case ConfigSaved(url, company, printer, auto) => SaveConfigKeepsInv(s, url, company, printer, auto);
    case ConnectRequested(outcome, created) => ConnectKeepsInv(s, outcome, created);
    case DisconnectRequested => DisconnectKeepsInv(s);
    case SocketOpened(id) => OnOpenKeepsInv(s, id);
    case SocketMessage(_, m) => HandleRelayMessageKeepsInv(s, m);
    case SocketClosed(id) => OnCloseKeepsInv(s, id);
    case SocketErrored(id) => OnErrorKeepsInv(s, id);
    case HeartbeatFired(_, now) => HeartbeatTickKeepsInv(s, now);
    case ReconnectFired(timer, created) => ReconnectTickKeepsInv(s, timer, created);
    case JobSettled(ticket) => SettleJobKeepsInv(s, ticket);
  }

  /** Over any sequence of events the invariant holds. */
  lemma {:induction false} RunKeepsInv(s: AgentState, es: seq<Event>)
    requires Inv(s)
    ensures Inv(Run(s, es))
    decreases |es|
  {
    if es != [] {
      var t := if Enabled(s, es[0]) then Step(s, es[0]) else s;
      if Enabled(s, es[0]) { StepKeepsInv(s, es[0]); }
      RunKeepsInv(t, es[1..]);
    }
  }
}

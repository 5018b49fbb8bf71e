/**
 * The agent of main.js as one object: its fields are the module-level
 * variables of main.js plus what the JavaScript runtime holds for them, and
 * each method is one handler, run to completion. Every method is proved to
 * do what the corresponding function of module Link says, and to keep the
 * invariant of module LinkProperties.
 */
module PrintAgent {
  import opened Wrappers
  import opened Protocol
  import Text
  import Link
  import L = LinkProperties

  class Agent {
    /** `os.hostname()`, fixed for the life of the process. */
    const deviceName: string
    /** The electron-store record. */
    var store: Config
    var agentId: Option<string>
    var currentStatus: Status
    /** `relayWs`, as an index into `sockets`. */
    var relayWs: Option<nat>
    var relayReconnectTimer: Option<nat>
    var heartbeatTimer: Option<nat>

    // The runtime's side: every socket created, the timers still armed,
    // the frames sent, and the jobs whose printTicket promise is pending.
    var sockets: seq<Link.Socket>
    var armedReconnect: set<nat>
    var armedHeartbeat: set<nat>
    var nextTimer: nat
    var outbox: seq<Link.Outgoing>
    var jobs: map<nat, Link.PendingJob>
    var nextTicket: nat
    ghost var lifecycle: seq<seq<JobStatus>>

    ghost function State(): Link.AgentState
      reads this
    {
      Link.AgentState(deviceName, store, agentId, currentStatus, relayWs, sockets,
        relayReconnectTimer, heartbeatTimer, armedReconnect, armedHeartbeat, nextTimer,
        outbox, jobs, nextTicket, lifecycle)
    }

    ghost predicate Valid()
      reads this
    {
      L.Inv(State())
    }

    /** The agent as main.js starts it, with the configuration the store holds. */
    constructor (deviceName: string, store: Config)
      ensures State() == Link.Initial(deviceName, store) && Valid()
    {
      this.deviceName := deviceName;
      this.store := store;
      agentId := None;
      currentStatus := InitialStatus;
      relayWs := None;
      relayReconnectTimer := None;
      heartbeatTimer := None;
      sockets := [];
      armedReconnect := {};
      armedHeartbeat := {};
      nextTimer := 0;
      outbox := [];
      jobs := map[];
      nextTicket := 0;
      lifecycle := [];
    }

    /** `relayWs && relayWs.readyState === WebSocket.OPEN`. */
    predicate IsOpen()
      reads this
    {
      relayWs.Some? && relayWs.value < |sockets| && sockets[relayWs.value].state == Link.Open
    }

    // ------------------------------------------------------------ helpers

    method UpdateStatus(u: StatusUpdate)
      modifies this
      ensures State() == Link.UpdateStatus(old(State()), u)
    {
      currentStatus := Merge(currentStatus, u);
    }

    /** `relayWs.send(frame)`: the transport takes the frame only while the socket is open. */
    method Send(m: OutMsg)
      modifies this
      ensures State() == Link.Send(old(State()), m)
    {
      if IsOpen() {
        outbox := outbox + [Link.Outgoing(relayWs.value, m)];
      }
    }

    method SendJobStatus(jobId: string, st: JobStatus)
      modifies this
      ensures State() == Link.SendJobStatus(old(State()), jobId, st)
    {
      if !IsOpen() {
        return;
      }
      Send(JobStatusMsg(jobId, st));
    }

    method StopHeartbeat()
      modifies this
      ensures State() == Link.StopHeartbeat(old(State()))
    {
      if heartbeatTimer.Some? {
        armedHeartbeat := armedHeartbeat - {heartbeatTimer.value};
        heartbeatTimer := None;
      }
    }

    method StartHeartbeat()
      modifies this
      ensures State() == Link.StartHeartbeat(old(State()))
    {
      StopHeartbeat();
      var id := nextTimer;
      nextTimer := nextTimer + 1;
      armedHeartbeat := armedHeartbeat + {id};
      heartbeatTimer := Some(id);
    }

    method ScheduleReconnect()
      modifies this
      ensures State() == Link.ScheduleReconnect(old(State()))
    {
      if relayReconnectTimer.Some? {
        return;
      }
      var id := nextTimer;
      nextTimer := nextTimer + 1;
      armedReconnect := armedReconnect + {id};
      relayReconnectTimer := Some(id);
    }

    method CloseCurrent()
      requires relayWs.Some? ==> relayWs.value < |sockets|
      modifies this
      ensures State() == Link.CloseCurrent(old(State()))
    {
      if relayWs.Some? {
        var id := relayWs.value;
        sockets := sockets[id := sockets[id].(state := Link.RequestClose(sockets[id].state))];
      }
      relayWs := None;
    }

    // ----------------------------------------------------------- handlers

    method ConnectToRelay(created: bool)
      requires Valid()
      modifies this
      ensures Valid() && State() == Link.ConnectToRelay(old(State()), created)
    {
      L.ConnectToRelayKeepsInv(State(), created);
      if store.companyId == "" {
        UpdateStatus(SetConnected(false));
        return;
      }
      if relayWs.Some? {
        CloseCurrent();
      }
      if created {
        var sock := Link.Socket(store.serverUrl + "/ws/print-agent", store.authToken, store.companyId, Link.Connecting);
        relayWs := Some(|sockets|);
        sockets := sockets + [sock];
      } else {
        ScheduleReconnect();
      }
    }

    method OnOpen(id: nat)
      requires Valid() && id < |sockets| && sockets[id].state == Link.Connecting
      modifies this
      ensures Valid() && State() == Link.OnOpen(old(State()), id)
    {
      L.OnOpenKeepsInv(State(), id);
      var sock := sockets[id];
      sockets := sockets[id := sock.(state := Link.Open)];
      Send(Auth(sock.token, sock.companyId, agentId, deviceName));
      UpdateStatus(SetConnected(true));
      StartHeartbeat();
    }

    /** The `message` handler: the frame, already parsed, goes to handleRelayMessage. */
    method OnMessage(id: nat, m: Inbound)
      requires Valid() && id < |sockets| && (sockets[id].state == Link.Open || sockets[id].state == Link.Closing)
      modifies this
      ensures Valid() && State() == Link.HandleRelayMessage(old(State()), m)
    {
      HandleRelayMessage(m);
    }

    method HandleRelayMessage(m: Inbound)
      requires Valid()
      modifies this
      ensures Valid() && State() == Link.HandleRelayMessage(old(State()), m)
    {
      L.HandleRelayMessageKeepsInv(State(), m);
      match m {
        case PrintJobMsg(job) =>
          if job.Some? {
            HandlePrintJob(job.value);
          }
        case Ping =>
          Send(Pong);
        case _ =>
      }
    }

    method HandlePrintJob(job: Job)
      requires Valid()
      modifies this
      ensures Valid() && State() == Link.HandlePrintJob(old(State()), job)
    {
      L.HandlePrintJobKeepsInv(State(), job);
      UpdateStatus(SetPendingJobs(currentStatus.pendingJobs + 1));
      SendJobStatus(job.id, Printing);
      var outcome := PrintTicket(store.printerName, job.payload);
      jobs := jobs[nextTicket := Link.PendingJob(job.id, outcome)];
      lifecycle := lifecycle + [[Printing]];
      nextTicket := nextTicket + 1;
    }

    method SettleJob(ticket: nat)
      requires Valid() && ticket in jobs
      modifies this
      ensures Valid() && State() == Link.SettleJob(old(State()), ticket)
    {
      L.SettleJobKeepsInv(State(), ticket);
      var job := jobs[ticket];
      var st := Terminal(job.outcome);
      SendJobStatus(job.jobId, st);
      jobs := jobs - {ticket};
      if ticket < |lifecycle| {
        lifecycle := lifecycle[ticket := lifecycle[ticket] + [st]];
      }
      UpdateStatus(SetPendingJobs(Link.Max0(currentStatus.pendingJobs - 1)));
    }

    /** One tick of the heartbeat interval `timer`; `now` is the tick's timestamp. */
    method HeartbeatTick(timer: nat, now: string)
      requires Valid() && timer in armedHeartbeat
      modifies this
      ensures Valid() && State() == Link.HeartbeatTick(old(State()), now)
    {
      L.HeartbeatTickKeepsInv(State(), now);
      if IsOpen() {
        Send(Heartbeat(agentId, HeartbeatStatus(currentStatus.printerReady), currentStatus.printerName));
        UpdateStatus(SetLastHeartbeat(now));
      }
    }

    /** The reconnect timeout `timer` firing. */
    method ReconnectTick(timer: nat, created: bool)
      requires Valid() && timer in armedReconnect
      modifies this
      ensures Valid() && State() == Link.ReconnectTick(old(State()), timer, created)
    {
      relayReconnectTimer := None;
      armedReconnect := armedReconnect - {timer};
      ConnectToRelay(created);
    }

    method OnClose(id: nat)
      requires Valid() && id < |sockets| && sockets[id].state != Link.Closed
      modifies this
      ensures Valid() && State() == Link.OnClose(old(State()), id)
    {
      L.OnCloseKeepsInv(State(), id);
      sockets := sockets[id := sockets[id].(state := Link.Closed)];
      UpdateStatus(SetConnected(false));
      StopHeartbeat();
      ScheduleReconnect();
    }

    method OnError(id: nat)
      requires Valid() && id < |sockets| && sockets[id].state != Link.Closed
      modifies this
      ensures Valid() && State() == Link.OnError(old(State()), id)
    {
      L.OnErrorKeepsInv(State(), id);
      sockets := sockets[id := sockets[id].(state := Link.RequestClose(sockets[id].state))];
      UpdateStatus(SetConnected(false));
    }

    method Disconnect() returns (r: IpcResult)
      requires Valid()
      modifies this
      ensures Valid() && State() == Link.Disconnect(old(State()))
      ensures r == IpcResult(true, None)
    {
      L.DisconnectKeepsInv(State());
      if relayWs.Some? {
        CloseCurrent();
      }
      StopHeartbeat();
      UpdateStatus(SetConnected(false));
      r := IpcResult(true, None);
    }

    method SaveConfig(serverUrl: string, companyId: string, printerName: string, autoConnect: bool) returns (r: IpcResult)
      requires Valid()
      modifies this
      ensures Valid() && State() == Link.SaveConfig(old(State()), serverUrl, companyId, printerName, autoConnect)
      ensures r == IpcResult(true, None)
    {
      L.SaveConfigKeepsInv(State(), serverUrl, companyId, printerName, autoConnect);
      store := store.(serverUrl := serverUrl, companyId := companyId, printerName := printerName, autoConnect := autoConnect);
      UpdateStatus(SetPrinter(printerName));
      r := IpcResult(true, None);
    }

    /**
     * `registerAgent()`, given what `fetch` produced. Returns the agent (null
     * as `None`) and the request it made (`None` when it made none).
     */
    method RegisterAgent(outcome: FetchOutcome) returns (agent: Option<Registered>, request: Option<RegisterRequest>)
      requires Valid()
      modifies this
      ensures Valid() && State() == Link.RegisterAgent(old(State()), outcome)
      ensures agent == Registration(old(store).companyId, outcome)
      ensures request == RegistrationRequest(old(store), deviceName)
    {
      L.ConnectKeepsInv(State(), outcome, false);
      if store.companyId == "" {
        agent, request := None, None;
        return;
      }
      var serverUrl := Text.HttpBase(store.serverUrl);
      request := Some(RegisterRequest("POST", serverUrl + "/api/printers/agents/register", store.companyId, deviceName, store.printerName, true, 80));
      match outcome {
        case NetworkError(_) =>
          agent := None;
        case Response(ok, _, body) =>
          if !ok || body.NotAgentJson? {
            agent := None;
          } else {
            store := store.(authToken := body.authToken);
            agentId := Some(body.id);
            agent := Some(Registered(body.id, body.authToken));
          }
      }
    }

    /** The `connect` handler. */
    method Connect(outcome: FetchOutcome, created: bool) returns (r: IpcResult)
      requires Valid()
      modifies this
      ensures Valid() && State() == Link.Connect(old(State()), outcome, created)
      ensures r.success <==> Registration(old(store).companyId, outcome).Some?
      ensures !r.success ==> r.error == Some("Registration failed")
      ensures r.success ==> r.error.None?
    {
      var agent, _ := RegisterAgent(outcome);
      if agent.Some? {
        ConnectToRelay(created);
        r := IpcResult(true, None);
      } else {
        r := IpcResult(false, Some("Registration failed"));
      }
    }

    /** Start-up: publish the printer status, then auto-connect when configured to. */
    method Start(outcome: FetchOutcome, created: bool)
      requires Valid()
      modifies this
      ensures Valid() && State() == Link.Start(old(State()), outcome, created)
    {
      L.StartKeepsInv(State(), outcome, created);
      UpdateStatus(SetPrinter(store.printerName));
      if store.autoConnect && store.companyId != "" {
        var agent, _ := RegisterAgent(outcome);
        if agent.Some? {
          ConnectToRelay(created);
        }
      }
    }

    /** The `test-print` handler: refuse without a printer, else printTicket on the test payload. */
    method TestPrint() returns (r: PrintOutcome)
      ensures r == NotPrinted(NoPrinterError) <==> store.printerName == ""
      ensures r == Printed <==> store.printerName != ""
    {
      if store.printerName == "" {
        return NotPrinted(NoPrinterError);
      }
      r := PrintTicket(store.printerName, Some("{\"type\":\"test\"}"));
    }
  }
}

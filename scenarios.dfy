/**
 * Concrete sessions of the agent, driven through the class the way the
 * runtime drives main.js: the relay's frames, the socket's events, the
 * timers and the settling of each print are the calls below, in order.
 */
module Scenarios {
  import opened Wrappers
  import opened Protocol
  import Link
  import opened PrintAgent

  const Host := "till-1"
  const Accepted := Response(true, 200, AgentJson("a1", "tok"))
  const AuthFrame := Auth("tok", "c1", Some("a1"), Host)

  function Configured(printerName: string): Config {
    Config("wss://relay.example", "c1", "", printerName, true)
  }

  /** The frames the relay received, in order. */
  function Frames(out: seq<Link.Outgoing>): (r: seq<OutMsg>)
    ensures |r| == |out|
    ensures forall i :: 0 <= i < |out| ==> r[i] == out[i].msg
  {
    if out == [] then [] else Frames(out[..|out| - 1]) + [out[|out| - 1].msg]
  }

  /**
   * Start-up with auto-connect and an accepted registration, then the
   * socket opening: the agent has sent its auth frame and is connected.
   */
  method Opened(printerName: string) returns (a: Agent)
    ensures fresh(a) && a.Valid()
    ensures a.relayWs == Some(0) && |a.sockets| == 1 && a.sockets[0].state == Link.Open
    ensures a.outbox == [Link.Outgoing(0, AuthFrame)]
    ensures a.jobs == map[] && a.nextTicket == 0 && a.relayReconnectTimer == None
    ensures a.currentStatus.connected && a.currentStatus.pendingJobs == 0
    ensures a.store == Configured(printerName).(authToken := "tok")
  {
    a := new Agent(Host, Configured(printerName));
    a.Start(Accepted, true);
    assert a.relayWs == Some(0) && |a.sockets| == 1 && a.sockets[0].state == Link.Connecting;
    assert a.sockets[0].token == "tok" && a.agentId == Some("a1") && a.outbox == [] && a.jobs == map[];
    a.OnOpen(0);
  }

  /** One job arriving on the open socket. */
  method Arrive(a: Agent, id: string)
    requires a.Valid() && a.IsOpen() && a.relayWs == Some(0)
    modifies a
    ensures a.Valid() && a.IsOpen() && a.relayWs == Some(0) && a.sockets == old(a.sockets)
    ensures a.outbox == old(a.outbox) + [Link.Outgoing(0, JobStatusMsg(id, Printing))]
    ensures a.jobs == old(a.jobs)[old(a.nextTicket) := Link.PendingJob(id, PrintTicket(a.store.printerName, Some("ticket")))]
    ensures a.nextTicket == old(a.nextTicket) + 1 && a.store == old(a.store)
    ensures a.currentStatus == old(a.currentStatus).(pendingJobs := old(a.currentStatus.pendingJobs) + 1)
    ensures a.relayReconnectTimer == old(a.relayReconnectTimer)
  {
    a.OnMessage(0, PrintJobMsg(Some(Job(id, Some("ticket")))));
  }

  /**
   * One job printed end to end: the relay sees the auth frame, then
   * printing, then completed, and nothing is left pending.
   */
  method PrintOneJob() returns (sent: seq<OutMsg>, connected: bool, pending: int)
    ensures sent == [AuthFrame, JobStatusMsg("J1", Printing), JobStatusMsg("J1", Completed)]
    ensures connected && pending == 0
  {
    var a := Opened("EPSON");
    a.OnMessage(0, AuthSuccess);
    Arrive(a, "J1");
    a.SettleJob(0);
    sent, connected, pending := Frames(a.outbox), a.currentStatus.connected, a.currentStatus.pendingJobs;
  }

  /** Without a printer the job is reported printing, then failed with the refusal's message. */
  method PrintWithoutPrinter() returns (sent: seq<OutMsg>)
    ensures sent == [AuthFrame, JobStatusMsg("J1", Printing), JobStatusMsg("J1", Failed(NoPrinterError))]
  {
    var a := Opened("");
    Arrive(a, "J1");
    a.SettleJob(0);
    sent := Frames(a.outbox);
  }

  /** One job arrives on the open socket and is still printing. */
  method OneJobInFlight() returns (a: Agent)
    ensures fresh(a) && a.Valid() && a.IsOpen() && a.relayWs == Some(0) && a.relayReconnectTimer == None
    ensures a.outbox == [Link.Outgoing(0, AuthFrame), Link.Outgoing(0, JobStatusMsg("J1", Printing))]
    ensures a.currentStatus.pendingJobs == 1 && a.jobs.Keys == {0} && a.nextTicket == 1
  {
    a := Opened("EPSON");
    Arrive(a, "J1");
  }

  /** A second job arrives, and the socket closes before either settles. */
  method ClosedWithTwoJobs() returns (a: Agent)
    ensures fresh(a) && a.Valid() && !a.IsOpen() && a.relayReconnectTimer.Some?
    ensures a.outbox == [Link.Outgoing(0, AuthFrame), Link.Outgoing(0, JobStatusMsg("J1", Printing)), Link.Outgoing(0, JobStatusMsg("J2", Printing))]
    ensures a.currentStatus.pendingJobs == 2 && a.jobs.Keys == {0, 1}
  {
    a := OneJobInFlight();
    Arrive(a, "J2");
    a.OnClose(0);
  }

  /**
   * Jobs still printing when the socket closes: their terminal reports are
   * lost, and the pending count still returns to zero.
   */
  method JobsOutliveTheSocket() returns (sent: seq<OutMsg>, pending: int, reconnecting: bool)
    ensures sent == [AuthFrame, JobStatusMsg("J1", Printing), JobStatusMsg("J2", Printing)]
    ensures pending == 0 && reconnecting
  {
    var a := ClosedWithTwoJobs();
    a.SettleJob(1);
    a.SettleJob(0);
    sent, pending, reconnecting := Frames(a.outbox), a.currentStatus.pendingJobs, a.relayReconnectTimer.Some?;
  }

  /**
   * The user disconnects; the close event of the socket that was torn down
   * then arms a reconnect, so the agent comes back by itself.
   */
  method DisconnectDoesNotStick() returns (r: IpcResult, connectedAfter: bool, socketsAfter: int)
    ensures r == IpcResult(true, None)
    ensures !connectedAfter && socketsAfter == 2
  {
    var a := Opened("EPSON");
    r := a.Disconnect();
    var again := a.Disconnect();
    a.OnClose(0);
    var timer := a.relayReconnectTimer.value;
    a.ReconnectTick(timer, true);
    connectedAfter, socketsAfter := a.currentStatus.connected, |a.sockets|;
  }

  /** auth_error, an unknown type and an unparsable frame leave the agent as it was. */
  method IgnoredFrames() returns (same: bool)
    ensures same
  {
    var a := Opened("EPSON");
    var before := a.outbox;
    var status := a.currentStatus;
    a.OnMessage(0, AuthError("bad token"));
    a.OnMessage(0, Unknown("status"));
    a.OnMessage(0, Unparsable);
    same := a.outbox == before && a.currentStatus == status;
  }

  /** A connect with a rejected registration reports failure and opens no socket. */
  method RejectedRegistration() returns (r: IpcResult, sockets: int)
    ensures r == IpcResult(false, Some("Registration failed")) && sockets == 0
  {
    var a := new Agent(Host, Configured("EPSON"));
    r := a.Connect(Response(false, 401, NotAgentJson), true);
    sockets := |a.sockets|;
  }
}

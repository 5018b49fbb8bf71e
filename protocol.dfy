/**
 * Values the agent exchanges with its persistent store, the relay and the
 * registration endpoint, with the small pure decisions of main.js: the
 * status merge, printTicket's outcome, the heartbeat status and the
 * registration result.
 */
module Protocol {
  import opened Wrappers
  import Text

  /** The persisted configuration record (main.js:32-40). */
  datatype Config = Config(
    serverUrl: string,
    companyId: string,
    authToken: string,
    printerName: string,
    autoConnect: bool)

  const DefaultConfig := Config("wss://manage.eventfouryou.com", "", "", "", true)

  /** `currentStatus` (main.js:51-57); `pendingJobs` is a JavaScript number, so an int. */
  datatype Status = Status(
    connected: bool,
    printerReady: bool,
    printerName: Option<string>,
    lastHeartbeat: Option<string>,
    pendingJobs: int)

  const InitialStatus := Status(false, false, None, None, 0)

  /** The object passed to `updateStatus`: a field is present exactly when it is `Some`. */
  datatype StatusUpdate = StatusUpdate(
    connected: Option<bool>,
    printerReady: Option<bool>,
    printerName: Option<Option<string>>,
    lastHeartbeat: Option<Option<string>>,
    pendingJobs: Option<int>)

  const NoChange := StatusUpdate(None, None, None, None, None)

  function SetConnected(b: bool): StatusUpdate { NoChange.(connected := Some(b)) }
  function SetPendingJobs(n: int): StatusUpdate { NoChange.(pendingJobs := Some(n)) }
  function SetLastHeartbeat(now: string): StatusUpdate { NoChange.(lastHeartbeat := Some(Some(now))) }

  /** The printer part of the status, as save-config and start-up set it (`printerReady = !!printerName`). */
  function SetPrinter(printerName: string): StatusUpdate {
    NoChange.(printerName := Some(Some(printerName)), printerReady := Some(printerName != ""))
  }

  function Pick<T>(present: Option<T>, current: T): T {
    if present.Some? then present.value else current
  }

  /** `Object.assign(currentStatus, updates)`. */
  function Merge(s: Status, u: StatusUpdate): Status {
    Status(
      Pick(u.connected, s.connected),
      Pick(u.printerReady, s.printerReady),
      Pick(u.printerName, s.printerName),
      Pick(u.lastHeartbeat, s.lastHeartbeat),
      Pick(u.pendingJobs, s.pendingJobs))
  }

  /** The fields of a status, for stating field-wise properties of the merge. */
  datatype Field = Connected | PrinterReady | PrinterName | LastHeartbeat | PendingJobs

  predicate Present(u: StatusUpdate, f: Field) {
    match f
    case Connected => u.connected.Some?
    case PrinterReady => u.printerReady.Some?
    case PrinterName => u.printerName.Some?
    case LastHeartbeat => u.lastHeartbeat.Some?
    case PendingJobs => u.pendingJobs.Some?
  }

  /** Field `f` of `s` holds the value the update carries for it. */
  predicate Carries(s: Status, u: StatusUpdate, f: Field)
    requires Present(u, f)
  {
    match f
    case Connected => s.connected == u.connected.value
    case PrinterReady => s.printerReady == u.printerReady.value
    case PrinterName => s.printerName == u.printerName.value
    case LastHeartbeat => s.lastHeartbeat == u.lastHeartbeat.value
    case PendingJobs => s.pendingJobs == u.pendingJobs.value
  }

  predicate SameField(s: Status, t: Status, f: Field) {
    match f
    case Connected => s.connected == t.connected
    case PrinterReady => s.printerReady == t.printerReady
    case PrinterName => s.printerName == t.printerName
    case LastHeartbeat => s.lastHeartbeat == t.lastHeartbeat
    case PendingJobs => s.pendingJobs == t.pendingJobs
  }

  /** The merge overwrites exactly the fields present in the update and keeps every other field. */
  lemma MergeOverwritesExactlyPresent(s: Status, u: StatusUpdate)
    ensures forall f :: Present(u, f) ==> Carries(Merge(s, u), u, f)
    ensures forall f :: !Present(u, f) ==> SameField(Merge(s, u), s, f)
  {
  }

  /** An empty update changes nothing; applying an update twice is applying it once. */
  lemma MergeIdentityAndIdempotent(s: Status, u: StatusUpdate)
    ensures Merge(s, NoChange) == s
    ensures Merge(Merge(s, u), u) == Merge(s, u)
  {
  }

  /** Field-wise union of two updates, the later one winning. */
  function Combine(first: StatusUpdate, second: StatusUpdate): StatusUpdate {
    StatusUpdate(
      if second.connected.Some? then second.connected else first.connected,
      if second.printerReady.Some? then second.printerReady else first.printerReady,
      if second.printerName.Some? then second.printerName else first.printerName,
      if second.lastHeartbeat.Some? then second.lastHeartbeat else first.lastHeartbeat,
      if second.pendingJobs.Some? then second.pendingJobs else first.pendingJobs)
  }

  /** Two successive merges are one merge of the combined update. */
  lemma MergeComposes(s: Status, first: StatusUpdate, second: StatusUpdate)
    ensures Merge(Merge(s, first), second) == Merge(s, Combine(first, second))
  {
  }

  /** A print job as it arrives in a `print_job` message's payload; `payload` is `None` when it is absent. */
  datatype Job = Job(id: string, payload: Option<string>)

  /** Inbound frames, after JSON parsing; `Unparsable` is a frame whose parse or dispatch throws. */
  datatype Inbound =
    | AuthSuccess
    | AuthError(error: string)
    | PrintJobMsg(job: Option<Job>)
    | Ping
    | Unknown(kind: string)
    | Unparsable

  /** Job statuses reported to the relay; `Failed` carries its `errorMessage`. */
  datatype JobStatus = Printing | Completed | Failed(errorMessage: string)

  /** Outbound frames; the heartbeat's `health` is its wire field `status`. */
  datatype OutMsg =
    | Auth(token: string, companyId: string, agentId: Option<string>, deviceName: string)
    | Pong
    | JobStatusMsg(jobId: string, status: JobStatus)
    | Heartbeat(agentId: Option<string>, health: string, printerName: Option<string>)

  const NoPrinterError := "No printer configured"

  /**
   * The TypeError message the JavaScript engine gives when printTicket logs
   * `JSON.stringify(payload).substring(0, 200)` for an absent payload.
   */
  const AbsentPayloadError := "Cannot read properties of undefined (reading 'substring')"

  /** What printTicket's promise settles with: `{success: true}`, `{success: false, error}`, or a rejection. */
  datatype PrintOutcome = Printed | NotPrinted(error: string) | Threw(message: string)

  /** printTicket (main.js:270-283), decided on the configured printer name and the payload. */
  function PrintTicket(printerName: string, payload: Option<string>): (r: PrintOutcome)
    ensures r.NotPrinted? <==> printerName == ""
    ensures r.NotPrinted? ==> r.error == NoPrinterError
    ensures r == Printed <==> printerName != "" && payload.Some?
    ensures printerName != "" && payload.None? ==> r == Threw(AbsentPayloadError)
  {
    if printerName == "" then NotPrinted(NoPrinterError)
    else if payload.None? then Threw(AbsentPayloadError)
    else Printed
  }

  /** The terminal status handlePrintJob reports for a settled print (main.js:255-265). */
  function Terminal(o: PrintOutcome): JobStatus {
    match o
    case Printed => Completed
    case NotPrinted(error) => Failed(error)
    case Threw(message) => Failed(message)
  }

  /**
   * The terminal report is `failed` with "No printer configured" exactly when
   * no printer is configured, `completed` exactly when one is and the payload
   * is present, and never `printing`.
   */
  lemma TerminalReport(printerName: string, payload: Option<string>)
    ensures Terminal(PrintTicket(printerName, payload)) != Printing
    ensures Terminal(PrintTicket(printerName, payload)) == Failed(NoPrinterError) <==> printerName == ""
    ensures Terminal(PrintTicket(printerName, payload)) == Completed <==> printerName != "" && payload.Some?
  {
  }

  /** The heartbeat's status field (main.js:306). */
  function HeartbeatStatus(printerReady: bool): (r: string)
    ensures r == "online" <==> printerReady
    ensures r == "error" <==> !printerReady
  {
    if printerReady then "online" else "error"
  }

  /** The parsed body of the registration response; `NotAgentJson` stands for any body whose use throws. */
  datatype Body = AgentJson(id: string, authToken: string) | NotAgentJson

  /** What `fetch` produced: a transport failure, or a response with its `ok` flag, status and body. */
  datatype FetchOutcome = NetworkError(message: string) | Response(ok: bool, httpStatus: int, body: Body)

  datatype Registered = Registered(id: string, authToken: string)

  /** The registration request main.js:126-138 sends. */
  datatype RegisterRequest = RegisterRequest(
    httpMethod: string,
    url: string,
    companyId: string,
    deviceName: string,
    printerName: string,
    thermalPrint: bool,
    paperWidth: int)

  function RegisterUrl(serverUrl: string): string {
    Text.HttpBase(serverUrl) + "/api/printers/agents/register"
  }

  /** The request registerAgent makes, if any: none without a company id. */
  function RegistrationRequest(c: Config, deviceName: string): (r: Option<RegisterRequest>)
    ensures r.None? <==> c.companyId == ""
    ensures r.Some? ==> r.value.url == RegisterUrl(c.serverUrl) && r.value.companyId == c.companyId
    ensures r.Some? ==> r.value.httpMethod == "POST"
    ensures r.Some? ==> r.value.printerName == c.printerName && r.value.deviceName == deviceName
    ensures r.Some? ==> r.value.thermalPrint && r.value.paperWidth == 80
  {
    if c.companyId == "" then None
    else Some(RegisterRequest("POST", RegisterUrl(c.serverUrl), c.companyId, deviceName, c.printerName, true, 80))
  }

  /**
   * registerAgent's result (main.js:114-155): null without a company id, on a
   * transport error, on a non-ok response or on a body that cannot be used;
   * otherwise the agent's id and token.
   */
  function Registration(companyId: string, outcome: FetchOutcome): (r: Option<Registered>)
    ensures r.Some? <==> companyId != "" && outcome.Response? && outcome.ok && outcome.body.AgentJson?
    ensures r.Some? ==> r.value.id == outcome.body.id && r.value.authToken == outcome.body.authToken
  {
    if companyId == "" then None
    else match outcome
      case NetworkError(_) => None
      case Response(ok, _, body) =>
        if !ok then None
        else match body
          case NotAgentJson => None
          case AgentJson(id, token) => Some(Registered(id, token))
  }

  /** The result object an IPC handler resolves with. */
  datatype IpcResult = IpcResult(success: bool, error: Option<string>)
}

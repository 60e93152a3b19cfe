/**
 * The `/ticket/print` handler as an event-driven object. One `PrintJob` is
 * one request: the network device and printer it created, the timer it arms,
 * and a log of everything it did to the outside world in order (closing the
 * printer and the device, arming and clearing the timer, querying status,
 * printing, sending HTTP responses). The callbacks the driver and the timer
 * deliver are the methods `OnOpen`, `OnStatuses` and `OnTimeout`.
 */
module Handler {
  import opened Wrappers
  import opened Status
  import opened EscPos
  import opened Ticket

  /** The queue-ticket request body. */
  datatype Request = Request(
    requestId: string,
    departmentQueueId: string,
    ledId: string,
    printerIpAddress: string,
    departmentName: string,
    currentLastNumber: string,
    queueLength: Option<int>)

  /** The `error` member of a failure response: an object, or the timeout's bare string. */
  datatype ErrorBody = Classified(message: string, errorType: string) | Plain(text: string)

  /** The response body: the echoed identifiers, plus `error` on failure. */
  datatype Body = Body(requestId: string, departmentQueueId: string, ledId: string, error: Option<ErrorBody>)

  datatype Response = Response(status: int, body: Body)

  /** What went wrong, if anything, in the synchronous part of the open callback's try block. */
  datatype Setup = SetupOk | TimerThrows | QueryThrows

  /** One observable action of the handler. */
  datatype Effect =
    | ClosePrinter
    | CloseDevice
    | ArmTimer
    | ClearTimer
    | QueryStatuses
    | Print(commands: seq<Command>)
    | Send(response: Response)

  const OfflineMessage := "Impossibile connettersi alla stampante, non è connessa ad internet, manca la connessione o l'indirizzo IP è errato"
  const TimeoutMessage := "La stampante è connessa ma è impossibile accedere allo stato della stampante"
  const PrintFailedMessage := "Impossibile stampare il biglietto"

  const Offline := Classified(OfflineMessage, "OfflineCauseStatus")
  const PrinterError := Classified(PrintFailedMessage, "PrinterError")

  /** The response object built before the device is opened. */
  function Echo(req: Request): Body {
    Body(req.requestId, req.departmentQueueId, req.ledId, None)
  }

  /** `{ ...response, error: e }` */
  function WithError(req: Request, e: ErrorBody): Body {
    Echo(req).(error := Some(e))
  }

  /** The ticket printed for a request. */
  function TicketFor(req: Request): seq<Command> {
    QueueTicket(req.departmentName, req.currentLastNumber, req.queueLength)
  }

  /** The `res.send` attempts in a log, in order; Express delivers only the first to the client. */
  function Responses(log: seq<Effect>): (r: seq<Response>)
    ensures |r| <= |log|
    ensures forall k :: 0 <= k < |r| ==> Send(r[k]) in log
    decreases |log|
  {
    if log == [] then []
    else Responses(log[..|log| - 1]) + (if log[|log| - 1].Send? then [log[|log| - 1].response] else [])
  }

  /** How many times the log holds the effect `e` (a close, say). */
  function Occurrences(log: seq<Effect>, e: Effect): nat
    decreases |log|
  {
    if log == [] then 0 else Occurrences(log[..|log| - 1], e) + (if log[|log| - 1] == e then 1 else 0)
  }

  /** How many tickets the log prints. */
  function Prints(log: seq<Effect>): nat
    decreases |log|
  {
    if log == [] then 0 else Prints(log[..|log| - 1]) + (if log[|log| - 1].Print? then 1 else 0)
  }

  /** Everything a `PrintJob` holds, as a value. */
  datatype JobState = JobState(
    openSettled: bool,
    printerClosed: bool,
    deviceClosed: bool,
    timerArmed: bool,
    statusPending: bool,
    errors: seq<ErrorBody>,
    log: seq<Effect>)

  /** A job just created: nothing opened, armed, queried or logged. */
  function Start(): JobState {
    JobState(false, false, false, false, false, [], [])
  }

  function Emit(s: JobState, e: Effect): JobState {
    s.(log := s.log + [e])
  }

  /** `closeConnection`: close the printer, then the network device. */
  function WithConnectionClosed(s: JobState): (r: JobState)
    ensures r == s.(printerClosed := true, deviceClosed := true, log := s.log + [ClosePrinter, CloseDevice])
  {
    Emit(Emit(s, ClosePrinter).(printerClosed := true), CloseDevice).(deviceClosed := true)
  }

  function Reply(s: JobState, status: int, body: Body): JobState {
    Emit(s, Send(Response(status, body)))
  }

  /**
   * The open callback. The network driver calls it once when the connection
   * attempt ends, and again with an error for any later socket error; only an
   * error can re-enter it.
   */
  function OpenStep(s: JobState, req: Request, connectFailed: bool, setup: Setup): (r: JobState)
    requires !s.openSettled || connectFailed
    ensures r.openSettled && s.log < r.log
    ensures connectFailed ==> r.printerClosed && r.deviceClosed && r.timerArmed == s.timerArmed
    ensures !connectFailed ==> r.printerClosed == s.printerClosed && r.deviceClosed == s.deviceClosed
    ensures !connectFailed && setup != TimerThrows ==> r.timerArmed
    ensures !connectFailed && setup == SetupOk ==> r.statusPending
  {
    var s1 := s.(openSettled := true);
    if connectFailed then Reply(WithConnectionClosed(s1), 500, WithError(req, Offline))
    else match setup
      case TimerThrows => Reply(s1, 500, WithError(req, PrinterError))
      case QueryThrows => Reply(Emit(s1.(timerArmed := true), ArmTimer), 500, WithError(req, PrinterError))
      case SetupOk => Emit(Emit(s1.(timerArmed := true), ArmTimer).(statusPending := true), QueryStatuses)
  }

  /** The status callback. */
  function StatusStep(s: JobState, req: Request, mapper: SubStatus -> ErrorBody, reports: seq<StatusReport>): (r: JobState)
    requires s.statusPending
    ensures !r.statusPending && r.printerClosed && r.deviceClosed && s.log < r.log
    ensures r.errors == s.errors + Faults(reports, mapper)
    ensures r.timerArmed == (s.timerArmed && r.errors != [])
  {
    var s1 := s.(statusPending := false, errors := s.errors + Faults(reports, mapper));
    if |s1.errors| > 0 then Reply(WithConnectionClosed(s1), 500, WithError(req, s1.errors[0]))
    else Reply(Emit(WithConnectionClosed(Emit(s1, Print(TicketFor(req)))), ClearTimer).(timerArmed := false), 200, Echo(req))
  }

  /** The timer callback; a timer that was never armed or was cleared does not fire. */
  function TimeoutStep(s: JobState, req: Request): (r: JobState)
    ensures !r.timerArmed && s.log <= r.log && |r.log| <= |s.log| + 1
    ensures r.printerClosed == s.printerClosed && r.deviceClosed == s.deviceClosed
  {
    if s.timerArmed then Reply(s.(timerArmed := false), 500, WithError(req, Plain(TimeoutMessage))) else s
  }

  class PrintJob {
    const request: Request
    const errorMapper: SubStatus -> ErrorBody

    var openSettled: bool
    var printerClosed: bool
    var deviceClosed: bool
    var timerArmed: bool
    var statusPending: bool
    var errors: seq<ErrorBody>
    var log: seq<Effect>

    function State(): JobState
      reads this
    {
      JobState(openSettled, printerClosed, deviceClosed, timerArmed, statusPending, errors, log)
    }

    /** The `res.send` attempts so far. */
    function Sent(): seq<Response>
      reads this
    {
      Responses(log)
    }

    constructor (request: Request, errorMapper: SubStatus -> ErrorBody)
      ensures this.request == request && this.errorMapper == errorMapper
      ensures State() == Start()
    {
      this.request := request;
      this.errorMapper := errorMapper;
      openSettled, printerClosed, deviceClosed, timerArmed, statusPending := false, false, false, false, false;
      errors, log := [], [];
    }

    method CloseConnection()
      modifies this
      ensures State() == WithConnectionClosed(old(State()))
    {
      log := log + [ClosePrinter];
      printerClosed := true;
      log := log + [CloseDevice];
      deviceClosed := true;
    }

    method Send(status: int, body: Body)
      modifies this
      ensures State() == Reply(old(State()), status, body)
    {
      log := log + [Effect.Send(Response(status, body))];
    }

    /** The device's open callback, with `connectFailed` for a truthy `err`. */
    method OnOpen(connectFailed: bool, setup: Setup)
      requires !openSettled || connectFailed
      modifies this
      ensures State() == OpenStep(old(State()), request, connectFailed, setup)
    {
      openSettled := true;
      if connectFailed {
        CloseConnection();
        Send(500, WithError(request, Offline));
        return;
      }
      if setup == TimerThrows {
        Send(500, WithError(request, PrinterError));
        return;
      }
      timerArmed := true;
      log := log + [ArmTimer];
      if setup == QueryThrows {
        Send(500, WithError(request, PrinterError));
        return;
      }
      statusPending := true;
      log := log + [QueryStatuses];
    }

    /** The `getStatuses` callback. */
    method OnStatuses(reports: seq<StatusReport>)
      requires statusPending
      modifies this
      ensures State() == StatusStep(old(State()), request, errorMapper, reports)
    {
      statusPending := false;
      errors := errors + Faults(reports, errorMapper);
      if |errors| > 0 {
        CloseConnection();
        Send(500, WithError(request, errors[0]));
        return;
      }
      log := log + [Print(TicketFor(request))];
      CloseConnection();
      log := log + [ClearTimer];
      timerArmed := false;
      Send(200, Echo(request));
    }

    /** The 10-second timer's callback. */
    method OnTimeout()
      modifies this
      ensures State() == TimeoutStep(old(State()), request)
    {
      if timerArmed {
        timerArmed := false;
        Send(500, WithError(request, Plain(TimeoutMessage)));
      }
    }
  }
}

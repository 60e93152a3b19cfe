/**
 * What the handler does over any order in which its callbacks can arrive.
 * A run starts from a fresh job and applies events. A run delivers the open
 * callback once, as the connection attempt ends; a status callback without a
 * pending query leaves the state as it is, and a timer tick after the timer
 * was cleared or has fired does nothing. `SocketErrorAfterQueryThrows` and
 * `SocketErrorAfterSuccess` show what a later socket error, which the driver
 * also hands to the open callback, does to the bounds proved here.
 */
module Outcomes {
  import opened Status
  import opened Handler

  datatype Event = Opened(connectFailed: bool, setup: Setup) | StatusesArrived(reports: seq<StatusReport>) | TimerFired

  predicate Enabled(s: JobState, e: Event) {
    match e
    case Opened(_, _) => !s.openSettled
    case StatusesArrived(_) => s.statusPending
    case TimerFired => true
  }

  function Apply(s: JobState, req: Request, mapper: SubStatus -> ErrorBody, e: Event): (r: JobState)
    ensures |s.log| <= |r.log|
  {
    if !Enabled(s, e) then s
    else match e
      case Opened(failed, setup) => OpenStep(s, req, failed, setup)
      case StatusesArrived(reports) => StatusStep(s, req, mapper, reports)
      case TimerFired => TimeoutStep(s, req)
  }

  /** Applies the events in order; the log only ever grows. */
  function Run(s: JobState, req: Request, mapper: SubStatus -> ErrorBody, events: seq<Event>): (r: JobState)
    ensures |s.log| <= |r.log|
    decreases |events|
  {
    if events == [] then s else Run(Apply(s, req, mapper, events[0]), req, mapper, events[1..])
  }

  /** The timer's response. */
  function TimeoutResponse(req: Request): Response {
    Response(500, WithError(req, Plain(TimeoutMessage)))
  }

  /** The response carries the request's three identifiers unchanged. */
  predicate EchoesIds(r: Response, req: Request) {
    r.body.requestId == req.requestId &&
    r.body.departmentQueueId == req.departmentQueueId &&
    r.body.ledId == req.ledId
  }

  /** 1 while a callback (the open one or the status one) can still answer. */
  function CallbackOwed(s: JobState): nat {
    if !s.openSettled || s.statusPending then 1 else 0
  }

  function TimerOwed(s: JobState): nat {
    if s.timerArmed then 1 else 0
  }

  /** Every response in the log echoes the request's identifiers. */
  predicate AllEcho(log: seq<Effect>, req: Request) {
    forall k :: 0 <= k < |log| && log[k].Send? ==> EchoesIds(log[k].response, req)
  }

  /** Every ticket in the log is the request's queue ticket. */
  predicate AllTicket(log: seq<Effect>, req: Request) {
    forall k :: 0 <= k < |log| && log[k].Print? ==> log[k].commands == TicketFor(req)
  }

  /** An effect the handler may add to the log of a job for `req`. */
  predicate Allowed(e: Effect, req: Request) {
    (e.Send? ==> EchoesIds(e.response, req)) && (e.Print? ==> e.commands == TicketFor(req))
  }

  /** How many responses, closes and prints the job can still make, against what it has made. */
  predicate Budget(s: JobState) {
    |Responses(s.log)| + CallbackOwed(s) + TimerOwed(s) <= 2 &&
    (s.openSettled ==> |Responses(s.log)| >= 1 || s.statusPending || s.timerArmed) &&
    Occurrences(s.log, ClosePrinter) + CallbackOwed(s) <= 1 &&
    Occurrences(s.log, CloseDevice) == Occurrences(s.log, ClosePrinter) &&
    s.printerClosed == s.deviceClosed == (Occurrences(s.log, ClosePrinter) == 1) &&
    Prints(s.log) + CallbackOwed(s) <= 1
  }

  /** What holds of every state a run from `Start()` reaches. */
  predicate Inv(s: JobState, req: Request) {
    (!s.openSettled ==> s == Start()) &&
    (s.statusPending ==> s.errors == []) &&
    AllEcho(s.log, req) && AllTicket(s.log, req) &&
    Budget(s)
  }

  lemma LogAppend(log: seq<Effect>, e: Effect)
    ensures Responses(log + [e]) == Responses(log) + (if e.Send? then [e.response] else [])
    ensures Prints(log + [e]) == Prints(log) + (if e.Print? then 1 else 0)
  {
    assert (log + [e])[..|log|] == log;
  }

  /** Appending five effects one at a time appends them as one block. */
  lemma SnocFive<T>(x: seq<T>, a: T, b: T, c: T, d: T, e: T)
    ensures x + [a] + [b] + [c] + [d] + [e] == x + [a, b, c, d, e]
  {
    assert x + [a] + [b] + [c] + [d] + [e] == x + ([a] + [b] + [c] + [d] + [e]);
  }

  /** Appending three effects one at a time appends them as one block. */
  lemma SnocThree<T>(x: seq<T>, a: T, b: T, c: T)
    ensures x + [a] + [b] + [c] == x + [a, b, c]
  {
    assert x + [a] + [b] + [c] == x + ([a] + [b] + [c]);
  }

  lemma OccurrencesAppend(log: seq<Effect>, e: Effect)
    ensures Occurrences(log + [e], ClosePrinter) == Occurrences(log, ClosePrinter) + (if e == ClosePrinter then 1 else 0)
    ensures Occurrences(log + [e], CloseDevice) == Occurrences(log, CloseDevice) + (if e == CloseDevice then 1 else 0)
  {
    assert (log + [e])[..|log|] == log;
  }

  lemma EmitKeeps(s: JobState, e: Effect, req: Request)
    requires AllEcho(s.log, req) && AllTicket(s.log, req) && Allowed(e, req)
    ensures AllEcho(Emit(s, e).log, req) && AllTicket(Emit(s, e).log, req)
    ensures Responses(Emit(s, e).log) == Responses(s.log) + (if e.Send? then [e.response] else [])
    ensures Occurrences(Emit(s, e).log, ClosePrinter) == Occurrences(s.log, ClosePrinter) + (if e == ClosePrinter then 1 else 0)
    ensures Occurrences(Emit(s, e).log, CloseDevice) == Occurrences(s.log, CloseDevice) + (if e == CloseDevice then 1 else 0)
    ensures Prints(Emit(s, e).log) == Prints(s.log) + (if e.Print? then 1 else 0)
  {
    LogAppend(s.log, e);
    OccurrencesAppend(s.log, e);
    var log := s.log + [e];
    forall k | 0 <= k < |log| ensures Allowed(log[k], req) {
      if k < |s.log| {
        assert log[k] == s.log[k];
      }
    }
  }

  lemma CloseKeeps(s: JobState, req: Request)
    requires AllEcho(s.log, req) && AllTicket(s.log, req)
    ensures AllEcho(WithConnectionClosed(s).log, req) && AllTicket(WithConnectionClosed(s).log, req)
    ensures Responses(WithConnectionClosed(s).log) == Responses(s.log)
    ensures Occurrences(WithConnectionClosed(s).log, ClosePrinter) == Occurrences(s.log, ClosePrinter) + 1
    ensures Occurrences(WithConnectionClosed(s).log, CloseDevice) == Occurrences(s.log, CloseDevice) + 1
    ensures Prints(WithConnectionClosed(s).log) == Prints(s.log)
  {
    var s1 := Emit(s, ClosePrinter).(printerClosed := true);
    EmitKeeps(s, ClosePrinter, req);
    EmitKeeps(s1, CloseDevice, req);
  }

  lemma ReplyKeeps(s: JobState, status: int, body: Body, req: Request)
    requires AllEcho(s.log, req) && AllTicket(s.log, req)
    requires body.requestId == req.requestId && body.departmentQueueId == req.departmentQueueId
    requires body.ledId == req.ledId
    ensures AllEcho(Reply(s, status, body).log, req) && AllTicket(Reply(s, status, body).log, req)
    ensures Responses(Reply(s, status, body).log) == Responses(s.log) + [Response(status, body)]
    ensures Occurrences(Reply(s, status, body).log, ClosePrinter) == Occurrences(s.log, ClosePrinter)
    ensures Occurrences(Reply(s, status, body).log, CloseDevice) == Occurrences(s.log, CloseDevice)
    ensures Prints(Reply(s, status, body).log) == Prints(s.log)
  {
    EmitKeeps(s, Send(Response(status, body)), req);
  }

  lemma OpenFailedPreserves(s: JobState, req: Request, setup: Setup)
    requires Inv(s, req) && !s.openSettled
    ensures Inv(OpenStep(s, req, true, setup), req)
  {
    var s1 := s.(openSettled := true);
    var t := Reply(WithConnectionClosed(s1), 500, WithError(req, Offline));
    assert OpenStep(s, req, true, setup) == t;
    assert AllEcho(t.log, req) && AllTicket(t.log, req) by {
      CloseKeeps(s1, req);
      ReplyKeeps(WithConnectionClosed(s1), 500, WithError(req, Offline), req);
    }
    CloseThenReplyLog(s1, 500, WithError(req, Offline));
  }

  lemma OpenSucceededPreserves(s: JobState, req: Request, setup: Setup)
    requires Inv(s, req) && !s.openSettled
    ensures Inv(OpenStep(s, req, false, setup), req)
  {
    var s1 := s.(openSettled := true);
    match setup
    case TimerThrows =>
      ReplyKeeps(s1, 500, WithError(req, PrinterError), req);
    case QueryThrows =>
      var s2 := Emit(s1.(timerArmed := true), ArmTimer);
      EmitKeeps(s1.(timerArmed := true), ArmTimer, req);
      ReplyKeeps(s2, 500, WithError(req, PrinterError), req);
    case SetupOk =>
      var s2 := Emit(s1.(timerArmed := true), ArmTimer).(statusPending := true);
      EmitKeeps(s1.(timerArmed := true), ArmTimer, req);
      EmitKeeps(s2, QueryStatuses, req);
  }

  lemma OpenPreserves(s: JobState, req: Request, failed: bool, setup: Setup)
    requires Inv(s, req) && !s.openSettled
    ensures Inv(OpenStep(s, req, failed, setup), req)
  {
    if failed {
      OpenFailedPreserves(s, req, setup);
    } else {
      OpenSucceededPreserves(s, req, setup);
    }
  }

  lemma FaultPreserves(s: JobState, req: Request, mapper: SubStatus -> ErrorBody, reports: seq<StatusReport>)
    requires Inv(s, req) && s.statusPending && |s.errors + Faults(reports, mapper)| > 0
    ensures Inv(StatusStep(s, req, mapper, reports), req)
  {
    var s1 := s.(statusPending := false, errors := s.errors + Faults(reports, mapper));
    var t := Reply(WithConnectionClosed(s1), 500, WithError(req, s1.errors[0]));
    assert StatusStep(s, req, mapper, reports) == t;
    assert AllEcho(t.log, req) && AllTicket(t.log, req) by {
      CloseKeeps(s1, req);
      ReplyKeeps(WithConnectionClosed(s1), 500, WithError(req, s1.errors[0]), req);
    }
    CloseThenReplyLog(s1, 500, WithError(req, s1.errors[0]));
  }

  lemma CleanPreserves(s: JobState, req: Request, mapper: SubStatus -> ErrorBody, reports: seq<StatusReport>)
    requires Inv(s, req) && s.statusPending && |s.errors + Faults(reports, mapper)| == 0
    ensures Inv(StatusStep(s, req, mapper, reports), req)
  {
    var s1 := s.(statusPending := false, errors := s.errors + Faults(reports, mapper));
    var s2 := Emit(s1, Print(TicketFor(req)));
    var s3 := Emit(WithConnectionClosed(s2), ClearTimer);
    var t := Reply(s3.(timerArmed := false), 200, Echo(req));
    assert StatusStep(s, req, mapper, reports) == t;
    assert AllEcho(t.log, req) && AllTicket(t.log, req) &&
           |Responses(t.log)| == |Responses(s.log)| + 1 && Prints(t.log) == Prints(s.log) + 1 &&
           Occurrences(t.log, ClosePrinter) == Occurrences(s.log, ClosePrinter) + 1 &&
           Occurrences(t.log, CloseDevice) == Occurrences(s.log, CloseDevice) + 1 by {
      EmitKeeps(s1, Print(TicketFor(req)), req);
      CloseKeeps(s2, req);
      EmitKeeps(WithConnectionClosed(s2), ClearTimer, req);
      ReplyKeeps(s3.(timerArmed := false), 200, Echo(req), req);
    }
  }

  lemma StatusPreserves(s: JobState, req: Request, mapper: SubStatus -> ErrorBody, reports: seq<StatusReport>)
    requires Inv(s, req) && s.statusPending
    ensures Inv(StatusStep(s, req, mapper, reports), req)
  {
    if |s.errors + Faults(reports, mapper)| > 0 {
      FaultPreserves(s, req, mapper, reports);
    } else {
      CleanPreserves(s, req, mapper, reports);
    }
  }

  lemma TimeoutPreserves(s: JobState, req: Request)
    requires Inv(s, req)
    ensures Inv(TimeoutStep(s, req), req)
  {
    if s.timerArmed {
      ReplyKeeps(s.(timerArmed := false), 500, WithError(req, Plain(TimeoutMessage)), req);
    }
  }

  lemma ApplyPreserves(s: JobState, req: Request, mapper: SubStatus -> ErrorBody, e: Event)
    requires Inv(s, req)
    ensures Inv(Apply(s, req, mapper, e), req)
  {
    if Enabled(s, e) {
      match e
      case Opened(failed, setup) => OpenPreserves(s, req, failed, setup);
      case StatusesArrived(reports) => StatusPreserves(s, req, mapper, reports);
      case TimerFired => TimeoutPreserves(s, req);
    }
  }

  /** Every state reachable from a fresh job satisfies the invariant. */
  lemma {:induction false} RunPreserves(s: JobState, req: Request, mapper: SubStatus -> ErrorBody, events: seq<Event>)
    requires Inv(s, req)
    ensures Inv(Run(s, req, mapper, events), req)
    decreases |events|
  {
    if events != [] {
      ApplyPreserves(s, req, mapper, events[0]);
      RunPreserves(Apply(s, req, mapper, events[0]), req, mapper, events[1..]);
    }
  }

  /** A run only appends to the log: what was logged stays logged, in place. */
  lemma {:induction false} RunOnlyAppends(s: JobState, req: Request, mapper: SubStatus -> ErrorBody, events: seq<Event>)
    ensures s.log <= Run(s, req, mapper, events).log
    decreases |events|
  {
    if events != [] {
      var s1 := Apply(s, req, mapper, events[0]);
      assert s.log <= s1.log;
      RunOnlyAppends(s1, req, mapper, events[1..]);
    }
  }

  lemma StartInv(req: Request)
    ensures Inv(Start(), req)
  {
  }

  /** Every response attempted, on every path, echoes the request's identifiers. */
  lemma ResponsesEchoIds(req: Request, mapper: SubStatus -> ErrorBody, events: seq<Event>)
    ensures forall r :: r in Responses(Run(Start(), req, mapper, events).log) ==> EchoesIds(r, req)
  {
    StartInv(req);
    RunPreserves(Start(), req, mapper, events);
    var t := Run(Start(), req, mapper, events);
    forall r | r in Responses(t.log) ensures EchoesIds(r, req) {
      var i :| 0 <= i < |Responses(t.log)| && Responses(t.log)[i] == r;
      var k :| 0 <= k < |t.log| && t.log[k] == Send(r);
    }
  }

  /** The handler as written attempts at most two responses, whatever the order of its callbacks. */
  lemma AtMostTwoResponses(req: Request, mapper: SubStatus -> ErrorBody, events: seq<Event>)
    ensures |Responses(Run(Start(), req, mapper, events).log)| <= 2
  {
    StartInv(req);
    RunPreserves(Start(), req, mapper, events);
  }

  /** Once no callback can arrive any more, at least one response has been attempted. */
  lemma SettledJobResponded(req: Request, mapper: SubStatus -> ErrorBody, events: seq<Event>)
    ensures var t := Run(Start(), req, mapper, events);
            t.openSettled && !t.statusPending && !t.timerArmed ==> |Responses(t.log)| >= 1
  {
    StartInv(req);
    RunPreserves(Start(), req, mapper, events);
  }

  /** The printer and the device are closed together, and each at most once. */
  lemma ClosedAtMostOnce(req: Request, mapper: SubStatus -> ErrorBody, events: seq<Event>)
    ensures var t := Run(Start(), req, mapper, events);
            Occurrences(t.log, ClosePrinter) <= 1 &&
            Occurrences(t.log, CloseDevice) == Occurrences(t.log, ClosePrinter) &&
            t.printerClosed == t.deviceClosed == (Occurrences(t.log, ClosePrinter) == 1)
  {
    StartInv(req);
    RunPreserves(Start(), req, mapper, events);
  }

  /** At most one ticket is printed, and it is the request's queue ticket. */
  lemma PrintsOnlyTheTicket(req: Request, mapper: SubStatus -> ErrorBody, events: seq<Event>)
    ensures var t := Run(Start(), req, mapper, events);
            Prints(t.log) <= 1 &&
            forall k :: 0 <= k < |t.log| && t.log[k].Print? ==> t.log[k].commands == TicketFor(req)
  {
    StartInv(req);
    RunPreserves(Start(), req, mapper, events);
  }

  /** A connect error closes the printer, then the device, then sends the offline error; no timer, no status query. */
  lemma ConnectFailurePath(req: Request, setup: Setup)
    ensures var t := OpenStep(Start(), req, true, setup);
            t.log == [ClosePrinter, CloseDevice, Send(Response(500, WithError(req, Offline)))] &&
            t.printerClosed && t.deviceClosed && !t.timerArmed && !t.statusPending
  {
  }

  /** A successful open arms the timer, then queries the status; nothing is sent, printed or closed. */
  lemma ConnectedPath(req: Request)
    ensures var t := OpenStep(Start(), req, false, SetupOk);
            t.log == [ArmTimer, QueryStatuses] && t.timerArmed && t.statusPending && t.errors == [] &&
            Responses(t.log) == [] && Prints(t.log) == 0 && !t.printerClosed && !t.deviceClosed
  {
    assert Responses([ArmTimer, QueryStatuses]) == [] && Prints([ArmTimer, QueryStatuses]) == 0;
  }

  /**
   * The catch block: a synchronous failure while arming the timer or querying
   * the status sends the PrinterError response without closing anything; a
   * timer armed before the failure stays armed.
   */
  lemma SetupFailurePath(req: Request, setup: Setup)
    requires setup != SetupOk
    ensures var t := OpenStep(Start(), req, false, setup);
            Responses(t.log) == [Response(500, WithError(req, PrinterError))] &&
            !t.printerClosed && !t.deviceClosed && !t.statusPending &&
            t.timerArmed == (setup == QueryThrows)
  {
    var s1 := Start().(openSettled := true);
    if setup == TimerThrows {
      LogAppend([], Send(Response(500, WithError(req, PrinterError))));
    } else {
      LogAppend([], ArmTimer);
      LogAppend([ArmTimer], Send(Response(500, WithError(req, PrinterError))));
    }
  }

  /**
   * With reported faults: close the printer, then the device, then send 500
   * with the first fault; nothing is printed and the timer is left as it was.
   */
  lemma FaultPath(s: JobState, req: Request, mapper: SubStatus -> ErrorBody, reports: seq<StatusReport>)
    requires s.statusPending && s.errors == [] && Faults(reports, mapper) != []
    ensures var t := StatusStep(s, req, mapper, reports);
            t.log == s.log + [ClosePrinter, CloseDevice, Send(Response(500, WithError(req, Faults(reports, mapper)[0])))] &&
            Responses(t.log) == Responses(s.log) + [Response(500, WithError(req, Faults(reports, mapper)[0]))] &&
            Prints(t.log) == Prints(s.log) &&
            t.printerClosed && t.deviceClosed && !t.statusPending && t.timerArmed == s.timerArmed
  {
    var s1 := s.(statusPending := false, errors := s.errors + Faults(reports, mapper));
    assert StatusStep(s, req, mapper, reports) == Reply(WithConnectionClosed(s1), 500, WithError(req, s1.errors[0])) by {
      assert s1.errors == Faults(reports, mapper);
    }
    CloseThenReplyLog(s1, 500, WithError(req, s1.errors[0]));
  }

  /** Closing the connection and then answering: two closes and one response, in that order. */
  lemma CloseThenReplyLog(s: JobState, status: int, body: Body)
    ensures var t := Reply(WithConnectionClosed(s), status, body);
            t.log == s.log + [ClosePrinter, CloseDevice, Send(Response(status, body))] &&
            Responses(t.log) == Responses(s.log) + [Response(status, body)] && Prints(t.log) == Prints(s.log) &&
            Occurrences(t.log, ClosePrinter) == Occurrences(s.log, ClosePrinter) + 1 &&
            Occurrences(t.log, CloseDevice) == Occurrences(s.log, CloseDevice) + 1 &&
            t.printerClosed && t.deviceClosed && t.timerArmed == s.timerArmed && t.statusPending == s.statusPending
  {
    var reply := Send(Response(status, body));
    var l2 := s.log + [ClosePrinter] + [CloseDevice];
    assert Reply(WithConnectionClosed(s), status, body).log == l2 + [reply];
    assert Responses(l2) == Responses(s.log) && Prints(l2) == Prints(s.log) by {
      LogAppend(s.log, ClosePrinter);
      LogAppend(s.log + [ClosePrinter], CloseDevice);
    }
    OccurrencesAppend(s.log, ClosePrinter);
    OccurrencesAppend(s.log + [ClosePrinter], CloseDevice);
    OccurrencesAppend(l2, reply);
    LogAppend(l2, reply);
    SnocThree(s.log, ClosePrinter, CloseDevice, reply);
  }

  /**
   * With a clean status (by `FaultsEmpty`, exactly when no sub-status is an
   * error): print the ticket, close the printer, then the device, clear the
   * timer and send 200 with the bare echoed body; a later timer tick sends
   * nothing.
   */
  lemma SuccessPath(s: JobState, req: Request, mapper: SubStatus -> ErrorBody, reports: seq<StatusReport>)
    requires s.statusPending && s.errors == [] && Faults(reports, mapper) == []
    ensures var t := StatusStep(s, req, mapper, reports);
            t.log == s.log + [Print(TicketFor(req)), ClosePrinter, CloseDevice, ClearTimer, Send(Response(200, Echo(req)))] &&
            Responses(t.log) == Responses(s.log) + [Response(200, Echo(req))] && Prints(t.log) == Prints(s.log) + 1 &&
            t.printerClosed && t.deviceClosed && !t.statusPending && !t.timerArmed &&
            TimeoutStep(t, req) == t
  {
    var s1 := s.(statusPending := false, errors := s.errors + Faults(reports, mapper));
    assert StatusStep(s, req, mapper, reports) == CleanBranch(s1, req) by {
      assert s1.errors == [];
    }
    CleanBranchLog(s1, req);
  }

  /** The clean branch of the status callback, from the state after the faults were taken in. */
  function CleanBranch(s: JobState, req: Request): JobState {
    Reply(Emit(WithConnectionClosed(Emit(s, Print(TicketFor(req)))), ClearTimer).(timerArmed := false), 200, Echo(req))
  }

  lemma CleanBranchLog(s: JobState, req: Request)
    ensures var t := CleanBranch(s, req);
            t.log == s.log + [Print(TicketFor(req)), ClosePrinter, CloseDevice, ClearTimer, Send(Response(200, Echo(req)))] &&
            Responses(t.log) == Responses(s.log) + [Response(200, Echo(req))] && Prints(t.log) == Prints(s.log) + 1 &&
            t.printerClosed && t.deviceClosed && !t.timerArmed && t.statusPending == s.statusPending
  {
    var ticket := Print(TicketFor(req));
    var reply := Send(Response(200, Echo(req)));
    var t := CleanBranch(s, req);
    var l1 := s.log + [ticket];
    var l3 := l1 + [ClosePrinter] + [CloseDevice];
    assert t.log == l3 + [ClearTimer] + [reply];
    assert Responses(l1) == Responses(s.log) && Prints(l1) == Prints(s.log) + 1 by {
      LogAppend(s.log, ticket);
    }
    assert Responses(l3) == Responses(s.log) && Prints(l3) == Prints(s.log) + 1 by {
      LogAppend(l1, ClosePrinter);
      LogAppend(l1 + [ClosePrinter], CloseDevice);
    }
    assert Responses(t.log) == Responses(s.log) + [reply.response] && Prints(t.log) == Prints(s.log) + 1 by {
      LogAppend(l3, ClearTimer);
      LogAppend(l3 + [ClearTimer], reply);
    }
    SnocFive(s.log, ticket, ClosePrinter, CloseDevice, ClearTimer, reply);
  }

  /** The timer sends 500 with a bare string as `error`, and closes and prints nothing. */
  lemma TimeoutPath(s: JobState, req: Request)
    requires s.timerArmed
    ensures var t := TimeoutStep(s, req);
            t.log == s.log + [Send(TimeoutResponse(req))] &&
            Responses(t.log) == Responses(s.log) + [TimeoutResponse(req)] && Prints(t.log) == Prints(s.log) &&
            !t.timerArmed && t.printerClosed == s.printerClosed && t.deviceClosed == s.deviceClosed &&
            t.statusPending == s.statusPending && t.errors == s.errors
  {
    LogAppend(s.log, Send(TimeoutResponse(req)));
  }

  lemma RunTwo(s: JobState, req: Request, mapper: SubStatus -> ErrorBody, e1: Event, e2: Event)
    ensures Run(s, req, mapper, [e1, e2]) == Apply(Apply(s, req, mapper, e1), req, mapper, e2)
  {
    var s1 := Apply(s, req, mapper, e1);
    assert [e1, e2][1..] == [e2];
    assert [e2][1..] == [];
    assert Run(s1, req, mapper, [e2]) == Run(Apply(s1, req, mapper, e2), req, mapper, []);
    assert Run(s, req, mapper, [e1, e2]) == Run(s1, req, mapper, [e2]);
  }

  lemma RunThree(s: JobState, req: Request, mapper: SubStatus -> ErrorBody, e1: Event, e2: Event, e3: Event)
    ensures Run(s, req, mapper, [e1, e2, e3]) ==
            Apply(Apply(Apply(s, req, mapper, e1), req, mapper, e2), req, mapper, e3)
  {
    assert [e1, e2, e3][1..] == [e2, e3];
    assert Run(s, req, mapper, [e1, e2, e3]) == Run(Apply(s, req, mapper, e1), req, mapper, [e2, e3]);
    RunTwo(Apply(s, req, mapper, e1), req, mapper, e2, e3);
  }

  /** The timer is not cleared on the fault path: it fires later and a second `res.send` is attempted. */
  lemma FaultThenTimeout(req: Request, mapper: SubStatus -> ErrorBody, reports: seq<StatusReport>)
    requires Faults(reports, mapper) != []
    ensures Responses(Run(Start(), req, mapper, [Opened(false, SetupOk), StatusesArrived(reports), TimerFired]).log) ==
            [Response(500, WithError(req, Faults(reports, mapper)[0])), TimeoutResponse(req)]
  {
    var s1 := OpenStep(Start(), req, false, SetupOk);
    var s2 := StatusStep(s1, req, mapper, reports);
    var s3 := TimeoutStep(s2, req);
    assert Run(Start(), req, mapper, [Opened(false, SetupOk), StatusesArrived(reports), TimerFired]) == s3 by {
      ConnectedPath(req);
      RunThree(Start(), req, mapper, Opened(false, SetupOk), StatusesArrived(reports), TimerFired);
    }
    ConnectedPath(req);
    FaultPath(s1, req, mapper, reports);
    TimeoutPath(s2, req);
  }

  /**
   * A status reply that arrives after the timer fired is still acted on: a
   * `res.send` of the 200 is attempted after the timeout's 500.
   */
  lemma TimeoutThenCleanStatus(req: Request, mapper: SubStatus -> ErrorBody, reports: seq<StatusReport>)
    requires Faults(reports, mapper) == []
    ensures Responses(Run(Start(), req, mapper, [Opened(false, SetupOk), TimerFired, StatusesArrived(reports)]).log) ==
            [TimeoutResponse(req), Response(200, Echo(req))]
  {
    var s2 := Run(Start(), req, mapper, [Opened(false, SetupOk), TimerFired]);
    LateStatusStep(req, mapper, reports);
    assert Responses(StatusStep(s2, req, mapper, reports).log) == Responses(s2.log) + [Response(200, Echo(req))] by {
      TimeoutLeavesConnectionOpen(req, mapper);
      SuccessPath(s2, req, mapper, reports);
    }
    TimeoutLeavesConnectionOpen(req, mapper);
    assert [TimeoutResponse(req)] + [Response(200, Echo(req))] == [TimeoutResponse(req), Response(200, Echo(req))];
  }

  /** ... and the ticket is printed after the timeout answered, and the connection closed. */
  lemma TimeoutThenCleanStatusPrints(req: Request, mapper: SubStatus -> ErrorBody, reports: seq<StatusReport>)
    requires Faults(reports, mapper) == []
    ensures var t := Run(Start(), req, mapper, [Opened(false, SetupOk), TimerFired, StatusesArrived(reports)]);
            Prints(t.log) == 1 && t.printerClosed && t.deviceClosed
  {
    var s2 := Run(Start(), req, mapper, [Opened(false, SetupOk), TimerFired]);
    LateStatusStep(req, mapper, reports);
    TimeoutLeavesConnectionOpen(req, mapper);
    SuccessPath(s2, req, mapper, reports);
  }

  /** The three-event run is the status callback applied after the two-event run. */
  lemma LateStatusStep(req: Request, mapper: SubStatus -> ErrorBody, reports: seq<StatusReport>)
    ensures var s2 := Run(Start(), req, mapper, [Opened(false, SetupOk), TimerFired]);
            s2.statusPending &&
            Run(Start(), req, mapper, [Opened(false, SetupOk), TimerFired, StatusesArrived(reports)]) ==
            StatusStep(s2, req, mapper, reports)
  {
    TimeoutLeavesConnectionOpen(req, mapper);
    RunTwo(Start(), req, mapper, Opened(false, SetupOk), TimerFired);
    RunThree(Start(), req, mapper, Opened(false, SetupOk), TimerFired, StatusesArrived(reports));
  }

  /** On the success path the timer is cleared, so a later tick sends nothing: one 200 only. */
  lemma CleanStatusThenTimeout(req: Request, mapper: SubStatus -> ErrorBody, reports: seq<StatusReport>)
    requires Faults(reports, mapper) == []
    ensures Responses(Run(Start(), req, mapper, [Opened(false, SetupOk), StatusesArrived(reports), TimerFired]).log) ==
            [Response(200, Echo(req))]
  {
    var s1 := OpenStep(Start(), req, false, SetupOk);
    ConnectedPath(req);
    SuccessPath(s1, req, mapper, reports);
    RunThree(Start(), req, mapper, Opened(false, SetupOk), StatusesArrived(reports), TimerFired);
  }

  /** When the status never arrives, the timeout answers but the connection is never closed. */
  lemma TimeoutLeavesConnectionOpen(req: Request, mapper: SubStatus -> ErrorBody)
    ensures var t := Run(Start(), req, mapper, [Opened(false, SetupOk), TimerFired]);
            Responses(t.log) == [TimeoutResponse(req)] && Prints(t.log) == 0 && t.errors == [] &&
            !t.printerClosed && !t.deviceClosed && t.statusPending && !t.timerArmed
  {
    var s1 := OpenStep(Start(), req, false, SetupOk);
    ConnectedPath(req);
    TimeoutPath(s1, req);
    RunTwo(Start(), req, mapper, Opened(false, SetupOk), TimerFired);
  }

  /**
   * When `getStatuses` throws after the timer was armed, the catch block
   * answers and the still-armed timer answers again; nothing is ever closed.
   */
  lemma QueryThrowsThenTimeout(req: Request, mapper: SubStatus -> ErrorBody)
    ensures var t := Run(Start(), req, mapper, [Opened(false, QueryThrows), TimerFired]);
            Responses(t.log) == [Response(500, WithError(req, PrinterError)), TimeoutResponse(req)] &&
            !t.printerClosed && !t.deviceClosed
  {
    var s1 := OpenStep(Start(), req, false, QueryThrows);
    SetupFailurePath(req, QueryThrows);
    TimeoutPath(s1, req);
    RunTwo(Start(), req, mapper, Opened(false, QueryThrows), TimerFired);
  }

  /**
   * A job driven through its class: the timer fires first, then a clean
   * status arrives, and two `res.send` calls are attempted.
   */
  method LateStatusAfterTimeout(req: Request, mapper: SubStatus -> ErrorBody, reports: seq<StatusReport>)
    returns (sent: seq<Response>)
    requires Faults(reports, mapper) == []
    ensures sent == [TimeoutResponse(req), Response(200, Echo(req))]
  {
    var job := new PrintJob(req, mapper);
    job.OnOpen(false, SetupOk);
    job.OnTimeout();
    job.OnStatuses(reports);
    TimeoutThenCleanStatus(req, mapper, reports);
    RunThree(Start(), req, mapper, Opened(false, SetupOk), TimerFired, StatusesArrived(reports));
    sent := job.Sent();
  }

  /**
   * The bounds above rest on the driver calling the open callback once. The
   * network driver also hands later socket errors to it. One that arrives
   * after a successful print closes the printer and the device a second time,
   * past the bound of `ClosedAtMostOnce`; its offline error is the second
   * send attempt, still within `AtMostTwoResponses`.
   */
  lemma SocketErrorAfterSuccess(req: Request, mapper: SubStatus -> ErrorBody, reports: seq<StatusReport>)
    requires Faults(reports, mapper) == []
    ensures var t := OpenStep(Run(Start(), req, mapper, [Opened(false, SetupOk), StatusesArrived(reports)]), req, true, SetupOk);
            Responses(t.log) == [Response(200, Echo(req)), Response(500, WithError(req, Offline))] &&
            Occurrences(t.log, ClosePrinter) == 2 && Occurrences(t.log, CloseDevice) == 2
  {
    var s1 := OpenStep(Start(), req, false, SetupOk);
    var s2 := StatusStep(s1, req, mapper, reports);
    assert Run(Start(), req, mapper, [Opened(false, SetupOk), StatusesArrived(reports)]) == s2 by {
      ConnectedPath(req);
      RunTwo(Start(), req, mapper, Opened(false, SetupOk), StatusesArrived(reports));
    }
    assert Responses(s2.log) == [Response(200, Echo(req))] by {
      ConnectedPath(req);
      SuccessPath(s1, req, mapper, reports);
    }
    assert Occurrences(s2.log, ClosePrinter) == 1 && Occurrences(s2.log, CloseDevice) == 1 by {
      StartInv(req);
      RunPreserves(Start(), req, mapper, [Opened(false, SetupOk), StatusesArrived(reports)]);
    }
    ErrorReentry(s2, req, SetupOk);
  }

  /** An error delivered to the open callback closes both devices once more and attempts the offline 500. */
  lemma ErrorReentry(s: JobState, req: Request, setup: Setup)
    ensures var t := OpenStep(s, req, true, setup);
            Responses(t.log) == Responses(s.log) + [Response(500, WithError(req, Offline))] &&
            Occurrences(t.log, ClosePrinter) == Occurrences(s.log, ClosePrinter) + 1 &&
            Occurrences(t.log, CloseDevice) == Occurrences(s.log, CloseDevice) + 1
  {
    CloseThenReplyLog(s.(openSettled := true), 500, WithError(req, Offline));
  }

  /**
   * When `getStatuses` throws, the catch path and the timeout leave the socket
   * open, so a later socket error can still reach the open callback: it
   * closes the connection and attempts a third response, past the bound of
   * `AtMostTwoResponses`.
   */
  lemma SocketErrorAfterQueryThrows(req: Request, mapper: SubStatus -> ErrorBody)
    ensures var t := OpenStep(Run(Start(), req, mapper, [Opened(false, QueryThrows), TimerFired]), req, true, SetupOk);
            Responses(t.log) == [Response(500, WithError(req, PrinterError)), TimeoutResponse(req), Response(500, WithError(req, Offline))] &&
            Occurrences(t.log, ClosePrinter) == 1 && Occurrences(t.log, CloseDevice) == 1
  {
    var s := Run(Start(), req, mapper, [Opened(false, QueryThrows), TimerFired]);
    QueryThrowsThenTimeout(req, mapper);
    assert Occurrences(s.log, ClosePrinter) == 0 && Occurrences(s.log, CloseDevice) == 0 by {
      StartInv(req);
      RunPreserves(Start(), req, mapper, [Opened(false, QueryThrows), TimerFired]);
    }
    ErrorReentry(s, req, SetupOk);
  }
}

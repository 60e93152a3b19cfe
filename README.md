# Queue-ticket printer: a Dafny model of the `/ticket/print` handler

The service receives a queue-ticket request over HTTP. It opens a TCP session to a
network thermal printer, asks the printer for its status, prints the ticket with
ESC/POS builder calls, closes the session and answers the HTTP request. This project
models the decision logic of that one handler (`src/app.js`). The logic is split
into pure parts and an event-driven part:

- `Decimal`: how a JavaScript template literal renders an integral number, and a
  parser that reads the rendering back.
- `Phrase`: the "Davanti a te ..." line. A falsy queue length (absent or 0), exactly 1,
  and any other number each get their own wording.
- `Status`: fault extraction from the printer's status reports. Sub-statuses whose
  `status` is `"error"` are kept, mapped through the error mapper, and flattened in
  report order. The error mapper is a function parameter.
- `EscPos`: the builder calls (`flush`, `font`, `align`, `size`, `text`, `feed`, `cut`)
  as datatype values. `Render` interprets them as what ends up on paper: styled text
  lines, blank lines and a cut.
- `Ticket`: the exact command list of the queue ticket.
- `Handler`: request, response and effect values; one pure step function per
  callback; and the class `PrintJob`. Each method of `PrintJob` is one callback
  (`OnOpen`, `OnStatuses`, `OnTimeout`). Each method updates its fields step by step,
  in the order the code does, and appends every observable action to `log`. An
  observable action is a close, a timer arm or clear, a status query, a print or a
  sent response. Each method's postcondition ties the new state to the step function.
- `Outcomes`: runs over any order of callback events. It holds the invariant every
  reachable state keeps, one lemma per path, and concrete race scenarios.

The model follows the code as written. The handler's design intends exactly one
response per request and a session closed on every path. The code does not do that:

- the timer is cleared only on the success path. After a status fault, or after
  `getStatuses` throws, the timer still fires and attempts a second `res.send`;
- a status reply that arrives after the timeout is still acted on. The ticket prints
  and a `res.send` of the 200 is attempted after the timeout's 500;
- the timeout path and the catch block never close the printer or the device.

Express delivers only the first response. A second `res.send` throws
ERR_HTTP_HEADERS_SENT instead of reaching the client. The log therefore records
send attempts, and the first `Send` in it is the response the client receives.

`Outcomes` proves the bounds that do hold: at most two send attempts; printer and
device closed equally often, at most once; one print at most; and some response
attempted once no callback can arrive. It also exhibits each of the behaviours above.
These bounds assume the open callback runs once (see "Left out").
`SocketErrorAfterQueryThrows` and `SocketErrorAfterSuccess` show what a later socket error does to them.

## Model

| member | source | states |
|---|---|---|
| Decimal.IntToString | src/app.js:84 | the rendering has a leading minus exactly for negative numbers, then only digits; the property that matters is `IntToStringRoundTrip` |
| Decimal.IntToStringRoundTrip | src/app.js:84 | the number printed inside the phrase reads back as the queue length it was made from |
| Decimal.IntToStringInjective | src/app.js:84 | two integers render to the same text exactly when they are equal |
| Phrase.QueuePhrase | src/app.js:83-84 | every wording starts with "Davanti a te " and goes on after it; the three cases are `QueuePhraseCases` |
| Phrase.QueuePhraseCases | src/app.js:83-84 | absent or 0 gives "Davanti a te non ci sono persone" and only those do; exactly 1 gives "Davanti a te c'e' una persona" and only 1 does; any other N gives "Davanti a te ci sono N persone" |
| Phrase.ReadQueuePhrase | src/app.js:83-84 | reading the phrase back recovers the announced count (0 for a falsy length) |
| Phrase.QueuePhraseInjective | src/app.js:83-84 | two queue lengths give the same phrase exactly when they announce the same count |
| Status.Errors | src/app.js:61 | the filter keeps only entries whose status is "error", each drawn from the input, and keeps every error entry of the input |
| Status.ErrorsCount | src/app.js:61 | each error entry is kept as many times as it occurs, and nothing else is kept |
| Status.MapAll | src/app.js:61 | the map keeps the length and applies the mapper at every position |
| Status.ReportFaults | src/app.js:61 | one report contributes at most one fault per entry, and none exactly when it has no error entry |
| Status.Faults | src/app.js:61 | there are at most as many faults as sub-statuses; `FaultsAsFilterMap` gives its meaning |
| Status.FaultsAsFilterMap | src/app.js:61 | per-report filter, map and flatten equals filter-then-map over all sub-statuses in report order |
| Status.FaultsLength | src/app.js:61 | there are exactly as many faults as error entries across all reports |
| Status.FaultsAppend | src/app.js:61 | flattening is report by report: the faults of concatenated report lists concatenate |
| Status.CleanReportContributesNothing | src/app.js:61 | a report with no error entry contributes nothing, wherever it stands |
| Status.FaultsEmpty | src/app.js:61-63 | the fault list is empty exactly when no sub-status of any report is an error |
| Status.FirstFault | src/app.js:61-68 | when there are faults, the first is the mapped value of the first error entry in report order |
| EscPos.RenderAppend | src/app.js:71-87 | a chain of builder calls prints as its first part followed by the rest in the style the first part left |
| Ticket.QueueTicket | src/app.js:71-87 | fifteen builder calls, from a flush to a partial cut, including the number and the phrase; what they print is `QueueTicketRender` |
| Ticket.QueueTicketRender | src/app.js:71-87 | from any prior printer style, the ticket prints: "Reparto" and the department name at 2x2; "Il tuo numero e'" at 1x1; the number at 7x7; the phrase at 1x1 (all centred, font a); then two blank lines and a partial cut with feed 3 |
| Handler.WithConnectionClosed | src/app.js:113-116 | closing logs the printer close, then the device close, sets both flags and changes nothing else |
| Handler.OpenStep | src/app.js:34-110 | the open callback only appends to the log. A connect error closes both devices and leaves the timer as it was. Otherwise nothing is closed, the timer is armed unless `setTimeout` threw, and a status query is pending when nothing threw |
| Handler.StatusStep | src/app.js:60-95 | the status callback only appends to the log. It accumulates the faults, closes both devices on every path, and leaves the timer armed exactly when there are faults and the timer was still armed |
| Handler.TimeoutStep | src/app.js:55-58 | the tick appends at most one entry to the log, leaves the timer disarmed and closes nothing |
| Handler.PrintJob.constructor | src/app.js:24-32 | a new job has nothing opened, armed, queried, closed or sent |
| Handler.PrintJob.CloseConnection | src/app.js:113-116 | closes the printer, then the network device; afterwards both are closed |
| Handler.PrintJob.Send | src/app.js:93-94 | appends exactly one response (status and body) to the log |
| Handler.PrintJob.OnOpen | src/app.js:34-110 | the open callback. On a connect error, including a later socket error the driver re-delivers: close, then send the offline 500. Otherwise arm the timer and query the status. A synchronous throw sends the PrinterError 500 |
| Handler.PrintJob.OnStatuses | src/app.js:60-95 | the status callback. With faults: close, then send 500 with the first fault. Otherwise: print, close, clear the timer, send 200 |
| Handler.PrintJob.OnTimeout | src/app.js:55-58 | while the timer is armed, a tick disarms it and sends 500 whose `error` is a bare string; otherwise nothing |
| Outcomes.Apply | src/app.js:34-110 | delivering one callback never shortens the log |
| Outcomes.Run | src/app.js:34-110 | a run never shortens the log; `RunOnlyAppends` and `RunPreserves` give what it keeps |
| Outcomes.RunOnlyAppends | src/app.js:34-110 | any run keeps everything already logged, in place, and only appends |
| Outcomes.RunPreserves | src/app.js:34-110 | every state reached by any order of callbacks keeps the handler's invariant |
| Outcomes.ResponsesEchoIds | src/app.js:28-32 | every response sent, on every path, carries requestId, departmentQueueId and ledId unchanged; `Handler.Echo` is the `response` object of :28-32, `Handler.WithError` its `{ ...response, error }` form (:42, :57, :68, :101), and `Handler.Reply` appends one `res.status().send()` |
| Outcomes.AtMostTwoResponses | src/app.js:55-95 | whatever the order of callbacks, at most two `res.send` calls are attempted |
| Outcomes.SettledJobResponded | src/app.js:34-110 | once no callback can arrive any more, at least one `res.send` has been attempted |
| Outcomes.ClosedAtMostOnce | src/app.js:113-116 | the device is closed exactly as often as the printer, at most once, and both flags agree with that count |
| Outcomes.PrintsOnlyTheTicket | src/app.js:71-87 | at most one ticket is printed, and it is the request's queue ticket |
| Outcomes.ConnectFailurePath | src/app.js:35-47 | a connect error logs exactly: close printer, close device, send 500 OfflineCauseStatus; no timer, no status query |
| Outcomes.ConnectedPath | src/app.js:52-60 | a successful open arms the timer, then queries the status, and sends, prints and closes nothing |
| Outcomes.SetupFailurePath | src/app.js:97-108 | a synchronous throw sends only the PrinterError 500 and closes nothing; the timer stays armed if getStatuses threw |
| Outcomes.FaultPath | src/app.js:63-69 | with faults: close printer, close device, then one 500 with the first fault (one more response); nothing printed; timer left as it was |
| Outcomes.SuccessPath | src/app.js:71-94 | with a clean status: print, close printer, close device, clear timer, send 200 with the bare echo (one more response, one more print); a later tick sends nothing |
| Outcomes.TimeoutPath | src/app.js:55-57 | the tick attempts exactly one 500 with a bare-string error, and closes and prints nothing |
| Outcomes.FaultThenTimeout | src/app.js:55-69 | after a fault response the uncleared timer attempts a second `res.send`, a 500 |
| Outcomes.TimeoutThenCleanStatus | src/app.js:55-94 | a clean status arriving after the timeout still attempts the 200, after the timeout's 500 |
| Outcomes.TimeoutThenCleanStatusPrints | src/app.js:55-89 | in that run the ticket is printed once and both the printer and the device are closed |
| Outcomes.LateStatusStep | src/app.js:55-94 | after open and timeout the status query is still pending, and the status callback acts on that state |
| Outcomes.ErrorReentry | src/app.js:34-47 | a socket error re-entering the open callback attempts one more 500 Offline response and closes printer and device once more |
| Outcomes.CleanStatusThenTimeout | src/app.js:71-94 | on the success path the 200 is the only send attempt |
| Outcomes.TimeoutLeavesConnectionOpen | src/app.js:55-58 | if the status never arrives, the timeout answers and the connection stays open |
| Outcomes.QueryThrowsThenTimeout | src/app.js:54-108 | when getStatuses throws, the catch block and the still-armed timer both attempt a `res.send`; nothing is closed |
| Outcomes.LateStatusAfterTimeout | src/app.js:55-95 | driving a PrintJob object through open, tick, clean status attempts the timeout 500 and then the 200 |
| Outcomes.SocketErrorAfterSuccess | src/app.js:34-47 | a socket error re-delivered to the open callback after a successful print closes both devices a second time, past the close bound; its offline 500 is the second send attempt |
| Outcomes.SocketErrorAfterQueryThrows | src/app.js:34-47 | after the `getStatuses` throw and the timeout, both of which leave the socket open, a re-delivered socket error closes both devices once and attempts a third response, the offline 500, past the two-attempt bound |

## Left out

- Express app creation, JSON body parsing, CORS and `listen` (src/app.js:1-21): framework glue, assumed to deliver a parsed body to the handler.
- The escpos and escpos-network libraries: the TCP connection, the byte encoding of commands and the status query wire format are foreign code. Commands are abstract values. `Render` gives them a line-and-style meaning only.
- `errorMapper` is not defined in this file. It is a function parameter from a sub-status to an error body, so the model says nothing about its table or its fallback.
- Time and concurrency: the open, status and timer callbacks are events applied in some order. The 10-second delay is not modelled, and the awaits inside a callback complete in program order.
- A second `res.send` in Express throws ERR_HTTP_HEADERS_SENT and never reaches the client. The model records every attempted send in the log and does not model that exception. In the timer callback (a second send after src/app.js:63-68 or after :97-108), the exception is uncaught and by Node's default ends the server process. After a late clean status (:93) it is an unhandled rejection of the async callback, which since Node 15 (default `--unhandled-rejections=throw`) also ends the process.
- Errors thrown inside the asynchronous callbacks, and failures of `printer.close` or `networkDevice.close`, are not modelled.
- `console.log` / `console.error` logging.
- The consolidated and split order tickets and the text sanitizer are not part of this model: their code is not in this file.
- The error message of a connect error (`err`) is only logged, so `OnOpen` takes a boolean for its truthiness.
- The network driver (escpos-network) is not part of this model. `Outcomes.Run` assumes it delivers the open callback once. The driver also hands later socket errors to that callback, and a run does not deliver those. `Outcomes.AtMostTwoResponses`, `Outcomes.ClosedAtMostOnce`, `Outcomes.PrintsOnlyTheTicket`, `Outcomes.SettledJobResponded`, `Outcomes.ResponsesEchoIds` and `Outcomes.RunPreserves` rest on this assumption. `OpenStep` and `PrintJob.OnOpen` do accept a re-delivered error. `Outcomes.SocketErrorAfterQueryThrows` shows a third send attempt, past the bound of `AtMostTwoResponses`, on the path where the socket stays open. `Outcomes.SocketErrorAfterSuccess` shows a second close pair, past the bound of `ClosedAtMostOnce`, although after `networkDevice.close()` (src/app.js:115) the driver is unlikely to report an error.
- The `errors` array declared at src/app.js:52 is a field initialised to empty. It is shared by a re-entered open callback, which only closes and never reaches the status query.
- Request fields: `requestId`, `departmentQueueId`, `ledId`, `departmentName` and `currentLastNumber` are strings. `queueLength` is an optional integer. Absent identifiers, which JSON serialisation would drop from the response, are not modelled.
- Decimal.IntToString: exact only for safe integers, of magnitude up to Number.MAX_SAFE_INTEGER (2^53 - 1). Beyond that, JSON parsing rounds the queue length to a double, and JavaScript prints its shortest round-trip digits (`${2**64}` is "18446744073709552000"), or an exponent form from 10^21 on. The model prints the exact integer. Fractional, string and boolean queue lengths, for which `=== 1` and truthiness differ, are not modelled.

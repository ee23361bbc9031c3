# UniEvent-HTTP, verified

A Dafny model of the state machines of UniEvent-HTTP, an HTTP server and client for an event loop:

- a server connection that reads pipelined requests and lets its users answer them in any order, whole or
  chunk by chunk, while responses leave in order (RFC 9112, sections 7.1, 9.3.2 and 9.6; RFC 9110,
  section 10.1.1, for 100 Continue);
- the life of a server over its connections;
- a pool of client connections with a queue per destination, hand-over, redirects, cancellation and one
  deadline per request;
- the streaming of a form with files.

Everything runs on one thread, so each event handler and each API call is a step. Every machine is written
twice: as functions on an immutable state (`Next`, `Run`), about which the theorems are proved, and as
classes with fields that are updated in place, whose methods are proved to do to the view of the objects
what the functions say. `dafny verify dfyconfig.toml` checks all of it.

| file | contents |
|---|---|
| Wire.dfy | responses, calls, frames; serial answering as the reference; the grammar of the wire |
| Connection.dfy | one server connection as functions |
| Invariant.dfy, Pipelining.dfy, Steps.dfy | its invariant, and that every operation keeps it |
| Serving.dfy, Lifetime.dfy, Closing.dfy, Marks.dfy | what holds over every run of a connection |
| Records.dfy | what the steps of a run tell about each request, without the records that operations keep |
| Effects.dfy | what events and calls achieve: going down, stopping, the timer, interim responses, the end of reading |
| Recursion.dfy, Reader.dfy, Hanging.dfy | where the recursion ends, what on_read finds after callbacks, connections that hang |
| Order.dfy | order on the wire: heads first, the closing response last, nothing missing |
| Events.dfy | the recursion of write_next_response and finish_request with the calls users make in notifications |
| Disturbances.dfy, Considerate.dfy | when such calls disturb the wire, and users who disturb nothing |
| Departures.dfy, EventDepartures.dfy | runs in which a connection does less than expected |
| ServerConnection.dfy | classes ServerConnection, ServerRequest, ServerResponse |
| Server.dfy | the server over its connections, and class Server |
| Pool.dfy | pool, clients and requests as functions |
| PoolInvariant.dfy, PoolSteps.dfy, PoolRequests.dfy, PoolRuns.dfy | their invariant, and that every step keeps it |
| PoolAccount.dfy, PoolPromises.dfy, PoolReuse.dfy | what holds over every run of the client side |
| PoolTargets.dfy | where requests go over redirects, what users are told, what destinations are |
| PoolConnections.dfy | who opens a connection and who else is served on it, how long it lasts, transfers |
| PoolTurns.dfy | nobody is overtaken, told by the steps |
| PoolDepartures.dfy | runs in which the client side does less than expected |
| PoolObjects.dfy | classes Pool, Client, Request |
| Form.dfy | form streaming, and class FormSender |

## Where the code does less than expected

Each of these is kept as the code has it. A theorem says exactly when it happens, and a concrete run, given as
a constant or a function, shows that it does.

- A last chunk given to a queued response: its text is not kept, and without an earlier piece no last chunk
  is ever written (`Wire.DeliveredIffNotLossy`, `Serving.WireIsSerial`, `Lifetime.WireGrammar`; run:
  `Departures.EarlyLastChunk`).
- A response that ends after a graceful stop with others queued: the assertion in finish_request fails, and
  with assertions off the queued requests are dropped (`Recursion.AssertionFailsIff`; run:
  `Departures.StopDropsQueued`).
- Users may answer in the notifications of requests that leave. finish_request fires finish_event before it looks
  at the new front; write_next_response fires it, and the partial, error or drop event, for each request that it
  drops behind a head without keep-alive, while the request of that head is off the queue. A call made there can
  begin the next response, whose head finish_request then writes a second time; give a piece to a queued response
  before its head is written; write behind the closing response; or give the closing response a piece that is
  never written, or its end before what has been gathered for it. Over every run and for all calls: after every
  step the wire is in order (heads once and first, nothing behind a closing response, of each response what its
  calls deliver) if and only if no step is disturbed in one of these ways, and then it is that of serial answering
  (`Disturbances.EventsInOrderIff`, `Disturbances.EventsServe`). Users who call only on requests that arrived later
  than the next one disturb nothing (`Considerate.ConsiderateIsCalm`). An answer to just the next request in
  finish_event does if and only if the server is not stopping and the answers that now flow stop at one that
  cannot leave, and it makes the assertion of finish_request fail, the answered request being dropped, if and only
  if the head of that one closes the connection (`Considerate.AnswerNextIff`). Runs: `EventDepartures.TwoHeads`,
  `EventDepartures.NoHeadAtAll`, `EventDepartures.BehindClose`, `EventDepartures.LosesPiece`,
  `EventDepartures.CutsOffNext`.
- on_read goes on parsing its buffer after the connection has been shut down, by finish_request in the loop
  or by a call in a callback (`Reader.ReadsOnAfterShutdownIff`, `Reader.CallbacksReadOnIff`; runs:
  `Departures.ReadsOnAfterFinish`, `Departures.ReadsOnDead`). A request read in full there is queued on a dead
  connection. Whatever is called in its callbacks, nothing is written: if the calls complete its answer, it
  departs as answered, and otherwise nobody drops it when the connection is removed (`Reader.LateRequest`). The
  theorems about runs, such as `Lifetime.OnePlace`, are about runs that read nothing there, while the class
  reads on as the code does.
- request_error calls respond() for a request that its own error callback has dropped, or whose connection
  that callback has brought down; the assertion in respond() fails (`Reader.ErrorAnswerableIff`; runs:
  `Departures.ErrorDropsItself`, `Departures.ErrorAfterShutdown`).
- A connection hangs with an answered request that never ends: after an error behind a waiting answer, and
  after the refusal of an upgrade in a pipeline before its end (`Hanging.HangsIff`, `Hanging.HangsForGood`,
  `Lifetime.DrainsIff`; runs: `Departures.ErrorHangs`, `Departures.RefusedUpgradeHangs`).
- stop() of a server that is stopping fires stop_event twice (`ServerLifecycle.StopEventSteps`; run:
  `ServerLifecycle.StopEventTwice`).
- A redirect to the same host and port clears the SSL context and leaves the client in a row that is not
  that of its destination (`PoolPromises.RedirectKeepsIff`; run: `PoolDepartures.LostRow`).
- Submitting a request that is in progress or cannot be started leaves a busy client without a request, or a
  request in two places (`PoolPromises.SubmitKeepsIff`; run: `PoolDepartures.SubmittedTwice`).
- The redirect counter is a uint16_t: a limit of 65535 is no limit (`PoolPromises.LimitRefusesIff`; runs:
  `PoolDepartures.Limitless`).
- A redirect before the request has been sent completely, or of a request that does not want to keep its
  connection, leaves a dirty connection: the next hop follows on it, or it goes back into the pool for
  another request (`PoolReuse.RedirectIsCleanIff`; runs: `PoolDepartures.DirtyConnection`,
  `PoolDepartures.DirtyHandOver`).
- A destination has no scheme. With ports left out http and https requests never share a connection
  (`PoolConnections.SharedConnection`); with explicit ports they can, and a redirect from one to the other goes on
  over the same connection (`PoolConnections.HopStaysIff`; run: `PoolDepartures.AnotherScheme`).
- A client that hands its redirected request back may have started another one and is made weak all the same
  (`PoolPromises.HandoverIsWeakIff`; run: `PoolDepartures.WorksWeakly`).
- The inactivity check subtracts unsigned numbers: while the clock is below the idle timeout all free
  connections are dropped (`PoolPromises.SweptIff`; run: `PoolDepartures.SweptEarly`).

## What the model takes for granted

- Protocol-HTTP is not part of this model. A frame is one encoded unit, the parser is a source of
  (request, state, keep-alive, error), and a message is encoded as head and body, as head, chunks and last
  chunk, or, if it is chunked and has no body yet, as a bare head; empty chunks encode to nothing.
- Default ports are 80 and 443, and a URI without scheme and port has port 0.
- Within one part of a buffer users only answer from callbacks. Closing, stopping, upgrading, dropping and
  new submissions are steps of their own.
- In the notifications of requests that leave users do nothing on the connection, except in modules Events,
  Disturbances, Considerate and EventDepartures, where they may answer in those of requests that finish_request
  lets go or that write_next_response drops behind a closing head.
- The notifications of requests dropped at a shutdown, at a close or by an upgrade are without calls. The
  connection is down then, and nothing is written whatever is called (`Events.PlayMute`, `Events.DropMute`); but an answer to a
  request that is still queued would count as given, and a last chunk would let its request go as answered,
  without a frame on the wire.
- While write_next_response drops the last request behind a closing head, a chunk, a last chunk or a
  send_continue() for the closing request runs into `assert(requests.size())`. The model takes no notice of it.
- In the runs of the model nothing is read after read_ignore or after the connection went down; when the rest
  of a buffer is read nevertheless is proved exactly. Within a buffer the parser goes on with a new request or
  with the one at the end of the queue.
- In the runs of the model request_error is completed only when respond() can be called for its request, or
  need not be; when that is so is proved exactly. The class reports the failed assertion and stops there.
- A server connection has an idle timeout, since check_if_idle uses the timer without looking.
- A response object is given once and is new when it is given.
- The user drives the clients of a pool only through the pool and leaves a request's settings alone while
  it is in progress; max_connections is constant.
- Runs of the pool in which its invariant is promised submit only requests that can be started and are not in
  progress, and keep the SSL context in same-place redirects; both conditions are proved exact.

## Model

| member | source | states |
|---|---|---|
| Serving.WireIsSerial | src/panda/unievent/http/ServerConnection.cc:128-248 | Pipelining refines serial answering, over every run without calls in the notifications of requests that leave: however the calls on the queued responses interleave, the response frames on the wire are the concatenation, in arrival order of the requests, of what each started response would put out if its request had been at the front from the start; this holds if and only if no written response got its last chunk from within the queue with a text of its own or without any piece before it; the calls are told by the steps (Records.RecordsAreTold) |
| Lifetime.WireGrammar | src/panda/unievent/http/ServerConnection.cc:146-221 | Over every run each written request has exactly one head on the wire and no other has any; a reader of the whole wire, 100 responses included, is between responses or inside the one in progress (no interleaved chunks, 100 only before a head), if and only if no response has lost its last chunk; and while the connection is up, the response in progress is the one of the queue front |
| Serving.ServedInOrder | src/panda/unievent/http/ServerConnection.cc:63-248 | While a connection is open and not closing, the requests that have left and those that wait are requests 0, 1, 2, ... without a gap, and everything that has left was answered in full |
| Serving.RunKeeps | src/panda/unievent/http/ServerConnection.cc:63-391 | Every reachable state of a connection satisfies the whole invariant: records, queue shape, order, identities, wire, reader position, drained front, close discipline, reading state |
| Serving.StepKeeps | src/panda/unievent/http/ServerConnection.cc:63-391 | Each of the 17 events and calls, taken when it can happen, keeps that invariant |
| Wire.DeliveredIffNotLossy | src/panda/unievent/http/ServerConnection.cc:153-221 | For one response: what the connection delivers for its calls equals serial answering if and only if its last chunk was not given too early |
| Wire.OpenIsSerial | src/panda/unievent/http/ServerConnection.cc:200-211 | Up to its last chunk a response is delivered exactly as in serial answering, wherever its calls were made |
| Wire.FlushIsDelivered | src/panda/unievent/http/ServerConnection.cc:146-189 | When a response reaches the front, the one flush (head, gathered chunks or the whole message) sends exactly the frames that its earlier calls are worth |
| Wire.ScanDelivered | src/panda/unievent/http/ServerConnection.cc:146-221 | A reader of a delivered response ends between responses if it is complete and its end was written, and inside that response otherwise |
| Lifetime.RunGrows | src/panda/unievent/http/ServerConnection.cc:63-353 | Over any continuation of any run departures and output are append-only, and closing, stopping and going down are for good: nothing that left comes back |
| Lifetime.OnePlace | src/panda/unievent/http/ServerConnection.cc:223-353 | Every admitted request is in exactly one place, queued once or departed once, and its fate fits its state: answered in full, dropped with the one notice that is due, discarded because already complete, or upgraded |
| Lifetime.DrainsIff | src/panda/unievent/http/ServerConnection.cc:146-248 | The recursion of write_next_response and finish_request drains as far as possible: a step leaves a received front with a completed response behind if and only if an error arrived while that response was waiting for the end of its request |
| Lifetime.RunDrains | src/panda/unievent/http/ServerConnection.cc:146-248 | On every run without such an error no received front with a completed response remains, and a front with a response has its head on the wire |
| Closing.CloseDiscipline | src/panda/unievent/http/ServerConnection.cc:103-241 | From the head without keep-alive until the connection goes down the queue holds exactly the request of that head, and no later request was answered or written |
| Closing.QueueShape | src/panda/unievent/http/ServerConnection.cc:76-125 | Every request but the last is received and keep-alive; one whose answer waits for its own end is alone in the queue, so a request-side close never drops others |
| Closing.IdleCutsNothing | src/panda/unievent/http/ServerConnection.cc:43-50 | In every reachable state an active idle timer means an empty queue, and an idle close lets no request go |
| Closing.HeadsAreHonest | src/panda/unievent/http/ServerConnection.cc:141-164 | Over every run a written head says keep-alive only if its response did when it was given and its request does |
| Closing.KeepAliveCap | src/panda/unievent/http/ServerConnection.cc:136-143 | If requests are answered one at a time, a connection is given at most max_keepalive_requests responses, counted from the steps, and the last one closes it |
| ServerLifecycle.ServerRunKeeps | src/panda/unievent/http/Server.cc:47-73 | Over every run of a server and all its connections the composed invariant holds |
| ServerLifecycle.StopEvents | src/panda/unievent/http/Server.h:138-148 | Over every run stop_event has fired once per ended activity, plus once per stop() during stopping, both counted from the steps; inactive means no connections, stopping means some, and each of them is down or has a request to answer and stops behind it |
| ServerLifecycle.ConnectionsRun | src/panda/unievent/http/Server.cc:47-73 | Over every run of the server each connection it has established is what its own steps (its events and calls, a close by stop(), a graceful stop by graceful_stop()) make of a new connection with the cap of the server, and they are a legal run: all theorems about runs of a connection hold of the connections of a server |
| ServerLifecycle.StopEventSteps | src/panda/unievent/http/Server.cc:54-61 | A step fires stop_event twice exactly when it is stop() during stopping, once exactly when another step ends the activity, otherwise never |
| Records.RecordsAreTold | src/panda/unievent/http/ServerConnection.cc:63-221 | Over every run the record of each request, queued or departed, is what the steps have told about it: header, routing, mode, end; and its calls are the accepted steps on it, in order and with their texts (the response changed only in that it is complete if it is whole, and marked close if the connection stops or the request is in error), a default response 400 if an error found it unanswered |
| Records.WireIsTold | src/panda/unievent/http/ServerConnection.cc:146-221 | Over every run: of each written request the wire has a head with the code (200 by default), the keep-alive mark and the encoding of the response given for it, and then exactly the text given by the accepted steps on it, but for that of a last chunk given too early |
| Records.ServesWhatIsTold | src/panda/unievent/http/ServerConnection.cc:128-221 | Over every run the response frames on the wire are those of a server that answers one request after the other with what the steps have given, if and only if no response that was written got its last chunk too early |
| Effects.StoppingIsBusy | src/panda/unievent/http/ServerConnection.cc:324-333 | In every reachable state a connection that is stopping and still up has a request to answer |
| Effects.DownIff | src/panda/unievent/http/ServerConnection.cc:223-353 | In every reachable state in which the connection is up: which steps take it down, in both directions: the closes, a graceful stop without requests, a drop of an unanswered request, an upgrade of the only request, and an answer from which responses flow up to one whose head closes the connection and whose request leaves |
| Effects.DownLeaves | src/panda/unievent/http/ServerConnection.cc:287-353 | What such a step leaves: nobody queued, every request departed; outside of answering, nothing written and the queued requests gone in their order; reset, shut or detached as the step says; an upgraded request leaves with the stream |
| Effects.TimerIff | src/panda/unievent/http/ServerConnection.cc:258-273 | In every reachable state in which the connection is up: after a step the idle timer runs if and only if the step has not stopped it and it ran before, or the step has found nothing queued and nothing left to write |
| Effects.InterimsAreAsked | src/panda/unievent/http/ServerConnection.cc:191-198 | Over every run: one 100 response on the wire for each time it was asked for while the request was the front, expected it, was not HTTP/1.0 and had no response, and no other |
| Effects.StopsIff | src/panda/unievent/http/ServerConnection.cc:136-143 | In every reachable state: a connection begins to stop if and only if it is stopped gracefully with requests queued, or its only request is given the response that fills the cap, counted from the steps |
| Effects.ReadsNoMoreIff | src/panda/unievent/http/ServerConnection.cc:84-124 | In every reachable state in which the connection is up and reading: a step ends reading if and only if it is an error, an upgrade behind other requests, the end of a request that is not keep-alive or comes on a closing connection, or it writes a head that closes the connection for a request already received |
| Effects.ThrowsIff | src/panda/unievent/http/ServerConnection.cc:128-221 | In every reachable state: a chunk or last chunk throws if and only if the request, queued or departed, has a complete response; a response if and only if the queued request has one; a call that throws or is ignored changes nothing |
| ServerLifecycle.LeavesServerIff | src/panda/unievent/http/ServerConnection.cc:275-322 | In every reachable state: a step takes a connection off its server if and only if it ends a soft close, or takes the connection down by a hard close or an upgrade |
| Recursion.AssertionFailsIff | src/panda/unievent/http/ServerConnection.cc:234-241 | In every reachable state: the assertion that nothing is queued at shutdown fails in a step, at whatever depth of the recursion, if and only if the step gives the last chunk of a received front after a graceful stop, with a head that kept the connection alive and requests queued behind it |
| Recursion.CallShutsIff | src/panda/unievent/http/ServerConnection.cc:213-241 | A call that answers takes the connection down without closing it if and only if it ends the response of a received front after a graceful stop |
| Recursion.FinishWaitsIff | src/panda/unievent/http/ServerConnection.cc:146-248 | The recursion leaves a complete answer waiting for its request if and only if the last request is still to be received and everything in between is sent on the way |
| Disturbances.EventsInOrderIff | src/panda/unievent/http/ServerConnection.cc:146-256 | Over every run, whatever users call, nested at any depth, in the notifications of requests that finish_request lets go or that write_next_response drops behind a closing head: after every step the wire is in order (each response has one head at most and nothing before it, behind a closing head there is only its own response, and of each response begun there is what its calls deliver) if and only if finish_request never finds a front that has been written already, no piece is given to a front that is about to be written, and while requests are dropped no call writes for the next one or takes a piece from the closing response; and then the whole invariant holds |
| Disturbances.EventsServe | src/panda/unievent/http/ServerConnection.cc:128-256 | On every such run the wire is that of serial answering (unless a last chunk came too early), every written request has exactly one head and no other has any, and a closing connection holds just the request whose head says so |
| Considerate.ConsiderateIsCalm | src/panda/unievent/http/ServerConnection.cc:146-256 | If in the notifications of a request that leaves calls are made only on requests that arrived later than the next one, then over every run the wire is in order after every step and the invariant holds |
| Considerate.AnswerNextIff | src/panda/unievent/http/ServerConnection.cc:128-256 | When finish_event answers just the next request: the wire gets out of order if and only if the server is not stopping and the answers that now flow end at one that is still open or whose request is not received, with no closing head on the way; and the assertion that nothing is queued at shutdown fails if and only if they end at one that cannot leave and whose head closes the connection |
| Considerate.RunSound | src/panda/unievent/http/ServerConnection.cc:146-221 | Over every run without calls in notifications the wire is in order in the same sense: nothing but the rest of its own response is ever written behind a head that closes the connection |
| Events.SilentRun | src/panda/unievent/http/ServerConnection.cc:63-353 | Without calls in notifications these runs are the runs of the other theorems |
| Events.PlayMute | src/panda/unievent/http/ServerConnection.cc:146-256 | On a connection that is down nothing is written, whatever is called in the notifications of requests that leave |
| Events.DropMute | src/panda/unievent/http/ServerConnection.cc:287-301 | drop_requests on a connection that is down writes nothing and empties the queue, whatever is called in its notifications |
| Reader.ReadsOnAfterShutdownIff | src/panda/unievent/http/ServerConnection.cc:117-124 | In every reachable state at the end of the loop body: the rest of the buffer is parsed on a dead connection if and only if the request that ends was already answered and the connection is closing or stopping, or the connection went down in the callbacks and neither closing nor a request without keep-alive stops the loop |
| Reader.CallbacksReadOnIff | src/panda/unievent/http/ServerConnection.cc:109-124 | The same seen before the callbacks of a whole request: their calls make the loop read on a dead connection if and only if the request is keep-alive and one call ends a received front's response after a graceful stop |
| Reader.LateRequest | src/panda/unievent/http/ServerConnection.cc:76-125 | A request read in full that way, for every sequence of answering calls in its callbacks: nothing is written, and when the connection is removed from its server (lines 275-280) the request is still queued and nobody has been told, if and only if no call has completed its answer; otherwise it has departed as answered, with nothing on the wire |
| Reader.ErrorAnswerableIff | src/panda/unievent/http/ServerConnection.cc:382-391 | In every reachable state inside request_error: its respond() finds the request queued, or need not be called, if and only if the request has an answer, or the connection is up and either not closing or closing with this very request |
| Serving.ReadAllKeeps | src/panda/unievent/http/ServerConnection.cc:63-126 | Reading a whole buffer with all its callbacks keeps the invariant |
| Hanging.HangsIff | src/panda/unievent/http/ServerConnection.cc:84-125 | In every reachable state: a step makes the connection hang for good (the front answered, its request unfinished, reading stopped) if and only if it is an error behind a waiting answer, the refusal of a request that has not been received, or an answer whose sending reaches such a request |
| Hanging.HangsForGood | src/panda/unievent/http/ServerConnection.cc:223-232 | Over every continuation of every run: a connection that hangs lets nothing depart until it is taken down, and writes nothing more even then |
| Marks.StoppingMarksClose | src/panda/unievent/http/ServerConnection.cc:136-164 | Over every continuation of every run: once a connection is stopping, whatever it had not answered by then gets a response marked close and a head that says so |
| ServerLifecycle.ConnectionsAccounted | src/panda/unievent/http/Server.h:132-148 | Over every run each connection ever established is in the map or has left, never both; one that has left is down, has no request, and each request it ever had has departed once |
| Departures.StopDropsQueued | src/panda/unievent/http/ServerConnection.cc:236-238 | A run in which that assertion fails and a queued request is dropped unanswered |
| Departures.EarlyLastChunk | src/panda/unievent/http/ServerConnection.cc:213-216 | A run in which a last chunk given from the queue loses its text and the end of its response, so that both the refinement and the grammar fail |
| Departures.ReadsOnDead | src/panda/unievent/http/ServerConnection.cc:117-124 | A run in which the loop goes on reading on a dead connection |
| Departures.ErrorDropsItself | src/panda/unievent/http/ServerConnection.cc:382-391 | A run in which a request in error is dropped by its own error callback |
| Departures.ErrorAfterShutdown | src/panda/unievent/http/ServerConnection.cc:382-391 | A run in which it is lost because its error callback brings the connection down |
| Departures.ErrorHangs | src/panda/unievent/http/ServerConnection.cc:84-87 | A run in which an error behind a waiting answer leaves the connection hanging |
| Departures.RefusedUpgradeHangs | src/panda/unievent/http/ServerConnection.cc:97-101 | A run in which an upgrade refused in a pipeline before its end leaves the connection hanging |
| ServerLifecycle.StopEventTwice | src/panda/unievent/http/Server.cc:54-61 | A run in which stop_event fires twice although the server was started once |
| Departures.ReadsOnAfterFinish | src/panda/unievent/http/ServerConnection.cc:117-124 | A run in which finish_request in the loop body takes the connection down and the loop goes on |
| EventDepartures.TwoHeads | src/panda/unievent/http/ServerConnection.cc:236-256 | A run in which a response begun in finish_event gets a second head |
| EventDepartures.CutsOffNext | src/panda/unievent/http/ServerConnection.cc:236-241 | A run in which a response without keep-alive is begun in finish_event, that assertion fails, and the request is dropped in the middle of its response |
| EventDepartures.BehindClose | src/panda/unievent/http/ServerConnection.cc:164-176 | A run in which a request answered while the one before it is dropped gets its response written behind the one that closes the connection |
| EventDepartures.LosesPiece | src/panda/unievent/http/ServerConnection.cc:164-211 | A run in which a chunk given to the closing response while requests are dropped behind it is never written, though the response ends properly |
| EventDepartures.NoHeadAtAll | src/panda/unievent/http/ServerConnection.cc:213-256 | A run in which a last chunk given in finish_event is written without a head, and its request counts as answered |
| PoolPromises.OnePlace | src/panda/unievent/http/Pool.cc:18-114 | Conservation, over every run: each submission has been told its outcome once or is in progress; a request in progress is in exactly one place, once in one queue or on one client, with both links right; others are nowhere |
| PoolPromises.RowsHold | src/panda/unievent/http/Pool.cc:43-131 | Over every run, in each row: free and busy are disjoint, at most max(1, max_connections) clients, all at the destination of the row, busy exactly those with a request, a queue only while nobody is free and all allowed clients are busy; no assertion fails and no exception leaves a handler |
| PoolPromises.StartedInOrder | src/panda/unievent/http/Pool.cc:51-114 | No overtaking, over every run: requests for one destination were started in the order they were asked for, and those that wait were asked for later |
| PoolTurns.NobodyOvertaken | src/panda/unievent/http/Pool.cc:43-114 | The same told by the steps alone, without tickets or records, over every run: whoever gets a client in a step was submitted, or sent on by a redirect through the pool, before all that wait for the same destination afterwards, and whoever waits before those behind it |
| PoolTurns.TicketsAreTurns | src/panda/unievent/http/Pool.cc:43-77 | Over every run the ticket of a request is the number of times the pool had been asked, by submissions and redirects, when it was last asked for that request |
| PoolPromises.RedirectsAndDeadlines | src/panda/unievent/http/Request.h:83-114 | Over every run: with a limit below 65535 the counter tells the hops followed and never exceeds the limit; one deadline, timeout after submission, across queue, activation and hops; afterwards counter zero and no running timer |
| PoolAccount.ToldOnLeaving | src/panda/unievent/http/Request.icc:37-48 | A request is told exactly once, in the step in which it leaves, and never enters by itself |
| PoolAccount.CancelSettles | src/panda/unievent/http/Request.icc:27-30 | Cancelling settles an active or waiting request at once with that error, and changes nothing for any other |
| PoolAccount.TimeoutWhenDue | src/panda/unievent/http/Request.icc:32-35 | A timer fires only for a request in progress, not before its time, and settles it with one verdict: a connect timeout if and only if its client is still connecting, otherwise a timeout |
| PoolAccount.FinishSettles | src/panda/unievent/http/Client.cc:279-298 | The end of an exchange tells the verdict once and the request is nowhere afterwards |
| PoolAccount.StepFaithful | src/panda/unievent/http/Client.cc:187-298 | Apart from a submission no step changes a request's settings or takes back an answer |
| PoolTargets.RedirectGoesTo | src/panda/unievent/http/Client.cc:204-246 | Where a redirect within the limit leads: the scheme of the location, or the previous one; the host and port of the location if it has a host, otherwise the previous host and the port given before, if any; so a location without all three stays at scheme, host and port; the SSL context is only that of the callback, and a body is lost exactly by a 303 |
| PoolTargets.TargetStays | src/panda/unievent/http/Client.cc:41-128 | Over every other step the URI, the SSL context, the body and the settings of a request stay, but that a URI without a scheme may get http |
| PoolTargets.ResponseTells | src/panda/unievent/http/Client.cc:187-298 | What a response tells: nothing after a 100 and after a redirect (codes 300, 301, 302, 303, 307, 308) that is followed; otherwise one verdict, which is a success exactly if it is not a redirect to be followed and the request has been sent completely, and else names the reason |
| PoolTargets.DestroyTells | src/panda/unievent/http/Pool.cc:18-24 | Destroying the pool tells each waiting request that it is cancelled; active ones stay unchanged on clients that belong to no pool |
| PoolTargets.SameDestinationIff | src/panda/unievent/http/Request.h:89-94 | Two requests that go through no HTTP proxy have equal destinations exactly if they agree in host, port, SSL context, proxy and check of certificates; two through HTTP proxies exactly if these have the same host and port; one of each kind exactly if the other goes to that proxy itself, without all else |
| PoolConnections.SharedConnection | src/panda/unievent/http/Client.cc:50-89 | Over every run: a request on a client is served on the connection opened last by that client, and agrees in host, port, SSL context, proxy and check of certificates with the request for which it was opened, as the steps tell (in host and port of the proxy if both go through HTTP proxies); a request that does not want to keep its connection has opened it itself |
| PoolConnections.ConnectsWhere | src/panda/unievent/http/Client.cc:46-89 | Over every run: the connection of an active request goes to the host and port of its URI (80 for http, 443 for https), or to its HTTP proxy |
| PoolConnections.ExchangeEnds | src/panda/unievent/http/Client.cc:279-298 | When an exchange ends, its connection stays open exactly after a response to a request sent completely if both sides want to keep it; the request that waits for the client, if any, has been started then, on this connection if it wants to keep it and otherwise on a new one |
| PoolConnections.HopStaysIff | src/panda/unievent/http/Client.cc:248-266 | A redirect that is followed goes on over the open connection of its client if and only if both sides keep the connection and the next hop has the same host, port and SSL context (no HTTP proxy); the scheme does not matter |
| PoolConnections.WeakIff | src/panda/unievent/http/Client.cc:248-294 | When the loop does not wait for a working client: after a step it is weak if and only if it was with the same request and that is not redirected, or the step has sent its request on to another client and it has started the next one; an idle connection is always weak |
| PoolConnections.IdleEndsIff | src/panda/unievent/http/Client.cc:158-165 | The connection of a client that is idle and stays so goes down in a step exactly if data comes that nobody expects |
| PoolConnections.SubmitGets | src/panda/unievent/http/Pool.cc:43-77 | A submitted request gets a free client of its destination if there is one, on its open connection if the request wants to keep it; otherwise a new client if one more is allowed; otherwise the last place in the queue |
| PoolConnections.TransferIsKnown | src/panda/unievent/http/Client.cc:92-128 | Over every run: a request has been sent completely exactly if it is active, and was sent as a whole when it was last started (first hop or next one) or the end of its transfer has been reported since |
| PoolConnections.IdleTime | src/panda/unievent/http/Client.cc:296 | Over every run: the activity time of an idle client is the time at which its last exchange ended |
| PoolRuns.RunKeeps | src/panda/unievent/http/Pool.cc:18-131 | Every reachable state of pool, clients and requests satisfies the invariant, provided submissions can be served and same-place redirects keep the SSL context |
| PoolRuns.StepKeeps | src/panda/unievent/http/Client.cc:41-316 | Each of the 12 events and calls keeps it |
| PoolRuns.SamePlaceIff | src/panda/unievent/http/Client.cc:249-266 | A redirect to the same host and port has the destination of the client exactly if it keeps the SSL context or goes through an HTTP proxy |
| PoolPromises.SubmitKeepsIff | src/panda/unievent/http/Pool.cc:43-77 | A submission keeps the invariant if and only if the request has no host (and is refused), or is not in progress and can be started |
| PoolPromises.RedirectKeepsIff | src/panda/unievent/http/Client.cc:222-266 | A redirect followed on the same client keeps the invariant if and only if it keeps the SSL context, which has been cleared, or goes through an HTTP proxy |
| PoolPromises.LimitRefusesIff | src/panda/unievent/http/Client.cc:198-199 | A request that has used up its redirects follows no further one if and only if its limit is below 65535 |
| PoolPromises.RefusedIsTold | src/panda/unievent/http/Client.cc:198-202 | Every refused redirect ends the request with the error for its reason |
| PoolPromises.SweptIff | src/panda/unievent/http/Pool.cc:116-131 | A sweep drops a free client if and only if it has been idle for longer than the timeout, or the clock has not reached the timeout yet (unsigned difference) |
| PoolPromises.HandoverIsWeakIff | src/panda/unievent/http/Client.cc:257-262 | After a redirect to another place the old client works for the next request and is weak nevertheless if and only if somebody was waiting for it |
| PoolReuse.RedirectIsCleanIff | src/panda/unievent/http/Client.cc:248-267 | A redirect that is followed keeps all connections clean (only whole exchanges before the last) if and only if it does not leave a dirty one: followed on its own connection before the request was sent completely, or handed back to the pool without a whole exchange and then free or given to a request that keeps the connection |
| PoolReuse.CleanUnlessDirtied | src/panda/unievent/http/Client.cc:50-113 | Clean reuse over every run in which the pool keeps its promises: as long as no redirect leaves a dirty connection, every connection has carried only whole exchanges, to its own destination, before its last request |
| PoolReuse.CleanReuse | src/panda/unievent/http/Client.cc:50-113 | The same without the promises of the pool, as long as redirects keep a connection only after a whole exchange |
| PoolDepartures.LostRow | src/panda/unievent/http/Client.cc:222-266 | A run in which the pool does not find the row of a client that it gets back |
| PoolDepartures.SubmittedTwice | src/panda/unievent/http/Pool.cc:43-77 | A run in which a request is submitted while in progress and a client stays busy without a request |
| PoolDepartures.Limitless | src/panda/unievent/http/Client.cc:198-199 | With limit 65535: for every number of hops a run that follows as many, with the counter starting again at zero |
| PoolDepartures.DirtyConnection | src/panda/unievent/http/Client.cc:254-266 | A run in which a request follows on the connection of one that was not sent completely |
| PoolDepartures.DirtyHandOver | src/panda/unievent/http/Client.cc:254-262 | A run in which a waiting request is started on the connection of one that was not sent completely |
| PoolDepartures.AnotherScheme | src/panda/unievent/http/Client.cc:248-266 | A run in which an https request follows on a connection opened for http |
| PoolDepartures.WorksWeakly | src/panda/unievent/http/Client.cc:257-262 | A run in which a working client is weak |
| PoolDepartures.SweptEarly | src/panda/unievent/http/Pool.cc:116-131 | A run in which a connection that has just become free is dropped by a sweep |
| FormStreaming.FormInOrder | src/panda/unievent/http/Client.cc:322-346 | Over every run of file data, completions, failures and other ends: which item is pending, and which data belongs to which file, is told by the steps alone; the parts written are those of the items up to the pending one, in order, complete and once, each file with the data that came while it was pending; the trailer comes once, after the last item, exactly when the transfer is complete; exactly the file pending at an early end is stopped |
| FormStreaming.SentAtOnceIff | src/panda/unievent/http/Client.cc:322-339 | A form is sent within Client::request if and only if it has no file |
| FormStreaming.RunKeeps | src/panda/unievent/http/Client.cc:322-346 | Every reachable state of form streaming satisfies the invariant |
| FormStreaming.SendFormKeeps | src/panda/unievent/http/Client.cc:322-339 | One call writes whole items up to the next file, or all of them and the trailer |
| ServerObjects.ServerResponse.SendChunk | src/panda/unievent/http/ServerResponse.icc:7-11 | Throws on a completed response, does nothing without a connection, otherwise changes the connection as specified |
| ServerObjects.ServerResponse.SendFinalChunk | src/panda/unievent/http/ServerResponse.icc:13-17 | The same three cases for the last chunk, which may finish the request and start the next ones |
| ServerObjects.ServerRequest.Respond | src/panda/unievent/http/ServerRequest.icc:9-12 | A request that has left changes nothing; otherwise the connection answers it as specified |
| ServerObjects.ServerConnection.constructor | src/panda/unievent/http/ServerConnection.cc:34-51 | A new connection is idle with its timer running |
| ServerObjects.ServerConnection.CleanupRequest | src/panda/unievent/http/ServerConnection.cc:250-256 | Exactly the front leaves, and only it loses its connection |
| ServerObjects.ServerConnection.DropRequests | src/panda/unievent/http/ServerConnection.cc:287-301 | The loop empties the queue, each request leaving once with the notice due to it |
| ServerObjects.ServerConnection.CloseConnection | src/panda/unievent/http/ServerConnection.cc:303-322 | Hard close: stream reset, timer stopped, queue dropped, connection removed from the server |
| ServerObjects.ServerConnection.ShutdownConnection | src/panda/unievent/http/ServerConnection.cc:303-318 | Soft close: output ends and the queue is dropped, removal comes later |
| ServerObjects.ServerConnection.GracefulStopConnection | src/panda/unievent/http/ServerConnection.cc:324-333 | Idle connections go down at once, others are marked stopping |
| ServerObjects.ServerConnection.CheckIfIdle | src/panda/unievent/http/ServerConnection.cc:258-262 | The idle timer starts only with an empty queue and nothing left to write |
| ServerObjects.ServerConnection.DropBehind | src/panda/unievent/http/ServerConnection.cc:171-175 | Everything behind the front leaves, the front stays |
| ServerObjects.ServerConnection.CloseBehind | src/panda/unievent/http/ServerConnection.cc:164-176 | After a head without keep-alive: closing, reading stopped if the request is received, the rest dropped |
| ServerObjects.ServerConnection.WriteHead | src/panda/unievent/http/ServerConnection.cc:146-162 | The default code, the chunks set aside, and the first write |
| ServerObjects.ServerConnection.SendChunks | src/panda/unievent/http/ServerConnection.cc:178-184 | The loop writes the chunks set aside, in order |
| ServerObjects.ServerConnection.WriteNextResponse | src/panda/unievent/http/ServerConnection.cc:146-189 | The mutual recursion with finish_request terminates and leaves the specified state and wire |
| ServerObjects.ServerConnection.FinishRequest | src/panda/unievent/http/ServerConnection.cc:223-248 | Waits for the end of the request, or lets it go and shuts down, serves the next one or becomes idle |
| ServerObjects.ServerConnection.ServeNext | src/panda/unievent/http/ServerConnection.cc:236-247 | Shutdown when closing or stopping, otherwise the next response that is ready |
| ServerObjects.ServerConnection.TakeResponse | src/panda/unievent/http/ServerConnection.cc:132-142 | The response is tied to its request, counted against the cap, marked close if stopping, and completed if whole |
| ServerObjects.ServerConnection.Respond | src/panda/unievent/http/ServerConnection.cc:128-144 | A second response throws; the first one is kept, or written at once for the front |
| ServerObjects.ServerConnection.SendChunk | src/panda/unievent/http/ServerConnection.cc:200-211 | Written for the front, gathered otherwise, an empty chunk changes nothing |
| ServerObjects.ServerConnection.SendFinalChunk | src/panda/unievent/http/ServerConnection.cc:213-221 | Completes the response; only for the front it is written and the request finished |
| ServerObjects.ServerConnection.SendContinue | src/panda/unievent/http/ServerConnection.cc:191-198 | Only for the front, only if expected and not HTTP/1.0, an error after the response |
| ServerObjects.ServerConnection.EnablePartial | src/panda/unievent/http/ServerRequest.h:35 | Only the way a request is notified changes |
| ServerObjects.ServerConnection.Drop | src/panda/unievent/http/ServerRequest.icc:23-26 | A hard close unless the response is already complete |
| ServerObjects.ServerConnection.UpgradeTo | src/panda/unievent/http/ServerRequest.icc:31-35 | Refused without the header, an error unless alone in the queue, otherwise the request leaves with the stream |
| ServerObjects.ServerConnection.Detach | src/panda/unievent/http/ServerConnection.cc:335-353 | The stream loses its listener, the timer is gone, the connection is removed |
| ServerObjects.ServerConnection.ReceivePart | src/panda/unievent/http/ServerConnection.cc:77-82 | The part belongs to the last request of the queue, a new one if the parser began one |
| ServerObjects.ServerConnection.ArrivePart | src/panda/unievent/http/ServerConnection.cc:77-107 | Errors, unfinished headers, upgrades in a pipeline and routing, up to the callbacks |
| ServerObjects.ServerConnection.PlayCalls | src/panda/unievent/http/ServerConnection.cc:109-115 | Whatever users answer from the callbacks of one part, in any order, is what the steps of the model make of it |
| ServerObjects.ServerConnection.FinishPart | src/panda/unievent/http/ServerConnection.cc:117-124 | The end of the loop body, and whether the loop goes on |
| ServerObjects.ServerConnection.OnPart | src/panda/unievent/http/ServerConnection.cc:76-125 | One pass through the loop body with all callbacks |
| ServerObjects.ServerConnection.OnRead | src/panda/unievent/http/ServerConnection.cc:63-126 | The loop over a buffer, ending where reading ends, refines the recursive specification, even when the connection goes down on the way; if request_error is called, the assertion of respond() fails exactly if the request in error has left unanswered; an uninterrupted buffer keeps the invariant |
| ServerObjects.ServerConnection.FinishError | src/panda/unievent/http/ServerConnection.cc:388-390 | An unanswered request in error gets the default response, an answered one is marked close; the assertion of respond() fails exactly for a request that has left unanswered, and then nothing else happens |
| ServerObjects.ServerConnection.OnReadError | src/panda/unievent/http/ServerConnection.cc:68-74 | A read error hits the request being received, or a new one, and goes on as request_error; the assertion fails exactly if the callbacks had that request leave unanswered |
| ServerObjects.ServerConnection.OnWrite | src/panda/unievent/http/ServerConnection.cc:264-273 | A failed write closes, the last successful one starts the idle timer |
| ServerObjects.ServerConnection.OnShutdown | src/panda/unievent/http/ServerConnection.cc:275-280 | The timer stops and the connection is removed from the server |
| ServerObjects.ServerConnection.OnEof | src/panda/unievent/http/ServerConnection.cc:282-285 | A soft close |
| ServerObjects.ServerConnection.OnIdle | src/panda/unievent/http/ServerConnection.cc:45-48 | The assertion of the callback holds whenever the timer can fire, and no request departs |
| ServerLifecycle.Server.RunServer | src/panda/unievent/http/Server.cc:47-52 | Starts an inactive server, throws otherwise |
| ServerLifecycle.Server.StopServer | src/panda/unievent/http/Server.cc:54-61 | The loop closes every connection of the map, drops its requests, and terminates; the last close of a stopping server fires stop_event on its own |
| ServerLifecycle.Server.GracefullyStop | src/panda/unievent/http/Server.cc:63-73 | The loop stops every connection once, and the server is done if none is left |
| ServerLifecycle.Server.RemoveConnection | src/panda/unievent/http/Server.h:138-141 | A removed connection may end the stopping |
| ServerLifecycle.Server.CloseConnection | src/panda/unievent/http/ServerConnection.cc:303-322 | A connection closed within its server leaves it with all its requests dropped |
| ServerLifecycle.Server.FinishIfDone | src/panda/unievent/http/Server.h:143-148 | Ends the stopping, with one stop_event, exactly if no connection is left |
| ServerLifecycle.Server.OnEstablish | src/panda/unievent/http/Server.cc:165-170 | A new connection under a new number |
| PoolObjects.Request.EnsureTimerActive | src/panda/unievent/http/Request.h:101-106 | A running timer goes on with its old deadline, otherwise one starts |
| PoolObjects.Request.CleanupAfterRedirect | src/panda/unievent/http/Request.h:110-114 | The client link goes and the timer runs on unheard |
| PoolObjects.Request.FinishAndNotify | src/panda/unievent/http/Request.icc:37-48 | Links, counter and timer are reset, and one verdict is told |
| PoolObjects.Request.Count | src/panda/unievent/http/Client.cc:199 | The counter goes up and wraps at 16 bits |
| PoolObjects.Request.Redirect | src/panda/unievent/http/Client.cc:204-224 | The next URI, missing parts taken from the previous one, and the SSL context cleared |
| PoolObjects.Request.Hop | src/panda/unievent/http/Client.cc:243-256 | 303 loses the body, then the request is detached for its next hop |
| PoolObjects.Client.DropConnection | src/panda/unievent/http/Client.cc:273-277 | The connection goes, the request stays |
| PoolObjects.Client.LetGo | src/panda/unievent/http/Client.cc:286-294 | Kept open and weak after a successful exchange that both sides keep, dropped otherwise |
| PoolObjects.Client.LetHop | src/panda/unievent/http/Client.cc:251-254 | Kept open if the response wants it |
| PoolObjects.Client.Connect | src/panda/unievent/http/Client.cc:50-90 | Reconnects exactly when not connected, elsewhere or not keep-alive; a foreign proxy scheme throws |
| PoolObjects.Client.WriteRequest | src/panda/unievent/http/Client.cc:92-113 | The timer starts, and a whole request counts as transferred |
| PoolObjects.Client.StartRequest | src/panda/unievent/http/Client.cc:41-114 | All outcomes of Client::request, the throwing ones with what they leave behind |
| PoolObjects.Pool.StartOn | src/panda/unievent/http/Client.cc:41-114 | Client::request on the state of the whole pool |
| PoolObjects.Pool.Putback | src/panda/unievent/http/Pool.cc:96-114 | The next waiting request is started on the client, or the client becomes free; both assertions accounted for |
| PoolObjects.Pool.FinishRequest | src/panda/unievent/http/Client.cc:279-298 | The client is put back before the user is told |
| PoolObjects.Pool.CancelClient | src/panda/unievent/http/Client.cc:130-138 | Only an active client has something to cancel |
| PoolObjects.Pool.TakeClient | src/panda/unievent/http/Pool.cc:48-67 | A free client, a new one while the limit allows, or none |
| PoolObjects.Pool.EnqueueRequest | src/panda/unievent/http/Pool.cc:69-72 | Last in the queue, with its timer running |
| PoolObjects.Pool.Request | src/panda/unievent/http/Pool.cc:43-77 | All branches of Pool::request with the client it picked |
| PoolObjects.Pool.Submit | src/panda/unievent/http/Pool.cc:43-77 | The same for a submission by a user |
| PoolObjects.Pool.Follow | src/panda/unievent/http/Client.cc:249-267 | On the same client, or handed back to the pool and asked for again |
| PoolObjects.Pool.Redirect | src/panda/unievent/http/Client.cc:204-267 | A callback that cancels, or one that lets the redirect be followed |
| PoolObjects.Pool.AnalyzeRedirect | src/panda/unievent/http/Client.cc:197-268 | All refusals in their order, and the followed case |
| PoolObjects.Pool.AnalyzeRequest | src/panda/unievent/http/Client.cc:187-271 | A 100, a redirect or the end of the exchange |
| PoolObjects.Pool.CancelWaiting | src/panda/unievent/http/Pool.cc:79-94 | The search loop removes the first occurrence and tells the request |
| PoolObjects.Pool.CancelRequest | src/panda/unievent/http/Request.icc:27-30 | Routed to the client or to the queue |
| PoolObjects.Pool.SendFinalChunk | src/panda/unievent/http/Request.icc:22-25 | Throws when transferred or not active |
| PoolObjects.Pool.OnTimer | src/panda/unievent/http/Request.icc:32-35 | Routed like a cancel, with the connect error while connecting |
| PoolObjects.Pool.OnConnect | src/panda/unievent/http/Client.cc:140-142 | The client is connected |
| PoolObjects.Pool.OnUnexpected | src/panda/unievent/http/Client.cc:158-162 | Data without a request drops the connection |
| PoolObjects.Pool.CheckInactivity | src/panda/unievent/http/Pool.cc:116-131 | The nested loops leave exactly the rows and clients that a sweep of the whole state leaves |
| PoolObjects.Pool.DestroyPool | src/panda/unievent/http/Pool.cc:18-24 | The loops let active clients go on alone and cancel every waiting request once |
| PoolObjects.Pool.Size | src/panda/unievent/http/Pool.cc:133-140 | The sum over the rows is the number of different clients in them |
| PoolObjects.Pool.Busy | src/panda/unievent/http/Pool.cc:142-146 | The sum over the rows is the number of the pool's clients that have a request |
| PoolObjects.RemoveInactive | src/panda/unievent/http/Pool.cc:121-127 | The erasing loop keeps exactly the clients that were active recently |
| FormStreaming.FormSender.Start | src/panda/unievent/http/Form.cc:11-32 | Fields and embedded files are written at once, a file only its head |
| FormStreaming.FormSender.SendItems | src/panda/unievent/http/Client.cc:322-339 | The loop does what the recursive specification says |
| FormStreaming.FormSender.WriteData | src/panda/unievent/http/Form.cc:39-45 | File data belongs to the pending file |
| FormStreaming.FormSender.FormFileComplete | src/panda/unievent/http/Client.cc:341-346 | A failed file ends the request, a finished one moves on |
| FormStreaming.FormSender.FinishRequest | src/panda/unievent/http/Client.cc:289-292 | The pending file, if any, is stopped |

## Left out

- Closing.KeepAliveCap: assumes that at most one request is outstanding at each answer, because the code looks at the queue's length only then; with pipelined answers it enforces no cap.
- FormStreaming.FormInOrder: one transmission; a form with files is not sent again after a redirect, since the first start moves the file's input away.
- ServerLifecycle.Server.StopServer: the connections of the server are values here, changed by the functions that specify class ServerConnection; the two classes do not point at each other.
- Serving.WireIsSerial: nothing is called in the notifications of requests that leave; for such calls see Disturbances.EventsServe.
- Lifetime.WireGrammar: the same; for such calls see Disturbances.EventsInOrderIff and Disturbances.EventsServe.
- Closing.CloseDiscipline: the same; for such calls see Disturbances.EventsServe.
- Records.WireIsTold: the same, like all theorems of modules Records and Effects.
- Disturbances.EventsInOrderIff: calls in the notifications of requests that finish_request lets go or that write_next_response drops; those of requests dropped at a shutdown, at a close or by an upgrade are without calls.
- Disturbances.EventsServe: the same.
- Considerate.ConsiderateIsCalm: the same.
- Considerate.AnswerNextIff: the same.
- ServerObjects.ServerConnection.CleanupRequest: finish_event does nothing in the class; calls made there are modelled on values, in modules Events and Disturbances.
- ServerObjects.ServerConnection.DropRequests: the notifications inside the loop do nothing.
- ServerObjects.ServerConnection.FinishRequest: finish_event does nothing in the class, as in CleanupRequest.
- What respond() does for a request in error when its assertion is compiled out.
- A finish_event that switches the leaving request itself to partial mode, and so changes which event follows: the notice is that of the mode before.
- Lifetime.OnePlace: its runs read nothing after the connection went down; see Reader.LateRequest.
- Server::lastid is shared by all servers of the process; here each server counts its own connections.
- PoolPromises.HandoverIsWeakIff: that the event loop does not wait for a weak handle is not modelled, only the flag.
- A response that Client::on_read takes from the rest of its buffer for a request whose client is still connecting, after a redirect or a hand-over: the next request is then started by connecting a stream that is already connecting, and what comes of that is up to UniEvent.
- Callbacks that close, stop, upgrade, submit or throw from inside another handler: separate steps, or not modelled; an exception from redirect_event is one of them.
- Between notifying a cancelled waiting request and erasing it from the queue (Pool.cc lines 88-89) the model has no gap.
- Raising max_connections while requests wait: the code does not wake the queue, the model keeps the number constant.
- Setting idle_timeout of a pool again, Pool::instance, factories, thread-locals, http_request_sync: thin wrappers.
- UserAgent, cookies, headers removed at redirects, compression, the Accept-Encoding and Date headers: no part in the state machines.
- The text and the headers of the default error response: a body of one piece stands for it.
- Sockets, TLS, SOCKS, DNS, listeners, unix-socket files, TCP options, the connect timeout of Tcp: I/O.
- Partial responses and the parser's state inside a response on the client: a message arrives as a whole; chunks that a user adds to a request are not recorded, only that the transfer is complete.
- Reference counts: only the links whose clearing can be observed (`_connection`, `_client`, `_pool`, `_request`, `_response`).
- Which free client a set of pointers yields first: any of them.
- The form machine and the pool machine are separate: the pool knows whether a form is sent at once, and hears of the end of a transfer as an event.
- Server::configure, configuration equality, output operators, builders, ~Server (the loop of stop() again): easy.

/** One server connection as a state machine: what each operation of ServerConnection,
    ServerRequest and ServerResponse does to the whole state, written as functions.
    The class in ServerConnection.dfy is proved against these functions; Pipelining.dfy,
    Lifetime.dfy and Closing.dfy prove what holds over every run. */
module Connection {
  import opened Options
  import opened Wire

  /** The Connection header of a request: on_read compares it exactly, upgrade() ignores case. */
  datatype Upgrade = NoUpgrade | UpgradeExact | UpgradeOtherCase

  datatype Header = Header(keepAlive: bool, expects100: bool, http10: bool, upgrade: Upgrade)

  /** A ServerRequest. The last three fields are history: the accepted calls on its response,
      whether its head has been written, and the keep-alive mark of that head. */
  datatype Request = Request(
    id: nat,
    header: Header,
    routed: bool,
    partial: bool,
    done: bool,
    finishOnReceive: bool,
    response: Option<Response>,
    calls: seq<Call>,
    written: bool,
    headKeepAlive: bool)

  /** The error notification a request gets when it leaves unanswered. */
  datatype Notice = PartialError | ErrorEvent | DropEvent

  datatype Fate = Answered | Dropped(notice: Notice) | Discarded | Upgraded

  datatype Departure = Departure(request: Request, fate: Fate)

  datatype Link = Up | Shut | Reset | Detached

  /** Where on_read is: outside its loop body, between a parser result and the end of the loop
      body (callbacks run here), or inside request_error after its notification. */
  datatype Phase = Quiet | InLoop(id: nat, keepAlive: bool, done: bool) | InError(id: nat)

  datatype Conn = Conn(
    requests: seq<Request>,
    closing: bool,
    stopping: bool,
    processed: nat,
    maxKeepAlive: nat,
    link: Link,
    readIgnored: bool,
    timer: bool,           // the idle timer is active
    removed: bool,         // server->remove() has been called
    phase: Phase,
    parsing: Option<nat>,  // the request the parser has not finished
    nextId: nat,
    wire: seq<Frame>,
    departed: seq<Departure>)

  datatype ParseState = Headers | Body | Done | Error

  datatype Parsed = Parsed(header: Header, state: ParseState)

  datatype Outcome = Ok | Ignored | Threw

  function NewConn(maxKeepAlive: nat): Conn {
    Conn([], false, false, 0, maxKeepAlive, Up, false, true, false, Quiet, None, 0, [], [])
  }

  function NewRequest(id: nat, header: Header): Request {
    Request(id, header, false, false, false, false, None, [], false, false)
  }

  // ---------------------------------------------------------------- small parts

  /** The place of a request in the queue, `|qs|` when it is not there. */
  function IndexOf(qs: seq<Request>, id: nat): (k: nat)
    ensures k <= |qs|
    ensures k < |qs| ==> qs[k].id == id
    ensures forall j :: 0 <= j < k ==> qs[j].id != id
  {
    if qs == [] then 0
    else if qs[0].id == id then 0
    else 1 + IndexOf(qs[1..], id)
  }

  function Write(c: Conn, frames: seq<Frame>): Conn {
    if c.link.Up? then c.(wire := c.wire + frames) else c
  }

  function SetFront(c: Conn, q: Request): Conn
    requires c.requests != []
  {
    c.(requests := [q] + c.requests[1..])
  }

  function CheckIdle(c: Conn, drained: bool): Conn {
    if c.requests == [] && !c.timer && drained then c.(timer := true) else c
  }

  function FateOfDrop(q: Request): Fate {
    if !q.done then Dropped(if q.partial then PartialError else ErrorEvent)
    else if q.response.Some? && q.response.value.completed then Discarded
    else Dropped(DropEvent)
  }

  function Drops(qs: seq<Request>): seq<Departure> {
    seq(|qs|, i requires 0 <= i < |qs| => Departure(qs[i], FateOfDrop(qs[i])))
  }

  function DropAll(c: Conn): Conn {
    c.(requests := [], departed := c.departed + Drops(c.requests))
  }

  function Depart(c: Conn, fate: Fate): Conn
    requires c.requests != []
  {
    c.(requests := c.requests[1..], departed := c.departed + [Departure(c.requests[0], fate)])
  }

  function Shutdown(c: Conn): Conn {
    DropAll(c.(link := if c.link.Up? then Shut else c.link))
  }

  function Close(c: Conn): Conn {
    DropAll(c.(timer := false, link := Reset)).(removed := true)
  }

  function GracefulStop(c: Conn): Conn {
    if c.requests == [] then Shutdown(c) else c.(stopping := true)
  }

  // ---------------------------------------------------------------- answering

  /** write_next_response after a head without keep-alive: nothing else will be answered. */
  function CloseAfterFront(c: Conn): Conn
    requires c.requests != []
  {
    c.(closing := true,
       readIgnored := c.readIgnored || c.requests[0].done,
       requests := [c.requests[0]],
       departed := c.departed + Drops(c.requests[1..]))
  }

  function Sent(r: Response): Response {
    r.(code := if r.code == 0 then 200 else r.code,
       parts := if r.chunked && !r.completed then [] else r.parts)
  }

  /** The front once its response has been prepared for sending. */
  function Marked(q: Request): Request
    requires q.response.Some?
  {
    var r := q.response.value;
    q.(response := Some(Sent(r)), written := true, headKeepAlive := r.keepAlive && q.header.keepAlive)
  }

  /** The first write of write_next_response: a head, or a whole response. */
  function SendHead(c: Conn): Conn
    requires c.requests != [] && c.requests[0].response.Some?
  {
    var q := Marked(c.requests[0]);
    Write(SetFront(c, q), ToVector(q.id, q.headKeepAlive, q.response.value))
  }

  /** The chunks gathered before a response reached the front, when it is not completed yet. */
  function Waiting(q: Request): seq<Piece>
    requires q.response.Some?
  {
    var r := q.response.value;
    if r.chunked && !r.completed then r.parts else []
  }

  /** write_next_response up to finish_request. */
  function SendFront(c: Conn): Conn
    requires c.requests != [] && c.requests[0].response.Some?
  {
    var q := c.requests[0];
    var c1 := SendHead(c);
    var c2 := if q.response.value.keepAlive && q.header.keepAlive then c1 else CloseAfterFront(c1);
    Write(c2, Chunks(q.id, Waiting(q)))
  }

  function WriteNext(c: Conn, drained: bool): Conn
    requires c.requests != [] && c.requests[0].response.Some?
    decreases |c.requests|, 1
  {
    if c.requests[0].response.value.completed then Finish(SendFront(c), drained) else SendFront(c)
  }

  function Finish(c: Conn, drained: bool): Conn
    requires c.requests != []
    decreases |c.requests|, 0
  {
    var q := c.requests[0];
    if !q.done then SetFront(c, q.(finishOnReceive := true))
    else
      var c1 := Depart(c, Answered);
      if c.closing || c.stopping then Shutdown(c1)
      else if c1.requests == [] then CheckIdle(c1, drained)
      else if c1.requests[0].response.Some? then WriteNext(c1, drained)
      else c1
  }

  /** The response object once respond() has taken it. */
  function Taken(r: Response, stopping: bool): Response {
    r.(keepAlive := r.keepAlive && !stopping, completed := Whole(r))
  }

  /** respond() up to the point where it looks at the front of the queue. */
  function Take(c: Conn, k: nat, r: Response): Conn
    requires k < |c.requests|
  {
    var processed := c.processed + 1;
    var stopping := c.stopping || (c.maxKeepAlive > 0 && processed >= c.maxKeepAlive && |c.requests| == 1);
    var taken := Taken(r, stopping);
    var q := c.requests[k].(response := Some(taken), calls := c.requests[k].calls + [Respond(taken)]);
    c.(processed := processed, stopping := stopping, requests := c.requests[k := q])
  }

  /** respond() on a request that waits at place `k` without a response. */
  function Answer(c: Conn, k: nat, r: Response, drained: bool): Conn
    requires k < |c.requests|
  {
    if k == 0 then WriteNext(Take(c, k, r), drained) else Take(c, k, r)
  }

  predicate CompletedBefore(c: Conn, id: nat) {
    exists i :: 0 <= i < |c.departed| && c.departed[i].request.id == id
      && c.departed[i].request.response.Some? && c.departed[i].request.response.value.completed
  }

  function RespondTo(c: Conn, id: nat, r: Response, drained: bool): (Conn, Outcome) {
    var k := IndexOf(c.requests, id);
    if k == |c.requests| then (c, Ignored)
    else if c.requests[k].response.Some? then (c, Threw)
    else (Answer(c, k, r, drained), Ok)
  }

  /** ServerResponse::send_chunk on the response of request `id`. */
  function ChunkTo(c: Conn, id: nat, text: string): (Conn, Outcome) {
    var k := IndexOf(c.requests, id);
    if k == |c.requests| then (c, if CompletedBefore(c, id) then Threw else Ignored)
    else if c.requests[k].response.None? then (c, Ignored)
    else if c.requests[k].response.value.completed then (c, Threw)
    else
      var q := c.requests[k];
      var r := q.response.value;
      var kept := if k == 0 || text == "" then r else r.(parts := r.parts + [text]);
      var c1 := c.(requests := c.requests[k := q.(response := Some(kept), calls := q.calls + [SendChunk(text)])]);
      (if k == 0 && text != "" then Write(c1, [Chunk(id, text)]) else c1, Ok)
  }

  /** ServerResponse::send_final_chunk on the response of request `id`. */
  function FinalTo(c: Conn, id: nat, text: string, drained: bool): (Conn, Outcome) {
    var k := IndexOf(c.requests, id);
    if k == |c.requests| then (c, if CompletedBefore(c, id) then Threw else Ignored)
    else if c.requests[k].response.None? then (c, Ignored)
    else if c.requests[k].response.value.completed then (c, Threw)
    else
      var q := c.requests[k];
      var ended := q.(response := Some(q.response.value.(completed := true)),
                      calls := q.calls + [SendFinal(text, k == 0)]);
      var c1 := c.(requests := c.requests[k := ended]);
      (if k == 0 then Finish(Write(c1, [Final(id, text)]), drained) else c1, Ok)
  }

  /** ServerRequest::send_continue. */
  function ContinueTo(c: Conn, id: nat): (Conn, Outcome) {
    var k := IndexOf(c.requests, id);
    if k == |c.requests| then (c, Ignored)
    else if k != 0 then (c, Ignored)
    else if !c.requests[0].header.expects100 || c.requests[0].header.http10 then (c, Ignored)
    else if c.requests[0].response.Some? then (c, Threw)
    else (Write(c, [Continue(id)]), Ok)
  }

  function EnablePartial(c: Conn, id: nat): Conn {
    var k := IndexOf(c.requests, id);
    if k == |c.requests| then c else c.(requests := c.requests[k := c.requests[k].(partial := true)])
  }

  // ---------------------------------------------------------------- reading

  /** The queue once the parser has returned a part of request `id`. */
  function Admit(c: Conn, id: nat, header: Header): Conn {
    if c.requests == [] || c.requests[|c.requests| - 1].id != id
    then c.(requests := c.requests + [NewRequest(id, header)])
    else c
  }

  function SetBack(c: Conn, q: Request): Conn
    requires c.requests != []
  {
    c.(requests := c.requests[|c.requests| - 1 := q])
  }

  function Back(c: Conn): Request
    requires c.requests != []
  {
    c.requests[|c.requests| - 1]
  }

  /** request_error up to the notification of the user. */
  function Fail(c: Conn, id: nat): Conn {
    c.(readIgnored := true, phase := InError(id))
  }

  /** on_read once the parser has returned a part of a request: it is at the end of the queue and
      knows whether it is finished. */
  function Receive(c: Conn, p: Parsed): Conn {
    var id := if c.parsing.Some? then c.parsing.value else c.nextId;
    var finished := p.state.Done? || p.state.Error?;
    var admitted := Admit(c.(timer := false,
                             nextId := if c.parsing.Some? then c.nextId else c.nextId + 1,
                             parsing := if finished then None else Some(id)),
                          id, p.header);
    SetBack(admitted, Back(admitted).(done := finished))
  }

  /** The first half of the loop body in on_read, before the callbacks. */
  function Arrive(c: Conn, p: Parsed): Conn {
    var d := Receive(c, p);
    var q := Back(d);
    if p.state.Error? then Fail(d, q.id)
    else if p.state.Headers? then d
    else if |d.requests| > 1 && q.header.upgrade.UpgradeExact? then Fail(d, q.id)
    else SetBack(d, q.(routed := true)).(phase := InLoop(q.id, q.header.keepAlive, q.done))
  }

  /** The end of the loop body in on_read. A request that has left the queue in a callback cannot
      be waiting for its end, so its flag reads as false. */
  function Tail(c: Conn, drained: bool): Conn
    requires c.phase.InLoop?
  {
    var k := IndexOf(c.requests, c.phase.id);
    var c1 := c.(phase := Quiet);
    if !c.phase.done then c1
    else if k < |c.requests| && c.requests[k].finishOnReceive then Finish(c1, drained)
    else if c.closing || !c.phase.keepAlive then c1.(readIgnored := true)
    else c1
  }

  /** on_read takes the next part of its buffer unless it has stopped reading. */
  predicate LoopGoesOn(c: Conn)
    requires c.phase.InLoop?
  {
    var k := IndexOf(c.requests, c.phase.id);
    !(c.phase.done && !(k < |c.requests| && c.requests[k].finishOnReceive) && (c.closing || !c.phase.keepAlive))
  }

  /** on_read with a read error, up to the notification. */
  function ReadError(c: Conn, header: Header): Conn {
    var c0 := c.(timer := false);
    var c1 := if c.requests == [] || Back(c).done
              then c0.(requests := c.requests + [NewRequest(c.nextId, header)], nextId := c.nextId + 1)
              else c0;
    Fail(SetBack(c1, Back(c1).(done := true)), Back(c1).id).(parsing := None)
  }

  const BadRequest := Response(400, false, false, ["x"], false)

  /** The rest of request_error, after the notification. */
  function ErrorTail(c: Conn, drained: bool): Conn
    requires c.phase.InError?
  {
    var k := IndexOf(c.requests, c.phase.id);
    var c1 := c.(phase := Quiet);
    if k == |c.requests| then c1
    else
      var q := c.requests[k];
      if q.response.None? then Answer(c1, k, BadRequest, drained)
      else c1.(requests := c.requests[k := q.(response := Some(q.response.value.(keepAlive := false)))])
  }

  // ---------------------------------------------------------------- events and runs

  datatype Step =
    | StepArrive(parsed: Parsed)
    | StepTail(drained: bool)
    | StepReadError(header: Header)
    | StepErrorTail(drained: bool)
    | StepRespond(id: nat, response: Response, drained: bool)
    | StepChunk(id: nat, text: string)
    | StepFinal(id: nat, text: string, drained: bool)
    | StepContinue(id: nat)
    | StepEnablePartial(id: nat)
    | StepWritten(failed: bool, drained: bool)
    | StepIdle
    | StepEof
    | StepShutdownDone
    | StepClose
    | StepGracefulStop
    | StepDrop(id: nat)
    | StepUpgrade(id: nat)

  /** ServerRequest::drop: a hard close, unless the request is gone or answered. */
  function DropRequest(c: Conn, id: nat): Conn {
    var k := IndexOf(c.requests, id);
    if k == |c.requests| then c
    else if c.requests[k].response.Some? && c.requests[k].response.value.completed then c
    else Close(c)
  }

  /** ServerRequest::upgrade and ServerConnection::upgrade. */
  function UpgradeRequest(c: Conn, id: nat): (Conn, Outcome) {
    var k := IndexOf(c.requests, id);
    if k == |c.requests| then (c, Ignored)
    else if c.requests[k].header.upgrade.NoUpgrade? then (c, Ignored)
    else if |c.requests| != 1 then (c, Threw)
    else (Depart(c, Upgraded).(link := Detached, timer := false, removed := true), Ok)
  }

  function Next(c: Conn, s: Step): Conn {
    match s
    case StepArrive(p) => Arrive(c, p)
    case StepTail(drained) => if c.phase.InLoop? then Tail(c, drained) else c
    case StepReadError(header) => ReadError(c, header)
    case StepErrorTail(drained) => if c.phase.InError? then ErrorTail(c, drained) else c
    case StepRespond(id, r, drained) => RespondTo(c, id, r, drained).0
    case StepChunk(id, text) => ChunkTo(c, id, text).0
    case StepFinal(id, text, drained) => FinalTo(c, id, text, drained).0
    case StepContinue(id) => ContinueTo(c, id).0
    case StepEnablePartial(id) => EnablePartial(c, id)
    case StepWritten(failed, drained) => if failed then Close(c) else CheckIdle(c, drained)
    case StepIdle => Close(c.(timer := false))
    case StepEof => Shutdown(c)
    case StepShutdownDone => c.(timer := false, removed := true)
    case StepClose => Close(c)
    case StepGracefulStop => GracefulStop(c)
    case StepDrop(id) => DropRequest(c, id)
    case StepUpgrade(id) => UpgradeRequest(c, id).0
  }

  /** The request that request_error is about is still in the queue, or was answered in its callback. */
  predicate Answerable(c: Conn, id: nat) {
    || IndexOf(c.requests, id) < |c.requests|
    || exists i :: 0 <= i < |c.departed| && c.departed[i].request.id == id && c.departed[i].request.response.Some?
  }

  predicate Answering(s: Step) {
    s.StepRespond? || s.StepChunk? || s.StepFinal? || s.StepContinue? || s.StepEnablePartial?
  }

  /** The calls a user makes inside the callbacks of one part of the buffer. */
  function Play(c: Conn, calls: seq<Step>): Conn
    decreases |calls|
  {
    if calls == [] then c else Play(Next(c, calls[0]), calls[1..])
  }

  /** One part of a buffer: what the parser returns for it and what the callbacks do about it. */
  datatype Part = Part(parsed: Parsed, calls: seq<Step>, drained: bool)

  /** The state at the end of the callbacks of a part. */
  function CallbacksDone(c: Conn, part: Part): Conn {
    var d := Arrive(c, part.parsed);
    if d.phase.Quiet? then d else Play(d, part.calls)
  }

  /** What the loop body of on_read does with a part. */
  function ReadPart(c: Conn, part: Part): Conn {
    var d := CallbacksDone(c, part);
    match d.phase
    case Quiet => d
    case InError(_) => ErrorTail(d, part.drained)
    case InLoop(_, _, _) => Tail(d, part.drained)
  }

  /** Whether the loop takes the next part of the buffer. */
  predicate ReadsOn(c: Conn, part: Part) {
    var d := CallbacksDone(c, part);
    d.phase.InLoop? && LoopGoesOn(d)
  }

  /** on_read with a buffer in parts. */
  function ReadAll(c: Conn, parts: seq<Part>): Conn
    decreases |parts|
  {
    if parts == [] then c
    else if ReadsOn(c, parts[0]) then ReadAll(ReadPart(c, parts[0]), parts[1..])
    else ReadPart(c, parts[0])
  }

  /** When the event loop or a user can take a step. Nothing is read after reading has been stopped
      or the connection has gone down; inside on_read's callbacks users only answer. */
  predicate Enabled(c: Conn, s: Step) {
    match s
    case StepArrive(_) => c.phase.Quiet? && c.link.Up? && !c.readIgnored
    case StepReadError(_) => c.phase.Quiet? && c.link.Up? && !c.readIgnored
    case StepTail(_) => c.phase.InLoop?
    case StepErrorTail(_) => c.phase.InError? && Answerable(c, c.phase.id)
    case StepRespond(_, _, _) => true
    case StepChunk(_, _) => true
    case StepFinal(_, _, _) => true
    case StepContinue(_) => true
    case StepEnablePartial(_) => true
    case StepIdle => c.phase.Quiet? && c.timer
    case StepShutdownDone => c.phase.Quiet? && c.link.Shut?
    case _ => c.phase.Quiet?
  }

  function Run(c: Conn, steps: seq<Step>): Conn {
    if steps == [] then c else Next(Run(c, steps[..|steps| - 1]), steps[|steps| - 1])
  }

  predicate Legal(c: Conn, steps: seq<Step>) {
    if steps == [] then true
    else
      && Legal(c, steps[..|steps| - 1])
      && Enabled(Run(c, steps[..|steps| - 1]), steps[|steps| - 1])
  }
}

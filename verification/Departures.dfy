/** Runs of a server connection in which the code does less than one would expect. When it does so in
    general is proved in Wire, Serving, Lifetime, Recursion, Reader and Hanging. */
module Departures {
  import opened Options
  import opened Wire
  import opened Connection
  import opened Invariant
  import opened Pipelining
  import opened Serving
  import opened Lifetime
  import opened Recursion
  import opened Reader
  import opened Hanging

  const KeepAlive := Header(true, false, false, NoUpgrade)
  const Streamed := Response(200, true, true, [], false)

  /** A chunked response is in progress and a second request waits behind it. */
  ghost predicate StreamingPair(c: Conn) {
    && c.phase.Quiet? && c.link.Up? && !c.closing && !c.stopping
    && |c.requests| == 2 && c.departed == []
    && c.requests[0].id == 0 && c.requests[0].done && c.requests[0].response.Some?
    && !c.requests[0].response.value.completed
    && c.requests[1].id == 1 && c.requests[1].done && c.requests[1].header.keepAlive
  }

  const WholeRequest := StepArrive(Parsed(KeepAlive, Done))

  /** Two whole requests arrive; a streamed response to the first is begun. */
  const StreamingRun: seq<Step> := [WholeRequest, StepRespond(0, Streamed, false), StepTail(false), WholeRequest, StepTail(false)]

  lemma StreamingRunIs()
    ensures Legal(NewConn(0), StreamingRun)
    ensures var c := Run(NewConn(0), StreamingRun);
      StreamingPair(c) && c.maxKeepAlive == 0 && c.requests[1].response.None? && c.requests[1].calls == []
  {
    var c := NewConn(0);
    var steps: seq<Step> := [];
    RunStep(c, steps, WholeRequest);
    steps := steps + [WholeRequest];
    RunStep(c, steps, StepRespond(0, Streamed, false));
    steps := steps + [StepRespond(0, Streamed, false)];
    RunStep(c, steps, StepTail(false));
    steps := steps + [StepTail(false)];
    RunStep(c, steps, WholeRequest);
    steps := steps + [WholeRequest];
    RunStep(c, steps, StepTail(false));
    steps := steps + [StepTail(false)];
    assert steps == StreamingRun;
  }

  /** The server stops gracefully now, and the response ends. */
  const StopRun: seq<Step> := StreamingRun + [StepGracefulStop] + [StepFinal(0, "", false)]

  /** In this run the assertion of finish_request fails, and the second request is dropped unanswered. */
  lemma StopDropsQueued()
    ensures Legal(NewConn(0), StopRun)
    ensures StepFails(Run(NewConn(0), StreamingRun + [StepGracefulStop]), StepFinal(0, "", false))
    ensures var c := Run(NewConn(0), StopRun);
      |c.departed| == 2 && c.departed[1].request.id == 1 && c.departed[1].fate == Dropped(DropEvent)
  {
    StreamingRunIs();
    RunStep(NewConn(0), StreamingRun, StepGracefulStop);
    RunStep(NewConn(0), StreamingRun + [StepGracefulStop], StepFinal(0, "", false));
    hide StepFails;
    AssertionFailsIff(0, StreamingRun + [StepGracefulStop], StepFinal(0, "", false));
  }

  // ---------------------------------------------------------------- early last chunks

  /** The second request has got its whole response while the first is in progress. */
  ghost predicate EndedPair(c: Conn) {
    && StreamingPair(c)
    && c.requests[1].response.Some? && c.requests[1].response.value.completed && c.requests[1].response.value.keepAlive
    && c.requests[1].calls == [Respond(Streamed), SendFinal("bye", false)]
  }

  lemma PairRespond(c: Conn)
    requires StreamingPair(c) && c.maxKeepAlive == 0 && c.requests[1].response.None? && c.requests[1].calls == []
    ensures var d := Next(c, StepRespond(1, Streamed, false));
      StreamingPair(d) && d.requests[1].response == Some(Streamed) && d.requests[1].calls == [Respond(Streamed)]
  {
    assert IndexOf(c.requests, 1) == 1;
    assert [] + [Respond(Streamed)] == [Respond(Streamed)];
  }

  lemma PairFinal(c: Conn)
    requires StreamingPair(c) && c.requests[1].response == Some(Streamed) && c.requests[1].calls == [Respond(Streamed)]
    ensures EndedPair(Next(c, StepFinal(1, "bye", false)))
  {
    assert IndexOf(c.requests, 1) == 1;
  }

  /** The second request gets its whole response, an only chunk, while the first is in progress. */
  const QueuedRun: seq<Step> := StreamingRun + [StepRespond(1, Streamed, false)] + [StepFinal(1, "bye", false)]

  lemma QueuedEnd()
    ensures Legal(NewConn(0), QueuedRun) && EndedPair(Run(NewConn(0), QueuedRun))
  {
    StreamingRunIs();
    var c := NewConn(0);
    PairRespond(Run(c, StreamingRun));
    RunStep(c, StreamingRun, StepRespond(1, Streamed, false));
    var steps := StreamingRun + [StepRespond(1, Streamed, false)];
    PairFinal(Run(c, steps));
    RunStep(c, steps, StepFinal(1, "bye", false));
  }

  lemma LostEnd(q: Request)
    requires q.calls == [Respond(Streamed), SendFinal("bye", false)]
    ensures Lossy(q.calls) && Unterminated(q.calls)
  {
    assert q.calls[..1] == [Respond(Streamed)];
  }

  const EarlyRun: seq<Step> := QueuedRun + [StepFinal(0, "", false)]

  /** A last chunk given from within the queue, with text and with no piece before it: the text is
      lost, and so is the end of the response. */
  lemma EarlyLastChunk()
    ensures Legal(NewConn(0), EarlyRun)
    ensures var c := Run(NewConn(0), EarlyRun);
      Strip(c.wire) != SerialWire(History(c)) && !InStep(c)
  {
    QueuedEnd();
    var c := NewConn(0);
    RunStep(c, QueuedRun, StepFinal(0, "", false));
    var e := Run(c, EarlyRun);
    LastEnds(Run(c, QueuedRun), e);
    var q := e.departed[1].request;
    LostEnd(q);
    assert Gone(e.departed)[1] == q && q in History(e);
    WireIsSerial(0, EarlyRun);
    WireGrammar(0, EarlyRun);
  }

  lemma LastEnds(c: Conn, e: Conn)
    requires EndedPair(c) && e == FinalTo(c, 0, "", false).0
    ensures |e.departed| == 2 && e.departed[1].request.calls == c.requests[1].calls && e.departed[1].request.written
  {
    var q := c.requests[0];
    var ended := q.(response := Some(q.response.value.(completed := true)), calls := q.calls + [SendFinal("", true)]);
    var c1 := Write(c.(requests := c.requests[0 := ended]), [Final(0, "")]);
    assert e == Finish(c1, false);
    var c2 := Depart(c1, Answered);
    assert c2.requests == [c.requests[1]] && |c2.departed| == 1;
    assert e == WriteNext(c2, false);
    var c3 := SendFront(c2);
    SendFrontFlushes(c2);
    assert e == Finish(c3, false);
    assert c3.requests[0].calls == c.requests[1].calls && c3.requests[0].done;
    var c4 := Depart(c3, Answered);
    assert e == CheckIdle(c4, false);
  }

  // ---------------------------------------------------------------- runs with one request in progress

  /** Request 0 is alone in the queue. */
  ghost predicate Alone(c: Conn, phase: Phase, done: bool, readIgnored: bool) {
    && c.link.Up? && !c.closing && c.maxKeepAlive == 0 && c.departed == [] && c.nextId == 1
    && c.phase == phase && c.readIgnored == readIgnored
    && |c.requests| == 1 && c.requests[0].id == 0 && c.requests[0].header == KeepAlive && c.requests[0].done == done
    && c.parsing == if done then None else Some(0)
  }

  const Beginning := StepArrive(Parsed(KeepAlive, ParseState.Body))

  lemma BeginningIs()
    ensures Legal(NewConn(0), [Beginning])
    ensures var c := Run(NewConn(0), [Beginning]);
      Alone(c, InLoop(0, true, false), false, false) && c.requests[0].response.None? && !c.stopping && !c.requests[0].finishOnReceive
  {
    RunStep(NewConn(0), [], Beginning);
    assert [] + [Beginning] == [Beginning];
  }

  /** The front's response is in progress. */
  ghost predicate StreamsAlone(c: Conn, phase: Phase, done: bool, stopping: bool) {
    && Alone(c, phase, done, false) && c.stopping == stopping
    && c.requests[0].response == Some(Streamed) && !c.requests[0].finishOnReceive
  }

  // ---------------------------------------------------------------- reading on

  /** A request arrives in two parts. Its answer is begun after the first, then the server stops gracefully;
      the answer ends in the callbacks of the second part. */
  const ReadOnRun: seq<Step> :=
    [Beginning] + [StepRespond(0, Streamed, false)] + [StepTail(false)] + [StepGracefulStop] + [WholeRequest] + [StepFinal(0, "", false)]

  lemma StreamAnswer(c: Conn)
    requires Alone(c, InLoop(0, true, false), false, false) && c.requests[0].response.None? && !c.stopping
    requires !c.requests[0].finishOnReceive
    ensures Enabled(c, StepRespond(0, Streamed, false))
    ensures StreamsAlone(Next(c, StepRespond(0, Streamed, false)), InLoop(0, true, false), false, false)
  {
  }

  lemma StreamTail(c: Conn)
    requires StreamsAlone(c, InLoop(0, true, false), false, false)
    ensures Enabled(c, StepTail(false))
    ensures StreamsAlone(Next(c, StepTail(false)), Quiet, false, false)
  {
  }

  lemma StreamStop(c: Conn)
    requires StreamsAlone(c, Quiet, false, false)
    ensures Enabled(c, StepGracefulStop)
    ensures StreamsAlone(Next(c, StepGracefulStop), Quiet, false, true)
  {
  }

  lemma StreamReceived(c: Conn)
    requires StreamsAlone(c, Quiet, false, true)
    ensures Enabled(c, WholeRequest)
    ensures StreamsAlone(Next(c, WholeRequest), InLoop(0, true, true), true, true)
  {
  }

  lemma StreamEnds(c: Conn)
    requires StreamsAlone(c, InLoop(0, true, true), true, true)
    ensures Enabled(c, StepFinal(0, "", false))
    ensures var d := Next(c, StepFinal(0, "", false));
      d.phase == InLoop(0, true, true) && d.requests == [] && !d.link.Up? && !d.closing
  {
  }

  /** In this run the loop of on_read goes on although the connection is down. */
  lemma ReadsOnDead()
    ensures Legal(NewConn(0), ReadOnRun)
    ensures var c := Run(NewConn(0), ReadOnRun);
      c.phase == InLoop(0, true, true) && !c.link.Up? && LoopGoesOn(c) && !Tail(c, false).link.Up?
  {
    hide StreamsAlone, Alone, Next, Enabled, Run, Legal;
    var c := NewConn(0);
    BeginningIs();
    var steps := [Beginning];
    StreamAnswer(Run(c, steps));
    RunStep(c, steps, StepRespond(0, Streamed, false));
    steps := steps + [StepRespond(0, Streamed, false)];
    StreamTail(Run(c, steps));
    RunStep(c, steps, StepTail(false));
    steps := steps + [StepTail(false)];
    StreamStop(Run(c, steps));
    RunStep(c, steps, StepGracefulStop);
    steps := steps + [StepGracefulStop];
    StreamReceived(Run(c, steps));
    RunStep(c, steps, WholeRequest);
    steps := steps + [WholeRequest];
    StreamEnds(Run(c, steps));
    RunStep(c, steps, StepFinal(0, "", false));
    Dead(Run(c, ReadOnRun));
  }

  /** A request arrives in two parts and is answered in full, without keep-alive, after the first. */
  const ReadOnClosingRun: seq<Step> := [Beginning] + [ClosingPlain] + [StepTail(false)] + [WholeRequest]

  const ClosingPlain: Step := StepRespond(0, Plain.(keepAlive := false), false)

  /** The closing answer of the request waits for its end. */
  ghost predicate ClosesAlone(c: Conn, phase: Phase, done: bool) {
    && c.link.Up? && c.closing && !c.readIgnored && c.maxKeepAlive == 0 && c.nextId == 1 && c.phase == phase
    && |c.requests| == 1 && c.requests[0].id == 0 && c.requests[0].done == done && c.requests[0].finishOnReceive
    && c.requests[0].header == KeepAlive && c.requests[0].response.Some? && c.requests[0].response.value.completed
    && c.parsing == if done then None else Some(0)
  }

  lemma ClosingAnswered(c: Conn)
    requires Alone(c, InLoop(0, true, false), false, false) && c.requests[0].response.None? && !c.stopping
    ensures Enabled(c, ClosingPlain) && ClosesAlone(Next(c, ClosingPlain), InLoop(0, true, false), false)
  {
    var t := Take(c, 0, Plain.(keepAlive := false));
    assert Next(c, ClosingPlain) == WriteNext(t, false);
    var e := SendFront(t);
    assert |e.requests| == 1 && !e.requests[0].done && e.closing && !e.readIgnored;
    assert WriteNext(t, false) == Finish(e, false);
  }

  lemma ClosingTail(c: Conn)
    requires ClosesAlone(c, InLoop(0, true, false), false)
    ensures Enabled(c, StepTail(false)) && ClosesAlone(Next(c, StepTail(false)), Quiet, false)
  {
  }

  lemma ClosingReceived(c: Conn)
    requires ClosesAlone(c, Quiet, false)
    ensures Enabled(c, WholeRequest) && ClosesAlone(Next(c, WholeRequest), InLoop(0, true, true), true)
  {
  }

  lemma ClosingEnds(c: Conn)
    requires ClosesAlone(c, InLoop(0, true, true), true)
    ensures c.link.Up? && LoopGoesOn(c) && !Tail(c, false).link.Up?
  {
  }

  /** In this run finish_request takes the connection down in the loop body, and the loop goes on. */
  lemma ReadsOnAfterFinish()
    ensures Legal(NewConn(0), ReadOnClosingRun)
    ensures var c := Run(NewConn(0), ReadOnClosingRun);
      c.phase.InLoop? && c.link.Up? && LoopGoesOn(c) && !Tail(c, false).link.Up?
  {
    hide ClosesAlone, Alone, Next, Enabled, Run, Legal;
    var c := NewConn(0);
    BeginningIs();
    var steps := [Beginning];
    ClosingAnswered(Run(c, steps));
    RunStep(c, steps, ClosingPlain);
    steps := steps + [ClosingPlain];
    ClosingTail(Run(c, steps));
    RunStep(c, steps, StepTail(false));
    steps := steps + [StepTail(false)];
    ClosingReceived(Run(c, steps));
    RunStep(c, steps, WholeRequest);
    ClosingPhase(Run(c, ReadOnClosingRun));
    ClosingEnds(Run(c, ReadOnClosingRun));
  }

  lemma ClosingPhase(c: Conn)
    requires ClosesAlone(c, InLoop(0, true, true), true)
    ensures c.phase == InLoop(0, true, true)
  {
  }

  lemma Dead(c: Conn)
    requires c.phase == InLoop(0, true, true) && c.requests == [] && !c.link.Up? && !c.closing
    ensures LoopGoesOn(c) && !Tail(c, false).link.Up?
  {
  }

  // ---------------------------------------------------------------- requests in error

  /** Request 0 has been received in full; request 1 is in error, and its callbacks run. */
  ghost predicate ErrorPair(c: Conn, stopping: bool) {
    && c.link.Up? && !c.closing && c.maxKeepAlive == 0 && c.departed == [] && c.stopping == stopping
    && c.phase == InError(1)
    && |c.requests| == 2 && c.requests[0].id == 0 && c.requests[0].header == KeepAlive && c.requests[0].done
    && !c.requests[0].finishOnReceive
    && c.requests[1].id == 1 && c.requests[1].response.None?
  }

  const BadPart := StepArrive(Parsed(KeepAlive, Error))
  const ClosingAnswer := StepRespond(0, Streamed.(keepAlive := false), false)

  /** A whole request, then one in error; its error callback answers the first without keep-alive. */
  const ErrorRun: seq<Step> := [WholeRequest] + [StepTail(false)] + [BadPart] + [ClosingAnswer]

  lemma WholeIs()
    ensures Legal(NewConn(0), [WholeRequest] + [StepTail(false)])
    ensures var c := Run(NewConn(0), [WholeRequest] + [StepTail(false)]);
      Alone(c, Quiet, true, false) && c.requests[0].response.None? && !c.stopping && !c.requests[0].finishOnReceive
  {
    RunStep(NewConn(0), [], WholeRequest);
    assert [] + [WholeRequest] == [WholeRequest];
    RunStep(NewConn(0), [WholeRequest], StepTail(false));
  }

  lemma BadArrives(c: Conn, stopping: bool)
    requires Alone(c, Quiet, true, false) && c.stopping == stopping && !c.requests[0].finishOnReceive
    ensures Enabled(c, BadPart) && ErrorPair(Next(c, BadPart), stopping)
    ensures Next(c, BadPart).requests[0].response == c.requests[0].response
  {
  }

  lemma AnswerDrops(c: Conn)
    requires ErrorPair(c, false) && c.requests[0].response.None?
    ensures Enabled(c, ClosingAnswer)
    ensures var d := Next(c, ClosingAnswer);
      d.link.Up? && d.phase == InError(1) && !Answerable(d, 1)
  {
    var t := Take(c, 0, Streamed.(keepAlive := false));
    assert Next(c, ClosingAnswer) == WriteNext(t, false) == SendFront(t);
    var d := SendFront(t);
    assert d.requests == [d.requests[0]] && d.requests[0].id == 0;
    assert |d.departed| == 1 && d.departed[0].request.response.None?;
  }

  /** In this run the request in error is dropped by its own error callback. */
  lemma ErrorDropsItself()
    ensures Legal(NewConn(0), ErrorRun)
    ensures var c := Run(NewConn(0), ErrorRun);
      c.link.Up? && c.phase == InError(1) && !Answerable(c, 1)
  {
    hide ErrorPair, Alone, Next, Enabled, Run, Legal, Answerable;
    var c := NewConn(0);
    WholeIs();
    var steps := [WholeRequest] + [StepTail(false)];
    BadArrives(Run(c, steps), false);
    RunStep(c, steps, BadPart);
    steps := steps + [BadPart];
    AnswerDrops(Run(c, steps));
    RunStep(c, steps, ClosingAnswer);
  }

  /** A response to a whole request is begun, the server stops gracefully, a request in error arrives, and
      its error callback ends that response. */
  const ErrorShutRun: seq<Step> :=
    [WholeRequest] + [StepTail(false)] + [StepRespond(0, Streamed, false)] + [StepGracefulStop] + [BadPart] + [StepFinal(0, "", false)]

  lemma WholeStreams(c: Conn)
    requires Alone(c, Quiet, true, false) && c.requests[0].response.None? && !c.stopping && !c.requests[0].finishOnReceive
    ensures Enabled(c, StepRespond(0, Streamed, false))
    ensures StreamsAlone(Next(c, StepRespond(0, Streamed, false)), Quiet, true, false)
  {
  }

  lemma WholeStops(c: Conn)
    requires StreamsAlone(c, Quiet, true, false)
    ensures Enabled(c, StepGracefulStop) && StreamsAlone(Next(c, StepGracefulStop), Quiet, true, true)
  {
  }

  lemma EndDrops(c: Conn)
    requires ErrorPair(c, true) && c.requests[0].response == Some(Streamed)
    ensures Enabled(c, StepFinal(0, "", false))
    ensures var d := Next(c, StepFinal(0, "", false));
      d.link.Shut? && !d.closing && d.requests == [] && d.phase == InError(1) && !Answerable(d, 1)
  {
    var s := StepFinal(0, "", false);
    EndedIs(c, s);
    var e := Ended(c, "");
    assert e.requests[0].id == 0 && e.requests[1] == c.requests[1] && e.departed == [];
    var d := Finish(e, false);
    assert |d.departed| == 2 && d.departed[0].request.id == 0 && d.departed[1].request == c.requests[1];
  }

  /** In this run it is dropped because the connection goes down in the callback. */
  lemma ErrorAfterShutdown()
    ensures Legal(NewConn(0), ErrorShutRun)
    ensures var c := Run(NewConn(0), ErrorShutRun);
      c.link.Shut? && !c.closing && c.requests == [] && c.phase == InError(1) && !Answerable(c, 1)
  {
    hide ErrorPair, Alone, StreamsAlone, Next, Enabled, Run, Legal, Answerable;
    var c := NewConn(0);
    WholeIs();
    var steps := [WholeRequest] + [StepTail(false)];
    WholeStreams(Run(c, steps));
    RunStep(c, steps, StepRespond(0, Streamed, false));
    steps := steps + [StepRespond(0, Streamed, false)];
    WholeStops(Run(c, steps));
    RunStep(c, steps, StepGracefulStop);
    steps := steps + [StepGracefulStop];
    StreamsIsAlone(Run(c, steps));
    BadArrives(Run(c, steps), true);
    RunStep(c, steps, BadPart);
    steps := steps + [BadPart];
    EndDrops(Run(c, steps));
    RunStep(c, steps, StepFinal(0, "", false));
  }

  lemma StreamsIsAlone(c: Conn)
    requires StreamsAlone(c, Quiet, true, true)
    ensures Alone(c, Quiet, true, false) && c.stopping && !c.requests[0].finishOnReceive
    ensures c.requests[0].response == Some(Streamed)
  {
  }

  // ---------------------------------------------------------------- hanging

  const Plain: Response := Response(200, true, false, ["x"], false)

  /** A request is answered before its end has arrived, and then turns out to be in error. */
  const StuckRun: seq<Step> := [Beginning] + [StepRespond(0, Plain, false)] + [StepTail(false)] + [BadPart] + [StepErrorTail(false)]

  lemma EarlyAnswer(c: Conn)
    requires Alone(c, InLoop(0, true, false), false, false) && c.requests[0].response.None? && !c.stopping
    ensures Enabled(c, StepRespond(0, Plain, false))
    ensures var d := Next(c, StepRespond(0, Plain, false));
      Alone(d, InLoop(0, true, false), false, false) && Waits(d) && d.requests[0].response.Some? && d.requests[0].response.value.completed
    {
    var t := Take(c, 0, Plain);
    assert Next(c, StepRespond(0, Plain, false)) == WriteNext(t, false);
    var e := SendFront(t);
    assert |e.requests| == 1 && !e.requests[0].done && e.departed == [];
    assert WriteNext(t, false) == Finish(e, false);
  }

  lemma EarlyTail(c: Conn)
    requires Alone(c, InLoop(0, true, false), false, false) && Waits(c)
    ensures Enabled(c, StepTail(false))
    ensures var d := Next(c, StepTail(false)); Alone(d, Quiet, false, false) && d.requests == c.requests && Waits(d)
  {
  }

  lemma EarlyError(c: Conn)
    requires Alone(c, Quiet, false, false) && Waits(c) && c.requests[0].response.Some? && c.requests[0].response.value.completed
    ensures Enabled(c, BadPart)
    ensures var d := Next(c, BadPart);
      Alone(d, InError(0), true, true) && Waits(d) && d.requests[0].response.Some? && d.requests[0].response.value.completed
  {
  }

  lemma EarlyErrorTail(c: Conn)
    requires Alone(c, InError(0), true, true) && Waits(c) && c.requests[0].response.Some? && c.requests[0].response.value.completed
    ensures Enabled(c, StepErrorTail(false))
    ensures Hangs(Next(c, StepErrorTail(false))) && Stuck(Next(c, StepErrorTail(false)))
  {
  }

  /** In this run the request is received and answered and stays for ever. */
  lemma ErrorHangs()
    ensures Legal(NewConn(0), StuckRun)
    ensures Hangs(Run(NewConn(0), StuckRun)) && Stuck(Run(NewConn(0), StuckRun))
  {
    hide Alone, Waits, Next, Enabled, Run, Legal, Stuck, Hangs;
    var c := NewConn(0);
    BeginningIs();
    var steps := [Beginning];
    EarlyAnswer(Run(c, steps));
    RunStep(c, steps, StepRespond(0, Plain, false));
    steps := steps + [StepRespond(0, Plain, false)];
    EarlyTail(Run(c, steps));
    RunStep(c, steps, StepTail(false));
    steps := steps + [StepTail(false)];
    EarlyError(Run(c, steps));
    RunStep(c, steps, BadPart);
    steps := steps + [BadPart];
    EarlyErrorTail(Run(c, steps));
    RunStep(c, steps, StepErrorTail(false));
  }

  const LateUpgrade := StepArrive(Parsed(Header(true, false, false, UpgradeExact), ParseState.Body))

  /** A request to upgrade arrives behind another one and is refused before its end has arrived; then the
      first request is answered. */
  const RefusedRun: seq<Step> := [WholeRequest] + [StepTail(false)] + [LateUpgrade] + [StepErrorTail(false)] + [StepRespond(0, Plain, false)]

  /** Behind request 0 waits the answer that refuses request 1, which will never be received. */
  ghost predicate RefusedPair(c: Conn, phase: Phase) {
    && c.link.Up? && !c.closing && !c.stopping && c.maxKeepAlive == 0 && c.readIgnored && c.phase == phase
    && |c.requests| == 2 && c.requests[0].id == 0 && c.requests[0].header == KeepAlive && c.requests[0].done
    && c.requests[0].response.None?
    && c.requests[1].id == 1 && !c.requests[1].done
  }

  lemma UpgradeArrives(c: Conn)
    requires Alone(c, Quiet, true, false) && c.requests[0].response.None? && !c.stopping
    ensures Enabled(c, LateUpgrade)
    ensures var d := Next(c, LateUpgrade); RefusedPair(d, InError(1)) && d.requests[1].response.None?
  {
  }

  lemma UpgradeRefused(c: Conn)
    requires RefusedPair(c, InError(1)) && c.requests[1].response.None?
    ensures Enabled(c, StepErrorTail(false))
    ensures var d := Next(c, StepErrorTail(false));
      RefusedPair(d, Quiet) && d.requests[1].response.Some? && d.requests[1].response.value.completed
  {
    assert IndexOf(c.requests, 1) == 1;
  }

  lemma RefusedHangs(c: Conn)
    requires Inv(c) && RefusedPair(c, Quiet) && c.requests[1].response.Some? && c.requests[1].response.value.completed
    ensures Enabled(c, StepRespond(0, Plain, false))
    ensures var d := Next(c, StepRespond(0, Plain, false)); Hangs(d) && !Stuck(d)
  {
    var s := StepRespond(0, Plain, false);
    assert AnswersFront(c, s) && Flows(c.requests);
    CallHangsIff(c, s);
    CallStays(c, s);
    var d := Next(c, s);
    hide Inv, Next;
    if Stuck(d) {
      assert d.requests[0] in d.requests;
      WaitingIsUnreceived(c, s);
    }
  }

  lemma WaitingIsUnreceived(c: Conn, s: Step)
    requires Inv(c) && RefusedPair(c, Quiet) && s == StepRespond(0, Plain, false) && Waits(Next(c, s))
    ensures !Next(c, s).requests[0].done
  {
    var d := Next(c, s);
    CallStays(c, s);
    assert d.requests[0] in d.requests;
    var q :| q in c.requests && StaysAs(q, d.requests[0]);
    InvAnswerInFront(c);
  }

  /** In this run request 1 waits for ever, although nothing is wrong with its answer. */
  lemma RefusedUpgradeHangs()
    ensures Legal(NewConn(0), RefusedRun)
    ensures Hangs(Run(NewConn(0), RefusedRun)) && !Stuck(Run(NewConn(0), RefusedRun))
  {
    hide Alone, RefusedPair, Next, Enabled, Run, Legal, Stuck, Hangs, Inv;
    var c := NewConn(0);
    WholeIs();
    var steps := [WholeRequest] + [StepTail(false)];
    UpgradeArrives(Run(c, steps));
    RunStep(c, steps, LateUpgrade);
    steps := steps + [LateUpgrade];
    UpgradeRefused(Run(c, steps));
    RunStep(c, steps, StepErrorTail(false));
    steps := steps + [StepErrorTail(false)];
    RunKeeps(0, steps);
    RefusedHangs(Run(c, steps));
    RunStep(c, steps, StepRespond(0, Plain, false));
  }
}

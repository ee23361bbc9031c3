/** What the events of a connection and the calls on it achieve: when it goes down, what a graceful stop leaves
    to do, upgrades, interim responses and the idle timer. */
module Effects {
  import opened Options
  import opened Wire
  import opened Connection
  import opened Invariant
  import opened Pipelining
  import opened Serving
  import opened Lifetime
  import opened Recursion
  import opened Reader
  import opened Closing
  import opened WireOrder

  // ---------------------------------------------------------------- a stopping connection has something to do

  ghost predicate BusyWhileStopping(c: Conn) { c.stopping && c.link.Up? ==> c.requests != [] }

  lemma {:induction false} FinishBusy(c: Conn, drained: bool)
    requires c.requests != []
    ensures BusyWhileStopping(Finish(c, drained))
    decreases |c.requests|, 0
  {
    hide WriteNext;
    var d := Depart(c, Answered);
    if c.requests[0].done && !c.closing && !c.stopping && d.requests != [] && d.requests[0].response.Some? { WriteNextBusy(d, drained); }
  }

  lemma {:induction false} WriteNextBusy(c: Conn, drained: bool)
    requires c.requests != [] && c.requests[0].response.Some?
    ensures BusyWhileStopping(WriteNext(c, drained))
    decreases |c.requests|, 1
  {
    SendFrontLeaves(c);
    WriteNextIs(c, drained);
    hide SendFront, WriteNext, Finish;
    if c.requests[0].response.value.completed { FinishBusy(SendFront(c), drained); }
  }

  lemma {:induction false} StepBusy(c: Conn, s: Step)
    requires BusyWhileStopping(c) && Enabled(c, s)
    ensures BusyWhileStopping(Next(c, s))
  {
    if EndsFront(c, s) {
      EndedIs(c, s);
      assert Ended(c, s.text).requests != [];
      hide Next;
      FinishBusy(Ended(c, s.text), s.drained);
    } else if AnswersFront(c, s) {
      GivenIs(c, s);
      assert Given(c, s).requests != [] && Given(c, s).requests[0].response.Some? by { GivenSome(c, s); }
      hide Next, Given;
      WriteNextBusy(Given(c, s), s.drained);
    } else if Answering(s) {
      CallBusy(c, s);
    } else {
      hide BusyWhileStopping, Arrive, ReadError, Tail, ErrorTail;
      match s
      case StepArrive(p) => ArriveBusy(c, p);
      case StepReadError(header) => ReadErrorBusy(c, header);
      case StepTail(drained) => TailBusy(c, drained);
      case StepErrorTail(drained) => ErrorTailBusy(c, drained);
      case _ => OtherBusy(c, s);
    }
  }

  lemma GivenSome(c: Conn, s: Step)
    requires AnswersFront(c, s)
    ensures Given(c, s).requests != [] && Given(c, s).requests[0].response.Some?
  {
  }

  lemma CallBusy(c: Conn, s: Step)
    requires BusyWhileStopping(c) && Answering(s) && !EndsFront(c, s) && !AnswersFront(c, s)
    ensures BusyWhileStopping(Next(c, s))
  {
    OtherCallSame(c, s);
    hide Next;
  }

  /** A call that sends nothing on its way leaves all this alone. */
  lemma OtherCallSame(c: Conn, s: Step)
    requires Answering(s) && !EndsFront(c, s) && !AnswersFront(c, s)
    ensures var d := Next(c, s);
      d.link == c.link && |d.requests| == |c.requests| && d.stopping == c.stopping && d.closing == c.closing
      && d.timer == c.timer && d.departed == c.departed && d.removed == c.removed && d.readIgnored == c.readIgnored
  {
    hide ChunkTo, FinalTo, RespondTo;
    match s
    case StepRespond(id, r, drained) => RespondSame(c, id, r, drained);
    case StepChunk(id, text) => ChunkSame(c, id, text);
    case StepFinal(id, text, drained) => FinalSame(c, id, text, drained);
    case _ =>
  }

  lemma RespondSame(c: Conn, id: nat, r: Response, drained: bool)
    requires !AnswersFront(c, StepRespond(id, r, drained))
    ensures var d := RespondTo(c, id, r, drained).0;
      d.link == c.link && |d.requests| == |c.requests| && d.stopping == c.stopping && d.closing == c.closing
      && d.timer == c.timer && d.departed == c.departed && d.removed == c.removed && d.readIgnored == c.readIgnored
  {
    hide WriteNext, IndexOf, Taken;
  }

  lemma ChunkSame(c: Conn, id: nat, text: string)
    ensures var d := ChunkTo(c, id, text).0;
      d.link == c.link && |d.requests| == |c.requests| && d.stopping == c.stopping && d.closing == c.closing
      && d.timer == c.timer && d.departed == c.departed && d.removed == c.removed && d.readIgnored == c.readIgnored
  {
    hide CompletedBefore;
    var k := IndexOf(c.requests, id);
    hide IndexOf;
    if k < |c.requests| && c.requests[k].response.Some? && !c.requests[k].response.value.completed {
      var b := c.(requests := ChunkTo(c, id, text).0.requests);
      assert |b.requests| == |c.requests|;
    }
  }

  lemma FinalSame(c: Conn, id: nat, text: string, drained: bool)
    requires !EndsFront(c, StepFinal(id, text, drained))
    ensures var d := FinalTo(c, id, text, drained).0;
      d.link == c.link && |d.requests| == |c.requests| && d.stopping == c.stopping && d.closing == c.closing
      && d.timer == c.timer && d.departed == c.departed && d.removed == c.removed && d.readIgnored == c.readIgnored
  {
    hide IndexOf, CompletedBefore, Finish;
  }

  lemma ArriveBusy(c: Conn, p: Parsed)
    ensures BusyWhileStopping(Arrive(c, p))
  {
    assert Receive(c, p).requests != [];
    hide Receive;
  }

  lemma ReadErrorBusy(c: Conn, header: Header)
    ensures BusyWhileStopping(ReadError(c, header))
  {
  }

  lemma {:induction false} TailBusy(c: Conn, drained: bool)
    requires c.phase.InLoop? && BusyWhileStopping(c)
    ensures BusyWhileStopping(Tail(c, drained))
  {
    hide Finish;
    if c.requests != [] { FinishBusy(c.(phase := Quiet), drained); }
  }

  lemma ErrorTailBusy(c: Conn, drained: bool)
    requires c.phase.InError? && BusyWhileStopping(c) && !AnswersFront(c, StepErrorTail(drained))
    ensures BusyWhileStopping(ErrorTail(c, drained))
  {
    hide WriteNext, IndexOf, Taken;
  }

  lemma OtherBusy(c: Conn, s: Step)
    requires BusyWhileStopping(c) && !Answering(s) && !ReadingStep(s)
    ensures BusyWhileStopping(Next(c, s))
  {
    hide Drops, IndexOf;
  }

  /** In every reachable state: a connection that is stopping and still up has a request to answer. */
  lemma {:induction false} StoppingIsBusy(maxKeepAlive: nat, steps: seq<Step>)
    requires Legal(NewConn(maxKeepAlive), steps)
    ensures var c := Run(NewConn(maxKeepAlive), steps); c.stopping && c.link.Up? ==> c.requests != []
  {
    hide Next, Enabled;
    if steps != [] {
      StoppingIsBusy(maxKeepAlive, steps[..|steps| - 1]);
      StepBusy(Run(NewConn(maxKeepAlive), steps[..|steps| - 1]), steps[|steps| - 1]);
    }
  }

  // ---------------------------------------------------------------- when a connection goes down

  /** Answers flow from the front up to a head that closes the connection, and this one leaves too. */
  predicate EndsClosed(qs: seq<Request>)
    decreases |qs|
  {
    && qs != [] && qs[0].response.Some? && qs[0].response.value.completed && qs[0].done
    && (KeepsOn(qs[0]) ==> EndsClosed(qs[1..]))
  }

  lemma {:induction false} FinishDownIff(c: Conn, drained: bool)
    requires c.requests != [] && c.link.Up?
    ensures !Finish(c, drained).link.Up? <==>
      c.requests[0].done && (c.closing || c.stopping || EndsClosed(c.requests[1..]))
    decreases |c.requests|, 0
  {
    hide WriteNext, EndsClosed;
    var d := Depart(c, Answered);
    if c.requests[0].done && !c.closing && !c.stopping {
      if d.requests != [] && d.requests[0].response.Some? { WriteNextDownIff(d, drained); } else { NotYetClosed(d.requests); }
    }
  }

  lemma {:induction false} NotYetClosed(qs: seq<Request>)
    requires qs == [] || qs[0].response.None? || !qs[0].response.value.completed || !qs[0].done
    ensures !EndsClosed(qs)
  {
  }

  lemma {:induction false} WriteNextDownIff(c: Conn, drained: bool)
    requires c.requests != [] && c.requests[0].response.Some? && c.link.Up? && !c.closing
    requires c.stopping ==> !c.requests[0].response.value.keepAlive
    ensures !WriteNext(c, drained).link.Up? <==> EndsClosed(c.requests)
    decreases |c.requests|, 1
  {
    WriteNextIs(c, drained);
    SendFrontLeaves(c);
    SentRest(c);
    hide SendFront, WriteNext, Finish;
    if c.requests[0].response.value.completed { FinishDownIff(SendFront(c), drained); }
  }

  /** The response that the front is given. */
  function GivenTo(c: Conn, s: Step): Response
    requires s.StepRespond? || s.StepErrorTail?
  {
    var r := if s.StepRespond? then s.response else Response(400, false, false, ["x"], false);
    var mayKeep := !c.stopping && !(c.maxKeepAlive > 0 && c.processed + 1 >= c.maxKeepAlive && |c.requests| == 1);
    r.(keepAlive := r.keepAlive && mayKeep, completed := !r.chunked || r.parts != [])
  }

  /** The steps that take a connection down. */
  predicate TakesDown(c: Conn, s: Step) {
    match s
    case StepEof => true
    case StepClose => true
    case StepIdle => true
    case StepWritten(failed, _) => failed
    case StepGracefulStop => c.requests == []
    case StepDrop(id) =>
      exists i :: 0 <= i < |c.requests| && c.requests[i].id == id
        && (c.requests[i].response.Some? ==> !c.requests[i].response.value.completed)
    case StepUpgrade(id) => |c.requests| == 1 && c.requests[0].id == id && !c.requests[0].header.upgrade.NoUpgrade?
    case StepRespond(_, _, _) =>
      AnswersFront(c, s) && EndsClosed([c.requests[0].(response := Some(GivenTo(c, s)))] + c.requests[1..])
    case StepErrorTail(_) =>
      AnswersFront(c, s) && EndsClosed([c.requests[0].(response := Some(GivenTo(c, s)))] + c.requests[1..])
    case StepFinal(_, _, _) =>
      EndsFront(c, s) && c.requests[0].done && (c.closing || c.stopping || EndsClosed(c.requests[1..]))
    case StepTail(_) => EndsWaiting(c, s) && (c.closing || c.stopping)
    case _ => false
  }

  lemma {:induction false} EndDownIff(c: Conn, s: Step)
    requires c.link.Up? && EndsFront(c, s)
    ensures !Next(c, s).link.Up? <==> TakesDown(c, s)
  {
    EndedIs(c, s);
    var e := Ended(c, s.text);
    assert e.link.Up? && e.closing == c.closing && e.stopping == c.stopping && e.requests != [];
    assert e.requests[0].done == c.requests[0].done && e.requests[1..] == c.requests[1..];
    hide Next, Ended, EndsClosed, Finish;
    FinishDownIff(e, s.drained);
  }

  lemma {:induction false} AnswerDownIff(c: Conn, s: Step)
    requires Inv(c) && c.link.Up? && AnswersFront(c, s)
    ensures !Next(c, s).link.Up? <==> TakesDown(c, s)
  {
    GivenIs(c, s);
    GivenCanSend(c, s);
    CanSendUp(Given(c, s));
    var g := Given(c, s);
    var a := [c.requests[0].(response := Some(GivenTo(c, s)))] + c.requests[1..];
    GivenQueue(c, s);
    hide Next, Given, EndsClosed, WriteNext, Inv, CanSend, ReadOk;
    WriteNextDownIff(g, s.drained);
    ClosedAlike(g.requests, a);
  }

  lemma GivenQueue(c: Conn, s: Step)
    requires AnswersFront(c, s)
    ensures var g := Given(c, s);
      && g.requests != [] && g.requests[1..] == c.requests[1..]
      && g.requests[0].response == Some(GivenTo(c, s)) && g.requests[0].done == c.requests[0].done
      && g.requests[0].header == c.requests[0].header
  {
  }

  lemma {:induction false} ClosedAlike(qs: seq<Request>, rs: seq<Request>)
    requires qs != [] && rs != [] && qs[1..] == rs[1..] && qs[0].response == rs[0].response
    requires qs[0].done == rs[0].done && qs[0].header == rs[0].header
    ensures EndsClosed(qs) == EndsClosed(rs)
  {
  }

  lemma {:induction false} TailDownIff(c: Conn, drained: bool)
    requires Inv(c) && c.link.Up? && c.phase.InLoop?
    ensures !Tail(c, drained).link.Up? <==> TakesDown(c, StepTail(drained))
  {
    var s := StepTail(drained);
    if EndsWaiting(c, s) {
      assert |c.requests| == 1 && c.requests[0].done;
      hide Inv;
      FinishDownIff(c.(phase := Quiet), drained);
      hide Finish;
    } else {
      hide Inv, Finish;
    }
  }

  lemma ErrorTailStays(c: Conn, drained: bool)
    requires c.phase.InError? && !AnswersFront(c, StepErrorTail(drained))
    ensures ErrorTail(c, drained).link == c.link
  {
    hide WriteNext, IndexOf, Taken;
  }

  lemma {:induction false} DropDownIff(c: Conn, id: nat)
    requires Inv(c) && c.link.Up?
    ensures !DropRequest(c, id).link.Up? <==> TakesDown(c, StepDrop(id))
    ensures !TakesDown(c, StepDrop(id)) ==> DropRequest(c, id) == c
  {
    hide Inv, IndexOf, DropRequest, Close;
    DropIs(c, id);
    var k := IndexOf(c.requests, id);
    if i :| 0 <= i < |c.requests| && c.requests[i].id == id && (c.requests[i].response.Some? ==> !c.requests[i].response.value.completed) {
      OneOf(c, i, k);
    }
  }

  lemma {:induction false} DropIs(c: Conn, id: nat)
    ensures var k := IndexOf(c.requests, id);
      DropRequest(c, id) ==
        if k < |c.requests| && (c.requests[k].response.Some? ==> !c.requests[k].response.value.completed) then Close(c) else c
    ensures Close(c).link == Reset
  {
    hide IndexOf;
  }

  /** In every reachable state in which the connection is up: a step takes it down if and only if it is one of
      these. */
  lemma {:induction false} DownIff(maxKeepAlive: nat, steps: seq<Step>, s: Step)
    requires Legal(NewConn(maxKeepAlive), steps) && Enabled(Run(NewConn(maxKeepAlive), steps), s)
    requires Run(NewConn(maxKeepAlive), steps).link.Up?
    ensures var c := Run(NewConn(maxKeepAlive), steps);
      !Next(c, s).link.Up? <==> TakesDown(c, s)
  {
    RunKeeps(maxKeepAlive, steps);
    hide Legal, Run, Inv;
    StepDownIff(Run(NewConn(maxKeepAlive), steps), s);
  }

  lemma {:induction false} StepDownIff(c: Conn, s: Step)
    requires Inv(c) && c.link.Up? && Enabled(c, s)
    ensures !Next(c, s).link.Up? <==> TakesDown(c, s)
  {
    if EndsFront(c, s) {
      EndDownIff(c, s);
    } else if AnswersFront(c, s) {
      AnswerDownIff(c, s);
    } else if Answering(s) {
      OtherCallSame(c, s);
      hide Inv, Next;
    } else {
      hide Inv, Arrive, ReadError, Tail, ErrorTail, TakesDown, DropRequest;
      match s
      case StepArrive(p) => ArriveLink(c, p);
      case StepTail(drained) => TailDownIff(c, drained);
      case StepErrorTail(drained) => ErrorTailStays(c, drained);
      case StepDrop(id) => DropDownIff(c, id);
      case _ => EventDownIff(c, s);
    }
  }

  lemma EventDownIff(c: Conn, s: Step)
    requires c.link.Up? && Enabled(c, s) && !Answering(s) && !s.StepArrive? && !s.StepTail? && !s.StepErrorTail? && !s.StepDrop?
    ensures !Next(c, s).link.Up? <==> TakesDown(c, s)
  {
    hide Drops;
    if s.StepReadError? { assert ReadError(c, s.header).link == c.link by { ErrorLink(c, s.header); } }
  }

  lemma ErrorLink(c: Conn, header: Header)
    ensures ReadError(c, header).link == c.link
  {
  }

  // ---------------------------------------------------------------- what is left when it has gone down

  /** A step that is neither a call on a response nor reading takes the connection down as a whole: every queued
      request leaves, in order, and nothing is written. */
  lemma {:induction false} DownLeaves(maxKeepAlive: nat, steps: seq<Step>, s: Step)
    requires Legal(NewConn(maxKeepAlive), steps) && Enabled(Run(NewConn(maxKeepAlive), steps), s)
    requires var c := Run(NewConn(maxKeepAlive), steps); c.link.Up? && TakesDown(c, s)
    ensures var c := Run(NewConn(maxKeepAlive), steps);
      var d := Next(c, s);
      && d.requests == [] && |d.departed| == d.nextId
      && (!Answering(s) && !ReadingStep(s) ==> d.wire == c.wire && Gone(d.departed) == Gone(c.departed) + c.requests)
      && (d.link.Shut? || (d.removed && !d.timer))
      && (d.link.Reset? <==> s.StepClose? || s.StepIdle? || s.StepWritten? || s.StepDrop?)
      && (d.link.Detached? <==> s.StepUpgrade?)
      && (s.StepUpgrade? ==> c.requests != [] && d.departed == c.departed + [Departure(c.requests[0], Upgraded)])
  {
    var c := Run(NewConn(maxKeepAlive), steps);
    RunKeeps(maxKeepAlive, steps);
    StepDownIff(c, s);
    StepKeeps(c, s);
    hide Legal, Run, Inv, TakesDown, Enabled;
    DownKind(c, s);
    DownAll(Next(c, s));
  }

  lemma DownAll(c: Conn)
    requires Inv(c) && !c.link.Up?
    ensures c.requests == [] && |c.departed| == c.nextId
  {
    EmptyWhenDown(c);
    HistorySize(c);
  }

  /** How a step has taken the connection down. */
  ghost predicate WentDown(c: Conn, s: Step, d: Conn) {
    && (!Answering(s) && !ReadingStep(s) ==> d.wire == c.wire && Gone(d.departed) == Gone(c.departed) + c.requests)
    && (d.link.Shut? || (d.removed && !d.timer))
    && (d.link.Reset? <==> s.StepClose? || s.StepIdle? || s.StepWritten? || s.StepDrop?)
    && (d.link.Detached? <==> s.StepUpgrade?)
    && (s.StepUpgrade? ==> c.requests != [] && d.departed == c.departed + [Departure(c.requests[0], Upgraded)])
  }

  lemma {:induction false} DownKind(c: Conn, s: Step)
    requires c.link.Up? && !Next(c, s).link.Up? && Enabled(c, s)
    ensures WentDown(c, s, Next(c, s))
  {
    hide Arrive, ReadError, Tail, ErrorTail, WentDown;
    if Answering(s) {
      CallStays(c, s);
      hide Next;
      ShutSays(c, s, Next(c, s));
    } else {
      match s
      case StepArrive(p) => ArriveLink(c, p);
      case StepReadError(header) => ErrorLink(c, header);
      case StepTail(drained) =>
        TailShuts(c, drained);
        ShutSays(c, s, Tail(c, drained));
      case StepErrorTail(drained) =>
        ErrorTailShuts(c, drained);
        ShutSays(c, s, ErrorTail(c, drained));
      case StepUpgrade(id) => UpgradeEnds(c, id);
      case StepDrop(id) => DropEnds(c, id);
      case _ => OtherEnds(c, s);
    }
  }

  lemma ShutSays(c: Conn, s: Step, d: Conn)
    requires d.link.Shut? && (Answering(s) || ReadingStep(s))
    ensures WentDown(c, s, d)
  {
  }

  lemma DropEnds(c: Conn, id: nat)
    requires c.link.Up? && !DropRequest(c, id).link.Up?
    ensures WentDown(c, StepDrop(id), DropRequest(c, id))
  {
    DropIs(c, id);
    CloseEnds(c);
    hide DropRequest, Close, Gone;
  }

  lemma OtherEnds(c: Conn, s: Step)
    requires c.link.Up? && !Next(c, s).link.Up?
    requires !Answering(s) && !ReadingStep(s) && !s.StepUpgrade? && !s.StepDrop?
    ensures WentDown(c, s, Next(c, s))
  {
    CloseEnds(c);
    CloseEnds(c.(timer := false));
    hide Close, Shutdown, Gone, Drops;
  }

  lemma {:induction false} TailShuts(c: Conn, drained: bool)
    requires c.phase.InLoop?
    ensures Tail(c, drained).link == c.link || Tail(c, drained).link.Shut?
  {
    hide Finish;
    if c.requests != [] { FinishLeaves(c.(phase := Quiet), drained); }
  }

  lemma {:induction false} ErrorTailShuts(c: Conn, drained: bool)
    requires c.phase.InError?
    ensures ErrorTail(c, drained).link == c.link || ErrorTail(c, drained).link.Shut?
  {
    var s := StepErrorTail(drained);
    if AnswersFront(c, s) {
      GivenIs(c, s);
      WriteNextLeaves(Given(c, s), drained);
      assert Given(c, s).link == c.link;
      hide Given, ErrorTail, WriteNext;
    } else {
      ErrorTailStays(c, drained);
    }
  }

  lemma UpgradeEnds(c: Conn, id: nat)
    requires c.link.Up? && !Next(c, StepUpgrade(id)).link.Up?
    ensures c.requests != [] && WentDown(c, StepUpgrade(id), Next(c, StepUpgrade(id)))
  {
    hide IndexOf;
  }

  lemma CloseEnds(c: Conn)
    ensures var d := Close(c);
      d.wire == c.wire && Gone(d.departed) == Gone(c.departed) + c.requests && d.link.Reset? && d.removed && !d.timer
    ensures var d := Shutdown(c);
      d.wire == c.wire && Gone(d.departed) == Gone(c.departed) + c.requests && (c.link.Up? ==> d.link.Shut?)
  {
    GoneConcat(c.departed, Drops(c.requests));
    GoneDrops(c.requests);
  }

  // ---------------------------------------------------------------- the idle timer

  /** Nothing is left to write when the step is over. */
  predicate Drained(s: Step) {
    match s
    case StepTail(drained) => drained
    case StepErrorTail(drained) => drained
    case StepRespond(_, _, drained) => drained
    case StepFinal(_, _, drained) => drained
    case StepWritten(failed, drained) => !failed && drained
    case _ => false
  }

  /** The step looks for idleness: a write has ended, or the last request may have left. */
  predicate LooksForIdle(c: Conn, s: Step) { s.StepWritten? || c.requests != [] }

  /** The step stops the timer. */
  predicate StopsTimer(c: Conn, s: Step) {
    match s
    case StepArrive(_) => true
    case StepReadError(_) => true
    case StepIdle => true
    case StepClose => true
    case StepWritten(failed, _) => failed
    case StepShutdownDone => true
    case StepDrop(_) => TakesDown(c, s)
    case StepUpgrade(_) => TakesDown(c, s)
    case _ => false
  }

  lemma {:induction false} FinishTimer(c: Conn, drained: bool)
    requires c.requests != [] && c.link.Up?
    ensures var d := Finish(c, drained); d.timer == (c.timer || (d.link.Up? && d.requests == [] && drained))
    decreases |c.requests|, 0
  {
    hide WriteNext;
    var d := Depart(c, Answered);
    if c.requests[0].done && !c.closing && !c.stopping && d.requests != [] && d.requests[0].response.Some? { WriteNextTimer(d, drained); }
  }

  lemma {:induction false} WriteNextTimer(c: Conn, drained: bool)
    requires c.requests != [] && c.requests[0].response.Some? && c.link.Up?
    ensures var d := WriteNext(c, drained); d.timer == (c.timer || (d.link.Up? && d.requests == [] && drained))
    decreases |c.requests|, 1
  {
    WriteNextIs(c, drained);
    SendFrontLeaves(c);
    SendFrontTimer(c);
    hide SendFront, WriteNext, Finish;
    if c.requests[0].response.value.completed { FinishTimer(SendFront(c), drained); }
  }

  lemma SendFrontTimer(c: Conn)
    requires c.requests != [] && c.requests[0].response.Some?
    ensures SendFront(c).timer == c.timer
  {
    hide ToVector, Chunks, Drops, Marked;
    assert SendHead(c).timer == c.timer && SendHead(c).requests != [];
    hide SendHead;
  }

  /** In every reachable state in which the connection is up: after a step the idle timer runs if and only if the
      step has not stopped it and it was running before, or the step has found nothing queued and nothing left
      to write. */
  lemma {:induction false} TimerIff(maxKeepAlive: nat, steps: seq<Step>, s: Step)
    requires Legal(NewConn(maxKeepAlive), steps) && Enabled(Run(NewConn(maxKeepAlive), steps), s)
    requires Run(NewConn(maxKeepAlive), steps).link.Up?
    ensures var c := Run(NewConn(maxKeepAlive), steps);
      var d := Next(c, s);
      d.timer <==> !StopsTimer(c, s) && (c.timer || (d.link.Up? && d.requests == [] && Drained(s) && LooksForIdle(c, s)))
  {
    RunKeeps(maxKeepAlive, steps);
    hide Legal, Run, Inv;
    StepTimer(Run(NewConn(maxKeepAlive), steps), s);
  }

  /** What is said of the timer after a step. */
  ghost predicate TimerSays(c: Conn, s: Step, d: Conn) {
    d.timer <==> !StopsTimer(c, s) && (c.timer || (d.link.Up? && d.requests == [] && Drained(s) && LooksForIdle(c, s)))
  }

  lemma {:induction false} StepTimer(c: Conn, s: Step)
    requires Inv(c) && c.link.Up? && Enabled(c, s)
    ensures TimerSays(c, s, Next(c, s))
  {
    hide Inv;
    if EndsFront(c, s) {
      EndedIs(c, s);
      assert Ended(c, s.text).requests != [] && Ended(c, s.text).link.Up? && Ended(c, s.text).timer == c.timer;
      hide Next, Ended, Finish;
      FinishTimer(Ended(c, s.text), s.drained);
    } else if AnswersFront(c, s) {
      GivenIs(c, s);
      GivenTimer(c, s);
      hide Next, Given, WriteNext;
      WriteNextTimer(Given(c, s), s.drained);
    } else if Answering(s) {
      OtherCallSame(c, s);
      hide Next;
    } else {
      hide Arrive, ReadError, Tail, ErrorTail, TakesDown, TimerSays, DropRequest;
      match s
      case StepArrive(p) => ArriveTimer(c, p);
      case StepReadError(header) => ErrorTimer(c, header);
      case StepTail(drained) => TailTimer(c, drained);
      case StepErrorTail(drained) => ErrorTailTimer(c, drained);
      case StepDrop(id) => DropTimer(c, id);
      case _ => OtherTimer(c, s);
    }
  }

  lemma GivenTimer(c: Conn, s: Step)
    requires AnswersFront(c, s)
    ensures var g := Given(c, s);
      g.timer == c.timer && g.link == c.link && g.requests != [] && g.requests[0].response.Some?
  {
  }

  lemma ArriveTimer(c: Conn, p: Parsed)
    ensures TimerSays(c, StepArrive(p), Arrive(c, p))
  {
    assert Receive(c, p).requests != [] && !Receive(c, p).timer;
    hide Receive;
  }

  lemma ErrorTimer(c: Conn, header: Header)
    ensures TimerSays(c, StepReadError(header), ReadError(c, header))
  {
  }

  lemma {:induction false} TailTimer(c: Conn, drained: bool)
    requires Inv(c) && c.phase.InLoop? && c.link.Up?
    ensures TimerSays(c, StepTail(drained), Tail(c, drained))
  {
    var s := StepTail(drained);
    if EndsWaiting(c, s) {
      hide Inv, Finish;
      FinishTimer(c.(phase := Quiet), drained);
    } else {
      hide Inv, Finish;
    }
  }

  lemma ErrorTailTimer(c: Conn, drained: bool)
    requires Inv(c) && c.phase.InError? && c.link.Up? && !AnswersFront(c, StepErrorTail(drained))
    ensures TimerSays(c, StepErrorTail(drained), ErrorTail(c, drained))
  {
    hide Inv, WriteNext, IndexOf, Taken;
  }

  lemma DropTimer(c: Conn, id: nat)
    requires Inv(c) && c.link.Up?
    ensures TimerSays(c, StepDrop(id), Next(c, StepDrop(id)))
  {
    hide Inv, DropRequest, Close, TakesDown, IndexOf, Gone;
    DropDownIff(c, id);
    DropIs(c, id);
    CloseEnds(c);
  }

  lemma OtherTimer(c: Conn, s: Step)
    requires c.link.Up? && !Answering(s) && !ReadingStep(s) && !s.StepDrop?
    ensures TimerSays(c, s, Next(c, s))
  {
    hide Drops, IndexOf, Gone;
  }

  // ---------------------------------------------------------------- interim responses

  /** How many 100 responses for request `id` there are. */
  function Interims(frames: seq<Frame>, id: nat): nat {
    if frames == [] then 0
    else
      Interims(frames[..|frames| - 1], id) +
        if frames[|frames| - 1].Continue? && frames[|frames| - 1].id == id then 1 else 0
  }

  lemma {:induction false} InterimsConcat(a: seq<Frame>, b: seq<Frame>, id: nat)
    ensures Interims(a + b, id) == Interims(a, id) + Interims(b, id)
  {
    if b == [] {
      assert a + b == a;
    } else {
      assert (a + b)[..|a + b| - 1] == a + b[..|b| - 1];
      InterimsConcat(a, b[..|b| - 1], id);
    }
  }

  lemma {:induction false} InterimsNone(frames: seq<Frame>, id: nat)
    requires forall f :: f in frames ==> !f.Continue?
    ensures Interims(frames, id) == 0
  {
    if frames != [] { InterimsNone(frames[..|frames| - 1], id); }
  }

  /** send_continue() has an effect: the request is the front, its client expects it, and no response is given. */
  predicate Asks(c: Conn, s: Step, id: nat) {
    && s.StepContinue? && s.id == id && c.link.Up? && c.requests != [] && c.requests[0].id == id
    && c.requests[0].header.expects100 && !c.requests[0].header.http10 && c.requests[0].response.None?
  }

  /** How often that has been the case in a run. */
  function Asked(init: Conn, steps: seq<Step>, id: nat): nat {
    if steps == [] then 0
    else
      var before := steps[..|steps| - 1];
      Asked(init, before, id) + if Asks(Run(init, before), steps[|steps| - 1], id) then 1 else 0
  }

  /** Nothing but frames of responses has been written. */
  ghost predicate Plain(c: Conn, d: Conn) { forall id: nat :: Interims(d.wire, id) == Interims(c.wire, id) }

  lemma PlainWrite(c: Conn, d: Conn, frames: seq<Frame>)
    requires d.wire == c.wire || d.wire == c.wire + frames
    requires forall f :: f in frames ==> !f.Continue?
    ensures Plain(c, d)
  {
    forall id: nat ensures Interims(d.wire, id) == Interims(c.wire, id) {
      InterimsConcat(c.wire, frames, id);
      InterimsNone(frames, id);
    }
  }

  lemma {:induction false} FinishPlain(c: Conn, drained: bool)
    requires c.requests != []
    ensures Plain(c, Finish(c, drained))
    decreases |c.requests|, 0
  {
    hide WriteNext, Interims;
    var d := Depart(c, Answered);
    if c.requests[0].done && !c.closing && !c.stopping && d.requests != [] && d.requests[0].response.Some? { WriteNextPlain(d, drained); }
  }

  lemma {:induction false} WriteNextPlain(c: Conn, drained: bool)
    requires c.requests != [] && c.requests[0].response.Some?
    ensures Plain(c, WriteNext(c, drained))
    decreases |c.requests|, 1
  {
    WriteNextIs(c, drained);
    SendFrontLeaves(c);
    SendFrontPlain(c);
    hide SendFront, WriteNext, Finish, Interims;
    if c.requests[0].response.value.completed { FinishPlain(SendFront(c), drained); }
  }

  lemma SendFrontPlain(c: Conn)
    requires c.requests != [] && c.requests[0].response.Some?
    ensures Plain(c, SendFront(c))
  {
    var q := c.requests[0];
    SendFrontFlushes(c);
    var frames := FlushedFrames(q);
    ChunksAre(q.id, q.response.value.parts);
    assert forall f :: f in frames ==> !f.Continue?;
    assert SendFront(c).wire == Flushed(c).wire;
    hide Interims, Flush, SendFront, Drops;
    PlainWrite(c, SendFront(c), frames);
  }

  lemma {:induction false} StepInterims(c: Conn, s: Step, id: nat)
    requires Inv(c) && Enabled(c, s)
    ensures Interims(Next(c, s).wire, id) == Interims(c.wire, id) + if Asks(c, s, id) then 1 else 0
  {
    if EndsFront(c, s) {
      EndedIs(c, s);
      EndedPlain(c, s.text);
      hide Inv, Next, Ended, Finish, Interims;
      FinishPlain(Ended(c, s.text), s.drained);
    } else if AnswersFront(c, s) {
      GivenIs(c, s);
      GivenTimer(c, s);
      GivenWire(c, s);
      hide Inv, Next, Given, WriteNext, Interims;
      WriteNextPlain(Given(c, s), s.drained);
    } else {
      hide Interims, ContinueTo, ChunkTo, Plain;
      match s
      case StepContinue(i) => ContinueInterims(c, i, id);
      case StepChunk(i, text) =>
        ChunkPlain(c, i, text);
        PlainAt(c, ChunkTo(c, i, text).0, id);
      case _ =>
        OtherWire(c, s);
        hide Inv, Next;
    }
  }

  lemma {:induction false} PlainAt(c: Conn, d: Conn, id: nat)
    requires Plain(c, d)
    ensures Interims(d.wire, id) == Interims(c.wire, id)
  {
  }

  lemma EndedPlain(c: Conn, text: string)
    requires c.requests != [] && c.requests[0].response.Some?
    ensures Plain(c, Ended(c, text)) && Ended(c, text).requests != []
  {
    hide Interims;
    PlainWrite(c, Ended(c, text), [Final(c.requests[0].id, text)]);
  }

  lemma GivenWire(c: Conn, s: Step)
    requires AnswersFront(c, s)
    ensures Given(c, s).wire == c.wire
  {
  }

  lemma {:induction false} ContinueInterims(c: Conn, i: nat, id: nat)
    requires Inv(c)
    ensures Interims(ContinueTo(c, i).0.wire, id) == Interims(c.wire, id) + if Asks(c, StepContinue(i), id) then 1 else 0
  {
    var d := ContinueTo(c, i).0;
    if d.wire != c.wire {
      assert d.wire == c.wire + [Continue(i)];
      InterimsConcat(c.wire, [Continue(i)], id);
      assert Interims([Continue(i)], id) == if i == id then 1 else 0 by { assert [Continue(i)][..0] == []; }
    } else {
      hide Inv, Interims;
      assert c.link.Up? ==> c.wire + [Continue(i)] != c.wire;
    }
  }

  lemma ChunkPlain(c: Conn, i: nat, text: string)
    ensures Plain(c, ChunkTo(c, i, text).0)
  {
    hide CompletedBefore, IndexOf, Interims;
    PlainWrite(c, ChunkTo(c, i, text).0, [Chunk(i, text)]);
  }

  lemma {:induction false} OtherWire(c: Conn, s: Step)
    requires Inv(c) && Enabled(c, s) && !EndsFront(c, s) && !AnswersFront(c, s) && !s.StepContinue? && !s.StepChunk?
    ensures Next(c, s).wire == c.wire
  {
    hide Arrive, ReadError, Tail, ErrorTail, RespondTo, FinalTo;
    match s
    case StepRespond(id, r, drained) => RespondWire(c, id, r, drained);
    case StepFinal(id, text, drained) => FinalWire(c, id, text, drained);
    case StepArrive(p) => ArriveWire(c, p);
    case StepReadError(header) => ErrorWire(c, header);
    case StepTail(drained) => TailWire(c, drained);
    case StepErrorTail(drained) => ErrorTailWire(c, drained);
    case _ => hide Inv, Drops, IndexOf;
  }

  lemma RespondWire(c: Conn, id: nat, r: Response, drained: bool)
    requires !AnswersFront(c, StepRespond(id, r, drained))
    ensures RespondTo(c, id, r, drained).0.wire == c.wire
  {
    hide WriteNext, IndexOf, Taken;
  }

  lemma FinalWire(c: Conn, id: nat, text: string, drained: bool)
    requires !EndsFront(c, StepFinal(id, text, drained))
    ensures FinalTo(c, id, text, drained).0.wire == c.wire
  {
    hide CompletedBefore, Finish, IndexOf;
  }

  lemma ArriveWire(c: Conn, p: Parsed)
    ensures Arrive(c, p).wire == c.wire
  {
  }

  lemma ErrorWire(c: Conn, header: Header)
    ensures ReadError(c, header).wire == c.wire
  {
  }

  lemma {:induction false} TailWire(c: Conn, drained: bool)
    requires Inv(c) && c.phase.InLoop?
    ensures Tail(c, drained).wire == c.wire
  {
    if EndsWaiting(c, StepTail(drained)) {
      assert |c.requests| == 1 && c.requests[0].done;
      hide Inv;
      assert Depart(c.(phase := Quiet), Answered).requests == [];
    } else {
      hide Inv, Finish;
    }
  }

  lemma ErrorTailWire(c: Conn, drained: bool)
    requires c.phase.InError? && !AnswersFront(c, StepErrorTail(drained))
    ensures ErrorTail(c, drained).wire == c.wire
  {
    hide WriteNext, IndexOf, Taken;
  }

  /** Over every run: there is one 100 response on the wire for each time it was asked for while the request was
      the front, expected it, was not HTTP/1.0 and had no response; otherwise none. */
  lemma {:induction false} InterimsAreAsked(maxKeepAlive: nat, steps: seq<Step>, id: nat)
    requires Legal(NewConn(maxKeepAlive), steps)
    ensures Interims(Run(NewConn(maxKeepAlive), steps).wire, id) == Asked(NewConn(maxKeepAlive), steps, id)
  {
    hide Next, Enabled, Inv, Interims, Asks;
    if steps == [] {
      assert Interims([], id) == 0 by { NoInterims(id); }
    } else {
      var before := steps[..|steps| - 1];
      InterimsAreAsked(maxKeepAlive, before, id);
      RunKeeps(maxKeepAlive, before);
      StepInterims(Run(NewConn(maxKeepAlive), before), steps[|steps| - 1], id);
    }
  }

  lemma {:induction false} NoInterims(id: nat)
    ensures Interims([], id) == 0
  {
  }

  // ---------------------------------------------------------------- stopping

  /** The step makes a connection stop. */
  predicate BeginsToStop(c: Conn, s: Step) {
    || (s.StepGracefulStop? && c.requests != [])
    || (Answers(c, s) && c.maxKeepAlive > 0 && c.processed + 1 >= c.maxKeepAlive && |c.requests| == 1)
  }

  lemma {:induction false} StepStopsIff(c: Conn, s: Step)
    requires Inv(c) && Enabled(c, s) && !c.stopping
    ensures Next(c, s).stopping <==> BeginsToStop(c, s)
  {
    if EndsFront(c, s) {
      EndedIs(c, s);
      assert Ended(c, s.text).stopping == c.stopping && Ended(c, s.text).requests != [];
      hide Inv, Next, Ended, Finish;
      FinishLeaves(Ended(c, s.text), s.drained);
    } else if AnswersFront(c, s) {
      GivenIs(c, s);
      GivenTimer(c, s);
      GivenStopping(c, s);
      hide Inv, Next, Given, WriteNext, Answers;
      WriteNextLeaves(Given(c, s), s.drained);
    } else {
      if Answers(c, s) { NotOnlyOne(c, s); }
      hide Inv, Answers, Next, Enabled;
      OtherStops(c, s);
    }
  }

  lemma {:induction false} OtherStops(c: Conn, s: Step)
    requires Enabled(c, s) && !c.stopping && !EndsFront(c, s) && !AnswersFront(c, s)
    requires Answers(c, s) ==> |c.requests| > 1
    ensures Next(c, s).stopping <==> BeginsToStop(c, s)
  {
    hide Answers;
    if Answering(s) {
      OtherCallSame(c, s);
      hide Next;
    } else {
      hide Arrive, ReadError, Tail, ErrorTail, Drops, IndexOf;
      match s
      case StepArrive(p) => ArriveStopping(c, p);
      case StepReadError(header) => ErrorStopping(c, header);
      case StepTail(drained) => TailStopping(c, drained);
      case StepErrorTail(drained) => ErrorTailStopping(c, drained);
      case _ => NeverAnswers(c, s);
    }
  }

  lemma NeverAnswers(c: Conn, s: Step)
    requires !Answering(s) && !ReadingStep(s)
    ensures !Answers(c, s)
  {
  }

  lemma GivenStopping(c: Conn, s: Step)
    requires AnswersFront(c, s)
    ensures Answers(c, s)
    ensures Given(c, s).stopping ==
      (c.stopping || (c.maxKeepAlive > 0 && c.processed + 1 >= c.maxKeepAlive && |c.requests| == 1))
  {
  }

  lemma NotOnlyOne(c: Conn, s: Step)
    requires Inv(c) && !AnswersFront(c, s) && Answers(c, s)
    ensures |c.requests| > 1
  {
    hide Inv;
  }

  lemma ArriveStopping(c: Conn, p: Parsed)
    ensures Arrive(c, p).stopping == c.stopping
  {
  }

  lemma ErrorStopping(c: Conn, header: Header)
    ensures ReadError(c, header).stopping == c.stopping
  {
  }

  lemma {:induction false} TailStopping(c: Conn, drained: bool)
    requires c.phase.InLoop?
    ensures Tail(c, drained).stopping == c.stopping
  {
    hide Finish;
    if c.requests != [] { FinishLeaves(c.(phase := Quiet), drained); }
  }

  lemma ErrorTailStopping(c: Conn, drained: bool)
    requires c.phase.InError? && !AnswersFront(c, StepErrorTail(drained))
    ensures ErrorTail(c, drained).stopping == c.stopping
  {
    hide WriteNext, IndexOf, Taken;
  }

  /** In every reachable state: a connection begins to stop if and only if it is stopped gracefully while requests
      are queued, or its only request is given the response that fills the cap. */
  lemma {:induction false} StopsIff(maxKeepAlive: nat, steps: seq<Step>, s: Step)
    requires Legal(NewConn(maxKeepAlive), steps) && Enabled(Run(NewConn(maxKeepAlive), steps), s)
    requires !Run(NewConn(maxKeepAlive), steps).stopping
    ensures var c := Run(NewConn(maxKeepAlive), steps);
      Next(c, s).stopping <==>
        || (s.StepGracefulStop? && c.requests != [])
        || (Gives(c, s) && |c.requests| == 1 && maxKeepAlive > 0 && GivenSoFar(NewConn(maxKeepAlive), steps) + 1 >= maxKeepAlive)
  {
    RunKeeps(maxKeepAlive, steps);
    AnsweredIs(maxKeepAlive, steps);
    hide Legal, Run, Inv, Next, GivenSoFar, Gives, Answers;
    var c := Run(NewConn(maxKeepAlive), steps);
    GivesIs(c, s);
    StepStopsIff(c, s);
  }

  // ---------------------------------------------------------------- when reading stops, and when a connection leaves

  /** A head that closes the connection has been written in the step, and its request is received. */
  predicate ClosesReceived(c: Conn, d: Conn) {
    !c.closing && d.closing && (d.requests == [] || d.requests[0].done)
  }

  lemma {:induction false} FinishReads(c: Conn, drained: bool)
    requires c.requests != [] && !c.readIgnored
    ensures Finish(c, drained).readIgnored <==> ClosesReceived(c, Finish(c, drained))
    decreases |c.requests|, 0
  {
    hide WriteNext, SendFront, Drops;
    var d := Depart(c, Answered);
    if c.requests[0].done && !c.closing && !c.stopping && d.requests != [] && d.requests[0].response.Some? { WriteNextReads(d, drained); }
  }

  lemma {:induction false} WriteNextReads(c: Conn, drained: bool)
    requires c.requests != [] && c.requests[0].response.Some? && !c.closing && !c.readIgnored
    ensures WriteNext(c, drained).readIgnored <==> ClosesReceived(c, WriteNext(c, drained))
    decreases |c.requests|, 1
  {
    WriteNextIs(c, drained);
    SendFrontLeaves(c);
    SentRest(c);
    var e := SendFront(c);
    hide SendFront, WriteNext, Finish;
    if c.requests[0].response.value.completed {
      if e.closing { ClosedFinish(e, drained); } else { FinishReads(e, drained); }
    }
  }

  /** The end of a closing response does not touch reading any more. */
  lemma {:induction false} ClosedFinish(c: Conn, drained: bool)
    requires c.requests != [] && c.closing && |c.requests| == 1
    ensures var d := Finish(c, drained);
      d.closing && d.readIgnored == c.readIgnored && (d.requests == [] || d.requests[0].done == c.requests[0].done)
      && (!c.requests[0].done ==> d.requests != [])
  {
    hide WriteNext, Drops;
  }

  /** The steps that stop reading of themselves: an error of the parser, an upgrade behind other requests, and the
      end of a request that is the last on a closing connection, or does not want to keep it. */
  predicate StopsReading(c: Conn, s: Step, d: Conn) {
    match s
    case StepReadError(_) => true
    case StepArrive(p) =>
      p.state.Error? || (!p.state.Headers? && |d.requests| > 1 && d.requests[|d.requests| - 1].header.upgrade.UpgradeExact?)
    case StepTail(_) => c.phase.InLoop? && c.phase.done && !EndsWaiting(c, s) && (c.closing || !c.phase.keepAlive)
    case _ => false
  }

  /** In every reachable state in which the connection is up and reading: a step stops reading if and only if it is
      one of these, or a head that closes the connection is written for a request that has been received. */
  lemma {:induction false} ReadsNoMoreIff(maxKeepAlive: nat, steps: seq<Step>, s: Step)
    requires Legal(NewConn(maxKeepAlive), steps) && Enabled(Run(NewConn(maxKeepAlive), steps), s)
    requires var c := Run(NewConn(maxKeepAlive), steps); c.link.Up? && !c.readIgnored
    ensures var c := Run(NewConn(maxKeepAlive), steps);
      Next(c, s).readIgnored <==> StopsReading(c, s, Next(c, s)) || ClosesReceived(c, Next(c, s))
  {
    RunKeeps(maxKeepAlive, steps);
    hide Legal, Run, Inv;
    StepReads(Run(NewConn(maxKeepAlive), steps), s);
  }

  lemma {:induction false} StepReads(c: Conn, s: Step)
    requires Inv(c) && c.link.Up? && !c.readIgnored && Enabled(c, s)
    ensures Next(c, s).readIgnored <==> StopsReading(c, s, Next(c, s)) || ClosesReceived(c, Next(c, s))
  {
    if EndsFront(c, s) {
      EndedIs(c, s);
      assert Ended(c, s.text).requests != [] && !Ended(c, s.text).readIgnored && Ended(c, s.text).closing == c.closing;
      hide Inv, Next, Ended, Finish;
      FinishReads(Ended(c, s.text), s.drained);
    } else if AnswersFront(c, s) {
      NotClosing(c, s);
      GivenIs(c, s);
      GivenReads(c, s);
      hide Inv, Next, Given, WriteNext;
      WriteNextReads(Given(c, s), s.drained);
    } else if Answering(s) {
      OtherCallReads(c, s);
      OtherCallSame(c, s);
      hide Inv, Next;
    } else {
      hide Inv, Arrive, ReadError, Tail, ErrorTail, StopsReading, ClosesReceived;
      match s
      case StepArrive(p) => ArriveReads(c, p);
      case StepReadError(header) => ErrorReads(c, header);
      case StepTail(drained) => TailReads(c, drained);
      case StepErrorTail(drained) => ErrorTailReads(c, drained);
      case _ => OtherReads(c, s);
    }
  }

  lemma NotClosing(c: Conn, s: Step)
    requires Inv(c) && c.link.Up? && AnswersFront(c, s)
    ensures !c.closing
  {
    hide Shape, Order, IdsOk, UpOk, WireOk, ScanOk, FrontOk, ReadOk;
    assert RequestOk(c.requests[0]);
  }

  lemma GivenReads(c: Conn, s: Step)
    requires AnswersFront(c, s)
    ensures var g := Given(c, s);
      g.requests != [] && g.requests[0].response.Some? && g.closing == c.closing && g.readIgnored == c.readIgnored
  {
  }

  lemma OtherCallReads(c: Conn, s: Step)
    requires Answering(s) && !EndsFront(c, s) && !AnswersFront(c, s) && !c.readIgnored
    ensures !StopsReading(c, s, Next(c, s)) && (Next(c, s).closing == c.closing ==> !ClosesReceived(c, Next(c, s)))
  {
    hide Next;
  }

  lemma ArriveReads(c: Conn, p: Parsed)
    requires !c.readIgnored
    ensures var d := Arrive(c, p); d.closing == c.closing && (d.readIgnored <==> StopsReading(c, StepArrive(p), d))
    ensures !ClosesReceived(c, Arrive(c, p))
  {
    ReceivedReads(c, p);
    hide Receive;
    var d := Receive(c, p);
    assert Arrive(c, p).requests == d.requests || (Arrive(c, p).requests == SetBack(d, Back(d).(routed := true)).requests);
  }

  lemma ReceivedReads(c: Conn, p: Parsed)
    ensures var d := Receive(c, p); d.requests != [] && d.closing == c.closing && d.readIgnored == c.readIgnored
  {
  }

  lemma ErrorReads(c: Conn, header: Header)
    ensures ReadError(c, header).readIgnored && ReadError(c, header).closing == c.closing
    ensures StopsReading(c, StepReadError(header), ReadError(c, header))
  {
  }

  lemma {:induction false} TailReads(c: Conn, drained: bool)
    requires c.phase.InLoop? && !c.readIgnored
    ensures var d := Tail(c, drained);
      d.readIgnored <==> StopsReading(c, StepTail(drained), d) || ClosesReceived(c, d)
  {
    hide Finish, IndexOf;
    if EndsWaiting(c, StepTail(drained)) { FinishReads(c.(phase := Quiet), drained); }
    hide ClosesReceived;
    NothingCloses(c, c.(phase := Quiet));
    NothingCloses(c, c.(phase := Quiet, readIgnored := true));
    ClosesAlike(c, Tail(c, drained));
  }

  lemma NothingCloses(c: Conn, d: Conn)
    requires d.closing == c.closing
    ensures !ClosesReceived(c, d)
  {
  }

  lemma ClosesAlike(c: Conn, d: Conn)
    ensures ClosesReceived(c.(phase := Quiet), d) == ClosesReceived(c, d)
  {
  }

  lemma ErrorTailReads(c: Conn, drained: bool)
    requires c.phase.InError? && !c.readIgnored && !AnswersFront(c, StepErrorTail(drained))
    ensures var d := ErrorTail(c, drained);
      !d.readIgnored && !StopsReading(c, StepErrorTail(drained), d) && !ClosesReceived(c, d)
  {
    hide WriteNext, IndexOf, Taken;
  }

  lemma OtherReads(c: Conn, s: Step)
    requires !Answering(s) && !ReadingStep(s) && !c.readIgnored
    ensures !Next(c, s).readIgnored && !StopsReading(c, s, Next(c, s)) && !ClosesReceived(c, Next(c, s))
  {
    hide Drops, IndexOf;
  }

  // ---------------------------------------------------------------- exceptions and calls without effect

  /** The request, wherever it is, has a complete response. */
  ghost predicate HasWhole(c: Conn, id: nat) {
    exists q :: q in History(c) && q.id == id && q.response.Some? && q.response.value.completed
  }

  lemma {:induction false} WholeQueued(c: Conn, id: nat)
    requires Inv(c) && IndexOf(c.requests, id) < |c.requests|
    ensures var q := c.requests[IndexOf(c.requests, id)];
      HasWhole(c, id) <==> q.response.Some? && q.response.value.completed
  {
    var k := IndexOf(c.requests, id);
    assert c.requests[k].id == id;
    hide Inv, IndexOf, HasWhole;
    if HasWhole(c, id) { WholeThere(c, k); }
    if c.requests[k].response.Some? && c.requests[k].response.value.completed { WholeHere(c, k); }
  }

  lemma WholeHere(c: Conn, k: nat)
    requires k < |c.requests| && c.requests[k].response.Some? && c.requests[k].response.value.completed
    ensures HasWhole(c, c.requests[k].id)
  {
    assert History(c)[|c.departed| + k] == c.requests[k];
  }

  lemma WholeThere(c: Conn, k: nat)
    requires Inv(c) && k < |c.requests| && HasWhole(c, c.requests[k].id)
    ensures c.requests[k].response.Some? && c.requests[k].response.value.completed
  {
    hide Inv;
    var q :| q in History(c) && q.id == c.requests[k].id && q.response.Some? && q.response.value.completed;
    var i :| 0 <= i < |History(c)| && History(c)[i] == q;
    QueuedOnce(c, k, i);
  }

  lemma QueuedOnce(c: Conn, k: nat, i: nat)
    requires Inv(c) && k < |c.requests| && i < |History(c)| && History(c)[i].id == c.requests[k].id
    ensures History(c)[i] == c.requests[k]
  {
    var n := |c.departed|;
    if i < n {
      assert Places(c)[c.requests[k].id] <= 1 by { hide RecordsOk, Shape, Order, UpOk, WireOk, ScanOk, FrontOk, CloseOk, ReadOk; }
      IdsMember(c.requests, k);
      IdsMember(Gone(c.departed), i);
    } else {
      OneOf(c, i - n, k);
    }
  }

  lemma {:induction false} WholeLeft(c: Conn, id: nat)
    requires IndexOf(c.requests, id) == |c.requests|
    ensures HasWhole(c, id) <==> CompletedBefore(c, id)
  {
    var n := |c.departed|;
    if HasWhole(c, id) {
      var q :| q in History(c) && q.id == id && q.response.Some? && q.response.value.completed;
      var i :| 0 <= i < |History(c)| && History(c)[i] == q;
      assert forall j :: 0 <= j < |c.requests| ==> History(c)[n + j] == c.requests[j];
      assert i < n && c.departed[i].request == q;
    }
    if CompletedBefore(c, id) {
      var i :| (0 <= i < n && c.departed[i].request.id == id
        && c.departed[i].request.response.Some? && c.departed[i].request.response.value.completed);
      assert History(c)[i] == c.departed[i].request;
    }
  }

  /** In every reachable state: a chunk or a last chunk throws if and only if the request, queued or departed, has
      a complete response, and a response throws if and only if the request is queued and has one; a call that
      throws changes nothing, and neither does one that is ignored. */
  lemma {:induction false} ThrowsIff(maxKeepAlive: nat, steps: seq<Step>, id: nat, text: string, r: Response, drained: bool)
    requires Legal(NewConn(maxKeepAlive), steps)
    ensures var c := Run(NewConn(maxKeepAlive), steps);
      && (ChunkTo(c, id, text).1.Threw? <==> HasWhole(c, id))
      && (FinalTo(c, id, text, drained).1.Threw? <==> HasWhole(c, id))
      && (RespondTo(c, id, r, drained).1.Threw? <==>
            exists i :: 0 <= i < |c.requests| && c.requests[i].id == id && c.requests[i].response.Some?)
      && (ContinueTo(c, id).1.Threw? <==>
            && c.requests != [] && c.requests[0].id == id && c.requests[0].response.Some?
            && c.requests[0].header.expects100 && !c.requests[0].header.http10)
      && (!ChunkTo(c, id, text).1.Ok? ==> ChunkTo(c, id, text).0 == c)
      && (!FinalTo(c, id, text, drained).1.Ok? ==> FinalTo(c, id, text, drained).0 == c)
      && (!RespondTo(c, id, r, drained).1.Ok? ==> RespondTo(c, id, r, drained).0 == c)
  {
    RunKeeps(maxKeepAlive, steps);
    var c := Run(NewConn(maxKeepAlive), steps);
    hide Legal, Run, Inv;
    CallThrows(c, id, text, drained);
    FirstPlace(c, id);
    hide ChunkTo, FinalTo, Answer, HasWhole;
  }

  lemma {:induction false} CallThrows(c: Conn, id: nat, text: string, drained: bool)
    requires Inv(c)
    ensures ChunkTo(c, id, text).1.Threw? <==> HasWhole(c, id)
    ensures FinalTo(c, id, text, drained).1.Threw? <==> HasWhole(c, id)
    ensures !ChunkTo(c, id, text).1.Ok? ==> ChunkTo(c, id, text).0 == c
    ensures !FinalTo(c, id, text, drained).1.Ok? ==> FinalTo(c, id, text, drained).0 == c
  {
    var k := IndexOf(c.requests, id);
    if k < |c.requests| { WholeQueued(c, id); } else { WholeLeft(c, id); }
    hide Inv, HasWhole, IndexOf, Finish, CompletedBefore;
  }
}

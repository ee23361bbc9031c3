/** Connections that hang: the answer of the front is complete and waits for the end of its request, and
    nothing will be read any more. */
module Hanging {
  import opened Options
  import opened Wire
  import opened Connection
  import opened Invariant
  import opened Pipelining
  import opened Steps
  import opened Serving
  import opened Lifetime
  import opened Recursion
  import opened Reader

  predicate Hangs(c: Conn) { Waits(c) && c.readIgnored && !c.phase.InLoop? }

  /** The steps that make a connection hang: an error behind an answer that waits; an error answered on
      behalf of its user although the request has not been received (an upgrade refused in a pipeline); and
      an answer whose sending reaches such a request after reading has stopped. */
  ghost predicate StartsHanging(c: Conn, s: Step) {
    || ErrorWhileWaiting(c, s)
    || (s.StepErrorTail? && AnswersFront(c, s) && !c.requests[0].done)
    || (c.readIgnored && !c.phase.InLoop? && ReachesUnreceived(c, s))
  }

  /** The step completes the answers up to a last request that has not been received. */
  predicate ReachesUnreceived(c: Conn, s: Step) {
    match s
    case StepFinal(_, _, _) =>
      EndsFront(c, s) && Flows(c.requests) && (|c.requests| > 1 ==> !c.closing && !c.stopping)
    case StepRespond(_, r, _) =>
      AnswersFront(c, s) && Whole(r) && Flows(c.requests) && (|c.requests| > 1 ==> r.keepAlive && !c.stopping)
    case _ => false
  }

  // ---------------------------------------------------------------- which steps

  lemma FlowsAlike(qs: seq<Request>, rs: seq<Request>)
    requires |qs| == |rs| && qs != [] && qs[1..] == rs[1..] && qs[0].done == rs[0].done
    ensures Flows(qs) == Flows(rs)
  {
    assert forall i :: 0 < i < |qs| ==> qs[i] == qs[1..][i - 1] && rs[i] == rs[1..][i - 1];
  }

  lemma EndHangsIff(c: Conn, s: Step)
    requires Inv(c) && EndsFront(c, s)
    ensures var d := Next(c, s);
      && d.phase == c.phase
      && (Waits(d) <==> Flows(c.requests) && (|c.requests| > 1 ==> !c.closing && !c.stopping))
      && (Waits(d) ==> d.readIgnored == c.readIgnored)
  {
    EndedCanFinish(c, s);
    EndedIs(c, s);
    var e := Ended(c, s.text);
    assert e.closing == c.closing && e.readIgnored == c.readIgnored;
    FlowsAlike(c.requests, e.requests);
    hide Inv, CanFinish, Ended, Next, Finish, Flows;
    FinishWaitsIff(e, s.drained);
    FinishLeaves(e, s.drained);
  }

  lemma AnswerHangsIff(c: Conn, s: Step)
    requires Inv(c) && AnswersFront(c, s)
    ensures var d := Next(c, s);
      var e := Given(c, s);
      && d.phase == e.phase
      && (Waits(d) <==>
            && e.requests[0].response.value.completed
            && Flows(c.requests)
            && (|c.requests| > 1 ==> e.requests[0].response.value.keepAlive && !e.stopping))
      && (Waits(d) ==> d.readIgnored == e.readIgnored)
  {
    GivenIs(c, s);
    GivenCanSend(c, s);
    GivenShape(c, s);
    var e := Given(c, s);
    CanSendUp(e);
    hide Inv, CanSend, ReadOk, Given, Next, WriteNext, SendFront, Flows;
    WriteNextWaitsIff(e, s.drained);
    WriteNextLeaves(e, s.drained);
    SentFlows(e);
    FlowsAlike(c.requests, e.requests);
  }

  lemma SentFlows(c: Conn)
    requires c.requests != [] && c.requests[0].response.Some? && !c.closing
    requires |c.requests| > 1 ==> c.requests[0].done && c.requests[0].header.keepAlive
    ensures var d := SendFront(c);
      && d.requests != []
      && (Flows(d.requests) && (|d.requests| > 1 ==> !d.closing && !c.stopping)
          <==> Flows(c.requests) && (|c.requests| > 1 ==> c.requests[0].response.value.keepAlive && !c.stopping))
  {
    SentRest(c);
    hide SendFront, Flows;
    var d := SendFront(c);
    if |d.requests| == |c.requests| { FlowsAlike(c.requests, d.requests); }
    if |d.requests| == 1 { FlowsOne(d.requests); }
  }

  lemma GivenShape(c: Conn, s: Step)
    requires Inv(c) && AnswersFront(c, s)
    ensures var e := Given(c, s);
      && |e.requests| == |c.requests| && e.requests[1..] == c.requests[1..]
      && e.requests[0].done == c.requests[0].done && e.requests[0].header == c.requests[0].header
      && (|c.requests| > 1 ==> c.requests[0].done && c.requests[0].header.keepAlive && e.stopping == c.stopping)
      && e.readIgnored == c.readIgnored
  {
    hide RecordsOk, Order, IdsOk, UpOk, WireOk, ScanOk, FrontOk, CloseOk, ReadOk;
  }

  /** The answer the user or request_error gives. */
  lemma GivenAnswer(c: Conn, s: Step)
    requires AnswersFront(c, s)
    ensures var r := if s.StepErrorTail? then BadRequest else s.response;
      var e := Given(c, s);
      && e.requests[0].response.value.completed == Whole(r)
      && e.requests[0].response.value.keepAlive == (r.keepAlive && !e.stopping)
      && e.phase == (if s.StepErrorTail? then Quiet else c.phase)
  {
  }

  lemma CallHangsIff(c: Conn, s: Step)
    requires Inv(c) && Answering(s) && !Hangs(c)
    ensures Hangs(Next(c, s)) <==> StartsHanging(c, s)
  {
    if EndsFront(c, s) {
      EndHangsIff(c, s);
      hide Inv, Next, Flows;
    } else if AnswersFront(c, s) {
      AnswerHangsIff(c, s);
      GivenShape(c, s);
      GivenAnswer(c, s);
      hide Inv, Next, Flows, Given;
    } else {
      OtherCallWaits(c, s);
      hide Inv, Next, Flows;
    }
  }

  ghost predicate SameWaiting(c: Conn, d: Conn) {
    && d.phase == c.phase && d.readIgnored == c.readIgnored && d.link == c.link
    && |d.requests| == |c.requests|
    && (c.requests != [] ==> d.requests[0].finishOnReceive == c.requests[0].finishOnReceive)
  }

  lemma OtherCallWaits(c: Conn, s: Step)
    requires Answering(s) && !EndsFront(c, s) && !AnswersFront(c, s)
    ensures SameWaiting(c, Next(c, s))
  {
    hide Finish, WriteNext, CompletedBefore, IndexOf, Take, RespondTo, ChunkTo, FinalTo;
    match s
    case StepRespond(id, r, drained) => RespondWaits(c, id, r, drained);
    case StepChunk(id, text) => ChunkWaits(c, id, text);
    case StepFinal(id, text, drained) => FinalWaits(c, id, text, drained);
    case StepContinue(id) =>
    case StepEnablePartial(id) =>
  }

  lemma RespondWaits(c: Conn, id: nat, r: Response, drained: bool)
    requires !AnswersFront(c, StepRespond(id, r, drained))
    ensures SameWaiting(c, RespondTo(c, id, r, drained).0)
  {
    hide WriteNext;
  }

  lemma ChunkWaits(c: Conn, id: nat, text: string)
    ensures SameWaiting(c, ChunkTo(c, id, text).0)
  {
    hide CompletedBefore, IndexOf;
  }

  lemma FinalWaits(c: Conn, id: nat, text: string, drained: bool)
    requires !EndsFront(c, StepFinal(id, text, drained))
    ensures SameWaiting(c, FinalTo(c, id, text, drained).0)
  {
    hide CompletedBefore, Finish, IndexOf;
  }

  /** An answer that waits is alone in the queue, and while something can be read, it is being read. */
  lemma WaitsAlone(c: Conn)
    requires Inv(c) && Waits(c)
    ensures |c.requests| == 1 && c.requests[0].written && c.requests[0].response.Some?
    ensures c.requests[0].response.value.completed
    ensures Reading(c) ==> c.parsing == Some(c.requests[0].id)
  {
    assert RequestOk(c.requests[0]);
  }

  lemma ArriveHangsIff(c: Conn, p: Parsed)
    requires Inv(c) && Reading(c)
    ensures Hangs(Arrive(c, p)) <==> StartsHanging(c, StepArrive(p))
  {
    if Waits(c) { WaitsAlone(c); }
    AdmitContinues(c, p.header);
    ArriveBack(c, p);
    hide RecordsOk, IdsOk, UpOk, WireOk, ScanOk, Order, Receive;
    var id := if c.parsing.Some? then c.parsing.value else c.nextId;
    var m := Admit(c.(timer := false, nextId := if c.parsing.Some? then c.nextId else c.nextId + 1), id, p.header);
    var e := Arrive(c, p);
    ArrivedWaits(c, m, e, p.header);
    ArriveErrs(c, p);
  }

  lemma ArrivedWaits(c: Conn, m: Conn, e: Conn, header: Header)
    requires c.link.Up? && Continued(c, m, header) && BackFlags(m, e)
    ensures Waits(e) <==> c.requests != [] && c.requests[0].finishOnReceive
    ensures Waits(e) ==> |e.requests| == |m.requests|
  {
    if c.requests != [] {
      assert e.requests[0].finishOnReceive == m.requests[0].finishOnReceive;
      assert m.requests[0] == c.requests[0];
    }
  }

  lemma ArriveErrs(c: Conn, p: Parsed)
    requires Reading(c)
    ensures var e := Arrive(c, p);
      e.readIgnored && !e.phase.InLoop? <==> p.state.Error? || e.phase.InError?
    ensures p.state.Error? ==> Arrive(c, p).readIgnored && Arrive(c, p).phase.InError?
    ensures Arrive(c, p).phase.InError? && !p.state.Error? ==> |Arrive(c, p).requests| > 1
  {
  }

  lemma ReadErrorHangsIff(c: Conn, header: Header)
    requires Inv(c) && Reading(c)
    ensures Hangs(ReadError(c, header)) <==> StartsHanging(c, StepReadError(header))
  {
    ReadErrorBack(c, header);
    var m, e := ErrorRoom(c, header), ReadError(c, header);
    hide Inv;
    ArrivedWaits(c, m, e, header);
  }

  lemma TailHangsNot(c: Conn, drained: bool)
    requires Inv(c) && Newest(c) && c.phase.InLoop?
    ensures !Hangs(Tail(c, drained))
  {
    hide Order, IdsOk, UpOk, WireOk, ScanOk, CloseOk, FateOk;
    var k := IndexOf(c.requests, c.phase.id);
    if c.phase.done && k < |c.requests| && c.requests[k].finishOnReceive {
      assert k == 0 && |c.requests| == 1;
      assert c.requests[0].done;
    } else if Waits(c) {
      assert c.requests[0] in c.requests;
    }
  }

  lemma ErrorTailHangsIff(c: Conn, drained: bool)
    requires Inv(c) && c.phase.InError? && !Hangs(c)
    ensures Hangs(ErrorTail(c, drained)) <==> StartsHanging(c, StepErrorTail(drained))
  {
    var s := StepErrorTail(drained);
    if AnswersFront(c, s) {
      AnswerHangsIff(c, s);
      GivenShape(c, s);
      GivenAnswer(c, s);
      if |c.requests| == 1 { FlowsOne(c.requests); }
      assert c.readIgnored && Next(c, s) == ErrorTail(c, drained);
      hide Inv, ErrorTail, Given;
    } else {
      OtherErrorTailWaits(c, drained);
      hide Inv, ErrorTail;
    }
  }

  lemma FlowsOne(qs: seq<Request>)
    requires |qs| == 1
    ensures Flows(qs) == !qs[0].done
  {
  }

  lemma OtherErrorTailWaits(c: Conn, drained: bool)
    requires c.phase.InError? && !AnswersFront(c, StepErrorTail(drained))
    ensures Waits(ErrorTail(c, drained)) == Waits(c)
  {
    var k := IndexOf(c.requests, c.phase.id);
    hide WriteNext, IndexOf;
    if k < |c.requests| && c.requests[k].response.None? {
      TakeWaits(c.(phase := Quiet), k, BadRequest);
      hide Take;
    }
  }

  lemma TakeWaits(c: Conn, k: nat, r: Response)
    requires 0 < k < |c.requests|
    ensures Waits(Take(c, k, r)) == Waits(c)
  {
  }

  lemma OtherHangsNot(c: Conn, s: Step)
    requires Inv(c) && Enabled(c, s) && !Hangs(c) && !Answering(s) && !ReadingStep(s)
    ensures !Hangs(Next(c, s))
  {
    hide Inv, Drops;
    match s
    case StepWritten(failed, drained) =>
    case StepIdle =>
    case StepEof =>
    case StepShutdownDone =>
    case StepClose =>
    case StepGracefulStop =>
    case StepDrop(id) =>
    case StepUpgrade(id) =>
  }

  lemma StepHangsIff(c: Conn, s: Step)
    requires Inv(c) && Newest(c) && Enabled(c, s) && !Hangs(c)
    ensures Hangs(Next(c, s)) <==> StartsHanging(c, s)
  {
    hide Inv, Newest, Hangs, StartsHanging, Arrive, ReadError, Tail, ErrorTail;
    if Answering(s) {
      hide Next;
      CallHangsIff(c, s);
    } else {
      match s
      case StepArrive(p) => ArriveHangsIff(c, p);
      case StepReadError(header) => ReadErrorHangsIff(c, header);
      case StepTail(drained) =>
        TailHangsNot(c, drained);
        NoStart(c, s);
      case StepErrorTail(drained) => ErrorTailHangsIff(c, drained);
      case _ =>
        OtherHangsNot(c, s);
        NoStart(c, s);
    }
  }

  lemma NoStart(c: Conn, s: Step)
    requires !Answering(s) && !s.StepArrive? && !s.StepReadError? && !s.StepErrorTail?
    ensures !StartsHanging(c, s)
  {
  }

  /** In every reachable state that does not hang: a step makes the connection hang if and only if it is one
      of the three kinds. */
  lemma {:induction false} HangsIff(maxKeepAlive: nat, steps: seq<Step>, s: Step)
    requires Legal(NewConn(maxKeepAlive), steps) && Enabled(Run(NewConn(maxKeepAlive), steps), s)
    requires !Hangs(Run(NewConn(maxKeepAlive), steps))
    ensures var c := Run(NewConn(maxKeepAlive), steps);
      Hangs(Next(c, s)) <==> StartsHanging(c, s)
  {
    RunKeeps(maxKeepAlive, steps);
    RunKeepsNewest(maxKeepAlive, steps);
    hide Legal, Run, Enabled, Inv, Newest, Hangs, StartsHanging, Next;
    StepHangsIff(Run(NewConn(maxKeepAlive), steps), s);
  }

  // ---------------------------------------------------------------- for good

  lemma CallIgnored(c: Conn, s: Step)
    requires |c.requests| == 1 && c.requests[0].response.Some? && c.requests[0].response.value.completed && Answering(s)
    ensures var d := Next(c, s);
      && d.wire == c.wire && d.departed == c.departed && d.readIgnored == c.readIgnored && d.link == c.link
      && d.phase == c.phase && |d.requests| == 1 && d.requests[0].finishOnReceive == c.requests[0].finishOnReceive
  {
    hide Finish, WriteNext, CompletedBefore;
    match s
    case StepRespond(_, _, _) =>
    case StepChunk(_, _) =>
    case StepFinal(_, _, _) =>
    case StepContinue(_) =>
    case StepEnablePartial(_) =>
  }

  lemma ErrorTailIgnored(c: Conn, drained: bool)
    requires |c.requests| == 1 && c.requests[0].response.Some? && c.phase.InError?
    ensures var d := ErrorTail(c, drained);
      && d.wire == c.wire && d.departed == c.departed && d.readIgnored == c.readIgnored && d.link == c.link
      && d.phase.Quiet? && |d.requests| == 1 && d.requests[0].finishOnReceive == c.requests[0].finishOnReceive
  {
    hide WriteNext, Take, IndexOf;
  }

  lemma OtherStepDown(c: Conn, s: Step)
    requires !Answering(s) && !ReadingStep(s) && c.requests != []
    ensures var d := Next(c, s);
      && d.wire == c.wire
      && (!d.link.Up?
          || (d.requests == c.requests && d.departed == c.departed && d.phase == c.phase && d.readIgnored == c.readIgnored && d.link == c.link))
  {
    GoesDown(c);
    hide DropAll, Shutdown, Close, Depart, IndexOf;
    match s
    case StepIdle => GoesDown(c.(timer := false));
    case StepUpgrade(id) => UpgradeGoesDown(c, id);
    case _ =>
  }

  lemma GoesDown(c: Conn)
    ensures Close(c).wire == c.wire && !Close(c).link.Up?
    ensures Shutdown(c).wire == c.wire && !Shutdown(c).link.Up?
  {
  }

  lemma UpgradeGoesDown(c: Conn, id: nat)
    ensures var d := UpgradeRequest(c, id).0; d == c || (d.wire == c.wire && !d.link.Up?)
  {
  }

  /** A connection that hangs answers nothing more: every step leaves it hanging or takes it down. */
  lemma HangingStays(c: Conn, s: Step)
    requires Inv(c) && Hangs(c) && Enabled(c, s)
    ensures var d := Next(c, s);
      && d.wire == c.wire
      && ((Hangs(d) && d.departed == c.departed) || !d.link.Up?)
  {
    WaitsAlone(c);
    hide Inv, Next, Answerable;
    if Answering(s) {
      CallIgnored(c, s);
    } else if s.StepErrorTail? {
      ErrorTailIgnored(c, s.drained);
      ErrorTailStep(c, s.drained);
    } else {
      OtherStepDown(c, s);
    }
  }

  /** A connection that is down stays down, and nothing is written on it. */
  lemma DownStays(c: Conn, s: Step)
    requires Inv(c) && !c.link.Up? && Enabled(c, s)
    ensures var d := Next(c, s); d.wire == c.wire && !d.link.Up?
  {
    EmptyWhenDown(c);
    StepGrows(c, s);
    hide Inv, Answerable, Drops, IndexOf, Finish, WriteNext, Take, CompletedBefore;
    match s
    case StepRespond(_, _, _) =>
    case StepChunk(_, _) =>
    case StepFinal(_, _, _) =>
    case StepContinue(_) =>
    case StepEnablePartial(_) =>
    case StepTail(_) =>
    case StepErrorTail(_) =>
    case _ => GoesDown(c);
  }

  /** Over every continuation of every run: a connection that hangs answers nothing more and lets nothing
      depart until it is taken down, and writes nothing even then. */
  lemma {:induction false} HangsForGood(maxKeepAlive: nat, steps: seq<Step>, k: nat)
    requires Legal(NewConn(maxKeepAlive), steps) && k <= |steps| && Hangs(Run(NewConn(maxKeepAlive), steps[..k]))
    ensures var c, d := Run(NewConn(maxKeepAlive), steps[..k]), Run(NewConn(maxKeepAlive), steps);
      && d.wire == c.wire
      && ((Hangs(d) && d.departed == c.departed) || !d.link.Up?)
  {
    hide Inv, Next, Enabled, Hangs;
    if k == |steps| {
      assert steps[..k] == steps;
    } else {
      var before := steps[..|steps| - 1];
      assert before[..k] == steps[..k];
      HangsForGood(maxKeepAlive, before, k);
      RunKeeps(maxKeepAlive, before);
      var d := Run(NewConn(maxKeepAlive), before);
      if d.link.Up? { HangingStays(d, steps[|steps| - 1]); } else { DownStays(d, steps[|steps| - 1]); }
    }
  }
}

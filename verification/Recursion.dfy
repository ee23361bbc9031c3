/** Where the mutual recursion of write_next_response and finish_request ends: what it leaves alone, when
    its assertion fails, when it takes the connection down, and when it leaves an answer waiting. */
module Recursion {
  import opened Wire
  import opened Connection
  import opened Invariant
  import opened Pipelining
  import opened Steps
  import opened Serving

  // ---------------------------------------------------------------- what it leaves alone

  ghost predicate SameReader(c: Conn, d: Conn) {
    && d.parsing == c.parsing && d.phase == c.phase && d.nextId == c.nextId && d.stopping == c.stopping
    && (d.link == c.link || d.link.Shut?)
  }

  lemma SendFrontLeaves(c: Conn)
    requires c.requests != [] && c.requests[0].response.Some?
    ensures SameReader(c, SendFront(c)) && SendFront(c).link == c.link
    ensures 0 < |SendFront(c).requests| <= |c.requests|
  {
    hide ToVector, Chunks, Drops, Marked;
    var d := SendHead(c);
    assert SameReader(c, d) && d.link == c.link && |d.requests| == |c.requests|;
    hide SendHead;
  }

  lemma {:induction false} FinishLeaves(c: Conn, drained: bool)
    requires c.requests != []
    ensures SameReader(c, Finish(c, drained))
    decreases |c.requests|, 0
  {
    hide SendFront;
    if c.requests[0].done {
      var d := Depart(c, Answered);
      if !c.closing && !c.stopping && d.requests != [] && d.requests[0].response.Some? { WriteNextLeaves(d, drained); }
    }
  }

  lemma {:induction false} WriteNextIs(c: Conn, drained: bool)
    requires c.requests != [] && c.requests[0].response.Some?
    ensures SendFront(c).requests != []
    ensures WriteNext(c, drained) == if c.requests[0].response.value.completed then Finish(SendFront(c), drained) else SendFront(c)
  {
    SendFrontLeaves(c);
    hide SendFront, Finish;
  }

  lemma {:induction false} WriteNextLeaves(c: Conn, drained: bool)
    requires c.requests != [] && c.requests[0].response.Some?
    ensures SameReader(c, WriteNext(c, drained))
    decreases |c.requests|, 1
  {
    SendFrontLeaves(c);
    WriteNextIs(c, drained);
    hide SendFront, WriteNext, Finish;
    if c.requests[0].response.value.completed { FinishLeaves(SendFront(c), drained); }
  }

  // ---------------------------------------------------------------- the front after the last call on it

  /** The step gives the last chunk of the front's response. */
  predicate EndsFront(c: Conn, s: Step) {
    && s.StepFinal? && c.requests != [] && c.requests[0].id == s.id
    && c.requests[0].response.Some? && !c.requests[0].response.value.completed
  }

  /** The state in which send_final_chunk calls finish_request. */
  function Ended(c: Conn, text: string): Conn
    requires c.requests != [] && c.requests[0].response.Some?
  {
    Write(c.(requests := c.requests[0 := Called(c.requests[0], SendFinal(text, true))]), [Final(c.requests[0].id, text)])
  }

  lemma EndedIs(c: Conn, s: Step)
    requires EndsFront(c, s)
    ensures IndexOf(c.requests, s.id) == 0
    ensures Next(c, s) == Finish(Ended(c, s.text), s.drained)
  {
    hide Finish;
  }

  lemma EndedCanFinish(c: Conn, s: Step)
    requires Inv(c) && EndsFront(c, s)
    ensures CanFinish(Ended(c, s.text)) && SameReader(c, Ended(c, s.text))
    ensures !Ended(c, s.text).requests[0].finishOnReceive
  {
    hide IdsOk, Order, UpOk, WireOk, ScanOk, FateOk;
    var call := SendFinal(s.text, true);
    assert RequestOk(c.requests[0]);
    FrontCallKeeps(c, Ended(c, s.text), call);
    SnocShape(c.requests[0].calls, call);
  }

  /** The response given is for the front. */
  predicate AnswersFront(c: Conn, s: Step) {
    && c.requests != [] && c.requests[0].response.None?
    && match s
       case StepRespond(id, _, _) => c.requests[0].id == id
       case StepErrorTail(_) => c.phase.InError? && c.requests[0].id == c.phase.id
       case _ => false
  }

  /** The state in which respond calls write_next_response. */
  function Given(c: Conn, s: Step): Conn
    requires AnswersFront(c, s)
  {
    match s
    case StepRespond(_, r, _) => Take(c, 0, r)
    case StepErrorTail(_) => Take(c.(phase := Quiet), 0, BadRequest)
  }

  lemma GivenIs(c: Conn, s: Step)
    requires AnswersFront(c, s)
    ensures Next(c, s) == WriteNext(Given(c, s), s.drained)
  {
    hide WriteNext, Take;
  }

  lemma GivenCanSend(c: Conn, s: Step)
    requires Inv(c) && AnswersFront(c, s)
    ensures CanSend(Given(c, s)) && ReadOk(Given(c, s))
    ensures Given(c, s).stopping ==> !Given(c, s).requests[0].response.value.keepAlive
  {
    var d := if s.StepErrorTail? then c.(phase := Quiet) else c;
    var r := if s.StepErrorTail? then BadRequest else s.response;
    if s.StepErrorTail? { PhaseKeeps(c, d); }
    assert Inv(d);
    assert Given(c, s) == Take(d, 0, r);
    GivenStops(d, r);
    hide Inv, Take, CanSend, ReadOk;
    TakeKeepsAll(d, r);
  }

  lemma GivenStops(c: Conn, r: Response)
    requires c.requests != []
    ensures Take(c, 0, r).requests != [] && Take(c, 0, r).requests[0].response.Some?
    ensures Take(c, 0, r).stopping ==> !Take(c, 0, r).requests[0].response.value.keepAlive
  {
  }

  lemma TakeKeepsAll(c: Conn, r: Response)
    requires Inv(c) && c.requests != [] && c.requests[0].response.None?
    ensures CanSend(Take(c, 0, r)) && ReadOk(Take(c, 0, r))
  {
    hide RecordsOk, Shape, Order, IdsOk, UpOk, WireOk, ScanOk, ReadOk, Take, FrontOk, CloseOk;
    TakeKeeps(c, 0, r);
    TakeCanSend(c, r);
  }

  // ---------------------------------------------------------------- the assertion in finish_request

  /** The assertion that nothing is queued at shutdown fails in this call of finish_request, or in one
      that it leads to. */
  predicate FinishFails(c: Conn)
    requires c.requests != []
    decreases |c.requests|, 0
  {
    && c.requests[0].done
    && var d := Depart(c, Answered);
       if c.closing || c.stopping then d.requests != []
       else d.requests != [] && d.requests[0].response.Some? && WriteFails(d)
  }

  predicate WriteFails(c: Conn)
    requires c.requests != [] && c.requests[0].response.Some?
    decreases |c.requests|, 1
  {
    c.requests[0].response.value.completed && FinishFails(SendFront(c))
  }

  /** It fails somewhere in a step. */
  predicate StepFails(c: Conn, s: Step) {
    || (EndsFront(c, s) && FinishFails(Ended(c, s.text)))
    || (AnswersFront(c, s) && WriteFails(Given(c, s)))
    || (EndsWaiting(c, s) && FinishFails(c.(phase := Quiet)))
  }

  /** The end of the loop body calls finish_request. */
  predicate EndsWaiting(c: Conn, s: Step) {
    && s.StepTail? && c.phase.InLoop? && c.phase.done
    && var k := IndexOf(c.requests, c.phase.id);
       k < |c.requests| && c.requests[k].finishOnReceive
  }

  lemma {:induction false} FinishHolds(c: Conn)
    requires CanFinish(c) && (c.stopping ==> c.closing)
    ensures !FinishFails(c)
    decreases |c.requests|, 0
  {
    hide RecordsOk, IdsOk, UpOk, WireOk, ScanOk, SendFront, ReadOk, Shape, Order;
    if c.requests[0].done && !c.closing && |c.requests| > 1 && c.requests[1].response.Some? {
      FinishDeparts(c);
      FinishHandsOver(c);
      WriteHolds(Depart(c, Answered));
    } else if c.requests[0].done && !c.closing && |c.requests| > 1 {
      assert Depart(c, Answered).requests[0] == c.requests[1];
    }
  }

  lemma {:induction false} WriteHolds(c: Conn)
    requires CanSend(c) && ReadOk(c) && (c.stopping ==> !c.requests[0].response.value.keepAlive)
    ensures !WriteFails(c)
    decreases |c.requests|, 1
  {
    if c.requests[0].response.value.completed {
      SendFrontKeeps(c);
      SendFrontLeaves(c);
      SendFrontCloses(c);
      SentCanFinish(c);
      hide CanSend, SendFront, ReadOk, CanFinish, SentFront;
      FinishHolds(SendFront(c));
    }
  }

  lemma SendFrontCloses(c: Conn)
    requires c.requests != [] && c.requests[0].response.Some? && !c.closing
    ensures SendFront(c).closing <==> !(c.requests[0].response.value.keepAlive && c.requests[0].header.keepAlive)
    ensures 0 < |SendFront(c).requests| <= |c.requests|
  {
    hide ToVector, Chunks, Drops;
  }

  lemma SentCanFinish(c: Conn)
    requires CanSend(c) && SentFront(c, SendFront(c)) && c.requests[0].response.value.completed
    ensures CanFinish(SendFront(c))
  {
    hide SendFront, Shape, IdsOk, Order, UpOk, WireOk, ScanOk, ReadOk, FateOk, CloseOk;
    assert RequestOk(SendFront(c).requests[0]);
  }

  lemma AnswersFrontHolds(c: Conn, s: Step)
    requires Inv(c) && AnswersFront(c, s)
    ensures !WriteFails(Given(c, s))
  {
    GivenCanSend(c, s);
    hide Inv, Given, CanSend, ReadOk;
    WriteHolds(Given(c, s));
  }

  /** A response that ends while the connection is stopping but not closing, with others queued. */
  predicate EndsWhileStopping(c: Conn, s: Step) {
    EndsFront(c, s) && c.requests[0].done && c.stopping && !c.closing
  }

  lemma EndsFrontFailsIff(c: Conn, s: Step)
    requires Inv(c) && EndsFront(c, s)
    ensures FinishFails(Ended(c, s.text)) <==> EndsWhileStopping(c, s) && |c.requests| > 1
  {
    EndedCanFinish(c, s);
    if c.stopping ==> c.closing {
      hide Inv, CanFinish;
      FinishHolds(Ended(c, s.text));
    }
  }

  /** In every reachable state: the assertion of finish_request fails in a step, at whatever depth of the
      recursion, if and only if the step gives the last chunk of a received front on a connection that was
      stopped gracefully after that response was begun, with requests queued behind it. */
  lemma {:induction false} AssertionFailsIff(maxKeepAlive: nat, steps: seq<Step>, s: Step)
    requires Legal(NewConn(maxKeepAlive), steps) && Enabled(Run(NewConn(maxKeepAlive), steps), s)
    ensures var c := Run(NewConn(maxKeepAlive), steps);
      StepFails(c, s) <==> EndsWhileStopping(c, s) && |c.requests| > 1
  {
    var c := Run(NewConn(maxKeepAlive), steps);
    RunKeeps(maxKeepAlive, steps);
    hide Legal, Run, Enabled;
    if EndsFront(c, s) { EndsFrontFailsIff(c, s); }
    if AnswersFront(c, s) { AnswersFrontHolds(c, s); }
    if EndsWaiting(c, s) { assert |c.requests| == 1; }
  }

  // ---------------------------------------------------------------- going down

  /** Without a graceful stop the recursion takes the connection down only by closing it. */
  lemma {:induction false} FinishCloses(c: Conn, drained: bool)
    requires c.requests != [] && c.link.Up? && (c.stopping ==> c.closing)
    ensures Finish(c, drained).link.Up? || Finish(c, drained).closing
    decreases |c.requests|, 0
  {
    hide SendFront;
    if c.requests[0].done && !c.closing {
      var d := Depart(c, Answered);
      if d.requests != [] && d.requests[0].response.Some? { WriteNextCloses(d, drained); }
    }
  }

  lemma {:induction false} WriteNextCloses(c: Conn, drained: bool)
    requires c.requests != [] && c.requests[0].response.Some? && c.link.Up? && !c.closing
    requires c.stopping ==> !c.requests[0].response.value.keepAlive
    ensures WriteNext(c, drained).link.Up? || WriteNext(c, drained).closing
    decreases |c.requests|, 1
  {
    SendFrontLeaves(c);
    SendFrontCloses(c);
    hide SendFront;
    if c.requests[0].response.value.completed { FinishCloses(SendFront(c), drained); }
  }

  /** An answering call takes a connection down without closing it if and only if it ends a received
      front's response after a graceful stop. */
  lemma CallShutsIff(c: Conn, s: Step)
    requires Inv(c) && c.link.Up? && Answering(s)
    ensures !Next(c, s).link.Up? && !Next(c, s).closing <==> EndsWhileStopping(c, s)
  {
    hide Inv, Finish, WriteNext;
    if EndsFront(c, s) {
      EndedIs(c, s);
      EndShutsIff(c, s);
    } else if AnswersFront(c, s) {
      GivenIs(c, s);
      GivenCanSend(c, s);
      CanSendUp(Given(c, s));
      WriteNextCloses(Given(c, s), s.drained);
    } else {
      OtherCallStaysUp(c, s);
    }
  }

  lemma CanSendUp(c: Conn)
    requires CanSend(c)
    ensures c.link.Up? && !c.closing && c.requests != [] && c.requests[0].response.Some?
  {
  }

  lemma OtherCallStaysUp(c: Conn, s: Step)
    requires c.link.Up? && Answering(s) && !EndsFront(c, s) && !AnswersFront(c, s)
    ensures Next(c, s).link.Up?
  {
    hide CompletedBefore, IndexOf, RespondTo, ChunkTo, FinalTo;
    match s
    case StepRespond(id, r, drained) => RespondStaysUp(c, id, r, drained);
    case StepChunk(id, text) => ChunkStaysUp(c, id, text);
    case StepFinal(id, text, drained) => FinalStaysUp(c, id, text, drained);
    case StepContinue(id) =>
    case StepEnablePartial(id) =>
  }

  lemma RespondStaysUp(c: Conn, id: nat, r: Response, drained: bool)
    requires !AnswersFront(c, StepRespond(id, r, drained))
    ensures RespondTo(c, id, r, drained).0.link == c.link
  {
    hide WriteNext, IndexOf;
  }

  lemma ChunkStaysUp(c: Conn, id: nat, text: string)
    ensures ChunkTo(c, id, text).0.link == c.link
  {
    hide CompletedBefore, IndexOf;
  }

  lemma FinalStaysUp(c: Conn, id: nat, text: string, drained: bool)
    requires !EndsFront(c, StepFinal(id, text, drained))
    ensures FinalTo(c, id, text, drained).0.link == c.link
  {
    hide CompletedBefore, Finish, IndexOf;
  }

  lemma EndShutsIff(c: Conn, s: Step)
    requires Inv(c) && c.link.Up? && EndsFront(c, s)
    ensures var d := Finish(Ended(c, s.text), s.drained);
      !d.link.Up? && !d.closing <==> EndsWhileStopping(c, s)
  {
    hide Inv;
    var e := Ended(c, s.text);
    assert e.requests != [] && e.link.Up? && e.closing == c.closing && e.stopping == c.stopping;
    assert e.requests[0].done == c.requests[0].done;
    if c.stopping ==> c.closing { FinishCloses(e, s.drained); }
  }

  // ---------------------------------------------------------------- an answer that waits

  /** The head that is ready for the front keeps the connection. */
  predicate KeepsOn(q: Request) { q.response.Some? && q.response.value.keepAlive && q.header.keepAlive }

  /** The answer of the front is complete and waits for the end of the request. */
  predicate Waits(c: Conn) {
    c.link.Up? && c.requests != [] && c.requests[0].finishOnReceive
  }

  /** Everything behind the front is answered in full and is sent as soon as the front ends, and the last
      request has not been received. */
  predicate Flows(qs: seq<Request>) {
    && qs != [] && !qs[|qs| - 1].done
    && forall i :: 0 < i < |qs| ==>
         && qs[i].response.Some? && qs[i].response.value.completed
         && (i < |qs| - 1 ==> qs[i].response.value.keepAlive)
  }

  lemma FlowsOn(qs: seq<Request>, rest: seq<Request>)
    requires |qs| > 1 && |rest| == |qs| - 1 && rest[1..] == qs[2..]
    requires qs[1].response.Some? && qs[1].response.value.completed && rest[0].done == qs[1].done
    ensures Flows(qs) <==> Flows(rest) && (|qs| > 2 ==> qs[1].response.value.keepAlive)
  {
    assert forall i :: 1 < i < |qs| ==> qs[i] == qs[2..][i - 2] && rest[i - 1] == rest[1..][i - 2];
    if Flows(rest) && (|qs| > 2 ==> qs[1].response.value.keepAlive) {
      forall i | 0 < i < |qs|
        ensures qs[i].response.Some? && qs[i].response.value.completed && (i < |qs| - 1 ==> qs[i].response.value.keepAlive)
      {
        if i > 1 { assert qs[i] == rest[i - 1]; }
      }
    }
    if Flows(qs) {
      forall i | 0 < i < |rest| ensures rest[i] == qs[i + 1] {}
    }
  }

  /** finish_request leaves an answer waiting if and only if the last request is still to be received and
      everything in between is sent on the way. */
  lemma {:induction false} FinishWaitsIff(c: Conn, drained: bool)
    requires CanFinish(c)
    ensures var d := Finish(c, drained);
      && (Waits(d) <==> Flows(c.requests) && (|c.requests| > 1 ==> !c.closing && !c.stopping))
      && (Waits(d) ==> d.readIgnored == c.readIgnored)
    decreases |c.requests|, 0
  {
    hide RecordsOk, IdsOk, UpOk, WireOk, ScanOk, SendFront, ReadOk, Order;
    if !c.requests[0].done {
      assert |c.requests| == 1;
    } else if c.closing || c.stopping || |c.requests| == 1 {
    } else if c.requests[1].response.Some? {
      FinishDeparts(c);
      FinishHandsOver(c);
      var d := Depart(c, Answered);
      assert d.requests[0] == c.requests[1];
      assert d.requests[0].header.keepAlive || |d.requests| == 1;
      WriteNextWaitsIff(d, drained);
      SentRest(d);
      if d.requests[0].response.value.completed && |SendFront(d).requests| == |d.requests| {
        FlowsOn(c.requests, SendFront(d).requests);
      }
    } else {
      FinishDeparts(c);
      var d := Depart(c, Answered);
      assert d.requests[0] == c.requests[1];
      NotYetWaiting(d);
    }
  }

  lemma NotYetWaiting(c: Conn)
    requires RecordsOk(c) && c.requests != [] && !c.requests[0].written
    ensures !c.requests[0].finishOnReceive
  {
    assert RequestOk(c.requests[0]);
  }

  /** The queue after write_next_response has written the head. */
  lemma SentRest(c: Conn)
    requires c.requests != [] && c.requests[0].response.Some? && !c.closing
    ensures var d := SendFront(c);
      && 0 < |d.requests| <= |c.requests|
      && d.requests[0].done == c.requests[0].done && d.requests[0].finishOnReceive == c.requests[0].finishOnReceive
      && d.link == c.link
      && if c.requests[0].response.value.keepAlive && c.requests[0].header.keepAlive
         then |d.requests| == |c.requests| && d.requests[1..] == c.requests[1..] && !d.closing && d.readIgnored == c.readIgnored
         else |d.requests| == 1 && d.closing && d.readIgnored == (c.readIgnored || c.requests[0].done)
  {
    var m := Marked(c.requests[0]);
    assert m.done == c.requests[0].done && m.finishOnReceive == c.requests[0].finishOnReceive;
    hide ToVector, Chunks, Drops, Marked;
    var d := SendHead(c);
    assert d.requests == [m] + c.requests[1..] && d.closing == c.closing && d.readIgnored == c.readIgnored && d.link == c.link;
    hide SendHead;
  }

  lemma {:induction false} WriteNextWaitsIff(c: Conn, drained: bool)
    requires CanSend(c) && ReadOk(c)
    ensures var d := WriteNext(c, drained);
      && (Waits(d) <==>
            && c.requests[0].response.value.completed
            && Flows(SendFront(c).requests)
            && (|SendFront(c).requests| > 1 ==> !SendFront(c).closing && !c.stopping))
      && (Waits(d) ==> d.readIgnored == c.readIgnored)
    decreases |c.requests|, 1
  {
    SentRest(c);
    SendFrontKeeps(c);
    SendFrontLeaves(c);
    NotYetWaiting(c) by { assert Core(c); }
    if c.requests[0].response.value.completed {
      SentCanFinish(c);
      hide CanSend, SendFront, ReadOk, CanFinish, SentFront;
      FinishWaitsIff(SendFront(c), drained);
    } else {
      hide CanSend, SendFront, ReadOk, SentFront;
    }
  }
}

/** How a connection closes: close discipline, the idle timer, keep-alive marks and the keep-alive cap. */
module Closing {
  import opened Wire
  import opened Connection
  import opened Invariant
  import opened Steps
  import opened Serving
  import opened Lifetime

  // ---------------------------------------------------------------- close discipline

  /** The queue holds exactly the request whose head has announced that the connection closes, and
      everything that arrived after it has left unwritten. */
  ghost predicate Closes(c: Conn) {
    && |c.requests| == 1 && c.requests[0].written && !c.requests[0].headKeepAlive
    && forall i :: 0 <= i < |c.departed| && c.departed[i].request.id > c.requests[0].id ==>
         !c.departed[i].request.written && !c.departed[i].fate.Answered?
  }

  /** From the head without keep-alive until the connection goes down the queue holds exactly the
      request of that head, and everything that arrived after it has left unwritten. */
  lemma {:induction false} CloseDiscipline(maxKeepAlive: nat, steps: seq<Step>)
    requires Legal(NewConn(maxKeepAlive), steps)
    ensures var c := Run(NewConn(maxKeepAlive), steps); c.closing && c.link.Up? ==> Closes(c)
  {
    var c := Run(NewConn(maxKeepAlive), steps);
    RunKeeps(maxKeepAlive, steps);
    if c.closing && c.link.Up? { ClosesProperly(c); }
  }

  lemma ClosesProperly(c: Conn)
    requires Inv(c) && c.closing && c.link.Up?
    ensures Closes(c)
  {
    forall i | 0 <= i < |c.departed| && c.departed[i].request.id > c.requests[0].id
      ensures !c.departed[i].request.written && !c.departed[i].fate.Answered?
    {
      assert FateOk(c.departed[i]);
    }
  }

  /** Every request but the last is received and keep-alive, and a request whose answer waits for the
      request's end is alone in the queue: a request that asks to close never has others behind it. */
  lemma {:induction false} QueueShape(maxKeepAlive: nat, steps: seq<Step>)
    requires Legal(NewConn(maxKeepAlive), steps)
    ensures var c := Run(NewConn(maxKeepAlive), steps);
      && (forall i :: 0 <= i < |c.requests| - 1 ==> c.requests[i].done && c.requests[i].header.keepAlive)
      && (forall i :: 0 <= i < |c.requests| && c.requests[i].finishOnReceive ==>
            |c.requests| == 1 && c.requests[i].written && Complete(c.requests[i].calls))
  {
    var c := Run(NewConn(maxKeepAlive), steps);
    RunKeeps(maxKeepAlive, steps);
    forall i | 0 <= i < |c.requests| && c.requests[i].finishOnReceive
      ensures |c.requests| == 1 && c.requests[i].written && Complete(c.requests[i].calls)
    {
      assert RequestOk(c.requests[i]);
    }
  }

  // ---------------------------------------------------------------- idle timer

  /** An idle timeout never cuts off a request. */
  lemma {:induction false} IdleCutsNothing(maxKeepAlive: nat, steps: seq<Step>)
    requires Legal(NewConn(maxKeepAlive), steps)
    ensures var c := Run(NewConn(maxKeepAlive), steps);
      && (c.timer ==> c.requests == [])
      && (Enabled(c, StepIdle) ==> Next(c, StepIdle).departed == c.departed)
  {
    RunKeeps(maxKeepAlive, steps);
  }

  // ---------------------------------------------------------------- keep-alive cap

  /** A head says keep-alive only if the response did so when it was given and its request does. */
  lemma {:induction false} HeadsAreHonest(maxKeepAlive: nat, steps: seq<Step>)
    requires Legal(NewConn(maxKeepAlive), steps)
    ensures var c := Run(NewConn(maxKeepAlive), steps);
      forall q :: q in History(c) && q.written && q.headKeepAlive ==>
        q.calls != [] && q.calls[0].Respond? && q.calls[0].response.keepAlive && q.header.keepAlive
  {
    var c := Run(NewConn(maxKeepAlive), steps);
    RunKeeps(maxKeepAlive, steps);
    forall q | q in History(c) ensures RequestOk(q) {
      assert q in Gone(c.departed) || q in c.requests;
    }
  }

  lemma OneOf(c: Conn, i: nat, j: nat)
    requires Inv(c) && i < |c.requests| && j < |c.requests| && c.requests[i].id == c.requests[j].id
    ensures i == j
  {
    hide RecordsOk, Shape, IdsOk, UpOk, WireOk, ScanOk, FrontOk, CloseOk, ReadOk;
  }

  /** A request that is queued and has no response is given one. */
  predicate Gives(c: Conn, s: Step) {
    match s
    case StepRespond(id, _, _) => exists i :: 0 <= i < |c.requests| && c.requests[i].id == id && c.requests[i].response.None?
    case StepErrorTail(_) =>
      c.phase.InError? && exists i :: 0 <= i < |c.requests| && c.requests[i].id == c.phase.id && c.requests[i].response.None?
    case _ => false
  }

  lemma GivesIs(c: Conn, s: Step)
    requires Inv(c)
    ensures Gives(c, s) <==> Answers(c, s)
  {
    match s
    case StepRespond(id, _, _) =>
      FirstPlace(c, id);
      hide Inv, IndexOf;
    case StepErrorTail(_) =>
      if c.phase.InError? { FirstPlace(c, c.phase.id); }
      hide Inv, IndexOf;
    case _ =>
  }

  lemma {:induction false} FirstPlace(c: Conn, id: nat)
    requires Inv(c)
    ensures forall i :: 0 <= i < |c.requests| && c.requests[i].id == id ==> i == IndexOf(c.requests, id)
  {
    var k := IndexOf(c.requests, id);
    forall i | 0 <= i < |c.requests| && c.requests[i].id == id ensures i == k { OneOf(c, i, k); }
  }

  /** How many responses have been given in a run. */
  function GivenSoFar(init: Conn, steps: seq<Step>): nat {
    if steps == [] then 0
    else
      var before := steps[..|steps| - 1];
      GivenSoFar(init, before) + if Gives(Run(init, before), steps[|steps| - 1]) then 1 else 0
  }

  lemma {:induction false} AnsweredIs(maxKeepAlive: nat, steps: seq<Step>)
    requires Legal(NewConn(maxKeepAlive), steps)
    ensures var c := Run(NewConn(maxKeepAlive), steps);
      c.processed == GivenSoFar(NewConn(maxKeepAlive), steps) && c.maxKeepAlive == maxKeepAlive
  {
    hide Next, Enabled, Inv, Gives, Answers;
    if steps != [] {
      var before := steps[..|steps| - 1];
      AnsweredIs(maxKeepAlive, before);
      RunKeeps(maxKeepAlive, before);
      GivesIs(Run(NewConn(maxKeepAlive), before), steps[|steps| - 1]);
      StepGrows(Run(NewConn(maxKeepAlive), before), steps[|steps| - 1]);
    }
  }

  /** The answer that makes a connection stop, given to the only request, closes it. */
  lemma LastAnswerCloses(c: Conn, r: Response, drained: bool)
    requires Inv(c) && |c.requests| == 1 && c.requests[0].response.None? && Take(c, 0, r).stopping
    ensures var d := Answer(c, 0, r, drained); d.closing || !d.link.Up?
  {
    var t := Take(c, 0, r);
    var d := SendFront(t);
    assert d.closing && |d.requests| == 1;
    if t.requests[0].response.value.completed { assert Answer(c, 0, r, drained) == Finish(d, drained); }
  }

  /** Whenever a request is answered in this run, it is the only one outstanding. */
  ghost predicate OneAtATime(c: Conn, steps: seq<Step>) {
    if steps == [] then true
    else
      var d := Run(c, steps[..|steps| - 1]);
      OneAtATime(c, steps[..|steps| - 1]) && (Gives(d, steps[|steps| - 1]) ==> |d.requests| == 1)
  }

  ghost predicate Capped(c: Conn) {
    c.maxKeepAlive > 0 ==>
      c.processed <= c.maxKeepAlive && (c.processed == c.maxKeepAlive ==> c.closing || !c.link.Up?)
  }

  lemma CapStep(c: Conn, s: Step)
    requires Inv(c) && Enabled(c, s) && Capped(c) && (Gives(c, s) ==> |c.requests| == 1)
    ensures Capped(Next(c, s))
  {
    GivesIs(c, s);
    StepGrows(c, s);
    if Answers(c, s) && c.maxKeepAlive > 0 {
      assert c.link.Up? && !c.requests[0].written;
      assert !c.closing;
      if c.processed + 1 == c.maxKeepAlive {
        match s
        case StepRespond(id, r, drained) => LastAnswerCloses(c, r, drained);
        case StepErrorTail(drained) =>
          var d := c.(phase := Quiet);
          PhaseKeeps(c, d);
          LastAnswerCloses(d, BadRequest, drained);
      }
    }
  }

  /** The cap on keep-alive requests: when requests are answered one at a time, a connection answers at
      most `max_keepalive_requests` of them, and the last one closes it. */
  lemma {:induction false} KeepAliveCap(maxKeepAlive: nat, steps: seq<Step>)
    requires maxKeepAlive > 0 && Legal(NewConn(maxKeepAlive), steps) && OneAtATime(NewConn(maxKeepAlive), steps)
    ensures var given := GivenSoFar(NewConn(maxKeepAlive), steps);
      var c := Run(NewConn(maxKeepAlive), steps);
      given <= maxKeepAlive && (given == maxKeepAlive ==> c.closing || !c.link.Up?)
  {
    AnsweredIs(maxKeepAlive, steps);
    RunCapped(maxKeepAlive, steps);
  }

  lemma {:induction false} RunCapped(maxKeepAlive: nat, steps: seq<Step>)
    requires maxKeepAlive > 0 && Legal(NewConn(maxKeepAlive), steps) && OneAtATime(NewConn(maxKeepAlive), steps)
    ensures Capped(Run(NewConn(maxKeepAlive), steps)) && Run(NewConn(maxKeepAlive), steps).maxKeepAlive == maxKeepAlive
  {
    if steps != [] {
      var before := steps[..|steps| - 1];
      RunCapped(maxKeepAlive, before);
      RunKeeps(maxKeepAlive, before);
      CapStep(Run(NewConn(maxKeepAlive), before), steps[|steps| - 1]);
      StepGrows(Run(NewConn(maxKeepAlive), before), steps[|steps| - 1]);
    }
  }
}

/** Grammar of the wire, lifetime of requests, draining, closing and the keep-alive cap. */
module Lifetime {
  import opened Options
  import opened Wire
  import opened Connection
  import opened Invariant
  import opened Pipelining
  import opened Steps
  import opened Serving

  // ---------------------------------------------------------------- grammar

  /** In every reachable state: each request has one head on the wire, or none if it has not been written;
      a reader of the wire, 100 responses included, is between responses or inside the one in progress, if
      and only if no response has lost its last chunk; and while the connection is up, the response in
      progress is that of the front. */
  lemma {:induction false} WireGrammar(maxKeepAlive: nat, steps: seq<Step>)
    requires Legal(NewConn(maxKeepAlive), steps)
    ensures var c := Run(NewConn(maxKeepAlive), steps);
      && (forall q :: q in History(c) ==> Heads(c.wire, q.id) == if q.written then 1 else 0)
      && (forall id :: id >= c.nextId ==> Heads(c.wire, id) == 0)
      && (InStep(c) <==> forall q :: q in History(c) ==> !Cut(q))
      && (InStep(c) && c.link.Up? && Scan(Ready, c.wire).Streaming? ==>
            c.requests != [] && c.requests[0].written && Scan(Ready, c.wire).id == c.requests[0].id)
  {
    RunKeeps(maxKeepAlive, steps);
    hide Legal, Run, Inv;
    IsGrammatical(Run(NewConn(maxKeepAlive), steps));
  }

  lemma IsGrammatical(c: Conn)
    requires Inv(c)
    ensures forall q :: q in History(c) ==> Heads(c.wire, q.id) == if q.written then 1 else 0
    ensures forall id :: id >= c.nextId ==> Heads(c.wire, id) == 0
    ensures InStep(c) <==> forall q :: q in History(c) ==> !Cut(q)
    ensures InStep(c) && c.link.Up? && Scan(Ready, c.wire).Streaming? ==>
      c.requests != [] && c.requests[0].written && Scan(Ready, c.wire).id == c.requests[0].id
  {
    InStepIffUncut(c);
    if InStep(c) && c.link.Up? { StreamsFront(c); }
    forall q | q in History(c) ensures Heads(c.wire, q.id) == if q.written then 1 else 0 { OneHead(c, q); }
    forall id: nat | id >= c.nextId ensures Heads(c.wire, id) == 0 { NoHead(c, id); }
  }

  lemma StreamsFront(c: Conn)
    requires ScanOk(c) && c.link.Up? && forall q :: q in History(c) ==> !Cut(q)
    ensures Scan(Ready, c.wire).Streaming? ==>
      c.requests != [] && c.requests[0].written && Scan(Ready, c.wire).id == c.requests[0].id
  {
    forall q | q in Gone(c.departed) ensures !Cut(q) { assert q in History(c); }
  }

  lemma {:induction false} HeadsOuts(qs: seq<Request>, id: nat)
    requires Ids(qs)[id] <= 1 && forall i :: 0 <= i < |qs| ==> RequestOk(qs[i])
    ensures Ids(qs)[id] == 0 ==> Heads(Outs(qs), id) == 0
    ensures forall i :: 0 <= i < |qs| && qs[i].id == id ==> Heads(Outs(qs), id) == if qs[i].written then 1 else 0
  {
    if qs != [] {
      var before, q := qs[..|qs| - 1], qs[|qs| - 1];
      HeadsOuts(before, id);
      HeadsConcat(Outs(before), Out(q), id);
      HeadsOut(q, id);
      hide RequestOk, Outs, Out;
      forall i | 0 <= i < |qs| && qs[i].id == id ensures Heads(Outs(qs), id) == if qs[i].written then 1 else 0 {
        if i < |before| {
          IdsMember(before, i);
          assert before[i] == qs[i];
        }
      }
    }
  }

  lemma {:induction false} HeadsOut(q: Request, id: nat)
    requires RequestOk(q)
    ensures Heads(Out(q), id) == if q.written && q.id == id then 1 else 0
  {
    hide Holds, AllQueued, Complete;
    if q.written { HeadsDelivered(q.id, q.headKeepAlive, q.calls, id); }
  }

  lemma HistoryOk(c: Conn)
    requires RecordsOk(c)
    ensures forall i :: 0 <= i < |History(c)| ==> RequestOk(History(c)[i])
  {
    hide RequestOk, FateOk;
  }

  /** Nothing is on the wire for a request that has not arrived. */
  lemma {:induction false} NoHead(c: Conn, id: nat)
    requires IdsOk(c) && RecordsOk(c) && WireOk(c) && id >= c.nextId
    ensures Heads(c.wire, id) == 0
  {
    HistoryOk(c);
    hide RequestOk, Gone, Outs, Ids, Strip, Heads;
    HeadsStrip(c.wire, id);
    OutsConcat(Gone(c.departed), c.requests);
    IdsConcat(Gone(c.departed), c.requests);
    assert Ids(History(c))[id] == Places(c)[id] == 0;
    HeadsOuts(History(c), id);
  }

  lemma OneHead(c: Conn, q: Request)
    requires IdsOk(c) && RecordsOk(c) && WireOk(c) && q in History(c)
    ensures Heads(c.wire, q.id) == if q.written then 1 else 0
  {
    HistoryOk(c);
    hide RequestOk, Gone, Outs, Ids, Strip, Heads;
    var h := History(c);
    HeadsStrip(c.wire, q.id);
    OutsConcat(Gone(c.departed), c.requests);
    IdsConcat(Gone(c.departed), c.requests);
    assert Ids(h)[q.id] == Places(c)[q.id] <= 1;
    HeadsOuts(h, q.id);
    hide *;
    var i :| 0 <= i < |h| && h[i] == q;
  }

  lemma InStepIffUncut(c: Conn)
    requires Core(c)
    ensures InStep(c) <==> forall q :: q in History(c) ==> !Cut(q)
  {
    if c.link.Up? { DownScan(c, c); }
  }

  // ---------------------------------------------------------------- what only grows

  /** Nothing that left comes back or changes, nothing written is unwritten, a connection that closes,
      stops or goes down stays so. */
  ghost predicate Grows(c: Conn, d: Conn) {
    && c.departed <= d.departed
    && c.wire <= d.wire
    && c.nextId <= d.nextId
    && c.maxKeepAlive == d.maxKeepAlive
    && (c.closing ==> d.closing)
    && (c.stopping ==> d.stopping)
    && (d.link.Up? ==> c.link.Up?)
  }

  lemma {:induction false} FinishGrows(c: Conn, drained: bool)
    requires c.requests != []
    ensures Grows(c, Finish(c, drained)) && Finish(c, drained).processed == c.processed
    decreases |c.requests|, 0
  {
    if c.requests[0].done {
      var d := Depart(c, Answered);
      if !c.closing && !c.stopping && d.requests != [] && d.requests[0].response.Some? {
        WriteNextGrows(d, drained);
      }
    }
  }

  lemma {:induction false} WriteNextGrows(c: Conn, drained: bool)
    requires c.requests != [] && c.requests[0].response.Some?
    ensures Grows(c, WriteNext(c, drained)) && WriteNext(c, drained).processed == c.processed
    decreases |c.requests|, 1
  {
    SendFrontGrows(c);
    if c.requests[0].response.value.completed { FinishGrows(SendFront(c), drained); }
  }

  lemma SendFrontGrows(c: Conn)
    requires c.requests != [] && c.requests[0].response.Some?
    ensures Grows(c, SendFront(c)) && SendFront(c).processed == c.processed
    ensures 0 < |SendFront(c).requests| <= |c.requests|
  {
    hide ToVector, Chunks, Drops;
    var m := SendHead(c);
    assert Grows(c, m) && m.processed == c.processed;
  }

  lemma AnswerGrows(c: Conn, k: nat, r: Response, drained: bool)
    requires k < |c.requests|
    ensures Grows(c, Answer(c, k, r, drained)) && Answer(c, k, r, drained).processed == c.processed + 1
  {
    if k == 0 { WriteNextGrows(Take(c, k, r), drained); }
  }

  lemma FinalGrows(c: Conn, id: nat, text: string, drained: bool)
    ensures Grows(c, FinalTo(c, id, text, drained).0) && FinalTo(c, id, text, drained).0.processed == c.processed
  {
    var k := IndexOf(c.requests, id);
    if k < |c.requests| && c.requests[k].response.Some? && !c.requests[k].response.value.completed && k == 0 {
      var q := c.requests[k];
      var ended := q.(response := Some(q.response.value.(completed := true)), calls := q.calls + [SendFinal(text, true)]);
      FinishGrows(Write(c.(requests := c.requests[k := ended]), [Final(id, text)]), drained);
    }
  }

  lemma TailGrows(c: Conn, drained: bool)
    requires c.phase.InLoop?
    ensures Grows(c, Tail(c, drained)) && Tail(c, drained).processed == c.processed
  {
    if c.requests != [] { FinishGrows(c.(phase := Quiet), drained); }
  }

  /** The steps that answer a request. */
  predicate Answers(c: Conn, s: Step) {
    match s
    case StepRespond(id, _, _) => IndexOf(c.requests, id) < |c.requests| && c.requests[IndexOf(c.requests, id)].response.None?
    case StepErrorTail(_) => c.phase.InError? && IndexOf(c.requests, c.phase.id) < |c.requests|
                             && c.requests[IndexOf(c.requests, c.phase.id)].response.None?
    case _ => false
  }

  lemma ReceiveGrows(c: Conn, p: Parsed)
    ensures Grows(c, Receive(c, p)) && Receive(c, p).processed == c.processed
  {
  }

  /** Reading a part changes neither what has left nor what has been written. */
  ghost predicate SamePast(c: Conn, d: Conn) {
    && d.departed == c.departed && d.wire == c.wire && d.maxKeepAlive == c.maxKeepAlive
    && d.closing == c.closing && d.stopping == c.stopping && d.link == c.link && d.processed == c.processed
  }

  lemma RoutePast(d: Conn, q: Request)
    requires d.requests != []
    ensures SamePast(d, Fail(d, q.id)) && Fail(d, q.id).nextId == d.nextId
    ensures var e := SetBack(d, q.(routed := true)).(phase := InLoop(q.id, q.header.keepAlive, q.done));
      SamePast(d, e) && e.nextId == d.nextId
  {
  }

  lemma ArriveGrows(c: Conn, p: Parsed)
    ensures Grows(c, Arrive(c, p)) && Arrive(c, p).processed == c.processed
  {
    var d := Receive(c, p);
    ReceiveGrows(c, p);
    RoutePast(d, Back(d));
    assert SamePast(d, Arrive(c, p)) && Arrive(c, p).nextId == d.nextId;
  }

  lemma ReadErrorGrows(c: Conn, header: Header)
    ensures Grows(c, ReadError(c, header)) && ReadError(c, header).processed == c.processed
  {
  }

  lemma ErrorTailGrows(c: Conn, drained: bool)
    requires c.phase.InError?
    ensures Grows(c, ErrorTail(c, drained))
    ensures ErrorTail(c, drained).processed == c.processed + if Answers(c, StepErrorTail(drained)) then 1 else 0
  {
    if Answers(c, StepErrorTail(drained)) {
      AnswerGrows(c.(phase := Quiet), IndexOf(c.requests, c.phase.id), BadRequest, drained);
    }
  }

  lemma ChunkGrows(c: Conn, id: nat, text: string)
    ensures Grows(c, ChunkTo(c, id, text).0) && ChunkTo(c, id, text).0.processed == c.processed
  {
    hide CompletedBefore;
  }

  lemma ContinueGrows(c: Conn, id: nat)
    ensures Grows(c, ContinueTo(c, id).0) && ContinueTo(c, id).0.processed == c.processed
  {
  }

  lemma SmallStepGrows(c: Conn, s: Step)
    requires s.StepChunk? || s.StepContinue? || s.StepEnablePartial?
    ensures Grows(c, Next(c, s)) && Next(c, s).processed == c.processed
  {
    match s
    case StepChunk(id, text) => ChunkGrows(c, id, text);
    case StepContinue(id) => ContinueGrows(c, id);
    case StepEnablePartial(_) =>
  }

  lemma CloseGrows(c: Conn)
    ensures Grows(c, Close(c)) && Close(c).processed == c.processed
    ensures Grows(c, Shutdown(c)) && Shutdown(c).processed == c.processed
  {
  }

  lemma UpgradeGrows(c: Conn, id: nat)
    ensures Grows(c, UpgradeRequest(c, id).0) && UpgradeRequest(c, id).0.processed == c.processed
  {
  }

  lemma StopGrows(c: Conn, s: Step)
    requires s.StepWritten? || s.StepGracefulStop? || s.StepIdle? || s.StepShutdownDone?
    ensures Grows(c, Next(c, s)) && Next(c, s).processed == c.processed
  {
    CloseGrows(c);
    if s.StepIdle? { assert Next(c, s) == Close(c); }
  }

  lemma OtherGrows(c: Conn, s: Step)
    requires !Answering(s) && !ReadingStep(s)
    ensures Grows(c, Next(c, s)) && Next(c, s).processed == c.processed
  {
    match s
    case StepUpgrade(id) => UpgradeGrows(c, id);
    case StepEof => CloseGrows(c);
    case StepClose => CloseGrows(c);
    case StepDrop(_) => CloseGrows(c);
    case _ => StopGrows(c, s);
  }

  /** A request leaves at most once, with the record it had, and the wire is append-only. */
  lemma StepGrows(c: Conn, s: Step)
    ensures Grows(c, Next(c, s))
    ensures Next(c, s).processed == c.processed + if Answers(c, s) then 1 else 0
  {
    match s
    case StepRespond(id, r, drained) => if Answers(c, s) { AnswerGrows(c, IndexOf(c.requests, id), r, drained); }
    case StepErrorTail(drained) => if c.phase.InError? { ErrorTailGrows(c, drained); }
    case StepFinal(id, text, drained) => FinalGrows(c, id, text, drained);
    case StepTail(drained) => if c.phase.InLoop? { TailGrows(c, drained); }
    case StepArrive(p) => ArriveGrows(c, p);
    case StepReadError(header) => ReadErrorGrows(c, header);
    case StepChunk(_, _) => SmallStepGrows(c, s);
    case StepContinue(_) => SmallStepGrows(c, s);
    case StepEnablePartial(_) => SmallStepGrows(c, s);
    case _ => OtherGrows(c, s);
  }

  /** Over any continuation of any run: departures and output are append-only, flags are for good. */
  lemma {:induction false} RunGrows(c: Conn, steps: seq<Step>, k: nat)
    requires k <= |steps|
    ensures Grows(Run(c, steps[..k]), Run(c, steps))
  {
    if k == |steps| {
      assert steps[..k] == steps;
    } else {
      var before := steps[..|steps| - 1];
      RunGrows(c, before, k);
      assert before[..k] == steps[..k];
      StepGrows(Run(c, before), steps[|steps| - 1]);
    }
  }

  /** Every admitted request is in exactly one place, in the queue or among the departed, and every
      departure is what its record says: answered in full, dropped with the one notification that fits
      its state, silently discarded because its answer was already complete, or upgraded. */
  lemma {:induction false} OnePlace(maxKeepAlive: nat, steps: seq<Step>, id: nat)
    requires Legal(NewConn(maxKeepAlive), steps)
    ensures var c := Run(NewConn(maxKeepAlive), steps);
      && Ids(Gone(c.departed))[id] + Ids(c.requests)[id] == (if id < c.nextId then 1 else 0)
      && (forall i :: 0 <= i < |c.departed| ==> FateOk(c.departed[i]))
  {
    var c := Run(NewConn(maxKeepAlive), steps);
    RunKeeps(maxKeepAlive, steps);
    assert Places(c)[id] == Ids(Gone(c.departed))[id] + Ids(c.requests)[id];
  }

  // ---------------------------------------------------------------- draining

  /** The front is received and its response complete, and yet it has not left. */
  ghost predicate Stuck(c: Conn) {
    && c.requests != []
    && c.requests[0].response.Some? && c.requests[0].response.value.completed
    && c.requests[0].done
    && !(c.phase.InLoop? && c.phase.id == c.requests[0].id)
  }

  lemma {:induction false} FinishDrains(c: Conn, drained: bool)
    requires CanFinish(c)
    ensures !Stuck(Finish(c, drained))
    decreases |c.requests|, 0
  {
    if c.requests[0].done && !c.closing && !c.stopping && |c.requests| > 1 && c.requests[1].response.Some? {
      FinishDeparts(c);
      FinishHandsOver(c);
      WriteNextDrains(Depart(c, Answered), drained);
    } else if c.requests[0].done && |c.requests| > 1 {
      assert Depart(c, Answered).requests[0] == c.requests[1];
    }
  }

  lemma {:induction false} WriteNextDrains(c: Conn, drained: bool)
    requires CanSend(c) && ReadOk(c)
    ensures !Stuck(WriteNext(c, drained))
    decreases |c.requests|, 1
  {
    SendFrontKeeps(c);
    if c.requests[0].response.value.completed { FinishDrains(SendFront(c), drained); }
  }

  lemma AnswerDrains(c: Conn, k: nat, r: Response, drained: bool)
    requires Inv(c) && k < |c.requests| && c.requests[k].response.None? && !Stuck(c)
    ensures !Stuck(Answer(c, k, r, drained))
  {
    TakeKeeps(c, k, r);
    if k == 0 {
      WriteNextDrains(Take(c, k, r), drained);
    } else {
      assert Take(c, k, r).requests[0] == c.requests[0];
    }
  }

  lemma FinalDrains(c: Conn, id: nat, text: string, drained: bool)
    requires Inv(c) && !Stuck(c)
    ensures !Stuck(FinalTo(c, id, text, drained).0)
  {
    hide IdsOk, Order, UpOk, WireOk, ScanOk, RequestOk, FateOk, Finish;
    var k := IndexOf(c.requests, id);
    if k < |c.requests| && c.requests[k].response.Some? && !c.requests[k].response.value.completed {
      if k == 0 {
        var call := SendFinal(text, true);
        var d := Write(c.(requests := c.requests[0 := Called(c.requests[0], call)]), [Final(id, text)]);
        FrontCallKeeps(c, d, call);
        SnocShape(c.requests[0].calls, call);
        FinishDrains(d, drained);
      } else {
        assert FinalTo(c, id, text, drained).0.requests[0] == c.requests[0];
      }
    }
  }

  lemma TailDrains(c: Conn, drained: bool)
    requires Inv(c) && c.phase.InLoop? && !Stuck(c)
    ensures !Stuck(Tail(c, drained))
  {
    hide IdsOk, UpOk, WireOk, ScanOk;
  }

  /** The one way to get stuck: an error arrives while the front, already answered, is still being received. */
  ghost predicate ErrorWhileWaiting(c: Conn, s: Step) {
    && (s.StepReadError? || (s.StepArrive? && s.parsed.state.Error?))
    && c.requests != [] && c.requests[0].finishOnReceive
  }

  /** A waiting front is alone and still being read. */
  lemma WaitingFront(c: Conn)
    requires Inv(c) && Reading(c) && !Stuck(c) && c.requests != [] && c.requests[0].finishOnReceive
    ensures |c.requests| == 1 && c.parsing == Some(c.requests[0].id)
  {
  }

  lemma ArriveDrains(c: Conn, p: Parsed)
    requires Inv(c) && Reading(c) && !Stuck(c)
    ensures Stuck(Arrive(c, p)) <==> ErrorWhileWaiting(c, StepArrive(p))
  {
    hide RecordsOk, IdsOk, UpOk, WireOk, ScanOk, Order, Receive;
    AdmitContinues(c, p.header);
    ArriveBack(c, p);
    if c.requests != [] && c.requests[0].finishOnReceive { WaitingFront(c); }
    var id := if c.parsing.Some? then c.parsing.value else c.nextId;
    var m := Admit(c.(timer := false, nextId := if c.parsing.Some? then c.nextId else c.nextId + 1), id, p.header);
    ArrivedStuck(c, m, Arrive(c, p), p.header, id, p.state.Done? || p.state.Error?);
  }

  lemma ReadErrorDrains(c: Conn, header: Header)
    requires Inv(c) && Reading(c) && !Stuck(c)
    ensures Stuck(ReadError(c, header)) <==> ErrorWhileWaiting(c, StepReadError(header))
  {
    ReadErrorBack(c, header);
    if c.requests != [] && c.requests[0].finishOnReceive { WaitingFront(c); }
    var e := ReadError(c, header);
    ArrivedStuck(c, ErrorRoom(c, header), e, header, Back(e).id, true);
  }

  lemma ArrivedStuck(c: Conn, m: Conn, e: Conn, header: Header, id: nat, finished: bool)
    requires FrontOk(c) && Shape(c) && Reading(c) && !Stuck(c)
    requires RecordsOk(c)
    requires Continued(c, m, header) && BackFlags(m, e) && Arrived(e, id, finished)
    requires c.requests != [] && c.requests[0].finishOnReceive ==> |c.requests| == 1 && c.parsing.Some?
    ensures Stuck(e) <==> finished && e.phase.InError? && c.requests != [] && c.requests[0].finishOnReceive
  {
    if c.requests == [] {
      assert c.parsing.None?;
      assert e.requests[0].response.None?;
    } else {
      assert RequestOk(c.requests[0]);
      assert e.requests[0].response == c.requests[0].response;
      if |e.requests| == 1 { assert Back(e) == e.requests[0]; }
    }
  }

  /** The front keeps its answer and its progress. */
  ghost predicate SameFront(c: Conn, d: Conn) {
    && d.phase == c.phase
    && (c.requests == [] <==> d.requests == [])
    && (c.requests != [] ==>
          && d.requests[0].id == c.requests[0].id && d.requests[0].done == c.requests[0].done
          && d.requests[0].response.Some? == c.requests[0].response.Some?
          && (c.requests[0].response.Some? ==>
                d.requests[0].response.value.completed == c.requests[0].response.value.completed))
  }

  lemma ChunkDrains(c: Conn, id: nat, text: string)
    ensures SameFront(c, ChunkTo(c, id, text).0)
  {
    hide CompletedBefore, SameFront;
    var k := IndexOf(c.requests, id);
    if k < |c.requests| && c.requests[k].response.Some? && !c.requests[k].response.value.completed {
      FrontStaysSame(c, ChunkTo(c, id, text).0, k);
    } else {
      FrontIsSame(c);
    }
  }

  lemma FrontIsSame(c: Conn)
    ensures SameFront(c, c)
  {
  }

  lemma FrontStaysSame(c: Conn, d: Conn, k: nat)
    requires k < |c.requests| && |d.requests| == |c.requests| && d.requests == c.requests[k := d.requests[k]] && d.phase == c.phase
    requires c.requests[k].response.Some? && d.requests[k].response.Some?
    requires d.requests[k].id == c.requests[k].id && d.requests[k].done == c.requests[k].done
    requires d.requests[k].response.value.completed == c.requests[k].response.value.completed
    ensures SameFront(c, d)
  {
    if k > 0 { assert d.requests[0] == c.requests[0]; }
  }

  lemma QuietStepDrains(c: Conn, s: Step)
    requires s.StepContinue? || s.StepEnablePartial? || s.StepGracefulStop? || s.StepWritten? || s.StepShutdownDone?
    ensures SameFront(c, Next(c, s)) || Next(c, s).requests == []
  {
    match s
    case StepContinue(id) => SameFlags(c, ContinueTo(c, id).0);
    case StepEnablePartial(id) => PartialSame(c, id);
    case StepGracefulStop => if c.requests != [] { SameFlags(c, GracefulStop(c)); }
    case StepWritten(failed, drained) => if !failed { SameFlags(c, CheckIdle(c, drained)); }
    case StepShutdownDone => SameFlags(c, Next(c, s));
  }

  lemma SameFlags(c: Conn, d: Conn)
    requires d.requests == c.requests && d.phase == c.phase
    ensures SameFront(c, d)
  {
  }

  lemma PartialSame(c: Conn, id: nat)
    ensures SameFront(c, EnablePartial(c, id))
  {
  }

  lemma DownStepDrains(c: Conn, s: Step)
    requires s.StepIdle? || s.StepEof? || s.StepClose? || s.StepDrop? || s.StepUpgrade?
    ensures Next(c, s) == c || Next(c, s).requests == []
  {
  }

  /** The queue drains as far as it can in every step: a front that is received and answered stays
      only when an error arrived while it was waiting for its end. */
  lemma DrainsIff(c: Conn, s: Step)
    requires Inv(c) && Enabled(c, s) && !Stuck(c)
    ensures Stuck(Next(c, s)) <==> ErrorWhileWaiting(c, s)
  {
    hide Inv, Arrive, ReadError, Tail, ErrorTail, Answer, FinalTo, ChunkTo, ContinueTo, EnablePartial;
    match s
    case StepArrive(p) => ArriveDrains(c, p);
    case StepReadError(header) => ReadErrorDrains(c, header);
    case StepRespond(id, r, drained) => if Answers(c, s) { AnswerDrains(c, IndexOf(c.requests, id), r, drained); }
    case StepErrorTail(drained) => ErrorTailDrains(c, drained);
    case StepFinal(id, text, drained) => FinalDrains(c, id, text, drained);
    case StepTail(drained) => TailDrains(c, drained);
    case StepIdle => DownStepDrains(c, s);
    case StepEof => DownStepDrains(c, s);
    case StepClose => DownStepDrains(c, s);
    case StepDrop(_) => DownStepDrains(c, s);
    case StepUpgrade(_) => DownStepDrains(c, s);
    case StepChunk(id, text) => ChunkDrains(c, id, text);
    case _ => QuietStepDrains(c, s);
  }

  lemma ErrorTailDrains(c: Conn, drained: bool)
    requires Inv(c) && c.phase.InError? && !Stuck(c)
    ensures !Stuck(ErrorTail(c, drained))
  {
    var d := c.(phase := Quiet);
    PhaseKeeps(c, d);
    if Answers(c, StepErrorTail(drained)) { AnswerDrains(d, IndexOf(c.requests, c.phase.id), BadRequest, drained); }
  }

  ghost predicate Clean(c: Conn, steps: seq<Step>) {
    if steps == [] then true
    else
      && Clean(c, steps[..|steps| - 1])
      && !ErrorWhileWaiting(Run(c, steps[..|steps| - 1]), steps[|steps| - 1])
  }

  /** On every run without such an error no received request with a complete answer is left at the
      front, and a front with an answer has its head on the wire. */
  lemma {:induction false} RunDrains(maxKeepAlive: nat, steps: seq<Step>)
    requires Legal(NewConn(maxKeepAlive), steps) && Clean(NewConn(maxKeepAlive), steps)
    ensures var c := Run(NewConn(maxKeepAlive), steps);
      && !Stuck(c)
      && (c.requests != [] && c.requests[0].response.Some? ==> c.requests[0].written)
  {
    RunKeeps(maxKeepAlive, steps);
    if steps != [] {
      var before := steps[..|steps| - 1];
      RunDrains(maxKeepAlive, before);
      RunKeeps(maxKeepAlive, before);
      DrainsIff(Run(NewConn(maxKeepAlive), before), steps[|steps| - 1]);
    }
  }
}

/** The operations of a server connection keep the invariant, one by one and over whole runs. */
module Steps {
  import opened Options
  import opened Wire
  import opened Connection
  import opened Invariant
  import opened Pipelining

  // ---------------------------------------------------------------- the mutual recursion

  ghost predicate CanFinish(c: Conn) {
    && Core(c) && c.link.Up? && ReadOk(c) && CloseOk(c)
    && c.requests != [] && c.requests[0].written && Complete(c.requests[0].calls)
  }

  lemma {:induction false} WaitForEnd(c: Conn, drained: bool)
    requires CanFinish(c) && !c.requests[0].done
    ensures Inv(Finish(c, drained))
  {
    var d := Finish(c, drained);
    assert |c.requests| == 1;
    TracesKeep(c, d);
    assert d.requests == [c.requests[0].(finishOnReceive := true)];
  }

  lemma DepartRead(c: Conn)
    requires CanFinish(c) && c.requests[0].done
    ensures ReadOk(Depart(c, Answered))
  {
    var d := Depart(c, Answered);
    if d.requests != [] { assert Back(d) == Back(c); }
  }

  lemma FinishDeparts(c: Conn)
    requires CanFinish(c) && c.requests[0].done
    ensures Core(Depart(c, Answered)) && ReadOk(Depart(c, Answered))
  {
    DepartKeeps(c, Answered);
    DepartRead(c);
  }

  /** finish_request on a connection that is closing or stopping brings it down. */
  lemma {:induction false} FinishDown(c: Conn, drained: bool)
    requires CanFinish(c) && c.requests[0].done && (c.closing || c.stopping)
    ensures Inv(Finish(c, drained))
  {
    FinishDeparts(c);
    GoneDown(Depart(c, Answered), Finish(c, drained));
  }

  /** finish_request with nothing to answer next. */
  lemma {:induction false} FinishRests(c: Conn, drained: bool)
    requires CanFinish(c) && c.requests[0].done && !c.closing && !c.stopping
    requires |c.requests| > 1 ==> c.requests[1].response.None?
    ensures Inv(Finish(c, drained))
  {
    FinishDeparts(c);
    var d := Depart(c, Answered);
    var e := Finish(c, drained);
    assert d.requests != [] ==> d.requests[0] == c.requests[1];
    assert e == d.(timer := e.timer) && (e.timer ==> e.requests == []);
    TimerKeeps(d, e);
  }

  /** What is in no queue and on no wire does not matter to them. */
  lemma CoreFrame(c: Conn, d: Conn)
    requires Core(c) && d.requests == c.requests && d.departed == c.departed && d.wire == c.wire
    requires d.link == c.link && d.closing == c.closing && d.nextId == c.nextId && (d.timer ==> d.requests == [])
    ensures Core(d)
  {
    hide RequestOk, FateOk, Outs, Strip, Ids, Scan, After, Incomplete, Cut, Gone;
    assert History(d) == History(c) && Places(d) == Places(c);
  }

  /** The idle timer may run while the queue is empty. */
  lemma TimerKeeps(c: Conn, d: Conn)
    requires Core(c) && d == c.(timer := d.timer)
    requires d.timer ==> d.requests == []
    ensures Core(d)
  {
    hide RecordsOk, Shape, Order, IdsOk, UpOk, WireOk, ScanOk;
    CoreFrame(c, d);
  }

  lemma {:induction false} FinishKeeps(c: Conn, drained: bool)
    requires CanFinish(c)
    ensures Inv(Finish(c, drained))
    decreases |c.requests|, 0
  {
    if !c.requests[0].done {
      WaitForEnd(c, drained);
    } else if c.closing || c.stopping {
      FinishDown(c, drained);
    } else if |c.requests| > 1 && c.requests[1].response.Some? {
      FinishDeparts(c);
      FinishHandsOver(c);
      WriteNextKeeps(Depart(c, Answered), drained);
    } else {
      FinishRests(c, drained);
    }
  }

  lemma FinishHandsOver(c: Conn)
    requires CanFinish(c) && Core(Depart(c, Answered)) && !c.closing
    requires |c.requests| > 1 && c.requests[1].response.Some?
    ensures CanSend(Depart(c, Answered))
  {
    assert Depart(c, Answered).requests[0] == c.requests[1];
  }

  lemma {:induction false} WriteNextKeeps(c: Conn, drained: bool)
    requires CanSend(c) && ReadOk(c)
    ensures Inv(WriteNext(c, drained))
    decreases |c.requests|, 1
  {
    SendFrontKeeps(c);
    if c.requests[0].response.value.completed {
      FinishKeeps(SendFront(c), drained);
    }
  }

  // ---------------------------------------------------------------- respond

  lemma AnswerRecord(q: Request, r: Response, stopping: bool)
    requires RequestOk(q) && q.response.None?
    ensures var taken := Taken(r, stopping);
      RequestOk(q.(response := Some(taken), calls := q.calls + [Respond(taken)]))
  {
    var taken := Taken(r, stopping);
    SnocShape([], Respond(taken));
    assert [] + [Respond(taken)] == [Respond(taken)];
  }

  /** A request in the middle of the queue changes without being written. */
  lemma PlaceKeeps(c: Conn, d: Conn, k: nat, q: Request)
    requires Core(c) && k < |c.requests|
    requires d.requests == c.requests[k := q] && d.departed == c.departed && d.wire == c.wire
    requires d.link == c.link && d.nextId == c.nextId && d.closing == c.closing && d.timer == c.timer
    requires RequestOk(q) && SameTrace(c.requests[k], q)
    requires q.done == c.requests[k].done && q.header == c.requests[k].header
    requires q.finishOnReceive == c.requests[k].finishOnReceive
    ensures Core(d)
  {
    hide IdsOk, Order, UpOk, WireOk, ScanOk, RecordsOk, Shape, RequestOk;
    TracesKeep(c, d);
    PlaceRecords(c, d, k, q);
  }

  lemma PlaceRecords(c: Conn, d: Conn, k: nat, q: Request)
    requires RecordsOk(c) && Shape(c) && k < |c.requests| && RequestOk(q) && SameTrace(c.requests[k], q)
    requires d.requests == c.requests[k := q] && d.departed == c.departed
    requires q.done == c.requests[k].done && q.header == c.requests[k].header
    requires q.finishOnReceive == c.requests[k].finishOnReceive
    ensures RecordsOk(d) && Shape(d)
  {
    hide RequestOk, FateOk;
  }

  ghost predicate SameReading(c: Conn, d: Conn) {
    && d.parsing == c.parsing && d.phase == c.phase && d.readIgnored == c.readIgnored
    && d.link == c.link && d.closing == c.closing
    && |d.requests| == |c.requests|
    && forall i :: 0 <= i < |c.requests| ==>
         && d.requests[i].id == c.requests[i].id
         && d.requests[i].done == c.requests[i].done
         && d.requests[i].header == c.requests[i].header
         && d.requests[i].finishOnReceive == c.requests[i].finishOnReceive
  }

  lemma ReadingKeeps(c: Conn, d: Conn)
    requires ReadOk(c) && SameReading(c, d)
    ensures ReadOk(d)
  {
  }

  lemma TakeKeeps(c: Conn, k: nat, r: Response)
    requires Core(c) && ReadOk(c) && k < |c.requests| && c.requests[k].response.None?
    ensures Core(Take(c, k, r)) && ReadOk(Take(c, k, r))
  {
    var d := Take(c, k, r);
    AnswerRecord(c.requests[k], r, d.stopping);
    PlaceKeeps(c, d, k, d.requests[k]);
    ReadingKeeps(c, d);
  }

  lemma AnswerKeeps(c: Conn, k: nat, r: Response, drained: bool)
    requires Inv(c) && k < |c.requests| && c.requests[k].response.None?
    ensures Inv(Answer(c, k, r, drained))
  {
    hide RecordsOk, Shape, Order, IdsOk, UpOk, WireOk, ScanOk, ReadOk, WriteNext;
    TakeKeeps(c, k, r);
    var d := Take(c, k, r);
    if k == 0 {
      TakeCanSend(c, r);
      WriteNextKeeps(d, drained);
    } else {
      FrontStays(c, d);
    }
  }

  lemma TakeCanSend(c: Conn, r: Response)
    requires Inv(c) && c.requests != [] && c.requests[0].response.None? && Core(Take(c, 0, r))
    ensures CanSend(Take(c, 0, r))
  {
    hide Shape, Order, IdsOk, UpOk, WireOk, ScanOk, ReadOk, Accepted, Complete, Holds, AllQueued, FateOk;
    assert RequestOk(c.requests[0]);
  }

  lemma FrontStays(c: Conn, d: Conn)
    requires FrontOk(c) && CloseOk(c)
    requires c.requests != [] && d.requests != [] && d.requests[0] == c.requests[0]
    requires SameReading(c, d)
    ensures FrontOk(d) && CloseOk(d)
  {
  }

  // ---------------------------------------------------------------- chunks

  lemma WaitingChunkRecord(q: Request, text: string)
    requires RequestOk(q) && q.response.Some? && !q.written && !q.response.value.completed
    ensures var r := q.response.value;
      var kept := if text == "" then r else r.(parts := r.parts + [text]);
      RequestOk(q.(response := Some(kept), calls := q.calls + [SendChunk(text)]))
  {
    SnocShape(q.calls, SendChunk(text));
    AcceptedHead(q.calls);
  }

  lemma WaitingFinalRecord(q: Request, text: string)
    requires RequestOk(q) && q.response.Some? && !q.written && !q.response.value.completed
    ensures RequestOk(q.(response := Some(q.response.value.(completed := true)), calls := q.calls + [SendFinal(text, false)]))
  {
    SnocShape(q.calls, SendFinal(text, false));
    AcceptedHead(q.calls);
  }

  lemma WaitingKeeps(c: Conn, d: Conn, k: nat, q: Request)
    requires Inv(c) && 0 < k < |c.requests|
    requires d == c.(requests := c.requests[k := q])
    requires RequestOk(q) && SameTrace(c.requests[k], q)
    requires q.done == c.requests[k].done && q.header == c.requests[k].header
    requires q.finishOnReceive == c.requests[k].finishOnReceive
    ensures Inv(d)
  {
    PlaceKeeps(c, d, k, q);
    ReadingKeeps(c, d);
    assert d.requests[0] == c.requests[0];
  }

  /** The front after a further call on its response. */
  function Called(q: Request, call: Call): Request
    requires q.response.Some?
  {
    q.(response := Some(q.response.value.(completed := call.SendFinal?)), calls := q.calls + [call])
  }

  lemma CalledOut(q: Request, call: Call)
    requires RequestOk(q) && q.written && !q.response.value.completed
    requires call.SendChunk? || (call.SendFinal? && call.atFront)
    ensures var frames := SerialFrames(q.id, q.headKeepAlive, call);
      && Out(Called(q, call)) == Out(q) + frames
      && Strip(frames) == frames
      && Scan(After(q.id, q.calls), frames) == After(q.id, q.calls + [call])
    ensures RequestOk(Called(q, call))
  {
    SnocShape(q.calls, call);
    DeliveredSnoc(q.id, q.headKeepAlive, q.calls, call);
    ScanDeliveredFrames(q.id, q.headKeepAlive, q.calls, call);
    StripNone(SerialFrames(q.id, q.headKeepAlive, call));
    AcceptedHead(q.calls);
  }

  ghost predicate FrontCall(c: Conn, d: Conn, call: Call) {
    && c.requests != [] && c.requests[0].written && c.requests[0].response.Some? && !c.requests[0].response.value.completed
    && (call.SendChunk? || (call.SendFinal? && call.atFront))
    && d == c.(requests := d.requests, wire := d.wire)
    && d.requests == c.requests[0 := Called(c.requests[0], call)]
    && d.wire == c.wire + SerialFrames(c.requests[0].id, c.requests[0].headKeepAlive, call)
  }

  lemma FrontCallWire(c: Conn, d: Conn, call: Call)
    requires Core(c) && FrontCall(c, d, call)
    ensures IdsOk(d) && WireOk(d) && ScanOk(d)
  {
    var q := Called(c.requests[0], call);
    var frames := SerialFrames(c.requests[0].id, c.requests[0].headKeepAlive, call);
    FrontCallParts(c, d, call);
    CoreFront(c);
    hide FrontCall, FrontWrote, Core, RequestOk, IdsOk, WireOk, ScanOk, Scan, Strip, After, Out, SerialFrames, Called;
    FrontCallWrote(c, d, call);
    CalledOut(c.requests[0], call);
    FrontWroteIds(c, d, q, frames);
    FrontWroteWire(c, d, q, frames);
    FrontWroteScan(c, d, q, frames);
  }

  lemma CoreFront(c: Conn)
    requires Core(c) && c.requests != []
    ensures IdsOk(c) && WireOk(c) && ScanOk(c) && c.link.Up? && RequestOk(c.requests[0])
    ensures forall i :: 0 < i < |c.requests| ==> !c.requests[i].written
  {
    hide Order, IdsOk, UpOk, WireOk, ScanOk, RequestOk, FateOk;
  }

  lemma FrontCallWrote(c: Conn, d: Conn, call: Call)
    requires FrontCall(c, d, call)
    ensures var p := c.requests[0];
      FrontWrote(c, d, Called(p, call), SerialFrames(p.id, p.headKeepAlive, call))
  {
    hide SerialFrames;
  }

  lemma FrontCallParts(c: Conn, d: Conn, call: Call)
    requires FrontCall(c, d, call)
    ensures c.requests != []
    ensures var p := c.requests[0];
      p.written && p.response.Some? && !p.response.value.completed && Called(p, call).id == p.id
      && (call.SendChunk? || (call.SendFinal? && call.atFront)) && Called(p, call).calls == p.calls + [call]
  {
  }

  lemma FrontCallKeeps(c: Conn, d: Conn, call: Call)
    requires Core(c) && ReadOk(c) && FrontCall(c, d, call)
    ensures Core(d) && ReadOk(d)
  {
    FrontCallWire(c, d, call);
    OrderOfIds(c, d);
    FrontCallRecord(c, call);
    hide IdsOk, Order, WireOk, ScanOk, RequestOk, FateOk;
    FrontCallRecords(c, d, call);
    ReadingKeeps(c, d);
  }

  lemma FrontCallRecord(c: Conn, call: Call)
    requires RecordsOk(c) && c.requests != [] && c.requests[0].written
    requires c.requests[0].response.Some? && !c.requests[0].response.value.completed
    requires call.SendChunk? || (call.SendFinal? && call.atFront)
    ensures RequestOk(Called(c.requests[0], call))
  {
    assert RequestOk(c.requests[0]);
    hide RequestOk, Out, Strip, Scan, After;
    CalledOut(c.requests[0], call);
  }

  lemma FrontCallRecords(c: Conn, d: Conn, call: Call)
    requires RecordsOk(c) && Shape(c) && UpOk(c)
    requires c.requests != [] && c.requests[0].written && c.requests[0].response.Some?
    requires RequestOk(Called(c.requests[0], call))
    requires d == c.(requests := d.requests, wire := d.wire)
    requires d.requests == c.requests[0 := Called(c.requests[0], call)]
    ensures RecordsOk(d) && Shape(d) && UpOk(d)
  {
  }

  lemma FrontChunkKeeps(c: Conn, d: Conn, text: string)
    requires Inv(c) && FrontCall(c, d, SendChunk(text))
    ensures Inv(d)
  {
    FrontCallKeeps(c, d, SendChunk(text));
  }

  lemma {:induction false} FrontFinalKeeps(c: Conn, d: Conn, text: string, drained: bool)
    requires Inv(c) && FrontCall(c, d, SendFinal(text, true))
    ensures Inv(Finish(d, drained))
  {
    FrontCallKeeps(c, d, SendFinal(text, true));
    SnocShape(c.requests[0].calls, SendFinal(text, true));
    FinishKeeps(d, drained);
  }

  lemma ChunkKeeps(c: Conn, id: nat, text: string)
    requires Inv(c)
    ensures Inv(ChunkTo(c, id, text).0)
  {
    hide IdsOk, Order, UpOk, WireOk, ScanOk, ReadOk, RequestOk, FateOk, CloseOk;
    var k := IndexOf(c.requests, id);
    if k < |c.requests| && c.requests[k].response.Some? && !c.requests[k].response.value.completed {
      var d := ChunkTo(c, id, text).0;
      if k == 0 {
        assert c.wire + [] == c.wire;
        FrontChunkKeeps(c, d, text);
      } else {
        WaitingChunkRecord(c.requests[k], text);
        WaitingKeeps(c, d, k, d.requests[k]);
      }
    }
  }

  lemma FinalKeeps(c: Conn, id: nat, text: string, drained: bool)
    requires Inv(c)
    ensures Inv(FinalTo(c, id, text, drained).0)
  {
    hide IdsOk, Order, UpOk, WireOk, ScanOk, ReadOk, RequestOk, FateOk, CloseOk, Finish;
    var k := IndexOf(c.requests, id);
    if k < |c.requests| && c.requests[k].response.Some? && !c.requests[k].response.value.completed {
      if k == 0 {
        var ended := Called(c.requests[0], SendFinal(text, true));
        var d := Write(c.(requests := c.requests[0 := ended]), [Final(id, text)]);
        assert FinalTo(c, id, text, drained).0 == Finish(d, drained);
        FrontFinalKeeps(c, d, text, drained);
      } else {
        WaitingFinalRecord(c.requests[k], text);
        var d := FinalTo(c, id, text, drained).0;
        WaitingKeeps(c, d, k, d.requests[k]);
      }
    }
  }

  /** A 100 response goes out only while no response is in progress. */
  lemma ContinueKeeps(c: Conn, id: nat)
    requires Inv(c)
    ensures Inv(ContinueTo(c, id).0)
  {
    hide IdsOk, Order, UpOk, WireOk, ScanOk, FateOk, Holds, AllQueued, Accepted, Complete, Shape;
    var d := ContinueTo(c, id).0;
    if d != c {
      assert RequestOk(c.requests[0]);
      InterimKeeps(c, d, id);
      ReadingKeeps(c, d);
    }
  }

  lemma InterimKeeps(c: Conn, d: Conn, id: nat)
    requires Core(c) && d == c.(wire := c.wire + [Continue(id)]) && c.link.Up? && c.requests != [] && !c.requests[0].written
    ensures Core(d)
  {
    hide RecordsOk, Shape, Order, IdsOk, UpOk, WireOk, ScanOk;
    InterimRest(c, d);
    InterimWire(c, d, id);
  }

  lemma InterimRest(c: Conn, d: Conn)
    requires RecordsOk(c) && Shape(c) && Order(c) && IdsOk(c) && UpOk(c) && d == c.(wire := d.wire)
    ensures RecordsOk(d) && Shape(d) && Order(d) && IdsOk(d) && UpOk(d)
  {
    hide RequestOk, FateOk;
    assert Places(d) == Places(c);
  }

  lemma InterimWire(c: Conn, d: Conn, id: nat)
    requires WireOk(c) && ScanOk(c) && c.link.Up? && c.requests != [] && !c.requests[0].written
    requires d == c.(wire := c.wire + [Continue(id)])
    ensures WireOk(d) && ScanOk(d)
  {
    StripConcat(c.wire, [Continue(id)]);
    assert Strip([Continue(id)]) == [] by { assert [Continue(id)][..0] == []; }
    ScanConcat(Ready, c.wire, [Continue(id)]);
    ScanOne(Scan(Ready, c.wire), Continue(id));
    hide Scan, Strip, Outs;
  }

  lemma EnablePartialKeeps(c: Conn, id: nat)
    requires Inv(c)
    ensures Inv(EnablePartial(c, id))
  {
    var k := IndexOf(c.requests, id);
    if k < |c.requests| {
      var d := EnablePartial(c, id);
      PlaceKeeps(c, d, k, d.requests[k]);
      ReadingKeeps(c, d);
    }
  }

  // ---------------------------------------------------------------- reading

  ghost predicate Reading(c: Conn) {
    c.phase.Quiet? && c.link.Up? && !c.readIgnored
  }

  /** `d` is `c` with a new request at the end of the queue. */
  ghost predicate Admitted(c: Conn, d: Conn, header: Header) {
    && d.requests == c.requests + [NewRequest(c.nextId, header)]
    && d.nextId == c.nextId + 1
    && d.departed == c.departed && d.wire == c.wire && d.link == c.link && d.closing == c.closing
    && !d.timer
  }

  lemma AdmitIds(c: Conn, d: Conn, header: Header)
    requires Admitted(c, d, header) && IdsOk(c)
    ensures IdsOk(d)
  {
    IdsConcat(c.requests, [NewRequest(c.nextId, header)]);
    IdsOne(NewRequest(c.nextId, header));
    assert Places(d) == Places(c) + multiset{c.nextId};
    forall id: nat ensures Places(d)[id] == if id < d.nextId then 1 else 0 {
      assert Places(c)[id] == if id < c.nextId then 1 else 0;
    }
  }

  lemma AdmitOrder(c: Conn, d: Conn, header: Header)
    requires Admitted(c, d, header) && Order(c)
    ensures Order(d)
  {
  }

  lemma AdmitWire(c: Conn, d: Conn, header: Header)
    requires Admitted(c, d, header) && WireOk(c) && ScanOk(c) && UpOk(c) && c.link.Up?
    ensures WireOk(d) && ScanOk(d) && UpOk(d)
  {
    OutsConcat(c.requests, [NewRequest(c.nextId, header)]);
    OutsOne(NewRequest(c.nextId, header));
    assert FrontWritten(d) == FrontWritten(c);
  }

  lemma AdmitKeeps(c: Conn, d: Conn, header: Header)
    requires Inv(c) && Reading(c) && c.parsing.None? && Admitted(c, d, header)
    ensures Core(d) && !c.closing
  {
    hide IdsOk, Order, UpOk, WireOk, ScanOk, FateOk;
    AdmitIds(c, d, header);
    AdmitOrder(c, d, header);
    AdmitWire(c, d, header);
    assert forall i :: 0 <= i < |c.requests| ==> c.requests[i].header.keepAlive;
    assert Shape(d);
    assert RecordsOk(d);
  }

  /** The request at the end of the queue changes its reading flags. */
  ghost predicate BackFlags(c: Conn, d: Conn) {
    && c.requests != []
    && |d.requests| == |c.requests|
    && d.requests == c.requests[|c.requests| - 1 := Back(d)]
    && Back(d) == Back(c).(done := Back(d).done, routed := Back(d).routed)
    && d.departed == c.departed && d.wire == c.wire && d.link == c.link && d.nextId == c.nextId
    && d.closing == c.closing && !d.timer
  }

  lemma BackFlagsKeep(c: Conn, d: Conn)
    requires Core(c) && BackFlags(c, d)
    ensures Core(d)
  {
    TracesKeep(c, d);
    BackRecords(c, d);
    hide IdsOk, Order, UpOk, WireOk, ScanOk, RecordsOk, Shape;
  }

  lemma BackRecords(c: Conn, d: Conn)
    requires RecordsOk(c) && Shape(c) && BackFlags(c, d)
    ensures RecordsOk(d) && Shape(d)
  {
    assert RequestOk(Back(c));
    assert RequestOk(Back(d));
    hide RequestOk, FateOk;
  }

  /** A new request is in the queue of `m`, or `m` continues the one the parser is in. */
  ghost predicate Continued(c: Conn, m: Conn, header: Header) {
    if c.parsing.Some? then m == c.(timer := false) else Admitted(c, m, header)
  }

  lemma ContinuedKeeps(c: Conn, m: Conn, header: Header)
    requires Inv(c) && Reading(c) && Continued(c, m, header)
    ensures Core(m) && m.requests != [] && (c.parsing.None? ==> !c.closing)
  {
    if c.parsing.Some? { TimerKeeps(c, m); } else { AdmitKeeps(c, m, header); }
  }

  /** The queue after a part of request `id` has been read: `finished` tells whether it was the last part. */
  ghost predicate Arrived(e: Conn, id: nat, finished: bool) {
    && e.requests != []
    && Back(e).id == id && Back(e).done == finished
    && e.parsing == (if finished then None else Some(id))
    && (e.phase.InError? ==> e.readIgnored)
    && (e.phase.Quiet? ==> !finished)
    && (e.phase.InLoop? ==> e.phase == InLoop(id, Back(e).header.keepAlive, finished))
  }

  lemma ArrivedRead(e: Conn, id: nat, finished: bool)
    requires Arrived(e, id, finished) && Shape(e) && Order(e)
    ensures ReadOk(e)
  {
    assert forall i :: 0 <= i < |e.requests| - 1 ==> e.requests[i].done && e.requests[i].id < id;
  }

  lemma ArrivedFront(c: Conn, m: Conn, e: Conn, header: Header, id: nat, finished: bool)
    requires FrontOk(c) && Core(c) && Reading(c) && ReadOk(c) && (c.closing ==> c.parsing.Some? && |c.requests| == 1)
    requires c.closing ==> c.requests[0].written && !c.requests[0].headKeepAlive
    requires Continued(c, m, header) && BackFlags(m, e) && Arrived(e, id, finished)
    ensures FrontOk(e) && CloseOk(e)
  {
    hide IdsOk, UpOk, WireOk, ScanOk, RequestOk, FateOk;
    if |e.requests| > 1 {
      assert e.requests[0] == m.requests[0] == c.requests[0];
      assert c.requests[0].done;
      assert !c.requests[0].finishOnReceive;
    } else if c.parsing.Some? {
      assert |c.requests| == 1 && m.requests == c.requests;
    }
  }

  lemma ArriveKeeps(c: Conn, p: Parsed)
    requires Inv(c) && Reading(c)
    ensures Inv(Arrive(c, p))
  {
    var id := if c.parsing.Some? then c.parsing.value else c.nextId;
    var m := Admit(c.(timer := false, nextId := if c.parsing.Some? then c.nextId else c.nextId + 1), id, p.header);
    var e := Arrive(c, p);
    var finished := p.state.Done? || p.state.Error?;
    AdmitContinues(c, p.header);
    ContinuedKeeps(c, m, p.header);
    ArriveBack(c, p);
    BackFlagsKeep(m, e);
    ArrivedRead(e, id, finished);
    ArrivedFront(c, m, e, p.header, id, finished);
  }

  lemma AdmitContinues(c: Conn, header: Header)
    requires ReadOk(c) && Reading(c) && Order(c)
    ensures var id := if c.parsing.Some? then c.parsing.value else c.nextId;
      Continued(c, Admit(c.(timer := false, nextId := if c.parsing.Some? then c.nextId else c.nextId + 1), id, header), header)
  {
  }

  lemma ReceiveBack(c: Conn, p: Parsed)
    requires Reading(c) && ReadOk(c) && Order(c)
    ensures var id := if c.parsing.Some? then c.parsing.value else c.nextId;
      var m := Admit(c.(timer := false, nextId := if c.parsing.Some? then c.nextId else c.nextId + 1), id, p.header);
      var d := Receive(c, p);
      && BackFlags(m, d)
      && d.requests != [] && Back(d).id == id
      && Back(d).done == (p.state.Done? || p.state.Error?)
      && d.parsing == (if p.state.Done? || p.state.Error? then None else Some(id))
      && d.phase.Quiet?
  {
    var id := if c.parsing.Some? then c.parsing.value else c.nextId;
    var finished := p.state.Done? || p.state.Error?;
    var m := Admit(c.(timer := false, nextId := if c.parsing.Some? then c.nextId else c.nextId + 1), id, p.header);
    var e := m.(parsing := if finished then None else Some(id));
    AdmitEnds(c, id, p.header, e.parsing);
    SetBackFlags(m, e, finished);
    ReceiveIs(c, p, id, e);
    hide Order, ReadOk, Admit, BackFlags, SetBack, Back, Receive;
  }

  lemma ReceiveIs(c: Conn, p: Parsed, id: nat, e: Conn)
    requires id == if c.parsing.Some? then c.parsing.value else c.nextId
    requires e == Admit(c.(timer := false, nextId := if c.parsing.Some? then c.nextId else c.nextId + 1,
                           parsing := if p.state.Done? || p.state.Error? then None else Some(id)), id, p.header)
    requires e.requests != []
    ensures Receive(c, p) == SetBack(e, Back(e).(done := p.state.Done? || p.state.Error?))
  {
    hide Admit, SetBack, Back;
  }

  lemma SetBackFlags(m: Conn, e: Conn, finished: bool)
    requires m.requests != [] && !m.timer && e == m.(parsing := e.parsing)
    ensures var d := SetBack(e, Back(e).(done := finished));
      && d.requests != [] && BackFlags(m, d) && Back(d).id == Back(m).id && Back(d).done == finished
      && d.parsing == e.parsing && d.phase == m.phase
  {
  }

  /** After Admit the request that is being read is the last of the queue. */
  lemma AdmitEnds(c: Conn, id: nat, header: Header, p: Option<nat>)
    requires Reading(c) && ReadOk(c) && Order(c) && id == if c.parsing.Some? then c.parsing.value else c.nextId
    ensures var d := c.(timer := false, nextId := if c.parsing.Some? then c.nextId else c.nextId + 1);
      var m, e := Admit(d, id, header), Admit(d.(parsing := p), id, header);
      m.requests != [] && Back(m).id == id && !m.timer && m.phase == c.phase && e == m.(parsing := p)
  {
  }

  lemma ArriveBack(c: Conn, p: Parsed)
    requires Reading(c) && ReadOk(c) && Order(c)
    ensures var id := if c.parsing.Some? then c.parsing.value else c.nextId;
      var m := Admit(c.(timer := false, nextId := if c.parsing.Some? then c.nextId else c.nextId + 1), id, p.header);
      BackFlags(m, Arrive(c, p)) && Arrived(Arrive(c, p), id, p.state.Done? || p.state.Error?)
  {
    hide ReadOk, Order;
    ReceiveBack(c, p);
    var id := if c.parsing.Some? then c.parsing.value else c.nextId;
    var m := Admit(c.(timer := false, nextId := if c.parsing.Some? then c.nextId else c.nextId + 1), id, p.header);
    RoutedBack(m, Receive(c, p), Back(Receive(c, p)));
  }

  lemma RoutedBack(m: Conn, d: Conn, q: Request)
    requires BackFlags(m, d) && q == Back(d)
    ensures var e := SetBack(d, q.(routed := true)).(phase := InLoop(q.id, q.header.keepAlive, q.done));
      BackFlags(m, e) && Back(e) == q.(routed := true)
    ensures BackFlags(m, Fail(d, q.id))
  {
    var e := SetBack(d, q.(routed := true)).(phase := InLoop(q.id, q.header.keepAlive, q.done));
    assert e.requests == m.requests[|m.requests| - 1 := q.(routed := true)];
  }

  /** A read error makes a request of its own unless one is still being received. */
  function ErrorRoom(c: Conn, header: Header): Conn {
    if c.requests == [] || Back(c).done
    then c.(timer := false, requests := c.requests + [NewRequest(c.nextId, header)], nextId := c.nextId + 1)
    else c.(timer := false)
  }

  lemma ReadErrorBack(c: Conn, header: Header)
    requires Reading(c) && ReadOk(c)
    ensures var m, e := ErrorRoom(c, header), ReadError(c, header);
      Continued(c, m, header) && BackFlags(m, e) && Arrived(e, Back(e).id, true)
  {
  }

  lemma ReadErrorKeeps(c: Conn, header: Header)
    requires Inv(c) && Reading(c)
    ensures Inv(ReadError(c, header))
  {
    var m, e := ErrorRoom(c, header), ReadError(c, header);
    ReadErrorBack(c, header);
    ContinuedKeeps(c, m, header);
    BackFlagsKeep(m, e);
    ArrivedRead(e, Back(e).id, true);
    ArrivedFront(c, m, e, header, Back(e).id, true);
  }

  // ---------------------------------------------------------------- the end of the loop body

  lemma TailKeeps(c: Conn, drained: bool)
    requires Inv(c) && c.phase.InLoop?
    ensures Inv(Tail(c, drained))
  {
    var k := IndexOf(c.requests, c.phase.id);
    var d := c.(phase := Quiet);
    PhaseKeeps(c, d);
    if c.phase.done && k < |c.requests| && c.requests[k].finishOnReceive {
      assert k == 0 && |c.requests| == 1;
      TailFinishKeeps(c, drained);
    } else {
      TailRests(c, drained);
    }
  }

  /** Reading may stop and the phase may change without touching the queue. */
  lemma PhaseKeeps(c: Conn, d: Conn)
    requires Core(c) && d == c.(phase := d.phase, readIgnored := d.readIgnored)
    ensures Core(d)
  {
    hide RecordsOk, Shape, Order, IdsOk, UpOk, WireOk, ScanOk;
    CoreFrame(c, d);
  }

  /** The end of a request whose response is already complete. */
  lemma TailFinishKeeps(c: Conn, drained: bool)
    requires Inv(c) && c.phase.InLoop? && c.phase.done
    requires |c.requests| == 1 && c.requests[0].id == c.phase.id && c.requests[0].finishOnReceive
    ensures Inv(Tail(c, drained))
  {
    var d := c.(phase := Quiet);
    PhaseKeeps(c, d);
    DepartKeeps(d, Answered);
    var e := Depart(d, Answered);
    if c.closing || c.stopping {
      GoneDown(e, Tail(c, drained));
    } else {
      TimerKeeps(e, Tail(c, drained));
    }
  }

  /** The loop body ends without ending a request: reading stops if the connection is to be closed. */
  ghost predicate Rests(c: Conn, d: Conn) {
    && c.phase.InLoop?
    && d == c.(phase := Quiet, readIgnored := c.readIgnored || (c.phase.done && (c.closing || !c.phase.keepAlive)))
    && var k := IndexOf(c.requests, c.phase.id);
       !(c.phase.done && k < |c.requests| && c.requests[k].finishOnReceive)
  }

  lemma RestsFront(c: Conn, d: Conn)
    requires FrontOk(c) && ReadOk(c) && Rests(c, d) && (!c.link.Up? ==> c.requests == [])
    ensures FrontOk(d)
  {
  }

  lemma RestsClose(c: Conn, d: Conn)
    requires CloseOk(c) && ReadOk(c) && Rests(c, d)
    ensures CloseOk(d)
  {
  }

  lemma RestsRead(c: Conn, d: Conn)
    requires ReadOk(c) && Order(c) && Rests(c, d)
    ensures ReadOk(d)
  {
    if c.link.Up? && c.requests != [] && !c.closing {
      var k := IndexOf(c.requests, c.phase.id);
      assert Back(c).id == c.phase.id;
      assert k < |c.requests|;
      assert forall i :: 0 <= i < |c.requests| - 1 ==> c.requests[i].id < Back(c).id;
    }
  }

  lemma TailRests(c: Conn, drained: bool)
    requires Inv(c) && c.phase.InLoop? && Rests(c, Tail(c, drained))
    ensures Inv(Tail(c, drained))
  {
    hide RecordsOk, Shape, IdsOk, UpOk, WireOk, ScanOk, FrontOk, CloseOk, ReadOk, Order, Finish;
    var d := Tail(c, drained);
    PhaseKeeps(c, d);
    RestsFront(c, d);
    RestsClose(c, d);
    RestsRead(c, d);
  }

  lemma ErrorTailKeeps(c: Conn, drained: bool)
    requires Inv(c) && c.phase.InError?
    ensures Inv(ErrorTail(c, drained))
  {
    var k := IndexOf(c.requests, c.phase.id);
    var d := c.(phase := Quiet);
    PhaseKeeps(c, d);
    if k < |c.requests| {
      if c.requests[k].response.None? {
        AnswerKeeps(d, k, BadRequest, drained);
      } else {
        MarkKeeps(d, ErrorTail(c, drained), k);
      }
    }
  }

  lemma MarkKeeps(c: Conn, d: Conn, k: nat)
    requires Inv(c) && k < |c.requests| && c.requests[k].response.Some?
    requires d == c.(requests := c.requests[k := c.requests[k].(response := Some(c.requests[k].response.value.(keepAlive := false)))])
    ensures Inv(d)
  {
    hide IdsOk, Order, UpOk, WireOk, ScanOk;
    assert RequestOk(d.requests[k]);
    PlaceKeeps(c, d, k, d.requests[k]);
    ReadingKeeps(c, d);
  }

  // ---------------------------------------------------------------- going down

  lemma UpgradeKeeps(c: Conn, id: nat)
    requires Inv(c) && c.phase.Quiet?
    ensures Inv(UpgradeRequest(c, id).0)
  {
    var d := UpgradeRequest(c, id).0;
    if d != c { UpgradedKeeps(c, d); }
  }

  lemma UpgradedKeeps(c: Conn, d: Conn)
    requires Inv(c) && c.phase.Quiet? && |c.requests| == 1 && !c.requests[0].header.upgrade.NoUpgrade?
    requires d == Depart(c, Upgraded).(link := Detached, timer := false, removed := true)
    ensures Inv(d)
  {
    var ds := [Departure(c.requests[0], Upgraded)];
    DepartLeft(c, Upgraded);
    assert Left(c, d, ds);
    LeftIds(c, d, ds);
    LeftWire(c, d, ds);
    UpgradedOrder(c, d);
    UpgradedScan(c, d);
    UpgradedRecords(c, d);
  }

  lemma UpgradedScan(c: Conn, d: Conn)
    requires RecordsOk(c) && UpOk(c) && ScanOk(c) && c.link.Up? && |c.requests| == 1
    requires d.requests == [] && d.departed == c.departed + [Departure(c.requests[0], Upgraded)]
    requires d.wire == c.wire && !d.link.Up?
    ensures ScanOk(d)
  {
    assert Gone(d.departed) == Gone(c.departed) + [c.requests[0]];
    assert c.requests == [c.requests[0]];
    assert History(d) == History(c);
    DownScan(c, d);
  }

  lemma UpgradedRecords(c: Conn, d: Conn)
    requires RecordsOk(c) && |c.requests| == 1 && !c.requests[0].header.upgrade.NoUpgrade?
    requires d.requests == [] && d.departed == c.departed + [Departure(c.requests[0], Upgraded)]
    ensures RecordsOk(d)
  {
  }

  lemma UpgradedOrder(c: Conn, d: Conn)
    requires Order(c) && |c.requests| == 1 && d.requests == [] && d.nextId == c.nextId
    requires d.departed == c.departed + [Departure(c.requests[0], Upgraded)]
    ensures Order(d)
  {
  }

  lemma CloseKeeps(c: Conn)
    requires Inv(c) && c.phase.Quiet?
    ensures Inv(Close(c))
  {
    GoneDown(c, Close(c));
  }

  lemma ShutdownKeeps(c: Conn)
    requires Inv(c) && c.phase.Quiet?
    ensures Inv(Shutdown(c))
  {
    GoneDown(c, Shutdown(c));
  }

  /** Flags that the queue does not depend on. */
  lemma IdleKeeps(c: Conn, d: Conn)
    requires Inv(c) && d == c.(stopping := d.stopping, timer := d.timer) && (d.timer ==> d.requests == [])
    ensures Inv(d)
  {
    TimerKeeps(c.(stopping := d.stopping), d) by { StoppingKeeps(c, c.(stopping := d.stopping)); }
    ReadingKeeps(c, d);
  }

  lemma StoppingKeeps(c: Conn, d: Conn)
    requires Core(c) && d == c.(stopping := d.stopping)
    ensures Core(d)
  {
    hide RecordsOk, Shape, Order, IdsOk, UpOk, WireOk, ScanOk;
    CoreFrame(c, d);
  }
}

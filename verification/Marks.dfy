/** Responses that are given on a stopping connection are marked close, and so are their heads. */
module Marks {
  import opened Wire
  import opened Connection
  import opened Invariant
  import opened Steps
  import opened Serving
  import opened Lifetime
  import opened Recursion

  // ---------------------------------------------------------------- the first call on a response

  /** Every record of `d` was in `c` with the same calls. */
  ghost predicate SameCalls(c: Conn, d: Conn) {
    forall q :: q in History(d) ==> exists p :: p in History(c) && p.id == q.id && p.calls == q.calls
  }

  lemma SameCallsTwice(c: Conn, d: Conn, e: Conn)
    requires SameCalls(c, d) && SameCalls(d, e)
    ensures SameCalls(c, e)
  {
    hide History;
    forall q | q in History(e) ensures exists p :: p in History(c) && p.id == q.id && p.calls == q.calls {
      var r :| r in History(d) && r.id == q.id && r.calls == q.calls;
    }
  }

  /** Records keep their place or move from the queue to the departed. */
  ghost predicate Moved(c: Conn, d: Conn) {
    && (forall i :: 0 <= i < |d.departed| ==>
          || (i < |c.departed| && d.departed[i] == c.departed[i])
          || d.departed[i].request in c.requests)
    && (forall q :: q in d.requests ==> exists p :: p in c.requests && p.id == q.id && p.calls == q.calls)
  }

  lemma MovedSameCalls(c: Conn, d: Conn)
    requires Moved(c, d)
    ensures SameCalls(c, d)
  {
    forall q | q in History(d) ensures exists p :: p in History(c) && p.id == q.id && p.calls == q.calls {
      if q in d.requests {
        var p :| p in c.requests && p.id == q.id && p.calls == q.calls;
        assert p in History(c);
      } else {
        var i :| 0 <= i < |d.departed| && d.departed[i].request == q;
        if i < |c.departed| && d.departed[i] == c.departed[i] { assert Gone(c.departed)[i] == q; }
        assert q in History(c);
      }
    }
  }

  lemma DepartMoves(c: Conn, fate: Fate)
    requires c.requests != []
    ensures Moved(c, Depart(c, fate))
  {
    forall q | q in c.requests[1..] ensures q in c.requests {}
  }

  lemma DropAllMoves(c: Conn)
    ensures Moved(c, DropAll(c))
  {
  }

  lemma SendFrontMoves(c: Conn)
    requires c.requests != [] && c.requests[0].response.Some?
    ensures Moved(c, SendFront(c)) && 0 < |SendFront(c).requests| <= |c.requests|
  {
    hide ToVector, Chunks, FateOfDrop;
    var d := SendFront(c);
    var m := Marked(c.requests[0]);
    assert m.id == c.requests[0].id && m.calls == c.requests[0].calls;
    hide Marked;
    assert SendHead(c).requests == [m] + c.requests[1..] && SendHead(c).departed == c.departed;
    assert d.requests == [m] + c.requests[1..] || d.requests == [m];
    assert d.departed == c.departed || d.departed == c.departed + Drops(c.requests[1..]);
    forall i | 0 <= i < |d.departed|
      ensures (i < |c.departed| && d.departed[i] == c.departed[i]) || d.departed[i].request in c.requests
    {
      if i >= |c.departed| { assert d.departed[i].request == c.requests[1..][i - |c.departed|]; }
    }
  }

  lemma {:induction false} FinishSameCalls(c: Conn, drained: bool)
    requires c.requests != []
    ensures SameCalls(c, Finish(c, drained))
    decreases |c.requests|, 0
  {
    hide SameCalls, SendFront;
    var d := Finish(c, drained);
    if !c.requests[0].done {
      MovedSameCalls(c, d);
    } else {
      DepartMoves(c, Answered);
      var e := Depart(c, Answered);
      MovedSameCalls(c, e);
      if c.closing || c.stopping {
        DropAllMoves(e.(link := d.link));
        MovedSameCalls(e, d);
      } else if e.requests != [] && e.requests[0].response.Some? {
        WriteNextSameCalls(e, drained);
      } else {
        MovedSameCalls(e, d);
      }
      SameCallsTwice(c, e, d);
    }
  }

  lemma {:induction false} WriteNextSameCalls(c: Conn, drained: bool)
    requires c.requests != [] && c.requests[0].response.Some?
    ensures SameCalls(c, WriteNext(c, drained))
    decreases |c.requests|, 1
  {
    SendFrontMoves(c);
    MovedSameCalls(c, SendFront(c));
    hide SendFront, SameCalls, Moved;
    if c.requests[0].response.value.completed {
      FinishSameCalls(SendFront(c), drained);
      SameCallsTwice(c, SendFront(c), WriteNext(c, drained));
    }
  }

  // ---------------------------------------------------------------- one step

  ghost predicate AnsweredIn(c: Conn, id: nat) {
    exists p :: p in History(c) && p.id == id && p.calls != []
  }

  predicate MarkedClose(q: Request) {
    q.calls != [] && q.calls[0].Respond? && !q.calls[0].response.keepAlive
  }

  /** Every answer is one from before, or marked close. */
  ghost predicate NewOnesClose(c: Conn, d: Conn) {
    forall q :: q in History(d) && q.calls != [] ==>
      MarkedClose(q) || exists p :: p in History(c) && p.id == q.id && p.calls != [] && p.calls[0] == q.calls[0]
  }

  lemma SameCallsClose(c: Conn, d: Conn, e: Conn)
    requires NewOnesClose(c, d) && SameCalls(d, e)
    ensures NewOnesClose(c, e)
  {
    hide History;
    forall q | q in History(e) && q.calls != []
      ensures MarkedClose(q) || exists p :: p in History(c) && p.id == q.id && p.calls != [] && p.calls[0] == q.calls[0]
    {
      var r :| r in History(d) && r.id == q.id && r.calls == q.calls;
    }
  }

  lemma NoneNew(c: Conn)
    ensures NewOnesClose(c, c) && SameCalls(c, c)
  {
    hide History;
  }

  /** One record of the queue gets a further call, or a first one that is marked close. */
  lemma PlaceClose(c: Conn, d: Conn, k: nat)
    requires k < |c.requests| && k < |d.requests| && d.requests == c.requests[k := d.requests[k]] && d.departed == c.departed
    requires d.requests[k].id == c.requests[k].id
    requires c.requests[k].calls != [] ==> d.requests[k].calls != [] && d.requests[k].calls[0] == c.requests[k].calls[0]
    requires c.requests[k].calls == [] ==> d.requests[k].calls == [] || MarkedClose(d.requests[k])
    ensures NewOnesClose(c, d)
  {
    forall q | q in History(d) && q.calls != []
      ensures MarkedClose(q) || exists p :: p in History(c) && p.id == q.id && p.calls != [] && p.calls[0] == q.calls[0]
    {
      if q == d.requests[k] && c.requests[k].calls != [] {
        assert c.requests[k] in History(c);
      } else if q != d.requests[k] {
        assert q in History(c);
      }
    }
  }

  lemma TakeClose(c: Conn, k: nat, r: Response)
    requires Inv(c) && c.stopping && k < |c.requests| && c.requests[k].response.None?
    ensures NewOnesClose(c, Take(c, k, r))
  {
    hide Shape, Order, IdsOk, UpOk, WireOk, ScanOk, FrontOk, CloseOk, ReadOk, NewOnesClose, Accepted, Complete;
    assert RequestOk(c.requests[k]);
    var d := Take(c, k, r);
    assert d.requests[k].calls == [Respond(Taken(r, d.stopping))];
    PlaceClose(c, d, k);
  }

  lemma EndedClose(c: Conn, s: Step)
    requires Inv(c) && EndsFront(c, s)
    ensures NewOnesClose(c, Ended(c, s.text))
  {
    hide Shape, Order, IdsOk, UpOk, WireOk, ScanOk, FrontOk, CloseOk, ReadOk, NewOnesClose, Accepted, Complete;
    assert RequestOk(c.requests[0]);
    PlaceClose(c, Ended(c, s.text), 0);
  }

  lemma CallClose(c: Conn, s: Step)
    requires Inv(c) && c.stopping && Answering(s)
    ensures NewOnesClose(c, Next(c, s))
  {
    NoneNew(c);
    if EndsFront(c, s) {
      EndedIs(c, s);
      EndedClose(c, s);
      hide Inv, NewOnesClose, Ended, Next, Finish;
      FinishSameCalls(Ended(c, s.text), s.drained);
      SameCallsClose(c, Ended(c, s.text), Next(c, s));
    } else if AnswersFront(c, s) {
      GivenIs(c, s);
      TakeClose(c, 0, s.response);
      hide Inv, NewOnesClose, Take, Next, WriteNext;
      WriteNextSameCalls(Given(c, s), s.drained);
      SameCallsClose(c, Given(c, s), Next(c, s));
    } else {
      OtherCallClose(c, s);
    }
  }

  lemma OtherCallClose(c: Conn, s: Step)
    requires Inv(c) && c.stopping && Answering(s) && !EndsFront(c, s) && !AnswersFront(c, s)
    ensures NewOnesClose(c, Next(c, s))
  {
    NoneNew(c);
    hide Inv, NewOnesClose, Finish, WriteNext, CompletedBefore, RespondTo, ChunkTo, FinalTo, History;
    match s
    case StepRespond(id, r, drained) => RespondClose(c, id, r, drained);
    case StepChunk(id, text) =>
      InvRecords(c);
      ChunkClose(c, id, text);
    case StepFinal(id, text, drained) =>
      InvRecords(c);
      FinalClose(c, id, text, drained);
    case StepContinue(id) => SameRecordsClose(c, Next(c, s));
    case StepEnablePartial(id) => PartialClose(c, id);
  }

  lemma RespondClose(c: Conn, id: nat, r: Response, drained: bool)
    requires Inv(c) && c.stopping && !AnswersFront(c, StepRespond(id, r, drained))
    ensures NewOnesClose(c, RespondTo(c, id, r, drained).0)
  {
    NoneNew(c);
    hide Inv, NewOnesClose, WriteNext, Take, History;
    var k := IndexOf(c.requests, id);
    if k < |c.requests| && c.requests[k].response.None? { TakeClose(c, k, r); }
  }

  lemma SameRecordsClose(c: Conn, d: Conn)
    requires d.requests == c.requests && d.departed == c.departed
    ensures NewOnesClose(c, d)
  {
    NoneNew(c);
    assert History(d) == History(c);
    hide History;
  }

  lemma InvRecords(c: Conn)
    requires Inv(c)
    ensures RecordsOk(c)
  {
  }

  lemma HasCalls(c: Conn, k: nat)
    requires RecordsOk(c) && k < |c.requests| && c.requests[k].response.Some?
    ensures c.requests[k].calls != []
  {
    assert RequestOk(c.requests[k]);
  }

  /** A further call on the response at place `k`. */
  lemma MoreClose(c: Conn, d: Conn, k: nat, call: Call)
    requires RecordsOk(c) && k < |c.requests| && c.requests[k].response.Some?
    requires k < |d.requests| && d.requests == c.requests[k := d.requests[k]] && d.departed == c.departed
    requires d.requests[k].id == c.requests[k].id && d.requests[k].calls == c.requests[k].calls + [call]
    ensures NewOnesClose(c, d)
  {
    HasCalls(c, k);
    hide RecordsOk, NewOnesClose;
    PlaceClose(c, d, k);
  }

  lemma ChunkClose(c: Conn, id: nat, text: string)
    requires RecordsOk(c)
    ensures NewOnesClose(c, ChunkTo(c, id, text).0)
  {
    NoneNew(c);
    var k := IndexOf(c.requests, id);
    hide RecordsOk, NewOnesClose, CompletedBefore, History;
    if k < |c.requests| && c.requests[k].response.Some? && !c.requests[k].response.value.completed {
      MoreClose(c, ChunkTo(c, id, text).0, k, SendChunk(text));
    }
  }

  lemma FinalClose(c: Conn, id: nat, text: string, drained: bool)
    requires RecordsOk(c) && !EndsFront(c, StepFinal(id, text, drained))
    ensures NewOnesClose(c, FinalTo(c, id, text, drained).0)
  {
    NoneNew(c);
    var k := IndexOf(c.requests, id);
    hide RecordsOk, NewOnesClose, CompletedBefore, History, Finish;
    if k < |c.requests| && c.requests[k].response.Some? && !c.requests[k].response.value.completed {
      MoreClose(c, FinalTo(c, id, text, drained).0, k, SendFinal(text, false));
    }
  }

  lemma PartialClose(c: Conn, id: nat)
    ensures NewOnesClose(c, EnablePartial(c, id))
  {
    NoneNew(c);
    var k := IndexOf(c.requests, id);
    hide NewOnesClose;
    if k < |c.requests| { PlaceClose(c, EnablePartial(c, id), k); }
  }

  /** A request that arrives has no calls; everything else stays as it is. */
  ghost predicate OneMore(c: Conn, d: Conn) {
    && d.departed == c.departed
    && forall q :: q in d.requests && q.calls != [] ==> exists p :: p in c.requests && p.id == q.id && p.calls == q.calls
  }

  lemma OneMoreClose(c: Conn, d: Conn)
    requires OneMore(c, d)
    ensures NewOnesClose(c, d)
  {
    forall q | q in History(d) && q.calls != []
      ensures MarkedClose(q) || exists p :: p in History(c) && p.id == q.id && p.calls != [] && p.calls[0] == q.calls[0]
    {
      if q in d.requests {
        var p :| p in c.requests && p.id == q.id && p.calls == q.calls;
        assert p in History(c);
      } else {
        assert q in History(c);
      }
    }
  }

  lemma ReceiveOneMore(c: Conn, p: Parsed)
    ensures OneMore(c, Receive(c, p)) && Receive(c, p).requests != []
  {
  }

  lemma BackOneMore(c: Conn, d: Conn, q: Request)
    requires OneMore(c, d) && d.requests != [] && q.id == Back(d).id && q.calls == Back(d).calls
    ensures OneMore(c, SetBack(d, q))
  {
    assert Back(d) in d.requests;
  }

  lemma ArriveOneMore(c: Conn, p: Parsed)
    ensures OneMore(c, Arrive(c, p))
  {
    ReceiveOneMore(c, p);
    var d := Receive(c, p);
    BackOneMore(c, d, Back(d).(routed := true));
    hide Receive, SetBack, Back;
  }

  lemma ReadErrorOneMore(c: Conn, header: Header)
    ensures OneMore(c, ReadError(c, header))
  {
    var m := ErrorRoom(c, header);
    assert OneMore(c, m) && m.requests != [];
    BackOneMore(c, m, Back(m).(done := true));
    assert ReadError(c, header).requests == SetBack(m, Back(m).(done := true)).requests;
    assert ReadError(c, header).departed == c.departed;
    hide ReadError, SetBack, Back, ErrorRoom;
  }

  lemma TailClose(c: Conn, drained: bool)
    requires c.phase.InLoop?
    ensures NewOnesClose(c, Tail(c, drained))
  {
    NoneNew(c);
    hide Finish, NewOnesClose, SameCalls;
    var d := c.(phase := Quiet);
    SameRecordsClose(c, d);
    var k := IndexOf(c.requests, c.phase.id);
    if c.phase.done && k < |c.requests| && c.requests[k].finishOnReceive {
      FinishSameCalls(d, drained);
      SameCallsClose(c, d, Finish(d, drained));
    } else {
      SameRecordsClose(c, Tail(c, drained));
    }
  }

  lemma ErrorTailClose(c: Conn, drained: bool)
    requires Inv(c) && c.stopping && c.phase.InError?
    ensures NewOnesClose(c, ErrorTail(c, drained))
  {
    var d := c.(phase := Quiet);
    PhaseKeeps(c, d);
    assert Inv(d);
    SameRecordsClose(c, d);
    assert History(d) == History(c);
    hide Inv, WriteNext, NewOnesClose, SameCalls, Take, History;
    var k := IndexOf(c.requests, c.phase.id);
    if k == |c.requests| {
    } else if c.requests[k].response.None? {
      TakeClose(d, k, BadRequest);
      var t := Take(d, k, BadRequest);
      CloseAlike(c, d, t);
      TakeShape(d, k, BadRequest);
      if k == 0 {
        WriteNextSameCalls(t, drained);
        SameCallsClose(c, t, WriteNext(t, drained));
      }
    } else {
      PlaceClose(c, ErrorTail(c, drained), k);
    }
  }

  lemma TakeShape(c: Conn, k: nat, r: Response)
    requires k < |c.requests|
    ensures var t := Take(c, k, r); |t.requests| == |c.requests| && t.requests[k].response.Some?
  {
  }

  lemma CloseAlike(c: Conn, d: Conn, e: Conn)
    requires History(d) == History(c) && NewOnesClose(d, e)
    ensures NewOnesClose(c, e)
  {
    hide History;
  }

  lemma OtherStepClose(c: Conn, s: Step)
    requires !Answering(s) && !ReadingStep(s)
    ensures NewOnesClose(c, Next(c, s))
  {
    NoneNew(c);
    DownMoves(c);
    hide NewOnesClose, SameCalls, DropAll, Moved, History, Shutdown, Close, Depart;
    match s
    case StepUpgrade(id) => UpgradeMoves(c, id);
    case StepIdle => DownMoves(c.(timer := false));
      MovedClose(c, Next(c, s));
    case StepWritten(failed, drained) => if failed { MovedClose(c, Close(c)); } else { SameRecordsClose(c, CheckIdle(c, drained)); }
    case StepShutdownDone => SameRecordsClose(c, Next(c, s));
    case StepGracefulStop => if c.requests == [] { MovedClose(c, Shutdown(c)); } else { SameRecordsClose(c, GracefulStop(c)); }
    case StepEof => MovedClose(c, Shutdown(c));
    case StepClose => MovedClose(c, Close(c));
    case StepDrop(id) => if Next(c, s) != c { MovedClose(c, Close(c)); }
  }

  lemma DownMoves(c: Conn)
    ensures Moved(c, Shutdown(c)) && Moved(c, Close(c)) && Close(c.(timer := false)) == Close(c)
  {
  }

  lemma MovedClose(c: Conn, d: Conn)
    requires Moved(c, d)
    ensures NewOnesClose(c, d)
  {
    MovedSameCalls(c, d);
    NoneNew(c);
    hide Moved;
    SameCallsClose(c, c, d);
  }

  lemma UpgradeMoves(c: Conn, id: nat)
    ensures NewOnesClose(c, UpgradeRequest(c, id).0)
  {
    NoneNew(c);
    var d := UpgradeRequest(c, id).0;
    if d != c {
      DepartMoves(c, Upgraded);
      assert Moved(c, d);
      MovedClose(c, d);
    }
  }

  /** On a stopping connection every step gives only answers that are marked close. */
  lemma StepCloses(c: Conn, s: Step)
    requires Inv(c) && Enabled(c, s) && c.stopping
    ensures NewOnesClose(c, Next(c, s))
  {
    hide Inv, NewOnesClose, Arrive, ReadError, Tail, ErrorTail, OneMore;
    if Answering(s) {
      CallClose(c, s);
    } else {
      match s
      case StepArrive(p) =>
        ArriveOneMore(c, p);
        OneMoreClose(c, Arrive(c, p));
      case StepReadError(header) =>
        ReadErrorOneMore(c, header);
        OneMoreClose(c, ReadError(c, header));
      case StepTail(drained) => TailClose(c, drained);
      case StepErrorTail(drained) => ErrorTailClose(c, drained);
      case _ => OtherStepClose(c, s);
    }
  }

  // ---------------------------------------------------------------- over runs

  /** Every answer that was not there in `c` is marked close. */
  ghost predicate LaterOnesClose(c: Conn, d: Conn) {
    forall q :: q in History(d) && q.calls != [] && !AnsweredIn(c, q.id) ==> MarkedClose(q)
  }

  lemma LaterAndLater(c: Conn, d: Conn, e: Conn)
    requires LaterOnesClose(c, d) && NewOnesClose(d, e)
    ensures LaterOnesClose(c, e)
  {
    hide History;
  }

  lemma {:induction false} LaterClose(maxKeepAlive: nat, steps: seq<Step>, k: nat)
    requires Legal(NewConn(maxKeepAlive), steps) && k <= |steps| && Run(NewConn(maxKeepAlive), steps[..k]).stopping
    ensures LaterOnesClose(Run(NewConn(maxKeepAlive), steps[..k]), Run(NewConn(maxKeepAlive), steps))
  {
    var init := NewConn(maxKeepAlive);
    var c := Run(init, steps[..k]);
    if k == |steps| {
      assert steps[..k] == steps;
      hide Run, Legal, History;
      assert LaterOnesClose(c, c);
    } else {
      var before := steps[..|steps| - 1];
      assert before[..k] == steps[..k];
      LaterClose(maxKeepAlive, before, k);
      RunKeeps(maxKeepAlive, before);
      RunGrows(init, before, k);
      hide Inv, Next, Enabled, LaterOnesClose, NewOnesClose;
      StepCloses(Run(init, before), steps[|steps| - 1]);
      LaterAndLater(c, Run(init, before), Run(init, steps));
    }
  }

  lemma HonestHead(c: Conn, q: Request)
    requires Inv(c) && q in History(c) && MarkedClose(q) && q.written
    ensures !q.headKeepAlive
  {
    hide Shape, Order, IdsOk, UpOk, WireOk, ScanOk, FrontOk, CloseOk, ReadOk, FateOk, Accepted, Complete;
    assert RequestOk(q) by {
      if q in c.requests {
      } else {
        var i :| 0 <= i < |c.departed| && c.departed[i].request == q;
      }
    }
  }

  /** Over every continuation of every run: once a connection is stopping, whatever it had not answered by
      then is answered with a response marked close, and with a head that says so. */
  lemma {:induction false} StoppingMarksClose(maxKeepAlive: nat, steps: seq<Step>, k: nat)
    requires Legal(NewConn(maxKeepAlive), steps) && k <= |steps| && Run(NewConn(maxKeepAlive), steps[..k]).stopping
    ensures var c, d := Run(NewConn(maxKeepAlive), steps[..k]), Run(NewConn(maxKeepAlive), steps);
      forall q :: q in History(d) && q.calls != [] && !AnsweredIn(c, q.id) ==>
        q.calls[0].Respond? && !q.calls[0].response.keepAlive && (q.written ==> !q.headKeepAlive)
  {
    var c, d := Run(NewConn(maxKeepAlive), steps[..k]), Run(NewConn(maxKeepAlive), steps);
    LaterClose(maxKeepAlive, steps, k);
    RunKeeps(maxKeepAlive, steps);
    hide Inv, Run, Legal, History, AnsweredIn;
    forall q | q in History(d) && q.calls != [] && !AnsweredIn(c, q.id)
      ensures q.calls[0].Respond? && !q.calls[0].response.keepAlive && (q.written ==> !q.headKeepAlive)
    {
      assert MarkedClose(q);
      if q.written { HonestHead(d, q); }
    }
  }
}

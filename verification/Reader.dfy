/** What on_read and request_error find after callbacks: which request is the newest, whether it is still
    there to be answered, and whether the loop goes on reading. */
module Reader {
  import opened Options
  import opened Wire
  import opened Connection
  import opened Invariant
  import opened Steps
  import opened Serving
  import opened Lifetime
  import opened Recursion

  // ---------------------------------------------------------------- requests that stay

  /** Queued requests were queued before, in the same state of reading; an answer begins to wait only
      while its request is being received. */
  ghost predicate Stays(qs: seq<Request>, rs: seq<Request>) {
    forall r :: r in rs ==> exists q :: q in qs && StaysAs(q, r)
  }

  ghost predicate StaysAs(q: Request, r: Request) {
    r.id == q.id && r.done == q.done && (r.finishOnReceive ==> q.finishOnReceive || !q.done)
  }

  lemma StaysTwice(qs: seq<Request>, rs: seq<Request>, ts: seq<Request>)
    requires Stays(qs, rs) && Stays(rs, ts)
    ensures Stays(qs, ts)
  {
    forall t | t in ts ensures exists q :: q in qs && StaysAs(q, t) {
      var r :| r in rs && StaysAs(r, t);
      var q :| q in qs && StaysAs(q, r);
    }
  }

  lemma StaysEach(qs: seq<Request>, rs: seq<Request>)
    requires |rs| <= |qs| && forall i :: 0 <= i < |rs| ==> StaysAs(qs[i], rs[i])
    ensures Stays(qs, rs)
  {
  }

  /** Reading stops in the recursion only when everything that is left has been received. */
  ghost predicate StopsReceived(c: Conn, d: Conn) {
    d.readIgnored ==> c.readIgnored || forall r :: r in d.requests ==> r.done
  }

  lemma SendFrontStays(c: Conn)
    requires c.requests != [] && c.requests[0].response.Some?
    ensures Stays(c.requests, SendFront(c).requests) && StopsReceived(c, SendFront(c))
    ensures 0 < |SendFront(c).requests| <= |c.requests|
  {
    SentQueue(c);
    hide SendFront, Stays;
    StaysEach(c.requests, SendFront(c).requests);
  }

  lemma SentQueue(c: Conn)
    requires c.requests != [] && c.requests[0].response.Some?
    ensures var d := SendFront(c);
      && (d.requests == [Marked(c.requests[0])] + c.requests[1..] || d.requests == [Marked(c.requests[0])])
      && (d.readIgnored ==> c.readIgnored || (d.requests == [Marked(c.requests[0])] && c.requests[0].done))
  {
    assert Marked(c.requests[0]).done == c.requests[0].done;
    hide ToVector, Chunks, Drops, Marked;
    assert SendHead(c).requests == [Marked(c.requests[0])] + c.requests[1..];
  }

  lemma DepartStays(c: Conn)
    requires c.requests != []
    ensures Stays(c.requests, Depart(c, Answered).requests)
  {
    forall r | r in c.requests[1..] ensures r in c.requests && StaysAs(r, r) {}
  }

  lemma {:induction false} FinishStays(c: Conn, drained: bool)
    requires c.requests != []
    ensures Stays(c.requests, Finish(c, drained).requests) && StopsReceived(c, Finish(c, drained))
    decreases |c.requests|, 0
  {
    hide Stays, SendFront;
    var d := Finish(c, drained);
    if !c.requests[0].done {
      StaysEach(c.requests, d.requests);
    } else {
      DepartStays(c);
      var e := Depart(c, Answered);
      if !c.closing && !c.stopping && e.requests != [] && e.requests[0].response.Some? {
        WriteNextStays(e, drained);
        StaysTwice(c.requests, e.requests, d.requests);
      } else if c.closing || c.stopping {
        StaysEach(c.requests, d.requests);
      }
    }
  }

  lemma {:induction false} WriteNextStays(c: Conn, drained: bool)
    requires c.requests != [] && c.requests[0].response.Some?
    ensures Stays(c.requests, WriteNext(c, drained).requests) && StopsReceived(c, WriteNext(c, drained))
    decreases |c.requests|, 1
  {
    SendFrontStays(c);
    hide SendFront;
    var e := SendFront(c);
    if c.requests[0].response.value.completed {
      FinishStays(e, drained);
      StaysTwice(c.requests, e.requests, Finish(e, drained).requests);
      if Finish(e, drained).readIgnored && e.readIgnored && !c.readIgnored {
        ReceivedStays(e.requests, Finish(e, drained).requests);
      }
    }
  }

  lemma ReceivedStays(qs: seq<Request>, rs: seq<Request>)
    requires Stays(qs, rs) && forall q :: q in qs ==> q.done
    ensures forall r :: r in rs ==> r.done
  {
  }

  lemma {:induction false} CallStays(c: Conn, s: Step)
    requires Answering(s)
    ensures Kept(c, Next(c, s))
  {
    hide Stays, Finish, WriteNext, CompletedBefore;
    if EndsFront(c, s) {
      EndStays(c, s);
    } else if AnswersFront(c, s) {
      AnswerStays(c, s);
    } else {
      OtherCallStays(c, s);
    }
  }

  lemma EndedStays(c: Conn, text: string)
    requires c.requests != [] && c.requests[0].response.Some?
    ensures var e := Ended(c, text);
      e.requests != [] && Stays(c.requests, e.requests) && e.readIgnored == c.readIgnored && SameButStopping(c, e)
  {
    hide Stays;
    StaysEach(c.requests, Ended(c, text).requests);
  }

  lemma EndStays(c: Conn, s: Step)
    requires EndsFront(c, s)
    ensures Kept(c, Next(c, s))
  {
    EndedIs(c, s);
    var e := Ended(c, s.text);
    EndedStays(c, s.text);
    hide Ended;
    FinishStays(e, s.drained);
    FinishLeaves(e, s.drained);
    hide Next, Finish, Stays;
    StaysTwice(c.requests, e.requests, Next(c, s).requests);
  }

  lemma AnswerStays(c: Conn, s: Step)
    requires AnswersFront(c, s) && s.StepRespond?
    ensures Kept(c, Next(c, s))
  {
    GivenIs(c, s);
    var e := Given(c, s);
    StaysEach(c.requests, e.requests);
    WriteNextStays(e, s.drained);
    WriteNextLeaves(e, s.drained);
    hide Next, WriteNext, Stays;
    StaysTwice(c.requests, e.requests, Next(c, s).requests);
  }

  /** One request, or none, has changed. */
  lemma PlaceKept(c: Conn, d: Conn, k: nat)
    requires SameButStopping(c, d) && d.readIgnored == c.readIgnored
    requires d.requests == c.requests
      || (k < |c.requests| && k < |d.requests| && d.requests == c.requests[k := d.requests[k]] && StaysAs(c.requests[k], d.requests[k]))
    ensures Kept(c, d)
  {
    hide Stays;
    StaysEach(c.requests, d.requests);
  }

  lemma OtherCallStays(c: Conn, s: Step)
    requires Answering(s) && !EndsFront(c, s) && !AnswersFront(c, s)
    ensures Kept(c, Next(c, s))
  {
    hide Kept, Finish, WriteNext, CompletedBefore, IndexOf, Take, RespondTo, ChunkTo, FinalTo;
    match s
    case StepRespond(id, r, drained) => RespondStays(c, id, r, drained);
    case StepChunk(id, text) => ChunkStays(c, id, text);
    case StepFinal(id, text, drained) => FinalStays(c, id, text, drained);
    case StepContinue(id) => PlaceKept(c, ContinueTo(c, id).0, 0);
    case StepEnablePartial(id) => PlaceKept(c, EnablePartial(c, id), IndexOf(c.requests, id));
  }

  lemma RespondStays(c: Conn, id: nat, r: Response, drained: bool)
    requires !AnswersFront(c, StepRespond(id, r, drained))
    ensures Kept(c, RespondTo(c, id, r, drained).0)
  {
    hide Kept, WriteNext;
    PlaceKept(c, RespondTo(c, id, r, drained).0, IndexOf(c.requests, id));
  }

  lemma ChunkStays(c: Conn, id: nat, text: string)
    ensures Kept(c, ChunkTo(c, id, text).0)
  {
    hide Kept, CompletedBefore, IndexOf;
    PlaceKept(c, ChunkTo(c, id, text).0, IndexOf(c.requests, id));
  }

  lemma FinalStays(c: Conn, id: nat, text: string, drained: bool)
    requires !EndsFront(c, StepFinal(id, text, drained))
    ensures Kept(c, FinalTo(c, id, text, drained).0)
  {
    hide Kept, CompletedBefore, Finish;
    PlaceKept(c, FinalTo(c, id, text, drained).0, IndexOf(c.requests, id));
  }

  /** What a call on a response does to the queue and to reading. */
  ghost predicate Kept(c: Conn, d: Conn) {
    Stays(c.requests, d.requests) && StopsReceived(c, d) && SameButStopping(c, d)
  }

  ghost predicate SameButStopping(c: Conn, d: Conn) {
    && (d.link == c.link || d.link.Shut?)
    && d.parsing == c.parsing && d.phase == c.phase && d.nextId == c.nextId
  }

  // ---------------------------------------------------------------- the newest request

  /** The parser is in the newest request; callbacks are about the newest request, and everything else in
      the queue has been received. */
  ghost predicate Newest(c: Conn) {
    && (c.parsing.Some? ==> c.parsing.value + 1 == c.nextId)
    && (c.phase.InLoop? ==>
          c.phase.id + 1 == c.nextId && c.parsing == if c.phase.done then None else Some(c.phase.id))
    && (c.phase.InError? ==> c.phase.id + 1 == c.nextId)
    && (c.link.Up? && c.phase.InLoop? ==>
          && (forall q :: q in c.requests && q.id != c.phase.id ==> q.done && !q.finishOnReceive)
          && (c.readIgnored ==> forall q :: q in c.requests ==> q.done))
  }

  lemma CallKeepsNewest(c: Conn, s: Step)
    requires Newest(c) && Answering(s)
    ensures Newest(Next(c, s))
  {
    hide Next, Answering;
    CallStays(c, s);
    var d := Next(c, s);
    if d.link.Up? && c.phase.InLoop? {
      forall r | r in d.requests
        ensures r.id != c.phase.id ==> r.done && !r.finishOnReceive
        ensures c.readIgnored ==> r.done
      {
        var q :| q in c.requests && StaysAs(q, r);
      }
    }
  }

  lemma ArriveKeepsNewest(c: Conn, p: Parsed)
    requires Inv(c) && Newest(c) && Reading(c)
    ensures Newest(Arrive(c, p))
  {
    StillReading(c, p);
    ReadParts(c);
    hide Inv, Shape, Order, ReadOk, Newest, Reading, Admit, Arrive, BackFlags, Continued, Arrived;
    AdmitContinues(c, p.header);
    ArriveBack(c, p);
    var id := if c.parsing.Some? then c.parsing.value else c.nextId;
    var m := Admit(c.(timer := false, nextId := if c.parsing.Some? then c.nextId else c.nextId + 1), id, p.header);
    var e := Arrive(c, p);
    ErrorPhase(c, p, id, m);
    NewestArrived(c, m, e, p.header, id, p.state.Done? || p.state.Error?);
  }

  lemma ReadParts(c: Conn)
    requires Inv(c) && Reading(c)
    ensures ReadOk(c) && Shape(c) && Order(c) && !c.readIgnored
  {
    hide RecordsOk, Shape, Order, IdsOk, UpOk, WireOk, ScanOk, FrontOk, CloseOk, ReadOk;
  }

  lemma ErrorPhase(c: Conn, p: Parsed, id: nat, m: Conn)
    requires Reading(c) && BackFlags(m, Arrive(c, p)) && Arrived(Arrive(c, p), id, p.state.Done? || p.state.Error?)
    ensures Arrive(c, p).phase.InError? ==> Arrive(c, p).phase.id == id
  {
    var d := Receive(c, p);
    ArriveShape(d, Back(d)) by { ReceiveNonempty(c, p); }
    hide Receive, SetBack, BackFlags;
  }

  lemma ReceiveNonempty(c: Conn, p: Parsed)
    ensures Receive(c, p).requests != [] && Receive(c, p).phase == c.phase
  {
  }

  lemma ArriveShape(d: Conn, q: Request)
    requires d.requests != [] && q == Back(d)
    ensures Back(Fail(d, q.id)).id == q.id && Fail(d, q.id).phase == InError(q.id)
  {
  }

  lemma StillReading(c: Conn, p: Parsed)
    requires !c.readIgnored
    ensures Arrive(c, p).phase.InLoop? ==> !Arrive(c, p).readIgnored
  {
  }

  lemma NewestArrived(c: Conn, m: Conn, e: Conn, header: Header, id: nat, finished: bool)
    requires Reading(c) && ReadOk(c) && Shape(c) && Order(c) && Newest(c)
    requires id == if c.parsing.Some? then c.parsing.value else c.nextId
    requires Continued(c, m, header) && BackFlags(m, e) && Arrived(e, id, finished)
    requires e.phase.InError? ==> e.phase.id == id
    ensures !(e.phase.InLoop? && e.readIgnored) ==> Newest(e)
  {
    assert id + 1 == e.nextId;
    if e.phase.InLoop? && !e.readIgnored {
      forall q | q in e.requests && q.id != id ensures q.done && !q.finishOnReceive {
        var i :| 0 <= i < |e.requests| && e.requests[i] == q;
        assert i < |e.requests| - 1;
        assert e.requests[i] == m.requests[i];
        assert i < |c.requests| && c.requests[i] == q;
        if i == |c.requests| - 1 { assert c.parsing.None? && Back(c) == q; }
      }
    }
  }

  lemma ReadErrorKeepsNewest(c: Conn, header: Header)
    requires Inv(c) && Newest(c) && Reading(c)
    ensures Newest(ReadError(c, header))
  {
    ReadErrorBack(c, header);
    var m, e := ErrorRoom(c, header), ReadError(c, header);
    assert e.phase == InError(Back(e).id);
    hide ReadError, ErrorRoom;
    NewestArrived(c, m, e, header, Back(e).id, true);
  }

  lemma TailKeepsNewest(c: Conn, drained: bool)
    requires Newest(c) && c.phase.InLoop?
    ensures Newest(Tail(c, drained))
  {
    hide Finish;
    var k := IndexOf(c.requests, c.phase.id);
    if c.phase.done && k < |c.requests| && c.requests[k].finishOnReceive { FinishLeaves(c.(phase := Quiet), drained); }
  }

  lemma ErrorTailKeepsNewest(c: Conn, drained: bool)
    requires Newest(c) && c.phase.InError?
    ensures Newest(ErrorTail(c, drained))
  {
    hide WriteNext;
    var k := IndexOf(c.requests, c.phase.id);
    var d := c.(phase := Quiet);
    if k < |c.requests| && c.requests[k].response.None? && k == 0 { WriteNextLeaves(Take(d, 0, BadRequest), drained); }
  }

  lemma OtherKeepsNewest(c: Conn, s: Step)
    requires Newest(c) && c.phase.Quiet? && !Answering(s) && !ReadingStep(s)
    ensures Newest(Next(c, s))
  {
    hide Drops;
    match s
    case StepWritten(failed, drained) =>
    case StepIdle =>
    case StepEof =>
    case StepShutdownDone =>
    case StepClose =>
    case StepGracefulStop =>
    case StepDrop(id) =>
    case StepUpgrade(id) =>
  }

  lemma StepKeepsNewest(c: Conn, s: Step)
    requires Inv(c) && Newest(c) && Enabled(c, s)
    ensures Newest(Next(c, s))
  {
    hide Inv, Newest, Arrive, Tail, ReadError, ErrorTail;
    if Answering(s) {
      StepGrows(c, s);
      hide Next;
      CallKeepsNewest(c, s);
    } else {
      match s
      case StepArrive(p) => ArriveKeepsNewest(c, p);
      case StepTail(drained) => TailKeepsNewest(c, drained);
      case StepReadError(header) => ReadErrorKeepsNewest(c, header);
      case StepErrorTail(drained) => ErrorTailKeepsNewest(c, drained);
      case _ => OtherKeepsNewest(c, s);
    }
  }

  lemma {:induction false} RunKeepsNewest(maxKeepAlive: nat, steps: seq<Step>)
    requires Legal(NewConn(maxKeepAlive), steps)
    ensures Newest(Run(NewConn(maxKeepAlive), steps))
  {
    hide Inv, Next, Enabled;
    if steps != [] {
      var before := steps[..|steps| - 1];
      RunKeepsNewest(maxKeepAlive, before);
      RunKeeps(maxKeepAlive, before);
      StepKeepsNewest(Run(NewConn(maxKeepAlive), before), steps[|steps| - 1]);
    }
  }

  // ---------------------------------------------------------------- is the request in error still there?

  ghost predicate HasAnswer(c: Conn, id: nat) {
    exists q :: q in History(c) && q.id == id && q.response.Some?
  }

  lemma {:induction false} IdsHas(qs: seq<Request>, id: nat) returns (i: nat)
    requires id in Ids(qs)
    ensures i < |qs| && qs[i].id == id
  {
    if qs[|qs| - 1].id == id { i := |qs| - 1; } else { i := IdsHas(qs[..|qs| - 1], id); }
  }

  /** A request that is not queued has left. */
  lemma {:induction false} LeftOrQueued(c: Conn, id: nat)
    requires IdsOk(c) && id < c.nextId && IndexOf(c.requests, id) == |c.requests|
    ensures exists i :: 0 <= i < |c.departed| && c.departed[i].request.id == id
  {
    assert Places(c)[id] == 1;
    if id in Ids(c.requests) { var i := IdsHas(c.requests, id); }
    var i := IdsHas(Gone(c.departed), id);
    assert c.departed[i].request.id == id;
  }

  lemma {:induction false} AnswerableOrNot(c: Conn, id: nat)
    requires Inv(c) && id < c.nextId
    ensures Answerable(c, id) <==> IndexOf(c.requests, id) < |c.requests| || HasAnswer(c, id)
  {
    hide Inv;
    if HasAnswer(c, id) && IndexOf(c.requests, id) == |c.requests| {
      var q :| q in History(c) && q.id == id && q.response.Some?;
      assert q !in c.requests;
      var i :| 0 <= i < |c.departed| && c.departed[i].request == q;
    }
    if i :| 0 <= i < |c.departed| && c.departed[i].request.id == id && c.departed[i].request.response.Some? {
      assert Gone(c.departed)[i] == c.departed[i].request;
      assert c.departed[i].request in History(c);
    }
  }

  lemma {:induction false} QueuedOrAnswered(c: Conn, id: nat)
    requires IdsOk(c) && RecordsOk(c) && UpOk(c) && c.link.Up? && !c.closing && id < c.nextId
    requires IndexOf(c.requests, id) == |c.requests|
    ensures HasAnswer(c, id)
  {
    LeftOrQueued(c, id);
    var i :| 0 <= i < |c.departed| && c.departed[i].request.id == id;
    assert FateOk(c.departed[i]) && RequestOk(c.departed[i].request);
    assert Gone(c.departed)[i] == c.departed[i].request;
    assert c.departed[i].request in History(c);
  }

  lemma AnswerableIff(c: Conn, id: nat)
    requires Inv(c) && id < c.nextId
    ensures Answerable(c, id) <==>
      || HasAnswer(c, id)
      || (c.link.Up? && (!c.closing || (c.requests != [] && c.requests[0].id == id)))
  {
    hide RecordsOk, Shape, Order, IdsOk, UpOk, WireOk, ScanOk, FrontOk, ReadOk, HasAnswer, Answerable;
    AnswerableOrNot(c, id);
    if c.link.Up? && !c.closing && IndexOf(c.requests, id) == |c.requests| { QueuedOrAnswered(c, id); }
  }

  /** In every reachable state inside request_error: respond() can be called for the request in error, or
      need not be, if and only if the request has an answer, or the connection is up and either not closing
      or closing with this very request. Otherwise the callback has brought the connection down, or has
      answered an earlier request without keep-alive, and the assertion in respond() fails. */
  lemma {:induction false} ErrorAnswerableIff(maxKeepAlive: nat, steps: seq<Step>)
    requires Legal(NewConn(maxKeepAlive), steps) && Run(NewConn(maxKeepAlive), steps).phase.InError?
    ensures var c := Run(NewConn(maxKeepAlive), steps);
      var id := c.phase.id;
      && id + 1 == c.nextId
      && (Answerable(c, id) <==>
            || HasAnswer(c, id)
            || (c.link.Up? && (!c.closing || (c.requests != [] && c.requests[0].id == id))))
  {
    var c := Run(NewConn(maxKeepAlive), steps);
    RunKeeps(maxKeepAlive, steps);
    RunKeepsNewest(maxKeepAlive, steps);
    hide Legal, Run, Inv, HasAnswer, Answerable;
    AnswerableIff(c, c.phase.id);
  }

  // ---------------------------------------------------------------- reading on

  /** In every reachable state at the end of the loop body: the rest of the buffer is parsed on a
      connection that is down if and only if the request that ends here was already answered and the
      connection is closing or stopping, or the connection went down in the callbacks and neither a head
      without keep-alive nor the request itself stops the loop. */
  lemma {:induction false} ReadsOnAfterShutdownIff(maxKeepAlive: nat, steps: seq<Step>, drained: bool)
    requires Legal(NewConn(maxKeepAlive), steps) && Run(NewConn(maxKeepAlive), steps).phase.InLoop?
    ensures var c := Run(NewConn(maxKeepAlive), steps);
      LoopGoesOn(c) && !Tail(c, drained).link.Up? <==>
        if c.link.Up? then
          && c.phase.done && (c.closing || c.stopping)
          && c.requests != [] && c.requests[0].id == c.phase.id && c.requests[0].finishOnReceive
        else
          !(c.phase.done && (c.closing || !c.phase.keepAlive))
  {
    RunKeeps(maxKeepAlive, steps);
    var c := Run(NewConn(maxKeepAlive), steps);
    hide Legal, Run;
    ReadsOnIff(c, drained);
  }

  lemma ReadsOnIff(c: Conn, drained: bool)
    requires Inv(c) && c.phase.InLoop?
    ensures LoopGoesOn(c) && !Tail(c, drained).link.Up? <==>
      if c.link.Up? then
        && c.phase.done && (c.closing || c.stopping)
        && c.requests != [] && c.requests[0].id == c.phase.id && c.requests[0].finishOnReceive
      else
        !(c.phase.done && (c.closing || !c.phase.keepAlive))
  {
    hide Order, IdsOk, UpOk, WireOk, ScanOk, CloseOk, FateOk;
    var k := IndexOf(c.requests, c.phase.id);
    if c.phase.done && k < |c.requests| && c.requests[k].finishOnReceive {
      assert k == 0 && |c.requests| == 1;
    }
  }

  /** On an empty queue no call does anything. */
  lemma {:induction false} PlayNothing(c: Conn, calls: seq<Step>)
    requires c.requests == [] && forall i :: 0 <= i < |calls| ==> Answering(calls[i])
    ensures Play(c, calls) == c
    decreases |calls|
  {
    if calls != [] {
      assert Next(c, calls[0]) == c;
      PlayNothing(c, calls[1..]);
    }
  }

  lemma {:induction false} PlayLater(c: Conn, calls: seq<Step>, i: nat)
    requires 0 < i <= |calls|
    ensures Play(c, calls[..i]) == Play(Next(c, calls[0]), calls[1..][..i - 1])
  {
    hide Next;
    assert calls[..i][1..] == calls[1..][..i - 1];
  }

  /** The same seen before the callbacks of a request that has arrived in full: what users answer there
      makes the loop go on reading on a dead connection if and only if the request is keep-alive and one
      of their calls ends the response of a received front after a graceful stop. */
  lemma {:induction false} CallbacksReadOnIff(c: Conn, calls: seq<Step>)
    requires Inv(c) && c.phase.InLoop? && c.phase.done && c.link.Up?
    requires forall i :: 0 <= i < |calls| ==> Answering(calls[i])
    ensures Play(c, calls).phase == c.phase
    ensures LoopGoesOn(Play(c, calls)) && !Play(c, calls).link.Up? <==>
      c.phase.keepAlive && exists i :: 0 <= i < |calls| && EndsWhileStopping(Play(c, calls[..i]), calls[i])
    decreases |calls|
  {
    if calls != [] {
      hide Next, Inv, EndsWhileStopping;
      var e := Next(c, calls[0]);
      var rest := calls[1..];
      assert calls[..0] == [];
      AnsweringKeeps(c, calls[0]);
      CallStays(c, calls[0]);
      CallShutsIff(c, calls[0]);
      if e.link.Up? {
        CallbacksReadOnIff(e, rest);
        if EndsWhileStopping(c, calls[0]) { assert false; }
        LaterCalls(c, calls);
      } else {
        EmptyWhenDown(e);
        PlayNothing(e, rest);
        forall i | 0 < i < |calls| ensures !EndsWhileStopping(Play(c, calls[..i]), calls[i]) {
          PlayLater(c, calls, i);
          PlayNothing(e, rest[..i - 1]);
          EndsNothing(e, calls[i]);
        }
        assert Play(c, calls[..0]) == c;
      }
    }
  }

  lemma EmptyWhenDown(c: Conn)
    requires Inv(c) && !c.link.Up?
    ensures c.requests == []
  {
  }

  lemma EndsNothing(c: Conn, s: Step)
    requires c.requests == []
    ensures !EndsWhileStopping(c, s)
  {
  }

  lemma {:induction false} LaterCalls(c: Conn, calls: seq<Step>)
    requires calls != [] && !EndsWhileStopping(c, calls[0])
    ensures (exists i :: 0 <= i < |calls| && EndsWhileStopping(Play(c, calls[..i]), calls[i])) <==>
      (exists i :: 0 <= i < |calls[1..]| && EndsWhileStopping(Play(Next(c, calls[0]), calls[1..][..i]), calls[1..][i]))
  {
    hide Next, EndsWhileStopping;
    var rest := calls[1..];
    assert calls[..0] == [] && Play(c, []) == c;
    if i :| 0 <= i < |calls| && EndsWhileStopping(Play(c, calls[..i]), calls[i]) {
      PlayLater(c, calls, i);
      assert EndsWhileStopping(Play(Next(c, calls[0]), rest[..i - 1]), rest[i - 1]);
    }
    if i :| 0 <= i < |rest| && EndsWhileStopping(Play(Next(c, calls[0]), rest[..i]), rest[i]) {
      PlayLater(c, calls, i + 1);
      assert EndsWhileStopping(Play(c, calls[..i + 1]), calls[i + 1]);
    }
  }

  // ---------------------------------------------------------------- requests read on a dead connection

  /** The call completes the answer of request `id`, which has been begun or not. */
  predicate CompletesNow(s: Step, id: nat, begun: bool) {
    match s
    case StepRespond(i, r, _) => i == id && !begun && Whole(r)
    case StepFinal(i, _, _) => i == id && begun
    case _ => false
  }

  /** The calls complete the answer of request `id`. */
  predicate Completes(calls: seq<Step>, id: nat, begun: bool)
    decreases |calls|
  {
    && calls != []
    && (CompletesNow(calls[0], id, begun)
        || Completes(calls[1..], id, begun || (calls[0].StepRespond? && calls[0].id == id)))
  }

  /** Request `id`, received on a connection that is down, is alone in the queue. */
  ghost predicate LateWaits(c: Conn, e: Conn, id: nat, begun: bool) {
    && !c.link.Up? && e.link == c.link && e.wire == c.wire && e.departed == c.departed && e.phase == c.phase
    && |e.requests| == 1 && e.requests[0].id == id && e.requests[0].done && !e.requests[0].finishOnReceive
    && e.requests[0].response.Some? == begun
    && (begun ==> !e.requests[0].response.value.completed)
  }

  /** The request has departed as answered, and nothing has been written. */
  ghost predicate LateGone(c: Conn, e: Conn, id: nat) {
    && !c.link.Up? && e.link == c.link && e.wire == c.wire && e.phase == c.phase && e.requests == []
    && |e.departed| == |c.departed| + 1 && e.departed[..|c.departed|] == c.departed
    && var last := e.departed[|c.departed|];
       last.request.id == id && last.fate == Answered && last.request.response.Some? && last.request.response.value.completed
  }

  lemma LateCall(c: Conn, e: Conn, id: nat, begun: bool, s: Step)
    requires LateWaits(c, e, id, begun) && Answering(s)
    ensures var d := Next(e, s);
      if CompletesNow(s, id, begun) then LateGone(c, d, id)
      else LateWaits(c, d, id, begun || (s.StepRespond? && s.id == id))
  {
    hide LateWaits, LateGone, RespondTo, FinalTo, ChunkTo;
    match s
    case StepRespond(i, r, drained) =>
      if i == id && !begun { LateAnswer(c, e, id, r, drained); } else { LateOther(c, e, id, begun, s); }
    case StepFinal(i, text, drained) =>
      if i == id && begun { LateEnd(c, e, id, text, drained); } else { LateOther(c, e, id, begun, s); }
    case StepChunk(i, text) => LateChunk(c, e, id, begun, i, text);
    case _ => LateOther(c, e, id, begun, s);
  }

  lemma LateChunk(c: Conn, e: Conn, id: nat, begun: bool, i: nat, text: string)
    requires LateWaits(c, e, id, begun)
    ensures LateWaits(c, ChunkTo(e, i, text).0, id, begun)
  {
    hide CompletedBefore;
  }

  lemma LateOther(c: Conn, e: Conn, id: nat, begun: bool, s: Step)
    requires LateWaits(c, e, id, begun) && Answering(s) && !s.StepChunk?
    requires (s.StepRespond? && s.id == id ==> begun) && (s.StepFinal? && s.id == id ==> !begun)
    ensures LateWaits(c, Next(e, s), id, begun)
  {
    hide CompletedBefore, Answer, Finish;
  }

  lemma LateAnswer(c: Conn, e: Conn, id: nat, r: Response, drained: bool)
    requires LateWaits(c, e, id, false)
    ensures var d := RespondTo(e, id, r, drained).0;
      if Whole(r) then LateGone(c, d, id) else LateWaits(c, d, id, true)
  {
    var t := SendFront(Take(e, 0, r));
    assert IndexOf(e.requests, id) == 0;
    assert LateWaits(c, t.(requests := [t.requests[0].(response := None)]), id, false);
    hide CompletedBefore, SendFront;
    if Whole(r) { LateFinish(c, t, id, drained); }
  }

  lemma LateEnd(c: Conn, e: Conn, id: nat, text: string, drained: bool)
    requires LateWaits(c, e, id, true)
    ensures LateGone(c, FinalTo(e, id, text, drained).0, id)
  {
    assert IndexOf(e.requests, id) == 0;
    var q := e.requests[0];
    var ended := q.(response := Some(q.response.value.(completed := true)), calls := q.calls + [SendFinal(text, true)]);
    var t := e.(requests := e.requests[0 := ended]);
    assert Write(t, [Final(id, text)]) == t;
    hide CompletedBefore;
    LateFinish(c, t, id, drained);
  }

  lemma {:induction false} LateFinish(c: Conn, e: Conn, id: nat, drained: bool)
    requires !c.link.Up? && e.link == c.link && e.wire == c.wire && e.departed == c.departed && e.phase == c.phase
    requires |e.requests| == 1 && e.requests[0].id == id && e.requests[0].done
    requires e.requests[0].response.Some? && e.requests[0].response.value.completed
    ensures LateGone(c, Finish(e, drained), id)
  {
  }

  /** A request that has departed is not there for any further call. */
  lemma LateIgnored(c: Conn, e: Conn, id: nat, s: Step)
    requires LateGone(c, e, id) && Answering(s)
    ensures LateGone(c, Next(e, s), id)
  {
    hide CompletedBefore;
  }

  lemma {:induction false} LateIgnoredAll(c: Conn, e: Conn, id: nat, calls: seq<Step>)
    requires LateGone(c, e, id) && forall s :: s in calls ==> Answering(s)
    ensures LateGone(c, Play(e, calls), id)
    decreases |calls|
  {
    hide LateGone, Next;
    if calls != [] {
      LateIgnored(c, e, id, calls[0]);
      LateIgnoredAll(c, Next(e, calls[0]), id, calls[1..]);
    }
  }

  lemma {:induction false} LateCalls(c: Conn, e: Conn, id: nat, begun: bool, calls: seq<Step>)
    requires LateWaits(c, e, id, begun) && forall s :: s in calls ==> Answering(s)
    ensures var d := Play(e, calls);
      if Completes(calls, id, begun) then LateGone(c, d, id) else exists b :: LateWaits(c, d, id, b)
    decreases |calls|
  {
    hide LateWaits, LateGone, Next, CompletesNow;
    if calls == [] {
      assert LateWaits(c, Play(e, calls), id, begun);
    } else {
      var s, rest := calls[0], calls[1..];
      assert s in calls;
      LateCall(c, e, id, begun, s);
      assert Play(e, calls) == Play(Next(e, s), rest);
      if CompletesNow(s, id, begun) {
        LateIgnoredAll(c, Next(e, s), id, rest);
      } else {
        LateCalls(c, Next(e, s), id, begun || (s.StepRespond? && s.id == id), rest);
      }
    }
  }

  lemma ArriveLink(c: Conn, p: Parsed)
    ensures Arrive(c, p).link == c.link
  {
  }

  /** The event loop is in a callback of a connection only while that is up or being shut down. */
  lemma {:induction false} ShutInLoop(maxKeepAlive: nat, steps: seq<Step>)
    requires Legal(NewConn(maxKeepAlive), steps)
    ensures var c := Run(NewConn(maxKeepAlive), steps); c.phase.InLoop? ==> c.link.Up? || c.link.Shut?
  {
    if steps != [] {
      var before, s := steps[..|steps| - 1], steps[|steps| - 1];
      var c := Run(NewConn(maxKeepAlive), before);
      ShutInLoop(maxKeepAlive, before);
      hide Arrive, ReadError, Tail, ErrorTail, Legal, Run;
      if Answering(s) {
        CallStays(c, s);
        hide Next;
      } else {
        match s
        case StepArrive(p) => ArriveLink(c, p);
        case StepTail(drained) => TailQuiet(c, drained);
        case StepErrorTail(drained) => ErrorTailQuiet(c, drained);
        case _ =>
      }
    }
  }

  /** A request that is then read in full is queued on a dead connection, whatever is called in its
      callbacks nothing is written, and nobody drops it: when the connection is removed from its server the
      request is still queued, unless the calls completed its answer. Then it has departed as answered. */
  lemma {:induction false} LateRequest(maxKeepAlive: nat, steps: seq<Step>, drained: bool, part: Part)
    requires Legal(NewConn(maxKeepAlive), steps) && part.parsed.state.Done? && forall s :: s in part.calls ==> Answering(s)
    requires var c := Run(NewConn(maxKeepAlive), steps);
      c.phase.InLoop? && c.phase.done && !c.link.Up? && LoopGoesOn(c)
    ensures var c := Run(NewConn(maxKeepAlive), steps);
      var d := ReadPart(Tail(c, drained), part);
      var e := Next(d, StepShutdownDone);
      && Enabled(d, StepShutdownDone) && e.removed && e.wire == c.wire
      && if Completes(part.calls, c.nextId, false)
         then e.requests == [] && AnsweredUnseen(c, e)
         else |e.requests| == 1 && e.requests[0].id == c.nextId && e.departed == c.departed
  {
    hide Inv, Legal, Run, Tail, ReadPart, Completes, AnsweredUnseen, Answering, LoopGoesOn;
    RunKeeps(maxKeepAlive, steps);
    RunKeepsNewest(maxKeepAlive, steps);
    var c := Run(NewConn(maxKeepAlive), steps);
    EmptyWhenDown(c);
    ShutInLoop(maxKeepAlive, steps);
    LatePart(c, drained, part);
  }

  /** Only the request that came last has departed since, as answered. */
  ghost predicate AnsweredUnseen(c: Conn, e: Conn) {
    exists q: Request :: e.departed == c.departed + [Departure(q, Answered)] && q.id == c.nextId
  }

  lemma LateArrival(c: Conn, drained: bool, p: Parsed)
    requires c.requests == [] && c.parsing.None? && c.phase.InLoop? && c.phase.done && !c.link.Up? && p.state.Done?
    ensures var t := Tail(c, drained);
      var d := Arrive(t, p);
      && t.link == c.link && t.wire == c.wire && t.departed == c.departed
      && d.phase.InLoop? && d.phase.done && LateWaits(t.(phase := d.phase), d, c.nextId, false)
  {
    var t := Tail(c, drained);
    assert t.requests == [] && t.parsing.None? && t.nextId == c.nextId;
    assert Arrive(t, p).requests == [NewRequest(c.nextId, p.header).(done := true, routed := true)];
  }

  lemma LatePart(c: Conn, drained: bool, part: Part)
    requires c.requests == [] && c.parsing.None? && c.phase.InLoop? && c.phase.done && !c.link.Up?
    requires part.parsed.state.Done? && forall s :: s in part.calls ==> Answering(s)
    ensures var d := ReadPart(Tail(c, drained), part);
      var e := Next(d, StepShutdownDone);
      && d.phase.Quiet? && d.link == c.link && e.removed && e.wire == c.wire
      && if Completes(part.calls, c.nextId, false)
         then e.requests == [] && AnsweredUnseen(c, e)
         else |e.requests| == 1 && e.requests[0].id == c.nextId && e.departed == c.departed
  {
    hide LateWaits, LateGone, Arrive, Play, Tail, Completes;
    var t := Tail(c, drained);
    LateArrival(c, drained, part.parsed);
    var a := Arrive(t, part.parsed);
    var t1 := t.(phase := a.phase);
    LateCalls(t1, a, c.nextId, false, part.calls);
    var d := Play(a, part.calls);
    assert CallbacksDone(t, part) == d;
    if Completes(part.calls, c.nextId, false) {
      LateGoneTail(t1, d, c.nextId, part.drained);
      var e := Tail(d, part.drained);
      var last := e.departed[|c.departed|];
      assert e.departed == c.departed + [Departure(last.request, Answered)];
    } else {
      var b :| LateWaits(t1, d, c.nextId, b);
      LateWaitsTail(t1, d, c.nextId, b, part.drained);
    }
  }

  lemma LateGoneTail(c: Conn, e: Conn, id: nat, drained: bool)
    requires LateGone(c, e, id) && c.phase.InLoop?
    ensures e.phase.InLoop?
    ensures var d := Tail(e, drained);
      && d.phase.Quiet? && d.link == c.link && d.requests == [] && d.wire == c.wire
      && |d.departed| == |c.departed| + 1 && d.departed[..|c.departed|] == c.departed
      && d.departed[|c.departed|].request.id == id && d.departed[|c.departed|].fate == Answered
  {
  }

  lemma LateWaitsTail(c: Conn, e: Conn, id: nat, begun: bool, drained: bool)
    requires LateWaits(c, e, id, begun) && c.phase.InLoop?
    ensures e.phase.InLoop?
    ensures var d := Tail(e, drained);
      d.phase.Quiet? && d.link == c.link && d.requests == e.requests && d.wire == c.wire && d.departed == c.departed
    ensures |e.requests| == 1 && e.requests[0].id == id
  {
  }

  // ---------------------------------------------------------------- whole buffers

  /** Only the front's answer can wait for the end of its request, and only when it is complete. */
  predicate AnswerInFront(c: Conn) {
    forall i :: 0 <= i < |c.requests| && c.requests[i].finishOnReceive ==>
      i == 0 && c.requests[0].response.Some? && c.requests[0].response.value.completed
  }

  lemma InvAnswerInFront(c: Conn)
    requires Inv(c)
    ensures AnswerInFront(c)
  {
    hide Order, IdsOk, UpOk, WireOk, ScanOk, FrontOk, CloseOk, ReadOk, FateOk;
    forall i | 0 <= i < |c.requests| && c.requests[i].finishOnReceive
      ensures i == 0 && c.requests[0].response.Some? && c.requests[0].response.value.completed
    {
      assert RequestOk(c.requests[i]);
    }
  }

  lemma SendFrontInFront(c: Conn)
    requires c.requests != [] && c.requests[0].response.Some? && AnswerInFront(c)
    ensures var d := SendFront(c);
      && AnswerInFront(d) && 0 < |d.requests| <= |c.requests|
      && d.requests[0].response.Some? && d.requests[0].response.value.completed == c.requests[0].response.value.completed
  {
    SentQueue(c);
    hide SendFront;
  }

  lemma {:induction false} FinishInFront(c: Conn, drained: bool)
    requires c.requests != [] && c.requests[0].response.Some? && c.requests[0].response.value.completed && AnswerInFront(c)
    ensures AnswerInFront(Finish(c, drained))
    decreases |c.requests|, 0
  {
    hide SendFront;
    if c.requests[0].done {
      var d := Depart(c, Answered);
      assert AnswerInFront(d);
      if !c.closing && !c.stopping && d.requests != [] && d.requests[0].response.Some? { WriteNextInFront(d, drained); }
    }
  }

  lemma {:induction false} WriteNextInFront(c: Conn, drained: bool)
    requires c.requests != [] && c.requests[0].response.Some? && AnswerInFront(c)
    ensures AnswerInFront(WriteNext(c, drained))
    decreases |c.requests|, 1
  {
    SendFrontInFront(c);
    hide SendFront;
    if c.requests[0].response.value.completed { FinishInFront(SendFront(c), drained); }
  }

  lemma CallInFront(c: Conn, s: Step)
    requires AnswerInFront(c) && Answering(s)
    ensures AnswerInFront(Next(c, s))
  {
    hide Finish, WriteNext, AnswerInFront;
    if EndsFront(c, s) {
      EndedIs(c, s);
      EndedInFront(c, s.text);
      FinishInFront(Ended(c, s.text), s.drained);
    } else if AnswersFront(c, s) {
      GivenIs(c, s);
      GivenInFront(c, s);
      WriteNextInFront(Given(c, s), s.drained);
    } else {
      OtherCallInFront(c, s);
    }
  }

  lemma EndedInFront(c: Conn, text: string)
    requires AnswerInFront(c) && c.requests != [] && c.requests[0].response.Some?
    ensures var e := Ended(c, text);
      e.requests != [] && e.requests[0].response.Some? && e.requests[0].response.value.completed && AnswerInFront(e)
  {
  }

  lemma GivenInFront(c: Conn, s: Step)
    requires AnswerInFront(c) && AnswersFront(c, s)
    ensures var e := Given(c, s);
      e.requests != [] && e.requests[0].response.Some? && AnswerInFront(e)
  {
  }

  /** The front has not got its last call; its answer is as complete as before. */
  lemma OtherCallInFront(c: Conn, s: Step)
    requires AnswerInFront(c) && Answering(s) && !EndsFront(c, s) && !AnswersFront(c, s)
    ensures AnswerInFront(Next(c, s))
  {
    hide Finish, WriteNext, CompletedBefore, IndexOf, RespondTo, ChunkTo, FinalTo, AnswerInFront;
    match s
    case StepRespond(id, r, drained) => RespondInFront(c, id, r, drained);
    case StepChunk(id, text) => ChunkInFront(c, id, text);
    case StepFinal(id, text, drained) => FinalInFront(c, id, text, drained);
    case StepContinue(id) => SameInFront(c, Next(c, s));
    case StepEnablePartial(id) => PartialInFront(c, id);
  }

  lemma SameInFront(c: Conn, d: Conn)
    requires AnswerInFront(c) && d.requests == c.requests
    ensures AnswerInFront(d)
  {
  }

  lemma RespondInFront(c: Conn, id: nat, r: Response, drained: bool)
    requires AnswerInFront(c) && !AnswersFront(c, StepRespond(id, r, drained))
    ensures AnswerInFront(RespondTo(c, id, r, drained).0)
  {
    hide WriteNext;
  }

  lemma ChunkInFront(c: Conn, id: nat, text: string)
    requires AnswerInFront(c)
    ensures AnswerInFront(ChunkTo(c, id, text).0)
  {
    hide CompletedBefore;
  }

  lemma FinalInFront(c: Conn, id: nat, text: string, drained: bool)
    requires AnswerInFront(c) && !EndsFront(c, StepFinal(id, text, drained))
    ensures AnswerInFront(FinalTo(c, id, text, drained).0)
  {
    hide CompletedBefore, Finish;
  }

  lemma PartialInFront(c: Conn, id: nat)
    requires AnswerInFront(c)
    ensures AnswerInFront(EnablePartial(c, id))
  {
  }

  lemma {:induction false} PlayInFront(c: Conn, calls: seq<Step>)
    requires AnswerInFront(c) && forall i :: 0 <= i < |calls| ==> Answering(calls[i])
    ensures AnswerInFront(Play(c, calls))
    decreases |calls|
  {
    hide AnswerInFront, Next;
    if calls != [] {
      CallInFront(c, calls[0]);
      PlayInFront(Next(c, calls[0]), calls[1..]);
    }
  }

  lemma ReceiveInFront(c: Conn, p: Parsed)
    requires AnswerInFront(c)
    ensures AnswerInFront(Receive(c, p)) && Receive(c, p).requests != []
  {
  }

  lemma ArriveInFront(c: Conn, p: Parsed)
    requires AnswerInFront(c)
    ensures AnswerInFront(Arrive(c, p))
  {
    ReceiveInFront(c, p);
    RouteInFront(Receive(c, p));
    hide Receive, SetBack, Back, Fail, AnswerInFront;
  }

  lemma RouteInFront(d: Conn)
    requires AnswerInFront(d) && d.requests != []
    ensures var q := Back(d);
      && AnswerInFront(Fail(d, q.id))
      && AnswerInFront(SetBack(d, q.(routed := true)).(phase := InLoop(q.id, q.header.keepAlive, q.done)))
  {
  }

  lemma TailInFront(c: Conn, drained: bool)
    requires AnswerInFront(c) && c.phase.InLoop?
    ensures AnswerInFront(Tail(c, drained))
  {
    hide Finish;
    var k := IndexOf(c.requests, c.phase.id);
    if c.phase.done && k < |c.requests| && c.requests[k].finishOnReceive { FinishInFront(c.(phase := Quiet), drained); }
  }

  lemma ErrorTailInFront(c: Conn, drained: bool)
    requires AnswerInFront(c) && c.phase.InError?
    ensures AnswerInFront(ErrorTail(c, drained))
  {
    hide WriteNext, ErrorTail, AnswerInFront, Given;
    var s := StepErrorTail(drained);
    if AnswersFront(c, s) {
      ErrorTailStep(c, drained);
      GivenIs(c, s);
      GivenInFront(c, s);
      WriteNextInFront(Given(c, s), drained);
    } else {
      OtherErrorTailInFront(c, drained);
    }
  }

  lemma ErrorTailStep(c: Conn, drained: bool)
    requires c.phase.InError?
    ensures Next(c, StepErrorTail(drained)) == ErrorTail(c, drained)
  {
  }

  lemma OtherErrorTailInFront(c: Conn, drained: bool)
    requires AnswerInFront(c) && c.phase.InError? && !AnswersFront(c, StepErrorTail(drained))
    ensures AnswerInFront(ErrorTail(c, drained))
  {
    var k := IndexOf(c.requests, c.phase.id);
    hide WriteNext, IndexOf;
    if k < |c.requests| && c.requests[k].response.None? {
      TakeInFront(c.(phase := Quiet), k, BadRequest);
      hide Take;
    }
  }

  lemma TakeInFront(c: Conn, k: nat, r: Response)
    requires AnswerInFront(c) && 0 < k < |c.requests|
    ensures AnswerInFront(Take(c, k, r))
  {
  }

  lemma ReadPartInFront(c: Conn, part: Part)
    requires AnswerInFront(c) && forall i :: 0 <= i < |part.calls| ==> Answering(part.calls[i])
    ensures AnswerInFront(CallbacksDone(c, part)) && AnswerInFront(ReadPart(c, part))
  {
    hide AnswerInFront, Arrive, Play, Tail, ErrorTail;
    ArriveInFront(c, part.parsed);
    PlayInFront(Arrive(c, part.parsed), part.calls);
    var d := CallbacksDone(c, part);
    match d.phase
    case Quiet =>
    case InError(_) => ErrorTailInFront(d, part.drained);
    case InLoop(_, _, _) => TailInFront(d, part.drained);
  }

  lemma ReadPartQuiet(c: Conn, part: Part)
    requires c.phase.Quiet?
    ensures ReadPart(c, part).phase.Quiet?
  {
    hide Arrive, Play, Finish, WriteNext;
    var d := CallbacksDone(c, part);
    match d.phase
    case Quiet =>
    case InError(_) =>
      ErrorTailQuiet(d, part.drained);
    case InLoop(_, _, _) => TailQuiet(d, part.drained);
  }

  lemma TailQuiet(c: Conn, drained: bool)
    requires c.phase.InLoop?
    ensures Tail(c, drained).phase.Quiet?
  {
    hide Finish;
    if c.requests != [] { FinishLeaves(c.(phase := Quiet), drained); }
  }

  lemma ErrorTailQuiet(c: Conn, drained: bool)
    requires c.phase.InError?
    ensures ErrorTail(c, drained).phase.Quiet?
  {
    hide WriteNext;
    var s := StepErrorTail(drained);
    if AnswersFront(c, s) {
      GivenIs(c, s);
      WriteNextLeaves(Given(c, s), drained);
    }
  }

  /** A buffer as the parser cuts it up: it goes on within a buffer only with a new request or with the one
      at the end of the queue. Users only answer in callbacks. The connection need not stay up. */
  ghost predicate Readable(c: Conn, parts: seq<Part>)
    decreases |parts|
  {
    parts != [] ==>
      && (c.parsing.Some? ==> c.requests != [] && Back(c).id == c.parsing.value)
      && (forall i :: 0 <= i < |parts[0].calls| ==> Answering(parts[0].calls[i]))
      && (ReadsOn(c, parts[0]) ==> Readable(ReadPart(c, parts[0]), parts[1..]))
  }

  /** The request that request_error is called for while a buffer is read. */
  function InErrorOf(c: Conn, parts: seq<Part>): Option<nat>
    decreases |parts|
  {
    if parts == [] then None
    else
      var d := CallbacksDone(c, parts[0]);
      if d.phase.InError? then Some(d.phase.id)
      else if ReadsOn(c, parts[0]) then InErrorOf(ReadPart(c, parts[0]), parts[1..])
      else None
  }

  /** Every uninterrupted buffer is such a buffer. */
  lemma {:induction false} UninterruptedIsReadable(c: Conn, parts: seq<Part>)
    requires Inv(c) && Uninterrupted(c, parts)
    ensures Readable(c, parts)
    decreases |parts|
  {
    if parts != [] {
      FirstUninterrupted(c, parts);
      ReadPartKeeps(c, parts[0]);
      hide RecordsOk, Shape, Order, IdsOk, UpOk, WireOk, ScanOk, FrontOk, CloseOk, ReadPart, CallbacksDone, ReadsOn;
      if ReadsOn(c, parts[0]) { UninterruptedIsReadable(ReadPart(c, parts[0]), parts[1..]); }
    }
  }
}

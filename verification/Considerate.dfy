/** Users whose calls in notifications do no harm. */
module Considerate {
  import opened Wire
  import opened Connection
  import opened Invariant
  import opened Pipelining
  import opened Steps
  import opened Serving
  import opened Lifetime
  import opened Recursion
  import opened Reader
  import opened WireOrder
  import opened Events
  import opened Disturbances

  // ---------------------------------------------------------------- considerate users

  /** In the notifications of a request that leaves, calls are made only on requests that arrived later than the
      next one, or on the request itself, which does nothing. */
  ghost predicate Considerate(on: Handler) {
    forall id: nat, s :: s in on(id) && Answering(s) ==> s.id == id || s.id > id + 1
  }

  /** Each request is followed by the one that arrived next. */
  predicate InLine(qs: seq<Request>) {
    forall i :: 0 <= i < |qs| - 1 ==> qs[i + 1].id == qs[i].id + 1
  }

  lemma NextInLine(c: Conn)
    requires Core(c) && c.link.Up? && !c.closing
    ensures InLine(c.requests)
  {
    hide RecordsOk, Shape, IdsOk, UpOk, WireOk, ScanOk;
    forall i | 0 <= i < |c.requests| - 1 ensures c.requests[i + 1].id == c.requests[i].id + 1 {
      assert c.requests[0].id <= c.requests[i].id < c.requests[i + 1].id < c.nextId;
      var j := PlaceOf(c, c.requests[i].id + 1);
      assert j > i;
    }
  }

  /** What has not been served is queued. */
  lemma PlaceOf(c: Conn, id: nat) returns (i: nat)
    requires Core(c) && c.link.Up? && !c.closing && c.requests != [] && c.requests[0].id <= id < c.nextId
    ensures i < |c.requests| && c.requests[i].id == id
  {
    hide RecordsOk, Shape, Order, UpOk, WireOk, ScanOk;
    assert Places(c)[id] == 1;
    if id !in Ids(c.requests) {
      var j := IdsHas(Gone(c.departed), id);
      assert c.departed[j].request.id == id;
      ServedBefore(c);
    }
    i := IdsHas(c.requests, id);
  }

  lemma ServedBefore(c: Conn)
    requires Core(c) && c.link.Up? && !c.closing && c.requests != []
    ensures forall i :: 0 <= i < |c.departed| ==> c.departed[i].request.id < c.requests[0].id
  {
    hide Shape, IdsOk, WireOk, ScanOk, RequestOk;
    forall i | 0 <= i < |c.departed| ensures c.departed[i].request.id < c.requests[0].id {
      assert FateOk(c.departed[i]);
    }
  }

  /** A call on another request leaves the front alone. */
  lemma {:induction false} AsideKeepsFront(c: Conn, s: Step, on: Handler)
    requires c.requests != [] && Answering(s) && s.id != c.requests[0].id
    ensures StepOn(c, s, on) == Next(c, s) && !StepDisturbed(c, s, on) && !OutOfTurn(c, s)
    ensures Next(c, s).requests != [] && Next(c, s).requests[0] == c.requests[0] && Next(c, s).closing == c.closing
  {
    StepSizes(c, s);
    AsideIs(c, s);
    hide Next;
  }

  lemma AsideIs(c: Conn, s: Step)
    requires c.requests != [] && Answering(s) && s.id != c.requests[0].id
    ensures Next(c, s).requests != [] && Next(c, s).requests[0] == c.requests[0] && Next(c, s).closing == c.closing
  {
    hide IndexOf, WriteNext, Take, ChunkTo, FinalTo;
    match s
    case StepRespond(id, r, _) =>
      if IndexOf(c.requests, id) < |c.requests| { TakeAside(c, IndexOf(c.requests, id), r); }
    case StepChunk(id, text) => ChunkAside(c, id, text);
    case StepFinal(id, text, drained) => FinalAside(c, id, text, drained);
    case _ =>
  }

  lemma TakeAside(c: Conn, k: nat, r: Response)
    requires 0 < k < |c.requests|
    ensures var d := Take(c, k, r); d.requests != [] && d.requests[0] == c.requests[0] && d.closing == c.closing
  {
    hide Taken;
  }

  lemma ChunkAside(c: Conn, id: nat, text: string)
    requires c.requests != [] && id != c.requests[0].id
    ensures var d := ChunkTo(c, id, text).0; d.requests != [] && d.requests[0] == c.requests[0] && d.closing == c.closing
  {
    hide IndexOf, CompletedBefore;
  }

  lemma FinalAside(c: Conn, id: nat, text: string, drained: bool)
    requires c.requests != [] && id != c.requests[0].id
    ensures var d := FinalTo(c, id, text, drained).0; d.requests != [] && d.requests[0] == c.requests[0] && d.closing == c.closing
  {
    hide IndexOf, CompletedBefore, Finish;
  }

  lemma {:induction false} AsidePlays(c: Conn, calls: seq<Step>, on: Handler)
    requires Between(c) && c.requests != [] && forall s :: s in calls && Answering(s) ==> s.id != c.requests[0].id
    ensures var d := PlayOn(c, calls, on);
      && !PlayDisturbed(c, calls, on) && Between(d) && d.requests != [] && d.requests[0] == c.requests[0]
    decreases |calls|
  {
    hide StepOn, StepDisturbed, Next, Inv, CanSend, ReadOk;
    if calls != [] {
      var s, rest := calls[0], calls[1..];
      if Answering(s) {
        AsideKeepsFront(c, s, on);
        if Inv(c) { AnsweringKeeps(c, s); } else { CallBetween(c, s); }
        AsidePlays(Next(c, s), rest, on);
      } else {
        AsidePlays(c, rest, on);
      }
    }
  }

  lemma {:induction false} FinishCalm(c: Conn, drained: bool, on: Handler)
    requires CanFinish(c) && Considerate(on)
    ensures !FinishDisturbed(c, drained, on)
    decreases |c.requests|, 0
  {
    if c.requests[0].done {
      var q := c.requests[0];
      var d := Depart(c, Answered);
      var e := PlayOn(d, on(q.id), on);
      if |c.requests| == 1 {
        NonePlayed(d, on(q.id), on);
      } else {
        NextUnwritten(c);
        DepartsBetween(c);
        hide CanFinish, Between, WriteDisturbed, Depart;
        AsidePlays(d, on(q.id), on);
        if e.requests[0].response.Some? {
          RestKeeps(e, drained);
          WriteCalm(e, drained, on);
        }
      }
    }
  }

  lemma NextUnwritten(c: Conn)
    requires CanFinish(c) && c.requests[0].done && |c.requests| > 1
    ensures var d := Depart(c, Answered);
      !c.closing && d.requests != [] && d.requests[0].id == c.requests[0].id + 1 && !d.requests[0].written
  {
    hide RecordsOk, IdsOk, Order, UpOk, WireOk, ScanOk, ReadOk;
    NextInLine(c);
  }

  lemma {:induction false} PassCalm(c: Conn, calls: seq<Step>, on: Handler)
    requires forall s :: s in calls && Answering(s) && c.requests != [] ==> s.id != c.requests[0].id
    ensures !PassReaches(c, calls, on)
    decreases |calls|
  {
    hide StepOn, Next;
    if calls != [] {
      if Answering(calls[0]) {
        QuietCall(c, calls[0], on);
        PassCalm(StepOn(c, calls[0], on), calls[1..], on);
      } else {
        PassCalm(c, calls[1..], on);
      }
    }
  }

  lemma {:induction false} DropCalm(c: Conn, on: Handler)
    requires Considerate(on) && InLine(c.requests)
    ensures !DropReaches(c, on)
    decreases |c.requests|
  {
    hide PassReaches, PlayOn, FateOfDrop;
    if c.requests != [] {
      var d := Depart(c, FateOfDrop(c.requests[0]));
      var calls := on(c.requests[0].id);
      PassCalm(d, calls, on);
      PassQuiet(d, calls, on);
      DropCalm(DropNextOn(c, on), on);
    }
  }

  lemma {:induction false} HeldCalm(f: Request, gathered: bool, calls: seq<Step>, queued: bool)
    requires f.response.Some? && forall s :: s in calls && Answering(s) ==> s.id != f.id
    ensures !PassHurts(f, gathered, calls, queued) && HeldCalls(f, calls, queued) == f
    decreases |calls|
  {
    if calls != [] { HeldCalm(f, gathered, calls[1..], queued); }
  }

  lemma {:induction false} DropHeldCalm(f: Request, gathered: bool, qs: seq<Request>, on: Handler)
    requires f.response.Some? && Considerate(on) && forall i :: 0 <= i < |qs| ==> f.id < qs[i].id
    ensures !DropHurts(f, gathered, qs, on)
    decreases |qs|
  {
    hide PassHurts, HeldCalls;
    if qs != [] {
      HeldCalm(f, gathered, on(qs[0].id), |qs| > 1);
      DropHeldCalm(f, gathered, qs[1..], on);
    }
  }

  lemma {:induction false} SendCalm(c: Conn, on: Handler)
    requires CanSend(c) && c.requests != [] && c.requests[0].response.Some? && Considerate(on)
    ensures !SendDisturbed(c, on)
  {
    var q := c.requests[0];
    if !KeepsOn(q) {
      CanSendLine(c);
      PoppedIs(c);
      hide CanSend, Popped, DropReaches, DropHurts, Considerate, Marked;
      DropCalm(Popped(c), on);
      MarkedIs(q);
      DropHeldCalm(Marked(q), Waiting(q) != [], c.requests[1..], on);
    }
  }

  lemma CanSendLine(c: Conn)
    requires CanSend(c)
    ensures InLine(c.requests[1..]) && forall i :: 0 <= i < |c.requests[1..]| ==> c.requests[0].id < c.requests[1..][i].id
  {
    hide RecordsOk, Shape, IdsOk, UpOk, WireOk, ScanOk;
    NextInLine(c);
    var rest := c.requests[1..];
    forall i | 0 <= i < |rest| - 1 ensures rest[i + 1].id == rest[i].id + 1 {
      assert rest[i] == c.requests[i + 1] && rest[i + 1] == c.requests[i + 2];
    }
  }

  lemma {:induction false} WriteCalm(c: Conn, drained: bool, on: Handler)
    requires CanSend(c) && ReadOk(c) && c.requests != [] && c.requests[0].response.Some? && Considerate(on)
    ensures !WriteDisturbed(c, drained, on)
    decreases |c.requests|, 1
  {
    hide CanSend, ReadOk, CanFinish, SentFront, SendFront, SendOn, Considerate, SendDisturbed, FinishDisturbed;
    SendCalm(c, on);
    var v := SendEarly(c, on);
    SendFrontKeeps(v);
    SendKeeps(v);
    if v.requests[0].response.value.completed {
      SentCanFinish(v);
      FinishCalm(SendFront(v), drained, on);
    }
  }

  lemma {:induction false} StepCalm(c: Conn, s: Step, on: Handler)
    requires Inv(c) && Considerate(on)
    ensures !StepDisturbed(c, s, on)
  {
    StepSizes(c, s);
    InTurn(c, s);
    if EndsFront(c, s) {
      EndedCanFinish(c, s);
      hide Inv, CanFinish, Ended;
      FinishCalm(Ended(c, s.text), s.drained, on);
    } else if AnswersFront(c, s) {
      GivenCanSend(c, s);
      hide Inv, CanSend, ReadOk, Given;
      WriteCalm(Given(c, s), s.drained, on);
    } else if EndsWaiting(c, s) {
      WaitingIsAlone(c, s, on);
      hide Inv, StepDisturbed;
    }
  }

  /** Users who are considerate disturb nothing: over every run the wire is in order and the invariant holds. */
  lemma {:induction false} ConsiderateIsCalm(maxKeepAlive: nat, steps: seq<Step>, on: Handler)
    requires EventLegal(NewConn(maxKeepAlive), steps, on) && Considerate(on)
    ensures AlwaysSound(NewConn(maxKeepAlive), steps, on)
    ensures Inv(EventRun(NewConn(maxKeepAlive), steps, on))
  {
    CalmRun(maxKeepAlive, steps, on);
    hide EventLegal, EventRun, Undisturbed, Inv, AlwaysSound;
    EventsInOrderIff(maxKeepAlive, steps, on);
  }

  lemma {:induction false} CalmRun(maxKeepAlive: nat, steps: seq<Step>, on: Handler)
    requires EventLegal(NewConn(maxKeepAlive), steps, on) && Considerate(on)
    ensures Undisturbed(NewConn(maxKeepAlive), steps, on)
  {
    hide Inv, StepOn, StepDisturbed, Enabled, Considerate, Tidy;
    if steps != [] {
      var before := steps[..|steps| - 1];
      CalmRun(maxKeepAlive, before, on);
      RunOrderly(maxKeepAlive, before, on);
      StepCalm(EventRun(NewConn(maxKeepAlive), before, on), steps[|steps| - 1], on);
    }
  }

  /** Over every run of module Connection the wire is in order: heads come first, nothing is written behind a
      response that closes the connection, and nothing of a response is missing. */
  lemma {:induction false} RunSound(maxKeepAlive: nat, steps: seq<Step>)
    requires Legal(NewConn(maxKeepAlive), steps)
    ensures Sound(Run(NewConn(maxKeepAlive), steps)) && Tidy(Run(NewConn(maxKeepAlive), steps))
  {
    var on: Handler := (id: nat) => [];
    var init := NewConn(maxKeepAlive);
    SilentRun(init, steps, on);
    CalmRun(maxKeepAlive, steps, on);
    RunOrderly(maxKeepAlive, steps, on);
    hide Legal, EventLegal, Run, EventRun, Undisturbed, Inv, Tidy, Sound;
    InvSound(Run(init, steps));
  }

  // ---------------------------------------------------------------- silent for a while

  lemma {:induction false} FinishSilent(c: Conn, drained: bool, on: Handler)
    requires CanFinish(c) && SilentFor(c.requests, on)
    ensures !FinishDisturbed(c, drained, on)
    decreases |c.requests|, 0
  {
    if c.requests[0].done {
      var d := Depart(c, Answered);
      assert PlayOn(d, [], on) == d && !PlayDisturbed(d, [], on);
      if !c.closing && d.requests != [] && d.requests[0].response.Some? {
        FinishDeparts(c);
        FinishHandsOver(c);
        assert SilentFor(d.requests, on);
        hide CanFinish, CanSend, WriteDisturbed;
        assert !d.requests[0].written by { CanSendUnwritten(d); }
        WriteSilent(d, drained, on);
      }
    }
  }

  lemma CanSendUnwritten(c: Conn)
    requires CanSend(c)
    ensures !c.requests[0].written
  {
  }

  lemma {:induction false} SendSilent(c: Conn, on: Handler)
    requires c.requests != [] && c.requests[0].response.Some? && SilentFor(c.requests, on)
    ensures !SendDisturbed(c, on)
  {
    if !KeepsOn(c.requests[0]) {
      PoppedIs(c);
      hide Popped, Marked;
      DropSilent(Popped(c), on);
      HeldSilent(Marked(c.requests[0]), Waiting(c.requests[0]) != [], c.requests[1..], on);
    }
  }

  lemma {:induction false} DropSilent(c: Conn, on: Handler)
    requires SilentFor(c.requests, on)
    ensures !DropReaches(c, on)
    decreases |c.requests|
  {
    hide FateOfDrop;
    if c.requests != [] {
      var d := Depart(c, FateOfDrop(c.requests[0]));
      assert PlayOn(d, [], on) == d && !PassReaches(d, [], on);
      DropSilent(d, on);
    }
  }

  lemma {:induction false} HeldSilent(f: Request, gathered: bool, qs: seq<Request>, on: Handler)
    requires f.response.Some? && SilentFor(qs, on)
    ensures !DropHurts(f, gathered, qs, on)
    decreases |qs|
  {
    if qs != [] {
      assert HeldCalls(f, [], |qs| > 1) == f && !PassHurts(f, gathered, [], |qs| > 1);
      HeldSilent(f, gathered, qs[1..], on);
    }
  }

  lemma {:induction false} WriteSilent(c: Conn, drained: bool, on: Handler)
    requires CanSend(c) && ReadOk(c) && c.requests != [] && c.requests[0].response.Some? && SilentFor(c.requests, on)
    ensures !WriteDisturbed(c, drained, on)
    decreases |c.requests|, 1
  {
    hide CanSend, ReadOk, CanFinish, SentFront, SendFront, SendOn, SendDisturbed, FinishDisturbed;
    SendSilent(c, on);
    SilentSend(c, on);
    SendFrontKeeps(c);
    SendKeeps(c);
    if c.requests[0].response.value.completed {
      SentCanFinish(c);
      StillSilent(c, on);
      FinishSilent(SendFront(c), drained, on);
    }
  }

  // ---------------------------------------------------------------- answering the next request

  /** Answers flow from the front up to one that cannot leave: it is still open, or its request has not been
      received. No head on the way closes the connection. */
  predicate StopsAtAnswer(qs: seq<Request>)
    decreases |qs|
  {
    && qs != [] && KeepsOn(qs[0])
    && (qs[0].response.value.completed && qs[0].done ==> StopsAtAnswer(qs[1..]))
  }

  /** finish_request would write the front. */
  predicate WouldWrite(c: Conn) {
    !c.closing && !c.stopping && c.requests != [] && c.requests[0].response.Some?
  }

  lemma {:induction false} FinishStops(c: Conn, drained: bool)
    requires c.requests != [] && !c.closing && !c.stopping && c.requests[0].response.Some?
    ensures WouldWrite(Finish(c, drained)) <==> !c.requests[0].done || StopsAtAnswer(c.requests[1..])
    decreases |c.requests|, 0
  {
    hide WriteNext;
    if c.requests[0].done {
      var d := Depart(c, Answered);
      if d.requests != [] && d.requests[0].response.Some? { WriteStops(d, drained); }
    }
  }

  lemma {:induction false} WriteStops(c: Conn, drained: bool)
    requires c.requests != [] && c.requests[0].response.Some? && !c.closing && (c.stopping ==> !c.requests[0].response.value.keepAlive)
    ensures WouldWrite(WriteNext(c, drained)) <==> StopsAtAnswer(c.requests)
    decreases |c.requests|, 1
  {
    WriteNextIs(c, drained);
    SendFrontLeaves(c);
    SendFrontCloses(c);
    hide SendFront, WriteNext, Finish;
    var e := SendFront(c);
    if KeepsOn(c.requests[0]) {
      SendFrontQueue(c);
      if c.requests[0].response.value.completed { FinishStops(e, drained); }
    } else if c.requests[0].response.value.completed {
      FinishGrows(e, drained);
    }
  }

  lemma SendFrontQueue(c: Conn)
    requires c.requests != [] && KeepsOn(c.requests[0])
    ensures var d := SendFront(c);
      && |d.requests| == |c.requests| && d.requests[1..] == c.requests[1..]
      && d.requests[0].response.Some? && d.requests[0].done == c.requests[0].done && !(d.closing && !c.closing)
  {
    hide ToVector, Chunks;
  }

  /** Answers flow from the front up to a head that closes the connection, and this answer cannot leave. */
  predicate ClosesAtAnswer(qs: seq<Request>)
    decreases |qs|
  {
    && qs != [] && qs[0].response.Some?
    && if qs[0].response.value.completed && qs[0].done then KeepsOn(qs[0]) && ClosesAtAnswer(qs[1..]) else !KeepsOn(qs[0])
  }

  /** finish_request would shut the connection down with requests in its queue: its assertion fails. */
  predicate WouldCutOff(c: Conn) {
    (c.closing || c.stopping) && c.requests != []
  }

  lemma {:induction false} FinishCutsOff(c: Conn, drained: bool)
    requires c.requests != [] && !c.closing && !c.stopping
    ensures WouldCutOff(Finish(c, drained)) <==> c.requests[0].done && ClosesAtAnswer(c.requests[1..])
    decreases |c.requests|, 0
  {
    hide WriteNext;
    if c.requests[0].done {
      var d := Depart(c, Answered);
      if d.requests != [] && d.requests[0].response.Some? { WriteCutsOff(d, drained); }
    }
  }

  lemma {:induction false} WriteCutsOff(c: Conn, drained: bool)
    requires c.requests != [] && c.requests[0].response.Some? && !c.closing && (c.stopping ==> !c.requests[0].response.value.keepAlive)
    ensures WouldCutOff(WriteNext(c, drained)) <==> ClosesAtAnswer(c.requests)
    decreases |c.requests|, 1
  {
    WriteNextIs(c, drained);
    SendFrontLeaves(c);
    SendFrontCloses(c);
    hide SendFront, WriteNext, Finish;
    var e := SendFront(c);
    if KeepsOn(c.requests[0]) {
      SendFrontQueue(c);
      if c.requests[0].response.value.completed { FinishCutsOff(e, drained); }
    } else {
      SendFrontAlone(c);
      if c.requests[0].response.value.completed { FinishClosing(e, drained); }
    }
  }

  lemma SendFrontAlone(c: Conn)
    requires c.requests != [] && c.requests[0].response.Some? && !KeepsOn(c.requests[0])
    ensures var d := SendFront(c); d.closing && |d.requests| == 1 && d.requests[0].done == c.requests[0].done
  {
    hide ToVector, Chunks, Drops;
  }

  lemma {:induction false} FinishClosing(c: Conn, drained: bool)
    requires c.closing && |c.requests| == 1
    ensures WouldCutOff(Finish(c, drained)) <==> !c.requests[0].done
  {
  }

  /** In every reachable state: when the front's response ends and its finish_event answers the next request,
      and nothing else is called in any notification, then the wire gets out of order if and only if the
      server is not stopping and the answers that now flow stop at one that cannot leave; and the assertion in
      finish_request fails if and only if they stop at one that cannot leave and whose head closes the connection. */
  lemma {:induction false} AnswerNextIff(maxKeepAlive: nat, steps: seq<Step>, s: Step, r: Response, drained: bool, on: Handler)
    requires Legal(NewConn(maxKeepAlive), steps)
    requires var c := Run(NewConn(maxKeepAlive), steps);
      EndsFront(c, s) && |c.requests| > 1 && c.requests[1].response.None?
      && on(c.requests[0].id) == [StepRespond(c.requests[1].id, r, drained)] && SilentFor(c.requests[1..], on)
    ensures var c := Run(NewConn(maxKeepAlive), steps);
      && (Sound(StepOn(c, s, on)) <==> c.stopping || !StopsAtAnswer(AnsweredBehind(c, r)))
      && (WouldCutOff(Notified(c, s, on)) <==> ClosesAtAnswer(AnsweredBehind(c, r)))
  {
    RunKeeps(maxKeepAlive, steps);
    RunSound(maxKeepAlive, steps);
    var c := Run(NewConn(maxKeepAlive), steps);
    hide Legal, Run, Inv, Tidy, Sound, Spoilt, StepOn, StepDisturbed, AnsweredBehind, StopsAtAnswer, ClosesAtAnswer, Notified, WouldCutOff;
    CallKeeps(c, s, on);
    if StepDisturbed(c, s, on) { SpoiltUnsound(StepOn(c, s, on)); } else { InvSound(StepOn(c, s, on)); }
    AnswersNext(c, s, r, drained, on);
  }

  /** The front's response has ended, and its finish_event has been fired. */
  function Notified(c: Conn, s: Step, on: Handler): Conn
    requires EndsFront(c, s)
  {
    StepSizes(c, s);
    PlayOn(Depart(Ended(c, s.text), Answered), on(c.requests[0].id), on)
  }

  /** The queue behind the front once the next request has been given its answer. */
  function AnsweredBehind(c: Conn, r: Response): seq<Request>
    requires |c.requests| > 1
  {
    Take(c.(requests := c.requests[1..]), 0, r).requests
  }

  lemma {:induction false} AnswersNext(c: Conn, s: Step, r: Response, drained: bool, on: Handler)
    requires Inv(c) && EndsFront(c, s) && |c.requests| > 1 && c.requests[1].response.None?
    requires on(c.requests[0].id) == [StepRespond(c.requests[1].id, r, drained)] && SilentFor(c.requests[1..], on)
    ensures StepDisturbed(c, s, on) <==> !c.stopping && StopsAtAnswer(AnsweredBehind(c, r))
    ensures WouldCutOff(Notified(c, s, on)) <==> ClosesAtAnswer(AnsweredBehind(c, r))
  {
    var e := Ended(c, s.text);
    var d := Depart(e, Answered);
    var call := StepRespond(c.requests[1].id, r, drained);
    EndedCanFinish(c, s);
    EndedRest(c, s, r);
    DepartsBetween(e);
    hide Inv, CanSend, ReadOk, CanFinish, Ended, Depart, StopsAtAnswer, ClosesAtAnswer, WouldCutOff, AnsweredBehind, SilentFor, WriteNext, WriteOn, WriteDisturbed;
    AnswersBetween(d, call, on) by { hide Between; SilentRest(c, d, on); }
    InTurn(c, s);
    StepSizes(c, s);
    StoppingStays(d, call);
  }

  lemma SilentRest(c: Conn, d: Conn, on: Handler)
    requires |c.requests| > 1 && SilentFor(c.requests[1..], on) && d.requests == c.requests[1..]
    ensures SilentFor(d.requests, on)
  {
  }

  lemma StoppingStays(d: Conn, call: Step)
    requires AnswersFront(d, call)
    ensures d.stopping ==> WriteNext(Given(d, call), call.drained).stopping
  {
    GivenIs(d, call);
    StepGrows(d, call);
  }

  lemma EndedRest(c: Conn, s: Step, r: Response)
    requires Inv(c) && EndsFront(c, s) && |c.requests| > 1
    ensures var e := Ended(c, s.text);
      var d := Depart(e, Answered);
      && e.requests != [] && e.requests[0].done && e.requests[0].id == c.requests[0].id && !e.closing
      && d.requests == c.requests[1..] && !d.closing && d.stopping == c.stopping
      && Take(d, 0, r).requests == AnsweredBehind(c, r)
  {
    hide RecordsOk, IdsOk, Order, UpOk, WireOk, ScanOk, ReadOk;
  }

  /** One answer in finish_event. */
  lemma {:induction false} AnswersBetween(d: Conn, call: Step, on: Handler)
    requires Between(d) && d.requests != [] && d.requests[0].response.None? && !d.closing && SilentFor(d.requests, on)
    requires call.StepRespond? && call.id == d.requests[0].id
    ensures AnswersFront(d, call)
    ensures var f := WriteNext(Given(d, call), call.drained);
      && PlayOn(d, [call], on) == f && !PlayDisturbed(d, [call], on)
      && (WouldWrite(f) ==> f.requests[0].written)
      && (WouldWrite(f) <==> StopsAtAnswer(Take(d, 0, call.response).requests))
      && (WouldCutOff(f) <==> ClosesAtAnswer(Take(d, 0, call.response).requests))
  {
    BetweenOpen(d);
    GivenCanSend(d, call);
    InTurn(d, call);
    StepSizes(d, call);
    PlaysOne(d, call, on);
    var t := Given(d, call);
    GivenSilent(d, call, on);
    hide Inv, Between, CanSend, ReadOk, Take, StopsAtAnswer, ClosesAtAnswer, SilentFor, OutOfTurn, WouldWrite, WouldCutOff, Given;
    SilentWrite(t, call.drained, on);
    WriteNextKeeps(t, call.drained);
    var f := WriteNext(t, call.drained);
    CanSendUp(t);
    WriteSilent(t, call.drained, on);
    WriteStops(t, call.drained);
    WriteCutsOff(t, call.drained);
    InvWritten(f);
  }

  lemma GivenSilent(d: Conn, call: Step, on: Handler)
    requires AnswersFront(d, call) && call.StepRespond? && SilentFor(d.requests, on)
    ensures SilentFor(Given(d, call).requests, on) && Given(d, call) == Take(d, 0, call.response)
  {
    hide Taken;
    var t := Take(d, 0, call.response);
    forall q | q in t.requests ensures on(q.id) == [] {
      var i :| 0 <= i < |t.requests| && t.requests[i] == q;
      assert d.requests[i] in d.requests && d.requests[i].id == q.id;
    }
  }

  lemma BetweenOpen(c: Conn)
    requires Between(c) && c.requests != [] && c.requests[0].response.None?
    ensures Inv(c)
  {
    hide Inv, Core, ReadOk;
  }

  lemma InvWritten(c: Conn)
    requires Inv(c)
    ensures WouldWrite(c) ==> c.requests[0].written
  {
    hide Core, ReadOk, CloseOk;
  }

  lemma {:induction false} PlaysOne(c: Conn, s: Step, on: Handler)
    requires Answering(s)
    ensures PlayOn(c, [s], on) == StepOn(c, s, on)
    ensures PlayDisturbed(c, [s], on) == StepDisturbed(c, s, on)
  {
    hide StepOn, StepDisturbed;
    assert [s][1..] == [];
  }
}

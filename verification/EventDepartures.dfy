/** Runs in which calls in notifications disturb the wire or cut off a response. When they do so in general is
    proved in Disturbances and Considerate. */
module EventDepartures {
  import opened Options
  import opened Wire
  import opened Connection
  import opened Invariant
  import opened Serving
  import opened Lifetime
  import opened Recursion
  import opened Events
  import opened Disturbances
  import opened Considerate
  import opened Departures

  // ---------------------------------------------------------------- calls in finish_event

  /** While request 0 leaves, a streamed response to the next request is begun. */
  const BeginsNext: Handler := (id: nat) => if id == 0 then [StepRespond(1, Streamed, false)] else []

  /** While request 0 leaves, the streamed response to the next request, begun before, is ended. */
  const EndsNext: Handler := (id: nat) => if id == 0 then [StepFinal(1, "bye", false)] else []

  const TwoHeadsRun: seq<Step> := StreamingRun + [StepFinal(0, "", false)]
  const NoHeadRun: seq<Step> := StreamingRun + [StepRespond(1, Streamed, false)] + [StepFinal(0, "", false)]

  lemma {:induction false} EventStep(c: Conn, steps: seq<Step>, s: Step, on: Handler)
    requires EventLegal(c, steps, on) && Enabled(EventRun(c, steps, on), s)
    ensures EventLegal(c, steps + [s], on) && EventRun(c, steps + [s], on) == StepOn(EventRun(c, steps, on), s, on)
  {
    hide StepOn, Enabled;
    var all := steps + [s];
    assert all[..|all| - 1] == steps && all[|all| - 1] == s;
  }

  /** An open response of the only request is sent as in module Connection. */
  lemma {:induction false} OpenAlone(c: Conn, on: Handler)
    requires |c.requests| == 1 && c.requests[0].response.Some? && !c.requests[0].response.value.completed
    ensures WriteOn(c, false, on) == SendFront(c)
  {
    SendKeeps(c);
    SilentSend(c, on);
    hide SendOn, SendFront;
  }

  /** The next request has no head on the wire. */
  lemma NextHeadless(c: Conn)
    requires Inv(c) && StreamingPair(c)
    ensures Heads(c.wire, 1) == 0
  {
    hide IdsOk, Order, UpOk, WireOk, ScanOk, RecordsOk;
    assert History(c)[|c.departed| + 1] == c.requests[1];
    OneHead(c, c.requests[1]);
  }

  /** The next request is the front, and its response is streamed or not begun. */
  ghost predicate NextInFront(c: Conn, streams: bool) {
    && c.link.Up? && !c.closing && !c.stopping && c.maxKeepAlive == 0 && |c.requests| == 1
    && c.requests[0].id == 1 && c.requests[0].header.keepAlive
    && c.requests[0].response == if streams then Some(Streamed) else None
  }

  const NextHead := Head(1, 200, true, true)

  lemma HeadWritten(c: Conn)
    requires NextInFront(c, true)
    ensures NextInFront(SendFront(c), true) && SendFront(c).wire == c.wire + [NextHead]
  {
    assert Chunks(1, []) == [];
  }

  lemma {:induction false} BeginsBetween(c: Conn)
    requires NextInFront(c, false)
    ensures var d := PlayOn(c, BeginsNext(0), BeginsNext);
      NextInFront(d, true) && d.wire == c.wire + [NextHead]
  {
    var call := StepRespond(1, Streamed, false);
    PlaysOne(c, call, BeginsNext);
    var t := Take(c, 0, Streamed);
    assert AnswersFront(c, call) && Given(c, call) == t && NextInFront(t, true);
    HeadWritten(t);
    OpenAlone(t, BeginsNext);
    hide SendFront, Take, WriteOn;
  }

  lemma {:induction false} WritesTwice(c: Conn)
    requires StreamingPair(c) && c.maxKeepAlive == 0 && c.requests[1].response.None? && Heads(c.wire, 1) == 0
    ensures Heads(StepOn(c, StepFinal(0, "", false), BeginsNext).wire, 1) == 2
  {
    var d := Depart(Ended(c, ""), Answered);
    assert NextInFront(d, false) && d.wire == c.wire + [Final(0, "")];
    BeginsBetween(d);
    var f := PlayOn(d, BeginsNext(0), BeginsNext);
    HeadWritten(f);
    OpenAlone(f, BeginsNext);
    hide SendFront, PlayOn, Heads, WriteOn;
    assert FinishOn(Ended(c, ""), false, BeginsNext) == WriteOn(f, false, BeginsNext);
    HeadsAfter(c.wire, Final(0, ""));
    HeadsAfter(d.wire, NextHead);
    HeadsAfter(f.wire, NextHead);
  }

  lemma {:induction false} HeadsAfter(a: seq<Frame>, f: Frame)
    ensures Heads(a + [f], 1) == Heads(a, 1) + if f.Head? && f.id == 1 then 1 else 0
  {
    assert (a + [f])[..|a|] == a;
  }

  /** In this run finish_request writes the head of a response that its finish_event has begun a second time. */
  lemma TwoHeads()
    ensures EventLegal(NewConn(0), TwoHeadsRun, BeginsNext)
    ensures Heads(EventRun(NewConn(0), TwoHeadsRun, BeginsNext).wire, 1) == 2
  {
    hide StepOn, Inv, StreamingPair, Run, EventRun, Legal, EventLegal, Heads;
    StreamingRunIs();
    NobodyLeft(0, StreamingRun, BeginsNext);
    var c := Run(NewConn(0), StreamingRun);
    RunKeeps(0, StreamingRun);
    NextHeadless(c);
    WritesTwice(c);
    QuietEnds(c);
    EventStep(NewConn(0), StreamingRun, StepFinal(0, "", false), BeginsNext);
  }

  lemma QuietEnds(c: Conn)
    ensures Enabled(c, StepFinal(0, "", false)) && Enabled(c, StepRespond(1, Streamed, false))
  {
  }

  lemma {:induction false} WritesNone(c: Conn)
    requires StreamingPair(c) && c.requests[1].response == Some(Streamed) && Heads(c.wire, 1) == 0
    ensures var d := StepOn(c, StepFinal(0, "", false), EndsNext);
      && d.wire == c.wire + [Final(0, "")] + [Final(1, "bye")] && Heads(d.wire, 1) == 0
      && |d.departed| == 2 && d.departed[1].request.id == 1 && d.departed[1].fate == Answered
  {
    var d := Depart(Ended(c, ""), Answered);
    var call := StepFinal(1, "bye", false);
    PlaysOne(d, call, EndsNext);
    assert d.requests == [c.requests[1]] && EndsFront(d, call);
    var e := Ended(d, "bye");
    var f := Depart(e, Answered);
    assert f.requests == [];
    NonePlayed(f, [], EndsNext);
    assert PlayOn(d, [call], EndsNext) == CheckIdle(f, false);
    HeadsAfter(c.wire, Final(0, ""));
    HeadsAfter(c.wire + [Final(0, "")], Final(1, "bye"));
  }

  /** In this run a last chunk is written for a response without a head, and its request counts as answered. */
  lemma NoHeadAtAll()
    ensures EventLegal(NewConn(0), NoHeadRun, EndsNext)
    ensures var c := EventRun(NewConn(0), NoHeadRun, EndsNext);
      && Final(1, "bye") in c.wire && Heads(c.wire, 1) == 0
      && |c.departed| == 2 && c.departed[1].request.id == 1 && c.departed[1].fate == Answered
  {
    hide StepOn, Inv, Run, EventRun, Legal, EventLegal, Heads, Next;
    StreamingRunIs();
    var c := Run(NewConn(0), StreamingRun);
    var steps := StreamingRun + [StepRespond(1, Streamed, false)];
    PairRespond(c);
    QuietEnds(c);
    RunStep(NewConn(0), StreamingRun, StepRespond(1, Streamed, false));
    NobodyLeft(0, steps, EndsNext);
    var d := Run(NewConn(0), steps);
    RunKeeps(0, steps);
    NextHeadless(d);
    WritesNone(d);
    QuietEnds(d);
    EventStep(NewConn(0), steps, StepFinal(0, "", false), EndsNext);
  }

  /** While request 0 leaves, a streamed response without keep-alive to the next request is begun. */
  const ClosesNext: Handler := (id: nat) => if id == 0 then [StepRespond(1, Streamed.(keepAlive := false), false)] else []

  /** The last front departs and the next one has its head on the wire, which says that the connection closes. */
  ghost predicate ClosingNext(c: Conn) {
    && c.closing && |c.requests| == 1 && |c.departed| == 1
    && c.requests[0].id == 1 && c.requests[0].done && c.requests[0].written
    && c.requests[0].response.Some? && !c.requests[0].response.value.completed
  }

  lemma {:induction false} ClosesBetween(c: Conn)
    requires NextInFront(c, false) && c.requests[0].done && |c.departed| == 1
    ensures ClosingNext(PlayOn(c, ClosesNext(0), ClosesNext))
  {
    var call := StepRespond(1, Streamed.(keepAlive := false), false);
    PlaysOne(c, call, ClosesNext);
    var t := Take(c, 0, call.response);
    assert AnswersFront(c, call) && Given(c, call) == t;
    OpenAlone(t, ClosesNext);
    assert SendFront(t).requests == [Marked(t.requests[0])];
  }

  /** In this run the assertion of finish_request fails for a response that its finish_event has begun, and the
      request is dropped in the middle of its response. */
  lemma CutsOffNext()
    ensures EventLegal(NewConn(0), TwoHeadsRun, ClosesNext)
    ensures var c := EventRun(NewConn(0), TwoHeadsRun, ClosesNext);
      && |c.departed| == 2 && c.departed[1].request.id == 1 && c.departed[1].request.written
      && c.departed[1].fate == Dropped(DropEvent)
  {
    hide StepOn, Run, EventRun, Legal, EventLegal;
    StreamingRunIs();
    NobodyLeft(0, StreamingRun, ClosesNext);
    var c := Run(NewConn(0), StreamingRun);
    CutsOff(c);
    QuietEnds(c);
    EventStep(NewConn(0), StreamingRun, StepFinal(0, "", false), ClosesNext);
  }

  lemma {:induction false} CutsOff(c: Conn)
    requires StreamingPair(c) && c.maxKeepAlive == 0 && c.requests[1].response.None?
    ensures var d := StepOn(c, StepFinal(0, "", false), ClosesNext);
      && |d.departed| == 2 && d.departed[1].request.id == 1 && d.departed[1].request.written
      && d.departed[1].fate == Dropped(DropEvent)
  {
    var d := Depart(Ended(c, ""), Answered);
    assert NextInFront(d, false) && d.requests[0].done && |d.departed| == 1;
    ClosesBetween(d);
    hide PlayOn, Ended;
    assert FinishOn(Ended(c, ""), false, ClosesNext) == Shutdown(PlayOn(d, ClosesNext(0), ClosesNext)) by { EndedZero(c); }
  }

  lemma EndedZero(c: Conn)
    requires StreamingPair(c)
    ensures Ended(c, "").requests != [] && Ended(c, "").requests[0].done && Ended(c, "").requests[0].id == 0
  {
  }

  // ---------------------------------------------------------------- calls while requests are dropped

  /** Three whole requests arrive. */
  const ThreeRun: seq<Step> :=
    [WholeRequest] + [StepTail(false)] + [WholeRequest] + [StepTail(false)] + [WholeRequest] + [StepTail(false)]

  ghost predicate Whole1(q: Request, id: nat) {
    q.id == id && q.done && q.header == KeepAlive && q.response.None? && !q.finishOnReceive && q.calls == []
  }

  /** Requests 0, 1, ... wait, received and unanswered. */
  ghost predicate Three(c: Conn, n: nat, phase: Phase) {
    && c.link.Up? && !c.closing && !c.stopping && c.maxKeepAlive == 0 && !c.readIgnored && c.parsing.None?
    && c.wire == [] && c.departed == [] && c.phase == phase && c.nextId == n
    && |c.requests| == n && forall i :: 0 <= i < n ==> Whole1(c.requests[i], i)
  }

  lemma OneMore(c: Conn, n: nat)
    requires Three(c, n, Quiet)
    ensures Enabled(c, WholeRequest) && Three(Next(c, WholeRequest), n + 1, InLoop(n, true, true))
  {
    var id := c.nextId;
    assert Admit(c.(timer := false, nextId := id + 1, parsing := None), id, KeepAlive).requests == c.requests + [NewRequest(id, KeepAlive)];
  }

  lemma OneEnds(c: Conn, n: nat)
    requires n > 0 && Three(c, n, InLoop(n - 1, true, true))
    ensures Enabled(c, StepTail(false)) && Three(Next(c, StepTail(false)), n, Quiet)
  {
    hide Finish;
    assert forall q :: q in c.requests ==> !q.finishOnReceive;
  }

  lemma ThreeIs()
    ensures Legal(NewConn(0), ThreeRun) && Three(Run(NewConn(0), ThreeRun), 3, Quiet)
  {
    hide Next, Enabled, Run, Legal;
    var c := NewConn(0);
    var steps: seq<Step> := [];
    assert Legal(c, steps) && Run(c, steps) == c by { EmptyRun(c); }
    for n := 0 to 3
      invariant Legal(c, steps) && Three(Run(c, steps), n, Quiet)
      invariant steps == (if n == 0 then [] else if n == 1 then [WholeRequest] + [StepTail(false)]
        else if n == 2 then [WholeRequest] + [StepTail(false)] + [WholeRequest] + [StepTail(false)] else ThreeRun)
    {
      OneMore(Run(c, steps), n);
      RunStep(c, steps, WholeRequest);
      steps := steps + [WholeRequest];
      OneEnds(Run(c, steps), n + 1);
      RunStep(c, steps, StepTail(false));
      steps := steps + [StepTail(false)];
    }
  }

  lemma {:induction false} EmptyRun(c: Conn)
    ensures Legal(c, []) && Run(c, []) == c
  {
  }

  const Last: Response := Plain.(keepAlive := false)

  /** While request 1 is dropped behind a closing response, request 2 is answered. */
  const AnswersLate: Handler := (id: nat) => if id == 1 then [StepRespond(2, Plain, false)] else []

  const BehindRun: seq<Step> := ThreeRun + [StepRespond(0, Last, false)]

  /** While request 1 is dropped behind a streamed closing response, a chunk of that response is given. */
  const GivesLate: Handler := (id: nat) => if id == 1 then [StepChunk(0, "late")] else []

  const LostRun: seq<Step> := ThreeRun + [StepRespond(0, Closing0, false)] + [StepFinal(0, "", false)]

  /** The closing response of request 0 has been taken, and its head, or all of it, is written. */
  ghost predicate Dropping0(b: Conn) {
    && b.link.Up? && b.closing && !b.stopping && b.maxKeepAlive == 0 && b.departed == []
    && |b.requests| == 2 && Whole1(b.requests[0], 1) && Whole1(b.requests[1], 2)
  }

  lemma TakesLast(c: Conn, r: Response)
    requires Three(c, 3, Quiet) && !r.keepAlive
    ensures var s := StepRespond(0, r, false);
      var t := Take(c, 0, r);
      && Enabled(c, s) && AnswersFront(c, s) && Given(c, s) == t && !KeepsOn(t.requests[0]) && Dropping0(Popped(t))
      && t.requests[0].id == 0 && t.requests[0].done && t.requests[0].response == Some(r.(completed := Whole(r)))
      && t.requests[0].calls == [Respond(r.(completed := Whole(r)))] && t.wire == []
  {
    var t := Take(c, 0, r);
    assert t.requests[1..] == [c.requests[1], c.requests[2]];
    hide ToVector;
  }

  /** Request 1 leaves, and request 2 is the front. */
  ghost predicate OneLeft(d: Conn, b: Conn) {
    && d.link.Up? && d.closing && !d.stopping && d.maxKeepAlive == 0 && d.wire == b.wire
    && |d.requests| == 1 && Whole1(d.requests[0], 2)
    && |d.departed| == 1 && d.departed[0].request.id == 1 && d.departed[0].fate == Dropped(DropEvent)
  }

  lemma LeavesFirst(b: Conn)
    requires Dropping0(b)
    ensures OneLeft(Depart(b, FateOfDrop(b.requests[0])), b)
  {
  }

  const Behind: seq<Frame> := [Head(2, 200, true, false), Frame.Body(2, "x")]

  /** Request 2 is answered on the closing connection. */
  lemma {:induction false} AnsweredBehindClose(d: Conn, b: Conn, f: Request)
    requires OneLeft(d, b) && f.response.Some? && f.id == 0
    ensures var e := PlayOn(d, AnswersLate(1), AnswersLate);
      && e.requests == [] && e.closing && e.link.Shut? && e.wire == b.wire + Behind
      && |e.departed| == 2 && e.departed[0] == d.departed[0] && e.departed[1].request.id == 2 && e.departed[1].fate == Answered
    ensures HeldPlay(d, f, AnswersLate(1), AnswersLate) == f
  {
    var call := StepRespond(2, Plain, false);
    var u := Take(d, 0, Plain);
    assert AnswersFront(d, call) && Given(d, call) == u && KeepsOn(u.requests[0]);
    PlaysOne(d, call, AnswersLate);
    assert SendFront(u).wire == b.wire + Behind by { assert Join(["x"]) == "x"; }
    WritesBehind(u, f);
    hide SendFront, Take;
    assert [call][1..] == [];
  }

  lemma {:induction false} WritesBehind(u: Conn, f: Request)
    requires |u.requests| == 1 && KeepsOn(u.requests[0]) && u.requests[0].response.value.completed && u.requests[0].done
    requires u.closing && u.link.Up? && u.requests[0].id == 2 && f.response.Some?
    ensures var e := WriteOn(u, false, AnswersLate);
      && e.requests == [] && e.closing && e.link.Shut? && e.wire == SendFront(u).wire
      && |e.departed| == |u.departed| + 1 && e.departed[..|u.departed|] == u.departed
      && e.departed[|u.departed|].request.id == 2 && e.departed[|u.departed|].fate == Answered
    ensures HeldWrite(u, f, false, AnswersLate) == f
  {
    SendKeeps(u);
    var e := SendFront(u);
    assert e.requests == [Marked(u.requests[0])] && e.departed == u.departed && e.link.Up? && e.closing;
    assert e.requests[0].done && e.requests[0].id == 2;
    hide SendFront, Marked;
    var d := Depart(e, Answered);
    assert PlayOn(d, [], AnswersLate) == d && HeldPlay(d, f, [], AnswersLate) == f;
  }

  /** In this run a response is written behind the one that closes the connection. */
  lemma BehindClose()
    ensures EventLegal(NewConn(0), BehindRun, AnswersLate)
    ensures var c := EventRun(NewConn(0), BehindRun, AnswersLate);
      && c.wire == [Head(0, 200, false, false), Frame.Body(0, "x")] + Behind
      && |c.departed| == 3
      && c.departed[0].request.id == 1 && c.departed[0].fate == Dropped(DropEvent)
      && c.departed[1].request.id == 2 && c.departed[1].fate == Answered
      && c.departed[2].request.id == 0 && c.departed[2].fate == Answered
  {
    hide StepOn, Run, EventRun, Legal, EventLegal, Three, Next;
    ThreeIs();
    var c := Run(NewConn(0), ThreeRun);
    assert c.departed == [] by { ThreeNobody(c); }
    NobodyLeft(0, ThreeRun, AnswersLate);
    TakesLast(c, Last);
    AnsweredLate(c);
    EventStep(NewConn(0), ThreeRun, StepRespond(0, Last, false), AnswersLate);
  }

  lemma ThreeNobody(c: Conn)
    requires Three(c, 3, Quiet)
    ensures c.departed == []
  {
  }

  lemma {:induction false} AnsweredLate(c: Conn)
    requires Three(c, 3, Quiet)
    ensures var d := StepOn(c, StepRespond(0, Last, false), AnswersLate);
      && d.wire == [Head(0, 200, false, false), Frame.Body(0, "x")] + Behind
      && |d.departed| == 3
      && d.departed[0].request.id == 1 && d.departed[0].fate == Dropped(DropEvent)
      && d.departed[1].request.id == 2 && d.departed[1].fate == Answered
      && d.departed[2].request.id == 0 && d.departed[2].fate == Answered
  {
    TakesLast(c, Last);
    var t := Take(c, 0, Last);
    var b := Popped(t);
    assert b.wire == [Head(0, 200, false, false), Frame.Body(0, "x")] by { assert Join(["x"]) == "x"; }
    var f := Marked(t.requests[0]);
    assert f.id == 0 && f.done && f.response.value.completed;
    LeavesFirst(b);
    var d := Depart(b, FateOfDrop(b.requests[0]));
    AnsweredBehindClose(d, b, f);
    hide Three, Take, Popped, Marked, PlayOn, HeldPlay, FateOfDrop, OneLeft;
    LateEnds(t, b, d, f);
  }

  lemma {:induction false} LateEnds(t: Conn, b: Conn, d: Conn, f: Request)
    requires t.requests != [] && t.requests[0].response.Some? && !KeepsOn(t.requests[0]) && t.requests[0].response.value.completed
    requires b == Popped(t) && f == Marked(t.requests[0]) && f.id == 0 && f.done && f.response.Some? && f.response.value.completed
    requires b.requests != [] && b.requests[0].id == 1 && d == Depart(b, FateOfDrop(b.requests[0]))
    requires var e := PlayOn(d, AnswersLate(1), AnswersLate); e.requests == [] && e.closing && e.link.Shut?
    requires HeldPlay(d, f, AnswersLate(1), AnswersLate) == f
    ensures var e := PlayOn(d, AnswersLate(1), AnswersLate);
      var w := WriteOn(t, false, AnswersLate);
      w.wire == e.wire && w.departed == e.departed + [Departure(f, Answered)]
  {
    hide Popped, Marked, PlayOn, HeldPlay, FateOfDrop, KeepsOn;
    var e := PlayOn(d, AnswersLate(1), AnswersLate);
    assert DropOn(e, AnswersLate) == e && HeldDrop(e, f, AnswersLate) == f;
    assert DropNextOn(b, AnswersLate) == e;
    assert DropOn(b, AnswersLate) == e && HeldDrop(b, f, AnswersLate) == f;
    var w := SendOn(t, AnswersLate);
    assert [f] + e.requests == [f];
    assert w == e.(requests := [f]);
    var x := Depart(w, Answered);
    assert x.requests == [];
    NonePlayed(x, AnswersLate(0), AnswersLate);
  }

  // ---------------------------------------------------------------- a piece that is lost

  const Closing0: Response := Streamed.(keepAlive := false)

  /** The head of request 0 is written and says that the connection closes; a piece is left in its response. */
  ghost predicate LeftOver(c: Conn) {
    && c.link.Up? && c.closing && c.phase.Quiet? && c.wire == [Head(0, 200, false, true)] && |c.departed| == 2
    && |c.requests| == 1 && c.requests[0].id == 0 && c.requests[0].done && !c.requests[0].response.None?
    && !c.requests[0].response.value.completed && c.requests[0].response.value.parts == ["late"]
    && c.requests[0].calls == [Respond(Closing0), SendChunk("late")]
  }

  lemma {:induction false} GivenLate(c: Conn)
    requires Three(c, 3, Quiet)
    ensures LeftOver(StepOn(c, StepRespond(0, Closing0, false), GivesLate))
  {
    TakesLast(c, Closing0);
    var t := Take(c, 0, Closing0);
    var b := Popped(t);
    assert b.wire == [Head(0, 200, false, true)] && b.phase.Quiet? && Waiting(t.requests[0]) == [];
    var f := Marked(t.requests[0]);
    assert f.calls == [Respond(Closing0)] && f.response == Some(Closing0) && f.id == 0 && f.done;
    LeavesFirst(b);
    var d := Depart(b, FateOfDrop(b.requests[0]));
    assert d.phase == b.phase;
    hide Three, Take, Popped, Marked, FateOfDrop, Waiting, Chunks;
    ChunkLate(d, b, f);
    var g := HeldCall(f, StepChunk(0, "late"), true);
    DropsRest(d, b, g);
    assert b.requests[0].id == 1;
    PassesOn(t, b, d, f, g);
  }

  lemma {:induction false} PassesOn(t: Conn, b: Conn, d: Conn, f: Request, g: Request)
    requires t.requests != [] && t.requests[0].response.Some? && !KeepsOn(t.requests[0]) && Waiting(t.requests[0]) == []
    requires b == Popped(t) && f == Marked(t.requests[0]) && f.response.Some?
    requires b.requests != [] && b.requests[0].id == 1 && d == Depart(b, FateOfDrop(b.requests[0]))
    requires PlayOn(d, GivesLate(1), GivesLate) == d && HeldPlay(d, f, GivesLate(1), GivesLate) == g
    requires g.response.Some? && !g.response.value.completed && HeldDrop(d, g, GivesLate) == g
    ensures WriteOn(t, false, GivesLate) == DropOn(d, GivesLate).(requests := [g])
  {
    hide Popped, Marked, PlayOn, HeldPlay, FateOfDrop, KeepsOn, Waiting, Chunks;
    NoChunks(t.requests[0].id);
    assert DropNextOn(b, GivesLate) == d;
    assert DropOn(b, GivesLate) == DropOn(d, GivesLate);
    assert HeldDrop(b, f, GivesLate) == g;
    hide DropOn, HeldDrop;
    var e := DropOn(d, GivesLate);
    assert [g] + e.requests == [g];
    assert e.wire + [] == e.wire;
  }

  /** The connection takes no notice of the call; the response object keeps the piece. */
  lemma {:induction false} ChunkLate(d: Conn, b: Conn, f: Request)
    requires OneLeft(d, b) && f.response == Some(Closing0) && f.id == 0 && f.calls == [Respond(Closing0)] && f.done
    ensures PlayOn(d, GivesLate(1), GivesLate) == d
    ensures var g := HeldPlay(d, f, GivesLate(1), GivesLate);
      && g == HeldCall(f, StepChunk(0, "late"), true) && g.id == 0 && g.done
      && g.response.value.parts == ["late"] && !g.response.value.completed && g.calls == [Respond(Closing0), SendChunk("late")]
  {
    hide CompletedBefore;
    var call := StepChunk(0, "late");
    assert IndexOf(d.requests, 0) == 1;
    PlaysOne(d, call, GivesLate);
    assert [call][1..] == [];
    assert StepOn(d, call, GivesLate) == d;
    var g := HeldCall(f, call, true);
    assert HeldStep(d, g, call, GivesLate) == g;
    assert HeldPlay(d, g, [], GivesLate) == g;
    assert [] + ["late"] == ["late"];
  }

  lemma {:induction false} DropsRest(d: Conn, b: Conn, g: Request)
    requires OneLeft(d, b) && g.response.Some?
    ensures var e := DropOn(d, GivesLate);
      && e.requests == [] && e.link.Up? && e.closing && e.wire == b.wire && |e.departed| == 2 && e.phase == d.phase
    ensures HeldDrop(d, g, GivesLate) == g
  {
    assert SilentFor(d.requests, GivesLate);
    SilentDrop(d, g, GivesLate);
  }

  lemma {:induction false} LostAtEnd(c: Conn)
    requires LeftOver(c)
    ensures var d := StepOn(c, StepFinal(0, "", false), GivesLate);
      && d.wire == [Head(0, 200, false, true), Final(0, "")]
      && |d.departed| == 3 && d.departed[2].request.id == 0 && d.departed[2].fate == Answered
      && d.departed[2].request.calls == [Respond(Closing0), SendChunk("late"), SendFinal("", true)]
  {
    var s := StepFinal(0, "", false);
    assert EndsFront(c, s);
    var d := Depart(Ended(c, ""), Answered);
    assert d.requests == [];
    NonePlayed(d, GivesLate(0), GivesLate);
    hide PlayOn;
  }

  /** In this run a chunk of the closing response never gets on the wire, although the response ends properly and
      its request counts as answered. */
  lemma LosesPiece()
    ensures EventLegal(NewConn(0), LostRun, GivesLate)
    ensures var c := EventRun(NewConn(0), LostRun, GivesLate);
      && c.wire == [Head(0, 200, false, true), Final(0, "")]
      && |c.departed| == 3 && c.departed[2].request.id == 0 && c.departed[2].fate == Answered
      && c.departed[2].request.calls == [Respond(Closing0), SendChunk("late"), SendFinal("", true)]
  {
    hide StepOn, Run, EventRun, Legal, EventLegal, Three, LeftOver, Next;
    ThreeIs();
    var c := Run(NewConn(0), ThreeRun);
    assert c.departed == [] by { ThreeNobody(c); }
    NobodyLeft(0, ThreeRun, GivesLate);
    TakesLast(c, Closing0);
    GivenLate(c);
    EventStep(NewConn(0), ThreeRun, StepRespond(0, Closing0, false), GivesLate);
    var steps := ThreeRun + [StepRespond(0, Closing0, false)];
    var d := EventRun(NewConn(0), steps, GivesLate);
    LostAtEnd(d);
    QuietEnds(d);
    EventStep(NewConn(0), steps, StepFinal(0, "", false), GivesLate);
  }
}

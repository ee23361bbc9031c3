/** What users do in the notifications of requests that leave. finish_request notifies the request that leaves
    before it looks at the new front, and write_next_response notifies the requests that it drops behind a head
    without keep-alive while the request of that head is off the queue; calls made there run inside the
    recursion of the two. The notifications of requests dropped at a shutdown, a close or an upgrade are
    without calls. */
module Events {
  import opened Options
  import opened Wire
  import opened Connection
  import opened Lifetime
  import opened Recursion
  import opened Reader

  /** The answering calls that are made in the notifications of each request while it leaves: in finish_event
      and, if it is dropped, in the partial, error or drop event that follows. */
  type Handler = nat -> seq<Step>

  // ---------------------------------------------------------------- the recursion with its notifications

  /** finish_request. */
  function FinishOn(c: Conn, drained: bool, on: Handler): (d: Conn)
    requires c.requests != []
    ensures |d.requests| <= |c.requests|
    decreases |c.requests|, 0, 0
  {
    var q := c.requests[0];
    if !q.done then SetFront(c, q.(finishOnReceive := true))
    else
      var e := PlayOn(Depart(c, Answered), on(q.id), on);
      if e.closing || e.stopping then Shutdown(e)
      else if e.requests == [] then CheckIdle(e, drained)
      else if e.requests[0].response.Some? then WriteOn(e, drained, on)
      else e
  }

  /** write_next_response. */
  function WriteOn(c: Conn, drained: bool, on: Handler): (d: Conn)
    requires c.requests != [] && c.requests[0].response.Some?
    ensures |d.requests| <= |c.requests|
    decreases |c.requests|, 1, 0
  {
    var e := SendOn(c, on);
    if e.requests[0].response.value.completed then FinishOn(e, drained, on) else e
  }

  /** write_next_response up to finish_request. */
  function SendOn(c: Conn, on: Handler): (d: Conn)
    requires c.requests != [] && c.requests[0].response.Some?
    ensures 0 < |d.requests| <= |c.requests| && d.requests[0].response.Some?
    decreases |c.requests|, 0, 0
  {
    var q := c.requests[0];
    if KeepsOn(q) then
      SendKeeps(c);
      SendFront(c)
    else
      var b := Popped(c);
      var f := HeldDrop(b, Marked(q), on);
      var e := DropOn(b, on);
      Write(e.(requests := [f] + e.requests), if f.response.value.completed then [] else Chunks(q.id, Waiting(q)))
  }

  /** drop_requests, with the notifications of each request that leaves. */
  function DropOn(c: Conn, on: Handler): (d: Conn)
    ensures d.requests == []
    decreases |c.requests|, 4, 0
  {
    if c.requests == [] then c else DropOn(DropNextOn(c, on), on)
  }

  /** One pass of its loop. */
  function DropNextOn(c: Conn, on: Handler): (d: Conn)
    requires c.requests != []
    ensures |d.requests| < |c.requests|
    decreases |c.requests|, 0, 0
  {
    PlayOn(Depart(c, FateOfDrop(c.requests[0])), on(c.requests[0].id), on)
  }

  /** A step whose last chunk, answer or part of a request leads into the recursion. */
  function StepOn(c: Conn, s: Step, on: Handler): (d: Conn)
    ensures Answering(s) ==> |d.requests| <= |c.requests|
    decreases |c.requests|, 2, 0
  {
    StepSizes(c, s);
    if EndsFront(c, s) then FinishOn(Ended(c, s.text), s.drained, on)
    else if AnswersFront(c, s) then WriteOn(Given(c, s), s.drained, on)
    else if EndsWaiting(c, s) then FinishOn(c.(phase := Quiet), s.drained, on)
    else Next(c, s)
  }

  /** The calls of one notification. */
  function PlayOn(c: Conn, calls: seq<Step>, on: Handler): (d: Conn)
    ensures |d.requests| <= |c.requests|
    decreases |c.requests|, 3, |calls|
  {
    if calls == [] then c
    else if !Answering(calls[0]) then PlayOn(c, calls[1..], on)
    else PlayOn(StepOn(c, calls[0], on), calls[1..], on)
  }

  /** write_next_response after a head without keep-alive, with its request off the queue. */
  function Popped(c: Conn): Conn
    requires c.requests != [] && c.requests[0].response.Some?
  {
    var q := Marked(c.requests[0]);
    Write(c.(closing := true, readIgnored := c.readIgnored || q.done, requests := c.requests[1..]),
          ToVector(q.id, q.headKeepAlive, q.response.value))
  }

  lemma SendKeeps(c: Conn)
    requires c.requests != [] && c.requests[0].response.Some?
    ensures 0 < |SendFront(c).requests| <= |c.requests| && SendFront(c).requests[0].response.Some?
    ensures SendFront(c).requests[0].response.value.completed == c.requests[0].response.value.completed
  {
    SendFrontLeaves(c);
    SentQueue(c);
    hide SendFront;
  }

  // ---------------------------------------------------------------- the request that is off the queue

  /** A call on the request that is off the queue: its response object is not at the front, so a piece is kept in
      it. While nothing is queued such a call runs into an assertion; here it does nothing. */
  function HeldCall(f: Request, s: Step, queued: bool): (g: Request)
    requires f.response.Some?
    ensures g.response.Some? && g.id == f.id
  {
    if !Answering(s) || s.id != f.id then f
    else
      match s
      case StepChunk(_, text) =>
        if f.response.value.completed || !queued then f
        else
          var r := f.response.value;
          f.(response := Some(if text == "" then r else r.(parts := r.parts + [text])), calls := f.calls + [SendChunk(text)])
      case StepFinal(_, text, _) =>
        if f.response.value.completed || !queued then f
        else f.(response := Some(f.response.value.(completed := true)), calls := f.calls + [SendFinal(text, false)])
      case StepEnablePartial(_) => f.(partial := true)
      case _ => f
  }

  /** What becomes of it in the calls of one notification, while the connection does `PlayOn`. */
  function HeldPlay(c: Conn, f: Request, calls: seq<Step>, on: Handler): (g: Request)
    requires f.response.Some?
    ensures g.response.Some? && g.id == f.id
    decreases |c.requests|, 3, |calls|
  {
    if calls == [] then f
    else if !Answering(calls[0]) then HeldPlay(c, f, calls[1..], on)
    else HeldPlay(StepOn(c, calls[0], on), HeldStep(c, HeldCall(f, calls[0], c.requests != []), calls[0], on), calls[1..], on)
  }

  function HeldStep(c: Conn, f: Request, s: Step, on: Handler): (g: Request)
    requires f.response.Some?
    ensures g.response.Some? && g.id == f.id
    decreases |c.requests|, 2, 0
  {
    StepSizes(c, s);
    if EndsFront(c, s) then HeldFinish(Ended(c, s.text), f, s.drained, on)
    else if AnswersFront(c, s) then HeldWrite(Given(c, s), f, s.drained, on)
    else if EndsWaiting(c, s) then HeldFinish(c.(phase := Quiet), f, s.drained, on)
    else f
  }

  function HeldFinish(c: Conn, f: Request, drained: bool, on: Handler): (g: Request)
    requires c.requests != [] && f.response.Some?
    ensures g.response.Some? && g.id == f.id
    decreases |c.requests|, 0, 0
  {
    var q := c.requests[0];
    if !q.done then f
    else
      var d := Depart(c, Answered);
      var e := PlayOn(d, on(q.id), on);
      var g := HeldPlay(d, f, on(q.id), on);
      if !e.closing && !e.stopping && e.requests != [] && e.requests[0].response.Some? then HeldWrite(e, g, drained, on) else g
  }

  function HeldWrite(c: Conn, f: Request, drained: bool, on: Handler): (g: Request)
    requires c.requests != [] && c.requests[0].response.Some? && f.response.Some?
    ensures g.response.Some? && g.id == f.id
    decreases |c.requests|, 1, 0
  {
    var e := SendOn(c, on);
    var g := if KeepsOn(c.requests[0]) then f else HeldDrop(Popped(c), f, on);
    if e.requests[0].response.value.completed then HeldFinish(e, g, drained, on) else g
  }

  /** What becomes of it in `DropOn`. */
  function HeldDrop(c: Conn, f: Request, on: Handler): (g: Request)
    requires f.response.Some?
    ensures g.response.Some? && g.id == f.id
    decreases |c.requests|, 4, 0
  {
    if c.requests == [] then f
    else
      var d := Depart(c, FateOfDrop(c.requests[0]));
      HeldDrop(DropNextOn(c, on), HeldPlay(d, f, on(c.requests[0].id), on), on)
  }

  lemma StepSizes(c: Conn, s: Step)
    ensures EndsFront(c, s) ==> |Ended(c, s.text).requests| == |c.requests|
    ensures AnswersFront(c, s) ==> |Given(c, s).requests| == |c.requests| && Given(c, s).requests[0].response.Some?
    ensures Answering(s) && !EndsFront(c, s) && !AnswersFront(c, s) ==> |Next(c, s).requests| == |c.requests|
  {
    hide Next;
    if Answering(s) && !EndsFront(c, s) && !AnswersFront(c, s) { OtherSize(c, s); }
  }

  lemma OtherSize(c: Conn, s: Step)
    requires Answering(s) && !EndsFront(c, s) && !AnswersFront(c, s)
    ensures |Next(c, s).requests| == |c.requests|
  {
    hide ChunkTo, FinalTo, IndexOf, WriteNext, Take;
    match s
    case StepRespond(id, r, _) => if IndexOf(c.requests, id) < |c.requests| { TakeSize(c, IndexOf(c.requests, id), r); }
    case StepChunk(id, text) => ChunkSize(c, id, text);
    case StepFinal(id, text, drained) => FinalSize(c, id, text, drained);
    case _ =>
  }

  lemma TakeSize(c: Conn, k: nat, r: Response)
    requires k < |c.requests|
    ensures |Take(c, k, r).requests| == |c.requests|
  {
  }

  lemma ChunkSize(c: Conn, id: nat, text: string)
    ensures |ChunkTo(c, id, text).0.requests| == |c.requests|
  {
    hide CompletedBefore, IndexOf;
  }

  lemma FinalSize(c: Conn, id: nat, text: string, drained: bool)
    requires !EndsFront(c, StepFinal(id, text, drained))
    ensures |FinalTo(c, id, text, drained).0.requests| == |c.requests|
  {
    hide CompletedBefore, IndexOf, Finish;
  }

  // ---------------------------------------------------------------- handlers that do nothing

  ghost predicate Silent(on: Handler) { forall id :: on(id) == [] }

  /** Nothing is called in the notifications of these requests. */
  predicate SilentFor(qs: seq<Request>, on: Handler) {
    forall q :: q in qs ==> on(q.id) == []
  }

  lemma DropsFirst(qs: seq<Request>)
    requires qs != []
    ensures Drops(qs) == [Departure(qs[0], FateOfDrop(qs[0]))] + Drops(qs[1..])
  {
    hide FateOfDrop;
  }

  lemma {:induction false} SilentDrop(c: Conn, f: Request, on: Handler)
    requires SilentFor(c.requests, on) && f.response.Some?
    ensures DropOn(c, on) == DropAll(c) && HeldDrop(c, f, on) == f
    decreases |c.requests|
  {
    hide FateOfDrop, Drops;
    if c.requests == [] {
      assert Drops([]) == [] by { DropsNone(); }
    } else {
      var d := Depart(c, FateOfDrop(c.requests[0]));
      assert PlayOn(d, [], on) == d && HeldPlay(d, f, [], on) == f;
      DropsFirst(c.requests);
      SilentDrop(d, f, on);
    }
  }

  lemma DropsNone()
    ensures Drops([]) == []
  {
  }

  /** A front whose head closes the connection: the requests behind it leave. */
  lemma SendFrontClosing(c: Conn)
    requires c.requests != [] && c.requests[0].response.Some? && !KeepsOn(c.requests[0])
    ensures var q := c.requests[0];
      SendFront(c) == Write(Popped(c).(requests := [Marked(q)], departed := c.departed + Drops(c.requests[1..])),
                            Chunks(q.id, Waiting(q)))
  {
    MarkedIs(c.requests[0]);
    hide ToVector, Chunks, Drops, Waiting, CloseAfterFront, Marked;
    var m := Marked(c.requests[0]);
    CloseWrites(c, m, ToVector(m.id, m.headKeepAlive, m.response.value));
  }

  lemma CloseWrites(c: Conn, m: Request, frames: seq<Frame>)
    requires c.requests != []
    ensures var h := Write(SetFront(c, m), frames);
      && h.requests != []
      && CloseAfterFront(h) ==
           Write(c.(closing := true, readIgnored := c.readIgnored || m.done, requests := c.requests[1..]), frames)
             .(requests := [m], departed := c.departed + Drops(c.requests[1..]))
  {
    hide Drops;
    assert SetFront(c, m).requests[1..] == c.requests[1..];
  }

  /** Without calls while requests are dropped, the front is sent as in module Connection. */
  lemma {:induction false} SilentSend(c: Conn, on: Handler)
    requires c.requests != [] && c.requests[0].response.Some? && (KeepsOn(c.requests[0]) || SilentFor(c.requests[1..], on))
    ensures SendOn(c, on) == SendFront(c)
  {
    hide SendFront, KeepsOn;
    var q := c.requests[0];
    if !KeepsOn(q) {
      SilentDrop(Popped(c), Marked(q), on);
      SendFrontClosing(c);
      PoppedIs(c);
      NoChunks(q.id);
      MarkedIs(q);
      hide Chunks, Drops, DropOn, HeldDrop, Popped, Marked;
      assert DropOn(Popped(c), on).departed == c.departed + Drops(c.requests[1..]);
      assert [Marked(q)] + [] == [Marked(q)];
    }
  }

  lemma MarkedIs(q: Request)
    requires q.response.Some?
    ensures var m := Marked(q);
      m.id == q.id && m.done == q.done && m.response.Some? && m.response.value.completed == q.response.value.completed
    ensures q.response.value.completed ==> Waiting(q) == []
  {
  }

  lemma PoppedIs(c: Conn)
    requires c.requests != [] && c.requests[0].response.Some?
    ensures var b := Popped(c); b.requests == c.requests[1..] && b.departed == c.departed && b.link == c.link && b.closing
  {
    hide ToVector, Marked;
  }

  lemma {:induction false} NoChunks(id: nat)
    ensures Chunks(id, []) == []
  {
  }

  lemma {:induction false} SilentFinish(c: Conn, drained: bool, on: Handler)
    requires c.requests != [] && SilentFor(c.requests, on)
    ensures FinishOn(c, drained, on) == Finish(c, drained)
    decreases |c.requests|, 0
  {
    if c.requests[0].done {
      var d := Depart(c, Answered);
      assert PlayOn(d, [], on) == d;
      if !c.closing && !c.stopping && d.requests != [] && d.requests[0].response.Some? { SilentWrite(d, drained, on); }
    }
  }

  lemma {:induction false} SilentWrite(c: Conn, drained: bool, on: Handler)
    requires c.requests != [] && c.requests[0].response.Some? && SilentFor(c.requests, on)
    ensures WriteOn(c, drained, on) == WriteNext(c, drained)
    decreases |c.requests|, 1
  {
    SendKeeps(c);
    SilentSend(c, on);
    WriteNextIs(c, drained);
    StillSilent(c, on);
    hide SendOn, SendFront, WriteNext, FinishOn, Finish;
    if c.requests[0].response.value.completed { SilentFinish(SendFront(c), drained, on); }
  }

  lemma StillSilent(c: Conn, on: Handler)
    requires c.requests != [] && c.requests[0].response.Some? && SilentFor(c.requests, on)
    ensures SilentFor(SendFront(c).requests, on)
  {
    SentQueue(c);
    hide SendFront;
    assert Marked(c.requests[0]).id == c.requests[0].id;
  }

  /** Without calls in finish_event a step is the step of module Connection. */
  lemma {:induction false} SilentStep(c: Conn, s: Step, on: Handler)
    requires Silent(on)
    ensures StepOn(c, s, on) == Next(c, s)
  {
    assert forall qs :: SilentFor(qs, on);
    hide Next, FinishOn, WriteOn, Ended, Given;
    StepSizes(c, s);
    if EndsFront(c, s) {
      EndedIs(c, s);
      SilentFinish(Ended(c, s.text), s.drained, on);
    } else if AnswersFront(c, s) {
      GivenIs(c, s);
      SilentWrite(Given(c, s), s.drained, on);
    } else if EndsWaiting(c, s) {
      EndsWaitingIs(c, s);
      SilentFinish(c.(phase := Quiet), s.drained, on);
    }
  }

  lemma EndsWaitingIs(c: Conn, s: Step)
    requires EndsWaiting(c, s)
    ensures c.requests != [] && Next(c, s) == Finish(c.(phase := Quiet), s.drained)
  {
    hide Finish;
  }

  // ---------------------------------------------------------------- what only grows

  lemma GrowsTwice(c: Conn, d: Conn, e: Conn)
    requires Grows(c, d) && Grows(d, e)
    ensures Grows(c, e)
  {
  }

  lemma {:induction false} FinishOnGrows(c: Conn, drained: bool, on: Handler)
    requires c.requests != []
    ensures Grows(c, FinishOn(c, drained, on))
    decreases |c.requests|, 0, 0
  {
    hide Grows;
    var q := c.requests[0];
    if !q.done {
      FrontGrows(c, q.(finishOnReceive := true));
    } else {
      var d := Depart(c, Answered);
      DepartGrows(c);
      PlayOnGrows(d, on(q.id), on);
      var e := PlayOn(d, on(q.id), on);
      GrowsTwice(c, d, e);
      RestGrows(e, drained);
      if e.requests != [] && e.requests[0].response.Some? && !e.closing && !e.stopping { WriteOnGrows(e, drained, on); }
      GrowsTwice(c, e, FinishOn(c, drained, on));
    }
  }

  lemma FrontGrows(c: Conn, q: Request)
    requires c.requests != []
    ensures Grows(c, SetFront(c, q))
  {
  }

  lemma DepartGrows(c: Conn)
    requires c.requests != []
    ensures Grows(c, Depart(c, Answered))
  {
  }

  lemma RestGrows(c: Conn, drained: bool)
    ensures Grows(c, Shutdown(c)) && Grows(c, CheckIdle(c, drained)) && Grows(c, c)
  {
  }

  lemma {:induction false} WriteOnGrows(c: Conn, drained: bool, on: Handler)
    requires c.requests != [] && c.requests[0].response.Some?
    ensures Grows(c, WriteOn(c, drained, on))
    decreases |c.requests|, 1, 0
  {
    hide Grows, SendOn, FinishOn;
    var e := SendOn(c, on);
    SendOnGrows(c, on);
    if e.requests[0].response.value.completed {
      FinishOnGrows(e, drained, on);
      GrowsTwice(c, e, WriteOn(c, drained, on));
    }
  }

  lemma {:induction false} SendOnGrows(c: Conn, on: Handler)
    requires c.requests != [] && c.requests[0].response.Some?
    ensures Grows(c, SendOn(c, on)) && (!KeepsOn(c.requests[0]) ==> Grows(Popped(c), SendOn(c, on)))
    decreases |c.requests|, 0, 0
  {
    var q := c.requests[0];
    if KeepsOn(q) {
      SendFrontGrows(c);
    } else {
      var b := Popped(c);
      PoppedGrows(c);
      DropOnGrows(b, on);
      hide DropOn, HeldDrop, Popped, Chunks, Waiting, KeepsOn;
      PushedGrows(c, on, b, DropOn(b, on));
    }
  }

  lemma PoppedGrows(c: Conn)
    requires c.requests != [] && c.requests[0].response.Some?
    ensures Grows(c, Popped(c)) && |Popped(c).requests| < |c.requests|
  {
    hide ToVector, Marked;
  }

  lemma {:induction false} PushedGrows(c: Conn, on: Handler, b: Conn, e: Conn)
    requires c.requests != [] && c.requests[0].response.Some? && !KeepsOn(c.requests[0])
    requires b == Popped(c) && e == DropOn(b, on) && Grows(c, b) && Grows(b, e)
    ensures Grows(b, SendOn(c, on)) && Grows(c, SendOn(c, on))
  {
    hide DropOn, HeldDrop, Popped, Chunks, Waiting;
  }

  lemma {:induction false} DropOnGrows(c: Conn, on: Handler)
    ensures Grows(c, DropOn(c, on))
    decreases |c.requests|, 4, 0
  {
    hide Grows, PlayOn, FateOfDrop;
    if c.requests == [] {
      RestGrows(c, false);
    } else {
      var d := Depart(c, FateOfDrop(c.requests[0]));
      var e := DropNextOn(c, on);
      DropGrows(c);
      PlayOnGrows(d, on(c.requests[0].id), on);
      GrowsTwice(c, d, e);
      DropOnGrows(e, on);
      GrowsTwice(c, e, DropOn(c, on));
    }
  }

  lemma DropGrows(c: Conn)
    requires c.requests != []
    ensures Grows(c, Depart(c, FateOfDrop(c.requests[0])))
  {
  }

  lemma BeforeGrows(c: Conn, s: Step)
    ensures EndsFront(c, s) ==> Grows(c, Ended(c, s.text))
    ensures AnswersFront(c, s) ==> Grows(c, Given(c, s))
    ensures EndsWaiting(c, s) ==> Grows(c, c.(phase := Quiet))
  {
  }

  lemma {:induction false} StepOnGrows(c: Conn, s: Step, on: Handler)
    ensures Grows(c, StepOn(c, s, on))
    decreases |c.requests|, 2, 0
  {
    hide Grows, Next, Ended, Given, FinishOn, WriteOn;
    StepSizes(c, s);
    BeforeGrows(c, s);
    if EndsFront(c, s) {
      FinishOnGrows(Ended(c, s.text), s.drained, on);
      GrowsTwice(c, Ended(c, s.text), StepOn(c, s, on));
    } else if AnswersFront(c, s) {
      WriteOnGrows(Given(c, s), s.drained, on);
      GrowsTwice(c, Given(c, s), StepOn(c, s, on));
    } else if EndsWaiting(c, s) {
      FinishOnGrows(c.(phase := Quiet), s.drained, on);
      GrowsTwice(c, c.(phase := Quiet), StepOn(c, s, on));
    } else {
      StepGrows(c, s);
    }
  }

  lemma {:induction false} PlayOnGrows(c: Conn, calls: seq<Step>, on: Handler)
    ensures Grows(c, PlayOn(c, calls, on))
    decreases |c.requests|, 3, |calls|
  {
    hide Grows, StepOn;
    if calls == [] {
      RestGrows(c, false);
    } else if !Answering(calls[0]) {
      PlayOnGrows(c, calls[1..], on);
    } else {
      var d := StepOn(c, calls[0], on);
      StepOnGrows(c, calls[0], on);
      PlayOnGrows(d, calls[1..], on);
      GrowsTwice(c, d, PlayOn(c, calls, on));
    }
  }


  // ---------------------------------------------------------------- over runs

  function EventRun(c: Conn, steps: seq<Step>, on: Handler): Conn {
    if steps == [] then c else StepOn(EventRun(c, steps[..|steps| - 1], on), steps[|steps| - 1], on)
  }

  predicate EventLegal(c: Conn, steps: seq<Step>, on: Handler) {
    if steps == [] then true
    else EventLegal(c, steps[..|steps| - 1], on) && Enabled(EventRun(c, steps[..|steps| - 1], on), steps[|steps| - 1])
  }

  /** Runs without calls in notifications are the runs of module Connection. */
  lemma {:induction false} SilentRun(c: Conn, steps: seq<Step>, on: Handler)
    requires Silent(on)
    ensures EventRun(c, steps, on) == Run(c, steps) && (EventLegal(c, steps, on) <==> Legal(c, steps))
  {
    hide StepOn, Next, Enabled;
    if steps != [] {
      SilentRun(c, steps[..|steps| - 1], on);
      SilentStep(Run(c, steps[..|steps| - 1]), steps[|steps| - 1], on);
    }
  }

  // ---------------------------------------------------------------- connections that are down

  /** Nothing has been written, and the connection is still down. */
  ghost predicate Mute(c: Conn, d: Conn) { d.wire == c.wire && (!c.link.Up? ==> !d.link.Up?) }

  lemma {:induction false} FinishMute(c: Conn, drained: bool, on: Handler)
    requires c.requests != [] && !c.link.Up?
    ensures Mute(c, FinishOn(c, drained, on))
    decreases |c.requests|, 0, 0
  {
    hide WriteOn;
    if c.requests[0].done {
      var d := Depart(c, Answered);
      var e := PlayOn(d, on(c.requests[0].id), on);
      PlayMute(d, on(c.requests[0].id), on);
      if e.requests != [] && e.requests[0].response.Some? && !e.closing && !e.stopping { WriteMute(e, drained, on); }
    }
  }

  lemma {:induction false} SendMute(c: Conn, on: Handler)
    requires c.requests != [] && c.requests[0].response.Some? && !c.link.Up?
    ensures Mute(c, SendOn(c, on))
    decreases |c.requests|, 0, 0
  {
    SendKeeps(c);
    if KeepsOn(c.requests[0]) {
      FrontMute(c);
      hide SendFront;
    } else {
      PoppedIs(c);
      assert Mute(c, Popped(c)) by { PoppedMute(c); }
      hide Popped, DropOn, HeldDrop, Chunks, Waiting;
      DropMute(Popped(c), on);
    }
  }

  lemma FrontMute(c: Conn)
    requires c.requests != [] && c.requests[0].response.Some? && !c.link.Up?
    ensures Mute(c, SendFront(c))
  {
    hide ToVector, Chunks, Drops, Marked;
  }

  lemma PoppedMute(c: Conn)
    requires c.requests != [] && c.requests[0].response.Some? && !c.link.Up?
    ensures Mute(c, Popped(c))
  {
  }

  /** drop_requests on a connection that is down writes nothing, whatever is called. */
  lemma {:induction false} DropMute(c: Conn, on: Handler)
    requires !c.link.Up?
    ensures Mute(c, DropOn(c, on)) && DropOn(c, on).requests == []
    decreases |c.requests|, 4, 0
  {
    hide PlayOn, FateOfDrop;
    if c.requests != [] {
      PlayMute(Depart(c, FateOfDrop(c.requests[0])), on(c.requests[0].id), on);
      DropMute(DropNextOn(c, on), on);
    }
  }

  lemma {:induction false} WriteMute(c: Conn, drained: bool, on: Handler)
    requires c.requests != [] && c.requests[0].response.Some? && !c.link.Up?
    ensures Mute(c, WriteOn(c, drained, on))
    decreases |c.requests|, 1, 0
  {
    SendMute(c, on);
    hide SendOn, FinishOn;
    if SendOn(c, on).requests[0].response.value.completed { FinishMute(SendOn(c, on), drained, on); }
  }

  lemma {:induction false} CallMute(c: Conn, s: Step, on: Handler)
    requires Answering(s) && !c.link.Up?
    ensures Mute(c, StepOn(c, s, on))
    decreases |c.requests|, 2, 0
  {
    hide FinishOn, WriteOn, Next;
    StepSizes(c, s);
    if EndsFront(c, s) {
      FinishMute(Ended(c, s.text), s.drained, on);
    } else if AnswersFront(c, s) {
      GivenMute(c, s);
      WriteMute(Given(c, s), s.drained, on);
    } else {
      OtherMute(c, s);
    }
  }

  lemma GivenMute(c: Conn, s: Step)
    requires AnswersFront(c, s) && !c.link.Up?
    ensures Mute(c, Given(c, s))
  {
  }

  lemma OtherMute(c: Conn, s: Step)
    requires Answering(s) && !c.link.Up? && !EndsFront(c, s) && !AnswersFront(c, s)
    ensures Mute(c, Next(c, s))
  {
    hide IndexOf, WriteNext, Take, ChunkTo, FinalTo;
    match s
    case StepRespond(id, r, _) => if IndexOf(c.requests, id) < |c.requests| { TakeMute(c, IndexOf(c.requests, id), r); }
    case StepChunk(id, text) => ChunkMute(c, id, text);
    case StepFinal(id, text, drained) => FinalMute(c, id, text, drained);
    case _ =>
  }

  lemma TakeMute(c: Conn, k: nat, r: Response)
    requires k < |c.requests|
    ensures Mute(c, Take(c, k, r))
  {
  }

  lemma ChunkMute(c: Conn, id: nat, text: string)
    requires !c.link.Up?
    ensures Mute(c, ChunkTo(c, id, text).0)
  {
    hide CompletedBefore, IndexOf;
  }

  lemma FinalMute(c: Conn, id: nat, text: string, drained: bool)
    requires !EndsFront(c, StepFinal(id, text, drained))
    ensures Mute(c, FinalTo(c, id, text, drained).0)
  {
    hide CompletedBefore, IndexOf, Finish;
  }

  /** On a connection that is down nothing is written, whatever is called in the notifications of requests
      that leave. */
  lemma {:induction false} PlayMute(c: Conn, calls: seq<Step>, on: Handler)
    requires !c.link.Up?
    ensures Mute(c, PlayOn(c, calls, on))
    decreases |c.requests|, 3, |calls|
  {
    hide StepOn;
    if calls != [] {
      var rest := calls[1..];
      if Answering(calls[0]) {
        CallMute(c, calls[0], on);
        PlayMute(StepOn(c, calls[0], on), rest, on);
      } else {
        PlayMute(c, rest, on);
      }
    }
  }

  // ---------------------------------------------------------------- nobody leaves

  lemma {:induction false} DoneDeparts(c: Conn, drained: bool)
    requires c.requests != [] && c.requests[0].done
    ensures |Finish(c, drained).departed| > |c.departed|
  {
    hide WriteNext;
    var d := Depart(c, Answered);
    RestGrows(d, drained);
    if d.requests != [] && d.requests[0].response.Some? { WriteNextGrows(d, drained); }
  }

  lemma {:induction false} FinishNobody(c: Conn, drained: bool, on: Handler)
    requires c.requests != [] && Finish(c, drained).departed == c.departed
    ensures FinishOn(c, drained, on) == Finish(c, drained)
  {
    if c.requests[0].done {
      hide Finish, FinishOn;
      DoneDeparts(c, drained);
    }
  }

  lemma PrefixOfSelf<T>(a: seq<T>, b: seq<T>)
    requires a <= b <= a
    ensures a == b
  {
  }

  lemma {:induction false} WriteNobody(c: Conn, drained: bool, on: Handler)
    requires c.requests != [] && c.requests[0].response.Some? && WriteNext(c, drained).departed == c.departed
    ensures WriteOn(c, drained, on) == WriteNext(c, drained)
  {
    hide SendFront, WriteNext, FinishOn, Finish, SendOn;
    SendFrontGrows(c);
    WriteNextIs(c, drained);
    SendKeeps(c);
    if c.requests[0].response.value.completed { FinishGrows(SendFront(c), drained); }
    PrefixOfSelf(c.departed, SendFront(c).departed);
    NobodyBehind(c);
    SilentSend(c, on);
    if c.requests[0].response.value.completed { FinishNobody(SendFront(c), drained, on); }
  }

  lemma NobodyBehind(c: Conn)
    requires c.requests != [] && c.requests[0].response.Some? && SendFront(c).departed == c.departed
    ensures KeepsOn(c.requests[0]) || c.requests[1..] == []
  {
    hide SendFront, Popped, Chunks, Waiting, KeepsOn;
    if !KeepsOn(c.requests[0]) {
      SendFrontClosing(c);
      assert |Drops(c.requests[1..])| == |c.requests[1..]|;
    }
  }

  lemma {:induction false} StepNobody(c: Conn, s: Step, on: Handler)
    requires Next(c, s).departed == c.departed
    ensures StepOn(c, s, on) == Next(c, s)
  {
    StepSizes(c, s);
    BeforeGrows(c, s);
    if EndsFront(c, s) {
      EndedIs(c, s);
      assert Ended(c, s.text).departed == c.departed;
      hide Next, FinishOn, Ended;
      FinishNobody(Ended(c, s.text), s.drained, on);
    } else if AnswersFront(c, s) {
      GivenIs(c, s);
      assert Given(c, s).departed == c.departed;
      hide Next, WriteOn, Given;
      WriteNobody(Given(c, s), s.drained, on);
    } else if EndsWaiting(c, s) {
      EndsWaitingIs(c, s);
      hide Next, FinishOn;
      FinishNobody(c.(phase := Quiet), s.drained, on);
    }
  }

  /** As long as nobody has left, it does not matter what is called in finish_event. */
  lemma {:induction false} NobodyLeft(maxKeepAlive: nat, steps: seq<Step>, on: Handler)
    requires Legal(NewConn(maxKeepAlive), steps) && Run(NewConn(maxKeepAlive), steps).departed == []
    ensures EventLegal(NewConn(maxKeepAlive), steps, on)
    ensures EventRun(NewConn(maxKeepAlive), steps, on) == Run(NewConn(maxKeepAlive), steps)
  {
    hide Next, StepOn, Enabled;
    if steps != [] {
      var before, s := steps[..|steps| - 1], steps[|steps| - 1];
      var c := Run(NewConn(maxKeepAlive), before);
      StepGrows(c, s);
      NobodyLeft(maxKeepAlive, before, on);
      StepNobody(c, s, on);
    }
  }

}

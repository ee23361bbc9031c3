/** When calls in notifications disturb the wire: exactly when one of them writes before the turn of its request,
    has a response begun twice, writes behind a closing head, or takes something from the closing response. */
module Disturbances {
  import opened Options
  import opened Wire
  import opened Connection
  import opened Invariant
  import opened Pipelining
  import opened Steps
  import opened Serving
  import opened Lifetime
  import opened Recursion
  import opened Closing
  import opened WireOrder
  import opened Events

  // ---------------------------------------------------------------- disturbances

  /** The call writes a piece of the front's response before its head: the front has just got there, and
      write_next_response is still to come. */
  predicate OutOfTurn(c: Conn, s: Step) {
    && c.requests != [] && c.requests[0].response.Some? && !c.requests[0].written && !c.requests[0].response.value.completed
    && ((s.StepChunk? && s.id == c.requests[0].id && s.text != "") || (s.StepFinal? && s.id == c.requests[0].id))
  }

  /** The call writes something for the request that is first in the queue. */
  predicate Reaches(c: Conn, s: Step) {
    && c.requests != [] && Answering(s) && s.id == c.requests[0].id
    && var q := c.requests[0];
       match s
       case StepRespond(_, _, _) => q.response.None?
       case StepChunk(_, text) => q.response.Some? && !q.response.value.completed && text != ""
       case StepFinal(_, _, _) => q.response.Some? && !q.response.value.completed
       case StepContinue(_) => q.response.None? && q.header.expects100 && !q.header.http10
       case _ => false
  }

  /** One of the calls does so. */
  predicate PassReaches(c: Conn, calls: seq<Step>, on: Handler)
    decreases |calls|
  {
    && calls != []
    && if !Answering(calls[0]) then PassReaches(c, calls[1..], on)
       else Reaches(c, calls[0]) || PassReaches(StepOn(c, calls[0], on), calls[1..], on)
  }

  /** While requests are dropped, a call reaches the one that is next. */
  predicate DropReaches(c: Conn, on: Handler)
    decreases |c.requests|
  {
    && c.requests != []
    && (PassReaches(Depart(c, FateOfDrop(c.requests[0])), on(c.requests[0].id), on) || DropReaches(DropNextOn(c, on), on))
  }

  /** The call on the request that is off the queue takes something from its response: a piece that will not be
      written, or the pieces gathered before, since a completed response is finished at once. */
  predicate Hurts(f: Request, gathered: bool, s: Step, queued: bool) {
    && queued && f.response.Some? && !f.response.value.completed
    && ((s.StepChunk? && s.id == f.id && s.text != "") || (s.StepFinal? && s.id == f.id && gathered))
  }

  /** What the calls of one notification make of it when none reaches the queue. */
  function HeldCalls(f: Request, calls: seq<Step>, queued: bool): (g: Request)
    requires f.response.Some?
    ensures g.response.Some? && g.id == f.id
    decreases |calls|
  {
    if calls == [] then f else HeldCalls(HeldCall(f, calls[0], queued), calls[1..], queued)
  }

  function HeldAll(f: Request, qs: seq<Request>, on: Handler): (g: Request)
    requires f.response.Some?
    ensures g.response.Some? && g.id == f.id
    decreases |qs|
  {
    if qs == [] then f else HeldAll(HeldCalls(f, on(qs[0].id), |qs| > 1), qs[1..], on)
  }

  predicate PassHurts(f: Request, gathered: bool, calls: seq<Step>, queued: bool)
    requires f.response.Some?
    decreases |calls|
  {
    && calls != []
    && (Hurts(f, gathered, calls[0], queued) || PassHurts(HeldCall(f, calls[0], queued), gathered, calls[1..], queued))
  }

  /** While the requests `qs` are dropped, a call takes something from the response of the closing request. */
  predicate DropHurts(f: Request, gathered: bool, qs: seq<Request>, on: Handler)
    requires f.response.Some?
    decreases |qs|
  {
    && qs != []
    && (PassHurts(f, gathered, on(qs[0].id), |qs| > 1)
        || DropHurts(HeldCalls(f, on(qs[0].id), |qs| > 1), gathered, qs[1..], on))
  }

  predicate SendDisturbed(c: Conn, on: Handler)
    requires c.requests != [] && c.requests[0].response.Some?
  {
    && !KeepsOn(c.requests[0])
    && (DropReaches(Popped(c), on) || DropHurts(Marked(c.requests[0]), Waiting(c.requests[0]) != [], c.requests[1..], on))
  }

  /** Somewhere in the recursion finish_request finds that the new front has been written already, a call is out of
      turn, or a call disturbs the sending of a response behind which requests are dropped. */
  predicate FinishDisturbed(c: Conn, drained: bool, on: Handler)
    requires c.requests != []
    decreases |c.requests|, 0, 0
  {
    var q := c.requests[0];
    && q.done
    && var d := Depart(c, Answered);
       var e := PlayOn(d, on(q.id), on);
       || PlayDisturbed(d, on(q.id), on)
       || (!e.closing && !e.stopping && e.requests != [] && e.requests[0].response.Some?
           && (e.requests[0].written || WriteDisturbed(e, drained, on)))
  }

  predicate WriteDisturbed(c: Conn, drained: bool, on: Handler)
    requires c.requests != [] && c.requests[0].response.Some?
    decreases |c.requests|, 1, 0
  {
    || SendDisturbed(c, on)
    || (SendOn(c, on).requests[0].response.value.completed && FinishDisturbed(SendOn(c, on), drained, on))
  }

  predicate StepDisturbed(c: Conn, s: Step, on: Handler)
    decreases |c.requests|, 2, 0
  {
    StepSizes(c, s);
    || OutOfTurn(c, s)
    || (if EndsFront(c, s) then FinishDisturbed(Ended(c, s.text), s.drained, on)
        else if AnswersFront(c, s) then WriteDisturbed(Given(c, s), s.drained, on)
        else EndsWaiting(c, s) && FinishDisturbed(c.(phase := Quiet), s.drained, on))
  }

  predicate PlayDisturbed(c: Conn, calls: seq<Step>, on: Handler)
    decreases |c.requests|, 3, |calls|
  {
    && calls != []
    && if !Answering(calls[0]) then PlayDisturbed(c, calls[1..], on)
       else StepDisturbed(c, calls[0], on) || PlayDisturbed(StepOn(c, calls[0], on), calls[1..], on)
  }

  // ---------------------------------------------------------------- calls that reach nobody

  ghost predicate Alike(q: Request, p: Request) {
    && SameTrace(q, p) && p.done == q.done && p.header == q.header && p.finishOnReceive == q.finishOnReceive
    && (q.response.Some? ==> p.response.Some?)
  }

  ghost predicate AllWaiting(qs: seq<Request>) {
    forall q :: q in qs ==> RequestOk(q) && !q.written
  }

  /** One queued request changes without being written. */
  ghost predicate ChangesAt(c: Conn, d: Conn, k: nat) {
    && k < |c.requests| && |d.requests| == |c.requests|
    && d == c.(requests := c.requests[k := d.requests[k]], processed := d.processed, stopping := d.stopping)
    && RequestOk(d.requests[k]) && Alike(c.requests[k], d.requests[k])
  }

  /** A call that reaches nobody changes one waiting request at most. */
  lemma {:induction false} CallChanges(c: Conn, s: Step) returns (k: nat)
    requires AllWaiting(c.requests) && Answering(s) && !Reaches(c, s)
    ensures !EndsFront(c, s) && !AnswersFront(c, s)
    ensures k <= |c.requests| && if k == |c.requests| then Next(c, s) == c else ChangesAt(c, Next(c, s), k)
  {
    hide ChangesAt, AllWaiting, RespondTo, ChunkTo, FinalTo, ContinueTo, EnablePartial;
    match s
    case StepRespond(id, r, drained) => k := RespondChanges(c, id, r, drained);
    case StepChunk(id, text) => k := ChunkChanges(c, id, text);
    case StepFinal(id, text, drained) => k := FinalChanges(c, id, text, drained);
    case StepContinue(id) =>
      k := |c.requests|;
      ContinueChanges(c, id);
    case StepEnablePartial(id) => k := EnableChanges(c, id);
  }

  lemma RespondChanges(c: Conn, id: nat, r: Response, drained: bool) returns (k: nat)
    requires AllWaiting(c.requests) && !Reaches(c, StepRespond(id, r, drained))
    ensures var d := RespondTo(c, id, r, drained).0;
      k <= |c.requests| && if k == |c.requests| then d == c else ChangesAt(c, d, k)
  {
    hide WriteNext, IndexOf, Taken, RequestOk;
    k := IndexOf(c.requests, id);
    if k < |c.requests| && c.requests[k].response.None? {
      var d := Take(c, k, r);
      assert c.requests[k] in c.requests;
      AnswerRecord(c.requests[k], r, d.stopping);
    } else {
      k := |c.requests|;
    }
  }

  lemma ChunkChanges(c: Conn, id: nat, text: string) returns (k: nat)
    requires AllWaiting(c.requests) && !Reaches(c, StepChunk(id, text))
    ensures var d := ChunkTo(c, id, text).0;
      k <= |c.requests| && if k == |c.requests| then d == c else ChangesAt(c, d, k)
  {
    hide IndexOf, CompletedBefore, RequestOk;
    k := IndexOf(c.requests, id);
    if k < |c.requests| && c.requests[k].response.Some? && !c.requests[k].response.value.completed {
      assert c.requests[k] in c.requests;
      WaitingChunkRecord(c.requests[k], text);
    } else {
      k := |c.requests|;
    }
  }

  lemma FinalChanges(c: Conn, id: nat, text: string, drained: bool) returns (k: nat)
    requires AllWaiting(c.requests) && !Reaches(c, StepFinal(id, text, drained))
    ensures var d := FinalTo(c, id, text, drained).0;
      k <= |c.requests| && if k == |c.requests| then d == c else ChangesAt(c, d, k)
  {
    hide IndexOf, CompletedBefore, Finish, RequestOk;
    k := IndexOf(c.requests, id);
    if k < |c.requests| && c.requests[k].response.Some? && !c.requests[k].response.value.completed {
      assert c.requests[k] in c.requests;
      WaitingFinalRecord(c.requests[k], text);
    } else {
      k := |c.requests|;
    }
  }

  lemma ContinueChanges(c: Conn, id: nat)
    requires !Reaches(c, StepContinue(id))
    ensures ContinueTo(c, id).0 == c
  {
    hide IndexOf;
  }

  lemma EnableChanges(c: Conn, id: nat) returns (k: nat)
    requires AllWaiting(c.requests)
    ensures var d := EnablePartial(c, id);
      k <= |c.requests| && if k == |c.requests| then d == c else ChangesAt(c, d, k)
  {
    hide IndexOf;
    k := IndexOf(c.requests, id);
    if k < |c.requests| { assert c.requests[k] in c.requests; }
  }

  /** Nor does it write anything, and nobody leaves. */
  ghost predicate SameQueue(c: Conn, d: Conn) {
    && d.wire == c.wire && d.link == c.link && d.closing == c.closing && d.departed == c.departed
    && |d.requests| == |c.requests| && forall i :: 0 <= i < |c.requests| ==> d.requests[i].id == c.requests[i].id
  }

  lemma {:induction false} QuietCall(c: Conn, s: Step, on: Handler)
    requires Answering(s) && !Reaches(c, s)
    ensures !EndsFront(c, s) && !AnswersFront(c, s) && StepOn(c, s, on) == Next(c, s) && SameQueue(c, Next(c, s))
  {
    StepSizes(c, s);
    QuietNext(c, s);
    hide Next;
  }

  lemma QuietNext(c: Conn, s: Step)
    requires Answering(s) && !Reaches(c, s)
    ensures SameQueue(c, Next(c, s))
  {
    hide RespondTo, ChunkTo, FinalTo, ContinueTo, EnablePartial, SameQueue;
    match s
    case StepRespond(id, r, drained) => QuietRespond(c, id, r, drained);
    case StepChunk(id, text) => QuietChunk(c, id, text);
    case StepFinal(id, text, drained) => QuietFinal(c, id, text, drained);
    case StepContinue(id) =>
      ContinueChanges(c, id);
      assert SameQueue(c, c) by { SameSelf(c); }
    case StepEnablePartial(id) => QuietEnable(c, id);
  }

  lemma SameSelf(c: Conn)
    ensures SameQueue(c, c)
  {
  }

  lemma QuietRespond(c: Conn, id: nat, r: Response, drained: bool)
    requires !Reaches(c, StepRespond(id, r, drained))
    ensures SameQueue(c, RespondTo(c, id, r, drained).0)
  {
    hide IndexOf, WriteNext, Taken;
  }

  lemma QuietChunk(c: Conn, id: nat, text: string)
    requires !Reaches(c, StepChunk(id, text))
    ensures SameQueue(c, ChunkTo(c, id, text).0)
  {
    hide IndexOf, CompletedBefore;
  }

  lemma QuietFinal(c: Conn, id: nat, text: string, drained: bool)
    requires !Reaches(c, StepFinal(id, text, drained))
    ensures SameQueue(c, FinalTo(c, id, text, drained).0)
  {
    hide IndexOf, CompletedBefore, Finish;
  }

  lemma QuietEnable(c: Conn, id: nat)
    ensures SameQueue(c, EnablePartial(c, id))
  {
    hide IndexOf;
  }

  // ---------------------------------------------------------------- calls that reach the queue

  /** Behind a closing head, a call that reaches the queue writes something that does not belong there. */
  lemma {:induction false} ReachSpoils(c: Conn, s: Step, id: nat, on: Handler)
    requires Reaches(c, s) && c.link.Up? && LastWord(c.wire) == Some(id) && c.requests[0].id != id
    ensures !ClosedLast(StepOn(c, s, on).wire)
  {
    StepSizes(c, s);
    var f := ReachWrites(c, s, on);
    hide StepOn, Reaches;
    ClosedLastOne(c.wire, f);
    if ClosedLast(StepOn(c, s, on).wire) { ClosedLastPrefix(c.wire + [f], StepOn(c, s, on).wire); }
  }

  lemma {:induction false} ReachWrites(c: Conn, s: Step, on: Handler) returns (f: Frame)
    requires Reaches(c, s) && c.link.Up?
    ensures c.wire + [f] <= StepOn(c, s, on).wire && f.id == c.requests[0].id
  {
    StepSizes(c, s);
    hide CompletedBefore, FinishOn, WriteOn;
    match s
    case StepRespond(id, r, drained) =>
      var t := Given(c, s);
      assert t.wire == c.wire && t.link.Up?;
      f := HeadFirst(t, drained, on);
    case StepChunk(id, text) => f := Chunk(id, text);
    case StepFinal(id, text, drained) =>
      f := Final(id, text);
      FinishOnGrows(Ended(c, text), drained, on);
    case StepContinue(id) => f := Continue(id);
  }

  lemma {:induction false} HeadFirst(c: Conn, drained: bool, on: Handler) returns (f: Frame)
    requires c.requests != [] && c.requests[0].response.Some? && c.link.Up?
    ensures f.Head? && f.id == c.requests[0].id && c.wire + [f] <= WriteOn(c, drained, on).wire
  {
    var q := Marked(c.requests[0]);
    var frames := ToVector(q.id, q.headKeepAlive, q.response.value);
    f := frames[0];
    assert [f] + frames[1..] == frames;
    SendOnGrows(c, on);
    SendStarts(c, on, frames);
    hide SendOn, FinishOn, ToVector;
    var e := SendOn(c, on);
    assert c.wire + [f] <= c.wire + frames;
    if e.requests[0].response.value.completed { FinishOnGrows(e, drained, on); }
  }

  lemma {:induction false} SendStarts(c: Conn, on: Handler, frames: seq<Frame>)
    requires c.requests != [] && c.requests[0].response.Some? && c.link.Up?
    requires var q := Marked(c.requests[0]); frames == ToVector(q.id, q.headKeepAlive, q.response.value)
    ensures c.wire + frames <= SendOn(c, on).wire
  {
    if KeepsOn(c.requests[0]) {
      SendHeadGrows(c);
      assert SendHead(c).wire == c.wire + frames;
      hide SendHead, SendFront;
    } else {
      SendOnGrows(c, on);
      assert Popped(c).wire == c.wire + frames;
      hide SendOn, Popped;
    }
  }

  lemma SendHeadGrows(c: Conn)
    requires c.requests != [] && c.requests[0].response.Some?
    ensures Grows(SendHead(c), SendFront(c))
  {
    hide ToVector, Chunks, Drops, Marked;
    assert SendHead(c).requests != [];
    hide SendHead;
  }

  /** None of these requests is request `id`. */
  predicate NoneIs(qs: seq<Request>, id: nat) {
    forall i :: 0 <= i < |qs| ==> qs[i].id != id
  }

  lemma {:induction false} PassSpoils(c: Conn, calls: seq<Step>, id: nat, on: Handler)
    requires PassReaches(c, calls, on) && c.link.Up? && LastWord(c.wire) == Some(id) && NoneIs(c.requests, id)
    ensures !ClosedLast(PlayOn(c, calls, on).wire)
    decreases |calls|
  {
    hide StepOn, Reaches, Next, ClosedLast, LastWord;
    var s, rest := calls[0], calls[1..];
    if !Answering(s) {
      PassSpoils(c, rest, id, on);
    } else {
      var d := StepOn(c, s, on);
      if Reaches(c, s) {
        ReachesSomebody(c, s);
        ReachSpoils(c, s, id, on);
        PlayOnGrows(d, rest, on);
        if ClosedLast(PlayOn(d, rest, on).wire) { ClosedLastPrefix(d.wire, PlayOn(d, rest, on).wire); }
      } else {
        QuietCall(c, s, on);
        PassSpoils(d, rest, id, on);
      }
    }
  }

  lemma ReachesSomebody(c: Conn, s: Step)
    requires Reaches(c, s)
    ensures c.requests != []
  {
  }

  lemma {:induction false} PassQuiet(c: Conn, calls: seq<Step>, on: Handler)
    requires !PassReaches(c, calls, on)
    ensures SameQueue(c, PlayOn(c, calls, on))
    decreases |calls|
  {
    hide StepOn, Reaches, Next;
    if calls == [] {
    } else if !Answering(calls[0]) {
      PassQuiet(c, calls[1..], on);
    } else {
      QuietCall(c, calls[0], on);
      PassQuiet(StepOn(c, calls[0], on), calls[1..], on);
    }
  }

  lemma {:induction false} DropSpoils(c: Conn, id: nat, on: Handler)
    requires DropReaches(c, on) && c.link.Up? && LastWord(c.wire) == Some(id) && NoneIs(c.requests, id)
    ensures !ClosedLast(DropOn(c, on).wire)
    decreases |c.requests|
  {
    hide PlayOn, PassReaches, ClosedLast, LastWord, FateOfDrop;
    var calls := on(c.requests[0].id);
    var d := Depart(c, FateOfDrop(c.requests[0]));
    var e := DropNextOn(c, on);
    if PassReaches(d, calls, on) {
      PassSpoils(d, calls, id, on);
      DropOnGrows(e, on);
      if ClosedLast(DropOn(e, on).wire) { ClosedLastPrefix(e.wire, DropOn(e, on).wire); }
    } else {
      PassQuiet(d, calls, on);
      DropSpoils(e, id, on);
    }
  }

  // ---------------------------------------------------------------- calls made early

  /** While the requests behind the front of `v` are dropped, `n - 1` of them have left: the queue of `x` is what
      remains, and `b` is the connection as it was before. */
  ghost predicate Dropping(v: Conn, n: nat, x: Conn, b: Conn) {
    && 1 <= n <= |v.requests|
    && x == b.(requests := v.requests[n..], departed := v.departed + Drops(v.requests[1..n]),
               processed := v.processed, stopping := v.stopping)
  }

  /** The same connection with other waiting requests behind the same front. */
  ghost predicate SameFront(v: Conn, w: Conn) {
    && w == v.(requests := w.requests, processed := w.processed, stopping := w.stopping)
    && |w.requests| == |v.requests| && v.requests != [] && w.requests[0] == v.requests[0]
  }

  /** One request changes, without being written, while the front waits to be written. */
  lemma PlaceBetween(c: Conn, d: Conn, k: nat)
    requires CanSend(c) && ReadOk(c) && ChangesAt(c, d, k)
    ensures CanSend(d) && ReadOk(d)
  {
    hide RecordsOk, Shape, Order, IdsOk, UpOk, WireOk, ScanOk, ReadOk, RequestOk;
    PlaceKeeps(c, d, k, d.requests[k]);
    ReadingKeeps(c, d);
  }

  lemma CanSendWaiting(c: Conn)
    requires CanSend(c)
    ensures AllWaiting(c.requests)
  {
    hide IdsOk, Order, UpOk, WireOk, ScanOk, RequestOk;
    forall q | q in c.requests ensures RequestOk(q) && !q.written {
      var i :| 0 <= i < |c.requests| && c.requests[i] == q;
    }
  }

  lemma RestWaiting(qs: seq<Request>, n: nat)
    requires AllWaiting(qs) && n <= |qs|
    ensures AllWaiting(qs[n..])
  {
    hide RequestOk;
  }

  lemma DroppingQueue(v: Conn, n: nat, x: Conn, b: Conn)
    requires Dropping(v, n, x, b)
    ensures n <= |v.requests| && x.requests == v.requests[n..] && SameFront(v, v)
    ensures x.requests == [] ==> n == |v.requests|
  {
  }

  /** A call on the rest of the queue could have been made before the front was sent. */
  lemma {:induction false} CallEarly(v: Conn, n: nat, x: Conn, b: Conn, s: Step, on: Handler) returns (w: Conn)
    requires Dropping(v, n, x, b) && CanSend(v) && ReadOk(v) && Answering(s) && !Reaches(x, s)
    ensures Dropping(w, n, StepOn(x, s, on), b) && CanSend(w) && ReadOk(w) && SameFront(v, w)
  {
    hide CanSend, ReadOk, AllWaiting, Next, Reaches, ChangesAt, Dropping, StepOn, SameFront;
    CanSendWaiting(v);
    DroppingQueue(v, n, x, b);
    RestWaiting(v.requests, n);
    var k := CallChanges(x, s);
    QuietCall(x, s, on);
    if k < |x.requests| { w := ChangeEarly(v, n, x, b, Next(x, s), k); } else { w := v; }
  }

  lemma ChangeEarly(v: Conn, n: nat, x: Conn, b: Conn, y: Conn, k: nat) returns (w: Conn)
    requires Dropping(v, n, x, b) && CanSend(v) && ReadOk(v) && ChangesAt(x, y, k)
    ensures Dropping(w, n, y, b) && CanSend(w) && ReadOk(w) && SameFront(v, w)
  {
    hide CanSend, ReadOk, RequestOk, Drops, Alike;
    w := v.(requests := v.requests[n + k := y.requests[k]], processed := y.processed, stopping := y.stopping);
    assert y.requests == w.requests[n..];
    assert w.requests[1..n] == v.requests[1..n];
    assert ChangesAt(v, w, n + k);
    hide ChangesAt, Dropping, SameFront;
    PlaceBetween(v, w, n + k);
  }

  lemma SameFrontTwice(u: Conn, v: Conn, w: Conn)
    requires SameFront(u, v) && SameFront(v, w)
    ensures SameFront(u, w)
  {
  }

  lemma {:induction false} PassEarly(v: Conn, n: nat, x: Conn, b: Conn, calls: seq<Step>, on: Handler) returns (w: Conn)
    requires Dropping(v, n, x, b) && CanSend(v) && ReadOk(v) && !PassReaches(x, calls, on)
    ensures Dropping(w, n, PlayOn(x, calls, on), b) && CanSend(w) && ReadOk(w) && SameFront(v, w)
    decreases |calls|
  {
    hide CanSend, ReadOk, Reaches, StepOn, Dropping, SameFront;
    DroppingQueue(v, n, x, b);
    if calls == [] {
      w := v;
    } else if !Answering(calls[0]) {
      w := PassEarly(v, n, x, b, calls[1..], on);
    } else {
      var u := CallEarly(v, n, x, b, calls[0], on);
      w := PassEarly(u, n, StepOn(x, calls[0], on), b, calls[1..], on);
      SameFrontTwice(v, u, w);
    }
  }

  lemma OneDropped(v: Conn, n: nat, x: Conn, b: Conn)
    requires Dropping(v, n, x, b) && x.requests != []
    ensures Dropping(v, n + 1, Depart(x, FateOfDrop(x.requests[0])), b)
  {
    hide FateOfDrop;
    assert v.requests[1..n + 1] == v.requests[1..n] + [v.requests[n]];
    assert Drops(v.requests[1..n + 1]) == Drops(v.requests[1..n]) + [Departure(v.requests[n], FateOfDrop(v.requests[n]))];
  }

  /** If no call reaches the queue while it is dropped, all could have been made before. */
  lemma {:induction false} DropEarly(v: Conn, n: nat, x: Conn, b: Conn, on: Handler) returns (w: Conn)
    requires Dropping(v, n, x, b) && CanSend(v) && ReadOk(v) && !DropReaches(x, on)
    ensures Dropping(w, |w.requests|, DropOn(x, on), b) && CanSend(w) && ReadOk(w) && SameFront(v, w)
    decreases |x.requests|
  {
    hide CanSend, ReadOk, PlayOn, PassReaches, FateOfDrop, Dropping, SameFront;
    DroppingQueue(v, n, x, b);
    if x.requests == [] {
      w := v;
    } else {
      OneDropped(v, n, x, b);
      var u := PassEarly(v, n + 1, Depart(x, FateOfDrop(x.requests[0])), b, on(x.requests[0].id), on);
      w := DropEarly(u, n + 1, DropNextOn(x, on), b, on);
      SameFrontTwice(v, u, w);
    }
  }

  // ---------------------------------------------------------------- the closing response, while it is off the queue

  lemma {:induction false} HeldPass(c: Conn, f: Request, calls: seq<Step>, on: Handler)
    requires !PassReaches(c, calls, on) && f.response.Some?
    ensures HeldPlay(c, f, calls, on) == HeldCalls(f, calls, c.requests != [])
    decreases |calls|
  {
    hide StepOn, Reaches, Next, HeldCall;
    if calls == [] {
    } else if !Answering(calls[0]) {
      HeldPass(c, f, calls[1..], on);
      assert HeldCall(f, calls[0], c.requests != []) == f by { HeldOther(f, calls[0], c.requests != []); }
    } else {
      var g := HeldCall(f, calls[0], c.requests != []);
      QuietCall(c, calls[0], on);
      QuietHeld(c, g, calls[0], on);
      HeldPass(StepOn(c, calls[0], on), g, calls[1..], on);
    }
  }

  lemma HeldOther(f: Request, s: Step, queued: bool)
    requires f.response.Some? && !Answering(s)
    ensures HeldCall(f, s, queued) == f
  {
  }

  lemma {:induction false} QuietHeld(c: Conn, f: Request, s: Step, on: Handler)
    requires Answering(s) && f.response.Some? && !EndsFront(c, s) && !AnswersFront(c, s)
    ensures HeldStep(c, f, s, on) == f
  {
  }

  predicate SameIds(qs: seq<Request>, rs: seq<Request>) {
    |qs| == |rs| && forall i :: 0 <= i < |qs| ==> qs[i].id == rs[i].id
  }

  lemma {:induction false} HeldAlike(f: Request, qs: seq<Request>, rs: seq<Request>, on: Handler)
    requires f.response.Some? && SameIds(qs, rs)
    ensures HeldAll(f, qs, on) == HeldAll(f, rs, on)
    decreases |qs|
  {
    hide HeldCalls;
    if qs != [] {
      assert qs[0].id == rs[0].id;
      HeldAlike(HeldCalls(f, on(qs[0].id), |qs| > 1), qs[1..], rs[1..], on);
    }
  }

  lemma {:induction false} HeldPlain(c: Conn, f: Request, on: Handler)
    requires !DropReaches(c, on) && f.response.Some?
    ensures HeldDrop(c, f, on) == HeldAll(f, c.requests, on)
    decreases |c.requests|
  {
    hide PlayOn, PassReaches, HeldPlay, HeldCalls, FateOfDrop;
    if c.requests != [] {
      var calls := on(c.requests[0].id);
      var d := Depart(c, FateOfDrop(c.requests[0]));
      var g := HeldCalls(f, calls, |c.requests| > 1);
      PassQuiet(d, calls, on);
      HeldPass(d, f, calls, on);
      HeldPlain(DropNextOn(c, on), g, on);
      HeldAlike(g, DropNextOn(c, on).requests, c.requests[1..], on);
    }
  }

  /** If no call reaches the queue, dropping it writes nothing. */
  lemma {:induction false} DropQuiet(c: Conn, on: Handler)
    requires !DropReaches(c, on)
    ensures var d := DropOn(c, on); d.wire == c.wire && d.link == c.link && d.closing == c.closing
    decreases |c.requests|
  {
    hide PlayOn, PassReaches, FateOfDrop;
    if c.requests != [] {
      PassQuiet(Depart(c, FateOfDrop(c.requests[0])), on(c.requests[0].id), on);
      DropQuiet(DropNextOn(c, on), on);
    }
  }

  // ---------------------------------------------------------------- calls on it that could have been made early

  /** The response of `p` is that of `q`, or that of `q` completed before anything was gathered for it. */
  predicate SentAlike(q: Request, p: Request)
    requires q.response.Some? && p.response.Some?
  {
    || p.response == q.response
    || (!q.response.value.completed && Waiting(q) == [] && p.response.value == q.response.value.(completed := true))
  }

  /** `f` is `p` as it is sent, and `p` is `q` with more calls made while it waits. */
  ghost predicate HeldEarly(q: Request, p: Request, f: Request) {
    && q.response.Some? && p.response.Some? && f == Marked(p)
    && RequestOk(p) && !p.written && Alike(q, p) && SentAlike(q, p)
  }

  lemma HeldCallEarly(q: Request, p: Request, f: Request, s: Step, queued: bool) returns (r: Request)
    requires HeldEarly(q, p, f) && !Hurts(f, Waiting(q) != [], s, queued)
    ensures HeldEarly(q, r, HeldCall(f, s, queued))
  {
    hide RequestOk;
    r := p;
    if Answering(s) && s.id == f.id {
      if s.StepEnablePartial? {
        r := p.(partial := true);
        PartialRecord(p);
      } else if (s.StepChunk? || s.StepFinal?) && queued && !p.response.value.completed {
        if s.StepChunk? {
          r := p.(calls := p.calls + [SendChunk(s.text)]);
          WaitingChunkRecord(p, s.text);
          assert p.(response := Some(p.response.value), calls := p.calls + [SendChunk(s.text)]) == r;
        } else {
          r := p.(response := Some(p.response.value.(completed := true)), calls := p.calls + [SendFinal(s.text, false)]);
          WaitingFinalRecord(p, s.text);
        }
      }
    }
  }

  lemma PartialRecord(p: Request)
    requires RequestOk(p)
    ensures RequestOk(p.(partial := true))
  {
  }

  lemma {:induction false} HeldCallsEarly(q: Request, p: Request, f: Request, calls: seq<Step>, queued: bool) returns (r: Request)
    requires HeldEarly(q, p, f) && f.response.Some? && !PassHurts(f, Waiting(q) != [], calls, queued)
    ensures HeldEarly(q, r, HeldCalls(f, calls, queued))
    decreases |calls|
  {
    hide HeldEarly, HeldCall, Hurts, Waiting;
    if calls == [] {
      r := p;
    } else {
      r := HeldCallEarly(q, p, f, calls[0], queued);
      r := HeldCallsEarly(q, r, HeldCall(f, calls[0], queued), calls[1..], queued);
    }
  }

  lemma {:induction false} HeldAllEarly(q: Request, p: Request, f: Request, qs: seq<Request>, on: Handler) returns (r: Request)
    requires HeldEarly(q, p, f) && f.response.Some? && !DropHurts(f, Waiting(q) != [], qs, on)
    ensures HeldEarly(q, r, HeldAll(f, qs, on))
    decreases |qs|
  {
    hide HeldEarly, HeldCalls, PassHurts, Waiting;
    if qs == [] {
      r := p;
    } else {
      r := HeldCallsEarly(q, p, f, on(qs[0].id), |qs| > 1);
      r := HeldAllEarly(q, r, HeldCalls(f, on(qs[0].id), |qs| > 1), qs[1..], on);
    }
  }

  // ---------------------------------------------------------------- sending without disturbance

  /** A front that is sent without disturbance is sent as in module Connection, after the calls that were made
      while requests were dropped behind it. */
  lemma {:induction false} SendEarly(c: Conn, on: Handler) returns (v: Conn)
    requires CanSend(c) && ReadOk(c) && !SendDisturbed(c, on)
    ensures CanSend(v) && ReadOk(v) && v.requests != [] && v.requests[0].response.Some? && |v.requests| == |c.requests|
    ensures SendOn(c, on) == SendFront(v)
    ensures v == c.(requests := v.requests, processed := v.processed, stopping := v.stopping)
    ensures v.requests[0].id == c.requests[0].id
  {
    CanSendUp(c);
    if KeepsOn(c.requests[0]) {
      v := c;
    } else {
      v := SendClosingEarly(c, on);
    }
  }

  lemma {:induction false} SendClosingEarly(c: Conn, on: Handler) returns (v: Conn)
    requires CanSend(c) && ReadOk(c) && c.requests != [] && c.requests[0].response.Some?
    requires !KeepsOn(c.requests[0]) && !SendDisturbed(c, on)
    ensures CanSend(v) && ReadOk(v) && v.requests != [] && v.requests[0].response.Some? && |v.requests| == |c.requests|
    ensures SendOn(c, on) == SendFront(v)
    ensures v == c.(requests := v.requests, processed := v.processed, stopping := v.stopping)
    ensures v.requests[0].id == c.requests[0].id
  {
    var q := c.requests[0];
    var b := Popped(c);
    StartsDropping(c);
    CanSendRecord(c, 0);
    StartsHeld(q);
    PoppedIs(c);
    hide CanSend, ReadOk, Popped, Dropping, HeldEarly, DropOn, HeldDrop, HeldAll, DropHurts, DropReaches, Waiting, Marked, SendFront, SameFront;
    var w := DropEarly(c, 1, b, b, on);
    HeldPlain(b, Marked(q), on);
    var p := HeldAllEarly(q, q, Marked(q), c.requests[1..], on);
    v := PlaceFront(c, w, p, q, HeldAll(Marked(q), c.requests[1..], on));
    SentEarly(c, w, v, p, on);
  }

  lemma StartsDropping(c: Conn)
    requires c.requests != [] && c.requests[0].response.Some?
    ensures Dropping(c, 1, Popped(c), Popped(c))
  {
    hide ToVector, Marked;
    assert c.requests[1..1] == [];
    DropsNone();
  }

  lemma StartsHeld(q: Request)
    requires q.response.Some? && RequestOk(q) && !q.written
    ensures HeldEarly(q, q, Marked(q))
  {
    hide RequestOk, Marked;
  }

  lemma PlaceFront(c: Conn, w: Conn, p: Request, q: Request, f: Request) returns (v: Conn)
    requires CanSend(w) && ReadOk(w) && SameFront(c, w) && c.requests[0] == q && HeldEarly(q, p, f)
    ensures v == w.(requests := w.requests[0 := p]) && CanSend(v) && ReadOk(v)
  {
    hide CanSend, ReadOk, RequestOk, Marked;
    v := w.(requests := w.requests[0 := p]);
    assert ChangesAt(w, v, 0);
    PlaceBetween(w, v, 0);
  }

  lemma {:induction false} SentEarly(c: Conn, w: Conn, v: Conn, p: Request, on: Handler)
    requires c.requests != [] && c.requests[0].response.Some? && !KeepsOn(c.requests[0]) && SameFront(c, w)
    requires Dropping(w, |w.requests|, DropOn(Popped(c), on), Popped(c))
    requires HeldEarly(c.requests[0], p, HeldDrop(Popped(c), Marked(c.requests[0]), on))
    requires v == w.(requests := w.requests[0 := p])
    ensures SendOn(c, on) == SendFront(v)
    ensures v == c.(requests := v.requests, processed := v.processed, stopping := v.stopping)
    ensures v.requests[0].id == c.requests[0].id
  {
    var q := c.requests[0];
    var f := HeldDrop(Popped(c), Marked(q), on);
    var e := DropOn(Popped(c), on);
    SentFrames(q, p);
    assert !KeepsOn(p);
    hide KeepsOn, DropOn, HeldDrop, RequestOk, Drops, ToVector, Chunks, Waiting, Marked, SentAlike;
    SendFrontClosing(v);
    PoppedAlike(c, v, p);
    assert v.requests[1..] == w.requests[1..] == w.requests[1..|w.requests|];
    assert e.requests == [];
    assert [f] + e.requests == [f];
    hide Popped, SendFront;
  }

  /** What is written of a response does not depend on the calls in between. */
  lemma SentFrames(q: Request, p: Request)
    requires q.response.Some? && p.response.Some? && Alike(q, p) && SentAlike(q, p)
    ensures p.id == q.id && p.done == q.done && p.header == q.header && p.response.value.keepAlive == q.response.value.keepAlive
    ensures var m, n := Marked(q), Marked(p);
      ToVector(m.id, m.headKeepAlive, m.response.value) == ToVector(n.id, n.headKeepAlive, n.response.value)
    ensures Chunks(p.id, Waiting(p)) == if Marked(p).response.value.completed then [] else Chunks(q.id, Waiting(q))
  {
    NoChunks(p.id);
  }

  lemma PoppedAlike(c: Conn, v: Conn, p: Request)
    requires c.requests != [] && c.requests[0].response.Some? && v.requests != [] && v.requests[0] == p && p.response.Some?
    requires v == c.(requests := v.requests, processed := v.processed, stopping := v.stopping)
    requires p.done == c.requests[0].done
    requires var m, n := Marked(c.requests[0]), Marked(p);
      ToVector(m.id, m.headKeepAlive, m.response.value) == ToVector(n.id, n.headKeepAlive, n.response.value)
    ensures Popped(v) == Popped(c).(requests := v.requests[1..], processed := v.processed, stopping := v.stopping)
  {
    hide ToVector;
  }

  lemma CanSendRecord(c: Conn, k: nat)
    requires CanSend(c) && k < |c.requests|
    ensures RequestOk(c.requests[k]) && (k > 0 ==> !c.requests[k].written) && !c.requests[0].written
    ensures c.requests[k].response.None? ==> !c.requests[k].written
  {
    hide Accepted, Complete, Holds, AllQueued, FateOk, IdsOk, Order, UpOk, WireOk, ScanOk;
    assert RequestOk(c.requests[k]);
  }

  // ---------------------------------------------------------------- pieces that are lost

  /** Less of the response is on the wire than its calls deliver. */
  ghost predicate ShortOf(wire: seq<Frame>, q: Request) {
    q.written && |Of(wire, q.id)| < |Out(q)|
  }

  /** The connection closes with a response of which something is missing. */
  ghost predicate Cropped(c: Conn) {
    && c.closing && |c.requests| <= 1
    && if c.requests == [] then exists i :: 0 <= i < |c.departed| && ShortOf(c.wire, c.departed[i].request)
       else c.link.Up? && c.requests[0].response.Some? && ShortOf(c.wire, c.requests[0])
  }

  /** Something has been taken from the response between `f` and `g`. */
  ghost predicate Bereft(f: Request, g: Request, gathered: bool)
    requires g.response.Some?
  {
    (g.response.value.completed && gathered) || |Out(g)| > |Out(f)|
  }

  /** `g` is `f` after more calls. */
  ghost predicate More(f: Request, g: Request) {
    && f.response.Some? && g.response.Some? && f.written && g.written && g.id == f.id && g.done == f.done
    && |Out(g)| >= |Out(f)| && (f.response.value.completed ==> g.response.value.completed)
  }

  lemma OutSnoc(f: Request, call: Call)
    requires f.written
    ensures Out(f.(calls := f.calls + [call])) == Out(f) + DeliveredFrames(f.id, f.headKeepAlive, f.calls, call)
  {
    DeliveredSnoc(f.id, f.headKeepAlive, f.calls, call);
  }

  lemma HeldCallMore(f: Request, gathered: bool, s: Step, queued: bool)
    requires f.response.Some? && f.written
    ensures More(f, HeldCall(f, s, queued))
    ensures Hurts(f, gathered, s, queued) ==> Bereft(f, HeldCall(f, s, queued), gathered)
  {
    var g := HeldCall(f, s, queued);
    assert g.id == f.id && g.headKeepAlive == f.headKeepAlive && g.written;
    if s.StepChunk? { OutSnoc(f, SendChunk(s.text)); }
    if s.StepFinal? { OutSnoc(f, SendFinal(s.text, false)); }
    assert g.calls == f.calls || (exists call :: g.calls == f.calls + [call]) by { HeldCallAdds(f, s, queued); }
    OutOnly(f, g);
    if s.StepChunk? { OutOnly(f.(calls := f.calls + [SendChunk(s.text)]), g); }
    if s.StepFinal? { OutOnly(f.(calls := f.calls + [SendFinal(s.text, false)]), g); }
    hide Delivered, DeliveredFrames;
  }

  lemma HeldCallAdds(f: Request, s: Step, queued: bool)
    requires f.response.Some?
    ensures var g := HeldCall(f, s, queued); g.calls == f.calls || exists call :: g.calls == f.calls + [call]
  {
  }

  /** What a request has put on the wire depends on its calls only. */
  lemma OutOnly(f: Request, g: Request)
    ensures f.id == g.id && f.written == g.written && f.headKeepAlive == g.headKeepAlive && f.calls == g.calls ==> Out(f) == Out(g)
  {
  }

  lemma {:induction false} HeldCallsMore(f: Request, gathered: bool, calls: seq<Step>, queued: bool)
    requires f.response.Some? && f.written
    ensures More(f, HeldCalls(f, calls, queued))
    ensures PassHurts(f, gathered, calls, queued) ==> Bereft(f, HeldCalls(f, calls, queued), gathered)
    decreases |calls|
  {
    hide HeldCall, Hurts, Out;
    if calls != [] {
      HeldCallMore(f, gathered, calls[0], queued);
      HeldCallsMore(HeldCall(f, calls[0], queued), gathered, calls[1..], queued);
    }
  }

  lemma {:induction false} HeldAllMore(f: Request, gathered: bool, qs: seq<Request>, on: Handler)
    requires f.response.Some? && f.written
    ensures More(f, HeldAll(f, qs, on))
    ensures DropHurts(f, gathered, qs, on) ==> Bereft(f, HeldAll(f, qs, on), gathered)
    decreases |qs|
  {
    hide HeldCalls, PassHurts, Out;
    if qs != [] {
      HeldCallsMore(f, gathered, on(qs[0].id), |qs| > 1);
      HeldAllMore(HeldCalls(f, on(qs[0].id), |qs| > 1), gathered, qs[1..], on);
    }
  }

  /** What the front is worth is its first write and what has been gathered. */
  lemma FrontOut(q: Request)
    requires RequestOk(q) && q.response.Some? && !q.written
    ensures var m := Marked(q);
      && Out(m) == ToVector(m.id, m.headKeepAlive, m.response.value) + Chunks(q.id, Waiting(q))
      && (Waiting(q) != [] ==> Chunks(q.id, Waiting(q)) != [])
  {
    var m := Marked(q);
    FlushIsDelivered(q.id, m.headKeepAlive, q.response.value, q.calls);
    FlushSplits(q.id, m.headKeepAlive, q.response.value);
    NoChunks(q.id);
    hide ToVector;
  }

  lemma {:induction false} PlainFrames(id: nat, keepAlive: bool, r: Response, parts: seq<Piece>)
    ensures Of(ToVector(id, keepAlive, r), id) == ToVector(id, keepAlive, r)
    ensures Of(Chunks(id, parts), id) == Chunks(id, parts)
  {
    VectorIsResponse(id, keepAlive, r);
    OfAll(ToVector(id, keepAlive, r), id);
    ChunksAre(id, parts);
    OfAll(Chunks(id, parts), id);
  }

  lemma NothingYet(c: Conn)
    requires CanSend(c)
    ensures Of(c.wire, c.requests[0].id) == []
  {
    hide RecordsOk, IdsOk, WireOk, Shape, Order, UpOk, ScanOk;
    assert History(c)[|c.departed|] == c.requests[0];
    OfHistory(c, c.requests[0]);
  }

  /** What write_next_response writes for a closing front if no call reaches the queue. */
  lemma {:induction false} ClosingSent(c: Conn, on: Handler)
    requires c.requests != [] && c.requests[0].response.Some? && !KeepsOn(c.requests[0]) && c.link.Up?
    requires !DropReaches(Popped(c), on)
    ensures var q := c.requests[0];
      var m := Marked(q);
      var g := HeldAll(m, c.requests[1..], on);
      var w := SendOn(c, on);
      && w.requests == [g] && w.closing && w.link.Up?
      && w.wire == c.wire + ToVector(m.id, m.headKeepAlive, m.response.value)
           + if g.response.value.completed then [] else Chunks(q.id, Waiting(q))
  {
    var q := c.requests[0];
    var m := Marked(q);
    var b := Popped(c);
    PoppedIs(c);
    assert b.wire == c.wire + ToVector(m.id, m.headKeepAlive, m.response.value);
    DropQuiet(b, on);
    HeldPlain(b, m, on);
    hide Popped, DropOn, HeldDrop, HeldAll, DropReaches, Waiting, Marked, KeepsOn, ToVector, Chunks;
    assert [HeldAll(m, c.requests[1..], on)] + DropOn(b, on).requests == [HeldAll(m, c.requests[1..], on)];
  }

  /** If a call takes something from the closing response, and none reaches the queue, the response is cropped. */
  lemma {:induction false} HurtCrops(c: Conn, on: Handler)
    requires CanSend(c) && c.requests != [] && c.requests[0].response.Some? && !KeepsOn(c.requests[0])
    requires !DropReaches(Popped(c), on)
    requires DropHurts(Marked(c.requests[0]), Waiting(c.requests[0]) != [], c.requests[1..], on)
    ensures Cropped(SendOn(c, on))
  {
    var q := c.requests[0];
    var m := Marked(q);
    CanSendRecord(c, 0);
    CanSendUp(c);
    FrontOut(q);
    PlainFrames(q.id, m.headKeepAlive, m.response.value, Waiting(q));
    NothingYet(c);
    MarkedIs(q);
    assert m.written;
    hide CanSend, RequestOk, Popped, SendOn, HeldAll, DropReaches, DropHurts, Waiting, Marked, KeepsOn, ToVector, Chunks, Out, Of,
      ShortOf, Bereft;
    ClosingSent(c, on);
    HeldAllMore(m, Waiting(q) != [], c.requests[1..], on);
    var g := HeldAll(m, c.requests[1..], on);
    ShortIs(c.wire, ToVector(m.id, m.headKeepAlive, m.response.value), Chunks(q.id, Waiting(q)), Waiting(q) != [], m, g);
  }

  /** A response from which something has been taken is not all on the wire. */
  lemma ShortIs(wire: seq<Frame>, v: seq<Frame>, t: seq<Frame>, gathered: bool, m: Request, g: Request)
    requires More(m, g) && Bereft(m, g, gathered) && Out(m) == v + t && (gathered ==> t != [])
    requires Of(wire, m.id) == [] && Of(v, m.id) == v && Of(t, m.id) == t
    ensures ShortOf(wire + v + if g.response.value.completed then [] else t, g)
  {
    hide Out, Of;
    OfThree(wire, v, if g.response.value.completed then [] else t, m.id);
  }

  lemma {:induction false} OfThree(a: seq<Frame>, b: seq<Frame>, d: seq<Frame>, id: nat)
    ensures Of(a + b + d, id) == Of(a, id) + Of(b, id) + Of(d, id)
    ensures Of([], id) == []
  {
    OfConcat(a, b, id);
    OfConcat(a + b, d, id);
  }

  // ---------------------------------------------------------------- a cropped response stays cropped

  lemma CroppedDown(c: Conn)
    requires Cropped(c)
    ensures Cropped(Shutdown(c))
  {
    hide ShortOf, FateOfDrop;
    var d := Shutdown(c);
    if c.requests == [] {
      assert Drops(c.requests) == [];
      assert d.departed == c.departed;
    } else {
      assert d.departed[|c.departed|].request == c.requests[0];
    }
  }

  lemma {:induction false} CroppedFinish(c: Conn, drained: bool, on: Handler)
    requires Cropped(c) && c.requests != []
    ensures Cropped(FinishOn(c, drained, on))
  {
    var q := c.requests[0];
    if !q.done {
      OutOnly(q, q.(finishOnReceive := true));
      hide Out;
    } else {
      hide Out;
      var d := Depart(c, Answered);
      assert d.departed[|c.departed|].request == q;
      hide ShortOf;
      NonePlayed(d, on(q.id), on);
      CroppedDown(d);
    }
  }

  lemma {:induction false} NoneCalled(c: Conn, s: Step, on: Handler)
    requires c.requests == [] && Answering(s)
    ensures StepOn(c, s, on) == c && !StepDisturbed(c, s, on)
  {
    hide CompletedBefore;
  }

  /** Nobody is there to be answered. */
  lemma {:induction false} NonePlayed(c: Conn, calls: seq<Step>, on: Handler)
    requires c.requests == []
    ensures PlayOn(c, calls, on) == c && !PlayDisturbed(c, calls, on)
    decreases |calls|
  {
    hide StepOn, StepDisturbed;
    if calls != [] {
      if Answering(calls[0]) { NoneCalled(c, calls[0], on); }
      NonePlayed(c, calls[1..], on);
    }
  }

  lemma {:induction false} CroppedCall(c: Conn, s: Step, on: Handler)
    requires Cropped(c) && Answering(s)
    ensures Cropped(StepOn(c, s, on))
  {
    StepSizes(c, s);
    if c.requests == [] {
      NoneCalled(c, s, on);
    } else if EndsFront(c, s) {
      CroppedEnd(c, s.text);
      hide Cropped, FinishOn, Ended;
      CroppedFinish(Ended(c, s.text), s.drained, on);
    } else {
      CroppedNext(c, s);
      hide Next, Cropped;
    }
  }

  lemma CroppedEnd(c: Conn, text: string)
    requires Cropped(c) && c.requests != []
    ensures Cropped(Ended(c, text))
  {
    var q := c.requests[0];
    OutSnoc(q, SendFinal(text, true));
    var d := Ended(c, text);
    OutOnly(q.(calls := q.calls + [SendFinal(text, true)]), d.requests[0]);
    hide Out, Delivered;
    OfConcat(c.wire, [Final(q.id, text)], q.id);
    OfAll([Final(q.id, text)], q.id);
  }

  lemma CroppedNext(c: Conn, s: Step)
    requires Cropped(c) && c.requests != [] && Answering(s) && !EndsFront(c, s)
    ensures Cropped(Next(c, s)) && !AnswersFront(c, s)
  {
    hide CompletedBefore, Finish, WriteNext;
    var q := c.requests[0];
    match s
    case StepChunk(id, text) => CroppedChunk(c, id, text);
    case StepEnablePartial(id) => OutOnly(q, q.(partial := true));
    case _ =>
  }

  lemma CroppedChunk(c: Conn, id: nat, text: string)
    requires Cropped(c) && c.requests != []
    ensures Cropped(ChunkTo(c, id, text).0)
  {
    var q := c.requests[0];
    var d := ChunkTo(c, id, text).0;
    if d != c {
      ChunkFront(c, id, text);
      OutSnoc(q, SendChunk(text));
      OutOnly(q.(calls := q.calls + [SendChunk(text)]), d.requests[0]);
      hide Out, Delivered, ChunkTo;
      ChunkOf(c.wire, q.id, text);
    }
  }

  lemma ChunkFront(c: Conn, id: nat, text: string)
    requires |c.requests| == 1 && c.link.Up? && ChunkTo(c, id, text).0 != c
    ensures var q := c.requests[0];
      var d := ChunkTo(c, id, text).0;
      && q.response.Some? && d.closing == c.closing && d.link == c.link
      && d.requests == [q.(response := Some(q.response.value), calls := q.calls + [SendChunk(text)])]
      && d.wire == c.wire + if text == "" then [] else [Chunk(q.id, text)]
  {
    hide CompletedBefore;
  }

  lemma {:induction false} ChunkOf(wire: seq<Frame>, id: nat, text: string)
    ensures var frames := if text == "" then [] else [Chunk(id, text)];
      Of(wire + frames, id) == Of(wire, id) + frames
  {
    var frames := if text == "" then [] else [Chunk(id, text)];
    OfConcat(wire, frames, id);
    OfAll(frames, id);
  }

  lemma {:induction false} CroppedPlay(c: Conn, calls: seq<Step>, on: Handler)
    requires Cropped(c)
    ensures Cropped(PlayOn(c, calls, on))
    decreases |calls|
  {
    hide Cropped, StepOn;
    if calls != [] {
      if Answering(calls[0]) {
        CroppedCall(c, calls[0], on);
        CroppedPlay(StepOn(c, calls[0], on), calls[1..], on);
      } else {
        CroppedPlay(c, calls[1..], on);
      }
    }
  }

  lemma CroppedMisses(c: Conn)
    requires Cropped(c)
    ensures !NothingMissing(c)
  {
    hide Out, Of;
    if c.requests == [] {
      var i :| 0 <= i < |c.departed| && ShortOf(c.wire, c.departed[i].request);
      assert History(c)[i] == c.departed[i].request;
    } else {
      assert History(c)[|c.departed|] == c.requests[0];
    }
  }

  // ---------------------------------------------------------------- the closing response comes last

  /** Nothing is behind the closing response; while the connection is up, that is the one of the front. */
  ghost predicate Tidy(c: Conn) {
    && ClosedLast(c.wire)
    && (LastWord(c.wire).Some? ==>
          c.closing && (c.link.Up? && c.requests != [] ==> LastWord(c.wire).value == c.requests[0].id))
  }

  lemma QuietTidy(c: Conn, d: Conn)
    requires Tidy(c) && d.wire == c.wire && (c.closing ==> d.closing)
    requires c.closing && d.link.Up? && d.requests != [] ==>
      c.link.Up? && c.requests != [] && d.requests[0].id == c.requests[0].id
    ensures Tidy(d)
  {
  }

  lemma SendTidy(c: Conn)
    requires CanSend(c) && Tidy(c)
    ensures Tidy(SendFront(c))
  {
    var q := c.requests[0];
    var keepAlive := q.response.value.keepAlive && q.header.keepAlive;
    var frames := FlushedFrames(q);
    CanSendRecord(c, 0);
    SendFrontFlushes(c);
    FlushIsDelivered(q.id, keepAlive, q.response.value, q.calls);
    DeliveredIsResponse(q.id, keepAlive, q.calls);
    hide CanSend, RequestOk, Delivered, OneResponse, ClosedLast, LastWord, SendFront, Drops;
    ResponseFits(c.wire, q.id, frames);
    FlushSaysKeep(q.id, keepAlive, q.response.value);
    hide Flush;
  }

  lemma FlushSaysKeep(id: nat, keepAlive: bool, r: Response)
    ensures Flush(id, keepAlive, r) != [] && Flush(id, keepAlive, r)[0].Head? && Flush(id, keepAlive, r)[0].keepAlive == keepAlive
  {
  }

  lemma EndedTidy(c: Conn, s: Step)
    requires Inv(c) && Tidy(c) && EndsFront(c, s)
    ensures Tidy(Ended(c, s.text))
  {
    hide Core, ReadOk, FrontOk, CloseOk;
    ClosedLastOne(c.wire, Final(c.requests[0].id, s.text));
    hide ClosedLast, LastWord;
  }

  lemma ChunkTidy(c: Conn, id: nat, text: string)
    requires Tidy(c)
    ensures Tidy(ChunkTo(c, id, text).0)
  {
    hide ClosedLast, LastWord, ChunkTo;
    ChunkShape(c, id, text);
    ClosedLastOne(c.wire, Chunk(id, text));
  }

  lemma ChunkShape(c: Conn, id: nat, text: string)
    ensures var d := ChunkTo(c, id, text).0;
      && d.closing == c.closing && d.link == c.link
      && |d.requests| == |c.requests| && (c.requests != [] ==> d.requests[0].id == c.requests[0].id)
      && (d.wire == c.wire || (c.link.Up? && c.requests != [] && c.requests[0].id == id && d.wire == c.wire + [Chunk(id, text)]))
  {
    if Reaches(c, StepChunk(id, text)) {
      ReachedChunk(c, id, text);
    } else {
      hide ChunkTo, Reaches;
      QuietChunk(c, id, text);
    }
  }

  lemma ReachedChunk(c: Conn, id: nat, text: string)
    requires Reaches(c, StepChunk(id, text))
    ensures var d := ChunkTo(c, id, text).0;
      && d.closing == c.closing && d.link == c.link
      && |d.requests| == |c.requests| && c.requests[0].id == id && d.requests[0].id == id
      && d.wire == if c.link.Up? then c.wire + [Chunk(id, text)] else c.wire
  {
    hide CompletedBefore;
    assert IndexOf(c.requests, id) == 0;
  }

  lemma ContinueTidy(c: Conn, id: nat)
    requires Inv(c) && Tidy(c)
    ensures Tidy(ContinueTo(c, id).0)
  {
    hide IndexOf, ClosedLast, LastWord, RecordsOk, IdsOk, Order, UpOk, WireOk, ScanOk, ReadOk, FrontOk;
    ClosedLastOne(c.wire, Continue(id));
    if c.requests != [] && c.requests[0].response.None? && c.link.Up? { NotClosingYet(c); }
  }

  lemma NotClosingYet(c: Conn)
    requires Inv(c) && c.requests != [] && c.requests[0].response.None? && c.link.Up?
    ensures !c.closing
  {
    hide Accepted, Complete, Holds, AllQueued, FateOk, IdsOk, Order, UpOk, WireOk, ScanOk, ReadOk;
    assert RequestOk(c.requests[0]);
  }

  /** An answering call that ends no answer and gives none to the front. */
  lemma {:induction false} CallTidy(c: Conn, s: Step)
    requires Inv(c) && Tidy(c) && Answering(s) && !EndsFront(c, s) && !AnswersFront(c, s)
    ensures Tidy(Next(c, s))
  {
    hide Inv, Tidy, ChunkTo, ContinueTo;
    match s
    case StepChunk(id, text) => ChunkTidy(c, id, text);
    case StepContinue(id) => ContinueTidy(c, id);
    case StepRespond(id, r, drained) => RespondTidy(c, id, r, drained);
    case StepFinal(id, text, drained) => FinalTidy(c, id, text, drained);
    case StepEnablePartial(id) => EnableTidy(c, id);
  }

  lemma RespondTidy(c: Conn, id: nat, r: Response, drained: bool)
    requires Tidy(c) && !AnswersFront(c, StepRespond(id, r, drained))
    ensures Tidy(RespondTo(c, id, r, drained).0)
  {
    hide IndexOf, WriteNext, Taken, ClosedLast, LastWord;
    QuietTidy(c, RespondTo(c, id, r, drained).0);
  }

  lemma FinalTidy(c: Conn, id: nat, text: string, drained: bool)
    requires Tidy(c) && !EndsFront(c, StepFinal(id, text, drained))
    ensures Tidy(FinalTo(c, id, text, drained).0)
  {
    hide IndexOf, Finish, CompletedBefore, ClosedLast, LastWord;
    QuietTidy(c, FinalTo(c, id, text, drained).0);
  }

  lemma EnableTidy(c: Conn, id: nat)
    requires Tidy(c)
    ensures Tidy(EnablePartial(c, id))
  {
    hide IndexOf, ClosedLast, LastWord;
    QuietTidy(c, EnablePartial(c, id));
  }

  /** Every other step writes nothing and leaves the front of a closing connection alone. */
  lemma {:induction false} OtherTidy(c: Conn, s: Step)
    requires Inv(c) && Tidy(c) && Enabled(c, s) && !Answering(s) && !AnswersFront(c, s)
    ensures Tidy(Next(c, s))
  {
    hide Tidy;
    match s
    case StepArrive(p) => ArriveTidy(c, p);
    case StepReadError(header) => ReadErrorTidy(c, header);
    case StepTail(drained) => TailTidy(c, drained);
    case StepErrorTail(drained) => ErrorTailTidy(c, drained);
    case _ => EventTidy(c, s);
  }

  lemma ArriveTidy(c: Conn, p: Parsed)
    requires Inv(c) && Tidy(c) && c.link.Up?
    ensures Tidy(Arrive(c, p))
  {
    hide RecordsOk, Shape, IdsOk, Order, UpOk, WireOk, ScanOk, FrontOk, ReadOk, Tidy, Arrive;
    ArriveBehind(c, p);
    QuietTidy(c, Arrive(c, p));
  }

  /** The front, the wire and the closing mark stay. */
  ghost predicate SameTop(c: Conn, d: Conn) {
    && d.wire == c.wire && d.closing == c.closing
    && (c.requests != [] ==> d.requests != [] && d.requests[0].id == c.requests[0].id)
  }

  lemma SetBackTop(c: Conn, q: Request)
    requires c.requests != [] && q.id == Back(c).id
    ensures SameTop(c, SetBack(c, q)) && SetBack(c, q).requests != []
  {
  }

  lemma AdmitTop(c: Conn, id: nat, header: Header)
    ensures SameTop(c, Admit(c, id, header)) && Admit(c, id, header).requests != []
  {
  }

  lemma ReceiveTop(c: Conn, p: Parsed)
    ensures SameTop(c, Receive(c, p)) && Receive(c, p).requests != []
  {
    hide Admit, SetBack;
    var id := if c.parsing.Some? then c.parsing.value else c.nextId;
    var finished := p.state.Done? || p.state.Error?;
    var b := c.(timer := false, nextId := if c.parsing.Some? then c.nextId else c.nextId + 1,
                parsing := if finished then None else Some(id));
    AdmitTop(b, id, p.header);
    var m := Admit(b, id, p.header);
    SetBackTop(m, Back(m).(done := finished));
  }

  lemma ArriveBehind(c: Conn, p: Parsed)
    ensures SameTop(c, Arrive(c, p))
  {
    hide Receive, SetBack;
    ReceiveTop(c, p);
    var d := Receive(c, p);
    SetBackTop(d, Back(d).(routed := true));
  }

  lemma ReadErrorTidy(c: Conn, header: Header)
    requires Inv(c) && Tidy(c) && c.link.Up?
    ensures Tidy(ReadError(c, header))
  {
    hide RecordsOk, Shape, IdsOk, Order, UpOk, WireOk, ScanOk, FrontOk, ReadOk, Tidy;
    QuietTidy(c, ReadError(c, header));
  }

  lemma {:induction false} TailTidy(c: Conn, drained: bool)
    requires Inv(c) && Tidy(c) && c.phase.InLoop?
    ensures Tidy(Tail(c, drained))
  {
    var s := StepTail(drained);
    if EndsWaiting(c, s) {
      WaitingAlone(c, s);
      EndsWaitingIs(c, s);
      AloneTidy(c.(phase := Quiet), drained);
    } else {
      hide Finish, Tidy;
      QuietTidy(c, Tail(c, drained));
    }
  }

  lemma WaitingAlone(c: Conn, s: Step)
    requires Inv(c) && EndsWaiting(c, s)
    ensures |c.requests| == 1 && c.requests[0].done
  {
    hide IdsOk, UpOk, WireOk, ScanOk, FrontOk, Accepted, Complete, Holds, AllQueued, FateOk;
    var k := IndexOf(c.requests, c.phase.id);
    assert RequestOk(c.requests[k]);
  }

  lemma {:induction false} AloneTidy(c: Conn, drained: bool)
    requires Tidy(c) && |c.requests| == 1 && c.requests[0].done
    ensures Tidy(Finish(c, drained))
  {
    assert Depart(c, Answered).requests == [];
    hide ClosedLast, LastWord, WriteNext;
    QuietTidy(c, Finish(c, drained));
  }

  lemma ErrorTailTidy(c: Conn, drained: bool)
    requires Tidy(c) && c.phase.InError? && !AnswersFront(c, StepErrorTail(drained))
    ensures Tidy(ErrorTail(c, drained))
  {
    hide IndexOf, WriteNext, Taken, Tidy;
    QuietTidy(c, ErrorTail(c, drained));
  }

  lemma EventTidy(c: Conn, s: Step)
    requires Tidy(c) && !Answering(s) && !ReadingStep(s)
    ensures Tidy(Next(c, s))
  {
    hide Tidy, IndexOf, Drops;
    QuietTidy(c, Next(c, s));
  }

  // ---------------------------------------------------------------- the recursion keeps the invariant

  /** The state of a connection in finish_event: all is well, or the new front waits to be written. */
  ghost predicate Between(c: Conn) {
    Inv(c) || (CanSend(c) && ReadOk(c))
  }

  /** The wire is out of order, or a response is cropped. */
  ghost predicate Spoilt(c: Conn) {
    !(HeadsFirst(c.wire) && ClosedLast(c.wire)) || Cropped(c)
  }

  /** What is true of a step: it keeps the invariant, or spoils the wire. */
  ghost predicate Orderly(disturbed: bool, d: Conn) {
    if disturbed then Spoilt(d) else Inv(d) && Tidy(d)
  }

  ghost predicate OrderlyBetween(disturbed: bool, d: Conn) {
    if disturbed then Spoilt(d) else Between(d) && Tidy(d)
  }

  lemma SpoiltGrows(c: Conn, d: Conn)
    requires !(HeadsFirst(c.wire) && ClosedLast(c.wire)) && Grows(c, d)
    ensures Spoilt(d)
  {
    hide HeadsFirst, ClosedLast;
    Spoiled(c, d);
  }

  lemma BetweenCore(c: Conn)
    requires Between(c)
    ensures Core(c) && ReadOk(c) && (c.requests != [] ==> c.link.Up?)
  {
    hide RecordsOk, Shape, Order, IdsOk, UpOk, WireOk, ScanOk, ReadOk, FrontOk, CloseOk;
  }

  /** A front that has been written is written again. */
  lemma {:induction false} WrittenTwice(c: Conn, drained: bool, on: Handler)
    requires Between(c) && c.requests != [] && c.requests[0].response.Some? && c.requests[0].written
    ensures Spoilt(WriteOn(c, drained, on))
  {
    BetweenCore(c);
    FrontHead(c);
    hide Between, Inv, ReadOk, Core, Heads, HeadsFirst, ClosedLast;
    var f := HeadFirst(c, drained, on);
    var d := WriteOn(c, drained, on);
    HeadsFirstOut(c.wire, f);
    if HeadsFirst(d.wire) { HeadsFirstPrefix(c.wire + [f], d.wire); }
  }

  /** A frame that is not in place. */
  lemma {:induction false} HeadsFirstOut(a: seq<Frame>, f: Frame)
    requires !InPlace(a, f)
    ensures !HeadsFirst(a + [f])
  {
    if HeadsFirst(a + [f]) {
      HeadsFirstPrefix(a, a + [f]);
      HeadsFirstOne(a, f);
    }
  }

  lemma FrontHead(c: Conn)
    requires Core(c) && c.requests != []
    ensures Heads(c.wire, c.requests[0].id) == if c.requests[0].written then 1 else 0
  {
    hide RecordsOk, Shape, Order, IdsOk, UpOk, WireOk, ScanOk, Heads;
    assert History(c)[|c.departed|] == c.requests[0];
    OneHead(c, c.requests[0]);
  }

  lemma {:induction false} OutOfTurnSpoils(c: Conn, s: Step, on: Handler)
    requires Between(c) && OutOfTurn(c, s)
    ensures Spoilt(StepOn(c, s, on))
  {
    BetweenCore(c);
    FrontHead(c);
    TurnReaches(c, s);
    hide Between, Inv, Core, ReadOk, Heads, HeadsFirst, ClosedLast, StepOn;
    var f := ReachWrites(c, s, on);
    PieceWrites(c, s, on, f);
    var d := StepOn(c, s, on);
    var g := if s.StepChunk? then Chunk(s.id, s.text) else Final(s.id, s.text);
    HeadsFirstOut(c.wire, g);
    if HeadsFirst(d.wire) { HeadsFirstPrefix(c.wire + [g], d.wire); }
  }

  lemma TurnReaches(c: Conn, s: Step)
    requires OutOfTurn(c, s)
    ensures Reaches(c, s)
  {
  }

  lemma {:induction false} PieceWrites(c: Conn, s: Step, on: Handler, f: Frame)
    requires OutOfTurn(c, s) && c.link.Up?
    ensures c.wire + [if s.StepChunk? then Chunk(s.id, s.text) else Final(s.id, s.text)] <= StepOn(c, s, on).wire
  {
    StepSizes(c, s);
    hide FinishOn, CompletedBefore;
    if s.StepFinal? { FinishOnGrows(Ended(c, s.text), s.drained, on); }
  }

  lemma {:induction false} CallBetween(c: Conn, s: Step)
    requires CanSend(c) && ReadOk(c) && Answering(s) && !OutOfTurn(c, s)
    ensures CanSend(Next(c, s)) && ReadOk(Next(c, s)) && !EndsFront(c, s) && !AnswersFront(c, s) && !Reaches(c, s)
  {
    CanSendWaiting(c);
    CanSendUp(c);
    CanSendRecord(c, 0);
    assert !Reaches(c, s);
    hide CanSend, ReadOk, AllWaiting, ChangesAt, Next, Reaches, OutOfTurn, RequestOk;
    var k := CallChanges(c, s);
    if k < |c.requests| { PlaceBetween(c, Next(c, s), k); }
  }

  /** The state in which finish_event is called. */
  lemma DepartsBetween(c: Conn)
    requires CanFinish(c) && c.requests[0].done && !c.closing
    ensures Between(Depart(c, Answered))
  {
    var d := Depart(c, Answered);
    FinishDeparts(c);
    hide RecordsOk, IdsOk, Order, UpOk, WireOk, ScanOk, ReadOk;
    assert d.requests != [] ==> d.requests[0] == c.requests[1];
  }

  /** finish_request after the notification. */
  lemma RestKeeps(c: Conn, drained: bool)
    requires Between(c)
    ensures Inv(Shutdown(c))
    ensures c.requests == [] ==> Inv(CheckIdle(c, drained))
    ensures c.requests != [] && c.requests[0].response.None? ==> Inv(c)
    ensures c.requests != [] && c.requests[0].response.Some? && !c.requests[0].written ==> CanSend(c) && ReadOk(c)
  {
    hide RecordsOk, Shape, IdsOk, Order, UpOk, WireOk, ScanOk, CloseOk;
    GoneDown(c, Shutdown(c));
    if c.requests == [] {
      var d := CheckIdle(c, drained);
      IdleShape(c, drained);
      hide Inv;
      IdleKeeps(c, d);
    }
  }

  lemma RestTidy(c: Conn, drained: bool)
    requires Tidy(c)
    ensures Tidy(Shutdown(c)) && Tidy(CheckIdle(c, drained))
  {
    hide ClosedLast, LastWord, Drops;
    QuietTidy(c, Shutdown(c));
    QuietTidy(c, CheckIdle(c, drained));
  }

  lemma FrontTidy(c: Conn)
    requires Tidy(c) && c.requests != []
    ensures Tidy(SetFront(c, c.requests[0].(finishOnReceive := true)))
    ensures !c.closing || |c.requests| == 1 ==> Tidy(Depart(c, Answered))
  {
    hide ClosedLast, LastWord;
    QuietTidy(c, SetFront(c, c.requests[0].(finishOnReceive := true)));
    if !c.closing || |c.requests| == 1 { QuietTidy(c, Depart(c, Answered)); }
  }

  lemma {:induction false} FinishOnKeeps(c: Conn, drained: bool, on: Handler)
    requires CanFinish(c) && Tidy(c)
    ensures Orderly(FinishDisturbed(c, drained, on), FinishOn(c, drained, on))
    decreases |c.requests|, 0, 2
  {
    FrontTidy(c);
    hide Tidy, Spoilt;
    if !c.requests[0].done {
      WaitForEnd(c, drained);
    } else {
      hide CanFinish, Inv, FinishDisturbed, FinishOn;
      FinishPlays(c, drained, on);
    }
  }

  lemma {:induction false} FinishPlays(c: Conn, drained: bool, on: Handler)
    requires CanFinish(c) && c.requests[0].done && Tidy(c)
    ensures Orderly(FinishDisturbed(c, drained, on), FinishOn(c, drained, on))
    decreases |c.requests|, 0, 1
  {
    hide Inv, ReadOk, CanSend, Tidy, Spoilt, FinishOn, FinishDisturbed, PlayOn, PlayDisturbed;
    FrontTidy(c);
    if c.closing {
      FinishClosed(c, drained, on);
    } else {
      DepartsBetween(c);
      hide CanFinish, Between;
      var d := Depart(c, Answered);
      PlayOnKeeps(d, on(c.requests[0].id), on);
      FinishEnds(c, d, drained, on);
    }
  }

  lemma {:induction false} FinishClosed(c: Conn, drained: bool, on: Handler)
    requires CanFinish(c) && c.requests[0].done && Tidy(c) && c.closing
    ensures Inv(FinishOn(c, drained, on)) && Tidy(FinishOn(c, drained, on)) && !FinishDisturbed(c, drained, on)
  {
    var q := c.requests[0];
    var d := Depart(c, Answered);
    assert d.requests == [];
    hide Tidy, Core, ReadOk, Inv, CanFinish, Drops;
    FrontTidy(c);
    NonePlayed(d, on(q.id), on);
    FinishDown(c, drained);
    RestTidy(d, drained);
  }

  /** finish_request after its notification. */
  lemma {:induction false} FinishEnds(c: Conn, d: Conn, drained: bool, on: Handler)
    requires c.requests != [] && c.requests[0].done && d == Depart(c, Answered)
    requires OrderlyBetween(PlayDisturbed(d, on(c.requests[0].id), on), PlayOn(d, on(c.requests[0].id), on))
    ensures Orderly(FinishDisturbed(c, drained, on), FinishOn(c, drained, on))
    decreases |c.requests|, 0, 0
  {
    assert |d.requests| < |c.requests|;
    hide Between, Inv, ReadOk, CanSend, Tidy, Spoilt, Depart, PlayDisturbed, PlayOn;
    var calls := on(c.requests[0].id);
    var e := PlayOn(d, calls, on);
    if PlayDisturbed(d, calls, on) {
      SpoiltRest(e, drained, on);
    } else {
      RestKeeps(e, drained);
      RestTidy(e, drained);
      if !e.closing && !e.stopping && e.requests != [] && e.requests[0].response.Some? {
        if e.requests[0].written { WrittenTwice(e, drained, on); } else { WriteOnKeeps(e, drained, on); }
      }
    }
  }

  /** Once the wire is spoilt, the rest of finish_request does not mend it. */
  lemma {:induction false} SpoiltRest(e: Conn, drained: bool, on: Handler)
    requires Spoilt(e)
    ensures Spoilt(Shutdown(e))
    ensures !e.closing ==> Spoilt(CheckIdle(e, drained))
    ensures !e.closing && e.requests != [] && e.requests[0].response.Some? ==> Spoilt(WriteOn(e, drained, on))
  {
    RestGrows(e, drained);
    if Cropped(e) {
      CroppedDown(e);
    } else {
      hide Grows, HeadsFirst, ClosedLast, Cropped, Spoilt;
      assert !(HeadsFirst(e.wire) && ClosedLast(e.wire)) by { SpoiltWire(e); }
      SpoiltGrows(e, Shutdown(e));
      SpoiltGrows(e, CheckIdle(e, drained));
      if e.requests != [] && e.requests[0].response.Some? {
        WriteOnGrows(e, drained, on);
        SpoiltGrows(e, WriteOn(e, drained, on));
      }
    }
  }

  lemma SpoiltWire(e: Conn)
    requires Spoilt(e) && !Cropped(e)
    ensures !(HeadsFirst(e.wire) && ClosedLast(e.wire))
  {
  }

  /** Sending the front: as in module Connection, or the wire is spoilt. */
  lemma {:induction false} SendDisturbs(c: Conn, on: Handler)
    requires CanSend(c) && ReadOk(c) && Tidy(c) && c.requests != [] && c.requests[0].response.Some? && SendDisturbed(c, on)
    ensures Spoilt(SendOn(c, on))
  {
    var q := c.requests[0];
    var b := Popped(c);
    if DropReaches(b, on) {
      PoppedSays(c);
      OthersBehind(c);
      PoppedIs(c);
      SendOnDrops(c, on);
      hide CanSend, ReadOk, Tidy, Popped, DropReaches, ClosedLast, LastWord, HeadsFirst, DropOn, SendOn;
      DropSpoils(b, q.id, on);
      if ClosedLast(SendOn(c, on).wire) { ClosedLastPrefix(DropOn(b, on).wire, SendOn(c, on).wire); }
    } else {
      hide ReadOk, Tidy;
      HurtCrops(c, on);
    }
  }

  lemma PoppedSays(c: Conn)
    requires CanSend(c) && Tidy(c) && !KeepsOn(c.requests[0])
    ensures LastWord(Popped(c).wire) == Some(c.requests[0].id) && Popped(c).link.Up?
  {
    var q := Marked(c.requests[0]);
    var frames := ToVector(q.id, q.headKeepAlive, q.response.value);
    VectorIsResponse(q.id, q.headKeepAlive, q.response.value);
    assert frames[0].keepAlive == q.headKeepAlive == false;
    hide CanSend, ToVector, OneResponse, ClosedLast, LastWord;
    CanSendUp(c);
    ResponseFits(c.wire, q.id, frames);
  }

  lemma OthersBehind(c: Conn)
    requires CanSend(c)
    ensures NoneIs(c.requests[1..], c.requests[0].id)
  {
    hide RecordsOk, Shape, IdsOk, UpOk, WireOk, ScanOk;
  }

  lemma {:induction false} SendOnDrops(c: Conn, on: Handler)
    requires c.requests != [] && c.requests[0].response.Some? && !KeepsOn(c.requests[0])
    ensures DropOn(Popped(c), on).wire <= SendOn(c, on).wire
  {
    hide Popped, DropOn, HeldDrop, Chunks, Waiting, KeepsOn;
  }

  lemma {:induction false} WriteOnKeeps(c: Conn, drained: bool, on: Handler)
    requires CanSend(c) && ReadOk(c) && Tidy(c) && c.requests != [] && c.requests[0].response.Some?
    ensures Orderly(WriteDisturbed(c, drained, on), WriteOn(c, drained, on))
    decreases |c.requests|, 1, 0
  {
    hide CanSend, ReadOk, Tidy, CanFinish, SentFront, Inv, SendOn, SendDisturbed, Spoilt, FinishOn, FinishDisturbed;
    if SendDisturbed(c, on) {
      SendDisturbs(c, on);
      SpoiltWrite(c, drained, on);
    } else {
      var v := SendEarly(c, on);
      assert Tidy(v) by { EarlyTidy(c, v); }
      SendTidy(v);
      SendFrontKeeps(v);
      SendKeeps(v);
      if v.requests[0].response.value.completed {
        SentCanFinish(v);
        FinishOnKeeps(SendFront(v), drained, on);
      } else {
        WriteNextIs(v, drained);
        WriteNextKeeps(v, drained);
      }
    }
  }

  lemma EarlyTidy(c: Conn, v: Conn)
    requires Tidy(c) && c.requests != [] && v.requests != [] && v.requests[0].id == c.requests[0].id
    requires v == c.(requests := v.requests, processed := v.processed, stopping := v.stopping)
    ensures Tidy(v)
  {
    hide ClosedLast, LastWord;
  }

  /** Nor does finish_request after it. */
  lemma {:induction false} SpoiltWrite(c: Conn, drained: bool, on: Handler)
    requires c.requests != [] && c.requests[0].response.Some? && Spoilt(SendOn(c, on))
    ensures Spoilt(WriteOn(c, drained, on))
  {
    var e := SendOn(c, on);
    hide SendOn, FinishOn;
    if e.requests[0].response.value.completed { SpoiltFinish(e, drained, on); }
  }

  lemma {:induction false} SpoiltFinish(e: Conn, drained: bool, on: Handler)
    requires Spoilt(e) && e.requests != []
    ensures Spoilt(FinishOn(e, drained, on))
  {
    hide HeadsFirst, ClosedLast, Cropped, FinishOn, Grows;
    if Cropped(e) {
      CroppedFinish(e, drained, on);
    } else {
      FinishOnGrows(e, drained, on);
      SpoiltGrows(e, FinishOn(e, drained, on));
    }
  }

  /** A call while all is well. */
  lemma {:induction false} CallKeeps(c: Conn, s: Step, on: Handler)
    requires Inv(c) && Tidy(c) && Answering(s)
    ensures Orderly(StepDisturbed(c, s, on), StepOn(c, s, on))
    decreases |c.requests|, 2, 0
  {
    StepSizes(c, s);
    InTurn(c, s);
    hide Spoilt, Tidy;
    if EndsFront(c, s) {
      EndedCanFinish(c, s);
      EndedTidy(c, s);
      hide Inv, CanFinish, Ended;
      FinishOnKeeps(Ended(c, s.text), s.drained, on);
    } else if AnswersFront(c, s) {
      GivenCanSend(c, s);
      GivenTidy(c, s);
      hide Inv, CanSend, ReadOk, Given;
      WriteOnKeeps(Given(c, s), s.drained, on);
    } else {
      hide Inv, Next;
      AnsweringKeeps(c, s);
      CallTidy(c, s);
    }
  }

  lemma GivenTidy(c: Conn, s: Step)
    requires Tidy(c) && AnswersFront(c, s)
    ensures Tidy(Given(c, s))
  {
    hide ClosedLast, LastWord, Taken;
    QuietTidy(c, Given(c, s));
  }

  lemma InTurn(c: Conn, s: Step)
    requires Inv(c)
    ensures !OutOfTurn(c, s)
  {
    hide Core, ReadOk, CloseOk;
  }

  lemma {:induction false} PlayOnKeeps(c: Conn, calls: seq<Step>, on: Handler)
    requires Between(c) && Tidy(c)
    ensures OrderlyBetween(PlayDisturbed(c, calls, on), PlayOn(c, calls, on))
    decreases |c.requests|, 3, |calls|
  {
    hide StepOn, StepDisturbed, Inv, ReadOk, CanSend, Tidy, Spoilt;
    if calls == [] {
    } else if !Answering(calls[0]) {
      PlayOnKeeps(c, calls[1..], on);
    } else {
      var s, rest := calls[0], calls[1..];
      var d := StepOn(c, s, on);
      if Inv(c) { CallKeeps(c, s, on); } else { WaitingCall(c, s, on); }
      if StepDisturbed(c, s, on) {
        SpoiltPlay(d, rest, on);
      } else {
        PlayOnKeeps(d, rest, on);
      }
    }
  }

  lemma {:induction false} SpoiltPlay(c: Conn, calls: seq<Step>, on: Handler)
    requires Spoilt(c)
    ensures Spoilt(PlayOn(c, calls, on))
  {
    hide HeadsFirst, ClosedLast, Cropped, PlayOn, Grows;
    if Cropped(c) {
      CroppedPlay(c, calls, on);
    } else {
      PlayOnGrows(c, calls, on);
      SpoiltGrows(c, PlayOn(c, calls, on));
    }
  }

  /** A call while the front waits to be written. */
  lemma {:induction false} WaitingCall(c: Conn, s: Step, on: Handler)
    requires CanSend(c) && ReadOk(c) && Tidy(c) && Answering(s)
    ensures OrderlyBetween(StepDisturbed(c, s, on), StepOn(c, s, on))
  {
    hide Inv, CanSend, ReadOk, OutOfTurn, Next, FinishOn, Tidy, Spoilt, Reaches;
    if OutOfTurn(c, s) {
      OutOfTurnSpoils(c, s, on);
    } else {
      CallBetween(c, s);
      QuietCall(c, s, on);
      CanSendUp(c);
      QuietTidy(c, Next(c, s));
    }
  }

  /** A step keeps the invariant, or spoils the wire: exactly when it is disturbed. */
  lemma {:induction false} EventKeeps(c: Conn, s: Step, on: Handler)
    requires Inv(c) && Tidy(c) && Enabled(c, s)
    ensures Orderly(StepDisturbed(c, s, on), StepOn(c, s, on))
  {
    hide Spoilt, Tidy;
    StepSizes(c, s);
    InTurn(c, s);
    if Answering(s) {
      hide Inv, Enabled;
      CallKeeps(c, s, on);
    } else if AnswersFront(c, s) {
      GivenCanSend(c, s);
      GivenTidy(c, s);
      hide Inv, CanSend, ReadOk, Given;
      WriteOnKeeps(Given(c, s), s.drained, on);
    } else {
      if EndsWaiting(c, s) { WaitingIsAlone(c, s, on); }
      hide Inv, Next, Enabled;
      StepKeeps(c, s);
      OtherTidy(c, s);
    }
  }

  /** A request whose answer waits for its end is alone, so nobody is there to be answered. */
  lemma {:induction false} WaitingIsAlone(c: Conn, s: Step, on: Handler)
    requires Inv(c) && EndsWaiting(c, s)
    ensures StepOn(c, s, on) == Next(c, s) && !StepDisturbed(c, s, on)
  {
    WaitingAlone(c, s);
    InTurn(c, s);
    hide Inv;
    var d := c.(phase := Quiet);
    var e := Depart(d, Answered);
    assert e.requests == [];
    NonePlayed(e, on(c.requests[0].id), on);
    EndsWaitingIs(c, s);
    hide Next, PlayOn, PlayDisturbed;
    assert FinishOn(d, s.drained, on) == Finish(d, s.drained);
  }

  // ---------------------------------------------------------------- over runs

  predicate Undisturbed(c: Conn, steps: seq<Step>, on: Handler) {
    if steps == [] then true
    else
      && Undisturbed(c, steps[..|steps| - 1], on)
      && !StepDisturbed(EventRun(c, steps[..|steps| - 1], on), steps[|steps| - 1], on)
  }

  /** After every step of the run the wire is in order. */
  ghost predicate AlwaysSound(c: Conn, steps: seq<Step>, on: Handler) {
    Sound(EventRun(c, steps, on)) && (steps != [] ==> AlwaysSound(c, steps[..|steps| - 1], on))
  }

  /** Over every run, whatever users call in the notifications of requests that are served or dropped behind a
      closing head: the wire is in order after every step if and only if no step is disturbed; and then the
      invariant holds. */
  lemma {:induction false} EventsInOrderIff(maxKeepAlive: nat, steps: seq<Step>, on: Handler)
    requires EventLegal(NewConn(maxKeepAlive), steps, on)
    ensures AlwaysSound(NewConn(maxKeepAlive), steps, on) <==> Undisturbed(NewConn(maxKeepAlive), steps, on)
    ensures Undisturbed(NewConn(maxKeepAlive), steps, on) ==> Inv(EventRun(NewConn(maxKeepAlive), steps, on))
  {
    hide Inv, Tidy, Sound, StepOn, StepDisturbed, Enabled, Spoilt;
    var init := NewConn(maxKeepAlive);
    if steps == [] {
      RunOrderly(maxKeepAlive, steps, on);
      InvSound(EventRun(init, steps, on));
    } else {
      var before, s := steps[..|steps| - 1], steps[|steps| - 1];
      EventsInOrderIff(maxKeepAlive, before, on);
      if Undisturbed(init, before, on) {
        RunOrderly(maxKeepAlive, before, on);
        EventKeeps(EventRun(init, before, on), s, on);
        var c := EventRun(init, steps, on);
        if Undisturbed(init, steps, on) { InvSound(c); } else { SpoiltUnsound(c); }
      }
    }
  }

  lemma {:induction false} RunOrderly(maxKeepAlive: nat, steps: seq<Step>, on: Handler)
    requires EventLegal(NewConn(maxKeepAlive), steps, on) && Undisturbed(NewConn(maxKeepAlive), steps, on)
    ensures Inv(EventRun(NewConn(maxKeepAlive), steps, on)) && Tidy(EventRun(NewConn(maxKeepAlive), steps, on))
  {
    hide Inv, Tidy, StepOn, StepDisturbed, Enabled, Spoilt;
    if steps == [] {
      NewKeeps(maxKeepAlive);
      NewTidy(maxKeepAlive);
    } else {
      var before, s := steps[..|steps| - 1], steps[|steps| - 1];
      RunOrderly(maxKeepAlive, before, on);
      EventKeeps(EventRun(NewConn(maxKeepAlive), before, on), s, on);
    }
  }

  lemma NewTidy(maxKeepAlive: nat)
    ensures Tidy(NewConn(maxKeepAlive))
  {
  }

  lemma InvSound(c: Conn)
    requires Inv(c) && Tidy(c)
    ensures Sound(c)
  {
    hide RecordsOk, IdsOk, WireOk, HeadsFirst, NothingMissing, ClosedLast, LastWord;
    CoreHeadsFirst(c);
    InvNothingMissing(c);
  }

  lemma SpoiltUnsound(c: Conn)
    requires Spoilt(c)
    ensures !Sound(c)
  {
    hide HeadsFirst, ClosedLast, NothingMissing, Cropped;
    if Cropped(c) { CroppedMisses(c); }
  }

  /** Over every run whose wire is in order after every step, whatever users call: the wire is that of serial
      answering, each request that was written has one head on it, a reader is where the responses say, and a
      connection that closes holds the request whose head says so. */
  lemma {:induction false} EventsServe(maxKeepAlive: nat, steps: seq<Step>, on: Handler)
    requires EventLegal(NewConn(maxKeepAlive), steps, on) && AlwaysSound(NewConn(maxKeepAlive), steps, on)
    ensures var c := EventRun(NewConn(maxKeepAlive), steps, on);
      && (Strip(c.wire) == SerialWire(History(c)) <==> Lossless(History(c)))
      && InArrivalOrder(History(c))
      && (forall q :: q in History(c) ==> Heads(c.wire, q.id) == if q.written then 1 else 0)
      && (forall id :: id >= c.nextId ==> Heads(c.wire, id) == 0)
      && (InStep(c) <==> forall q :: q in History(c) ==> !Cut(q))
      && (c.closing && c.link.Up? ==> Closes(c))
  {
    EventsInOrderIff(maxKeepAlive, steps, on);
    var c := EventRun(NewConn(maxKeepAlive), steps, on);
    hide EventLegal, EventRun, AlwaysSound, Undisturbed;
    IsSerial(c);
    IsGrammatical(c);
    if c.closing && c.link.Up? { ClosesProperly(c); }
  }
}

/** What holds of a server connection over every run. */
module Serving {
  import opened Wire
  import opened Connection
  import opened Invariant
  import opened Pipelining
  import opened Steps

  // ---------------------------------------------------------------- runs

  lemma NewKeeps(maxKeepAlive: nat)
    ensures Inv(NewConn(maxKeepAlive))
  {
    var c := NewConn(maxKeepAlive);
    assert Places(c) == multiset{};
  }

  predicate ReadingStep(s: Step) {
    s.StepArrive? || s.StepTail? || s.StepReadError? || s.StepErrorTail?
  }

  lemma AnsweringKeeps(c: Conn, s: Step)
    requires Inv(c) && Answering(s)
    ensures Inv(Next(c, s))
  {
    hide Inv, Answer, ChunkTo, FinalTo, ContinueTo, EnablePartial;
    match s
    case StepRespond(id, r, drained) =>
      var k := IndexOf(c.requests, id);
      if k < |c.requests| && c.requests[k].response.None? { AnswerKeeps(c, k, r, drained); }
    case StepChunk(id, text) => ChunkKeeps(c, id, text);
    case StepFinal(id, text, drained) => FinalKeeps(c, id, text, drained);
    case StepContinue(id) => ContinueKeeps(c, id);
    case StepEnablePartial(id) => EnablePartialKeeps(c, id);
  }

  lemma ReadingStepKeeps(c: Conn, s: Step)
    requires Inv(c) && Enabled(c, s) && ReadingStep(s)
    ensures Inv(Next(c, s))
  {
    match s
    case StepArrive(p) => ArriveKeeps(c, p);
    case StepTail(drained) => TailKeeps(c, drained);
    case StepReadError(header) => ReadErrorKeeps(c, header);
    case StepErrorTail(drained) => ErrorTailKeeps(c, drained);
  }

  lemma IdleShape(c: Conn, drained: bool)
    requires c.timer ==> c.requests == []
    ensures var d := CheckIdle(c, drained);
      d == c.(stopping := d.stopping, timer := d.timer) && (d.timer ==> d.requests == [])
  {
  }

  lemma WrittenKeeps(c: Conn, failed: bool, drained: bool)
    requires Inv(c) && c.phase.Quiet?
    ensures Inv(Next(c, StepWritten(failed, drained)))
  {
    if failed {
      CloseKeeps(c);
    } else {
      var d := CheckIdle(c, drained);
      assert d == c.(stopping := d.stopping, timer := d.timer) && (d.timer ==> d.requests == []) by { IdleShape(c, drained); }
      hide Inv;
      IdleKeeps(c, d);
    }
  }

  lemma GracefulStopKeeps(c: Conn)
    requires Inv(c) && c.phase.Quiet?
    ensures Inv(GracefulStop(c))
  {
    if c.requests == [] { ShutdownKeeps(c); } else { IdleKeeps(c, GracefulStop(c)); }
  }

  lemma OtherKeeps(c: Conn, s: Step)
    requires Inv(c) && Enabled(c, s) && !Answering(s) && !ReadingStep(s)
    ensures Inv(Next(c, s))
  {
    match s
    case StepWritten(failed, drained) => WrittenKeeps(c, failed, drained);
    case StepIdle =>
      CloseKeeps(c);
      assert Next(c, s) == Close(c);
    case StepEof => ShutdownKeeps(c);
    case StepShutdownDone => GoneDown(c, Next(c, s));
    case StepClose => CloseKeeps(c);
    case StepGracefulStop => GracefulStopKeeps(c);
    case StepDrop(id) => CloseKeeps(c);
    case StepUpgrade(id) => UpgradeKeeps(c, id);
  }

  /** Every step keeps the invariant. */
  lemma StepKeeps(c: Conn, s: Step)
    requires Inv(c) && Enabled(c, s)
    ensures Inv(Next(c, s))
  {
    if Answering(s) {
      AnsweringKeeps(c, s);
    } else if ReadingStep(s) {
      ReadingStepKeeps(c, s);
    } else {
      OtherKeeps(c, s);
    }
  }

  /** Every connection that can be reached satisfies the invariant. */
  lemma {:induction false} RunKeeps(maxKeepAlive: nat, steps: seq<Step>)
    requires Legal(NewConn(maxKeepAlive), steps)
    ensures Inv(Run(NewConn(maxKeepAlive), steps))
  {
    if steps == [] {
      NewKeeps(maxKeepAlive);
    } else {
      RunKeeps(maxKeepAlive, steps[..|steps| - 1]);
      StepKeeps(Run(NewConn(maxKeepAlive), steps[..|steps| - 1]), steps[|steps| - 1]);
    }
  }

  lemma {:induction false} RunStep(c: Conn, steps: seq<Step>, s: Step)
    requires Legal(c, steps) && Enabled(Run(c, steps), s)
    ensures Legal(c, steps + [s]) && Run(c, steps + [s]) == Next(Run(c, steps), s)
  {
    var all := steps + [s];
    assert all[..|all| - 1] == steps && all[|all| - 1] == s;
  }

  // ---------------------------------------------------------------- whole buffers

  lemma {:induction false} PlayKeeps(c: Conn, calls: seq<Step>)
    requires Inv(c) && forall i :: 0 <= i < |calls| ==> Answering(calls[i])
    ensures Inv(Play(c, calls))
    decreases |calls|
  {
    hide Inv, Next;
    if calls != [] {
      AnsweringKeeps(c, calls[0]);
      PlayKeeps(Next(c, calls[0]), calls[1..]);
    }
  }

  /** A buffer whose parts are all read on a connection that is up, by users who only answer in callbacks
      and do not have a request in error dropped. */
  ghost predicate Uninterrupted(c: Conn, parts: seq<Part>)
    decreases |parts|
  {
    parts != [] ==>
      var d := CallbacksDone(c, parts[0]);
      && Reading(c)
      && (forall i :: 0 <= i < |parts[0].calls| ==> Answering(parts[0].calls[i]))
      && (d.phase.InError? ==> Answerable(d, d.phase.id))
      && (ReadsOn(c, parts[0]) ==> Uninterrupted(ReadPart(c, parts[0]), parts[1..]))
  }

  lemma {:induction false} CallbacksKeep(c: Conn, part: Part)
    requires Inv(c) && Uninterrupted(c, [part])
    ensures Inv(CallbacksDone(c, part))
  {
    ArriveKeeps(c, part.parsed);
    PlayKeeps(Arrive(c, part.parsed), part.calls);
  }

  lemma {:induction false} ReadPartKeeps(c: Conn, part: Part)
    requires Inv(c) && Uninterrupted(c, [part])
    ensures Inv(ReadPart(c, part))
  {
    hide Inv;
    CallbacksKeep(c, part);
    var d := CallbacksDone(c, part);
    match d.phase
    case Quiet =>
    case InError(_) => ErrorTailKeeps(d, part.drained);
    case InLoop(_, _, _) => TailKeeps(d, part.drained);
  }

  /** Reading such a buffer keeps the invariant. */
  lemma {:induction false} ReadAllKeeps(c: Conn, parts: seq<Part>)
    requires Inv(c) && Uninterrupted(c, parts)
    ensures Inv(ReadAll(c, parts))
    decreases |parts|
  {
    hide Inv, ReadPart, ReadsOn, CallbacksDone;
    if parts != [] {
      FirstUninterrupted(c, parts);
      ReadPartKeeps(c, parts[0]);
      if ReadsOn(c, parts[0]) { ReadAllKeeps(ReadPart(c, parts[0]), parts[1..]); }
    }
  }

  lemma {:induction false} FirstUninterrupted(c: Conn, parts: seq<Part>)
    requires parts != [] && Uninterrupted(c, parts)
    ensures Uninterrupted(c, [parts[0]])
    ensures ReadsOn(c, parts[0]) ==> Uninterrupted(ReadPart(c, parts[0]), parts[1..])
  {
    hide Reading, CallbacksDone, ReadPart, ReadsOn;
    assert [parts[0]][0] == parts[0];
    assert [parts[0]][1..] == [];
  }

  // ---------------------------------------------------------------- pipelining refines serial answering

  /** The wire of a server that answers one request at a time: each response that was started, as
      its calls would put it out if its request were at the front from the start. */
  function SerialWire(qs: seq<Request>): seq<Frame> {
    if qs == [] then []
    else
      var q := qs[|qs| - 1];
      SerialWire(qs[..|qs| - 1]) + if q.written then Serial(q.id, q.headKeepAlive, q.calls) else []
  }

  ghost predicate Lossless(qs: seq<Request>) {
    forall q :: q in qs ==> !(q.written && Lossy(q.calls))
  }

  ghost predicate AllAccepted(qs: seq<Request>) {
    forall q :: q in qs ==> Accepted(q.calls)
  }

  lemma {:induction false} OutsLength(qs: seq<Request>)
    requires AllAccepted(qs)
    ensures |Outs(qs)| <= |SerialWire(qs)|
  {
    if qs != [] {
      var q := qs[|qs| - 1];
      OutsLength(qs[..|qs| - 1]);
      if q.written { DeliveredLength(q.id, q.headKeepAlive, q.calls); }
    }
  }

  lemma {:induction false} OutsIffLossless(qs: seq<Request>)
    requires AllAccepted(qs)
    ensures Outs(qs) == SerialWire(qs) <==> Lossless(qs)
  {
    if qs != [] {
      var q := qs[|qs| - 1];
      var before := qs[..|qs| - 1];
      assert qs == before + [q];
      OutsIffLossless(before);
      OutsLength(before);
      var a, b := Outs(before), SerialWire(before);
      var x := Out(q);
      var y := if q.written then Serial(q.id, q.headKeepAlive, q.calls) else [];
      if q.written {
        DeliveredLength(q.id, q.headKeepAlive, q.calls);
        DeliveredIffNotLossy(q.id, q.headKeepAlive, q.calls);
      }
      assert Outs(qs) == a + x && SerialWire(qs) == b + y;
      if a + x == b + y {
        assert |a| == |b| && |x| == |y|;
        assert a == (a + x)[..|a|] && b == (b + y)[..|b|];
        assert x == (a + x)[|a|..] && y == (b + y)[|b|..];
      }
    }
  }

  /** Pipelining refines serial answering. However respond, send_chunk and send_final_chunk interleave
      over the queued requests, the response frames on the wire are those of serial answering, request
      after request in arrival order, if and only if no response that was written got its last chunk too
      early: from within the queue, with a text of its own or with no piece before it. */
  lemma {:induction false} WireIsSerial(maxKeepAlive: nat, steps: seq<Step>)
    requires Legal(NewConn(maxKeepAlive), steps)
    ensures var c := Run(NewConn(maxKeepAlive), steps);
      && (Strip(c.wire) == SerialWire(History(c)) <==> Lossless(History(c)))
      && InArrivalOrder(History(c))
  {
    RunKeeps(maxKeepAlive, steps);
    hide Legal, Run, Inv;
    IsSerial(Run(NewConn(maxKeepAlive), steps));
  }

  lemma IsSerial(c: Conn)
    requires Inv(c)
    ensures Strip(c.wire) == SerialWire(History(c)) <==> Lossless(History(c))
    ensures InArrivalOrder(History(c))
  {
    OutsConcat(Gone(c.departed), c.requests);
    OutsIffLossless(History(c));
    ServesInOrder(c);
  }

  /** The requests that were written are in the order in which they arrived. */
  ghost predicate InArrivalOrder(qs: seq<Request>) {
    forall i, j :: 0 <= i < j < |qs| && qs[i].written && qs[j].written ==> qs[i].id < qs[j].id
  }

  lemma ServesInOrder(c: Conn)
    requires Order(c)
    ensures InArrivalOrder(History(c))
  {
    var n, h := |c.departed|, History(c);
    forall i, j | 0 <= i < j < |h| && h[i].written && h[j].written ensures h[i].id < h[j].id {
      assert i < n ==> h[i] == c.departed[i].request;
      assert j < n ==> h[j] == c.departed[j].request;
      assert i >= n ==> h[i] == c.requests[i - n];
      assert j >= n ==> h[j] == c.requests[j - n];
    }
  }

  lemma {:induction false} IncreasingIsIdentity(qs: seq<Request>)
    requires forall i, j :: 0 <= i < j < |qs| ==> qs[i].id < qs[j].id
    requires forall i :: 0 <= i < |qs| ==> qs[i].id < |qs|
    ensures forall i :: 0 <= i < |qs| ==> qs[i].id == i
  {
    IncreasingAtLeast(qs);
    forall i | 0 <= i < |qs| ensures qs[i].id == i {
      IncreasingAtMost(qs, i);
    }
  }

  lemma {:induction false} IncreasingAtLeast(qs: seq<Request>)
    requires forall i, j :: 0 <= i < j < |qs| ==> qs[i].id < qs[j].id
    ensures forall i :: 0 <= i < |qs| ==> qs[i].id >= i
  {
    if |qs| > 1 {
      IncreasingAtLeast(qs[..|qs| - 1]);
      assert qs[|qs| - 2].id == qs[..|qs| - 1][|qs| - 2].id;
    }
  }

  lemma {:induction false} IncreasingAtMost(qs: seq<Request>, i: nat)
    requires i < |qs|
    requires forall i, j :: 0 <= i < j < |qs| ==> qs[i].id < qs[j].id
    requires forall i :: 0 <= i < |qs| ==> qs[i].id < |qs|
    ensures qs[i].id <= i
    decreases |qs| - i
  {
    if i < |qs| - 1 { IncreasingAtMost(qs, i + 1); }
  }

  lemma {:induction false} IdsSize(qs: seq<Request>)
    ensures |Ids(qs)| == |qs|
  {
    if qs != [] { IdsSize(qs[..|qs| - 1]); }
  }

  lemma {:induction false} CountBelow(m: multiset<nat>, n: nat)
    requires forall id: nat :: m[id] == if id < n then 1 else 0
    ensures |m| == n
  {
    if n == 0 {
      assert m == multiset{};
    } else {
      CountBelow(m - multiset{n - 1}, n - 1);
      assert m == (m - multiset{n - 1}) + multiset{n - 1};
    }
  }

  /** While a connection is open, requests have been answered in arrival order and nothing has been
      skipped: the departed and the queued together are request 0, 1, 2, ... */
  lemma {:induction false} ServedInOrder(maxKeepAlive: nat, steps: seq<Step>)
    requires Legal(NewConn(maxKeepAlive), steps)
    ensures var c := Run(NewConn(maxKeepAlive), steps);
      c.link.Up? && !c.closing ==>
        && (forall i :: 0 <= i < |History(c)| ==> History(c)[i].id == i)
        && |History(c)| == c.nextId
        && (forall i :: 0 <= i < |c.departed| ==>
              c.departed[i].fate == Answered && c.departed[i].request.written && Complete(c.departed[i].request.calls))
  {
    var c := Run(NewConn(maxKeepAlive), steps);
    RunKeeps(maxKeepAlive, steps);
    if c.link.Up? && !c.closing { OpenHistory(c); }
  }

  lemma HistorySize(c: Conn)
    requires IdsOk(c)
    ensures |History(c)| == c.nextId
  {
    IdsConcat(Gone(c.departed), c.requests);
    CountBelow(Places(c), c.nextId);
    IdsSize(History(c));
  }

  lemma OpenHistory(c: Conn)
    requires Order(c) && RecordsOk(c) && UpOk(c) && IdsOk(c) && c.link.Up? && !c.closing
    ensures |History(c)| == c.nextId
    ensures forall i :: 0 <= i < |History(c)| ==> History(c)[i].id == i
    ensures forall i :: 0 <= i < |c.departed| ==>
              c.departed[i].fate == Answered && c.departed[i].request.written && Complete(c.departed[i].request.calls)
  {
    HistorySize(c);
    var h := History(c);
    assert forall i :: 0 <= i < |c.departed| ==> FateOk(c.departed[i]);
    forall i, j | 0 <= i < j < |h| ensures h[i].id < h[j].id {
      OpenHistoryIncreases(c, i, j);
    }
    IncreasingIsIdentity(h);
  }

  lemma OpenHistoryIncreases(c: Conn, i: nat, j: nat)
    requires Order(c) && RecordsOk(c) && UpOk(c) && c.link.Up? && !c.closing
    requires i < j < |History(c)|
    ensures History(c)[i].id < History(c)[j].id
  {
    var n := |c.departed|;
    if i < n { assert FateOk(c.departed[i]); }
    if j < n { assert FateOk(c.departed[j]); }
  }
}

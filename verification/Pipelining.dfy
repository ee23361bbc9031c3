/** Every step of a server connection keeps the invariant. */
module Pipelining {
  import opened Options
  import opened Wire
  import opened Connection
  import opened Invariant

  // ---------------------------------------------------------------- updates that put nothing on the wire

  /** Two records of a request that look the same on the wire. */
  ghost predicate SameTrace(a: Request, b: Request) {
    && a.id == b.id
    && a.written == b.written
    && (a.written ==> a.calls == b.calls && a.headKeepAlive == b.headKeepAlive)
  }

  ghost predicate SameTraces(a: seq<Request>, b: seq<Request>) {
    |a| == |b| && forall i :: 0 <= i < |a| ==> SameTrace(a[i], b[i])
  }

  lemma {:induction false} OutsSame(a: seq<Request>, b: seq<Request>)
    requires SameTraces(a, b)
    ensures Outs(a) == Outs(b)
  {
    if a != [] { OutsSame(a[..|a| - 1], b[..|b| - 1]); }
  }

  lemma OrderOfIds(c: Conn, d: Conn)
    requires Order(c) && d.departed == c.departed && d.nextId == c.nextId
    requires |d.requests| == |c.requests| && forall i :: 0 <= i < |c.requests| ==> d.requests[i].id == c.requests[i].id
    ensures Order(d)
  {
    forall i, j | 0 <= i < j < |d.requests| ensures d.requests[i].id < d.requests[j].id {
      assert c.requests[i].id < c.requests[j].id;
    }
  }

  /** Changing flags and waiting calls leaves identity, order and output as they were. */
  lemma TracesKeep(c: Conn, d: Conn)
    requires IdsOk(c) && Order(c) && UpOk(c) && WireOk(c) && ScanOk(c) && c.link.Up?
    requires d.departed == c.departed && d.wire == c.wire && d.link == c.link && d.nextId == c.nextId
    requires c.closing ==> d.closing
    requires SameTraces(c.requests, d.requests)
    ensures IdsOk(d) && Order(d) && UpOk(d) && WireOk(d) && ScanOk(d)
  {
    IdsSame(c.requests, d.requests);
    assert Places(d) == Places(c);
    OutsSame(c.requests, d.requests);
  }

  // ---------------------------------------------------------------- the front writes

  /** `d` is `c` with `frames` written for a front that becomes `q`. */
  ghost predicate FrontWrote(c: Conn, d: Conn, q: Request, frames: seq<Frame>) {
    && c.requests != []
    && d.requests == [q] + c.requests[1..]
    && d.departed == c.departed && d.nextId == c.nextId && d.link == c.link
    && d.wire == c.wire + frames
    && q.id == c.requests[0].id
    && q.written
  }

  lemma FrontWroteIds(c: Conn, d: Conn, q: Request, frames: seq<Frame>)
    requires FrontWrote(c, d, q, frames) && IdsOk(c)
    ensures IdsOk(d)
  {
    IdsSame(c.requests, d.requests);
    assert Places(d) == Places(c);
  }

  lemma {:induction false} FrontWroteWire(c: Conn, d: Conn, q: Request, frames: seq<Frame>)
    requires FrontWrote(c, d, q, frames) && WireOk(c)
    requires forall i :: 0 < i < |c.requests| ==> !c.requests[i].written
    requires Out(q) == Out(c.requests[0]) + frames && Strip(frames) == frames
    ensures WireOk(d)
  {
    hide Strip, Outs, Out, Gone;
    FrontOuts(c, d, q, frames);
    StripConcat(c.wire, frames);
    assert Outs(Gone(c.departed)) + Outs(c.requests) + frames == Outs(Gone(c.departed)) + (Outs(c.requests) + frames);
  }

  lemma FrontOuts(c: Conn, d: Conn, q: Request, frames: seq<Frame>)
    requires FrontWrote(c, d, q, frames) && Out(q) == Out(c.requests[0]) + frames
    requires forall i :: 0 < i < |c.requests| ==> !c.requests[i].written
    ensures Outs(d.requests) == Outs(c.requests) + frames
  {
    hide Outs, Out;
    OutsFront(c.requests);
    OutsFront(d.requests);
  }

  lemma {:induction false} FrontWroteScan(c: Conn, d: Conn, q: Request, frames: seq<Frame>)
    requires FrontWrote(c, d, q, frames) && ScanOk(c) && c.link.Up?
    requires Scan(if c.requests[0].written then After(q.id, c.requests[0].calls) else Ready, frames) == After(q.id, q.calls)
    requires !c.requests[0].written ==> frames != [] && frames[0].Head?
    ensures ScanOk(d)
  {
    ScanConcat(Ready, c.wire, frames);
    if !(forall g :: g in Gone(c.departed) ==> !Cut(g)) {
      if Scan(Ready, c.wire) == Bad {
        ScanBad(frames);
      } else {
        ScanHeadOutOfPlace(Scan(Ready, c.wire), frames);
      }
    }
  }

  lemma {:induction false} ScanHeadOutOfPlace(s: Reader, frames: seq<Frame>)
    requires frames != [] && frames[0].Head? && !s.Ready?
    ensures Scan(s, frames) == Bad
  {
    assert frames == [frames[0]] + frames[1..];
    ScanConcat(s, [frames[0]], frames[1..]);
    ScanOne(s, frames[0]);
    ScanBad(frames[1..]);
  }

  // ---------------------------------------------------------------- requests leave

  /** Requests move from the queue of `c` to the departed of `d`. */
  ghost predicate Left(c: Conn, d: Conn, ds: seq<Departure>) {
    && d.departed == c.departed + ds
    && d.nextId == c.nextId
    && d.wire == c.wire
    && Ids(Gone(ds)) + Ids(d.requests) == Ids(c.requests)
    && Outs(Gone(ds)) + Outs(d.requests) == Outs(c.requests)
  }

  lemma LeftIds(c: Conn, d: Conn, ds: seq<Departure>)
    requires Left(c, d, ds) && IdsOk(c)
    ensures IdsOk(d)
  {
    GoneConcat(c.departed, ds);
    IdsConcat(Gone(c.departed), Gone(ds));
    assert Places(d) == Places(c);
  }

  lemma LeftWire(c: Conn, d: Conn, ds: seq<Departure>)
    requires Left(c, d, ds) && WireOk(c)
    ensures WireOk(d)
  {
    GoneConcat(c.departed, ds);
    OutsConcat(Gone(c.departed), Gone(ds));
  }

  lemma DepartLeft(c: Conn, fate: Fate)
    requires c.requests != []
    ensures Left(c, Depart(c, fate), [Departure(c.requests[0], fate)])
  {
    var q := c.requests[0];
    assert c.requests == [q] + c.requests[1..];
    assert Gone([Departure(q, fate)]) == [q];
    IdsConcat([q], c.requests[1..]);
    OutsConcat([q], c.requests[1..]);
  }

  lemma DropAllLeft(c: Conn)
    ensures Left(c, DropAll(c), Drops(c.requests))
  {
    GoneDrops(c.requests);
    assert Ids([]) == multiset{};
  }

  lemma CloseAfterFrontLeft(c: Conn)
    requires c.requests != [] && forall i :: 0 < i < |c.requests| ==> !c.requests[i].written
    ensures Left(c, CloseAfterFront(c), Drops(c.requests[1..]))
  {
    var q := c.requests[0];
    GoneDrops(c.requests[1..]);
    assert c.requests == [q] + c.requests[1..];
    IdsConcat([q], c.requests[1..]);
    OutsConcat([q], c.requests[1..]);
    OutsSilent(c.requests[1..]);
  }

  /** Going down freezes the wire: the reader is in step exactly when no response was cut. */
  lemma DownScan(c: Conn, d: Conn)
    requires RecordsOk(c) && UpOk(c) && ScanOk(c) && c.link.Up?
    requires forall i :: 0 < i < |c.requests| ==> !c.requests[i].written
    requires d.wire == c.wire
    requires forall q :: q in History(d) <==> q in History(c)
    ensures InStep(d) <==> forall q :: q in History(d) ==> !Cut(q)
  {
    assert forall q :: q in Gone(c.departed) ==> !Incomplete(q);
    if FrontWritten(c) {
      assert forall q :: q in c.requests[1..] ==> !q.written;
      var f := c.requests[0];
      assert f in History(c);
      assert c.requests == [f] + c.requests[1..];
      assert forall q :: q in History(c) && q.written && q != f ==> q in Gone(c.departed);
    } else {
      assert forall q :: q in c.requests ==> !q.written;
    }
    assert forall q :: q in Gone(c.departed) ==> q in History(c);
  }

  lemma DropFates(qs: seq<Request>)
    requires forall i :: 0 <= i < |qs| ==> RequestOk(qs[i])
    ensures forall i :: 0 <= i < |qs| ==> FateOk(Drops(qs)[i])
  {
  }

  /** Whatever brings the connection down, the invariant holds afterwards. */
  lemma GoneDown(c: Conn, d: Conn)
    requires Core(c)
    requires d.requests == [] && d.departed == c.departed + Drops(c.requests)
    requires d.wire == c.wire && d.nextId == c.nextId && !d.link.Up?
    requires d.phase.InError? ==> d.readIgnored
    ensures Inv(d)
  {
    GoneDownWire(c, d);
    GoneDownScan(c, d);
    GoneDownOrder(c, d);
    GoneDownRecords(c, d);
  }

  lemma GoneDownWire(c: Conn, d: Conn)
    requires IdsOk(c) && WireOk(c)
    requires d.requests == [] && d.departed == c.departed + Drops(c.requests)
    requires d.wire == c.wire && d.nextId == c.nextId
    ensures IdsOk(d) && WireOk(d)
  {
    DropAllLeft(c);
    assert Left(c, d, Drops(c.requests));
    LeftIds(c, d, Drops(c.requests));
    LeftWire(c, d, Drops(c.requests));
  }

  lemma GoneDownScan(c: Conn, d: Conn)
    requires Core(c)
    requires d.requests == [] && d.departed == c.departed + Drops(c.requests)
    requires d.wire == c.wire && !d.link.Up?
    ensures ScanOk(d)
  {
    GoneConcat(c.departed, Drops(c.requests));
    GoneDrops(c.requests);
    assert History(d) == History(c);
    if c.link.Up? { DownScan(c, d); }
  }

  lemma GoneDownRecords(c: Conn, d: Conn)
    requires RecordsOk(c)
    requires d.requests == [] && d.departed == c.departed + Drops(c.requests)
    ensures RecordsOk(d)
  {
    DropFates(c.requests);
  }

  lemma GoneDownOrder(c: Conn, d: Conn)
    requires Order(c) && Shape(c)
    requires d.requests == [] && d.departed == c.departed + Drops(c.requests) && d.nextId == c.nextId
    ensures Order(d)
  {
    var n := |c.departed|;
    forall i, j | 0 <= i < j < |d.departed| && d.departed[i].request.written && d.departed[j].request.written
      ensures d.departed[i].request.id < d.departed[j].request.id
    {
      if j >= n { assert d.departed[j].request == c.requests[j - n]; }
    }
  }

  // ---------------------------------------------------------------- write_next_response and finish_request

  /** The state between the writes of write_next_response and its look at keep-alive. */
  function Flushed(c: Conn): Conn
    requires c.requests != [] && c.requests[0].response.Some?
  {
    var q := c.requests[0];
    var r := q.response.value;
    var keepAlive := r.keepAlive && q.header.keepAlive;
    SetFront(Write(c, Flush(q.id, keepAlive, r)),
             q.(response := Some(Sent(r)), written := true, headKeepAlive := keepAlive))
  }

  lemma {:induction false} FlushSplits(id: nat, keepAlive: bool, r: Response)
    ensures Flush(id, keepAlive, r)
         == ToVector(id, keepAlive, Sent(r)) + if r.chunked && !r.completed then Chunks(id, r.parts) else []
  {
  }

  lemma WriteTwice(c: Conn, q: Request, a: seq<Frame>, b: seq<Frame>)
    requires c.requests != []
    ensures Write(Write(SetFront(c, q), a), b) == SetFront(Write(c, a + b), q)
    ensures Write(CloseAfterFront(Write(SetFront(c, q), a)), b) == CloseAfterFront(SetFront(Write(c, a + b), q))
  {
  }

  /** Dropping what is behind the front between the head and the gathered chunks changes nothing on the wire. */
  lemma SendFrontFlushes(c: Conn)
    requires c.requests != [] && c.requests[0].response.Some?
    ensures var q := c.requests[0];
      SendFront(c) == if q.response.value.keepAlive && q.header.keepAlive then Flushed(c) else CloseAfterFront(Flushed(c))
  {
    var q := c.requests[0];
    var m := Marked(q);
    FlushSplits(q.id, m.headKeepAlive, q.response.value);
    assert Chunks(q.id, []) == [];
    WriteTwice(c, m, ToVector(q.id, m.headKeepAlive, m.response.value), Chunks(q.id, Waiting(q)));
  }

  ghost predicate CanSend(c: Conn) {
    && Core(c) && c.link.Up? && !c.closing
    && c.requests != [] && c.requests[0].response.Some? && !c.requests[0].written
  }

  lemma FlushHead(id: nat, keepAlive: bool, r: Response)
    ensures Flush(id, keepAlive, r) != [] && Flush(id, keepAlive, r)[0].Head?
  {
  }

  function FlushedRequest(q: Request): Request
    requires q.response.Some?
  {
    var r := q.response.value;
    q.(response := Some(Sent(r)), written := true, headKeepAlive := r.keepAlive && q.header.keepAlive)
  }

  function FlushedFrames(q: Request): seq<Frame>
    requires q.response.Some?
  {
    Flush(q.id, q.response.value.keepAlive && q.header.keepAlive, q.response.value)
  }

  /** The frames a waiting response is flushed as are its output, and leave a reader where its calls say. */
  lemma FlushedOut(q: Request)
    requires RequestOk(q) && q.response.Some? && !q.written
    ensures Out(FlushedRequest(q)) == Out(q) + FlushedFrames(q)
    ensures Strip(FlushedFrames(q)) == FlushedFrames(q)
    ensures Scan(Ready, FlushedFrames(q)) == After(q.id, q.calls)
    ensures FlushedFrames(q) != [] && FlushedFrames(q)[0].Head?
    ensures RequestOk(FlushedRequest(q))
  {
    FlushedRequestOk(q);
    hide Accepted, Complete, Strip, Scan, After, ToVector, Delivered, Flush, Whole;
    var keepAlive := q.response.value.keepAlive && q.header.keepAlive;
    FlushIsDelivered(q.id, keepAlive, q.response.value, q.calls);
    FlushPlain(q.id, keepAlive, q.response.value);
    FlushHead(q.id, keepAlive, q.response.value);
    ScanDelivered(q.id, keepAlive, q.calls);
  }

  lemma FlushedRequestOk(q: Request)
    requires RequestOk(q) && q.response.Some? && !q.written
    ensures RequestOk(FlushedRequest(q))
  {
    hide Accepted, AllQueued;
  }

  lemma FlushedRecords(c: Conn)
    requires CanSend(c)
    ensures RecordsOk(Flushed(c))
  {
    hide RequestOk, FateOk, Out, FlushedFrames, Shape, Order, IdsOk, UpOk, WireOk, ScanOk, Scan, Strip, After;
    FlushedOut(c.requests[0]);
    assert Flushed(c).requests[0] == FlushedRequest(c.requests[0]);
  }

  lemma FlushedShape(c: Conn)
    requires CanSend(c)
    ensures Shape(Flushed(c))
  {
  }

  lemma FlushedOrder(c: Conn)
    requires CanSend(c)
    ensures Order(Flushed(c))
  {
    OrderOfIds(c, Flushed(c));
  }

  lemma FlushedWire(c: Conn)
    requires CanSend(c)
    ensures IdsOk(Flushed(c)) && WireOk(Flushed(c)) && ScanOk(Flushed(c))
  {
    var q := c.requests[0];
    FlushedOut(q);
    assert FrontWrote(c, Flushed(c), FlushedRequest(q), FlushedFrames(q));
    FrontWroteIds(c, Flushed(c), FlushedRequest(q), FlushedFrames(q));
    FrontWroteWire(c, Flushed(c), FlushedRequest(q), FlushedFrames(q));
    FrontWroteScan(c, Flushed(c), FlushedRequest(q), FlushedFrames(q));
  }

  /** A head with keep-alive: the queue stays as it is. */
  lemma SendOpenKeeps(c: Conn)
    requires CanSend(c) && c.requests[0].response.value.keepAlive && c.requests[0].header.keepAlive
    ensures Core(SendFront(c))
  {
    FlushedRecords(c);
    FlushedShape(c);
    FlushedOrder(c);
    FlushedWire(c);
    SendFrontFlushes(c);
  }

  lemma CloseAfterFrontKeeps(m: Conn)
    requires m.link.Up? && m.requests != [] && !m.timer
    requires IdsOk(m) && WireOk(m) && ScanOk(m) && RecordsOk(m) && Shape(m) && Order(m)
    requires forall i :: 0 <= i < |m.departed| && m.departed[i].request.written ==> Complete(m.departed[i].request.calls)
    ensures Core(CloseAfterFront(m))
  {
    var d := CloseAfterFront(m);
    var rest := m.requests[1..];
    CloseAfterFrontLeft(m);
    LeftIds(m, d, Drops(rest));
    LeftWire(m, d, Drops(rest));
    DropFates(rest);
    ClosingScan(m, d, rest);
    ClosingOrder(m, d, rest);
    CloseAfterFrontRecords(m);
  }

  lemma CloseAfterFrontRecords(m: Conn)
    requires m.link.Up? && m.requests != [] && RecordsOk(m) && Shape(m)
    requires forall i :: 0 <= i < |m.departed| && m.departed[i].request.written ==> Complete(m.departed[i].request.calls)
    ensures RecordsOk(CloseAfterFront(m)) && UpOk(CloseAfterFront(m))
  {
    var d := CloseAfterFront(m);
    var rest := m.requests[1..];
    DropFates(rest);
    forall i | |m.departed| <= i < |d.departed|
      ensures RequestOk(d.departed[i].request) && FateOk(d.departed[i]) && !d.departed[i].request.written
    {
      assert d.departed[i] == Drops(rest)[i - |m.departed|];
      assert d.departed[i].request == m.requests[i - |m.departed| + 1];
    }
  }

  /** A head without keep-alive: everything behind the front is dropped. */
  lemma SendClosingKeeps(c: Conn)
    requires CanSend(c) && !(c.requests[0].response.value.keepAlive && c.requests[0].header.keepAlive)
    ensures Core(SendFront(c))
  {
    FlushedRecords(c);
    FlushedShape(c);
    FlushedOrder(c);
    FlushedWire(c);
    SendFrontFlushes(c);
    CloseAfterFrontKeeps(Flushed(c));
  }

  lemma ClosingScan(m: Conn, d: Conn, rest: seq<Request>)
    requires ScanOk(m) && m.link.Up? && m.requests != [] && rest == m.requests[1..]
    requires forall q :: q in rest ==> !q.written
    requires d.link == m.link && d.wire == m.wire && d.requests == [m.requests[0]] && d.departed == m.departed + Drops(rest)
    ensures ScanOk(d)
  {
    GoneConcat(m.departed, Drops(rest));
    GoneDrops(rest);
    assert Gone(d.departed) == Gone(m.departed) + rest;
    assert (forall q :: q in Gone(d.departed) ==> !Cut(q)) <==> (forall q :: q in Gone(m.departed) ==> !Cut(q)) by {
      forall q | q in Gone(m.departed) ensures q in Gone(d.departed) {}
    }
  }

  lemma ClosingOrder(m: Conn, d: Conn, rest: seq<Request>)
    requires Order(m) && m.requests != [] && rest == m.requests[1..]
    requires forall q :: q in rest ==> !q.written
    requires d.nextId == m.nextId && d.requests == [m.requests[0]] && d.departed == m.departed + Drops(rest)
    ensures Order(d)
  {
    forall i | |m.departed| <= i < |d.departed|
      ensures !d.departed[i].request.written && d.departed[i].request.id < d.nextId
    {
      assert d.departed[i].request == rest[i - |m.departed|];
      assert rest[i - |m.departed|] == m.requests[i - |m.departed| + 1];
    }
  }

  ghost predicate SentFront(c: Conn, d: Conn)
    requires CanSend(c)
  {
    && Core(d) && d.link.Up? && ReadOk(d) && CloseOk(d)
    && 0 < |d.requests| <= |c.requests|
    && d.requests[0].written
    && d.requests[0].response.Some?
    && d.requests[0].response.value.completed == c.requests[0].response.value.completed
    && d.requests[0].finishOnReceive == c.requests[0].finishOnReceive
  }

  lemma SendOpenRead(c: Conn)
    requires CanSend(c) && ReadOk(c) && c.requests[0].response.value.keepAlive && c.requests[0].header.keepAlive
    ensures ReadOk(SendFront(c)) && CloseOk(SendFront(c))
  {
    hide RecordsOk, IdsOk, UpOk, WireOk, ScanOk, Order, Flush;
    SendFrontFlushes(c);
    var d := SendFront(c);
    assert d.requests != [] && Back(d).id == Back(c).id && Back(d).done == Back(c).done;
  }

  lemma SendClosingRead(c: Conn)
    requires c.requests != [] && c.requests[0].response.Some? && !c.requests[0].written && Shape(c) && ReadOk(c)
    requires !(c.requests[0].response.value.keepAlive && c.requests[0].header.keepAlive)
    ensures ReadOk(SendFront(c)) && CloseOk(SendFront(c))
  {
    SendFrontFlushes(c);
  }

  lemma SendFrontKeeps(c: Conn)
    requires CanSend(c) && ReadOk(c)
    ensures SentFront(c, SendFront(c))
  {
    SendFrontFlushes(c);
    if c.requests[0].response.value.keepAlive && c.requests[0].header.keepAlive {
      SendOpenRead(c);
      SendOpenKeeps(c);
    } else {
      SendClosingRead(c);
      SendClosingKeeps(c);
    }
  }

  lemma DepartKeeps(c: Conn, fate: Fate)
    requires Core(c) && c.link.Up? && c.requests != []
    requires FateOk(Departure(c.requests[0], fate))
    requires c.requests[0].written && Complete(c.requests[0].calls)
    requires !c.closing ==> c.requests[0].headKeepAlive && fate == Answered
    ensures Core(Depart(c, fate))
  {
    var d := Depart(c, fate);
    var ds := [Departure(c.requests[0], fate)];
    DepartLeft(c, fate);
    LeftIds(c, d, ds);
    LeftWire(c, d, ds);
    DepartRecords(c, fate);
    DepartScan(c, fate);
  }

  lemma DepartRecords(c: Conn, fate: Fate)
    requires RecordsOk(c) && Shape(c) && Order(c) && UpOk(c) && c.requests != []
    requires FateOk(Departure(c.requests[0], fate))
    requires c.requests[0].written && Complete(c.requests[0].calls)
    requires !c.closing ==> c.requests[0].headKeepAlive && fate == Answered
    ensures RecordsOk(Depart(c, fate)) && Shape(Depart(c, fate)) && Order(Depart(c, fate)) && UpOk(Depart(c, fate))
  {
  }

  lemma DepartScan(c: Conn, fate: Fate)
    requires ScanOk(c) && Shape(c) && c.link.Up? && c.requests != []
    requires c.requests[0].written && Complete(c.requests[0].calls)
    ensures ScanOk(Depart(c, fate))
  {
    var d := Depart(c, fate);
    assert Gone(d.departed) == Gone(c.departed) + [c.requests[0]];
    var f := c.requests[0];
    assert f in Gone(d.departed);
    assert forall q :: q in Gone(c.departed) ==> q in Gone(d.departed);
    assert forall q :: q in Gone(d.departed) ==> q in Gone(c.departed) || q == f;
    assert !FrontWritten(d);
    if forall q :: q in Gone(d.departed) ==> !Cut(q) {
      assert !Cut(f);
    }
  }
}

/** The invariant of a server connection, clause by clause, and the facts about histories that
    the step lemmas use. */
module Invariant {
  import opened Options
  import opened Wire
  import opened Connection

  /** The requests that have left, in the order they left. */
  function Gone(ds: seq<Departure>): seq<Request> {
    seq(|ds|, i requires 0 <= i < |ds| => ds[i].request)
  }

  /** Every request the connection has ever admitted: those that left, then those still queued. */
  function History(c: Conn): seq<Request> {
    Gone(c.departed) + c.requests
  }

  // ---------------------------------------------------------------- output

  /** What a request has put on the wire. */
  function Out(q: Request): seq<Frame> {
    if q.written then Delivered(q.id, q.headKeepAlive, q.calls) else []
  }

  function Outs(qs: seq<Request>): seq<Frame> {
    if qs == [] then [] else Outs(qs[..|qs| - 1]) + Out(qs[|qs| - 1])
  }

  lemma {:induction false} OutsConcat(a: seq<Request>, b: seq<Request>)
    ensures Outs(a + b) == Outs(a) + Outs(b)
  {
    if b == [] {
      assert a + b == a;
    } else {
      assert (a + b)[..|a + b| - 1] == a + b[..|b| - 1];
      OutsConcat(a, b[..|b| - 1]);
    }
  }

  lemma {:induction false} OutsSilent(qs: seq<Request>)
    requires forall q :: q in qs ==> !q.written
    ensures Outs(qs) == []
  {
    if qs != [] { OutsSilent(qs[..|qs| - 1]); }
  }

  lemma OutsOne(q: Request)
    ensures Outs([q]) == Out(q)
  {
    assert [q][..0] == [];
  }

  /** Only the front of a queue has output. */
  lemma {:induction false} OutsFront(qs: seq<Request>)
    requires qs != [] && forall i :: 0 < i < |qs| ==> !qs[i].written
    ensures Outs(qs) == Out(qs[0])
  {
    assert qs == [qs[0]] + qs[1..];
    OutsConcat([qs[0]], qs[1..]);
    OutsOne(qs[0]);
    OutsSilent(qs[1..]);
  }

  lemma GoneConcat(a: seq<Departure>, b: seq<Departure>)
    ensures Gone(a + b) == Gone(a) + Gone(b)
  {
  }

  lemma GoneDrops(qs: seq<Request>)
    ensures Gone(Drops(qs)) == qs
  {
  }

  // ---------------------------------------------------------------- identity

  ghost function Ids(qs: seq<Request>): multiset<nat> {
    if qs == [] then multiset{} else Ids(qs[..|qs| - 1]) + multiset{qs[|qs| - 1].id}
  }

  lemma {:induction false} IdsConcat(a: seq<Request>, b: seq<Request>)
    ensures Ids(a + b) == Ids(a) + Ids(b)
  {
    if b == [] {
      assert a + b == a;
    } else {
      assert (a + b)[..|a + b| - 1] == a + b[..|b| - 1];
      IdsConcat(a, b[..|b| - 1]);
    }
  }

  lemma {:induction false} IdsSame(a: seq<Request>, b: seq<Request>)
    requires |a| == |b| && forall i :: 0 <= i < |a| ==> a[i].id == b[i].id
    ensures Ids(a) == Ids(b)
  {
    if a != [] { IdsSame(a[..|a| - 1], b[..|b| - 1]); }
  }

  lemma {:induction false} IdsMember(qs: seq<Request>, i: nat)
    requires i < |qs|
    ensures qs[i].id in Ids(qs)
  {
    if i < |qs| - 1 { IdsMember(qs[..|qs| - 1], i); }
  }

  lemma IdsOne(q: Request)
    ensures Ids([q]) == multiset{q.id}
  {
    assert [q][..0] == [];
  }

  /** The number of places a request id has: in the queue, or among the departed. */
  ghost function Places(c: Conn): multiset<nat> {
    Ids(Gone(c.departed)) + Ids(c.requests)
  }

  // ---------------------------------------------------------------- clauses

  ghost predicate RequestOk(q: Request) {
    && Accepted(q.calls)
    && (q.response.Some? <==> q.calls != [])
    && (q.response.Some? ==> q.response.value.completed == Complete(q.calls))
    && (q.response.Some? && !q.written ==> Holds(q.response.value, q.calls) && AllQueued(q.calls))
    && (q.written ==> q.response.Some?)
    && (q.written && q.headKeepAlive ==> q.calls[0].Respond? && q.calls[0].response.keepAlive && q.header.keepAlive)
    && (q.finishOnReceive ==> q.written && q.response.value.completed)
  }

  ghost predicate FateOk(d: Departure) {
    match d.fate
    case Answered => d.request.done && d.request.written && Complete(d.request.calls)
    case Dropped(notice) =>
      && !(d.request.done && Complete(d.request.calls))
      && notice == if d.request.done then DropEvent else if d.request.partial then PartialError else ErrorEvent
    case Discarded => d.request.done && Complete(d.request.calls)
    case Upgraded => !d.request.header.upgrade.NoUpgrade?
  }

  /** Every request but the last is received and keep-alive; only the front has been written. */
  ghost predicate Shape(c: Conn) {
    && (forall i :: 0 <= i < |c.requests| - 1 ==>
          c.requests[i].done && c.requests[i].header.keepAlive && !c.requests[i].finishOnReceive)
    && (forall i :: 0 < i < |c.requests| ==> !c.requests[i].written)
  }

  /** Requests wait in arrival order, and heads go out in arrival order. */
  ghost predicate Order(c: Conn) {
    && (forall i, j :: 0 <= i < j < |c.requests| ==> c.requests[i].id < c.requests[j].id)
    && (forall i :: 0 <= i < |c.requests| ==> c.requests[i].id < c.nextId)
    && (forall i :: 0 <= i < |c.departed| ==> c.departed[i].request.id < c.nextId)
    && (forall i, j :: 0 <= i < |c.departed| && 0 <= j < |c.requests| && c.departed[i].request.written ==>
          c.departed[i].request.id < c.requests[j].id)
    && (forall i, j :: 0 <= i < j < |c.departed| && c.departed[i].request.written && c.departed[j].request.written ==>
          c.departed[i].request.id < c.departed[j].request.id)
  }

  ghost predicate IdsOk(c: Conn) {
    forall id: nat :: Places(c)[id] == if id < c.nextId then 1 else 0
  }

  ghost predicate RecordsOk(c: Conn) {
    && (forall i :: 0 <= i < |c.requests| ==> RequestOk(c.requests[i]))
    && (forall i :: 0 <= i < |c.departed| ==> RequestOk(c.departed[i].request) && FateOk(c.departed[i]))
  }

  /** While the connection is up, every response that left its mark on the wire is finished; unless
      it is closing, every departed request was answered and every head written kept it alive. */
  ghost predicate UpOk(c: Conn) {
    c.link.Up? ==>
      && (forall i :: 0 <= i < |c.departed| && c.departed[i].request.written ==> Complete(c.departed[i].request.calls))
      && (!c.closing ==>
            && (forall i :: 0 <= i < |c.departed| ==> c.departed[i].fate == Answered && c.departed[i].request.headKeepAlive)
            && (forall i :: 0 <= i < |c.requests| && c.requests[i].written ==> c.requests[i].headKeepAlive))
  }

  ghost predicate WireOk(c: Conn) {
    Strip(c.wire) == Outs(Gone(c.departed)) + Outs(c.requests)
  }

  ghost predicate Incomplete(q: Request) { q.written && !Complete(q.calls) }

  ghost predicate Cut(q: Request) { q.written && Unterminated(q.calls) }

  /** A reader of the wire is between responses when none is in progress, and inside the one that is. */
  ghost predicate InStep(c: Conn) {
    match Scan(Ready, c.wire)
    case Ready => forall q :: q in History(c) ==> !Incomplete(q)
    case Streaming(id) => exists q :: q in History(c) && Incomplete(q) && q.id == id
    case _ => false
  }

  ghost predicate FrontWritten(c: Conn) { c.requests != [] && c.requests[0].written }

  ghost predicate ScanOk(c: Conn) {
    if !c.link.Up? then
      InStep(c) <==> forall q :: q in History(c) ==> !Cut(q)
    else if forall q :: q in Gone(c.departed) ==> !Cut(q) then
      Scan(Ready, c.wire) == if FrontWritten(c) then After(c.requests[0].id, c.requests[0].calls) else Ready
    else
      || Scan(Ready, c.wire) == Bad
      || (!FrontWritten(c) && Scan(Ready, c.wire).Streaming?)
  }

  /** Everything that also holds in the middle of write_next_response and finish_request. */
  ghost predicate Core(c: Conn) {
    && RecordsOk(c)
    && Shape(c)
    && Order(c)
    && IdsOk(c)
    && UpOk(c)
    && WireOk(c)
    && ScanOk(c)
    && (c.timer ==> c.requests == [])
    && (!c.link.Up? ==> c.requests == [])
  }

  /** The queue is drained: a front request with a response has been written, and one with a
      completed response is only waiting for the end of its own request. */
  ghost predicate FrontOk(c: Conn) {
    c.requests != [] ==>
      var q := c.requests[0];
      && (q.response.Some? ==> q.written)
      && (q.response.Some? && q.response.value.completed ==>
            && q.finishOnReceive
            && (q.done ==> c.readIgnored || (c.phase.InLoop? && c.phase.id == q.id)))
  }

  /** While closing, the queue holds exactly the request whose head announced it. */
  ghost predicate CloseOk(c: Conn) {
    c.closing && c.link.Up? ==>
      && |c.requests| == 1
      && c.requests[0].written
      && !c.requests[0].headKeepAlive
      && (c.requests[0].done && c.phase.Quiet? ==> c.readIgnored)
  }

  /** What the parser and the queue know about each other while something can still be read. */
  ghost predicate ReadOk(c: Conn) {
    && (c.phase.InError? ==> c.readIgnored)
    && (c.link.Up? && !c.readIgnored ==>
          && (c.parsing.Some? ==> c.requests != [] && Back(c).id == c.parsing.value && !Back(c).done)
          && (c.parsing.None? ==> forall i :: 0 <= i < |c.requests| ==> c.requests[i].done)
          && (c.parsing.None? && c.phase.Quiet? && c.requests != [] ==>
                Back(c).header.keepAlive && !Back(c).finishOnReceive))
    && (c.phase.InLoop? && c.link.Up? ==>
          && c.parsing == (if c.phase.done then None else Some(c.phase.id))
          && (!c.closing && c.requests != [] ==> Back(c).id == c.phase.id)
          && (forall i :: 0 <= i < |c.requests| && c.requests[i].id == c.phase.id ==>
                c.requests[i].done == c.phase.done && c.requests[i].header.keepAlive == c.phase.keepAlive))
  }

  ghost predicate Inv(c: Conn) {
    && Core(c)
    && FrontOk(c)
    && CloseOk(c)
    && ReadOk(c)
  }
}

/** Order on the wire: heads come first, nothing follows a closing response, and every response that has been
    begun is there as far as its calls deliver it. */
module WireOrder {
  import opened Options
  import opened Wire
  import opened Connection
  import opened Invariant
  import opened Lifetime

  // ---------------------------------------------------------------- heads first

  /** A head that is the first of its response, or a frame of a response that has a head. */
  predicate InPlace(before: seq<Frame>, f: Frame) {
    if f.Continue? then true
    else if f.Head? then Heads(before, f.id) == 0
    else Heads(before, f.id) > 0
  }

  /** Each response has one head at most, and nothing of it comes before its head. */
  predicate HeadsFirst(frames: seq<Frame>) {
    frames == [] || (HeadsFirst(frames[..|frames| - 1]) && InPlace(frames[..|frames| - 1], frames[|frames| - 1]))
  }

  lemma {:induction false} HeadsFirstPrefix(a: seq<Frame>, b: seq<Frame>)
    requires a <= b && HeadsFirst(b)
    ensures HeadsFirst(a)
  {
    if a == b {
    } else {
      assert a <= b[..|b| - 1];
      HeadsFirstPrefix(a, b[..|b| - 1]);
    }
  }

  lemma {:induction false} HeadsFirstOne(a: seq<Frame>, f: Frame)
    requires HeadsFirst(a)
    ensures HeadsFirst(a + [f]) <==> InPlace(a, f)
  {
    assert (a + [f])[..|a|] == a;
  }

  lemma {:induction false} HeadsFirstStrip(frames: seq<Frame>)
    ensures HeadsFirst(frames) <==> HeadsFirst(Strip(frames))
  {
    hide Heads;
    if frames != [] {
      var before, last := frames[..|frames| - 1], frames[|frames| - 1];
      HeadsFirstStrip(before);
      HeadsStrip(before, last.id);
      assert frames == before + [last];
      if HeadsFirst(before) {
        HeadsFirstOne(before, last);
        if !last.Continue? { HeadsFirstOne(Strip(before), last); } else { assert Strip(frames) == Strip(before) + [] == Strip(before); }
      } else if !last.Continue? {
        if HeadsFirst(Strip(frames)) { HeadsFirstPrefix(Strip(before), Strip(frames)); }
      } else {
        assert Strip(frames) == Strip(before) + [] == Strip(before);
      }
    }
  }

  /** A head and whatever else belongs to the same response. */
  predicate OneResponse(id: nat, frames: seq<Frame>) {
    && frames != [] && frames[0].Head?
    && (forall f :: f in frames ==> f.id == id && !f.Continue?)
    && (forall f :: f in frames[1..] ==> !f.Head?)
  }

  lemma {:induction false} HeadsFirstResponse(a: seq<Frame>, id: nat, b: seq<Frame>)
    requires HeadsFirst(a) && Heads(a, id) == 0 && OneResponse(id, b)
    ensures HeadsFirst(a + b) && Heads(a + b, id) == 1
  {
    var before, last := b[..|b| - 1], b[|b| - 1];
    assert a + b == (a + before) + [last];
    assert last in b;
    if before == [] {
      assert a + before == a;
      HeadsFirstOne(a, last);
      HeadsConcat(a, [last], id);
      HeadsOne(last, id);
    } else {
      assert before[1..] + [last] == b[1..];
      assert last in b[1..];
      HeadsFirstResponse(a, id, before);
      HeadsFirstOne(a + before, last);
      HeadsConcat(a + before, [last], id);
      HeadsOne(last, id);
    }
  }

  lemma {:induction false} ChunksAre(id: nat, parts: seq<Piece>)
    ensures forall f :: f in Chunks(id, parts) ==> f.Chunk? && f.id == id
  {
    if parts != [] { ChunksAre(id, parts[..|parts| - 1]); }
  }

  lemma VectorIsResponse(id: nat, keepAlive: bool, r: Response)
    ensures OneResponse(id, ToVector(id, keepAlive, r))
  {
    ChunksAre(id, r.parts);
  }

  lemma MoreOfResponse(id: nat, a: seq<Frame>, b: seq<Frame>)
    requires OneResponse(id, a) && forall f :: f in b ==> f.id == id && !f.Head? && !f.Continue?
    ensures OneResponse(id, a + b)
  {
    assert (a + b)[1..] == a[1..] + b;
  }

  lemma {:induction false} DeliveredIsResponse(id: nat, keepAlive: bool, calls: seq<Call>)
    requires Accepted(calls) && calls != []
    ensures OneResponse(id, Delivered(id, keepAlive, calls))
  {
    AcceptedHead(calls);
    var before, last := calls[..|calls| - 1], calls[|calls| - 1];
    assert Accepted(before);
    hide Pieces, ToVector, OneResponse, Complete, Whole, Accepted;
    if before == [] {
      VectorIsResponse(id, keepAlive, last.response);
      assert Delivered(id, keepAlive, calls) == [] + ToVector(id, keepAlive, last.response);
    } else {
      DeliveredIsResponse(id, keepAlive, before);
      MoreOfResponse(id, Delivered(id, keepAlive, before), DeliveredFrames(id, keepAlive, before, last));
    }
  }

  lemma {:induction false} OutsHeadsFirst(qs: seq<Request>)
    requires forall i :: 0 <= i < |qs| ==> RequestOk(qs[i])
    requires forall id: nat :: Ids(qs)[id] <= 1
    ensures HeadsFirst(Outs(qs))
  {
    if qs != [] {
      var before, q := qs[..|qs| - 1], qs[|qs| - 1];
      assert forall id: nat :: Ids(before)[id] <= Ids(qs)[id];
      OutsHeadsFirst(before);
      assert Ids(before)[q.id] == 0;
      HeadsOuts(before, q.id);
      if q.written {
        assert RequestOk(q);
        DeliveredIsResponse(q.id, q.headKeepAlive, q.calls);
        HeadsFirstResponse(Outs(before), q.id, Out(q));
      } else {
        assert Outs(qs) == Outs(before) + [] == Outs(before);
      }
    }
  }

  lemma CoreHeadsFirst(c: Conn)
    requires IdsOk(c) && RecordsOk(c) && WireOk(c)
    ensures HeadsFirst(c.wire)
  {
    HistoryOk(c);
    OutsConcat(Gone(c.departed), c.requests);
    IdsConcat(Gone(c.departed), c.requests);
    assert Ids(History(c)) == Places(c);
    hide RequestOk, FateOk, Gone, Outs, Ids, Strip, HeadsFirst;
    OutsHeadsFirst(History(c));
    HeadsFirstStrip(c.wire);
  }

  // ---------------------------------------------------------------- the closing response comes last

  /** The response whose head was the first to say that the connection closes. */
  function LastWord(frames: seq<Frame>): Option<nat> {
    if frames == [] then None
    else
      var before, last := LastWord(frames[..|frames| - 1]), frames[|frames| - 1];
      if before.Some? then before else if last.Head? && !last.keepAlive then Some(last.id) else None
  }

  /** Behind that head there is only the rest of its response. */
  predicate ClosedLast(frames: seq<Frame>) {
    frames == [] ||
      (ClosedLast(frames[..|frames| - 1]) && Fits(LastWord(frames[..|frames| - 1]), frames[|frames| - 1]))
  }

  predicate Fits(closing: Option<nat>, f: Frame) {
    closing.Some? ==> f.id == closing.value && !f.Head? && !f.Continue?
  }

  lemma {:induction false} ClosedLastOne(a: seq<Frame>, f: Frame)
    ensures ClosedLast(a + [f]) <==> ClosedLast(a) && Fits(LastWord(a), f)
    ensures LastWord(a + [f]) ==
      if LastWord(a).Some? then LastWord(a) else if f.Head? && !f.keepAlive then Some(f.id) else None
  {
    assert (a + [f])[..|a|] == a;
  }

  lemma {:induction false} ClosedLastPrefix(a: seq<Frame>, b: seq<Frame>)
    requires a <= b && ClosedLast(b)
    ensures ClosedLast(a)
  {
    if a != b {
      assert a <= b[..|b| - 1];
      ClosedLastPrefix(a, b[..|b| - 1]);
    }
  }

  /** Frames that are no heads and no interim responses belong to the closing response, if there is one. */
  lemma {:induction false} RestFits(a: seq<Frame>, id: nat, b: seq<Frame>)
    requires ClosedLast(a) && (LastWord(a).Some? ==> LastWord(a).value == id)
    requires forall f :: f in b ==> f.id == id && !f.Head? && !f.Continue?
    ensures ClosedLast(a + b) && LastWord(a + b) == LastWord(a)
  {
    if b == [] {
      assert a + b == a;
    } else {
      var before, last := b[..|b| - 1], b[|b| - 1];
      assert a + b == (a + before) + [last];
      assert last in b;
      RestFits(a, id, before);
      ClosedLastOne(a + before, last);
    }
  }

  lemma {:induction false} ResponseFits(a: seq<Frame>, id: nat, b: seq<Frame>)
    requires ClosedLast(a) && LastWord(a).None? && OneResponse(id, b)
    ensures ClosedLast(a + b) && LastWord(a + b) == if b[0].keepAlive then None else Some(id)
  {
    assert a + b == (a + [b[0]]) + b[1..];
    assert b[0] in b;
    ClosedLastOne(a, b[0]);
    if b[0].keepAlive { PlainRest(a + [b[0]], b[1..]); } else { RestFits(a + [b[0]], id, b[1..]); }
  }

  /** Without a closing head there is nothing to come behind. */
  lemma {:induction false} PlainRest(a: seq<Frame>, b: seq<Frame>)
    requires ClosedLast(a) && LastWord(a).None? && forall f :: f in b ==> !f.Head?
    ensures ClosedLast(a + b) && LastWord(a + b).None?
  {
    if b == [] {
      assert a + b == a;
    } else {
      var before, last := b[..|b| - 1], b[|b| - 1];
      assert a + b == (a + before) + [last];
      assert last in b;
      PlainRest(a, before);
      ClosedLastOne(a + before, last);
    }
  }

  // ---------------------------------------------------------------- what is on the wire of one response

  /** The frames of response `id`. */
  function Of(frames: seq<Frame>, id: nat): seq<Frame> {
    if frames == [] then []
    else
      var last := frames[|frames| - 1];
      Of(frames[..|frames| - 1], id) + if last.id == id && !last.Continue? then [last] else []
  }

  lemma {:induction false} OfConcat(a: seq<Frame>, b: seq<Frame>, id: nat)
    ensures Of(a + b, id) == Of(a, id) + Of(b, id)
  {
    if b == [] {
      assert a + b == a;
    } else {
      assert (a + b)[..|a + b| - 1] == a + b[..|b| - 1];
      OfConcat(a, b[..|b| - 1], id);
    }
  }

  lemma {:induction false} OfAll(frames: seq<Frame>, id: nat)
    requires forall f :: f in frames ==> f.id == id && !f.Continue?
    ensures Of(frames, id) == frames
  {
    if frames != [] {
      OfAll(frames[..|frames| - 1], id);
      assert frames[|frames| - 1] in frames;
      assert frames == frames[..|frames| - 1] + [frames[|frames| - 1]];
    }
  }

  lemma {:induction false} OfNone(frames: seq<Frame>, id: nat)
    requires forall f :: f in frames ==> f.id != id
    ensures Of(frames, id) == []
  {
    if frames != [] { OfNone(frames[..|frames| - 1], id); }
  }

  lemma {:induction false} OfStrip(frames: seq<Frame>, id: nat)
    ensures Of(Strip(frames), id) == Of(frames, id)
  {
    if frames != [] {
      var before, last := frames[..|frames| - 1], frames[|frames| - 1];
      OfStrip(before, id);
      OfConcat(Strip(before), if last.Continue? then [] else [last], id);
      assert [last][..0] == [];
    }
  }

  lemma {:induction false} OfOut(q: Request, id: nat)
    requires RequestOk(q)
    ensures Of(Out(q), id) == if q.id == id then Out(q) else []
  {
    if q.written {
      DeliveredIsResponse(q.id, q.headKeepAlive, q.calls);
      if q.id == id { OfAll(Out(q), id); } else { OfNone(Out(q), id); }
    }
  }

  lemma {:induction false} OfOthers(qs: seq<Request>, id: nat)
    requires Ids(qs)[id] == 0 && forall i :: 0 <= i < |qs| ==> RequestOk(qs[i])
    ensures Of(Outs(qs), id) == []
  {
    hide RequestOk, Out;
    if qs != [] {
      var before, q := qs[..|qs| - 1], qs[|qs| - 1];
      OfOthers(before, id);
      OfConcat(Outs(before), Out(q), id);
      OfOut(q, id);
    }
  }

  lemma {:induction false} OfOuts(qs: seq<Request>, i: nat)
    requires i < |qs| && Ids(qs)[qs[i].id] == 1 && forall j :: 0 <= j < |qs| ==> RequestOk(qs[j])
    ensures Of(Outs(qs), qs[i].id) == Out(qs[i])
  {
    hide RequestOk, Out, Of;
    var before, q := qs[..|qs| - 1], qs[|qs| - 1];
    var id := qs[i].id;
    OfConcat(Outs(before), Out(q), id);
    OfOut(q, id);
    if i < |before| {
      IdsMember(before, i);
      assert before[i] == qs[i];
      OfOuts(before, i);
    } else {
      OfOthers(before, id);
    }
  }

  /** What has been given for a response that has been begun is on the wire, as far as it is delivered. */
  ghost predicate NothingMissing(c: Conn) {
    forall q :: q in History(c) && q.written ==> Of(c.wire, q.id) == Out(q)
  }

  lemma {:induction false} OfHistory(c: Conn, q: Request)
    requires IdsOk(c) && RecordsOk(c) && WireOk(c) && q in History(c)
    ensures Of(c.wire, q.id) == Out(q)
  {
    HistoryOk(c);
    hide RequestOk, Gone, Outs, Ids, Strip, Of, Out;
    var h := History(c);
    OfStrip(c.wire, q.id);
    OutsConcat(Gone(c.departed), c.requests);
    IdsConcat(Gone(c.departed), c.requests);
    var i :| 0 <= i < |h| && h[i] == q;
    IdsMember(h, i);
    assert Ids(h)[q.id] == Places(c)[q.id] <= 1;
    OfOuts(h, i);
  }

  lemma InvNothingMissing(c: Conn)
    requires IdsOk(c) && RecordsOk(c) && WireOk(c)
    ensures NothingMissing(c)
  {
    hide IdsOk, RecordsOk, WireOk, Of, Out;
    forall q | q in History(c) && q.written ensures Of(c.wire, q.id) == Out(q) { OfHistory(c, q); }
  }

  // ---------------------------------------------------------------- all of it

  /** The wire is in order: heads first, the closing response last, and nothing of a response missing. */
  ghost predicate Sound(c: Conn) {
    HeadsFirst(c.wire) && ClosedLast(c.wire) && NothingMissing(c)
  }

  /** Going on, a wire that is out of order does not get better. */
  lemma Spoiled(c: Conn, d: Conn)
    requires !(HeadsFirst(c.wire) && ClosedLast(c.wire)) && c.wire <= d.wire
    ensures !(HeadsFirst(d.wire) && ClosedLast(d.wire))
  {
    if HeadsFirst(d.wire) && ClosedLast(d.wire) {
      HeadsFirstPrefix(c.wire, d.wire);
      ClosedLastPrefix(c.wire, d.wire);
    }
  }
}

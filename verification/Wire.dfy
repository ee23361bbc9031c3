/** Responses, the calls a user makes on them, and the frames they become on a connection.

    Byte encoding belongs to Protocol-HTTP, which is not part of this model. A frame stands
    for one encoded unit: an interim 100 response, a response head, a sized body, a chunk, or
    a last chunk. */
module Wire {

  /** A non-empty piece of body text. Empty pieces add nothing to `body.length()` and encode to nothing. */
  type Piece = s: string | |s| > 0 witness "x"

  datatype Frame =
    | Continue(id: nat)
    | Head(id: nat, code: nat, keepAlive: bool, chunked: bool)
    | Body(id: nat, text: string)
    | Chunk(id: nat, text: string)
    | Final(id: nat, text: string)

  /** A ServerResponse: `parts` is `body.parts`, `completed` is `_completed`. */
  datatype Response = Response(code: nat, keepAlive: bool, chunked: bool, parts: seq<Piece>, completed: bool)

  /** One accepted call on the response of a request. `atFront` records whether the request was
      at the front of the queue when its last chunk was given. */
  datatype Call =
    | Respond(response: Response)
    | SendChunk(text: string)
    | SendFinal(text: string, atFront: bool)

  // ---------------------------------------------------------------- encoding

  function Join(parts: seq<Piece>): string {
    if parts == [] then "" else parts[0] + Join(parts[1..])
  }

  function Chunks(id: nat, parts: seq<Piece>): seq<Frame> {
    if parts == [] then [] else Chunks(id, parts[..|parts| - 1]) + [Chunk(id, parts[|parts| - 1])]
  }

  /** Response::to_vector of Protocol-HTTP. A chunked message without a body is a bare head. */
  function ToVector(id: nat, keepAlive: bool, r: Response): seq<Frame> {
    [Head(id, if r.code == 0 then 200 else r.code, keepAlive, r.chunked)] +
    if !r.chunked then [Body(id, Join(r.parts))]
    else if r.parts == [] then []
    else Chunks(id, r.parts) + [Final(id, "")]
  }

  // ---------------------------------------------------------------- reference: serial answering

  /** The frames of one call on a response that is at the front of the queue. */
  function SerialFrames(id: nat, keepAlive: bool, call: Call): seq<Frame> {
    match call
    case Respond(r) => ToVector(id, keepAlive, r)
    case SendChunk(text) => if text == "" then [] else [Chunk(id, text)]
    case SendFinal(text, _) => [Final(id, text)]
  }

  /** What a sequence of calls puts on the wire when the request is at the front from the start. */
  function Serial(id: nat, keepAlive: bool, calls: seq<Call>): seq<Frame> {
    if calls == [] then []
    else Serial(id, keepAlive, calls[..|calls| - 1]) + SerialFrames(id, keepAlive, calls[|calls| - 1])
  }

  // ---------------------------------------------------------------- what the connection delivers

  /** The body pieces given by a sequence of calls, the last chunk's own text excluded. */
  function Pieces(calls: seq<Call>): seq<Piece> {
    if calls == [] then []
    else
      var before := Pieces(calls[..|calls| - 1]);
      match calls[|calls| - 1]
      case Respond(r) => r.parts
      case SendChunk(text) => if text == "" then before else before + [text]
      case SendFinal(_, _) => before
  }

  /** What the connection delivers for a last chunk given while the request waits in the queue:
      its text is not kept, and a body without pieces gets no last chunk at all. */
  function DeliveredFrames(id: nat, keepAlive: bool, before: seq<Call>, call: Call): seq<Frame> {
    if call.SendFinal? && !call.atFront
    then if Pieces(before) == [] then [] else [Final(id, "")]
    else SerialFrames(id, keepAlive, call)
  }

  function Delivered(id: nat, keepAlive: bool, calls: seq<Call>): seq<Frame> {
    if calls == [] then []
    else
      var before := calls[..|calls| - 1];
      Delivered(id, keepAlive, before) + DeliveredFrames(id, keepAlive, before, calls[|calls| - 1])
  }

  /** A last chunk given too early, whose text or whose frame is lost. */
  predicate Lossy(calls: seq<Call>) {
    && calls != []
    && var last := calls[|calls| - 1];
       last.SendFinal? && !last.atFront && (last.text != "" || Pieces(calls) == [])
  }

  /** A last chunk that never becomes a frame: the response has no end on the wire. */
  predicate Unterminated(calls: seq<Call>) {
    && calls != []
    && var last := calls[|calls| - 1];
       last.SendFinal? && !last.atFront && Pieces(calls) == []
  }

  predicate Whole(r: Response) { !r.chunked || r.parts != [] }

  /** The calls that ServerResponse and ServerConnection accept: a response first, chunks only
      while it is not completed, nothing after the last chunk. */
  predicate Accepted(calls: seq<Call>) {
    if calls == [] then true
    else
      var before := calls[..|calls| - 1];
      var last := calls[|calls| - 1];
      && Accepted(before)
      && if before == [] then last.Respond? && last.response.completed == Whole(last.response)
         else !last.Respond? && !Complete(before)
  }

  /** The response has been completed by these calls. */
  predicate Complete(calls: seq<Call>) {
    && calls != []
    && match calls[|calls| - 1]
       case Respond(r) => Whole(r)
       case SendChunk(_) => false
       case SendFinal(_, _) => true
  }

  lemma SnocShape(calls: seq<Call>, call: Call)
    ensures (calls + [call])[..|calls + [call]| - 1] == calls
    ensures (calls + [call])[|calls + [call]| - 1] == call
  {
  }

  lemma {:induction false} DeliveredSnoc(id: nat, keepAlive: bool, calls: seq<Call>, call: Call)
    ensures Delivered(id, keepAlive, calls + [call])
         == Delivered(id, keepAlive, calls) + DeliveredFrames(id, keepAlive, calls, call)
  {
    SnocShape(calls, call);
  }

  /** An accepted sequence of calls starts with its only response. */
  lemma {:induction false} AcceptedHead(calls: seq<Call>)
    requires Accepted(calls) && calls != []
    ensures calls[0].Respond?
    ensures calls[0].response.completed == Whole(calls[0].response)
    ensures |calls| > 1 ==> !Whole(calls[0].response)
    ensures forall i :: 0 < i < |calls| ==> !calls[i].Respond?
    ensures forall i :: 0 <= i < |calls| - 1 ==> !calls[i].SendFinal?
  {
    var before := calls[..|calls| - 1];
    if before != [] {
      AcceptedHead(before);
      assert Accepted(before) && !Complete(before);
      if |before| == 1 { assert before[0] == calls[0]; }
      assert calls[0] == before[0];
      forall i | 0 < i < |calls| ensures !calls[i].Respond? {
        if i < |calls| - 1 { assert calls[i] == before[i]; }
      }
      forall i | 0 <= i < |calls| - 1 ensures !calls[i].SendFinal? {
        assert calls[i] == before[i];
      }
    }
  }

  /** Up to its last chunk a response is delivered exactly as if it had been at the front from the start. */
  lemma {:induction false} OpenIsSerial(id: nat, keepAlive: bool, calls: seq<Call>)
    requires Accepted(calls) && (calls != [] ==> !calls[|calls| - 1].SendFinal?)
    ensures Delivered(id, keepAlive, calls) == Serial(id, keepAlive, calls)
  {
    if calls != [] {
      AcceptedHead(calls);
      var before := calls[..|calls| - 1];
      if before != [] { assert before[|before| - 1] == calls[|calls| - 2]; }
      OpenIsSerial(id, keepAlive, before);
    }
  }

  /** The delivered frames are the serial ones except for at most one missing frame. */
  lemma {:induction false} DeliveredLength(id: nat, keepAlive: bool, calls: seq<Call>)
    requires Accepted(calls)
    ensures |Delivered(id, keepAlive, calls)| + (if Unterminated(calls) then 1 else 0)
         == |Serial(id, keepAlive, calls)|
  {
    if calls != [] {
      AcceptedHead(calls);
      var before := calls[..|calls| - 1];
      if before != [] { assert before[|before| - 1] == calls[|calls| - 2]; }
      OpenIsSerial(id, keepAlive, before);
    }
  }

  /** A response is delivered as in serial answering if and only if its last chunk was not given
      from within the queue with a text of its own or without any earlier piece. */
  lemma {:induction false} DeliveredIffNotLossy(id: nat, keepAlive: bool, calls: seq<Call>)
    requires Accepted(calls)
    ensures Delivered(id, keepAlive, calls) == Serial(id, keepAlive, calls) <==> !Lossy(calls)
  {
    if calls != [] {
      AcceptedHead(calls);
      var before := calls[..|calls| - 1];
      if before != [] { assert before[|before| - 1] == calls[|calls| - 2]; }
      OpenIsSerial(id, keepAlive, before);
      DeliveredLength(id, keepAlive, calls);
      var d, s := Delivered(id, keepAlive, calls), Serial(id, keepAlive, calls);
      if Lossy(calls) && |d| == |s| {
        assert d[|d| - 1] == Final(id, "") && s[|s| - 1] == Final(id, calls[|calls| - 1].text);
      }
    }
  }

  // ---------------------------------------------------------------- the response object while it waits

  /** `r` is what the response object holds after these calls, all made from within the queue. */
  predicate Holds(r: Response, calls: seq<Call>) {
    && calls != [] && calls[0].Respond?
    && r.code == calls[0].response.code
    && r.chunked == calls[0].response.chunked
    && r.parts == Pieces(calls)
    && r.completed == Complete(calls)
    && (r.keepAlive ==> calls[0].response.keepAlive)
  }

  /** What write_next_response sends for a response object: everything when it is completed or has
      no body, otherwise the head first and then the pieces gathered so far. */
  function Flush(id: nat, keepAlive: bool, r: Response): seq<Frame> {
    if r.chunked && !r.completed && r.parts != []
    then ToVector(id, keepAlive, r.(parts := [])) + Chunks(id, r.parts)
    else ToVector(id, keepAlive, r)
  }

  predicate AllQueued(calls: seq<Call>) {
    forall i :: 0 <= i < |calls| && calls[i].SendFinal? ==> !calls[i].atFront
  }

  /** Every prefix of a chunked response's calls delivers its head and then its pieces. */
  lemma {:induction false} DeliveredOpen(id: nat, keepAlive: bool, calls: seq<Call>)
    requires Accepted(calls) && calls != [] && !Complete(calls)
    ensures calls[0].Respond? && calls[0].response.chunked
    ensures Delivered(id, keepAlive, calls)
         == ToVector(id, keepAlive, calls[0].response.(parts := [])) + Chunks(id, Pieces(calls))
  {
    AcceptedHead(calls);
    var before := calls[..|calls| - 1];
    if before != [] {
      DeliveredOpen(id, keepAlive, before);
      var last := calls[|calls| - 1];
      if last.text != "" {
        var p: Piece := last.text;
        assert Pieces(calls) == Pieces(before) + [p];
        assert Pieces(calls)[..|Pieces(calls)| - 1] == Pieces(before);
      }
    } else {
      assert Pieces(calls) == [];
    }
  }

  /** Flushing a response object sends exactly what its calls deliver. */
  lemma {:induction false} FlushIsDelivered(id: nat, keepAlive: bool, r: Response, calls: seq<Call>)
    requires Accepted(calls) && AllQueued(calls) && Holds(r, calls)
    ensures Flush(id, keepAlive, r) == Delivered(id, keepAlive, calls)
  {
    AcceptedHead(calls);
    var before := calls[..|calls| - 1];
    if !Complete(calls) {
      DeliveredOpen(id, keepAlive, calls);
    } else if before != [] {
      DeliveredOpen(id, keepAlive, before);
      assert Pieces(calls) == Pieces(before);
      assert !calls[|calls| - 1].atFront;
      if Pieces(before) == [] {
        assert Delivered(id, keepAlive, calls) == Delivered(id, keepAlive, before);
      } else {
        assert Delivered(id, keepAlive, calls) == Delivered(id, keepAlive, before) + [Final(id, "")];
      }
    } else {
      assert Delivered(id, keepAlive, before) == [];
      assert Delivered(id, keepAlive, calls) == ToVector(id, keepAlive, calls[0].response);
      assert Flush(id, keepAlive, r) == ToVector(id, keepAlive, r);
    }
  }

  // ---------------------------------------------------------------- grammar of the wire

  /** Where a reader of the wire is: between responses, inside one, or lost. */
  datatype Reader = Ready | Sized(id: nat) | Streaming(id: nat) | Bad

  function Read(s: Reader, f: Frame): Reader {
    match f
    case Continue(_) => if s.Ready? then Ready else Bad
    case Head(id, _, _, chunked) => if !s.Ready? then Bad else if chunked then Streaming(id) else Sized(id)
    case Body(id, _) => if s == Sized(id) then Ready else Bad
    case Chunk(id, _) => if s == Streaming(id) then s else Bad
    case Final(id, _) => if s == Streaming(id) then Ready else Bad
  }

  function Scan(s: Reader, frames: seq<Frame>): Reader {
    if frames == [] then s else Read(Scan(s, frames[..|frames| - 1]), frames[|frames| - 1])
  }

  lemma {:induction false} ScanConcat(s: Reader, a: seq<Frame>, b: seq<Frame>)
    ensures Scan(s, a + b) == Scan(Scan(s, a), b)
  {
    if b == [] {
      assert a + b == a;
    } else {
      assert (a + b)[..|a + b| - 1] == a + b[..|b| - 1];
      ScanConcat(s, a, b[..|b| - 1]);
    }
  }

  lemma {:induction false} ScanBad(frames: seq<Frame>)
    ensures Scan(Bad, frames) == Bad
  {
    if frames != [] { ScanBad(frames[..|frames| - 1]); }
  }

  lemma {:induction false} ScanChunks(id: nat, parts: seq<Piece>)
    ensures Scan(Streaming(id), Chunks(id, parts)) == Streaming(id)
  {
    if parts != [] {
      ScanChunks(id, parts[..|parts| - 1]);
      ScanConcat(Streaming(id), Chunks(id, parts[..|parts| - 1]), [Chunk(id, parts[|parts| - 1])]);
    }
  }

  lemma {:induction false} ScanOne(s: Reader, f: Frame)
    ensures Scan(s, [f]) == Read(s, f)
  {
    assert [f][..0] == [];
  }

  lemma ScanToVector(id: nat, keepAlive: bool, r: Response)
    ensures Scan(Ready, ToVector(id, keepAlive, r)) == if Whole(r) then Ready else Streaming(id)
  {
    var head := Head(id, if r.code == 0 then 200 else r.code, keepAlive, r.chunked);
    ScanOne(Ready, head);
    if !r.chunked {
      ScanConcat(Ready, [head], [Body(id, Join(r.parts))]);
      ScanOne(Sized(id), Body(id, Join(r.parts)));
    } else if r.parts != [] {
      ScanConcat(Ready, [head], Chunks(id, r.parts) + [Final(id, "")]);
      ScanConcat(Streaming(id), Chunks(id, r.parts), [Final(id, "")]);
      ScanChunks(id, r.parts);
      ScanOne(Streaming(id), Final(id, ""));
    } else {
      assert ToVector(id, keepAlive, r) == [head];
    }
  }

  /** Where a reader is after the delivered frames of one response. */
  function After(id: nat, calls: seq<Call>): Reader {
    if calls == [] || (Complete(calls) && !Unterminated(calls)) then Ready else Streaming(id)
  }

  lemma {:induction false} ScanDeliveredFrames(id: nat, keepAlive: bool, before: seq<Call>, call: Call)
    requires Accepted(before + [call])
    ensures Scan(After(id, before), DeliveredFrames(id, keepAlive, before, call)) == After(id, before + [call])
  {
    SnocShape(before, call);
    var frames := DeliveredFrames(id, keepAlive, before, call);
    match call
    case Respond(r) => ScanToVector(id, keepAlive, r);
    case SendChunk(text) => if text != "" { ScanOne(Streaming(id), Chunk(id, text)); }
    case SendFinal(text, _) => if frames != [] { ScanOne(Streaming(id), frames[0]); }
  }

  lemma AfterNothing(id: nat)
    ensures After(id, []) == Ready
  {
  }

  lemma {:induction false} ScanDelivered(id: nat, keepAlive: bool, calls: seq<Call>)
    requires Accepted(calls)
    ensures Scan(Ready, Delivered(id, keepAlive, calls)) == After(id, calls)
  {
    hide After, DeliveredFrames;
    if calls == [] {
      AfterNothing(id);
    } else {
      var before := calls[..|calls| - 1];
      var last := calls[|calls| - 1];
      ScanDelivered(id, keepAlive, before);
      assert before + [last] == calls;
      ScanDeliveredFrames(id, keepAlive, before, last);
      ScanConcat(Ready, Delivered(id, keepAlive, before), DeliveredFrames(id, keepAlive, before, last));
    }
  }

  /** Frames that belong to responses: everything but interim 100 responses. */
  function Strip(frames: seq<Frame>): seq<Frame> {
    if frames == [] then []
    else
      var last := frames[|frames| - 1];
      Strip(frames[..|frames| - 1]) + if last.Continue? then [] else [last]
  }

  lemma {:induction false} StripConcat(a: seq<Frame>, b: seq<Frame>)
    ensures Strip(a + b) == Strip(a) + Strip(b)
  {
    if b == [] {
      assert a + b == a;
    } else {
      assert (a + b)[..|a + b| - 1] == a + b[..|b| - 1];
      StripConcat(a, b[..|b| - 1]);
    }
  }

  lemma {:induction false} StripNone(frames: seq<Frame>)
    requires forall f :: f in frames ==> !f.Continue?
    ensures Strip(frames) == frames
  {
    if frames != [] {
      StripNone(frames[..|frames| - 1]);
      assert frames == frames[..|frames| - 1] + [frames[|frames| - 1]];
    }
  }

  lemma {:induction false} ChunksPlain(id: nat, parts: seq<Piece>)
    ensures forall f :: f in Chunks(id, parts) ==> !f.Continue?
  {
    if parts != [] { ChunksPlain(id, parts[..|parts| - 1]); }
  }

  /** Frames of a response are no interim responses. */
  lemma FlushPlain(id: nat, keepAlive: bool, r: Response)
    ensures Strip(Flush(id, keepAlive, r)) == Flush(id, keepAlive, r)
  {
    ChunksPlain(id, r.parts);
    StripNone(Flush(id, keepAlive, r));
  }

  // ---------------------------------------------------------------- heads

  /** How many heads of response `id` there are. */
  function Heads(frames: seq<Frame>, id: nat): nat {
    if frames == [] then 0
    else
      var last := frames[|frames| - 1];
      Heads(frames[..|frames| - 1], id) + if last.Head? && last.id == id then 1 else 0
  }

  lemma {:induction false} HeadsConcat(a: seq<Frame>, b: seq<Frame>, id: nat)
    ensures Heads(a + b, id) == Heads(a, id) + Heads(b, id)
  {
    if b == [] {
      assert a + b == a;
    } else {
      assert (a + b)[..|a + b| - 1] == a + b[..|b| - 1];
      HeadsConcat(a, b[..|b| - 1], id);
    }
  }

  lemma {:induction false} HeadsStrip(frames: seq<Frame>, id: nat)
    ensures Heads(Strip(frames), id) == Heads(frames, id)
  {
    if frames != [] {
      var before, last := frames[..|frames| - 1], frames[|frames| - 1];
      HeadsStrip(before, id);
      HeadsConcat(Strip(before), if last.Continue? then [] else [last], id);
      HeadsOne(last, id);
    }
  }

  lemma {:induction false} HeadsOne(f: Frame, id: nat)
    ensures Heads([f], id) == if f.Head? && f.id == id then 1 else 0
  {
    assert [f][..0] == [];
  }

  lemma {:induction false} HeadsNone(frames: seq<Frame>, id: nat)
    requires forall f :: f in frames ==> !f.Head?
    ensures Heads(frames, id) == 0
  {
    if frames != [] { HeadsNone(frames[..|frames| - 1], id); }
  }

  lemma {:induction false} ChunksHeadless(id: nat, parts: seq<Piece>)
    ensures forall f :: f in Chunks(id, parts) ==> !f.Head?
  {
    if parts != [] { ChunksHeadless(id, parts[..|parts| - 1]); }
  }

  /** A message has one head. */
  lemma {:induction false} HeadsToVector(id: nat, keepAlive: bool, r: Response, other: nat)
    ensures Heads(ToVector(id, keepAlive, r), other) == if other == id then 1 else 0
  {
    var v := ToVector(id, keepAlive, r);
    assert v == [v[0]] + v[1..];
    ChunksHeadless(id, r.parts);
    HeadsConcat([v[0]], v[1..], other);
    HeadsOne(v[0], other);
    HeadsNone(v[1..], other);
  }

  /** Whatever is delivered of a response, it has one head. */
  lemma {:induction false} HeadsDelivered(id: nat, keepAlive: bool, calls: seq<Call>, other: nat)
    requires Accepted(calls) && calls != []
    ensures Heads(Delivered(id, keepAlive, calls), other) == if other == id then 1 else 0
  {
    AcceptedHead(calls);
    var before, last := calls[..|calls| - 1], calls[|calls| - 1];
    assert before == [] ==> last == calls[0];
    assert Accepted(before);
    hide Pieces, ToVector, Heads, Complete, Whole, Accepted;
    HeadsConcat(Delivered(id, keepAlive, before), DeliveredFrames(id, keepAlive, before, last), other);
    if before == [] {
      HeadsNone(Delivered(id, keepAlive, before), other);
      HeadsToVector(id, keepAlive, last.response, other);
    } else {
      HeadsDelivered(id, keepAlive, before, other);
      HeadsNone(DeliveredFrames(id, keepAlive, before, last), other);
    }
  }
}

/** The classes of the server side. Each method is proved against the function of module Connection
    that specifies it; between events every connection satisfies the invariant of module Invariant. */
module ServerObjects {
  import opened Options
  import opened Wire
  import opened Connection
  import opened Invariant
  import opened Steps
  import opened Serving
  import opened Reader

  /** What the user is told about a part of the buffer. */
  datatype Callbacks = NoCallback | ErrorCallback | LoopCallback

  class ServerResponse {
    var code: nat
    var keepAlive: bool
    const chunked: bool
    var parts: seq<Piece>
    var completed: bool
    var request: ServerRequest?

    constructor (r: Response)
      ensures View() == r.(completed := false) && request == null
    {
      code, keepAlive, chunked, parts := r.code, r.keepAlive, r.chunked, r.parts;
      completed, request := false, null;
    }

    /** ServerResponse::send_chunk. */
    method SendChunk(text: string) returns (o: Outcome)
      requires request != null && request.connection != null ==>
        request.connection.Linked() && request in request.connection.requests && request.response == this
      modifies request, if request == null then null else request.connection, this
      ensures old(completed) ==> o.Threw? && View() == old(View())
      ensures !old(completed) && !old(request != null && request.connection != null) ==> o.Ignored? && View() == old(View())
      ensures !old(completed) && old(request != null && request.connection != null) ==>
        var c := old(request.connection);
        c != null && o.Ok? && c.Linked() && (c.View(), Ok) == ChunkTo(old(c.View()), old(request).id, text)
    {
      if completed { return Threw; }
      if request == null || request.connection == null { return Ignored; }
      request.connection.SendChunk(request, this, text);
      return Ok;
    }

    /** ServerResponse::send_final_chunk. */
    method SendFinalChunk(text: string, drained: bool) returns (o: Outcome)
      requires request != null && request.connection != null ==>
        request.connection.Linked() && request in request.connection.requests && request.response == this
      modifies if request == null || request.connection == null then {} else request.connection.Objects()
      ensures old(completed) ==> o.Threw? && View() == old(View())
      ensures !old(completed) && !old(request != null && request.connection != null) ==> o.Ignored? && View() == old(View())
      ensures !old(completed) && old(request != null && request.connection != null) ==>
        var c := old(request.connection);
        && c != null && o.Ok? && c.Linked()
        && (c.View(), Ok) == FinalTo(old(c.View()), old(request).id, text, drained)
    {
      if completed { return Threw; }
      if request == null || request.connection == null { return Ignored; }
      var c := request.connection;
      assert forall r :: r in Responses(c.requests) ==> r in c.Objects();
      assert forall r :: r in c.requests ==> r in c.Objects();
      c.SendFinalChunk(request, this, text, drained);
      return Ok;
    }

    function View(): Response
      reads this
    {
      Response(code, keepAlive, chunked, parts, completed)
    }

    /** respond() on a connection that may be stopping: the mark, and whether the response is whole. */
    method Accept(stopping: bool)
      requires !completed
      modifies this`keepAlive, this`completed
      ensures View() == Taken(old(View()), stopping)
    {
      if stopping { keepAlive := false; }
      if !chunked || parts != [] { completed := true; }
    }

    /** The first lines of write_next_response: the default code, and chunks gathered so far are taken
        out of the body so that they can follow the head. */
    method Prepare() returns (tmpChunks: seq<Piece>)
      modifies this`code, this`parts
      ensures View() == Sent(old(View()))
      ensures tmpChunks == if chunked && !completed then old(parts) else []
    {
      if code == 0 { code := 200; }
      tmpChunks := [];
      if chunked && !completed && parts != [] {
        tmpChunks := parts;
        parts := [];
      }
    }
  }

  class ServerRequest {
    const id: nat
    const header: Header
    var connection: ServerConnection?
    var response: ServerResponse?
    var routed: bool
    var partial: bool
    var finishOnReceive: bool
    var done: bool
    // history
    ghost var calls: seq<Call>
    ghost var written: bool
    ghost var headKeepAlive: bool

    constructor (connection: ServerConnection, id: nat, header: Header)
      ensures this.id == id && this.header == header && this.connection == connection && response == null
      ensures View() == NewRequest(id, header)
    {
      this.id, this.header, this.connection := id, header, connection;
      response, routed, partial, finishOnReceive, done := null, false, false, false, false;
      calls, written, headKeepAlive := [], false, false;
    }

    /** ServerRequest::respond: nothing happens once the request has left. */
    method Respond(res: ServerResponse, drained: bool) returns (o: Outcome)
      requires connection != null ==> connection.Linked() && this in connection.requests
      requires res.request == null && !res.completed
      modifies connection, if connection == null then {} else connection.Objects(), this, res
      ensures old(connection) == null ==> o.Ignored? && View() == old(View()) && res.View() == old(res.View())
      ensures old(connection) != null ==>
        && old(connection).Linked()
        && (old(connection).View(), o) == RespondTo(old(connection.View()), id, old(res.View()), drained)
    {
      if connection == null { return Ignored; }
      assert forall r :: r in Responses(connection.requests) ==> r in connection.Objects();
      assert forall r :: r in connection.requests ==> r in connection.Objects();
      o := connection.Respond(this, res, drained);
    }

    ghost function View(): Request
      reads this, response
    {
      Request(id, header, routed, partial, done, finishOnReceive,
              if response == null then None else Some(response.View()),
              calls, written, headKeepAlive)
    }
  }

  ghost function Responses(rs: seq<ServerRequest>): set<ServerResponse>
    reads rs
  {
    set r: ServerRequest | r in rs && r.response != null :: r.response
  }

  ghost function Views(rs: seq<ServerRequest>): seq<Request>
    reads rs, Responses(rs)
  {
    seq(|rs|, i requires 0 <= i < |rs| reads rs, Responses(rs) => rs[i].View())
  }

  class ServerConnection {
    var requests: seq<ServerRequest>
    var closing: bool
    var stopping: bool
    var processed: nat
    const maxKeepAlive: nat
    var link: Link
    var readIgnored: bool
    var timer: bool
    var removed: bool
    var parsing: ServerRequest?
    var nextId: nat
    var wire: seq<Frame>
    // control state and history
    ghost var phase: Phase
    ghost var departed: seq<Departure>

    ghost function View(): Conn
      reads this, requests, Responses(requests), parsing
    {
      Conn(Views(requests), closing, stopping, processed, maxKeepAlive, link, readIgnored, timer, removed,
           phase, if parsing == null then None else Some(parsing.id), nextId, wire, departed)
    }

    /** The links between the objects: the parser's request is the queued one of that identity; requests
        wait in the order of their identities, know their connection, and are known to their responses. */
    ghost predicate Linked()
      reads this, requests, Responses(requests)
    {
      && (parsing != null ==> forall i :: 0 <= i < |requests| && requests[i].id == parsing.id ==> requests[i] == parsing)
      && (forall i, j :: 0 <= i < j < |requests| ==> requests[i].id < requests[j].id)
      && (forall i :: 0 <= i < |requests| ==> requests[i].id < nextId)
      && (forall i :: 0 <= i < |requests| ==> requests[i].connection == this)
      && (forall i :: 0 <= i < |requests| && requests[i].response != null ==> requests[i].response.request == requests[i])
    }

    constructor (maxKeepAlive: nat)
      ensures Linked() && View() == NewConn(maxKeepAlive) && requests == [] && parsing == null
    {
      this.maxKeepAlive := maxKeepAlive;
      requests, closing, stopping, processed := [], false, false, 0;
      link, readIgnored, timer, removed, parsing, nextId, wire := Up, false, true, false, null, 0, [];
      phase, departed := Quiet, [];
    }

    method CleanupRequest(ghost fate: Fate)
      requires Linked() && requests != []
      modifies this`requests, this`departed, requests`connection
      ensures Linked() && requests == old(requests)[1..] && old(requests)[0].connection == null
      ensures forall i :: 0 < i < |old(requests)| ==> old(requests)[i].connection == this
      ensures departed == old(departed) + [Departure(old(requests[0].View()), fate)]
      ensures View() == Depart(old(View()), fate)
    {
      var req := requests[0];
      ghost var before := Views(requests);
      departed := departed + [Departure(req.View(), fate)];
      req.connection := null;
      requests := requests[1..];
      assert Views(requests) == before[1..];
    }

    method DropRequests()
      requires Linked()
      modifies this`requests, this`departed, requests`connection
      ensures requests == [] && forall r :: r in old(requests) ==> r.connection == null
      ensures View() == DropAll(old(View()))
    {
      hide FateOfDrop, DropFirst, Depart, DropAll;
      ghost var n := 0;
      ghost var c := View();
      DropFirstIs(c);
      while requests != []
        invariant n <= |old(requests)| && requests == old(requests)[n..]
        invariant Linked() && View() == DropFirst(c, n)
        invariant forall i :: 0 <= i < n ==> old(requests)[i].connection == null
        decreases |requests|
      {
        var req := requests[0];
        assert req == old(requests)[n] && View().requests[0] == req.View();
        DropNext(c, n);
        CleanupRequest(FateOfDrop(req.View()));
        n := n + 1;
      }
    }

    /** The first `n` requests have been dropped. */
    ghost function DropFirst(c: Conn, n: nat): Conn
      requires n <= |c.requests|
    {
      c.(requests := c.requests[n..], departed := c.departed + Drops(c.requests[..n]))
    }

    lemma DropFirstIs(c: Conn)
      ensures DropFirst(c, 0) == c && DropFirst(c, |c.requests|) == DropAll(c)
    {
      assert c.requests[..|c.requests|] == c.requests;
    }

    lemma DropNext(c: Conn, n: nat)
      requires n < |c.requests|
      ensures var d := DropFirst(c, n);
        d.requests != [] && Depart(d, FateOfDrop(d.requests[0])) == DropFirst(c, n + 1)
    {
      hide FateOfDrop;
      assert c.requests[..n + 1] == c.requests[..n] + [c.requests[n]];
      assert Drops(c.requests[..n + 1]) == Drops(c.requests[..n]) + [Departure(c.requests[n], FateOfDrop(c.requests[n]))];
    }

    // ---------------------------------------------------------------- writing

    method StreamWrite(frames: seq<Frame>)
      requires Linked()
      modifies this`wire
      ensures Linked() && View() == Write(old(View()), frames)
    {
      if link.Up? { wire := wire + frames; }
    }

    method CheckIfIdle(drained: bool)
      requires Linked()
      modifies this`timer
      ensures Linked() && View() == CheckIdle(old(View()), drained)
    {
      if requests == [] && !timer && drained { timer := true; }
    }

    /** The soft close of do_close. */
    method ShutdownConnection()
      requires Linked()
      modifies this`requests, this`departed, this`link, requests`connection
      ensures requests == [] && forall r :: r in old(requests) ==> r.connection == null
      ensures View() == Shutdown(old(View()))
    {
      if link.Up? { link := Shut; }
      DropRequests();
    }

    /** The requests of a connection after some have left: those that stay were there, the others have
        lost their connection. */
    twostate predicate Fewer(before: seq<ServerRequest>)
      reads this, before
    {
      && (forall r :: r in requests ==> r in before)
      && (forall r :: r in before ==> r.connection == if r in requests then this else null)
    }

    /** write_next_response prepares the response object of the front; its head is accounted for. */
    method PrepareFront() returns (tmpChunks: seq<Piece>)
      requires Linked() && requests != [] && requests[0].response != null
      modifies requests`written, requests`headKeepAlive, Responses(requests)`code, Responses(requests)`parts
      ensures Linked()
      ensures var q := old(requests[0].View());
        tmpChunks == Waiting(q) && requests[0].View() == Marked(q) && View() == SetFront(old(View()), Marked(q))
    {
      hide Sent, SetFront;
      var req := requests[0];
      ghost var q := req.View();
      tmpChunks := req.response.Prepare();
      req.written, req.headKeepAlive := true, req.response.keepAlive && req.header.keepAlive;
      assert req.View() == Marked(q);
      hide Marked, Waiting;
      FrontChanged();
    }

    /** Chunks gathered in the queue follow the head one by one. */
    method SendChunks(id: nat, tmpChunks: seq<Piece>)
      requires Linked()
      modifies this`wire
      ensures Linked() && View() == Write(old(View()), Chunks(id, tmpChunks))
    {
      assert old(View()).wire + [] == old(View()).wire;
      for i := 0 to |tmpChunks|
        invariant Linked() && View() == Write(old(View()), Chunks(id, tmpChunks[..i]))
      {
        assert tmpChunks[..i + 1][..i] == tmpChunks[..i];
        StreamWrite([Chunk(id, tmpChunks[i])]);
      }
      assert tmpChunks[..|tmpChunks|] == tmpChunks;
    }

    /** When only the front request and its response change, so does only the front of the view. */
    twostate lemma FrontChanged()
      requires old(Linked()) && unchanged(this) && requests != []
      requires requests[0].response == old(requests[0].response)
      requires forall i :: 0 < i < |requests| ==>
        unchanged(requests[i]) && (requests[i].response != null ==> unchanged(requests[i].response))
      ensures View() == SetFront(old(View()), requests[0].View())
    {
      assert forall i :: 0 < i < |requests| ==> requests[i].View() == old(requests[i].View());
      assert Views(requests) == [requests[0].View()] + old(Views(requests))[1..];
    }

    /** The front is taken off and the rest of the queue is dropped. */
    method DropRest()
      requires Linked() && requests != []
      modifies this`requests, this`departed, requests`connection
      ensures requests == []
      ensures forall i :: 0 < i < |old(requests)| ==> old(requests)[i].connection == null
      ensures old(requests)[0].connection == this
      ensures var c := old(View());
        View() == c.(requests := [], departed := c.departed + Drops(c.requests[1..]))
    {
      hide Drops;
      ghost var c := View();
      requests := requests[1..];
      assert View() == c.(requests := c.requests[1..]);
      DropRequests();
    }

    /** Everything behind the front is dropped: it is taken off and put back around drop_requests. */
    method DropBehind()
      requires Linked() && requests != []
      modifies this`requests, this`departed, requests`connection
      ensures Linked() && requests == old(requests)[..1]
      ensures forall i :: 0 < i < |old(requests)| ==> old(requests)[i].connection == null
      ensures var c := old(View());
        View() == c.(requests := [c.requests[0]], departed := c.departed + Drops(c.requests[1..]))
    {
      hide Drops;
      var req := requests[0];
      ghost var q := req.View();
      DropRest();
      requests := [req];
      assert Views(requests) == [q];
    }

    method StartClosing()
      requires Linked() && requests != []
      modifies this`closing, this`readIgnored
      ensures Linked()
      ensures View() == old(View()).(closing := true, readIgnored := old(readIgnored) || requests[0].done)
    {
      closing := true;
      if requests[0].done { readIgnored := true; }
    }

    /** What write_next_response does after a head without keep-alive. */
    method CloseBehind()
      requires Linked() && requests != []
      modifies this`closing, this`readIgnored, this`requests, this`departed, requests`connection
      ensures Linked() && requests == old(requests)[..1] && Fewer(old(requests))
      ensures View() == CloseAfterFront(old(View()))
    {
      ghost var c := View();
      StartClosing();
      if |requests| > 1 { DropBehind(); }
      ClosedBehind(c, View());
    }

    lemma ClosedBehind(c: Conn, d: Conn)
      requires c.requests != [] && d.requests == c.requests[..1]
      requires d == c.(closing := true, readIgnored := c.readIgnored || c.requests[0].done,
                       requests := d.requests, departed := d.departed)
      requires d.departed == c.departed + Drops(c.requests[1..]) || (|c.requests| == 1 && d.departed == c.departed)
      ensures d == CloseAfterFront(c)
    {
      assert [c.requests[0]] == c.requests[..1];
    }

    method WriteHead() returns (keepAlive: bool, tmpChunks: seq<Piece>)
      requires Linked() && requests != [] && requests[0].response != null
      modifies this`wire
      modifies requests`written, requests`headKeepAlive, Responses(requests)`code, Responses(requests)`parts
      ensures Linked() && View() == SendHead(old(View()))
      ensures var q := old(requests[0].View());
        tmpChunks == Waiting(q) && keepAlive == (q.response.value.keepAlive && q.header.keepAlive)
    {
      hide ToVector, Sent, Write;
      var req := requests[0];
      keepAlive := req.response.keepAlive && req.header.keepAlive;
      tmpChunks := PrepareFront();
      StreamWrite(ToVector(req.id, keepAlive, req.response.View()));
    }

    /** write_next_response up to its look at `_completed`; chunks gathered in the queue are written on the way. */
    method SendFrontResponse()
      requires Linked() && requests != [] && requests[0].response != null
      modifies this`closing, this`readIgnored, this`requests, this`departed, this`wire
      modifies requests`connection, requests`written, requests`headKeepAlive
      modifies Responses(requests)`code, Responses(requests)`parts
      ensures Linked() && requests != [] && requests[0] == old(requests[0])
      ensures Fewer(old(requests)) && |requests| <= old(|requests|)
      ensures View() == SendFront(old(View()))
    {
      hide CloseAfterFront, Chunks, SendHead;
      var id := requests[0].id;
      var keepAlive, tmpChunks := WriteHead();
      if !keepAlive { CloseBehind(); }
      SendChunks(id, tmpChunks);
    }

    method WriteNextResponse(drained: bool)
      requires Linked() && requests != [] && requests[0].response != null
      modifies this`closing, this`readIgnored, this`requests, this`departed, this`link, this`timer, this`wire
      modifies requests`connection, requests`finishOnReceive, requests`written, requests`headKeepAlive
      modifies Responses(requests)`code, Responses(requests)`parts
      ensures Linked() && Fewer(old(requests))
      ensures View() == WriteNext(old(View()), drained)
      decreases |requests|, 1
    {
      hide SendFront, Finish;
      SendFrontResponse();
      if requests[0].response.completed { FinishRequest(drained); }
    }

    method FinishRequest(drained: bool)
      requires Linked() && requests != []
      requires requests[0].response != null && requests[0].response.completed
      modifies this`closing, this`readIgnored, this`requests, this`departed, this`link, this`timer, this`wire
      modifies requests`connection, requests`finishOnReceive, requests`written, requests`headKeepAlive
      modifies Responses(requests)`code, Responses(requests)`parts
      ensures Linked() && Fewer(old(requests))
      ensures View() == Finish(old(View()), drained)
      decreases |requests|, 0
    {
      hide WriteNext, Shutdown;
      if !requests[0].done {
        WaitForReceive();
      } else {
        CleanupRequest(Answered);
        ServeNext(drained);
      }
    }

    method WaitForReceive()
      requires Linked() && requests != []
      modifies requests`finishOnReceive
      ensures Linked()
      ensures View() == SetFront(old(View()), old(requests[0].View()).(finishOnReceive := true))
    {
      requests[0].finishOnReceive := true;
      FrontChanged();
    }

    /** The rest of finish_request, after the request has left. */
    method ServeNext(drained: bool)
      requires Linked()
      modifies this`closing, this`readIgnored, this`requests, this`departed, this`link, this`timer, this`wire
      modifies requests`connection, requests`finishOnReceive, requests`written, requests`headKeepAlive
      modifies Responses(requests)`code, Responses(requests)`parts
      ensures Linked() && Fewer(old(requests))
      ensures var c := old(View());
        View() == if c.closing || c.stopping then Shutdown(c)
                  else if c.requests == [] then CheckIdle(c, drained)
                  else if c.requests[0].response.Some? then WriteNext(c, drained)
                  else c
      decreases |requests|, 2
    {
      hide WriteNext, Shutdown, CheckIdle;
      if closing || stopping {
        ShutdownConnection();
      } else if requests == [] {
        CheckIfIdle(drained);
      } else if requests[0].response != null {
        WriteNextResponse(drained);
      }
    }


    /** A queued request is found by its identity. */
    lemma Placed(k: nat)
      requires Linked() && k < |requests|
      ensures IndexOf(View().requests, requests[k].id) == k
    {
      var c := View();
      assert forall j :: 0 <= j < |requests| ==> c.requests[j].id == requests[j].id;
    }

    /** When only one request and its response change, so does only its place in the view. */
    twostate lemma PlaceChanged(k: nat)
      requires old(Linked()) && unchanged(this) && k < |requests|
      requires forall i :: 0 <= i < |requests| && i != k ==>
        unchanged(requests[i]) && (requests[i].response != null ==> unchanged(requests[i].response))
      ensures View() == old(View()).(requests := old(View()).requests[k := requests[k].View()])
    {
      assert forall i :: 0 <= i < |requests| && i != k ==> requests[i].View() == old(requests[i].View());
      assert Views(requests) == old(Views(requests))[k := requests[k].View()];
    }

    /** The hard close of do_close. */
    method CloseConnection()
      requires Linked()
      modifies this`requests, this`departed, this`link, this`timer, this`removed, requests`connection
      ensures Linked() && requests == [] && forall r :: r in old(requests) ==> r.connection == null
      ensures View() == Close(old(View()))
    {
      hide DropAll;
      timer := false;
      link := Reset;
      assert View() == old(View()).(timer := false, link := Reset);
      DropRequests();
      ghost var c := View();
      removed := true;
      assert View() == c.(removed := true);
    }

    method GracefulStopConnection()
      requires Linked()
      modifies this`requests, this`departed, this`link, this`stopping, requests`connection
      ensures Linked() && Fewer(old(requests))
      ensures View() == GracefulStop(old(View()))
    {
      if requests == [] {
        ShutdownConnection();
        return;
      }
      stopping := true;
    }

    /** respond() counts the response; the last one allowed on the connection makes it stop. */
    method CountResponse()
      requires Linked() && requests != []
      modifies this`processed, this`stopping
      ensures Linked()
      ensures var c := old(View());
        View() == c.(processed := c.processed + 1,
                     stopping := c.stopping || (c.maxKeepAlive > 0 && c.processed + 1 >= c.maxKeepAlive && |c.requests| == 1))
    {
      assert |Views(requests)| == |requests|;
      hide Views;
      processed := processed + 1;
      assert View() == old(View()).(processed := processed);
      if maxKeepAlive > 0 && processed >= maxKeepAlive && |requests| == 1 { stopping := true; }
      assert Views(requests) == old(Views(requests));
    }

    /** respond() ties a fresh response to its request. */
    method AttachResponse(ghost k: nat, req: ServerRequest, res: ServerResponse)
      requires Linked() && k < |requests| && requests[k] == req && req.response == null
      requires res.request == null && !res.completed
      modifies req`response, req`calls, res`request, res`keepAlive, res`completed
      ensures Linked() && req.response == res
      ensures var taken := Taken(old(res.View()), stopping);
        var q := old(req.View());
        && req.View() == q.(response := Some(taken), calls := q.calls + [Call.Respond(taken)])
        && View() == old(View()).(requests := old(View()).requests[k := req.View()])
    {
      hide Taken;
      req.response := res;
      res.request := req;
      res.Accept(stopping);
      req.calls := req.calls + [Call.Respond(res.View())];
      PlaceChanged(k);
    }

    /** The lines of respond() before it looks at the front of the queue. */
    method TakeResponse(ghost k: nat, req: ServerRequest, res: ServerResponse)
      requires Linked() && k < |requests| && requests[k] == req && req.response == null
      requires res.request == null && !res.completed
      modifies this`processed, this`stopping, req`response, req`calls, res`request, res`keepAlive, res`completed
      ensures Linked() && req.response == res
      ensures View() == Take(old(View()), k, old(res.View()))
    {
      CountResponse();
      AttachResponse(k, req, res);
    }

    method Respond(req: ServerRequest, res: ServerResponse, drained: bool) returns (o: Outcome)
      requires Linked() && req in requests && res.request == null && !res.completed
      modifies this`closing, this`readIgnored, this`requests, this`departed, this`link, this`timer, this`wire, this`processed, this`stopping
      modifies requests`connection, requests`finishOnReceive, requests`written, requests`headKeepAlive
      modifies Responses(requests)`code, Responses(requests)`parts
      modifies req`response, req`calls, res`request, res`keepAlive, res`completed, res`code, res`parts
      ensures (View(), o) == RespondTo(old(View()), req.id, old(res.View()), drained)
      ensures Linked() && Fewer(old(requests)) && o == (if old(req.response) == null then Ok else Threw)
      ensures req.response == if o.Ok? then res else old(req.response)
    {
      hide Take, WriteNext, IndexOf, RespondTo, Answer;
      ghost var k :| 0 <= k < |requests| && requests[k] == req;
      Placed(k);
      RespondCases(View(), k, res.View(), drained);
      assert View().requests[k].response.Some? <==> req.response != null;
      if req.response != null { return Threw; }
      TakeResponse(k, req, res);
      WriteIfFront(k, req, drained);
      return Ok;
    }

    /** The last line of respond(). */
    method WriteIfFront(ghost k: nat, req: ServerRequest, drained: bool)
      requires Linked() && k < |requests| && requests[k] == req && req.response != null
      modifies this`closing, this`readIgnored, this`requests, this`departed, this`link, this`timer, this`wire
      modifies requests`connection, requests`finishOnReceive, requests`written, requests`headKeepAlive
      modifies Responses(requests)`code, Responses(requests)`parts
      ensures View() == if k == 0 then WriteNext(old(View()), drained) else old(View())
      ensures Linked() && Fewer(old(requests))
    {
      hide WriteNext;
      assert requests[0] == req <==> k == 0;
      if requests[0] == req { WriteNextResponse(drained); }
    }

    /** A piece for the front's response, or no piece at all: nothing is kept in the response object. */
    method NoteChunk(ghost k: nat, req: ServerRequest, text: string)
      requires Linked() && k < |requests| && requests[k] == req
      modifies req`calls
      ensures Linked()
      ensures var q := old(req.View());
        View() == old(View()).(requests := old(View()).requests[k := q.(calls := q.calls + [Call.SendChunk(text)])])
    {
      req.calls := req.calls + [Call.SendChunk(text)];
      PlaceChanged(k);
    }

    method KeepChunk(ghost k: nat, req: ServerRequest, res: ServerResponse, text: Piece)
      requires Linked() && k < |requests| && requests[k] == req && req.response == res
      modifies res`parts, req`calls
      ensures Linked()
      ensures var q := old(req.View());
        var kept := q.response.value.(parts := q.response.value.parts + [text]);
        View() == old(View()).(requests :=
          old(View()).requests[k := q.(response := Some(kept), calls := q.calls + [Call.SendChunk(text)])])
    {
      res.parts := res.parts + [text];
      req.calls := req.calls + [Call.SendChunk(text)];
      PlaceChanged(k);
    }

    method CompleteResponse(ghost k: nat, req: ServerRequest, res: ServerResponse, text: string)
      requires Linked() && k < |requests| && requests[k] == req && req.response == res
      modifies res`completed, req`calls
      ensures Linked() && res.completed
      ensures var q := old(req.View());
        var r := q.response.value.(completed := true);
        View() == old(View()).(requests :=
          old(View()).requests[k := q.(response := Some(r), calls := q.calls + [Call.SendFinal(text, k == 0)])])
    {
      res.completed := true;
      req.calls := req.calls + [Call.SendFinal(text, k == 0)];
      PlaceChanged(k);
    }

    method SendChunk(req: ServerRequest, res: ServerResponse, text: string)
      requires Linked() && req in requests && req.response == res && !res.completed
      modifies this`wire, req`calls, res`parts
      ensures (View(), Ok) == ChunkTo(old(View()), req.id, text)
      ensures Linked()
    {
      hide Write;
      ghost var k :| 0 <= k < |requests| && requests[k] == req;
      Placed(k);
      if text == "" {
        NoteChunk(k, req, text);
      } else if requests[0].response == res {
        NoteChunk(k, req, text);
        StreamWrite([Chunk(req.id, text)]);
      } else {
        KeepChunk(k, req, res, text);
      }
    }

    method SendFinalChunk(req: ServerRequest, res: ServerResponse, text: string, drained: bool)
      requires Linked() && req in requests && req.response == res && !res.completed
      modifies this`closing, this`readIgnored, this`requests, this`departed, this`link, this`timer, this`wire
      modifies requests`connection, requests`finishOnReceive, requests`written, requests`headKeepAlive
      modifies Responses(requests)`code, Responses(requests)`parts, res`completed, req`calls
      ensures (View(), Ok) == FinalTo(old(View()), req.id, text, drained)
      ensures Linked() && Fewer(old(requests))
    {
      hide Write, Finish, FinalTo, IndexOf;
      ghost var k :| 0 <= k < |requests| && requests[k] == req;
      Placed(k);
      FinalCases(View(), k, text, drained);
      CompleteResponse(k, req, res, text);
      FinishIfFront(k, req, res, text, drained);
    }

    /** The last lines of send_final_chunk. */
    method FinishIfFront(ghost k: nat, req: ServerRequest, res: ServerResponse, text: string, drained: bool)
      requires Linked() && k < |requests| && requests[k] == req && req.response == res && res.completed
      modifies this`closing, this`readIgnored, this`requests, this`departed, this`link, this`timer, this`wire
      modifies requests`connection, requests`finishOnReceive, requests`written, requests`headKeepAlive
      modifies Responses(requests)`code, Responses(requests)`parts
      ensures View() ==
        if k == 0 then Finish(Write(old(View()), [Final(req.id, text)]), drained) else old(View())
      ensures Linked() && Fewer(old(requests))
    {
      hide Write, Finish;
      FrontResponse(k, res);
      if requests[0].response == res {
        StreamWrite([Final(req.id, text)]);
        FinishRequest(drained);
      }
    }

    lemma FrontResponse(k: nat, res: ServerResponse)
      requires Linked() && k < |requests| && requests[k].response == res
      ensures requests[0].response == res <==> k == 0
    {
    }

    lemma {:induction false} FinalCases(c: Conn, k: nat, text: string, drained: bool)
      requires k < |c.requests| && IndexOf(c.requests, c.requests[k].id) == k
      requires c.requests[k].response.Some? && !c.requests[k].response.value.completed
      ensures var q := c.requests[k];
        var ended := q.(response := Some(q.response.value.(completed := true)), calls := q.calls + [Call.SendFinal(text, k == 0)]);
        var d := c.(requests := c.requests[k := ended]);
        FinalTo(c, q.id, text, drained) == (if k == 0 then Finish(Write(d, [Final(q.id, text)]), drained) else d, Ok)
    {
      hide Write, Finish;
    }

    method SendContinue(req: ServerRequest) returns (o: Outcome)
      requires Linked() && req in requests
      modifies this`wire
      ensures (View(), o) == ContinueTo(old(View()), req.id)
      ensures Linked()
    {
      hide Write;
      ghost var k :| 0 <= k < |requests| && requests[k] == req;
      Placed(k);
      if requests[0] != req { return Ignored; }
      if !req.header.expects100 || req.header.http10 { return Ignored; }
      if req.response != null { return Threw; }
      StreamWrite([Continue(req.id)]);
      return Ok;
    }

    method EnablePartial(req: ServerRequest)
      requires Linked() && req in requests
      modifies req`partial
      ensures View() == Connection.EnablePartial(old(View()), req.id)
      ensures Linked()
    {
      hide IndexOf;
      ghost var k :| 0 <= k < |requests| && requests[k] == req;
      Placed(k);
      req.partial := true;
      PlaceChanged(k);
    }

    method Drop(req: ServerRequest)
      requires Linked() && req in requests
      modifies this`requests, this`departed, this`link, this`timer, this`removed, requests`connection
      ensures View() == DropRequest(old(View()), req.id)
      ensures Linked() && Fewer(old(requests))
    {
      hide Close;
      ghost var k :| 0 <= k < |requests| && requests[k] == req;
      Placed(k);
      if req.response == null || !req.response.completed { CloseConnection(); }
    }

    /** ServerConnection::upgrade past its check: the stream leaves with the request. */
    method Detach()
      requires Linked() && requests != []
      modifies this`requests, this`departed, this`link, this`timer, this`removed, requests`connection
      ensures Linked() && old(requests)[0].connection == null
      ensures View() == Depart(old(View()), Upgraded).(link := Detached, timer := false, removed := true)
    {
      hide Depart;
      CleanupRequest(Upgraded);
      Release(Detached);
    }

    method Release(l: Link)
      requires Linked()
      modifies this`link, this`timer, this`removed
      ensures Linked() && View() == old(View()).(link := l, timer := false, removed := true)
    {
      timer, removed, link := false, true, l;
    }

    /** ServerRequest::upgrade, for a request that is still connected. */
    method UpgradeTo(req: ServerRequest) returns (o: Outcome)
      requires Linked() && req in requests
      modifies this`requests, this`departed, this`link, this`timer, this`removed, requests`connection
      ensures (View(), o) == UpgradeRequest(old(View()), req.id)
      ensures Linked() && (o.Ok? ==> req.connection == null)
    {
      hide Depart;
      ghost var k :| 0 <= k < |requests| && requests[k] == req;
      Placed(k);
      if req.header.upgrade.NoUpgrade? { return Ignored; }
      if |requests| != 1 || requests[0] != req { return Threw; }
      Detach();
      return Ok;
    }

    // ---------------------------------------------------------------- reading

    /** The request the parser has not finished is at the end of the queue. */
    ghost predicate ParserAtBack()
      reads this
    {
      parsing != null ==> requests != [] && requests[|requests| - 1] == parsing
    }

    /** The parser goes on with the request it has not finished. */
    method SameRequest(finished: bool) returns (req: ServerRequest)
      requires Linked() && parsing != null && ParserAtBack()
      modifies this`timer, this`parsing
      ensures Linked() && req == old(parsing)
      ensures var c := old(View());
        View() == c.(timer := false, parsing := if finished then None else c.parsing)
    {
      req := parsing;
      SetParser(if finished then null else req);
    }

    /** The parser starts a request. */
    method StartRequest(header: Header, finished: bool) returns (req: ServerRequest)
      requires Linked() && parsing == null
      modifies this`timer, this`parsing, this`nextId, this`requests
      ensures Linked() && fresh(req) && req.response == null && req.id == old(nextId) && requests == old(requests) + [req]
      ensures var c := old(View());
        View() == c.(timer := false, nextId := c.nextId + 1,
                     parsing := if finished then None else Some(c.nextId),
                     requests := c.requests + [NewRequest(c.nextId, header)])
    {
      req := new ServerRequest(this, nextId, header);
      assert View() == old(View());
      Enqueue(req);
      SetParser(if finished then null else req);
    }

    method Enqueue(req: ServerRequest)
      requires Linked() && parsing == null
      requires req.id == nextId && req.connection == this && req.response == null
      modifies this`nextId, this`requests
      ensures Linked() && requests == old(requests) + [req]
      ensures var c := old(View());
        View() == c.(nextId := c.nextId + 1, requests := c.requests + [req.View()])
    {
      ghost var before := Views(requests);
      nextId := nextId + 1;
      requests := requests + [req];
      assert Views(requests) == before + [req.View()];
    }

    /** The idle timer stops, and the parser is inside `req` or between requests. */
    method SetParser(req: ServerRequest?)
      requires Linked() && (req != null ==> req in requests)
      modifies this`timer, this`parsing
      ensures Linked() && parsing == req
      ensures View() == old(View()).(timer := false, parsing := if req == null then None else Some(req.id))
    {
      timer := false;
      parsing := req;
    }

    /** parser.parse_shift and the lines after it: the request of the part is at the end of the queue. */
    method AdmitRequest(header: Header, finished: bool) returns (req: ServerRequest)
      requires Linked() && ParserAtBack()
      modifies this`requests, this`timer, this`nextId, this`parsing
      ensures Linked() && requests != [] && req == requests[|requests| - 1]
      ensures requests == old(requests) || (fresh(req) && req.response == null && requests == old(requests) + [req])
      ensures var c := old(View());
        var id := if c.parsing.Some? then c.parsing.value else c.nextId;
        View() == Admit(c.(timer := false,
                           nextId := if c.parsing.Some? then c.nextId else c.nextId + 1,
                           parsing := if finished then None else Some(id)),
                        id, header)
    {
      if parsing == null {
        req := StartRequest(header, finished);
      } else {
        req := SameRequest(finished);
      }
    }

    /** A reading flag of the request at the end of the queue is set. */
    method FlagBack(req: ServerRequest, done: bool, routed: bool)
      requires Linked() && requests != [] && req == requests[|requests| - 1]
      modifies req`done, req`routed
      ensures Linked() && req.done == done
      ensures View() == SetBack(old(View()), old(req.View()).(done := done, routed := routed))
    {
      req.done := done;
      req.routed := routed;
      PlaceChanged(|requests| - 1);
    }

    method ReceivePart(p: Parsed) returns (req: ServerRequest)
      requires Linked() && ParserAtBack()
      modifies this`requests, this`timer, this`nextId, this`parsing, requests`done, requests`routed
      ensures Linked() && requests != [] && req == requests[|requests| - 1]
      ensures requests == old(requests) || (fresh(req) && req.response == null && requests == old(requests) + [req])
      ensures req.done == (p.state.Done? || p.state.Error?)
      ensures View() == Receive(old(View()), p)
    {
      hide Admit, SetBack;
      var finished := p.state.Done? || p.state.Error?;
      req := AdmitRequest(p.header, finished);
      assert Back(View()) == req.View();
      FlagBack(req, finished, req.routed);
    }

    /** request_error up to its notification. */
    method StartError(id: nat)
      requires Linked()
      modifies this`readIgnored, this`phase
      ensures Linked() && phase == InError(id) && View() == Fail(old(View()), id)
    {
      readIgnored := true;
      phase := InError(id);
    }

    method Route(req: ServerRequest)
      requires Linked() && requests != [] && req == requests[|requests| - 1]
      modifies this`phase, req`done, req`routed
      ensures Linked() && phase == InLoop(req.id, req.header.keepAlive, old(req.done))
      ensures var q := old(req.View());
        View() == SetBack(old(View()), q.(routed := true)).(phase := InLoop(q.id, q.header.keepAlive, q.done))
    {
      FlagBack(req, req.done, true);
      ghost var c := View();
      hide SetBack;
      phase := InLoop(req.id, req.header.keepAlive, req.done);
      assert View() == c.(phase := phase);
    }

    /** The first half of the loop body in on_read; `next` tells which callbacks come next. */
    method ArrivePart(p: Parsed) returns (req: ServerRequest, next: Callbacks)
      requires Linked() && ParserAtBack()
      modifies this`requests, this`timer, this`nextId, this`parsing, this`phase, this`readIgnored
      modifies requests`done, requests`routed
      ensures Linked() && requests != [] && req == requests[|requests| - 1]
      ensures requests == old(requests) || (fresh(req) && req.response == null && requests == old(requests) + [req])
      ensures View() == Arrive(old(View()), p)
      ensures phase == match next
                       case NoCallback => old(phase)
                       case ErrorCallback => InError(req.id)
                       case LoopCallback => InLoop(req.id, req.header.keepAlive, p.state.Done? || p.state.Error?)
    {
      hide Receive, Fail, SetBack;
      req := ReceivePart(p);
      assert Back(View()) == req.View() && |View().requests| == |requests|;
      assert req.View().id == req.id && req.View().header == req.header && req.View().done == req.done;
      hide View, Linked;
      if p.state.Error? {
        StartError(req.id);
        next := ErrorCallback;
      } else if p.state.Headers? {
        next := NoCallback;
      } else if |requests| > 1 && req.header.upgrade.UpgradeExact? {
        StartError(req.id);
        next := ErrorCallback;
      } else {
        Route(req);
        next := LoopCallback;
      }
    }

    /** The request of a part is queued here, or it has left and lost its connection. */
    ghost predicate Tracks(req: ServerRequest)
      reads this, requests, req
    {
      && req.connection == (if req in requests then this else null)
      && forall i :: 0 <= i < |requests| && requests[i].id == req.id ==> requests[i] == req
    }

    lemma Tracked(req: ServerRequest) returns (k: nat)
      requires Linked() && Tracks(req)
      ensures k == IndexOf(View().requests, req.id)
      ensures req in requests ==> k < |requests| && requests[k] == req
      ensures req !in requests ==> k == |requests|
    {
      var c := View();
      assert forall i :: 0 <= i < |requests| ==> c.requests[i].id == requests[i].id;
      k := IndexOf(c.requests, req.id);
    }

    method SetPhase(ghost p: Phase, stopReading: bool)
      requires Linked()
      modifies this`phase, this`readIgnored
      ensures Linked() && View() == old(View()).(phase := p, readIgnored := old(readIgnored) || stopReading)
    {
      phase := p;
      if stopReading { readIgnored := true; }
      assert Views(requests) == old(Views(requests));
    }

    /** A request whose answer waits for its end is the front. */
    ghost predicate WaitsAtFront(c: Conn) {
      c.phase.InLoop? ==>
        var k := IndexOf(c.requests, c.phase.id);
        k < |c.requests| && c.requests[k].finishOnReceive ==>
          k == 0 && c.requests[0].response.Some? && c.requests[0].response.value.completed
    }

    method FinishWaiting(drained: bool)
      requires Linked() && requests != [] && requests[0].response != null && requests[0].response.completed
      modifies this`closing, this`readIgnored, this`requests, this`departed, this`link, this`timer, this`wire, this`phase
      modifies requests`connection, requests`finishOnReceive, requests`written, requests`headKeepAlive
      modifies Responses(requests)`code, Responses(requests)`parts
      ensures Linked() && Fewer(old(requests))
      ensures View() == Finish(old(View()).(phase := Quiet), drained)
    {
      hide Finish;
      SetPhase(Quiet, false);
      FinishRequest(drained);
    }

    /** The end of the loop body in on_read; `reading` tells whether the loop takes the next part. */
    method FinishPart(req: ServerRequest, finished: bool, drained: bool) returns (reading: bool)
      requires Linked() && Tracks(req) && phase == InLoop(req.id, req.header.keepAlive, finished)
      requires WaitsAtFront(View())
      modifies this`closing, this`readIgnored, this`requests, this`departed, this`link, this`timer, this`wire, this`phase
      modifies requests`connection, requests`finishOnReceive, requests`written, requests`headKeepAlive
      modifies Responses(requests)`code, Responses(requests)`parts
      ensures View() == Tail(old(View()), drained)
      ensures reading == LoopGoesOn(old(View()))
      ensures Linked() && Fewer(old(requests))
    {
      hide Finish;
      ghost var k := Tracked(req);
      if finished && req.connection != null && req.finishOnReceive {
        FinishWaiting(drained);
        reading := true;
      } else {
        reading := !(finished && (closing || !req.header.keepAlive));
        SetPhase(Quiet, !reading);
      }
    }

    // ---------------------------------------------------------------- callbacks

    method FindRequest(id: nat) returns (req: ServerRequest?)
      requires Linked()
      ensures var k := IndexOf(View().requests, id);
        if req == null then k == |requests| else k < |requests| && requests[k] == req
    {
      var k := 0;
      while k < |requests|
        invariant k <= |requests| && forall i :: 0 <= i < k ==> requests[i].id != id
      {
        if requests[k].id == id {
          Placed(k);
          return requests[k];
        }
        k := k + 1;
      }
      assert forall i :: 0 <= i < |requests| ==> View().requests[i].id == requests[i].id;
      return null;
    }

    /** Requests keep their response objects or get new ones. */
    twostate predicate FreshResponses(before: seq<ServerRequest>)
      reads before
    {
      forall r :: r in before ==> r.response == old(r.response) || (r.response != null && fresh(r.response))
    }

    method PerformRespond(req: ServerRequest, r: Response, drained: bool)
      requires Linked() && req in requests
      modifies this`closing, this`readIgnored, this`requests, this`departed, this`link, this`timer, this`wire, this`processed, this`stopping
      modifies requests`connection, requests`finishOnReceive, requests`written, requests`headKeepAlive
      modifies Responses(requests)`code, Responses(requests)`parts, req`response, req`calls
      ensures View() == RespondTo(old(View()), req.id, r, drained).0
      ensures req.response != null
      ensures Linked() && Fewer(old(requests)) && FreshResponses(old(requests))
    {
      hide RespondTo;
      ghost var c := View();
      var res := new ServerResponse(r);
      assert View() == c;
      GivenFresh(c, req.id, r, drained);
      var o := Respond(req, res, drained);
    }

    lemma {:induction false} RespondCases(c: Conn, k: nat, r: Response, drained: bool)
      requires k < |c.requests| && IndexOf(c.requests, c.requests[k].id) == k
      ensures RespondTo(c, c.requests[k].id, r, drained) ==
        if c.requests[k].response.Some? then (c, Threw)
        else (if k == 0 then WriteNext(Take(c, k, r), drained) else Take(c, k, r), Ok)
    {
      hide Take, WriteNext;
    }

    method PerformChunk(req: ServerRequest, text: string)
      requires Linked() && req in requests
      modifies this`wire, req`calls, Responses(requests)`parts
      ensures View() == ChunkTo(old(View()), req.id, text).0
      ensures Linked() && requests == old(requests)
    {
      hide ChunkTo;
      ghost var k := FindPlace(req);
      if req.response == null || req.response.completed {
        Unaccepted(View(), StepChunk(req.id, text));
      } else {
        SendChunk(req, req.response, text);
      }
    }

    method PerformFinal(req: ServerRequest, text: string, drained: bool)
      requires Linked() && req in requests
      modifies this`closing, this`readIgnored, this`requests, this`departed, this`link, this`timer, this`wire
      modifies requests`connection, requests`finishOnReceive, requests`written, requests`headKeepAlive
      modifies Responses(requests)`code, Responses(requests)`parts, Responses(requests)`completed, req`calls
      ensures View() == FinalTo(old(View()), req.id, text, drained).0
      ensures Linked() && Fewer(old(requests))
    {
      hide FinalTo;
      ghost var k := FindPlace(req);
      if req.response == null || req.response.completed {
        Unaccepted(View(), StepFinal(req.id, text, drained));
      } else {
        SendFinalChunk(req, req.response, text, drained);
      }
    }

    lemma FindPlace(req: ServerRequest) returns (k: nat)
      requires Linked() && req in requests
      ensures k < |requests| && requests[k] == req && IndexOf(View().requests, req.id) == k
    {
      k :| k < |requests| && requests[k] == req;
      Placed(k);
    }

    /** A call on a queued request. */
    ghost function Called(c: Conn, s: Step): Conn {
      match s
      case StepRespond(id, r, drained) => RespondTo(c, id, r, drained).0
      case StepContinue(id) => ContinueTo(c, id).0
      case StepEnablePartial(id) => Connection.EnablePartial(c, id)
      case StepChunk(id, text) => ChunkTo(c, id, text).0
      case StepFinal(id, text, drained) => FinalTo(c, id, text, drained).0
      case _ => c
    }

    method Dispatch(req: ServerRequest, s: Step)
      requires Linked() && Answering(s) && req in requests && req.id == s.id
      modifies this`closing, this`readIgnored, this`requests, this`departed, this`link, this`timer, this`wire, this`processed, this`stopping
      modifies requests`connection, requests`finishOnReceive, requests`written, requests`headKeepAlive
      modifies Responses(requests)`code, Responses(requests)`parts, Responses(requests)`completed
      modifies req`response, req`calls, req`partial
      ensures View() == Called(old(View()), s)
      ensures Linked() && Fewer(old(requests)) && FreshResponses(old(requests))
    {
      hide RespondTo, ChunkTo, FinalTo, ContinueTo, Connection.EnablePartial;
      match s
      case StepRespond(id, r, drained) => PerformRespond(req, r, drained);
      case StepContinue(id) => var o := SendContinue(req);
      case StepEnablePartial(id) => EnablePartial(req);
      case StepChunk(id, text) => PerformChunk(req, text);
      case StepFinal(id, text, drained) => PerformFinal(req, text, drained);
    }

    /** A user answers from a callback. */
    method Perform(s: Step)
      requires Linked() && Answering(s)
      modifies this`closing, this`readIgnored, this`requests, this`departed, this`link, this`timer, this`wire, this`processed, this`stopping
      modifies requests, Responses(requests)
      ensures View() == Next(old(View()), s)
      ensures Linked() && Fewer(old(requests)) && FreshResponses(old(requests))
    {
      hide Next, Called, IndexOf;
      NextCalled(View(), s);
      var req := FindRequest(s.id);
      if req == null {
        Unheard(View(), s);
      } else {
        Dispatch(req, s);
      }
    }

    lemma NextCalled(c: Conn, s: Step)
      requires Answering(s)
      ensures Next(c, s) == Called(c, s)
    {
    }

    /** Whether a response object claims to be completed does not matter to respond(). */
    lemma GivenFresh(c: Conn, id: nat, r: Response, drained: bool)
      ensures RespondTo(c, id, r.(completed := false), drained) == RespondTo(c, id, r, drained)
    {
      hide WriteNext;
      assert forall stopping :: Taken(r.(completed := false), stopping) == Taken(r, stopping);
    }

    lemma Unheard(c: Conn, s: Step)
      requires Answering(s) && IndexOf(c.requests, s.id) == |c.requests|
      ensures Next(c, s) == c
    {
    }

    lemma Unaccepted(c: Conn, s: Step)
      requires s.StepChunk? || s.StepFinal?
      requires var k := IndexOf(c.requests, s.id);
        k < |c.requests| && (c.requests[k].response.None? || c.requests[k].response.value.completed)
      ensures Next(c, s) == c
    {
    }

    /** Everything users do in the callbacks of one part. */
    method PlayCalls(calls: seq<Step>)
      requires Linked() && forall i :: 0 <= i < |calls| ==> Answering(calls[i])
      modifies this`closing, this`readIgnored, this`requests, this`departed, this`link, this`timer, this`wire, this`processed, this`stopping
      modifies requests, Responses(requests)
      ensures View() == Play(old(View()), calls)
      ensures Linked() && Fewer(old(requests)) && FreshResponses(old(requests))
    {
      hide Next;
      assert calls[0..] == calls;
      for i := 0 to |calls|
        invariant Linked() && Fewer(old(requests)) && FreshResponses(old(requests))
        invariant Play(View(), calls[i..]) == Play(old(View()), calls)
      {
        assert calls[i..][0] == calls[i] && calls[i..][1..] == calls[i + 1..];
        Perform(calls[i]);
      }
      assert calls[|calls|..] == [];
    }

    method MarkClose(ghost k: nat, req: ServerRequest)
      requires Linked() && k < |requests| && requests[k] == req && req.response != null
      modifies req.response`keepAlive
      ensures Linked()
      ensures var q := old(req.View());
        View() == old(View()).(requests :=
          old(View()).requests[k := q.(response := Some(q.response.value.(keepAlive := false)))])
    {
      req.response.keepAlive := false;
      PlaceChanged(k);
    }

    /** request_error answers a request that its user has left unanswered. */
    method AnswerBad(ghost k: nat, req: ServerRequest, drained: bool)
      requires Linked() && k < |requests| && requests[k] == req && req.response == null
      modifies this`closing, this`readIgnored, this`requests, this`departed, this`link, this`timer, this`wire, this`processed, this`stopping
      modifies requests`connection, requests`finishOnReceive, requests`written, requests`headKeepAlive
      modifies Responses(requests)`code, Responses(requests)`parts, req`response, req`calls
      ensures View() == Answer(old(View()), k, BadRequest, drained) && req.response != null
      ensures Linked() && Fewer(old(requests)) && FreshResponses(old(requests))
    {
      hide RespondTo, Answer;
      Placed(k);
      AnswersBad(View(), k, drained);
      PerformRespond(req, BadRequest, drained);
    }

    /** The rest of request_error, after the notification. `failed` says that the assertion in respond()
        fails: the request has left without an answer. */
    method FinishError(req: ServerRequest, drained: bool) returns (failed: bool)
      requires Linked() && Tracks(req) && phase == InError(req.id)
      modifies this`closing, this`readIgnored, this`requests, this`departed, this`link, this`timer, this`wire, this`processed, this`stopping, this`phase
      modifies requests`connection, requests`finishOnReceive, requests`written, requests`headKeepAlive
      modifies Responses(requests)`code, Responses(requests)`parts, Responses(requests)`keepAlive
      modifies requests`response, requests`calls
      ensures View() == ErrorTail(old(View()), drained)
      ensures failed == old(LeftUnanswered(req)) == LeftUnanswered(req)
      ensures Linked() && Fewer(old(requests)) && FreshResponses(old(requests))
    {
      hide Answer, IndexOf;
      ghost var k := Tracked(req);
      SetPhase(Quiet, false);
      failed := false;
      if req.connection == null {
        failed := req.response == null;
      } else if req.response == null {
        assert View().requests[k].response.None?;
        AnswerBad(k, req, drained);
      } else {
        assert View().requests[k].response.Some?;
        MarkClose(k, req);
        assert FreshResponses(old(requests)) && Fewer(old(requests));
      }
    }

    lemma AnswersBad(c: Conn, k: nat, drained: bool)
      requires k < |c.requests| && c.requests[k].response.None? && IndexOf(c.requests, c.requests[k].id) == k
      ensures RespondTo(c, c.requests[k].id, BadRequest, drained).0 == Answer(c, k, BadRequest, drained)
    {
      hide Answer;
    }

    // ---------------------------------------------------------------- the loop of on_read

    /** Queued requests and their responses are those from before, or new objects. */
    twostate predicate OwnObjects(before: seq<ServerRequest>)
      reads this, requests, before
    {
      forall r :: r in requests ==>
        || (r in before && (r.response == old(r.response) || (r.response != null && fresh(r.response))))
        || (fresh(r) && (r.response != null ==> fresh(r.response)))
    }

    lemma TracksBack()
      requires Linked() && requests != []
      ensures Tracks(requests[|requests| - 1])
    {
    }

    /** The request is no longer queued and has no answer. */
    predicate LeftUnanswered(req: ServerRequest)
      reads req
    {
      req.connection == null && req.response == null
    }

    /** The error callback of a part, and the rest of request_error. */
    method EndError(req: ServerRequest, part: Part) returns (failed: bool)
      requires Linked() && Tracks(req) && phase == InError(req.id)
      requires forall i :: 0 <= i < |part.calls| ==> Answering(part.calls[i])
      modifies this`closing, this`readIgnored, this`requests, this`departed, this`link, this`timer, this`wire, this`processed, this`stopping, this`phase
      modifies requests, Responses(requests)
      ensures var d := Play(old(View()), part.calls);
        d.phase == InError(req.id) && View() == ErrorTail(d, part.drained)
      ensures failed == LeftUnanswered(req)
      ensures Linked() && Fewer(old(requests)) && FreshResponses(old(requests))
    {
      hide Play, ErrorTail;
      PlayCalls(part.calls);
      failed := FinishError(req, part.drained);
    }

    /** The callbacks of a part, and the end of the loop body. */
    method EndLoop(req: ServerRequest, finished: bool, part: Part) returns (more: bool)
      requires Linked() && Tracks(req) && phase == InLoop(req.id, req.header.keepAlive, finished)
      requires forall i :: 0 <= i < |part.calls| ==> Answering(part.calls[i])
      requires WaitsAtFront(Play(View(), part.calls))
      modifies this`closing, this`readIgnored, this`requests, this`departed, this`link, this`timer, this`wire, this`processed, this`stopping, this`phase
      modifies requests, Responses(requests)
      ensures var d := Play(old(View()), part.calls);
        d.phase.InLoop? && View() == Tail(d, part.drained) && more == LoopGoesOn(d)
      ensures Linked() && Fewer(old(requests)) && FreshResponses(old(requests))
    {
      hide Play, Tail, LoopGoesOn, WaitsAtFront;
      PlayCalls(part.calls);
      more := FinishPart(req, finished, part.drained);
    }

    method EndPart(req: ServerRequest, next: Callbacks, finished: bool, part: Part) returns (more: bool, failed: bool)
      requires Linked() && Tracks(req) && !next.NoCallback?
      requires phase == if next.ErrorCallback? then InError(req.id) else InLoop(req.id, req.header.keepAlive, finished)
      requires forall i :: 0 <= i < |part.calls| ==> Answering(part.calls[i])
      requires WaitsAtFront(Play(View(), part.calls))
      modifies this`closing, this`readIgnored, this`requests, this`departed, this`link, this`timer, this`wire, this`processed, this`stopping, this`phase
      modifies requests, Responses(requests)
      ensures var d := Play(old(View()), part.calls);
        if next.ErrorCallback? then d.phase == InError(req.id) && View() == ErrorTail(d, part.drained) && !more
        else d.phase.InLoop? && View() == Tail(d, part.drained) && more == LoopGoesOn(d)
      ensures failed == (next.ErrorCallback? && LeftUnanswered(req))
      ensures Linked() && Fewer(old(requests)) && FreshResponses(old(requests))
    {
      hide Play, Tail, ErrorTail, LoopGoesOn, WaitsAtFront;
      more, failed := false, false;
      if next.ErrorCallback? { failed := EndError(req, part); } else { more := EndLoop(req, finished, part); }
    }

    /** One pass through the loop body of on_read, and the request it is about. */
    method OnPart(part: Part) returns (more: bool, failed: bool, ghost req: ServerRequest)
      requires Linked() && phase.Quiet? && ParserAtBack()
      requires forall i :: 0 <= i < |part.calls| ==> Answering(part.calls[i])
      requires WaitsAtFront(CallbacksDone(View(), part))
      modifies this, requests, Responses(requests)
      ensures View() == ReadPart(old(View()), part) && more == ReadsOn(old(View()), part)
      ensures CallbacksDone(old(View()), part).phase.InError? ==> CallbacksDone(old(View()), part).phase.id == req.id
      ensures failed == (CallbacksDone(old(View()), part).phase.InError? && LeftUnanswered(req))
      ensures Linked() && OwnObjects(old(requests))
    {
      hide Arrive, Play, Tail, ErrorTail, LoopGoesOn, WaitsAtFront, IndexOf, ReadPart, ReadsOn, CallbacksDone,
        View, Linked, Tracks, ParserAtBack, LeftUnanswered;
      PartCases(View(), part);
      var next;
      var back;
      back, next := ArrivePart(part.parsed);
      req := back;
      TracksBack();
      ViewPhase();
      more, failed := false, false;
      if !next.NoCallback? { more, failed := EndPart(back, next, part.parsed.state.Done? || part.parsed.state.Error?, part); }
    }

    lemma ViewPhase()
      ensures View().phase == phase
    {
    }

    lemma PartCases(c: Conn, part: Part)
      ensures var d := Arrive(c, part.parsed);
        if d.phase.Quiet? then CallbacksDone(c, part) == d && ReadPart(c, part) == d && !ReadsOn(c, part)
        else
          var e := Play(d, part.calls);
          && CallbacksDone(c, part) == e
          && (e.phase.InError? ==> ReadPart(c, part) == ErrorTail(e, part.drained) && !ReadsOn(c, part))
          && (e.phase.InLoop? ==> ReadPart(c, part) == Tail(e, part.drained) && ReadsOn(c, part) == LoopGoesOn(e))
    {
      hide Arrive, Play, Tail, ErrorTail, LoopGoesOn;
    }

    /** on_read with a buffer: parts are read until the buffer ends or reading stops; `req` is the request in
        error, if request_error has been called. */
    method OnRead(parts: seq<Part>) returns (failed: bool, ghost req: ServerRequest?)
      requires Linked() && phase.Quiet? && AnswerInFront(View()) && Readable(View(), parts)
      modifies this, requests, Responses(requests)
      ensures View() == ReadAll(old(View()), parts)
      ensures Linked() && OwnObjects(old(requests))
      ensures Reported(InErrorOf(old(View()), parts), failed, req)
      ensures old(Inv(View()) && Uninterrupted(View(), parts)) ==> Inv(View())
    {
      ghost var c := View();
      hide Inv, ReadPart, ReadsOn, CallbacksDone, AnswerInFront, Uninterrupted, WaitsAtFront, ParserAtBack, ReadAll, Readable,
        InErrorOf, LeftUnanswered;
      var more := true;
      failed, req := false, null;
      var i := 0;
      assert parts[0..] == parts;
      ReadNothing(c);
      while more && i < |parts|
        invariant i <= |parts| && Linked() && phase.Quiet? && AnswerInFront(View()) && OwnObjects(old(requests))
        invariant more ==> Readable(View(), parts[i..]) && ReadAll(View(), parts[i..]) == ReadAll(c, parts)
        invariant !more ==> View() == ReadAll(c, parts)
        invariant more ==> !failed && InErrorOf(View(), parts[i..]) == InErrorOf(c, parts)
        invariant !more ==> Reported(InErrorOf(c, parts), failed, req)
        decreases |parts| - i, more
      {
        assert parts[i..][0] == parts[i] && parts[i..][1..] == parts[i + 1..];
        PartReady(parts[i], parts[i..]);
        ReadOne(View(), parts[i..]);
        ErrorOne(View(), parts[i..]);
        more, failed, req := OnPart(parts[i]);
        i := i + 1;
      }
      assert parts[|parts|..] == [];
      ReadNothing(View());
      NoError(View());
      if Inv(c) && Uninterrupted(c, parts) { ReadAllKeeps(c, parts); }
    }

    /** What on_read says about the request in error. */
    predicate Reported(id: Option<nat>, failed: bool, req: ServerRequest?)
      reads req
    {
      match id
      case None => !failed
      case Some(id) => req != null && req.id == id && failed == LeftUnanswered(req)
    }

    lemma {:induction false} NoError(c: Conn)
      ensures InErrorOf(c, []) == None
    {
    }

    lemma {:induction false} ErrorOne(c: Conn, parts: seq<Part>)
      requires parts != []
      ensures var d := CallbacksDone(c, parts[0]);
        InErrorOf(c, parts) ==
          if d.phase.InError? then Some(d.phase.id)
          else if ReadsOn(c, parts[0]) then InErrorOf(ReadPart(c, parts[0]), parts[1..]) else None
      ensures ReadsOn(c, parts[0]) ==> !CallbacksDone(c, parts[0]).phase.InError?
    {
      hide CallbacksDone, ReadPart;
    }

    lemma {:induction false} ReadNothing(c: Conn)
      ensures ReadAll(c, []) == c
    {
    }

    lemma {:induction false} ReadOne(c: Conn, parts: seq<Part>)
      requires parts != [] && Readable(c, parts)
      ensures forall j :: 0 <= j < |parts[0].calls| ==> Answering(parts[0].calls[j])
      ensures ReadsOn(c, parts[0]) ==>
        && Readable(ReadPart(c, parts[0]), parts[1..])
        && ReadAll(c, parts) == ReadAll(ReadPart(c, parts[0]), parts[1..])
      ensures !ReadsOn(c, parts[0]) ==> ReadAll(c, parts) == ReadPart(c, parts[0])
    {
      hide ReadPart, ReadsOn, CallbacksDone;
    }

    lemma {:induction false} PartReady(part: Part, parts: seq<Part>)
      requires Linked() && phase.Quiet? && AnswerInFront(View())
      requires parts != [] && parts[0] == part && Readable(View(), parts)
      ensures ParserAtBack() && WaitsAtFront(CallbacksDone(View(), part))
      ensures AnswerInFront(ReadPart(View(), part)) && ReadPart(View(), part).phase.Quiet?
    {
      hide ReadPart, CallbacksDone, AnswerInFront, WaitsAtFront;
      ParserIsBack(parts);
      ReadPartInFront(View(), part);
      ReadPartQuiet(View(), part);
      InFrontWaits(CallbacksDone(View(), part));
    }

    lemma {:induction false} ParserIsBack(parts: seq<Part>)
      requires Linked() && parts != [] && Readable(View(), parts)
      ensures ParserAtBack()
      ensures forall i :: 0 <= i < |parts[0].calls| ==> Answering(parts[0].calls[i])
    {
      hide ReadPart, CallbacksDone, ReadsOn, Answering;
      if parsing != null { assert Back(View()).id == requests[|requests| - 1].id; }
    }

    lemma InFrontWaits(c: Conn)
      requires AnswerInFront(c)
      ensures WaitsAtFront(c)
    {
    }

    /** on_read with a read error takes the request that is being received, or makes one. */
    method ErrorRequest(header: Header) returns (req: ServerRequest)
      requires Linked() && (requests == [] || requests[|requests| - 1].done ==> parsing == null)
      modifies this`requests, this`timer, this`nextId, this`parsing
      ensures Linked() && requests != [] && req == requests[|requests| - 1]
      ensures requests == old(requests) || (fresh(req) && req.response == null && requests == old(requests) + [req])
      ensures View() == ErrorRoom(old(View()), header).(parsing := None)
    {
      hide ErrorRoom;
      RoomCases(View(), header);
      if requests == [] || requests[|requests| - 1].done {
        req := StartRequest(header, true);
      } else {
        req := requests[|requests| - 1];
        SetParser(null);
      }
    }

    lemma RoomCases(c: Conn, header: Header)
      ensures ErrorRoom(c, header).(parsing := None) ==
        if c.requests == [] || c.requests[|c.requests| - 1].done
        then c.(timer := false, requests := c.requests + [NewRequest(c.nextId, header)], nextId := c.nextId + 1, parsing := None)
        else c.(timer := false, parsing := None)
    {
    }

    /** on_read with a read error, up to the notification. */
    method FailReading(header: Header) returns (req: ServerRequest)
      requires Linked() && (requests == [] || requests[|requests| - 1].done ==> parsing == null)
      modifies this`requests, this`timer, this`nextId, this`parsing, this`readIgnored, this`phase, requests`done, requests`routed
      ensures Linked() && requests != [] && req == requests[|requests| - 1] && phase == InError(req.id)
      ensures requests == old(requests) || (fresh(req) && req.response == null && requests == old(requests) + [req])
      ensures View() == ReadError(old(View()), header)
    {
      hide ErrorRoom, ReadError, Fail;
      ReadErrorParts(View(), header);
      req := ErrorRequest(header);
      FailBack(req);
    }

    method FailBack(req: ServerRequest)
      requires Linked() && requests != [] && req == requests[|requests| - 1]
      modifies this`readIgnored, this`phase, req`done, req`routed
      ensures Linked() && phase == InError(req.id)
      ensures View() == Fail(SetBack(old(View()), old(req.View()).(done := true)), req.id)
    {
      hide Fail, SetBack;
      FlagBack(req, true, req.routed);
      StartError(req.id);
    }

    lemma ReadErrorParts(c: Conn, header: Header)
      ensures var m := ErrorRoom(c, header).(parsing := None);
        m.requests != [] && ReadError(c, header) == Fail(SetBack(m, Back(m).(done := true)), Back(m).id)
    {
    }

    /** on_read with a read error. */
    method OnReadError(header: Header, part: Part) returns (failed: bool, ghost req: ServerRequest)
      requires Linked() && (requests == [] || requests[|requests| - 1].done ==> parsing == null)
      requires forall i :: 0 <= i < |part.calls| ==> Answering(part.calls[i])
      modifies this, requests, Responses(requests)
      ensures var d := Play(ReadError(old(View()), header), part.calls);
        d.phase == InError(req.id) && View() == ErrorTail(d, part.drained)
      ensures failed == LeftUnanswered(req)
      ensures Linked() && OwnObjects(old(requests))
    {
      hide ReadError, Play, ErrorTail;
      var back := FailReading(header);
      req := back;
      TracksBack();
      failed := EndError(back, part);
    }

    // ---------------------------------------------------------------- other events

    ghost function Objects(): set<object>
      reads this, requests
    {
      {this as object} + (set r: ServerRequest | r in requests :: r as object) +
      (set r: ServerRequest | r in requests && r.response != null :: r.response as object)
    }

    method OnWrite(failed: bool, drained: bool)
      requires Linked()
      modifies this`requests, this`departed, this`link, this`timer, this`removed, requests`connection
      ensures Linked() && Fewer(old(requests))
      ensures View() == Next(old(View()), StepWritten(failed, drained))
    {
      hide Close, CheckIdle;
      if failed { CloseConnection(); } else { CheckIfIdle(drained); }
    }

    /** The callback of the idle timer: its assertion holds, and nothing is cut off. */
    method OnIdle()
      requires Linked() && Inv(View()) && Enabled(View(), StepIdle)
      modifies this`requests, this`departed, this`link, this`timer, this`removed, requests`connection
      ensures Linked() && departed == old(departed)
      ensures View() == Next(old(View()), StepIdle)
    {
      assert requests == [] by { assert View().requests == []; }
      hide Inv;
      timer := false;
      CloseConnection();
    }

    method OnShutdown()
      requires Linked()
      modifies this`timer, this`removed
      ensures Linked() && View() == Next(old(View()), StepShutdownDone)
    {
      timer := false;
      removed := true;
    }

    method OnEof()
      requires Linked()
      modifies this`requests, this`departed, this`link, requests`connection
      ensures requests == [] && forall r :: r in old(requests) ==> r.connection == null
      ensures View() == Next(old(View()), StepEof)
    {
      ShutdownConnection();
    }
  }
}

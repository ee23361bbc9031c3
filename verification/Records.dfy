/** What the steps of a run say about each request: its record is made of the accepted steps on it, in order, and
    what is on the wire of it is the text that those steps have given. */
module Records {
  import opened Options
  import opened Wire
  import opened Connection
  import opened Invariant
  import opened Pipelining
  import opened Steps
  import opened Serving
  import opened Lifetime
  import opened Recursion
  import opened Reader
  import opened WireOrder

  /** What is known of a request. `keepAlive` is the mark that its head has been given or will be given. */
  datatype Facts = Facts(header: Header, routed: bool, partial: bool, done: bool, keepAlive: bool, calls: seq<Call>)

  // ---------------------------------------------------------------- told by the steps

  predicate Ends(p: Parsed) { p.state.Done? || p.state.Error? }

  /** The last request that was begun is still being read. */
  predicate InProgress(steps: seq<Step>) {
    steps != [] &&
    match steps[|steps| - 1]
    case StepArrive(p) => !Ends(p)
    case StepReadError(_) => false
    case _ => InProgress(steps[..|steps| - 1])
  }

  /** How many requests have been begun. */
  function Begun(steps: seq<Step>): nat {
    if steps == [] then 0
    else
      var before := steps[..|steps| - 1];
      Begun(before) + if Reads(steps[|steps| - 1]) && !InProgress(before) then 1 else 0
  }

  predicate Reads(s: Step) { s.StepArrive? || s.StepReadError? }

  predicate Queued(c: Conn, id: nat) { exists i :: 0 <= i < |c.requests| && c.requests[i].id == id }

  predicate First(c: Conn, id: nat) { c.requests != [] && c.requests[0].id == id }

  /** Users see a request once its headers are complete, unless it is an upgrade behind others. */
  predicate Seen(p: Parsed, header: Header, behind: int) {
    (p.state.Body? || p.state.Done?) && !(behind > 0 && header.upgrade.UpgradeExact?)
  }

  /** A request that begins with this step. */
  function Beginning(c: Conn, s: Step): Facts
    requires Reads(s)
  {
    match s
    case StepArrive(p) => Facts(p.header, Seen(p, p.header, |c.requests|), false, Ends(p), false, [])
    case StepReadError(header) => Facts(header, false, false, true, false, [])
  }

  /** Whether a response given now may keep the connection. */
  predicate MayKeep(c: Conn) {
    !c.stopping && !(c.maxKeepAlive > 0 && c.processed + 1 >= c.maxKeepAlive && |c.requests| == 1)
  }

  /** What a step adds to what is known of the queued request `id`; `current` when the parser is in it. */
  function Adds(c: Conn, s: Step, id: nat, current: bool, f: Facts): Facts {
    match s
    case StepArrive(p) =>
      if current then f.(done := Ends(p), routed := f.routed || Seen(p, f.header, |c.requests| - 1)) else f
    case StepReadError(_) => if current then f.(done := true) else f
    case StepRespond(i, r, _) =>
      if i != id || f.calls != [] then f
      else
        var given := r.(keepAlive := r.keepAlive && MayKeep(c), completed := !r.chunked || r.parts != []);
        f.(keepAlive := given.keepAlive, calls := [Respond(given)])
    case StepErrorTail(_) =>
      if c.phase != InError(id) then f
      else if f.calls == [] then f.(keepAlive := false, calls := [Respond(Response(400, false, false, ["x"], true))])
      else if First(c, id) then f
      else f.(keepAlive := false)
    case StepChunk(i, text) =>
      if i != id || f.calls == [] || Complete(f.calls) then f else f.(calls := f.calls + [SendChunk(text)])
    case StepFinal(i, text, _) =>
      if i != id || f.calls == [] || Complete(f.calls) then f else f.(calls := f.calls + [SendFinal(text, First(c, id))])
    case StepEnablePartial(i) => if i == id then f.(partial := true) else f
    case _ => f
  }

  const Unknown := Facts(Header(false, false, false, NoUpgrade), false, false, false, false, [])

  /** What is known of request `id` after a step, when `n` requests had been begun and the last was being read or not. */
  function After(c: Conn, s: Step, id: nat, f: Facts, n: nat, reading: bool): Facts {
    var current := Reads(s) && id == n - (if reading then 1 else 0);
    if current && !reading then Beginning(c, s)
    else if Queued(c, id) then Adds(c, s, id, current, f)
    else f
  }

  /** All that the steps tell about request `id`. Of the states in between it matters only who is queued, and
      whether the connection is stopping or in request_error. */
  function Told(c: Conn, steps: seq<Step>, id: nat): Facts {
    if steps == [] then Unknown
    else
      var before := steps[..|steps| - 1];
      After(Run(c, before), steps[|steps| - 1], id, Told(c, before, id), Begun(before), InProgress(before))
  }

  // ---------------------------------------------------------------- the records are what has been told

  ghost predicate Tells(q: Request, f: Facts) {
    && q.header == f.header && q.routed == f.routed && q.partial == f.partial && q.done == f.done && q.calls == f.calls
    && (q.response.Some? && !q.written ==> q.response.value.keepAlive == f.keepAlive)
    && (q.written ==> q.headKeepAlive == (f.keepAlive && f.header.keepAlive))
  }

  type Tale = nat -> Facts

  ghost predicate AllTold(c: Conn, t: Tale) {
    && (forall i :: 0 <= i < |c.requests| ==> Tells(c.requests[i], t(c.requests[i].id)))
    && (forall i :: 0 <= i < |c.departed| ==> Tells(c.departed[i].request, t(c.departed[i].request.id)))
  }

  lemma DepartTells(c: Conn, t: Tale)
    requires c.requests != [] && AllTold(c, t)
    ensures AllTold(Depart(c, Answered), t)
  {
    hide Tells;
  }

  lemma DownTells(c: Conn, t: Tale)
    requires AllTold(c, t)
    ensures AllTold(DropAll(c), t) && AllTold(Shutdown(c), t) && AllTold(Close(c), t)
  {
    hide Tells, FateOfDrop;
  }

  lemma SendTells(c: Conn, t: Tale)
    requires c.requests != [] && c.requests[0].response.Some? && !c.requests[0].written && AllTold(c, t)
    ensures AllTold(SendFront(c), t)
  {
    SendFrontFlushes(c);
    var f := Flushed(c);
    assert AllTold(f, t) by { FlushedTells(c, t); }
    hide Tells, SendFront, Flushed, FateOfDrop;
  }

  lemma FlushedTells(c: Conn, t: Tale)
    requires c.requests != [] && c.requests[0].response.Some? && !c.requests[0].written && AllTold(c, t)
    ensures AllTold(Flushed(c), t) && Flushed(c).requests != []
  {
    var q := c.requests[0];
    var f := Flushed(c);
    assert f.departed == c.departed && f.requests == [f.requests[0]] + c.requests[1..];
    assert Tells(f.requests[0], t(q.id)) && f.requests[0].id == q.id;
    hide Flushed, Tells;
    forall i | 0 <= i < |f.requests| ensures Tells(f.requests[i], t(f.requests[i].id)) {
      if i > 0 { assert f.requests[i] == c.requests[i]; }
    }
  }

  lemma {:induction false} FinishTells(c: Conn, drained: bool, t: Tale)
    requires CanFinish(c) && AllTold(c, t)
    ensures AllTold(Finish(c, drained), t)
    decreases |c.requests|, 0
  {
    hide RecordsOk, IdsOk, Order, UpOk, WireOk, ScanOk, ReadOk, WriteNext;
    if c.requests[0].done {
      var d := Depart(c, Answered);
      DepartTells(c, t);
      DownTells(d, t);
      if !c.closing && !c.stopping && d.requests != [] && d.requests[0].response.Some? {
        FinishDeparts(c);
        FinishHandsOver(c);
        hide CanFinish, AllTold;
        WriteTells(d, drained, t);
      }
    }
  }

  lemma {:induction false} WriteTells(c: Conn, drained: bool, t: Tale)
    requires CanSend(c) && ReadOk(c) && AllTold(c, t)
    ensures AllTold(WriteNext(c, drained), t)
    decreases |c.requests|, 1
  {
    SendTells(c, t);
    SendFrontKeeps(c);
    WriteNextIs(c, drained);
    if c.requests[0].response.value.completed {
      SentCanFinish(c);
      hide CanSend, ReadOk, CanFinish, SentFront, SendFront, WriteNext, AllTold;
      FinishTells(SendFront(c), drained, t);
    }
  }

  // ---------------------------------------------------------------- step by step

  /** `u` is what is known after the step when `t` was known before. */
  ghost predicate Continues(c: Conn, s: Step, t: Tale, u: Tale) {
    forall id: nat :: u(id) == After(c, s, id, t(id), c.nextId, c.parsing.Some?)
  }

  /** The tale changes at one request only. */
  ghost predicate OnlyAt(t: Tale, u: Tale, id: nat) { forall i: nat :: i != id ==> u(i) == t(i) }

  lemma PlaceTells(c: Conn, d: Conn, k: nat, t: Tale, u: Tale)
    requires IdsOk(c) && AllTold(c, t) && k < |c.requests| && |d.requests| == |c.requests| && d.departed == c.departed
    requires d.requests == c.requests[k := d.requests[k]] && d.requests[k].id == c.requests[k].id
    requires OnlyAt(t, u, c.requests[k].id) && Tells(d.requests[k], u(c.requests[k].id))
    ensures AllTold(d, u)
  {
    NotLeft(c, k);
    NotTwice(c, k);
    hide Tells, IdsOk;
  }

  lemma NotLeft(c: Conn, k: nat)
    requires IdsOk(c) && k < |c.requests|
    ensures forall i :: 0 <= i < |c.departed| ==> c.departed[i].request.id != c.requests[k].id
  {
    IdsMember(c.requests, k);
    var id := c.requests[k].id;
    assert Places(c)[id] <= 1;
    forall i | 0 <= i < |c.departed| ensures c.departed[i].request.id != id {
      IdsMember(Gone(c.departed), i);
      assert Gone(c.departed)[i] == c.departed[i].request;
    }
  }

  lemma {:induction false} NotTwice(c: Conn, k: nat)
    requires IdsOk(c) && k < |c.requests|
    ensures forall i :: 0 <= i < |c.requests| && i != k ==> c.requests[i].id != c.requests[k].id
  {
    forall i | 0 <= i < |c.requests| && i != k ensures c.requests[i].id != c.requests[k].id {
      assert Places(c)[c.requests[k].id] <= 1;
      if c.requests[i].id == c.requests[k].id { TwiceThere(c.requests, if i < k then i else k, if i < k then k else i); }
    }
  }

  lemma {:induction false} TwiceThere(qs: seq<Request>, i: nat, k: nat)
    requires i < k < |qs| && qs[i].id == qs[k].id
    ensures Ids(qs)[qs[i].id] >= 2
  {
    if k == |qs| - 1 { IdsMember(qs[..k], i); } else { TwiceThere(qs[..|qs| - 1], i, k); }
  }

  lemma SameTells(c: Conn, t: Tale, u: Tale)
    requires AllTold(c, t) && forall i: nat :: u(i) == t(i)
    ensures AllTold(c, u)
  {
    hide Tells;
  }

  lemma TellsQueued(c: Conn, t: Tale, k: nat)
    requires Inv(c) && AllTold(c, t) && k < |c.requests|
    ensures var q := c.requests[k];
      var f := t(q.id);
      && Tells(q, f) && Queued(c, q.id)
      && (q.response.None? <==> f.calls == []) && (q.response.Some? ==> q.response.value.completed == Complete(f.calls))
      && (k > 0 || q.response.None? ==> !q.written) && (First(c, q.id) <==> k == 0)
  {
    hide IdsOk, UpOk, WireOk, ScanOk, ReadOk, CloseOk, Complete, Accepted, Holds, AllQueued, FateOk;
    assert RequestOk(c.requests[k]);
  }

  lemma {:induction false} NotQueued(c: Conn, id: nat)
    requires IndexOf(c.requests, id) == |c.requests|
    ensures !Queued(c, id)
  {
  }

  lemma RespondTells(c: Conn, s: Step, t: Tale, u: Tale)
    requires Inv(c) && AllTold(c, t) && Continues(c, s, t, u) && s.StepRespond?
    ensures AllTold(Next(c, s), u)
  {
    var k := IndexOf(c.requests, s.id);
    if k == |c.requests| {
      NotQueued(c, s.id);
      SameTells(c, t, u);
    } else {
      TellsQueued(c, t, k);
      hide Inv, AllTold, Tells, IndexOf;
      if c.requests[k].response.Some? {
        SameTells(c, t, u);
      } else {
        var d := Take(c, k, s.response);
        TakeTells(c, s, k, t, u);
        if k == 0 {
          GivenCanSend(c, s);
          GivenIs(c, s);
          WriteTells(d, s.drained, u);
        }
      }
    }
  }

  lemma TakeTells(c: Conn, s: Step, k: nat, t: Tale, u: Tale)
    requires Inv(c) && AllTold(c, t) && Continues(c, s, t, u) && s.StepRespond? && k < |c.requests| && c.requests[k].id == s.id
    requires c.requests[k].response.None?
    ensures AllTold(Take(c, k, s.response), u)
  {
    TellsQueued(c, t, k);
    var d := Take(c, k, s.response);
    assert d.requests[k].calls == c.requests[k].calls + [d.requests[k].calls[|c.requests[k].calls|]];
    hide Inv, AllTold;
    assert OnlyAt(t, u, s.id);
    assert Tells(d.requests[k], u(s.id));
    hide Tells, Continues;
    PlaceTells(c, d, k, t, u) by { InvIds(c); }
  }

  lemma InvIds(c: Conn)
    requires Inv(c)
    ensures IdsOk(c)
  {
    hide IdsOk;
  }

  /** A call concerns its own request only. */
  lemma CallContinues(c: Conn, s: Step, t: Tale, u: Tale)
    requires Continues(c, s, t, u) && Answering(s)
    ensures OnlyAt(t, u, s.id)
    ensures u(s.id) == if Queued(c, s.id) then Adds(c, s, s.id, false, t(s.id)) else t(s.id)
  {
  }

  lemma NothingTold(c: Conn, t: Tale, u: Tale, id: nat)
    requires AllTold(c, t) && OnlyAt(t, u, id) && u(id) == t(id)
    ensures AllTold(c, u)
  {
    hide Tells;
    SameTells(c, t, u);
  }

  /** The request at place `k` of the queue has another record. */
  ghost predicate Rewrites(c: Conn, d: Conn, k: nat) {
    && k < |c.requests| && |d.requests| == |c.requests| && d.departed == c.departed
    && d.requests == c.requests[k := d.requests[k]] && d.requests[k].id == c.requests[k].id
  }

  lemma {:induction false} ChunkRewrites(c: Conn, id: nat, text: string)
    requires var k := IndexOf(c.requests, id);
      k < |c.requests| && c.requests[k].response.Some? && !c.requests[k].response.value.completed
    ensures var k, d := IndexOf(c.requests, id), ChunkTo(c, id, text).0;
      && |d.requests| == |c.requests| && Rewrites(c, d, k)
      && d.requests[k] == c.requests[k].(response := d.requests[k].response, calls := c.requests[k].calls + [SendChunk(text)])
      && d.requests[k].response.Some? && d.requests[k].response.value.keepAlive == c.requests[k].response.value.keepAlive
  {
    hide IndexOf;
  }

  lemma ChunkTells(c: Conn, s: Step, t: Tale, u: Tale)
    requires Inv(c) && AllTold(c, t) && Continues(c, s, t, u) && s.StepChunk?
    ensures AllTold(Next(c, s), u)
  {
    hide CompletedBefore, Inv, AllTold, IdsOk, IndexOf, Complete, Continues, ChunkTo, Tells, Rewrites;
    CallContinues(c, s, t, u);
    var k := IndexOf(c.requests, s.id);
    if k == |c.requests| {
      NotQueued(c, s.id);
      ChunkIgnored(c, s.id, s.text);
      NothingTold(c, t, u, s.id);
    } else {
      TellsQueued(c, t, k);
      InvIds(c);
      if c.requests[k].response.None? || c.requests[k].response.value.completed {
        ChunkIgnored(c, s.id, s.text);
        CallsTold(c, t, k);
        NothingTold(c, t, u, s.id);
      } else {
        ChunkRewrites(c, s.id, s.text);
        CallsTold(c, t, k);
        TellsMore(c.requests[k], ChunkTo(c, s.id, s.text).0.requests[k], t(s.id), SendChunk(s.text));
        RewriteTells(c, ChunkTo(c, s.id, s.text).0, k, t, u);
      }
    }
  }

  lemma {:induction false} ChunkIgnored(c: Conn, id: nat, text: string)
    requires var k := IndexOf(c.requests, id);
      k == |c.requests| || c.requests[k].response.None? || c.requests[k].response.value.completed
    ensures ChunkTo(c, id, text).0 == c
  {
    hide IndexOf, CompletedBefore;
  }

  lemma CallsTold(c: Conn, t: Tale, k: nat)
    requires k < |c.requests| && Tells(c.requests[k], t(c.requests[k].id))
    ensures c.requests[k].calls == t(c.requests[k].id).calls
  {
  }

  /** One more call on a response that is in progress. */
  lemma TellsMore(q: Request, p: Request, f: Facts, call: Call)
    requires Tells(q, f) && q.response.Some? && p.response.Some? && p.response.value.keepAlive == q.response.value.keepAlive
    requires p == q.(response := p.response, calls := q.calls + [call])
    ensures Tells(p, f.(calls := f.calls + [call]))
  {
  }

  lemma RewriteTells(c: Conn, d: Conn, k: nat, t: Tale, u: Tale)
    requires IdsOk(c) && AllTold(c, t) && Rewrites(c, d, k) && OnlyAt(t, u, c.requests[k].id)
    requires Tells(d.requests[k], u(c.requests[k].id))
    ensures AllTold(d, u)
  {
    hide IdsOk, AllTold, Tells, OnlyAt;
    PlaceTells(c, d, k, t, u);
  }

  lemma FinalTells(c: Conn, s: Step, t: Tale, u: Tale)
    requires Inv(c) && AllTold(c, t) && Continues(c, s, t, u) && s.StepFinal?
    ensures AllTold(Next(c, s), u)
  {
    var k := IndexOf(c.requests, s.id);
    hide CompletedBefore, Inv, AllTold, IdsOk, IndexOf, Complete, Continues, FinalTo, Tells, Rewrites, Ended, Finish, CanFinish;
    CallContinues(c, s, t, u);
    if k == |c.requests| {
      NotQueued(c, s.id);
      FinalIgnored(c, s.id, s.text, s.drained);
      NothingTold(c, t, u, s.id);
    } else {
      TellsQueued(c, t, k);
      InvIds(c);
      CallsTold(c, t, k);
      if c.requests[k].response.None? || c.requests[k].response.value.completed {
        FinalIgnored(c, s.id, s.text, s.drained);
        NothingTold(c, t, u, s.id);
      } else if k == 0 {
        EndedTells(c, s, t, u);
        EndedIs(c, s);
        EndedCanFinish(c, s);
        FinishTells(Ended(c, s.text), s.drained, u);
      } else {
        FinalRewrites(c, s.id, s.text, s.drained);
        TellsMore(c.requests[k], FinalTo(c, s.id, s.text, s.drained).0.requests[k], t(s.id), SendFinal(s.text, false));
        RewriteTells(c, FinalTo(c, s.id, s.text, s.drained).0, k, t, u);
      }
    }
  }

  lemma {:induction false} FinalIgnored(c: Conn, id: nat, text: string, drained: bool)
    requires var k := IndexOf(c.requests, id);
      k == |c.requests| || c.requests[k].response.None? || c.requests[k].response.value.completed
    ensures FinalTo(c, id, text, drained).0 == c
  {
    hide IndexOf, CompletedBefore, Finish;
  }

  lemma {:induction false} FinalRewrites(c: Conn, id: nat, text: string, drained: bool)
    requires var k := IndexOf(c.requests, id);
      0 < k < |c.requests| && c.requests[k].response.Some? && !c.requests[k].response.value.completed
    ensures var k, d := IndexOf(c.requests, id), FinalTo(c, id, text, drained).0;
      && |d.requests| == |c.requests| && Rewrites(c, d, k)
      && d.requests[k] == c.requests[k].(response := d.requests[k].response, calls := c.requests[k].calls + [SendFinal(text, false)])
      && d.requests[k].response.Some? && d.requests[k].response.value.keepAlive == c.requests[k].response.value.keepAlive
  {
    hide IndexOf, Finish;
  }

  lemma EndedTells(c: Conn, s: Step, t: Tale, u: Tale)
    requires Inv(c) && AllTold(c, t) && Continues(c, s, t, u) && EndsFront(c, s)
    ensures AllTold(Ended(c, s.text), u)
  {
    TellsQueued(c, t, 0);
    InvIds(c);
    hide Inv, AllTold, IdsOk, Complete;
    var d := Ended(c, s.text);
    assert Tells(d.requests[0], u(s.id));
    PlaceTells(c, d, 0, t, u);
  }

  lemma PartialTells(c: Conn, s: Step, t: Tale, u: Tale)
    requires Inv(c) && AllTold(c, t) && Continues(c, s, t, u) && s.StepEnablePartial?
    ensures AllTold(Next(c, s), u)
  {
    var k := IndexOf(c.requests, s.id);
    CallContinues(c, s, t, u);
    InvIds(c);
    hide Inv, AllTold, IdsOk, IndexOf, Complete, Continues, Rewrites;
    if k == |c.requests| {
      NotQueued(c, s.id);
      NothingTold(c, t, u, s.id);
    } else {
      TellsQueued(c, t, k);
      var d := Next(c, s);
      assert d.requests[k] == c.requests[k].(partial := true);
      assert Rewrites(c, d, k) by { PartialRewrites(c, s.id); }
      RewriteTells(c, d, k, t, u);
    }
  }

  lemma {:induction false} PartialRewrites(c: Conn, id: nat)
    requires IndexOf(c.requests, id) < |c.requests|
    ensures Rewrites(c, EnablePartial(c, id), IndexOf(c.requests, id))
  {
    hide IndexOf;
  }

  lemma ErrorContinues(c: Conn, s: Step, t: Tale, u: Tale)
    requires Continues(c, s, t, u) && s.StepErrorTail? && c.phase.InError?
    ensures OnlyAt(t, u, c.phase.id)
    ensures u(c.phase.id) == if Queued(c, c.phase.id) then Adds(c, s, c.phase.id, false, t(c.phase.id)) else t(c.phase.id)
  {
  }

  lemma PhaseTells(c: Conn, t: Tale)
    requires Inv(c) && AllTold(c, t)
    ensures AllTold(c.(phase := Quiet), t) && IdsOk(c.(phase := Quiet))
  {
    InvIds(c);
    SamePlaces(c, c.(phase := Quiet));
    hide Tells;
  }

  lemma ErrorTells(c: Conn, s: Step, t: Tale, u: Tale)
    requires Inv(c) && AllTold(c, t) && Continues(c, s, t, u) && s.StepErrorTail? && c.phase.InError?
    ensures AllTold(Next(c, s), u)
  {
    var id := c.phase.id;
    var k := IndexOf(c.requests, id);
    var b := c.(phase := Quiet);
    PhaseTells(c, t);
    ErrorContinues(c, s, t, u);
    hide Inv, AllTold, IdsOk, IndexOf, Complete, Continues, Rewrites, Take, WriteNext, CanSend, ReadOk, Tells;
    if k == |c.requests| {
      NotQueued(c, id);
      NothingTold(b, t, u, id);
    } else {
      TellsQueued(c, t, k);
      CallsTold(c, t, k);
      if c.requests[k].response.None? {
        ErrorTakes(c, s, k, t, u);
        if k == 0 {
          GivenCanSend(c, s);
          GivenIs(c, s);
          WriteTells(Take(b, 0, BadRequest), s.drained, u);
        }
      } else {
        ErrorMarks(c, k, t, u, s.drained);
      }
    }
  }

  lemma ErrorMarks(c: Conn, k: nat, t: Tale, u: Tale, drained: bool)
    requires c.phase.InError? && k == IndexOf(c.requests, c.phase.id) < |c.requests| && c.requests[k].response.Some?
    requires IdsOk(c.(phase := Quiet)) && AllTold(c.(phase := Quiet), t) && OnlyAt(t, u, c.phase.id)
    requires Tells(c.requests[k], t(c.phase.id)) && (k > 0 ==> !c.requests[k].written)
    requires u(c.phase.id) == if k == 0 then t(c.phase.id) else t(c.phase.id).(keepAlive := false)
    requires k == 0 ==> c.requests[k].written
    ensures AllTold(ErrorTail(c, drained), u)
  {
    hide AllTold, IdsOk, IndexOf;
    var d := ErrorTail(c, drained);
    assert Tells(d.requests[k], u(c.phase.id));
    RewriteTells(c.(phase := Quiet), d, k, t, u);
  }

  lemma SamePlaces(c: Conn, d: Conn)
    requires IdsOk(c) && d.requests == c.requests && d.departed == c.departed && d.nextId == c.nextId
    ensures IdsOk(d)
  {
    assert Places(d) == Places(c);
  }

  lemma ErrorTakes(c: Conn, s: Step, k: nat, t: Tale, u: Tale)
    requires Inv(c) && AllTold(c, t) && Continues(c, s, t, u) && s.StepErrorTail? && c.phase.InError?
    requires k < |c.requests| && c.requests[k].id == c.phase.id && c.requests[k].response.None?
    ensures AllTold(Take(c.(phase := Quiet), k, BadRequest), u)
  {
    TellsQueued(c, t, k);
    ErrorContinues(c, s, t, u);
    PhaseTells(c, t);
    var b := c.(phase := Quiet);
    hide Inv, AllTold, IdsOk, Complete, Continues;
    var d := Take(b, k, BadRequest);
    assert d.requests[k].calls == c.requests[k].calls + [d.requests[k].calls[|c.requests[k].calls|]];
    assert Tells(d.requests[k], u(c.phase.id));
    hide Tells, Adds;
    RewriteTells(b, d, k, t, u);
  }

  // ---------------------------------------------------------------- reading

  /** The request at the end of the queue takes the part that has been read, or a new request does. */
  ghost predicate TakesPart(c: Conn, d: Conn, t: Tale, u: Tale) {
    && d.departed == c.departed
    && if c.parsing.Some? then
         && c.requests != [] && |d.requests| == |c.requests| && d.requests == c.requests[|c.requests| - 1 := Back(d)]
         && Back(d).id == Back(c).id == c.parsing.value && Tells(Back(d), u(Back(c).id))
       else
         |d.requests| == |c.requests| + 1 && d.requests[..|c.requests|] == c.requests
         && Back(d).id == c.nextId && Tells(Back(d), u(c.nextId))
  }

  lemma PartTells(c: Conn, d: Conn, s: Step, t: Tale, u: Tale)
    requires Inv(c) && AllTold(c, t) && Continues(c, s, t, u) && Reads(s) && TakesPart(c, d, t, u)
    requires c.parsing.Some? ==> c.parsing.value + 1 == c.nextId
    ensures AllTold(d, u)
  {
    InvIds(c);
    IdsBelow(c);
    PartContinues(c, s, t, u);
    hide Inv, AllTold, Tells, Continues, IdsOk, OnlyAt;
    if c.parsing.Some? {
      RewriteTells(c, d, |c.requests| - 1, t, u);
    } else {
      NewTells(c, d, t, u);
    }
  }

  lemma PartContinues(c: Conn, s: Step, t: Tale, u: Tale)
    requires Continues(c, s, t, u) && Reads(s) && (c.parsing.Some? ==> c.parsing.value + 1 == c.nextId)
    ensures OnlyAt(t, u, if c.parsing.Some? then c.parsing.value else c.nextId)
  {
  }

  lemma NewTells(c: Conn, d: Conn, t: Tale, u: Tale)
    requires AllTold(c, t) && TakesPart(c, d, t, u) && c.parsing.None? && OnlyAt(t, u, c.nextId)
    requires forall i :: 0 <= i < |c.requests| ==> c.requests[i].id < c.nextId
    requires forall i :: 0 <= i < |c.departed| ==> c.departed[i].request.id < c.nextId
    ensures AllTold(d, u)
  {
    hide Tells;
    forall i | 0 <= i < |d.requests| ensures Tells(d.requests[i], u(d.requests[i].id)) {
      if i < |c.requests| { assert d.requests[i] == c.requests[i]; }
    }
  }

  lemma IdsBelow(c: Conn)
    requires Inv(c)
    ensures forall i :: 0 <= i < |c.requests| ==> c.requests[i].id < c.nextId
    ensures forall i :: 0 <= i < |c.departed| ==> c.departed[i].request.id < c.nextId
  {
    hide RecordsOk, Shape, IdsOk, UpOk, WireOk, ScanOk, FrontOk, CloseOk, ReadOk;
  }

  /** The queue has room for the part: the request of the parser is at its end. */
  function Room(c: Conn, header: Header): (m: Conn)
    ensures m.requests != []
  {
    if c.parsing.Some? && c.requests != [] then c else c.(requests := c.requests + [NewRequest(c.nextId, header)])
  }

  /** The connection when the parser has returned a part, before its request is looked up. */
  function Counted(c: Conn, p: Parsed): Conn {
    c.(timer := false, nextId := if c.parsing.Some? then c.nextId else c.nextId + 1,
       parsing := if Ends(p) then None else Some(PartOf(c)))
  }

  /** The request that the part belongs to. */
  function PartOf(c: Conn): nat { if c.parsing.Some? then c.parsing.value else c.nextId }

  lemma ReceiveIs(c: Conn, p: Parsed)
    ensures var m := Admit(Counted(c, p), PartOf(c), p.header);
      m.requests != [] && Receive(c, p) == SetBack(m, Back(m).(done := Ends(p)))
  {
    ReceivedSome(c, p);
    hide SetBack;
  }

  lemma AdmitIs(c: Conn, id: nat, header: Header)
    ensures var m := Admit(c, id, header); m == c.(requests := m.requests)
  {
  }

  lemma RoomIs(c: Conn, p: Parsed)
    requires Inv(c) && Reading(c)
    ensures Receive(c, p).requests == SetBack(Room(c, p.header), Back(Room(c, p.header)).(done := Ends(p))).requests
    ensures Receive(c, p).departed == c.departed
    ensures c.parsing.Some? ==> c.requests != [] && Back(c).id == c.parsing.value
  {
    IdsBelow(c);
    ParserAtEnd(c);
    hide Inv, Receive, Reading, Admit, Ends, Room, SetBack;
    ReceiveIs(c, p);
    AdmitIs(Counted(c, p), PartOf(c), p.header);
    AdmitsRoom(c, Counted(c, p), p.header);
    SetBackOnly(Admit(Counted(c, p), PartOf(c), p.header), Room(c, p.header), Ends(p));
  }

  lemma AdmitsRoom(c: Conn, b: Conn, header: Header)
    requires b.requests == c.requests && (c.parsing.Some? ==> c.requests != [] && Back(c).id == c.parsing.value)
    requires c.parsing.None? ==> forall i :: 0 <= i < |c.requests| ==> c.requests[i].id < c.nextId
    ensures Admit(b, PartOf(c), header).requests == Room(c, header).requests
  {
  }

  lemma SetBackOnly(c: Conn, d: Conn, done: bool)
    requires c.requests == d.requests && c.requests != []
    ensures SetBack(c, Back(c).(done := done)).requests == SetBack(d, Back(d).(done := done)).requests
    ensures SetBack(c, Back(c).(done := done)).departed == c.departed
  {
  }

  lemma ParserAtEnd(c: Conn)
    requires Inv(c) && Reading(c)
    ensures c.parsing.Some? ==> c.requests != [] && Back(c).id == c.parsing.value
  {
    hide Core, FrontOk, CloseOk;
  }

  lemma RouteIs(c: Conn, p: Parsed)
    ensures var d := Receive(c, p);
      && d.requests != [] && Arrive(c, p).departed == d.departed
      && Arrive(c, p).requests ==
           if Seen(p, Back(d).header, |d.requests| - 1) then SetBack(d, Back(d).(routed := true)).requests else d.requests
  {
    ReceivedSome(c, p);
    hide Receive;
  }

  lemma ReceivedSome(c: Conn, p: Parsed)
    ensures Receive(c, p).requests != []
  {
  }

  lemma LastAgain(qs: seq<Request>, q: Request, seen: bool)
    requires qs != []
    ensures var n := |qs| - 1;
      var rs := qs[n := q];
      (if seen then rs[n := q.(routed := true)] else rs) == qs[n := q.(routed := q.routed || seen)]
  {
  }

  lemma ArriveQueue(c: Conn, p: Parsed)
    requires Inv(c) && Reading(c)
    ensures var m := Room(c, p.header);
      var q := Back(m);
      Arrive(c, p).departed == c.departed
      && Arrive(c, p).requests ==
           SetBack(m, q.(done := Ends(p), routed := q.routed || Seen(p, q.header, |m.requests| - 1))).requests
  {
    RoomIs(c, p);
    RouteIs(c, p);
    hide Inv, Room, Receive, Arrive, Seen;
    var m := Room(c, p.header);
    var q := Back(m);
    LastAgain(m.requests, q.(done := Ends(p)), Seen(p, q.header, |m.requests| - 1));
  }

  lemma ArriveTells(c: Conn, s: Step, t: Tale, u: Tale)
    requires Inv(c) && Newest(c) && Reading(c) && AllTold(c, t) && Continues(c, s, t, u) && s.StepArrive?
    ensures AllTold(Next(c, s), u)
  {
    ArriveQueue(c, s.parsed);
    RoomIs(c, s.parsed);
    var d := Arrive(c, s.parsed);
    assert c.parsing.Some? ==> c.parsing.value + 1 == c.nextId;
    RoomTakes(c, d, s, t, u);
    hide Inv, Newest, AllTold, Continues, Arrive, Room, TakesPart;
    PartTells(c, d, s, t, u);
  }

  lemma RoomTakes(c: Conn, d: Conn, s: Step, t: Tale, u: Tale)
    requires AllTold(c, t) && Continues(c, s, t, u) && s.StepArrive? && d.departed == c.departed
    requires c.parsing.Some? ==> c.parsing.value + 1 == c.nextId && c.requests != [] && Back(c).id == c.parsing.value
    requires var m := Room(c, s.parsed.header);
      var q := Back(m);
      d.requests == SetBack(m, q.(done := Ends(s.parsed), routed := q.routed || Seen(s.parsed, q.header, |m.requests| - 1))).requests
    ensures TakesPart(c, d, t, u)
  {
    hide Seen, Ends;
    if c.parsing.Some? {
      var id := c.parsing.value;
      assert Queued(c, id) && Tells(Back(c), t(id));
    }
  }

  lemma ReadErrorQueue(c: Conn, header: Header)
    requires Inv(c) && Reading(c)
    ensures var m := Room(c, header);
      var d := ReadError(c, header);
      && d.departed == c.departed && d.requests == SetBack(m, Back(m).(done := true)).requests
    ensures c.parsing.Some? ==> c.requests != [] && Back(c).id == c.parsing.value
  {
    hide RecordsOk, Shape, IdsOk, Order, UpOk, WireOk, ScanOk, FrontOk, CloseOk;
    if c.parsing.None? && c.requests != [] { assert c.requests[|c.requests| - 1].done; }
  }

  lemma ReadErrorTells(c: Conn, s: Step, t: Tale, u: Tale)
    requires Inv(c) && Newest(c) && Reading(c) && AllTold(c, t) && Continues(c, s, t, u) && s.StepReadError?
    ensures AllTold(Next(c, s), u)
  {
    ReadErrorQueue(c, s.header);
    var d := ReadError(c, s.header);
    assert c.parsing.Some? ==> c.parsing.value + 1 == c.nextId;
    ErrorRoomTakes(c, d, s, t, u);
    hide Inv, Newest, AllTold, Continues, ReadError, Room, TakesPart;
    PartTells(c, d, s, t, u);
  }

  lemma ErrorRoomTakes(c: Conn, d: Conn, s: Step, t: Tale, u: Tale)
    requires AllTold(c, t) && Continues(c, s, t, u) && s.StepReadError? && d.departed == c.departed
    requires c.parsing.Some? ==> c.parsing.value + 1 == c.nextId && c.requests != [] && Back(c).id == c.parsing.value
    requires var m := Room(c, s.header); d.requests == SetBack(m, Back(m).(done := true)).requests
    ensures TakesPart(c, d, t, u)
  {
    if c.parsing.Some? {
      var id := c.parsing.value;
      assert Queued(c, id) && Tells(Back(c), t(id));
    }
  }

  // ---------------------------------------------------------------- other steps

  lemma NothingElse(c: Conn, s: Step, t: Tale, u: Tale)
    requires AllTold(c, t) && Continues(c, s, t, u)
    requires !Reads(s) && !s.StepRespond? && !s.StepChunk? && !s.StepFinal? && !s.StepEnablePartial? && !s.StepErrorTail?
    ensures AllTold(c, u)
  {
    assert forall id: nat :: u(id) == t(id);
    SameTells(c, t, u);
  }

  lemma {:induction false} TailTells(c: Conn, drained: bool, t: Tale)
    requires Inv(c) && AllTold(c, t) && c.phase.InLoop?
    ensures AllTold(Tail(c, drained), t)
  {
    PhaseTells(c, t);
    var s := StepTail(drained);
    if EndsWaiting(c, s) {
      assert |c.requests| == 1 && c.requests[0].done;
      hide Inv;
      var b := c.(phase := Quiet);
      DepartTells(b, t);
      DownTells(Depart(b, Answered), t);
      hide Tells;
    } else {
      hide Inv, Tells, Finish;
    }
  }

  lemma {:induction false} OtherTells(c: Conn, s: Step, t: Tale)
    requires Inv(c) && AllTold(c, t) && Enabled(c, s) && !ReadingStep(s) && (!Answering(s) || s.StepContinue?)
    ensures AllTold(Next(c, s), t)
  {
    hide Inv, Tells, Drops;
    DownTells(c, t);
    match s
    case StepIdle => DownTells(c.(timer := false), t);
    case StepUpgrade(id) => UpgradeTells(c, id, t);
    case StepGracefulStop =>
    case _ => hide DropAll, Shutdown, Close;
  }

  lemma UpgradeTells(c: Conn, id: nat, t: Tale)
    requires AllTold(c, t)
    ensures AllTold(UpgradeRequest(c, id).0, t)
  {
    hide Tells, IndexOf;
  }

  lemma {:induction false} StepTells(c: Conn, s: Step, t: Tale, u: Tale)
    requires Inv(c) && Newest(c) && Enabled(c, s) && AllTold(c, t) && Continues(c, s, t, u)
    ensures AllTold(Next(c, s), u)
  {
    hide Inv, Newest, AllTold, Continues, Next;
    match s
    case StepArrive(p) => ArriveTells(c, s, t, u);
    case StepReadError(header) => ReadErrorTells(c, s, t, u);
    case StepErrorTail(drained) => ErrorTells(c, s, t, u);
    case StepRespond(id, r, drained) => RespondTells(c, s, t, u);
    case StepChunk(id, text) => ChunkTells(c, s, t, u);
    case StepFinal(id, text, drained) => FinalTells(c, s, t, u);
    case StepEnablePartial(id) => PartialTells(c, s, t, u);
    case StepTail(drained) =>
      NothingElse(c, s, t, u);
      TailTells(c, drained, u);
      assert Next(c, s) == Tail(c, drained) by { TailIs(c, drained); }
    case _ =>
      NothingElse(c, s, t, u);
      OtherTells(c, s, u);
  }

  lemma TailIs(c: Conn, drained: bool)
    requires c.phase.InLoop?
    ensures Next(c, StepTail(drained)) == Tail(c, drained)
  {
  }

  // ---------------------------------------------------------------- over runs

  /** The number of requests begun is told by the steps, and so is whether the parser is in one. */
  lemma {:induction false} BegunIs(maxKeepAlive: nat, steps: seq<Step>)
    requires Legal(NewConn(maxKeepAlive), steps)
    ensures var c := Run(NewConn(maxKeepAlive), steps);
      c.nextId == Begun(steps) && (c.parsing.Some? <==> InProgress(steps))
  {
    if steps != [] {
      var before, s := steps[..|steps| - 1], steps[|steps| - 1];
      var c := Run(NewConn(maxKeepAlive), before);
      BegunIs(maxKeepAlive, before);
      RunKeeps(maxKeepAlive, before);
      hide Inv, Run, Legal, Next;
      assert Enabled(c, s) && Run(NewConn(maxKeepAlive), steps) == Next(c, s) by { LastStep(maxKeepAlive, steps); }
      NumberKeeps(c, s);
    }
  }

  lemma {:induction false} LastStep(maxKeepAlive: nat, steps: seq<Step>)
    requires Legal(NewConn(maxKeepAlive), steps) && steps != []
    ensures var c := Run(NewConn(maxKeepAlive), steps[..|steps| - 1]);
      Enabled(c, steps[|steps| - 1]) && Run(NewConn(maxKeepAlive), steps) == Next(c, steps[|steps| - 1])
  {
    hide Next, Enabled;
  }

  /** How many requests have been begun, and whether the parser is in one. */
  ghost predicate Numbers(c: Conn, s: Step, d: Conn) {
    && d.nextId == c.nextId + (if Reads(s) && c.parsing.None? then 1 else 0)
    && (d.parsing.Some? <==> match s
          case StepArrive(p) => !Ends(p)
          case StepReadError(_) => false
          case _ => c.parsing.Some?)
  }

  lemma {:induction false} NumberKeeps(c: Conn, s: Step)
    requires Inv(c) && Enabled(c, s)
    ensures Numbers(c, s, Next(c, s))
  {
    hide Numbers, Arrive, ReadError, Tail, ErrorTail;
    if Answering(s) {
      CallStays(c, s);
      hide Inv, Enabled, Next;
      CallNumbers(c, s);
    } else {
      match s
      case StepArrive(p) => NumberArrives(c, p);
      case StepReadError(header) => NumberError(c, header);
      case StepTail(drained) => NumberTail(c, drained);
      case StepErrorTail(drained) => NumberErrorTail(c, drained);
      case _ =>
        hide Inv, Enabled;
        NumberOther(c, s);
    }
  }

  lemma CallNumbers(c: Conn, s: Step)
    requires Answering(s) && Kept(c, Next(c, s))
    ensures Numbers(c, s, Next(c, s))
  {
    hide Next, Stays, StopsReceived;
  }

  lemma NumberArrives(c: Conn, p: Parsed)
    ensures Numbers(c, StepArrive(p), Arrive(c, p))
  {
    ReceiveIs(c, p);
    AdmitIs(Counted(c, p), PartOf(c), p.header);
    hide Admit, Receive, Ends;
    ArriveParser(c, p);
    hide Arrive;
  }

  lemma ArriveParser(c: Conn, p: Parsed)
    ensures Arrive(c, p).nextId == Receive(c, p).nextId && Arrive(c, p).parsing == Receive(c, p).parsing
  {
    ReceivedSome(c, p);
    hide Receive;
  }

  lemma NumberError(c: Conn, header: Header)
    requires Inv(c) && Reading(c)
    ensures Numbers(c, StepReadError(header), ReadError(c, header))
  {
    hide RecordsOk, Shape, IdsOk, Order, UpOk, WireOk, ScanOk, FrontOk, CloseOk;
    if c.parsing.None? && c.requests != [] { assert c.requests[|c.requests| - 1].done; }
  }

  lemma {:induction false} NumberTail(c: Conn, drained: bool)
    requires c.phase.InLoop?
    ensures Numbers(c, StepTail(drained), Tail(c, drained))
  {
    hide Finish;
    if c.requests != [] { FinishLeaves(c.(phase := Quiet), drained); }
  }

  lemma {:induction false} NumberErrorTail(c: Conn, drained: bool)
    requires c.phase.InError?
    ensures Numbers(c, StepErrorTail(drained), ErrorTail(c, drained))
  {
    var s := StepErrorTail(drained);
    hide WriteNext, IndexOf;
    if AnswersFront(c, s) {
      GivenIs(c, s);
      WriteNextLeaves(Given(c, s), drained);
      assert Given(c, s).nextId == c.nextId && Given(c, s).parsing == c.parsing;
      hide Given, ErrorTail;
    } else {
      NotFrontTail(c, drained);
    }
  }

  lemma NotFrontTail(c: Conn, drained: bool)
    requires c.phase.InError? && !AnswersFront(c, StepErrorTail(drained))
    ensures ErrorTail(c, drained).nextId == c.nextId && ErrorTail(c, drained).parsing == c.parsing
  {
    hide WriteNext, IndexOf, Taken;
  }

  lemma NumberOther(c: Conn, s: Step)
    requires !Answering(s) && !ReadingStep(s)
    ensures Numbers(c, s, Next(c, s))
  {
    hide IndexOf, Drops;
  }

  /** Over every run: the record of each request, queued or departed, is what the steps have told about it. Its
      header is that of its first part; it is received when its last part has been read; its calls are the
      accepted steps on it, in order and with their texts, the response changed only in that it is completed if
      it is whole and marked close if the connection is stopping; and its head says keep-alive exactly if its
      response may and its header does. */
  lemma {:induction false} RecordsAreTold(maxKeepAlive: nat, steps: seq<Step>)
    requires Legal(NewConn(maxKeepAlive), steps)
    ensures var c := Run(NewConn(maxKeepAlive), steps);
      && c.nextId == Begun(steps)
      && forall q :: q in History(c) ==> Tells(q, Told(NewConn(maxKeepAlive), steps, q.id))
  {
    hide Legal, Run, Told, Tells, AllTold;
    TaleIs(maxKeepAlive, steps);
    BegunIs(maxKeepAlive, steps);
    TellsHistory(Run(NewConn(maxKeepAlive), steps), (id: nat) => Told(NewConn(maxKeepAlive), steps, id));
  }

  lemma TellsHistory(c: Conn, t: Tale)
    requires AllTold(c, t)
    ensures forall q :: q in History(c) ==> Tells(q, t(q.id))
  {
    hide Tells;
    var n := |c.departed|;
    forall q | q in History(c) ensures Tells(q, t(q.id)) {
      var i :| 0 <= i < |History(c)| && History(c)[i] == q;
      if i < n { assert q == c.departed[i].request; } else { assert q == c.requests[i - n]; }
    }
  }

  lemma {:induction false} TaleIs(maxKeepAlive: nat, steps: seq<Step>)
    requires Legal(NewConn(maxKeepAlive), steps)
    ensures AllTold(Run(NewConn(maxKeepAlive), steps), (id: nat) => Told(NewConn(maxKeepAlive), steps, id))
  {
    var init := NewConn(maxKeepAlive);
    if steps != [] {
      var before, s := steps[..|steps| - 1], steps[|steps| - 1];
      var t: Tale := (id: nat) => Told(init, before, id);
      var u: Tale := (id: nat) => Told(init, steps, id);
      var c := Run(init, before);
      TaleIs(maxKeepAlive, before);
      RunKeeps(maxKeepAlive, before);
      RunKeepsNewest(maxKeepAlive, before);
      BegunIs(maxKeepAlive, before);
      LastStep(maxKeepAlive, steps);
      assert Continues(c, s, t, u);
      hide Inv, Newest, Legal, Run, Next, Enabled, AllTold, Continues;
      StepTells(c, s, t, u);
    }
  }

  // ---------------------------------------------------------------- the text of a response

  /** The body that a reader of these frames gets. */
  function TextOn(frames: seq<Frame>): string {
    if frames == [] then ""
    else
      TextOn(frames[..|frames| - 1]) +
      match frames[|frames| - 1]
      case Body(_, text) => text
      case Chunk(_, text) => text
      case Final(_, text) => text
      case _ => ""
  }

  function AllOf(parts: seq<Piece>): string {
    if parts == [] then "" else AllOf(parts[..|parts| - 1]) + parts[|parts| - 1]
  }

  /** The body that the calls have given. */
  function Spoken(calls: seq<Call>): string {
    if calls == [] then ""
    else
      Spoken(calls[..|calls| - 1]) +
      match calls[|calls| - 1]
      case Respond(r) => AllOf(r.parts)
      case SendChunk(text) => text
      case SendFinal(text, _) => text
  }

  /** The text of a last chunk that has been given too early. */
  function LostText(calls: seq<Call>): string {
    if calls != [] && calls[|calls| - 1].SendFinal? && !calls[|calls| - 1].atFront then calls[|calls| - 1].text else ""
  }

  lemma {:induction false} TextConcat(a: seq<Frame>, b: seq<Frame>)
    ensures TextOn(a + b) == TextOn(a) + TextOn(b)
  {
    if b == [] {
      assert a + b == a;
    } else {
      assert (a + b)[..|a + b| - 1] == a + b[..|b| - 1];
      TextConcat(a, b[..|b| - 1]);
    }
  }

  lemma TextOne(f: Frame)
    ensures TextOn([f]) == match f
      case Body(_, text) => text
      case Chunk(_, text) => text
      case Final(_, text) => text
      case _ => ""
  {
    assert [f][..0] == [];
  }

  lemma {:induction false} AllFirst(parts: seq<Piece>)
    requires parts != []
    ensures AllOf(parts) == parts[0] + AllOf(parts[1..])
  {
    if |parts| > 1 {
      AllFirst(parts[..|parts| - 1]);
      assert parts[..|parts| - 1][1..] == parts[1..][..|parts| - 2];
    } else {
      assert parts[1..] == [] && parts[..0] == [];
      assert AllOf([]) == "";
    }
  }

  lemma {:induction false} JoinIsAll(parts: seq<Piece>)
    ensures Join(parts) == AllOf(parts)
  {
    if parts != [] {
      AllFirst(parts);
      JoinIsAll(parts[1..]);
    }
  }

  lemma {:induction false} ChunksText(id: nat, parts: seq<Piece>)
    ensures TextOn(Chunks(id, parts)) == AllOf(parts)
  {
    if parts != [] {
      var before, last := parts[..|parts| - 1], Chunk(id, parts[|parts| - 1]);
      ChunksText(id, before);
      TextConcat(Chunks(id, before), [last]);
      TextOne(last);
    }
  }

  lemma VectorText(id: nat, keepAlive: bool, r: Response)
    ensures TextOn(ToVector(id, keepAlive, r)) == AllOf(r.parts)
  {
    var v := ToVector(id, keepAlive, r);
    var head := v[0];
    TextOne(head);
    if !r.chunked {
      var body := Frame.Body(id, Join(r.parts));
      assert v == [head] + [body];
      TextConcat([head], [body]);
      TextOne(body);
      JoinIsAll(r.parts);
    } else if r.parts == [] {
      assert v == [head];
    } else {
      var chunks, last := Chunks(id, r.parts), Final(id, "");
      assert v == ([head] + chunks) + [last];
      TextConcat([head], chunks);
      TextConcat([head] + chunks, [last]);
      ChunksText(id, r.parts);
      TextOne(last);
    }
  }

  function SpokenBy(call: Call): string {
    match call
    case Respond(r) => AllOf(r.parts)
    case SendChunk(text) => text
    case SendFinal(text, _) => text
  }

  lemma FramesText(id: nat, keepAlive: bool, before: seq<Call>, call: Call)
    ensures TextOn(DeliveredFrames(id, keepAlive, before, call)) + LostText(before + [call]) == SpokenBy(call)
  {
    var frames := DeliveredFrames(id, keepAlive, before, call);
    assert (before + [call])[|before + [call]| - 1] == call;
    assert TextOn([]) == "";
    match call
    case Respond(r) =>
      VectorText(id, keepAlive, r);
      hide ToVector;
    case SendChunk(text) => TextOne(Chunk(id, text));
    case SendFinal(text, atFront) => if frames != [] { TextOne(frames[0]); }
  }

  /** What is delivered is what has been said, but for the text of a last chunk that came too early. */
  lemma {:induction false} TextDelivered(id: nat, keepAlive: bool, calls: seq<Call>)
    requires Accepted(calls)
    ensures TextOn(Delivered(id, keepAlive, calls)) + LostText(calls) == Spoken(calls)
  {
    if calls == [] {
      assert TextOn([]) == "";
    } else {
      var before, last := calls[..|calls| - 1], calls[|calls| - 1];
      hide Accepted, DeliveredFrames, SpokenBy, Complete, LostText, TextOn;
      NotLostYet(calls);
      TextDelivered(id, keepAlive, before);
      FramesText(id, keepAlive, before, last);
      var said, frames := Delivered(id, keepAlive, before), DeliveredFrames(id, keepAlive, before, last);
      TextConcat(said, frames);
      assert Delivered(id, keepAlive, calls) == said + frames;
      Regroup(TextOn(said), TextOn(frames), LostText(calls), Spoken(before), SpokenBy(last));
      assert SpokenBy(last) == SpokenBy(calls[|calls| - 1]);
      assert Spoken(calls) == Spoken(before) + SpokenBy(last) by { SpokenSnoc(calls); }
    }
  }

  lemma NotLostYet(calls: seq<Call>)
    requires Accepted(calls) && calls != []
    ensures var before := calls[..|calls| - 1];
      Accepted(before) && LostText(before) == "" && before + [calls[|calls| - 1]] == calls
  {
    AcceptedHead(calls);
    var before := calls[..|calls| - 1];
    if before != [] { assert before[|before| - 1] == calls[|calls| - 2]; }
  }

  lemma {:induction false} SpokenSnoc(calls: seq<Call>)
    requires calls != []
    ensures Spoken(calls) == Spoken(calls[..|calls| - 1]) + SpokenBy(calls[|calls| - 1])
  {
  }

  lemma Regroup(a: string, b: string, lost: string, said: string, more: string)
    requires a + "" == said && b + lost == more
    ensures a + b + lost == said + more
  {
    assert a + "" == a;
    assert a + b + lost == a + (b + lost);
  }

  lemma {:induction false} DeliveredStarts(id: nat, keepAlive: bool, calls: seq<Call>)
    requires Accepted(calls) && calls != []
    ensures calls[0].Respond?
    ensures var r := calls[0].response;
      var frames := Delivered(id, keepAlive, calls);
      && frames != [] && frames[0] == Head(id, if r.code == 0 then 200 else r.code, keepAlive, r.chunked)
      && (Complete(calls) && !Unterminated(calls) ==> frames[|frames| - 1].Body? || frames[|frames| - 1].Final?)
  {
    AcceptedHead(calls);
    var before, last := calls[..|calls| - 1], calls[|calls| - 1];
    if before != [] {
      DeliveredStarts(id, keepAlive, before);
      assert before[0] == calls[0];
    }
  }

  /** Over every run: on the wire there is of each request that has been written a head with the code of its
      response (200 if it has none), the keep-alive mark and the encoding, and then the body that the accepted
      steps on it have given, in order; only the text of a last chunk that came too early is missing. */
  lemma {:induction false} WireIsTold(maxKeepAlive: nat, steps: seq<Step>, q: Request)
    requires Legal(NewConn(maxKeepAlive), steps)
    requires q in History(Run(NewConn(maxKeepAlive), steps)) && q.written
    ensures var told := Told(NewConn(maxKeepAlive), steps, q.id);
      var frames := Of(Run(NewConn(maxKeepAlive), steps).wire, q.id);
      && told.calls != [] && told.calls[0].Respond? && frames != []
      && var r := told.calls[0].response;
         && frames[0] == Head(q.id, if r.code == 0 then 200 else r.code, told.keepAlive && told.header.keepAlive, r.chunked)
         && TextOn(frames) + LostText(told.calls) == Spoken(told.calls)
         && (Complete(told.calls) && !Unterminated(told.calls) ==>
               frames[|frames| - 1].Body? || frames[|frames| - 1].Final?)
  {
    RecordsAreTold(maxKeepAlive, steps);
    RunKeeps(maxKeepAlive, steps);
    var c := Run(NewConn(maxKeepAlive), steps);
    OnWire(c, q);
    hide Legal, Run, Told, Inv, RequestOk, Of, TextOn, Spoken, LostText;
    TextDelivered(q.id, q.headKeepAlive, q.calls);
    DeliveredStarts(q.id, q.headKeepAlive, q.calls);
  }

  lemma OnWire(c: Conn, q: Request)
    requires Inv(c) && q in History(c) && q.written
    ensures Of(c.wire, q.id) == Delivered(q.id, q.headKeepAlive, q.calls) && Accepted(q.calls) && q.calls != []
  {
    OfHistory(c, q);
    HistoryOk(c);
    hide Of, Shape, Order, IdsOk, UpOk, WireOk, ScanOk, FrontOk, CloseOk, ReadOk;
  }

  /** The wire of a server that answers one request at a time, told by the steps: `qs` says only which requests were
      written, and in which order. */
  function ToldWire(init: Conn, steps: seq<Step>, qs: seq<Request>): seq<Frame> {
    if qs == [] then []
    else
      var q := qs[|qs| - 1];
      var told := Told(init, steps, q.id);
      ToldWire(init, steps, qs[..|qs| - 1])
        + if q.written then Serial(q.id, told.keepAlive && told.header.keepAlive, told.calls) else []
  }

  lemma {:induction false} ToldIsSerial(init: Conn, steps: seq<Step>, qs: seq<Request>)
    requires forall q :: q in qs ==> Tells(q, Told(init, steps, q.id))
    ensures ToldWire(init, steps, qs) == SerialWire(qs)
  {
    hide Told;
    if qs != [] {
      assert qs[|qs| - 1] in qs;
      ToldIsSerial(init, steps, qs[..|qs| - 1]);
    }
  }

  /** Over every run: the response frames on the wire are those of a server that answers one request after the
      other with what the steps have given for each, if and only if no response that was written got its last
      chunk too early. */
  lemma {:induction false} ServesWhatIsTold(maxKeepAlive: nat, steps: seq<Step>)
    requires Legal(NewConn(maxKeepAlive), steps)
    ensures var c := Run(NewConn(maxKeepAlive), steps);
      && (Strip(c.wire) == ToldWire(NewConn(maxKeepAlive), steps, History(c)) <==>
            forall q :: q in History(c) && q.written ==> !Lossy(Told(NewConn(maxKeepAlive), steps, q.id).calls))
      && InArrivalOrder(History(c))
  {
    RecordsAreTold(maxKeepAlive, steps);
    WireIsSerial(maxKeepAlive, steps);
    hide Legal, Run, Told, Strip, Lossy;
    ToldIsSerial(NewConn(maxKeepAlive), steps, History(Run(NewConn(maxKeepAlive), steps)));
  }
}

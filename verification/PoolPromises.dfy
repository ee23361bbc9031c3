/** What users of a pool can rely on, and where the code departs from it. */
module PoolPromises {
  import opened Options
  import opened Pooling
  import opened PoolInvariant
  import opened PoolSteps
  import opened PoolRequests
  import opened PoolRuns
  import opened PoolAccount

  function Reached(idleTimeout: nat, maxConnections: nat, steps: seq<Step>): PoolState {
    Run(NewPool(idleTimeout, maxConnections), steps)
  }

  // ---------------------------------------------------------------- conservation

  ghost predicate ActiveOn(s: PoolState, r: nat, c: nat) {
    c in s.clients && r in s.requests && s.clients[c].request == Some(r) && s.requests[r].client == Some(c)
  }

  ghost predicate WaitsAt(s: PoolState, r: nat, k: NetLoc, i: nat) {
    k in s.rows && i < |s.rows[k].queue| && s.rows[k].queue[i] == r
  }

  lemma WaitingPlace(s: PoolState, r: nat, k: NetLoc, i: nat)
    requires Inv(s) && WaitsAt(s, r, k, i)
    ensures r in s.requests && s.requests[r].client.None? && k == NetLocOf(s.requests[r]) && Queued(s, r)
  {
    hide RequestsOk, LinksOk, PlacesOk, HomesOk, RowsOk, OrderOk, NetLocOf, Startable, SizesOk;
    RowParts(s, k, map[], {});
    assert WaitingOk(s, k, s.rows[k].queue[i], {});
  }

  lemma WaitsOnce(s: PoolState, r: nat, k: NetLoc, i: nat, j: nat)
    requires Inv(s) && WaitsAt(s, r, k, i) && WaitsAt(s, r, k, j)
    ensures i == j
  {
    hide RequestsOk, LinksOk, PlacesOk, HomesOk, RowsOk, OrderOk, SizesOk;
    RowParts(s, k, map[], {});
  }

  lemma ActivePlace(s: PoolState, r: nat, c: nat)
    requires Inv(s) && c in s.clients && s.clients[c].request == Some(r)
    ensures ActiveOn(s, r, c)
  {
    hide RequestsOk, PlacesOk, HomesOk, RowsOk, OrderOk;
  }

  /** The places of a request. */
  datatype Place = On(client: nat) | At(dest: NetLoc, position: nat)

  ghost predicate IsAt(s: PoolState, r: nat, p: Place) {
    match p
    case On(c) => c in s.clients && s.clients[c].request == Some(r)
    case At(k, i) => WaitsAt(s, r, k, i)
  }

  lemma NotLiveNowhere(s: PoolState, r: nat, p: Place)
    requires Inv(s) && IsAt(s, r, p)
    ensures r in s.requests && Live(s, r)
    ensures p.On? ==> s.requests[r].client == Some(p.client)
    ensures p.At? ==> s.requests[r].client.None? && p.dest == NetLocOf(s.requests[r])
  {
    hide Inv, NetLocOf;
    match p
    case On(c) => ActivePlace(s, r, c);
    case At(k, i) => WaitingPlace(s, r, k, i);
  }

  lemma PlacesAgree(s: PoolState, r: nat, p: Place, q: Place)
    requires Inv(s) && IsAt(s, r, p) && IsAt(s, r, q)
    ensures p == q
  {
    NotLiveNowhere(s, r, p);
    NotLiveNowhere(s, r, q);
    hide Inv, NetLocOf;
    if p.At? && q.At? { WaitsOnce(s, r, p.dest, p.position, q.position); }
  }

  lemma LiveSomewhere(s: PoolState, r: nat) returns (p: Place)
    requires Inv(s) && r in s.requests && Live(s, r)
    ensures IsAt(s, r, p)
  {
    LiveIs(s, r);
    hide Inv, NetLocOf, Active;
    if s.requests[r].client.Some? {
      p := On(s.requests[r].client.value);
    } else {
      p := At(NetLocOf(s.requests[r]), Find(s.rows[NetLocOf(s.requests[r])].queue, r));
    }
  }

  /** Conservation, over every run: each submission of a request has been answered by one
      response_event or is in progress; a request in progress is in exactly one place, once in one
      queue or on one client that it points back to; one that is not is nowhere. */
  lemma {:induction false} OnePlace(idleTimeout: nat, maxConnections: nat, steps: seq<Step>, r: nat)
    requires Legal(NewPool(idleTimeout, maxConnections), steps)
    requires r in Reached(idleTimeout, maxConnections, steps).requests
    ensures var s := Reached(idleTimeout, maxConnections, steps);
      var q := s.requests[r];
      && q.life.accepted == |q.life.verdicts| + (if Live(s, r) then 1 else 0)
      && (Live(s, r) <==> exists p :: IsAt(s, r, p))
      && (forall p, p' :: IsAt(s, r, p) && IsAt(s, r, p') ==> p == p')
      && (forall p :: IsAt(s, r, p) ==> q.client == if p.On? then Some(p.client) else None)
  {
    var s := Reached(idleTimeout, maxConnections, steps);
    RunKeeps(idleTimeout, maxConnections, steps);
    hide Inv, Legal, Run, Live, IsAt, NetLocOf;
    AccountOf(s, r);
    if Live(s, r) { var p := LiveSomewhere(s, r); }
    forall p | IsAt(s, r, p) ensures Live(s, r) && s.requests[r].client == if p.On? then Some(p.client) else None {
      NotLiveNowhere(s, r, p);
    }
    forall p, p' | IsAt(s, r, p) && IsAt(s, r, p') ensures p == p' { PlacesAgree(s, r, p, p'); }
  }

  // ---------------------------------------------------------------- rows

  /** The clients of one destination. */
  ghost predicate RowPromise(s: PoolState, k: NetLoc, row: Row) {
    && row.free !! row.busy
    && |row.free| + |row.busy| <= Cap(s)
    && (row.queue != [] ==> row.free == {} && row.busy != {} && |row.busy| >= s.maxConnections)
    && (forall c :: c in row.free ==> c in s.clients && s.clients[c].netloc == k && s.clients[c].request.None?)
    && (forall c :: c in row.busy ==> c in s.clients && s.clients[c].netloc == k && s.clients[c].request.Some?)
    && (forall c :: c in s.clients && s.clients[c].netloc == k && s.clients[c].pooled && s.clients[c].request.Some? ==>
          c in row.busy)
  }

  lemma RowIsPromised(s: PoolState, k: NetLoc)
    requires Inv(s) && k in s.rows
    ensures RowPromise(s, k, s.rows[k])
  {
    hide RequestsOk, LinksOk, PlacesOk, RowsOk, OrderOk, WaitingOk, NoTwice;
    RowParts(s, k, map[], {});
    var row := s.rows[k];
    forall c | c in row.free ensures c in s.clients && s.clients[c].netloc == k && s.clients[c].request.None? {
      assert FreeOk(s, k, c, map[]);
    }
    forall c | c in row.busy ensures c in s.clients && s.clients[c].netloc == k && s.clients[c].request.Some? {
      assert BusyOk(s, k, c, map[]);
    }
  }

  lemma NotBroken(s: PoolState)
    requires Inv(s)
    ensures !s.broken
  {
  }

  /** Rows, over every run: the free and the busy clients of a destination are apart, no more than
      allowed and all at that destination, busy means having a request, and requests wait only while
      all clients that are allowed are busy. No assertion fails on the way, and no exception leaves a
      handler. */
  lemma {:induction false} RowsHold(idleTimeout: nat, maxConnections: nat, steps: seq<Step>)
    requires Legal(NewPool(idleTimeout, maxConnections), steps)
    ensures var s := Reached(idleTimeout, maxConnections, steps);
      !s.broken && forall k :: k in s.rows ==> RowPromise(s, k, s.rows[k])
  {
    var s := Reached(idleTimeout, maxConnections, steps);
    RunKeeps(idleTimeout, maxConnections, steps);
    NotBroken(s);
    hide Inv, Legal, Run, RowPromise;
    forall k | k in s.rows ensures RowPromise(s, k, s.rows[k]) { RowIsPromised(s, k); }
  }

  // ---------------------------------------------------------------- order

  /** No overtaking, over every run: the pool has started requests for one destination in the order in
      which it was asked to, and every request that waits there was asked for after all of them. */
  lemma {:induction false} StartedInOrder(idleTimeout: nat, maxConnections: nat, steps: seq<Step>)
    requires Legal(NewPool(idleTimeout, maxConnections), steps)
    ensures var s := Reached(idleTimeout, maxConnections, steps);
      && (forall i, j :: 0 <= i < j < |s.started| && s.started[i].dest == s.started[j].dest ==>
            s.started[i].ticket < s.started[j].ticket)
      && (forall i, r :: 0 <= i < |s.started| && Queued(s, r) && s.started[i].dest == NetLocOf(s.requests[r]) ==>
            s.started[i].ticket < s.requests[r].life.ticket)
  {
    var s := Reached(idleTimeout, maxConnections, steps);
    RunKeeps(idleTimeout, maxConnections, steps);
    InOrder(s);
    hide *;
  }

  lemma InOrder(s: PoolState)
    requires Inv(s)
    ensures forall i, j :: 0 <= i < j < |s.started| && s.started[i].dest == s.started[j].dest ==>
      s.started[i].ticket < s.started[j].ticket
    ensures forall i, r :: 0 <= i < |s.started| && Queued(s, r) && s.started[i].dest == NetLocOf(s.requests[r]) ==>
      s.started[i].ticket < s.requests[r].life.ticket
  {
    hide RequestsOk, LinksOk, PlacesOk, HomesOk, RowsOk, NetLocOf;
    forall i, r | 0 <= i < |s.started| && Queued(s, r) && s.started[i].dest == NetLocOf(s.requests[r])
      ensures s.started[i].ticket < s.requests[r].life.ticket
    {
      assert QueueOrdered(s, NetLocOf(s.requests[r]), s.rows[NetLocOf(s.requests[r])].queue);
    }
  }

  // ---------------------------------------------------------------- redirects and deadlines

  /** Over every run: a request in progress has followed no more redirects than its limit, if that is
      below 65535, and its counter tells how many; the counter of one that is not is zero again. It has
      one deadline, its timeout after the submission, wherever it is and however often it was
      redirected; one that is not in progress has no running timer. */
  lemma {:induction false} RedirectsAndDeadlines(idleTimeout: nat, maxConnections: nat, steps: seq<Step>, r: nat)
    requires Legal(NewPool(idleTimeout, maxConnections), steps)
    requires r in Reached(idleTimeout, maxConnections, steps).requests
    ensures var s := Reached(idleTimeout, maxConnections, steps);
      var q := s.requests[r];
      if Live(s, r) then
        && (q.settings.redirectionLimit < 0xFFFF ==> q.counter == q.life.hops <= q.settings.redirectionLimit)
        && (q.settings.timeout > 0 ==> q.timer == Some(Timer(q.life.acceptedAt + q.settings.timeout, true, true)))
      else
        q.counter == 0 && (q.timer.Some? ==> !q.timer.value.active && !q.timer.value.listening)
  {
    RunKeeps(idleTimeout, maxConnections, steps);
    var s := Reached(idleTimeout, maxConnections, steps);
    LedgerOf(s, r);
    hide *;
  }

  lemma LedgerOf(s: PoolState, r: nat)
    requires Inv(s) && r in s.requests
    ensures var q := s.requests[r];
      if Live(s, r) then
        && (q.settings.redirectionLimit < 0xFFFF ==> q.counter == q.life.hops <= q.settings.redirectionLimit)
        && (q.settings.timeout > 0 ==> q.timer == Some(Timer(q.life.acceptedAt + q.settings.timeout, true, true)))
      else
        q.counter == 0 && (q.timer.Some? ==> !q.timer.value.active && !q.timer.value.listening)
  {
    hide LinksOk, PlacesOk, HomesOk, RowsOk, OrderOk, Live;
  }

  /** A request that has used up its redirects follows no further one, unless its limit is 65535: the
      counter is a uint16_t, which starts again at zero. */
  lemma LimitRefusesIff(s: PoolState, c: nat, m: Message)
    requires Inv(s) && Active(s, c) && IsRedirect(m.code) && m.location.Some? && m.callback.Follow?
    requires var q := s.requests[s.clients[c].request.value];
      q.settings.followRedirect && q.life.hops == q.settings.redirectionLimit
    ensures var q := s.requests[s.clients[c].request.value];
      !Follows(q, m) <==> q.settings.redirectionLimit < 0xFFFF
  {
    ActiveIs(s, c);
    hide Inv, Startable, NetLocOf;
  }

  /** A refused redirect ends the request with an error. */
  lemma RefusedIsTold(s: PoolState, c: nat, m: Message)
    requires Inv(s) && Active(s, c) && IsRedirect(m.code)
    requires var q := s.requests[s.clients[c].request.value]; q.settings.followRedirect && !Follows(q, m)
    ensures var r := s.clients[c].request.value;
      var q := s.requests[r];
      var d := AnalyzeOn(s, c, m);
      && r in d.requests && !Live(d, r)
      && d.requests[r].life.verdicts == q.life.verdicts +
        [Failed(if q.settings.redirectionLimit == 0 then UnexpectedRedirect
                else if Increment(q.counter) > q.settings.redirectionLimit then RedirectionLimit
                else if m.location.None? then NoRedirectUri
                else m.callback.error)]
  {
    hide Inv, FinishOn, Live;
    var r := s.clients[c].request.value;
    var q := s.requests[r];
    var n := q.(counter := Increment(q.counter));
    if q.settings.redirectionLimit == 0 {
      FinishSettles(s, c, q, Some(UnexpectedRedirect), false);
      assert SetRequest(s, r, q) == s;
    } else if Increment(q.counter) > q.settings.redirectionLimit {
      FinishSettles(s, c, n, Some(RedirectionLimit), false);
    } else if m.location.None? {
      FinishSettles(s, c, n, Some(NoRedirectUri), false);
    } else {
      FinishSettles(s, c, Redirected(q, m.location.value), Some(m.callback.error), false);
    }
  }

  // ---------------------------------------------------------------- the conditions are exact

  lemma GoodBusy(s: PoolState, k: NetLoc, c: nat)
    requires Inv(s) && k in s.rows && c in s.rows[k].busy && c in s.clients
    ensures s.clients[c].request.Some? && s.clients[c].netloc == k
  {
    hide RequestsOk, LinksOk, PlacesOk, HomesOk, OrderOk, SizesOk, FreeOk, WaitingOk, NoTwice;
    RowParts(s, k, map[], {});
    assert BusyOk(s, k, c, map[]);
  }

  lemma GoodQueue(s: PoolState, k: NetLoc, i: nat)
    requires Inv(s) && k in s.rows && i < |s.rows[k].queue| && s.rows[k].queue[i] in s.requests
    ensures var r := s.rows[k].queue[i];
      s.requests[r].client.None? && Startable(s.requests[r]) && r !in s.rows[k].queue[..i]
  {
    hide RequestsOk, LinksOk, PlacesOk, HomesOk, OrderOk, SizesOk, FreeOk, BusyOk, Startable, NetLocOf;
    RowParts(s, k, map[], {});
    assert WaitingOk(s, k, s.rows[k].queue[i], {});
  }

  lemma GoodKey(s: PoolState, k: NetLoc)
    requires Inv(s) && k in s.rows && k.proxy.Some?
    ensures k.proxy.value.scheme == "socks5"
  {
    hide RequestsOk, LinksOk, PlacesOk, HomesOk, OrderOk, FreeOk, BusyOk, WaitingOk, NoTwice;
    RowParts(s, k, map[], {});
  }

  /** What the pool has done with a request when it calls Client::request. */
  lemma LaunchLeaves(s: PoolState, k: NetLoc, c: nat, r: nat)
    requires c in s.clients && r in s.requests && s.clients[c].request.None? && s.requests[r].uri.host != ""
    ensures var d := Launch(s, k, c, r).0;
      && d.rows == s.rows && c in d.clients
      && (s.requests[r].client.Some? ==> d.clients[c].request.None?)
      && (s.requests[r].client.None? && !UnsupportedProxy(s.requests[r]) ==>
            d.clients[c].netloc == NetLocOf(s.requests[r].(uri := WithScheme(s.requests[r].uri))))
  {
    hide Sent;
  }

  lemma ChosenIs(s: PoolState, k: NetLoc, pick: nat, c: nat)
    requires Inv(s) && Pickable(s, k, pick) && Choose(s, k, pick) == Some(c)
    ensures var d := Take(s, k, pick);
      k in d.rows && c in d.rows[k].busy && c in d.clients && d.clients[c].request.None?
    ensures k in s.rows ==> s.rows[k].queue == []
  {
    hide RequestsOk, LinksOk, PlacesOk, HomesOk, RowsOk, OrderOk, BusyOk, WaitingOk, NoTwice;
    if k in s.rows {
      RowParts(s, k, map[], {});
      if s.rows[k].free != {} { assert FreeOk(s, k, pick, map[]); }
    }
  }

  /** A client that is taken for a request in progress, or for one that cannot be started. */
  lemma LaunchBreaks(d: PoolState, r: nat, k: NetLoc, c: nat)
    requires k in d.rows && c in d.rows[k].busy && c in d.clients && d.clients[c].request.None?
    requires r in d.requests && d.requests[r].uri.host != "" && NetLocOf(d.requests[r]) == k
    requires d.requests[r].client.Some? || !Startable(d.requests[r])
    ensures !Inv(Launch(d, k, c, r).0)
  {
    LaunchLeaves(d, k, c, r);
    hide Inv, Launch;
    var e := Launch(d, k, c, r).0;
    if d.requests[r].client.None? && UnsupportedProxy(d.requests[r]) {
      if Inv(e) { GoodKey(e, k); }
    } else {
      if Inv(e) { GoodBusy(e, k, c); }
    }
  }

  lemma WaitBreaks(d: PoolState, r: nat, k: NetLoc)
    requires k in d.rows && r in d.requests
    requires d.requests[r].client.Some? || !Startable(d.requests[r]) || r in d.rows[k].queue
    ensures !Inv(Enqueue(d, k, r))
  {
    var e := Enqueue(d, k, r);
    ArmSame(d.requests[r], d.now);
    StartableSame(d.requests[r], Arm(d.requests[r], d.now));
    hide Inv, Arm, Startable, NetLocOf;
    var before := d.rows[k].queue;
    assert e.rows[k].queue == before + [r] && e.rows[k].queue[..|before|] == before;
    if Inv(e) { GoodQueue(e, k, |before|); }
  }

  lemma StartableSame(q: Request, p: Request)
    requires p == q.(timer := p.timer)
    ensures Startable(p) == Startable(q)
  {
  }

  /** Submitting a request keeps the promises of the pool if and only if the request has a host, is not
      in progress and can be started; without a host it is refused and nothing changes. */
  lemma SubmitKeepsIff(s: PoolState, r: nat, pick: nat)
    requires Inv(s) && s.alive && r in s.requests && Pickable(s, NetLocOf(s.requests[r]), pick)
    ensures Inv(SubmitTo(s, r, pick).0) <==> Submittable(s, r)
  {
    if Submittable(s, r) {
      SubmitKeeps(s, r, pick);
    } else {
      SubmitBreaks(s, r, pick);
    }
  }

  /** The pool when it looks for a client for a submitted request. */
  function Marked(s: PoolState, r: nat): PoolState
    requires r in s.requests
  {
    var q := s.requests[r];
    Ticketed(SetRequest(s, r, q.(life := q.life.(accepted := q.life.accepted + 1, acceptedAt := s.now, hops := 0))), r)
  }

  /** Which client is taken depends on rows and clients only. */
  lemma TakeAlike(s: PoolState, t: PoolState, k: NetLoc, pick: nat)
    requires t.rows == s.rows && t.clients == s.clients
    requires t.nextClient == s.nextClient && t.maxConnections == s.maxConnections
    ensures Choose(t, k, pick) == Choose(s, k, pick) && Take(t, k, pick).requests == t.requests
    ensures Take(t, k, pick).rows == Take(s, k, pick).rows && Take(t, k, pick).clients == Take(s, k, pick).clients
  {
    if k !in s.rows {
    } else if s.rows[k].free != {} {
    } else if |s.rows[k].busy| < s.maxConnections {
    }
  }

  lemma MarkedIs(s: PoolState, r: nat, pick: nat)
    requires r in s.requests
    ensures var t := Marked(s, r);
      var k := NetLocOf(s.requests[r]);
      && NetLocOf(t.requests[r]) == k && Startable(t.requests[r]) == Startable(s.requests[r])
      && t.requests[r].client == s.requests[r].client && t.requests[r].uri == s.requests[r].uri
      && t.rows == s.rows && t.clients == s.clients && t.nextClient == s.nextClient
      && Choose(t, k, pick) == Choose(s, k, pick)
      && Take(t, k, pick).rows == Take(s, k, pick).rows && Take(t, k, pick).clients == Take(s, k, pick).clients
      && Take(t, k, pick).requests == t.requests
  {
    var q := s.requests[r];
    var p := Marked(s, r).requests[r];
    SubmittedSame(q, p);
    TakeAlike(s, Marked(s, r), NetLocOf(q), pick);
    hide NetLocOf, Startable, Take, Choose;
  }

  lemma RequestIs(s: PoolState, r: nat, pick: nat, k: NetLoc)
    requires r in s.requests && s.requests[r].uri.host != "" && k == NetLocOf(s.requests[r]) && Pickable(s, k, pick)
    ensures var t := Ticketed(s, r);
      && (Choose(t, k, pick).None? ==> k in t.rows)
      && (Choose(t, k, pick).Some? ==>
            Choose(t, k, pick).value in Take(t, k, pick).clients && r in Take(t, k, pick).requests)
      && PoolRequest(s, r, pick) == match Choose(t, k, pick)
           case None => (Enqueue(t, k, r), Ok)
           case Some(c) => Launch(Take(t, k, pick), k, c, r)
  {
    TicketedSame(s, r, k, pick);
    if Choose(Ticketed(s, r), k, pick).Some? { ChosenExists(Ticketed(s, r), k, pick); }
    TakeIsNothingElse(Ticketed(s, r), k, pick);
    hide NetLocOf, Launch, Take, Enqueue;
  }

  lemma SubmitIs(s: PoolState, r: nat, pick: nat, k: NetLoc)
    requires r in s.requests && s.requests[r].uri.host != "" && k == NetLocOf(s.requests[r]) && Pickable(s, k, pick)
    ensures var t := Marked(s, r);
      SubmitTo(s, r, pick) == match Choose(t, k, pick)
        case None => (Enqueue(t, k, r), Ok)
        case Some(c) => Launch(Take(t, k, pick), k, c, r)
  {
    var q := s.requests[r];
    var p := q.(life := q.life.(accepted := q.life.accepted + 1, acceptedAt := s.now, hops := 0));
    SubmittedSame(q, p);
    hide NetLocOf, Launch, Take, Enqueue, Choose, PoolRequest;
    RequestIs(SetRequest(s, r, p), r, pick, k);
  }

  lemma SubmitBreaks(s: PoolState, r: nat, pick: nat)
    requires Inv(s) && r in s.requests && Pickable(s, NetLocOf(s.requests[r]), pick) && !Submittable(s, r)
    ensures !Inv(SubmitTo(s, r, pick).0)
  {
    var k := NetLocOf(s.requests[r]);
    var t := Marked(s, r);
    MarkedIs(s, r, pick);
    SubmitIs(s, r, pick, k);
    hide Inv, Launch, Take, Enqueue, Startable, NetLocOf, Marked, SubmitTo, Choose, Pickable;
    match Choose(s, k, pick)
    case Some(c) =>
      ChosenIs(s, k, pick, c);
      LaunchBreaks(Take(t, k, pick), r, k, c);
    case None =>
      ChooseNone(s, k, pick);
      WaitBreaks(t, r, k);
  }

  lemma ChooseNone(s: PoolState, k: NetLoc, pick: nat)
    requires Choose(s, k, pick).None?
    ensures k in s.rows
  {
  }

  lemma SubmittedSame(p: Request, q: Request)
    requires q == p.(life := q.life, pooled := q.pooled)
    ensures NetLocOf(q) == NetLocOf(p) && Startable(q) == Startable(p)
  {
  }

  lemma HopStarted(s: PoolState, c: nat, location: Uri, m: Message, k: NetLoc)
    requires Inv(s) && Active(s, c) && Follows(s.requests[s.clients[c].request.value], m)
    requires k == NetLocOf(Hop(s.requests[s.clients[c].request.value], location, m))
    requires s.clients[c].pooled ==> !ElsewhereThan(k, s.clients[c].netloc)
    ensures var d := FollowOn(s, c, location, m);
      d.rows == s.rows && c in d.clients && d.clients[c].netloc == k
  {
    ActiveIs(s, c);
    hide Partial, LiveOk, Follows, LetHop, Hop, StartOn, NetLocOf, LimboOk, FollowOn;
    var cl := s.clients[c];
    var r := cl.request.value;
    var q := s.requests[r];
    HopAsks(q, location, m, s.now);
    LetHopShape(cl, q, m.keepAlive);
    var d := LetGo(s, c, LetHop(cl, q, m.keepAlive), r, Hop(q, location, m));
    StartShape(d, c, r);
    ClaimedPlace(d.requests[r], c, d.now);
    CarryingShape(d.clients[c], Claimed(d.requests[r], c), r);
    FollowHereIs(s, c, location, m);
  }

  lemma RedirectBreaks(s: PoolState, c: nat, location: Uri, m: Message, k: NetLoc)
    requires Inv(s) && Active(s, c) && Follows(s.requests[s.clients[c].request.value], m) && s.clients[c].pooled
    requires k == NetLocOf(Hop(s.requests[s.clients[c].request.value], location, m))
    requires !ElsewhereThan(k, s.clients[c].netloc) && k != s.clients[c].netloc
    ensures !Inv(FollowOn(s, c, location, m))
  {
    HopStarted(s, c, location, m, k);
    BusyAt(s, c);
    hide Inv, FollowOn, NetLocOf, Hop, Follows;
    var d := FollowOn(s, c, location, m);
    if Inv(d) { GoodBusy(d, s.clients[c].netloc, c); }
  }

  lemma FollowedIs(s: PoolState, c: nat, m: Message)
    requires Active(s, c) && Follows(s.requests[s.clients[c].request.value], m)
    ensures AnalyzeOn(s, c, m) == FollowOn(s, c, m.location.value, m)
  {
    hide FollowOn, CancelOn, FinishOn;
  }

  /** A redirect that a pooled client follows itself keeps the promises of the pool if and only if it
      keeps the SSL context, which analyze_request has cleared, or its destination is an HTTP proxy:
      otherwise the client is left in a row that is not that of its destination. */
  lemma RedirectKeepsIff(s: PoolState, c: nat, m: Message)
    requires Inv(s) && Enabled(s, Received(c, m)) && s.clients[c].pooled
    requires var q := s.requests[s.clients[c].request.value];
      Follows(q, m) && !ElsewhereThan(NetLocOf(Hop(q, m.location.value, m)), s.clients[c].netloc)
    ensures var q := s.requests[s.clients[c].request.value];
      Inv(AnalyzeOn(s, c, m)) <==> m.callback.sslCtx == q.sslCtx || HttpProxied(q)
  {
    var q := s.requests[s.clients[c].request.value];
    ActiveIs(s, c);
    FollowedIs(s, c, m);
    SamePlaceIff(q, m.location.value, m);
    hide Inv, FollowOn, NetLocOf, Hop, LiveOk, Startable, AnalyzeOn, HttpProxied, Pickable;
    var k := NetLocOf(Hop(q, m.location.value, m));
    if k == s.clients[c].netloc {
      FollowHereKeeps(s, c, m.location.value, m, k);
    } else {
      RedirectBreaks(s, c, m.location.value, m, k);
    }
  }

  lemma BusyAt(s: PoolState, c: nat)
    requires Inv(s) && c in s.clients && s.clients[c].pooled && s.clients[c].request.Some?
    ensures s.clients[c].netloc in s.rows && c in s.rows[s.clients[c].netloc].busy
  {
    hide RequestsOk, LinksOk, PlacesOk, RowsOk, OrderOk;
  }

  // ---------------------------------------------------------------- runs without conditions

  /** Steps that can be taken, whether or not the pool's conditions are met. */
  ghost predicate Possible(s: PoolState, steps: seq<Step>) {
    if steps == [] then true
    else
      && Possible(s, steps[..|steps| - 1])
      && Enabled(Run(s, steps[..|steps| - 1]), steps[|steps| - 1])
  }

  lemma {:induction false} RunOn(s: PoolState, steps: seq<Step>, step: Step)
    requires Possible(s, steps) && Enabled(Run(s, steps), step)
    ensures Possible(s, steps + [step]) && Run(s, steps + [step]) == Next(Run(s, steps), step)
  {
    hide Enabled, Next;
    var all := steps + [step];
    assert all[..|all| - 1] == steps && all[|all| - 1] == step;
  }

  // ---------------------------------------------------------------- sweeping

  lemma RemoveTimeIs(s: PoolState)
    requires s.now < WORD && s.idleTimeout < WORD
    ensures RemoveTime(s) == if s.now < s.idleTimeout then s.now - s.idleTimeout + WORD else s.now - s.idleTimeout
  {
  }

  lemma SweepLeaves(s: PoolState, k: NetLoc, c: nat)
    requires k in s.rows && c in s.rows[k].free
    ensures k in Sweep(s).rows && c in Sweep(s).rows[k].free <==> !Inactive(s, c)
  {
    hide Inactive;
    assert c in SweepRow(s, s.rows[k]).free <==> !Inactive(s, c);
  }

  /** A sweep closes a free connection if and only if it has been idle for longer than the idle timeout,
      or the loop's clock has not yet reached the idle timeout: the difference is unsigned. */
  lemma SweptIff(s: PoolState, k: NetLoc, c: nat)
    requires Inv(s) && k in s.rows && c in s.rows[k].free && c in s.clients
    requires s.clients[c].lastActivity <= s.now < 0x8000_0000_0000_0000 && s.idleTimeout < 0x1_0000_0000
    ensures !(k in Sweep(s).rows && c in Sweep(s).rows[k].free)
      <==> s.clients[c].lastActivity + s.idleTimeout < s.now || s.now < s.idleTimeout
  {
    RemoveTimeIs(s);
    SweepLeaves(s, k, c);
    hide Inv, Sweep, RemoveTime;
  }

  // ---------------------------------------------------------------- handing over

  lemma AskAfterPutback(s: PoolState, r: nat, pick: nat, c: nat, k: NetLoc)
    requires Partial(s, map[], {r}) && r in s.requests && NetLocOf(s.requests[r]) == k
    requires c in s.clients && s.clients[c].netloc != k && Pickable(s, k, pick)
    ensures var d := PoolRequest(SetClient(s, c, s.clients[c].(weak := true)), r, pick).0;
      c in d.clients && d.clients[c] == s.clients[c].(weak := true)
  {
    var cl := s.clients[c].(weak := true);
    var u := SetClient(s, c, cl);
    ClientFieldsKeep(s, c, cl, {r});
    PickableStays(s, u, k, pick);
    hide Partial, NetLocOf, Pickable, PoolRequest;
    AskElsewhere(u, r, pick, c, k);
  }

  /** The client of a redirect to another host or port starts the first request that waits for it, and
      is then made weak, as if it were idle: the loop does not wait for that request. */
  lemma HandoverIsWeakIff(s: PoolState, c: nat, m: Message)
    requires Inv(s) && Enabled(s, Received(c, m)) && s.clients[c].pooled
    requires var q := s.requests[s.clients[c].request.value];
      Follows(q, m) && ElsewhereThan(NetLocOf(Hop(q, m.location.value, m)), s.clients[c].netloc)
    ensures var d := AnalyzeOn(s, c, m);
      && c in d.clients
      && (d.clients[c].request.Some? && d.clients[c].weak
          <==> s.clients[c].netloc in s.rows && s.rows[s.clients[c].netloc].queue != [])
  {
    var r := s.clients[c].request.value;
    var location := m.location.value;
    var k := NetLocOf(Hop(s.requests[r], location, m));
    FollowedIs(s, c, m);
    FollowAwayIs(s, c, location, m);
    hide Inv, Partial, NetLocOf, Asks, Hop, PutBackForHop, PoolRequest, FollowOn, Follows, Pickable, AnalyzeOn;
    PutBackForHopKeeps(s, c, location, m);
    PutBackForHopClient(s, c, location, m);
    PutBackForHopRow(s, c, location, m, k);
    var t := PutBackForHop(s, c, location, m);
    PickableStays(s, t, k, m.pick);
    AskAfterPutback(t, r, m.pick, c, k);
  }

  lemma PutBackForHopClient(s: PoolState, c: nat, location: Uri, m: Message)
    requires Inv(s) && Active(s, c) && s.clients[c].pooled && Follows(s.requests[s.clients[c].request.value], m)
    requires m.callback.Follow?
    ensures var d := PutBackForHop(s, c, location, m);
      && c in d.clients && d.clients[c].netloc == s.clients[c].netloc
      && (d.clients[c].request.Some? <==> s.clients[c].netloc in s.rows && s.rows[s.clients[c].netloc].queue != [])
  {
    ActiveIs(s, c);
    hide Partial, NetLocOf, Startable, LiveOk, Asks, Hop, LetHop, Follows, Launch;
    var cl := s.clients[c];
    var r := cl.request.value;
    var q := s.requests[r];
    LetHopShape(cl, q, m.keepAlive);
    var went := LetHop(cl, q, m.keepAlive).(lastActivity := s.now);
    HopLetsGo(s, c, location, m, went);
    var s1 := LetGo(s, c, went, r, Hop(q, location, m));
    var k := cl.netloc;
    if s1.rows[k].queue != [] {
      PutbackStarts(s1, c, k, map[c := k], {r});
    } else {
      PutbackFreeKeeps(s1, c, k, map[c := k], {r});
    }
  }

  lemma PutbackStarts(s: PoolState, c: nat, k: NetLoc, holes: map<nat, NetLoc>, limbo: set<nat>)
    requires Partial(s, holes, limbo) && c in holes && c in s.clients && holes[c] == k == s.clients[c].netloc
    requires k in s.rows && s.rows[k].queue != []
    ensures var d := Putback(s, c); c in d.clients && d.clients[c].request.Some? && d.clients[c].netloc == k
  {
    hide RequestsOk, LinksOk, PlacesOk, RowsOk, OrderOk, Startable, NetLocOf, SizesOk, StartOn;
    var r := s.rows[k].queue[0];
    RowParts(s, k, holes, limbo);
    assert WaitingOk(s, k, r, limbo);
    var t := Logged(Popped(s, k), k, r);
    assert s.clients[c].request.None?;
    StartShape(t, c, r);
    ClaimedPlace(t.requests[r], c, t.now);
    CarryingShape(t.clients[c], Claimed(t.requests[r], c), r);
  }

  lemma LaunchLeavesOthers(s: PoolState, k: NetLoc, x: nat, r: nat, c: nat)
    requires x in s.clients && r in s.requests && c in s.clients && c != x
    ensures var d := Launch(s, k, x, r).0; c in d.clients && d.clients[c] == s.clients[c]
  {
    hide Sent, Carrying, NetLocOf, Reconnects;
  }

  lemma TakeLeavesOthers(s: PoolState, k: NetLoc, pick: nat, c: nat)
    requires c in s.clients && c < s.nextClient
    ensures var d := Take(s, k, pick); c in d.clients && d.clients[c] == s.clients[c]
  {
  }

  lemma ChosenIsOther(s: PoolState, k: NetLoc, pick: nat, c: nat, limbo: set<nat>)
    requires Partial(s, map[], limbo) && c in s.clients && s.clients[c].netloc != k && Pickable(s, k, pick)
    ensures c < s.nextClient && (Choose(s, k, pick).Some? ==> Choose(s, k, pick).value != c)
  {
    hide RequestsOk, PlacesOk, HomesOk, RowsOk, OrderOk, NetLocOf, Startable, SizesOk, BusyOk, WaitingOk;
    if k in s.rows && s.rows[k].free != {} {
      RowParts(s, k, map[], limbo);
      assert FreeOk(s, k, pick, map[]);
    }
  }

  /** Pool::request for another destination does not touch a client. */
  lemma AskElsewhere(s: PoolState, r: nat, pick: nat, c: nat, k: NetLoc)
    requires Partial(s, map[], {r}) && r in s.requests && NetLocOf(s.requests[r]) == k
    requires c in s.clients && s.clients[c].netloc != k && Pickable(s, k, pick)
    ensures var d := PoolRequest(s, r, pick).0; c in d.clients && d.clients[c] == s.clients[c]
  {
    ChosenIsOther(s, k, pick, c, {r});
    hide Partial, Startable, NetLocOf, Take, Launch, Pickable, Arm;
    if s.requests[r].uri.host != "" {
      var t := Ticketed(s, r);
      TicketedSame(s, r, k, pick);
      RequestIs(s, r, pick, k);
      hide PoolRequest, Choose;
      if Choose(t, k, pick).Some? {
        TakeLeavesOthers(t, k, pick, c);
        LaunchLeavesOthers(Take(t, k, pick), k, Choose(t, k, pick).value, r, c);
      }
    }
  }

  lemma ChosenExists(s: PoolState, k: NetLoc, pick: nat)
    requires Pickable(s, k, pick) && Choose(s, k, pick).Some?
    ensures Choose(s, k, pick).value in Take(s, k, pick).clients
  {
  }
}

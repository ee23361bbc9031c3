/** The connections of clients: who opens one, who else is served on it, and how long it lasts. */
module PoolConnections {
  import opened Options
  import opened Pooling
  import opened PoolInvariant
  import opened PoolSteps
  import opened PoolRequests
  import opened PoolRuns
  import opened PoolAccount
  import opened PoolPromises
  import opened PoolTargets

  // ---------------------------------------------------------------- what operations do to clients and requests

  function Was(s: PoolState, c: nat): Client { if c in s.clients then s.clients[c] else NewClient }

  /** Client `c`, idle before, carries request `r`; everything else is as before. */
  ghost predicate StartedOn(s: PoolState, d: PoolState, c: nat, r: nat) {
    && r in s.requests && s.requests[r].client.None? && Was(s, c).request.None? && d.now == s.now
    && d.clients == s.clients[c := Carrying(Was(s, c), Claimed(s.requests[r], c), r)]
    && d.requests == s.requests[r := Sent(Claimed(s.requests[r], c), s.now)]
  }

  lemma PutbackIs(s: PoolState, c: nat, holes: map<nat, NetLoc>, limbo: set<nat>)
    requires Partial(s, holes, limbo) && c in holes && c in s.clients && holes[c] == s.clients[c].netloc
    ensures var d := Putback(s, c);
      var k := s.clients[c].netloc;
      && k in s.rows && d.now == s.now
      && d.nextTicket == s.nextTicket
      && (s.rows[k].queue == [] ==> d.clients == s.clients && d.requests == s.requests && d.started == s.started)
      && (s.rows[k].queue != [] ==>
            s.rows[k].queue[0] !in limbo && StartedOn(s, d, c, s.rows[k].queue[0])
            && d.started == s.started + [Start(k, s.requests[s.rows[k].queue[0]].life.ticket)])
  {
    hide RequestsOk, LinksOk, PlacesOk, RowsOk, OrderOk, Startable, NetLocOf, SizesOk, StartOn, Sent, Carrying;
    HoleIsBusy(s, c, holes);
    var k := s.clients[c].netloc;
    if s.rows[k].queue == [] {
      PutbackFreeKeeps(s, c, k, holes, limbo);
    } else {
      var r := s.rows[k].queue[0];
      RowParts(s, k, holes, limbo);
      assert WaitingOk(s, k, r, limbo);
      var t := Logged(Popped(s, k), k, r);
      assert s.clients[c].request.None?;
      StartShape(t, c, r);
    }
  }

  lemma TicketedIs(s: PoolState, r: nat)
    requires r in s.requests
    ensures var t := Ticketed(s, r);
      && t.rows == s.rows && t.clients == s.clients && t.nextClient == s.nextClient
      && t.maxConnections == s.maxConnections && t.now == s.now
      && t.nextTicket == s.nextTicket + 1 && t.started == s.started
      && t.requests == s.requests[r := t.requests[r]]
      && t.requests[r] == s.requests[r].(pooled := true, life := s.requests[r].life.(ticket := s.nextTicket))
  {
  }

  /** What Pool::request has done: the request waits, or a client has been taken for it. */
  ghost predicate Requested(s: PoolState, d: PoolState, k: NetLoc, r: nat, pick: nat)
    requires r in s.requests
  {
    var t := Ticketed(s, r);
    match Choose(s, k, pick)
    case None =>
      && d.clients == s.clients && d.now == s.now && d.requests == t.requests[r := Arm(t.requests[r], s.now)]
      && d.nextTicket == s.nextTicket + 1 && d.started == s.started
    case Some(x) =>
      && StartedOn(t, d, x, r)
      && d.nextTicket == s.nextTicket + 1 && d.started == s.started + [Start(k, s.nextTicket)]
      && (x in s.clients || x == s.nextClient) && (k in s.rows && s.rows[k].free != {} ==> x == pick)
      && (x in s.clients ==> s.clients[x].netloc == k && s.clients[x].request.None?)
  }

  lemma PoolRequestIs(s: PoolState, r: nat, pick: nat, k: NetLoc)
    requires Partial(s, map[], {r}) && Asks(s, r, {r}) && k == NetLocOf(s.requests[r]) && Pickable(s, k, pick)
    ensures Requested(s, PoolRequest(s, r, pick).0, k, r, pick)
  {
    TicketedSame(s, r, k, pick);
    TicketedIs(s, r);
    hide Partial, NetLocOf, Launch, Take, Enqueue, Arm, Pickable, Choose, Startable, StartedOn, LimboOk, PoolRequest, Ticketed;
    RequestIs(s, r, pick, k);
    var t := Ticketed(s, r);
    match Choose(s, k, pick)
    case None => EnqueueIs(t, k, r);
    case Some(x) =>
      TakenIs(t, s, k, pick, x, r);
      MarkedStarts(s.requests[r], t.requests[r]);
      LaunchIs(Take(t, k, pick), t, k, x, r);
  }

  lemma MarkedStarts(q: Request, p: Request)
    requires p == q.(pooled := p.pooled, life := p.life) && Startable(q)
    ensures Startable(p) && NetLocOf(p) == NetLocOf(q)
  {
  }

  lemma EnqueueIs(s: PoolState, k: NetLoc, r: nat)
    requires k in s.rows && r in s.requests
    ensures var d := Enqueue(s, k, r);
      && d.clients == s.clients && d.now == s.now && d.requests == s.requests[r := Arm(s.requests[r], s.now)]
      && d.nextTicket == s.nextTicket && d.started == s.started
  {
    hide Arm;
  }

  /** The client that is taken is idle and at the destination, or new. */
  lemma TakenIs(t: PoolState, s: PoolState, k: NetLoc, pick: nat, x: nat, r: nat)
    requires Partial(s, map[], {r}) && Pickable(s, k, pick) && Choose(s, k, pick) == Some(x)
    requires t.rows == s.rows && t.clients == s.clients && t.nextClient == s.nextClient && t.maxConnections == s.maxConnections
    ensures var d := Take(t, k, pick);
      && d.requests == t.requests && d.now == t.now && d.nextTicket == t.nextTicket && d.started == t.started
      && d.clients == s.clients[x := Was(s, x)]
    ensures x in s.clients || x == s.nextClient
    ensures k in s.rows && s.rows[k].free != {} ==> x == pick
    ensures x in s.clients ==> s.clients[x].netloc == k
    ensures Was(s, x).request.None?
  {
    hide RequestsOk, PlacesOk, HomesOk, RowsOk, OrderOk, SizesOk, NetLocOf, BusyOk, WaitingOk, NoTwice;
    if k in s.rows && s.rows[k].free != {} {
      RowParts(s, k, map[], {r});
      assert FreeOk(s, k, pick, map[]);
      assert s.clients[pick := s.clients[pick]] == s.clients;
    } else {
      assert x == s.nextClient && x !in s.clients;
    }
  }

  lemma LaunchIs(d: PoolState, s: PoolState, k: NetLoc, x: nat, r: nat)
    requires x in d.clients && r in d.requests && d.requests == s.requests && d.now == s.now
    requires d.clients == s.clients[x := Was(s, x)] && Was(s, x).request.None?
    requires d.requests[r].client.None? && Startable(d.requests[r])
    ensures var e := Launch(d, k, x, r).0;
      StartedOn(s, e, x, r) && e.nextTicket == d.nextTicket && e.started == d.started + [Start(k, d.requests[r].life.ticket)]
  {
    hide Startable, NetLocOf, Sent, Carrying, StartOn;
    StartShape(Logged(d, k, r), x, r);
  }

  /** The request that a client starts when it goes back to its pool. */
  function NextOn(s: PoolState, c: nat): Option<nat>
    requires c in s.clients
  {
    if s.clients[c].pooled && s.clients[c].netloc in s.rows && s.rows[s.clients[c].netloc].queue != []
    then Some(s.rows[s.clients[c].netloc].queue[0]) else None
  }

  /** Client `c` has become `went` and let go of request `r`, which has become `q`; then it has started the
      request that waits for it, if any. */
  ghost predicate Passed(s: PoolState, d: PoolState, c: nat, went: Client, r: nat, q: Request)
    requires c in s.clients
  {
    && d.now == s.now && went.request.None? && d.nextTicket == s.nextTicket
    && match NextOn(s, c)
       case None => d.clients == s.clients[c := went] && d.requests == s.requests[r := q] && d.started == s.started
       case Some(w) =>
         && w != r && w in s.requests && s.requests[w].client.None?
         && d.started == s.started + [Start(s.clients[c].netloc, s.requests[w].life.ticket)]
         && d.clients == s.clients[c := Carrying(went, Claimed(s.requests[w], c), w)]
         && d.requests == s.requests[r := q][w := Sent(Claimed(s.requests[w], c), s.now)]
  }

  lemma PassesOn(s: PoolState, c: nat, went: Client, q: Request)
    requires Inv(s) && Active(s, c) && SamePlace(s.clients[c], went) && went.request.None?
    requires q.settings == s.requests[s.clients[c].request.value].settings
    requires Partial(LetGo(s, c, went, s.clients[c].request.value, q), Hole(went, c), {s.clients[c].request.value})
    ensures var r := s.clients[c].request.value;
      var s1 := LetGo(s, c, went, r, q);
      Passed(s, if went.pooled then Putback(s1, c) else s1, c, went, r, q)
  {
    hide Partial, Putback, Sent, Carrying, Claimed;
    var r := s.clients[c].request.value;
    var s1 := LetGo(s, c, went, r, q);
    if went.pooled {
      PutbackIs(s1, c, map[c := went.netloc], {r});
      assert r in {r};
      assert NextOn(s1, c) == NextOn(s, c);
      if NextOn(s, c).None? {
        assert Putback(s1, c).clients == s1.clients;
      } else {
        var w := NextOn(s, c).value;
        assert w != r;
        assert s1.requests[w] == s.requests[w];
        assert s.clients[c := went][c := Carrying(went, Claimed(s.requests[w], c), w)] == s.clients[c := Carrying(went, Claimed(s.requests[w], c), w)];
      }
    }
  }

  /** finish_request, after `q` has been prepared. */
  lemma FinishIs(s: PoolState, c: nat, q: Request, e: Option<Error>, keepAlive: bool)
    requires Inv(s) && Active(s, c)
    requires var p := s.requests[s.clients[c].request.value];
      q.life == p.life && q.settings == p.settings && (q.timer.Some? ==> p.timer.Some?)
    ensures var r := s.clients[c].request.value;
      var v := VerdictOf(q, e);
      Passed(s, FinishOn(SetRequest(s, r, q), c, e, keepAlive), c, Let(s.clients[c], q, v, keepAlive, s.now), r, Notify(q, v))
  {
    var r := s.clients[c].request.value;
    ActiveIsOwed(s, c);
    hide Partial, Let, Notify, VerdictOf, Putback, Owed, LiveOk, Sent, Carrying, Claimed;
    var cl := s.clients[c];
    var v := VerdictOf(q, e);
    var went := Let(cl, q, v, keepAlive, s.now);
    LetShape(cl, q, v, keepAlive, s.now);
    LetGoKeeps(s, c, went, r, q);
    var s1 := LetGo(s, c, went, r, q);
    assert SetClient(SetRequest(s, r, q), c, went) == s1;
    PassesOn(s, c, went, q);
    ToldAfter(s, if cl.pooled then Putback(s1, c) else s1, c, went, r, q, v);
  }

  lemma ToldAfter(s: PoolState, d: PoolState, c: nat, went: Client, r: nat, q: Request, v: Verdict)
    requires c in s.clients && r in s.requests && Passed(s, d, c, went, r, q)
    ensures r in d.requests && Passed(s, SetRequest(d, r, Notify(d.requests[r], v)), c, went, r, Notify(q, v))
  {
    hide Notify, Sent, Carrying, Claimed;
    if NextOn(s, c).Some? {
      var w := NextOn(s, c).value;
      assert d.requests[r := Notify(q, v)] == s.requests[r := Notify(q, v)][w := Sent(Claimed(s.requests[w], c), s.now)];
    }
  }

  /** A redirect on the client of the request. */
  lemma FollowsHere(s: PoolState, c: nat, m: Message)
    requires Inv(s) && Active(s, c) && Follows(s.requests[s.clients[c].request.value], m)
    requires var k := NetLocOf(Hop(s.requests[s.clients[c].request.value], m.location.value, m));
      s.clients[c].pooled ==> !ElsewhereThan(k, s.clients[c].netloc)
    ensures var r := s.clients[c].request.value;
      var q := s.requests[r];
      var hop := Hop(q, m.location.value, m);
      StartedOn(LetGo(s, c, LetHop(s.clients[c], q, m.keepAlive), r, hop), AnalyzeOn(s, c, m), c, r)
  {
    FollowedIs(s, c, m);
    FollowHereIs(s, c, m.location.value, m);
    hide AnalyzeOn, Partial, NetLocOf, LetHop, Hop, FollowOn, Follows, Startable, LimboOk, Sent, Carrying, Claimed;
    var cl := s.clients[c];
    var r := cl.request.value;
    var q := s.requests[r];
    LetHopShape(cl, q, m.keepAlive);
    HopLetsGo(s, c, m.location.value, m, LetHop(cl, q, m.keepAlive));
    StartShape(LetGo(s, c, LetHop(cl, q, m.keepAlive), r, Hop(q, m.location.value, m)), c, r);
  }

  /** A redirect through the pool. */
  lemma FollowsAway(s: PoolState, c: nat, m: Message, k: NetLoc)
    requires Inv(s) && Active(s, c) && Follows(s.requests[s.clients[c].request.value], m) && s.clients[c].pooled
    requires k == NetLocOf(Hop(s.requests[s.clients[c].request.value], m.location.value, m))
    requires ElsewhereThan(k, s.clients[c].netloc) && Pickable(s, k, m.pick)
    ensures var r := s.clients[c].request.value;
      var q := s.requests[r];
      var t := PutBackForHop(s, c, m.location.value, m);
      && Passed(s, t, c, LetHop(s.clients[c], q, m.keepAlive).(lastActivity := s.now), r, Hop(q, m.location.value, m))
      && c in t.clients && r in t.requests && c < t.nextClient && t.clients[c].netloc != k
      && Requested(SetClient(t, c, t.clients[c].(weak := true)), AnalyzeOn(s, c, m), k, r, m.pick)
  {
    var location := m.location.value;
    hide *;
    FollowedIs(s, c, m);
    AwayPasses(s, c, m);
    AwayAsks(s, c, location, m, k);
  }

  lemma AwayAsks(s: PoolState, c: nat, location: Uri, m: Message, k: NetLoc)
    requires Inv(s) && Active(s, c) && Follows(s.requests[s.clients[c].request.value], m) && s.clients[c].pooled
    requires k == NetLocOf(Hop(s.requests[s.clients[c].request.value], location, m))
    requires ElsewhereThan(k, s.clients[c].netloc) && Pickable(s, k, m.pick)
    ensures var r := s.clients[c].request.value;
      var t := PutBackForHop(s, c, location, m);
      && c in t.clients && r in t.requests && c < t.nextClient && t.clients[c].netloc != k
      && Requested(SetClient(t, c, t.clients[c].(weak := true)), FollowOn(s, c, location, m), k, r, m.pick)
  {
    var r := s.clients[c].request.value;
    assert m.callback.Follow?;
    assert k != s.clients[c].netloc;
    hide Inv, Partial, NetLocOf, FollowOn, Follows, Asks, PoolRequest, Pickable, Requested, PutBackForHop, Hop;
    FollowAwayIs(s, c, location, m);
    PutBackForHopKeeps(s, c, location, m);
    PutBackForHopRow(s, c, location, m, k);
    PutBackForHopClient(s, c, location, m);
    var t := PutBackForHop(s, c, location, m);
    NumberedIn(t, c, {r});
    PickableStays(s, t, k, m.pick);
    WeakAsks(t, c, r, m.pick, k);
  }

  lemma WeakAsks(s: PoolState, c: nat, r: nat, pick: nat, k: NetLoc)
    requires Partial(s, map[], {r}) && Asks(s, r, {r}) && c in s.clients
    requires r in s.requests && k == NetLocOf(s.requests[r]) && Pickable(s, k, pick)
    ensures var u := SetClient(s, c, s.clients[c].(weak := true));
      Requested(u, Uncaught(PoolRequest(u, r, pick)), k, r, pick)
  {
    hide Partial, NetLocOf, Asks, PoolRequest;
    var cl := s.clients[c].(weak := true);
    var u := SetClient(s, c, cl);
    ClientFieldsKeep(s, c, cl, {r});
    AsksStays(s, u, r, {r});
    PickableStays(s, u, k, pick);
    hide Pickable, Requested;
    PoolRequestIs(u, r, pick, k);
    StillRequested(u, PoolRequest(u, r, pick).0, k, r, pick);
  }

  lemma StillRequested(s: PoolState, d: PoolState, k: NetLoc, r: nat, pick: nat)
    requires r in s.requests && Requested(s, d, k, r, pick)
    ensures Requested(s, d.(broken := true), k, r, pick)
  {
  }

  lemma NumberedIn(s: PoolState, c: nat, limbo: set<nat>)
    requires Partial(s, map[], limbo) && c in s.clients
    ensures c < s.nextClient
  {
    hide RequestsOk, PlacesOk, HomesOk, RowsOk, OrderOk;
  }

  lemma AwayPasses(s: PoolState, c: nat, m: Message)
    requires Inv(s) && Active(s, c) && Follows(s.requests[s.clients[c].request.value], m) && s.clients[c].pooled
    ensures var r := s.clients[c].request.value;
      var q := s.requests[r];
      Passed(s, PutBackForHop(s, c, m.location.value, m), c, LetHop(s.clients[c], q, m.keepAlive).(lastActivity := s.now),
        r, Hop(q, m.location.value, m))
  {
    var cl := s.clients[c];
    var r := cl.request.value;
    var q := s.requests[r];
    var location := m.location.value;
    assert m.callback.Follow?;
    hide Partial, NetLocOf, LetHop, Hop, Follows, Putback, Asks, Passed;
    LetHopShape(cl, q, m.keepAlive);
    var went := LetHop(cl, q, m.keepAlive).(lastActivity := s.now);
    HopLetsGo(s, c, location, m, went);
    HopSame(q, location, m);
    PassesOn(s, c, went, Hop(q, location, m));
  }

  // ---------------------------------------------------------------- connections over steps

  /** A client with a request has a connection or is opening one; one without is not opening any, and the loop
      does not wait for its connection. */
  ghost predicate Wired(cl: Client) {
    && !(cl.connected && cl.connecting)
    && (cl.request.Some? ==> cl.connected || cl.connecting)
    && (cl.request.None? ==> !cl.connecting && (cl.connected ==> cl.weak))
  }

  ghost predicate AllWired(s: PoolState) { forall c :: c in s.clients ==> Wired(s.clients[c]) }

  /** Between `cl` and `next` the client has opened a connection: it is connecting, for another request if it
      was connecting before. */
  ghost predicate Opens(cl: Client, next: Client) {
    next.connecting && !(cl.connecting && next.request == cl.request)
  }

  /** The client has no connection, or the same one; only a request that wants to keep it is started on it. */
  ghost predicate Keeps(cl: Client, next: Client, requests: map<nat, Request>) {
    && (next.connected || next.connecting ==> (cl.connected || cl.connecting) && next.netloc == cl.netloc)
    && (next.request.Some? && next.request != cl.request ==>
          next.request.value in requests && requests[next.request.value].settings.keepAlive)
  }

  ghost predicate Moves(cl: Client, next: Client, requests: map<nat, Request>, now: nat) {
    && Wired(next)
    && (Opens(cl, next) || Keeps(cl, next, requests))
    && (next.request.None? ==> next.lastActivity == if cl.request.Some? then now else cl.lastActivity)
  }

  ghost predicate AllMove(s: PoolState, d: PoolState) {
    && s.clients.Keys <= d.clients.Keys
    && forall c :: c in d.clients ==> Moves(Was(s, c), d.clients[c], d.requests, s.now)
  }

  /** The client has let its request go, at time `now`. */
  ghost predicate Released(cl: Client, went: Client) {
    && went.request.None? && !went.connecting && went.netloc == cl.netloc && (went.connected ==> cl.connected)
  }

  lemma LetReleases(cl: Client, q: Request, v: Verdict, keepAlive: bool, now: nat)
    requires Wired(cl) && (cl.connecting ==> !v.Succeeded?)
    ensures var went := Let(cl, q, v, keepAlive, now);
      Released(cl, went) && went.lastActivity == now && (went.connected ==> went.weak)
  {
  }

  lemma LetHopReleases(cl: Client, q: Request, keepAlive: bool)
    requires cl.connected && !cl.connecting
    ensures Released(cl, LetHop(cl, q, keepAlive))
  {
  }

  /** A request that is started on a client: on a new connection, or on the one that the client has. */
  lemma StartMoves(cl: Client, went: Client, q: Request, c: nat, r: nat, now: nat, requests: map<nat, Request>)
    requires Released(cl, went) && (cl.request == Some(r) ==> !cl.connecting)
    requires r in requests && requests[r].settings == q.settings
    ensures Moves(cl, Carrying(went, Claimed(q, c), r), requests, now)
  {
    hide NetLocOf;
  }

  lemma IdleMoves(cl: Client, requests: map<nat, Request>, now: nat)
    requires Wired(cl)
    ensures Moves(cl, cl, requests, now)
  {
  }

  lemma NewIsWired(s: PoolState, c: nat)
    requires AllWired(s)
    ensures Wired(Was(s, c))
  {
  }

  lemma PassedMoves(s: PoolState, d: PoolState, c: nat, went: Client, r: nat, q: Request)
    requires AllWired(s) && c in s.clients && s.clients[c].request == Some(r)
    requires Passed(s, d, c, went, r, q) && Released(s.clients[c], went)
    requires NextOn(s, c).None? ==> went.lastActivity == s.now && (went.connected ==> went.weak)
    ensures AllMove(s, d)
  {
    hide Moves, Carrying, Claimed, Sent;
    if NextOn(s, c).Some? {
      var w := NextOn(s, c).value;
      SentSame(Claimed(s.requests[w], c), s.now);
      StartMoves(s.clients[c], went, s.requests[w], c, w, s.now, d.requests) by { ClaimedSettings(s.requests[w], c); }
    } else {
      assert Moves(s.clients[c], went, d.requests, s.now) by { RestMoves(s.clients[c], went, d.requests, s.now); }
    }
    forall x | x in d.clients && x != c ensures Moves(Was(s, x), d.clients[x], d.requests, s.now) {
      IdleMoves(s.clients[x], d.requests, s.now);
    }
  }

  lemma ClaimedSettings(q: Request, c: nat)
    ensures Claimed(q, c).settings == q.settings
  {
  }

  lemma RestMoves(cl: Client, went: Client, requests: map<nat, Request>, now: nat)
    requires Released(cl, went) && cl.request.Some? && went.lastActivity == now && (went.connected ==> went.weak)
    ensures Moves(cl, went, requests, now)
  {
  }

  /** A request that is started on an idle client. */
  lemma StartedMoves(s: PoolState, t: PoolState, d: PoolState, c: nat, r: nat)
    requires AllWired(s) && StartedOn(t, d, c, r) && t.now == s.now
    requires Released(Was(s, c), Was(t, c)) && (Was(s, c).request == Some(r) ==> !Was(s, c).connecting)
    requires s.clients.Keys <= t.clients.Keys + {c}
    requires forall x :: x in t.clients && x != c ==> Moves(Was(s, x), t.clients[x], t.requests, s.now)
    ensures AllMove(s, d)
  {
    hide Carrying, Claimed, Sent, Wired, Released, Opens;
    SentSame(Claimed(t.requests[r], c), s.now);
    ClaimedSettings(t.requests[r], c);
    StartMoves(Was(s, c), Was(t, c), t.requests[r], c, r, s.now, d.requests);
  }

  lemma FinishMoves(s: PoolState, c: nat, q: Request, e: Option<Error>, keepAlive: bool)
    requires Inv(s) && AllWired(s) && Active(s, c)
    requires var p := s.requests[s.clients[c].request.value];
      q.life == p.life && q.settings == p.settings && (q.timer.Some? ==> p.timer.Some?)
    requires e.Some? || s.clients[c].connected
    ensures AllMove(s, FinishOn(SetRequest(s, s.clients[c].request.value, q), c, e, keepAlive))
  {
    hide Inv, FinishOn, Let, Notify, Passed, Moves;
    var cl := s.clients[c];
    var r := cl.request.value;
    var v := VerdictOf(q, e);
    FinishIs(s, c, q, e, keepAlive);
    LetReleases(cl, q, v, keepAlive, s.now);
    PassedMoves(s, FinishOn(SetRequest(s, r, q), c, e, keepAlive), c, Let(cl, q, v, keepAlive, s.now), r, Notify(q, v));
  }

  lemma SameClientsMove(s: PoolState, d: PoolState)
    requires AllWired(s) && d.clients == s.clients
    ensures AllMove(s, d)
  {
    hide Moves, Wired;
    forall c | c in d.clients ensures Moves(s.clients[c], s.clients[c], d.requests, s.now) {
      IdleMoves(s.clients[c], d.requests, s.now);
    }
  }

  lemma CancelMoves(s: PoolState, r: nat, q: Request, e: Error)
    requires Inv(s) && AllWired(s) && r in s.requests
    requires var p := s.requests[r]; q == p.(timer := q.timer) && (q.timer.Some? ==> p.timer.Some?)
    ensures AllMove(s, CancelRequest(SetRequest(s, r, q), r, e))
  {
    LiveIs(s, r);
    hide Inv, FinishOn, CancelRequest, AllMove, AllWired, Live;
    if q.client.Some? {
      FinishMoves(s, q.client.value, q, Some(e), false);
      CancelIsFinish(s, r, q, e);
    } else {
      CancelLeavesClients(s, r, q, e);
      SameClientsMove(s, CancelRequest(SetRequest(s, r, q), r, e));
    }
  }

  lemma CancelIsFinish(s: PoolState, r: nat, q: Request, e: Error)
    requires r in s.requests && q.client.Some? && Active(s, q.client.value) && s.clients[q.client.value].request == Some(r)
    ensures CancelRequest(SetRequest(s, r, q), r, e) == FinishOn(SetRequest(s, r, q), q.client.value, Some(e), false)
  {
    hide FinishOn;
  }

  lemma CancelLeavesClients(s: PoolState, r: nat, q: Request, e: Error)
    requires r in s.requests && q.client.None?
    ensures CancelRequest(SetRequest(s, r, q), r, e).clients == s.clients
  {
    hide NetLocOf, Notify, Find, FinishOn;
  }

  lemma FollowHereMoves(s: PoolState, c: nat, m: Message)
    requires Inv(s) && AllWired(s) && Active(s, c) && Follows(s.requests[s.clients[c].request.value], m) && s.clients[c].connected
    requires var k := NetLocOf(Hop(s.requests[s.clients[c].request.value], m.location.value, m));
      s.clients[c].pooled ==> !ElsewhereThan(k, s.clients[c].netloc)
    ensures AllMove(s, AnalyzeOn(s, c, m))
  {
    FollowsHere(s, c, m);
    var cl := s.clients[c];
    var r := cl.request.value;
    var q := s.requests[r];
    var hop := Hop(q, m.location.value, m);
    hide Inv, AnalyzeOn, NetLocOf, LetHop, Hop, Follows, StartedOn, Moves;
    var t := LetGo(s, c, LetHop(cl, q, m.keepAlive), r, hop);
    assert Wired(cl);
    LetHopReleases(cl, q, m.keepAlive);
    forall x | x in t.clients && x != c ensures Moves(Was(s, x), t.clients[x], t.requests, s.now) {
      IdleMoves(s.clients[x], t.requests, s.now);
    }
    StartedMoves(s, t, AnalyzeOn(s, c, m), c, r);
  }

  lemma WeakMoves(cl: Client, next: Client, requests: map<nat, Request>, now: nat)
    requires Moves(cl, next, requests, now)
    ensures Moves(cl, next.(weak := true), requests, now)
  {
  }

  /** The client of a redirect through the pool becomes weak when it has been put back. */
  lemma HopPassedMoves(s: PoolState, t: PoolState, c: nat, went: Client, r: nat, q: Request)
    requires AllWired(s) && c in s.clients && s.clients[c].request == Some(r)
    requires Passed(s, t, c, went, r, q) && Released(s.clients[c], went) && went.lastActivity == s.now
    ensures c in t.clients && AllMove(s, SetClient(t, c, t.clients[c].(weak := true)))
  {
    var u := SetClient(t, c, t.clients[c].(weak := true));
    hide Moves, Carrying, Claimed, Sent;
    if NextOn(s, c).Some? {
      PassedMoves(s, t, c, went, r, q);
      WeakMoves(s.clients[c], t.clients[c], t.requests, s.now);
    } else {
      PassedMoves(s, u, c, went.(weak := true), r, q);
    }
  }

  lemma RequestedMoves(s: PoolState, u: PoolState, d: PoolState, k: NetLoc, r: nat, pick: nat)
    requires AllWired(s) && AllMove(s, u) && u.now == s.now && r in u.requests && Requested(u, d, k, r, pick)
    requires Choose(u, k, pick).Some? ==> Was(u, Choose(u, k, pick).value) == Was(s, Choose(u, k, pick).value)
    ensures AllMove(s, d)
  {
    TicketedIs(u, r);
    hide Choose, Ticketed, Carrying, Claimed, Sent, Wired, Released, Arm, Moves;
    var t := Ticketed(u, r);
    forall x | x in t.clients ensures Moves(Was(s, x), t.clients[x], t.requests, s.now) {
      SettingsMove(Was(s, x), u.clients[x], u.requests, t.requests, s.now);
    }
    match Choose(u, k, pick)
    case None =>
      ArmSame(t.requests[r], u.now);
      forall x | x in d.clients ensures Moves(Was(s, x), d.clients[x], d.requests, s.now) {
        SettingsMove(Was(s, x), t.clients[x], t.requests, d.requests, s.now);
      }
    case Some(x) =>
      IdleReleases(Was(s, x)) by { NewIsWired(s, x); }
      StartedMoves(s, t, d, x, r);
  }

  lemma IdleReleases(cl: Client)
    requires Wired(cl)
    ensures cl.request.None? ==> Released(cl, cl)
  {
  }

  lemma SettingsMove(cl: Client, next: Client, before: map<nat, Request>, after: map<nat, Request>, now: nat)
    requires Moves(cl, next, before, now)
    requires forall r :: r in before ==> r in after && after[r].settings == before[r].settings
    ensures Moves(cl, next, after, now)
  {
  }

  lemma FollowAwayMoves(s: PoolState, c: nat, m: Message, k: NetLoc)
    requires Inv(s) && AllWired(s) && Active(s, c) && Follows(s.requests[s.clients[c].request.value], m) && s.clients[c].connected
    requires s.clients[c].pooled && k == NetLocOf(Hop(s.requests[s.clients[c].request.value], m.location.value, m))
    requires ElsewhereThan(k, s.clients[c].netloc) && Pickable(s, k, m.pick)
    ensures AllMove(s, AnalyzeOn(s, c, m))
  {
    var q := s.requests[s.clients[c].request.value];
    var location := m.location.value;
    WiredIs(s, c);
    hide *;
    FollowsAway(s, c, m, k);
    LetHopReleases(s.clients[c], q, m.keepAlive);
    TimedReleases(s.clients[c], LetHop(s.clients[c], q, m.keepAlive), s.now);
    AwayMoves(s, PutBackForHop(s, c, location, m), AnalyzeOn(s, c, m), c,
      LetHop(s.clients[c], q, m.keepAlive).(lastActivity := s.now), s.clients[c].request.value, Hop(q, location, m), k, m.pick);
  }

  lemma WiredIs(s: PoolState, c: nat)
    requires AllWired(s) && c in s.clients && s.clients[c].connected
    ensures !s.clients[c].connecting
  {
  }

  lemma TimedReleases(cl: Client, went: Client, now: nat)
    requires Released(cl, went)
    ensures Released(cl, went.(lastActivity := now))
  {
  }

  lemma AwayMoves(s: PoolState, t: PoolState, d: PoolState, c: nat, went: Client, r: nat, q: Request, k: NetLoc, pick: nat)
    requires AllWired(s) && c in s.clients && s.clients[c].request == Some(r)
    requires Passed(s, t, c, went, r, q) && Released(s.clients[c], went) && went.lastActivity == s.now
    requires c in t.clients && r in t.requests && c < t.nextClient && t.clients[c].netloc != k
    requires Requested(SetClient(t, c, t.clients[c].(weak := true)), d, k, r, pick)
    ensures AllMove(s, d)
  {
    hide AllWired, AllMove, Passed, Released, Requested, Was, Choose;
    HopPassedMoves(s, t, c, went, r, q);
    var u := SetClient(t, c, t.clients[c].(weak := true));
    PassedElsewhere(s, t, c, went, r, q);
    AwayFromClient(s, u, k, pick, c, d, r);
    RequestedMoves(s, u, d, k, r, pick);
  }

  lemma PassedElsewhere(s: PoolState, t: PoolState, c: nat, went: Client, r: nat, q: Request)
    requires c in s.clients && Passed(s, t, c, went, r, q)
    ensures t.now == s.now && t.clients.Keys == s.clients.Keys && forall x :: x in s.clients && x != c ==> t.clients[x] == s.clients[x]
  {
    hide Carrying, Claimed, Sent;
  }

  lemma AwayFromClient(s: PoolState, u: PoolState, k: NetLoc, pick: nat, c: nat, d: PoolState, r: nat)
    requires c in u.clients && u.clients[c].netloc != k && c < u.nextClient
    requires u.clients.Keys == s.clients.Keys && forall x :: x in s.clients && x != c ==> u.clients[x] == s.clients[x]
    requires r in u.requests && Requested(u, d, k, r, pick)
    ensures Choose(u, k, pick).Some? ==> Was(u, Choose(u, k, pick).value) == Was(s, Choose(u, k, pick).value)
  {
    hide Choose, StartedOn, Ticketed;
  }

  lemma AnalyzeMoves(s: PoolState, c: nat, m: Message)
    requires Inv(s) && AllWired(s) && Enabled(s, Received(c, m))
    ensures AllMove(s, AnalyzeOn(s, c, m))
  {
    var r := s.clients[c].request.value;
    var q := s.requests[r];
    if Follows(q, m) {
      var k := NetLocOf(Hop(q, m.location.value, m));
      if s.clients[c].pooled && ElsewhereThan(k, s.clients[c].netloc) {
        hide Inv, AllWired, AllMove, AnalyzeOn, NetLocOf, Hop, Follows, Pickable, ElsewhereThan;
        FollowAwayMoves(s, c, m, k);
      } else {
        hide Inv, AllWired, AllMove, AnalyzeOn, NetLocOf, Hop, Follows, Pickable, ElsewhereThan;
        FollowHereMoves(s, c, m);
      }
    } else {
      hide Inv, AllWired, AllMove, Pickable, NetLocOf;
      RefusedMoves(s, c, m);
    }
  }

  lemma RefusedMoves(s: PoolState, c: nat, m: Message)
    requires Inv(s) && AllWired(s) && Active(s, c) && s.clients[c].connected
    requires !Follows(s.requests[s.clients[c].request.value], m)
    ensures AllMove(s, AnalyzeOn(s, c, m))
  {
    hide Inv, FinishOn, AllWired, AllMove;
    var r := s.clients[c].request.value;
    var q := s.requests[r];
    assert SetRequest(s, r, q) == s;
    if m.code == 100 {
      SameClientsMove(s, s);
    } else if q.settings.followRedirect && IsRedirect(m.code) {
      if q.settings.redirectionLimit == 0 {
        FinishMoves(s, c, q, Some(UnexpectedRedirect), false);
      } else if Increment(q.counter) > q.settings.redirectionLimit {
        FinishMoves(s, c, q.(counter := Increment(q.counter)), Some(RedirectionLimit), false);
      } else if m.location.None? {
        FinishMoves(s, c, q.(counter := Increment(q.counter)), Some(NoRedirectUri), false);
      } else {
        FinishMoves(s, c, Redirected(q, m.location.value), Some(m.callback.error), false);
      }
    } else {
      FinishMoves(s, c, q, None, m.keepAlive);
    }
  }

  lemma SubmitMoves(s: PoolState, r: nat, pick: nat)
    requires Inv(s) && AllWired(s) && s.alive && r in s.requests && Pickable(s, NetLocOf(s.requests[r]), pick) && Submittable(s, r)
    ensures AllMove(s, SubmitTo(s, r, pick).0)
  {
    hide Partial, NetLocOf, Startable, Live, PoolRequest, IdleOk, Asks, AllWired, AllMove, Choose, Requested;
    if s.requests[r].uri.host != "" {
      var q := s.requests[r];
      IdleIs(s, r);
      SubmittedAsks(s, r);
      var u := SetRequest(s, r, q.(life := q.life.(accepted := q.life.accepted + 1, acceptedAt := s.now, hops := 0)));
      ToLimbo(s, r, u.requests[r]);
      PoolRequestIs(u, r, pick, NetLocOf(s.requests[r]));
      SameClientsMove(s, u);
      RequestedMoves(s, u, PoolRequest(u, r, pick).0, NetLocOf(s.requests[r]), r, pick);
    } else {
      SameClientsMove(s, s);
    }
  }

  lemma DestroyMoves(s: PoolState)
    requires AllWired(s)
    ensures AllMove(s, Destroy(s))
  {
    hide InQueue, InBusy, Notify;
  }

  lemma ExpireMoves(s: PoolState, r: nat)
    requires Inv(s) && AllWired(s) && Enabled(s, TimerFires(r))
    ensures AllMove(s, Expire(s, r))
  {
    LiveIs(s, r);
    hide Inv, Live, CancelRequest, AllWired, AllMove;
    var q := s.requests[r];
    var e := if q.client.Some? && q.client.value in s.clients && s.clients[q.client.value].connecting
             then ConnectTimedOut else TimedOut;
    CancelMoves(s, r, q.(timer := Some(q.timer.value.(active := false))), e);
  }

  lemma OneClientMoves(s: PoolState, c: nat, cl: Client)
    requires AllWired(s) && c in s.clients && Moves(s.clients[c], cl, s.requests, s.now)
    ensures AllMove(s, SetClient(s, c, cl))
  {
    hide Moves, Wired;
    forall x | x in s.clients && x != c ensures Moves(s.clients[x], s.clients[x], s.requests, s.now) {
      IdleMoves(s.clients[x], s.requests, s.now);
    }
  }

  lemma ConnectedMoves(s: PoolState, c: nat)
    requires AllWired(s) && c in s.clients && s.clients[c].connecting
    ensures AllMove(s, SetClient(s, c, s.clients[c].(connected := true, connecting := false)))
  {
    OneClientMoves(s, c, s.clients[c].(connected := true, connecting := false));
  }

  lemma DropMoves(s: PoolState, c: nat)
    requires AllWired(s) && c in s.clients && s.clients[c].request.None?
    ensures AllMove(s, SetClient(s, c, Drop(s.clients[c])))
  {
    OneClientMoves(s, c, Drop(s.clients[c]));
  }

  /** What every step does to the connections of all clients. */
  lemma StepMoves(s: PoolState, step: Step)
    requires Inv(s) && AllWired(s) && Enabled(s, step) && Safe(s, step)
    ensures AllMove(s, Next(s, step))
  {
    hide Inv, AllWired, AllMove, AnalyzeOn, Expire, SubmitTo, CancelRequest, KeepsRow, Submittable, NetLocOf, FinishOn, Fresh, Pickable, Destroy, Sweep;
    match step
    case Create(r, q) => SameClientsMove(s, Next(s, step));
    case Submit(r, pick) => SubmitMoves(s, r, pick);
    case Cancel(r, e) =>
      assert SetRequest(s, r, s.requests[r]) == s;
      CancelMoves(s, r, s.requests[r], e);
    case TransferDone(r) => SameClientsMove(s, Next(s, step));
    case TimerFires(r) => ExpireMoves(s, r);
    case Connected(c) => ConnectedMoves(s, c);
    case Disturbed(c, e) =>
      assert SetRequest(s, s.clients[c].request.value, s.requests[s.clients[c].request.value]) == s;
      FinishMoves(s, c, s.requests[s.clients[c].request.value], Some(e), false);
    case Received(c, m) => AnalyzeMoves(s, c, m);
    case Unexpected(c) => DropMoves(s, c);
    case Swept =>
      SweepOnlyRows(s);
      SameClientsMove(s, Sweep(s));
    case Destroyed => DestroyMoves(s);
    case Tick(now) => SameClientsMove(s, Next(s, step));
  }

  lemma {:induction false} RunWired(idleTimeout: nat, maxConnections: nat, steps: seq<Step>)
    requires Legal(NewPool(idleTimeout, maxConnections), steps)
    ensures AllWired(Reached(idleTimeout, maxConnections, steps))
  {
    hide Next, Enabled, Safe, Inv;
    if steps != [] {
      var before := steps[..|steps| - 1];
      var s := Reached(idleTimeout, maxConnections, before);
      RunWired(idleTimeout, maxConnections, before);
      RunKeeps(idleTimeout, maxConnections, before);
      StepMoves(s, steps[|steps| - 1]);
    }
  }

  // ---------------------------------------------------------------- who opened a connection

  /** A request that a connection has been opened for, as it was then. */
  datatype Opening = Opening(request: nat, q: Request)

  /** The request for which client `c` last opened a connection in the run. */
  ghost function Opener(s: PoolState, steps: seq<Step>, c: nat): Option<Opening> {
    if steps == [] then None
    else
      var before := Run(s, steps[..|steps| - 1]);
      var after := Run(s, steps);
      if Active(after, c) && Opens(Was(before, c), after.clients[c])
      then Some(Opening(after.clients[c].request.value, after.requests[after.clients[c].request.value]))
      else Opener(s, steps[..|steps| - 1], c)
  }

  /** The connection of the client goes to the destination of the request it was opened for, and a request that
      does not want to share one has its own. */
  ghost predicate OpenedFor(s: PoolState, c: nat, o: Option<Opening>) {
    c in s.clients && (s.clients[c].connected || s.clients[c].connecting) ==>
      && o.Some? && NetLocOf(o.value.q) == s.clients[c].netloc
      && (Active(s, c) && !s.requests[s.clients[c].request.value].settings.keepAlive ==>
            o.value.request == s.clients[c].request.value)
  }

  lemma SettingsStay(s: PoolState, step: Step, r: nat)
    requires Inv(s) && Enabled(s, step) && r in s.requests
    ensures r in Next(s, step).requests && Next(s, step).requests[r].settings == s.requests[r].settings
  {
    hide Inv, Next;
    if step.Received? && s.clients[step.c].request == Some(r) && Redirectable(s.requests[r], step.message) {
      hide Enabled;
      RedirectGoesTo(s, step.c, step.message);
    } else {
      hide Enabled;
      TargetStays(s, step, r);
    }
  }

  lemma {:induction false} OpenerIs(idleTimeout: nat, maxConnections: nat, steps: seq<Step>, c: nat)
    requires Legal(NewPool(idleTimeout, maxConnections), steps)
    ensures OpenedFor(Reached(idleTimeout, maxConnections, steps), c, Opener(NewPool(idleTimeout, maxConnections), steps, c))
  {
    hide Next, Enabled, Safe, Inv, Active, OpenedFor, Opens, Moves, AllWired;
    if steps != [] {
      var before, step := steps[..|steps| - 1], steps[|steps| - 1];
      var s := Reached(idleTimeout, maxConnections, before);
      OpenerIs(idleTimeout, maxConnections, before, c);
      RunWired(idleTimeout, maxConnections, before);
      RunKeeps(idleTimeout, maxConnections, before);
      RunKeeps(idleTimeout, maxConnections, steps);
      StepMoves(s, step);
      OpenedStays(s, step, c, Opener(NewPool(idleTimeout, maxConnections), before, c));
    } else {
      NobodyYet(idleTimeout, maxConnections, c);
    }
  }

  lemma NobodyYet(idleTimeout: nat, maxConnections: nat, c: nat)
    ensures OpenedFor(NewPool(idleTimeout, maxConnections), c, None)
  {
  }

  lemma OpenedStays(s: PoolState, step: Step, c: nat, o: Option<Opening>)
    requires Inv(s) && Inv(Next(s, step)) && Enabled(s, step) && AllMove(s, Next(s, step)) && OpenedFor(s, c, o)
    ensures var d := Next(s, step);
      OpenedFor(d, c, if Active(d, c) && Opens(Was(s, c), d.clients[c])
        then Some(Opening(d.clients[c].request.value, d.requests[d.clients[c].request.value])) else o)
  {
    var d := Next(s, step);
    hide Inv, Next, Enabled, NetLocOf;
    if c in d.clients {
      if Active(d, c) { ActiveIs(d, c); }
      LinkedIs(d, c);
      if c in s.clients {
        LinkedIs(s, c);
        if Active(s, c) { SettingsStay(s, step, s.clients[c].request.value); }
      }
      hide LiveOk, Startable;
    }
  }

  lemma LinkedIs(s: PoolState, c: nat)
    requires Inv(s) && c in s.clients
    ensures s.clients[c].request.Some? <==> Active(s, c)
  {
    hide RequestsOk, PlacesOk, HomesOk, RowsOk, OrderOk;
  }

  /** Shared connections, over every run: a request that a client carries is served on the connection opened
      last by that client, and it has the same target as the request it was opened for: host, port, SSL
      context, proxy and check of certificates, if neither goes through an HTTP proxy; the same HTTP proxy if
      both do. Without explicit ports, http and https are not mixed. A request that does not want to
      keep its connection shares it with no other one. */
  lemma {:induction false} SharedConnection(idleTimeout: nat, maxConnections: nat, steps: seq<Step>, c: nat)
    requires Legal(NewPool(idleTimeout, maxConnections), steps) && Active(Reached(idleTimeout, maxConnections, steps), c)
    ensures var s := Reached(idleTimeout, maxConnections, steps);
      var o := Opener(NewPool(idleTimeout, maxConnections), steps, c);
      var q := s.requests[s.clients[c].request.value];
      && (s.clients[c].connected || s.clients[c].connecting) && o.Some?
      && var p := o.value.q;
         && (!HttpProxied(q) && !HttpProxied(p) ==>
               && q.uri.host == p.uri.host && Port(q.uri) == Port(p.uri) && q.sslCtx == p.sslCtx
               && q.settings.proxy == p.settings.proxy && q.settings.checkCert == p.settings.checkCert)
         && (HttpProxied(q) && HttpProxied(p) ==>
               && q.settings.proxy.value.host == p.settings.proxy.value.host
               && q.settings.proxy.value.port == p.settings.proxy.value.port)
         && (!HttpProxied(q) && !HttpProxied(p) && q.uri.givenPort == 0 == p.uri.givenPort ==>
               !(q.uri.scheme == "http" && p.uri.scheme == "https"))
         && (!HttpProxied(q) && !HttpProxied(p) && q.uri.givenPort == 0 == p.uri.givenPort ==>
               !(q.uri.scheme == "https" && p.uri.scheme == "http"))
         && (!q.settings.keepAlive ==> o.value.request == s.clients[c].request.value)
  {
    var s := Reached(idleTimeout, maxConnections, steps);
    var o := Opener(NewPool(idleTimeout, maxConnections), steps, c);
    RunKeeps(idleTimeout, maxConnections, steps);
    RunWired(idleTimeout, maxConnections, steps);
    OpenerIs(idleTimeout, maxConnections, steps, c);
    ActiveIs(s, c);
    assert Wired(s.clients[c]);
    hide Inv, Legal, Run, Opener, Startable, LiveOk, AllWired;
    SameDestinationIff(s.requests[s.clients[c].request.value], o.value.q);
    SameDestinationIff(o.value.q, s.requests[s.clients[c].request.value]);
    hide NetLocOf;
  }

  /** Over every run: the connection of a client with a request goes to the host and port of its URI, 80 and 443
      being those of http and https, or to its HTTP proxy. */
  lemma {:induction false} ConnectsWhere(idleTimeout: nat, maxConnections: nat, steps: seq<Step>, c: nat)
    requires Legal(NewPool(idleTimeout, maxConnections), steps) && Active(Reached(idleTimeout, maxConnections, steps), c)
    ensures var s := Reached(idleTimeout, maxConnections, steps);
      var q := s.requests[s.clients[c].request.value];
      var k := s.clients[c].netloc;
      && q.uri.host != "" && q.uri.scheme != ""
      && (!HttpProxied(q) ==> k.host == q.uri.host && k.proxy == q.settings.proxy)
      && (!HttpProxied(q) && q.uri.givenPort != 0 ==> k.port == q.uri.givenPort)
      && (!HttpProxied(q) && q.uri.givenPort == 0 && q.uri.scheme == "http" ==> k.port == 80)
      && (!HttpProxied(q) && q.uri.givenPort == 0 && q.uri.scheme == "https" ==> k.port == 443)
      && (HttpProxied(q) ==> k.host == q.settings.proxy.value.host && k.port == q.settings.proxy.value.port)
      && (q.settings.proxy.Some? ==> q.settings.proxy.value.scheme in {"http", "socks5"})
  {
    RunKeeps(idleTimeout, maxConnections, steps);
    ActiveIs(Reached(idleTimeout, maxConnections, steps), c);
    hide Inv, Legal, Run, LiveOk;
  }

  // ---------------------------------------------------------------- since when a client is idle

  /** The time at which client `c` last ended an exchange in the run. */
  ghost function IdleSince(s: PoolState, steps: seq<Step>, c: nat): nat {
    if steps == [] then 0
    else
      var before := Run(s, steps[..|steps| - 1]);
      var after := Run(s, steps);
      if Was(before, c).request.Some? && Was(after, c).request.None? then before.now
      else IdleSince(s, steps[..|steps| - 1], c)
  }

  /** Over every run: the activity time of an idle client is the time at which its last exchange ended. */
  lemma {:induction false} IdleTime(idleTimeout: nat, maxConnections: nat, steps: seq<Step>, c: nat)
    requires Legal(NewPool(idleTimeout, maxConnections), steps)
    requires Was(Reached(idleTimeout, maxConnections, steps), c).request.None?
    ensures Was(Reached(idleTimeout, maxConnections, steps), c).lastActivity
      == IdleSince(NewPool(idleTimeout, maxConnections), steps, c)
  {
    hide Next, Enabled, Safe, Inv;
    if steps != [] {
      var before := steps[..|steps| - 1];
      var s := Reached(idleTimeout, maxConnections, before);
      RunWired(idleTimeout, maxConnections, before);
      RunKeeps(idleTimeout, maxConnections, before);
      StepMoves(s, steps[|steps| - 1]);
      if Was(s, c).request.None? { IdleTime(idleTimeout, maxConnections, before, c); }
    }
  }

  // ---------------------------------------------------------------- how long a connection lasts

  /** The step ends the exchange of a client: its response is there, or the request is cancelled. */
  predicate EndsExchange(s: PoolState, step: Step, c: nat)
    requires Active(s, c)
  {
    var r := s.clients[c].request.value;
    match step
    case Received(x, m) => x == c && m.code != 100 && !(Redirectable(s.requests[r], m) && m.callback.Follow?)
    case Disturbed(x, _) => x == c
    case Cancel(x, _) => x == r
    case TimerFires(x) => x == r
    case _ => false
  }

  /** The exchange leaves its connection open. */
  predicate LeavesOpen(s: PoolState, step: Step, c: nat)
    requires Active(s, c)
  {
    var q := s.requests[s.clients[c].request.value];
    && step.Received? && step.message.keepAlive && q.settings.keepAlive && q.transferCompleted
    && (!q.settings.followRedirect || step.message.code !in {300, 301, 302, 303, 307, 308})
  }

  /** Client `c` after its exchange: open if `open` says so, and with the next request. */
  ghost predicate After(s: PoolState, d: PoolState, c: nat, open: bool)
    requires c in s.clients
  {
    && c in d.clients && d.clients[c].request == NextOn(s, c)
    && match NextOn(s, c)
       case None => d.clients[c].connected == open && !d.clients[c].connecting
       case Some(w) =>
         && w in s.requests && d.clients[c].connected == (open && s.requests[w].settings.keepAlive)
         && d.clients[c].connecting == !d.clients[c].connected
  }

  lemma NextIs(s: PoolState, c: nat)
    requires Inv(s) && c in s.clients && NextOn(s, c).Some?
    ensures var w := NextOn(s, c).value;
      w in s.requests && NetLocOf(Claimed(s.requests[w], c)) == s.clients[c].netloc
  {
    hide RequestsOk, LinksOk, PlacesOk, HomesOk, RowsOk, OrderOk, SizesOk, FreeOk, BusyOk, NoTwice, NetLocOf;
    RowParts(s, s.clients[c].netloc, map[], {});
    assert WaitingOk(s, s.clients[c].netloc, NextOn(s, c).value, {});
    hide Startable;
    ClaimedPlace(s.requests[NextOn(s, c).value], c, s.now);
  }

  lemma FinishLeaves(s: PoolState, c: nat, q: Request, e: Option<Error>, keepAlive: bool)
    requires Inv(s) && Active(s, c) && Wired(s.clients[c]) && (e.Some? || s.clients[c].connected)
    requires var p := s.requests[s.clients[c].request.value];
      q.life == p.life && q.settings == p.settings && (q.timer.Some? ==> p.timer.Some?)
    ensures After(s, FinishOn(SetRequest(s, s.clients[c].request.value, q), c, e, keepAlive), c,
      e.None? && q.transferCompleted && keepAlive && q.settings.keepAlive)
  {
    var r := s.clients[c].request.value;
    var v := VerdictOf(q, e);
    var went := Let(s.clients[c], q, v, keepAlive, s.now);
    FinishIs(s, c, q, e, keepAlive);
    if NextOn(s, c).Some? { NextIs(s, c); }
    LetPlace(s.clients[c], q, v, keepAlive, s.now);
    hide Inv, FinishOn, Notify, Let, Passed, After, NetLocOf;
    PassedLeaves(s, FinishOn(SetRequest(s, r, q), c, e, keepAlive), c, went, r, Notify(q, v));
  }

  lemma PassedLeaves(s: PoolState, d: PoolState, c: nat, went: Client, r: nat, q: Request)
    requires c in s.clients && Passed(s, d, c, went, r, q) && !went.connecting && went.netloc == s.clients[c].netloc
    requires NextOn(s, c).Some? ==>
      NextOn(s, c).value in s.requests && NetLocOf(Claimed(s.requests[NextOn(s, c).value], c)) == s.clients[c].netloc
    ensures After(s, d, c, went.connected)
  {
    if NextOn(s, c).Some? { ClaimedSettings(s.requests[NextOn(s, c).value], c); }
    hide NetLocOf, Claimed, Sent, NextOn;
  }

  lemma LetPlace(cl: Client, q: Request, v: Verdict, keepAlive: bool, now: nat)
    ensures var d := Let(cl, q, v, keepAlive, now); d.netloc == cl.netloc && d.request.None?
    ensures var d := Let(cl, q, v, keepAlive, now);
      d.connected == (cl.connected && v.Succeeded? && keepAlive && q.settings.keepAlive)
      && (d.connecting ==> cl.connecting && v.Succeeded?)
  {
  }

  /** When an exchange ends, its connection stays open exactly after a response to a request that has been sent
      completely, if both sides want to keep it, and the request that waits for the client, if any, does too;
      that request has been started, on this connection or a new one. */
  lemma ExchangeEnds(s: PoolState, step: Step, c: nat)
    requires Inv(s) && AllWired(s) && Enabled(s, step) && Active(s, c) && EndsExchange(s, step, c)
    ensures After(s, Next(s, step), c, LeavesOpen(s, step, c))
  {
    ActiveIs(s, c);
    var r := s.clients[c].request.value;
    var q := s.requests[r];
    assert SetRequest(s, r, q) == s;
    assert Wired(s.clients[c]);
    LiveIs(s, r);
    hide Inv, AllWired, FinishOn, After, NetLocOf, Startable, LiveOk, Pickable;
    match step
    case Received(_, m) => ResponseEnds(s, c, m);
    case Disturbed(_, e) => FinishLeaves(s, c, q, Some(e), false);
    case Cancel(_, e) => FinishLeaves(s, c, q, Some(e), false);
    case TimerFires(_) => TimerEnds(s, c);
  }

  lemma TimerEnds(s: PoolState, c: nat)
    requires Inv(s) && Active(s, c) && Wired(s.clients[c]) && Enabled(s, TimerFires(s.clients[c].request.value))
    ensures After(s, Expire(s, s.clients[c].request.value), c, false)
  {
    var r := s.clients[c].request.value;
    var q := s.requests[r];
    ActiveIs(s, c);
    LiveIs(s, r);
    hide Inv, FinishOn, After, NetLocOf, Startable, LiveOk, Live;
    var t := q.(timer := Some(q.timer.value.(active := false)));
    FinishLeaves(s, c, t, Some(TimedOut), false);
    FinishLeaves(s, c, t, Some(ConnectTimedOut), false);
  }

  lemma ResponseEnds(s: PoolState, c: nat, m: Message)
    requires Inv(s) && Active(s, c) && Wired(s.clients[c]) && s.clients[c].connected
    requires EndsExchange(s, Received(c, m), c)
    ensures After(s, AnalyzeOn(s, c, m), c, LeavesOpen(s, Received(c, m), c))
  {
    ActiveIs(s, c);
    var r := s.clients[c].request.value;
    var q := s.requests[r];
    RedirectableIs(q, m);
    assert SetRequest(s, r, q) == s;
    hide Inv, FinishOn, After, NetLocOf, Startable, LiveOk, Redirectable;
    if !(q.settings.followRedirect && IsRedirect(m.code)) {
      FinishLeaves(s, c, q, None, m.keepAlive);
    } else if q.settings.redirectionLimit == 0 {
      FinishLeaves(s, c, q, Some(UnexpectedRedirect), false);
    } else if Increment(q.counter) > q.settings.redirectionLimit {
      FinishLeaves(s, c, q.(counter := Increment(q.counter)), Some(RedirectionLimit), false);
    } else if m.location.None? {
      FinishLeaves(s, c, q.(counter := Increment(q.counter)), Some(NoRedirectUri), false);
    } else {
      FinishLeaves(s, c, Redirected(q, m.location.value), Some(m.callback.error), false);
    }
  }

  /** Client `c` carries request `r`, on an open connection if `open` says so. */
  ghost predicate Serves(d: PoolState, c: nat, r: nat, open: bool) {
    && c in d.clients && d.clients[c].request == Some(r)
    && d.clients[c].connected == open && d.clients[c].connecting == !open
  }

  /** From `s` to `d` the request of client `c` stays on the open connection of the client exactly if both sides
      keep it and the next hop has the same host, port and SSL context. */
  ghost predicate StaysIff(s: PoolState, c: nat, keepAlive: bool, d: PoolState)
    requires Active(s, c)
  {
    var r := s.clients[c].request.value;
    var q := s.requests[r];
    && c in d.clients && r in d.requests
    && var p := d.requests[r];
       (d.clients[c].request == Some(r) && d.clients[c].connected <==>
         && keepAlive && q.settings.keepAlive
         && p.uri.host == q.uri.host && Port(p.uri) == Port(q.uri) && p.sslCtx == q.sslCtx)
  }

  /** A redirect that is followed goes on over the open connection of its client if and only if both sides keep
      the connection and the next hop has the same host, port and SSL context. The scheme does not matter. */
  lemma HopStaysIff(s: PoolState, c: nat, m: Message)
    requires Inv(s) && AllWired(s) && Enabled(s, Received(c, m)) && m.callback.Follow?
    requires var q := s.requests[s.clients[c].request.value]; Redirectable(q, m) && !HttpProxied(q)
    ensures StaysIff(s, c, m.keepAlive, Next(s, Received(c, m)))
  {
    var q := s.requests[s.clients[c].request.value];
    ActiveIs(s, c);
    RedirectableIs(q, m);
    hide Inv, AllWired, NetLocOf, Hop, Redirectable, Pickable, LiveOk, Startable, HttpProxied, StaysIff, ElsewhereThan, AnalyzeOn;
    if s.clients[c].pooled && ElsewhereThan(NetLocOf(Hop(q, m.location.value, m)), s.clients[c].netloc) {
      HopStaysAway(s, c, m, NetLocOf(Hop(q, m.location.value, m)));
    } else {
      HopStaysHere(s, c, m);
    }
  }

  lemma HopStaysAway(s: PoolState, c: nat, m: Message, k: NetLoc)
    requires Inv(s) && Active(s, c) && Follows(s.requests[s.clients[c].request.value], m) && s.clients[c].pooled
    requires !HttpProxied(s.requests[s.clients[c].request.value])
    requires k == NetLocOf(Hop(s.requests[s.clients[c].request.value], m.location.value, m))
    requires ElsewhereThan(k, s.clients[c].netloc) && Pickable(s, k, m.pick)
    ensures StaysIff(s, c, m.keepAlive, AnalyzeOn(s, c, m))
  {
    var q := s.requests[s.clients[c].request.value];
    var location := m.location.value;
    var hop := Hop(q, location, m);
    var t := PutBackForHop(s, c, location, m);
    var went := LetHop(s.clients[c], q, m.keepAlive).(lastActivity := s.now);
    assert hop.settings == q.settings;
    hide *;
    ActiveIs(s, c);
    HopAsks(q, location, m, s.now);
    HopPlace(q, hop, c);
    FollowsAway(s, c, m, k);
    PassedHere(s, t, c, went, s.clients[c].request.value, hop);
    HopGoes(s, AnalyzeOn(s, c, m), t, c, went, hop, k, m.pick, m.keepAlive);
  }

  lemma PassedHere(s: PoolState, t: PoolState, c: nat, went: Client, r: nat, q: Request)
    requires c in s.clients && r in s.requests && Passed(s, t, c, went, r, q)
    ensures r in t.requests && t.requests[r] == q
  {
    hide Sent, Carrying, Claimed;
  }

  lemma HopStaysHere(s: PoolState, c: nat, m: Message)
    requires Inv(s) && Active(s, c) && Follows(s.requests[s.clients[c].request.value], m) && s.clients[c].connected
    requires !HttpProxied(s.requests[s.clients[c].request.value])
    requires var k := NetLocOf(Hop(s.requests[s.clients[c].request.value], m.location.value, m));
      s.clients[c].pooled ==> !ElsewhereThan(k, s.clients[c].netloc)
    ensures StaysIff(s, c, m.keepAlive, AnalyzeOn(s, c, m))
  {
    var q := s.requests[s.clients[c].request.value];
    var location := m.location.value;
    var hop := Hop(q, location, m);
    assert hop.settings == q.settings;
    hide *;
    ActiveIs(s, c);
    HopAsks(q, location, m, s.now);
    HopPlace(q, hop, c);
    FollowsHere(s, c, m);
    HopIsHere(s, AnalyzeOn(s, c, m), c, hop, m.keepAlive);
  }

  lemma HopIsHere(s: PoolState, d: PoolState, c: nat, hop: Request, keepAlive: bool)
    requires Active(s, c) && s.clients[c].connected
    requires var q := s.requests[s.clients[c].request.value];
      && hop.settings == q.settings && NetLocOf(q) == s.clients[c].netloc && Claimed(hop, c).uri == hop.uri
      && (NetLocOf(Claimed(hop, c)) == NetLocOf(q) <==>
            hop.uri.host == q.uri.host && Port(hop.uri) == Port(q.uri) && hop.sslCtx == q.sslCtx)
      && StartedOn(LetGo(s, c, LetHop(s.clients[c], q, keepAlive), s.clients[c].request.value, hop), d, c, s.clients[c].request.value)
    ensures StaysIff(s, c, keepAlive, d)
  {
    var r := s.clients[c].request.value;
    HopStarts(s.clients[c], s.requests[r], hop, c, r, keepAlive, s.now);
    hide NetLocOf, Claimed, Sent, Carrying, LetHop, Port;
  }

  lemma HopGoes(s: PoolState, d: PoolState, t: PoolState, c: nat, went: Client, hop: Request, k: NetLoc, pick: nat, keepAlive: bool)
    requires Active(s, c) && Passed(s, t, c, went, s.clients[c].request.value, hop)
    requires var r := s.clients[c].request.value; c in t.clients && r in t.requests && t.requests[r] == hop
    requires c < t.nextClient && t.clients[c].netloc != k
    requires Requested(SetClient(t, c, t.clients[c].(weak := true)), d, k, s.clients[c].request.value, pick)
    requires hop.uri.scheme != ""
    requires var q := s.requests[s.clients[c].request.value]; !(hop.uri.host == q.uri.host && Port(hop.uri) == Port(q.uri))
    ensures StaysIff(s, c, keepAlive, d)
  {
    hide Passed, Requested, Port;
    HopLeaves(s, t, d, c, went, s.clients[c].request.value, hop, k, pick);
  }

  lemma HopPlace(q: Request, hop: Request, c: nat)
    requires !HttpProxied(q) && hop.settings == q.settings && hop.uri.scheme != ""
    ensures NetLocOf(Claimed(hop, c)) == NetLocOf(hop) && Claimed(hop, c).uri == hop.uri
    ensures NetLocOf(hop) == NetLocOf(q) <==> hop.uri.host == q.uri.host && Port(hop.uri) == Port(q.uri) && hop.sslCtx == q.sslCtx
    ensures ElsewhereThan(NetLocOf(hop), NetLocOf(q)) <==> !(hop.uri.host == q.uri.host && Port(hop.uri) == Port(q.uri))
  {
  }

  lemma HopStarts(cl: Client, q: Request, hop: Request, c: nat, r: nat, keepAlive: bool, now: nat)
    requires cl.connected && hop.settings == q.settings
    ensures var next := Carrying(LetHop(cl, q, keepAlive), Claimed(hop, c), r);
      && next.request == Some(r)
      && (next.connected <==> keepAlive && q.settings.keepAlive && NetLocOf(Claimed(hop, c)) == cl.netloc)
    ensures var p := Sent(Claimed(hop, c), now); p.uri == Claimed(hop, c).uri && p.sslCtx == hop.sslCtx
  {
    SentSame(Claimed(hop, c), now);
    hide NetLocOf, Sent;
  }

  lemma HopLeaves(s: PoolState, t: PoolState, d: PoolState, c: nat, went: Client, r: nat, q: Request, k: NetLoc, pick: nat)
    requires c in s.clients && Passed(s, t, c, went, r, q) && c in t.clients && r in t.requests && t.requests[r] == q
    requires c < t.nextClient && t.clients[c].netloc != k
    requires Requested(SetClient(t, c, t.clients[c].(weak := true)), d, k, r, pick)
    ensures c in d.clients && d.clients[c].request != Some(r)
    ensures r in d.requests && d.requests[r].sslCtx == q.sslCtx && d.requests[r].uri in {q.uri, WithScheme(q.uri)}
  {
    var u := SetClient(t, c, t.clients[c].(weak := true));
    TicketedIs(u, r);
    if NextOn(s, c).Some? { CarryingShape(went, Claimed(s.requests[NextOn(s, c).value], c), NextOn(s, c).value); }
    hide Carrying, Sent, Arm, Choose, Ticketed;
    var v := Ticketed(u, r);
    match Choose(u, k, pick)
    case None => ArmSame(v.requests[r], u.now);
    case Some(x) => SentSame(Claimed(v.requests[r], x), v.now);
  }

  /** Request `r` has been given a free client of its destination, a new one, or the last place in the queue. */
  ghost predicate Gets(s: PoolState, d: PoolState, r: nat, k: NetLoc, pick: nat)
    requires r in s.requests
  {
    if k in s.rows && s.rows[k].free != {} then
      && pick in s.clients && d.clients.Keys == s.clients.Keys
      && Serves(d, pick, r, s.clients[pick].connected && s.requests[r].settings.keepAlive)
    else if k !in s.rows || |s.rows[k].busy| < s.maxConnections then
      && s.nextClient !in s.clients && d.clients.Keys == s.clients.Keys + {s.nextClient}
      && Serves(d, s.nextClient, r, false)
    else
      d.clients == s.clients && k in d.rows && d.rows[k].queue == s.rows[k].queue + [r]
  }

  /** A submitted request gets an idle client of its destination, if there is one, on the connection of that
      client if it is open and the request wants to keep it; otherwise a new client, if one more is
      allowed; otherwise it waits behind the others. */
  lemma SubmitGets(s: PoolState, r: nat, pick: nat)
    requires Inv(s) && AllWired(s) && r in s.requests && Pickable(s, NetLocOf(s.requests[r]), pick)
    requires Submittable(s, r) && s.requests[r].uri.host != ""
    ensures Gets(s, SubmitTo(s, r, pick).0, r, NetLocOf(s.requests[r]), pick)
  {
    var k := NetLocOf(s.requests[r]);
    hide *;
    if Choose(s, k, pick).Some? {
      SubmitStarts(s, r, pick, Choose(s, k, pick).value);
      NumberFree(s);
      PickThere(s, k, pick);
      GetsClient(s, SubmitTo(s, r, pick).0, r, k, pick, Choose(s, k, pick).value);
    } else {
      WaitsLast(s, r, pick, k);
      GetsPlace(s, SubmitTo(s, r, pick).0, r, k, pick);
    }
  }

  lemma GetsClient(s: PoolState, d: PoolState, r: nat, k: NetLoc, pick: nat, x: nat)
    requires r in s.requests && Choose(s, k, pick) == Some(x) && s.nextClient !in s.clients
    requires k in s.rows && s.rows[k].free != {} ==> pick in s.clients
    requires d.clients.Keys == s.clients.Keys + {x}
    requires Serves(d, x, r, x in s.clients && s.clients[x].connected && s.requests[r].settings.keepAlive)
    ensures Gets(s, d, r, k, pick)
  {
    hide Serves;
  }

  lemma GetsPlace(s: PoolState, d: PoolState, r: nat, k: NetLoc, pick: nat)
    requires r in s.requests && Choose(s, k, pick).None? && k in s.rows && k in d.rows
    requires d.clients == s.clients && d.rows[k].queue == s.rows[k].queue + [r]
    ensures Gets(s, d, r, k, pick)
  {
  }

  lemma PickThere(s: PoolState, k: NetLoc, pick: nat)
    requires Pickable(s, k, pick)
    ensures k in s.rows && s.rows[k].free != {} ==> pick in s.clients
  {
  }

  lemma SubmitStarts(s: PoolState, r: nat, pick: nat, x: nat)
    requires Inv(s) && AllWired(s) && r in s.requests && Pickable(s, NetLocOf(s.requests[r]), pick)
    requires Submittable(s, r) && s.requests[r].uri.host != "" && Choose(s, NetLocOf(s.requests[r]), pick) == Some(x)
    ensures var d := SubmitTo(s, r, pick).0;
      && d.clients.Keys == s.clients.Keys + {x}
      && Serves(d, x, r, x in s.clients && s.clients[x].connected && s.requests[r].settings.keepAlive)
  {
    var q := s.requests[r];
    var k := NetLocOf(q);
    var u := SetRequest(s, r, q.(life := q.life.(accepted := q.life.accepted + 1, acceptedAt := s.now, hops := 0)));
    hide Inv, NetLocOf, SubmitTo, AllWired, Submittable, Pickable, Choose, StartedOn, Asks, Claimed;
    TakeAlike(s, u, k, pick);
    SubmitAsks(s, r, pick);
    TicketedIs(u, r);
    ClaimedHere(u, r, k);
    StartedWhere(s, Ticketed(u, r), SubmitTo(s, r, pick).0, x, r, k);
  }

  lemma NumberFree(s: PoolState)
    requires Inv(s)
    ensures s.nextClient !in s.clients
  {
    hide RequestsOk, PlacesOk, HomesOk, RowsOk, OrderOk;
  }

  lemma SubmitAsks(s: PoolState, r: nat, pick: nat)
    requires Inv(s) && r in s.requests && Pickable(s, NetLocOf(s.requests[r]), pick) && Submittable(s, r) && s.requests[r].uri.host != ""
    ensures var q := s.requests[r];
      var u := SetRequest(s, r, q.(life := q.life.(accepted := q.life.accepted + 1, acceptedAt := s.now, hops := 0)));
      && Asks(u, r, {r}) && NetLocOf(u.requests[r]) == NetLocOf(q)
      && Requested(u, SubmitTo(s, r, pick).0, NetLocOf(q), r, pick)
  {
    hide Partial, NetLocOf, Startable, Live, PoolRequest, IdleOk, Asks, Choose, Requested;
    var q := s.requests[r];
    IdleIs(s, r);
    SubmittedAsks(s, r);
    var u := SetRequest(s, r, q.(life := q.life.(accepted := q.life.accepted + 1, acceptedAt := s.now, hops := 0)));
    ToLimbo(s, r, u.requests[r]);
    PoolRequestIs(u, r, pick, NetLocOf(q));
  }

  lemma ClaimedHere(u: PoolState, r: nat, k: NetLoc)
    requires Asks(u, r, {r}) && NetLocOf(u.requests[r]) == k
    ensures forall x :: NetLocOf(Claimed(Ticketed(u, r).requests[r], x)) == k
  {
    forall x ensures NetLocOf(Claimed(Ticketed(u, r).requests[r], x)) == k {
      MarkedStarts(u.requests[r], Ticketed(u, r).requests[r]);
      ClaimedPlace(Ticketed(u, r).requests[r], x, u.now);
    }
  }

  lemma StartedWhere(s: PoolState, t: PoolState, d: PoolState, x: nat, r: nat, k: NetLoc)
    requires AllWired(s) && StartedOn(t, d, x, r) && t.clients == s.clients && r in s.requests
    requires t.requests[r].settings == s.requests[r].settings && NetLocOf(Claimed(t.requests[r], x)) == k
    requires x in s.clients ==> s.clients[x].netloc == k
    ensures d.clients.Keys == s.clients.Keys + {x}
    ensures Serves(d, x, r, x in s.clients && s.clients[x].connected && s.requests[r].settings.keepAlive)
  {
    ClaimedSettings(t.requests[r], x);
    NewIsWired(s, x);
    hide NetLocOf, Claimed, Sent;
  }

  lemma WaitsLast(s: PoolState, r: nat, pick: nat, k: NetLoc)
    requires r in s.requests && s.requests[r].uri.host != "" && k == NetLocOf(s.requests[r]) && Pickable(s, k, pick)
    requires Choose(s, k, pick).None?
    ensures var d := SubmitTo(s, r, pick).0;
      k in s.rows && k in d.rows && d.clients == s.clients && d.rows[k].queue == s.rows[k].queue + [r]
  {
    hide NetLocOf, Startable, Arm, Launch;
    MarkedIs(s, r, pick);
    SubmitIs(s, r, pick, k);
    hide SubmitTo, Take, Pickable;
  }

  // ---------------------------------------------------------------- when the loop does not wait for a client

  /** A working client is weak only if it was, with the same request; an idle one keeps its connection. */
  ghost predicate WeakAsBefore(cl: Client, next: Client) {
    && (next.request.Some? ==> next.weak == (next.request == cl.request && cl.weak))
    && (next.request.None? && cl.request.None? ==> next.connected == cl.connected)
  }

  ghost predicate AllWeak(s: PoolState, d: PoolState, but: Option<nat>) {
    forall c :: c in d.clients && but != Some(c) ==> WeakAsBefore(Was(s, c), d.clients[c])
  }

  lemma CarryingWeak(cl: Client, q: Request, r: nat)
    ensures !Carrying(cl, q, r).weak && Carrying(cl, q, r).request == Some(r)
  {
    hide NetLocOf;
  }

  lemma PassedWeak(s: PoolState, d: PoolState, c: nat, went: Client, r: nat, q: Request)
    requires c in s.clients && s.clients[c].request == Some(r) && Passed(s, d, c, went, r, q)
    ensures AllWeak(s, d, None) && c in d.clients
  {
    if NextOn(s, c).Some? { CarryingWeak(went, Claimed(s.requests[NextOn(s, c).value], c), NextOn(s, c).value); }
    hide Carrying, Claimed, Sent, NextOn;
  }

  lemma FinishWeak(s: PoolState, c: nat, q: Request, e: Option<Error>, keepAlive: bool)
    requires Inv(s) && Active(s, c)
    requires var p := s.requests[s.clients[c].request.value];
      q.life == p.life && q.settings == p.settings && (q.timer.Some? ==> p.timer.Some?)
    ensures AllWeak(s, FinishOn(SetRequest(s, s.clients[c].request.value, q), c, e, keepAlive), None)
  {
    hide Inv, FinishOn, Let, Notify, Passed, AllWeak;
    var cl := s.clients[c];
    var r := cl.request.value;
    var v := VerdictOf(q, e);
    FinishIs(s, c, q, e, keepAlive);
    PassedWeak(s, FinishOn(SetRequest(s, r, q), c, e, keepAlive), c, Let(cl, q, v, keepAlive, s.now), r, Notify(q, v));
  }

  lemma SameClientsWeak(s: PoolState, d: PoolState)
    requires d.clients == s.clients
    ensures AllWeak(s, d, None)
  {
  }

  lemma CancelWeak(s: PoolState, r: nat, q: Request, e: Error)
    requires Inv(s) && r in s.requests
    requires var p := s.requests[r]; q == p.(timer := q.timer) && (q.timer.Some? ==> p.timer.Some?)
    ensures AllWeak(s, CancelRequest(SetRequest(s, r, q), r, e), None)
  {
    LiveIs(s, r);
    hide Inv, FinishOn, CancelRequest, AllWeak, Live;
    if q.client.Some? {
      FinishWeak(s, q.client.value, q, Some(e), false);
      CancelIsFinish(s, r, q, e);
    } else {
      CancelLeavesClients(s, r, q, e);
      SameClientsWeak(s, CancelRequest(SetRequest(s, r, q), r, e));
    }
  }

  lemma RequestedWeak(s: PoolState, u: PoolState, d: PoolState, k: NetLoc, r: nat, pick: nat, but: Option<nat>)
    requires AllWeak(s, u, but) && r in u.requests && Requested(u, d, k, r, pick)
    requires Choose(u, k, pick).Some? ==> Was(u, Choose(u, k, pick).value) == Was(s, Choose(u, k, pick).value)
    ensures AllWeak(s, d, but)
  {
    TicketedIs(u, r);
    var t := Ticketed(u, r);
    match Choose(u, k, pick)
    case None =>
    case Some(x) =>
      CarryingWeak(Was(t, x), Claimed(t.requests[r], x), r);
      hide Choose, Ticketed, Carrying, Claimed, Sent;
  }

  /** The step sends the request of client `c` on by a redirect. */
  predicate Redirects(s: PoolState, step: Step, c: nat) {
    && step.Received? && step.c == c && Active(s, c)
    && Redirectable(s.requests[s.clients[c].request.value], step.message) && step.message.callback.Follow?
  }

  lemma FollowWeak(s: PoolState, c: nat, m: Message)
    requires Inv(s) && Enabled(s, Received(c, m)) && Follows(s.requests[s.clients[c].request.value], m)
    ensures var d := AnalyzeOn(s, c, m);
      && AllWeak(s, d, Some(c)) && c in d.clients
      && (d.clients[c].request.Some? ==> d.clients[c].weak == (d.clients[c].request != s.clients[c].request))
  {
    var r := s.clients[c].request.value;
    var q := s.requests[r];
    var location := m.location.value;
    var k := NetLocOf(Hop(q, location, m));
    hide Inv, AnalyzeOn, NetLocOf, Hop, LetHop, ElsewhereThan, Pickable, Follows, PutBackForHop, Passed, Requested, AllWeak, StartedOn;
    if s.clients[c].pooled && ElsewhereThan(k, s.clients[c].netloc) {
      FollowsAway(s, c, m, k);
      AwayWeak(s, PutBackForHop(s, c, location, m), AnalyzeOn(s, c, m), c,
        LetHop(s.clients[c], q, m.keepAlive).(lastActivity := s.now), r, Hop(q, location, m), k, m.pick);
    } else {
      FollowsHere(s, c, m);
      HereWeak(s, AnalyzeOn(s, c, m), c, LetHop(s.clients[c], q, m.keepAlive), r, Hop(q, location, m));
    }
  }

  lemma HereWeak(s: PoolState, d: PoolState, c: nat, went: Client, r: nat, hop: Request)
    requires c in s.clients && s.clients[c].request == Some(r) && StartedOn(LetGo(s, c, went, r, hop), d, c, r)
    ensures AllWeak(s, d, Some(c)) && c in d.clients && d.clients[c].request == Some(r) && !d.clients[c].weak
  {
    CarryingWeak(went, Claimed(hop, c), r);
    hide Carrying, Claimed, Sent;
  }

  lemma AwayWeak(s: PoolState, t: PoolState, d: PoolState, c: nat, went: Client, r: nat, q: Request, k: NetLoc, pick: nat)
    requires c in s.clients && s.clients[c].request == Some(r)
    requires Passed(s, t, c, went, r, q)
    requires c in t.clients && r in t.requests && c < t.nextClient && t.clients[c].netloc != k
    requires Requested(SetClient(t, c, t.clients[c].(weak := true)), d, k, r, pick)
    ensures AllWeak(s, d, Some(c)) && c in d.clients && d.clients[c].weak && d.clients[c].request != Some(r)
  {
    var u := SetClient(t, c, t.clients[c].(weak := true));
    PassedWeak(s, t, c, went, r, q);
    PassedElsewhere(s, t, c, went, r, q);
    AwayFromClient(s, u, k, pick, c, d, r);
    RestIsWeak(s, t, c);
    PassedLeft(s, t, c, went, r, q);
    StaysAway(u, d, k, r, pick, c);
    hide Passed, Requested, AllWeak, Choose, Was;
    RequestedWeak(s, u, d, k, r, pick, Some(c));
  }

  lemma RestIsWeak(s: PoolState, t: PoolState, c: nat)
    requires AllWeak(s, t, None) && c in t.clients
    ensures AllWeak(s, SetClient(t, c, t.clients[c].(weak := true)), Some(c))
  {
  }

  lemma PassedLeft(s: PoolState, t: PoolState, c: nat, went: Client, r: nat, q: Request)
    requires c in s.clients && Passed(s, t, c, went, r, q)
    ensures c in t.clients && t.clients[c].request != Some(r)
  {
    if NextOn(s, c).Some? { CarryingWeak(went, Claimed(s.requests[NextOn(s, c).value], c), NextOn(s, c).value); }
    hide Carrying, Claimed, Sent, NextOn;
  }

  /** Pool::request for another destination leaves a client alone. */
  lemma StaysAway(u: PoolState, d: PoolState, k: NetLoc, r: nat, pick: nat, c: nat)
    requires c in u.clients && u.clients[c].netloc != k && c < u.nextClient && r in u.requests && Requested(u, d, k, r, pick)
    ensures c in d.clients && d.clients[c] == u.clients[c]
  {
    TicketedIs(u, r);
    hide Choose, Ticketed, Carrying, Claimed, Sent, Arm;
  }

  lemma AnalyzeWeak(s: PoolState, c: nat, m: Message)
    requires Inv(s) && Enabled(s, Received(c, m)) && !Follows(s.requests[s.clients[c].request.value], m)
    ensures AllWeak(s, AnalyzeOn(s, c, m), None)
  {
    hide Inv, FinishOn, AllWeak, Pickable, NetLocOf;
    var r := s.clients[c].request.value;
    var q := s.requests[r];
    assert SetRequest(s, r, q) == s;
    if m.code == 100 {
      SameClientsWeak(s, s);
    } else if q.settings.followRedirect && IsRedirect(m.code) {
      if q.settings.redirectionLimit == 0 {
        FinishWeak(s, c, q, Some(UnexpectedRedirect), false);
      } else if Increment(q.counter) > q.settings.redirectionLimit {
        FinishWeak(s, c, q.(counter := Increment(q.counter)), Some(RedirectionLimit), false);
      } else if m.location.None? {
        FinishWeak(s, c, q.(counter := Increment(q.counter)), Some(NoRedirectUri), false);
      } else {
        FinishWeak(s, c, Redirected(q, m.location.value), Some(m.callback.error), false);
      }
    } else {
      FinishWeak(s, c, q, None, m.keepAlive);
    }
  }

  lemma SubmitWeak(s: PoolState, r: nat, pick: nat)
    requires Inv(s) && r in s.requests && Pickable(s, NetLocOf(s.requests[r]), pick) && Submittable(s, r)
    ensures AllWeak(s, SubmitTo(s, r, pick).0, None)
  {
    hide Inv, NetLocOf, Startable, Live, PoolRequest, Asks, AllWeak, Choose, Requested, Submittable, Pickable;
    if s.requests[r].uri.host != "" {
      var q := s.requests[r];
      var u := SetRequest(s, r, q.(life := q.life.(accepted := q.life.accepted + 1, acceptedAt := s.now, hops := 0)));
      SubmitAsks(s, r, pick);
      SameClientsWeak(s, u);
      hide SubmitTo;
      RequestedWeak(s, u, SubmitTo(s, r, pick).0, NetLocOf(q), r, pick, None);
    } else {
      SameClientsWeak(s, s);
    }
  }

  lemma ExpireWeak(s: PoolState, r: nat)
    requires Inv(s) && Enabled(s, TimerFires(r))
    ensures AllWeak(s, Expire(s, r), None)
  {
    LiveIs(s, r);
    hide Inv, Live, CancelRequest, AllWeak;
    var q := s.requests[r];
    var e := if q.client.Some? && q.client.value in s.clients && s.clients[q.client.value].connecting
             then ConnectTimedOut else TimedOut;
    CancelWeak(s, r, q.(timer := Some(q.timer.value.(active := false))), e);
  }

  lemma DestroyWeak(s: PoolState)
    ensures AllWeak(s, Destroy(s), None)
  {
    hide InQueue, InBusy, Notify;
  }

  lemma StepWeak(s: PoolState, step: Step)
    requires Inv(s) && AllWired(s) && Enabled(s, step) && Safe(s, step)
    requires step.Received? ==> !Follows(s.requests[s.clients[step.c].request.value], step.message)
    ensures AllWeak(s, Next(s, step), if step.Unexpected? then Some(step.c) else None)
  {
    hide Inv, AllWired, AllWeak, AnalyzeOn, Expire, SubmitTo, CancelRequest, KeepsRow, Submittable, NetLocOf, FinishOn, Fresh, Pickable, Destroy, Sweep, Follows;
    match step
    case Create(r, q) => SameClientsWeak(s, Next(s, step));
    case Submit(r, pick) => SubmitWeak(s, r, pick);
    case Cancel(r, e) =>
      assert SetRequest(s, r, s.requests[r]) == s;
      CancelWeak(s, r, s.requests[r], e);
    case TransferDone(r) => SameClientsWeak(s, Next(s, step));
    case TimerFires(r) => ExpireWeak(s, r);
    case Connected(c) => ConnectedWeak(s, c);
    case Disturbed(c, e) =>
      assert SetRequest(s, s.clients[c].request.value, s.requests[s.clients[c].request.value]) == s;
      FinishWeak(s, c, s.requests[s.clients[c].request.value], Some(e), false);
    case Received(c, m) => AnalyzeWeak(s, c, m);
    case Unexpected(c) => DropWeak(s, c);
    case Swept =>
      SweepOnlyRows(s);
      SameClientsWeak(s, Sweep(s));
    case Destroyed => DestroyWeak(s);
    case Tick(now) => SameClientsWeak(s, Next(s, step));
  }

  lemma ConnectedWeak(s: PoolState, c: nat)
    requires AllWired(s) && c in s.clients && s.clients[c].connecting
    ensures AllWeak(s, SetClient(s, c, s.clients[c].(connected := true, connecting := false)), None)
  {
  }

  lemma DropWeak(s: PoolState, c: nat)
    requires c in s.clients
    ensures AllWeak(s, SetClient(s, c, Drop(s.clients[c])), Some(c))
  {
  }

  /** The loop waits for every working client but one: a client is weak after a step, with a request, if and only
      if it was weak with that request and the step is no redirect of it, or the step has sent its request
      on to another client and it has started the next one. An idle connection is always weak. */
  lemma WeakIff(s: PoolState, step: Step, c: nat)
    requires Inv(s) && AllWired(s) && Enabled(s, step) && Safe(s, step) && c in Next(s, step).clients
    ensures var cl := Was(s, c);
      var next := Next(s, step).clients[c];
      && (next.request.Some? ==>
            next.weak == (if Redirects(s, step, c) then next.request != cl.request else next.request == cl.request && cl.weak))
      && (next.request.None? && next.connected ==> next.weak)
  {
    StepMoves(s, step);
    if step.Received? {
      ActiveIs(s, step.c);
      RedirectableIs(s.requests[s.clients[step.c].request.value], step.message);
      assert Redirects(s, step, step.c) <==> Follows(s.requests[s.clients[step.c].request.value], step.message);
      hide Inv, Next, Enabled, Safe, LiveOk, Startable, NetLocOf, Follows, AllWired, Redirectable, Moves;
      IdleIsWeak(s, Next(s, step), c);
      if Redirects(s, step, step.c) { RedirectWeak(s, step); } else { StepWeak(s, step); }
    } else {
      if step.Unexpected? { DroppedIs(s, step.c); }
      hide Inv, Next, Enabled, Safe, AllWired, Moves;
      IdleIsWeak(s, Next(s, step), c);
      StepWeak(s, step);
    }
  }

  lemma DroppedIs(s: PoolState, c: nat)
    requires c in s.clients && s.clients[c].request.None?
    ensures var d := Next(s, Unexpected(c));
      c in d.clients && d.clients[c].request.None? && !d.clients[c].connected
  {
  }

  /** The connection of a client that is idle and stays so goes down exactly by data that nobody expects. (A sweep
      takes the client itself away.) */
  lemma IdleEndsIff(s: PoolState, step: Step, c: nat)
    requires Inv(s) && AllWired(s) && Enabled(s, step) && Safe(s, step)
    requires c in s.clients && s.clients[c].request.None? && s.clients[c].connected
    requires c in Next(s, step).clients && Next(s, step).clients[c].request.None?
    ensures !Next(s, step).clients[c].connected <==> step == Unexpected(c)
  {
    if step.Unexpected? { DroppedIs(s, step.c); }
    if step.Received? && Follows(s.requests[s.clients[step.c].request.value], step.message) {
      hide Inv, Next, Safe, NetLocOf, Follows, AllWired, Pickable;
      RedirectWeak(s, step);
    } else {
      hide Inv, Next, Enabled, Safe, AllWired, Follows;
      StepWeak(s, step);
    }
  }

  lemma RedirectWeak(s: PoolState, step: Step)
    requires Inv(s) && Enabled(s, step) && step.Received? && Follows(s.requests[s.clients[step.c].request.value], step.message)
    ensures var d := Next(s, step);
      var c := step.c;
      && AllWeak(s, d, Some(c)) && c in d.clients
      && (d.clients[c].request.Some? ==> d.clients[c].weak == (d.clients[c].request != s.clients[c].request))
  {
    hide Inv, AnalyzeOn, Follows, NetLocOf, Pickable, Hop, AllWeak;
    FollowWeak(s, step.c, step.message);
  }

  lemma IdleIsWeak(s: PoolState, d: PoolState, c: nat)
    requires AllMove(s, d) && c in d.clients
    ensures d.clients[c].request.None? && d.clients[c].connected ==> d.clients[c].weak
  {
  }

  // ---------------------------------------------------------------- whether a request has been sent completely

  /** Writing the request sends all of it: a form without files, or a body that is not chunked or there. */
  predicate SentAtOnce(q: Request) {
    q.settings.form == PlainForm || (q.settings.form == NoForm && (q.settings.chunked ==> q.hasBody))
  }

  ghost predicate Unsent(s: PoolState) {
    forall r :: r in s.requests && s.requests[r].client.None? ==> !s.requests[r].transferCompleted
  }

  /** The step is a whole response to the request, so that the request, if it goes on, is sent again. */
  predicate Answered(s: PoolState, step: Step, r: nat) {
    step.Received? && step.c in s.clients && s.clients[step.c].request == Some(r) && step.message.code != 100
  }

  /** From `q` to `p`: nothing is sent of a request without a client, one that is started is sent at once or
      not, and the rest is as before. */
  ghost predicate SendMoves(q: Request, p: Request, again: bool) {
    if p.client.None? then !p.transferCompleted
    else if q.client.None? || again then p.transferCompleted == SentAtOnce(p)
    else p.transferCompleted == q.transferCompleted
  }

  ghost predicate AllSend(s: PoolState, d: PoolState, again: Option<nat>) {
    && (forall r :: r in s.requests ==> r in d.requests && SendMoves(s.requests[r], d.requests[r], again == Some(r)))
    && (forall r :: r in d.requests && r !in s.requests ==> d.requests[r].client.None? && !d.requests[r].transferCompleted)
  }

  lemma SentIs(q: Request, c: nat, now: nat)
    requires !q.transferCompleted
    ensures var p := Sent(Claimed(q, c), now); p.client == Some(c) && p.transferCompleted == SentAtOnce(p)
  {
  }

  lemma NotifyUnsent(q: Request, v: Verdict)
    ensures Notify(q, v).client.None? && !Notify(q, v).transferCompleted
  {
  }

  lemma PassedSends(s: PoolState, d: PoolState, c: nat, went: Client, r: nat, q: Request, again: Option<nat>)
    requires Unsent(s) && c in s.clients && r in s.requests && Passed(s, d, c, went, r, q)
    requires q.client.None? && !q.transferCompleted && (again.None? || again == Some(r))
    ensures AllSend(s, d, again) && d.requests.Keys == s.requests.Keys && r in d.requests && d.requests[r] == q
  {
    if NextOn(s, c).Some? { SentIs(s.requests[NextOn(s, c).value], c, s.now); }
    hide Sent, Claimed, Carrying, SentAtOnce, SendMoves;
    NothingSends(s.requests[r], q, again == Some(r));
    forall x | x in s.requests && x != r ensures SendMoves(s.requests[x], d.requests[x], false) {
      if NextOn(s, c) == Some(x) { SendsAnew(s.requests[x], d.requests[x], false); } else { SendsOn(s.requests[x], false); }
    }
  }

  lemma FinishSends(s: PoolState, c: nat, q: Request, e: Option<Error>, keepAlive: bool, again: Option<nat>)
    requires Inv(s) && Unsent(s) && Active(s, c) && (again.None? || again == s.clients[c].request)
    requires var p := s.requests[s.clients[c].request.value];
      q.life == p.life && q.settings == p.settings && (q.timer.Some? ==> p.timer.Some?)
    ensures AllSend(s, FinishOn(SetRequest(s, s.clients[c].request.value, q), c, e, keepAlive), again)
  {
    var r := s.clients[c].request.value;
    var v := VerdictOf(q, e);
    hide Inv, FinishOn, Let, Notify, Passed, AllSend, Unsent;
    FinishIs(s, c, q, e, keepAlive);
    NotifyUnsent(q, v);
    PassedSends(s, FinishOn(SetRequest(s, r, q), c, e, keepAlive), c, Let(s.clients[c], q, v, keepAlive, s.now), r, Notify(q, v), again);
  }

  lemma SameRequestsSend(s: PoolState, d: PoolState)
    requires Unsent(s) && d.requests == s.requests
    ensures AllSend(s, d, None)
  {
  }

  lemma CancelSends(s: PoolState, r: nat, q: Request, e: Error)
    requires Inv(s) && Unsent(s) && r in s.requests
    requires var p := s.requests[r]; q == p.(timer := q.timer) && (q.timer.Some? ==> p.timer.Some?)
    ensures AllSend(s, CancelRequest(SetRequest(s, r, q), r, e), None)
  {
    LiveIs(s, r);
    hide Inv, FinishOn, CancelRequest, AllSend, Live, Queued;
    if q.client.Some? {
      FinishSends(s, q.client.value, q, Some(e), false, None);
      CancelIsFinish(s, r, q, e);
    } else {
      CancelWaitingSends(s, r, q, e);
    }
  }

  lemma CancelWaitingSends(s: PoolState, r: nat, q: Request, e: Error)
    requires Unsent(s) && r in s.requests && q.client.None? && q == s.requests[r].(timer := q.timer)
    ensures AllSend(s, CancelRequest(SetRequest(s, r, q), r, e), None)
  {
    NotifyUnsent(q, Failed(e));
    hide NetLocOf, Notify, Find, FinishOn, SentAtOnce;
  }

  lemma HopUnsent(q: Request, location: Uri, m: Message)
    requires m.callback.Follow?
    ensures Hop(q, location, m).client.None? && !Hop(q, location, m).transferCompleted
  {
  }

  lemma FollowHereSends(s: PoolState, c: nat, m: Message)
    requires Inv(s) && Unsent(s) && Active(s, c) && Follows(s.requests[s.clients[c].request.value], m)
    requires var k := NetLocOf(Hop(s.requests[s.clients[c].request.value], m.location.value, m));
      s.clients[c].pooled ==> !ElsewhereThan(k, s.clients[c].netloc)
    ensures AllSend(s, AnalyzeOn(s, c, m), s.clients[c].request)
  {
    FollowsHere(s, c, m);
    var r := s.clients[c].request.value;
    var hop := Hop(s.requests[r], m.location.value, m);
    HopUnsent(s.requests[r], m.location.value, m);
    SentIs(hop, c, s.now);
    hide Inv, AnalyzeOn, NetLocOf, LetHop, Hop, Follows, Carrying, Claimed, Sent, SentAtOnce, SendMoves;
    hide AllSend, Unsent;
    var d := AnalyzeOn(s, c, m);
    SendsAnew(s.requests[r], d.requests[r], true);
    assert d.requests == s.requests[r := d.requests[r]];
    OnlyOneSends(s, d, r);
  }

  lemma OnlyOneSends(s: PoolState, d: PoolState, r: nat)
    requires Unsent(s) && r in s.requests && r in d.requests && d.requests == s.requests[r := d.requests[r]]
    requires SendMoves(s.requests[r], d.requests[r], true)
    ensures AllSend(s, d, Some(r))
  {
    hide SendMoves;
    forall x | x in s.requests && x != r ensures SendMoves(s.requests[x], d.requests[x], false) {
      SendsOn(s.requests[x], false);
    }
  }

  lemma RequestedSends(s: PoolState, u: PoolState, d: PoolState, k: NetLoc, r: nat, pick: nat, again: Option<nat>)
    requires AllSend(s, u, again) && r in s.requests && r in u.requests && u.requests.Keys == s.requests.Keys
    requires u.requests[r].client.None? && !u.requests[r].transferCompleted && (s.requests[r].client.Some? ==> again == Some(r))
    requires Requested(u, d, k, r, pick)
    ensures AllSend(s, d, again)
  {
    TicketedIs(u, r);
    var t := Ticketed(u, r);
    hide Choose, Ticketed, Sent, Claimed, Carrying, SentAtOnce, Arm, SendMoves, AllSend;
    match Choose(u, k, pick)
    case None => ArmSame(t.requests[r], u.now);
    case Some(x) => SentIs(t.requests[r], x, u.now);
    assert d.requests == u.requests[r := d.requests[r]];
    SendsAnew(s.requests[r], d.requests[r], again == Some(r));
    OneSends(s, u, d, r, again);
  }

  lemma OneSends(s: PoolState, u: PoolState, d: PoolState, r: nat, again: Option<nat>)
    requires AllSend(s, u, again) && u.requests.Keys == s.requests.Keys && r in s.requests && r in d.requests
    requires d.requests == u.requests[r := d.requests[r]] && SendMoves(s.requests[r], d.requests[r], again == Some(r))
    ensures AllSend(s, d, again)
  {
    hide SendMoves;
  }

  lemma SendsAnew(q: Request, p: Request, again: bool)
    requires q.client.Some? ==> again
    requires if p.client.Some? then p.transferCompleted == SentAtOnce(p) else !p.transferCompleted
    ensures SendMoves(q, p, again)
  {
  }

  lemma NothingSends(q: Request, p: Request, again: bool)
    requires p.client.None? && !p.transferCompleted
    ensures SendMoves(q, p, again)
  {
  }

  lemma SendsOn(q: Request, again: bool)
    requires q.client.None? ==> !q.transferCompleted
    requires !again
    ensures SendMoves(q, q, again)
  {
  }

  lemma FollowAwaySends(s: PoolState, c: nat, m: Message, k: NetLoc)
    requires Inv(s) && Unsent(s) && Active(s, c) && Follows(s.requests[s.clients[c].request.value], m)
    requires s.clients[c].pooled && k == NetLocOf(Hop(s.requests[s.clients[c].request.value], m.location.value, m))
    requires ElsewhereThan(k, s.clients[c].netloc) && Pickable(s, k, m.pick)
    ensures AllSend(s, AnalyzeOn(s, c, m), s.clients[c].request)
  {
    var r := s.clients[c].request.value;
    var q := s.requests[r];
    var location := m.location.value;
    var again := Some(r);
    var t := PutBackForHop(s, c, location, m);
    hide Inv, AnalyzeOn, NetLocOf, LetHop, Hop, Follows, PutBackForHop, ElsewhereThan, Pickable, Passed, Requested, AllSend, Unsent;
    FollowsAway(s, c, m, k);
    HopUnsent(q, location, m);
    PassedSends(s, t, c, LetHop(s.clients[c], q, m.keepAlive).(lastActivity := s.now), r, Hop(q, location, m), again);
    var u := SetClient(t, c, t.clients[c].(weak := true));
    SameSends(s, t, u, again);
    RequestedSends(s, u, AnalyzeOn(s, c, m), k, r, m.pick, again);
  }

  lemma SameSends(s: PoolState, d: PoolState, e: PoolState, again: Option<nat>)
    requires AllSend(s, d, again) && e.requests == d.requests
    ensures AllSend(s, e, again)
  {
  }

  lemma AnalyzeSends(s: PoolState, c: nat, m: Message)
    requires Inv(s) && Unsent(s) && Enabled(s, Received(c, m))
    ensures AllSend(s, AnalyzeOn(s, c, m), if m.code == 100 then None else s.clients[c].request)
  {
    var q := s.requests[s.clients[c].request.value];
    if Follows(q, m) {
      var k := NetLocOf(Hop(q, m.location.value, m));
      hide Inv, Unsent, AllSend, AnalyzeOn, NetLocOf, Hop, ElsewhereThan, Pickable;
      if s.clients[c].pooled && ElsewhereThan(k, s.clients[c].netloc) {
        FollowAwaySends(s, c, m, k);
      } else {
        FollowHereSends(s, c, m);
      }
    } else {
      hide Inv, Unsent, AllSend, Pickable, NetLocOf;
      RefusedSends(s, c, m);
    }
  }

  lemma RefusedSends(s: PoolState, c: nat, m: Message)
    requires Inv(s) && Unsent(s) && Active(s, c) && !Follows(s.requests[s.clients[c].request.value], m)
    ensures AllSend(s, AnalyzeOn(s, c, m), if m.code == 100 then None else s.clients[c].request)
  {
    hide Inv, FinishOn, Unsent, AllSend;
    var r := s.clients[c].request.value;
    var q := s.requests[r];
    var again := s.clients[c].request;
    assert SetRequest(s, r, q) == s;
    if m.code == 100 {
      SameRequestsSend(s, s);
    } else if q.settings.followRedirect && IsRedirect(m.code) {
      if q.settings.redirectionLimit == 0 {
        FinishSends(s, c, q, Some(UnexpectedRedirect), false, again);
      } else if Increment(q.counter) > q.settings.redirectionLimit {
        FinishSends(s, c, q.(counter := Increment(q.counter)), Some(RedirectionLimit), false, again);
      } else if m.location.None? {
        FinishSends(s, c, q.(counter := Increment(q.counter)), Some(NoRedirectUri), false, again);
      } else {
        FinishSends(s, c, Redirected(q, m.location.value), Some(m.callback.error), false, again);
      }
    } else {
      FinishSends(s, c, q, None, m.keepAlive, again);
    }
  }

  lemma SubmitSends(s: PoolState, r: nat, pick: nat)
    requires Inv(s) && Unsent(s) && r in s.requests && Pickable(s, NetLocOf(s.requests[r]), pick) && Submittable(s, r)
    ensures AllSend(s, SubmitTo(s, r, pick).0, None)
  {
    hide Partial, NetLocOf, Startable, Live, PoolRequest, IdleOk, Choose, Requested, Pickable;
    if s.requests[r].uri.host != "" {
      var q := s.requests[r];
      var u := SetRequest(s, r, q.(life := q.life.(accepted := q.life.accepted + 1, acceptedAt := s.now, hops := 0)));
      IdleIs(s, r);
      SubmitAsks(s, r, pick);
      SameSendings(s, u);
      hide Asks, SubmitTo;
      RequestedSends(s, u, SubmitTo(s, r, pick).0, NetLocOf(q), r, pick, None);
    } else {
      SameRequestsSend(s, s);
    }
  }

  lemma SameSendings(s: PoolState, u: PoolState)
    requires Unsent(s) && u.requests.Keys == s.requests.Keys
    requires forall r :: r in s.requests ==>
      u.requests[r].client == s.requests[r].client && u.requests[r].transferCompleted == s.requests[r].transferCompleted
    ensures AllSend(s, u, None)
  {
  }

  lemma ExpireSends(s: PoolState, r: nat)
    requires Inv(s) && Unsent(s) && Enabled(s, TimerFires(r))
    ensures AllSend(s, Expire(s, r), None)
  {
    LiveIs(s, r);
    hide Inv, Live, CancelRequest, Unsent, AllSend;
    var q := s.requests[r];
    var e := if q.client.Some? && q.client.value in s.clients && s.clients[q.client.value].connecting
             then ConnectTimedOut else TimedOut;
    CancelSends(s, r, q.(timer := Some(q.timer.value.(active := false))), e);
  }

  lemma DestroySends(s: PoolState)
    requires Unsent(s)
    ensures AllSend(s, Destroy(s), None)
  {
    hide InQueue, InBusy, Notify, SentAtOnce;
    forall r | r in s.requests ensures SendMoves(s.requests[r], Destroy(s).requests[r], false) {
      NotifyUnsent(s.requests[r], Failed(OperationCanceled));
    }
  }

  /** What every step but the end of a transfer does to the transfers of all requests. */
  lemma StepSends(s: PoolState, step: Step)
    requires Inv(s) && Unsent(s) && Enabled(s, step) && Safe(s, step) && !step.TransferDone?
    ensures AllSend(s, Next(s, step),
      if step.Received? && step.message.code != 100 then s.clients[step.c].request else None)
  {
    hide Inv, Unsent, AllSend, AnalyzeOn, Expire, SubmitTo, CancelRequest, KeepsRow, Submittable, NetLocOf, FinishOn, Pickable, Destroy, Sweep;
    match step
    case Create(r, q) => CreateSends(s, r, q);
    case Submit(r, pick) => SubmitSends(s, r, pick);
    case Cancel(r, e) =>
      assert SetRequest(s, r, s.requests[r]) == s;
      CancelSends(s, r, s.requests[r], e);
    case TimerFires(r) => ExpireSends(s, r);
    case Connected(c) => SameRequestsSend(s, Next(s, step));
    case Disturbed(c, e) =>
      assert SetRequest(s, s.clients[c].request.value, s.requests[s.clients[c].request.value]) == s;
      FinishSends(s, c, s.requests[s.clients[c].request.value], Some(e), false, None);
    case Received(c, m) => AnalyzeSends(s, c, m);
    case Unexpected(c) => SameRequestsSend(s, Next(s, step));
    case Swept =>
      SweepOnlyRows(s);
      SameRequestsSend(s, Sweep(s));
    case Destroyed => DestroySends(s);
    case Tick(now) => SameRequestsSend(s, Next(s, step));
  }

  lemma CreateSends(s: PoolState, r: nat, q: Request)
    requires Unsent(s) && r !in s.requests && Fresh(q)
    ensures AllSend(s, SetRequest(s, r, q), None)
  {
  }

  /** The end of the transfer of request `r` has been reported in the run since the request was last started:
      since it last got a client, or went on to the next hop on its client. */
  ghost function SentSince(s: PoolState, steps: seq<Step>, r: nat): bool {
    if steps == [] then false
    else
      var step := steps[|steps| - 1];
      var before := Run(s, steps[..|steps| - 1]);
      if r !in before.requests || before.requests[r].client.None? || Answered(before, step, r) then false
      else step == TransferDone(r) || SentSince(s, steps[..|steps| - 1], r)
  }

  /** Transfers, over every run: a request without a client has nothing sent; one with a client has been sent
      completely exactly if it was when it was started, or the end of its transfer has been reported since. So
      a response counts as a success exactly then. */
  lemma {:induction false} TransferIsKnown(idleTimeout: nat, maxConnections: nat, steps: seq<Step>, r: nat)
    requires Legal(NewPool(idleTimeout, maxConnections), steps)
    requires r in Reached(idleTimeout, maxConnections, steps).requests
    ensures var q := Reached(idleTimeout, maxConnections, steps).requests[r];
      q.transferCompleted ==
        (q.client.Some? && (SentAtOnce(q) || SentSince(NewPool(idleTimeout, maxConnections), steps, r)))
  {
    hide Next, Enabled, Safe, Inv, SentAtOnce;
    if steps != [] {
      var before, step := steps[..|steps| - 1], steps[|steps| - 1];
      var s := Reached(idleTimeout, maxConnections, before);
      RunKeeps(idleTimeout, maxConnections, before);
      if r in s.requests { TransferIsKnown(idleTimeout, maxConnections, before, r); }
      AllUnsent(idleTimeout, maxConnections, before);
      OneTransfer(s, step, r, SentSince(NewPool(idleTimeout, maxConnections), before, r));
    }
  }

  lemma {:induction false} AllUnsent(idleTimeout: nat, maxConnections: nat, steps: seq<Step>)
    requires Legal(NewPool(idleTimeout, maxConnections), steps)
    ensures Unsent(Reached(idleTimeout, maxConnections, steps))
  {
    hide Next, Enabled, Safe, Inv, SentAtOnce;
    if steps != [] {
      var before, step := steps[..|steps| - 1], steps[|steps| - 1];
      AllUnsent(idleTimeout, maxConnections, before);
      RunKeeps(idleTimeout, maxConnections, before);
      StepUnsent(Reached(idleTimeout, maxConnections, before), step);
    }
  }

  lemma StepUnsent(s: PoolState, step: Step)
    requires Inv(s) && Unsent(s) && Enabled(s, step) && Safe(s, step)
    ensures Unsent(Next(s, step))
  {
    hide Inv, SentAtOnce, Safe;
    if step.TransferDone? {
    } else {
      StepSends(s, step);
      hide Next, Enabled;
    }
  }

  lemma OneTransfer(s: PoolState, step: Step, r: nat, since: bool)
    requires Inv(s) && Unsent(s) && Enabled(s, step) && Safe(s, step) && r in Next(s, step).requests
    requires r in s.requests ==>
      s.requests[r].transferCompleted == (s.requests[r].client.Some? && (SentAtOnce(s.requests[r]) || since))
    ensures var p := Next(s, step).requests[r];
      var q := if r in s.requests then s.requests[r] else p;
      var sent := if r !in s.requests || q.client.None? || Answered(s, step, r) then false else step == TransferDone(r) || since;
      p.transferCompleted == (p.client.Some? && (SentAtOnce(p) || sent))
  {
    hide Inv, Safe, NetLocOf;
    if step.TransferDone? {
      TransferSends(s, step.r, r);
    } else {
      StepSends(s, step);
      if r in s.requests && !Answered(s, step, r) {
        NotRedirected(s, step, r);
        TargetStays(s, step, r);
      }
      hide Next, Enabled;
    }
  }

  lemma NotRedirected(s: PoolState, step: Step, r: nat)
    requires Enabled(s, step) && r in s.requests && !Answered(s, step, r)
    ensures !(step.Received? && s.clients[step.c].request == Some(r) && Redirectable(s.requests[r], step.message))
  {
    hide NetLocOf;
  }

  lemma TransferSends(s: PoolState, x: nat, r: nat)
    requires Unsent(s) && x in s.requests && r in s.requests
    ensures var p := FinalChunk(s, x).0.requests[r];
      var q := s.requests[r];
      && p == q.(transferCompleted := p.transferCompleted)
      && p.transferCompleted == (if x == r then q.client.Some? else q.transferCompleted)
  {
  }
}

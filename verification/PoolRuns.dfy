/** The invariant of the client side holds over every run. */
module PoolRuns {
  import opened Options
  import opened Pooling
  import opened PoolInvariant
  import opened PoolSteps
  import opened PoolRequests

  // ---------------------------------------------------------------- submission

  lemma NotLiveNotWaiting(s: PoolState, k: NetLoc, r: nat)
    requires RowsOk(s, map[], {}) && k in s.rows && r in s.requests && !Live(s, r)
    ensures r !in s.rows[k].queue
  {
    hide Startable, NetLocOf, SizesOk, FreeOk, BusyOk, NoTwice;
    RowParts(s, k, map[], {});
    forall x | x in s.rows[k].queue ensures x != r {
      assert WaitingOk(s, k, x, {});
      assert QueuedAt(s, k, x);
    }
  }

  /** A request that is in no place changes, and is in limbo from now on. */
  lemma LimboRows(s: PoolState, r: nat, q: Request)
    requires RowsOk(s, map[], {}) && r in s.requests && !Live(s, r)
    ensures RowsOk(SetRequest(s, r, q), map[], {r})
  {
    var d := SetRequest(s, r, q);
    forall k | k in d.rows ensures RowOk(d, k, d.rows[k], map[], {r}) {
      NotLiveNotWaiting(s, k, r);
      hide RowsOk, Live, Startable, NetLocOf, RowOk;
      assert RowOk(s, k, s.rows[k], map[], {}) by { RowsRow(s, k, map[], {}); }
      RowFrame(s, d, k, s.rows[k], map[], {}, map[], {r});
    }
  }

  lemma RowsRow(s: PoolState, k: NetLoc, holes: map<nat, NetLoc>, limbo: set<nat>)
    requires RowsOk(s, holes, limbo) && k in s.rows
    ensures RowOk(s, k, s.rows[k], holes, limbo)
  {
    hide RowOk;
  }

  lemma LimboRest(s: PoolState, r: nat, q: Request)
    requires RequestsOk(s, {}) && LinksOk(s, {}) && PlacesOk(s) && HomesOk(s, map[]) && r in s.requests && !Live(s, r)
    ensures var d := SetRequest(s, r, q);
      RequestsOk(d, {r}) && LinksOk(d, {r}) && PlacesOk(d) && HomesOk(d, map[])
  {
    hide Startable, NetLocOf, LiveOk, IdleOk, Queued;
    var d := SetRequest(s, r, q);
    forall x | x in d.requests && x != r ensures Live(d, x) == Live(s, x) && d.requests[x] == s.requests[x] {
      QueuedSame(s, r, q, x);
    }
  }

  lemma QueuedSame(s: PoolState, r: nat, q: Request, x: nat)
    requires x != r && x in s.requests
    ensures Queued(SetRequest(s, r, q), x) == Queued(s, x)
  {
    hide NetLocOf;
  }

  lemma LimboOrder(s: PoolState, r: nat, q: Request)
    requires OrderOk(s) && r in s.requests && forall k :: k in s.rows ==> r !in s.rows[k].queue
    ensures OrderOk(SetRequest(s, r, q))
  {
    hide QueueOrdered;
    var d := SetRequest(s, r, q);
    forall k | k in d.rows ensures QueueOrdered(d, k, d.rows[k].queue) {
      assert QueueOrdered(s, k, s.rows[k].queue);
      QueueOrderedIn(s, k, s.rows[k].queue);
      OrderFrame(s, d, k, s.rows[k].queue);
    }
  }

  lemma ToLimbo(s: PoolState, r: nat, q: Request)
    requires Inv(s) && r in s.requests && !Live(s, r)
    ensures Partial(SetRequest(s, r, q), map[], {r})
  {
    hide RequestsOk, LinksOk, PlacesOk, HomesOk, RowsOk, OrderOk, Live;
    LimboRows(s, r, q);
    LimboRest(s, r, q);
    forall k | k in s.rows ensures r !in s.rows[k].queue { NotLiveNotWaiting(s, k, r); }
    LimboOrder(s, r, q);
  }

  lemma SubmittedAsks(s: PoolState, r: nat)
    requires r in s.requests && IdleOk(s.requests[r]) && s.requests[r].client.None? && Startable(s.requests[r])
    ensures var q := s.requests[r];
      var p := q.(life := q.life.(accepted := q.life.accepted + 1, acceptedAt := s.now, hops := 0));
      NetLocOf(p) == NetLocOf(q) && Asks(SetRequest(s, r, p), r, {r})
  {
  }

  lemma IdleIs(s: PoolState, r: nat)
    requires Inv(s) && r in s.requests && !Live(s, r)
    ensures IdleOk(s.requests[r]) && s.requests[r].client.None?
  {
    hide LinksOk, PlacesOk, HomesOk, RowsOk, OrderOk, IdleOk, LiveOk;
  }

  /** A request may be submitted when it is not in progress and can be started, or is refused at once. */
  predicate Submittable(s: PoolState, r: nat)
    requires r in s.requests
  {
    s.requests[r].uri.host == "" || (!Live(s, r) && Startable(s.requests[r]))
  }

  lemma SubmitKeeps(s: PoolState, r: nat, pick: nat)
    requires Inv(s) && s.alive && r in s.requests && Pickable(s, NetLocOf(s.requests[r]), pick)
    requires Submittable(s, r)
    ensures Inv(SubmitTo(s, r, pick).0)
    ensures SubmitTo(s, r, pick).1 == if s.requests[r].uri.host == "" then Threw else Ok
  {
    hide Partial, NetLocOf, Startable, Live, PoolRequest, IdleOk, Asks;
    if s.requests[r].uri.host != "" {
      var q := s.requests[r];
      IdleIs(s, r);
      SubmittedAsks(s, r);
      var d := SetRequest(s, r, q.(life := q.life.(accepted := q.life.accepted + 1, acceptedAt := s.now, hops := 0)));
      ToLimbo(s, r, d.requests[r]);
      PoolRequestKeeps(d, r, pick, {r});
      assert {r} - {r} == {};
    }
  }

  // ---------------------------------------------------------------- cancellation

  lemma CancelActiveKeeps(s: PoolState, c: nat, q: Request, e: Error)
    requires Inv(s) && Active(s, c)
    requires var p := s.requests[s.clients[c].request.value];
      q.life == p.life && q.settings == p.settings && (q.timer.Some? ==> p.timer.Some?)
    ensures Inv(CancelOn(SetRequest(s, s.clients[c].request.value, q), c, e))
  {
    hide Inv, FinishOn;
    FinishCountedKeeps(s, c, q, Some(e), false);
  }

  function Without(queue: seq<nat>, i: nat): seq<nat>
    requires i < |queue|
  {
    queue[..i] + queue[i + 1..]
  }

  lemma WithoutOnce(queue: seq<nat>, i: nat)
    requires i < |queue| && NoTwice(queue)
    ensures var w := Without(queue, i);
      && NoTwice(w) && queue[i] !in w
      && (forall x :: x in w <==> x in queue && x != queue[i])
  {
    var w := Without(queue, i);
    forall x | x in queue && x != queue[i] ensures x in w {
      var j :| 0 <= j < |queue| && queue[j] == x;
      if j < i { assert w[j] == x; } else { assert w[j - 1] == x; }
    }
  }

  /** A waiting request leaves its queue for limbo. */
  function Unqueued(s: PoolState, k: NetLoc, i: nat): PoolState
    requires k in s.rows && i < |s.rows[k].queue|
  {
    SetRow(s, k, s.rows[k].(queue := Without(s.rows[k].queue, i)))
  }

  lemma ShorterSizes(s: PoolState, k: NetLoc, row: Row, queue: seq<nat>)
    requires SizesOk(s, k, row) && (queue != [] ==> row.queue != [])
    ensures SizesOk(s, k, row.(queue := queue))
  {
  }

  lemma UnqueuedRow(s: PoolState, k: NetLoc, i: nat)
    requires RowsOk(s, map[], {}) && k in s.rows && i < |s.rows[k].queue|
    ensures var d := Unqueued(s, k, i); RowOk(d, k, d.rows[k], map[], {s.rows[k].queue[i]})
  {
    hide RowsOk, Startable, NetLocOf, SizesOk, NoTwice;
    var row := s.rows[k];
    var d := Unqueued(s, k, i);
    RowParts(s, k, map[], {});
    WithoutOnce(row.queue, i);
    ShorterSizes(s, k, row, Without(row.queue, i));
    SizesFrame(s, d, k, d.rows[k]);
    forall x | x in row.free ensures FreeOk(d, k, x, map[]) { assert FreeOk(s, k, x, map[]); }
    forall x | x in row.busy ensures BusyOk(d, k, x, map[]) { assert BusyOk(s, k, x, map[]); }
    forall x | x in d.rows[k].queue ensures WaitingOk(d, k, x, {row.queue[i]}) { assert WaitingOk(s, k, x, {}); }
  }

  lemma UnqueuedRows(s: PoolState, k: NetLoc, i: nat)
    requires RowsOk(s, map[], {}) && k in s.rows && i < |s.rows[k].queue|
    ensures RowsOk(Unqueued(s, k, i), map[], {s.rows[k].queue[i]})
  {
    hide Startable, NetLocOf, RowOk;
    var d := Unqueued(s, k, i);
    var r := s.rows[k].queue[i];
    RowParts(s, k, map[], {});
    assert WaitingOk(s, k, r, {});
    forall j | j in d.rows ensures RowOk(d, j, d.rows[j], map[], {r}) {
      if j == k {
        UnqueuedRow(s, k, i);
      } else {
        RowsRow(s, j, map[], {});
        hide RowsOk, SizesOk;
        RowFrame(s, d, j, s.rows[j], map[], {}, map[], {r});
      }
    }
  }

  lemma UnqueuedRequests(s: PoolState, k: NetLoc, i: nat)
    requires RequestsOk(s, {}) && k in s.rows && i < |s.rows[k].queue| && NoTwice(s.rows[k].queue)
    ensures RequestsOk(Unqueued(s, k, i), {s.rows[k].queue[i]})
  {
    hide NetLocOf, LiveOk, IdleOk;
    var d := Unqueued(s, k, i);
    WithoutOnce(s.rows[k].queue, i);
    forall x | x in d.requests && x != s.rows[k].queue[i] ensures Live(d, x) == Live(s, x) {
    }
  }

  lemma UnqueuedRest(s: PoolState, k: NetLoc, i: nat)
    requires LinksOk(s, {}) && PlacesOk(s) && HomesOk(s, map[]) && k in s.rows && i < |s.rows[k].queue|
    requires WaitingOk(s, k, s.rows[k].queue[i], {})
    ensures var d := Unqueued(s, k, i); LinksOk(d, {s.rows[k].queue[i]}) && PlacesOk(d) && HomesOk(d, map[])
  {
    hide Startable, NetLocOf;
  }

  lemma ShorterOrdered(s: PoolState, k: NetLoc, queue: seq<nat>, i: nat)
    requires QueueOrdered(s, k, queue) && i < |queue|
    ensures QueueOrdered(s, k, Without(queue, i))
  {
    var w := Without(queue, i);
    assert forall x :: x in w ==> x in queue;
  }

  lemma UnqueuedOrder(s: PoolState, k: NetLoc, i: nat)
    requires OrderOk(s) && k in s.rows && i < |s.rows[k].queue|
    ensures OrderOk(Unqueued(s, k, i))
  {
    hide QueueOrdered;
    var d := Unqueued(s, k, i);
    forall j | j in d.rows ensures QueueOrdered(d, j, d.rows[j].queue) {
      assert QueueOrdered(s, j, s.rows[j].queue);
      if j == k { ShorterOrdered(s, k, s.rows[k].queue, i); }
      QueueOrderedIn(s, j, d.rows[j].queue);
      OrderFrame(s, d, j, d.rows[j].queue);
    }
  }

  lemma UnqueuedKeeps(s: PoolState, k: NetLoc, i: nat)
    requires Inv(s) && k in s.rows && i < |s.rows[k].queue|
    ensures Partial(Unqueued(s, k, i), map[], {s.rows[k].queue[i]})
  {
    hide RequestsOk, LinksOk, PlacesOk, HomesOk, RowsOk, OrderOk, SizesOk;
    RowParts(s, k, map[], {});
    UnqueuedRows(s, k, i);
    UnqueuedRequests(s, k, i);
    UnqueuedRest(s, k, i);
    UnqueuedOrder(s, k, i);
  }

  lemma LimboChange(s: PoolState, r: nat, q: Request, limbo: set<nat>)
    requires Partial(s, map[], limbo) && r in limbo && r in s.requests
    ensures Partial(SetRequest(s, r, q), map[], limbo)
  {
    hide Startable, NetLocOf, LiveOk, IdleOk, SizesOk, Partial;
    LimboChangeRows(s, r, q, limbo);
    LimboChangeRest(s, r, q, limbo);
    LimboChangeOrder(s, r, q, limbo);
    LimboChangeAll(s, r, q, limbo);
  }

  lemma LimboChangeAll(s: PoolState, r: nat, q: Request, limbo: set<nat>)
    requires Partial(s, map[], limbo)
    ensures var d := SetRequest(s, r, q);
      RowsOk(d, map[], limbo) && RequestsOk(d, limbo) && LinksOk(d, limbo) && PlacesOk(d) && HomesOk(d, map[]) && OrderOk(d)
      ==> Partial(d, map[], limbo)
  {
    hide RequestsOk, LinksOk, PlacesOk, HomesOk, RowsOk, OrderOk;
  }

  lemma LimboChangeRows(s: PoolState, r: nat, q: Request, limbo: set<nat>)
    requires Partial(s, map[], limbo) && r in limbo
    ensures RowsOk(SetRequest(s, r, q), map[], limbo)
  {
    hide RequestsOk, LinksOk, PlacesOk, HomesOk, OrderOk, Startable, NetLocOf, RowOk;
    var d := SetRequest(s, r, q);
    forall j | j in d.rows ensures RowOk(d, j, d.rows[j], map[], limbo) {
      RowFrame(s, d, j, s.rows[j], map[], limbo, map[], limbo);
    }
  }

  lemma LimboChangeRest(s: PoolState, r: nat, q: Request, limbo: set<nat>)
    requires Partial(s, map[], limbo) && r in limbo && r in s.requests
    ensures var d := SetRequest(s, r, q);
      RequestsOk(d, limbo) && LinksOk(d, limbo) && PlacesOk(d) && HomesOk(d, map[])
  {
    hide RowsOk, OrderOk, Startable, NetLocOf, LiveOk, IdleOk, Queued;
    var d := SetRequest(s, r, q);
    forall x | x in d.requests && x != r ensures Live(d, x) == Live(s, x) && d.requests[x] == s.requests[x] {
      QueuedSame(s, r, q, x);
    }
  }

  lemma LimboChangeOrder(s: PoolState, r: nat, q: Request, limbo: set<nat>)
    requires Partial(s, map[], limbo) && r in limbo && r in s.requests
    ensures OrderOk(SetRequest(s, r, q))
  {
    hide RequestsOk, LinksOk, PlacesOk, HomesOk, RowsOk, OrderOk;
    forall k | k in s.rows ensures r !in s.rows[k].queue { ActiveNotWaiting(s, k, r, map[], limbo); }
    LimboOrder(s, r, q);
  }

  lemma {:induction false} CancelQueuedIs(s: PoolState, r: nat, q: Request, e: Error, k: NetLoc)
    requires r in s.requests && NetLocOf(q) == k && k in s.rows && r in s.rows[k].queue
    ensures var i := Find(s.rows[k].queue, r);
      && i < |s.rows[k].queue| && s.rows[k].queue[i] == r
      && CancelQueued(SetRequest(s, r, q), r, e) == Told(SetRequest(Unqueued(s, k, i), r, q), r, Failed(e))
  {
    hide NetLocOf, Notify;
  }

  lemma QueuedHere(s: PoolState, r: nat, q: Request)
    requires Queued(s, r)
    requires q.settings == s.requests[r].settings && q.uri == s.requests[r].uri && q.sslCtx == s.requests[r].sslCtx
    ensures var k := NetLocOf(s.requests[r]); NetLocOf(q) == k && k in s.rows && r in s.rows[k].queue
  {
  }

  lemma OwedSame(q: Request, p: Request)
    requires Owed(p) && q.life == p.life && q.settings == p.settings && (q.timer.Some? ==> p.timer.Some?)
    ensures Owed(q)
  {
  }

  /** Pool::cancel_request finds the request and settles it. */
  lemma CancelQueuedKeeps(s: PoolState, r: nat, q: Request, e: Error)
    requires Inv(s) && r in s.requests && Queued(s, r)
    requires var p := s.requests[r];
      q.life == p.life && q.settings == p.settings && q.uri == p.uri && q.sslCtx == p.sslCtx
      && (q.timer.Some? ==> p.timer.Some?)
    ensures Inv(CancelQueued(SetRequest(s, r, q), r, e))
  {
    QueuedOwed(s, r);
    hide Partial, NetLocOf, Notify, Queued, Owed, CancelQueued;
    var k := NetLocOf(s.requests[r]);
    QueuedHere(s, r, q);
    CancelQueuedIs(s, r, q, e, k);
    var i := Find(s.rows[k].queue, r);
    UnqueuedKeeps(s, k, i);
    var u := Unqueued(s, k, i);
    LimboChange(u, r, q, {r});
    OwedSame(q, s.requests[r]);
    ToldKeeps(SetRequest(u, r, q), r, Failed(e), map[], {r});
    assert {r} - {r} == {};
  }

  lemma QueuedOwed(s: PoolState, r: nat)
    requires Inv(s) && Queued(s, r)
    ensures Owed(s.requests[r])
  {
    hide NetLocOf, LinksOk, PlacesOk, HomesOk, RowsOk, OrderOk;
    assert Live(s, r);
  }

  lemma LiveIs(s: PoolState, r: nat)
    requires Inv(s) && r in s.requests
    ensures s.requests[r].client.Some? ==>
      Active(s, s.requests[r].client.value) && s.clients[s.requests[r].client.value].request == Some(r)
    ensures s.requests[r].client.None? && s.requests[r].pooled ==> Queued(s, r)
    ensures s.requests[r].timer.Some? && s.requests[r].timer.value.active ==>
      Live(s, r) && s.requests[r].timer.value.listening
  {
    hide NetLocOf, PlacesOk, HomesOk, RowsOk, OrderOk, CounterOk;
  }

  /** Request::cancel reaches the request wherever it is. */
  lemma CancelKeeps(s: PoolState, r: nat, q: Request, e: Error)
    requires Inv(s) && r in s.requests && (q == s.requests[r] || Live(s, r))
    requires var p := s.requests[r]; q == p.(timer := q.timer) && (q.timer.Some? ==> p.timer.Some?)
    ensures Inv(CancelRequest(SetRequest(s, r, q), r, e))
  {
    LiveIs(s, r);
    hide Inv, CancelOn, CancelQueued, NetLocOf;
    var d := SetRequest(s, r, q);
    if q.client.Some? {
      CancelActiveKeeps(s, q.client.value, q, e);
    } else if q.pooled {
      CancelQueuedKeeps(s, r, q, e);
    } else {
      assert d == s by { assert s.requests[r := q] == s.requests; }
    }
  }

  lemma ExpireKeeps(s: PoolState, r: nat)
    requires Inv(s) && Enabled(s, TimerFires(r))
    ensures Inv(Expire(s, r))
  {
    LiveIs(s, r);
    hide Inv, Live, CancelRequest;
    var q := s.requests[r];
    var e := if q.client.Some? && q.client.value in s.clients && s.clients[q.client.value].connecting
             then ConnectTimedOut else TimedOut;
    CancelKeeps(s, r, q.(timer := Some(q.timer.value.(active := false))), e);
  }

  // ---------------------------------------------------------------- changes that concern nobody else

  lemma ClientFieldsKeep(s: PoolState, c: nat, cl: Client, limbo: set<nat>)
    requires Partial(s, map[], limbo) && c in s.clients && SamePlace(s.clients[c], cl) && cl.request == s.clients[c].request
    ensures Partial(SetClient(s, c, cl), map[], limbo)
  {
    hide LiveOk, IdleOk, Startable, NetLocOf, RowsOk, QueueOrdered;
    var d := SetClient(s, c, cl);
    ClientFieldsRows(s, c, cl, limbo);
    RequestsSameBut(s, d, limbo);
    OrderSameBut(s, d);
  }

  lemma ClientFieldsRows(s: PoolState, c: nat, cl: Client, limbo: set<nat>)
    requires RowsOk(s, map[], limbo) && c in s.clients && SamePlace(s.clients[c], cl) && cl.request == s.clients[c].request
    ensures RowsOk(SetClient(s, c, cl), map[], limbo)
  {
    hide Startable, NetLocOf, RowOk;
    var d := SetClient(s, c, cl);
    forall j | j in d.rows ensures RowOk(d, j, d.rows[j], map[], limbo) {
      RowFrame(s, d, j, s.rows[j], map[], limbo, map[], limbo);
    }
  }

  lemma TransferKeeps(s: PoolState, r: nat)
    requires Inv(s) && r in s.requests
    ensures Inv(FinalChunk(s, r).0)
  {
    hide Partial;
    var q := s.requests[r];
    if !q.transferCompleted && q.client.Some? {
      LiveIs(s, r);
      ActivePartial(s, r, q.(transferCompleted := true));
    }
  }

  /** An active request changes without changing its place or its account. */
  lemma ActivePartial(s: PoolState, r: nat, q: Request)
    requires Inv(s) && r in s.requests && s.requests[r].client.Some?
    requires q == s.requests[r].(transferCompleted := q.transferCompleted)
    ensures Inv(SetRequest(s, r, q))
  {
    hide RowsOk, RequestsOk, OrderOk, LinksOk, PlacesOk, HomesOk;
    ActiveRows(s, r, q);
    ActiveRest(s, r, q);
    ActiveRequests(s, r, q);
    forall k | k in s.rows ensures r !in s.rows[k].queue { ActiveNotWaiting(s, k, r, map[], {}); }
    LimboOrder(s, r, q);
  }

  lemma ActiveRows(s: PoolState, r: nat, q: Request)
    requires RowsOk(s, map[], {}) && r in s.requests && s.requests[r].client.Some?
    ensures RowsOk(SetRequest(s, r, q), map[], {})
  {
    hide Startable, NetLocOf, RowOk;
    var d := SetRequest(s, r, q);
    forall j | j in d.rows ensures RowOk(d, j, d.rows[j], map[], {}) {
      ActiveNotWaiting(s, j, r, map[], {});
      RowFrame(s, d, j, s.rows[j], map[], {}, map[], {});
    }
  }

  lemma ActiveRest(s: PoolState, r: nat, q: Request)
    requires LinksOk(s, {}) && PlacesOk(s) && HomesOk(s, map[]) && r in s.requests
    requires q == s.requests[r].(transferCompleted := q.transferCompleted)
    ensures var d := SetRequest(s, r, q); LinksOk(d, {}) && PlacesOk(d) && HomesOk(d, map[])
  {
  }

  lemma ActiveRequests(s: PoolState, r: nat, q: Request)
    requires RequestsOk(s, {}) && r in s.requests && s.requests[r].client.Some?
    requires q == s.requests[r].(transferCompleted := q.transferCompleted)
    ensures RequestsOk(SetRequest(s, r, q), {})
  {
    hide NetLocOf;
    var d := SetRequest(s, r, q);
    forall x | x in d.requests && x != r ensures Live(d, x) == Live(s, x) {
      hide *;
      QueuedSame(s, r, q, x);
    }
    assert Live(s, r) && Live(d, r);
    assert LiveOk(s.requests[r]);
  }

  lemma CreateKeeps(s: PoolState, r: nat, q: Request)
    requires Inv(s) && r !in s.requests && Fresh(q)
    ensures Inv(SetRequest(s, r, q))
  {
    hide RowsOk, RequestsOk, OrderOk, LinksOk, PlacesOk, HomesOk, Fresh;
    CreateRows(s, r, q);
    CreateRest(s, r, q);
    CreateRequests(s, r, q);
    CreateOrder(s, r, q);
  }

  lemma NobodyNotWaiting(s: PoolState, k: NetLoc, r: nat)
    requires RowsOk(s, map[], {}) && k in s.rows && r !in s.requests
    ensures r !in s.rows[k].queue
  {
    hide Startable, NetLocOf, SizesOk, FreeOk, BusyOk, NoTwice;
    RowParts(s, k, map[], {});
    forall x | x in s.rows[k].queue ensures x != r { assert WaitingOk(s, k, x, {}); }
  }

  lemma CreateRows(s: PoolState, r: nat, q: Request)
    requires RowsOk(s, map[], {}) && r !in s.requests
    ensures RowsOk(SetRequest(s, r, q), map[], {})
  {
    hide Startable, NetLocOf, RowOk;
    var d := SetRequest(s, r, q);
    forall j | j in d.rows ensures RowOk(d, j, d.rows[j], map[], {}) {
      RowFrame(s, d, j, s.rows[j], map[], {}, map[], {});
    }
  }

  lemma CreateRest(s: PoolState, r: nat, q: Request)
    requires LinksOk(s, {}) && PlacesOk(s) && HomesOk(s, map[]) && r !in s.requests && Fresh(q)
    ensures var d := SetRequest(s, r, q); LinksOk(d, {}) && PlacesOk(d) && HomesOk(d, map[])
  {
    hide Startable, NetLocOf;
  }

  lemma CreateRequests(s: PoolState, r: nat, q: Request)
    requires RequestsOk(s, {}) && RowsOk(s, map[], {}) && r !in s.requests && Fresh(q)
    ensures RequestsOk(SetRequest(s, r, q), {})
  {
    hide NetLocOf, LiveOk, RowsOk;
    var d := SetRequest(s, r, q);
    forall x | x in s.requests ensures Live(d, x) == Live(s, x) {
    }
    if NetLocOf(q) in s.rows { NobodyNotWaiting(s, NetLocOf(q), r); }
  }

  lemma CreateOrder(s: PoolState, r: nat, q: Request)
    requires OrderOk(s) && RowsOk(s, map[], {}) && r !in s.requests
    ensures OrderOk(SetRequest(s, r, q))
  {
    hide RowsOk, QueueOrdered;
    var d := SetRequest(s, r, q);
    forall k | k in d.rows ensures QueueOrdered(d, k, d.rows[k].queue) {
      NobodyNotWaiting(s, k, r);
      assert QueueOrdered(s, k, s.rows[k].queue);
      QueueOrderedIn(s, k, s.rows[k].queue);
      OrderFrame(s, d, k, s.rows[k].queue);
    }
  }

  lemma TickKeeps(s: PoolState, now: nat)
    requires Inv(s)
    ensures Inv(s.(now := now))
  {
    hide RequestsOk, RowsOk, OrderOk, Startable, NetLocOf;
    var d := s.(now := now);
    RowsSameBut(s, d, map[], {});
    RequestsSameBut(s, d, {});
    OrderSameBut(s, d);
  }

  // ---------------------------------------------------------------- redirects

  /** analyze_request sends the request on to the next hop. */
  predicate Follows(q: Request, m: Message) {
    && m.code != 100 && q.settings.followRedirect && IsRedirect(m.code)
    && q.settings.redirectionLimit != 0 && Increment(q.counter) <= q.settings.redirectionLimit
    && m.location.Some? && m.callback.Follow?
  }

  lemma ResolveWhole(previous: Uri, location: Uri)
    requires previous.host != "" && previous.scheme != ""
    ensures Resolve(previous, location).host != "" && Resolve(previous, location).scheme != ""
  {
  }

  lemma HopCounts(q: Request, location: Uri, m: Message)
    requires LiveOk(q) && Follows(q, m)
    ensures CounterOk(Hop(q, location, m))
  {
  }

  lemma HopAsks(q: Request, location: Uri, m: Message, now: nat)
    requires LiveOk(q) && Startable(q) && q.uri.scheme != "" && Follows(q, m)
    ensures var hop := Hop(q, location, m);
      Startable(hop) && LimboOk(hop, now) && hop.client.None? && hop.pooled && hop.uri.scheme != ""
  {
    HopCounts(q, location, m);
    hide CounterOk;
    ResolveWhole(q.uri, location);
  }

  lemma LetHopShape(cl: Client, q: Request, keepAlive: bool)
    ensures var d := LetHop(cl, q, keepAlive); SamePlace(cl, d) && d.request.None?
  {
  }

  lemma ActiveIs(s: PoolState, c: nat)
    requires Inv(s) && Active(s, c)
    ensures var q := s.requests[s.clients[c].request.value];
      && LiveOk(q) && Startable(q) && q.uri.scheme != "" && NetLocOf(q) == s.clients[c].netloc && q.client == Some(c)
    ensures s.clients[c].pooled ==> s.alive && s.clients[c].netloc in s.rows
  {
    hide RequestsOk, LinksOk, RowsOk, OrderOk, Startable, NetLocOf, LiveOk;
    ActiveIsOwed(s, c);
  }

  lemma StartRows(s: PoolState, c: nat, r: nat)
    requires c in s.clients && r in s.requests
    ensures StartOn(s, c, r).0.rows == s.rows
  {
    hide Sent, Carrying, NetLocOf, Reconnects;
  }

  /** putback looks at one row only. */
  lemma PutbackRow(s: PoolState, c: nat, k: NetLoc)
    requires c in s.clients && k != s.clients[c].netloc
    ensures var d := Putback(s, c); (k in d.rows <==> k in s.rows) && (k in s.rows ==> d.rows[k] == s.rows[k])
  {
    hide StartOn;
    var j := s.clients[c].netloc;
    if j in s.rows && s.rows[j].queue != [] && s.rows[j].queue[0] in s.requests {
      StartRows(Logged(Popped(s, j), j, s.rows[j].queue[0]), c, s.rows[j].queue[0]);
    }
  }

  lemma PickableStays(s: PoolState, d: PoolState, k: NetLoc, pick: nat)
    requires Pickable(s, k, pick) && s.clients.Keys <= d.clients.Keys
    requires (k in d.rows <==> k in s.rows) && (k in s.rows ==> d.rows[k] == s.rows[k])
    ensures Pickable(d, k, pick)
  {
  }

  /** The client and the request of a redirect part: the client may be put back. */
  lemma HopLetsGo(s: PoolState, c: nat, location: Uri, m: Message, went: Client)
    requires Inv(s) && Active(s, c) && Follows(s.requests[s.clients[c].request.value], m)
    requires SamePlace(s.clients[c], went) && went.request.None?
    ensures var r := s.clients[c].request.value;
      var d := LetGo(s, c, went, r, Hop(s.requests[r], location, m));
      && Partial(d, Hole(went, c), {r})
      && Asks(d, r, {r}) && d.requests[r].pooled
  {
    ActiveIs(s, c);
    hide Partial, NetLocOf, Startable, LiveOk, LimboOk, Follows, Hop;
    var r := s.clients[c].request.value;
    var q := s.requests[r];
    HopAsks(q, location, m, s.now);
    LetGoKeeps(s, c, went, r, Hop(q, location, m));
  }

  /** The first half of a redirect to another host or port. */
  function PutBackForHop(s: PoolState, c: nat, location: Uri, m: Message): PoolState
    requires Active(s, c) && m.callback.Follow?
  {
    var cl := s.clients[c];
    var r := cl.request.value;
    var q := s.requests[r];
    Putback(LetGo(s, c, LetHop(cl, q, m.keepAlive).(lastActivity := s.now), r, Hop(q, location, m)), c)
  }

  lemma PutBackForHopKeeps(s: PoolState, c: nat, location: Uri, m: Message)
    requires Inv(s) && Active(s, c) && s.clients[c].pooled && Follows(s.requests[s.clients[c].request.value], m)
    requires m.callback.Follow?
    ensures var r := s.clients[c].request.value;
      var d := PutBackForHop(s, c, location, m);
      && Partial(d, map[], {r}) && Asks(d, r, {r}) && d.alive == s.alive
      && s.clients.Keys <= d.clients.Keys
      && r in d.requests && d.requests[r] == Hop(s.requests[r], location, m)
  {
    hide Inv, Partial, Asks, Follows, LetHop, Hop, Putback;
    var cl := s.clients[c];
    var r := cl.request.value;
    var q := s.requests[r];
    LetHopShape(cl, q, m.keepAlive);
    var went := LetHop(cl, q, m.keepAlive).(lastActivity := s.now);
    HopLetsGo(s, c, location, m, went);
    var s1 := LetGo(s, c, went, r, Hop(q, location, m));
    PutbackKeeps(s1, c, map[c := cl.netloc], {r});
    assert map[c := cl.netloc] - {c} == map[];
    assert r in {r};
    AsksStays(s1, Putback(s1, c), r, {r});
  }

  lemma AsksStays(s: PoolState, d: PoolState, r: nat, limbo: set<nat>)
    requires Asks(s, r, limbo) && r in d.requests && d.requests[r] == s.requests[r] && d.now == s.now
    ensures Asks(d, r, limbo)
  {
    hide Startable, LimboOk;
  }

  lemma PutBackForHopRow(s: PoolState, c: nat, location: Uri, m: Message, k: NetLoc)
    requires Active(s, c) && m.callback.Follow? && k != s.clients[c].netloc
    ensures var d := PutBackForHop(s, c, location, m);
      (k in d.rows <==> k in s.rows) && (k in s.rows ==> d.rows[k] == s.rows[k])
  {
    hide Putback, Hop, LetHop;
    var cl := s.clients[c];
    var r := cl.request.value;
    var q := s.requests[r];
    LetHopShape(cl, q, m.keepAlive);
    PutbackRow(LetGo(s, c, LetHop(cl, q, m.keepAlive).(lastActivity := s.now), r, Hop(q, location, m)), c, k);
  }

  /** A redirect to another host or port goes through the pool. */
  lemma FollowAwayKeeps(s: PoolState, c: nat, location: Uri, m: Message, k: NetLoc)
    requires Inv(s) && Active(s, c) && s.clients[c].pooled && Follows(s.requests[s.clients[c].request.value], m)
    requires k == NetLocOf(Hop(s.requests[s.clients[c].request.value], location, m))
    requires Pickable(s, k, m.pick) && ElsewhereThan(k, s.clients[c].netloc)
    ensures Inv(FollowOn(s, c, location, m))
  {
    ActiveIs(s, c);
    hide Partial, NetLocOf, Startable, LiveOk, Asks, Follows, Hop, PutBackForHop, PoolRequest, Pickable, FollowOn;
    var r := s.clients[c].request.value;
    PutBackForHopKeeps(s, c, location, m);
    PutBackForHopRow(s, c, location, m, k);
    var s2 := PutBackForHop(s, c, location, m);
    PickableStays(s, s2, k, m.pick);
    WeakThenAsk(s2, c, r, m.pick);
    FollowAwayIs(s, c, location, m);
  }

  lemma WeakThenAsk(s: PoolState, c: nat, r: nat, pick: nat)
    requires Partial(s, map[], {r}) && Asks(s, r, {r}) && s.alive && c in s.clients
    requires Pickable(s, NetLocOf(s.requests[r]), pick)
    ensures Inv(Uncaught(PoolRequest(SetClient(s, c, s.clients[c].(weak := true)), r, pick)))
  {
    AsksHere(s, r, {r});
    hide Partial, NetLocOf, Asks, PoolRequest;
    var cl := s.clients[c].(weak := true);
    var d := SetClient(s, c, cl);
    ClientFieldsKeep(s, c, cl, {r});
    AsksStays(s, d, r, {r});
    PoolRequestKeeps(d, r, pick, {r});
    assert {r} - {r} == {};
  }

  lemma FollowAwayIs(s: PoolState, c: nat, location: Uri, m: Message)
    requires Active(s, c) && m.callback.Follow? && s.clients[c].pooled
    requires ElsewhereThan(NetLocOf(Hop(s.requests[s.clients[c].request.value], location, m)), s.clients[c].netloc)
    ensures var r := s.clients[c].request.value;
      var s2 := PutBackForHop(s, c, location, m);
      FollowOn(s, c, location, m) ==
        if c !in s2.clients || r !in s2.requests then s2
        else Uncaught(PoolRequest(SetClient(s2, c, s2.clients[c].(weak := true)), r, m.pick))
  {
    hide LetHop, Hop, Putback, PoolRequest, NetLocOf;
    var cl := s.clients[c];
    var r := cl.request.value;
    var q := s.requests[r];
    var s0 := SetClient(SetRequest(s, r, Hop(q, location, m)), c, LetHop(cl, q, m.keepAlive));
    assert SetClient(s0, c, s0.clients[c].(lastActivity := s.now))
        == LetGo(s, c, LetHop(cl, q, m.keepAlive).(lastActivity := s.now), r, Hop(q, location, m));
  }

  lemma FollowHereIs(s: PoolState, c: nat, location: Uri, m: Message)
    requires Active(s, c) && m.callback.Follow?
    requires var k := NetLocOf(Hop(s.requests[s.clients[c].request.value], location, m));
      s.clients[c].pooled ==> !ElsewhereThan(k, s.clients[c].netloc)
    ensures var cl := s.clients[c];
      var r := cl.request.value;
      var q := s.requests[r];
      FollowOn(s, c, location, m)
        == Uncaught(StartOn(LetGo(s, c, LetHop(cl, q, m.keepAlive), r, Hop(q, location, m)), c, r))
  {
    hide LetHop, Hop, StartOn, NetLocOf;
  }

  lemma HopMayStart(s: PoolState, c: nat, r: nat)
    requires c in s.clients && s.clients[c].request.None? && Asks(s, r, {r}) && s.requests[r].pooled
    requires s.clients[c].pooled ==> NetLocOf(s.requests[r]) == s.clients[c].netloc
    ensures MayStart(s, c, r, Hole(s.clients[c], c), {r})
  {
    hide NetLocOf, Startable, LimboOk;
  }

  /** A redirect on the same connection. */
  lemma FollowHereKeeps(s: PoolState, c: nat, location: Uri, m: Message, k: NetLoc)
    requires Inv(s) && Active(s, c) && Follows(s.requests[s.clients[c].request.value], m)
    requires k == NetLocOf(Hop(s.requests[s.clients[c].request.value], location, m))
    requires s.clients[c].pooled ==> k == s.clients[c].netloc
    ensures Inv(FollowOn(s, c, location, m))
  {
    hide Partial, NetLocOf, Asks, MayStart, LetHop, Hop, StartOn, FollowOn;
    var cl := s.clients[c];
    var r := cl.request.value;
    var q := s.requests[r];
    LetHopShape(cl, q, m.keepAlive);
    var went := LetHop(cl, q, m.keepAlive);
    HopLetsGo(s, c, location, m, went);
    var d := LetGo(s, c, went, r, Hop(q, location, m));
    HopMayStart(d, c, r);
    StartKeeps(d, c, r, Hole(went, c), {r});
    assert Hole(went, c) - {c} == map[] && {r} - {r} == {};
    FollowHereIs(s, c, location, m);
  }

  // ---------------------------------------------------------------- sweeping

  lemma SweptRow(s: PoolState, k: NetLoc)
    requires RowsOk(s, map[], {}) && k in s.rows
    requires SweepRow(s, s.rows[k]).free != {} || s.rows[k].busy != {}
    ensures RowOk(Sweep(s), k, SweepRow(s, s.rows[k]), map[], {})
  {
    hide Startable, NetLocOf, Inactive, SizesOk;
    var row := s.rows[k];
    var d := Sweep(s);
    RowParts(s, k, map[], {});
    SweptSizes(s, k, row);
    SizesFrame(s, d, k, SweepRow(s, row));
    forall c | c in SweepRow(s, row).free ensures FreeOk(d, k, c, map[]) { assert FreeOk(s, k, c, map[]); }
    forall c | c in row.busy ensures BusyOk(d, k, c, map[]) { assert BusyOk(s, k, c, map[]); }
    forall r | r in row.queue ensures WaitingOk(d, k, r, {}) { assert WaitingOk(s, k, r, {}); }
  }

  lemma SubsetSize(a: set<nat>, b: set<nat>)
    requires a <= b
    ensures |a| <= |b|
  {
    assert b == a + (b - a);
  }

  lemma SweptSizes(s: PoolState, k: NetLoc, row: Row)
    requires SizesOk(s, k, row) && (SweepRow(s, row).free != {} || row.busy != {})
    ensures SizesOk(s, k, SweepRow(s, row))
  {
    hide Inactive;
    SubsetSize(SweepRow(s, row).free, row.free);
    assert SweepRow(s, row).free <= row.free;
    if row.busy != {} {
      var c :| c in row.busy;
      assert c in SweepRow(s, row).free + row.busy;
    } else {
      var c :| c in SweepRow(s, row).free;
      assert c in SweepRow(s, row).free + row.busy;
    }
  }

  lemma SweepRequests(s: PoolState)
    requires RequestsOk(s, {}) && RowsOk(s, map[], {})
    ensures RequestsOk(Sweep(s), {})
  {
    hide RowsOk, NetLocOf, LiveOk, IdleOk, SweepRow;
    var d := Sweep(s);
    forall k, r | k in s.rows ensures QueuedAt(d, k, r) == QueuedAt(s, k, r) { SweepQueue(s, k, r); }
    forall r | r in d.requests ensures Live(d, r) == Live(s, r) {
    }
  }

  lemma SweepQueue(s: PoolState, k: NetLoc, r: nat)
    requires RowsOk(s, map[], {}) && k in s.rows
    ensures QueuedAt(Sweep(s), k, r) == QueuedAt(s, k, r)
  {
    hide Startable, NetLocOf, FreeOk, BusyOk, WaitingOk, Inactive;
    RowParts(s, k, map[], {});
  }

  lemma SweepOrder(s: PoolState)
    requires OrderOk(s)
    ensures OrderOk(Sweep(s))
  {
    hide QueueOrdered, Inactive;
    var d := Sweep(s);
    forall k | k in d.rows ensures QueueOrdered(d, k, d.rows[k].queue) {
      assert QueueOrdered(s, k, s.rows[k].queue);
      QueueOrderedIn(s, k, s.rows[k].queue);
      OrderFrame(s, d, k, s.rows[k].queue);
    }
  }

  lemma SweepHomes(s: PoolState)
    requires HomesOk(s, map[])
    ensures HomesOk(Sweep(s), map[])
  {
    hide Inactive;
  }

  /** A sweep removes free connections, and rows without connections. */
  lemma SweepKeeps(s: PoolState)
    requires Inv(s)
    ensures Inv(Sweep(s))
  {
    hide RequestsOk, LinksOk, PlacesOk, HomesOk, RowsOk, OrderOk, Inactive;
    var d := Sweep(s);
    SweepRequests(s);
    SweepOrder(s);
    SweepHomes(s);
    assert RowsOk(d, map[], {}) by { SweepRows(s); }
    assert LinksOk(d, {}) && PlacesOk(d) by { SweepRest(s); }
  }

  lemma SweepRows(s: PoolState)
    requires RowsOk(s, map[], {})
    ensures RowsOk(Sweep(s), map[], {})
  {
    forall k | k in Sweep(s).rows ensures RowOk(Sweep(s), k, Sweep(s).rows[k], map[], {}) {
      hide RowsOk, RowOk;
      SweptRow(s, k);
    }
  }

  lemma SweepRest(s: PoolState)
    requires LinksOk(s, {}) && PlacesOk(s)
    ensures LinksOk(Sweep(s), {}) && PlacesOk(Sweep(s))
  {
    hide Startable, NetLocOf, SweepRow;
  }

  // ---------------------------------------------------------------- destruction

  lemma InQueueIff(s: PoolState, r: nat)
    requires RowsOk(s, map[], {}) && r in s.requests
    ensures InQueue(s, r) == Queued(s, r)
    ensures InQueue(s, r) ==> s.requests[r].client.None?
  {
    hide RowsOk, Startable, NetLocOf, SizesOk, FreeOk, BusyOk, NoTwice;
    if InQueue(s, r) {
      var k :| k in s.rows && r in s.rows[k].queue;
      RowParts(s, k, map[], {});
      assert WaitingOk(s, k, r, {});
    }
  }

  lemma InBusyIff(s: PoolState, c: nat)
    requires RowsOk(s, map[], {}) && HomesOk(s, map[]) && c in s.clients && s.clients[c].request.Some?
    ensures InBusy(s, c) == s.clients[c].pooled
  {
    hide RowsOk, Startable, NetLocOf, SizesOk, FreeOk, WaitingOk, NoTwice;
    if InBusy(s, c) {
      var k :| k in s.rows && c in s.rows[k].busy;
      RowParts(s, k, map[], {});
      assert BusyOk(s, k, c, map[]);
    }
  }

  lemma DestroyRequests(s: PoolState)
    requires Inv(s)
    ensures RequestsOk(Destroy(s), {})
  {
    hide LinksOk, PlacesOk, HomesOk, RowsOk, OrderOk, NetLocOf, LiveOk, IdleOk, Notify, InBusy;
    var d := Destroy(s);
    forall r | r in d.requests ensures if Live(d, r) then LiveOk(d.requests[r]) else IdleOk(d.requests[r]) {
      InQueueIff(s, r);
      if InQueue(s, r) {
        QueuedOwed(s, r);
        NotifyIsIdle(s.requests[r], Failed(OperationCanceled));
      }
    }
  }

  lemma DestroyLinks(s: PoolState)
    requires Inv(s)
    ensures LinksOk(Destroy(s), {})
  {
    hide PlacesOk, HomesOk, RequestsOk, RowsOk, OrderOk, NetLocOf, Notify, InBusy, InQueue, Queued;
    var d := Destroy(s);
    forall r | r in d.requests ensures d.requests[r].client == s.requests[r].client {
      InQueueIff(s, r);
      if InQueue(s, r) { NotifyLeaves(s.requests[r], Failed(OperationCanceled)); }
    }
  }

  lemma NotifyLeaves(q: Request, v: Verdict)
    ensures Notify(q, v).client.None? && Notify(q, v).settings == q.settings && Notify(q, v).uri == q.uri
    ensures Notify(q, v).sslCtx == q.sslCtx
  {
  }

  lemma DestroyPlaces(s: PoolState)
    requires Inv(s)
    ensures PlacesOk(Destroy(s)) && HomesOk(Destroy(s), map[])
  {
    hide RequestsOk, RowsOk, OrderOk, Startable, NetLocOf, Notify, InBusy, InQueue, Queued;
    var d := Destroy(s);
    forall c | c in d.clients && d.clients[c].request.Some?
      ensures var r := d.clients[c].request.value;
        d.requests[r] == s.requests[r] && d.clients[c].netloc == s.clients[c].netloc && !d.clients[c].pooled
    {
      InQueueIff(s, d.clients[c].request.value);
      InBusyIff(s, c);
    }
  }

  /** Destroying the pool settles the waiting requests and lets the active ones go on. */
  lemma DestroyKeeps(s: PoolState)
    requires Inv(s)
    ensures Inv(Destroy(s))
  {
    hide RequestsOk, LinksOk, PlacesOk, HomesOk, Notify, InBusy, InQueue;
    DestroyRequests(s);
    DestroyLinks(s);
    DestroyPlaces(s);
  }

  // ---------------------------------------------------------------- runs

  predicate HttpProxied(q: Request) { q.settings.proxy.Some? && q.settings.proxy.value.scheme == "http" }

  /** A redirect to the same host and port keeps the SSL context of its client's row: analyze_request
      has cleared it, and the callback may have put it back. */
  predicate KeepsRow(s: PoolState, c: nat, m: Message)
    requires Active(s, c)
  {
    var q := s.requests[s.clients[c].request.value];
    Follows(q, m) && s.clients[c].pooled
      && !ElsewhereThan(NetLocOf(Hop(q, m.location.value, m)), s.clients[c].netloc)
    ==> m.callback.sslCtx == q.sslCtx || HttpProxied(q)
  }

  /** A redirect to the same host and port stays at the client's destination exactly when it keeps the
      SSL context, or when the destination is an HTTP proxy. */
  lemma SamePlaceIff(q: Request, location: Uri, m: Message)
    requires m.callback.Follow? && !ElsewhereThan(NetLocOf(Hop(q, location, m)), NetLocOf(q))
    ensures NetLocOf(Hop(q, location, m)) == NetLocOf(q) <==> m.callback.sslCtx == q.sslCtx || HttpProxied(q)
  {
  }

  lemma AnalyzeKeeps(s: PoolState, c: nat, m: Message)
    requires Inv(s) && Enabled(s, Received(c, m)) && KeepsRow(s, c, m)
    ensures Inv(AnalyzeOn(s, c, m))
  {
    var r := s.clients[c].request.value;
    var q := s.requests[r];
    ActiveIs(s, c);
    if Follows(q, m) {
      var location := m.location.value;
      if s.clients[c].pooled && ElsewhereThan(NetLocOf(Hop(q, location, m)), s.clients[c].netloc) {
        hide Inv, NetLocOf, Hop, LiveOk, Startable, FollowOn;
        FollowAwayKeeps(s, c, location, m, NetLocOf(Hop(q, location, m)));
      } else {
        if s.clients[c].pooled { SamePlaceIff(q, location, m); }
        hide Inv, NetLocOf, Hop, LiveOk, Startable, FollowOn;
        FollowHereKeeps(s, c, location, m, NetLocOf(Hop(q, location, m)));
      }
    } else {
      hide Inv, NetLocOf, LiveOk, Startable;
      RefuseKeeps(s, c, m);
    }
  }

  lemma RefuseKeeps(s: PoolState, c: nat, m: Message)
    requires Inv(s) && Active(s, c) && !Follows(s.requests[s.clients[c].request.value], m)
    ensures Inv(AnalyzeOn(s, c, m))
  {
    hide Inv, FinishOn;
    var r := s.clients[c].request.value;
    var q := s.requests[r];
    if m.code == 100 {
    } else if q.settings.followRedirect && IsRedirect(m.code) {
      if q.settings.redirectionLimit == 0 {
        FinishKeeps(s, c, Some(UnexpectedRedirect), false);
      } else if Increment(q.counter) > q.settings.redirectionLimit {
        FinishCountedKeeps(s, c, q.(counter := Increment(q.counter)), Some(RedirectionLimit), false);
      } else if m.location.None? {
        FinishCountedKeeps(s, c, q.(counter := Increment(q.counter)), Some(NoRedirectUri), false);
      } else {
        FinishCountedKeeps(s, c, Redirected(q, m.location.value), Some(m.callback.error), false);
      }
    } else {
      FinishKeeps(s, c, None, m.keepAlive);
    }
  }

  /** The conditions under which the pool keeps its promises: a submitted request can be served and is
      not in progress, and a redirect on the same connection keeps the SSL context. */
  predicate Safe(s: PoolState, step: Step) {
    match step
    case Submit(r, _) => r in s.requests ==> Submittable(s, r)
    case Received(c, m) => Active(s, c) ==> KeepsRow(s, c, m)
    case _ => true
  }

  lemma StepKeeps(s: PoolState, step: Step)
    requires Inv(s) && Enabled(s, step) && Safe(s, step)
    ensures Inv(Next(s, step))
  {
    hide Inv, CancelOn, AnalyzeOn, Expire, SubmitTo, CancelRequest, KeepsRow, Submittable, NetLocOf;
    match step
    case Create(r, q) => CreateKeeps(s, r, q);
    case Submit(r, pick) => SubmitKeeps(s, r, pick);
    case Cancel(r, e) =>
      assert SetRequest(s, r, s.requests[r]) == s;
      CancelKeeps(s, r, s.requests[r], e);
    case TransferDone(r) => TransferKeeps(s, r);
    case TimerFires(r) => ExpireKeeps(s, r);
    case Connected(c) => ClientFieldsKeepInv(s, c, s.clients[c].(connected := true, connecting := false));
    case Disturbed(c, e) => DisturbKeeps(s, c, e);
    case Received(c, m) => AnalyzeKeeps(s, c, m);
    case Unexpected(c) => ClientFieldsKeepInv(s, c, Drop(s.clients[c]));
    case Swept => SweepKeeps(s);
    case Destroyed => DestroyKeeps(s);
    case Tick(now) => TickKeeps(s, now);
  }

  lemma ClientFieldsKeepInv(s: PoolState, c: nat, cl: Client)
    requires Inv(s) && c in s.clients && SamePlace(s.clients[c], cl) && cl.request == s.clients[c].request
    ensures Inv(SetClient(s, c, cl))
  {
    hide Partial;
    ClientFieldsKeep(s, c, cl, {});
  }

  lemma DisturbKeeps(s: PoolState, c: nat, e: Error)
    requires Inv(s) && Active(s, c)
    ensures Inv(CancelOn(s, c, e))
  {
    hide Inv, FinishOn;
    FinishKeeps(s, c, Some(e), false);
  }

  ghost predicate Legal(s: PoolState, steps: seq<Step>) {
    if steps == [] then true
    else
      && Legal(s, steps[..|steps| - 1])
      && Enabled(Run(s, steps[..|steps| - 1]), steps[|steps| - 1])
      && Safe(Run(s, steps[..|steps| - 1]), steps[|steps| - 1])
  }

  /** Every state of the client side that can be reached satisfies the invariant. */
  lemma {:induction false} RunKeeps(idleTimeout: nat, maxConnections: nat, steps: seq<Step>)
    requires Legal(NewPool(idleTimeout, maxConnections), steps)
    ensures Inv(Run(NewPool(idleTimeout, maxConnections), steps))
  {
    hide Next, Enabled, Safe;
    if steps != [] {
      hide Inv;
      RunKeeps(idleTimeout, maxConnections, steps[..|steps| - 1]);
      StepKeeps(Run(NewPool(idleTimeout, maxConnections), steps[..|steps| - 1]), steps[|steps| - 1]);
    }
  }
}

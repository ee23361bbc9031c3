/** Pool::request keeps the invariant of the client side: a client is taken for the request, or the
    request waits. */
module PoolRequests {
  import opened Options
  import opened Pooling
  import opened PoolInvariant
  import opened PoolSteps

  /** Request `r`, in limbo, as Pool::request expects it. */
  ghost predicate Asks(s: PoolState, r: nat, limbo: set<nat>) {
    && r in limbo && r in s.requests && s.requests[r].client.None?
    && Startable(s.requests[r]) && LimboOk(s.requests[r], s.now)
  }

  function Ticketed(s: PoolState, r: nat): PoolState
    requires r in s.requests
  {
    var q := s.requests[r];
    SetRequest(s, r, q.(pooled := true, life := q.life.(ticket := s.nextTicket))).(nextTicket := s.nextTicket + 1)
  }

  lemma TicketedRows(s: PoolState, r: nat, holes: map<nat, NetLoc>, limbo: set<nat>)
    requires RowsOk(s, holes, limbo) && r in limbo && r in s.requests
    ensures RowsOk(Ticketed(s, r), holes, limbo)
  {
    hide Startable, NetLocOf, RowOk;
    var d := Ticketed(s, r);
    forall j | j in d.rows ensures RowOk(d, j, d.rows[j], holes, limbo) {
      RowFrame(s, d, j, s.rows[j], holes, limbo, holes, limbo);
    }
  }

  lemma TicketedOrder(s: PoolState, r: nat, holes: map<nat, NetLoc>, limbo: set<nat>)
    requires RowsOk(s, holes, limbo) && OrderOk(s) && r in limbo && r in s.requests
    ensures OrderOk(Ticketed(s, r))
  {
    hide RowsOk, QueueOrdered;
    var d := Ticketed(s, r);
    forall j | j in d.rows ensures QueueOrdered(d, j, d.rows[j].queue) {
      ActiveNotWaiting(s, j, r, holes, limbo);
      assert QueueOrdered(s, j, s.rows[j].queue);
      QueueOrderedIn(s, j, s.rows[j].queue);
      OrderFrame(s, d, j, s.rows[j].queue);
    }
  }

  lemma TicketedRest(s: PoolState, r: nat, holes: map<nat, NetLoc>, limbo: set<nat>)
    requires RequestsOk(s, limbo) && LinksOk(s, limbo) && PlacesOk(s) && HomesOk(s, holes) && r in limbo && r in s.requests
    ensures var d := Ticketed(s, r); RequestsOk(d, limbo) && LinksOk(d, limbo) && PlacesOk(d) && HomesOk(d, holes)
  {
    hide Startable, NetLocOf, LiveOk, IdleOk;
    var d := Ticketed(s, r);
    forall x | x in d.requests && x != r ensures Live(d, x) == Live(s, x) && d.requests[x] == s.requests[x] {
    }
  }

  lemma TicketedKeeps(s: PoolState, r: nat, limbo: set<nat>)
    requires Partial(s, map[], limbo) && Asks(s, r, limbo)
    ensures Partial(Ticketed(s, r), map[], limbo) && Asks(Ticketed(s, r), r, limbo)
    ensures Ticketed(s, r).requests[r].pooled && NetLocOf(Ticketed(s, r).requests[r]) == NetLocOf(s.requests[r])
  {
    TicketedAsks(s, r, limbo);
    hide RequestsOk, LinksOk, PlacesOk, HomesOk, RowsOk, OrderOk, Startable, NetLocOf, LimboOk;
    TicketedRows(s, r, map[], limbo);
    TicketedOrder(s, r, map[], limbo);
    TicketedRest(s, r, map[], limbo);
  }

  lemma TicketedAsks(s: PoolState, r: nat, limbo: set<nat>)
    requires Asks(s, r, limbo)
    ensures Asks(Ticketed(s, r), r, limbo)
    ensures Ticketed(s, r).requests[r].pooled && NetLocOf(Ticketed(s, r).requests[r]) == NetLocOf(s.requests[r])
  {
  }

  lemma LastInLine(s: PoolState, k: NetLoc, r: nat, limbo: set<nat>)
    requires Partial(s, map[], limbo) && r in s.requests && (k in s.rows ==> s.rows[k].queue == [])
    ensures NextInLine(Ticketed(s, r), k, r)
  {
    hide RequestsOk, LinksOk, PlacesOk, HomesOk, RowsOk;
  }

  // a client is taken for it

  /** Apart from `c`, a row has the clients that the row of `k` has now. */
  ghost predicate FromRow(s: PoolState, k: NetLoc, row: Row, c: nat) {
    && (forall x :: x in row.free && x != c ==> k in s.rows && x in s.rows[k].free)
    && (forall x :: x in row.busy && x != c ==> k in s.rows && x in s.rows[k].busy)
  }

  /** A client joins a row, or moves from free to busy in it. */
  lemma TakenRow(s: PoolState, k: NetLoc, row: Row, c: nat, cl: Client, limbo: set<nat>)
    requires RowsOk(s, map[], limbo) && SizesOk(s, k, row) && row.queue == []
    requires cl.pooled && cl.request.None? && c in row.busy
    requires FromRow(s, k, row, c)
    ensures RowOk(SetClient(SetRow(s, k, row), c, cl), k, row, map[c := k], limbo)
  {
    hide Startable, NetLocOf, SizesOk;
    var d := SetClient(SetRow(s, k, row), c, cl);
    if k in s.rows { RowParts(s, k, map[], limbo); }
    assert c !in row.free by { SizesApart(s, k, row); }
    forall x | x in row.free ensures FreeOk(d, k, x, map[c := k]) {
      assert FreeOk(s, k, x, map[]);
    }
    forall x | x in row.busy && x != c ensures BusyOk(d, k, x, map[c := k]) {
      assert BusyOk(s, k, x, map[]);
    }
    assert SizesOk(d, k, row) by { SizesFrame(s, d, k, row); }
  }

  lemma SizesApart(s: PoolState, k: NetLoc, row: Row)
    requires SizesOk(s, k, row)
    ensures row.free !! row.busy
  {
  }

  lemma TakenRows(s: PoolState, k: NetLoc, row: Row, c: nat, cl: Client, limbo: set<nat>)
    requires RowsOk(s, map[], limbo) && SizesOk(s, k, row) && row.queue == []
    requires cl.pooled && cl.request.None? && c in row.busy
    requires FromRow(s, k, row, c)
    requires c in s.clients ==> FreeOk(s, k, c, map[])
    ensures RowsOk(SetClient(SetRow(s, k, row), c, cl), map[c := k], limbo)
  {
    hide Startable, NetLocOf, SizesOk, RowOk;
    var d := SetClient(SetRow(s, k, row), c, cl);
    forall j | j in d.rows ensures RowOk(d, j, d.rows[j], map[c := k], limbo) {
      if j == k {
        TakenRow(s, k, row, c, cl, limbo);
      } else {
        assert RowOk(s, j, s.rows[j], map[], limbo);
        RowFrame(s, d, j, s.rows[j], map[], limbo, map[c := k], limbo);
      }
    }
  }

  lemma TakenLinks(s: PoolState, d: PoolState, c: nat, cl: Client, limbo: set<nat>)
    requires LinksOk(s, limbo) && PlacesOk(s) && cl.request.None?
    requires d.clients == s.clients[c := cl] && d.requests == s.requests
    requires c < d.nextClient && s.nextClient <= d.nextClient
    requires c in s.clients ==> s.clients[c].request.None?
    ensures LinksOk(d, limbo) && PlacesOk(d)
  {
    hide Startable, NetLocOf;
  }

  lemma TakenHomes(s: PoolState, d: PoolState, k: NetLoc, row: Row, c: nat, cl: Client)
    requires HomesOk(s, map[]) && s.alive && d.alive
    requires cl.pooled && cl.request.None? && c in row.busy
    requires d.clients == s.clients[c := cl] && d.rows == s.rows[k := row]
    requires k in s.rows ==> s.rows[k].busy <= row.busy
    ensures HomesOk(d, map[c := k])
  {
  }

  lemma TakenKeeps(s: PoolState, k: NetLoc, row: Row, c: nat, cl: Client, next: nat, limbo: set<nat>)
    requires Partial(s, map[], limbo) && SizesOk(s, k, row) && row.queue == [] && s.alive
    requires cl.pooled && cl.request.None? && c in row.busy && c < next && s.nextClient <= next
    requires FromRow(s, k, row, c)
    requires c in s.clients ==> FreeOk(s, k, c, map[])
    requires k in s.rows ==> s.rows[k].busy <= row.busy && s.rows[k].queue == []
    ensures Partial(SetClient(SetRow(s, k, row), c, cl).(nextClient := next), map[c := k], limbo)
  {
    hide RequestsOk, LinksOk, PlacesOk, HomesOk, RowsOk, OrderOk, SizesOk, RowOk;
    var d0 := SetClient(SetRow(s, k, row), c, cl);
    var d := d0.(nextClient := next);
    TakenRows(s, k, row, c, cl, limbo);
    RowsSameBut(d0, d, map[c := k], limbo);
    TakenLinks(s, d, c, cl, limbo);
    TakenHomes(s, d, k, row, c, cl);
    SameQueueRequests(s, k, row, limbo);
    RequestsSameBut(SetRow(s, k, row), d, limbo);
    SameQueueOrder(s, k, row);
    OrderSameBut(SetRow(s, k, row), d);
  }

  lemma RowsSameBut(s: PoolState, d: PoolState, holes: map<nat, NetLoc>, limbo: set<nat>)
    requires RowsOk(s, holes, limbo) && d.rows == s.rows && d.clients == s.clients && d.requests == s.requests
    requires d.maxConnections == s.maxConnections
    ensures RowsOk(d, holes, limbo)
  {
    hide Startable, NetLocOf, RowOk;
    forall j | j in d.rows ensures RowOk(d, j, d.rows[j], holes, limbo) {
      RowFrame(s, d, j, s.rows[j], holes, limbo, holes, limbo);
    }
  }

  lemma RequestsSameBut(s: PoolState, d: PoolState, limbo: set<nat>)
    requires RequestsOk(s, limbo) && d.rows == s.rows && d.requests == s.requests
    ensures RequestsOk(d, limbo)
  {
    hide NetLocOf, LiveOk, IdleOk;
    forall x | x in d.requests ensures Live(d, x) == Live(s, x) {
    }
  }

  lemma OrderSameBut(s: PoolState, d: PoolState)
    requires OrderOk(s) && d.rows == s.rows && d.requests == s.requests && d.started == s.started && d.nextTicket == s.nextTicket
    ensures OrderOk(d)
  {
    forall j | j in d.rows ensures QueueOrdered(d, j, d.rows[j].queue) {
      assert QueueOrdered(s, j, s.rows[j].queue);
    }
  }

  /** Client `c` has been taken for destination `k`. */
  ghost predicate Took(d: PoolState, k: NetLoc, c: nat, limbo: set<nat>) {
    && Partial(d, map[c := k], limbo)
    && c in d.clients && d.clients[c].request.None? && d.clients[c].pooled
    && k in d.rows && d.rows[k].queue == []
  }

  lemma TakeFirst(s: PoolState, k: NetLoc, pick: nat, limbo: set<nat>)
    requires Partial(s, map[], limbo) && s.alive && k !in s.rows
    requires k.proxy.Some? ==> k.proxy.value.scheme == "socks5"
    ensures Took(Take(s, k, pick), k, s.nextClient, limbo)
  {
    hide RequestsOk, PlacesOk, HomesOk, RowsOk, OrderOk;
    TakenKeeps(s, k, Row({}, {s.nextClient}, []), s.nextClient, NewClient, s.nextClient + 1, limbo);
    hide Partial;
  }

  lemma TakeFree(s: PoolState, k: NetLoc, pick: nat, limbo: set<nat>)
    requires Partial(s, map[], limbo) && s.alive && k in s.rows && pick in s.rows[k].free
    ensures Took(Take(s, k, pick), k, pick, limbo)
  {
    hide RequestsOk, LinksOk, PlacesOk, HomesOk, RowsOk, OrderOk;
    var row := s.rows[k];
    RowParts(s, k, map[], limbo);
    FreeRowIsUnasked(s, k, row, pick);
    PickSizes(s, k, row, pick);
    assert FreeOk(s, k, pick, map[]) && pick < s.nextClient by { Numbered(s, limbo, k, pick); }
    var taken := row.(free := row.free - {pick}, busy := row.busy + {pick});
    TakenKeeps(s, k, taken, pick, s.clients[pick], s.nextClient, limbo);
    hide Partial, SizesOk, WaitingOk, BusyOk, NoTwice;
    assert SetClient(SetRow(s, k, taken), pick, s.clients[pick]).(nextClient := s.nextClient) == Take(s, k, pick);
  }

  lemma Numbered(s: PoolState, limbo: set<nat>, k: NetLoc, c: nat)
    requires LinksOk(s, limbo) && FreeOk(s, k, c, map[])
    ensures c < s.nextClient
  {
  }

  lemma FreeRowIsUnasked(s: PoolState, k: NetLoc, row: Row, c: nat)
    requires SizesOk(s, k, row) && c in row.free
    ensures row.queue == []
  {
  }

  lemma ShortRowIsUnasked(s: PoolState, k: NetLoc, row: Row)
    requires SizesOk(s, k, row) && |row.busy| < s.maxConnections
    ensures row.queue == []
  {
  }

  lemma TakeMore(s: PoolState, k: NetLoc, pick: nat, limbo: set<nat>)
    requires Partial(s, map[], limbo) && s.alive && k in s.rows
    requires s.rows[k].free == {} && |s.rows[k].busy| < s.maxConnections
    ensures Took(Take(s, k, pick), k, s.nextClient, limbo)
  {
    hide RequestsOk, PlacesOk, HomesOk, RowsOk, OrderOk, SizesOk, WaitingOk, FreeOk, NoTwice;
    var row := s.rows[k];
    RowParts(s, k, map[], limbo);
    ShortRowIsUnasked(s, k, row);
    forall x | x in row.busy ensures x < s.nextClient { assert BusyOk(s, k, x, map[]); }
    MoreKeeps(s, k, row, limbo);
    hide Partial;
  }

  lemma MoreKeeps(s: PoolState, k: NetLoc, row: Row, limbo: set<nat>)
    requires Partial(s, map[], limbo) && s.alive && k in s.rows && row == s.rows[k]
    requires row.free == {} && |row.busy| < s.maxConnections && SizesOk(s, k, row) && row.queue == []
    requires s.nextClient !in row.busy
    ensures Partial(AddClient(s, k, row.(busy := row.busy + {s.nextClient})), map[s.nextClient := k], limbo)
  {
    hide RequestsOk, PlacesOk, HomesOk, RowsOk, OrderOk, SizesOk;
    NewSizes(s, k, row, s.nextClient);
    TakenKeeps(s, k, row.(busy := row.busy + {s.nextClient}), s.nextClient, NewClient, s.nextClient + 1, limbo);
  }

  lemma TakeKeeps(s: PoolState, k: NetLoc, pick: nat, limbo: set<nat>)
    requires Partial(s, map[], limbo) && s.alive && Pickable(s, k, pick) && Choose(s, k, pick).Some?
    requires k.proxy.Some? ==> k.proxy.value.scheme == "socks5"
    ensures Took(Take(s, k, pick), k, Choose(s, k, pick).value, limbo)
  {
    hide Partial, Take, Took;
    if k !in s.rows {
      TakeFirst(s, k, pick, limbo);
    } else if s.rows[k].free != {} {
      TakeFree(s, k, pick, limbo);
    } else {
      TakeMore(s, k, pick, limbo);
    }
  }

  lemma PickSizes(s: PoolState, k: NetLoc, row: Row, pick: nat)
    requires SizesOk(s, k, row) && pick in row.free
    ensures SizesOk(s, k, row.(free := row.free - {pick}, busy := row.busy + {pick}))
  {
    assert pick in row.busy + {pick};
  }

  lemma NewSizes(s: PoolState, k: NetLoc, row: Row, c: nat)
    requires SizesOk(s, k, row) && row.free == {} && |row.busy| < s.maxConnections
    ensures SizesOk(s, k, row.(busy := row.busy + {c}))
  {
    assert c in row.busy + {c};
  }

  // or it waits

  lemma ArmedIsLive(q: Request, now: nat)
    requires LimboOk(q, now) && q.pooled
    ensures LiveOk(Arm(q, now))
  {
  }

  function Longer(row: Row, r: nat): Row { row.(queue := row.queue + [r]) }

  lemma LongerSizes(s: PoolState, k: NetLoc, row: Row, r: nat)
    requires SizesOk(s, k, row) && row.free == {} && |row.busy| >= s.maxConnections
    ensures SizesOk(s, k, Longer(row, r))
  {
  }

  /** Request `r` joins the queue of a row as `q`. */
  lemma LongerRow(s: PoolState, d: PoolState, k: NetLoc, r: nat, q: Request, limbo: set<nat>)
    requires RowsOk(s, map[], limbo) && r in limbo && r in s.requests && d.requests == s.requests[r := q]
    requires k in s.rows && s.rows[k].free == {} && |s.rows[k].busy| >= s.maxConnections
    requires d.clients == s.clients && d.maxConnections == s.maxConnections
    requires q.client.None? && q.pooled && Startable(q) && NetLocOf(q) == k
    ensures RowOk(d, k, Longer(s.rows[k], r), map[], limbo - {r})
  {
    hide Startable, NetLocOf, SizesOk;
    var row := s.rows[k];
    RowParts(s, k, map[], limbo);
    LongerSizes(s, k, row, r);
    SizesFrame(s, d, k, Longer(row, r));
    ActiveNotWaiting(s, k, r, map[], limbo);
    forall x | x in row.busy ensures BusyOk(d, k, x, map[]) { assert BusyOk(s, k, x, map[]); }
    forall x | x in row.queue + [r] ensures WaitingOk(d, k, x, limbo - {r}) {
      if x != r { assert WaitingOk(s, k, x, limbo); }
    }
    NoTwiceMore(row.queue, r);
  }

  lemma NoTwiceMore(queue: seq<nat>, r: nat)
    requires NoTwice(queue) && r !in queue
    ensures NoTwice(queue + [r])
  {
    forall i, j | 0 <= i < j < |queue| + 1 ensures (queue + [r])[i] != (queue + [r])[j] {
      if j == |queue| { assert queue[i] in queue; }
    }
  }

  lemma ArmPlace(q: Request, now: nat)
    ensures NetLocOf(Arm(q, now)) == NetLocOf(q) && (Startable(q) ==> Startable(Arm(q, now)))
  {
    ArmSame(q, now);
    hide Arm;
  }

  lemma EnqueuedRows(s: PoolState, k: NetLoc, r: nat, limbo: set<nat>)
    requires RowsOk(s, map[], limbo) && Asks(s, r, limbo) && s.requests[r].pooled && k == NetLocOf(s.requests[r])
    requires k in s.rows && s.rows[k].free == {} && |s.rows[k].busy| >= s.maxConnections
    ensures RowsOk(Enqueue(s, k, r), map[], limbo - {r})
  {
    hide LimboOk, Startable, NetLocOf, SizesOk, RowOk, Arm;
    var d := Enqueue(s, k, r);
    var q := Arm(s.requests[r], s.now);
    ArmPlace(s.requests[r], s.now);
    ArmSame(s.requests[r], s.now);
    LongerRow(s, d, k, r, q, limbo);
    forall j | j in d.rows ensures RowOk(d, j, d.rows[j], map[], limbo - {r}) {
      if j != k {
        RowFrame(s, d, j, s.rows[j], map[], limbo, map[], limbo - {r});
      }
    }
  }

  lemma EnqueuedRequests(s: PoolState, k: NetLoc, r: nat, limbo: set<nat>)
    requires RequestsOk(s, limbo) && Asks(s, r, limbo) && s.requests[r].pooled && k == NetLocOf(s.requests[r])
    requires k in s.rows
    ensures RequestsOk(Enqueue(s, k, r), limbo - {r})
  {
    ArmedIsLive(s.requests[r], s.now);
    ArmPlace(s.requests[r], s.now);
    hide NetLocOf, LiveOk, IdleOk, LimboOk, Startable, Arm;
    var d := Enqueue(s, k, r);
    forall x | x in d.requests && x != r ensures Live(d, x) == Live(s, x) && d.requests[x] == s.requests[x] {
    }
  }

  lemma EnqueuedLinks(s: PoolState, k: NetLoc, r: nat, limbo: set<nat>)
    requires LinksOk(s, limbo) && PlacesOk(s) && Asks(s, r, limbo) && k in s.rows
    ensures LinksOk(Enqueue(s, k, r), limbo - {r}) && PlacesOk(Enqueue(s, k, r))
  {
    ArmSame(s.requests[r], s.now);
    hide NetLocOf, LimboOk, Startable, Arm;
  }

  lemma EnqueuedHomes(s: PoolState, k: NetLoc, r: nat)
    requires HomesOk(s, map[]) && k in s.rows && r in s.requests
    ensures HomesOk(Enqueue(s, k, r), map[])
  {
    hide Arm;
  }

  lemma EnqueuedOrder(s: PoolState, k: NetLoc, r: nat)
    requires OrderOk(s) && k in s.rows && r in s.requests && forall j :: j in s.rows ==> r !in s.rows[j].queue
    ensures OrderOk(Enqueue(Ticketed(s, r), k, r))
  {
    var t := Ticketed(s, r);
    ArmSame(t.requests[r], s.now);
    hide Arm;
    var d := Enqueue(t, k, r);
    forall j | j in d.rows ensures QueueOrdered(d, j, d.rows[j].queue) {
      assert QueueOrdered(s, j, s.rows[j].queue);
      assert forall x :: x in d.rows[j].queue ==> x == r || x in s.rows[j].queue;
      TicketsOfOthers(s, d, j, s.rows[j].queue, r);
    }
  }

  lemma TicketsOfOthers(s: PoolState, d: PoolState, k: NetLoc, queue: seq<nat>, r: nat)
    requires QueueOrdered(s, k, queue) && r !in queue
    requires r in d.requests && d.requests[r].life.ticket == s.nextTicket && d.nextTicket == s.nextTicket + 1
    requires d.requests.Keys == s.requests.Keys
    requires forall x :: x in s.requests && x != r ==> d.requests[x] == s.requests[x]
    requires d.started == s.started && forall i :: 0 <= i < |s.started| ==> s.started[i].ticket < s.nextTicket
    ensures QueueOrdered(d, k, queue) && QueueOrdered(d, k, queue + [r])
  {
    forall x | x in queue ensures x in d.requests && d.requests[x] == s.requests[x] {
    }
    OrderFrame(s, d, k, queue);
    LastIsLatest(s, d, k, queue, r);
  }

  lemma LastIsLatest(s: PoolState, d: PoolState, k: NetLoc, queue: seq<nat>, r: nat)
    requires QueueOrdered(s, k, queue) && QueueOrdered(d, k, queue) && r in d.requests
    requires d.requests[r].life.ticket == s.nextTicket && d.nextTicket == s.nextTicket + 1
    requires forall x :: x in queue ==> d.requests[x] == s.requests[x]
    requires d.started == s.started && forall i :: 0 <= i < |s.started| ==> s.started[i].ticket < s.nextTicket
    ensures QueueOrdered(d, k, queue + [r])
  {
    var longer := queue + [r];
    forall i, j | 0 <= i < j < |longer|
      ensures d.requests[longer[i]].life.ticket < d.requests[longer[j]].life.ticket
    {
      assert queue[i] in queue;
    }
  }

  lemma WaitKeeps(s: PoolState, r: nat, k: NetLoc, limbo: set<nat>)
    requires Partial(s, map[], limbo) && Asks(s, r, limbo) && k == NetLocOf(s.requests[r])
    requires k in s.rows && s.rows[k].free == {} && |s.rows[k].busy| >= s.maxConnections
    ensures Partial(Enqueue(Ticketed(s, r), k, r), map[], limbo - {r})
  {
    AsksHere(s, r, limbo);
    hide RequestsOk, LinksOk, PlacesOk, HomesOk, RowsOk, OrderOk, Asks, NetLocOf;
    var t := Ticketed(s, r);
    TicketedKeeps(s, r, limbo);
    EnqueuedRows(t, k, r, limbo);
    EnqueuedRequests(t, k, r, limbo);
    EnqueuedLinks(t, k, r, limbo);
    EnqueuedHomes(t, k, r);
    forall j | j in s.rows ensures r !in s.rows[j].queue { LimboNotWaiting(s, j, r, limbo); }
    EnqueuedOrder(s, k, r);
  }

  lemma AsksHere(s: PoolState, r: nat, limbo: set<nat>)
    requires Asks(s, r, limbo)
    ensures r in s.requests && r in limbo
  {
  }

  lemma LimboNotWaiting(s: PoolState, k: NetLoc, r: nat, limbo: set<nat>)
    requires RowsOk(s, map[], limbo) && k in s.rows && Asks(s, r, limbo)
    ensures r !in s.rows[k].queue
  {
    hide RowsOk, Startable, LimboOk;
    ActiveNotWaiting(s, k, r, map[], limbo);
  }

  lemma TakenMayStart(s: PoolState, r: nat, k: NetLoc, pick: nat, c: nat, limbo: set<nat>)
    requires Partial(s, map[], limbo) && Asks(s, r, limbo) && s.requests[r].pooled && k == NetLocOf(s.requests[r])
    requires s.alive && Pickable(s, k, pick) && Choose(s, k, pick) == Some(c) && NextInLine(s, k, r)
    ensures var d := Take(s, k, pick);
      Partial(d, map[c := k], limbo) && MayStart(d, c, r, map[c := k], limbo) && NextInLine(d, k, r)
  {
    hide Partial, NetLocOf, Take, Took, NextInLine, MayStart, Startable, LimboOk;
    AsksPlace(s, r, limbo);
    TakeKeeps(s, k, pick, limbo);
    var d := Take(s, k, pick);
    TakeIsNothingElse(s, k, pick);
    AsksSame(s, d, r, limbo);
    AsksStart(d, c, r, k, limbo);
    InLineSame(s, d, k, r, c, limbo);
    TookPartial(d, k, c, limbo);
  }

  lemma TicketedNext(s: PoolState, r: nat, k: NetLoc, pick: nat, c: nat, limbo: set<nat>)
    requires Partial(s, map[], limbo) && Asks(s, r, limbo) && k == NetLocOf(s.requests[r])
    requires Choose(s, k, pick) == Some(c)
    ensures NextInLine(Ticketed(s, r), k, r)
  {
    hide Partial, Asks, NetLocOf, NextInLine;
    AsksHere(s, r, limbo);
    if k in s.rows { TakenFromUnasked(s, k, pick, limbo); }
    LastInLine(s, k, r, limbo);
  }

  lemma TicketedSame(s: PoolState, r: nat, k: NetLoc, pick: nat)
    requires r in s.requests
    ensures Choose(Ticketed(s, r), k, pick) == Choose(s, k, pick)
    ensures Pickable(Ticketed(s, r), k, pick) == Pickable(s, k, pick) && Ticketed(s, r).alive == s.alive
  {
  }

  lemma ServeMayStart(s: PoolState, r: nat, k: NetLoc, pick: nat, c: nat, limbo: set<nat>)
    requires r in s.requests
    requires Partial(s, map[], limbo) && Asks(s, r, limbo) && k == NetLocOf(s.requests[r])
    requires s.alive && Pickable(s, k, pick) && Choose(s, k, pick) == Some(c)
    ensures var d := Take(Ticketed(s, r), k, pick);
      Partial(d, map[c := k], limbo) && MayStart(d, c, r, map[c := k], limbo) && NextInLine(d, k, r)
  {
    hide *;
    TicketedNext(s, r, k, pick, c, limbo);
    TicketedKeeps(s, r, limbo);
    TicketedSame(s, r, k, pick);
    TakenMayStart(Ticketed(s, r), r, k, pick, c, limbo);
  }

  lemma MayStartHere(s: PoolState, c: nat, r: nat, holes: map<nat, NetLoc>, limbo: set<nat>)
    requires MayStart(s, c, r, holes, limbo)
    ensures c in s.clients && r in s.requests
  {
  }

  lemma ServeKeeps(s: PoolState, r: nat, k: NetLoc, pick: nat, c: nat, limbo: set<nat>)
    requires r in s.requests
    requires Partial(s, map[], limbo) && Asks(s, r, limbo) && k == NetLocOf(s.requests[r])
    requires s.alive && Pickable(s, k, pick) && Choose(s, k, pick) == Some(c)
    ensures var d := Take(Ticketed(s, r), k, pick);
      && c in d.clients && r in d.requests
      && Launch(d, k, c, r).1.Ok? && Partial(Launch(d, k, c, r).0, map[], limbo - {r})
  {
    hide *;
    ServeMayStart(s, r, k, pick, c, limbo);
    var d := Take(Ticketed(s, r), k, pick);
    MayStartHere(d, c, r, map[c := k], limbo);
    LaunchKeeps(d, k, c, r, map[c := k], limbo);
    assert map[c := k] - {c} == map[];
  }

  lemma TakeIsNothingElse(s: PoolState, k: NetLoc, pick: nat)
    ensures var d := Take(s, k, pick);
      d.requests == s.requests && d.started == s.started && d.nextTicket == s.nextTicket && d.now == s.now
  {
  }

  lemma TookPartial(d: PoolState, k: NetLoc, c: nat, limbo: set<nat>)
    requires Took(d, k, c, limbo)
    ensures Partial(d, map[c := k], limbo) && c in d.clients
  {
    hide Partial;
  }

  lemma AsksPlace(s: PoolState, r: nat, limbo: set<nat>)
    requires Asks(s, r, limbo)
    ensures var k := NetLocOf(s.requests[r]); k.proxy.Some? ==> k.proxy.value.scheme == "socks5"
  {
  }

  lemma AsksSame(s: PoolState, d: PoolState, r: nat, limbo: set<nat>)
    requires Asks(s, r, limbo) && d.requests == s.requests && d.now == s.now
    ensures Asks(d, r, limbo)
  {
    hide Startable, LimboOk;
  }

  lemma AsksStart(d: PoolState, c: nat, r: nat, k: NetLoc, limbo: set<nat>)
    requires Asks(d, r, limbo) && d.requests[r].pooled && NetLocOf(d.requests[r]) == k && Took(d, k, c, limbo)
    ensures MayStart(d, c, r, map[c := k], limbo)
  {
    hide Startable, LimboOk, Partial, NetLocOf;
  }

  lemma TakenFromUnasked(s: PoolState, k: NetLoc, pick: nat, limbo: set<nat>)
    requires Partial(s, map[], limbo) && k in s.rows && Choose(s, k, pick).Some?
    ensures s.rows[k].queue == []
  {
    hide RequestsOk, LinksOk, PlacesOk, HomesOk, RowsOk, OrderOk;
    RowParts(s, k, map[], limbo);
  }

  lemma InLineSame(s: PoolState, d: PoolState, k: NetLoc, r: nat, c: nat, limbo: set<nat>)
    requires NextInLine(s, k, r) && d.requests == s.requests && d.started == s.started && d.nextTicket == s.nextTicket
    requires Took(d, k, c, limbo)
    ensures NextInLine(d, k, r)
  {
    hide Partial;
  }

  /** Pool::request starts the request or lets it wait. */
  lemma PoolRequestKeeps(s: PoolState, r: nat, pick: nat, limbo: set<nat>)
    requires Partial(s, map[], limbo) && Asks(s, r, limbo) && s.alive && Pickable(s, NetLocOf(s.requests[r]), pick)
    ensures PoolRequest(s, r, pick).1.Ok? && Partial(PoolRequest(s, r, pick).0, map[], limbo - {r})
  {
    AsksHere(s, r, limbo);
    hide Partial, NetLocOf, Launch, Take, Enqueue, LimboOk;
    var k := NetLocOf(s.requests[r]);
    if Choose(s, k, pick).Some? {
      ServeKeeps(s, r, k, pick, Choose(s, k, pick).value, limbo);
    } else {
      WaitKeeps(s, r, k, limbo);
    }
  }
}

/** Every operation of the client side keeps its invariant. */
module PoolSteps {
  import opened Options
  import opened Pooling
  import opened PoolInvariant

  // ---------------------------------------------------------------- a client lets its request go

  ghost predicate SamePlace(cl: Client, next: Client) { next.netloc == cl.netloc && next.pooled == cl.pooled }

  function LetGo(s: PoolState, c: nat, cl: Client, r: nat, q: Request): PoolState {
    SetClient(SetRequest(s, r, q), c, cl)
  }

  function Hole(cl: Client, c: nat): map<nat, NetLoc> {
    if cl.pooled then map[c := cl.netloc] else map[]
  }

  /** A row stays right when its clients and waiting requests do. */
  lemma RowFrame(s: PoolState, d: PoolState, k: NetLoc, row: Row,
                 holes: map<nat, NetLoc>, limbo: set<nat>, newHoles: map<nat, NetLoc>, newLimbo: set<nat>)
    requires RowOk(s, k, row, holes, limbo) && d.maxConnections == s.maxConnections
    requires forall x :: x in row.free && FreeOk(s, k, x, holes) ==> FreeOk(d, k, x, newHoles)
    requires forall x :: x in row.busy && BusyOk(s, k, x, holes) ==> BusyOk(d, k, x, newHoles)
    requires forall x :: x in row.queue && WaitingOk(s, k, x, limbo) ==> WaitingOk(d, k, x, newLimbo)
    ensures RowOk(d, k, row, newHoles, newLimbo)
  {
    hide FreeOk, BusyOk, WaitingOk;
  }

  lemma LetGoRow(s: PoolState, c: nat, cl: Client, r: nat, q: Request, k: NetLoc)
    requires LinksOk(s, {}) && c in s.clients && s.clients[c].request == Some(r)
    requires SamePlace(s.clients[c], cl) && cl.request.None?
    requires k in s.rows && RowOk(s, k, s.rows[k], map[], {})
    ensures RowOk(LetGo(s, c, cl, r, q), k, s.rows[k], Hole(cl, c), {r})
  {
    hide RowOk, Startable, NetLocOf;
    RowFrame(s, LetGo(s, c, cl, r, q), k, s.rows[k], map[], {}, Hole(cl, c), {r});
  }

  lemma LetGoRows(s: PoolState, c: nat, cl: Client, r: nat, q: Request)
    requires LinksOk(s, {}) && RowsOk(s, map[], {}) && c in s.clients && s.clients[c].request == Some(r)
    requires SamePlace(s.clients[c], cl) && cl.request.None?
    ensures RowsOk(LetGo(s, c, cl, r, q), Hole(cl, c), {r})
  {
    hide LinksOk, RowOk, Startable, NetLocOf;
    forall k | k in s.rows ensures RowOk(LetGo(s, c, cl, r, q), k, s.rows[k], Hole(cl, c), {r}) {
      LetGoRow(s, c, cl, r, q, k);
    }
  }

  lemma SizesFrame(s: PoolState, d: PoolState, k: NetLoc, row: Row)
    requires SizesOk(s, k, row) && d.maxConnections == s.maxConnections
    ensures SizesOk(d, k, row)
  {
  }

  lemma LetGoLinks(s: PoolState, c: nat, cl: Client, r: nat, q: Request)
    requires LinksOk(s, {}) && c in s.clients && s.clients[c].request == Some(r) && cl.request.None?
    ensures LinksOk(LetGo(s, c, cl, r, q), {r})
  {
  }

  lemma LetGoRequests(s: PoolState, c: nat, cl: Client, r: nat, q: Request)
    requires RequestsOk(s, {})
    ensures RequestsOk(LetGo(s, c, cl, r, q), {r})
  {
    hide NetLocOf, LiveOk, IdleOk;
    var d := LetGo(s, c, cl, r, q);
    forall x | x in d.requests && x != r ensures Live(d, x) == Live(s, x) && d.requests[x] == s.requests[x] {
    }
  }

  lemma LetGoPlaces(s: PoolState, c: nat, cl: Client, r: nat, q: Request)
    requires LinksOk(s, {}) && PlacesOk(s)
    requires c in s.clients && s.clients[c].request == Some(r) && cl.request.None?
    ensures PlacesOk(LetGo(s, c, cl, r, q))
  {
    hide Startable, NetLocOf;
  }

  lemma LetGoHomes(s: PoolState, c: nat, cl: Client, r: nat, q: Request)
    requires HomesOk(s, map[])
    requires c in s.clients && s.clients[c].request == Some(r) && SamePlace(s.clients[c], cl) && cl.request.None?
    ensures HomesOk(LetGo(s, c, cl, r, q), Hole(cl, c))
  {
  }

  /** The order only looks at the tickets of waiting requests. */
  lemma OrderFrame(s: PoolState, d: PoolState, k: NetLoc, queue: seq<nat>)
    requires QueueOrdered(s, k, queue) && d.started == s.started && s.nextTicket <= d.nextTicket
    requires forall x :: x in queue ==> x in d.requests && d.requests[x] == s.requests[x]
    ensures QueueOrdered(d, k, queue)
  {
    forall i, j | 0 <= i < j < |queue| ensures d.requests[queue[i]].life.ticket < d.requests[queue[j]].life.ticket {
      assert queue[i] in queue && queue[j] in queue;
    }
  }

  lemma ActiveNotWaiting(s: PoolState, k: NetLoc, r: nat, holes: map<nat, NetLoc>, limbo: set<nat>)
    requires RowsOk(s, holes, limbo) && k in s.rows && r in s.requests && (s.requests[r].client.Some? || r in limbo)
    ensures r !in s.rows[k].queue
  {
    hide Startable, NetLocOf, SizesOk, FreeOk, BusyOk, NoTwice;
    assert RowOk(s, k, s.rows[k], holes, limbo);
    forall x | x in s.rows[k].queue ensures x != r {
      assert WaitingOk(s, k, x, limbo);
    }
  }

  lemma LetGoOrder(s: PoolState, c: nat, cl: Client, r: nat, q: Request)
    requires LinksOk(s, {}) && RowsOk(s, map[], {}) && OrderOk(s) && c in s.clients && s.clients[c].request == Some(r)
    ensures OrderOk(LetGo(s, c, cl, r, q))
  {
    hide RowsOk, QueueOrdered;
    var d := LetGo(s, c, cl, r, q);
    forall k | k in d.rows ensures QueueOrdered(d, k, d.rows[k].queue) {
      ActiveNotWaiting(s, k, r, map[], {});
      assert QueueOrdered(s, k, s.rows[k].queue);
      assert forall x :: x in s.rows[k].queue ==> x in s.requests by { QueueOrderedIn(s, k, s.rows[k].queue); }
      OrderFrame(s, d, k, s.rows[k].queue);
    }
  }

  lemma QueueOrderedIn(s: PoolState, k: NetLoc, queue: seq<nat>)
    requires QueueOrdered(s, k, queue)
    ensures forall x :: x in queue ==> x in s.requests
  {
  }

  lemma LetGoKeeps(s: PoolState, c: nat, cl: Client, r: nat, q: Request)
    requires Inv(s) && c in s.clients && s.clients[c].request == Some(r) && SamePlace(s.clients[c], cl) && cl.request.None?
    ensures Partial(LetGo(s, c, cl, r, q), Hole(cl, c), {r})
  {
    hide RequestsOk, LinksOk, PlacesOk, HomesOk, RowsOk, OrderOk;
    LetGoRows(s, c, cl, r, q);
    LetGoLinks(s, c, cl, r, q);
    LetGoRequests(s, c, cl, r, q);
    LetGoPlaces(s, c, cl, r, q);
    LetGoHomes(s, c, cl, r, q);
    LetGoOrder(s, c, cl, r, q);
  }

  // ---------------------------------------------------------------- a client starts a request

  /** Client `c` may start request `r`: it is idle, and if it serves the pool it is a hole in the row
      of the request's destination. */
  ghost predicate MayStart(s: PoolState, c: nat, r: nat, holes: map<nat, NetLoc>, limbo: set<nat>) {
    && c in s.clients && r in limbo && r in s.requests
    && s.clients[c].request.None?
    && s.requests[r].client.None? && s.requests[r].pooled
    && Startable(s.requests[r]) && LimboOk(s.requests[r], s.now)
    && if s.clients[c].pooled then c in holes && holes[c] == NetLocOf(s.requests[r]) else c !in holes
  }

  /** The request as Client::request has prepared it. */
  function Claimed(q: Request, c: nat): Request { q.(client := Some(c), uri := WithScheme(q.uri)) }

  lemma ClaimedPlace(q: Request, c: nat, now: nat)
    requires Startable(q)
    ensures NetLocOf(Claimed(q, c)) == NetLocOf(q) && NetLocOf(Sent(Claimed(q, c), now)) == NetLocOf(q)
    ensures Startable(Sent(Claimed(q, c), now)) && Sent(Claimed(q, c), now).uri.scheme != ""
  {
    var q1 := Claimed(q, c);
    assert NetLocOf(q1) == NetLocOf(q.(uri := WithScheme(q.uri)));
    SentSame(q1, now);
  }

  lemma SentSame(q: Request, now: nat)
    ensures var t := Sent(q, now);
      t.uri == q.uri && t.sslCtx == q.sslCtx && t.settings == q.settings
      && t.client == q.client && t.life == q.life
  {
    ArmSame(q, now);
    hide Arm;
  }

  lemma ArmSame(q: Request, now: nat)
    ensures var t := Arm(q, now); t == q.(timer := t.timer)
  {
  }

  lemma CarryingShape(cl: Client, q: Request, r: nat)
    ensures var d := Carrying(cl, q, r); d.netloc == NetLocOf(q) && d.request == Some(r) && d.pooled == cl.pooled
  {
    hide NetLocOf;
  }

  /** Starting a request that may be started succeeds. */
  lemma StartShape(s: PoolState, c: nat, r: nat)
    requires c in s.clients && r in s.requests
    requires s.clients[c].request.None? && s.requests[r].client.None? && Startable(s.requests[r])
    ensures var q1 := Claimed(s.requests[r], c);
      StartOn(s, c, r) == (LetGo(s, c, Carrying(s.clients[c], q1, r), r, Sent(q1, s.now)), Ok)
  {
    hide Sent, Carrying, NetLocOf, Reconnects;
  }

  /** `q` is request `r` once it has been written, `cl` the client that carries it. */
  ghost predicate Starts(s: PoolState, c: nat, r: nat, cl: Client, q: Request)
    requires c in s.clients && r in s.requests
  {
    && q.client == Some(c) && cl.request == Some(r)
    && NetLocOf(q) == NetLocOf(s.requests[r]) && cl.netloc == NetLocOf(q)
    && Startable(q) && q.uri.scheme != ""
    && cl.pooled == s.clients[c].pooled
    && LiveOk(q) && q.life.ticket == s.requests[r].life.ticket
  }

  lemma SentIsLive(q: Request, c: nat, now: nat)
    requires LimboOk(q, now) && q.pooled
    ensures LiveOk(Sent(Claimed(q, c), now))
  {
  }

  lemma StartStarts(s: PoolState, c: nat, r: nat, holes: map<nat, NetLoc>, limbo: set<nat>)
    requires MayStart(s, c, r, holes, limbo)
    ensures var q1 := Claimed(s.requests[r], c);
      Starts(s, c, r, Carrying(s.clients[c], q1, r), Sent(q1, s.now))
  {
    hide Startable, NetLocOf, LiveOk, LimboOk, Sent, Carrying;
    var q1 := Claimed(s.requests[r], c);
    ClaimedPlace(s.requests[r], c, s.now);
    SentSame(q1, s.now);
    CarryingShape(s.clients[c], q1, r);
    SentIsLive(s.requests[r], c, s.now);
  }

  lemma StartedRow(s: PoolState, c: nat, r: nat, cl: Client, q: Request,
                   holes: map<nat, NetLoc>, limbo: set<nat>, k: NetLoc)
    requires MayStart(s, c, r, holes, limbo) && Starts(s, c, r, cl, q)
    requires k in s.rows && RowOk(s, k, s.rows[k], holes, limbo)
    requires c !in s.rows[k].free
    ensures RowOk(LetGo(s, c, cl, r, q), k, s.rows[k], holes - {c}, limbo - {r})
  {
    hide RowOk, Startable, NetLocOf, LimboOk, LiveOk;
    RowFrame(s, LetGo(s, c, cl, r, q), k, s.rows[k], holes, limbo, holes - {c}, limbo - {r});
  }

  /** A client that may start a request is not free anywhere. */
  lemma StarterNotFree(s: PoolState, c: nat, r: nat, holes: map<nat, NetLoc>, limbo: set<nat>, k: NetLoc)
    requires MayStart(s, c, r, holes, limbo) && k in s.rows && RowOk(s, k, s.rows[k], holes, limbo)
    ensures c !in s.rows[k].free
  {
    hide Startable, NetLocOf, LimboOk, SizesOk, BusyOk, WaitingOk, NoTwice;
    forall x | x in s.rows[k].free ensures x != c {
      assert FreeOk(s, k, x, holes);
    }
  }

  lemma StartedRows(s: PoolState, c: nat, r: nat, cl: Client, q: Request, holes: map<nat, NetLoc>, limbo: set<nat>)
    requires RowsOk(s, holes, limbo) && MayStart(s, c, r, holes, limbo) && Starts(s, c, r, cl, q)
    ensures RowsOk(LetGo(s, c, cl, r, q), holes - {c}, limbo - {r})
  {
    hide MayStart, Starts, RowOk;
    forall k | k in s.rows ensures RowOk(LetGo(s, c, cl, r, q), k, s.rows[k], holes - {c}, limbo - {r}) {
      StarterNotFree(s, c, r, holes, limbo, k);
      StartedRow(s, c, r, cl, q, holes, limbo, k);
    }
  }

  lemma StartedLinks(s: PoolState, c: nat, r: nat, cl: Client, q: Request, holes: map<nat, NetLoc>, limbo: set<nat>)
    requires LinksOk(s, limbo) && MayStart(s, c, r, holes, limbo) && Starts(s, c, r, cl, q)
    ensures LinksOk(LetGo(s, c, cl, r, q), limbo - {r})
  {
    hide Startable, NetLocOf, LiveOk, LimboOk;
  }

  lemma StartedRequests(s: PoolState, c: nat, r: nat, cl: Client, q: Request, holes: map<nat, NetLoc>, limbo: set<nat>)
    requires RequestsOk(s, limbo) && MayStart(s, c, r, holes, limbo) && Starts(s, c, r, cl, q)
    ensures RequestsOk(LetGo(s, c, cl, r, q), limbo - {r})
  {
    hide Startable, NetLocOf, LiveOk, LimboOk, IdleOk;
    var d := LetGo(s, c, cl, r, q);
    forall x | x in d.requests && x != r ensures Live(d, x) == Live(s, x) && d.requests[x] == s.requests[x] {
    }
  }

  lemma StartedPlaces(s: PoolState, c: nat, r: nat, cl: Client, q: Request, holes: map<nat, NetLoc>, limbo: set<nat>)
    requires LinksOk(s, limbo) && PlacesOk(s) && HomesOk(s, holes)
    requires MayStart(s, c, r, holes, limbo) && Starts(s, c, r, cl, q)
    ensures PlacesOk(LetGo(s, c, cl, r, q)) && HomesOk(LetGo(s, c, cl, r, q), holes - {c})
  {
    hide Startable, NetLocOf, LiveOk, LimboOk;
  }

  lemma StartedOrder(s: PoolState, c: nat, r: nat, cl: Client, q: Request, holes: map<nat, NetLoc>, limbo: set<nat>)
    requires OrderOk(s) && MayStart(s, c, r, holes, limbo) && Starts(s, c, r, cl, q)
    ensures OrderOk(LetGo(s, c, cl, r, q))
  {
    hide Startable, NetLocOf, LiveOk, LimboOk;
    var d := LetGo(s, c, cl, r, q);
    forall k | k in d.rows ensures QueueOrdered(d, k, d.rows[k].queue) {
      assert QueueOrdered(s, k, s.rows[k].queue);
    }
  }

  /** Starting a request takes it out of limbo and fills the hole. */
  lemma StartKeeps(s: PoolState, c: nat, r: nat, holes: map<nat, NetLoc>, limbo: set<nat>)
    requires Partial(s, holes, limbo) && MayStart(s, c, r, holes, limbo)
    ensures StartOn(s, c, r).1.Ok? && Partial(StartOn(s, c, r).0, holes - {c}, limbo - {r})
    ensures Others(s, StartOn(s, c, r).0, c, r)
  {
    hide RequestsOk, LinksOk, PlacesOk, HomesOk, RowsOk, OrderOk, Starts, Startable, NetLocOf, LimboOk, Sent, Carrying, Claimed;
    StartShape(s, c, r);
    StartStarts(s, c, r, holes, limbo);
    var q := Sent(Claimed(s.requests[r], c), s.now);
    var cl := Carrying(s.clients[c], Claimed(s.requests[r], c), r);
    StartedLinks(s, c, r, cl, q, holes, limbo);
    StartedRequests(s, c, r, cl, q, holes, limbo);
    StartedPlaces(s, c, r, cl, q, holes, limbo);
    StartedOrder(s, c, r, cl, q, holes, limbo);
    StartedRows(s, c, r, cl, q, holes, limbo);
  }

  /** What an operation on client `c` and request `r` leaves alone. */
  ghost predicate Others(s: PoolState, d: PoolState, c: nat, r: nat) {
    && d.now == s.now && d.maxConnections == s.maxConnections && d.alive == s.alive
    && s.clients.Keys <= d.clients.Keys && s.requests.Keys == d.requests.Keys
    && (forall x :: x in s.requests && x != r ==> d.requests[x] == s.requests[x])
    && (forall x :: x in s.clients && x != c ==> d.clients[x] == s.clients[x])
  }

  // ---------------------------------------------------------------- the pool starts a request

  /** Request `r` has a later ticket than all that have been started for `k`, an earlier one than all
      that wait there. */
  ghost predicate NextInLine(s: PoolState, k: NetLoc, r: nat) {
    && r in s.requests && s.requests[r].life.ticket < s.nextTicket
    && (forall i :: 0 <= i < |s.started| && s.started[i].dest == k ==> s.started[i].ticket < s.requests[r].life.ticket)
    && (k in s.rows ==> forall x :: x in s.rows[k].queue ==>
          x in s.requests && s.requests[r].life.ticket < s.requests[x].life.ticket)
  }

  function Logged(s: PoolState, k: NetLoc, r: nat): PoolState
    requires r in s.requests
  {
    s.(started := s.started + [Start(k, s.requests[r].life.ticket)])
  }

  lemma LoggedOrder(s: PoolState, k: NetLoc, r: nat)
    requires OrderOk(s) && NextInLine(s, k, r)
    ensures OrderOk(Logged(s, k, r))
  {
    var d := Logged(s, k, r);
    forall j | j in d.rows ensures QueueOrdered(d, j, d.rows[j].queue) {
      assert QueueOrdered(s, j, s.rows[j].queue);
    }
  }

  lemma LoggedRows(s: PoolState, k: NetLoc, r: nat, holes: map<nat, NetLoc>, limbo: set<nat>)
    requires RowsOk(s, holes, limbo) && r in s.requests
    ensures RowsOk(Logged(s, k, r), holes, limbo)
  {
    hide Startable, NetLocOf, RowOk;
    var d := Logged(s, k, r);
    forall j | j in d.rows ensures RowOk(d, j, d.rows[j], holes, limbo) {
      RowFrame(s, d, j, s.rows[j], holes, limbo, holes, limbo);
    }
  }

  lemma LoggedRest(s: PoolState, k: NetLoc, r: nat, holes: map<nat, NetLoc>, limbo: set<nat>)
    requires RequestsOk(s, limbo) && LinksOk(s, limbo) && PlacesOk(s) && HomesOk(s, holes) && r in s.requests
    ensures var d := Logged(s, k, r); RequestsOk(d, limbo) && LinksOk(d, limbo) && PlacesOk(d) && HomesOk(d, holes)
  {
    hide Startable, NetLocOf, LiveOk, IdleOk;
    var d := Logged(s, k, r);
    forall x | x in d.requests ensures Live(d, x) == Live(s, x) {
    }
  }

  lemma LaunchKeeps(s: PoolState, k: NetLoc, c: nat, r: nat, holes: map<nat, NetLoc>, limbo: set<nat>)
    requires Partial(s, holes, limbo) && MayStart(s, c, r, holes, limbo) && NextInLine(s, k, r)
    ensures Launch(s, k, c, r).1.Ok? && Partial(Launch(s, k, c, r).0, holes - {c}, limbo - {r})
    ensures Others(s, Launch(s, k, c, r).0, c, r)
  {
    hide RequestsOk, LinksOk, PlacesOk, HomesOk, RowsOk, OrderOk, NextInLine, Startable, NetLocOf, LimboOk;
    LoggedOrder(s, k, r);
    LoggedRows(s, k, r, holes, limbo);
    LoggedRest(s, k, r, holes, limbo);
    StartKeeps(Logged(s, k, r), c, r, holes, limbo);
  }

  // ---------------------------------------------------------------- putback

  function Popped(s: PoolState, k: NetLoc): PoolState
    requires k in s.rows && s.rows[k].queue != []
  {
    SetRow(s, k, s.rows[k].(queue := s.rows[k].queue[1..]))
  }

  lemma PoppedRow(s: PoolState, k: NetLoc, holes: map<nat, NetLoc>, limbo: set<nat>)
    requires k in s.rows && s.rows[k].queue != [] && RowOk(s, k, s.rows[k], holes, limbo)
    ensures var d := Popped(s, k); RowOk(d, k, d.rows[k], holes, limbo + {s.rows[k].queue[0]})
  {
    hide Startable, NetLocOf;
    var row := s.rows[k];
    var d := Popped(s, k);
    assert forall x :: x in row.queue[1..] ==> x in row.queue && x != row.queue[0];
    assert SizesOk(d, k, d.rows[k]);
    assert forall x :: x in row.busy ==> BusyOk(d, k, x, holes) by {
      forall x | x in row.busy ensures BusyOk(d, k, x, holes) { assert BusyOk(s, k, x, holes); }
    }
    forall x | x in row.queue[1..] ensures WaitingOk(d, k, x, limbo + {row.queue[0]}) {
      assert WaitingOk(s, k, x, limbo);
    }
  }

  /** A request waits for one destination only. */
  lemma PoppedOther(s: PoolState, k: NetLoc, j: NetLoc, holes: map<nat, NetLoc>, limbo: set<nat>)
    requires RowsOk(s, holes, limbo) && k in s.rows && s.rows[k].queue != [] && j in s.rows && j != k
    ensures var d := Popped(s, k); RowOk(d, j, d.rows[j], holes, limbo + {s.rows[k].queue[0]})
  {
    hide Startable, NetLocOf, SizesOk;
    var r := s.rows[k].queue[0];
    assert RowOk(s, k, s.rows[k], holes, limbo) && WaitingOk(s, k, r, limbo);
    assert RowOk(s, j, s.rows[j], holes, limbo);
    hide RowOk;
    RowFrame(s, Popped(s, k), j, s.rows[j], holes, limbo, holes, limbo + {r});
  }

  lemma PoppedRows(s: PoolState, k: NetLoc, holes: map<nat, NetLoc>, limbo: set<nat>)
    requires RowsOk(s, holes, limbo) && k in s.rows && s.rows[k].queue != []
    ensures RowsOk(Popped(s, k), holes, limbo + {s.rows[k].queue[0]})
  {
    hide RowOk;
    var d := Popped(s, k);
    forall j | j in d.rows ensures RowOk(d, j, d.rows[j], holes, limbo + {s.rows[k].queue[0]}) {
      if j == k { PoppedRow(s, k, holes, limbo); } else { PoppedOther(s, k, j, holes, limbo); }
    }
  }

  lemma PoppedRequests(s: PoolState, k: NetLoc, limbo: set<nat>)
    requires RequestsOk(s, limbo) && k in s.rows && s.rows[k].queue != []
    ensures RequestsOk(Popped(s, k), limbo + {s.rows[k].queue[0]})
  {
    hide NetLocOf, LiveOk, IdleOk;
    var row := s.rows[k];
    var d := Popped(s, k);
    assert row.queue == [row.queue[0]] + row.queue[1..];
    forall x | x in d.requests && x != row.queue[0] ensures Live(d, x) == Live(s, x) {
    }
  }

  lemma PoppedLinks(s: PoolState, k: NetLoc, limbo: set<nat>)
    requires LinksOk(s, limbo) && PlacesOk(s)
    requires k in s.rows && s.rows[k].queue != []
    requires WaitingOk(s, k, s.rows[k].queue[0], limbo)
    ensures LinksOk(Popped(s, k), limbo + {s.rows[k].queue[0]}) && PlacesOk(Popped(s, k))
  {
    hide Startable, NetLocOf;
  }

  lemma PoppedHomes(s: PoolState, k: NetLoc, holes: map<nat, NetLoc>)
    requires HomesOk(s, holes) && k in s.rows && s.rows[k].queue != []
    ensures HomesOk(Popped(s, k), holes)
  {
  }

  lemma PoppedOrder(s: PoolState, k: NetLoc)
    requires OrderOk(s) && k in s.rows && s.rows[k].queue != []
    ensures OrderOk(Popped(s, k)) && NextInLine(Popped(s, k), k, s.rows[k].queue[0])
  {
    var row := s.rows[k];
    var d := Popped(s, k);
    forall j | j in d.rows ensures QueueOrdered(d, j, d.rows[j].queue) {
      assert QueueOrdered(s, j, s.rows[j].queue);
      if j == k { assert forall x :: x in row.queue[1..] ==> x in row.queue; }
    }
    assert QueueOrdered(s, k, row.queue) && row.queue[0] in row.queue;
    forall x | x in row.queue[1..]
      ensures x in s.requests && s.requests[row.queue[0]].life.ticket < s.requests[x].life.ticket
    {
      var i :| 0 <= i < |row.queue[1..]| && row.queue[1..][i] == x;
      assert row.queue[i + 1] == x;
    }
  }

  lemma WaitingIsLimbo(s: PoolState, k: NetLoc, r: nat, limbo: set<nat>)
    requires RequestsOk(s, limbo) && WaitingOk(s, k, r, limbo) && QueuedAt(s, k, r)
    ensures LimboOk(s.requests[r], s.now)
  {
    assert Live(s, r);
  }

  /** putback with a queue: the client starts the first request that waits. */
  lemma PutbackNextKeeps(s: PoolState, c: nat, holes: map<nat, NetLoc>, limbo: set<nat>)
    requires Partial(s, holes, limbo) && c in holes && c in s.clients && holes[c] == s.clients[c].netloc
    requires s.clients[c].netloc in s.rows && s.rows[s.clients[c].netloc].queue != []
    ensures var r := s.rows[s.clients[c].netloc].queue[0];
      && r !in limbo
      && Partial(Putback(s, c), holes - {c}, limbo)
      && Others(s, Putback(s, c), c, r)
  {
    hide RequestsOk, LinksOk, PlacesOk, RowsOk, OrderOk, NextInLine, Startable, NetLocOf, LimboOk, Launch, SizesOk;
    var k := s.clients[c].netloc;
    var r := s.rows[k].queue[0];
    var d := Popped(s, k);
    assert WaitingOk(s, k, r, limbo) by { RowParts(s, k, holes, limbo); }
    WaitingIsLimbo(s, k, r, limbo);
    PoppedRows(s, k, holes, limbo);
    PoppedRequests(s, k, limbo);
    PoppedLinks(s, k, limbo);
    PoppedHomes(s, k, holes);
    PoppedOrder(s, k);
    LaunchKeeps(d, k, c, r, holes, limbo + {r});
    assert limbo + {r} - {r} == limbo;
  }

  lemma RowParts(s: PoolState, k: NetLoc, holes: map<nat, NetLoc>, limbo: set<nat>)
    requires RowsOk(s, holes, limbo) && k in s.rows
    ensures SizesOk(s, k, s.rows[k]) && NoTwice(s.rows[k].queue)
    ensures forall c :: c in s.rows[k].free ==> FreeOk(s, k, c, holes)
    ensures forall c :: c in s.rows[k].busy ==> BusyOk(s, k, c, holes)
    ensures forall r :: r in s.rows[k].queue ==> WaitingOk(s, k, r, limbo)
  {
    hide SizesOk, FreeOk, BusyOk, WaitingOk, NoTwice;
    assert RowOk(s, k, s.rows[k], holes, limbo);
  }

  function Freed(row: Row, c: nat): Row { row.(free := row.free + {c}, busy := row.busy - {c}) }

  lemma FreedSizes(s: PoolState, k: NetLoc, row: Row, c: nat)
    requires SizesOk(s, k, row) && c in row.busy && row.queue == []
    ensures SizesOk(s, k, Freed(row, c))
  {
    assert Freed(row, c).free + Freed(row, c).busy == row.free + row.busy;
  }

  /** putback without a queue: the client becomes free. */
  lemma FreedRow(s: PoolState, c: nat, k: NetLoc, holes: map<nat, NetLoc>, limbo: set<nat>)
    requires c in holes && c in s.clients && holes[c] == k == s.clients[c].netloc
    requires HomesOk(s, holes) && k in s.rows && RowOk(s, k, s.rows[k], holes, limbo) && s.rows[k].queue == []
    ensures c in s.rows[k].busy && RowOk(s, k, Freed(s.rows[k], c), holes - {c}, limbo)
  {
    hide Startable, NetLocOf, SizesOk;
    var row := s.rows[k];
    FreedSizes(s, k, row, c);
    forall x | x in row.free + {c} ensures FreeOk(s, k, x, holes - {c}) {
      if x != c { assert FreeOk(s, k, x, holes); }
    }
    forall x | x in row.busy - {c} ensures BusyOk(s, k, x, holes - {c}) {
      assert BusyOk(s, k, x, holes);
    }
  }

  lemma FreedRows(s: PoolState, c: nat, k: NetLoc, holes: map<nat, NetLoc>, limbo: set<nat>)
    requires c in holes && c in s.clients && holes[c] == k == s.clients[c].netloc
    requires HomesOk(s, holes) && RowsOk(s, holes, limbo) && k in s.rows && s.rows[k].queue == []
    ensures RowsOk(SetRow(s, k, Freed(s.rows[k], c)), holes - {c}, limbo)
  {
    hide HomesOk, Startable, NetLocOf, SizesOk, RowOk;
    FreedRow(s, c, k, holes, limbo);
    var d := SetRow(s, k, Freed(s.rows[k], c));
    forall j | j in d.rows ensures RowOk(d, j, d.rows[j], holes - {c}, limbo) {
      if j == k {
        RowFrame(s, d, j, d.rows[j], holes - {c}, limbo, holes - {c}, limbo);
      } else {
        HoleElsewhere(s, c, j, holes, limbo);
        RowFrame(s, d, j, s.rows[j], holes, limbo, holes - {c}, limbo);
      }
    }
  }

  lemma HoleElsewhere(s: PoolState, c: nat, j: NetLoc, holes: map<nat, NetLoc>, limbo: set<nat>)
    requires c in holes && j in s.rows && RowOk(s, j, s.rows[j], holes, limbo) && holes[c] != j
    ensures c !in s.rows[j].free && c !in s.rows[j].busy
  {
    hide Startable, NetLocOf, SizesOk, WaitingOk;
    forall x | x in s.rows[j].free ensures x != c { assert FreeOk(s, j, x, holes); }
    forall x | x in s.rows[j].busy ensures x != c { assert BusyOk(s, j, x, holes); }
  }

  /** A row changes its clients but not its queue. */
  lemma SameQueueRequests(s: PoolState, k: NetLoc, row: Row, limbo: set<nat>)
    requires RequestsOk(s, limbo) && (if k in s.rows then row.queue == s.rows[k].queue else row.queue == [])
    ensures RequestsOk(SetRow(s, k, row), limbo)
  {
    hide NetLocOf, LiveOk, IdleOk;
    var d := SetRow(s, k, row);
    forall x | x in d.requests ensures Live(d, x) == Live(s, x) {
    }
  }

  lemma SameQueueOrder(s: PoolState, k: NetLoc, row: Row)
    requires OrderOk(s) && (if k in s.rows then row.queue == s.rows[k].queue else row.queue == [])
    ensures OrderOk(SetRow(s, k, row))
  {
    hide QueueOrdered;
    var d := SetRow(s, k, row);
    forall j | j in d.rows ensures QueueOrdered(d, j, d.rows[j].queue) {
      if j in s.rows {
        assert QueueOrdered(s, j, s.rows[j].queue);
        QueueOrderedIn(s, j, s.rows[j].queue);
        OrderFrame(s, d, j, s.rows[j].queue);
      } else {
        EmptyOrdered(d, j);
      }
    }
  }

  lemma EmptyOrdered(s: PoolState, k: NetLoc)
    ensures QueueOrdered(s, k, [])
  {
  }

  lemma FreedHomes(s: PoolState, c: nat, k: NetLoc, holes: map<nat, NetLoc>)
    requires HomesOk(s, holes) && c in holes && holes[c] == k
    ensures HomesOk(SetRow(s, k, Freed(s.rows[k], c)), holes - {c})
  {
  }

  lemma PutbackFreeKeeps(s: PoolState, c: nat, k: NetLoc, holes: map<nat, NetLoc>, limbo: set<nat>)
    requires Partial(s, holes, limbo) && c in holes && c in s.clients && holes[c] == k == s.clients[c].netloc
    requires k in s.rows && s.rows[k].queue == []
    ensures Putback(s, c) == SetRow(s, k, Freed(s.rows[k], c))
    ensures Partial(Putback(s, c), holes - {c}, limbo)
  {
    hide RequestsOk, LinksOk, PlacesOk, HomesOk, RowsOk, OrderOk, Launch;
    assert c in s.rows[k].busy by { HoleIsBusy(s, c, holes); }
    FreedRows(s, c, k, holes, limbo);
    FreedHomes(s, c, k, holes);
    SameQueueRequests(s, k, Freed(s.rows[k], c), limbo);
    SameQueueOrder(s, k, Freed(s.rows[k], c));
    RowIsNothingElse(s, k, Freed(s.rows[k], c), limbo);
  }

  lemma HoleIsBusy(s: PoolState, c: nat, holes: map<nat, NetLoc>)
    requires HomesOk(s, holes) && c in holes
    ensures holes[c] in s.rows && c in s.rows[holes[c]].busy
  {
  }

  lemma RowIsNothingElse(s: PoolState, k: NetLoc, row: Row, limbo: set<nat>)
    requires LinksOk(s, limbo) && PlacesOk(s)
    ensures LinksOk(SetRow(s, k, row), limbo) && PlacesOk(SetRow(s, k, row))
  {
    hide Startable, NetLocOf;
  }

  /** Requests in limbo are left alone. */
  predicate NotIn(s: PoolState, d: PoolState, limbo: set<nat>) {
    limbo <= s.requests.Keys && limbo <= d.requests.Keys && forall x :: x in limbo ==> d.requests[x] == s.requests[x]
  }

  /** putback keeps the invariant, and its assertions hold. */
  lemma PutbackKeeps(s: PoolState, c: nat, holes: map<nat, NetLoc>, limbo: set<nat>)
    requires Partial(s, holes, limbo) && c in holes && c in s.clients && holes[c] == s.clients[c].netloc
    ensures var d := Putback(s, c);
      && Partial(d, holes - {c}, limbo) && NotIn(s, d, limbo)
      && d.now == s.now && d.maxConnections == s.maxConnections && d.alive == s.alive
      && s.clients.Keys <= d.clients.Keys && s.requests.Keys == d.requests.Keys
  {
    hide RequestsOk, PlacesOk, HomesOk, RowsOk, OrderOk, Startable, NetLocOf, Putback;
    HoleIsBusy(s, c, holes);
    if s.rows[s.clients[c].netloc].queue == [] {
      PutbackFreeKeeps(s, c, s.clients[c].netloc, holes, limbo);
    } else {
      PutbackNextKeeps(s, c, holes, limbo);
    }
  }

  // ---------------------------------------------------------------- finishing

  function Told(s: PoolState, r: nat, v: Verdict): PoolState
    requires r in s.requests
  {
    SetRequest(s, r, Notify(s.requests[r], v))
  }

  /** A request whose last submission has not been answered yet. */
  ghost predicate Owed(q: Request) {
    q.life.accepted == |q.life.verdicts| + 1 && (q.settings.timeout == 0 ==> q.timer.None?)
  }

  lemma NotifyIsIdle(q: Request, v: Verdict)
    requires Owed(q)
    ensures IdleOk(Notify(q, v)) && Notify(q, v).client.None? && NetLocOf(Notify(q, v)) == NetLocOf(q)
  {
  }

  lemma ToldRows(s: PoolState, r: nat, v: Verdict, holes: map<nat, NetLoc>, limbo: set<nat>)
    requires RowsOk(s, holes, limbo) && r in limbo && r in s.requests
    ensures RowsOk(Told(s, r, v), holes, limbo - {r})
  {
    hide Startable, NetLocOf, RowOk, Notify;
    var d := Told(s, r, v);
    forall j | j in d.rows ensures RowOk(d, j, d.rows[j], holes, limbo - {r}) {
      RowFrame(s, d, j, s.rows[j], holes, limbo, holes, limbo - {r});
    }
  }

  lemma ToldRequests(s: PoolState, r: nat, v: Verdict, holes: map<nat, NetLoc>, limbo: set<nat>)
    requires RequestsOk(s, limbo) && RowsOk(s, holes, limbo) && r in limbo && r in s.requests && Owed(s.requests[r])
    ensures RequestsOk(Told(s, r, v), limbo - {r})
  {
    hide RowsOk, NetLocOf, LiveOk, IdleOk, Notify;
    var d := Told(s, r, v);
    NotifyIsIdle(s.requests[r], v);
    forall x | x in d.requests && x != r ensures Live(d, x) == Live(s, x) && d.requests[x] == s.requests[x] {
    }
    if NetLocOf(s.requests[r]) in s.rows { ActiveNotWaiting(s, NetLocOf(s.requests[r]), r, holes, limbo); }
  }

  lemma ToldRest(s: PoolState, r: nat, v: Verdict, holes: map<nat, NetLoc>, limbo: set<nat>)
    requires LinksOk(s, limbo) && PlacesOk(s) && HomesOk(s, holes) && r in limbo && r in s.requests
    requires Notify(s.requests[r], v).client.None?
    ensures var d := Told(s, r, v); LinksOk(d, limbo - {r}) && PlacesOk(d) && HomesOk(d, holes)
  {
    hide Startable, NetLocOf, Notify;
  }

  lemma ToldOrder(s: PoolState, r: nat, v: Verdict)
    requires OrderOk(s) && r in s.requests
    ensures OrderOk(Told(s, r, v))
  {
    var d := Told(s, r, v);
    assert d.requests[r].life.ticket == s.requests[r].life.ticket;
    hide Notify;
    forall j | j in d.rows ensures QueueOrdered(d, j, d.rows[j].queue) {
      assert QueueOrdered(s, j, s.rows[j].queue);
    }
  }

  /** finish_and_notify settles a request that is in no place. */
  lemma ToldKeeps(s: PoolState, r: nat, v: Verdict, holes: map<nat, NetLoc>, limbo: set<nat>)
    requires Partial(s, holes, limbo) && r in limbo && r in s.requests && Owed(s.requests[r])
    ensures Partial(Told(s, r, v), holes, limbo - {r})
  {
    hide RequestsOk, LinksOk, PlacesOk, HomesOk, RowsOk, OrderOk, Notify;
    NotifyIsIdle(s.requests[r], v);
    ToldRows(s, r, v, holes, limbo);
    ToldRequests(s, r, v, holes, limbo);
    ToldRest(s, r, v, holes, limbo);
    ToldOrder(s, r, v);
  }

  /** finish_request: the client goes on, the request is settled. */
  lemma FinishKeeps(s: PoolState, c: nat, e: Option<Error>, keepAlive: bool)
    requires Inv(s) && Active(s, c)
    ensures Inv(FinishOn(s, c, e, keepAlive))
  {
    hide Partial, Let, Notify, VerdictOf, Putback, Owed;
    var cl := s.clients[c];
    var r := cl.request.value;
    var q := s.requests[r];
    FinishCountedKeeps(s, c, q, e, keepAlive);
    assert SetRequest(s, r, q) == s;
  }

  lemma LetShape(cl: Client, q: Request, v: Verdict, keepAlive: bool, now: nat)
    ensures var d := Let(cl, q, v, keepAlive, now); SamePlace(cl, d) && d.request.None?
  {
  }

  lemma ActiveIsOwed(s: PoolState, c: nat)
    requires RequestsOk(s, {}) && LinksOk(s, {}) && Active(s, c)
    ensures var r := s.clients[c].request.value;
      Owed(s.requests[r]) && LiveOk(s.requests[r]) && s.requests[r].client == Some(c)
  {
    hide NetLocOf;
    assert Live(s, s.clients[c].request.value);
  }

  /** The same for a request whose redirect counter or destination has just been changed. */
  lemma FinishCountedKeeps(s: PoolState, c: nat, q: Request, e: Option<Error>, keepAlive: bool)
    requires Inv(s) && Active(s, c)
    requires var p := s.requests[s.clients[c].request.value];
      q.life == p.life && q.settings == p.settings && (q.timer.Some? ==> p.timer.Some?)
    ensures Inv(FinishOn(SetRequest(s, s.clients[c].request.value, q), c, e, keepAlive))
  {
    hide RequestsOk, LinksOk, PlacesOk, HomesOk, RowsOk, OrderOk, Let, Notify, VerdictOf, Putback;
    var cl := s.clients[c];
    var r := cl.request.value;
    ActiveIsOwed(s, c);
    var t := SetRequest(s, r, q);
    var v := VerdictOf(q, e);
    var after := Let(cl, q, v, keepAlive, s.now);
    LetShape(cl, q, v, keepAlive, s.now);
    LetGoKeeps(s, c, after, r, q);
    var s1 := SetClient(t, c, after);
    assert s1 == LetGo(s, c, after, r, q);
    if cl.pooled {
      PutbackKeeps(s1, c, map[c := cl.netloc], {r});
      assert map[c := cl.netloc] - {c} == map[];
      ToldKeeps(Putback(s1, c), r, v, map[], {r});
    } else {
      ToldKeeps(s1, r, v, map[], {r});
    }
    assert {r} - {r} == {};
  }
}

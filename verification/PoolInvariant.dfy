/** The invariant of the client side. `holes` are clients that a row counts as busy although they
    have no request at the moment, with the destination of the row; `limbo` are requests that have
    been submitted and are nowhere at the moment. Both occur only in the middle of an operation. */
module PoolInvariant {
  import opened Options
  import opened Pooling

  function Cap(s: PoolState): nat { if s.maxConnections > 1 then s.maxConnections else 1 }

  // ---------------------------------------------------------------- requests

  predicate QueuedAt(s: PoolState, k: NetLoc, r: nat) { k in s.rows && r in s.rows[k].queue }

  predicate Queued(s: PoolState, r: nat) { r in s.requests && QueuedAt(s, NetLocOf(s.requests[r]), r) }

  predicate Live(s: PoolState, r: nat) { r in s.requests && (s.requests[r].client.Some? || Queued(s, r)) }

  /** What a request must be like for the pool to serve it: no URI without host, a known proxy, and
      a destination that does not depend on the default scheme. */
  predicate Startable(q: Request) {
    && q.uri.host != ""
    && !UnsupportedProxy(q)
    && NetLocOf(q.(uri := WithScheme(q.uri))) == NetLocOf(q)
  }

  ghost predicate CounterOk(q: Request) {
    && q.counter == q.life.hops % 0x1_0000
    && q.counter <= q.settings.redirectionLimit
    && (q.settings.redirectionLimit < 0xFFFF ==> q.life.hops <= q.settings.redirectionLimit)
  }

  ghost predicate Armed(q: Request) {
    if q.settings.timeout == 0 then q.timer.None? else q.timer == Some(Timer(q.life.acceptedAt + q.settings.timeout, true, true))
  }

  ghost predicate LiveOk(q: Request) {
    && q.life.accepted == |q.life.verdicts| + 1 && q.pooled && CounterOk(q) && Armed(q)
  }

  ghost predicate IdleOk(q: Request) {
    && q.life.accepted == |q.life.verdicts| && !q.pooled && !q.transferCompleted && q.counter == 0
    && (q.settings.timeout == 0 ==> q.timer.None?)
    && (q.timer.Some? ==> !q.timer.value.active && !q.timer.value.listening)
  }

  /** A submitted request between two places. Its timer runs if it comes from one. */
  ghost predicate LimboOk(q: Request, now: nat) {
    && q.life.accepted == |q.life.verdicts| + 1 && CounterOk(q)
    && (q.settings.timeout == 0 ==> q.timer.None?)
    && (q.settings.timeout > 0 ==>
          if q.timer.Some? && q.timer.value.active then q.timer.value.deadline == q.life.acceptedAt + q.settings.timeout
          else q.life.acceptedAt == now)
  }

  ghost predicate RequestsOk(s: PoolState, limbo: set<nat>) {
    forall r :: r in s.requests && r !in limbo ==> if Live(s, r) then LiveOk(s.requests[r]) else IdleOk(s.requests[r])
  }

  // ---------------------------------------------------------------- links and rows

  /** Client and request point at each other. */
  ghost predicate LinksOk(s: PoolState, limbo: set<nat>) {
    && (forall c :: c in s.clients && s.clients[c].request.Some? ==>
          var r := s.clients[c].request.value;
          r in s.requests && r !in limbo && s.requests[r].client == Some(c))
    && (forall r :: r in s.requests && r !in limbo && s.requests[r].client.Some? ==>
          var c := s.requests[r].client.value;
          c in s.clients && s.clients[c].request == Some(r))
    && (forall c :: c in s.clients ==> c < s.nextClient)
    && limbo <= s.requests.Keys
  }

  /** An active request is at its destination. */
  ghost predicate PlacesOk(s: PoolState) {
    forall c :: c in s.clients && s.clients[c].request.Some? && s.clients[c].request.value in s.requests ==>
      var q := s.requests[s.clients[c].request.value];
      Startable(q) && q.uri.scheme != "" && NetLocOf(q) == s.clients[c].netloc
  }

  /** A client that serves the pool, or is about to, is busy in the row of its destination. */
  ghost predicate HomesOk(s: PoolState, holes: map<nat, NetLoc>) {
    && (forall c :: c in s.clients && s.clients[c].pooled && s.clients[c].request.Some? ==>
          s.clients[c].netloc in s.rows && c in s.rows[s.clients[c].netloc].busy)
    && (forall c :: c in holes ==>
          && c in s.clients && s.clients[c].pooled && s.clients[c].request.None?
          && holes[c] in s.rows && c in s.rows[holes[c]].busy)
    && (!s.alive ==> s.rows == map[])
  }

  ghost predicate FreeOk(s: PoolState, k: NetLoc, c: nat, holes: map<nat, NetLoc>) {
    && c in s.clients && s.clients[c].netloc == k && s.clients[c].pooled
    && s.clients[c].request.None? && c !in holes
  }

  ghost predicate BusyOk(s: PoolState, k: NetLoc, c: nat, holes: map<nat, NetLoc>) {
    && c in s.clients && s.clients[c].pooled
    && if c in holes then holes[c] == k else s.clients[c].netloc == k && s.clients[c].request.Some?
  }

  ghost predicate WaitingOk(s: PoolState, k: NetLoc, r: nat, limbo: set<nat>) {
    && r in s.requests && r !in limbo
    && s.requests[r].client.None? && s.requests[r].pooled
    && Startable(s.requests[r]) && NetLocOf(s.requests[r]) == k
  }

  /** The sizes of a row: no more clients than allowed, and nobody waits while one could serve him. */
  ghost predicate SizesOk(s: PoolState, k: NetLoc, row: Row) {
    && row.free !! row.busy
    && row.free + row.busy != {}
    && |row.free| + |row.busy| <= Cap(s)
    && (row.queue != [] ==> row.free == {} && row.busy != {} && |row.busy| >= s.maxConnections)
    && (k.proxy.Some? ==> k.proxy.value.scheme == "socks5")
  }

  predicate NoTwice(queue: seq<nat>) {
    forall i, j :: 0 <= i < j < |queue| ==> queue[i] != queue[j]
  }

  ghost predicate RowOk(s: PoolState, k: NetLoc, row: Row, holes: map<nat, NetLoc>, limbo: set<nat>) {
    && SizesOk(s, k, row)
    && (forall c :: c in row.free ==> FreeOk(s, k, c, holes))
    && (forall c :: c in row.busy ==> BusyOk(s, k, c, holes))
    && (forall r :: r in row.queue ==> WaitingOk(s, k, r, limbo))
    && NoTwice(row.queue)
  }

  ghost predicate RowsOk(s: PoolState, holes: map<nat, NetLoc>, limbo: set<nat>) {
    forall k :: k in s.rows ==> RowOk(s, k, s.rows[k], holes, limbo)
  }

  // ---------------------------------------------------------------- order

  ghost predicate Ascending(started: seq<Start>) {
    forall i, j :: 0 <= i < j < |started| && started[i].dest == started[j].dest ==> started[i].ticket < started[j].ticket
  }

  ghost predicate QueueOrdered(s: PoolState, k: NetLoc, queue: seq<nat>) {
    && (forall r :: r in queue ==> r in s.requests && s.requests[r].life.ticket < s.nextTicket)
    && (forall i, j :: 0 <= i < j < |queue| ==> s.requests[queue[i]].life.ticket < s.requests[queue[j]].life.ticket)
    && (forall i, r :: 0 <= i < |s.started| && s.started[i].dest == k && r in queue ==>
          s.started[i].ticket < s.requests[r].life.ticket)
  }

  ghost predicate OrderOk(s: PoolState) {
    && Ascending(s.started)
    && (forall i :: 0 <= i < |s.started| ==> s.started[i].ticket < s.nextTicket)
    && (forall k :: k in s.rows ==> QueueOrdered(s, k, s.rows[k].queue))
  }

  /** The invariant in the middle of an operation. */
  ghost predicate Partial(s: PoolState, holes: map<nat, NetLoc>, limbo: set<nat>) {
    && !s.broken
    && RequestsOk(s, limbo)
    && LinksOk(s, limbo)
    && PlacesOk(s)
    && HomesOk(s, holes)
    && RowsOk(s, holes, limbo)
    && OrderOk(s)
  }

  /** The invariant between operations. */
  ghost predicate Inv(s: PoolState) { Partial(s, map[], {}) }
}

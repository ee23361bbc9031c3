/** The classes of the client side. Each method is proved against the function of module Pooling that
    specifies it. */
module PoolObjects {
  import opened Options
  import M = Pooling
  import PoolInvariant
  import PoolSteps
  import PoolRequests
  import PoolPromises

  class Request {
    const id: nat
    var uri: M.Uri
    var sslCtx: Option<nat>
    var hasBody: bool
    const settings: M.Settings
    var counter: M.U16
    var transferCompleted: bool
    var client: Client?
    var pool: Pool?
    var timer: Option<M.Timer>
    // history
    ghost var life: M.Life

    constructor (id: nat, uri: M.Uri, sslCtx: Option<nat>, hasBody: bool, settings: M.Settings)
      ensures this.id == id && client == null && pool == null && M.Fresh(View())
      ensures this.uri == uri && this.sslCtx == sslCtx && this.hasBody == hasBody && this.settings == settings
    {
      this.id, this.uri, this.sslCtx, this.hasBody, this.settings := id, uri, sslCtx, hasBody, settings;
      counter, transferCompleted, client, pool, timer := 0, false, null, null, None;
      life := M.Life(0, 0, 0, 0, []);
    }

    ghost function View(): M.Request
      reads this
    {
      M.Request(uri, sslCtx, hasBody, settings, counter, transferCompleted,
                if client == null then None else Some(client.id), pool != null, timer, life)
    }

    function Destination(): (k: M.NetLoc)
      reads this
      ensures k == M.NetLocOf(View())
    {
      if settings.proxy.Some? && settings.proxy.value.scheme == "http"
      then M.NetLoc(settings.proxy.value.host, settings.proxy.value.port, None, None, false)
      else M.NetLoc(uri.host, M.Port(uri), sslCtx, settings.proxy, settings.checkCert)
    }

    ghost method Accept(now: nat)
      modifies this`life
      ensures View() == Accepted(old(View()), now)
    {
      life := life.(accepted := life.accepted + 1, acceptedAt := now, hops := 0);
    }

    method Count()
      modifies this`counter
      ensures View() == old(View()).(counter := M.Increment(old(counter)))
    {
      counter := if counter == 0xFFFF then 0 else counter + 1;
    }

    /** The request gets the URI of the next hop; its SSL context is cleared. */
    method Redirect(location: M.Uri)
      modifies this`uri, this`sslCtx
      ensures View() == old(View()).(uri := M.Resolve(old(uri), location), sslCtx := None)
    {
      var next := location;
      if next.scheme == "" { next := next.(scheme := uri.scheme); }
      if next.host == "" {
        next := next.(host := uri.host);
        if uri.givenPort > 0 { next := next.(givenPort := uri.givenPort); }
      }
      uri := next;
      sslCtx := None;
    }

    /** After redirect_event: the request is made ready for its next hop. */
    method Hop(ghost q: M.Request, location: M.Uri, m: M.Message)
      requires m.callback.Follow? && View() == M.Redirected(q, location)
      modifies this
      ensures View() == M.Hop(q, location, m) && client == null && pool == old(pool)
    {
      sslCtx := m.callback.sslCtx;
      if m.code == 303 { hasBody := false; }
      life := life.(hops := life.hops + 1);
      CleanupAfterRedirect();
    }

    /** The request is one of a pool's from now on. */
    method Ask(pool: Pool, ghost ticket: nat)
      modifies this`pool, this`life
      ensures this.pool == pool
      ensures View() == old(View()).(pooled := true, life := old(life).(ticket := ticket))
    {
      this.pool := pool;
      life := life.(ticket := ticket);
    }

    /** What finish_request tells the user. */
    function Outcome(error: Option<M.Error>): (v: M.Verdict)
      reads this
      ensures v == M.VerdictOf(View(), error)
    {
      match error
      case Some(e) => M.Failed(e)
      case None => if transferCompleted then M.Succeeded else M.Failed(M.TransferAborted)
    }

    /** Writing the request writes all of it. */
    predicate WholeAtOnce()
      reads this
      ensures WholeAtOnce() == M.StartsWhole(View())
    {
      match settings.form
      case NoForm => !settings.chunked || hasBody
      case PlainForm => true
      case FileForm => false
    }

    method EnsureTimerActive(now: nat)
      modifies this`timer
      ensures View() == M.Arm(old(View()), now)
    {
      if settings.timeout == 0 { return; }
      if timer.None? || !timer.value.active {
        timer := Some(M.Timer(now + settings.timeout, true, false));
      }
      timer := Some(timer.value.(listening := true));
    }

    method CleanupAfterRedirect()
      modifies this`client, this`transferCompleted, this`timer
      ensures View() == M.Detach(old(View())) && client == null
    {
      client := null;
      transferCompleted := false;
      if timer.Some? { timer := Some(timer.value.(listening := false)); }
    }

    method FinishAndNotify(v: M.Verdict)
      modifies this
      ensures View() == M.Notify(old(View()), v) && client == null && pool == null
    {
      CleanupAfterRedirect();
      counter := 0;
      pool := null;
      if timer.Some? { timer := Some(timer.value.(active := false)); }
      life := life.(verdicts := life.verdicts + [v]);
    }
  }

  /** The history of a submission. */
  ghost function Accepted(q: M.Request, now: nat): M.Request {
    q.(life := q.life.(accepted := q.life.accepted + 1, acceptedAt := now, hops := 0))
  }

  /** What Client::request makes of client `c`, known as `b`, and of request `r`, known as `p`. */
  ghost predicate AfterRequest(b: M.Client, p: M.Request, c: nat, r: nat, now: nat, cl: M.Client, q: M.Request, o: M.Outcome) {
    var q1 := PoolSteps.Claimed(p, c);
    if b.request.Some? || p.client.Some? || p.uri.host == "" then o.Threw? && cl == b && q == p
    else if M.Reconnects(b, q1) && M.UnsupportedProxy(p) then
      o.Threw? && cl == (if b.connected then M.Drop(b) else b) && q == q1
    else o.Ok? && cl == M.Carrying(b, q1, r) && q == M.Sent(q1, now)
  }

  class Client {
    const id: nat
    var pool: Pool?
    var netloc: M.NetLoc
    var request: Request?
    var connected: bool
    var connecting: bool
    var weak: bool
    var lastActivity: nat
    // history
    ghost var carried: seq<M.Exchange>

    constructor (pool: Pool, id: nat)
      ensures this.id == id && this.pool == pool && request == null && View() == M.NewClient
    {
      this.pool, this.id := pool, id;
      netloc, request := M.NetLoc("", 0, None, None, true), null;
      connected, connecting, weak, lastActivity, carried := false, false, false, 0, [];
    }

    ghost function View(): M.Client
      reads this
    {
      M.Client(pool != null, netloc, if request == null then None else Some(request.id),
               connected, connecting, weak, lastActivity, carried)
    }

    /** Client::drop_connection. */
    method DropConnection()
      modifies this`connected, this`connecting, this`carried
      ensures View() == M.Drop(old(View()))
    {
      connected, connecting, carried := false, false, [];
    }

    /** The end of an exchange: the connection stays open for another one, or it is closed. */
    method LetGo(success: bool, sent: bool, kept: bool, now: nat)
      modifies this
      ensures pool == old(pool) && request == null
      ensures View() == (if success && kept then M.Mark(old(View()), sent, kept).(weak := true) else M.Drop(old(View())))
                          .(request := None, lastActivity := now)
    {
      if success && kept {
        MarkLast(sent, kept);
        weak := true;
      } else {
        DropConnection();
      }
      request := null;
      lastActivity := now;
    }

    /** The request goes to its next hop: the connection stays open if the response wants it. */
    method LetHop(sent: bool, requestKeeps: bool, responseKeeps: bool)
      modifies this
      ensures pool == old(pool) && request == null && netloc == old(netloc)
      ensures View() == (if responseKeeps then M.Mark(old(View()), sent, requestKeeps) else M.Drop(old(View()))).(request := None)
    {
      if responseKeeps { MarkLast(sent, requestKeeps); } else { DropConnection(); }
      request := null;
    }

    /** The last exchange of the connection has ended and leaves it open. */
    ghost method MarkLast(sent: bool, kept: bool)
      modifies this`carried
      ensures View() == M.Mark(old(View()), sent, kept)
    {
      if carried != [] {
        carried := carried[|carried| - 1 := carried[|carried| - 1].(sent := sent, kept := kept)];
      }
    }

    /** The part of Client::request that connects, if it has to. */
    method Connect(r: Request) returns (o: M.Outcome)
      modifies this`connected, this`connecting, this`carried, this`netloc
      ensures var cl, q := old(View()), r.View();
        if !M.Reconnects(cl, q) then o.Ok? && View() == cl
        else if M.UnsupportedProxy(q) then o.Threw? && View() == if cl.connected then M.Drop(cl) else cl
        else o.Ok? && View() == M.Drop(cl).(netloc := M.NetLocOf(q), connecting := true)
    {
      var destination := r.Destination();
      if !connected || netloc != destination || !r.settings.keepAlive {
        if r.settings.proxy.Some? && r.settings.proxy.value.scheme != "http" && r.settings.proxy.value.scheme != "socks5" {
          if connected { DropConnection(); }
          return M.Threw;
        }
        DropConnection();
        netloc := destination;
        connecting := true;
      }
      return M.Ok;
    }

    /** The rest of Client::request: the timer starts after connect(), then the request is written. */
    method WriteRequest(r: Request, now: nat)
      modifies this`weak, this`request, this`carried, r`timer, r`transferCompleted
      ensures r.View() == M.Sent(old(r.View()), now) && request == r
      ensures View() == old(View()).(weak := false, request := Some(r.id),
        carried := old(carried) + [M.Exchange(r.id, M.NetLocOf(old(r.View())), false, false)])
    {
      carried := carried + [M.Exchange(r.id, r.Destination(), false, false)];
      hide M.NetLocOf;
      r.EnsureTimerActive(now);
      weak := false;
      request := r;
      r.transferCompleted := r.transferCompleted || r.WholeAtOnce();
    }

    /** Client::request. */
    method StartRequest(r: Request, now: nat) returns (o: M.Outcome)
      modifies this, r
      ensures pool == old(pool) && r.pool == old(r.pool)
      ensures request == old(request) || request == r
      ensures r.client == old(r.client) || r.client == this
      ensures AfterRequest(old(View()), old(r.View()), id, r.id, now, View(), r.View(), o)
    {
      if request != null || r.client != null || r.uri.host == "" { return M.Threw; }
      r.client := this;
      if r.uri.scheme == "" { r.uri := r.uri.(scheme := "http"); }
      ghost var q1 := r.View();
      o := Connect(r);
      if o.Ok? { WriteRequest(r, now); }
      hide M.Sent, M.Reconnects, M.NetLocOf, M.Drop;
    }
  }

  datatype NetLocList = NetLocList(free: set<Client>, busy: set<Client>, queue: seq<Request>)

  function Ids(cs: set<Client>): set<nat> { set c | c in cs :: c.id }

  function Numbers(rs: seq<Request>): (ns: seq<nat>)
    ensures |ns| == |rs| && forall i :: 0 <= i < |rs| ==> ns[i] == rs[i].id
  {
    seq(|rs|, i requires 0 <= i < |rs| => rs[i].id)
  }

  function RowOf(l: NetLocList): M.Row { M.Row(Ids(l.free), Ids(l.busy), Numbers(l.queue)) }

  function RowsOf(rows: map<M.NetLoc, NetLocList>): map<M.NetLoc, M.Row> { map k | k in rows :: RowOf(rows[k]) }

  lemma RowsUpdate(rows: map<M.NetLoc, NetLocList>, k: M.NetLoc, l: NetLocList)
    ensures RowsOf(rows[k := l]) == RowsOf(rows)[k := RowOf(l)]
  {
    hide RowOf;
  }

  lemma RowsAt(rows: map<M.NetLoc, NetLocList>, k: M.NetLoc)
    ensures k in RowsOf(rows) <==> k in rows
    ensures k in rows ==> RowsOf(rows)[k] == RowOf(rows[k])
  {
    hide RowOf;
  }

  lemma IdsAdd(cs: set<Client>, c: Client)
    ensures Ids(cs + {c}) == Ids(cs) + {c.id}
  {
    assert c in cs + {c};
    forall i | i in Ids(cs) ensures i in Ids(cs + {c}) {
      var x :| x in cs && x.id == i;
      assert x in cs + {c};
    }
  }

  lemma IdsRemove(cs: set<Client>, c: Client)
    requires forall x :: x in cs && x.id == c.id ==> x == c
    ensures Ids(cs - {c}) == Ids(cs) - {c.id}
  {
    forall i | i in Ids(cs) - {c.id} ensures i in Ids(cs - {c}) {
      var x :| x in cs && x.id == i;
      assert x in cs - {c};
    }
  }

  lemma IdsIn(cs: set<Client>, c: Client)
    requires forall x :: x in cs && x.id == c.id ==> x == c
    ensures c.id in Ids(cs) <==> c in cs
  {
  }

  lemma {:induction false} IdsSize(cs: set<Client>)
    requires forall x, y :: x in cs && y in cs && x.id == y.id ==> x == y
    ensures |Ids(cs)| == |cs|
    decreases |cs|
  {
    if cs == {} {
      assert Ids(cs) == {};
    } else {
      var c :| c in cs;
      IdsSize(cs - {c});
      IdsRemove(cs, c);
      assert c.id in Ids(cs);
    }
  }

  predicate Known(clients: map<nat, Client>, c: Client) { c.id in clients && clients[c.id] == c }

  predicate Served(requests: map<nat, Request>, r: Request) { r.id in requests && requests[r.id] == r }

  ghost predicate Numbered(clients: map<nat, Client>, requests: map<nat, Request>, nextClient: nat) {
    && (forall i :: i in clients ==> clients[i].id == i && i < nextClient)
    && (forall i :: i in requests ==> requests[i].id == i)
  }

  ghost predicate RowKnown(l: NetLocList, clients: map<nat, Client>, requests: map<nat, Request>) {
    && (forall c :: c in l.free ==> Known(clients, c))
    && (forall c :: c in l.busy ==> Known(clients, c))
    && (forall r :: r in l.queue ==> Served(requests, r))
  }

  ghost predicate RowsKnown(rows: map<M.NetLoc, NetLocList>, clients: map<nat, Client>, requests: map<nat, Request>) {
    forall k :: k in rows ==> RowKnown(rows[k], clients, requests)
  }

  lemma RowUpdateKnown(rows: map<M.NetLoc, NetLocList>, clients: map<nat, Client>, requests: map<nat, Request>,
                       k: M.NetLoc, l: NetLocList)
    requires RowsKnown(rows, clients, requests) && RowKnown(l, clients, requests)
    ensures RowsKnown(rows[k := l], clients, requests)
  {
    hide RowKnown;
  }

  /** A row in which a busy client has become free. */
  lemma FreedIs(rows: map<M.NetLoc, NetLocList>, clients: map<nat, Client>, requests: map<nat, Request>, k: M.NetLoc, c: Client)
    requires k in rows && RowKnown(rows[k], clients, requests) && Known(clients, c)
    ensures var l := rows[k];
      var freed := NetLocList(l.free + {c}, l.busy - {c}, l.queue);
      && RowKnown(freed, clients, requests)
      && (c.id in RowOf(l).busy <==> c in l.busy)
      && RowOf(freed) == PoolSteps.Freed(RowOf(l), c.id)
  {
    hide RowsOf;
    var l := rows[k];
    IdsIn(l.busy, c);
    IdsAdd(l.free, c);
    IdsRemove(l.busy, c);
  }

  /** A row without the first request of its queue. */
  lemma PoppedIs(rows: map<M.NetLoc, NetLocList>, clients: map<nat, Client>, requests: map<nat, Request>, k: M.NetLoc)
    requires k in rows && rows[k].queue != [] && RowKnown(rows[k], clients, requests)
    ensures var l := rows[k];
      var popped := l.(queue := l.queue[1..]);
      && RowKnown(popped, clients, requests)
      && RowOf(l).queue != [] && RowOf(l).queue[0] == l.queue[0].id
      && RowOf(popped) == RowOf(l).(queue := RowOf(l).queue[1..])
  {
    hide Ids;
    var l := rows[k];
    assert Numbers(l.queue[1..]) == Numbers(l.queue)[1..];
  }

  ghost predicate Pointing(c: Client, pool: Pool, requests: map<nat, Request>)
    reads c
  {
    (c.pool == null || c.pool == pool) && (c.request != null ==> Served(requests, c.request))
  }

  ghost predicate PointingBack(r: Request, pool: Pool, clients: map<nat, Client>)
    reads r
  {
    (r.pool == null || r.pool == pool) && (r.client != null ==> Known(clients, r.client))
  }

  /** The footprint of a pool holds its clients and requests. */
  ghost predicate Held(clients: map<nat, Client>, requests: map<nat, Request>, repr: set<object>) {
    && (forall i :: i in clients ==> clients[i] in repr)
    && (forall i :: i in requests ==> requests[i] in repr)
  }

  ghost predicate AllPointing(clients: map<nat, Client>, pool: Pool, requests: map<nat, Request>, repr: set<object>)
    requires Held(clients, requests, repr)
    reads repr
  {
    forall i :: i in clients ==> Pointing(clients[i], pool, requests)
  }

  ghost predicate AllPointingBack(requests: map<nat, Request>, pool: Pool, clients: map<nat, Client>, repr: set<object>)
    requires Held(clients, requests, repr)
    reads repr
  {
    forall i :: i in requests ==> PointingBack(requests[i], pool, clients)
  }

  ghost function ClientViews(clients: map<nat, Client>, requests: map<nat, Request>, repr: set<object>): map<nat, M.Client>
    requires Held(clients, requests, repr)
    reads repr
  {
    map i | i in clients :: clients[i].View()
  }

  ghost function RequestViews(clients: map<nat, Client>, requests: map<nat, Request>, repr: set<object>): map<nat, M.Request>
    requires Held(clients, requests, repr)
    reads repr
  {
    map i | i in requests :: requests[i].View()
  }

  class Pool {
    var alive: bool
    var now: nat
    var idleTimeout: nat
    const maxConnections: nat
    var rows: map<M.NetLoc, NetLocList>
    var nextClient: nat
    // history, and every client and request there has been
    ghost var broken: bool
    ghost var clients: map<nat, Client>
    ghost var requests: map<nat, Request>
    ghost var nextTicket: nat
    ghost var started: seq<M.Start>

    ghost var repr: set<object>

    ghost predicate Knows(c: Client)
      reads this
    {
      Known(clients, c)
    }

    ghost predicate Serves(r: Request)
      reads this
    {
      Served(requests, r)
    }

    /** The footprint of the pool is its own. */
    ghost predicate Owns()
      reads this
    {
      this !in repr && Held(clients, requests, repr)
    }

    ghost function View(): M.PoolState
      requires Owns()
      reads this, repr
    {
      M.PoolState(alive, broken, now, idleTimeout, maxConnections, RowsOf(rows), ClientViews(clients, requests, repr),
                  RequestViews(clients, requests, repr), nextClient, nextTicket, started)
    }

    /** Numbers tell clients and requests apart, and the objects point to known objects only. */
    ghost predicate Linked()
      reads this, repr
    {
      && Owns()
      && Numbered(clients, requests, nextClient)
      && RowsKnown(rows, clients, requests)
      && AllPointing(clients, this, requests, repr)
      && AllPointingBack(requests, this, clients, repr)
    }

    constructor (idleTimeout: nat, maxConnections: nat)
      ensures Linked() && repr == {} && View() == M.NewPool(idleTimeout, maxConnections)
    {
      alive, now, this.idleTimeout, this.maxConnections := true, 0, idleTimeout, maxConnections;
      rows, nextClient, broken := map[], 0, false;
      clients, requests, nextTicket, started, repr := map[], map[], 0, [], {};
    }

    /** What the view and the links say about a client and a request. */
    lemma Snapshot()
      requires Linked()
      ensures View().clients.Keys == clients.Keys && View().requests.Keys == requests.Keys
      ensures forall i :: i in clients ==> View().clients[i] == clients[i].View()
      ensures forall i :: i in requests ==> View().requests[i] == requests[i].View()
      ensures forall i :: i in clients ==> Pointing(clients[i], this, requests)
      ensures forall i :: i in requests ==> PointingBack(requests[i], this, clients)
    {
    }

    lemma Pointers(c: Client, r: Request)
      requires Linked() && Knows(c) && Serves(r)
      ensures c in repr && r in repr
      ensures c.id in View().clients && View().clients[c.id] == c.View()
      ensures r.id in View().requests && View().requests[r.id] == r.View()
      ensures (c.pool == null || c.pool == this) && (c.request != null ==> Serves(c.request))
      ensures (r.pool == null || r.pool == this) && (r.client != null ==> Knows(r.client))
    {
      assert Pointing(clients[c.id], this, requests) && PointingBack(requests[r.id], this, clients);
    }

    /** Only client `c` and request `r` have changed since `s`. */
    lemma Changed(s: M.PoolState, c: Client, r: Request)
      requires Owns() && Numbered(clients, requests, nextClient) && RowsKnown(rows, clients, requests)
      requires Knows(c) && Serves(r)
      requires (c.pool == null || c.pool == this) && (c.request != null ==> Serves(c.request))
      requires (r.pool == null || r.pool == this) && (r.client != null ==> Knows(r.client))
      requires forall i :: i in clients && i != c.id ==> Pointing(clients[i], this, requests)
      requires forall i :: i in requests && i != r.id ==> PointingBack(requests[i], this, clients)
      requires s.clients.Keys == clients.Keys && s.requests.Keys == requests.Keys
      requires forall i :: i in clients && i != c.id ==> clients[i].View() == s.clients[i]
      requires forall i :: i in requests && i != r.id ==> requests[i].View() == s.requests[i]
      ensures Linked()
      ensures View().clients == s.clients[c.id := c.View()] && View().requests == s.requests[r.id := r.View()]
    {
    }

    /** Client::request. */
    method StartOn(c: Client, r: Request) returns (o: M.Outcome)
      requires Linked() && Knows(c) && Serves(r)
      modifies c, r
      ensures Linked()
      ensures (View(), o) == M.StartOn(old(View()), c.id, r.id)
    {
      hide M.Carrying, M.Sent, M.NetLocOf, M.Reconnects, RowsKnown, M.StartOn, AfterRequest, RowsOf, ClientViews, RequestViews;
      hide AllPointing, AllPointingBack, Pointing, PointingBack;
      ghost var s := View();
      Snapshot();
      Pointers(c, r);
      o := c.StartRequest(r, now);
      Changed(s, c, r);
      StartIs(s, c.id, r.id, c.View(), r.View(), o);
    }

    // ---------------------------------------------------------------- putback

    lemma RowOfPool(k: M.NetLoc)
      requires Linked() && k in rows
      ensures k in View().rows && View().rows[k] == RowOf(rows[k]) && RowKnown(rows[k], clients, requests)
    {
      RowsAt(rows, k);
    }

    /** A row gets new contents. */
    method ReplaceRow(k: M.NetLoc, l: NetLocList)
      requires Linked() && RowKnown(l, clients, requests)
      modifies this`rows
      ensures Linked() && rows == old(rows)[k := l]
      ensures View() == M.SetRow(old(View()), k, RowOf(l))
    {
      RowUpdateKnown(rows, clients, requests, k, l);
      RowsUpdate(rows, k, l);
      hide RowOf, RowsOf, RowsKnown, RowKnown, ClientViews, RequestViews, AllPointing, AllPointingBack, Numbered, Held;
      rows := rows[k := l];
    }

    /** An assertion of the program fails here, or nobody catches an exception. */
    ghost method Break()
      requires Linked()
      modifies this`broken
      ensures Linked() && View() == old(View()).(broken := true)
    {
      hide RowOf, RowsOf, RowsKnown, RowKnown, ClientViews, RequestViews, AllPointing, AllPointingBack, Numbered, Held;
      broken := true;
    }

    /** A request is accounted for as started. */
    ghost method Log(k: M.NetLoc, r: Request)
      requires Linked() && Serves(r)
      modifies this`started
      ensures Linked() && r.id in old(View()).requests && View() == PoolSteps.Logged(old(View()), k, r.id)
    {
      RequestPointer(r);
      hide RowOf, RowsOf, RowsKnown, RowKnown, ClientViews, RequestViews, AllPointing, AllPointingBack, Numbered, Held;
      started := started + [M.Start(k, r.life.ticket)];
    }

    /** The part of putback for a row without a queue. */
    method PutbackFree(c: Client, k: M.NetLoc)
      requires Linked() && Knows(c) && k in rows && rows[k].queue == []
      modifies this`rows, this`broken
      ensures Linked()
      ensures var s := old(View());
        k in s.rows && View() == if c.id !in s.rows[k].busy then s.(broken := true)
                  else M.SetRow(s, k, PoolSteps.Freed(s.rows[k], c.id))
    {
      RowOfPool(k);
      FreedIs(rows, clients, requests, k, c);
      hide *;
      var list := rows[k];
      if c !in list.busy {
        Break();
      } else {
        ReplaceRow(k, NetLocList(list.free + {c}, list.busy - {c}, list.queue));
      }
    }

    /** The part of putback for a row with a queue. */
    method PutbackNext(c: Client, k: M.NetLoc, r: Request)
      requires Linked() && Knows(c) && k in rows && rows[k].queue != [] && r == rows[k].queue[0] && Serves(r)
      modifies this`rows, this`broken, this`started, c, r
      ensures Linked()
      ensures var s := old(View());
        && k in s.rows && s.rows[k].queue != [] && s.rows[k].queue[0] == r.id && c.id in s.clients && r.id in s.requests
        && View() == M.Uncaught(M.Launch(PoolSteps.Popped(s, k), k, c.id, r.id))
    {
      hide View, RowOf, RowsKnown, RowKnown, AllPointing, AllPointingBack, Numbered, Held, Known, Served;
      hide PoolSteps.Popped, PoolSteps.Logged, M.SetRow, M.Launch, M.StartOn, M.Uncaught;
      NextFacts(c, k, r);
      var list := rows[k];
      ReplaceRow(k, list.(queue := list.queue[1..]));
      var o := LaunchRequest(k, c, r);
      UncaughtIs(View(), o);
      if o.Threw? { Break(); }
    }

    lemma NextFacts(c: Client, k: M.NetLoc, r: Request)
      requires Linked() && Knows(c) && k in rows && rows[k].queue != [] && r == rows[k].queue[0] && Serves(r)
      ensures var l := rows[k];
        var popped := l.(queue := l.queue[1..]);
        var s := View();
        && RowKnown(popped, clients, requests)
        && k in s.rows && s.rows[k].queue != [] && s.rows[k].queue[0] == r.id && c.id in s.clients && r.id in s.requests
        && PoolSteps.Popped(s, k) == M.SetRow(s, k, RowOf(popped))
        && c.id in PoolSteps.Popped(s, k).clients && r.id in PoolSteps.Popped(s, k).requests
    {
      Pointers(c, r);
      RowOfPool(k);
      PoppedIs(rows, clients, requests, k);
      hide RowOf, RowsOf, RowsKnown, RowKnown, ClientViews, RequestViews, AllPointing, AllPointingBack, Numbered, Held;
      hide M.Launch, M.StartOn;
    }

    /** Pool::putback. */
    method Putback(c: Client)
      requires Linked() && Knows(c)
      modifies this`rows, this`broken, this`started, repr
      ensures Linked() && c.id in old(View()).clients
      ensures View() == M.Putback(old(View()), c.id)
    {
      ClientPointer(c);
      var k := c.netloc;
      RowsAt(rows, k);
      if k in rows {
        RowOfPool(k);
        if rows[k].queue != [] {
          var r := rows[k].queue[0];
          RequestPointer(r);
          hide ClientViews, RequestViews, AllPointing, AllPointingBack, Numbered, RowsOf, RowsKnown, RowKnown, M.Launch, Held;
          PutbackNext(c, k, r);
        } else {
          hide ClientViews, RequestViews, AllPointing, AllPointingBack, Numbered, RowsOf, RowsKnown, RowKnown, M.Launch, Held;
          PutbackFree(c, k);
        }
      } else {
        broken := true;
      }
    }

    lemma ClientPointer(c: Client)
      requires Linked() && Knows(c)
      ensures c in repr && c.id in View().clients && View().clients[c.id] == c.View()
      ensures (c.pool == null || c.pool == this) && (c.request != null ==> Serves(c.request))
    {
      assert Pointing(clients[c.id], this, requests);
    }

    lemma RequestPointer(r: Request)
      requires Linked() && Serves(r)
      ensures r in repr && r.id in View().requests && View().requests[r.id] == r.View()
      ensures (r.pool == null || r.pool == this) && (r.client != null ==> Knows(r.client))
    {
      assert PointingBack(requests[r.id], this, clients);
    }

    // ---------------------------------------------------------------- the end of a request

    /** Client::finish_request up to putback: the request is let go, and the connection closed unless both
        sides keep it. */
    method LetRequestGo(c: Client, r: Request, v: M.Verdict, keepAlive: bool)
      requires Linked() && Knows(c) && c.request == r && Serves(r)
      modifies c
      ensures Linked() && c.pool == old(c.pool)
      ensures c.id in old(View()).clients && r.id in old(View()).requests
      ensures var s := old(View());
        View() == M.SetClient(s, c.id, M.Let(s.clients[c.id], s.requests[r.id], v, keepAlive, s.now))
    {
      Snapshot();
      Pointers(c, r);
      ghost var s := View();
      hide RowOf, RowsOf, RowsKnown, ClientViews, RequestViews, AllPointing, AllPointingBack, Pointing, PointingBack, M.Let;
      LetIs(c.View(), r.View(), v, keepAlive, now);
      hide M.Mark, M.Drop;
      c.LetGo(v.Succeeded?, r.transferCompleted, keepAlive && r.settings.keepAlive, now);
      ClientChanged(s, c);
    }

    /** Only client `c` has changed since `s`. */
    lemma ClientChanged(s: M.PoolState, c: Client)
      requires Owns() && Numbered(clients, requests, nextClient) && RowsKnown(rows, clients, requests) && Knows(c)
      requires (c.pool == null || c.pool == this) && (c.request != null ==> Serves(c.request))
      requires forall i :: i in clients && i != c.id ==> Pointing(clients[i], this, requests)
      requires forall i :: i in requests ==> PointingBack(requests[i], this, clients)
      requires s.clients.Keys == clients.Keys && s.requests.Keys == requests.Keys
      requires forall i :: i in clients && i != c.id ==> clients[i].View() == s.clients[i]
      requires forall i :: i in requests ==> requests[i].View() == s.requests[i]
      ensures Linked()
      ensures View().clients == s.clients[c.id := c.View()] && View().requests == s.requests
    {
    }

    /** Request::finish_and_notify within the pool. */
    method Settle(r: Request, v: M.Verdict)
      requires Linked() && Serves(r)
      modifies r
      ensures Linked() && r.id in old(View()).requests
      ensures var s := old(View()); View() == M.SetRequest(s, r.id, M.Notify(s.requests[r.id], v))
    {
      Snapshot();
      ghost var s := View();
      hide RowOf, RowsOf, RowsKnown, ClientViews, RequestViews, AllPointing, AllPointingBack, Pointing, PointingBack, M.Notify;
      r.FinishAndNotify(v);
      RequestChanged(s, r);
    }

    /** Only request `r` has changed since `s`. */
    lemma RequestChanged(s: M.PoolState, r: Request)
      requires Owns() && Numbered(clients, requests, nextClient) && RowsKnown(rows, clients, requests) && Serves(r)
      requires (r.pool == null || r.pool == this) && (r.client != null ==> Knows(r.client))
      requires forall i :: i in clients ==> Pointing(clients[i], this, requests)
      requires forall i :: i in requests && i != r.id ==> PointingBack(requests[i], this, clients)
      requires s.clients.Keys == clients.Keys && s.requests.Keys == requests.Keys
      requires forall i :: i in clients ==> clients[i].View() == s.clients[i]
      requires forall i :: i in requests && i != r.id ==> requests[i].View() == s.requests[i]
      ensures Linked()
      ensures View().clients == s.clients && View().requests == s.requests[r.id := r.View()]
    {
    }

    /** Client::finish_request. */
    method FinishRequest(c: Client, r: Request, error: Option<M.Error>, keepAlive: bool)
      requires Linked() && Knows(c) && c.request == r && Serves(r)
      modifies this`rows, this`broken, this`started, repr
      ensures Linked()
      ensures var s := old(View());
        && M.Active(s, c.id) && s.clients[c.id].request == Some(r.id)
        && View() == M.FinishOn(s, c.id, error, keepAlive)
    {
      Pointers(c, r);
      hide *;
      ghost var s := View();
      var v := r.Outcome(error);
      LetRequestGo(c, r, v, keepAlive);
      if c.pool != null { Putback(c); }
      Settle(r, v);
      FinishIs(s, c.id, r.id, error, keepAlive);
    }

    /** Client::cancel. */
    method CancelClient(c: Client, error: M.Error)
      requires Linked() && Knows(c)
      modifies this`rows, this`broken, this`started, repr
      ensures Linked()
      ensures var s := old(View());
        && c.id in s.clients && (s.clients[c.id].request.Some? ==> s.clients[c.id].request.value in s.requests)
        && View() == M.CancelOn(s, c.id, error)
    {
      ClientPointer(c);
      hide RowOf, RowsOf, RowsKnown, ClientViews, RequestViews, AllPointing, AllPointingBack, Pointing, PointingBack, Numbered;
      hide M.FinishOn;
      if c.request != null {
        Pointers(c, c.request);
        FinishRequest(c, c.request, Some(error), false);
      }
    }

    // ---------------------------------------------------------------- Pool::request

    /** A client is made, and known from now on. */
    method CreateClient() returns (c: Client)
      requires Linked()
      modifies this`clients, this`nextClient, this`repr
      ensures Linked() && fresh(c) && Knows(c) && repr == old(repr) + {c} && c.id == old(nextClient)
      ensures forall i :: i in old(clients) ==> i in clients && clients[i] == old(clients)[i]
      ensures var s := old(View());
        View() == M.SetClient(s, s.nextClient, M.NewClient).(nextClient := s.nextClient + 1)
    {
      Snapshot();
      ghost var s := View();
      hide RowOf, RowsOf, RowKnown, ClientViews, RequestViews, AllPointing, AllPointingBack, Pointing, PointingBack;
      c := new Client(this, nextClient);
      StillKnown(clients, clients[nextClient := c], requests, rows, c);
      hide RowsKnown;
      Register(c);
      ClientChanged(s.(clients := s.clients[c.id := M.NewClient]), c);
    }

    method Register(c: Client)
      modifies this`clients, this`nextClient, this`repr
      ensures clients == old(clients)[old(nextClient) := c] && nextClient == old(nextClient) + 1 && repr == old(repr) + {c}
    {
      clients := clients[nextClient := c];
      nextClient := nextClient + 1;
      repr := repr + {c};
    }

    /** A request is marked as one of the pool's, and gets its ticket. */
    method MarkAsked(r: Request)
      requires Linked() && Serves(r)
      modifies r`pool, r`life, this`nextTicket
      ensures Linked() && r.id in old(View()).requests && View() == PoolRequests.Ticketed(old(View()), r.id)
    {
      RequestPointer(r);
      hide RowOf, RowsOf, RowsKnown, ClientViews, RequestViews, AllPointing, AllPointingBack, Numbered, Held, View, M.SetRequest;
      MarkWithin(r);
      NextTicket();
    }

    ghost method NextTicket()
      requires Linked()
      modifies this`nextTicket
      ensures Linked() && View() == old(View()).(nextTicket := old(View()).nextTicket + 1)
    {
      hide RowOf, RowsOf, RowsKnown, RowKnown, ClientViews, RequestViews, AllPointing, AllPointingBack, Numbered, Held;
      nextTicket := nextTicket + 1;
    }

    method MarkWithin(r: Request)
      requires Linked() && Serves(r)
      modifies r`pool, r`life
      ensures Linked() && r.id in old(View()).requests
      ensures var s := old(View());
        var q := s.requests[r.id];
        View() == M.SetRequest(s, r.id, q.(pooled := true, life := q.life.(ticket := s.nextTicket)))
    {
      Snapshot();
      RequestPointer(r);
      ghost var s := View();
      hide RowOf, RowsOf, RowsKnown, ClientViews, RequestViews, AllPointing, AllPointingBack, Pointing, PointingBack;
      r.Ask(this, nextTicket);
      RequestChanged(s, r);
    }

    /** The request waits. */
    method EnqueueRequest(k: M.NetLoc, r: Request)
      requires Linked() && Serves(r) && k in rows
      modifies this`rows, r`timer
      ensures Linked()
      ensures var s := old(View()); k in s.rows && r.id in s.requests && View() == M.Enqueue(s, k, r.id)
    {
      EnqueueFacts(k, r);
      hide View, RowOf, RowsKnown, RowKnown, AllPointing, AllPointingBack, Numbered, Held, Known, Served;
      hide M.SetRow, M.SetRequest, M.Enqueue, M.Arm;
      var list := rows[k];
      ReplaceRow(k, list.(queue := list.queue + [r]));
      ArmWithin(r);
    }

    lemma EnqueueFacts(k: M.NetLoc, r: Request)
      requires Linked() && Serves(r) && k in rows
      ensures var l := rows[k].(queue := rows[k].queue + [r]);
        var s := View();
        && RowKnown(l, clients, requests) && k in s.rows && r.id in s.requests
        && M.Enqueue(s, k, r.id) == M.SetRequest(M.SetRow(s, k, RowOf(l)), r.id, M.Arm(s.requests[r.id], s.now))
        && M.SetRow(s, k, RowOf(l)).requests == s.requests && M.SetRow(s, k, RowOf(l)).now == s.now
    {
      RequestPointer(r);
      RowOfPool(k);
      var list := rows[k];
      assert Numbers(list.queue + [r]) == Numbers(list.queue) + [r.id];
      hide RowsOf, RowsKnown, ClientViews, RequestViews, AllPointing, AllPointingBack, Numbered, Held, M.Arm;
    }

    method ArmWithin(r: Request)
      requires Linked() && Serves(r)
      modifies r`timer
      ensures Linked() && r.id in old(View()).requests
      ensures var s := old(View()); View() == M.SetRequest(s, r.id, M.Arm(s.requests[r.id], s.now))
    {
      Snapshot();
      RequestPointer(r);
      ghost var s := View();
      hide RowOf, RowsOf, RowsKnown, ClientViews, RequestViews, AllPointing, AllPointingBack, Pointing, PointingBack, M.Arm;
      r.EnsureTimerActive(now);
      RequestChanged(s, r);
    }

    /** The first client for a destination. */
    method TakeFirst(k: M.NetLoc) returns (c: Client)
      requires Linked() && k !in rows
      modifies this`rows, this`clients, this`nextClient, this`repr
      ensures Linked() && repr == old(repr) + {c} && fresh(c) && Knows(c) && c.id == old(nextClient)
      ensures forall i :: i in old(clients) ==> i in clients && clients[i] == old(clients)[i]
      ensures var s := old(View()); View() == M.AddClient(s, k, M.Row({}, {s.nextClient}, []))
    {
      hide RowOf, RowsOf, RowsKnown, ClientViews, RequestViews, AllPointing, AllPointingBack, Numbered, Held;
      c := CreateClient();
      SoleRow(c, clients, requests);
      ReplaceRow(k, NetLocList({}, {c}, []));
    }

    /** A free client becomes busy. */
    method TakeFree(k: M.NetLoc) returns (c: Client)
      requires Linked() && k in rows && rows[k].free != {}
      modifies this`rows
      ensures Linked() && Knows(c)
      ensures var s := old(View());
        && k in s.rows && c.id in s.rows[k].free && c.id in s.clients
        && View() == M.SetRow(s, k, s.rows[k].(free := s.rows[k].free - {c.id}, busy := s.rows[k].busy + {c.id}))
    {
      RowOfPool(k);
      var list := rows[k];
      c :| c in list.free;
      PickedIs(list, clients, requests, c);
      ClientPointer(c);
      hide RowOf, RowsOf, RowsKnown, ClientViews, RequestViews, AllPointing, AllPointingBack, Numbered, Held;
      ReplaceRow(k, NetLocList(list.free - {c}, list.busy + {c}, list.queue));
    }

    /** One more client for a destination. */
    method TakeMore(k: M.NetLoc) returns (c: Client)
      requires Linked() && k in rows
      modifies this`rows, this`clients, this`nextClient, this`repr
      ensures Linked() && repr == old(repr) + {c} && fresh(c) && Knows(c) && c.id == old(nextClient)
      ensures forall i :: i in old(clients) ==> i in clients && clients[i] == old(clients)[i]
      ensures var s := old(View());
        k in s.rows && View() == M.AddClient(s, k, s.rows[k].(busy := s.rows[k].busy + {s.nextClient}))
    {
      RowOfPool(k);
      var list := rows[k];
      hide RowOf, RowsOf, RowsKnown, RowKnown, ClientViews, RequestViews, AllPointing, AllPointingBack, Numbered, Held;
      c := CreateClient();
      RowOfPool(k);
      MoreIs(list, clients, requests, c);
      ReplaceRow(k, list.(busy := list.busy + {c}));
    }

    /** The client for a destination: a free one, a new one, or none. */
    method TakeClient(k: M.NetLoc) returns (c: Client?, ghost pick: nat)
      requires Linked()
      modifies this`rows, this`clients, this`nextClient, this`repr
      ensures Linked() && repr >= old(repr) && fresh(repr - old(repr))
      ensures forall i :: i in old(clients) ==> i in clients && clients[i] == old(clients)[i]
      ensures c != null ==> Knows(c)
      ensures M.Pickable(old(View()), k, pick)
      ensures M.Choose(old(View()), k, pick) == if c == null then None else Some(c.id)
      ensures View() == M.Take(old(View()), k, pick)
      ensures c == null ==> k in rows
    {
      pick := 0;
      RowsAt(rows, k);
      if k in rows {
        RowOfPool(k);
        RowSizes(rows[k], clients, requests);
      }
      hide RowOf, RowsOf, RowsKnown, RowKnown, ClientViews, RequestViews, AllPointing, AllPointingBack, Numbered, Held;
      hide M.AddClient, M.SetRow;
      if k !in rows {
        c := TakeFirst(k);
      } else if rows[k].free != {} {
        c := TakeFree(k);
        pick := c.id;
      } else if |rows[k].busy| < maxConnections {
        c := TakeMore(k);
      } else {
        c := null;
      }
    }

    /** Pool::request. */
    method Request(r: Request) returns (c: Client?, o: M.Outcome, ghost pick: nat)
      requires Linked() && Serves(r)
      modifies this`rows, this`clients, this`nextClient, this`repr, this`nextTicket, this`started, repr
      ensures Linked() && repr >= old(repr) && fresh(repr - old(repr))
      ensures forall i :: i in old(clients) ==> i in clients && clients[i] == old(clients)[i]
      ensures r.id in old(View()).requests
      ensures old(r.uri).host != "" ==> M.Pickable(old(View()), M.NetLocOf(old(r.View())), pick)
      ensures (View(), o) == M.PoolRequest(old(View()), r.id, pick)
    {
      RequestPointer(r);
      hide RowOf, RowsOf, RowsKnown, RowKnown, ClientViews, RequestViews, AllPointing, AllPointingBack, Numbered, Held;
      hide M.NetLocOf;
      if r.uri.host == "" {
        c, o, pick := null, M.Threw, 0;
      } else {
        c, o, pick := Serve(r, r.Destination());
      }
    }

    /** Pool::request for a request with a host. */
    method Serve(r: Request, k: M.NetLoc) returns (c: Client?, o: M.Outcome, ghost pick: nat)
      requires Linked() && Serves(r) && r.uri.host != "" && k == M.NetLocOf(r.View())
      modifies this`rows, this`clients, this`nextClient, this`repr, this`nextTicket, this`started, repr
      ensures Linked() && repr >= old(repr) && fresh(repr - old(repr))
      ensures forall i :: i in old(clients) ==> i in clients && clients[i] == old(clients)[i]
      ensures r.id in old(View()).requests
      ensures M.Pickable(old(View()), k, pick)
      ensures (View(), o) == M.PoolRequest(old(View()), r.id, pick)
    {
      RequestPointer(r);
      hide RowOf, RowsOf, RowsKnown, RowKnown, ClientViews, RequestViews, AllPointing, AllPointingBack, Numbered, Held, View;
      hide M.Take, M.Launch, M.Enqueue, M.NetLocOf, M.StartOn, M.Choose, M.Pickable, M.PoolRequest, PoolRequests.Ticketed;
      hide PoolSteps.Logged;
      ghost var s := View();
      MarkAsked(r);
      c, o, pick := PlaceRequest(r, k);
      AskIs(s, r.id, k, pick);
    }

    /** A request with a ticket is started or waits. */
    method PlaceRequest(r: Request, k: M.NetLoc) returns (c: Client?, o: M.Outcome, ghost pick: nat)
      requires Linked() && Serves(r)
      modifies this`rows, this`clients, this`nextClient, this`repr, this`started, repr
      ensures Linked() && repr >= old(repr) && fresh(repr - old(repr))
      ensures forall i :: i in old(clients) ==> i in clients && clients[i] == old(clients)[i]
      ensures r.id in old(View()).requests
      ensures var t := old(View());
        && M.Pickable(t, k, pick)
        && match M.Choose(t, k, pick)
           case None => k in t.rows && (View(), o) == (M.Enqueue(t, k, r.id), M.Ok)
           case Some(x) =>
             && x in M.Take(t, k, pick).clients && r.id in M.Take(t, k, pick).requests
             && (View(), o) == M.Launch(M.Take(t, k, pick), k, x, r.id)
    {
      RequestPointer(r);
      hide RowOf, RowsOf, RowsKnown, RowKnown, ClientViews, RequestViews, AllPointing, AllPointingBack, Numbered, Held, View;
      hide M.Take, M.Launch, M.Enqueue, M.NetLocOf, M.StartOn, M.Choose, M.Pickable;
      ghost var t := View();
      c, pick := TakeClient(k);
      if c == null {
        TakeNothing(t, k, pick);
        EnqueueRequest(k, r);
        o := M.Ok;
      } else {
        o := LaunchRequest(k, c, r);
      }
    }

    method LaunchRequest(k: M.NetLoc, c: Client, r: Request) returns (o: M.Outcome)
      requires Linked() && Knows(c) && Serves(r)
      modifies this`started, c, r
      ensures Linked() && c.id in old(View()).clients && r.id in old(View()).requests
      ensures (View(), o) == M.Launch(old(View()), k, c.id, r.id)
    {
      Pointers(c, r);
      hide RowOf, RowsOf, RowsKnown, RowKnown, ClientViews, RequestViews, AllPointing, AllPointingBack, Numbered, Held, View;
      hide M.Launch, M.StartOn, PoolSteps.Logged;
      LaunchedIs(View(), k, c.id, r.id);
      Log(k, r);
      o := StartOn(c, r);
    }

    /** The history of a submission by a user. */
    ghost method AcceptWithin(r: Request)
      requires Linked() && Serves(r)
      modifies r`life
      ensures Linked() && r.id in old(View()).requests
      ensures r.View() == Accepted(old(r.View()), now)
      ensures var s := old(View()); View() == M.SetRequest(s, r.id, Accepted(s.requests[r.id], s.now))
    {
      Snapshot();
      RequestPointer(r);
      ghost var s := View();
      hide RowOf, RowsOf, RowsKnown, ClientViews, RequestViews, AllPointing, AllPointingBack, Pointing, PointingBack, Accepted;
      r.Accept(now);
      RequestChanged(s, r);
    }

    /** Pool::request called by a user. */
    method Submit(r: Request) returns (c: Client?, o: M.Outcome, ghost pick: nat)
      requires Linked() && Serves(r)
      modifies this`rows, this`clients, this`nextClient, this`repr, this`nextTicket, this`started, repr
      ensures Linked() && repr >= old(repr) && fresh(repr - old(repr))
      ensures r.id in old(View()).requests
      ensures (View(), o) == M.SubmitTo(old(View()), r.id, pick)
    {
      RequestPointer(r);
      hide View, RowOf, RowsKnown, RowKnown, AllPointing, AllPointingBack, Numbered, Held, M.PoolRequest, M.NetLocOf, M.Pickable;
      hide M.SubmitTo, M.SetRequest, Accepted;
      ghost var s := View();
      if r.uri.host == "" {
        c, o, pick := null, M.Threw, 0;
      } else {
        AcceptWithin(r);
        c, o, pick := Request(r);
      }
      SubmitIs(s, r.id, pick);
    }

    // ---------------------------------------------------------------- redirects

    /** The redirect counter goes up. */
    method CountWithin(r: Request)
      requires Linked() && Serves(r)
      modifies r`counter
      ensures Linked() && r.id in old(View()).requests
      ensures r.View() == old(r.View()).(counter := M.Increment(old(r.counter)))
      ensures var s := old(View());
        var q := s.requests[r.id];
        View() == M.SetRequest(s, r.id, q.(counter := M.Increment(q.counter)))
    {
      Snapshot();
      RequestPointer(r);
      ghost var s := View();
      hide RowOf, RowsOf, RowsKnown, ClientViews, RequestViews, AllPointing, AllPointingBack, Pointing, PointingBack;
      r.Count();
      RequestChanged(s, r);
    }

    /** The request gets its new URI and loses its SSL context. */
    method RedirectWithin(r: Request, location: M.Uri)
      requires Linked() && Serves(r)
      modifies r`uri, r`sslCtx
      ensures Linked() && r.id in old(View()).requests
      ensures r.View() == old(r.View()).(uri := M.Resolve(old(r.uri), location), sslCtx := None)
      ensures var s := old(View());
        var q := s.requests[r.id];
        View() == M.SetRequest(s, r.id, q.(uri := M.Resolve(q.uri, location), sslCtx := None))
    {
      Snapshot();
      RequestPointer(r);
      ghost var s := View();
      hide RowOf, RowsOf, RowsKnown, ClientViews, RequestViews, AllPointing, AllPointingBack, Pointing, PointingBack, M.Resolve;
      r.Redirect(location);
      RequestChanged(s, r);
    }

    /** The client lets its request go to the next hop. */
    method ClientParts(c: Client, r: Request, ghost q: M.Request, keepAlive: bool)
      requires Linked() && Knows(c) && Serves(r) && c.request == r
      requires r.transferCompleted == q.transferCompleted && r.settings == q.settings
      modifies c
      ensures Linked() && c.pool == old(c.pool) && c.netloc == old(c.netloc) && c.request == null
      ensures c.id in old(View()).clients
      ensures var s := old(View()); View() == M.SetClient(s, c.id, M.LetHop(s.clients[c.id], q, keepAlive))
    {
      Snapshot();
      Pointers(c, r);
      ghost var s := View();
      hide RowOf, RowsOf, RowsKnown, ClientViews, RequestViews, AllPointing, AllPointingBack, Pointing, PointingBack, M.LetHop;
      LetHopIs(s.clients[c.id], q, keepAlive);
      hide M.Mark, M.Drop;
      c.LetHop(r.transferCompleted, r.settings.keepAlive, keepAlive);
      ClientChanged(s, c);
    }

    /** The request is made ready for its next hop. */
    method HopWithin(r: Request, ghost q: M.Request, location: M.Uri, m: M.Message)
      requires Linked() && Serves(r) && m.callback.Follow? && r.View() == M.Redirected(q, location)
      modifies r
      ensures Linked() && r.client == null && r.View() == M.Hop(q, location, m)
      ensures View() == M.SetRequest(old(View()), r.id, M.Hop(q, location, m))
    {
      Snapshot();
      RequestPointer(r);
      ghost var s := View();
      hide RowOf, RowsOf, RowsKnown, ClientViews, RequestViews, AllPointing, AllPointingBack, Pointing, PointingBack;
      hide M.Redirected, M.Hop;
      r.Hop(q, location, m);
      RequestChanged(s, r);
    }

    method PartWays(c: Client, r: Request, ghost q: M.Request, location: M.Uri, m: M.Message)
      requires Linked() && Knows(c) && Serves(r) && c.request == r && m.callback.Follow?
      requires r.View() == M.Redirected(q, location)
      modifies c, r
      ensures Linked() && c.pool == old(c.pool) && c.netloc == old(c.netloc) && c.request == null && r.client == null
      ensures c.id in old(View()).clients && r.View() == M.Hop(q, location, m)
      ensures var s := old(View());
        View() == PoolSteps.LetGo(s, c.id, M.LetHop(s.clients[c.id], q, m.keepAlive), r.id, M.Hop(q, location, m))
    {
      HopParts(q, location, m);
      hide View, RowOf, RowsKnown, RowKnown, AllPointing, AllPointingBack, Numbered, Held;
      hide M.Redirected, M.LetHop, M.Hop;
      ClientParts(c, r, q, m.keepAlive);
      HopWithin(r, q, location, m);
    }

    /** The client's clock, and whether the loop waits for it. */
    method TouchClient(c: Client)
      requires Linked() && Knows(c)
      modifies c`lastActivity
      ensures Linked() && c.id in old(View()).clients
      ensures var s := old(View()); View() == M.SetClient(s, c.id, s.clients[c.id].(lastActivity := s.now))
    {
      Snapshot();
      ClientPointer(c);
      ghost var s := View();
      hide RowOf, RowsOf, RowsKnown, ClientViews, RequestViews, AllPointing, AllPointingBack, Pointing, PointingBack;
      c.lastActivity := now;
      ClientChanged(s, c);
    }

    method WeakenClient(c: Client)
      requires Linked() && Knows(c)
      modifies c`weak
      ensures Linked() && c.id in old(View()).clients
      ensures var s := old(View()); View() == M.SetClient(s, c.id, s.clients[c.id].(weak := true))
    {
      Snapshot();
      ClientPointer(c);
      ghost var s := View();
      hide RowOf, RowsOf, RowsKnown, ClientViews, RequestViews, AllPointing, AllPointingBack, Pointing, PointingBack;
      c.weak := true;
      ClientChanged(s, c);
    }

    /** The client goes back to the pool, and is made weak. */
    method HandBack(c: Client)
      requires Linked() && Knows(c)
      modifies this`rows, this`started, this`broken, repr
      ensures Linked() && c.id in old(View()).clients
      ensures var s := old(View());
        var s2 := M.Putback(M.SetClient(s, c.id, s.clients[c.id].(lastActivity := s.now)), c.id);
        c.id in s2.clients && View() == M.SetClient(s2, c.id, s2.clients[c.id].(weak := true))
    {
      ClientPointer(c);
      hide View, RowOf, RowsKnown, RowKnown, AllPointing, AllPointingBack, Numbered, Held, Known, Served;
      hide M.Putback;
      TouchClient(c);
      Putback(c);
      WeakenClient(c);
    }

    /** The request goes to another client. */
    method AskAgain(r: Request) returns (ghost pick: nat)
      requires Linked() && Serves(r)
      modifies this`rows, this`clients, this`nextClient, this`repr, this`nextTicket, this`started, this`broken, repr
      ensures Linked() && repr >= old(repr) && fresh(repr - old(repr))
      ensures r.id in old(View()).requests
      ensures old(r.uri).host != "" ==> M.Pickable(old(View()), M.NetLocOf(old(r.View())), pick)
      ensures View() == M.Uncaught(M.PoolRequest(old(View()), r.id, pick))
    {
      RequestPointer(r);
      hide View, RowOf, RowsKnown, RowKnown, AllPointing, AllPointingBack, Numbered, Held, Known, Served;
      hide M.PoolRequest, M.Uncaught, M.NetLocOf, M.Pickable;
      var x, o, p := Request(r);
      pick := p;
      UncaughtIs(View(), o);
      if o.Threw? { Break(); }
    }

    /** The request goes on with the same client. */
    method GoOn(c: Client, r: Request)
      requires Linked() && Knows(c) && Serves(r)
      modifies this`broken, c, r
      ensures Linked() && c.id in old(View()).clients && r.id in old(View()).requests
      ensures View() == M.Uncaught(M.StartOn(old(View()), c.id, r.id))
    {
      Pointers(c, r);
      hide View, RowOf, RowsKnown, RowKnown, AllPointing, AllPointingBack, Numbered, Held, Known, Served;
      hide M.StartOn, M.Uncaught;
      var o := StartOn(c, r);
      UncaughtIs(View(), o);
      if o.Threw? { Break(); }
    }

    /** A request that has parted from its client is sent on. */
    method SendOn(c: Client, r: Request, away: bool) returns (ghost pick: nat)
      requires Linked() && Knows(c) && Serves(r)
      modifies this`rows, this`clients, this`nextClient, this`repr, this`nextTicket, this`started, this`broken, repr
      ensures Linked() && repr >= old(repr) && fresh(repr - old(repr))
      ensures c.id in old(View()).clients && r.id in old(View()).requests
      ensures !away ==> pick == 0 && View() == M.Uncaught(M.StartOn(old(View()), c.id, r.id))
      ensures away ==>
        var t := old(View());
        var s2 := M.Putback(M.SetClient(t, c.id, t.clients[c.id].(lastActivity := t.now)), c.id);
        && c.id in s2.clients && r.id in s2.requests
        && View() == M.Uncaught(M.PoolRequest(M.SetClient(s2, c.id, s2.clients[c.id].(weak := true)), r.id, pick))
    {
      Pointers(c, r);
      hide View, RowOf, RowsKnown, RowKnown, AllPointing, AllPointingBack, Numbered, Held, Known, Served;
      hide M.Putback, M.PoolRequest, M.Uncaught, M.NetLocOf, M.StartOn, M.SetClient, M.Pickable;
      pick := 0;
      if away {
        HandBack(c);
        pick := AskAgain(r);
        ClientsOnly();
      } else {
        GoOn(c, r);
      }
    }

    lemma ClientsOnly()
      ensures forall s: M.PoolState, c: nat, cl: M.Client :: M.SetClient(s, c, cl).requests == s.requests
    {
    }

    /** The end of analyze_request for a redirect that is followed. */
    method Follow(c: Client, r: Request, ghost s: M.PoolState, location: M.Uri, m: M.Message) returns (ghost pick: nat)
      requires Linked() && Knows(c) && Serves(r) && c.request == r && m.callback.Follow?
      requires M.Active(s, c.id) && s.clients[c.id].request == Some(r.id)
      requires s.clients[c.id].pooled == (c.pool != null) && s.clients[c.id].netloc == c.netloc
      requires View() == M.SetRequest(s, r.id, M.Redirected(s.requests[r.id], location))
      requires r.View() == M.Redirected(s.requests[r.id], location)
      modifies this`rows, this`clients, this`nextClient, this`repr, this`nextTicket, this`started, this`broken, repr
      ensures Linked() && repr >= old(repr) && fresh(repr - old(repr))
      ensures View() == M.FollowOn(s, c.id, location, m.(pick := pick))
    {
      Pointers(c, r);
      FollowIs(s, c.id, r.id, location, m);
      assert View().clients == s.clients;
      hide View, RowOf, RowsKnown, RowKnown, AllPointing, AllPointingBack, Numbered, Held, Known, Served;
      hide M.Putback, M.PoolRequest, M.Uncaught, M.NetLocOf, M.StartOn, M.FollowOn, M.LetHop, M.Hop, M.Redirected, M.SetRequest, M.SetClient, PoolSteps.LetGo;
      PartWays(c, r, s.requests[r.id], location, m);
      var away := c.pool != null && M.ElsewhereThan(r.Destination(), c.netloc);
      pick := SendOn(c, r, away);
      if away { FollowAway(s, c.id, r.id, location, m, pick); }
    }

    // ---------------------------------------------------------------- analyze_request

    /** A redirect is refused. */
    method Refuse(c: Client, r: Request, ghost s: M.PoolState, ghost q: M.Request, error: M.Error)
      requires Linked() && Knows(c) && Serves(r) && c.request == r
      requires r.id in s.requests && View() == M.SetRequest(s, r.id, q)
      modifies this`rows, this`broken, this`started, repr
      ensures Linked()
      ensures var d := M.SetRequest(s, r.id, q);
        && c.id in d.clients && d.clients[c.id].request == Some(r.id)
        && View() == M.CancelOn(d, c.id, error)
    {
      Pointers(c, r);
      hide View, RowOf, RowsKnown, RowKnown, AllPointing, AllPointingBack, Numbered, Held, Known, Served;
      hide M.CancelOn, M.SetRequest;
      CancelClient(c, error);
    }

    /** analyze_request on a redirect with a Location header, once it has been counted. */
    method Redirect(c: Client, r: Request, ghost s: M.PoolState, m: M.Message) returns (ghost pick: nat)
      requires Linked() && Knows(c) && Serves(r) && c.request == r && m.location.Some?
      requires M.Active(s, c.id) && s.clients[c.id].request == Some(r.id)
      requires s.clients[c.id].pooled == (c.pool != null) && s.clients[c.id].netloc == c.netloc
      requires var n := s.requests[r.id].(counter := M.Increment(s.requests[r.id].counter));
        View() == M.SetRequest(s, r.id, n) && r.View() == n
      modifies this`rows, this`clients, this`nextClient, this`repr, this`nextTicket, this`started, this`broken, repr
      ensures Linked() && repr >= old(repr) && fresh(repr - old(repr))
      ensures match m.callback
        case CancelInside(e) =>
          var d := M.SetRequest(s, r.id, M.Redirected(s.requests[r.id], m.location.value));
          d.clients[c.id].request == Some(r.id) && View() == M.CancelOn(d, c.id, e)
        case Follow(_) => View() == M.FollowOn(s, c.id, m.location.value, m.(pick := pick))
    {
      hide View, RowOf, RowsKnown, RowKnown, AllPointing, AllPointingBack, Numbered, Held, Known, Served;
      hide M.CancelOn, M.SetRequest, M.SetClient, M.FollowOn, M.Resolve, M.Redirected, M.NetLocOf;
      pick := 0;
      Pointers(c, r);
      ghost var q := s.requests[r.id];
      RedirectedIs(s, r.id, q, m.location.value);
      RedirectWithin(r, m.location.value);
      if m.callback.CancelInside? {
        Refuse(c, r, s, M.Redirected(q, m.location.value), m.callback.error);
      } else {
        pick := Follow(c, r, s, m.location.value, m);
      }
    }

    /** analyze_request on a redirect. */
    method AnalyzeRedirect(c: Client, r: Request, m: M.Message) returns (ghost pick: nat)
      requires Linked() && Knows(c) && Serves(r) && c.request == r
      modifies this`rows, this`clients, this`nextClient, this`repr, this`nextTicket, this`started, this`broken, repr
      ensures Linked() && repr >= old(repr) && fresh(repr - old(repr))
      ensures var s := old(View());
        && M.Active(s, c.id) && s.clients[c.id].request == Some(r.id)
        && View() == M.RedirectOn(s, c.id, m.(pick := pick))
    {
      pick := 0;
      Pointers(c, r);
      hide View, RowOf, RowsKnown, RowKnown, AllPointing, AllPointingBack, Numbered, Held, Known, Served;
      hide M.CancelOn, M.SetRequest, M.RedirectOn, M.FollowOn, M.Redirected;
      ghost var s := View();
      ghost var q := r.View();
      if r.settings.redirectionLimit == 0 {
        CancelClient(c, M.UnexpectedRedirect);
      } else {
        CountWithin(r);
        if r.counter > r.settings.redirectionLimit {
          Refuse(c, r, s, q.(counter := M.Increment(q.counter)), M.RedirectionLimit);
        } else if m.location.None? {
          Refuse(c, r, s, q.(counter := M.Increment(q.counter)), M.NoRedirectUri);
        } else {
          pick := Redirect(c, r, s, m);
        }
      }
      RedirectIs(s, c.id, r.id, m, pick);
    }

    /** analyze_request. */
    method AnalyzeRequest(c: Client, r: Request, m: M.Message) returns (ghost pick: nat)
      requires Linked() && Knows(c) && Serves(r) && c.request == r
      modifies this`rows, this`clients, this`nextClient, this`repr, this`nextTicket, this`started, this`broken, repr
      ensures Linked() && repr >= old(repr) && fresh(repr - old(repr))
      ensures var s := old(View());
        && M.Active(s, c.id) && s.clients[c.id].request == Some(r.id)
        && View() == M.AnalyzeOn(s, c.id, m.(pick := pick))
    {
      pick := 0;
      Pointers(c, r);
      hide View, RowOf, RowsKnown, RowKnown, AllPointing, AllPointingBack, Numbered, Held, Known, Served;
      hide M.FinishOn, M.RedirectOn;
      if m.code == 100 {
        return;
      }
      if r.settings.followRedirect && M.IsRedirect(m.code) {
        pick := AnalyzeRedirect(c, r, m);
      } else {
        FinishRequest(c, r, None, m.keepAlive);
      }
    }

    // ---------------------------------------------------------------- cancellation and timers

    /** Pool::cancel_request: the queue is searched for the request. */
    method CancelWaiting(r: Request, error: M.Error)
      requires Linked() && Serves(r)
      modifies this`rows, this`broken, r
      ensures Linked() && r.id in old(View()).requests
      ensures View() == M.CancelQueued(old(View()), r.id, error)
    {
      RequestPointer(r);
      var k := r.Destination();
      RowsAt(rows, k);
      if k in rows {
        RowOfPool(k);
        hide View, RowsKnown, AllPointing, AllPointingBack, Numbered, Held;
        hide M.CancelQueued, M.SetRequest, M.SetRow, M.Notify, M.NetLocOf, M.Find;
        var list := rows[k];
        var i := 0;
        while i < |list.queue| && list.queue[i] != r
          invariant 0 <= i <= |list.queue|
          invariant r !in list.queue[..i]
        {
          i := i + 1;
        }
        FoundIs(list, clients, requests, r, i);
        CancelQueuedIs(View(), r.id, k, i, error);
        if i == |list.queue| {
          Break();
        } else {
          Settle(r, M.Failed(error));
          ReplaceRow(k, list.(queue := list.queue[..i] + list.queue[i + 1..]));
        }
      } else {
        hide RowOf, RowsOf, RowsKnown, ClientViews, RequestViews, AllPointing, AllPointingBack, Numbered, Held, M.NetLocOf;
        Break();
      }
    }

    /** Request::cancel. */
    method CancelRequest(r: Request, error: M.Error)
      requires Linked() && Serves(r)
      modifies this`rows, this`broken, this`started, repr
      ensures Linked() && r.id in old(View()).requests
      ensures View() == M.CancelRequest(old(View()), r.id, error)
    {
      RequestPointer(r);
      hide RowOf, RowsOf, RowsKnown, RowKnown, AllPointing, AllPointingBack, Numbered, Held;
      hide M.CancelOn, M.CancelQueued;
      if r.client != null {
        CancelClient(r.client, error);
      } else if r.pool != null {
        CancelWaiting(r, error);
      }
    }

    /** Request::send_final_chunk. */
    method SendFinalChunk(r: Request) returns (o: M.Outcome)
      requires Linked() && Serves(r)
      modifies r`transferCompleted
      ensures Linked() && r.id in old(View()).requests
      ensures (View(), o) == M.FinalChunk(old(View()), r.id)
    {
      RequestPointer(r);
      hide View, RowOf, RowsKnown, ClientViews, RequestViews, AllPointing, AllPointingBack, Numbered, Held, M.SetRequest;
      if r.transferCompleted || r.client == null {
        o := M.Threw;
      } else {
        CompleteTransfer(r);
        o := M.Ok;
      }
    }

    method CompleteTransfer(r: Request)
      requires Linked() && Serves(r)
      modifies r`transferCompleted
      ensures Linked() && r.id in old(View()).requests
      ensures var s := old(View()); View() == M.SetRequest(s, r.id, s.requests[r.id].(transferCompleted := true))
    {
      Snapshot();
      RequestPointer(r);
      ghost var s := View();
      hide RowOf, RowsOf, RowsKnown, ClientViews, RequestViews, AllPointing, AllPointingBack, Pointing, PointingBack;
      r.transferCompleted := true;
      RequestChanged(s, r);
    }

    /** Client::on_connect without an error. */
    method OnConnect(c: Client)
      requires Linked() && Knows(c)
      modifies c`connected, c`connecting
      ensures Linked() && c.id in old(View()).clients
      ensures var s := old(View()); View() == M.SetClient(s, c.id, s.clients[c.id].(connected := true, connecting := false))
    {
      Snapshot();
      ClientPointer(c);
      ghost var s := View();
      hide RowOf, RowsOf, RowsKnown, ClientViews, RequestViews, AllPointing, AllPointingBack, Pointing, PointingBack;
      c.connected, c.connecting := true, false;
      ClientChanged(s, c);
    }

    /** Client::on_read and Client::on_eof without a request: the connection is dropped. */
    method OnUnexpected(c: Client)
      requires Linked() && Knows(c)
      modifies c`connected, c`connecting, c`carried
      ensures Linked() && c.id in old(View()).clients
      ensures var s := old(View()); View() == M.SetClient(s, c.id, M.Drop(s.clients[c.id]))
    {
      Snapshot();
      ClientPointer(c);
      ghost var s := View();
      hide RowOf, RowsOf, RowsKnown, ClientViews, RequestViews, AllPointing, AllPointingBack, Pointing, PointingBack, M.Drop;
      c.DropConnection();
      ClientChanged(s, c);
    }

    /** The timer of a request stops running when it fires. */
    method StopTimer(r: Request)
      requires Linked() && Serves(r) && r.timer.Some?
      modifies r`timer
      ensures Linked() && r.id in old(View()).requests
      ensures r.timer == Some(old(r.timer).value.(active := false))
      ensures var s := old(View());
        var q := s.requests[r.id];
        q.timer == old(r.timer) && View() == M.SetRequest(s, r.id, q.(timer := Some(q.timer.value.(active := false))))
    {
      Snapshot();
      RequestPointer(r);
      ghost var s := View();
      hide RowOf, RowsOf, RowsKnown, ClientViews, RequestViews, AllPointing, AllPointingBack, Pointing, PointingBack;
      r.timer := Some(r.timer.value.(active := false));
      RequestChanged(s, r);
    }

    /** Request::on_timer, and Client::timed_out for an active request. */
    method OnTimer(r: Request)
      requires Linked() && Serves(r) && r.timer.Some?
      modifies this`rows, this`broken, this`started, repr
      ensures Linked() && r.id in old(View()).requests && old(View()).requests[r.id].timer.Some?
      ensures View() == M.Expire(old(View()), r.id)
    {
      RequestPointer(r);
      if r.client != null { ClientPointer(r.client); }
      hide View, RowOf, RowsKnown, RowKnown, AllPointing, AllPointingBack, Numbered, Held;
      hide M.CancelRequest, M.SetRequest;
      ghost var s := View();
      var error := if r.client != null && r.client.connecting then M.ConnectTimedOut else M.TimedOut;
      StopTimer(r);
      if r.timer.value.listening { CancelRequest(r, error); }
    }

    // ---------------------------------------------------------------- inactivity

    /** Pool::check_inactivity: free clients that have been idle for too long are dropped, and rows without
        clients. */
    method CheckInactivity()
      requires Linked()
      modifies this`rows
      ensures Linked() && View() == M.Sweep(old(View()))
    {
      var removeTime := (now - idleTimeout) % M.WORD;
      ghost var idle := set k, c | k in rows && c in rows[k].free && c.lastActivity < removeTime :: c;
      SweptIs(removeTime, idle);
      hide View, RowOf, RowsOf, AllPointing, AllPointingBack, Numbered, Held, RowsKnown, RowKnown, M.Sweep, SweptRows;
      SweepRows(removeTime, idle);
    }

    /** The loop of check_inactivity. */
    method SweepRows(removeTime: nat, ghost idle: set<Client>)
      requires Linked() && View().rows == RowsOf(rows) && SweptRows(rows, rows.Keys, idle) == rows
      requires forall k, c :: k in rows && c in rows[k].free ==> (c in idle <==> c.lastActivity < removeTime)
      modifies this`rows
      ensures Linked() && rows == SweptRows(old(rows), {}, idle)
      ensures View() == old(View()).(rows := RowsOf(rows))
    {
      hide View, RowOf, RowsOf, AllPointing, AllPointingBack, Numbered, Held, RowsKnown, RowKnown, SweptRows;
      ghost var before := rows;
      ghost var s := View();
      var keys := rows.Keys;
      while keys != {}
        invariant Linked() && keys <= before.Keys
        invariant rows == SweptRows(before, keys, idle)
        invariant View() == s.(rows := RowsOf(rows))
        decreases |keys|
      {
        var k :| k in keys;
        SweptOneMore(before, keys, k, idle);
        SweepOne(k, removeTime, idle);
        keys := keys - {k};
      }
    }

    lemma SweptOneMore(before: map<M.NetLoc, NetLocList>, keys: set<M.NetLoc>, k: M.NetLoc, idle: set<Client>)
      requires k in keys && k in before
      ensures var now := SweptRows(before, keys, idle);
        var l := before[k];
        && k in now && now[k] == l
        && SweptRows(before, keys - {k}, idle)
             == if l.free - idle == {} && l.busy == {} then now - {k} else now[k := l.(free := l.free - idle)]
    {
    }

    /** One round of the loop of check_inactivity. */
    method SweepOne(k: M.NetLoc, removeTime: nat, ghost idle: set<Client>)
      requires Linked() && k in rows
      requires forall c :: c in rows[k].free ==> (c in idle <==> c.lastActivity < removeTime)
      modifies this`rows
      ensures Linked() && View() == old(View()).(rows := RowsOf(rows))
      ensures var l := old(rows)[k];
        rows == if l.free - idle == {} && l.busy == {} then old(rows) - {k} else old(rows)[k := l.(free := l.free - idle)]
    {
      RowsUpdate(rows, k, rows[k].(free := rows[k].free - idle));
      hide RowOf, RowsOf, AllPointing, AllPointingBack, Numbered, Held, RowsKnown, RowKnown, ClientViews, RequestViews;
      var list := rows[k];
      var kept := RemoveInactive(list.free, removeTime);
      assert kept == list.free - idle;
      if kept == {} && list.busy == {} {
        RemoveRow(k);
      } else {
        RowKnownIs(rows, clients, requests, k, kept);
        ReplaceRow(k, list.(free := kept));
      }
    }

    /** A row goes. */
    method RemoveRow(k: M.NetLoc)
      requires Linked()
      modifies this`rows
      ensures Linked() && rows == old(rows) - {k} && View() == old(View()).(rows := RowsOf(rows))
    {
      RowGone(rows, clients, requests, k);
      hide RowOf, RowsOf, RowsKnown, RowKnown, ClientViews, RequestViews, AllPointing, AllPointingBack, Numbered, Held;
      rows := rows - {k};
    }

    /** The loop above leaves what a sweep of the view leaves. */
    lemma SweptIs(removeTime: nat, idle: set<Client>)
      requires Linked() && removeTime == (now - idleTimeout) % M.WORD
      requires forall k, c :: k in rows && c in rows[k].free ==> (c in idle <==> c.lastActivity < removeTime)
      ensures SweptRows(rows, rows.Keys, idle) == rows
      ensures View().rows == RowsOf(rows)
      ensures View().(rows := RowsOf(SweptRows(rows, {}, idle))) == M.Sweep(View())
    {
      SweptRowsAre(removeTime, idle);
      hide RowOf, RowsOf, AllPointing, AllPointingBack, M.SweepRow, ClientViews, RequestViews, SweptRows;
      assert SweptRows(rows, rows.Keys, idle) == rows by { NothingSwept(rows, idle); }
    }

    lemma SweptRowsAre(removeTime: nat, idle: set<Client>)
      requires Linked() && removeTime == (now - idleTimeout) % M.WORD
      requires forall k, c :: k in rows && c in rows[k].free ==> (c in idle <==> c.lastActivity < removeTime)
      ensures RowsOf(SweptRows(rows, {}, idle)) == M.Sweep(View()).rows
    {
      hide RowOf, AllPointing, AllPointingBack, M.SweepRow, ClientViews, RequestViews, RowsKnown, Numbered, Held;
      var s := View();
      forall k | k in rows
        ensures (rows[k].free - idle == {} <==> M.SweepRow(s, s.rows[k]).free == {})
        ensures (rows[k].busy == {} <==> s.rows[k].busy == {})
        ensures RowOf(rows[k].(free := rows[k].free - idle)) == M.SweepRow(s, s.rows[k])
      {
        RowOfPool(k);
        SweptRowIs(k, removeTime, idle);
      }
    }

    lemma SweptRowIs(k: M.NetLoc, removeTime: nat, idle: set<Client>)
      requires Linked() && removeTime == (now - idleTimeout) % M.WORD && k in rows
      requires forall c :: c in rows[k].free ==> (c in idle <==> c.lastActivity < removeTime)
      requires k in View().rows && View().rows[k] == RowOf(rows[k])
      ensures var s := View();
        var kept := rows[k].free - idle;
        && (kept == {} <==> M.SweepRow(s, s.rows[k]).free == {})
        && (rows[k].busy == {} <==> s.rows[k].busy == {})
        && RowOf(rows[k].(free := kept)) == M.SweepRow(s, s.rows[k])
    {
      RowOfPool(k);
      var s := View();
      var l := rows[k];
      var kept := l.free - idle;
      forall c | c in l.free ensures c.id in s.clients && M.Inactive(s, c.id) == (c in idle) {
        ClientPointer(c);
      }
      hide View;
      assert Ids(kept) == M.SweepRow(s, s.rows[k]).free by {
        forall i | i in M.SweepRow(s, s.rows[k]).free ensures i in Ids(kept) {
          var c :| c in l.free && c.id == i;
          assert c in kept;
        }
      }
      if kept != {} { var c :| c in kept; assert c.id in Ids(kept); }
      if l.busy != {} { var c :| c in l.busy; assert c.id in Ids(l.busy); }
    }

    // ---------------------------------------------------------------- destruction

    /** The busy clients of a row lose the pool. */
    method DetachRow(k: M.NetLoc)
      requires Linked() && k in rows
      modifies rows[k].busy`pool
      ensures Linked() && k in old(View()).rows
      ensures View() == WithoutBusy(old(View()), old(View()).rows[k])
    {
      Snapshot();
      RowOfPool(k);
      RowIn(k);
      ghost var s := View();
      var list := rows[k];
      RowIdsIn(list, clients, requests);
      hide RowOf, RowsOf, RowsKnown, RowKnown, ClientViews, RequestViews, AllPointing, AllPointingBack, PointingBack;
      DetachClients(list.busy);
      forall i | i in clients
        ensures clients[i].View() == if i in s.rows[k].busy then s.clients[i].(pooled := false) else s.clients[i]
        ensures Pointing(clients[i], this, requests)
      {
      }
      RowDetached(s, k);
    }

    /** The waiting requests of a row are settled. */
    method CancelRow(k: M.NetLoc)
      requires Linked() && k in rows
      requires Distinct(rows[k].queue)
      modifies rows[k].queue
      ensures Linked() && k in old(View()).rows
      ensures View() == WithoutQueue(old(View()), old(View()).rows[k])
    {
      Snapshot();
      RowOfPool(k);
      RowIn(k);
      ghost var s := View();
      var list := rows[k];
      RowIdsIn(list, clients, requests);
      hide RowOf, RowsOf, RowsKnown, RowKnown, ClientViews, RequestViews, AllPointing, AllPointingBack, Pointing, M.Notify;
      hide Known, Served;
      CancelRequests(list.queue);
      RowCancelled(s, k);
    }

    /** The part of ~Pool for one row. */
    method DestroyRow(k: M.NetLoc)
      requires Linked() && k in rows
      requires Distinct(rows[k].queue)
      modifies repr
      ensures Linked() && k in old(View()).rows
      ensures View() == WithoutRow(old(View()), old(View()).rows[k])
    {
      RowIn(k);
      hide View, RowOf, RowsOf, RowsKnown, RowKnown, AllPointing, AllPointingBack, Numbered, Held, WithoutBusy, WithoutQueue;
      RowsOnly(View(), k);
      DetachRow(k);
      CancelRow(k);
    }

    lemma RowsOnly(s: M.PoolState, k: M.NetLoc)
      ensures k in s.rows ==> WithoutBusy(s, s.rows[k]).rows == s.rows
    {
    }

    lemma RowIn(k: M.NetLoc)
      requires Linked() && k in rows
      ensures forall c :: c in rows[k].busy ==> c in repr
      ensures forall r :: r in rows[k].queue ==> r in repr
    {
      RowOfPool(k);
      hide RowOf;
      forall c | c in rows[k].busy ensures c in repr { assert Known(clients, c); }
      forall r | r in rows[k].queue ensures r in repr { assert Served(requests, r); }
    }

    lemma RowDetached(s: M.PoolState, k: M.NetLoc)
      requires Owns() && Numbered(clients, requests, nextClient) && RowsKnown(rows, clients, requests) && k in rows
      requires k in s.rows && s == View().(clients := s.clients, requests := s.requests)
      requires s.clients.Keys == clients.Keys && s.requests.Keys == requests.Keys
      requires forall i :: i in clients ==>
        clients[i].View() == if i in s.rows[k].busy then s.clients[i].(pooled := false) else s.clients[i]
      requires forall i :: i in requests ==> requests[i].View() == s.requests[i]
      requires forall i :: i in clients ==> Pointing(clients[i], this, requests)
      requires forall i :: i in requests ==> PointingBack(requests[i], this, clients)
      ensures Linked() && View() == WithoutBusy(s, s.rows[k])
    {
      hide RowKnown, RowsKnown, RowOf, RowsOf, Numbered, Pointing, PointingBack;
      assert View().clients == WithoutBusy(s, s.rows[k]).clients && View().requests == s.requests;
    }

    lemma RowCancelled(s: M.PoolState, k: M.NetLoc)
      requires Owns() && Numbered(clients, requests, nextClient) && RowsKnown(rows, clients, requests) && k in rows
      requires k in s.rows && s == View().(clients := s.clients, requests := s.requests)
      requires s.clients.Keys == clients.Keys && s.requests.Keys == requests.Keys
      requires forall i :: i in clients ==> clients[i].View() == s.clients[i]
      requires forall i :: i in requests ==>
        requests[i].View() ==
          if i in s.rows[k].queue then M.Notify(s.requests[i], M.Failed(M.OperationCanceled)) else s.requests[i]
      requires forall i :: i in clients ==> Pointing(clients[i], this, requests)
      requires forall i :: i in requests ==> PointingBack(requests[i], this, clients)
      ensures Linked() && View() == WithoutQueue(s, s.rows[k])
    {
      hide RowKnown, RowsKnown, RowOf, RowsOf, Numbered, Pointing, PointingBack, M.Notify;
      assert View().requests == WithoutQueue(s, s.rows[k]).requests && View().clients == s.clients;
    }

    /** Pool::~Pool: active clients go on alone, waiting requests are cancelled. */
    method DestroyPool()
      requires Linked() && PoolInvariant.Inv(View())
      modifies this`alive, this`rows, repr
      ensures Linked() && View() == M.Destroy(old(View()))
    {
      ghost var s := View();
      QueuesApart(s);
      NoDuplicates();
      SnapshotRows();
      hide View, RowOf, RowsOf, RowsKnown, RowKnown, AllPointing, AllPointingBack, Numbered, Held, PoolInvariant.Inv, WithoutRows, WithoutRow;
      DestroyRows();
      AllRowsGone(s);
      Abandon();
    }

    /** The loop of ~Pool. */
    method DestroyRows()
      requires Linked() && WaitsOnce(View()) && View().rows.Keys == rows.Keys
      requires forall k :: k in rows ==> Distinct(rows[k].queue)
      modifies repr
      ensures Linked() && View() == WithoutRows(old(View()), old(View()).rows.Keys)
    {
      ghost var s := View();
      NoRowsGone(s);
      hide View, RowOf, RowsOf, RowsKnown, RowKnown, AllPointing, AllPointingBack, Numbered, Held, WithoutRows, WithoutRow, WaitsOnce;
      var keys := rows.Keys;
      while keys != {}
        invariant Linked() && keys <= rows.Keys
        invariant View() == WithoutRows(s, s.rows.Keys - keys)
        decreases |keys|
      {
        var k :| k in keys;
        DestroyRow(k);
        OneRowMore(s, s.rows.Keys - keys, k);
        assert s.rows.Keys - keys + {k} == s.rows.Keys - (keys - {k});
        keys := keys - {k};
      }
      assert s.rows.Keys - {} == s.rows.Keys;
    }

    /** The rows go, and the pool with them. */
    method Abandon()
      requires Linked()
      modifies this`alive, this`rows
      ensures Linked() && View() == old(View()).(alive := false, rows := map[])
    {
      hide ClientViews, RequestViews, AllPointing, AllPointingBack, Numbered, Held;
      alive := false;
      rows := map[];
    }

    /** Pool::size: the number of clients in the rows; each is in one row, free or busy. */
    method Size() returns (n: nat)
      requires Linked() && PoolInvariant.Inv(View())
      ensures n == |Everyone(View().rows, View().rows.Keys)|
    {
      RowsApart(View());
      SnapshotRows();
      hide View, PoolInvariant.Inv, Apart;
      n := SumSizes(rows, View().rows);
    }

    /** Pool::nbusy: the number of the pool's clients that have a request. */
    method Busy() returns (n: nat)
      requires Linked() && PoolInvariant.Inv(View())
      ensures n == |WithRequest(View())|
    {
      RowsApart(View());
      SnapshotRows();
      BusyHaveRequests(View());
      hide View, PoolInvariant.Inv, Apart, WithRequest;
      n := SumBusy(rows, View().rows);
    }

    lemma NoDuplicates()
      requires Linked() && PoolInvariant.Inv(View())
      ensures forall k :: k in rows ==> Distinct(rows[k].queue)
    {
      forall k | k in rows ensures Distinct(rows[k].queue) {
        RowOfPool(k);
        QueueOnce(View(), k);
        hide PoolInvariant.Inv, View;
        forall i, j | 0 <= i < j < |rows[k].queue| ensures rows[k].queue[i] != rows[k].queue[j] {
          assert RowOf(rows[k]).queue[i] != RowOf(rows[k]).queue[j];
        }
      }
    }

    lemma SnapshotRows()
      requires Linked()
      ensures View().rows.Keys == rows.Keys
      ensures forall k :: k in rows ==> |View().rows[k].free| == |rows[k].free| && |View().rows[k].busy| == |rows[k].busy|
    {
      forall k | k in rows
        ensures k in View().rows && |View().rows[k].free| == |rows[k].free| && |View().rows[k].busy| == |rows[k].busy|
      {
        RowOfPool(k);
        RowSizesAll(rows[k], clients, requests);
      }
    }
  }

  /** The clients of a row, and of some rows. */
  function Members(row: M.Row): set<nat> { row.free + row.busy }

  ghost function Everyone(rows: map<M.NetLoc, M.Row>, keys: set<M.NetLoc>): set<nat> {
    set i, k | k in keys && k in rows && i in Members(rows[k]) :: i
  }

  ghost function BusyIn(rows: map<M.NetLoc, M.Row>, keys: set<M.NetLoc>): set<nat> {
    set i, k | k in keys && k in rows && i in rows[k].busy :: i
  }

  ghost predicate Apart(rows: map<M.NetLoc, M.Row>) {
    && (forall k :: k in rows ==> rows[k].free !! rows[k].busy)
    && (forall k, j :: k in rows && j in rows && k != j ==> Members(rows[k]) !! Members(rows[j]))
  }

  ghost predicate Distinct(queue: seq<Request>) {
    forall i, j :: 0 <= i < j < |queue| ==> queue[i] != queue[j]
  }

  /** The state after ~Pool has dealt with the clients, or the requests, of one row. */
  ghost function WithoutBusy(s: M.PoolState, row: M.Row): M.PoolState {
    s.(clients := map i | i in s.clients :: if i in row.busy then s.clients[i].(pooled := false) else s.clients[i])
  }

  ghost function WithoutQueue(s: M.PoolState, row: M.Row): M.PoolState {
    s.(requests := map i | i in s.requests ::
         if i in row.queue then M.Notify(s.requests[i], M.Failed(M.OperationCanceled)) else s.requests[i])
  }

  ghost function WithoutRow(s: M.PoolState, row: M.Row): M.PoolState { WithoutQueue(WithoutBusy(s, row), row) }

  ghost predicate BusyAmong(s: M.PoolState, keys: set<M.NetLoc>, i: nat) {
    exists k :: k in keys && k in s.rows && i in s.rows[k].busy
  }

  ghost predicate QueuedAmong(s: M.PoolState, keys: set<M.NetLoc>, i: nat) {
    exists k :: k in keys && k in s.rows && i in s.rows[k].queue
  }

  /** The state after ~Pool has dealt with some rows. */
  ghost function WithoutRows(s: M.PoolState, keys: set<M.NetLoc>): M.PoolState {
    s.(clients := map i | i in s.clients :: if BusyAmong(s, keys, i) then s.clients[i].(pooled := false) else s.clients[i],
       requests := map i | i in s.requests ::
         if QueuedAmong(s, keys, i) then M.Notify(s.requests[i], M.Failed(M.OperationCanceled)) else s.requests[i])
  }

  ghost predicate WaitsOnce(s: M.PoolState) {
    forall k, j, i :: k in s.rows && j in s.rows && i in s.rows[k].queue && i in s.rows[j].queue ==> k == j
  }

  lemma QueuesApart(s: M.PoolState)
    requires PoolInvariant.Inv(s)
    ensures WaitsOnce(s)
  {
    forall k, j, i | k in s.rows && j in s.rows && i in s.rows[k].queue && i in s.rows[j].queue ensures k == j {
      InQueueAt(s, k, i);
      InQueueAt(s, j, i);
    }
  }

  lemma InQueueAt(s: M.PoolState, k: M.NetLoc, i: nat)
    requires PoolInvariant.Inv(s) && k in s.rows && i in s.rows[k].queue
    ensures i in s.requests && k == M.NetLocOf(s.requests[i])
  {
    hide PoolInvariant.Inv, M.NetLocOf;
    var n :| 0 <= n < |s.rows[k].queue| && s.rows[k].queue[n] == i;
    PoolPromises.WaitingPlace(s, i, k, n);
  }

  lemma QueueOnce(s: M.PoolState, k: M.NetLoc)
    requires PoolInvariant.Inv(s) && k in s.rows
    ensures PoolInvariant.NoTwice(s.rows[k].queue)
  {
    hide PoolInvariant.Inv;
    forall i, j | 0 <= i < j < |s.rows[k].queue| ensures s.rows[k].queue[i] != s.rows[k].queue[j] {
      if s.rows[k].queue[i] == s.rows[k].queue[j] {
        PoolPromises.WaitsOnce(s, s.rows[k].queue[i], k, i, j);
      }
    }
  }

  lemma NoRowsGone(s: M.PoolState)
    ensures WithoutRows(s, s.rows.Keys - s.rows.Keys) == s
  {
    var d := WithoutRows(s, s.rows.Keys - s.rows.Keys);
    assert d.clients == s.clients && d.requests == s.requests;
  }

  lemma AllRowsGone(s: M.PoolState)
    ensures M.Destroy(s) == WithoutRows(s, s.rows.Keys).(alive := false, rows := map[])
  {
    hide M.Notify;
    forall i ensures M.InBusy(s, i) == BusyAmong(s, s.rows.Keys, i) {
      if M.InBusy(s, i) { var k :| k in s.rows && i in s.rows[k].busy; assert k in s.rows.Keys; }
    }
    forall i ensures M.InQueue(s, i) == QueuedAmong(s, s.rows.Keys, i) {
      if M.InQueue(s, i) { var k :| k in s.rows && i in s.rows[k].queue; assert k in s.rows.Keys; }
    }
    assert M.Destroy(s).clients == WithoutRows(s, s.rows.Keys).clients;
    assert M.Destroy(s).requests == WithoutRows(s, s.rows.Keys).requests;
  }

  lemma OneRowMore(s: M.PoolState, keys: set<M.NetLoc>, k: M.NetLoc)
    requires WaitsOnce(s) && k in s.rows && k !in keys
    ensures WithoutRows(s, keys).rows == s.rows
    ensures WithoutRow(WithoutRows(s, keys), s.rows[k]) == WithoutRows(s, keys + {k})
  {
    hide M.Notify;
    var t := WithoutRows(s, keys);
    forall i ensures BusyAmong(s, keys + {k}, i) == (BusyAmong(s, keys, i) || i in s.rows[k].busy) {
      if i in s.rows[k].busy { assert k in keys + {k}; }
      if BusyAmong(s, keys, i) { var j :| j in keys && j in s.rows && i in s.rows[j].busy; assert j in keys + {k}; }
    }
    forall i ensures QueuedAmong(s, keys + {k}, i) == (QueuedAmong(s, keys, i) || i in s.rows[k].queue) {
      if i in s.rows[k].queue { assert k in keys + {k}; }
      if QueuedAmong(s, keys, i) { var j :| j in keys && j in s.rows && i in s.rows[j].queue; assert j in keys + {k}; }
    }
    hide BusyAmong;
    forall i | i in s.rows[k].queue ensures !QueuedAmong(s, keys, i) {
    }
    hide QueuedAmong;
    assert WithoutRow(t, s.rows[k]).clients == WithoutRows(s, keys + {k}).clients;
    assert WithoutRow(t, s.rows[k]).requests == WithoutRows(s, keys + {k}).requests;
  }

  lemma RowIdsIn(l: NetLocList, clients: map<nat, Client>, requests: map<nat, Request>)
    requires RowKnown(l, clients, requests) && forall i :: i in clients ==> clients[i].id == i
    requires forall i :: i in requests ==> requests[i].id == i
    ensures forall i :: i in clients ==> (i in RowOf(l).busy <==> clients[i] in l.busy)
    ensures forall i :: i in requests ==> (i in RowOf(l).queue <==> requests[i] in l.queue)
  {
    forall i | i in clients ensures i in RowOf(l).busy <==> clients[i] in l.busy {
      IdsIn(l.busy, clients[i]);
    }
    forall i | i in requests ensures i in RowOf(l).queue <==> requests[i] in l.queue {
      if requests[i] in l.queue {
        var n :| 0 <= n < |l.queue| && l.queue[n] == requests[i];
        assert RowOf(l).queue[n] == i;
      }
      if i in RowOf(l).queue {
        var n :| 0 <= n < |l.queue| && RowOf(l).queue[n] == i;
        assert l.queue[n] in l.queue;
      }
    }
  }

  /** The loop of ~Pool over the busy clients of a row. */
  method DetachClients(busy: set<Client>)
    modifies busy`pool
    ensures forall c :: c in busy ==> c.pool == null && c.View() == old(c.View()).(pooled := false)
  {
    var todo := busy;
    while todo != {}
      invariant todo <= busy
      invariant forall c :: c in busy && c !in todo ==> c.pool == null
      decreases |todo|
    {
      var c :| c in todo;
      c.pool := null;
      todo := todo - {c};
    }
  }

  /** The loop of ~Pool over the waiting requests of a row. */
  method CancelRequests(queue: seq<Request>)
    requires Distinct(queue)
    modifies queue
    ensures forall r :: r in queue ==> r.client == null && r.pool == null
    ensures forall r :: r in queue ==> r.View() == M.Notify(old(r.View()), M.Failed(M.OperationCanceled))
  {
    hide M.Notify;
    for n := 0 to |queue|
      invariant forall i :: 0 <= i < n ==> queue[i].client == null && queue[i].pool == null
      invariant forall i :: 0 <= i < n ==> queue[i].View() == M.Notify(old(queue[i].View()), M.Failed(M.OperationCanceled))
      invariant forall i :: n <= i < |queue| ==> unchanged(queue[i])
    {
      queue[n].FinishAndNotify(M.Failed(M.OperationCanceled));
    }
  }

  /** The loop of Pool::size: the sum over the rows is the number of clients in them. */
  method SumSizes(rows: map<M.NetLoc, NetLocList>, ghost m: map<M.NetLoc, M.Row>) returns (n: nat)
    requires m.Keys == rows.Keys && Apart(m)
    requires forall k :: k in rows ==> |m[k].free| == |rows[k].free| && |m[k].busy| == |rows[k].busy|
    ensures n == |Everyone(m, m.Keys)|
  {
    hide Members, Everyone, Apart;
    n := 0;
    Nobody(m);
    var keys := rows.Keys;
    while keys != {}
      invariant keys <= rows.Keys && n == |Everyone(m, m.Keys - keys)|
      decreases |keys|
    {
      var k :| k in keys;
      OneMore(m, m.Keys - keys, k);
      assert m.Keys - keys + {k} == m.Keys - (keys - {k});
      n := n + |rows[k].free| + |rows[k].busy|;
      keys := keys - {k};
    }
    assert m.Keys - {} == m.Keys;
  }

  /** The loop of Pool::nbusy. */
  method SumBusy(rows: map<M.NetLoc, NetLocList>, ghost m: map<M.NetLoc, M.Row>) returns (n: nat)
    requires m.Keys == rows.Keys && Apart(m)
    requires forall k :: k in rows ==> |m[k].busy| == |rows[k].busy|
    ensures n == |BusyIn(m, m.Keys)|
  {
    hide BusyIn, Apart;
    n := 0;
    NobodyBusy(m);
    var keys := rows.Keys;
    while keys != {}
      invariant keys <= rows.Keys && n == |BusyIn(m, m.Keys - keys)|
      decreases |keys|
    {
      var k :| k in keys;
      OneMoreBusy(m, m.Keys - keys, k);
      assert m.Keys - keys + {k} == m.Keys - (keys - {k});
      n := n + |rows[k].busy|;
      keys := keys - {k};
    }
    assert m.Keys - {} == m.Keys;
  }

  lemma Nobody(rows: map<M.NetLoc, M.Row>)
    ensures Everyone(rows, rows.Keys - rows.Keys) == {}
  {
  }

  lemma NobodyBusy(rows: map<M.NetLoc, M.Row>)
    ensures BusyIn(rows, rows.Keys - rows.Keys) == {}
  {
  }

  lemma OneMore(rows: map<M.NetLoc, M.Row>, keys: set<M.NetLoc>, k: M.NetLoc)
    requires Apart(rows) && k in rows && k !in keys
    ensures |Everyone(rows, keys + {k})| == |Everyone(rows, keys)| + |rows[k].free| + |rows[k].busy|
  {
    var before := Everyone(rows, keys);
    assert Everyone(rows, keys + {k}) == before + Members(rows[k]);
    assert before !! Members(rows[k]);
    assert |Members(rows[k])| == |rows[k].free| + |rows[k].busy|;
  }

  lemma BusyApart(rows: map<M.NetLoc, M.Row>, keys: set<M.NetLoc>, k: M.NetLoc)
    requires Apart(rows) && k in rows && k !in keys
    ensures BusyIn(rows, keys) !! rows[k].busy
  {
    forall j | j in keys && j in rows ensures rows[k].busy !! rows[j].busy {
      assert Members(rows[k]) !! Members(rows[j]);
    }
  }

  lemma OneMoreBusy(rows: map<M.NetLoc, M.Row>, keys: set<M.NetLoc>, k: M.NetLoc)
    requires Apart(rows) && k in rows && k !in keys
    ensures |BusyIn(rows, keys + {k})| == |BusyIn(rows, keys)| + |rows[k].busy|
  {
    BusyApart(rows, keys, k);
    assert BusyIn(rows, keys + {k}) == BusyIn(rows, keys) + rows[k].busy;
  }

  /** A client is in one row only, and there either free or busy. */
  lemma RowsApart(s: M.PoolState)
    requires PoolInvariant.Inv(s)
    ensures Apart(s.rows)
  {
    hide PoolInvariant.Inv, Members;
    forall k | k in s.rows
      ensures s.rows[k].free !! s.rows[k].busy
      ensures forall i :: i in Members(s.rows[k]) ==> i in s.clients && s.clients[i].netloc == k
    {
      PoolPromises.RowIsPromised(s, k);
      MembersAt(s, k);
    }
  }

  ghost function WithRequest(s: M.PoolState): set<nat> {
    set i | i in s.clients && s.clients[i].pooled && s.clients[i].request.Some?
  }

  /** A client of the pool is busy exactly when it has a request. */
  lemma BusyHaveRequests(s: M.PoolState)
    requires PoolInvariant.Inv(s)
    ensures BusyIn(s.rows, s.rows.Keys) == WithRequest(s)
  {
    hide PoolInvariant.Inv;
    forall i | i in BusyIn(s.rows, s.rows.Keys) ensures i in WithRequest(s) {
      var k :| k in s.rows && i in s.rows[k].busy;
      BusyHasRequest(s, k, i);
    }
    forall i | i in WithRequest(s) ensures i in BusyIn(s.rows, s.rows.Keys) {
      PoolPromises.BusyAt(s, i);
    }
  }

  lemma BusyHasRequest(s: M.PoolState, k: M.NetLoc, i: nat)
    requires PoolInvariant.Inv(s) && k in s.rows && i in s.rows[k].busy
    ensures i in WithRequest(s)
  {
    PoolSteps.RowParts(s, k, map[], {});
    hide PoolInvariant.RowsOk, PoolInvariant.RequestsOk, PoolInvariant.OrderOk;
    assert PoolInvariant.BusyOk(s, k, i, map[]);
  }

  lemma MembersAt(s: M.PoolState, k: M.NetLoc)
    requires k in s.rows && PoolPromises.RowPromise(s, k, s.rows[k])
    ensures s.rows[k].free !! s.rows[k].busy
    ensures forall i :: i in Members(s.rows[k]) ==> i in s.clients && s.clients[i].netloc == k
  {
  }

  lemma RowSizesAll(l: NetLocList, clients: map<nat, Client>, requests: map<nat, Request>)
    requires RowKnown(l, clients, requests)
    ensures |RowOf(l).busy| == |l.busy| && |RowOf(l).free| == |l.free|
  {
    IdsSize(l.busy);
    IdsSize(l.free);
  }

  // ---------------------------------------------------------------- a sweep on objects

  /** The rows when those not in `keys` have lost the clients in `idle`. */
  ghost function SweptRows(rows: map<M.NetLoc, NetLocList>, keys: set<M.NetLoc>, idle: set<Client>): map<M.NetLoc, NetLocList> {
    map k | k in rows && (k in keys || rows[k].free - idle != {} || rows[k].busy != {}) ::
      if k in keys then rows[k] else rows[k].(free := rows[k].free - idle)
  }

  lemma NothingSwept(rows: map<M.NetLoc, NetLocList>, idle: set<Client>)
    ensures SweptRows(rows, rows.Keys, idle) == rows
  {
  }

  /** The inner loop of check_inactivity. */
  method RemoveInactive(free: set<Client>, removeTime: nat) returns (kept: set<Client>)
    ensures kept == set c | c in free && !(c.lastActivity < removeTime)
  {
    kept := free;
    var todo := free;
    while todo != {}
      invariant todo <= free
      invariant kept == set c | c in free && (c in todo || !(c.lastActivity < removeTime))
      decreases |todo|
    {
      var c :| c in todo;
      todo := todo - {c};
      if c.lastActivity < removeTime { kept := kept - {c}; }
    }
  }

  lemma RowKnownIs(rows: map<M.NetLoc, NetLocList>, clients: map<nat, Client>, requests: map<nat, Request>,
                   k: M.NetLoc, kept: set<Client>)
    requires k in rows && RowsKnown(rows, clients, requests) && kept <= rows[k].free
    ensures RowKnown(rows[k].(free := kept), clients, requests)
  {
    assert RowKnown(rows[k], clients, requests);
  }

  lemma RowGone(rows: map<M.NetLoc, NetLocList>, clients: map<nat, Client>, requests: map<nat, Request>, k: M.NetLoc)
    requires RowsKnown(rows, clients, requests)
    ensures RowsKnown(rows - {k}, clients, requests)
  {
    hide RowKnown;
  }

  /** Where the search for a request in a queue ends. */
  lemma FoundIs(l: NetLocList, clients: map<nat, Client>, requests: map<nat, Request>, r: Request, i: nat)
    requires RowKnown(l, clients, requests) && Served(requests, r)
    requires i <= |l.queue| && r !in l.queue[..i] && (i < |l.queue| ==> l.queue[i] == r)
    ensures M.Find(RowOf(l).queue, r.id) == i && |RowOf(l).queue| == |l.queue|
    ensures i < |l.queue| ==>
      var left := l.(queue := l.queue[..i] + l.queue[i + 1..]);
      RowKnown(left, clients, requests)
      && RowOf(left) == RowOf(l).(queue := RowOf(l).queue[..i] + RowOf(l).queue[i + 1..])
  {
    var n := Numbers(l.queue);
    forall j | 0 <= j < i ensures n[j] != r.id {
      assert l.queue[j] in l.queue && l.queue[j] == l.queue[..i][j];
    }
    if i < |l.queue| {
      assert Numbers(l.queue[..i] + l.queue[i + 1..]) == n[..i] + n[i + 1..];
    }
  }

  lemma {:induction false} CancelQueuedIs(s: M.PoolState, r: nat, k: M.NetLoc, i: nat, error: M.Error)
    requires r in s.requests && k == M.NetLocOf(s.requests[r]) && k in s.rows && i == M.Find(s.rows[k].queue, r)
    ensures i == |s.rows[k].queue| ==> M.CancelQueued(s, r, error) == s.(broken := true)
    ensures i < |s.rows[k].queue| ==>
      M.CancelQueued(s, r, error) ==
        M.SetRow(M.SetRequest(s, r, M.Notify(s.requests[r], M.Failed(error))), k,
                 s.rows[k].(queue := s.rows[k].queue[..i] + s.rows[k].queue[i + 1..]))
  {
    hide M.NetLocOf, M.Notify, M.Find;
  }

  /** A new client leaves everything known. */
  lemma StillKnown(before: map<nat, Client>, clients: map<nat, Client>, requests: map<nat, Request>,
                   rows: map<M.NetLoc, NetLocList>, c: Client)
    requires clients == before[c.id := c] && c.id !in before && RowsKnown(rows, before, requests)
    ensures RowsKnown(rows, clients, requests)
    ensures forall x :: Known(before, x) ==> Known(clients, x)
  {
    forall k | k in rows ensures RowKnown(rows[k], clients, requests) {
      assert RowKnown(rows[k], before, requests);
    }
  }

  lemma SoleRow(c: Client, clients: map<nat, Client>, requests: map<nat, Request>)
    requires Known(clients, c)
    ensures var l := NetLocList({}, {c}, []); RowKnown(l, clients, requests) && RowOf(l) == M.Row({}, {c.id}, [])
  {
    assert Ids({}) == {} && Ids({c}) == {c.id} && Numbers([]) == [];
  }

  lemma RowSizes(l: NetLocList, clients: map<nat, Client>, requests: map<nat, Request>)
    requires RowKnown(l, clients, requests)
    ensures |RowOf(l).busy| == |l.busy| && (RowOf(l).free == {} <==> l.free == {})
  {
    IdsSize(l.busy);
    if l.free != {} {
      var c :| c in l.free;
      assert c.id in Ids(l.free);
    }
  }

  lemma PickedIs(l: NetLocList, clients: map<nat, Client>, requests: map<nat, Request>, c: Client)
    requires RowKnown(l, clients, requests) && c in l.free
    ensures var taken := NetLocList(l.free - {c}, l.busy + {c}, l.queue);
      && Known(clients, c) && c.id in RowOf(l).free && RowKnown(taken, clients, requests)
      && RowOf(taken) == RowOf(l).(free := RowOf(l).free - {c.id}, busy := RowOf(l).busy + {c.id})
  {
    IdsIn(l.free, c);
    IdsRemove(l.free, c);
    IdsAdd(l.busy, c);
  }

  lemma MoreIs(l: NetLocList, clients: map<nat, Client>, requests: map<nat, Request>, c: Client)
    requires Known(clients, c) && RowKnown(l, clients, requests)
    ensures var more := l.(busy := l.busy + {c});
      RowKnown(more, clients, requests) && RowOf(more) == RowOf(l).(busy := RowOf(l).busy + {c.id})
  {
    IdsAdd(l.busy, c);
  }

  lemma AskIs(s: M.PoolState, r: nat, k: M.NetLoc, pick: nat)
    requires r in s.requests && s.requests[r].uri.host != "" && k == M.NetLocOf(s.requests[r])
    ensures var t := PoolRequests.Ticketed(s, r);
      && M.Pickable(t, k, pick) == M.Pickable(s, k, pick)
      && (M.Pickable(s, k, pick) ==>
            match M.Choose(t, k, pick)
            case None => M.PoolRequest(s, r, pick) == (M.Enqueue(t, k, r), M.Ok)
            case Some(c) => M.PoolRequest(s, r, pick) == M.Launch(M.Take(t, k, pick), k, c, r))
  {
    hide M.NetLocOf, M.Launch, M.Take, M.Enqueue;
    PoolRequests.TicketedSame(s, r, k, pick);
  }

  lemma TakeNothing(s: M.PoolState, k: M.NetLoc, pick: nat)
    requires M.Choose(s, k, pick).None?
    ensures M.Take(s, k, pick) == s && k in s.rows
  {
  }

  lemma LaunchedIs(s: M.PoolState, k: M.NetLoc, c: nat, r: nat)
    requires c in s.clients && r in s.requests
    ensures M.Launch(s, k, c, r) == M.StartOn(PoolSteps.Logged(s, k, r), c, r)
  {
    hide M.StartOn;
  }

  lemma SubmitIs(s: M.PoolState, r: nat, pick: nat)
    requires r in s.requests
    ensures s.requests[r].uri.host == "" ==> M.SubmitTo(s, r, pick) == (s, M.Threw)
    ensures s.requests[r].uri.host != "" ==>
      && r in M.SetRequest(s, r, Accepted(s.requests[r], s.now)).requests
      && M.SubmitTo(s, r, pick) == M.PoolRequest(M.SetRequest(s, r, Accepted(s.requests[r], s.now)), r, pick)
  {
    hide M.PoolRequest;
  }

  lemma HopParts(q: M.Request, location: M.Uri, m: M.Message)
    ensures M.Redirected(q, location).transferCompleted == q.transferCompleted
    ensures M.Redirected(q, location).settings == q.settings
  {
  }

  lemma LetHopIs(cl: M.Client, q: M.Request, keepAlive: bool)
    ensures M.LetHop(cl, q, keepAlive)
      == (if keepAlive then M.Mark(cl, q.transferCompleted, q.settings.keepAlive) else M.Drop(cl)).(request := None)
  {
  }

  /** The two ways of following a redirect, on the state in which client and request have parted. */
  lemma FollowIs(s: M.PoolState, c: nat, r: nat, location: M.Uri, m: M.Message)
    requires M.Active(s, c) && s.clients[c].request == Some(r) && m.callback.Follow?
    ensures var q := s.requests[r];
      var hop := M.Hop(q, location, m);
      var t := PoolSteps.LetGo(s, c, M.LetHop(s.clients[c], q, m.keepAlive), r, hop);
      && t == PoolSteps.LetGo(M.SetRequest(s, r, M.Redirected(q, location)), c, M.LetHop(s.clients[c], q, m.keepAlive), r, hop)
      && (!(s.clients[c].pooled && M.ElsewhereThan(M.NetLocOf(hop), s.clients[c].netloc)) ==>
            M.FollowOn(s, c, location, m.(pick := 0)) == M.Uncaught(M.StartOn(t, c, r)))
  {
    hide M.LetHop, M.StartOn, M.NetLocOf, M.Putback, M.PoolRequest;
    SameHop(s.requests[r], location, m, 0);
    hide M.Hop;
    assert s.requests[r := M.Redirected(s.requests[r], location)][r := M.Hop(s.requests[r], location, m)]
        == s.requests[r := M.Hop(s.requests[r], location, m)];
  }

  lemma SameHop(q: M.Request, location: M.Uri, m: M.Message, pick: nat)
    requires m.callback.Follow?
    ensures M.Hop(q, location, m.(pick := pick)) == M.Hop(q, location, m)
  {
  }

  lemma FollowAway(s: M.PoolState, c: nat, r: nat, location: M.Uri, m: M.Message, pick: nat)
    requires M.Active(s, c) && s.clients[c].request == Some(r) && m.callback.Follow? && s.clients[c].pooled
    requires M.ElsewhereThan(M.NetLocOf(M.Hop(s.requests[r], location, m)), s.clients[c].netloc)
    ensures var q := s.requests[r];
      var t := PoolSteps.LetGo(s, c, M.LetHop(s.clients[c], q, m.keepAlive), r, M.Hop(q, location, m));
      var s2 := M.Putback(M.SetClient(t, c, t.clients[c].(lastActivity := t.now)), c);
      c in s2.clients && r in s2.requests ==>
        M.FollowOn(s, c, location, m.(pick := pick))
          == M.Uncaught(M.PoolRequest(M.SetClient(s2, c, s2.clients[c].(weak := true)), r, pick))
  {
    hide M.LetHop, M.StartOn, M.NetLocOf, M.Putback, M.PoolRequest;
    SameHop(s.requests[r], location, m, pick);
    hide M.Hop;
  }

  lemma RedirectIs(s: M.PoolState, c: nat, r: nat, m: M.Message, pick: nat)
    requires M.Active(s, c) && s.clients[c].request == Some(r)
    ensures var q := s.requests[r];
      var n := q.(counter := M.Increment(q.counter));
      M.RedirectOn(s, c, m.(pick := pick)) ==
        if q.settings.redirectionLimit == 0 then M.CancelOn(s, c, M.UnexpectedRedirect)
        else if M.Increment(q.counter) > q.settings.redirectionLimit then M.CancelOn(M.SetRequest(s, r, n), c, M.RedirectionLimit)
        else if m.location.None? then M.CancelOn(M.SetRequest(s, r, n), c, M.NoRedirectUri)
        else match m.callback
          case CancelInside(e) => M.CancelOn(M.SetRequest(s, r, M.Redirected(q, m.location.value)), c, e)
          case Follow(_) => M.FollowOn(s, c, m.location.value, m.(pick := pick))
  {
    hide M.CancelOn, M.FollowOn, M.Redirected;
  }

  lemma RedirectedIs(s: M.PoolState, r: nat, q: M.Request, location: M.Uri)
    requires r in s.requests && s.requests[r] == q
    ensures var n := q.(counter := M.Increment(q.counter));
      && M.Redirected(q, location) == n.(uri := M.Resolve(n.uri, location), sslCtx := None)
      && M.SetRequest(M.SetRequest(s, r, n), r, M.Redirected(q, location)) == M.SetRequest(s, r, M.Redirected(q, location))
      && M.SetRequest(s, r, n).requests == s.requests[r := n]
      && M.SetRequest(s, r, M.Redirected(q, location)).clients == s.clients
  {
    hide M.Resolve;
    var n := q.(counter := M.Increment(q.counter));
    assert s.requests[r := n][r := M.Redirected(q, location)] == s.requests[r := M.Redirected(q, location)];
  }

  lemma LetIs(cl: M.Client, q: M.Request, v: M.Verdict, keepAlive: bool, now: nat)
    ensures M.Let(cl, q, v, keepAlive, now)
         == (if v.Succeeded? && keepAlive && q.settings.keepAlive
             then M.Mark(cl, q.transferCompleted, keepAlive && q.settings.keepAlive).(weak := true)
             else M.Drop(cl)).(request := None, lastActivity := now)
  {
  }

  lemma FinishIs(s: M.PoolState, c: nat, r: nat, error: Option<M.Error>, keepAlive: bool)
    requires M.Active(s, c) && s.clients[c].request == Some(r) && r in s.requests
    ensures var v := M.VerdictOf(s.requests[r], error);
      var s1 := M.SetClient(s, c, M.Let(s.clients[c], s.requests[r], v, keepAlive, s.now));
      var s2 := if s.clients[c].pooled then M.Putback(s1, c) else s1;
      M.FinishOn(s, c, error, keepAlive) ==
        if r in s2.requests then M.SetRequest(s2, r, M.Notify(s2.requests[r], v)) else s2
  {
    hide M.Putback, M.Let, M.Notify, M.VerdictOf;
  }

  lemma UncaughtIs(s: M.PoolState, o: M.Outcome)
    ensures M.Uncaught((s, o)) == if o.Threw? then s.(broken := true) else s
  {
  }

  /** The client and the request after Client::request make up the state after it. */
  lemma StartIs(s: M.PoolState, c: nat, r: nat, cl: M.Client, q: M.Request, o: M.Outcome)
    requires c in s.clients && r in s.requests
    requires AfterRequest(s.clients[c], s.requests[r], c, r, s.now, cl, q, o)
    ensures (PoolSteps.LetGo(s, c, cl, r, q), o) == M.StartOn(s, c, r)
  {
    hide M.Carrying, M.Sent, M.NetLocOf, M.Reconnects, M.Drop;
    assert s.clients[c := s.clients[c]] == s.clients && s.requests[r := s.requests[r]] == s.requests;
  }
}

/** The client side as a state machine: what each operation of Pool, Client and Request does to
    the whole state, written as functions. Clients and requests are told apart by number, as
    their pointers tell them apart in the program. */
module Pooling {
  import opened Options

  type U16 = n: int | 0 <= n < 0x1_0000

  // ---------------------------------------------------------------- destinations

  /** A proxy URI. NetLoc compares proxies by pointer, hence the number. */
  datatype Proxy = Proxy(id: nat, scheme: string, host: string, port: nat)

  datatype NetLoc = NetLoc(host: string, port: nat, sslCtx: Option<nat>, proxy: Option<Proxy>, checkCert: bool)

  /** `givenPort` is 0 when the URI names no port. A request without a URI has one without a host. */
  datatype Uri = Uri(scheme: string, host: string, givenPort: nat)

  function Port(u: Uri): nat {
    if u.givenPort > 0 then u.givenPort
    else if u.scheme == "http" then 80
    else if u.scheme == "https" then 443
    else 0
  }

  function WithScheme(u: Uri): Uri {
    if u.scheme == "" then u.(scheme := "http") else u
  }

  /** The target of a redirect: scheme, host and explicit port come from the previous URI if missing. */
  function Resolve(previous: Uri, location: Uri): Uri {
    var scheme := if location.scheme == "" then previous.scheme else location.scheme;
    if location.host != "" then location.(scheme := scheme)
    else Uri(scheme, previous.host, if previous.givenPort > 0 then previous.givenPort else location.givenPort)
  }

  // ---------------------------------------------------------------- requests

  datatype Error =
    | ConnectError | TimedOut | ConnectTimedOut | OperationCanceled | IoError
    | TransferAborted | UnexpectedRedirect | RedirectionLimit | NoRedirectUri

  datatype Verdict = Succeeded | Failed(error: Error)

  datatype Timer = Timer(deadline: nat, active: bool, listening: bool)

  /** Whether a request streams a form, and whether one of its items is a file to be read. */
  datatype Form = NoForm | PlainForm | FileForm

  /** What the user of a request sets once. */
  datatype Settings = Settings(
    proxy: Option<Proxy>,
    checkCert: bool,
    keepAlive: bool,
    chunked: bool,
    form: Form,
    timeout: nat,
    followRedirect: bool,
    redirectionLimit: U16)

  /** The history of a request: how often it was submitted and when last, the redirects followed
      since, its place in the order of all submissions to the pool, and what response_event has
      been told. */
  datatype Life = Life(accepted: nat, acceptedAt: nat, hops: nat, ticket: nat, verdicts: seq<Verdict>)

  datatype Request = Request(
    uri: Uri,
    sslCtx: Option<nat>,
    hasBody: bool,
    settings: Settings,
    counter: U16,
    transferCompleted: bool,
    client: Option<nat>,
    pooled: bool,
    timer: Option<Timer>,
    life: Life)

  function NetLocOf(q: Request): NetLoc {
    if q.settings.proxy.Some? && q.settings.proxy.value.scheme == "http"
    then NetLoc(q.settings.proxy.value.host, q.settings.proxy.value.port, None, None, false)
    else NetLoc(q.uri.host, Port(q.uri), q.sslCtx, q.settings.proxy, q.settings.checkCert)
  }

  predicate UnsupportedProxy(q: Request) {
    q.settings.proxy.Some? && q.settings.proxy.value.scheme != "http" && q.settings.proxy.value.scheme != "socks5"
  }

  /** Writing the request writes all of it. */
  predicate StartsWhole(q: Request) {
    match q.settings.form
    case NoForm => !q.settings.chunked || q.hasBody
    case PlainForm => true
    case FileForm => false
  }

  /** Request::ensure_timer_active: a running timer belongs to a redirected request and goes on. */
  function Arm(q: Request, now: nat): Request {
    if q.settings.timeout == 0 then q
    else if q.timer.Some? && q.timer.value.active then q.(timer := Some(q.timer.value.(listening := true)))
    else q.(timer := Some(Timer(now + q.settings.timeout, true, true)))
  }

  /** Request::cleanup_after_redirect. */
  function Detach(q: Request): Request {
    q.(client := None, transferCompleted := false,
       timer := if q.timer.Some? then Some(q.timer.value.(listening := false)) else None)
  }

  /** Request::finish_and_notify. */
  function Notify(q: Request, v: Verdict): Request {
    Detach(q).(counter := 0, pooled := false,
               timer := if q.timer.Some? then Some(q.timer.value.(active := false, listening := false)) else None,
               life := q.life.(verdicts := q.life.verdicts + [v]))
  }

  // ---------------------------------------------------------------- clients and the pool

  /** One request on a connection: `sent` and `kept` are set when it leaves the connection open. */
  datatype Exchange = Exchange(request: nat, dest: NetLoc, sent: bool, kept: bool)

  /** A Client. `carried` is history: the requests written on its present connection. */
  datatype Client = Client(
    pooled: bool,
    netloc: NetLoc,
    request: Option<nat>,
    connected: bool,
    connecting: bool,
    weak: bool,
    lastActivity: nat,
    carried: seq<Exchange>)

  datatype Row = Row(free: set<nat>, busy: set<nat>, queue: seq<nat>)

  datatype Start = Start(dest: NetLoc, ticket: nat)

  /** `broken`: an assertion has failed, or an exception has left an event handler. `started` is
      history: the requests the pool has started, by destination and ticket. */
  datatype PoolState = PoolState(
    alive: bool,
    broken: bool,
    now: nat,
    idleTimeout: nat,
    maxConnections: nat,
    rows: map<NetLoc, Row>,
    clients: map<nat, Client>,
    requests: map<nat, Request>,
    nextClient: nat,
    nextTicket: nat,
    started: seq<Start>)

  datatype Outcome = Ok | Threw

  function NewPool(idleTimeout: nat, maxConnections: nat): PoolState {
    PoolState(true, false, 0, idleTimeout, maxConnections, map[], map[], map[], 0, 0, [])
  }

  function SetClient(s: PoolState, c: nat, cl: Client): PoolState { s.(clients := s.clients[c := cl]) }

  function SetRequest(s: PoolState, r: nat, q: Request): PoolState { s.(requests := s.requests[r := q]) }

  function SetRow(s: PoolState, k: NetLoc, row: Row): PoolState { s.(rows := s.rows[k := row]) }

  const NewClient := Client(true, NetLoc("", 0, None, None, true), None, false, false, false, 0, [])

  // ---------------------------------------------------------------- Client

  /** Client::drop_connection. */
  function Drop(cl: Client): Client {
    cl.(connected := false, connecting := false, carried := [])
  }

  /** Whether Client::request opens a new connection. */
  predicate Reconnects(cl: Client, q: Request) {
    !cl.connected || cl.netloc != NetLocOf(q) || !q.settings.keepAlive
  }

  /** The request and the client once Client::request has written the request. */
  function Sent(q: Request, now: nat): Request {
    Arm(q, now).(transferCompleted := q.transferCompleted || StartsWhole(q))
  }

  function Carrying(cl: Client, q: Request, r: nat): Client {
    var on := if Reconnects(cl, q) then Drop(cl).(netloc := NetLocOf(q), connecting := true) else cl;
    on.(weak := false, request := Some(r), carried := on.carried + [Exchange(r, NetLocOf(q), false, false)])
  }

  /** Client::request. */
  function StartOn(s: PoolState, c: nat, r: nat): (PoolState, Outcome)
    requires c in s.clients && r in s.requests
  {
    var cl, q := s.clients[c], s.requests[r];
    if cl.request.Some? || q.client.Some? || q.uri.host == "" then (s, Threw)
    else
      var q1 := q.(client := Some(c), uri := WithScheme(q.uri));
      if Reconnects(cl, q1) && UnsupportedProxy(q)
      then (SetClient(SetRequest(s, r, q1), c, if cl.connected then Drop(cl) else cl), Threw)
      else (SetClient(SetRequest(s, r, Sent(q1, s.now)), c, Carrying(cl, q1, r)), Ok)
  }

  /** The last exchange leaves the connection open. */
  function Mark(cl: Client, sent: bool, kept: bool): Client {
    if cl.carried == [] then cl
    else cl.(carried := cl.carried[|cl.carried| - 1 := cl.carried[|cl.carried| - 1].(sent := sent, kept := kept)])
  }

  // ---------------------------------------------------------------- Pool

  function Launch(s: PoolState, k: NetLoc, c: nat, r: nat): (PoolState, Outcome)
    requires c in s.clients && r in s.requests
  {
    StartOn(s.(started := s.started + [Start(k, s.requests[r].life.ticket)]), c, r)
  }

  /** An exception that nobody catches. */
  function Uncaught(p: (PoolState, Outcome)): PoolState {
    if p.1.Ok? then p.0 else p.0.(broken := true)
  }

  /** Pool::putback. */
  function Putback(s: PoolState, c: nat): PoolState
    requires c in s.clients
  {
    var k := s.clients[c].netloc;
    if k !in s.rows then s.(broken := true)
    else
      var row := s.rows[k];
      if row.queue != [] then
        if row.queue[0] !in s.requests then s.(broken := true)
        else Uncaught(Launch(SetRow(s, k, row.(queue := row.queue[1..])), k, c, row.queue[0]))
      else if c !in row.busy then s.(broken := true)
      else SetRow(s, k, row.(free := row.free + {c}, busy := row.busy - {c}))
  }

  function AddClient(s: PoolState, k: NetLoc, row: Row): PoolState {
    SetClient(SetRow(s, k, row), s.nextClient, NewClient).(nextClient := s.nextClient + 1)
  }

  /** The client that Pool::request takes for a destination, if any; `pick` is the first of the free
      clients in the order of their pointers. */
  function Choose(s: PoolState, k: NetLoc, pick: nat): Option<nat> {
    if k !in s.rows then Some(s.nextClient)
    else if s.rows[k].free != {} then Some(pick)
    else if |s.rows[k].busy| < s.maxConnections then Some(s.nextClient)
    else None
  }

  function Take(s: PoolState, k: NetLoc, pick: nat): PoolState {
    if k !in s.rows then AddClient(s, k, Row({}, {s.nextClient}, []))
    else
      var row := s.rows[k];
      if row.free != {} then SetRow(s, k, row.(free := row.free - {pick}, busy := row.busy + {pick}))
      else if |row.busy| < s.maxConnections then AddClient(s, k, row.(busy := row.busy + {s.nextClient}))
      else s
  }

  function Enqueue(s: PoolState, k: NetLoc, r: nat): PoolState
    requires k in s.rows && r in s.requests
  {
    var row := s.rows[k];
    SetRequest(SetRow(s, k, row.(queue := row.queue + [r])), r, Arm(s.requests[r], s.now))
  }

  /** `pick` is one of the clients that are free for the destination of a request, if there are any. */
  predicate Pickable(s: PoolState, k: NetLoc, pick: nat) {
    k in s.rows && s.rows[k].free != {} ==> pick in s.rows[k].free && pick in s.clients
  }

  /** Pool::request. */
  function PoolRequest(s: PoolState, r: nat, pick: nat): (PoolState, Outcome)
    requires r in s.requests
  {
    var q := s.requests[r];
    var k := NetLocOf(q);
    if q.uri.host == "" || !Pickable(s, k, pick) then (s, Threw)
    else
      var s1 := SetRequest(s, r, q.(pooled := true, life := q.life.(ticket := s.nextTicket))).(nextTicket := s.nextTicket + 1);
      match Choose(s1, k, pick)
      case None => (Enqueue(s1, k, r), Ok)
      case Some(c) => Launch(Take(s1, k, pick), k, c, r)
  }

  /** The first position of a request in a queue, or the length of the queue. */
  function Find(queue: seq<nat>, r: nat): (i: nat)
    ensures i <= |queue|
    ensures forall j :: 0 <= j < i ==> queue[j] != r
    ensures i < |queue| ==> queue[i] == r
  {
    if queue == [] then 0
    else if queue[0] == r then 0
    else Find(queue[1..], r) + 1
  }

  /** Pool::cancel_request. */
  function CancelQueued(s: PoolState, r: nat, e: Error): PoolState
    requires r in s.requests
  {
    var q := s.requests[r];
    var k := NetLocOf(q);
    if k !in s.rows then s.(broken := true)
    else
      var row := s.rows[k];
      var i := Find(row.queue, r);
      if i == |row.queue| then s.(broken := true)
      else SetRequest(SetRow(s, k, row.(queue := row.queue[..i] + row.queue[i + 1..])), r, Notify(q, Failed(e)))
  }

  const WORD := 0x1_0000_0000_0000_0000

  /** `now() - idle_timeout` on unsigned 64-bit numbers. */
  function RemoveTime(s: PoolState): nat { (s.now - s.idleTimeout) % WORD }

  predicate Inactive(s: PoolState, c: nat) {
    c in s.clients && s.clients[c].lastActivity < RemoveTime(s)
  }

  function SweepRow(s: PoolState, row: Row): Row {
    row.(free := set c | c in row.free && !Inactive(s, c))
  }

  /** Pool::check_inactivity. */
  function Sweep(s: PoolState): PoolState {
    s.(rows := map k | k in s.rows && (SweepRow(s, s.rows[k]).free != {} || s.rows[k].busy != {}) :: SweepRow(s, s.rows[k]))
  }

  predicate InQueue(s: PoolState, r: nat) { exists k :: k in s.rows && r in s.rows[k].queue }

  predicate InBusy(s: PoolState, c: nat) { exists k :: k in s.rows && c in s.rows[k].busy }

  /** Pool::~Pool: active clients go on without the pool. */
  function Destroy(s: PoolState): PoolState {
    s.(alive := false, rows := map[],
       clients := map c | c in s.clients ::
         if InBusy(s, c) then s.clients[c].(pooled := false) else s.clients[c],
       requests := map r | r in s.requests ::
         if InQueue(s, r) then Notify(s.requests[r], Failed(OperationCanceled)) else s.requests[r])
  }

  // ---------------------------------------------------------------- the end of an exchange

  function VerdictOf(q: Request, error: Option<Error>): Verdict {
    match error
    case Some(e) => Failed(e)
    case None => if q.transferCompleted then Succeeded else Failed(TransferAborted)
  }

  /** The client after finish_request has let its request go. */
  function Let(cl: Client, q: Request, v: Verdict, keepAlive: bool, now: nat): Client {
    var kept := keepAlive && q.settings.keepAlive;
    var on := if v.Succeeded? && kept then Mark(cl, q.transferCompleted, kept).(weak := true) else Drop(cl);
    on.(request := None, lastActivity := now)
  }

  /** Client::finish_request; `keepAlive` is that of the response. */
  function FinishOn(s: PoolState, c: nat, error: Option<Error>, keepAlive: bool): PoolState
    requires c in s.clients && s.clients[c].request.Some? && s.clients[c].request.value in s.requests
  {
    var cl := s.clients[c];
    var r := cl.request.value;
    var v := VerdictOf(s.requests[r], error);
    var s1 := SetClient(s, c, Let(cl, s.requests[r], v, keepAlive, s.now));
    var s2 := if cl.pooled then Putback(s1, c) else s1;
    if r in s2.requests then SetRequest(s2, r, Notify(s2.requests[r], v)) else s2
  }

  /** Client::cancel. */
  function CancelOn(s: PoolState, c: nat, e: Error): PoolState
    requires c in s.clients && (s.clients[c].request.Some? ==> s.clients[c].request.value in s.requests)
  {
    if s.clients[c].request.None? then s else FinishOn(s, c, Some(e), false)
  }

  // ---------------------------------------------------------------- redirects

  /** What redirect_event does: let the redirect be followed, perhaps with an SSL context for the next
      hop, or cancel the request. */
  datatype Callback = Follow(sslCtx: Option<nat>) | CancelInside(error: Error)

  /** A whole response message, and what happens along with it. */
  datatype Message = Message(code: nat, keepAlive: bool, location: Option<Uri>, callback: Callback, pick: nat)

  predicate IsRedirect(code: nat) { code in {300, 301, 302, 303, 307, 308} }

  /** Incrementing a uint16_t. */
  function Increment(n: U16): U16 { if n == 0xFFFF then 0 else n + 1 }

  /** The request as redirect_event sees it. */
  function Redirected(q: Request, location: Uri): Request {
    q.(counter := Increment(q.counter), uri := Resolve(q.uri, location), sslCtx := None)
  }

  /** The request on its way to the next hop. */
  function Hop(q: Request, location: Uri, m: Message): Request
    requires m.callback.Follow?
  {
    Detach(Redirected(q, location).(sslCtx := m.callback.sslCtx, hasBody := q.hasBody && m.code != 303, life := q.life.(hops := q.life.hops + 1)))
  }

  /** The client that has let its request go to the next hop. */
  function LetHop(cl: Client, q: Request, keepAlive: bool): Client {
    (if keepAlive then Mark(cl, q.transferCompleted, q.settings.keepAlive) else Drop(cl)).(request := None)
  }

  predicate ElsewhereThan(k: NetLoc, other: NetLoc) { k.host != other.host || k.port != other.port }

  /** The end of analyze_request for a redirect that is followed. */
  function FollowOn(s: PoolState, c: nat, location: Uri, m: Message): PoolState
    requires c in s.clients && s.clients[c].request.Some? && s.clients[c].request.value in s.requests
    requires m.callback.Follow?
  {
    var cl := s.clients[c];
    var r := cl.request.value;
    var q := s.requests[r];
    var hop := Hop(q, location, m);
    var s1 := SetClient(SetRequest(s, r, hop), c, LetHop(cl, q, m.keepAlive));
    if cl.pooled && ElsewhereThan(NetLocOf(hop), cl.netloc) then
      var s2 := Putback(SetClient(s1, c, s1.clients[c].(lastActivity := s.now)), c);
      if c !in s2.clients || r !in s2.requests then s2
      else Uncaught(PoolRequest(SetClient(s2, c, s2.clients[c].(weak := true)), r, m.pick))
    else Uncaught(StartOn(s1, c, r))
  }

  /** analyze_request on a redirect. */
  function RedirectOn(s: PoolState, c: nat, m: Message): PoolState
    requires c in s.clients && s.clients[c].request.Some? && s.clients[c].request.value in s.requests
  {
    var r := s.clients[c].request.value;
    var q := s.requests[r];
    var counted := SetRequest(s, r, q.(counter := Increment(q.counter)));
    if q.settings.redirectionLimit == 0 then CancelOn(s, c, UnexpectedRedirect)
    else if Increment(q.counter) > q.settings.redirectionLimit then CancelOn(counted, c, RedirectionLimit)
    else if m.location.None? then CancelOn(counted, c, NoRedirectUri)
    else
      match m.callback
      case CancelInside(e) => CancelOn(SetRequest(s, r, Redirected(q, m.location.value)), c, e)
      case Follow(_) => FollowOn(s, c, m.location.value, m)
  }

  /** analyze_request. */
  function AnalyzeOn(s: PoolState, c: nat, m: Message): PoolState
    requires c in s.clients && s.clients[c].request.Some? && s.clients[c].request.value in s.requests
  {
    if m.code == 100 then s
    else if s.requests[s.clients[c].request.value].settings.followRedirect && IsRedirect(m.code) then RedirectOn(s, c, m)
    else FinishOn(s, c, None, m.keepAlive)
  }

  // ---------------------------------------------------------------- events and runs

  datatype Step =
    | Create(r: nat, q: Request)
    | Submit(r: nat, pick: nat)
    | Cancel(r: nat, error: Error)
    | TransferDone(r: nat)
    | TimerFires(r: nat)
    | Connected(c: nat)
    | Disturbed(c: nat, error: Error)
    | Received(c: nat, message: Message)
    | Unexpected(c: nat)
    | Swept
    | Destroyed
    | Tick(now: nat)

  /** Pool::request called by a user. */
  function SubmitTo(s: PoolState, r: nat, pick: nat): (PoolState, Outcome)
    requires r in s.requests
  {
    var q := s.requests[r];
    if q.uri.host == "" then (s, Threw)
    else PoolRequest(SetRequest(s, r, q.(life := q.life.(accepted := q.life.accepted + 1, acceptedAt := s.now, hops := 0))), r, pick)
  }

  /** Request::send_final_chunk. */
  function FinalChunk(s: PoolState, r: nat): (PoolState, Outcome)
    requires r in s.requests
  {
    var q := s.requests[r];
    if q.transferCompleted || q.client.None? then (s, Threw)
    else (SetRequest(s, r, q.(transferCompleted := true)), Ok)
  }

  /** Request::cancel. */
  function CancelRequest(s: PoolState, r: nat, e: Error): PoolState
    requires r in s.requests
  {
    var q := s.requests[r];
    if q.client.Some? then
      var c := q.client.value;
      if c !in s.clients || (s.clients[c].request.Some? && s.clients[c].request.value !in s.requests) then s
      else CancelOn(s, c, e)
    else if q.pooled then CancelQueued(s, r, e)
    else s
  }

  /** Request::on_timer; the timer has just stopped running. */
  function Expire(s: PoolState, r: nat): PoolState
    requires r in s.requests && s.requests[r].timer.Some?
  {
    var q := s.requests[r];
    var s1 := SetRequest(s, r, q.(timer := Some(q.timer.value.(active := false))));
    var e := if q.client.Some? && q.client.value in s.clients && s.clients[q.client.value].connecting
             then ConnectTimedOut else TimedOut;
    if q.timer.value.listening then CancelRequest(s1, r, e) else s1
  }

  predicate Active(s: PoolState, c: nat) {
    c in s.clients && s.clients[c].request.Some? && s.clients[c].request.value in s.requests
  }

  function Next(s: PoolState, step: Step): PoolState {
    match step
    case Create(r, q) => SetRequest(s, r, q)
    case Submit(r, pick) => if r in s.requests then SubmitTo(s, r, pick).0 else s
    case Cancel(r, e) => if r in s.requests then CancelRequest(s, r, e) else s
    case TransferDone(r) => if r in s.requests then FinalChunk(s, r).0 else s
    case TimerFires(r) => if r in s.requests && s.requests[r].timer.Some? then Expire(s, r) else s
    case Connected(c) =>
      if c in s.clients then SetClient(s, c, s.clients[c].(connected := true, connecting := false)) else s
    case Disturbed(c, e) => if Active(s, c) then CancelOn(s, c, e) else s
    case Received(c, m) => if Active(s, c) then AnalyzeOn(s, c, m) else s
    case Unexpected(c) => if c in s.clients then SetClient(s, c, Drop(s.clients[c])) else s
    case Swept => Sweep(s)
    case Destroyed => Destroy(s)
    case Tick(now) => s.(now := now)
  }

  /** A request as its user creates it. */
  predicate Fresh(q: Request) {
    && q.counter == 0 && !q.transferCompleted && q.client.None? && !q.pooled && q.timer.None?
    && q.life.accepted == 0 && q.life.verdicts == []
  }

  /** When the event loop or a user can take a step; a timer fires at its deadline or later. */
  predicate Enabled(s: PoolState, step: Step) {
    match step
    case Create(r, q) => r !in s.requests && Fresh(q)
    case Submit(r, pick) => s.alive && r in s.requests && Pickable(s, NetLocOf(s.requests[r]), pick)
    case Cancel(r, _) => r in s.requests
    case TransferDone(r) => r in s.requests
    case TimerFires(r) =>
      && r in s.requests && s.requests[r].timer.Some?
      && s.requests[r].timer.value.active && s.requests[r].timer.value.deadline <= s.now
    case Connected(c) => c in s.clients && s.clients[c].connecting
    case Disturbed(c, _) => Active(s, c)
    case Received(c, m) =>
      && Active(s, c) && s.clients[c].connected
      && (m.location.Some? && m.callback.Follow? ==>
            Pickable(s, NetLocOf(Hop(s.requests[s.clients[c].request.value], m.location.value, m)), m.pick))
    case Unexpected(c) => c in s.clients && s.clients[c].request.None?
    case Swept => s.alive && s.idleTimeout > 0
    case Destroyed => s.alive
    case Tick(now) => s.now <= now < WORD
  }

  function Run(s: PoolState, steps: seq<Step>): PoolState {
    if steps == [] then s else Next(Run(s, steps[..|steps| - 1]), steps[|steps| - 1])
  }
}

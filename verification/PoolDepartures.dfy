/** Runs of the client side in which the code does less than one would expect. When it does so in general
    is proved in PoolPromises and PoolReuse. */
module PoolDepartures {
  import opened Options
  import opened Pooling
  import opened PoolInvariant
  import opened PoolSteps
  import opened PoolRuns
  import opened PoolPromises
  import opened PoolReuse

  // ---------------------------------------------------------------- a lost row

  /** A client whose destination has no row cannot be put back: the assertion in putback fails. */
  lemma LostRowBreaks(s: PoolState, c: nat, e: Option<Error>, keepAlive: bool)
    requires Active(s, c) && s.clients[c].pooled && s.clients[c].netloc !in s.rows
    ensures FinishOn(s, c, e, keepAlive).broken
  {
  }

  const SecretUri := Uri("https", "a", 0)
  const Secret := NetLoc("a", 443, Some(7), None, true)
  const SecretSettings := Settings(None, true, true, false, NoForm, 0, true, 20)
  const SecretRequest :=
    Request(SecretUri, Some(7), false, SecretSettings, 0, false, None, false, None, Life(0, 0, 0, 0, []))

  /** Client 0 carries request 0 in the row of its SSL context, at some other destination or not. */
  ghost predicate CarriesSecret(s: PoolState, dest: NetLoc, connected: bool) {
    && s.rows == map[Secret := Row({}, {0}, [])]
    && 0 in s.clients && s.clients[0].pooled && s.clients[0].request == Some(0)
    && s.clients[0].netloc == dest && s.clients[0].connected == connected && s.clients[0].connecting == !connected
    && 0 in s.requests && s.requests[0].uri == SecretUri && s.requests[0].settings == SecretSettings
    && s.requests[0].sslCtx == dest.sslCtx && s.requests[0].client == Some(0)
    && s.requests[0].counter == (if dest == Secret then 0 else 1)
    && NetLocOf(s.requests[0]) == dest
  }

  lemma SecretSubmitted(s: PoolState)
    requires s == SetRequest(NewPool(1000, 10), 0, SecretRequest)
    ensures Enabled(s, Submit(0, 0)) && CarriesSecret(Next(s, Submit(0, 0)), Secret, false)
  {
    var d := Next(s, Submit(0, 0));
    var q := SecretRequest.(life := Life(1, 0, 0, 0, []));
    assert NetLocOf(q) == Secret;
    var t := PoolState(true, false, 0, 1000, 10, map[], map[], map[0 := q.(pooled := true)], 0, 1, []);
    assert d == Launch(Take(t, Secret, 0), Secret, 0, 0).0;
  }

  lemma SecretConnected(s: PoolState, dest: NetLoc)
    requires CarriesSecret(s, dest, false)
    ensures Enabled(s, Connected(0)) && CarriesSecret(Next(s, Connected(0)), dest, true)
  {
    hide NetLocOf;
  }

  const Elsewhere := Message(301, true, Some(SecretUri), Follow(None), 0)
  const Okay := Message(200, true, None, Follow(None), 0)

  lemma SecretRedirected(s: PoolState)
    requires CarriesSecret(s, Secret, true)
    ensures Enabled(s, Received(0, Elsewhere))
    ensures CarriesSecret(Next(s, Received(0, Elsewhere)), Secret.(sslCtx := None), false)
  {
    var q := s.requests[0];
    var hop := Hop(q, SecretUri, Elsewhere);
    assert NetLocOf(hop) == Secret.(sslCtx := None) && hop.uri == SecretUri && hop.counter == 1;
    FollowHereIs(s, 0, SecretUri, Elsewhere);
    LetHopShape(s.clients[0], q, true);
    var went := LetHop(s.clients[0], q, true);
    hide Hop, LetHop, FollowOn;
    var d := LetGo(s, 0, went, 0, hop);
    assert Next(s, Received(0, Elsewhere)) == Uncaught(StartOn(d, 0, 0));
  }

  /** A request with its own SSL context is redirected to another page of the same host, and answered. */
  const LostRowRun: seq<Step> :=
    [Create(0, SecretRequest), Submit(0, 0), Connected(0), Received(0, Elsewhere), Connected(0), Received(0, Okay)]

  /** In this run the pool does not find the row of the client that it gets back. */
  lemma LostRow()
    ensures Possible(NewPool(1000, 10), LostRowRun) && Run(NewPool(1000, 10), LostRowRun).broken
  {
    hide CarriesSecret, Next, Enabled;
    var s := NewPool(1000, 10);
    var steps: seq<Step> := [];
    Created(s);
    RunOn(s, steps, Create(0, SecretRequest));
    steps := steps + [Create(0, SecretRequest)];
    SecretSubmitted(Run(s, steps));
    RunOn(s, steps, Submit(0, 0));
    steps := steps + [Submit(0, 0)];
    SecretConnected(Run(s, steps), Secret);
    RunOn(s, steps, Connected(0));
    steps := steps + [Connected(0)];
    SecretRedirected(Run(s, steps));
    RunOn(s, steps, Received(0, Elsewhere));
    steps := steps + [Received(0, Elsewhere)];
    SecretConnected(Run(s, steps), Secret.(sslCtx := None));
    RunOn(s, steps, Connected(0));
    steps := steps + [Connected(0)];
    SecretLost(Run(s, steps));
    RunOn(s, steps, Received(0, Okay));
    assert steps + [Received(0, Okay)] == LostRowRun;
  }

  lemma Created(s: PoolState)
    requires s == NewPool(1000, 10)
    ensures Enabled(s, Create(0, SecretRequest)) && Next(s, Create(0, SecretRequest)) == SetRequest(s, 0, SecretRequest)
  {
  }

  lemma SecretLost(s: PoolState)
    requires CarriesSecret(s, Secret.(sslCtx := None), true)
    ensures Enabled(s, Received(0, Okay)) && Next(s, Received(0, Okay)).broken
  {
    LostRowBreaks(s, 0, None, true);
    hide FinishOn, RedirectOn, NetLocOf, Hop, Pickable;
    assert AnalyzeOn(s, 0, Okay) == FinishOn(s, 0, None, true);
    hide AnalyzeOn;
  }

  // ---------------------------------------------------------------- one request on one connection

  const Here := Uri("http", "a", 0)
  const There := Uri("http", "b", 0)
  const Place := NetLoc("a", 80, None, None, true)

  function Plain(chunked: bool, limit: U16): Request {
    Request(Here, None, false, Settings(None, true, true, chunked, NoForm, 0, true, limit), 0, false, None, false, None,
            Life(0, 0, 0, 0, []))
  }

  /** The request once it has been started, after some hops. */
  function Started(chunked: bool, limit: U16, hops: nat): Request {
    Plain(chunked, limit).(counter := hops % 0x1_0000, transferCompleted := !chunked, client := Some(0), pooled := true,
                           life := Life(1, 0, hops, 0, []))
  }

  /** Client 0 carries request 0, and there is nothing else. */
  ghost predicate Carries(s: PoolState, q: Request, connected: bool) {
    && s.alive && s.now == 0 && s.nextClient == 1 && s.maxConnections == 10 && s.idleTimeout == 1000
    && s.rows == map[Place := Row({}, {0}, [])]
    && s.clients.Keys == {0} && s.clients[0].pooled && s.clients[0].request == Some(0) && s.clients[0].netloc == Place
    && s.clients[0].connected == connected && s.clients[0].connecting == !connected
    && s.clients[0].carried != []
    && s.requests == map[0 := q]
  }

  lemma PlainIsHere(chunked: bool, limit: U16)
    ensures NetLocOf(Plain(chunked, limit)) == Place && Startable(Plain(chunked, limit))
    ensures !UnsupportedProxy(Plain(chunked, limit))
  {
  }

  lemma StartedIsHere(chunked: bool, limit: U16, hops: nat)
    ensures NetLocOf(Started(chunked, limit, hops)) == Place
  {
  }

  lemma PlainCreated(chunked: bool, limit: U16)
    ensures var s := NewPool(1000, 10);
      && Enabled(s, Create(0, Plain(chunked, limit)))
      && Next(s, Create(0, Plain(chunked, limit))) == SetRequest(s, 0, Plain(chunked, limit))
  {
  }

  lemma PlainSubmitted(s: PoolState, chunked: bool, limit: U16)
    requires s == SetRequest(NewPool(1000, 10), 0, Plain(chunked, limit))
    ensures Enabled(s, Submit(0, 0)) && Carries(Next(s, Submit(0, 0)), Started(chunked, limit, 0), false)
  {
    PlainIsHere(chunked, limit);
    var q := Plain(chunked, limit).(life := Life(1, 0, 0, 0, []), pooled := true);
    assert NetLocOf(q) == Place;
    var t := PoolState(true, false, 0, 1000, 10, map[], map[], map[0 := q], 0, 1, []);
    assert Next(s, Submit(0, 0)) == Launch(Take(t, Place, 0), Place, 0, 0).0;
  }

  lemma PlainConnected(s: PoolState, q: Request)
    requires Carries(s, q, false)
    ensures Enabled(s, Connected(0)) && Carries(Next(s, Connected(0)), q, true)
  {
  }

  function Opening(chunked: bool, limit: U16): seq<Step> {
    [Create(0, Plain(chunked, limit))] + [Submit(0, 0)] + [Connected(0)]
  }

  lemma Opened(chunked: bool, limit: U16)
    ensures Possible(NewPool(1000, 10), Opening(chunked, limit))
    ensures Carries(Run(NewPool(1000, 10), Opening(chunked, limit)), Started(chunked, limit, 0), true)
  {
    hide Carries, Next, Enabled, Plain, Started;
    var s := NewPool(1000, 10);
    PlainCreated(chunked, limit);
    RunOn(s, [], Create(0, Plain(chunked, limit)));
    var steps := [] + [Create(0, Plain(chunked, limit))];
    assert steps == [Create(0, Plain(chunked, limit))];
    PlainSubmitted(Run(s, steps), chunked, limit);
    RunOn(s, steps, Submit(0, 0));
    PlainConnected(Run(s, steps + [Submit(0, 0)]), Started(chunked, limit, 0));
    RunOn(s, steps + [Submit(0, 0)], Connected(0));
  }

  // ---------------------------------------------------------------- submitted twice

  const TwiceRun: seq<Step> := Opening(false, 20) + [Submit(0, 0)]

  /** A request is submitted again while it is in progress: another client is busy from now on, with nothing
      to do. */
  lemma SubmittedTwice()
    ensures Possible(NewPool(1000, 10), TwiceRun)
    ensures var s := Run(NewPool(1000, 10), TwiceRun);
      Place in s.rows && 1 in s.rows[Place].busy && 1 in s.clients && s.clients[1].request.None?
  {
    hide Carries, Next, Enabled, Started;
    Opened(false, 20);
    var s := Run(NewPool(1000, 10), Opening(false, 20));
    AgainSubmitted(s);
    RunOn(NewPool(1000, 10), Opening(false, 20), Submit(0, 0));
  }

  lemma AgainSubmitted(s: PoolState)
    requires Carries(s, Started(false, 20, 0), true)
    ensures Enabled(s, Submit(0, 0))
    ensures var d := Next(s, Submit(0, 0));
      Place in d.rows && 1 in d.rows[Place].busy && 1 in d.clients && d.clients[1].request.None?
  {
    StartedIsHere(false, 20, 0);
    var q := s.requests[0];
    var r := q.(life := q.life.(accepted := q.life.accepted + 1, acceptedAt := 0, hops := 0));
    assert NetLocOf(r) == Place;
    var t := SetRequest(s, 0, r.(pooled := true, life := r.life.(ticket := s.nextTicket))).(nextTicket := s.nextTicket + 1);
    assert |s.rows[Place].busy| == 1;
    assert Choose(t, Place, 0) == Some(1);
    assert Next(s, Submit(0, 0)) == Launch(Take(t, Place, 0), Place, 1, 0).0;
  }

  // ---------------------------------------------------------------- a limit that is none

  const Again := Message(301, true, Some(Here), Follow(None), 0)

  lemma HopsOn(limit: U16, hops: nat)
    requires limit == 0xFFFF
    ensures var q := Started(false, limit, hops);
      && Follows(q, Again)
      && Hop(q, Here, Again) == q.(counter := (hops + 1) % 0x1_0000, client := None, transferCompleted := false, life := Life(1, 0, hops + 1, 0, []))
      && NetLocOf(Hop(q, Here, Again)) == Place
  {
    assert Resolve(Here, Here) == Here;
  }

  lemma Redirected65535(s: PoolState, hops: nat)
    requires Carries(s, Started(false, 0xFFFF, hops), true)
    ensures Enabled(s, Received(0, Again)) && Carries(Next(s, Received(0, Again)), Started(false, 0xFFFF, hops + 1), true)
  {
    HopsOn(0xFFFF, hops);
    StartedIsHere(false, 0xFFFF, hops);
    var q := s.requests[0];
    var hop := Hop(q, Here, Again);
    FollowedIs(s, 0, Again);
    FollowHereIs(s, 0, Here, Again);
    LetHopShape(s.clients[0], q, true);
    var went := LetHop(s.clients[0], q, true);
    assert went.connected && !went.connecting;
    hide Hop, LetHop, FollowOn, AnalyzeOn;
    var d := LetGo(s, 0, went, 0, hop);
    assert Next(s, Received(0, Again)) == Uncaught(StartOn(d, 0, 0));
    StartsAgain(d, hop, went);
  }

  lemma StartsAgain(s: PoolState, q: Request, cl: Client)
    requires 0 in s.clients && s.clients[0] == cl && s.requests == map[0 := q] && s.clients.Keys == {0}
    requires cl.request.None? && cl.connected && cl.netloc == Place && NetLocOf(q) == Place
    requires q.client.None? && q.uri == Here && q.settings == Plain(false, 0xFFFF).settings
    ensures var e := Uncaught(StartOn(s, 0, 0));
      && e == s.(clients := e.clients, requests := e.requests) && e.clients.Keys == {0}
      && e.clients[0] == cl.(weak := false, request := Some(0), carried := cl.carried + [Exchange(0, Place, false, false)])
      && e.requests == map[0 := q.(client := Some(0), transferCompleted := true)]
  {
    var q1 := q.(client := Some(0), uri := WithScheme(q.uri));
    assert q1 == q.(client := Some(0)) && NetLocOf(q1) == Place;
    assert !Reconnects(cl, q1) && Sent(q1, s.now) == q1.(transferCompleted := true);
    hide NetLocOf;
  }

  function LoopRun(hops: nat): seq<Step> {
    if hops == 0 then Opening(false, 0xFFFF) else LoopRun(hops - 1) + [Received(0, Again)]
  }

  /** A request whose limit is 65535 is redirected as often as one likes. */
  lemma {:induction false} Loops(hops: nat)
    ensures Possible(NewPool(1000, 10), LoopRun(hops))
    ensures Carries(Run(NewPool(1000, 10), LoopRun(hops)), Started(false, 0xFFFF, hops), true)
  {
    hide Carries, Next, Enabled, Started, Opening, Run, Possible;
    if hops == 0 {
      Opened(false, 0xFFFF);
    } else {
      Loops(hops - 1);
      Redirected65535(Run(NewPool(1000, 10), LoopRun(hops - 1)), hops - 1);
      RunOn(NewPool(1000, 10), LoopRun(hops - 1), Received(0, Again));
    }
  }

  /** However long the loop, the request is still in progress; after 65536 hops its counter is zero again. */
  lemma {:induction false} Limitless(hops: nat)
    ensures Possible(NewPool(1000, 10), LoopRun(hops))
    ensures var s := Run(NewPool(1000, 10), LoopRun(hops));
      && 0 in s.requests && s.requests[0].client == Some(0) && s.requests[0].life.verdicts == []
      && s.requests[0].settings.redirectionLimit == 0xFFFF
      && s.requests[0].life.hops == hops && s.requests[0].counter == hops % 0x1_0000
  {
    hide Next, Enabled, LoopRun, Run;
    Loops(hops);
  }

  // ---------------------------------------------------------------- a dirty redirect

  const DirtyRun: seq<Step> := Opening(true, 20) + [Received(0, Again)]

  /** A request in chunks, whose last chunk is still to come, is redirected to the same place: the next
      request follows it on the same connection. */
  lemma DirtyConnection()
    ensures Possible(NewPool(1000, 10), DirtyRun)
    ensures var s := Run(NewPool(1000, 10), DirtyRun);
      0 in s.clients && |s.clients[0].carried| > 1 && !Clean(s.clients[0])
  {
    hide Carries, Next, Enabled, Started;
    Opened(true, 20);
    var s := Run(NewPool(1000, 10), Opening(true, 20));
    RedirectedDirty(s);
    RunOn(NewPool(1000, 10), Opening(true, 20), Received(0, Again));
  }

  lemma HopsOnce()
    ensures var q := Started(true, 20, 0);
      && Follows(q, Again)
      && Hop(q, Here, Again) == q.(counter := 1, client := None, transferCompleted := false, life := Life(1, 0, 1, 0, []))
      && NetLocOf(Hop(q, Here, Again)) == Place && !q.transferCompleted && q.settings.keepAlive
  {
    assert Resolve(Here, Here) == Here;
  }

  lemma RedirectedDirty(s: PoolState)
    requires Carries(s, Started(true, 20, 0), true)
    ensures Enabled(s, Received(0, Again))
    ensures var d := Next(s, Received(0, Again));
      0 in d.clients && |d.clients[0].carried| > 1 && !Clean(d.clients[0])
  {
    HopsOnce();
    var q := s.requests[0];
    var hop := Hop(q, Here, Again);
    FollowedIs(s, 0, Again);
    FollowHereIs(s, 0, Here, Again);
    LetHopShape(s.clients[0], q, true);
    var went := LetHop(s.clients[0], q, true);
    var n := |s.clients[0].carried|;
    assert went.connected && |went.carried| == n && !Whole(went.carried[n - 1]);
    hide Hop, LetHop, FollowOn, AnalyzeOn;
    var t := LetGo(s, 0, went, 0, hop);
    assert Next(s, Received(0, Again)) == Uncaught(StartOn(t, 0, 0));
    StartsDirty(t, hop, went);
    var d := Uncaught(StartOn(t, 0, 0)).clients[0];
    assert d.carried[..|d.carried| - 1][n - 1] == went.carried[n - 1];
  }

  lemma StartsDirty(s: PoolState, q: Request, cl: Client)
    requires 0 in s.clients && s.clients[0] == cl && 0 in s.requests && s.requests[0] == q
    requires cl.request.None? && cl.connected && cl.netloc == Place && NetLocOf(q) == Place
    requires q.client.None? && q.uri == Here && q.settings == Plain(true, 20).settings
    ensures var e := Uncaught(StartOn(s, 0, 0));
      && 0 in e.clients
      && e.clients[0] == cl.(weak := false, request := Some(0), carried := cl.carried + [Exchange(0, Place, false, false)])
  {
    var q1 := q.(client := Some(0), uri := WithScheme(q.uri));
    assert q1 == q.(client := Some(0)) && NetLocOf(q1) == Place;
    assert !Reconnects(cl, q1);
    hide NetLocOf, Sent;
  }

  // ---------------------------------------------------------------- another scheme

  const SecureHere := Uri("https", "a", 80)
  const Secured := Message(301, true, Some(SecureHere), Follow(None), 0)

  const SchemeRun: seq<Step> := Opening(false, 20) + [Received(0, Secured)]

  /** A request for http is redirected to https at the same host and port, which the location names: it is
      followed on the connection that has been opened for http. */
  lemma AnotherScheme()
    ensures Possible(NewPool(1000, 10), SchemeRun)
    ensures var s := Run(NewPool(1000, 10), Opening(false, 20));
      var d := Run(NewPool(1000, 10), SchemeRun);
      && OnConnection(s, 0, 0) && s.requests[0].uri.scheme == "http"
      && OnConnection(d, 0, 0) && d.requests[0].uri.scheme == "https"
  {
    hide Carries, Next, Enabled, Started, OnConnection;
    Opened(false, 20);
    var s := Run(NewPool(1000, 10), Opening(false, 20));
    SecureRedirected(s);
    RunOn(NewPool(1000, 10), Opening(false, 20), Received(0, Secured));
  }

  /** Client `c` carries request `r` on an open connection. */
  ghost predicate OnConnection(s: PoolState, c: nat, r: nat) {
    c in s.clients && s.clients[c].request == Some(r) && s.clients[c].connected && r in s.requests
  }

  lemma HopsSecurely()
    ensures var q := Started(false, 20, 0);
      && Follows(q, Secured) && NetLocOf(Hop(q, SecureHere, Secured)) == Place
      && Hop(q, SecureHere, Secured) ==
           q.(counter := 1, client := None, transferCompleted := false, uri := SecureHere, life := Life(1, 0, 1, 0, []))
  {
    assert Resolve(Here, SecureHere) == SecureHere;
  }

  lemma SecureRedirected(s: PoolState)
    requires Carries(s, Started(false, 20, 0), true)
    ensures Enabled(s, Received(0, Secured))
    ensures OnConnection(s, 0, 0) && s.requests[0].uri.scheme == "http"
    ensures var d := Next(s, Received(0, Secured)); OnConnection(d, 0, 0) && d.requests[0].uri.scheme == "https"
  {
    HopsSecurely();
    var q := s.requests[0];
    var hop := Hop(q, SecureHere, Secured);
    FollowedIs(s, 0, Secured);
    FollowHereIs(s, 0, SecureHere, Secured);
    LetHopShape(s.clients[0], q, true);
    var went := LetHop(s.clients[0], q, true);
    assert went.connected;
    hide Hop, LetHop, FollowOn, AnalyzeOn;
    var t := LetGo(s, 0, went, 0, hop);
    assert Next(s, Received(0, Secured)) == Uncaught(StartOn(t, 0, 0));
    StartsSecurely(t, hop, went);
  }

  lemma StartsSecurely(s: PoolState, q: Request, cl: Client)
    requires 0 in s.clients && s.clients[0] == cl && 0 in s.requests && s.requests[0] == q
    requires cl.request.None? && cl.connected && cl.netloc == Place && NetLocOf(q) == Place
    requires q.client.None? && q.uri == SecureHere && q.settings == Plain(false, 20).settings
    ensures var e := Uncaught(StartOn(s, 0, 0)); OnConnection(e, 0, 0) && e.requests[0].uri == SecureHere
  {
    var q1 := q.(client := Some(0), uri := WithScheme(q.uri));
    assert q1 == q.(client := Some(0)) && NetLocOf(q1) == Place;
    assert !Reconnects(cl, q1);
    SentSame(q1, s.now);
    hide NetLocOf, Sent;
  }

  // ---------------------------------------------------------------- an early sweep

  const SweepRun: seq<Step> := Opening(false, 20) + [Received(0, Okay)] + [Swept]

  /** A connection that has just become free is dropped at once: the clock has not reached the idle timeout. */
  lemma SweptEarly()
    ensures Possible(NewPool(1000, 10), SweepRun)
    ensures var s := Run(NewPool(1000, 10), Opening(false, 20) + [Received(0, Okay)]);
      s.rows == map[Place := Row({0}, {}, [])] && 0 in s.clients && s.clients[0].lastActivity == s.now
    ensures Run(NewPool(1000, 10), SweepRun).rows == map[]
  {
    hide Carries, Next, Enabled, Started;
    Opened(false, 20);
    var steps := Opening(false, 20);
    var s := Run(NewPool(1000, 10), steps);
    Answered(s);
    RunOn(NewPool(1000, 10), steps, Received(0, Okay));
    SweptAway(Run(NewPool(1000, 10), steps + [Received(0, Okay)]));
    RunOn(NewPool(1000, 10), steps + [Received(0, Okay)], Swept);
  }

  ghost predicate JustFree(s: PoolState) {
    && s.alive && s.idleTimeout == 1000 && s.now == 0
    && s.rows == map[Place := Row({0}, {}, [])] && 0 in s.clients && s.clients[0].lastActivity == 0
  }

  lemma Answered(s: PoolState)
    requires Carries(s, Started(false, 20, 0), true)
    ensures Enabled(s, Received(0, Okay)) && JustFree(Next(s, Received(0, Okay)))
  {
    var q := s.requests[0];
    assert q.transferCompleted && VerdictOf(q, None) == Succeeded;
    assert AnalyzeOn(s, 0, Okay) == FinishOn(s, 0, None, true);
    var s1 := SetClient(s, 0, Let(s.clients[0], q, Succeeded, true, 0));
    LetShape(s.clients[0], q, Succeeded, true, 0);
    assert s1.clients[0].lastActivity == 0;
    hide AnalyzeOn, Let, Notify;
    assert Putback(s1, 0) == SetRow(s1, Place, Row({0}, {}, [])) by {
      assert {} + {0} == {0};
    }
  }

  lemma SweptAway(s: PoolState)
    requires JustFree(s)
    ensures Enabled(s, Swept) && Next(s, Swept).rows == map[]
  {
    assert RemoveTime(s) > 0 && Inactive(s, 0);
    assert SweepRow(s, s.rows[Place]).free == {};
  }

  // ---------------------------------------------------------------- hand-overs

  const Waiting: Request := Plain(false, 20)
  const Away := Message(301, true, Some(There), Follow(None), 0)

  /** A request, sent at once or in chunks, is redirected to another host while a second one waits. */
  function HandOver(chunked: bool): seq<Step> {
    [Create(0, Plain(chunked, 20))] + [Create(1, Waiting)] + [Submit(0, 0)] + [Submit(1, 0)] + [Connected(0)]
  }

  const WeakRun: seq<Step> := HandOver(false) + [Received(0, Away)]
  const DirtyHandOverRun: seq<Step> := HandOver(true) + [Received(0, Away)]

  lemma {:induction false} LegalOn(s: PoolState, steps: seq<Step>, step: Step)
    requires Legal(s, steps) && Possible(s, steps) && Enabled(Run(s, steps), step) && Safe(Run(s, steps), step)
    ensures Legal(s, steps + [step]) && Possible(s, steps + [step]) && Run(s, steps + [step]) == Next(Run(s, steps), step)
  {
    hide Enabled, Next, Safe;
    var all := steps + [step];
    assert all[..|all| - 1] == steps && all[|all| - 1] == step;
  }

  /** Two requests exist; neither is in progress. */
  ghost predicate TwoCreated(s: PoolState, chunked: bool) {
    s == NewPool(1000, 1).(requests := map[0 := Plain(chunked, 20), 1 := Waiting])
  }

  /** Request 0 is active, and request 1 exists or waits. */
  ghost predicate OneActive(s: PoolState, chunked: bool, queue: seq<nat>, connected: bool) {
    && s.alive && s.now == 0 && s.maxConnections == 1 && s.idleTimeout == 1000
    && s.rows == map[Place := Row({}, {0}, queue)]
    && s.clients.Keys == {0} && s.clients[0].pooled && s.clients[0].request == Some(0) && s.clients[0].netloc == Place
    && s.clients[0].connected == connected && s.clients[0].connecting == !connected
    && s.clients[0].carried == [Exchange(0, Place, false, false)]
    && s.requests.Keys == {0, 1} && s.requests[0] == Started(chunked, 20, 0)
    && (if queue == [] then s.requests[1] == Waiting else queue == [1] && s.requests[1].settings == Waiting.settings)
  }

  lemma FirstActive(s: PoolState, chunked: bool)
    requires TwoCreated(s, chunked)
    ensures Enabled(s, Submit(0, 0)) && Safe(s, Submit(0, 0)) && OneActive(Next(s, Submit(0, 0)), chunked, [], false)
  {
    PlainIsHere(chunked, 20);
    assert Submittable(s, 0);
    FirstLaunched(s, chunked);
    hide Next, OneActive, NetLocOf, Startable;
  }

  lemma FirstLaunched(s: PoolState, chunked: bool)
    requires TwoCreated(s, chunked)
    ensures OneActive(Next(s, Submit(0, 0)), chunked, [], false)
  {
    hide Startable;
    PlainIsHere(chunked, 20);
    var q := Plain(chunked, 20).(life := Life(1, 0, 0, 0, []), pooled := true);
    assert NetLocOf(q) == Place;
    var t := PoolState(true, false, 0, 1000, 1, map[], map[], map[0 := q, 1 := Waiting], 0, 1, []);
    assert Next(s, Submit(0, 0)) == Launch(Take(t, Place, 0), Place, 0, 0).0 by { hide Launch; }
    FirstStarted(Take(t, Place, 0), chunked, q);
    hide Launch, Next;
  }

  lemma FirstStarted(s: PoolState, chunked: bool, q: Request)
    requires s.alive && s.now == 0 && s.maxConnections == 1 && s.idleTimeout == 1000
    requires s.rows == map[Place := Row({}, {0}, [])] && s.clients == map[0 := NewClient]
    requires s.requests == map[0 := q, 1 := Waiting] && NetLocOf(q) == Place
    requires q == Plain(chunked, 20).(life := Life(1, 0, 0, 0, []), pooled := true)
    ensures OneActive(Launch(s, Place, 0, 0).0, chunked, [], false)
  {
  }

  lemma SecondWaits(s: PoolState, chunked: bool)
    requires OneActive(s, chunked, [], false)
    ensures Enabled(s, Submit(1, 0)) && Safe(s, Submit(1, 0)) && OneActive(Next(s, Submit(1, 0)), chunked, [1], false)
  {
    PlainIsHere(false, 20);
    assert Submittable(s, 1);
    var q := s.requests[1];
    var r := q.(life := q.life.(accepted := q.life.accepted + 1, acceptedAt := 0, hops := 0));
    assert NetLocOf(r) == Place;
    var t := SetRequest(s, 1, r.(pooled := true, life := r.life.(ticket := s.nextTicket))).(nextTicket := s.nextTicket + 1);
    assert |s.rows[Place].busy| == 1;
    assert Choose(t, Place, 0) == None;
    assert Next(s, Submit(1, 0)) == Enqueue(t, Place, 1);
    assert [] + [1] == [1];
  }

  lemma FirstConnects(s: PoolState, chunked: bool)
    requires OneActive(s, chunked, [1], false)
    ensures Enabled(s, Connected(0)) && Safe(s, Connected(0)) && OneActive(Next(s, Connected(0)), chunked, [1], true)
  {
  }

  lemma HopsAway(chunked: bool)
    ensures var q := Started(chunked, 20, 0);
      Follows(q, Away) && NetLocOf(Hop(q, There, Away)) == NetLoc("b", 80, None, None, true)
  {
    assert Resolve(Here, There) == There;
  }

  lemma FirstGoesAway(s: PoolState, chunked: bool)
    requires Inv(s) && OneActive(s, chunked, [1], true)
    ensures Enabled(s, Received(0, Away))
    ensures var d := Next(s, Received(0, Away)); 0 in d.clients && d.clients[0].request.Some? && d.clients[0].weak
  {
    HopsAway(chunked);
    hide Inv, NetLocOf, Hop, Follows, AnalyzeOn, Started;
    HandoverIsWeakIff(s, 0, Away);
  }

  lemma FirstLeavesDirt(s: PoolState)
    requires Inv(s) && OneActive(s, true, [1], true)
    ensures Enabled(s, Received(0, Away))
    ensures var d := Next(s, Received(0, Away)); 0 in d.clients && d.clients[0].request == Some(1) && !Clean(d.clients[0])
  {
    HopsAway(true);
    assert NextKeeps(s, Place);
    var q := s.requests[0];
    assert !q.transferCompleted;
    assert AllClean(s);
    hide Inv, NetLocOf, Hop, Follows, AnalyzeOn, Started, AllClean, NextKeeps, Clean;
    assert Dirties(s, 0, Away);
    HandOverCleanIff(s, 0, Away);
  }

  lemma TwoAreCreated(chunked: bool)
    ensures var s := NewPool(1000, 1);
      var steps := [Create(0, Plain(chunked, 20))] + [Create(1, Waiting)];
      Legal(s, steps) && Possible(s, steps) && TwoCreated(Run(s, steps), chunked)
  {
    var s := NewPool(1000, 1);
    var first := Create(0, Plain(chunked, 20));
    assert [] + [first] == [first];
    LegalOn(s, [], first);
    LegalOn(s, [first], Create(1, Waiting));
    assert map[0 := Plain(chunked, 20)][1 := Waiting] == map[0 := Plain(chunked, 20), 1 := Waiting];
  }

  lemma HandOverIs(chunked: bool)
    ensures var s := NewPool(1000, 1);
      Legal(s, HandOver(chunked)) && Possible(s, HandOver(chunked)) && OneActive(Run(s, HandOver(chunked)), chunked, [1], true)
  {
    hide OneActive, TwoCreated, Next, Enabled, Safe, Inv, Plain;
    var s := NewPool(1000, 1);
    var steps := [Create(0, Plain(chunked, 20))] + [Create(1, Waiting)];
    TwoAreCreated(chunked);
    FirstActive(Run(s, steps), chunked);
    LegalOn(s, steps, Submit(0, 0));
    steps := steps + [Submit(0, 0)];
    SecondWaits(Run(s, steps), chunked);
    LegalOn(s, steps, Submit(1, 0));
    steps := steps + [Submit(1, 0)];
    FirstConnects(Run(s, steps), chunked);
    LegalOn(s, steps, Connected(0));
  }

  /** A redirect to another host hands the connection over to the request that waits for it, and the client
      is weak although it works. */
  lemma WorksWeakly()
    ensures Possible(NewPool(1000, 1), WeakRun)
    ensures var s := Run(NewPool(1000, 1), WeakRun);
      0 in s.clients && s.clients[0].request.Some? && s.clients[0].weak
  {
    hide OneActive, Next, Enabled, Inv, HandOver, Legal;
    HandOverIs(false);
    RunKeeps(1000, 1, HandOver(false));
    FirstGoesAway(Run(NewPool(1000, 1), HandOver(false)), false);
    RunOn(NewPool(1000, 1), HandOver(false), Received(0, Away));
  }

  /** The same redirect of a request in chunks, whose last chunk is still to come: the request that waits
      follows it on the same connection. */
  lemma DirtyHandOver()
    ensures Possible(NewPool(1000, 1), DirtyHandOverRun)
    ensures var s := Run(NewPool(1000, 1), DirtyHandOverRun);
      0 in s.clients && s.clients[0].request == Some(1) && !Clean(s.clients[0])
  {
    hide OneActive, Next, Enabled, Inv, HandOver, Legal, Clean;
    HandOverIs(true);
    RunKeeps(1000, 1, HandOver(true));
    FirstLeavesDirt(Run(NewPool(1000, 1), HandOver(true)));
    RunOn(NewPool(1000, 1), HandOver(true), Received(0, Away));
  }
}

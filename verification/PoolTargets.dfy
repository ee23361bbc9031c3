/** Where requests go: the target of a request over its redirects, what its user is told, and the connections
    that requests share. */
module PoolTargets {
  import opened Options
  import opened Pooling
  import opened PoolInvariant
  import opened PoolSteps
  import opened PoolRequests
  import opened PoolRuns
  import opened PoolAccount
  import opened PoolPromises

  // ---------------------------------------------------------------- the target of a request

  /** The same target; a URI without a scheme may have got the scheme http. */
  ghost predicate Aimed(q: Request, p: Request) {
    && p.settings == q.settings && p.sslCtx == q.sslCtx && p.hasBody == q.hasBody
    && (p.uri == q.uri || (q.uri.scheme == "" && p.uri == Uri("http", q.uri.host, q.uri.givenPort)))
  }

  ghost predicate AllAimed(s: PoolState, d: PoolState) {
    forall r :: r in s.requests ==> r in d.requests && Aimed(s.requests[r], d.requests[r])
  }

  /** The same target, and nothing told: the place in the order of submissions may have changed. */
  ghost predicate Stays(q: Request, p: Request) {
    Aimed(q, p) && p.life == q.life.(ticket := p.life.ticket)
  }

  ghost predicate AllStay(s: PoolState, d: PoolState) {
    forall r :: r in s.requests ==> r in d.requests && Stays(s.requests[r], d.requests[r])
  }

  lemma AimedTwice(s: PoolState, t: PoolState, d: PoolState)
    requires AllAimed(s, t) && AllAimed(t, d)
    ensures AllAimed(s, d)
  {
  }

  lemma StayTwice(s: PoolState, t: PoolState, d: PoolState)
    requires AllStay(s, t) && AllStay(t, d)
    ensures AllStay(s, d)
  {
  }

  lemma StayIsAimed(s: PoolState, d: PoolState)
    requires AllStay(s, d)
    ensures AllAimed(s, d)
  {
  }

  lemma StayAlone(s: PoolState, d: PoolState)
    requires d.requests == s.requests
    ensures AllStay(s, d)
  {
  }

  lemma OneStays(s: PoolState, d: PoolState, r: nat)
    requires r in s.requests && r in d.requests && d.requests == s.requests[r := d.requests[r]]
    requires Stays(s.requests[r], d.requests[r])
    ensures AllStay(s, d)
  {
  }

  lemma OneAimed(s: PoolState, d: PoolState, r: nat)
    requires r in s.requests && r in d.requests && d.requests == s.requests[r := d.requests[r]]
    requires Aimed(s.requests[r], d.requests[r])
    ensures AllAimed(s, d)
  {
  }

  lemma ClaimedStays(q: Request, c: nat, now: nat)
    ensures Stays(q, q) && Stays(q, Claimed(q, c)) && Stays(q, Sent(Claimed(q, c), now))
  {
  }

  lemma StartStays(s: PoolState, c: nat, r: nat)
    requires c in s.clients && r in s.requests
    ensures AllStay(s, StartOn(s, c, r).0)
  {
    ClaimedStays(s.requests[r], c, s.now);
    hide Carrying, NetLocOf, Reconnects, Stays, Sent;
    OneStays(s, StartOn(s, c, r).0, r);
  }

  lemma LaunchStays(s: PoolState, k: NetLoc, c: nat, r: nat)
    requires c in s.clients && r in s.requests
    ensures AllStay(s, Launch(s, k, c, r).0)
  {
    hide StartOn, Stays;
    StartStays(Logged(s, k, r), c, r);
  }

  lemma PutbackStays(s: PoolState, c: nat)
    requires c in s.clients
    ensures AllStay(s, Putback(s, c))
  {
    hide Launch;
    var k := s.clients[c].netloc;
    if k in s.rows && s.rows[k].queue != [] && s.rows[k].queue[0] in s.requests {
      hide Stays;
      LaunchStays(Popped(s, k), k, c, s.rows[k].queue[0]);
    }
  }

  lemma EnqueueStays(s: PoolState, k: NetLoc, r: nat)
    requires k in s.rows && r in s.requests
    ensures AllStay(s, Enqueue(s, k, r))
  {
    ArmSame(s.requests[r], s.now);
    hide Arm;
    OneStays(s, Enqueue(s, k, r), r);
  }

  lemma PoolRequestStays(s: PoolState, r: nat, pick: nat)
    requires r in s.requests
    ensures AllStay(s, PoolRequest(s, r, pick).0)
  {
    StayAlone(s, s);
    hide NetLocOf, Launch, Take, Enqueue, Pickable, Choose, Stays;
    var k := NetLocOf(s.requests[r]);
    if s.requests[r].uri.host != "" && Pickable(s, k, pick) {
      var t := Ticketed(s, r);
      TicketedStays(s, r);
      TicketedSame(s, r, k, pick);
      TakeIsNothingElse(t, k, pick);
      RequestIs(s, r, pick, k);
      hide PoolRequest, AllStay;
      var c := Choose(t, k, pick);
      if c.Some? {
        StayAlone(t, Take(t, k, pick));
        LaunchStays(Take(t, k, pick), k, c.value, r);
        StayTwice(t, Take(t, k, pick), PoolRequest(s, r, pick).0);
      } else {
        EnqueueStays(t, k, r);
      }
      StayTwice(s, t, PoolRequest(s, r, pick).0);
    }
  }

  lemma TicketedStays(s: PoolState, r: nat)
    requires r in s.requests
    ensures AllStay(s, Ticketed(s, r))
  {
    OneStays(s, Ticketed(s, r), r);
  }

  lemma NotifyAimed(q: Request, v: Verdict)
    ensures Aimed(q, Notify(q, v)) && Aimed(q, q)
  {
  }

  lemma FinishAimed(s: PoolState, c: nat, e: Option<Error>, keepAlive: bool)
    requires Active(s, c)
    ensures AllAimed(s, FinishOn(s, c, e, keepAlive))
  {
    hide Let, Notify, VerdictOf, Putback, Stays, Aimed;
    var cl := s.clients[c];
    var r := cl.request.value;
    var v := VerdictOf(s.requests[r], e);
    var s1 := SetClient(s, c, Let(cl, s.requests[r], v, keepAlive, s.now));
    var s2 := if cl.pooled then Putback(s1, c) else s1;
    if cl.pooled { PutbackStays(s1, c); } else { StayAlone(s1, s2); }
    StayIsAimed(s1, s2);
    assert AllAimed(s, s2);
    if r in s2.requests {
      var d := SetRequest(s2, r, Notify(s2.requests[r], v));
      NotifyAimed(s2.requests[r], v);
      OneAimed(s2, d, r);
      AimedTwice(s, s2, d);
    }
  }

  lemma CancelAimed(s: PoolState, r: nat, e: Error)
    requires r in s.requests
    ensures AllAimed(s, CancelRequest(s, r, e))
  {
    StayAlone(s, s);
    StayIsAimed(s, s);
    hide NetLocOf, FinishOn, Notify, Aimed, Stays, Find;
    var q := s.requests[r];
    if q.client.Some? {
      if Active(s, q.client.value) { FinishAimed(s, q.client.value, Some(e), false); }
    } else if q.pooled {
      NotifyAimed(q, Failed(e));
      var d := CancelQueued(s, r, e);
      if d.requests != s.requests { OneAimed(s, d, r); } else { StayAlone(s, d); StayIsAimed(s, d); }
    }
  }

  lemma ExpireAimed(s: PoolState, r: nat)
    requires r in s.requests && s.requests[r].timer.Some?
    ensures AllAimed(s, Expire(s, r))
  {
    hide CancelRequest;
    var q := s.requests[r];
    var s1 := SetRequest(s, r, q.(timer := Some(q.timer.value.(active := false))));
    OneAimed(s, s1, r);
    var e := if q.client.Some? && q.client.value in s.clients && s.clients[q.client.value].connecting
             then ConnectTimedOut else TimedOut;
    CancelAimed(s1, r, e);
    AimedTwice(s, s1, CancelRequest(s1, r, e));
  }

  lemma DestroyAimed(s: PoolState)
    ensures AllAimed(s, Destroy(s))
  {
    hide Notify, InQueue, InBusy, Aimed;
    forall r | r in s.requests ensures Aimed(s.requests[r], Destroy(s).requests[r]) {
      NotifyAimed(s.requests[r], Failed(OperationCanceled));
    }
  }

  lemma SubmitAimed(s: PoolState, r: nat, pick: nat)
    requires r in s.requests
    ensures AllAimed(s, SubmitTo(s, r, pick).0)
  {
    hide PoolRequest, Stays;
    var q := s.requests[r];
    if q.uri.host != "" {
      var t := SetRequest(s, r, q.(life := q.life.(accepted := q.life.accepted + 1, acceptedAt := s.now, hops := 0)));
      OneAimed(s, t, r);
      PoolRequestStays(t, r, pick);
      StayIsAimed(t, PoolRequest(t, r, pick).0);
      AimedTwice(s, t, PoolRequest(t, r, pick).0);
    }
  }

  /** The redirect is within the limit of the request and says where to go. */
  predicate Redirectable(q: Request, m: Message) {
    && q.settings.followRedirect && m.code in {300, 301, 302, 303, 307, 308} && m.location.Some?
    && q.settings.redirectionLimit > 0
    && (q.settings.redirectionLimit == 0xFFFF || q.life.hops < q.settings.redirectionLimit)
  }

  lemma RedirectableIs(q: Request, m: Message)
    requires LiveOk(q)
    ensures Redirectable(q, m) <==>
      && m.code != 100 && q.settings.followRedirect && IsRedirect(m.code) && m.location.Some?
      && q.settings.redirectionLimit != 0 && Increment(q.counter) <= q.settings.redirectionLimit
  {
  }

  /** The request with its new target. */
  function Turned(q: Request, m: Message): Request
    requires m.location.Some?
  {
    if m.callback.Follow? then Hop(q, m.location.value, m) else Redirected(q, m.location.value)
  }

  lemma FollowStays(s: PoolState, c: nat, m: Message)
    requires Active(s, c) && m.location.Some? && m.callback.Follow?
    ensures var r := s.clients[c].request.value;
      AllStay(SetRequest(s, r, Hop(s.requests[r], m.location.value, m)), FollowOn(s, c, m.location.value, m))
  {
    hide LetHop, Hop, Putback, PoolRequest, StartOn, NetLocOf, Stays;
    var location := m.location.value;
    var cl := s.clients[c];
    var r := cl.request.value;
    var q := s.requests[r];
    var s0 := SetRequest(s, r, Hop(q, location, m));
    if cl.pooled && ElsewhereThan(NetLocOf(Hop(q, location, m)), cl.netloc) {
      FollowAwayIs(s, c, location, m);
      var s1 := LetGo(s, c, LetHop(cl, q, m.keepAlive).(lastActivity := s.now), r, Hop(q, location, m));
      PutbackStays(s1, c);
      var s2 := PutBackForHop(s, c, location, m);
      assert AllStay(s0, s2);
      if c in s2.clients && r in s2.requests {
        var s3 := SetClient(s2, c, s2.clients[c].(weak := true));
        PoolRequestStays(s3, r, m.pick);
        StayTwice(s0, s2, PoolRequest(s3, r, m.pick).0);
      }
    } else {
      FollowHereIs(s, c, location, m);
      StartStays(LetGo(s, c, LetHop(cl, q, m.keepAlive), r, Hop(q, location, m)), c, r);
    }
  }

  /** What a response does to targets. */
  lemma AnalyzeAimed(s: PoolState, c: nat, m: Message)
    requires Active(s, c) && LiveOk(s.requests[s.clients[c].request.value])
    ensures var r := s.clients[c].request.value;
      var q := s.requests[r];
      AllAimed(if Redirectable(q, m) then SetRequest(s, r, Turned(q, m)) else s, AnalyzeOn(s, c, m))
  {
    var r := s.clients[c].request.value;
    var q := s.requests[r];
    RedirectableIs(q, m);
    StayAlone(s, s);
    StayIsAimed(s, s);
    hide FinishOn, FollowOn, AllAimed, AllStay, LiveOk, Redirectable, Hop;
    if m.code == 100 {
    } else if !(q.settings.followRedirect && IsRedirect(m.code)) {
      FinishAimed(s, c, None, m.keepAlive);
    } else if q.settings.redirectionLimit == 0 {
      FinishAimed(s, c, Some(UnexpectedRedirect), false);
    } else if Increment(q.counter) > q.settings.redirectionLimit {
      CountedAimed(s, c, RedirectionLimit);
    } else if m.location.None? {
      CountedAimed(s, c, NoRedirectUri);
    } else if m.callback.CancelInside? {
      FinishAimed(SetRequest(s, r, Redirected(q, m.location.value)), c, Some(m.callback.error), false);
    } else {
      FollowStays(s, c, m);
      StayIsAimed(SetRequest(s, r, Hop(q, m.location.value, m)), FollowOn(s, c, m.location.value, m));
    }
  }

  lemma CountedAimed(s: PoolState, c: nat, e: Error)
    requires Active(s, c)
    ensures var r := s.clients[c].request.value;
      var q := s.requests[r];
      AllAimed(s, CancelOn(SetRequest(s, r, q.(counter := Increment(q.counter))), c, e))
  {
    hide FinishOn;
    var r := s.clients[c].request.value;
    var q := s.requests[r];
    var t := SetRequest(s, r, q.(counter := Increment(q.counter)));
    OneAimed(s, t, r);
    FinishAimed(t, c, Some(e), false);
    AimedTwice(s, t, CancelOn(t, c, e));
  }

  /** The target of a request, its settings and its body stay over every step but a redirect of this request
      within its limit; a URI without a scheme may get the scheme http. */
  lemma TargetStays(s: PoolState, step: Step, r: nat)
    requires Inv(s) && Enabled(s, step) && r in s.requests
    requires !(step.Received? && s.clients[step.c].request == Some(r) && Redirectable(s.requests[r], step.message))
    ensures var q := s.requests[r];
      var d := Next(s, step);
      && r in d.requests
      && var p := d.requests[r];
         && p.settings == q.settings && p.sslCtx == q.sslCtx && p.hasBody == q.hasBody
         && (p.uri == q.uri || (q.uri.scheme == "" && p.uri == Uri("http", q.uri.host, q.uri.givenPort)))
  {
    hide Inv, Next, Enabled, Redirectable;
    OneRequestAimed(s, step, r);
  }

  lemma OneRequestAimed(s: PoolState, step: Step, r: nat)
    requires Inv(s) && Enabled(s, step) && r in s.requests
    requires !(step.Received? && s.clients[step.c].request == Some(r) && Redirectable(s.requests[r], step.message))
    ensures r in Next(s, step).requests && Aimed(s.requests[r], Next(s, step).requests[r])
  {
    if step.Received? {
      ResponseAimed(s, step.c, step.message, r);
    } else {
      hide Inv, Next, Aimed, Enabled;
      OtherAimed(s, step);
    }
  }

  lemma ResponseAimed(s: PoolState, c: nat, m: Message, r: nat)
    requires Inv(s) && Enabled(s, Received(c, m)) && r in s.requests
    requires !(s.clients[c].request == Some(r) && Redirectable(s.requests[r], m))
    ensures r in AnalyzeOn(s, c, m).requests && Aimed(s.requests[r], AnalyzeOn(s, c, m).requests[r])
  {
    hide Pickable, NetLocOf, Hop, LiveOk, Startable, Redirectable, Turned, Aimed, AnalyzeOn;
    ActiveIs(s, c);
    hide Inv;
    AnalyzeAimed(s, c, m);
  }

  lemma OtherAimed(s: PoolState, step: Step)
    requires Enabled(s, step) && !step.Received?
    ensures AllAimed(s, Next(s, step))
  {
    StayAlone(s, s);
    StayIsAimed(s, s);
    hide CancelRequest, Expire, FinishOn, SubmitTo, Fresh, Pickable, NetLocOf, Aimed, Stays, AllStay, Destroy, Sweep;
    match step
    case Create(x, q) =>
    case Submit(x, pick) => SubmitAimed(s, x, pick);
    case Cancel(x, e) => CancelAimed(s, x, e);
    case TransferDone(x) => TransferAimed(s, x);
    case TimerFires(x) => ExpireAimed(s, x);
    case Connected(c) =>
    case Disturbed(c, e) => FinishAimed(s, c, Some(e), false);
    case Unexpected(c) =>
    case Swept => assert Sweep(s).requests == s.requests by { SweepOnlyRows(s); }
    case Destroyed => DestroyAimed(s);
    case Tick(now) =>
  }

  lemma TransferAimed(s: PoolState, r: nat)
    requires r in s.requests
    ensures AllAimed(s, FinalChunk(s, r).0)
  {
  }

  lemma SweepOnlyRows(s: PoolState)
    ensures Sweep(s).requests == s.requests && Sweep(s).clients == s.clients && Sweep(s).now == s.now
  {
  }

  /** The target of a redirect within the limit: the scheme of the location if it has one, otherwise the
      previous one; if the location has a host, its host and port, otherwise the previous host and the port
      that the previous URI gave, if any. A location without all three goes to the previous place. The SSL
      context is the one that the callback has set, if any, and a body is lost exactly by a 303. */
  lemma RedirectGoesTo(s: PoolState, c: nat, m: Message)
    requires Inv(s) && Enabled(s, Received(c, m)) && Redirectable(s.requests[s.clients[c].request.value], m)
    ensures var r := s.clients[c].request.value;
      var q := s.requests[r];
      var location := m.location.value;
      var d := Next(s, Received(c, m));
      && r in d.requests
      && var p := d.requests[r];
         && p.settings == q.settings
         && p.uri.scheme == (if location.scheme != "" then location.scheme else q.uri.scheme)
         && (location.host != "" ==> p.uri.host == location.host && p.uri.givenPort == location.givenPort)
         && (location.host == "" ==> p.uri.host == q.uri.host)
         && (location.host == "" && q.uri.givenPort > 0 ==> p.uri.givenPort == q.uri.givenPort)
         && (location.host == "" && q.uri.givenPort == 0 ==> p.uri.givenPort == location.givenPort)
         && (location == Uri("", "", 0) ==> p.uri == q.uri)
         && p.sslCtx == (if m.callback.Follow? then m.callback.sslCtx else None)
         && (p.hasBody <==> q.hasBody && !(m.callback.Follow? && m.code == 303))
         && (m.callback.Follow? ==> p.life == q.life.(hops := q.life.hops + 1, ticket := p.life.ticket))
  {
    ActiveIs(s, c);
    var r := s.clients[c].request.value;
    var q := s.requests[r];
    RedirectableIs(q, m);
    TurnedGoesTo(q, m);
    hide Inv, Startable, LiveOk, NetLocOf, Redirectable, Turned, Pickable, Hop, Redirected;
    AnalyzeAimed(s, c, m);
    hide AnalyzeOn;
    if m.callback.Follow? { FollowedStays(s, c, m); }
  }

  lemma FollowedStays(s: PoolState, c: nat, m: Message)
    requires Inv(s) && Active(s, c) && Redirectable(s.requests[s.clients[c].request.value], m) && m.callback.Follow?
    ensures var r := s.clients[c].request.value;
      AllStay(SetRequest(s, r, Turned(s.requests[r], m)), AnalyzeOn(s, c, m))
  {
    ActiveIs(s, c);
    RedirectableIs(s.requests[s.clients[c].request.value], m);
    hide Inv, FollowOn, LiveOk, Startable, NetLocOf, Redirectable, AllStay, CancelOn, FinishOn;
    FollowStays(s, c, m);
  }

  lemma TurnedGoesTo(q: Request, m: Message)
    requires q.uri.scheme != "" && m.location.Some?
    ensures var p := Turned(q, m);
      var location := m.location.value;
      && p.settings == q.settings
      && p.uri.scheme == (if location.scheme != "" then location.scheme else q.uri.scheme)
      && (location.host != "" ==> p.uri.host == location.host && p.uri.givenPort == location.givenPort)
      && (location.host == "" ==> p.uri.host == q.uri.host)
      && (location.host == "" && q.uri.givenPort > 0 ==> p.uri.givenPort == q.uri.givenPort)
      && (location.host == "" && q.uri.givenPort == 0 ==> p.uri.givenPort == location.givenPort)
      && p.sslCtx == (if m.callback.Follow? then m.callback.sslCtx else None)
      && (p.hasBody <==> q.hasBody && !(m.callback.Follow? && m.code == 303))
      && (m.callback.Follow? ==> p.life == q.life.(hops := q.life.hops + 1))
  {
  }

  // ---------------------------------------------------------------- what users are told

  /** What a whole response tells the user of its request: nothing after a response 100 and after a redirect
      that is followed, otherwise one verdict, which is a success exactly if the response is not a redirect to
      be followed and the request has been sent completely. */
  lemma ResponseTells(s: PoolState, c: nat, m: Message)
    requires Inv(s) && Enabled(s, Received(c, m))
    ensures var r := s.clients[c].request.value;
      var q := s.requests[r];
      var d := Next(s, Received(c, m));
      && r in d.requests
      && d.requests[r].life.verdicts == q.life.verdicts +
           if m.code == 100 || (Redirectable(q, m) && m.callback.Follow?) then []
           else if !q.settings.followRedirect || m.code !in {300, 301, 302, 303, 307, 308} then
             [if q.transferCompleted then Succeeded else Failed(TransferAborted)]
           else if q.settings.redirectionLimit == 0 then [Failed(UnexpectedRedirect)]
           else if q.settings.redirectionLimit < 0xFFFF && q.life.hops == q.settings.redirectionLimit then [Failed(RedirectionLimit)]
           else if m.location.None? then [Failed(NoRedirectUri)]
           else [Failed(m.callback.error)]
  {
    var r := s.clients[c].request.value;
    var q := s.requests[r];
    ActiveIs(s, c);
    RedirectableIs(q, m);
    if Redirectable(q, m) && m.callback.Follow? {
      hide Inv, AllAimed, Redirectable, LiveOk, Startable, NetLocOf, AnalyzeOn, Pickable;
      FollowedStays(s, c, m);
    } else if q.settings.followRedirect && IsRedirect(m.code) && m.code != 100 {
      LimitIs(q);
      hide Inv, LiveOk, Startable, NetLocOf, AnalyzeOn, Pickable, Live;
      RefusedIsTold(s, c, m);
    } else {
      hide Inv, LiveOk, Startable, NetLocOf, AnalyzeOn, Pickable, Live;
      PlainTells(s, c, m);
    }
  }

  lemma PlainTells(s: PoolState, c: nat, m: Message)
    requires Inv(s) && Active(s, c)
    requires var q := s.requests[s.clients[c].request.value]; m.code == 100 || !(q.settings.followRedirect && IsRedirect(m.code))
    ensures var r := s.clients[c].request.value;
      var q := s.requests[r];
      var d := AnalyzeOn(s, c, m);
      && r in d.requests
      && d.requests[r].life.verdicts == q.life.verdicts +
           if m.code == 100 then [] else [if q.transferCompleted then Succeeded else Failed(TransferAborted)]
  {
    hide Inv, FinishOn, Live;
    var q := s.requests[s.clients[c].request.value];
    if m.code != 100 { FinishSettles(s, c, q, None, m.keepAlive); }
    assert SetRequest(s, s.clients[c].request.value, q) == s;
  }

  lemma LimitIs(q: Request)
    requires LiveOk(q)
    ensures q.settings.redirectionLimit != 0 && q.settings.redirectionLimit < 0xFFFF ==>
      (Increment(q.counter) > q.settings.redirectionLimit <==> q.life.hops == q.settings.redirectionLimit)
    ensures q.settings.redirectionLimit == 0xFFFF ==> Increment(q.counter) <= q.settings.redirectionLimit
  {
  }

  /** Destroying the pool cancels the waiting requests; the active ones stay on their clients, which no longer
      belong to a pool. */
  lemma DestroyTells(s: PoolState, r: nat)
    requires Inv(s) && r in s.requests
    ensures var q := s.requests[r];
      var d := Destroy(s);
      && r in d.requests && d.rows == map[]
      && (Queued(s, r) ==> d.requests[r].life.verdicts == q.life.verdicts + [Failed(OperationCanceled)] && !Live(d, r))
      && (!Queued(s, r) ==> d.requests[r] == q)
      && (q.client.Some? ==>
            && q.client.value in d.clients && d.clients[q.client.value] == s.clients[q.client.value].(pooled := false)
            && d.clients[q.client.value].request == Some(r))
  {
    hide RequestsOk, PlacesOk, OrderOk, Notify, InBusy, InQueue, Queued, RowsOk, NetLocOf;
    InQueueIff(s, r);
    NotifySame(s.requests[r], Failed(OperationCanceled));
    NotifyLeaves(s.requests[r], Failed(OperationCanceled));
    NotQueued(Destroy(s), r);
    if s.requests[r].client.Some? { InBusyIff(s, s.requests[r].client.value); }
  }

  lemma NotQueued(s: PoolState, r: nat)
    requires r in s.requests && s.rows == map[]
    ensures !Queued(s, r)
  {
  }

  // ---------------------------------------------------------------- destinations

  /** What the destinations of two requests have in common. If neither goes through an HTTP proxy, they are
      equal exactly if the host, the port, the SSL context, the proxy and the check of certificates are. */
  lemma SameDestinationIff(q: Request, p: Request)
    ensures !HttpProxied(q) && !HttpProxied(p) ==>
      (NetLocOf(q) == NetLocOf(p) <==>
        && q.uri.host == p.uri.host && Port(q.uri) == Port(p.uri) && q.sslCtx == p.sslCtx
        && q.settings.proxy == p.settings.proxy && q.settings.checkCert == p.settings.checkCert)
    ensures HttpProxied(q) && HttpProxied(p) ==>
      (NetLocOf(q) == NetLocOf(p) <==>
        && q.settings.proxy.value.host == p.settings.proxy.value.host
        && q.settings.proxy.value.port == p.settings.proxy.value.port)
    ensures HttpProxied(q) && !HttpProxied(p) ==>
      (NetLocOf(q) == NetLocOf(p) <==>
        && p.uri.host == q.settings.proxy.value.host && Port(p.uri) == q.settings.proxy.value.port
        && p.sslCtx.None? && p.settings.proxy.None? && !p.settings.checkCert)
  {
  }
}

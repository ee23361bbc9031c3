/** Connections are reused only after whole exchanges. */
module PoolReuse {
  import opened Options
  import opened Pooling
  import opened PoolInvariant
  import opened PoolSteps
  import opened PoolRequests
  import opened PoolRuns
  import opened PoolPromises

  /** The request was sent completely, its response arrived without an error, and both sides agreed to
      keep the connection. */
  predicate Whole(e: Exchange) { e.sent && e.kept }

  predicate AllWhole(carried: seq<Exchange>) {
    forall i :: 0 <= i < |carried| ==> Whole(carried[i])
  }

  /** A connection carries requests to its own destination, and only whole exchanges before the last;
      an idle one carries whole exchanges only. */
  predicate Clean(cl: Client) {
    && (forall i :: 0 <= i < |cl.carried| ==> cl.carried[i].dest == cl.netloc)
    && match cl.request
       case None => AllWhole(cl.carried)
       case Some(r) =>
         && cl.carried != []
         && cl.carried[|cl.carried| - 1].request == r
         && AllWhole(cl.carried[..|cl.carried| - 1])
  }

  ghost predicate AllClean(s: PoolState) {
    forall c :: c in s.clients ==> Clean(s.clients[c])
  }

  lemma CarryingIsClean(cl: Client, q: Request, r: nat)
    requires Clean(cl) && cl.request.None?
    ensures Clean(Carrying(cl, q, r))
  {
    hide NetLocOf;
    var d := Carrying(cl, q, r);
    var on := if Reconnects(cl, q) then Drop(cl).(netloc := NetLocOf(q), connecting := true) else cl;
    assert d.carried[..|d.carried| - 1] == on.carried;
  }

  lemma StartClean(s: PoolState, c: nat, r: nat)
    requires AllClean(s) && c in s.clients && r in s.requests
    ensures AllClean(StartOn(s, c, r).0)
  {
    hide Sent, NetLocOf, Carrying;
    var q1 := Claimed(s.requests[r], c);
    if s.clients[c].request.None? { CarryingIsClean(s.clients[c], q1, r); }
  }

  lemma LaunchClean(s: PoolState, k: NetLoc, c: nat, r: nat)
    requires AllClean(s) && c in s.clients && r in s.requests
    ensures AllClean(Launch(s, k, c, r).0)
  {
    hide StartOn, Clean;
    StartClean(Logged(s, k, r), c, r);
  }

  lemma PutbackClean(s: PoolState, c: nat)
    requires AllClean(s) && c in s.clients
    ensures AllClean(Putback(s, c))
  {
    hide Launch, Clean;
    var k := s.clients[c].netloc;
    if k in s.rows && s.rows[k].queue != [] && s.rows[k].queue[0] in s.requests {
      LaunchClean(Popped(s, k), k, c, s.rows[k].queue[0]);
    }
  }

  lemma TakeClean(s: PoolState, k: NetLoc, pick: nat)
    requires AllClean(s)
    ensures AllClean(Take(s, k, pick))
  {
    assert Clean(NewClient);
    hide Clean;
  }

  lemma PoolRequestClean(s: PoolState, r: nat, pick: nat)
    requires AllClean(s) && r in s.requests
    ensures AllClean(PoolRequest(s, r, pick).0)
  {
    hide Launch, Take, Clean, NetLocOf, Pickable, Arm;
    var k := NetLocOf(s.requests[r]);
    if s.requests[r].uri.host != "" && Pickable(s, k, pick) && Choose(s, k, pick).Some? {
      var t := Ticketed(s, r);
      TicketedSame(s, r, k, pick);
      ChosenExists(t, k, pick);
      TakeIsNothingElse(t, k, pick);
      TakeClean(t, k, pick);
      LaunchClean(Take(t, k, pick), k, Choose(s, k, pick).value, r);
    }
  }

  lemma MarkedIsClean(cl: Client)
    requires Clean(cl) && cl.request.Some?
    ensures Clean(Mark(cl, true, true).(request := None))
  {
    var d := Mark(cl, true, true);
    forall i | 0 <= i < |d.carried| ensures Whole(d.carried[i]) {
      if i < |cl.carried| - 1 { assert d.carried[i] == cl.carried[..|cl.carried| - 1][i]; }
    }
  }

  /** A verdict of success means that the request has been sent completely. */
  lemma LetIsClean(cl: Client, q: Request, e: Option<Error>, keepAlive: bool, now: nat)
    requires Clean(cl) && cl.request.Some?
    ensures Clean(Let(cl, q, VerdictOf(q, e), keepAlive, now))
  {
    var v := VerdictOf(q, e);
    var kept := keepAlive && q.settings.keepAlive;
    MarkedIsClean(cl);
    MarkPlace(cl, q.transferCompleted, kept);
    assert v.Succeeded? ==> q.transferCompleted;
    hide Mark, VerdictOf;
    assert Let(cl, q, v, keepAlive, now).carried ==
      (if v.Succeeded? && kept then Mark(cl, q.transferCompleted, kept) else Drop(cl)).carried;
  }

  lemma MarkPlace(cl: Client, sent: bool, kept: bool)
    ensures var d := Mark(cl, sent, kept); d.netloc == cl.netloc && d.pooled == cl.pooled && d.request == cl.request
  {
  }

  lemma FinishClean(s: PoolState, c: nat, e: Option<Error>, keepAlive: bool)
    requires AllClean(s) && Active(s, c)
    ensures AllClean(FinishOn(s, c, e, keepAlive))
  {
    hide Let, Notify, VerdictOf, Putback, Clean;
    var cl := s.clients[c];
    var q := s.requests[cl.request.value];
    LetIsClean(cl, q, e, keepAlive, s.now);
    var s1 := SetClient(s, c, Let(cl, q, VerdictOf(q, e), keepAlive, s.now));
    if cl.pooled { PutbackClean(s1, c); }
  }

  lemma CancelClean(s: PoolState, c: nat, q: Request, e: Error)
    requires AllClean(s) && Active(s, c)
    ensures AllClean(CancelOn(SetRequest(s, s.clients[c].request.value, q), c, e))
  {
    hide FinishOn, Clean;
    FinishClean(SetRequest(s, s.clients[c].request.value, q), c, Some(e), false);
  }

  /** A redirect leaves the connection open only after a whole exchange. */
  predicate Polite(s: PoolState, step: Step) {
    step.Received? && Active(s, step.c) ==>
      var q := s.requests[s.clients[step.c].request.value];
      Follows(q, step.message) && step.message.keepAlive ==> q.transferCompleted && q.settings.keepAlive
  }

  lemma LetHopIsClean(cl: Client, q: Request, keepAlive: bool)
    requires Clean(cl) && cl.request.Some? && (keepAlive ==> q.transferCompleted && q.settings.keepAlive)
    ensures Clean(LetHop(cl, q, keepAlive))
  {
    if keepAlive { MarkedIsClean(cl); }
  }

  lemma FollowClean(s: PoolState, c: nat, location: Uri, m: Message)
    requires AllClean(s) && Active(s, c) && m.callback.Follow?
    requires var q := s.requests[s.clients[c].request.value];
      m.keepAlive ==> q.transferCompleted && q.settings.keepAlive
    ensures AllClean(FollowOn(s, c, location, m))
  {
    hide Clean, LetHop, Hop, Putback, PoolRequest, StartOn, NetLocOf;
    var cl := s.clients[c];
    var r := cl.request.value;
    var q := s.requests[r];
    LetHopIsClean(cl, q, m.keepAlive);
    var went := LetHop(cl, q, m.keepAlive);
    SameCarried(went, went.(lastActivity := s.now));
    if cl.pooled && ElsewhereThan(NetLocOf(Hop(q, location, m)), cl.netloc) {
      FollowAwayIs(s, c, location, m);
      PutbackClean(LetGo(s, c, went.(lastActivity := s.now), r, Hop(q, location, m)), c);
      var t := PutBackForHop(s, c, location, m);
      if c in t.clients && r in t.requests {
        SameCarried(t.clients[c], t.clients[c].(weak := true));
        PoolRequestClean(SetClient(t, c, t.clients[c].(weak := true)), r, m.pick);
      }
    } else {
      FollowHereIs(s, c, location, m);
      StartClean(LetGo(s, c, went, r, Hop(q, location, m)), c, r);
    }
  }

  lemma SameCarried(cl: Client, d: Client)
    requires d.carried == cl.carried && d.request == cl.request && d.netloc == cl.netloc
    ensures Clean(d) == Clean(cl)
  {
  }

  lemma AnalyzeClean(s: PoolState, c: nat, m: Message)
    requires AllClean(s) && Active(s, c) && Polite(s, Received(c, m))
    ensures AllClean(AnalyzeOn(s, c, m))
  {
    var r := s.clients[c].request.value;
    var q := s.requests[r];
    hide AllClean, FinishOn, FollowOn;
    if m.code == 100 {
    } else if !(q.settings.followRedirect && IsRedirect(m.code)) {
      FinishClean(s, c, None, m.keepAlive);
    } else if q.settings.redirectionLimit == 0 {
      FinishClean(s, c, Some(UnexpectedRedirect), false);
    } else if Increment(q.counter) > q.settings.redirectionLimit {
      CancelClean(s, c, q.(counter := Increment(q.counter)), RedirectionLimit);
    } else if m.location.None? {
      CancelClean(s, c, q.(counter := Increment(q.counter)), NoRedirectUri);
    } else if m.callback.CancelInside? {
      CancelClean(s, c, Redirected(q, m.location.value), m.callback.error);
    } else {
      FollowClean(s, c, m.location.value, m);
    }
  }

  lemma CancelRequestClean(s: PoolState, r: nat, e: Error)
    requires AllClean(s) && r in s.requests
    ensures AllClean(CancelRequest(s, r, e))
  {
    hide FinishOn, Clean, NetLocOf, Notify;
    var q := s.requests[r];
    if q.client.Some? && Active(s, q.client.value) { FinishClean(s, q.client.value, Some(e), false); }
  }

  lemma DestroyClean(s: PoolState)
    requires AllClean(s)
    ensures AllClean(Destroy(s))
  {
    hide Notify, InQueue, InBusy, Clean;
    forall c | c in s.clients ensures Clean(s.clients[c].(pooled := false)) {
      SameCarried(s.clients[c], s.clients[c].(pooled := false));
    }
  }

  lemma DropIsClean(cl: Client)
    requires cl.request.None?
    ensures Clean(Drop(cl))
  {
  }

  lemma ExpireClean(s: PoolState, r: nat)
    requires AllClean(s) && r in s.requests && s.requests[r].timer.Some?
    ensures AllClean(Expire(s, r))
  {
    hide CancelRequest, Clean;
    var q := s.requests[r];
    var s1 := SetRequest(s, r, q.(timer := Some(q.timer.value.(active := false))));
    var e := if q.client.Some? && q.client.value in s.clients && s.clients[q.client.value].connecting
             then ConnectTimedOut else TimedOut;
    CancelRequestClean(s1, r, e);
  }

  lemma SubmitClean(s: PoolState, r: nat, pick: nat)
    requires AllClean(s) && r in s.requests
    ensures AllClean(SubmitTo(s, r, pick).0)
  {
    hide PoolRequest, Clean;
    var q := s.requests[r];
    if q.uri.host != "" {
      PoolRequestClean(SetRequest(s, r, q.(life := q.life.(accepted := q.life.accepted + 1, acceptedAt := s.now, hops := 0))), r, pick);
    }
  }

  lemma StepClean(s: PoolState, step: Step)
    requires AllClean(s) && Enabled(s, step) && Polite(s, step)
    ensures AllClean(Next(s, step))
  {
    hide CancelRequest, Expire, AnalyzeOn, FinishOn, SubmitTo, Fresh, Pickable, NetLocOf, Clean, Destroy;
    match step
    case Create(r, q) =>
    case Submit(r, pick) => SubmitClean(s, r, pick);
    case Cancel(r, e) => CancelRequestClean(s, r, e);
    case TransferDone(r) =>
    case TimerFires(r) => ExpireClean(s, r);
    case Connected(c) => SameCarried(s.clients[c], s.clients[c].(connected := true, connecting := false));
    case Disturbed(c, e) => FinishClean(s, c, Some(e), false);
    case Received(c, m) => AnalyzeClean(s, c, m);
    case Unexpected(c) => DropIsClean(s.clients[c]);
    case Swept =>
    case Destroyed => DestroyClean(s);
    case Tick(now) =>
  }

  ghost predicate AllPolite(s: PoolState, steps: seq<Step>) {
    if steps == [] then true
    else AllPolite(s, steps[..|steps| - 1]) && Polite(Run(s, steps[..|steps| - 1]), steps[|steps| - 1])
  }

  /** Clean reuse, over every run in which a redirect leaves the connection open only when the request
      has been sent and wants to keep it: all that a connection has carried before its last request are
      whole exchanges, to the same destination; if it is idle, so is the last. No other condition is
      needed, not even that the pool keeps its promises. */
  lemma {:induction false} CleanReuse(idleTimeout: nat, maxConnections: nat, steps: seq<Step>)
    requires Possible(NewPool(idleTimeout, maxConnections), steps)
    requires AllPolite(NewPool(idleTimeout, maxConnections), steps)
    ensures AllClean(Reached(idleTimeout, maxConnections, steps))
  {
    hide Next, Enabled, Polite, Clean;
    if steps != [] {
      CleanReuse(idleTimeout, maxConnections, steps[..|steps| - 1]);
      StepClean(Reached(idleTimeout, maxConnections, steps[..|steps| - 1]), steps[|steps| - 1]);
    }
  }

  // ---------------------------------------------------------------- the condition is exact

  lemma LetHopIsCleanIff(cl: Client, q: Request, keepAlive: bool)
    requires Clean(cl) && cl.request.Some?
    ensures Clean(LetHop(cl, q, keepAlive)) <==> (keepAlive ==> q.transferCompleted && q.settings.keepAlive)
  {
    if keepAlive {
      var d := LetHop(cl, q, keepAlive);
      var i := |cl.carried| - 1;
      assert d.carried[i] == cl.carried[i].(sent := q.transferCompleted, kept := q.settings.keepAlive);
      if q.transferCompleted && q.settings.keepAlive { MarkedIsClean(cl); }
    }
  }

  lemma CarryingIsCleanIff(cl: Client, q: Request, r: nat)
    requires cl.request.None? && forall i :: 0 <= i < |cl.carried| ==> cl.carried[i].dest == cl.netloc
    ensures Clean(Carrying(cl, q, r)) <==> Reconnects(cl, q) || AllWhole(cl.carried)
  {
    hide NetLocOf;
    var d := Carrying(cl, q, r);
    var on := if Reconnects(cl, q) then Drop(cl).(netloc := NetLocOf(q), connecting := true) else cl;
    assert d.carried[..|d.carried| - 1] == on.carried;
  }

  lemma LetHopKeepsOpen(cl: Client, q: Request, keepAlive: bool)
    ensures var d := LetHop(cl, q, keepAlive);
      && d.netloc == cl.netloc && d.connected == (cl.connected && keepAlive)
      && (Clean(cl) && cl.request.Some? ==> forall i :: 0 <= i < |d.carried| ==> d.carried[i].dest == d.netloc)
      && (d.request.None? && (Clean(d) <==> (AllWhole(d.carried)
            && forall i :: 0 <= i < |d.carried| ==> d.carried[i].dest == d.netloc)))
  {
  }

  /** A redirect leaves a connection behind that is not clean: the client follows it on its own connection
      behind a request that has not been sent completely, with everything else in favour of reuse; or the
      client goes back to the pool with such a connection, or with one that the request did not want to
      keep, and either becomes free or starts the next request on it. */
  ghost predicate Dirties(s: PoolState, c: nat, m: Message)
    requires Active(s, c) && m.location.Some? && m.callback.Follow?
  {
    var cl := s.clients[c];
    var q := s.requests[cl.request.value];
    var k := NetLocOf(Hop(q, m.location.value, m));
    && m.keepAlive
    && if cl.pooled && ElsewhereThan(k, cl.netloc)
       then !(q.transferCompleted && q.settings.keepAlive) && NextKeeps(s, cl.netloc)
       else !q.transferCompleted && q.settings.keepAlive && k == cl.netloc
  }

  /** Nobody waits at a destination, or the first one there does not ask for a new connection. */
  predicate NextKeeps(s: PoolState, k: NetLoc) {
    k in s.rows && (s.rows[k].queue == [] ||
      (s.rows[k].queue[0] in s.requests && s.requests[s.rows[k].queue[0]].settings.keepAlive))
  }

  /** The request that waits first at a destination. */
  function FirstWaiting(s: PoolState, k: NetLoc): Option<nat> {
    if k in s.rows && s.rows[k].queue != [] then Some(s.rows[k].queue[0]) else None
  }

  /** Only client `c` may have changed. */
  ghost predicate OnlyClient(s: PoolState, d: PoolState, c: nat) {
    forall x :: x in d.clients && x != c ==> x in s.clients && d.clients[x] == s.clients[x]
  }

  lemma OneClientClean(s: PoolState, d: PoolState, c: nat)
    requires AllClean(s) && OnlyClient(s, d, c) && c in d.clients
    ensures AllClean(d) <==> Clean(d.clients[c])
  {
    hide Clean;
  }

  lemma StartOnlyClient(s: PoolState, c: nat, r: nat)
    requires c in s.clients && r in s.requests
    ensures OnlyClient(s, StartOn(s, c, r).0, c)
  {
    hide Sent, NetLocOf, Carrying, Reconnects;
  }

  /** The client goes on with its own redirected request. */
  lemma GoesOnCleanIff(s: PoolState, c: nat, m: Message)
    requires Inv(s) && AllClean(s) && Enabled(s, Received(c, m))
    requires var q := s.requests[s.clients[c].request.value];
      && Follows(q, m)
      && (s.clients[c].pooled ==> !ElsewhereThan(NetLocOf(Hop(q, m.location.value, m)), s.clients[c].netloc))
    ensures var q := s.requests[s.clients[c].request.value];
      AllClean(AnalyzeOn(s, c, m)) <==>
        !(m.keepAlive && !q.transferCompleted && q.settings.keepAlive
          && NetLocOf(Hop(q, m.location.value, m)) == s.clients[c].netloc)
  {
    var cl := s.clients[c];
    var r := cl.request.value;
    var q := s.requests[r];
    var location := m.location.value;
    FollowedIs(s, c, m);
    FollowHereIs(s, c, location, m);
    ActiveIs(s, c);
    HopAsks(q, location, m, s.now);
    var hop := Hop(q, location, m);
    var went := LetHop(cl, q, m.keepAlive);
    var t := LetGo(s, c, went, r, hop);
    LetHopShape(cl, q, m.keepAlive);
    HopKeepsAlive(q, location, m);
    HopStays(s, c, r, hop, went);
    hide Inv, Clean, Startable, LiveOk, LimboOk, Hop, LetHop, FollowOn, StartOn, Sent, Carrying, NetLocOf, AnalyzeOn, Reconnects, AllClean, LetGo;
    StartShape(t, c, r);
    var q1 := Claimed(hop, c);
    ClaimedPlace(hop, c, s.now);
    ReuseAfterHop(cl, q, q1, m.keepAlive, r) by { assert Clean(cl) by { assert AllClean(s); OneClean(s, c); } }
    StartOnlyClient(t, c, r);
    OnlyClientTwice(s, t, StartOn(t, c, r).0, c);
    OneClientClean(s, StartOn(t, c, r).0, c);
  }

  lemma OneClean(s: PoolState, c: nat)
    requires AllClean(s) && c in s.clients
    ensures Clean(s.clients[c])
  {
    hide Clean;
  }

  lemma HopStays(s: PoolState, c: nat, r: nat, hop: Request, went: Client)
    requires c in s.clients && r in s.requests
    ensures var t := LetGo(s, c, went, r, hop);
      c in t.clients && t.clients[c] == went && r in t.requests && t.requests[r] == hop && OnlyClient(s, t, c) && t.now == s.now
  {
  }

  lemma OnlyClientTwice(s: PoolState, t: PoolState, d: PoolState, c: nat)
    requires OnlyClient(s, t, c) && OnlyClient(t, d, c)
    ensures OnlyClient(s, d, c)
  {
  }

  lemma HopKeepsAlive(q: Request, location: Uri, m: Message)
    requires m.callback.Follow?
    ensures Hop(q, location, m).settings == q.settings
  {
  }

  lemma ReuseAfterHop(cl: Client, q: Request, q1: Request, keepAlive: bool, r: nat)
    requires Clean(cl) && cl.request.Some? && cl.connected && q1.settings == q.settings
    ensures !Clean(Carrying(LetHop(cl, q, keepAlive), q1, r))
      <==> !q.transferCompleted && keepAlive && q.settings.keepAlive && NetLocOf(q1) == cl.netloc
  {
    var went := LetHop(cl, q, keepAlive);
    LetHopIsCleanIff(cl, q, keepAlive);
    LetHopKeepsOpen(cl, q, keepAlive);
    CarryingIsCleanIff(went, q1, r);
    assert Reconnects(went, q1) == (!went.connected || went.netloc != NetLocOf(q1) || !q1.settings.keepAlive);
    hide *;
  }

  // ---------------------------------------------------------------- handing over

  /** The next request on a connection that its client has given back. */
  lemma ReuseByNext(cl: Client, q: Request, q1: Request, keepAlive: bool, r: nat, now: nat)
    requires Clean(cl) && cl.request.Some? && cl.connected && NetLocOf(q1) == cl.netloc
    ensures Clean(Carrying(LetHop(cl, q, keepAlive).(lastActivity := now), q1, r))
      <==> !(keepAlive && !(q.transferCompleted && q.settings.keepAlive) && q1.settings.keepAlive)
  {
    var hop := LetHop(cl, q, keepAlive);
    var went := hop.(lastActivity := now);
    LetHopIsCleanIff(cl, q, keepAlive);
    LetHopKeepsOpen(cl, q, keepAlive);
    CarryingIsCleanIff(went, q1, r);
    assert Reconnects(went, q1) == (!went.connected || went.netloc != NetLocOf(q1) || !q1.settings.keepAlive);
    hide *;
  }

  lemma FreeAfterHop(cl: Client, q: Request, keepAlive: bool, now: nat)
    requires Clean(cl) && cl.request.Some?
    ensures Clean(LetHop(cl, q, keepAlive).(lastActivity := now))
      <==> !(keepAlive && !(q.transferCompleted && q.settings.keepAlive))
  {
    LetHopIsCleanIff(cl, q, keepAlive);
    SameCarried(LetHop(cl, q, keepAlive), LetHop(cl, q, keepAlive).(lastActivity := now));
    hide *;
  }

  /** What putback does with a client that has let its request go. */
  lemma PutbackCarries(s: PoolState, c: nat, k: NetLoc, holes: map<nat, NetLoc>, limbo: set<nat>)
    requires Partial(s, holes, limbo) && c in holes && c in s.clients && holes[c] == k == s.clients[c].netloc && k in s.rows
    ensures var d := Putback(s, c);
      && c in d.clients && OnlyClient(s, d, c)
      && (s.rows[k].queue == [] ==> d.clients[c] == s.clients[c])
      && (s.rows[k].queue != [] ==>
            var r := s.rows[k].queue[0];
            && r in s.requests && NetLocOf(Claimed(s.requests[r], c)) == k
            && d.clients[c] == Carrying(s.clients[c], Claimed(s.requests[r], c), r))
  {
    if s.rows[k].queue != [] {
      PutbackCarriesNext(s, c, k, holes, limbo);
    } else {
      PutbackCarriesNone(s, c);
    }
  }

  lemma PutbackCarriesNone(s: PoolState, c: nat)
    requires c in s.clients && s.clients[c].netloc in s.rows && s.rows[s.clients[c].netloc].queue == []
    ensures Putback(s, c).clients == s.clients
  {
  }

  lemma PutbackCarriesNext(s: PoolState, c: nat, k: NetLoc, holes: map<nat, NetLoc>, limbo: set<nat>)
    requires Partial(s, holes, limbo) && c in holes && c in s.clients && holes[c] == k == s.clients[c].netloc
    requires k in s.rows && s.rows[k].queue != []
    ensures var d := Putback(s, c);
      var r := s.rows[k].queue[0];
      && c in d.clients && OnlyClient(s, d, c)
      && r in s.requests && NetLocOf(Claimed(s.requests[r], c)) == k
      && d.clients[c] == Carrying(s.clients[c], Claimed(s.requests[r], c), r)
  {
    hide RequestsOk, LinksOk, PlacesOk, RowsOk, OrderOk, Startable, NetLocOf, SizesOk, StartOn, Carrying, Sent;
    var r := s.rows[k].queue[0];
    RowParts(s, k, holes, limbo);
    assert WaitingOk(s, k, r, limbo);
    var t := Logged(Popped(s, k), k, r);
    assert s.clients[c].request.None?;
    StartShape(t, c, r);
    ClaimedPlace(t.requests[r], c, t.now);
    StartOnlyClient(t, c, r);
  }

  /** The client goes back to the pool. */
  lemma HandOverCleanIff(s: PoolState, c: nat, m: Message)
    requires Inv(s) && AllClean(s) && Enabled(s, Received(c, m)) && s.clients[c].pooled
    requires var q := s.requests[s.clients[c].request.value];
      Follows(q, m) && ElsewhereThan(NetLocOf(Hop(q, m.location.value, m)), s.clients[c].netloc)
    ensures var d := AnalyzeOn(s, c, m);
      && (AllClean(d) <==> !Dirties(s, c, m))
      && c in d.clients && (Clean(d.clients[c]) <==> !Dirties(s, c, m))
      && d.clients[c].request == FirstWaiting(s, s.clients[c].netloc)
  {
    ReceivedIs(s, c, m);
    hide FirstWaiting;
    hide Inv, Partial, NetLocOf, Asks, Hop, PutBackForHop, PoolRequest, FollowOn, Follows, Pickable, AnalyzeOn, Clean, Dirties, AllClean,
      OnlyClient, Enabled, Uncaught, ElsewhereThan;
    var r := s.clients[c].request.value;
    var location := m.location.value;
    var k := NetLocOf(Hop(s.requests[r], location, m));
    Elsewhere(k, s.clients[c].netloc);
    FollowedIs(s, c, m);
    FollowAwayIs(s, c, location, m);
    PutBackForHopKeeps(s, c, location, m);
    PutBackForHopRow(s, c, location, m, k);
    PutBackCleanIff(s, c, m);
    var t := PutBackForHop(s, c, location, m);
    PickableStays(s, t, k, m.pick);
    OneClientClean(s, t, c);
    HopPlace(t, r, s.requests[r], location, m, k);
    AskCleanIff(t, r, m.pick, c, k);
    var p := PoolRequest(SetClient(t, c, t.clients[c].(weak := true)), r, m.pick);
    UncaughtClean(p);
    UncaughtClients(p);
  }

  lemma ReceivedIs(s: PoolState, c: nat, m: Message)
    requires Enabled(s, Received(c, m)) && Follows(s.requests[s.clients[c].request.value], m)
    ensures Active(s, c) && m.location.Some? && m.callback.Follow?
    ensures Pickable(s, NetLocOf(Hop(s.requests[s.clients[c].request.value], m.location.value, m)), m.pick)
  {
    hide NetLocOf, Hop, Pickable;
  }

  lemma Elsewhere(k: NetLoc, other: NetLoc)
    requires ElsewhereThan(k, other)
    ensures k != other
  {
  }

  lemma HopPlace(t: PoolState, r: nat, q: Request, location: Uri, m: Message, k: NetLoc)
    requires m.callback.Follow? && r in t.requests && t.requests[r] == Hop(q, location, m) && k == NetLocOf(Hop(q, location, m))
    ensures NetLocOf(t.requests[r]) == k
  {
  }

  lemma UncaughtClean(p: (PoolState, Outcome))
    ensures AllClean(Uncaught(p)) == AllClean(p.0)
  {
    hide Clean;
  }

  lemma UncaughtClients(p: (PoolState, Outcome))
    ensures Uncaught(p).clients == p.0.clients
  {
  }

  /** Asking for another destination leaves the client that was given back as clean or dirty as it is. */
  lemma AskCleanIff(s: PoolState, r: nat, pick: nat, c: nat, k: NetLoc)
    requires Partial(s, map[], {r}) && r in s.requests && NetLocOf(s.requests[r]) == k
    requires c in s.clients && s.clients[c].netloc != k && Pickable(s, k, pick)
    requires AllClean(s) <==> Clean(s.clients[c])
    ensures var d := PoolRequest(SetClient(s, c, s.clients[c].(weak := true)), r, pick).0;
      && (AllClean(d) <==> AllClean(s))
      && c in d.clients && d.clients[c].request == s.clients[c].request && Clean(d.clients[c]) == Clean(s.clients[c])
  {
    AskAfterPutback(s, r, pick, c, k);
    var cl := s.clients[c].(weak := true);
    var u := SetClient(s, c, cl);
    var d := PoolRequest(u, r, pick).0;
    SameCarried(s.clients[c], cl);
    SameCarried(cl, d.clients[c]);
    hide Partial, NetLocOf, Pickable, PoolRequest, Clean;
    if AllClean(s) {
      PoolRequestClean(u, r, pick);
    } else {
      DirtyStays(d, c);
    }
  }

  lemma DirtyStays(s: PoolState, c: nat)
    requires c in s.clients && !Clean(s.clients[c])
    ensures !AllClean(s)
  {
    hide Clean;
  }

  /** The client after it has been put back: free, or carrying the next request. */
  lemma PutBackIs(s: PoolState, c: nat, location: Uri, m: Message)
    requires Inv(s) && Active(s, c) && s.clients[c].pooled && Follows(s.requests[s.clients[c].request.value], m)
    requires m.callback.Follow?
    ensures var cl := s.clients[c];
      var went := LetHop(cl, s.requests[cl.request.value], m.keepAlive).(lastActivity := s.now);
      var t := PutBackForHop(s, c, location, m);
      && cl.netloc in s.rows && c in t.clients && OnlyClient(s, t, c)
      && var queue := s.rows[cl.netloc].queue;
         if queue == [] then t.clients[c] == went
         else
           && queue[0] in s.requests && NetLocOf(Claimed(s.requests[queue[0]], c)) == cl.netloc
           && t.clients[c] == Carrying(went, Claimed(s.requests[queue[0]], c), queue[0])
  {
    ActiveIs(s, c);
    hide Inv, Partial, NetLocOf, Startable, LiveOk, Asks, Hop, LetHop, Follows, Carrying, Putback, LetGo, OnlyClient;
    var cl := s.clients[c];
    var r := cl.request.value;
    var q := s.requests[r];
    LetHopShape(cl, q, m.keepAlive);
    var went := LetHop(cl, q, m.keepAlive).(lastActivity := s.now);
    HopLetsGo(s, c, location, m, went);
    var s1 := LetGo(s, c, went, r, Hop(q, location, m));
    HopStays(s, c, r, Hop(q, location, m), went);
    LetGoRowsSame(s, c, went, r, Hop(q, location, m));
    PutbackCarries(s1, c, cl.netloc, map[c := cl.netloc], {r});
    if s.rows[cl.netloc].queue != [] { QueuedIsOther(s, c, cl.netloc); }
    OnlyClientTwice(s, s1, Putback(s1, c), c);
  }

  lemma DirtiesAway(s: PoolState, c: nat, m: Message)
    requires Active(s, c) && m.location.Some? && m.callback.Follow? && s.clients[c].pooled
    requires var q := s.requests[s.clients[c].request.value];
      ElsewhereThan(NetLocOf(Hop(q, m.location.value, m)), s.clients[c].netloc)
    ensures var q := s.requests[s.clients[c].request.value];
      Dirties(s, c, m) <==>
        m.keepAlive && !(q.transferCompleted && q.settings.keepAlive) && NextKeeps(s, s.clients[c].netloc)
  {
    hide NetLocOf, Hop, NextKeeps;
  }

  lemma PutBackCleanIff(s: PoolState, c: nat, m: Message)
    requires Inv(s) && AllClean(s) && Enabled(s, Received(c, m)) && s.clients[c].pooled
    requires var q := s.requests[s.clients[c].request.value];
      Follows(q, m) && ElsewhereThan(NetLocOf(Hop(q, m.location.value, m)), s.clients[c].netloc)
    ensures var t := PutBackForHop(s, c, m.location.value, m);
      c in t.clients && OnlyClient(s, t, c) && t.clients[c].netloc == s.clients[c].netloc
      && t.clients[c].request == FirstWaiting(s, s.clients[c].netloc)
      && (Clean(t.clients[c]) <==> !Dirties(s, c, m))
  {
    ReceivedIs(s, c, m);
    ReceivedUp(s, c, m);
    OneClean(s, c);
    hide Inv, NetLocOf, Hop, LetHop, Follows, Clean, AllClean, Carrying, Putback, PutBackForHop, Enabled, OnlyClient, ElsewhereThan,
      Pickable, Dirties;
    PutBackIs(s, c, m.location.value, m);
    DirtiesAway(s, c, m);
    var cl := s.clients[c];
    var q := s.requests[cl.request.value];
    LetHopShape(cl, q, m.keepAlive);
    FreeAfterHop(cl, q, m.keepAlive, s.now);
    if s.rows[cl.netloc].queue != [] {
      var x := s.rows[cl.netloc].queue[0];
      var q1 := Claimed(s.requests[x], c);
      ReuseByNext(cl, q, q1, m.keepAlive, x, s.now);
      CarryingShape(LetHop(cl, q, m.keepAlive).(lastActivity := s.now), q1, x);
    }
  }

  lemma ReceivedUp(s: PoolState, c: nat, m: Message)
    requires Enabled(s, Received(c, m))
    ensures c in s.clients && s.clients[c].connected
  {
    hide NetLocOf, Hop, Pickable;
  }

  lemma LetGoRowsSame(s: PoolState, c: nat, cl: Client, r: nat, q: Request)
    requires c in s.clients && r in s.requests
    ensures var d := LetGo(s, c, cl, r, q);
      d.rows == s.rows && forall x :: x in s.requests && x != r ==> x in d.requests && d.requests[x] == s.requests[x]
  {
  }

  lemma QueuedIsOther(s: PoolState, c: nat, k: NetLoc)
    requires Inv(s) && Active(s, c) && k in s.rows && s.rows[k].queue != []
    ensures s.rows[k].queue[0] != s.clients[c].request.value
  {
    hide RequestsOk, PlacesOk, HomesOk, OrderOk, Startable, NetLocOf, SizesOk;
    RowParts(s, k, map[], {});
    assert WaitingOk(s, k, s.rows[k].queue[0], {});
  }

  /** Clean reuse, exactly: a redirect that is followed, on its own connection or by way of the pool, keeps
      all connections clean if and only if it does not leave a dirty one behind. */
  lemma RedirectIsCleanIff(s: PoolState, c: nat, m: Message)
    requires Inv(s) && AllClean(s) && Enabled(s, Received(c, m))
    requires Follows(s.requests[s.clients[c].request.value], m)
    ensures AllClean(AnalyzeOn(s, c, m)) <==> !Dirties(s, c, m)
  {
    var q := s.requests[s.clients[c].request.value];
    if s.clients[c].pooled && ElsewhereThan(NetLocOf(Hop(q, m.location.value, m)), s.clients[c].netloc) {
      HandOverCleanIff(s, c, m);
    } else {
      GoesOnCleanIff(s, c, m);
      hide Inv, AllClean, AnalyzeOn, Hop, NetLocOf, NextKeeps;
    }
  }

  // ---------------------------------------------------------------- over runs

  /** The step is a redirect that leaves a dirty connection behind. */
  ghost predicate DirtiesOne(s: PoolState, step: Step) {
    && step.Received? && Active(s, step.c) && Follows(s.requests[s.clients[step.c].request.value], step.message)
    && Dirties(s, step.c, step.message)
  }

  lemma StepCleanUnless(s: PoolState, step: Step)
    requires Inv(s) && AllClean(s) && Enabled(s, step) && !DirtiesOne(s, step)
    ensures AllClean(Next(s, step))
  {
    hide Inv, AllClean, Dirties, AnalyzeOn, Follows;
    if step.Received? && Active(s, step.c) && Follows(s.requests[s.clients[step.c].request.value], step.message) {
      ReceivedAnalyzes(s, step.c, step.message);
      hide Enabled, Next;
      RedirectIsCleanIff(s, step.c, step.message);
    } else {
      NotFollowed(s, step);
      hide Enabled, Next, Polite;
      StepClean(s, step);
    }
  }

  lemma ReceivedAnalyzes(s: PoolState, c: nat, m: Message)
    requires Active(s, c)
    ensures Next(s, Received(c, m)) == AnalyzeOn(s, c, m)
  {
  }

  lemma NotFollowed(s: PoolState, step: Step)
    requires !(step.Received? && Active(s, step.c) && Follows(s.requests[s.clients[step.c].request.value], step.message))
    ensures Polite(s, step)
  {
    hide Follows;
  }

  ghost predicate NoneDirties(s: PoolState, steps: seq<Step>) {
    if steps == [] then true
    else NoneDirties(s, steps[..|steps| - 1]) && !DirtiesOne(Run(s, steps[..|steps| - 1]), steps[|steps| - 1])
  }

  /** Over every run in which the pool keeps its promises: as long as no redirect leaves a dirty connection
      behind, all connections are clean. */
  lemma {:induction false} CleanUnlessDirtied(idleTimeout: nat, maxConnections: nat, steps: seq<Step>)
    requires Legal(NewPool(idleTimeout, maxConnections), steps)
    requires NoneDirties(NewPool(idleTimeout, maxConnections), steps)
    ensures AllClean(Reached(idleTimeout, maxConnections, steps))
  {
    hide Next, Enabled, Safe, Clean, DirtiesOne, Inv;
    if steps != [] {
      hide AllClean;
      var before := steps[..|steps| - 1];
      CleanUnlessDirtied(idleTimeout, maxConnections, before);
      RunKeeps(idleTimeout, maxConnections, before);
      StepCleanUnless(Reached(idleTimeout, maxConnections, before), steps[|steps| - 1]);
    }
  }
}

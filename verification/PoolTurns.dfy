/** Nobody is overtaken: the order in which a pool is asked to serve requests, as the steps tell it, and the order
    in which they get clients. */
module PoolTurns {
  import opened Options
  import opened Pooling
  import opened PoolInvariant
  import opened PoolSteps
  import opened PoolRequests
  import opened PoolRuns
  import opened PoolAccount
  import opened PoolPromises
  import opened PoolTargets
  import opened PoolConnections

  // ---------------------------------------------------------------- told by the steps

  /** The request that the pool is asked for in the step from `s` to `d`: one that is submitted, or one that
      a redirect takes away from its client. */
  function Asked(s: PoolState, step: Step, d: PoolState): Option<nat> {
    match step
    case Submit(r, _) => if r in s.requests && s.requests[r].uri.host != "" then Some(r) else None
    case Received(c, m) =>
      if Active(s, c) && Redirectable(s.requests[s.clients[c].request.value], m) && m.callback.Follow?
         && !(c in d.clients && d.clients[c].request == s.clients[c].request)
      then s.clients[c].request else None
    case _ => None
  }

  /** How often the pool has been asked. */
  function Askings(s: PoolState, steps: seq<Step>): nat {
    if steps == [] then 0
    else
      var before := steps[..|steps| - 1];
      Askings(s, before) + if Asked(Run(s, before), steps[|steps| - 1], Run(s, steps)).Some? then 1 else 0
  }

  /** How often the pool had been asked when it was last asked for the request. */
  function Turn(s: PoolState, steps: seq<Step>, r: nat): nat {
    if steps == [] then 0
    else
      var before := steps[..|steps| - 1];
      if Asked(Run(s, before), steps[|steps| - 1], Run(s, steps)) == Some(r) then Askings(s, before) else Turn(s, before, r)
  }

  // ---------------------------------------------------------------- tickets are turns

  ghost predicate SameTurn(q: Request, p: Request) {
    p.life.ticket == q.life.ticket && p.life.accepted == q.life.accepted
  }

  /** The next ticket goes to the request that is asked for; the others keep theirs. */
  ghost predicate AllTurns(s: PoolState, d: PoolState, asked: Option<nat>) {
    && d.nextTicket == s.nextTicket + (if asked.Some? then 1 else 0)
    && (forall r :: r in s.requests ==>
          r in d.requests && if asked == Some(r) then d.requests[r].life.ticket == s.nextTicket else SameTurn(s.requests[r], d.requests[r]))
    && (forall r :: r in d.requests && r !in s.requests ==> d.requests[r].life.accepted == 0)
  }

  lemma SentTurn(q: Request, c: nat, now: nat)
    ensures SameTurn(q, Sent(Claimed(q, c), now))
  {
    SentSame(Claimed(q, c), now);
  }

  lemma PassedTurns(s: PoolState, d: PoolState, c: nat, went: Client, r: nat, q: Request)
    requires c in s.clients && r in s.requests && Passed(s, d, c, went, r, q) && SameTurn(s.requests[r], q)
    ensures AllTurns(s, d, None)
  {
    if NextOn(s, c).Some? { SentTurn(s.requests[NextOn(s, c).value], c, s.now); }
    hide Sent, Claimed, Carrying;
  }

  lemma FinishTurns(s: PoolState, c: nat, q: Request, e: Option<Error>, keepAlive: bool)
    requires Inv(s) && Active(s, c)
    requires var p := s.requests[s.clients[c].request.value];
      q.life == p.life && q.settings == p.settings && (q.timer.Some? ==> p.timer.Some?)
    ensures AllTurns(s, FinishOn(SetRequest(s, s.clients[c].request.value, q), c, e, keepAlive), None)
  {
    var r := s.clients[c].request.value;
    var v := VerdictOf(q, e);
    FinishIs(s, c, q, e, keepAlive);
    assert SameTurn(s.requests[r], Notify(q, v));
    hide Inv, FinishOn, Let, Notify, Passed, AllTurns;
    PassedTurns(s, FinishOn(SetRequest(s, r, q), c, e, keepAlive), c, Let(s.clients[c], q, v, keepAlive, s.now), r, Notify(q, v));
  }

  lemma SameRequestsTurn(s: PoolState, d: PoolState)
    requires d.requests == s.requests && d.nextTicket == s.nextTicket
    ensures AllTurns(s, d, None)
  {
  }

  lemma CancelTurns(s: PoolState, r: nat, q: Request, e: Error)
    requires Inv(s) && r in s.requests
    requires var p := s.requests[r]; q == p.(timer := q.timer) && (q.timer.Some? ==> p.timer.Some?)
    ensures AllTurns(s, CancelRequest(SetRequest(s, r, q), r, e), None)
  {
    LiveIs(s, r);
    hide Inv, FinishOn, CancelRequest, AllTurns, Live, Queued;
    if q.client.Some? {
      FinishTurns(s, q.client.value, q, Some(e), false);
      CancelIsFinish(s, r, q, e);
    } else {
      CancelWaitingTurns(s, r, q, e);
    }
  }

  lemma CancelWaitingTurns(s: PoolState, r: nat, q: Request, e: Error)
    requires r in s.requests && q.client.None? && q == s.requests[r].(timer := q.timer)
    ensures AllTurns(s, CancelRequest(SetRequest(s, r, q), r, e), None)
  {
    assert SameTurn(q, Notify(q, Failed(e)));
    hide NetLocOf, Notify, Find, FinishOn;
  }

  lemma FollowHereTurns(s: PoolState, c: nat, m: Message)
    requires Inv(s) && Active(s, c) && Follows(s.requests[s.clients[c].request.value], m)
    requires var k := NetLocOf(Hop(s.requests[s.clients[c].request.value], m.location.value, m));
      s.clients[c].pooled ==> !ElsewhereThan(k, s.clients[c].netloc)
    ensures var d := AnalyzeOn(s, c, m); AllTurns(s, d, None) && c in d.clients && d.clients[c].request == s.clients[c].request
  {
    FollowsHere(s, c, m);
    FollowHereCounts(s, c, m);
    var r := s.clients[c].request.value;
    var q := s.requests[r];
    var hop := Hop(q, m.location.value, m);
    assert SameTurn(q, hop);
    SentTurn(hop, c, s.now);
    CarryingShape(LetHop(s.clients[c], q, m.keepAlive), Claimed(hop, c), r);
    hide Inv, AnalyzeOn, NetLocOf, LetHop, Hop, Follows, Carrying, Claimed, Sent, AllTurns;
    var d := AnalyzeOn(s, c, m);
    assert d.requests == s.requests[r := d.requests[r]];
    OneTurns(s, d, r);
  }

  lemma OneTurns(s: PoolState, d: PoolState, r: nat)
    requires r in s.requests && r in d.requests && d.requests == s.requests[r := d.requests[r]]
    requires SameTurn(s.requests[r], d.requests[r]) && d.nextTicket == s.nextTicket
    ensures AllTurns(s, d, None)
  {
  }

  /** Client::request takes no ticket and is not in the record of the pool. */
  lemma FollowHereCounts(s: PoolState, c: nat, m: Message)
    requires Active(s, c) && Follows(s.requests[s.clients[c].request.value], m)
    requires var k := NetLocOf(Hop(s.requests[s.clients[c].request.value], m.location.value, m));
      s.clients[c].pooled ==> !ElsewhereThan(k, s.clients[c].netloc)
    ensures var d := AnalyzeOn(s, c, m); d.nextTicket == s.nextTicket && d.started == s.started
  {
    FollowedIs(s, c, m);
    FollowHereIs(s, c, m.location.value, m);
    hide AnalyzeOn, NetLocOf, LetHop, Hop, Follows, FollowOn, Sent, Carrying, Reconnects;
  }

  lemma FollowAwayTurns(s: PoolState, c: nat, m: Message, k: NetLoc)
    requires Inv(s) && Active(s, c) && Follows(s.requests[s.clients[c].request.value], m)
    requires s.clients[c].pooled && k == NetLocOf(Hop(s.requests[s.clients[c].request.value], m.location.value, m))
    requires ElsewhereThan(k, s.clients[c].netloc) && Pickable(s, k, m.pick)
    ensures var d := AnalyzeOn(s, c, m);
      && AllTurns(s, d, s.clients[c].request) && c in d.clients && d.clients[c].request != s.clients[c].request
  {
    var r := s.clients[c].request.value;
    var q := s.requests[r];
    var location := m.location.value;
    var t := PutBackForHop(s, c, location, m);
    var hop := Hop(q, location, m);
    assert SameTurn(q, hop);
    hide Inv, AnalyzeOn, NetLocOf, LetHop, Hop, Follows, PutBackForHop, ElsewhereThan, Pickable, Passed, Requested, AllTurns;
    FollowsAway(s, c, m, k);
    var went := LetHop(s.clients[c], q, m.keepAlive).(lastActivity := s.now);
    PassedTurns(s, t, c, went, r, hop);
    PassedHere(s, t, c, went, r, hop);
    HopLeaves(s, t, AnalyzeOn(s, c, m), c, went, r, hop, k, m.pick);
    AskedTurns(s, SetClient(t, c, t.clients[c].(weak := true)), AnalyzeOn(s, c, m), k, r, m.pick) by {
      SameTurns(s, t, SetClient(t, c, t.clients[c].(weak := true)));
    }
  }

  lemma SameTurns(s: PoolState, t: PoolState, u: PoolState)
    requires AllTurns(s, t, None) && u.requests == t.requests && u.nextTicket == t.nextTicket
    ensures AllTurns(s, u, None)
  {
  }

  lemma AskedTurns(s: PoolState, u: PoolState, d: PoolState, k: NetLoc, r: nat, pick: nat)
    requires u.nextTicket == s.nextTicket && r in s.requests && r in u.requests && Requested(u, d, k, r, pick)
    requires forall x :: x in s.requests && x != r ==> x in u.requests && SameTurn(s.requests[x], u.requests[x])
    requires forall x :: x in u.requests && x !in s.requests ==> u.requests[x].life.accepted == 0
    ensures AllTurns(s, d, Some(r))
  {
    TicketedIs(u, r);
    var t := Ticketed(u, r);
    hide Choose, Ticketed, Sent, Claimed, Carrying, Arm;
    match Choose(u, k, pick)
    case None => ArmSame(t.requests[r], u.now);
    case Some(x) => SentTurn(t.requests[r], x, u.now);
    assert d.requests == u.requests[r := d.requests[r]];
  }

  lemma AnalyzeTurns(s: PoolState, c: nat, m: Message)
    requires Inv(s) && Enabled(s, Received(c, m))
    ensures var d := AnalyzeOn(s, c, m); AllTurns(s, d, Asked(s, Received(c, m), d))
  {
    var q := s.requests[s.clients[c].request.value];
    ActiveIs(s, c);
    RedirectableIs(q, m);
    if Follows(q, m) {
      var k := NetLocOf(Hop(q, m.location.value, m));
      hide Inv, AllTurns, AnalyzeOn, NetLocOf, Hop, ElsewhereThan, Pickable, LiveOk, Startable, Redirectable;
      if s.clients[c].pooled && ElsewhereThan(k, s.clients[c].netloc) {
        FollowAwayTurns(s, c, m, k);
      } else {
        FollowHereTurns(s, c, m);
      }
    } else {
      hide Inv, AllTurns, Pickable, NetLocOf, AnalyzeOn, LiveOk, Startable, Redirectable;
      RefusedTurns(s, c, m);
    }
  }

  lemma RefusedTurns(s: PoolState, c: nat, m: Message)
    requires Inv(s) && Active(s, c) && !Follows(s.requests[s.clients[c].request.value], m)
    ensures AllTurns(s, AnalyzeOn(s, c, m), None)
  {
    hide Inv, FinishOn, AllTurns;
    var r := s.clients[c].request.value;
    var q := s.requests[r];
    assert SetRequest(s, r, q) == s;
    if m.code == 100 {
      SameRequestsTurn(s, s);
    } else if q.settings.followRedirect && IsRedirect(m.code) {
      if q.settings.redirectionLimit == 0 {
        FinishTurns(s, c, q, Some(UnexpectedRedirect), false);
      } else if Increment(q.counter) > q.settings.redirectionLimit {
        FinishTurns(s, c, q.(counter := Increment(q.counter)), Some(RedirectionLimit), false);
      } else if m.location.None? {
        FinishTurns(s, c, q.(counter := Increment(q.counter)), Some(NoRedirectUri), false);
      } else {
        FinishTurns(s, c, Redirected(q, m.location.value), Some(m.callback.error), false);
      }
    } else {
      FinishTurns(s, c, q, None, m.keepAlive);
    }
  }

  lemma SubmitTurns(s: PoolState, r: nat, pick: nat)
    requires Inv(s) && r in s.requests && Pickable(s, NetLocOf(s.requests[r]), pick) && Submittable(s, r)
    ensures AllTurns(s, SubmitTo(s, r, pick).0, if s.requests[r].uri.host != "" then Some(r) else None)
  {
    hide Inv, NetLocOf, Startable, Live, PoolRequest, Choose, Requested, Pickable, Submittable, Asks;
    if s.requests[r].uri.host != "" {
      var q := s.requests[r];
      var u := SetRequest(s, r, q.(life := q.life.(accepted := q.life.accepted + 1, acceptedAt := s.now, hops := 0)));
      SubmitAsks(s, r, pick);
      hide SubmitTo, AllTurns;
      AskedTurns(s, u, SubmitTo(s, r, pick).0, NetLocOf(q), r, pick);
    } else {
      SameRequestsTurn(s, s);
    }
  }

  lemma ExpireTurns(s: PoolState, r: nat)
    requires Inv(s) && Enabled(s, TimerFires(r))
    ensures AllTurns(s, Expire(s, r), None)
  {
    LiveIs(s, r);
    hide Inv, Live, CancelRequest, AllTurns;
    var q := s.requests[r];
    var e := if q.client.Some? && q.client.value in s.clients && s.clients[q.client.value].connecting
             then ConnectTimedOut else TimedOut;
    CancelTurns(s, r, q.(timer := Some(q.timer.value.(active := false))), e);
  }

  lemma DestroyTurns(s: PoolState)
    ensures AllTurns(s, Destroy(s), None)
  {
    hide InQueue, InBusy, Notify;
    forall r | r in s.requests ensures SameTurn(s.requests[r], Destroy(s).requests[r]) {
      NotifyTurn(s.requests[r], Failed(OperationCanceled));
    }
  }

  lemma NotifyTurn(q: Request, v: Verdict)
    ensures SameTurn(q, Notify(q, v))
  {
  }

  lemma CreateTurns(s: PoolState, r: nat, q: Request)
    requires r !in s.requests && Fresh(q)
    ensures AllTurns(s, SetRequest(s, r, q), None)
  {
  }

  lemma TransferTurns(s: PoolState, r: nat)
    requires r in s.requests
    ensures AllTurns(s, FinalChunk(s, r).0, None)
  {
  }

  lemma SweepTurns(s: PoolState)
    ensures Sweep(s).requests == s.requests && Sweep(s).nextTicket == s.nextTicket && Sweep(s).started == s.started
  {
  }

  lemma StepTurns(s: PoolState, step: Step)
    requires Inv(s) && Enabled(s, step) && Safe(s, step)
    ensures AllTurns(s, Next(s, step), Asked(s, step, Next(s, step)))
  {
    hide Inv, AllTurns, AnalyzeOn, Expire, SubmitTo, CancelRequest, KeepsRow, Submittable, NetLocOf, FinishOn, Pickable, Destroy, Sweep, Fresh, FinalChunk;
    match step
    case Create(r, q) => CreateTurns(s, r, q);
    case Submit(r, pick) => SubmitTurns(s, r, pick);
    case Cancel(r, e) =>
      assert SetRequest(s, r, s.requests[r]) == s;
      CancelTurns(s, r, s.requests[r], e);
    case TransferDone(r) => TransferTurns(s, r);
    case TimerFires(r) => ExpireTurns(s, r);
    case Connected(c) => SameRequestsTurn(s, Next(s, step));
    case Disturbed(c, e) =>
      assert SetRequest(s, s.clients[c].request.value, s.requests[s.clients[c].request.value]) == s;
      FinishTurns(s, c, s.requests[s.clients[c].request.value], Some(e), false);
    case Received(c, m) => AnalyzeTurns(s, c, m);
    case Unexpected(c) => SameRequestsTurn(s, Next(s, step));
    case Swept =>
      SweepTurns(s);
      SameRequestsTurn(s, Sweep(s));
    case Destroyed => DestroyTurns(s);
    case Tick(now) => SameRequestsTurn(s, Next(s, step));
  }

  /** Over every run: the ticket of a request that has been submitted is its turn. */
  lemma {:induction false} TicketsAreTurns(idleTimeout: nat, maxConnections: nat, steps: seq<Step>)
    requires Legal(NewPool(idleTimeout, maxConnections), steps)
    ensures var s := Reached(idleTimeout, maxConnections, steps);
      && s.nextTicket == Askings(NewPool(idleTimeout, maxConnections), steps)
      && forall r :: r in s.requests && s.requests[r].life.accepted > 0 ==>
           s.requests[r].life.ticket == Turn(NewPool(idleTimeout, maxConnections), steps, r)
  {
    hide Next, Enabled, Safe, Inv, Asked;
    if steps != [] {
      var before, step := steps[..|steps| - 1], steps[|steps| - 1];
      TicketsAreTurns(idleTimeout, maxConnections, before);
      RunKeeps(idleTimeout, maxConnections, before);
      StepTurns(Reached(idleTimeout, maxConnections, before), step);
    }
  }

  // ---------------------------------------------------------------- whoever gets a client is on record

  /** The request has got a client, another one than before. */
  predicate GetsClient(s: PoolState, d: PoolState, w: nat) {
    && w in d.requests && d.requests[w].client.Some?
    && (w in s.requests ==> d.requests[w].client != s.requests[w].client)
  }

  ghost predicate OnRecord(s: PoolState, d: PoolState, w: nat)
    requires w in d.requests
  {
    exists i :: |s.started| <= i < |d.started| && d.started[i] == Start(NetLocOf(d.requests[w]), d.requests[w].life.ticket)
  }

  ghost predicate Logs(s: PoolState, d: PoolState) {
    s.started <= d.started && forall w :: GetsClient(s, d, w) ==> OnRecord(s, d, w)
  }

  lemma NextSent(s: PoolState, c: nat)
    requires Inv(s) && c in s.clients && NextOn(s, c).Some?
    ensures var w := NextOn(s, c).value;
      && w in s.requests
      && var p := Sent(Claimed(s.requests[w], c), s.now);
         NetLocOf(p) == s.clients[c].netloc && p.life.ticket == s.requests[w].life.ticket
  {
    hide RequestsOk, LinksOk, PlacesOk, HomesOk, RowsOk, OrderOk, SizesOk, FreeOk, BusyOk, NoTwice, NetLocOf;
    RowParts(s, s.clients[c].netloc, map[], {});
    assert WaitingOk(s, s.clients[c].netloc, NextOn(s, c).value, {});
    hide Startable;
    ClaimedPlace(s.requests[NextOn(s, c).value], c, s.now);
    SentTurn(s.requests[NextOn(s, c).value], c, s.now);
  }

  lemma PassedLogs(s: PoolState, d: PoolState, c: nat, went: Client, r: nat, q: Request)
    requires Inv(s) && c in s.clients && Passed(s, d, c, went, r, q) && q.client.None?
    ensures Logs(s, d)
  {
    hide Inv, Sent, Claimed, Carrying, NetLocOf, NextOn, Logs, NewOnlyFor;
    match NextOn(s, c)
    case None =>
      NewInTwo(s, d, r, q, None, q);
      NobodyLogs(s, d);
    case Some(w) =>
      NextSent(s, c);
      NewInTwo(s, d, r, q, Some(w), d.requests[w]);
      OneLogs(s, d, w);
  }

  /** At most the client of request `w` is new. */
  predicate NewOnlyFor(s: PoolState, d: PoolState, w: Option<nat>) {
    forall r :: r in d.requests && w != Some(r) && d.requests[r].client.Some? ==>
      r in s.requests && d.requests[r].client == s.requests[r].client
  }

  lemma NewInTwo(s: PoolState, d: PoolState, r: nat, q: Request, w: Option<nat>, p: Request)
    requires q.client.None?
    requires d.requests == if w.Some? then s.requests[r := q][w.value := p] else s.requests[r := q]
    ensures NewOnlyFor(s, d, w)
  {
  }

  lemma OneLogs(s: PoolState, d: PoolState, w: nat)
    requires NewOnlyFor(s, d, Some(w)) && w in d.requests
    requires d.started == s.started + [Start(NetLocOf(d.requests[w]), d.requests[w].life.ticket)]
    ensures Logs(s, d)
  {
    hide NetLocOf;
    assert d.started[|s.started|] == Start(NetLocOf(d.requests[w]), d.requests[w].life.ticket);
  }

  lemma NobodyLogs(s: PoolState, d: PoolState)
    requires d.started == s.started && NewOnlyFor(s, d, None)
    ensures Logs(s, d)
  {
  }

  lemma FinishLogs(s: PoolState, c: nat, q: Request, e: Option<Error>, keepAlive: bool)
    requires Inv(s) && Active(s, c)
    requires var p := s.requests[s.clients[c].request.value];
      q.life == p.life && q.settings == p.settings && (q.timer.Some? ==> p.timer.Some?)
    ensures Logs(s, FinishOn(SetRequest(s, s.clients[c].request.value, q), c, e, keepAlive))
  {
    var r := s.clients[c].request.value;
    var v := VerdictOf(q, e);
    FinishIs(s, c, q, e, keepAlive);
    NotifyUnsent(q, v);
    hide Inv, FinishOn, Let, Notify, Passed, Logs;
    PassedLogs(s, FinishOn(SetRequest(s, r, q), c, e, keepAlive), c, Let(s.clients[c], q, v, keepAlive, s.now), r, Notify(q, v));
  }

  lemma CancelLogs(s: PoolState, r: nat, q: Request, e: Error)
    requires Inv(s) && r in s.requests
    requires var p := s.requests[r]; q == p.(timer := q.timer) && (q.timer.Some? ==> p.timer.Some?)
    ensures Logs(s, CancelRequest(SetRequest(s, r, q), r, e))
  {
    LiveIs(s, r);
    hide Inv, FinishOn, CancelRequest, Logs, Live, Queued;
    if q.client.Some? {
      FinishLogs(s, q.client.value, q, Some(e), false);
      CancelIsFinish(s, r, q, e);
    } else {
      CancelWaitingLogs(s, r, q, e);
    }
  }

  lemma CancelWaitingLogs(s: PoolState, r: nat, q: Request, e: Error)
    requires r in s.requests && q.client.None? && q == s.requests[r].(timer := q.timer)
    ensures Logs(s, CancelRequest(SetRequest(s, r, q), r, e))
  {
    NotifyUnsent(q, Failed(e));
    hide NetLocOf, Notify, Find, FinishOn;
    NobodyLogs(s, CancelRequest(SetRequest(s, r, q), r, e));
  }

  lemma FollowHereLogs(s: PoolState, c: nat, m: Message)
    requires Inv(s) && Active(s, c) && Follows(s.requests[s.clients[c].request.value], m)
    requires var k := NetLocOf(Hop(s.requests[s.clients[c].request.value], m.location.value, m));
      s.clients[c].pooled ==> !ElsewhereThan(k, s.clients[c].netloc)
    ensures Logs(s, AnalyzeOn(s, c, m))
  {
    FollowsHere(s, c, m);
    FollowHereCounts(s, c, m);
    ActiveIs(s, c);
    var hop := Hop(s.requests[s.clients[c].request.value], m.location.value, m);
    SentSame(Claimed(hop, c), s.now);
    assert Claimed(hop, c).client == Some(c);
    hide Inv, AnalyzeOn, NetLocOf, LetHop, Hop, Follows, Carrying, Claimed, Sent, LiveOk, Startable, Logs;
    NobodyLogs(s, AnalyzeOn(s, c, m));
  }

  lemma RequestedLogs(s: PoolState, u: PoolState, d: PoolState, k: NetLoc, r: nat, pick: nat)
    requires Logs(s, u) && r in u.requests && Requested(u, d, k, r, pick)
    requires u.requests[r].client.None? && Startable(u.requests[r]) && NetLocOf(u.requests[r]) == k
    ensures Logs(s, d)
  {
    TicketedIs(u, r);
    var t := Ticketed(u, r);
    MarkedStarts(u.requests[r], t.requests[r]);
    match Choose(u, k, pick)
    case None =>
      ArmSame(t.requests[r], u.now);
      hide Choose, Ticketed, Arm, NetLocOf, Startable;
      assert d.requests == u.requests[r := d.requests[r]] && d.requests[r].client.None?;
      OthersLog(s, u, d, r);
    case Some(x) =>
      ClaimedPlace(t.requests[r], x, u.now);
      SentTurn(t.requests[r], x, u.now);
      hide Choose, Ticketed, Sent, Claimed, Carrying, NetLocOf, Startable;
      assert d.requests == u.requests[r := d.requests[r]];
      assert d.started[|u.started|] == Start(NetLocOf(d.requests[r]), d.requests[r].life.ticket);
      OthersLog(s, u, d, r);
  }

  lemma OthersLog(s: PoolState, u: PoolState, d: PoolState, r: nat)
    requires Logs(s, u) && u.started <= d.started && r in d.requests && d.requests == u.requests[r := d.requests[r]]
    requires GetsClient(s, d, r) ==> OnRecord(s, d, r)
    ensures Logs(s, d)
  {
    hide NetLocOf;
    forall w | GetsClient(s, d, w) ensures OnRecord(s, d, w) {
      if w != r {
        assert GetsClient(s, u, w);
        var i :| |s.started| <= i < |u.started| && u.started[i] == Start(NetLocOf(u.requests[w]), u.requests[w].life.ticket);
        assert d.started[i] == u.started[i];
      }
    }
  }

  lemma FollowAwayLogs(s: PoolState, c: nat, m: Message, k: NetLoc)
    requires Inv(s) && Active(s, c) && Follows(s.requests[s.clients[c].request.value], m)
    requires s.clients[c].pooled && k == NetLocOf(Hop(s.requests[s.clients[c].request.value], m.location.value, m))
    requires ElsewhereThan(k, s.clients[c].netloc) && Pickable(s, k, m.pick)
    ensures Logs(s, AnalyzeOn(s, c, m))
  {
    var r := s.clients[c].request.value;
    var q := s.requests[r];
    var location := m.location.value;
    var t := PutBackForHop(s, c, location, m);
    var hop := Hop(q, location, m);
    ActiveIs(s, c);
    HopAsks(q, location, m, s.now);
    hide Inv, AnalyzeOn, NetLocOf, LetHop, Hop, Follows, PutBackForHop, ElsewhereThan, Pickable, Passed, Requested, Logs, LiveOk, Startable, LimboOk;
    FollowsAway(s, c, m, k);
    var went := LetHop(s.clients[c], q, m.keepAlive).(lastActivity := s.now);
    PassedLogs(s, t, c, went, r, hop);
    PassedHere(s, t, c, went, r, hop);
    var u := SetClient(t, c, t.clients[c].(weak := true));
    SameLogs(s, t, u);
    RequestedLogs(s, u, AnalyzeOn(s, c, m), k, r, m.pick);
  }

  lemma SameLogs(s: PoolState, t: PoolState, u: PoolState)
    requires Logs(s, t) && u.requests == t.requests && u.started == t.started
    ensures Logs(s, u)
  {
    hide NetLocOf;
    forall w | GetsClient(s, u, w) ensures OnRecord(s, u, w) {
      assert GetsClient(s, t, w);
    }
  }

  lemma AnalyzeLogs(s: PoolState, c: nat, m: Message)
    requires Inv(s) && Enabled(s, Received(c, m))
    ensures Logs(s, AnalyzeOn(s, c, m))
  {
    var q := s.requests[s.clients[c].request.value];
    if Follows(q, m) {
      var k := NetLocOf(Hop(q, m.location.value, m));
      hide Inv, Logs, AnalyzeOn, NetLocOf, Hop, ElsewhereThan, Pickable;
      if s.clients[c].pooled && ElsewhereThan(k, s.clients[c].netloc) {
        FollowAwayLogs(s, c, m, k);
      } else {
        FollowHereLogs(s, c, m);
      }
    } else {
      hide Inv, Logs, Pickable, NetLocOf, AnalyzeOn;
      RefusedLogs(s, c, m);
    }
  }

  lemma RefusedLogs(s: PoolState, c: nat, m: Message)
    requires Inv(s) && Active(s, c) && !Follows(s.requests[s.clients[c].request.value], m)
    ensures Logs(s, AnalyzeOn(s, c, m))
  {
    hide Inv, FinishOn, Logs;
    var r := s.clients[c].request.value;
    var q := s.requests[r];
    assert SetRequest(s, r, q) == s;
    if m.code == 100 {
      NobodyLogs(s, s);
    } else if q.settings.followRedirect && IsRedirect(m.code) {
      if q.settings.redirectionLimit == 0 {
        FinishLogs(s, c, q, Some(UnexpectedRedirect), false);
      } else if Increment(q.counter) > q.settings.redirectionLimit {
        FinishLogs(s, c, q.(counter := Increment(q.counter)), Some(RedirectionLimit), false);
      } else if m.location.None? {
        FinishLogs(s, c, q.(counter := Increment(q.counter)), Some(NoRedirectUri), false);
      } else {
        FinishLogs(s, c, Redirected(q, m.location.value), Some(m.callback.error), false);
      }
    } else {
      FinishLogs(s, c, q, None, m.keepAlive);
    }
  }

  lemma SubmitLogs(s: PoolState, r: nat, pick: nat)
    requires Inv(s) && r in s.requests && Pickable(s, NetLocOf(s.requests[r]), pick) && Submittable(s, r)
    ensures Logs(s, SubmitTo(s, r, pick).0)
  {
    hide Inv, NetLocOf, Startable, Live, PoolRequest, Choose, Requested, Pickable, Submittable, LimboOk, Logs;
    if s.requests[r].uri.host != "" {
      var q := s.requests[r];
      var u := SetRequest(s, r, q.(life := q.life.(accepted := q.life.accepted + 1, acceptedAt := s.now, hops := 0)));
      SubmitAsks(s, r, pick);
      hide SubmitTo;
      NobodyLogs(s, u);
      RequestedLogs(s, u, SubmitTo(s, r, pick).0, NetLocOf(q), r, pick);
    } else {
      NobodyLogs(s, s);
    }
  }

  lemma ExpireLogs(s: PoolState, r: nat)
    requires Inv(s) && Enabled(s, TimerFires(r))
    ensures Logs(s, Expire(s, r))
  {
    LiveIs(s, r);
    hide Inv, Live, CancelRequest, Logs;
    var q := s.requests[r];
    var e := if q.client.Some? && q.client.value in s.clients && s.clients[q.client.value].connecting
             then ConnectTimedOut else TimedOut;
    CancelLogs(s, r, q.(timer := Some(q.timer.value.(active := false))), e);
  }

  lemma DestroyLogs(s: PoolState)
    ensures Logs(s, Destroy(s))
  {
    hide InQueue, InBusy, Notify, Logs;
    forall r | r in s.requests ensures Notify(s.requests[r], Failed(OperationCanceled)).client.None? {
      NotifyUnsent(s.requests[r], Failed(OperationCanceled));
    }
    NobodyLogs(s, Destroy(s));
  }

  lemma StepLogs(s: PoolState, step: Step)
    requires Inv(s) && Enabled(s, step) && Safe(s, step)
    ensures Logs(s, Next(s, step))
  {
    hide Inv, Logs, AnalyzeOn, Expire, SubmitTo, CancelRequest, KeepsRow, Submittable, NetLocOf, FinishOn, Pickable, Destroy, Sweep;
    match step
    case Create(r, q) => NobodyLogs(s, Next(s, step));
    case Submit(r, pick) => SubmitLogs(s, r, pick);
    case Cancel(r, e) =>
      assert SetRequest(s, r, s.requests[r]) == s;
      CancelLogs(s, r, s.requests[r], e);
    case TransferDone(r) => NobodyLogs(s, Next(s, step));
    case TimerFires(r) => ExpireLogs(s, r);
    case Connected(c) => NobodyLogs(s, Next(s, step));
    case Disturbed(c, e) =>
      assert SetRequest(s, s.clients[c].request.value, s.requests[s.clients[c].request.value]) == s;
      FinishLogs(s, c, s.requests[s.clients[c].request.value], Some(e), false);
    case Received(c, m) => AnalyzeLogs(s, c, m);
    case Unexpected(c) => NobodyLogs(s, Next(s, step));
    case Swept =>
      SweepTurns(s);
      NobodyLogs(s, Sweep(s));
    case Destroyed => DestroyLogs(s);
    case Tick(now) => NobodyLogs(s, Next(s, step));
  }

  // ---------------------------------------------------------------- nobody is overtaken

  lemma WaitsBehind(s: PoolState, d: PoolState, w: nat, x: nat)
    requires Inv(d) && Logs(s, d) && GetsClient(s, d, w) && Queued(d, x) && NetLocOf(d.requests[w]) == NetLocOf(d.requests[x])
    ensures d.requests[w].life.ticket < d.requests[x].life.ticket
  {
    assert OnRecord(s, d, w);
    hide RequestsOk, LinksOk, PlacesOk, HomesOk, RowsOk, NetLocOf;
    assert QueueOrdered(d, NetLocOf(d.requests[x]), d.rows[NetLocOf(d.requests[x])].queue);
  }

  lemma LiveIsAccepted(s: PoolState, r: nat)
    requires Inv(s) && r in s.requests && Live(s, r)
    ensures s.requests[r].life.accepted > 0
  {
    AccountOf(s, r);
  }

  lemma ClientIsLive(s: PoolState, r: nat)
    requires r in s.requests && s.requests[r].client.Some?
    ensures Live(s, r)
  {
  }

  lemma QueuedIsLive(s: PoolState, r: nat)
    requires Queued(s, r)
    ensures r in s.requests && Live(s, r)
  {
  }

  /** Nobody is overtaken, over every run: whoever gets a client in a step had its turn before all that wait for the
      same destination after the step; whoever waits had its turn before those behind it. The turns are told
      by the steps: who has been submitted, or sent on through the pool by a redirect, in which order. */
  lemma {:induction false} NobodyOvertaken(idleTimeout: nat, maxConnections: nat, steps: seq<Step>)
    requires Legal(NewPool(idleTimeout, maxConnections), steps) && steps != []
    ensures var s := Reached(idleTimeout, maxConnections, steps[..|steps| - 1]);
      var d := Reached(idleTimeout, maxConnections, steps);
      && (forall w, x :: GetsClient(s, d, w) && Queued(d, x) && NetLocOf(d.requests[w]) == NetLocOf(d.requests[x]) ==>
            Turn(NewPool(idleTimeout, maxConnections), steps, w) < Turn(NewPool(idleTimeout, maxConnections), steps, x))
      && (forall k, i, j :: k in d.rows && 0 <= i < j < |d.rows[k].queue| ==>
            Turn(NewPool(idleTimeout, maxConnections), steps, d.rows[k].queue[i])
            < Turn(NewPool(idleTimeout, maxConnections), steps, d.rows[k].queue[j]))
  {
    var s := Reached(idleTimeout, maxConnections, steps[..|steps| - 1]);
    var d := Reached(idleTimeout, maxConnections, steps);
    hide *;
    forall w, x | GetsClient(s, d, w) && Queued(d, x) && NetLocOf(d.requests[w]) == NetLocOf(d.requests[x])
      ensures Turn(NewPool(idleTimeout, maxConnections), steps, w) < Turn(NewPool(idleTimeout, maxConnections), steps, x)
    {
      BeforeAllThatWait(idleTimeout, maxConnections, steps, w, x);
    }
    forall k, i, j | k in d.rows && 0 <= i < j < |d.rows[k].queue|
      ensures Turn(NewPool(idleTimeout, maxConnections), steps, d.rows[k].queue[i])
        < Turn(NewPool(idleTimeout, maxConnections), steps, d.rows[k].queue[j])
    {
      BeforeThoseBehind(idleTimeout, maxConnections, steps, k, i, j);
    }
  }

  lemma {:induction false} BeforeAllThatWait(idleTimeout: nat, maxConnections: nat, steps: seq<Step>, w: nat, x: nat)
    requires Legal(NewPool(idleTimeout, maxConnections), steps) && steps != []
    requires var s := Reached(idleTimeout, maxConnections, steps[..|steps| - 1]);
      var d := Reached(idleTimeout, maxConnections, steps);
      GetsClient(s, d, w) && Queued(d, x) && NetLocOf(d.requests[w]) == NetLocOf(d.requests[x])
    ensures Turn(NewPool(idleTimeout, maxConnections), steps, w) < Turn(NewPool(idleTimeout, maxConnections), steps, x)
  {
    var before := steps[..|steps| - 1];
    var s := Reached(idleTimeout, maxConnections, before);
    var d := Reached(idleTimeout, maxConnections, steps);
    RunKeeps(idleTimeout, maxConnections, before);
    RunKeeps(idleTimeout, maxConnections, steps);
    TicketsAreTurns(idleTimeout, maxConnections, steps);
    StepLogs(s, steps[|steps| - 1]);
    hide Inv, Legal, Next, Enabled, Safe, Logs, Live, Queued, NetLocOf, Turn, Askings, Run;
    WaitsBehind(s, d, w, x);
    ClientIsLive(d, w);
    QueuedIsLive(d, x);
    LiveIsAccepted(d, w);
    LiveIsAccepted(d, x);
  }

  lemma {:induction false} BeforeThoseBehind(idleTimeout: nat, maxConnections: nat, steps: seq<Step>, k: NetLoc, i: nat, j: nat)
    requires Legal(NewPool(idleTimeout, maxConnections), steps)
    requires var d := Reached(idleTimeout, maxConnections, steps); k in d.rows && i < j < |d.rows[k].queue|
    ensures var queue := Reached(idleTimeout, maxConnections, steps).rows[k].queue;
      Turn(NewPool(idleTimeout, maxConnections), steps, queue[i]) < Turn(NewPool(idleTimeout, maxConnections), steps, queue[j])
  {
    var d := Reached(idleTimeout, maxConnections, steps);
    RunKeeps(idleTimeout, maxConnections, steps);
    TicketsAreTurns(idleTimeout, maxConnections, steps);
    hide Inv, Legal, Live, NetLocOf, Turn, Askings, Run;
    InLine(d, k, i, j);
    LiveIsAccepted(d, d.rows[k].queue[i]);
    LiveIsAccepted(d, d.rows[k].queue[j]);
  }

  lemma InLine(s: PoolState, k: NetLoc, i: nat, j: nat)
    requires Inv(s) && k in s.rows && i < j < |s.rows[k].queue|
    ensures var a, b := s.rows[k].queue[i], s.rows[k].queue[j];
      a in s.requests && b in s.requests && Live(s, a) && Live(s, b) && s.requests[a].life.ticket < s.requests[b].life.ticket
  {
    WaitingPlace(s, s.rows[k].queue[i], k, i);
    WaitingPlace(s, s.rows[k].queue[j], k, j);
    hide RequestsOk, LinksOk, PlacesOk, HomesOk, RowsOk, NetLocOf;
    assert QueueOrdered(s, k, s.rows[k].queue);
  }
}

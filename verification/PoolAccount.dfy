/** What a step of the client side does to the account of a request: how often it was submitted,
    and what it has been told. */
module PoolAccount {
  import opened Options
  import opened Pooling
  import opened PoolInvariant
  import opened PoolSteps
  import opened PoolRequests
  import opened PoolRuns

  /** The user's settings stay, and what has been told stays told. */
  ghost predicate Same(q: Request, p: Request) {
    && q.settings == p.settings
    && q.life.accepted == p.life.accepted && q.life.acceptedAt == p.life.acceptedAt
    && q.life.verdicts <= p.life.verdicts
  }

  ghost predicate Faithful(s: PoolState, d: PoolState) {
    forall r :: r in s.requests ==> r in d.requests && Same(s.requests[r], d.requests[r])
  }

  lemma FaithfulTwice(s: PoolState, t: PoolState, d: PoolState)
    requires Faithful(s, t) && Faithful(t, d)
    ensures Faithful(s, d)
  {
  }

  lemma OneChange(s: PoolState, d: PoolState, r: nat)
    requires r in s.requests && r in d.requests && d.requests == s.requests[r := d.requests[r]]
    requires Same(s.requests[r], d.requests[r])
    ensures Faithful(s, d)
  {
  }

  lemma NoChange(s: PoolState, d: PoolState)
    requires d.requests == s.requests
    ensures Faithful(s, d)
  {
  }

  lemma StartFaithful(s: PoolState, c: nat, r: nat)
    requires c in s.clients && r in s.requests
    ensures Faithful(s, StartOn(s, c, r).0)
  {
    hide Carrying, NetLocOf, Reconnects, Same;
    var d := StartOn(s, c, r).0;
    assert d.requests == s.requests[r := d.requests[r]];
    var q1 := Claimed(s.requests[r], c);
    SentSame(q1, s.now);
    assert Same(s.requests[r], q1) && Same(s.requests[r], Sent(q1, s.now)) && Same(s.requests[r], s.requests[r]) by {
      ClaimedSame(s.requests[r], c, s.now);
    }
    OneChange(s, d, r);
  }

  lemma ClaimedSame(q: Request, c: nat, now: nat)
    ensures Same(q, q) && Same(q, Claimed(q, c)) && Same(q, Sent(Claimed(q, c), now))
  {
    SentSame(Claimed(q, c), now);
  }

  lemma LaunchFaithful(s: PoolState, k: NetLoc, c: nat, r: nat)
    requires c in s.clients && r in s.requests
    ensures Faithful(s, Launch(s, k, c, r).0)
  {
    hide StartOn, Same;
    StartFaithful(Logged(s, k, r), c, r);
  }

  lemma PutbackFaithful(s: PoolState, c: nat)
    requires c in s.clients
    ensures Faithful(s, Putback(s, c))
  {
    hide Launch;
    var k := s.clients[c].netloc;
    if k in s.rows && s.rows[k].queue != [] && s.rows[k].queue[0] in s.requests {
      hide Same;
      LaunchFaithful(Popped(s, k), k, c, s.rows[k].queue[0]);
    }
  }

  lemma PoolRequestFaithful(s: PoolState, r: nat, pick: nat)
    requires r in s.requests
    ensures Faithful(s, PoolRequest(s, r, pick).0)
  {
    var q := s.requests[r];
    var k := NetLocOf(q);
    if q.uri.host != "" && Pickable(s, k, pick) {
      hide NetLocOf, Launch, Take, Enqueue, Pickable;
      var t := Ticketed(s, r);
      OneChange(s, t, r);
      var c := Choose(t, k, pick);
      if c.Some? {
        TakeIsNothingElse(t, k, pick);
        assert PoolRequest(s, r, pick) == Launch(Take(t, k, pick), k, c.value, r);
        LaunchFaithful(Take(t, k, pick), k, c.value, r);
      } else {
        EnqueueFaithful(t, k, r);
      }
    }
  }

  lemma EnqueueFaithful(s: PoolState, k: NetLoc, r: nat)
    requires k in s.rows && r in s.requests
    ensures Faithful(s, Enqueue(s, k, r))
  {
    ArmSame(s.requests[r], s.now);
    hide Arm;
    OneChange(s, Enqueue(s, k, r), r);
  }

  lemma NotifySame(q: Request, v: Verdict)
    ensures Same(q, Notify(q, v)) && Notify(q, v).life.verdicts == q.life.verdicts + [v]
  {
  }

  lemma FinishFaithful(s: PoolState, c: nat, e: Option<Error>, keepAlive: bool)
    requires Active(s, c)
    ensures Faithful(s, FinishOn(s, c, e, keepAlive))
  {
    hide Let, Notify, VerdictOf, Putback;
    var cl := s.clients[c];
    var r := cl.request.value;
    var v := VerdictOf(s.requests[r], e);
    var s1 := SetClient(s, c, Let(cl, s.requests[r], v, keepAlive, s.now));
    NoChange(s, s1);
    var s2 := if cl.pooled then Putback(s1, c) else s1;
    if cl.pooled { PutbackFaithful(s1, c); }
    FaithfulTwice(s, s1, s2);
    if r in s2.requests {
      NotifySame(s2.requests[r], v);
      OneChange(s2, SetRequest(s2, r, Notify(s2.requests[r], v)), r);
      FaithfulTwice(s, s2, SetRequest(s2, r, Notify(s2.requests[r], v)));
    }
  }

  lemma FinishAfterChange(s: PoolState, c: nat, q: Request, e: Error)
    requires Active(s, c) && Same(s.requests[s.clients[c].request.value], q)
    ensures Faithful(s, CancelOn(SetRequest(s, s.clients[c].request.value, q), c, e))
  {
    hide Same, FinishOn;
    var r := s.clients[c].request.value;
    var d := SetRequest(s, r, q);
    OneChange(s, d, r);
    FinishFaithful(d, c, Some(e), false);
    FaithfulTwice(s, d, CancelOn(d, c, e));
  }

  lemma HopSame(q: Request, location: Uri, m: Message)
    ensures Same(q, Redirected(q, location)) && Same(q, q.(counter := Increment(q.counter))) && Same(q, q)
    ensures m.callback.Follow? ==> Same(q, Hop(q, location, m))
  {
  }

  lemma FollowFaithful(s: PoolState, c: nat, location: Uri, m: Message)
    requires Active(s, c) && m.callback.Follow?
    ensures Faithful(s, FollowOn(s, c, location, m))
  {
    hide LetHop, Hop, Putback, PoolRequest, StartOn, NetLocOf, Same;
    var cl := s.clients[c];
    var r := cl.request.value;
    var q := s.requests[r];
    HopSame(q, location, m);
    if cl.pooled && ElsewhereThan(NetLocOf(Hop(q, location, m)), cl.netloc) {
      FollowAwayIs(s, c, location, m);
      var s1 := LetGo(s, c, LetHop(cl, q, m.keepAlive).(lastActivity := s.now), r, Hop(q, location, m));
      OneChange(s, s1, r);
      PutbackFaithful(s1, c);
      var s2 := PutBackForHop(s, c, location, m);
      FaithfulTwice(s, s1, s2);
      if c in s2.clients && r in s2.requests {
        var s3 := SetClient(s2, c, s2.clients[c].(weak := true));
        NoChangeSame(s2, s3);
        PoolRequestFaithful(s3, r, m.pick);
        FaithfulTwice(s2, s3, PoolRequest(s3, r, m.pick).0);
        FaithfulTwice(s, s2, PoolRequest(s3, r, m.pick).0);
      }
    } else {
      FollowHereIs(s, c, location, m);
      var s1 := LetGo(s, c, LetHop(cl, q, m.keepAlive), r, Hop(q, location, m));
      OneChange(s, s1, r);
      StartFaithful(s1, c, r);
      FaithfulTwice(s, s1, StartOn(s1, c, r).0);
    }
  }

  lemma NoChangeSame(s: PoolState, d: PoolState)
    requires d.requests == s.requests
    ensures Faithful(s, d)
  {
    NoChange(s, d);
  }

  lemma AnalyzeFaithful(s: PoolState, c: nat, m: Message)
    requires Active(s, c)
    ensures Faithful(s, AnalyzeOn(s, c, m))
  {
    var r := s.clients[c].request.value;
    var q := s.requests[r];
    NoChange(s, s);
    hide FinishOn, FollowOn, Faithful, Same;
    if m.location.Some? { HopSame(q, m.location.value, m); } else { HopSame(q, q.uri, m); }
    if m.code == 100 {
    } else if !(q.settings.followRedirect && IsRedirect(m.code)) {
      FinishFaithful(s, c, None, m.keepAlive);
    } else if q.settings.redirectionLimit == 0 {
      FinishFaithful(s, c, Some(UnexpectedRedirect), false);
    } else if Increment(q.counter) > q.settings.redirectionLimit {
      FinishAfterChange(s, c, q.(counter := Increment(q.counter)), RedirectionLimit);
    } else if m.location.None? {
      FinishAfterChange(s, c, q.(counter := Increment(q.counter)), NoRedirectUri);
    } else if m.callback.CancelInside? {
      FinishAfterChange(s, c, Redirected(q, m.location.value), m.callback.error);
    } else {
      FollowFaithful(s, c, m.location.value, m);
    }
  }

  lemma CancelFaithful(s: PoolState, r: nat, e: Error)
    requires r in s.requests
    ensures Faithful(s, CancelRequest(s, r, e))
  {
    NoChange(s, s);
    hide NetLocOf, FinishOn, Notify;
    var q := s.requests[r];
    if q.client.Some? {
      hide Same;
      if Active(s, q.client.value) { FinishFaithful(s, q.client.value, Some(e), false); }
    } else if q.pooled {
      NotifySame(q, Failed(e));
      var d := CancelQueued(s, r, e);
      if d.requests != s.requests { OneChange(s, d, r); }
    }
  }

  lemma ExpireFaithful(s: PoolState, r: nat)
    requires r in s.requests && s.requests[r].timer.Some?
    ensures Faithful(s, Expire(s, r))
  {
    hide CancelRequest;
    var q := s.requests[r];
    var s1 := SetRequest(s, r, q.(timer := Some(q.timer.value.(active := false))));
    OneChange(s, s1, r);
    var e := if q.client.Some? && q.client.value in s.clients && s.clients[q.client.value].connecting
             then ConnectTimedOut else TimedOut;
    CancelFaithful(s1, r, e);
    FaithfulTwice(s, s1, CancelRequest(s1, r, e));
  }

  lemma DestroyFaithful(s: PoolState)
    ensures Faithful(s, Destroy(s))
  {
    hide Notify, InQueue, InBusy;
    forall r | r in s.requests ensures Same(s.requests[r], Destroy(s).requests[r]) {
      NotifySame(s.requests[r], Failed(OperationCanceled));
    }
  }

  lemma TransferFaithful(s: PoolState, r: nat)
    requires r in s.requests
    ensures Faithful(s, FinalChunk(s, r).0)
  {
  }

  /** Except for a submission, a step changes no request's settings and takes back no answer. */
  lemma StepFaithful(s: PoolState, step: Step)
    requires Enabled(s, step) && !step.Submit?
    ensures Faithful(s, Next(s, step))
  {
    NoChange(s, s);
    hide CancelRequest, Expire, AnalyzeOn, FinishOn, Same, Fresh, Pickable, NetLocOf;
    match step
    case Create(r, q) => CreateFaithful(s, r, q);
    case Cancel(r, e) => CancelFaithful(s, r, e);
    case TransferDone(r) => TransferFaithful(s, r);
    case TimerFires(r) => ExpireFaithful(s, r);
    case Connected(c) =>
    case Disturbed(c, e) => FinishFaithful(s, c, Some(e), false);
    case Received(c, m) => AnalyzeFaithful(s, c, m);
    case Unexpected(c) =>
    case Swept =>
    case Destroyed => DestroyFaithful(s);
    case Tick(now) =>
  }

  lemma CreateFaithful(s: PoolState, r: nat, q: Request)
    requires r !in s.requests
    ensures Faithful(s, SetRequest(s, r, q))
  {
    NoChange(s, s);
    hide Same;
  }

  lemma AccountOf(s: PoolState, r: nat)
    requires Inv(s) && r in s.requests
    ensures s.requests[r].life.accepted == |s.requests[r].life.verdicts| + if Live(s, r) then 1 else 0
  {
    hide LinksOk, PlacesOk, HomesOk, RowsOk, OrderOk, Live, CounterOk, Armed;
  }

  /** A request is told the outcome exactly once, in the step in which it leaves the pool, and a request
      that is not in progress does not get there by itself. */
  lemma ToldOnLeaving(s: PoolState, step: Step, r: nat)
    requires Inv(s) && Enabled(s, step) && Safe(s, step) && !step.Submit? && r in s.requests
    ensures var d := Next(s, step);
      && r in d.requests
      && (Live(d, r) ==> Live(s, r))
      && s.requests[r].life.verdicts <= d.requests[r].life.verdicts
      && |d.requests[r].life.verdicts| == |s.requests[r].life.verdicts| + if Live(s, r) && !Live(d, r) then 1 else 0
  {
    StepKeeps(s, step);
    StepFaithful(s, step);
    hide Inv, Next, Enabled, Safe, Live;
    AccountOf(s, r);
    AccountOf(Next(s, step), r);
  }

  // ---------------------------------------------------------------- what is told

  lemma FinishSettles(s: PoolState, c: nat, q: Request, e: Option<Error>, keepAlive: bool)
    requires Inv(s) && Active(s, c)
    requires var p := s.requests[s.clients[c].request.value];
      q.life == p.life && q.settings == p.settings && (q.timer.Some? ==> p.timer.Some?)
    ensures var r := s.clients[c].request.value;
      var d := FinishOn(SetRequest(s, r, q), c, e, keepAlive);
      && r in d.requests && !Live(d, r)
      && d.requests[r].life.verdicts == q.life.verdicts + [VerdictOf(q, e)]
  {
    var r := s.clients[c].request.value;
    ActiveIsOwed(s, c);
    FinishCountedKeeps(s, c, q, e, keepAlive);
    hide Partial, Let, Notify, VerdictOf, Putback, Live, LiveOk, Owed;
    var cl := s.clients[c];
    var t := SetRequest(s, r, q);
    var v := VerdictOf(q, e);
    var after := Let(cl, q, v, keepAlive, s.now);
    LetShape(cl, q, v, keepAlive, s.now);
    LetGoKeeps(s, c, after, r, q);
    var s1 := SetClient(t, c, after);
    assert s1 == LetGo(s, c, after, r, q);
    assert r in {r};
    if cl.pooled { PutbackKeeps(s1, c, map[c := cl.netloc], {r}); }
    NotifySame(q, v);
    AccountOf(FinishOn(t, c, e, keepAlive), r);
  }

  lemma CancelActiveSettles(s: PoolState, r: nat, q: Request, e: Error)
    requires Inv(s) && r in s.requests && q.client.Some?
    requires var p := s.requests[r]; q == p.(timer := q.timer) && (q.timer.Some? ==> p.timer.Some?)
    ensures var d := CancelRequest(SetRequest(s, r, q), r, e);
      && r in d.requests && !Live(d, r) && d.requests[r].life.verdicts == q.life.verdicts + [Failed(e)]
  {
    LiveIs(s, r);
    hide Inv, NetLocOf, FinishOn, Live;
    FinishSettles(s, q.client.value, q, Some(e), false);
  }

  lemma CancelQueuedSettles(s: PoolState, r: nat, q: Request, e: Error)
    requires Inv(s) && r in s.requests && Live(s, r) && q.client.None?
    requires var p := s.requests[r]; q == p.(timer := q.timer) && (q.timer.Some? ==> p.timer.Some?)
    ensures var d := CancelRequest(SetRequest(s, r, q), r, e);
      && r in d.requests && !Live(d, r) && d.requests[r].life.verdicts == q.life.verdicts + [Failed(e)]
  {
    CancelKeeps(s, r, q, e);
    AccountOf(s, r);
    LivePooled(s, r);
    QueuedHere(s, r, q);
    hide Inv, NetLocOf, Notify, Live, CancelQueued, Queued;
    CancelQueuedIs(s, r, q, e, NetLocOf(s.requests[r]));
    NotifySame(q, Failed(e));
    AccountOf(CancelRequest(SetRequest(s, r, q), r, e), r);
  }

  lemma LivePooled(s: PoolState, r: nat)
    requires Inv(s) && r in s.requests && Live(s, r)
    ensures s.requests[r].pooled
  {
    hide LinksOk, PlacesOk, HomesOk, RowsOk, OrderOk, Live, CounterOk, Armed;
  }

  /** Cancelling a request, active or waiting, settles it with that error at once; a request that is
      not in progress is left alone. */
  lemma CancelSettles(s: PoolState, r: nat, e: Error)
    requires Inv(s) && r in s.requests
    ensures Live(s, r) ==>
      var d := CancelRequest(s, r, e);
      r in d.requests && !Live(d, r) && d.requests[r].life.verdicts == s.requests[r].life.verdicts + [Failed(e)]
    ensures !Live(s, r) ==> CancelRequest(s, r, e) == s
  {
    LiveIs(s, r);
    var q := s.requests[r];
    assert SetRequest(s, r, q) == s;
    if Live(s, r) {
      hide Inv, Live, CancelRequest, Queued;
      if q.client.Some? { CancelActiveSettles(s, r, q, e); } else { CancelQueuedSettles(s, r, q, e); }
    } else {
      IdleIs(s, r);
    }
  }

  /** A timer fires for a request in progress only, not before the time its user set, counted from the
      submission, and settles it; the error tells whether the request is on a client that is still
      connecting. */
  lemma TimeoutWhenDue(s: PoolState, r: nat)
    requires Inv(s) && Enabled(s, TimerFires(r))
    ensures Live(s, r) && s.requests[r].life.acceptedAt + s.requests[r].settings.timeout <= s.now
    ensures var d := Next(s, TimerFires(r));
      && r in d.requests && !Live(d, r)
      && d.requests[r].life.verdicts == s.requests[r].life.verdicts +
           [Failed(if exists c :: Active(s, c) && s.clients[c].request == Some(r) && s.clients[c].connecting
                   then ConnectTimedOut else TimedOut)]
  {
    LiveIs(s, r);
    DueIs(s, r);
    hide Inv, Live, CancelRequest;
    var q := s.requests[r];
    var stopped := q.(timer := Some(q.timer.value.(active := false)));
    var e := if q.client.Some? && q.client.value in s.clients && s.clients[q.client.value].connecting
             then ConnectTimedOut else TimedOut;
    ConnectingIff(s, r);
    if q.client.Some? { CancelActiveSettles(s, r, stopped, e); } else { CancelQueuedSettles(s, r, stopped, e); }
  }

  lemma ConnectingIff(s: PoolState, r: nat)
    requires Inv(s) && r in s.requests
    ensures var q := s.requests[r];
      q.client.Some? && q.client.value in s.clients && s.clients[q.client.value].connecting
      <==> exists c :: Active(s, c) && s.clients[c].request == Some(r) && s.clients[c].connecting
  {
    hide RequestsOk, PlacesOk, HomesOk, RowsOk, OrderOk;
    var q := s.requests[r];
    if q.client.Some? { assert Active(s, q.client.value); }
  }

  lemma DueIs(s: PoolState, r: nat)
    requires Inv(s) && r in s.requests && Live(s, r) && s.requests[r].timer.Some?
    ensures s.requests[r].timer.value.deadline == s.requests[r].life.acceptedAt + s.requests[r].settings.timeout
  {
    hide LinksOk, PlacesOk, HomesOk, RowsOk, OrderOk, Live, CounterOk;
  }
}

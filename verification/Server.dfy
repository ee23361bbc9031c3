/** The server: a map of connections, started and stopped. */
module ServerLifecycle {
  import opened Wire
  import opened Connection
  import opened Invariant
  import opened Serving
  import opened Lifetime
  import opened Recursion
  import opened Effects

  datatype State = Initial | Running | Stopping

  /** `stopEvents` counts the times stop_event has fired. The last three fields are history: the connections
      that have left the server, how often it was started, and how often stop() was called while it was
      stopping. */
  datatype ServerState = ServerState(
    state: State,
    listening: bool,
    connections: map<nat, Conn>,
    lastId: nat,
    maxKeepAlive: nat,
    stopEvents: nat,
    gone: map<nat, Conn>,
    starts: nat,
    impatient: nat)

  function NewServer(maxKeepAlive: nat): ServerState {
    ServerState(Initial, false, map[], 0, maxKeepAlive, 0, map[], 0, 0)
  }

  function StopIfDone(s: ServerState): ServerState {
    if s.connections == map[] then s.(state := Initial, stopEvents := s.stopEvents + 1) else s
  }

  /** Server::remove. */
  function Remove(s: ServerState, id: nat): ServerState
    requires id in s.connections
  {
    var r := s.(connections := s.connections - {id}, gone := s.gone[id := s.connections[id]]);
    if s.state.Stopping? then StopIfDone(r) else r
  }

  function Start(s: ServerState): (ServerState, Outcome) {
    if !s.state.Initial? then (s, Threw)
    else (s.(state := Running, listening := true, starts := s.starts + 1), Ok)
  }

  function Closed(m: map<nat, Conn>): map<nat, Conn> {
    map id | id in m :: Close(m[id])
  }

  /** Server::stop: closing the last connection of a stopping server fires stop_event on its own. */
  function Stop(s: ServerState): ServerState {
    if s.state.Initial? then s
    else
      var early := if s.state.Stopping? && s.connections != map[] then 1 else 0;
      s.(state := Initial, listening := false, connections := map[],
         stopEvents := s.stopEvents + early + 1,
         gone := s.gone + Closed(s.connections),
         impatient := s.impatient + if s.state.Stopping? then 1 else 0)
  }

  function GracefulStops(m: map<nat, Conn>): map<nat, Conn> {
    map id | id in m :: GracefulStop(m[id])
  }

  /** Server::graceful_stop. */
  function StopGracefully(s: ServerState): ServerState {
    if !s.state.Running? then s
    else StopIfDone(s.(state := Stopping, listening := false, connections := GracefulStops(s.connections)))
  }

  function Establish(s: ServerState): ServerState {
    s.(lastId := s.lastId + 1, connections := s.connections[s.lastId + 1 := NewConn(s.maxKeepAlive)])
  }

  /** A step of one connection; the connection may leave the server. */
  function ConnectionStep(s: ServerState, id: nat, step: Step): ServerState {
    if id !in s.connections then s
    else
      var c := Next(s.connections[id], step);
      var t := s.(connections := s.connections[id := c]);
      if c.removed then Remove(t, id) else t
  }

  datatype ServerStep = Started | Stopped | StoppedGracefully | Established | OnConnection(id: nat, step: Step)

  function ServerNext(s: ServerState, step: ServerStep): ServerState {
    match step
    case Started => Start(s).0
    case Stopped => Stop(s)
    case StoppedGracefully => StopGracefully(s)
    case Established => Establish(s)
    case OnConnection(id, st) => ConnectionStep(s, id, st)
  }

  ghost predicate AllQuiet(s: ServerState) {
    forall id :: id in s.connections ==> s.connections[id].phase.Quiet?
  }

  /** Clients connect while the server listens; it is stopped from outside the callbacks of its connections. */
  ghost predicate ServerEnabled(s: ServerState, step: ServerStep) {
    match step
    case Started => true
    case Stopped => AllQuiet(s)
    case StoppedGracefully => AllQuiet(s)
    case Established => s.listening
    case OnConnection(id, st) => id in s.connections && Enabled(s.connections[id], st)
  }

  function ServerRun(s: ServerState, steps: seq<ServerStep>): ServerState {
    if steps == [] then s else ServerNext(ServerRun(s, steps[..|steps| - 1]), steps[|steps| - 1])
  }

  ghost predicate ServerLegal(s: ServerState, steps: seq<ServerStep>) {
    if steps == [] then true
    else
      && ServerLegal(s, steps[..|steps| - 1])
      && ServerEnabled(ServerRun(s, steps[..|steps| - 1]), steps[|steps| - 1])
  }

  // ---------------------------------------------------------------- invariant

  /** The connection is down, or it is stopping and has a request to answer. */
  ghost predicate Leaving(c: Conn) { !c.link.Up? || (c.stopping && c.requests != []) }

  /** The connection is down, and no request is left on it. */
  ghost predicate LeftFor(c: Conn) { !c.link.Up? && c.requests == [] && c.removed }

  ghost predicate ServerInv(s: ServerState) {
    && (forall id :: id in s.connections ==> Inv(s.connections[id]) && !s.connections[id].removed)
    && (forall id :: id in s.gone ==> Inv(s.gone[id]) && LeftFor(s.gone[id]))
    && (forall id :: id in s.connections ==> id !in s.gone)
    && (forall id :: id in s.connections || id in s.gone <==> 0 < id <= s.lastId)
    && (s.listening <==> s.state.Running?)
    && (s.state.Initial? ==> s.connections == map[])
    && (s.state.Stopping? ==> s.connections != map[])
    && (s.state.Stopping? ==> forall id :: id in s.connections ==> Leaving(s.connections[id]))
    && s.stopEvents + (if s.state.Initial? then 0 else 1) == s.starts + s.impatient
  }

  lemma GracefulStopLeaves(c: Conn)
    requires Inv(c) && c.phase.Quiet? && !c.removed
    ensures Inv(GracefulStop(c)) && Leaving(GracefulStop(c)) && !GracefulStop(c).removed
  {
    hide Inv;
    GracefulStopKeeps(c);
  }

  lemma LeavingStays(c: Conn, step: Step)
    requires Leaving(c) && Enabled(c, step)
    ensures Leaving(Next(c, step))
  {
    hide Next, Enabled;
    StepGrows(c, step);
    StepBusy(c, step);
  }

  /** A step that takes a connection off its server takes it down. */
  lemma RemovedIsDown(c: Conn, step: Step)
    requires Inv(c) && Enabled(c, step) && !c.removed && Next(c, step).removed
    ensures !Next(c, step).link.Up?
  {
    hide Next, Inv;
    if c.link.Reset? || c.link.Detached? { StepGrows(c, step); } else { StepLeavesServer(c, step); }
    if step.StepShutdownDone? { StepGrows(c, step); }
  }

  /** The connection is still on its server, as far as it was, and has not been closed hard. */
  predicate StaysOn(c: Conn, d: Conn) { d.removed == c.removed && (d.link == c.link || d.link.Shut?) }

  lemma ArriveStays(c: Conn, p: Parsed)
    ensures StaysOn(c, Arrive(c, p))
  {
  }

  lemma {:induction false} FinishStaysOn(c: Conn, drained: bool)
    requires c.requests != []
    ensures StaysOn(c, Finish(c, drained))
    decreases |c.requests|, 0
  {
    hide SendFront;
    if c.requests[0].done {
      var d := Depart(c, Answered);
      if !c.closing && !c.stopping && d.requests != [] && d.requests[0].response.Some? { WriteNextStaysOn(d, drained); }
    }
  }

  lemma {:induction false} WriteNextStaysOn(c: Conn, drained: bool)
    requires c.requests != [] && c.requests[0].response.Some?
    ensures StaysOn(c, WriteNext(c, drained))
    decreases |c.requests|, 1
  {
    SendFrontStaysOn(c);
    hide SendFront;
    if c.requests[0].response.value.completed { FinishStaysOn(SendFront(c), drained); }
  }

  lemma SendFrontStaysOn(c: Conn)
    requires c.requests != [] && c.requests[0].response.Some?
    ensures StaysOn(c, SendFront(c)) && 0 < |SendFront(c).requests| <= |c.requests|
  {
    SentRemoved(c);
    hide SendFront;
  }

  lemma SentRemoved(c: Conn)
    requires c.requests != [] && c.requests[0].response.Some?
    ensures StaysOn(c, SendFront(c)) && 0 < |SendFront(c).requests| <= |c.requests|
  {
    hide ToVector, Chunks, Drops, Marked;
    assert SendHead(c).removed == c.removed && |SendHead(c).requests| == |c.requests|;
    hide SendHead;
  }

  lemma CallStaysOn(c: Conn, step: Step)
    requires step.StepRespond? || step.StepChunk? || step.StepFinal?
    ensures StaysOn(c, Next(c, step))
  {
    hide WriteNext, Finish, CompletedBefore;
    if EndsFront(c, step) {
      EndedIs(c, step);
      EndedRemoved(c, step.text);
      FinishStaysOn(Ended(c, step.text), step.drained);
    } else if AnswersFront(c, step) {
      GivenIs(c, step);
      WriteNextStaysOn(Given(c, step), step.drained);
    } else {
      OtherCallStaysOn(c, step);
    }
  }

  lemma EndedRemoved(c: Conn, text: string)
    requires c.requests != [] && c.requests[0].response.Some?
    ensures StaysOn(c, Ended(c, text)) && Ended(c, text).requests != []
  {
  }

  lemma OtherCallStaysOn(c: Conn, step: Step)
    requires step.StepRespond? || step.StepChunk? || step.StepFinal?
    requires !EndsFront(c, step) && !AnswersFront(c, step)
    ensures StaysOn(c, Next(c, step))
  {
    hide WriteNext, Finish, CompletedBefore, IndexOf;
  }

  lemma ErrorTailStaysOn(c: Conn, drained: bool)
    requires c.phase.InError?
    ensures StaysOn(c, ErrorTail(c, drained))
  {
    hide WriteNext;
    var step := StepErrorTail(drained);
    if AnswersFront(c, step) {
      GivenIs(c, step);
      WriteNextStaysOn(Given(c, step), drained);
    }
  }

  /** In every reachable state: a step takes a connection off its server if and only if it ends a soft close, or
      takes the connection down by a hard close or an upgrade. */
  lemma {:induction false} LeavesServerIff(maxKeepAlive: nat, steps: seq<Step>, s: Step)
    requires Legal(NewConn(maxKeepAlive), steps) && Enabled(Run(NewConn(maxKeepAlive), steps), s)
    requires var c := Run(NewConn(maxKeepAlive), steps); !c.removed && !c.link.Reset? && !c.link.Detached?
    ensures var d := Next(Run(NewConn(maxKeepAlive), steps), s);
      d.removed <==> s.StepShutdownDone? || d.link.Reset? || d.link.Detached?
  {
    hide Legal, Run;
    StepLeavesServer(Run(NewConn(maxKeepAlive), steps), s);
  }

  lemma StepLeavesServer(c: Conn, s: Step)
    requires Enabled(c, s) && !c.removed && !c.link.Reset? && !c.link.Detached?
    ensures var d := Next(c, s); d.removed <==> s.StepShutdownDone? || d.link.Reset? || d.link.Detached?
  {
    hide WriteNext, Finish, Drops;
    match s
    case StepArrive(p) => ArriveStays(c, p);
    case StepRespond(_, _, _) => CallStaysOn(c, s);
    case StepChunk(_, _) => CallStaysOn(c, s);
    case StepFinal(_, _, _) => CallStaysOn(c, s);
    case StepTail(drained) => if c.requests != [] { FinishStaysOn(c.(phase := Quiet), drained); }
    case StepErrorTail(drained) => ErrorTailStaysOn(c, drained);
    case _ =>
  }

  lemma DownIsEmpty(c: Conn)
    requires Inv(c) && !c.link.Up?
    ensures c.requests == []
  {
  }

  lemma IsLeft(c: Conn)
    requires !c.link.Up? && c.requests == [] && c.removed
    ensures LeftFor(c)
  {
  }

  lemma ReplaceKeeps(s: ServerState, id: nat, c: Conn)
    requires ServerInv(s) && id in s.connections && Inv(c) && !c.removed && (s.state.Stopping? ==> Leaving(c))
    ensures ServerInv(s.(connections := s.connections[id := c]))
  {
    hide Inv, Leaving, LeftFor;
  }

  lemma RemoveKeeps(s: ServerState, id: nat, c: Conn)
    requires ServerInv(s) && id in s.connections && Inv(c) && LeftFor(c)
    ensures ServerInv(Remove(s.(connections := s.connections[id := c]), id))
  {
    hide Inv, Leaving, LeftFor;
    var m := s.connections[id := c] - {id};
    assert m == s.connections - {id};
    assert forall x :: x in m ==> x in s.connections && m[x] == s.connections[x];
  }

  lemma ConnectionStepKeeps(s: ServerState, id: nat, step: Step)
    requires ServerInv(s) && id in s.connections && Enabled(s.connections[id], step)
    ensures ServerInv(ConnectionStep(s, id, step))
  {
    var c := s.connections[id];
    ConnectionOk(s, id);
    hide Inv, Next, Enabled, Leaving, LeftFor, ServerInv, Remove;
    StepKeeps(c, step);
    if Next(c, step).removed {
      RemovedIsDown(c, step);
      DownIsEmpty(Next(c, step));
      IsLeft(Next(c, step));
      RemoveKeeps(s, id, Next(c, step));
    } else {
      if s.state.Stopping? { LeavingStays(c, step); }
      ReplaceKeeps(s, id, Next(c, step));
    }
  }

  lemma ConnectionOk(s: ServerState, id: nat)
    requires ServerInv(s) && id in s.connections
    ensures Inv(s.connections[id]) && !s.connections[id].removed
    ensures s.state.Stopping? ==> Leaving(s.connections[id])
  {
    hide Inv, Leaving, LeftFor;
  }

  lemma StopKeeps(s: ServerState)
    requires ServerInv(s) && AllQuiet(s)
    ensures ServerInv(Stop(s))
  {
    hide Inv, Close, Leaving;
    forall id | id in s.connections ensures Inv(Close(s.connections[id])) && LeftFor(Close(s.connections[id])) {
      CloseLeaves(s.connections[id]);
    }
  }

  lemma CloseLeaves(c: Conn)
    requires Inv(c) && c.phase.Quiet?
    ensures Inv(Close(c)) && LeftFor(Close(c))
  {
    StepKeeps(c, StepClose);
    hide Inv;
  }

  lemma StopGracefullyKeeps(s: ServerState)
    requires ServerInv(s) && AllQuiet(s)
    ensures ServerInv(StopGracefully(s))
  {
    hide Inv, GracefulStop, Leaving;
    forall id | id in s.connections
      ensures Inv(GracefulStop(s.connections[id])) && Leaving(GracefulStop(s.connections[id]))
      ensures !GracefulStop(s.connections[id]).removed
    {
      GracefulStopLeaves(s.connections[id]);
    }
  }

  lemma ServerStepKeeps(s: ServerState, step: ServerStep)
    requires ServerInv(s) && ServerEnabled(s, step)
    ensures ServerInv(ServerNext(s, step))
  {
    hide Inv, GracefulStop, Leaving;
    match step
    case Started =>
    case Stopped => StopKeeps(s);
    case StoppedGracefully => StopGracefullyKeeps(s);
    case Established => NewKeeps(s.maxKeepAlive);
    case OnConnection(id, st) => ConnectionStepKeeps(s, id, st);
  }

  lemma {:induction false} ServerRunKeeps(maxKeepAlive: nat, steps: seq<ServerStep>)
    requires ServerLegal(NewServer(maxKeepAlive), steps)
    ensures ServerInv(ServerRun(NewServer(maxKeepAlive), steps))
  {
    if steps != [] {
      ServerRunKeeps(maxKeepAlive, steps[..|steps| - 1]);
      ServerStepKeeps(ServerRun(NewServer(maxKeepAlive), steps[..|steps| - 1]), steps[|steps| - 1]);
    }
  }

  // ---------------------------------------------------------------- what a user of the server sees

  /** How often the server has been started when it was inactive. */
  function Starts(s: ServerState, steps: seq<ServerStep>): nat {
    if steps == [] then 0
    else
      var before := steps[..|steps| - 1];
      Starts(s, before) + if steps[|steps| - 1].Started? && ServerRun(s, before).state.Initial? then 1 else 0
  }

  /** How often stop() has been called while the server was stopping. */
  function ImpatientStops(s: ServerState, steps: seq<ServerStep>): nat {
    if steps == [] then 0
    else
      var before := steps[..|steps| - 1];
      ImpatientStops(s, before) + if steps[|steps| - 1].Stopped? && ServerRun(s, before).state.Stopping? then 1 else 0
  }

  /** How many connections have been established. */
  function Establishments(steps: seq<ServerStep>): nat {
    if steps == [] then 0
    else Establishments(steps[..|steps| - 1]) + if steps[|steps| - 1].Established? then 1 else 0
  }

  /** The counters of the server count what they should. */
  lemma StepCounts(s: ServerState, step: ServerStep)
    ensures var d := ServerNext(s, step);
      && d.starts == s.starts + (if step.Started? && s.state.Initial? then 1 else 0)
      && d.impatient == s.impatient + (if step.Stopped? && s.state.Stopping? then 1 else 0)
      && d.lastId == s.lastId + (if step.Established? then 1 else 0)
  {
    hide Next, Close, GracefulStop, NewConn;
  }

  lemma {:induction false} RunCounts(maxKeepAlive: nat, steps: seq<ServerStep>)
    ensures var s := ServerRun(NewServer(maxKeepAlive), steps);
      && s.starts == Starts(NewServer(maxKeepAlive), steps)
      && s.impatient == ImpatientStops(NewServer(maxKeepAlive), steps)
      && s.lastId == Establishments(steps)
  {
    hide ServerNext;
    if steps != [] {
      RunCounts(maxKeepAlive, steps[..|steps| - 1]);
      StepCounts(ServerRun(NewServer(maxKeepAlive), steps[..|steps| - 1]), steps[|steps| - 1]);
    }
  }

  /** Over every run: the server has fired stop_event once for each time it was started and is no longer
      active, plus once for each stop() called while it was stopping, as the steps tell; it is inactive only without
      connections; while it is stopping it has connections, and each of them is down or has a request to
      answer and stops behind it. */
  lemma {:induction false} StopEvents(maxKeepAlive: nat, steps: seq<ServerStep>)
    requires ServerLegal(NewServer(maxKeepAlive), steps)
    ensures var s := ServerRun(NewServer(maxKeepAlive), steps);
      && s.stopEvents ==
           Starts(NewServer(maxKeepAlive), steps) + ImpatientStops(NewServer(maxKeepAlive), steps)
           - (if s.state.Initial? then 0 else 1)
      && (s.state.Initial? ==> s.connections == map[])
      && (s.state.Stopping? ==> s.connections != map[])
      && (s.state.Stopping? ==> forall id :: id in s.connections ==> Leaving(s.connections[id]))
  {
    hide Inv, Leaving;
    ServerRunKeeps(maxKeepAlive, steps);
    RunCounts(maxKeepAlive, steps);
  }

  /** A step fires stop_event twice exactly when it is a stop() of a server that is stopping, once exactly
      when it is any other step that ends the activity of the server, and otherwise not at all. */
  lemma StopEventSteps(s: ServerState, step: ServerStep)
    requires ServerInv(s) && ServerEnabled(s, step)
    ensures ServerNext(s, step).stopEvents ==
      s.stopEvents +
      if step.Stopped? && s.state.Stopping? then 2
      else if !s.state.Initial? && ServerNext(s, step).state.Initial? then 1
      else 0
  {
    hide Inv, Leaving;
    ServerStepKeeps(s, step);
  }

  /** Over every run: each connection ever established is with the server or has left it, never both, and one
      that has left is down with no request on it, each of its requests accounted for by a departure. */
  lemma {:induction false} ConnectionsAccounted(maxKeepAlive: nat, steps: seq<ServerStep>, id: nat)
    requires ServerLegal(NewServer(maxKeepAlive), steps)
    ensures var s := ServerRun(NewServer(maxKeepAlive), steps);
      && (id in s.connections || id in s.gone <==> 0 < id <= Establishments(steps))
      && !(id in s.connections && id in s.gone)
      && (id in s.gone ==> LeftFor(s.gone[id]) && |s.gone[id].departed| == s.gone[id].nextId)
  {
    ServerRunKeeps(maxKeepAlive, steps);
    RunCounts(maxKeepAlive, steps);
    var s := ServerRun(NewServer(maxKeepAlive), steps);
    if id in s.gone { AllDeparted(s.gone[id]); }
    hide Inv;
  }

  lemma AllDeparted(c: Conn)
    requires Inv(c) && c.requests == []
    ensures |c.departed| == c.nextId
  {
    HistorySize(c);
  }

  // ---------------------------------------------------------------- the connections of a server

  /** What a step of the server is for one of its connections: its own step, a close, a graceful stop, or
      nothing. */
  function Own(s: ServerState, step: ServerStep, id: nat): seq<Step> {
    if id !in s.connections then []
    else
      match step
      case OnConnection(i, st) => if i == id then [st] else []
      case Stopped => [StepClose]
      case StoppedGracefully => if s.state.Running? then [StepGracefulStop] else []
      case _ => []
  }

  function OwnSteps(s: ServerState, steps: seq<ServerStep>, id: nat): seq<Step> {
    if steps == [] then []
    else
      var before := steps[..|steps| - 1];
      OwnSteps(s, before, id) + Own(ServerRun(s, before), steps[|steps| - 1], id)
  }

  /** The connection, with the server or gone from it. */
  function ConnectionOf(s: ServerState, id: nat): Conn
    requires id in s.connections || id in s.gone
  {
    if id in s.connections then s.connections[id] else s.gone[id]
  }

  lemma OwnStep(s: ServerState, step: ServerStep, id: nat)
    requires ServerInv(s) && ServerEnabled(s, step) && (id in s.connections || id in s.gone)
    ensures OwnStepIs(s, step, id, ServerNext(s, step))
  {
    hide Inv, Leaving, LeftFor, Close, GracefulStop, Next, Enabled, OwnStepIs, ServerInv;
    match step
    case OnConnection(i, st) => OwnStepOne(s, i, st, id);
    case Stopped => OwnStepStop(s, id);
    case StoppedGracefully => OwnStepGraceful(s, id);
    case _ => OwnStepNone(s, step, id);
  }

  /** The step does to the connection what it is for it. */
  ghost predicate OwnStepIs(s: ServerState, step: ServerStep, id: nat, t: ServerState)
    requires id in s.connections || id in s.gone
  {
    && (id in t.connections || id in t.gone) && |Own(s, step, id)| <= 1
    && (forall st :: st in Own(s, step, id) ==>
          Enabled(ConnectionOf(s, id), st) && ConnectionOf(t, id) == Next(ConnectionOf(s, id), st))
    && (Own(s, step, id) == [] ==> ConnectionOf(t, id) == ConnectionOf(s, id))
  }

  lemma OwnStepOne(s: ServerState, i: nat, st: Step, id: nat)
    requires ServerInv(s) && ServerEnabled(s, OnConnection(i, st)) && (id in s.connections || id in s.gone)
    ensures OwnStepIs(s, OnConnection(i, st), id, ServerNext(s, OnConnection(i, st)))
  {
    hide Inv, Leaving, LeftFor, Next, Enabled;
  }

  lemma OwnStepStop(s: ServerState, id: nat)
    requires ServerInv(s) && AllQuiet(s) && (id in s.connections || id in s.gone)
    ensures OwnStepIs(s, Stopped, id, Stop(s))
  {
    hide Inv, Leaving, LeftFor, Close;
  }

  lemma OwnStepGraceful(s: ServerState, id: nat)
    requires ServerInv(s) && AllQuiet(s) && (id in s.connections || id in s.gone)
    ensures OwnStepIs(s, StoppedGracefully, id, StopGracefully(s))
  {
    hide Inv, Leaving, LeftFor, GracefulStop;
  }

  lemma OwnStepNone(s: ServerState, step: ServerStep, id: nat)
    requires ServerInv(s) && (step.Started? || step.Established?) && (id in s.connections || id in s.gone)
    ensures OwnStepIs(s, step, id, ServerNext(s, step))
  {
    hide Inv, Leaving, LeftFor, NewConn, Next, Enabled;
  }

  lemma NotYetThere(s: ServerState, step: ServerStep, id: nat)
    requires ServerInv(s) && ServerEnabled(s, step) && id !in s.connections && id !in s.gone
    ensures var t := ServerNext(s, step);
      id in t.connections || id in t.gone ==> id in t.connections && t.connections[id] == NewConn(s.maxKeepAlive)
  {
    hide Inv, Leaving, LeftFor, Close, GracefulStop;
  }

  lemma CapStays(s: ServerState, step: ServerStep)
    ensures ServerNext(s, step).maxKeepAlive == s.maxKeepAlive
  {
    hide Close, GracefulStop, NewConn;
  }

  lemma {:induction false} NoOwnSteps(maxKeepAlive: nat, steps: seq<ServerStep>, id: nat)
    requires ServerLegal(NewServer(maxKeepAlive), steps)
    requires var s := ServerRun(NewServer(maxKeepAlive), steps); id !in s.connections && id !in s.gone
    ensures OwnSteps(NewServer(maxKeepAlive), steps, id) == []
  {
    hide ServerNext, ServerEnabled, ServerInv;
    if steps != [] {
      var before := steps[..|steps| - 1];
      var s := ServerRun(NewServer(maxKeepAlive), before);
      ServerRunKeeps(maxKeepAlive, before);
      if id in s.connections || id in s.gone { OwnStep(s, steps[|steps| - 1], id); }
      NoOwnSteps(maxKeepAlive, before, id);
    }
  }

  /** Over every run of the server: each connection it has established is what its own steps, with the
      cap of the server, make of a new one, and they are a legal run. So all that holds over runs of a
      connection holds of the connections of a server. */
  lemma {:induction false} ConnectionsRun(maxKeepAlive: nat, steps: seq<ServerStep>, id: nat)
    requires ServerLegal(NewServer(maxKeepAlive), steps)
    requires var s := ServerRun(NewServer(maxKeepAlive), steps); id in s.connections || id in s.gone
    ensures var s := ServerRun(NewServer(maxKeepAlive), steps);
      var own := OwnSteps(NewServer(maxKeepAlive), steps, id);
      Legal(NewConn(maxKeepAlive), own) && ConnectionOf(s, id) == Run(NewConn(maxKeepAlive), own)
    ensures ServerRun(NewServer(maxKeepAlive), steps).maxKeepAlive == maxKeepAlive
  {
    hide ServerNext, ServerEnabled, ServerInv, Next, Enabled, Own;
    if steps != [] {
      var before, step := steps[..|steps| - 1], steps[|steps| - 1];
      var s := ServerRun(NewServer(maxKeepAlive), before);
      var own := OwnSteps(NewServer(maxKeepAlive), before, id);
      ServerRunKeeps(maxKeepAlive, before);
      ServerCap(maxKeepAlive, before);
      CapStays(s, step);
      if id in s.connections || id in s.gone {
        ConnectionsRun(maxKeepAlive, before, id);
        OwnStep(s, step, id);
        var last := Own(s, step, id);
        if last == [] {
          assert own + last == own;
        } else {
          assert last == [last[0]];
          RunStep(NewConn(maxKeepAlive), own, last[0]);
        }
      } else {
        NotYetThere(s, step, id);
        NoOwnSteps(maxKeepAlive, before, id);
        NothingOwn(s, step, id);
      }
    } else {
      assert false;
    }
  }

  lemma NothingOwn(s: ServerState, step: ServerStep, id: nat)
    requires id !in s.connections
    ensures Own(s, step, id) == []
  {
  }

  lemma {:induction false} ServerCap(maxKeepAlive: nat, steps: seq<ServerStep>)
    ensures ServerRun(NewServer(maxKeepAlive), steps).maxKeepAlive == maxKeepAlive
  {
    hide ServerNext;
    if steps != [] {
      ServerCap(maxKeepAlive, steps[..|steps| - 1]);
      CapStays(ServerRun(NewServer(maxKeepAlive), steps[..|steps| - 1]), steps[|steps| - 1]);
    }
  }

  /** A server with a request in progress is stopped gracefully and then at once. */
  const ImpatientRun: seq<ServerStep> :=
    [Started] + [Established] + [OnConnection(1, StepArrive(Parsed(Header(true, false, false, NoUpgrade), Done)))]
    + [OnConnection(1, StepTail(false))] + [StoppedGracefully] + [Stopped]

  lemma {:induction false} ServerRunOn(s: ServerState, steps: seq<ServerStep>, step: ServerStep)
    requires ServerLegal(s, steps) && ServerEnabled(ServerRun(s, steps), step)
    ensures ServerLegal(s, steps + [step]) && ServerRun(s, steps + [step]) == ServerNext(ServerRun(s, steps), step)
  {
    hide ServerEnabled, ServerNext;
    var all := steps + [step];
    assert all[..|all| - 1] == steps && all[|all| - 1] == step;
  }

  /** Connection 1 is the only one, and the request on it has been received. */
  ghost predicate OneConnection(s: ServerState, phase: Phase) {
    && s.stopEvents == 0 && s.starts == 1 && s.connections.Keys == {1}
    && var c := s.connections[1];
       c.phase == phase && !c.removed && c.link.Up? && |c.requests| == 1 && !c.requests[0].finishOnReceive && c.requests[0].id == 0
  }

  lemma RequestArrives(s: ServerState)
    requires s.state.Running? && s.stopEvents == 0 && s.starts == 1 && s.connections == map[1 := NewConn(0)]
    ensures var step := OnConnection(1, StepArrive(Parsed(Header(true, false, false, NoUpgrade), Done)));
      ServerEnabled(s, step) && OneConnection(ServerNext(s, step), InLoop(0, true, true)) && ServerNext(s, step).state.Running?
  {
  }

  lemma RequestArrived(s: ServerState)
    requires OneConnection(s, InLoop(0, true, true)) && s.state.Running?
    ensures var step := OnConnection(1, StepTail(false));
      ServerEnabled(s, step) && OneConnection(ServerNext(s, step), Quiet) && ServerNext(s, step).state.Running?
  {
  }

  lemma StopsTwice(s: ServerState)
    requires OneConnection(s, Quiet) && s.state.Running?
    ensures ServerEnabled(s, StoppedGracefully)
    ensures var t := ServerNext(s, StoppedGracefully);
      ServerEnabled(t, Stopped) && ServerNext(t, Stopped).stopEvents == 2 && ServerNext(t, Stopped).starts == 1
  {
    var t := ServerNext(s, StoppedGracefully);
    assert 1 in t.connections;
  }

  lemma Begun()
    ensures ServerLegal(NewServer(0), [Started] + [Established])
    ensures var s := ServerRun(NewServer(0), [Started] + [Established]);
      s.state.Running? && s.stopEvents == 0 && s.starts == 1 && s.connections == map[1 := NewConn(0)]
  {
    ServerRunOn(NewServer(0), [], Started);
    assert [] + [Started] == [Started];
    ServerRunOn(NewServer(0), [Started], Established);
  }

  /** In this run stop_event fires twice, although the server was started once. */
  lemma StopEventTwice()
    ensures ServerLegal(NewServer(0), ImpatientRun)
    ensures var s := ServerRun(NewServer(0), ImpatientRun); s.stopEvents == 2 && s.starts == 1
  {
    hide ServerEnabled, ServerNext, OneConnection;
    var s := NewServer(0);
    var steps := [Started] + [Established];
    Begun();
    RequestArrives(ServerRun(s, steps));
    ServerRunOn(s, steps, OnConnection(1, StepArrive(Parsed(Header(true, false, false, NoUpgrade), Done))));
    steps := steps + [OnConnection(1, StepArrive(Parsed(Header(true, false, false, NoUpgrade), Done)))];
    RequestArrived(ServerRun(s, steps));
    ServerRunOn(s, steps, OnConnection(1, StepTail(false)));
    steps := steps + [OnConnection(1, StepTail(false))];
    StopsTwice(ServerRun(s, steps));
    ServerRunOn(s, steps, StoppedGracefully);
    ServerRunOn(s, steps + [StoppedGracefully], Stopped);
  }

  lemma ClosedNone(gone: map<nat, Conn>, m: map<nat, Conn>)
    ensures gone + Closed(m - m.Keys) == gone
  {
    assert m - m.Keys == map[];
  }

  lemma ClosedMore(gone: map<nat, Conn>, m: map<nat, Conn>, keys: set<nat>, id: nat)
    requires id in keys && keys <= m.Keys
    ensures (gone + Closed(m - keys))[id := Close(m[id])] == gone + Closed(m - (keys - {id}))
  {
    hide Close;
  }

  // ---------------------------------------------------------------- the class

  class Server {
    var state: State
    var listening: bool
    var connections: map<nat, Conn>
    var lastId: nat
    const maxKeepAlive: nat
    var stopEvents: nat
    // history
    ghost var gone: map<nat, Conn>
    ghost var starts: nat
    ghost var impatient: nat

    constructor (maxKeepAlive: nat)
      ensures View() == NewServer(maxKeepAlive)
    {
      this.maxKeepAlive := maxKeepAlive;
      state, listening, connections, lastId, stopEvents := Initial, false, map[], 0, 0;
      gone, starts, impatient := map[], 0, 0;
    }

    ghost function View(): ServerState
      reads this
    {
      ServerState(state, listening, connections, lastId, maxKeepAlive, stopEvents, gone, starts, impatient)
    }

    method RunServer() returns (o: Outcome)
      modifies this
      ensures (View(), o) == Start(old(View()))
    {
      if state != Initial { return Threw; }
      state := Running;
      listening := true;
      starts := starts + 1;
      return Ok;
    }

    method FinishIfDone()
      requires state == Stopping
      modifies this`state, this`stopEvents
      ensures View() == StopIfDone(old(View()))
    {
      if connections != map[] { return; }
      state := Initial;
      stopEvents := stopEvents + 1;
    }

    method RemoveConnection(id: nat)
      requires id in connections
      modifies this`state, this`stopEvents, this`connections, this`gone
      ensures View() == Remove(old(View()), id)
    {
      gone := gone[id := connections[id]];
      connections := connections - {id};
      if state == Stopping { FinishIfDone(); }
    }

    /** ServerConnection::close within the server: the connection takes itself off the map. */
    method CloseConnection(id: nat)
      requires id in connections
      modifies this`state, this`stopEvents, this`connections, this`gone
      ensures var s := old(View());
        View() == Remove(s.(connections := s.connections[id := Close(s.connections[id])]), id)
    {
      connections := connections[id := Close(connections[id])];
      RemoveConnection(id);
    }

    method StopServer()
      modifies this
      ensures View() == Stop(old(View()))
    {
      hide Close, Closed;
      if state != Running && state != Stopping { return; }
      impatient := impatient + if state == Stopping then 1 else 0;
      listening := false;
      ClosedNone(old(gone), old(connections));
      while connections != map[]
        invariant connections.Keys <= old(connections).Keys
        invariant forall id :: id in connections ==> connections[id] == old(connections)[id]
        invariant gone == old(gone) + Closed(old(connections) - connections.Keys)
        invariant connections != map[] || old(connections) == map[] ==>
          state == old(state) && stopEvents == old(stopEvents)
        invariant connections == map[] && old(connections) != map[] ==>
          stopEvents == old(stopEvents) + if old(state) == Stopping then 1 else 0
        decreases connections.Keys
        modifies this`state, this`stopEvents, this`connections, this`gone
      {
        var id :| id in connections;
        ghost var keys := connections.Keys;
        ClosedMore(old(gone), old(connections), keys, id);
        assert connections[id] == old(connections)[id];
        CloseConnection(id);
        assert connections.Keys == keys - {id};
      }
      assert connections.Keys == {} && old(connections) - {} == old(connections);
      state := Initial;
      stopEvents := stopEvents + 1;
    }

    method GracefullyStop()
      modifies this
      ensures View() == StopGracefully(old(View()))
    {
      hide GracefulStop;
      if state != Running { return; }
      state := Stopping;
      listening := false;
      var todo := connections.Keys;
      while todo != {}
        invariant todo <= old(connections).Keys && connections.Keys == old(connections).Keys
        invariant forall id :: id in connections ==>
          connections[id] == if id in todo then old(connections)[id] else GracefulStop(old(connections)[id])
        decreases |todo|
        modifies this`connections
      {
        var id :| id in todo;
        todo := todo - {id};
        connections := connections[id := GracefulStop(connections[id])];
      }
      assert connections == GracefulStops(old(connections));
      FinishIfDone();
    }

    method OnEstablish()
      modifies this`lastId, this`connections
      ensures View() == Establish(old(View()))
    {
      lastId := lastId + 1;
      connections := connections[lastId := NewConn(maxKeepAlive)];
    }
  }
}

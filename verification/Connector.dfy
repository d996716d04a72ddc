/**
 connector.cpp: connecting with retries, inside the iterations of its event loop.

 A descriptor is the number of the socket() call that returned it. An iteration of the loop dispatches events
 (channel handlers and due timers) and then runs the queued functors, here the queued resetChannel; `since`
 is the time its poll returned. start() is called once, on the loop thread, and restart() never.
 Every failed assert() sets `fault`.
 */
module Connectors {

  const INIT_DELAY: nat := 500
  const MAX_DELAY: nat := 30000
  const MICROS: nat := 1000

  datatype Status = Disconnected | Connecting | Connected

  /** What ::connect() returned: in progress (or done), worth retrying, or hopeless. */
  datatype Outcome = InProgress | Refused | Fatal

  /** Retry timers are kept as their due times; `resets` counts queued resetChannel calls; `delays` are the
      retry delays used so far, in milliseconds. */
  datatype Connector = Connector(
    wanted: bool, status: Status, channel: bool, sock: nat, registered: bool, resets: nat,
    timers: seq<int>, delay: nat,
    sockets: nat, closed: set<nat>, delivered: set<nat>, delays: seq<nat>,
    started: bool, dispatching: bool, since: int, clock: int, fault: bool)

  const NEW_CONNECTOR :=
    Connector(false, Disconnected, false, 0, false, 0, [], INIT_DELAY, 0, {}, {}, [], false, false, 0, 0, false)

  // ---------------------------------------------------------------- what the code does

  /** close() of a descriptor already closed or given away would be a fault. */
  function Close(c: Connector, fd: nat): Connector {
    c.(closed := c.closed + {fd}, fault := c.fault || fd >= c.sockets || fd in c.closed || fd in c.delivered)
  }

  function NextDelay(d: nat): nat {
    if d * 2 < MAX_DELAY then d * 2 else MAX_DELAY
  }

  function AfterRetry(c: Connector, fd: nat): Connector {
    var c1 := Close(c, fd).(status := Disconnected);
    if c.wanted then
      c1.(timers := c.timers + [c.clock + c.delay * MICROS], delays := c.delays + [c.delay], delay := NextDelay(c.delay))
    else c1
  }

  /** connect() and connecting(). */
  function Connect(c: Connector, o: Outcome): Connector {
    var fd := c.sockets;
    var c1 := c.(sockets := c.sockets + 1);
    match o
    case InProgress =>
      c1.(status := Connecting, channel := true, sock := fd, registered := true, fault := c.fault || c.channel)
    case Refused => AfterRetry(c1, fd)
    case Fatal => Close(c1, fd)
  }

  function AfterStartInLoop(c: Connector, o: Outcome): Connector {
    var c1 := c.(fault := c.fault || c.status != Disconnected);
    if c.wanted then Connect(c1, o) else c1
  }

  /** removeAndResetChannel */
  function RemoveChannel(c: Connector): Connector {
    c.(registered := false, resets := c.resets + 1, fault := c.fault || !c.channel || !c.registered)
  }

  /** `bad`: SO_ERROR is set, or the socket is connected to itself. */
  function AfterHandleWrite(c: Connector, bad: bool): Connector {
    if c.status != Connecting then c
    else
      var c1 := RemoveChannel(c);
      if bad then AfterRetry(c1, c.sock)
      else if c.wanted then c1.(status := Connected, delivered := c.delivered + {c.sock})
      else Close(c1, c.sock).(status := Connected)
  }

  function AfterHandleError(c: Connector): Connector {
    AfterRetry(RemoveChannel(c), c.sock)
  }

  /** Channel::handleEvent: the error callback first, then the write callback. */
  function HandleEvent(c: Connector, err: bool, out: bool, bad: bool): Connector {
    var c1 := if err then AfterHandleError(c) else c;
    if out then AfterHandleWrite(c1, bad) else c1
  }

  // ---------------------------------------------------------------- runs

  datatype Step =
    | Start(o: Outcome)
    | Stop
    | PollReturns
    | Ready(err: bool, out: bool, bad: bool)
    | TimerFires(o: Outcome)
    | RunFunctors
    | Tick(d: nat)

  predicate Enabled(c: Connector, s: Step) {
    match s
    case Start(_) => !c.started
    case Stop => true
    case PollReturns => !c.dispatching
    case Ready(_, _, _) => c.dispatching && c.registered
    case TimerFires(_) => c.dispatching && c.timers != [] && c.timers[0] <= c.clock
    case RunFunctors => c.dispatching
    case Tick(_) => true
  }

  function Apply(c: Connector, s: Step): Connector
    requires Enabled(c, s)
  {
    match s
    case Start(o) => AfterStartInLoop(c.(wanted := true, started := true), o)
    case Stop => c.(wanted := false)
    case PollReturns => c.(dispatching := true, since := c.clock)
    case Ready(err, out, bad) => HandleEvent(c, err, out, bad)
    case TimerFires(o) => AfterStartInLoop(c.(timers := c.timers[1..]), o)
    case RunFunctors => c.(dispatching := false, resets := 0, channel := if c.resets > 0 then false else c.channel)
    case Tick(d) => c.(clock := c.clock + d)
  }

  predicate Possible(c: Connector, steps: seq<Step>)
    decreases |steps|
  {
    steps == [] || (Enabled(c, steps[0]) && Possible(Apply(c, steps[0]), steps[1..]))
  }

  function Run(c: Connector, steps: seq<Step>): Connector
    requires Possible(c, steps)
    decreases |steps|
  {
    if steps == [] then c else Run(Apply(c, steps[0]), steps[1..])
  }

  /** A retry timer fires, and gets a connection under way, in an iteration whose functors are still to
      drop the channel of the previous attempt. */
  predicate Collides(c: Connector, s: Step) {
    s == TimerFires(InProgress) && c.resets > 0 && c.wanted
  }

  ghost predicate SomeCollision(c: Connector, steps: seq<Step>)
    requires Possible(c, steps)
    decreases |steps|
  {
    steps != [] && (Collides(c, steps[0]) || SomeCollision(Apply(c, steps[0]), steps[1..]))
  }

  // ---------------------------------------------------------------- the invariant

  /** Every descriptor opened is closed, delivered, or the one being connected; and only one of these. */
  ghost predicate Owned(c: Connector) {
    && (forall fd :: 0 <= fd < c.sockets ==> fd in c.closed || fd in c.delivered || (c.status == Connecting && fd == c.sock))
    && (forall fd :: fd in c.closed ==> fd < c.sockets && fd !in c.delivered)
    && (forall fd :: fd in c.delivered ==> fd < c.sockets)
    && (c.status == Connecting ==> c.sock < c.sockets && c.sock !in c.closed && c.sock !in c.delivered)
  }

  ghost predicate Inv(c: Connector) {
    && !c.fault
    && Owned(c)
    && (c.status == Connecting <==> c.registered)
    && (c.registered ==> c.channel && c.resets == 0)
    && (c.channel && !c.registered ==> c.resets == 1)
    && (!c.channel ==> c.resets == 0)
    && |c.timers| <= 1
    && (c.timers != [] ==> c.status == Disconnected)
    && (!c.started ==> c.status == Disconnected && !c.channel && c.timers == [])
  }

  lemma StepKeeps(c: Connector, s: Step)
    requires Inv(c) && Enabled(c, s)
    ensures if Collides(c, s) then Apply(c, s).fault else Inv(Apply(c, s))
  {
    match s
    case Start(o) => ConnectKeeps(c.(wanted := true, started := true), o);
    case TimerFires(o) =>
      if c.wanted && !Collides(c, s) { ConnectKeeps(c.(timers := c.timers[1..]), o); }
    case Ready(err, out, bad) =>
      if err { RetryKeeps(c); } else if out { WriteKeeps(c, bad); }
    case _ =>
  }

  /** Opening a socket for the next attempt. */
  lemma ConnectKeeps(c: Connector, o: Outcome)
    requires Inv(c.(timers := [], started := true)) && c.started && c.timers == [] && c.status == Disconnected && c.wanted
    requires o == InProgress ==> c.resets == 0
    ensures Inv(Connect(c, o))
  {
  }

  /** Giving up on the current attempt, by handleError or a failed handleWrite. */
  lemma RetryKeeps(c: Connector)
    requires Inv(c) && c.registered
    ensures Inv(AfterRetry(RemoveChannel(c), c.sock)) && AfterRetry(RemoveChannel(c), c.sock).status == Disconnected
  {
  }

  lemma WriteKeeps(c: Connector, bad: bool)
    requires Inv(c) && c.registered
    ensures Inv(AfterHandleWrite(c, bad))
  {
    if bad { RetryKeeps(c); }
  }

  lemma FaultStays(c: Connector, s: Step)
    requires c.fault && Enabled(c, s)
    ensures Apply(c, s).fault
  {
    match s
    case Start(o) => StartFaultStays(c.(wanted := true, started := true), o);
    case TimerFires(o) => StartFaultStays(c.(timers := c.timers[1..]), o);
    case Ready(err, out, bad) => WriteFaultStays(if err then AfterHandleError(c) else c, bad);
    case _ =>
  }

  lemma StartFaultStays(c: Connector, o: Outcome)
    requires c.fault
    ensures AfterStartInLoop(c, o).fault
  {
  }

  lemma WriteFaultStays(c: Connector, bad: bool)
    requires c.fault
    ensures AfterHandleWrite(c, bad).fault
  {
  }

  lemma {:induction false} RunFaultStays(c: Connector, steps: seq<Step>)
    requires c.fault && Possible(c, steps)
    ensures Run(c, steps).fault
    decreases |steps|
  {
    if steps != [] {
      FaultStays(c, steps[0]);
      RunFaultStays(Apply(c, steps[0]), steps[1..]);
    }
  }

  lemma {:induction false} RunKeeps(c: Connector, steps: seq<Step>)
    requires Inv(c) && Possible(c, steps)
    ensures if SomeCollision(c, steps) then Run(c, steps).fault else Inv(Run(c, steps))
    decreases |steps|
  {
    if steps != [] {
      StepKeeps(c, steps[0]);
      if Collides(c, steps[0]) {
        RunFaultStays(Apply(c, steps[0]), steps[1..]);
      } else {
        RunKeeps(Apply(c, steps[0]), steps[1..]);
      }
    }
  }

  // ---------------------------------------------------------------- main results

  /** The descriptors opened and neither closed nor handed to the callback. */
  function OpenSockets(c: Connector): set<nat> {
    set fd | 0 <= fd < c.sockets && fd !in c.closed && fd !in c.delivered
  }

  /** In every run with one start, an assertion fails or a descriptor is misused exactly when a retry timer
      overtakes the queued resetChannel; otherwise the connector owns one open descriptor while it is
      connecting and none at any other time, and no descriptor is both closed and delivered. */
  lemma FaultsIffCollision(steps: seq<Step>)
    requires Possible(NEW_CONNECTOR, steps)
    ensures var c := Run(NEW_CONNECTOR, steps);
            && (c.fault <==> SomeCollision(NEW_CONNECTOR, steps))
            && (!c.fault ==> OpenSockets(c) == (if c.status == Connecting then {c.sock} else {})
                             && c.closed !! c.delivered)
  {
    RunKeeps(NEW_CONNECTOR, steps);
  }

  // ---------------------------------------------------------------- what becomes of a descriptor

  /** The socket being connected is writable and sound: no error event, no SO_ERROR, not connected to itself. */
  predicate Succeeds(s: Step) {
    s == Ready(false, true, false)
  }

  /** An attempt has failed in a way that is worth another: connect() was refused, or an event reports an error. */
  predicate ReportsFailure(s: Step) {
    match s
    case Start(o) => o == Refused
    case TimerFires(o) => o == Refused
    case Ready(err, out, bad) => err || (out && bad)
    case _ => false
  }

  /** start() turns connecting on for good, stop() off. */
  function WantedAfter(c: Connector, s: Step): bool {
    s.Start? || (c.wanted && !s.Stop?)
  }

  /** What each step does for the descriptor being connected, for those to come and for the retries. */
  lemma StepOutcome(c: Connector, s: Step)
    requires Inv(c) && Enabled(c, s) && !Collides(c, s)
    ensures var d := Apply(c, s);
            && d.wanted == WantedAfter(c, s)
            && d.delivered == c.delivered + (if Succeeds(s) && c.wanted then {c.sock} else {})
            && d.sockets == c.sockets + (if (s.Start? || s.TimerFires?) && d.wanted then 1 else 0)
            && (d.delays != c.delays <==> ReportsFailure(s) && d.wanted)
            && d.timers == (if s.TimerFires? then c.timers[1..] else c.timers) +
                           (if ReportsFailure(s) && d.wanted then [c.clock + c.delay * MICROS] else [])
  {
    match s
    case Start(o) => AttemptOutcome(c.(wanted := true, started := true), o);
    case TimerFires(o) => AttemptOutcome(c.(timers := c.timers[1..]), o);
    case Ready(err, out, bad) =>
    case _ =>
  }

  lemma AttemptOutcome(c: Connector, o: Outcome)
    ensures var d := AfterStartInLoop(c, o);
            var retries := c.wanted && o == Refused;
            && d.wanted == c.wanted && d.delivered == c.delivered
            && d.sockets == c.sockets + (if c.wanted then 1 else 0)
            && (d.delays != c.delays <==> retries)
            && d.timers == c.timers + (if retries then [c.clock + c.delay * MICROS] else [])
  {
    assert c.timers + [] == c.timers;
    assert |c.delays + [c.delay]| > |c.delays|;
  }

  /** Some step of the run succeeds on `fd` while a connection is wanted. */
  predicate SomeSuccess(c: Connector, steps: seq<Step>, fd: nat)
    requires Possible(c, steps)
    decreases |steps|
  {
    steps != [] &&
    ((Succeeds(steps[0]) && c.wanted && c.sock == fd) || SomeSuccess(Apply(c, steps[0]), steps[1..], fd))
  }

  lemma {:induction false} RunDelivers(c: Connector, steps: seq<Step>, fd: nat)
    requires Inv(c) && Possible(c, steps) && !SomeCollision(c, steps)
    ensures fd in Run(c, steps).delivered <==> fd in c.delivered || SomeSuccess(c, steps, fd)
    decreases |steps|
  {
    if steps != [] {
      StepOutcome(c, steps[0]);
      StepKeeps(c, steps[0]);
      RunDelivers(Apply(c, steps[0]), steps[1..], fd);
    }
  }

  /** In every run without a collision a descriptor is handed to the callback if and only if its socket became writable
      without an error while it was being connected and a connection was wanted; every other one that is not being
      connected has been closed. */
  lemma DeliveredIff(steps: seq<Step>, fd: nat)
    requires Possible(NEW_CONNECTOR, steps) && !SomeCollision(NEW_CONNECTOR, steps)
    ensures var c := Run(NEW_CONNECTOR, steps);
            && (fd in c.delivered <==> SomeSuccess(NEW_CONNECTOR, steps, fd))
            && (fd in c.closed <==> fd < c.sockets && fd !in c.delivered && !(c.status == Connecting && fd == c.sock))
  {
    RunKeeps(NEW_CONNECTOR, steps);
    RunDelivers(NEW_CONNECTOR, steps, fd);
  }

  /** A connection has succeeded if and only if its socket became writable without an error, wanted or not; and that
      is for good. */
  lemma {:induction false} RunConnects(c: Connector, steps: seq<Step>)
    requires Inv(c) && Possible(c, steps) && !SomeCollision(c, steps) && (c.status == Connected ==> c.started && c.timers == [])
    ensures Run(c, steps).status == Connected <==> c.status == Connected || exists s :: s in steps && Succeeds(s)
    decreases |steps|
  {
    if steps != [] {
      ConnectsStep(c, steps[0]);
      StepKeeps(c, steps[0]);
      assert forall s :: s in steps <==> s == steps[0] || s in steps[1..];
      RunConnects(Apply(c, steps[0]), steps[1..]);
    }
  }

  lemma ConnectsStep(c: Connector, s: Step)
    requires Inv(c) && Enabled(c, s) && !Collides(c, s) && (c.status == Connected ==> c.started && c.timers == [])
    ensures var d := Apply(c, s);
            && (d.status == Connected <==> c.status == Connected || Succeeds(s))
            && (d.status == Connected ==> d.started && d.timers == [])
  {
  }

  lemma ConnectedIff(steps: seq<Step>)
    requires Possible(NEW_CONNECTOR, steps) && !SomeCollision(NEW_CONNECTOR, steps)
    ensures Run(NEW_CONNECTOR, steps).status == Connected <==> exists s :: s in steps && Succeeds(s)
  {
    RunConnects(NEW_CONNECTOR, steps);
  }

  /** In every run without a collision a step arms a retry, for the current delay, if and only if it reports a failure
      worth retrying while a connection is wanted; and a socket is opened exactly by start() and by a retry timer that
      finds a connection still wanted. */
  lemma RetriedIff(steps: seq<Step>, s: Step)
    requires Possible(NEW_CONNECTOR, steps) && !SomeCollision(NEW_CONNECTOR, steps)
    requires Enabled(Run(NEW_CONNECTOR, steps), s) && !Collides(Run(NEW_CONNECTOR, steps), s)
    ensures var c := Run(NEW_CONNECTOR, steps);
            var d := Apply(c, s);
            && (d.delays != c.delays <==> ReportsFailure(s) && WantedAfter(c, s))
            && (ReportsFailure(s) && WantedAfter(c, s) ==> d.timers == [c.clock + DelayAt(|c.delays|) * MICROS])
            && (d.sockets > c.sockets <==> (s.Start? || s.TimerFires?) && WantedAfter(c, s))
  {
    var c := Run(NEW_CONNECTOR, steps);
    RunKeeps(NEW_CONNECTOR, steps);
    StepOutcome(c, s);
    RunBackedOff(NEW_CONNECTOR, steps);
    if ReportsFailure(s) && WantedAfter(c, s) { NoTimerLeft(c, s); }
  }

  /** A failing attempt finds no other retry armed. */
  lemma NoTimerLeft(c: Connector, s: Step)
    requires Inv(c) && Enabled(c, s) && ReportsFailure(s)
    ensures (if s.TimerFires? then c.timers[1..] else c.timers) == []
  {
  }

  ghost predicate Leads(c: Connector, steps: seq<Step>, d: Connector) {
    Possible(c, steps) && Run(c, steps) == d
  }

  lemma LeadsCons(c: Connector, s: Step, steps: seq<Step>, d: Connector)
    requires Enabled(c, s) && Leads(Apply(c, s), steps, d)
    ensures Leads(c, [s] + steps, d)
  {
    assert ([s] + steps)[1..] == steps;
  }

  /** It does happen: an error is handled, the same iteration goes on for half a second, and then serves its
      timers before its functors. */
  lemma OvertakingTimerFails() returns (steps: seq<Step>, d: Connector)
    ensures Leads(NEW_CONNECTOR, steps, d) && d.fault
  {
    var c1 := Apply(NEW_CONNECTOR, Start(InProgress));
    var c2 := Apply(c1, PollReturns);
    var c3 := Apply(c2, Ready(true, false, true));
    var c4 := Apply(c3, Tick(INIT_DELAY * MICROS));
    assert c4.timers == [c4.clock];
    d := Apply(c4, TimerFires(InProgress));
    assert Leads(d, [], d);
    LeadsCons(c4, TimerFires(InProgress), [], d);
    steps := [TimerFires(InProgress)] + [];
    LeadsCons(c3, Tick(INIT_DELAY * MICROS), steps, d);
    steps := [Tick(INIT_DELAY * MICROS)] + steps;
    LeadsCons(c2, Ready(true, false, true), steps, d);
    steps := [Ready(true, false, true)] + steps;
    LeadsCons(c1, PollReturns, steps, d);
    steps := [PollReturns] + steps;
    LeadsCons(NEW_CONNECTOR, Start(InProgress), steps, d);
    steps := [Start(InProgress)] + steps;
  }

  /** Whenever a timer is served, the current iteration has been dispatching for less than the first delay. */
  ghost predicate PromptDispatch(c: Connector, steps: seq<Step>)
    requires Possible(c, steps)
    decreases |steps|
  {
    steps == [] ||
    ((steps[0].TimerFires? ==> c.clock < c.since + INIT_DELAY * MICROS) && PromptDispatch(Apply(c, steps[0]), steps[1..]))
  }

  /** A retry armed in this iteration is not due before its functors have run. */
  ghost predicate Timed(c: Connector) {
    && c.delay >= INIT_DELAY
    && c.since <= c.clock
    && (c.resets > 0 ==> c.dispatching)
    && (c.resets > 0 ==> forall t :: t in c.timers ==> t >= c.since + INIT_DELAY * MICROS)
  }

  lemma StepTimed(c: Connector, s: Step)
    requires Inv(c) && Timed(c) && Enabled(c, s) && !Collides(c, s)
    ensures Timed(Apply(c, s))
  {
  }

  lemma {:induction false} PromptMeansNoCollision(c: Connector, steps: seq<Step>)
    requires Inv(c) && Timed(c) && Possible(c, steps) && PromptDispatch(c, steps)
    ensures !SomeCollision(c, steps)
    decreases |steps|
  {
    if steps != [] {
      assert c.timers != [] ==> c.timers[0] in c.timers;
      StepTimed(c, steps[0]);
      StepKeeps(c, steps[0]);
      PromptMeansNoCollision(Apply(c, steps[0]), steps[1..]);
    }
  }

  /** So no assertion fails while every iteration gets to its timers within half a second of polling. */
  lemma PromptIsSafe(steps: seq<Step>)
    requires Possible(NEW_CONNECTOR, steps) && PromptDispatch(NEW_CONNECTOR, steps)
    ensures !Run(NEW_CONNECTOR, steps).fault
  {
    PromptMeansNoCollision(NEW_CONNECTOR, steps);
    FaultsIffCollision(steps);
  }

  // ---------------------------------------------------------------- back-off

  function Pow2(k: nat): nat {
    if k == 0 then 1 else 2 * Pow2(k - 1)
  }

  function DelayAt(k: nat): nat {
    if INIT_DELAY * Pow2(k) < MAX_DELAY then INIT_DELAY * Pow2(k) else MAX_DELAY
  }

  ghost predicate BackedOff(c: Connector) {
    && c.delay == DelayAt(|c.delays|)
    && forall k :: 0 <= k < |c.delays| ==> c.delays[k] == DelayAt(k)
  }

  lemma RetryBacksOff(c: Connector, fd: nat)
    requires BackedOff(c)
    ensures BackedOff(AfterRetry(c, fd))
  {
    assert Pow2(|c.delays| + 1) == 2 * Pow2(|c.delays|);
  }

  lemma {:induction false} RunBackedOff(c: Connector, steps: seq<Step>)
    requires BackedOff(c) && Possible(c, steps)
    ensures BackedOff(Run(c, steps))
    decreases |steps|
  {
    if steps != [] {
      StepBacksOff(c, steps[0]);
      RunBackedOff(Apply(c, steps[0]), steps[1..]);
    }
  }

  /** The k-th retry waits min(500 * 2^k, 30000) milliseconds, whatever happens in between. */
  lemma RetryDelays(c: Connector, steps: seq<Step>)
    requires BackedOff(c) && Possible(c, steps)
    ensures var d := Run(c, steps).delays; forall k :: 0 <= k < |d| ==> d[k] == DelayAt(k)
  {
    RunBackedOff(c, steps);
  }

  lemma StepBacksOff(c: Connector, s: Step)
    requires BackedOff(c) && Enabled(c, s)
    ensures BackedOff(Apply(c, s))
  {
    match s
    case Start(o) => ConnectBacksOff(c.(wanted := true, started := true), o);
    case TimerFires(o) => ConnectBacksOff(c.(timers := c.timers[1..]), o);
    case Ready(err, out, bad) =>
      ErrorBacksOff(c);
      WriteBacksOff(if err then AfterHandleError(c) else c, bad);
    case _ =>
  }

  lemma ErrorBacksOff(c: Connector)
    requires BackedOff(c)
    ensures BackedOff(AfterHandleError(c))
  {
    RetryBacksOff(RemoveChannel(c), c.sock);
  }

  lemma WriteBacksOff(c: Connector, bad: bool)
    requires BackedOff(c)
    ensures BackedOff(AfterHandleWrite(c, bad))
  {
    RetryBacksOff(RemoveChannel(c), c.sock);
  }

  lemma ConnectBacksOff(c: Connector, o: Outcome)
    requires BackedOff(c)
    ensures BackedOff(AfterStartInLoop(c, o))
  {
    if o == Refused {
      RetryBacksOff(c.(fault := c.fault || c.status != Disconnected, sockets := c.sockets + 1), c.sockets);
    }
  }

  // ---------------------------------------------------------------- the object

  class ConnectorObject {
    var connect: bool
    var status: Status
    var channel: bool
    var retryDelayMs: nat
    ghost var sock: nat
    ghost var registered: bool
    ghost var resets: nat
    ghost var timers: seq<int>
    ghost var sockets: nat
    ghost var closed: set<nat>
    ghost var delivered: set<nat>
    ghost var delays: seq<nat>
    ghost var started: bool
    ghost var dispatching: bool
    ghost var since: int
    ghost var clock: int

    ghost function View(): Connector
      reads this
    {
      Connector(connect, status, channel, sock, registered, resets, timers, retryDelayMs, sockets, closed, delivered,
                delays, started, dispatching, since, clock, false)
    }

    constructor ()
      ensures View() == NEW_CONNECTOR
    {
      connect, status, channel, retryDelayMs := false, Disconnected, false, INIT_DELAY;
      sock, registered, resets, timers, sockets, closed, delivered := 0, false, 0, [], 0, {}, {};
      delays, started, dispatching, since, clock := [], false, false, 0, 0;
    }

    ghost predicate Holds(fd: nat)
      reads this
    {
      fd < sockets && fd !in closed && fd !in delivered
    }

    method Retry(ghost fd: nat)
      requires Holds(fd)
      modifies this
      ensures View() == AfterRetry(old(View()), fd)
    {
      closed := closed + {fd};
      status := Disconnected;
      if connect {
        ArmRetry();
      }
    }

    /** runAfter, and the back-off. */
    method ArmRetry()
      modifies this`timers, this`delays, this`retryDelayMs
      ensures View() == old(View()).(timers := old(timers) + [clock + old(retryDelayMs) * MICROS],
                                     delays := old(delays) + [old(retryDelayMs)], delay := NextDelay(old(retryDelayMs)))
    {
      timers := timers + [clock + retryDelayMs * MICROS];
      delays := delays + [retryDelayMs];
      retryDelayMs := if retryDelayMs * 2 < MAX_DELAY then retryDelayMs * 2 else MAX_DELAY;
    }

    /** connecting(): the assertion !channel_ is its precondition. */
    method StartConnecting(ghost fd: nat)
      requires !channel
      modifies this
      ensures View() == old(View()).(status := Connecting, channel := true, sock := fd, registered := true)
    {
      status := Connecting;
      channel := true;
      sock := fd;
      registered := true;
    }

    method StartInLoop(o: Outcome)
      requires status == Disconnected && (connect && o == InProgress ==> !channel)
      requires sockets !in closed && sockets !in delivered
      modifies this
      ensures View() == AfterStartInLoop(old(View()), o)
    {
      if connect {
        ghost var fd := sockets;
        sockets := sockets + 1;
        match o
        case InProgress => { StartConnecting(fd); }
        case Refused => { Retry(fd); }
        case Fatal => { closed := closed + {fd}; }
      }
    }

    method RemoveAndResetChannel()
      requires channel && registered
      modifies this`registered, this`resets
      ensures View() == RemoveChannel(old(View()))
    {
      registered := false;
      resets := resets + 1;
    }

    method HandleWrite(bad: bool)
      requires status == Connecting ==> channel && registered && Holds(sock)
      modifies this
      ensures View() == AfterHandleWrite(old(View()), bad)
    {
      if status == Connecting {
        RemoveAndResetChannel();
        if bad {
          Retry(sock);
        } else {
          status := Connected;
          if connect {
            delivered := delivered + {sock};
          } else {
            closed := closed + {sock};
          }
        }
      }
    }

    method HandleError()
      requires channel && registered && Holds(sock)
      modifies this
      ensures View() == AfterHandleError(old(View()))
    {
      RemoveAndResetChannel();
      Retry(sock);
    }
  }
}

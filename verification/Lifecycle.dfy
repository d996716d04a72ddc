/**
 The life of a connection across event loops: tcpServer.cpp, tcpConnection.cpp and the dispatch of channel.cpp.

 Loop 0 is the server's base loop; any loop, the base loop included, may serve a connection. A loop's
 queue holds the functors it still has to run, in order (EventLoops proves that this is what the event
 loop executes). Every step is run by the thread of some loop, named explicitly, so that each
 assertInLoopThread and each assert() on these paths can fail: it then sets `fault`.

 send() and shutdown() may be called from any thread. A call from another thread is atomic only in its parts (see
 TcpCalls), and is in `calls` between them. sendInloop turns write interest on for the connection's channel; when
 connectDestory has already removed that channel, Poller's assertion fails, and Epoller would register the channel
 again with nothing left to remove it: this sets `fault` and `registered`.
 */
module Lifecycle {
  import opened Text
  import opened ConnectionStates
  import Stream = TcpConnections

  const BASE: nat := 0

  datatype Task = Establish(c: nat) | Remove(c: nat) | Destroy(c: nat) | Send(c: nat, msg: string) | Shutdown(c: nat)

  /** `established` and `destroyed` count calls of connectEestablished and connectDestory. */
  datatype Conn = Conn(
    loop: nat, name: string, stream: Stream.Conn, registered: bool, established: nat, destroyed: nat)

  datatype Server = Server(name: string, next: nat, connects: map<string, nat>)

  /** A call from another thread on connection `c`, between two of its parts. */
  datatype Pending = Pending(c: nat, call: Call)

  datatype System = System(
    server: Server, conns: seq<Conn>, queues: seq<seq<Task>>, calls: multiset<Pending>, fault: bool)

  // ---------------------------------------------------------------- what the code does

  function ConnName(server: string, id: nat): string {
    server + "#" + Dec(id)
  }

  function WithConn(s: System, c: nat, k: Conn): System
    requires c < |s.conns|
  {
    s.(conns := s.conns[c := k])
  }

  function Check(s: System, holds: bool): System {
    if holds then s else s.(fault := true)
  }

  function Post(s: System, loop: nat, t: Task): System
    requires loop < |s.queues|
  {
    s.(queues := s.queues[loop := s.queues[loop] + [t]])
  }

  predicate Known(s: System, t: Task) {
    t.c < |s.conns| && s.conns[t.c].loop < |s.queues| && BASE < |s.queues|
  }

  /** connectEestablished */
  function RunEstablish(s: System, thread: nat, c: nat): System
    requires Known(s, Establish(c))
  {
    var k := s.conns[c];
    WithConn(Check(s, thread == k.loop && k.stream.state == Connecting && !k.registered), c,
             k.(stream := Stream.Establish(k.stream), registered := true, established := k.established + 1))
  }

  /** removeConnectionInLoop */
  function RunRemove(s: System, thread: nat, c: nat): System
    requires Known(s, Remove(c))
  {
    var k := s.conns[c];
    var s1 := Check(s, thread == BASE);
    if k.name !in s.server.connects then s1
    else Post(s1.(server := s.server.(connects := s.server.connects - {k.name})), k.loop, Destroy(c))
  }

  /** connectDestory */
  function RunDestroy(s: System, thread: nat, c: nat): System
    requires Known(s, Destroy(c))
  {
    var k := s.conns[c];
    WithConn(Check(s, thread == k.loop && Open(k.stream.state) && k.registered), c,
             k.(stream := Stream.Destroy(k.stream), registered := false, destroyed := k.destroyed + 1))
  }

  /** sendInloop, with `n` the result of its write(). */
  function RunSend(s: System, thread: nat, c: nat, msg: string, n: int): System
    requires Known(s, Send(c, msg)) && n <= |msg|
  {
    var k := s.conns[c];
    var d := Stream.AfterSendInLoop(k.stream, msg, n);
    var updates := d.writing && !k.stream.writing;
    WithConn(Check(s, thread == k.loop && (updates ==> k.registered)), c,
             k.(stream := d, registered := k.registered || updates))
  }

  /** shutdownInloop */
  function RunShutdown(s: System, thread: nat, c: nat): System
    requires Known(s, Shutdown(c))
  {
    var k := s.conns[c];
    WithConn(Check(s, thread == k.loop), c, k.(stream := Stream.AfterShutdownInLoop(k.stream)))
  }

  predicate Fits(t: Task, n: int) {
    t.Send? ==> n <= |t.msg|
  }

  function Execute(s: System, thread: nat, t: Task, n: int): System
    requires Known(s, t) && Fits(t, n)
  {
    match t
    case Establish(c) => RunEstablish(s, thread, c)
    case Remove(c) => RunRemove(s, thread, c)
    case Destroy(c) => RunDestroy(s, thread, c)
    case Send(c, msg) => RunSend(s, thread, c, msg, n)
    case Shutdown(c) => RunShutdown(s, thread, c)
  }

  function RunInLoop(s: System, thread: nat, loop: nat, t: Task): System
    requires Known(s, t) && loop < |s.queues|
  {
    if thread == loop then Execute(s, thread, t, 0) else Post(s, loop, t)
  }

  function NewConn(loop: nat, name: string): Conn {
    Conn(loop, name, Stream.NEW_CONN, false, 0, 0)
  }

  /** newConnection, on the base loop, for an io loop chosen by the thread pool. */
  function NewConnection(s: System, loop: nat): System
    requires loop < |s.queues|
  {
    var c := |s.conns|;
    var name := ConnName(s.server.name, s.server.next);
    var server := s.server.(next := s.server.next + 1, connects := s.server.connects[name := c]);
    RunInLoop(s.(server := server, conns := s.conns + [NewConn(loop, name)]), BASE, loop, Establish(c))
  }

  /** handleClose, then removeConnection. */
  function HandleClose(s: System, thread: nat, c: nat): System
    requires Known(s, Remove(c))
  {
    var k := s.conns[c];
    var s1 := WithConn(Check(s, thread == k.loop && Open(k.stream.state) && k.registered), c,
                       k.(stream := Stream.AfterHandleClose(k.stream)));
    RunInLoop(s1, thread, BASE, Remove(c))
  }

  /** The next part of a call from another thread. */
  function Proceed(s: System, call: Pending): System
    requires Known(s, Shutdown(call.c))
  {
    var k := s.conns[call.c];
    var rest := s.calls - multiset{call};
    match call
    case Pending(c, Sending(msg)) => Post(s.(calls := rest), k.loop, Send(c, msg))
    case Pending(c, Shutting) =>
      WithConn(s.(calls := rest + multiset{Pending(c, Shut)}), c, k.(stream := k.stream.(state := Disconnecting)))
    case Pending(c, Shut) => Post(s.(calls := rest), k.loop, Shutdown(c))
  }

  /** Handlers and calls on the connection's own loop are steps of that loop's thread. */
  datatype Step =
    | Accept(loop: nat)
    | RunTask(loop: nat, n: int)
    | Close(c: nat)
    | Writable(c: nat, n: int)
    | LocalSend(c: nat, msg: string, n: int)
    | LocalShutdown(c: nat)
    | ForeignSend(c: nat, msg: string)
    | ForeignShutdown(c: nat)
    | Continue(call: Pending)

  predicate Enabled(s: System, step: Step) {
    match step
    case Accept(l) => l < |s.queues|
    case RunTask(l, n) => l < |s.queues| && s.queues[l] != [] && Known(s, s.queues[l][0]) && Fits(s.queues[l][0], n)
    case Close(c) => c < |s.conns| && s.conns[c].registered && Known(s, Remove(c))
    case Writable(c, n) => c < |s.conns| && s.conns[c].registered && n <= |s.conns[c].stream.out|
    case LocalSend(c, msg, n) => Known(s, Send(c, msg)) && s.conns[c].stream.state == Connected && n <= |msg|
    case LocalShutdown(c) => c < |s.conns| && s.conns[c].stream.state == Connected
    case ForeignSend(c, _) => c < |s.conns| && s.conns[c].stream.state == Connected
    case ForeignShutdown(c) => c < |s.conns| && s.conns[c].stream.state == Connected
    case Continue(call) => call in s.calls && Known(s, Shutdown(call.c))
  }

  function Apply(s: System, step: Step): System
    requires Enabled(s, step)
  {
    match step
    case Accept(l) => NewConnection(s, l)
    case RunTask(l, n) => Execute(s.(queues := s.queues[l := s.queues[l][1..]]), l, s.queues[l][0], n)
    case Close(c) => HandleClose(s, s.conns[c].loop, c)
    case Writable(c, n) => WithConn(s, c, s.conns[c].(stream := Stream.AfterHandleWrite(s.conns[c].stream, n)))
    case LocalSend(c, msg, n) => RunSend(s, s.conns[c].loop, c, msg, n)
    case LocalShutdown(c) => WithConn(s, c, s.conns[c].(stream := Stream.AfterShutdown(s.conns[c].stream)))
    case ForeignSend(c, msg) => s.(calls := s.calls + multiset{Pending(c, Sending(msg))})
    case ForeignShutdown(c) => s.(calls := s.calls + multiset{Pending(c, Shutting)})
    case Continue(call) => Proceed(s, call)
  }

  predicate Possible(s: System, steps: seq<Step>)
    decreases |steps|
  {
    steps == [] || (Enabled(s, steps[0]) && Possible(Apply(s, steps[0]), steps[1..]))
  }

  function Run(s: System, steps: seq<Step>): System
    requires Possible(s, steps)
    decreases |steps|
  {
    if steps == [] then s else Run(Apply(s, steps[0]), steps[1..])
  }

  function Start(name: string, loops: nat): System {
    System(Server(name, 1, map[]), [], seq(loops, _ => []), multiset{}, false)
  }

  // ---------------------------------------------------------------- the invariant

  /** How often a task is still to run: queued on the loop, or already taken off it (`extra`). */
  function Count(s: System, extra: multiset<Task>, loop: nat, t: Task): nat
    requires loop < |s.queues|
  {
    multiset(s.queues[loop])[t] + extra[t]
  }

  predicate Mapped(s: System, c: nat)
    requires c < |s.conns|
  {
    s.conns[c].name in s.server.connects
  }

  /** The four phases of a connection: waiting to be established, live, removed from the map, destroyed;
      with e, d and r establish, destroy and remove tasks still to run. */
  ghost predicate PhaseInv(k: Conn, mapped: bool, e: nat, d: nat, r: nat) {
    var state, closes := k.stream.state, k.stream.closes;
    || (state == Connecting && e == 1 && d == 0 && r == 0 && mapped && !k.registered
        && closes == 0 && k.established == 0 && k.destroyed == 0)
    || (Open(state) && e == 0 && d == 0 && r == closes && mapped && k.registered
        && k.established == 1 && k.destroyed == 0)
    || (Open(state) && e == 0 && d == 1 && !mapped && k.registered
        && closes > 0 && k.established == 1 && k.destroyed == 0)
    || ((state == Disconnected || state == Disconnecting) && e == 0 && d == 0 && !mapped && !k.registered
        && closes > 0 && k.established == 1 && k.destroyed == 1 && !k.stream.writing)
  }

  ghost predicate ConnInv(s: System, extra: multiset<Task>, c: nat)
    requires c < |s.conns| && BASE < |s.queues|
  {
    var k := s.conns[c];
    k.loop < |s.queues| &&
    PhaseInv(k, Mapped(s, c),
             Count(s, extra, k.loop, Establish(c)), Count(s, extra, k.loop, Destroy(c)), Count(s, extra, BASE, Remove(c)))
  }

  /** Only a connection that has been established is ever sent on or shut. */
  ghost predicate Placed(s: System, loop: nat, t: Task) {
    && Known(s, t)
    && loop == (if t.Remove? then BASE else s.conns[t.c].loop)
    && (t.Send? || t.Shutdown? ==> s.conns[t.c].established > 0)
  }

  ghost predicate Names(s: System) {
    && s.server.next == |s.conns| + 1
    && (forall c :: 0 <= c < |s.conns| ==> s.conns[c].name == ConnName(s.server.name, c + 1))
    && (forall n :: n in s.server.connects ==>
          s.server.connects[n] < |s.conns| && s.conns[s.server.connects[n]].name == n)
  }

  ghost predicate QueuesPlaced(s: System) {
    forall l, t :: 0 <= l < |s.queues| && t in s.queues[l] ==> Placed(s, l, t)
  }

  ghost predicate CallsPlaced(s: System) {
    forall call :: call in s.calls ==> call.c < |s.conns| && s.conns[call.c].established > 0
  }

  ghost predicate InvWith(s: System, extra: multiset<Task>) {
    && !s.fault
    && BASE < |s.queues|
    && Names(s)
    && QueuesPlaced(s)
    && CallsPlaced(s)
    && (forall c :: 0 <= c < |s.conns| ==> ConnInv(s, extra, c))
  }

  ghost predicate Inv(s: System) {
    InvWith(s, multiset{})
  }

  /** Generated names never collide. */
  lemma NamesDistinct(server: string, a: nat, b: nat)
    ensures ConnName(server, a) == ConnName(server, b) <==> a == b
  {
    var x, y := ConnName(server, a), ConnName(server, b);
    assert x[|server| + 1..] == Dec(a) && y[|server| + 1..] == Dec(b);
    DecValue(a);
    DecValue(b);
  }

  lemma ConnNamesDistinct(s: System, a: nat, b: nat)
    requires Names(s) && a < |s.conns| && b < |s.conns|
    ensures s.conns[a].name == s.conns[b].name <==> a == b
  {
    NamesDistinct(s.server.name, a + 1, b + 1);
  }

  /** Queueing a task that was still to run. */
  lemma PostKeeps(s: System, loop: nat, t: Task)
    requires InvWith(s, multiset{t}) && Placed(s, loop, t)
    ensures Inv(Post(s, loop, t))
  {
    var s' := Post(s, loop, t);
    PostPlaced(s, loop, t);
    forall c | 0 <= c < |s.conns| ensures ConnInv(s', multiset{}, c)
    {
      assert ConnInv(s, multiset{t}, c);
      PostCounts(s, loop, t, s.conns[c].loop, Establish(c));
      PostCounts(s, loop, t, s.conns[c].loop, Destroy(c));
      PostCounts(s, loop, t, BASE, Remove(c));
    }
  }

  lemma PostPlaced(s: System, loop: nat, t: Task)
    requires QueuesPlaced(s) && Placed(s, loop, t)
    requires loop < |s.queues|
    ensures QueuesPlaced(Post(s, loop, t))
  {
    var s' := Post(s, loop, t);
    forall l, u | 0 <= l < |s'.queues| && u in s'.queues[l] ensures Placed(s', l, u)
    {
      assert Placed(s, l, u);
    }
  }

  /** A task posted is counted where it was counted as still to run. */
  lemma PostCounts(s: System, loop: nat, t: Task, l: nat, u: Task)
    requires loop < |s.queues| && l < |s.queues| && (u == t ==> l == loop)
    ensures Count(Post(s, loop, t), multiset{}, l, u) == Count(s, multiset{t}, l, u)
  {
  }

  /** Taking the first task off a queue leaves it still to run. */
  lemma PopKeeps(s: System, loop: nat)
    requires Inv(s) && loop < |s.queues| && s.queues[loop] != []
    ensures var s' := s.(queues := s.queues[loop := s.queues[loop][1..]]);
            InvWith(s', multiset{s.queues[loop][0]}) && Placed(s', loop, s.queues[loop][0])
  {
    var q, t := s.queues[loop], s.queues[loop][0];
    var s' := s.(queues := s.queues[loop := q[1..]]);
    assert q == [t] + q[1..];
    assert t in q;
    assert multiset(q) == multiset{t} + multiset(q[1..]);
    assert Placed(s, loop, t);
    forall c | 0 <= c < |s.conns| ensures ConnInv(s', multiset{t}, c)
    {
      assert ConnInv(s, multiset{}, c);
    }
    forall l, u | 0 <= l < |s'.queues| && u in s'.queues[l] ensures Placed(s', l, u)
    {
      assert u in s.queues[l];
    }
  }

  /** A step that touches one connection, and neither its place nor its tasks. */
  lemma StreamStepKeeps(s: System, extra: multiset<Task>, c: nat, k: Conn)
    requires c < |s.conns| && InvWith(s, extra)
    requires var old_ := s.conns[c];
             && k == old_.(stream := k.stream) && k.stream.closes == old_.stream.closes
             && (k.stream.state == old_.stream.state || (k.stream.state == Disconnecting && old_.established > 0))
             && (old_.destroyed == 1 ==> k.stream.writing == old_.stream.writing)
    ensures InvWith(WithConn(s, c, k), extra)
  {
    var s' := WithConn(s, c, k);
    forall d | 0 <= d < |s.conns| ensures ConnInv(s', extra, d)
    {
      assert ConnInv(s, extra, d);
    }
    assert forall l, t :: 0 <= l < |s.queues| && t in s.queues[l] ==> Placed(s, l, t) && Placed(s', l, t);
  }

  /** Sends and shutdowns are not counted. */
  lemma UncountedExtra(s: System, t: Task)
    requires InvWith(s, multiset{t}) && (t.Send? || t.Shutdown?)
    ensures Inv(s)
  {
    forall d | 0 <= d < |s.conns| ensures ConnInv(s, multiset{}, d)
    {
      assert ConnInv(s, multiset{t}, d);
    }
  }

  lemma EstablishKeeps(s: System, thread: nat, c: nat)
    requires InvWith(s, multiset{Establish(c)}) && Placed(s, thread, Establish(c))
    ensures Inv(RunEstablish(s, thread, c))
  {
    var s' := RunEstablish(s, thread, c);
    assert ConnInv(s, multiset{Establish(c)}, c);
    forall d | 0 <= d < |s.conns| ensures ConnInv(s', multiset{}, d)
    {
      assert ConnInv(s, multiset{Establish(c)}, d);
    }
    assert QueuesPlaced(s');
  }

  lemma DestroyKeeps(s: System, thread: nat, c: nat)
    requires InvWith(s, multiset{Destroy(c)}) && Placed(s, thread, Destroy(c))
    ensures Inv(RunDestroy(s, thread, c))
  {
    var s' := RunDestroy(s, thread, c);
    assert ConnInv(s, multiset{Destroy(c)}, c);
    forall d | 0 <= d < |s.conns| ensures ConnInv(s', multiset{}, d)
    {
      assert ConnInv(s, multiset{Destroy(c)}, d);
    }
    assert QueuesPlaced(s');
  }

  lemma RemoveKeeps(s: System, thread: nat, c: nat)
    requires InvWith(s, multiset{Remove(c)}) && Placed(s, thread, Remove(c))
    ensures Inv(RunRemove(s, thread, c))
  {
    var s' := RunRemove(s, thread, c);
    var k := s.conns[c];
    assert ConnInv(s, multiset{Remove(c)}, c);
    forall d | 0 <= d < |s.conns| ensures ConnInv(s', multiset{}, d)
    {
      assert ConnInv(s, multiset{Remove(c)}, d);
      ConnNamesDistinct(s, c, d);
    }
    forall l, u | 0 <= l < |s'.queues| && u in s'.queues[l] ensures Placed(s', l, u)
    {
      assert u in s.queues[l] || u == Destroy(c);
    }
  }

  /** A sendInloop with unwritten bytes, run after its connection's connectDestory. */
  predicate StraySend(k: Conn, msg: string, n: int) {
    k.destroyed > 0 && msg != "" && (k.stream.out != "" || n < |msg|)
  }

  lemma SendKeeps(s: System, thread: nat, c: nat, msg: string, n: int)
    requires Inv(s) && Placed(s, thread, Send(c, msg)) && n <= |msg|
    ensures var t := RunSend(s, thread, c, msg, n);
            if StraySend(s.conns[c], msg, n) then t.fault && t.conns[c].registered else Inv(t)
  {
    assert ConnInv(s, multiset{}, c);
    var k := s.conns[c];
    var d := Stream.AfterSendInLoop(k.stream, msg, n);
    if !StraySend(k, msg, n) {
      StreamStepKeeps(s, multiset{}, c, k.(stream := d));
      assert RunSend(s, thread, c, msg, n) == WithConn(s, c, k.(stream := d));
    }
  }

  lemma ShutdownKeeps(s: System, thread: nat, c: nat)
    requires Inv(s) && Placed(s, thread, Shutdown(c))
    ensures Inv(RunShutdown(s, thread, c))
  {
    var k := s.conns[c];
    StreamStepKeeps(s, multiset{}, c, k.(stream := Stream.AfterShutdownInLoop(k.stream)));
  }

  predicate StrayTask(s: System, t: Task, n: int) {
    t.Send? && t.c < |s.conns| && StraySend(s.conns[t.c], t.msg, n)
  }

  lemma ExecuteKeeps(s: System, thread: nat, t: Task, n: int)
    requires InvWith(s, multiset{t}) && Placed(s, thread, t) && Fits(t, n)
    ensures if StrayTask(s, t, n) then Execute(s, thread, t, n).fault else Inv(Execute(s, thread, t, n))
  {
    match t
    case Establish(c) => EstablishKeeps(s, thread, c);
    case Remove(c) => RemoveKeeps(s, thread, c);
    case Destroy(c) => DestroyKeeps(s, thread, c);
    case Send(c, msg) =>
      UncountedExtra(s, t);
      SendKeeps(s, thread, c, msg, n);
    case Shutdown(c) =>
      UncountedExtra(s, t);
      ShutdownKeeps(s, thread, c);
  }

  lemma RunInLoopKeeps(s: System, thread: nat, loop: nat, t: Task)
    requires InvWith(s, multiset{t}) && Placed(s, loop, t) && !t.Send?
    ensures Inv(RunInLoop(s, thread, loop, t))
  {
    if thread == loop {
      ExecuteKeeps(s, thread, t, 0);
    } else {
      PostKeeps(s, loop, t);
    }
  }

  /** The new connection, with its establishment still to run. */
  lemma AddKeeps(s: System, loop: nat)
    requires Inv(s) && loop < |s.queues|
    ensures var c, name := |s.conns|, ConnName(s.server.name, s.server.next);
            InvWith(s.(server := s.server.(next := s.server.next + 1, connects := s.server.connects[name := c]),
                       conns := s.conns + [NewConn(loop, name)]), multiset{Establish(c)})
  {
    var c := |s.conns|;
    var name := ConnName(s.server.name, s.server.next);
    var s1 := s.(server := s.server.(next := s.server.next + 1, connects := s.server.connects[name := c]),
                 conns := s.conns + [NewConn(loop, name)]);
    forall l, u | 0 <= l < |s1.queues| && u in s1.queues[l] ensures Placed(s1, l, u) && u.c != c
    {
      assert Placed(s, l, u);
    }
    forall d | 0 <= d < |s1.conns| ensures ConnInv(s1, multiset{Establish(c)}, d)
    {
      if d < c {
        assert ConnInv(s, multiset{}, d);
        NamesDistinct(s.server.name, d + 1, s.server.next);
      } else {
        assert Establish(c) !in s1.queues[loop] && Destroy(c) !in s1.queues[loop] && Remove(c) !in s1.queues[BASE];
      }
    }
  }

  lemma AcceptKeeps(s: System, loop: nat)
    requires Inv(s) && loop < |s.queues|
    ensures Inv(NewConnection(s, loop))
  {
    var c := |s.conns|;
    var name := ConnName(s.server.name, s.server.next);
    var s1 := s.(server := s.server.(next := s.server.next + 1, connects := s.server.connects[name := c]),
                 conns := s.conns + [NewConn(loop, name)]);
    AddKeeps(s, loop);
    RunInLoopKeeps(s1, BASE, loop, Establish(c));
  }

  lemma CloseKeeps(s: System, c: nat)
    requires Inv(s) && Known(s, Remove(c)) && s.conns[c].registered
    ensures var s' := HandleClose(s, s.conns[c].loop, c);
            Inv(s') && Known(s', Remove(c)) && s'.conns[c].registered
  {
    CloseFrame(s, c);
    var k := s.conns[c];
    assert ConnInv(s, multiset{}, c);
    var s1 := WithConn(s, c, k.(stream := Stream.AfterHandleClose(k.stream)));
    forall d | 0 <= d < |s1.conns| ensures ConnInv(s1, multiset{Remove(c)}, d)
    {
      assert ConnInv(s, multiset{}, d);
    }
    assert QueuesPlaced(s1);
    RunInLoopKeeps(s1, k.loop, BASE, Remove(c));
  }

  lemma CloseFrame(s: System, c: nat)
    requires Known(s, Remove(c))
    ensures var s' := HandleClose(s, s.conns[c].loop, c);
            && |s'.conns| == |s.conns| && |s'.queues| == |s.queues|
            && s'.conns[c].registered == s.conns[c].registered && s'.conns[c].loop == s.conns[c].loop
  {
  }

  /** handleWrite, and a shutdown on the loop thread. */
  lemma HandlerKeeps(s: System, step: Step)
    requires Inv(s) && Enabled(s, step) && (step.Writable? || step.LocalShutdown?)
    ensures Inv(Apply(s, step))
  {
    assert ConnInv(s, multiset{}, step.c);
    StreamStepKeeps(s, multiset{}, step.c, Apply(s, step).conns[step.c]);
  }

  lemma NewCallKeeps(s: System, step: Step)
    requires Inv(s) && Enabled(s, step) && (step.ForeignSend? || step.ForeignShutdown?)
    ensures Inv(Apply(s, step))
  {
    var s' := Apply(s, step);
    assert ConnInv(s, multiset{}, step.c);
    CallsKeep(s, s'.calls);
  }

  lemma CallsKeep(s: System, calls: multiset<Pending>)
    requires Inv(s)
    requires forall call :: call in calls ==> call.c < |s.conns| && s.conns[call.c].established > 0
    ensures Inv(s.(calls := calls))
  {
    var s' := s.(calls := calls);
    forall d | 0 <= d < |s.conns| ensures ConnInv(s', multiset{}, d)
    {
      assert ConnInv(s, multiset{}, d);
    }
    assert QueuesPlaced(s');
  }

  /** Queueing a task that is not counted. */
  lemma PostUncounted(s: System, loop: nat, t: Task)
    requires Inv(s) && Placed(s, loop, t) && (t.Send? || t.Shutdown?)
    ensures Inv(Post(s, loop, t))
  {
    forall d | 0 <= d < |s.conns| ensures ConnInv(s, multiset{t}, d)
    {
      assert ConnInv(s, multiset{}, d);
    }
    PostKeeps(s, loop, t);
  }

  /** The store of kDisconnecting. */
  lemma StoreKeeps(s: System, c: nat)
    requires Inv(s) && c < |s.conns| && s.conns[c].established > 0
    ensures Inv(WithConn(s, c, s.conns[c].(stream := s.conns[c].stream.(state := Disconnecting))))
  {
    assert ConnInv(s, multiset{}, c);
    StreamStepKeeps(s, multiset{}, c, s.conns[c].(stream := s.conns[c].stream.(state := Disconnecting)));
  }

  lemma ProceedKeeps(s: System, call: Pending)
    requires Inv(s) && call in s.calls && Known(s, Shutdown(call.c))
    ensures Inv(Proceed(s, call))
  {
    var rest := s.calls - multiset{call};
    match call
    case Pending(c, Sending(msg)) =>
      CallsKeep(s, rest);
      PostUncounted(s.(calls := rest), s.conns[c].loop, Send(c, msg));
    case Pending(c, Shutting) =>
      StoreKeeps(s, c);
      CallsKeep(WithConn(s, c, s.conns[c].(stream := s.conns[c].stream.(state := Disconnecting))),
                rest + multiset{Pending(c, Shut)});
    case Pending(c, Shut) =>
      CallsKeep(s, rest);
      PostUncounted(s.(calls := rest), s.conns[c].loop, Shutdown(c));
  }

  lemma LocalSendKeeps(s: System, c: nat, msg: string, n: int)
    requires Inv(s) && Enabled(s, LocalSend(c, msg, n))
    ensures Inv(Apply(s, LocalSend(c, msg, n)))
  {
    assert ConnInv(s, multiset{}, c);
    SendKeeps(s, s.conns[c].loop, c, msg, n);
  }

  /** The step runs the sendInloop of a foreign send with bytes left unwritten, after the connectDestory of its connection. */
  predicate Strays(s: System, step: Step)
    requires Enabled(s, step)
  {
    step.RunTask? && StrayTask(s, s.queues[step.loop][0], step.n)
  }

  lemma RunTaskKeeps(s: System, l: nat, n: int)
    requires Inv(s) && Enabled(s, RunTask(l, n))
    ensures if Strays(s, RunTask(l, n)) then Apply(s, RunTask(l, n)).fault else Inv(Apply(s, RunTask(l, n)))
  {
    PopKeeps(s, l);
    ExecuteKeeps(s.(queues := s.queues[l := s.queues[l][1..]]), l, s.queues[l][0], n);
  }

  lemma StepKeeps(s: System, step: Step)
    requires Inv(s) && Enabled(s, step)
    ensures if Strays(s, step) then Apply(s, step).fault else Inv(Apply(s, step))
  {
    match step
    case Accept(l) => AcceptKeeps(s, l);
    case RunTask(l, n) => RunTaskKeeps(s, l, n);
    case Close(c) => CloseKeeps(s, c);
    case LocalSend(c, msg, n) => LocalSendKeeps(s, c, msg, n);
    case Continue(call) => ProceedKeeps(s, call);
    case ForeignSend(_, _) => NewCallKeeps(s, step);
    case ForeignShutdown(_) => NewCallKeeps(s, step);
    case _ => HandlerKeeps(s, step);
  }

  predicate SomeStray(s: System, steps: seq<Step>)
    requires Possible(s, steps)
    decreases |steps|
  {
    steps != [] && (Strays(s, steps[0]) || SomeStray(Apply(s, steps[0]), steps[1..]))
  }

  /** A failed assertion is final. */
  lemma FaultStays(s: System, step: Step)
    requires s.fault && Enabled(s, step)
    ensures Apply(s, step).fault
  {
  }

  lemma {:induction false} RunFaultStays(s: System, steps: seq<Step>)
    requires s.fault && Possible(s, steps)
    ensures Run(s, steps).fault
    decreases |steps|
  {
    if steps != [] {
      FaultStays(s, steps[0]);
      RunFaultStays(Apply(s, steps[0]), steps[1..]);
    }
  }

  lemma {:induction false} RunKeeps(s: System, steps: seq<Step>)
    requires Inv(s) && Possible(s, steps)
    ensures if SomeStray(s, steps) then Run(s, steps).fault else Inv(Run(s, steps))
    decreases |steps|
  {
    if steps != [] {
      StepKeeps(s, steps[0]);
      if Strays(s, steps[0]) {
        RunFaultStays(Apply(s, steps[0]), steps[1..]);
      } else {
        RunKeeps(Apply(s, steps[0]), steps[1..]);
      }
    }
  }

  // ---------------------------------------------------------------- safety over whole runs

  /** A connection is established at most once and destroyed at most once, the latter only after a close;
      until its first close it stays in the server's map, and from its destruction on its channel is unknown. */
  ghost predicate LivedOnce(s: System, c: nat)
    requires c < |s.conns|
  {
    var k := s.conns[c];
    && k.established == (if k.stream.state == Connecting then 0 else 1)
    && k.destroyed <= k.established
    && (k.destroyed == 1 ==> k.stream.closes > 0 && !k.registered && !Mapped(s, c))
    && (k.destroyed == 0 ==> k.registered == (k.established == 1))
    && (k.stream.closes == 0 ==> Mapped(s, c))
  }

  ghost predicate Sound(s: System) {
    && !s.fault
    && (forall l :: 0 <= l < |s.queues| && s.queues[l] != [] ==> Enabled(s, RunTask(l, -1)))
    && (forall c :: 0 <= c < |s.conns| ==> LivedOnce(s, c))
  }

  lemma InvSound(s: System)
    requires Inv(s)
    ensures Sound(s)
  {
    forall c | 0 <= c < |s.conns| ensures LivedOnce(s, c)
    {
      assert ConnInv(s, multiset{}, c);
    }
    forall l | 0 <= l < |s.queues| && s.queues[l] != [] ensures Enabled(s, RunTask(l, -1))
    {
      assert s.queues[l][0] in s.queues[l];
      assert Placed(s, l, s.queues[l][0]);
    }
  }

  /** For every interleaving of accepts, tasks, channel events, sends and shutdowns from any thread: no assertion
      about states, registration or threads fails, every queued task can be run, and each connection lives once,
      whatever the number of handleClose calls, if and only if no foreign send is run with bytes left unwritten
      after its connection's connectDestory. */
  lemma AlwaysSafe(name: string, loops: nat, steps: seq<Step>)
    requires loops > 0 && Possible(Start(name, loops), steps)
    ensures Sound(Run(Start(name, loops), steps)) <==> !SomeStray(Start(name, loops), steps)
  {
    RunKeeps(Start(name, loops), steps);
    if !SomeStray(Start(name, loops), steps) { InvSound(Run(Start(name, loops), steps)); }
  }

  /** What such a send does: the channel is registered, and nothing that could remove it or keep its
      connection alive is left. */
  lemma StrayIsUnowned(s: System, l: nat, n: int)
    requires Inv(s) && Enabled(s, RunTask(l, n)) && Strays(s, RunTask(l, n))
    ensures var t, c := Apply(s, RunTask(l, n)), s.queues[l][0].c;
            && t.fault && t.conns[c].registered && t.conns[c].destroyed == 1
            && !Mapped(t, c) && Destroy(c) !in t.queues[t.conns[c].loop]
  {
    var c := s.queues[l][0].c;
    assert s.queues[l][0] in s.queues[l];
    assert Placed(s, l, s.queues[l][0]) && ConnInv(s, multiset{}, c);
    assert forall t :: t in s.queues[l][1..] ==> t in s.queues[l];
  }

  /** A channel known to its poller belongs to a connection kept alive by the server's map or by its queued
      destruction, as long as no send has strayed. */
  lemma RegisteredIsAlive(name: string, loops: nat, steps: seq<Step>, c: nat)
    requires loops > 0 && Possible(Start(name, loops), steps) && !SomeStray(Start(name, loops), steps)
    requires var s := Run(Start(name, loops), steps); c < |s.conns| && s.conns[c].registered
    ensures var s := Run(Start(name, loops), steps);
            var k := s.conns[c];
            (k.name in s.server.connects && s.server.connects[k.name] == c)
            || (k.loop < |s.queues| && Destroy(c) in s.queues[k.loop])
  {
    RunKeeps(Start(name, loops), steps);
    var s := Run(Start(name, loops), steps);
    assert ConnInv(s, multiset{}, c);
    if Mapped(s, c) {
      ConnNamesDistinct(s, c, s.server.connects[s.conns[c].name]);
    }
  }

  /** The server's map or a queued task holds a shared_ptr to the connection; a queued sendInloop or
      shutdownInloop does not. */
  ghost predicate Referenced(s: System, c: nat)
    requires c < |s.conns| && s.conns[c].loop < |s.queues| && BASE < |s.queues|
  {
    var k := s.conns[c];
    || (k.name in s.server.connects && s.server.connects[k.name] == c)
    || Establish(c) in s.queues[k.loop] || Destroy(c) in s.queues[k.loop] || Remove(c) in s.queues[BASE]
  }

  /** The library lets go of a connection with its connectDestory and its last removal, and not before: exactly then
      a functor bound to the raw pointer needs the application to hold the connection. */
  lemma ReferencedIff(s: System, c: nat)
    requires Inv(s) && c < |s.conns|
    ensures s.conns[c].loop < |s.queues|
    ensures Referenced(s, c) <==> s.conns[c].destroyed == 0 || Remove(c) in s.queues[BASE]
  {
    assert ConnInv(s, multiset{}, c);
    if Mapped(s, c) { ConnNamesDistinct(s, c, s.server.connects[s.conns[c].name]); }
  }

  // ---------------------------------------------------------------- the order of callbacks

  /** What poll reported, and whether a read would return nothing. */
  datatype Ready = Ready(hup: bool, in_: bool, pri: bool, rdhup: bool, out: bool, readsZero: bool)

  /** What the message callback may do, to this connection or any other, on the loop's thread or from it to others. */
  predicate UserAct(step: Step) {
    step.LocalSend? || step.LocalShutdown? || step.ForeignSend? || step.ForeignShutdown? || step.Continue?
  }

  /** Channel::handleEvent on a connection's channel: the close callback, then the read callback, which closes on a zero
      read and otherwise calls the message callback, then the write callback. */
  function ClosePart(c: nat, r: Ready): seq<Step> {
    if r.hup && r.in_ then [Close(c)] else []
  }

  function ReadPart(c: nat, r: Ready, acts: seq<Step>): seq<Step> {
    if !r.in_ && !r.pri && !r.rdhup then [] else if r.readsZero then [Close(c)] else acts
  }

  function WritePart(c: nat, r: Ready, n: int): seq<Step> {
    if r.out then [Writable(c, n)] else []
  }

  lemma PossibleCons(s: System, step: Step, rest: seq<Step>)
    requires Enabled(s, step) && Possible(Apply(s, step), rest)
    ensures Possible(s, [step] + rest) && Run(s, [step] + rest) == Run(Apply(s, step), rest)
  {
    assert ([step] + rest)[1..] == rest;
  }

  ghost predicate Dispatching(s: System, c: nat) {
    Inv(s) && Known(s, Remove(c)) && s.conns[c].registered
  }

  /** At most one close callback. */
  lemma CloseDispatches(s: System, c: nat, closes: bool)
    requires Dispatching(s, c)
    ensures var steps := if closes then [Close(c)] else []; Possible(s, steps) && Dispatching(Run(s, steps), c)
  {
    if closes {
      CloseKeeps(s, c);
      PossibleCons(s, Close(c), []);
      assert [Close(c)] + [] == [Close(c)];
    }
  }

  lemma ActDispatches(s: System, c: nat, act: Step)
    requires Dispatching(s, c) && Enabled(s, act) && UserAct(act)
    ensures Dispatching(Apply(s, act), c)
  {
    ActFrame(s, c, act);
    StepKeeps(s, act);
  }

  lemma ActFrame(s: System, c: nat, act: Step)
    requires c < |s.conns| && Enabled(s, act) && UserAct(act)
    ensures var t := Apply(s, act);
            && |t.conns| == |s.conns| && |t.queues| == |s.queues| && t.conns[c].loop == s.conns[c].loop
            && (s.conns[c].registered ==> t.conns[c].registered)
  {
    match act
    case Continue(call) => ProceedFrame(s, c, call);
    case _ =>
  }

  lemma ProceedFrame(s: System, c: nat, call: Pending)
    requires c < |s.conns| && Known(s, Shutdown(call.c))
    ensures var t := Proceed(s, call);
            && |t.conns| == |s.conns| && |t.queues| == |s.queues|
            && t.conns[c].loop == s.conns[c].loop && t.conns[c].registered == s.conns[c].registered
  {
  }

  lemma {:induction false} ActsDispatch(s: System, c: nat, acts: seq<Step>)
    requires Dispatching(s, c) && Possible(s, acts) && forall act :: act in acts ==> UserAct(act)
    ensures Dispatching(Run(s, acts), c)
    decreases |acts|
  {
    if acts != [] {
      assert acts[0] in acts;
      ActDispatches(s, c, acts[0]);
      ActsDispatch(Apply(s, acts[0]), c, acts[1..]);
    }
  }

  /** All the callbacks of one handleEvent find the channel registered and their assertions hold, even when
      the first of them has already asked for the removal, and whatever the message callback does in between. */
  lemma EventDispatches(s: System, c: nat, r: Ready, acts: seq<Step>)
    requires Dispatching(s, c) && forall act :: act in acts ==> UserAct(act)
    requires Possible(if r.hup && r.in_ then Apply(s, Close(c)) else s, acts)
    ensures Possible(s, ClosePart(c, r))
    ensures var t := Run(s, ClosePart(c, r));
            && Possible(t, ReadPart(c, r, acts))
            && var u := Run(t, ReadPart(c, r, acts));
            && Dispatching(u, c) && forall n :: n <= |u.conns[c].stream.out| ==> Possible(u, WritePart(c, r, n))
  {
    var second := ReadPart(c, r, acts);
    CloseDispatches(s, c, r.hup && r.in_);
    ClosePartRuns(s, c, r);
    var t := Run(s, ClosePart(c, r));
    if second == acts { ActsDispatch(t, c, acts); } else { CloseDispatches(t, c, second != []); }
    var u := Run(t, second);
    forall n | n <= |u.conns[c].stream.out| ensures Possible(u, WritePart(c, r, n)) { WriteDispatches(u, c, r, n); }
  }

  /** What poll's bits come to, for a connection: handleClose runs once for a hang-up with input, and once for a read of
      nothing, which any of POLLIN, POLLPRI and POLLRDHUP leads to; a hang-up or an error alone, or writability, never
      closes. */
  lemma EventCloses(s: System, c: nat, r: Ready, acts: seq<Step>)
    requires Dispatching(s, c) && forall act :: act in acts ==> UserAct(act)
    requires Possible(if r.hup && r.in_ then Apply(s, Close(c)) else s, acts)
    ensures Possible(s, ClosePart(c, r)) && Possible(Run(s, ClosePart(c, r)), ReadPart(c, r, acts))
    ensures var u := Run(Run(s, ClosePart(c, r)), ReadPart(c, r, acts));
            c < |u.conns| &&
            u.conns[c].stream.closes == s.conns[c].stream.closes +
              (if r.hup && r.in_ then 1 else 0) + (if (r.in_ || r.pri || r.rdhup) && r.readsZero then 1 else 0)
  {
    EventDispatches(s, c, r, acts);
    ClosePartRuns(s, c, r);
    var t := Run(s, ClosePart(c, r));
    if r.hup && r.in_ { CloseCounts(s, c); }
    if (r.in_ || r.pri || r.rdhup) && r.readsZero {
      CloseDispatches(s, c, r.hup && r.in_);
      assert [Close(c)][1..] == [];
      CloseCounts(t, c);
    } else if ReadPart(c, r, acts) != [] {
      ActsCountNothing(t, c, acts);
    }
  }

  lemma CloseCounts(s: System, c: nat)
    requires Known(s, Remove(c))
    ensures var t := HandleClose(s, s.conns[c].loop, c);
            c < |t.conns| && t.conns[c].stream.closes == s.conns[c].stream.closes + 1
  {
  }

  lemma ActCountsNothing(s: System, c: nat, act: Step)
    requires c < |s.conns| && Enabled(s, act) && UserAct(act)
    ensures c < |Apply(s, act).conns| && Apply(s, act).conns[c].stream.closes == s.conns[c].stream.closes
  {
    match act
    case Continue(call) =>
    case _ =>
  }

  lemma {:induction false} ActsCountNothing(s: System, c: nat, acts: seq<Step>)
    requires c < |s.conns| && Possible(s, acts) && forall act :: act in acts ==> UserAct(act)
    ensures c < |Run(s, acts).conns| && Run(s, acts).conns[c].stream.closes == s.conns[c].stream.closes
    decreases |acts|
  {
    if acts != [] {
      assert acts[0] in acts;
      ActCountsNothing(s, c, acts[0]);
      ActsCountNothing(Apply(s, acts[0]), c, acts[1..]);
    }
  }

  lemma ClosePartRuns(s: System, c: nat, r: Ready)
    requires Dispatching(s, c)
    ensures Possible(s, ClosePart(c, r))
    ensures Run(s, ClosePart(c, r)) == if r.hup && r.in_ then Apply(s, Close(c)) else s
  {
    if r.hup && r.in_ {
      CloseDispatches(s, c, true);
      assert [Close(c)][1..] == [];
    }
  }

  lemma WriteDispatches(s: System, c: nat, r: Ready, n: int)
    requires Dispatching(s, c) && n <= |s.conns[c].stream.out|
    ensures Possible(s, WritePart(c, r, n))
  {
    assert [Writable(c, n)][1..] == [];
  }

  // ---------------------------------------------------------------- reachable states

  ghost predicate Leads(s: System, steps: seq<Step>, t: System) {
    Possible(s, steps) && Run(s, steps) == t
  }

  ghost predicate CanLead(s: System, t: System) {
    exists steps :: Leads(s, steps, t)
  }

  lemma CanLeadStep(s: System, step: Step, t: System)
    requires Enabled(s, step) && CanLead(Apply(s, step), t)
    ensures CanLead(s, t)
  {
    var rest :| Leads(Apply(s, step), rest, t);
    PossibleCons(s, step, rest);
    assert Leads(s, [step] + rest, t);
  }

  lemma CanLeadSelf(s: System)
    ensures CanLead(s, s)
  {
    assert Leads(s, [], s);
  }

  lemma CanLeadThrough(s: System, t: System, u: System)
    requires CanLead(s, t) && CanLead(t, u)
    ensures CanLead(s, u)
  {
    var steps :| Leads(s, steps, t);
    Through(s, steps, t, u);
  }

  lemma {:induction false} Through(s: System, steps: seq<Step>, t: System, u: System)
    requires Leads(s, steps, t) && CanLead(t, u)
    ensures CanLead(s, u)
    decreases |steps|
  {
    if steps != [] {
      Through(Apply(s, steps[0]), steps[1..], t, u);
      CanLeadStep(s, steps[0], u);
    }
  }

  /** The only connection, established on loop 1, with what is queued on the two loops. */
  ghost predicate Solo(s: System, base: seq<Task>, io: seq<Task>) {
    && |s.conns| == 1 && s.conns[0].loop == 1 && s.conns[0].registered && s.conns[0].destroyed == 0
    && Open(s.conns[0].stream.state)
    && |s.queues| == 2 && s.queues[0] == base && s.queues[1] == io && !s.fault
  }

  lemma StartEstablished() returns (s: System)
    ensures CanLead(Start("s", 2), s) && Solo(s, [], []) && Mapped(s, 0) && s.conns[0].stream.state == Connected
  {
    var s0 := Start("s", 2);
    var s1 := Apply(s0, Accept(1));
    assert s1.queues[1] == [Establish(0)] && s1.queues[0] == [];
    s := Apply(s1, RunTask(1, 0));
    assert s.queues[1] == [] && s.queues[0] == [];
    CanLeadSelf(s);
    CanLeadStep(s1, RunTask(1, 0), s);
    CanLeadStep(s0, Accept(1), s);
  }

  /** The peer closes, and the base loop removes the connection. */
  lemma CloseAndRemove(s: System) returns (t: System)
    requires Solo(s, [], []) && Mapped(s, 0)
    ensures CanLead(s, t) && Solo(t, [], [Destroy(0)]) && t.calls == s.calls
  {
    var s1 := Apply(s, Close(0));
    assert s1.queues[0] == [Remove(0)];
    t := Apply(s1, RunTask(0, 0));
    CanLeadSelf(t);
    CanLeadStep(s1, RunTask(0, 0), t);
    CanLeadStep(s, Close(0), t);
  }

  /** The failing input: a foreign send that read kConnected is queued behind the connectDestory, and its
      write() fails. */
  lemma ForeignSendStrays(msg: string) returns (t: System)
    requires msg != ""
    ensures CanLead(Start("s", 2), t) && t.fault && t.conns != [] && t.conns[0].destroyed == 1 && t.conns[0].registered
  {
    var s := StartEstablished();
    var s1 := Apply(s, ForeignSend(0, msg));
    var s2 := CloseAndRemove(s1);
    assert Pending(0, Sending(msg)) in s2.calls;
    t := SendBehindDestroy(s2, msg);
    CanLeadThrough(s1, s2, t);
    CanLeadStep(s, ForeignSend(0, msg), t);
    CanLeadThrough(Start("s", 2), s, t);
  }

  lemma SendBehindDestroy(s: System, msg: string) returns (t: System)
    requires Solo(s, [], [Destroy(0)]) && Pending(0, Sending(msg)) in s.calls && msg != ""
    ensures CanLead(s, t) && t.fault && t.conns != [] && t.conns[0].destroyed == 1 && t.conns[0].registered
  {
    var s1 := Apply(s, Continue(Pending(0, Sending(msg))));
    assert s1.queues[1] == [Destroy(0), Send(0, msg)];
    var s2 := Apply(s1, RunTask(1, 0));
    assert s2.queues[1] == [Send(0, msg)];
    t := Apply(s2, RunTask(1, -1));
    CanLeadSelf(t);
    CanLeadStep(s2, RunTask(1, -1), t);
    CanLeadStep(s1, RunTask(1, 0), t);
    CanLeadStep(s, Continue(Pending(0, Sending(msg))), t);
  }

  /** A foreign shutdown that read kConnected, and stores kDisconnecting after the destruction. */
  lemma LateShutdownOverwrites() returns (t: System)
    ensures CanLead(Start("s", 2), t)
    ensures t.conns != [] && t.conns[0].destroyed == 1 && t.conns[0].stream.state == Disconnecting
  {
    var s := StartEstablished();
    var s1 := Apply(s, ForeignShutdown(0));
    var s2 := CloseAndRemove(s1);
    assert Pending(0, Shutting) in s2.calls;
    t := StoreBehindDestroy(s2);
    CanLeadThrough(s1, s2, t);
    CanLeadStep(s, ForeignShutdown(0), t);
    CanLeadThrough(Start("s", 2), s, t);
  }

  lemma StoreBehindDestroy(s: System) returns (t: System)
    requires Solo(s, [], [Destroy(0)]) && Pending(0, Shutting) in s.calls
    ensures CanLead(s, t) && t.conns != [] && t.conns[0].destroyed == 1 && t.conns[0].stream.state == Disconnecting
  {
    var s1 := Apply(s, RunTask(1, 0));
    t := Apply(s1, Continue(Pending(0, Shutting)));
    CanLeadSelf(t);
    CanLeadStep(s1, Continue(Pending(0, Shutting)), t);
    CanLeadStep(s, RunTask(1, 0), t);
  }

  /** Nothing under way or queued can change the state of a disconnected connection. */
  ghost predicate AtRest(s: System, c: nat) {
    && c < |s.conns| && s.conns[c].stream.state == Disconnected && Pending(c, Shutting) !in s.calls
    && forall l :: 0 <= l < |s.queues| ==> Establish(c) !in s.queues[l]
  }

  lemma AtRestStays(s: System, step: Step, c: nat)
    requires AtRest(s, c) && Enabled(s, step)
    ensures AtRest(Apply(s, step), c)
  {
    match step
    case Accept(l) => AcceptAtRest(s, l, c);
    case RunTask(l, n) => TaskAtRest(s, l, n, c);
    case Close(d) => CloseAtRest(s, d, c);
    case Continue(call) => ProceedAtRest(s, call, c);
    case _ =>
  }

  lemma AcceptAtRest(s: System, l: nat, c: nat)
    requires AtRest(s, c) && l < |s.queues|
    ensures AtRest(NewConnection(s, l), c)
  {
  }

  lemma TaskAtRest(s: System, l: nat, n: int, c: nat)
    requires AtRest(s, c) && Enabled(s, RunTask(l, n))
    ensures AtRest(Apply(s, RunTask(l, n)), c)
  {
    var t := s.queues[l][0];
    assert s.queues[l] == [t] + s.queues[l][1..];
    assert t in s.queues[l];
    var s1 := s.(queues := s.queues[l := s.queues[l][1..]]);
    assert AtRest(s1, c);
    ExecuteAtRest(s1, l, t, n, c);
  }

  lemma ExecuteAtRest(s: System, thread: nat, t: Task, n: int, c: nat)
    requires AtRest(s, c) && Known(s, t) && Fits(t, n) && t != Establish(c)
    ensures AtRest(Execute(s, thread, t, n), c)
  {
    match t
    case Remove(d) =>
    case _ =>
  }

  lemma CloseAtRest(s: System, d: nat, c: nat)
    requires AtRest(s, c) && Enabled(s, Close(d))
    ensures AtRest(Apply(s, Close(d)), c)
  {
    var k := s.conns[d];
    var s1 := WithConn(Check(s, Open(k.stream.state) && k.registered), d,
                       k.(stream := Stream.AfterHandleClose(k.stream)));
    assert AtRest(s1, c);
    if k.loop == BASE { ExecuteAtRest(s1, BASE, Remove(d), 0, c); }
  }

  lemma ProceedAtRest(s: System, call: Pending, c: nat)
    requires AtRest(s, c) && Enabled(s, Continue(call))
    ensures AtRest(Proceed(s, call), c)
  {
  }

  lemma {:induction false} RunAtRest(s: System, steps: seq<Step>, c: nat)
    requires AtRest(s, c) && Possible(s, steps)
    ensures AtRest(Run(s, steps), c)
    decreases |steps|
  {
    if steps != [] {
      AtRestStays(s, steps[0], c);
      RunAtRest(Apply(s, steps[0]), steps[1..], c);
    }
  }

  /** A destroyed, disconnected connection can be found kDisconnecting later if and only if a shutdown() from
      another thread has read kConnected and not yet stored. */
  lemma OverwrittenIff(s: System, c: nat)
    requires Inv(s) && c < |s.conns| && s.conns[c].destroyed == 1 && s.conns[c].stream.state == Disconnected
    ensures (exists t :: CanLead(s, t) && c < |t.conns| && t.conns[c].stream.state == Disconnecting)
            <==> Pending(c, Shutting) in s.calls
  {
    assert ConnInv(s, multiset{}, c);
    if Pending(c, Shutting) in s.calls {
      var t := Apply(s, Continue(Pending(c, Shutting)));
      CanLeadSelf(t);
      CanLeadStep(s, Continue(Pending(c, Shutting)), t);
      assert t.conns[c].stream.state == Disconnecting;
    } else {
      forall l | 0 <= l < |s.queues| ensures Establish(c) !in s.queues[l]
      {
        assert Establish(c) in s.queues[l] ==> Placed(s, l, Establish(c));
      }
      forall t | CanLead(s, t) ensures AtRest(t, c)
      {
        var steps :| Leads(s, steps, t);
        RunAtRest(s, steps, c);
      }
    }
  }

  // ---------------------------------------------------------------- draining

  function TaskWeight(t: Task): nat {
    if t.Remove? then 2 else 1
  }

  function QueueWeight(q: seq<Task>): nat {
    if q == [] then 0 else TaskWeight(q[0]) + QueueWeight(q[1..])
  }

  function Weight(qs: seq<seq<Task>>): nat {
    if qs == [] then 0 else QueueWeight(qs[0]) + Weight(qs[1..])
  }

  lemma QueueWeightSnoc(q: seq<Task>, t: Task)
    ensures QueueWeight(q + [t]) == QueueWeight(q) + TaskWeight(t)
  {
    if q == [] {
      assert q + [t] == [t] && [t][1..] == [];
    } else {
      assert (q + [t])[1..] == q[1..] + [t];
      QueueWeightSnoc(q[1..], t);
    }
  }

  lemma WeightUpdate(qs: seq<seq<Task>>, l: nat, q: seq<Task>)
    requires l < |qs|
    ensures Weight(qs[l := q]) == Weight(qs) - QueueWeight(qs[l]) + QueueWeight(q)
  {
    if l == 0 {
      assert qs[l := q][1..] == qs[1..];
    } else {
      assert qs[l := q][1..] == qs[1..][l - 1 := q];
      WeightUpdate(qs[1..], l - 1, q);
    }
  }

  /** Running a task uses up more weight than it queues, and calls no handleClose. */
  lemma TaskShrinks(s: System, l: nat, n: int)
    requires Enabled(s, RunTask(l, n))
    ensures var s' := Apply(s, RunTask(l, n));
            && Weight(s'.queues) < Weight(s.queues)
            && |s'.conns| == |s.conns| && |s'.queues| == |s.queues|
            && forall c :: 0 <= c < |s.conns| ==> s'.conns[c].stream.closes == s.conns[c].stream.closes
  {
    var q := s.queues[l];
    var t := q[0];
    var qs := s.queues[l := q[1..]];
    ExecuteFrame(s.(queues := qs), l, t, n);
    WeightUpdate(s.queues, l, q[1..]);
    var loop := s.conns[t.c].loop;
    QueueWeightSnoc(qs[loop], Destroy(t.c));
    WeightUpdate(qs, loop, qs[loop] + [Destroy(t.c)]);
  }

  lemma ExecuteFrame(s: System, thread: nat, t: Task, n: int)
    requires Known(s, t) && Fits(t, n)
    ensures var s', loop := Execute(s, thread, t, n), s.conns[t.c].loop;
            && |s'.conns| == |s.conns|
            && (forall c :: 0 <= c < |s.conns| ==> s'.conns[c].stream.closes == s.conns[c].stream.closes)
            && (s'.queues == s.queues || (t.Remove? && s'.queues == s.queues[loop := s.queues[loop] + [Destroy(t.c)]]))
  {
  }

  /** Of a state and what it has drained to. */
  ghost predicate Settled(s: System, t: System, c: nat)
    requires c < |s.conns| && c < |t.conns|
  {
    var was, k := s.conns[c], t.conns[c];
    var closed := was.stream.closes > 0;
    && k.established == 1
    && k.destroyed == (if closed then 1 else 0)
    && Mapped(t, c) == !closed
    && k.registered == !closed
    && (closed ==> k.stream.state == if was.destroyed == 0 then Disconnected else was.stream.state)
  }

  /** A destruction leaves kDisconnected, and no task changes the state after it. */
  ghost predicate DestroyedSince(s: System, t: System, c: nat)
    requires c < |s.conns| && c < |t.conns|
  {
    var was, k := s.conns[c], t.conns[c];
    && was.destroyed <= k.destroyed
    && (k.destroyed == 1 ==> k.stream.state == if was.destroyed == 0 then Disconnected else was.stream.state)
  }

  lemma TaskDestroys(s: System, t: System, l: nat, n: int, c: nat)
    requires Inv(t) && Enabled(t, RunTask(l, n)) && c < |s.conns| && c < |t.conns| && DestroyedSince(s, t, c)
    ensures DestroyedSince(s, Apply(t, RunTask(l, n)), c)
  {
    var task := t.queues[l][0];
    assert task in t.queues[l] && Placed(t, l, task) && ConnInv(t, multiset{}, c);
    ExecuteState(t.(queues := t.queues[l := t.queues[l][1..]]), l, task, n, c);
  }

  /** Only establishing and destroying change a connection's state. */
  lemma ExecuteState(s: System, thread: nat, t: Task, n: int, c: nat)
    requires Known(s, t) && Fits(t, n) && c < |s.conns|
    ensures |Execute(s, thread, t, n).conns| == |s.conns|
    ensures var was, k := s.conns[c], Execute(s, thread, t, n).conns[c];
            if t == Destroy(c) then k.stream.state == Disconnected && k.destroyed == was.destroyed + 1
            else k.destroyed == was.destroyed && (t != Establish(c) ==> k.stream.state == was.stream.state)
  {
  }

  lemma {:induction false} DrainsFrom(s: System, t: System, steps: seq<Step>)
    requires Inv(t) && Possible(t, steps) && |s.conns| == |t.conns|
    requires forall c :: 0 <= c < |s.conns| ==>
               DestroyedSince(s, t, c) && t.conns[c].stream.closes == s.conns[c].stream.closes
    requires forall st :: st in steps ==> st.RunTask?
    ensures var u := Run(t, steps);
            && |steps| + Weight(u.queues) <= Weight(t.queues)
            && |u.conns| == |s.conns|
            && (!SomeStray(t, steps) && (forall l :: 0 <= l < |u.queues| ==> u.queues[l] == []) ==>
                  forall c :: 0 <= c < |s.conns| ==> Settled(s, u, c))
    decreases |steps|
  {
    if steps != [] {
      var l, n := steps[0].loop, steps[0].n;
      assert steps[0] in steps;
      TaskShrinks(t, l, n);
      StepKeeps(t, steps[0]);
      if Strays(t, steps[0]) {
        OnlyShrinks(Apply(t, steps[0]), steps[1..]);
      } else {
        forall c | 0 <= c < |s.conns| ensures DestroyedSince(s, Apply(t, steps[0]), c)
        {
          TaskDestroys(s, t, l, n, c);
        }
        DrainsFrom(s, Apply(t, steps[0]), steps[1..]);
      }
    } else if forall l :: 0 <= l < |t.queues| ==> t.queues[l] == [] {
      forall c | 0 <= c < |s.conns| ensures Settled(s, t, c)
      {
        assert ConnInv(t, multiset{}, c) && DestroyedSince(s, t, c);
      }
    }
  }

  /** With no new events the queues empty after at most Weight many tasks, in whatever order the loops run; then, if
      no send strayed, exactly the connections that were ever closed are destroyed, unmapped, unregistered and
      kDisconnected (but for the state of those destroyed before, which stays as it was). */
  lemma Drains(s: System, steps: seq<Step>)
    requires Inv(s) && Possible(s, steps) && forall st :: st in steps ==> st.RunTask?
    ensures var t := Run(s, steps);
            && |steps| + Weight(t.queues) <= Weight(s.queues)
            && |t.conns| == |s.conns|
            && (!SomeStray(s, steps) && (forall l :: 0 <= l < |t.queues| ==> t.queues[l] == []) ==>
                  forall c :: 0 <= c < |s.conns| ==> Settled(s, t, c))
  {
    DrainsFrom(s, s, steps);
  }

  lemma {:induction false} OnlyShrinks(s: System, steps: seq<Step>)
    requires Possible(s, steps) && forall st :: st in steps ==> st.RunTask?
    ensures |steps| + Weight(Run(s, steps).queues) <= Weight(s.queues) && |Run(s, steps).conns| == |s.conns|
    decreases |steps|
  {
    if steps != [] {
      assert steps[0] in steps;
      TaskShrinks(s, steps[0].loop, steps[0].n);
      OnlyShrinks(Apply(s, steps[0]), steps[1..]);
    }
  }

  // ---------------------------------------------------------------- the server object

  class TcpServer {
    const name: string
    var nextConnId: nat
    var connects: map<string, nat>

    ghost function View(): Server
      reads this
    {
      Server(name, nextConnId, connects)
    }

    constructor (name: string)
      ensures View() == Start(name, 0).server
    {
      this.name := name;
      nextConnId := 1;
      connects := map[];
    }

    /** The server's share of newConnection: the name under which `conn` is kept. */
    method NewConnection(conn: nat) returns (connName: string)
      modifies this
      ensures connName == ConnName(name, old(nextConnId))
      ensures View() == old(View()).(next := old(nextConnId) + 1, connects := old(connects)[connName := conn])
    {
      connName := name + "#" + Dec(nextConnId);
      nextConnId := nextConnId + 1;
      connects := connects[connName := conn];
    }

    /** The server's share of removeConnectionInLoop: whether a connectDestory must be queued. */
    method RemoveConnectionInLoop(connName: string) returns (destroy: bool)
      modifies this`connects
      ensures destroy <==> connName in old(connects)
      ensures View() == old(View()).(connects := old(connects) - {connName})
    {
      var n := if connName in connects then 1 else 0;
      connects := connects - {connName};
      destroy := n != 0;
    }
  }
}

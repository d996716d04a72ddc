/** The byte streams of all connections of a server, over the runs of Lifecycle: tcpConnection.cpp under tcpServer.cpp. */
module LifecycleStreams {
  import opened ConnectionStates
  import opened Lifecycle
  import Stream = TcpConnections

  // ---------------------------------------------------------------- each connection's bytes

  /** The message given to sendInloop of connection `c` in this step. */
  function SentAt(s: System, step: Step, c: nat): string
    requires Enabled(s, step)
  {
    match step
    case LocalSend(d, msg, _) => if d == c then msg else ""
    case RunTask(l, _) => SentBy(s.queues[l][0], c)
    case _ => ""
  }

  function SentBy(t: Task, c: nat): string {
    if t.Send? && t.c == c then t.msg else ""
  }

  function Sent(s: System, steps: seq<Step>, c: nat): string
    requires Possible(s, steps)
    decreases |steps|
  {
    if steps == [] then "" else SentAt(s, steps[0], c) + Sent(Apply(s, steps[0]), steps[1..], c)
  }

  /** What a write() on connection `c` takes in this step. */
  function TakenAt(s: System, step: Step, c: nat): int
    requires Enabled(s, step) && c < |s.conns|
  {
    var k := s.conns[c].stream;
    var n := match step
             case Writable(d, n) => if d == c && k.writing then n else 0
             case LocalSend(d, _, n) => if d == c && !k.writing && k.out == "" then n else 0
             case RunTask(l, n) =>
               if s.queues[l][0].Send? && s.queues[l][0].c == c && !k.writing && k.out == "" then n else 0
             case _ => 0;
    if n > 0 then n else 0
  }

  /** The stream after this step, in one step of the connection's own machine. */
  ghost predicate Flows(k: Stream.Conn, d: Stream.Conn, sent: string, taken: int) {
    && Stream.InOrder(d) && d.accepted == k.accepted + sent
    && k.wire <= d.wire && |d.wire| == |k.wire| + taken
  }

  lemma Unmoved(k: Stream.Conn, d: Stream.Conn)
    requires Stream.InOrder(k) && d.wire == k.wire && d.out == k.out && d.accepted == k.accepted
    ensures Flows(k, d, "", 0)
  {
    assert k.accepted + "" == k.accepted;
  }

  lemma SendFlows(s: System, thread: nat, c: nat, msg: string, n: int)
    requires Known(s, Send(c, msg)) && n <= |msg| && Stream.InOrder(s.conns[c].stream)
    ensures var k, d := s.conns[c].stream, RunSend(s, thread, c, msg, n).conns[c].stream;
            Flows(k, d, msg, if !k.writing && k.out == "" && n > 0 then n else 0)
  {
    Stream.SendInOrder(s.conns[c].stream, msg, n);
  }

  lemma WriteFlows(k: Stream.Conn, n: int)
    requires Stream.InOrder(k) && n <= |k.out|
    ensures Flows(k, Stream.AfterHandleWrite(k, n), "", if k.writing && n > 0 then n else 0)
  {
    Stream.WriteInOrder(k, n);
    assert k.accepted + "" == k.accepted;
  }

  lemma TaskFlows(s: System, thread: nat, t: Task, n: int, c: nat)
    requires Known(s, t) && Fits(t, n) && c < |s.conns| && Stream.InOrder(s.conns[c].stream)
    ensures var k := s.conns[c].stream;
            && c < |Execute(s, thread, t, n).conns|
            && Flows(k, Execute(s, thread, t, n).conns[c].stream, SentBy(t, c),
                     if t.Send? && t.c == c && !k.writing && k.out == "" && n > 0 then n else 0)
  {
    var k, d := s.conns[c].stream, Execute(s, thread, t, n).conns[c].stream;
    if t.Send? && t.c == c {
      SendFlows(s, thread, c, t.msg, n);
    } else {
      TaskLeavesBytes(s, thread, t, n, c);
      Unmoved(k, d);
    }
  }

  lemma TaskLeavesBytes(s: System, thread: nat, t: Task, n: int, c: nat)
    requires Known(s, t) && Fits(t, n) && c < |s.conns| && !(t.Send? && t.c == c)
    ensures c < |Execute(s, thread, t, n).conns|
    ensures var k, d := s.conns[c].stream, Execute(s, thread, t, n).conns[c].stream;
            d.wire == k.wire && d.out == k.out && d.accepted == k.accepted
  {
  }

  /** The steps that move no bytes. */
  lemma StepLeavesBytes(s: System, step: Step, c: nat)
    requires Enabled(s, step) && c < |s.conns|
    requires step.Accept? || step.Close? || step.LocalShutdown? || step.ForeignSend? || step.ForeignShutdown? || step.Continue?
    ensures c < |Apply(s, step).conns|
    ensures var k, d := s.conns[c].stream, Apply(s, step).conns[c].stream;
            d.wire == k.wire && d.out == k.out && d.accepted == k.accepted
  {
    match step
    case Close(d) => CloseLeavesBytes(s, d, c);
    case Continue(call) => ProceedLeavesBytes(s, call, c);
    case _ =>
  }

  lemma ProceedLeavesBytes(s: System, call: Pending, c: nat)
    requires Known(s, Shutdown(call.c)) && c < |s.conns|
    ensures var t := Proceed(s, call);
            && c < |t.conns|
            && var k, d := s.conns[c].stream, t.conns[c].stream;
            d.wire == k.wire && d.out == k.out && d.accepted == k.accepted
  {
  }

  lemma CloseLeavesBytes(s: System, d: nat, c: nat)
    requires Known(s, Remove(d)) && c < |s.conns|
    ensures var t := HandleClose(s, s.conns[d].loop, d);
            && c < |t.conns|
            && var k, e := s.conns[c].stream, t.conns[c].stream;
            e.wire == k.wire && e.out == k.out && e.accepted == k.accepted
  {
  }

  lemma StepFlows(s: System, step: Step, c: nat)
    requires Enabled(s, step) && c < |s.conns| && Stream.InOrder(s.conns[c].stream)
    ensures c < |Apply(s, step).conns|
    ensures Flows(s.conns[c].stream, Apply(s, step).conns[c].stream, SentAt(s, step, c), TakenAt(s, step, c))
  {
    var k := s.conns[c].stream;
    match step
    case RunTask(l, n) => TaskFlows(s.(queues := s.queues[l := s.queues[l][1..]]), l, s.queues[l][0], n, c);
    case LocalSend(d, msg, n) =>
      if d == c { SendFlows(s, s.conns[c].loop, c, msg, n); } else { Unmoved(k, Apply(s, step).conns[c].stream); }
    case Writable(d, n) =>
      if d == c { WriteFlows(k, n); } else { Unmoved(k, k); }
    case _ =>
      StepLeavesBytes(s, step, c);
      Unmoved(k, Apply(s, step).conns[c].stream);
  }

  function Taken(s: System, steps: seq<Step>, c: nat): int
    requires Possible(s, steps) && c < |s.conns|
    decreases |steps|
  {
    if steps == [] then 0
    else
      TakenAt(s, steps[0], c) +
      (if c < |Apply(s, steps[0]).conns| then Taken(Apply(s, steps[0]), steps[1..], c) else 0)
  }

  /** In every run of the server, for each connection: its sendInloop is given exactly the messages sent on it, from the
      loop or through the queue, in that order; those bytes are the bytes written followed by the bytes buffered; and
      as many have been written as write() took. */
  lemma {:induction false} StreamsFlow(s: System, steps: seq<Step>, c: nat)
    requires Possible(s, steps) && c < |s.conns| && Stream.InOrder(s.conns[c].stream)
    ensures c < |Run(s, steps).conns|
    ensures Flows(s.conns[c].stream, Run(s, steps).conns[c].stream, Sent(s, steps, c), Taken(s, steps, c))
    decreases |steps|
  {
    var k := s.conns[c].stream;
    if steps == [] {
      Unmoved(k, k);
    } else {
      StepFlows(s, steps[0], c);
      StreamsFlow(Apply(s, steps[0]), steps[1..], c);
      Regroup(k.accepted, SentAt(s, steps[0], c), Sent(Apply(s, steps[0]), steps[1..], c));
    }
  }

  lemma Regroup(a: string, b: string, c: string)
    ensures a + b + c == a + (b + c)
  {
  }

  // ---------------------------------------------------------------- no call from another thread is lost

  /** The step in which another thread's call, which is to become this task, is accepted. */
  predicate Asks(step: Step, t: Task) {
    match t
    case Send(c, msg) => step == ForeignSend(c, msg)
    case Shutdown(c) => step == ForeignShutdown(c)
    case _ => false
  }

  function UnderWay(s: System, t: Task): nat {
    match t
    case Send(c, msg) => s.calls[Pending(c, Sending(msg))]
    case Shutdown(c) => s.calls[Pending(c, Shutting)] + s.calls[Pending(c, Shut)]
    case _ => 0
  }

  function Queued(s: System, t: Task): nat {
    if t.c < |s.conns| && s.conns[t.c].loop < |s.queues| then multiset(s.queues[s.conns[t.c].loop])[t] else 0
  }

  predicate RunsTask(s: System, step: Step, t: Task)
    requires Enabled(s, step)
  {
    step.RunTask? && s.queues[step.loop][0] == t
  }

  function Asked(steps: seq<Step>, t: Task): nat {
    if steps == [] then 0 else (if Asks(steps[0], t) then 1 else 0) + Asked(steps[1..], t)
  }

  function TimesRun(s: System, steps: seq<Step>, t: Task): nat
    requires Possible(s, steps)
    decreases |steps|
  {
    if steps == [] then 0
    else (if RunsTask(s, steps[0], t) then 1 else 0) + TimesRun(Apply(s, steps[0]), steps[1..], t)
  }

  predicate FromCall(t: Task) {
    t.Send? || t.Shutdown?
  }

  lemma PostQueues(s: System, loop: nat, u: Task, t: Task)
    requires loop < |s.queues| && t.c < |s.conns| && s.conns[t.c].loop < |s.queues|
    requires u == t ==> loop == s.conns[t.c].loop
    ensures Queued(Post(s, loop, u), t) == Queued(s, t) + if u == t then 1 else 0
  {
  }

  lemma PopQueues(s: System, l: nat, t: Task)
    requires l < |s.queues| && s.queues[l] != [] && t.c < |s.conns| && s.conns[t.c].loop < |s.queues|
    requires s.queues[l][0] == t ==> l == s.conns[t.c].loop
    ensures Queued(s.(queues := s.queues[l := s.queues[l][1..]]), t) ==
            Queued(s, t) - if s.queues[l][0] == t then 1 else 0
  {
    assert s.queues[l] == [s.queues[l][0]] + s.queues[l][1..];
    assert multiset(s.queues[l]) == multiset{s.queues[l][0]} + multiset(s.queues[l][1..]);
  }

  lemma ExecuteQueues(s: System, thread: nat, u: Task, n: int, t: Task)
    requires Known(s, u) && Fits(u, n) && FromCall(t) && t.c < |s.conns| && s.conns[t.c].loop < |s.queues|
    ensures Queued(Execute(s, thread, u, n), t) == Queued(s, t) && UnderWay(Execute(s, thread, u, n), t) == UnderWay(s, t)
  {
    ExecutePlaces(s, thread, u, n, t.c);
    if u.Remove? && s.conns[u.c].name in s.server.connects { PostQueues(s, s.conns[u.c].loop, Destroy(u.c), t); }
  }

  /** Running a task queues at most a destruction. */
  lemma ExecutePlaces(s: System, thread: nat, u: Task, n: int, c: nat)
    requires Known(s, u) && Fits(u, n) && c < |s.conns|
    ensures var r, loop := Execute(s, thread, u, n), s.conns[u.c].loop;
            && r.calls == s.calls && |r.conns| == |s.conns| && r.conns[c].loop == s.conns[c].loop
            && r.queues == if u.Remove? && s.conns[u.c].name in s.server.connects
                           then s.queues[loop := s.queues[loop] + [Destroy(u.c)]] else s.queues
  {
  }

  lemma TaskConserves(s: System, l: nat, n: int, t: Task)
    requires Inv(s) && Enabled(s, RunTask(l, n)) && FromCall(t) && t.c < |s.conns|
    ensures var u := Apply(s, RunTask(l, n));
            UnderWay(u, t) + Queued(u, t) + (if RunsTask(s, RunTask(l, n), t) then 1 else 0) == UnderWay(s, t) + Queued(s, t)
  {
    var u := s.queues[l][0];
    assert u in s.queues[l] && Placed(s, l, u) && ConnInv(s, multiset{}, t.c);
    PopQueues(s, l, t);
    ExecuteQueues(s.(queues := s.queues[l := s.queues[l][1..]]), l, u, n, t);
  }

  lemma CloseConserves(s: System, c: nat, t: Task)
    requires Known(s, Remove(c)) && FromCall(t) && t.c < |s.conns| && s.conns[t.c].loop < |s.queues|
    ensures var u := HandleClose(s, s.conns[c].loop, c);
            Queued(u, t) == Queued(s, t) && UnderWay(u, t) == UnderWay(s, t)
  {
    var k := s.conns[c];
    var s1 := WithConn(Check(s, Open(k.stream.state) && k.registered), c,
                       k.(stream := Stream.AfterHandleClose(k.stream)));
    SameCounts(s, s1, t);
    if k.loop == BASE { ExecuteQueues(s1, BASE, Remove(c), 0, t); } else { PostQueues(s1, BASE, Remove(c), t); }
  }

  lemma SameCounts(s: System, u: System, t: Task)
    requires u.queues == s.queues && u.calls == s.calls && t.c < |s.conns| == |u.conns|
    requires u.conns[t.c].loop == s.conns[t.c].loop
    ensures Queued(u, t) == Queued(s, t) && UnderWay(u, t) == UnderWay(s, t)
  {
  }

  lemma AcceptConserves(s: System, loop: nat, t: Task)
    requires loop < |s.queues| && FromCall(t) && t.c < |s.conns| && s.conns[t.c].loop < |s.queues|
    ensures var u := NewConnection(s, loop);
            t.c < |u.conns| && Queued(u, t) == Queued(s, t) && UnderWay(u, t) == UnderWay(s, t)
  {
    var c := |s.conns|;
    var name := ConnName(s.server.name, s.server.next);
    var s1 := s.(server := s.server.(next := s.server.next + 1, connects := s.server.connects[name := c]),
                 conns := s.conns + [NewConn(loop, name)]);
    if loop == BASE { ExecuteQueues(s1, BASE, Establish(c), 0, t); } else { PostQueues(s1, loop, Establish(c), t); }
  }

  lemma PushConserves(s: System, call: Pending, u: Task, t: Task)
    requires call in s.calls && FromCall(t) && t.c < |s.conns| && s.conns[t.c].loop < |s.queues|
    requires (call == Pending(u.c, Shut) && u == Shutdown(u.c)) || (u.Send? && call == Pending(u.c, Sending(u.msg)))
    requires u.c < |s.conns| && s.conns[u.c].loop < |s.queues|
    ensures var r := Post(s.(calls := s.calls - multiset{call}), s.conns[u.c].loop, u);
            UnderWay(r, t) + Queued(r, t) == UnderWay(s, t) + Queued(s, t)
  {
    PostQueues(s.(calls := s.calls - multiset{call}), s.conns[u.c].loop, u, t);
  }

  lemma StoreConserves(s: System, c: nat, t: Task)
    requires Pending(c, Shutting) in s.calls && c < |s.conns| && FromCall(t) && t.c < |s.conns|
    requires Known(s, Shutdown(c))
    ensures var r := Proceed(s, Pending(c, Shutting)); UnderWay(r, t) == UnderWay(s, t) && Queued(r, t) == Queued(s, t)
  {
  }

  lemma ProceedConserves(s: System, call: Pending, t: Task)
    requires Enabled(s, Continue(call)) && FromCall(t) && t.c < |s.conns| && s.conns[t.c].loop < |s.queues|
    ensures var u := Proceed(s, call);
            t.c < |u.conns| && UnderWay(u, t) + Queued(u, t) == UnderWay(s, t) + Queued(s, t)
  {
    match call
    case Pending(c, Sending(msg)) => PushConserves(s, call, Send(c, msg), t);
    case Pending(c, Shut) => PushConserves(s, call, Shutdown(c), t);
    case Pending(c, Shutting) => StoreConserves(s, c, t);
  }

  /** The steps of handlers and callers that queue and finish nothing. */
  lemma OthersConserve(s: System, step: Step, t: Task)
    requires Enabled(s, step) && FromCall(t) && t.c < |s.conns| && s.conns[t.c].loop < |s.queues|
    requires step.Writable? || step.LocalSend? || step.LocalShutdown? || step.ForeignSend? || step.ForeignShutdown?
    ensures var u := Apply(s, step);
            && t.c < |u.conns| && Queued(u, t) == Queued(s, t)
            && UnderWay(u, t) == UnderWay(s, t) + (if Asks(step, t) then 1 else 0)
  {
    var u := Apply(s, step);
    match step
    case ForeignSend(_, _) =>
    case ForeignShutdown(_) =>
    case LocalSend(c, msg, n) => SameCounts(s, u, t);
    case LocalShutdown(_) => SameCounts(s, u, t);
    case Writable(_, _) => SameCounts(s, u, t);
  }

  lemma StepConserves(s: System, step: Step, t: Task)
    requires Inv(s) && Enabled(s, step) && FromCall(t) && t.c < |s.conns|
    ensures var u := Apply(s, step);
            && t.c < |u.conns|
            && UnderWay(u, t) + Queued(u, t) + (if RunsTask(s, step, t) then 1 else 0) ==
               UnderWay(s, t) + Queued(s, t) + (if Asks(step, t) then 1 else 0)
  {
    assert ConnInv(s, multiset{}, t.c);
    match step
    case RunTask(l, n) =>
      TaskLeavesConns(s, l, n);
      TaskConserves(s, l, n, t);
    case Accept(l) => AcceptConserves(s, l, t);
    case Close(c) =>
      CloseFrame(s, c);
      CloseConserves(s, c, t);
    case Continue(call) => ProceedConserves(s, call, t);
    case _ => OthersConserve(s, step, t);
  }

  lemma TaskLeavesConns(s: System, l: nat, n: int)
    requires Enabled(s, RunTask(l, n))
    ensures |Apply(s, RunTask(l, n)).conns| == |s.conns|
  {
    ExecuteFrame(s.(queues := s.queues[l := s.queues[l][1..]]), l, s.queues[l][0], n);
  }

  /** In every run without a stray send, each send() and each shutdown() from another thread that has read kConnected becomes
      one functor: as many as were accepted have been run, are queued, or are still between their parts. */
  lemma {:induction false} CallsConserved(s: System, steps: seq<Step>, t: Task)
    requires Inv(s) && Possible(s, steps) && !SomeStray(s, steps) && FromCall(t) && t.c < |s.conns|
    ensures var u := Run(s, steps);
            TimesRun(s, steps, t) + Queued(u, t) + UnderWay(u, t) == Queued(s, t) + UnderWay(s, t) + Asked(steps, t)
    decreases |steps|
  {
    if steps != [] {
      StepConserves(s, steps[0], t);
      StepKeeps(s, steps[0]);
      CallsConserved(Apply(s, steps[0]), steps[1..], t);
    }
  }

  // ---------------------------------------------------------------- no shutdown is forgotten

  /** A connection that is to be shut down has been, or will be: by the last write, or by a functor on its way. */
  ghost predicate ToBeShut(s: System, c: nat)
    requires c < |s.conns|
  {
    var k := s.conns[c].stream;
    k.closes == 0 ==>
      && (k.writing <==> k.out != "")
      && (k.state == Connecting ==> k.out == "")
      && (k.state == Disconnecting ==>
            k.shuts > 0 || k.writing || s.calls[Pending(c, Shut)] > 0 || Queued(s, Shutdown(c)) > 0)
  }

  /** What a handler does to a stream keeps its write interest and a shutdown in view. */
  ghost predicate Minds(k: Stream.Conn, d: Stream.Conn) {
    k.closes == 0 && (k.writing <==> k.out != "") && (k.state == Connecting ==> k.out == "") && d.closes == 0 ==>
      && (d.writing <==> d.out != "")
      && (d.state == Connecting ==> d.out == "")
      && k.shuts <= d.shuts
      && (d.state == Disconnecting ==> d.shuts > 0 || d.writing || (k.state == Disconnecting && !k.writing))
  }

  lemma SendMinds(k: Stream.Conn, msg: string, n: int)
    requires n <= |msg| && k.state != Connecting
    ensures Minds(k, Stream.AfterSendInLoop(k, msg, n))
    ensures Stream.AfterSendInLoop(k, msg, n).shuts == k.shuts
  {
  }

  lemma HandlersMind(k: Stream.Conn, n: int)
    requires n <= |k.out|
    ensures Minds(k, Stream.AfterHandleWrite(k, n)) && Minds(k, Stream.AfterShutdown(k))
    ensures Minds(k, Stream.AfterShutdownInLoop(k)) && Minds(k, Stream.AfterHandleClose(k))
    ensures k.closes == 0 && !k.writing ==> Stream.AfterShutdownInLoop(k).shuts > 0
  {
  }

  lemma MindedToBeShut(s: System, u: System, c: nat)
    requires c < |s.conns| && c < |u.conns| && ToBeShut(s, c) && Minds(s.conns[c].stream, u.conns[c].stream)
    requires u.conns[c].stream.closes == 0 ==> s.conns[c].stream.closes == 0
    requires u.calls[Pending(c, Shut)] + Queued(u, Shutdown(c)) >= s.calls[Pending(c, Shut)] + Queued(s, Shutdown(c))
    ensures ToBeShut(u, c)
  {
  }

  lemma TaskToBeShut(s: System, l: nat, n: int, c: nat)
    requires Inv(s) && c < |s.conns| && ToBeShut(s, c) && Enabled(s, RunTask(l, n))
    ensures var u := Apply(s, RunTask(l, n)); c < |u.conns| && ToBeShut(u, c)
  {
    var t := s.queues[l][0];
    var s1 := s.(queues := s.queues[l := s.queues[l][1..]]);
    assert t in s.queues[l] && Placed(s, l, t) && ConnInv(s, multiset{}, c);
    PopQueues(s, l, Shutdown(c));
    ExecuteQueues(s1, l, t, n, Shutdown(c));
    TaskStream(s, l, t, n, c);
  }

  /** Only its own tasks touch a connection's stream, and of them only a shutdown is one the less to come. */
  lemma TaskStream(s: System, l: nat, t: Task, n: int, c: nat)
    requires Inv(s) && Placed(s, l, t) && t in s.queues[l] && Fits(t, n) && c < |s.conns| && ToBeShut(s, c)
    requires l < |s.queues| && s.queues[l] != [] && s.queues[l][0] == t
    requires var s1 := s.(queues := s.queues[l := s.queues[l][1..]]);
             var u := Execute(s1, l, t, n);
             Queued(u, Shutdown(c)) == Queued(s, Shutdown(c)) - if t == Shutdown(c) then 1 else 0
    ensures var s1 := s.(queues := s.queues[l := s.queues[l][1..]]);
            var u := Execute(s1, l, t, n);
            c < |u.conns| && ToBeShut(u, c)
  {
    var s1 := s.(queues := s.queues[l := s.queues[l][1..]]);
    var u := Execute(s1, l, t, n);
    var k := s.conns[c].stream;
    ExecutePlaces(s1, l, t, n, c);
    assert ConnInv(s, multiset{}, c);
    if t.c != c || t.Remove? {
      ExecuteElsewhere(s1, l, t, n, c);
      MindedToBeShut(s, u, c);
    } else if t.Send? {
      SendMinds(k, t.msg, n);
      MindedToBeShut(s, u, c);
    } else if t.Shutdown? {
      HandlersMind(k, 0);
    } else if t.Destroy? {
      CountPositive(s.queues[l], t);
    }
  }

  lemma CountPositive(q: seq<Task>, t: Task)
    requires t in q
    ensures multiset(q)[t] > 0
  {
  }

  lemma ExecuteElsewhere(s: System, thread: nat, t: Task, n: int, c: nat)
    requires Known(s, t) && Fits(t, n) && c < |s.conns| && (t.c != c || t.Remove?)
    ensures c < |Execute(s, thread, t, n).conns| && Execute(s, thread, t, n).conns[c].stream == s.conns[c].stream
  {
  }

  lemma AcceptToBeShut(s: System, loop: nat, c: nat)
    requires Inv(s) && loop < |s.queues| && c <= |s.conns| && (c < |s.conns| ==> ToBeShut(s, c))
    ensures var u := NewConnection(s, loop); c < |u.conns| && ToBeShut(u, c)
  {
    if c < |s.conns| {
      assert ConnInv(s, multiset{}, c);
      AcceptConserves(s, loop, Shutdown(c));
    }
  }

  lemma CloseToBeShut(s: System, d: nat, c: nat)
    requires Inv(s) && Enabled(s, Close(d)) && c < |s.conns| && ToBeShut(s, c)
    ensures var u := Apply(s, Close(d)); c < |u.conns| && ToBeShut(u, c)
  {
    assert ConnInv(s, multiset{}, c);
    CloseFrame(s, d);
    CloseConserves(s, d, Shutdown(c));
    CloseStreams(s, d, c);
  }

  lemma CloseStreams(s: System, d: nat, c: nat)
    requires Known(s, Remove(d)) && c < |s.conns|
    ensures var u := HandleClose(s, s.conns[d].loop, d);
            && c < |u.conns| && u.calls == s.calls
            && u.conns[c].stream == if c == d then Stream.AfterHandleClose(s.conns[c].stream) else s.conns[c].stream
  {
  }

  lemma ProceedToBeShut(s: System, call: Pending, c: nat)
    requires Inv(s) && Enabled(s, Continue(call)) && c < |s.conns| && ToBeShut(s, c)
    ensures var u := Proceed(s, call); c < |u.conns| && ToBeShut(u, c)
  {
    assert ConnInv(s, multiset{}, c) && ConnInv(s, multiset{}, call.c);
    var s1 := s.(calls := s.calls - multiset{call});
    match call
    case Pending(d, Sending(msg)) => PostQueues(s1, s.conns[d].loop, Send(d, msg), Shutdown(c));
    case Pending(d, Shut) => PostQueues(s1, s.conns[d].loop, Shutdown(d), Shutdown(c));
    case Pending(d, Shutting) => StoreToBeShut(s, d, c);
  }

  lemma StoreToBeShut(s: System, d: nat, c: nat)
    requires Known(s, Shutdown(d)) && Pending(d, Shutting) in s.calls && c < |s.conns| && ToBeShut(s, c)
    requires s.conns[d].stream.state != Connecting || s.conns[d].stream.out == ""
    ensures var u := Proceed(s, Pending(d, Shutting)); c < |u.conns| && ToBeShut(u, c)
  {
    var u := Proceed(s, Pending(d, Shutting));
    assert Queued(u, Shutdown(c)) == Queued(s, Shutdown(c));
  }

  lemma HandlerToBeShut(s: System, step: Step, c: nat)
    requires Inv(s) && Enabled(s, step) && c < |s.conns| && ToBeShut(s, c)
    requires step.Writable? || step.LocalSend? || step.LocalShutdown?
    ensures var u := Apply(s, step); c < |u.conns| && ToBeShut(u, c)
  {
    var u, k := Apply(s, step), s.conns[c].stream;
    SameCounts(s, u, Shutdown(c));
    if step.c == c {
      if step.LocalSend? { SendMinds(k, step.msg, step.n); } else { HandlersMind(k, if step.Writable? then step.n else 0); }
    }
    MindedToBeShut(s, u, c);
  }

  lemma StepToBeShut(s: System, step: Step, c: nat)
    requires Inv(s) && Enabled(s, step) && c < |s.conns| && ToBeShut(s, c)
    ensures c < |Apply(s, step).conns| && ToBeShut(Apply(s, step), c)
  {
    match step
    case Accept(l) => AcceptToBeShut(s, l, c);
    case RunTask(l, n) => TaskToBeShut(s, l, n, c);
    case Close(d) => CloseToBeShut(s, d, c);
    case Continue(call) => ProceedToBeShut(s, call, c);
    case ForeignSend(_, _) =>
    case ForeignShutdown(_) =>
    case _ => HandlerToBeShut(s, step, c);
  }

  ghost predicate AllToBeShut(s: System) {
    forall c :: 0 <= c < |s.conns| ==> ToBeShut(s, c)
  }

  lemma StepAllToBeShut(s: System, step: Step)
    requires Inv(s) && Enabled(s, step) && AllToBeShut(s)
    ensures AllToBeShut(Apply(s, step))
  {
    var u := Apply(s, step);
    forall c | 0 <= c < |u.conns| ensures ToBeShut(u, c)
    {
      if c < |s.conns| {
        StepToBeShut(s, step, c);
      } else {
        ConnsGrow(s, step);
        AcceptToBeShut(s, step.loop, c);
      }
    }
  }

  /** Only accepting makes a connection. */
  lemma ConnsGrow(s: System, step: Step)
    requires Inv(s) && Enabled(s, step)
    ensures |Apply(s, step).conns| == |s.conns| + if step.Accept? then 1 else 0
  {
    match step
    case RunTask(l, n) => TaskLeavesConns(s, l, n);
    case Close(c) => CloseFrame(s, c);
    case Continue(call) => ProceedFrame(s, call.c, call);
    case _ =>
  }

  lemma {:induction false} RunAllToBeShut(s: System, steps: seq<Step>)
    requires Inv(s) && AllToBeShut(s) && Possible(s, steps) && !SomeStray(s, steps)
    ensures AllToBeShut(Run(s, steps))
    decreases |steps|
  {
    if steps != [] {
      StepAllToBeShut(s, steps[0]);
      StepKeeps(s, steps[0]);
      RunAllToBeShut(Apply(s, steps[0]), steps[1..]);
    }
  }

  /** In every run of the server without a stray send: a connection that has not been closed by its peer and is kDisconnecting,
      with nothing left to write and no shutdown call or functor on its way, has been half-closed. */
  lemma NoShutdownForgotten(name: string, loops: nat, steps: seq<Step>, c: nat)
    requires loops > 0 && Possible(Start(name, loops), steps) && !SomeStray(Start(name, loops), steps)
    requires var s := Run(Start(name, loops), steps);
             && c < |s.conns|
             && var k := s.conns[c].stream;
             && k.closes == 0 && k.state == Disconnecting && k.out == ""
             && Pending(c, Shut) !in s.calls && (s.conns[c].loop < |s.queues| ==> Shutdown(c) !in s.queues[s.conns[c].loop])
    ensures Run(Start(name, loops), steps).conns[c].stream.shuts > 0
  {
    RunAllToBeShut(Start(name, loops), steps);
    assert ToBeShut(Run(Start(name, loops), steps), c);
  }

  // ---------------------------------------------------------------- read interest

  /** A connection is read from its establishment to its first close. */
  ghost predicate ReadWhileOpen(k: Lifecycle.Conn) {
    k.stream.reading <==> k.established > 0 && k.stream.closes == 0
  }

  lemma ExecuteReads(s: System, l: nat, t: Task, n: int, c: nat)
    requires Known(s, t) && Fits(t, n) && c < |s.conns| && ReadWhileOpen(s.conns[c])
    requires t == Establish(c) ==> s.conns[c].stream.closes == 0
    requires t == Destroy(c) ==> s.conns[c].stream.closes > 0
    ensures c < |Execute(s, l, t, n).conns| && ReadWhileOpen(Execute(s, l, t, n).conns[c])
  {
  }

  lemma TaskReads(s: System, l: nat, n: int, c: nat)
    requires Inv(s) && Enabled(s, RunTask(l, n)) && c < |s.conns| && ReadWhileOpen(s.conns[c])
    ensures var u := Apply(s, RunTask(l, n)); c < |u.conns| && ReadWhileOpen(u.conns[c])
  {
    var t := s.queues[l][0];
    assert t in s.queues[l] && Placed(s, l, t) && ConnInv(s, multiset{}, c);
    CountPositive(s.queues[l], t);
    ExecuteReads(s.(queues := s.queues[l := s.queues[l][1..]]), l, t, n, c);
  }

  lemma CloseReads(s: System, d: nat, c: nat)
    requires Enabled(s, Close(d)) && c < |s.conns| && ReadWhileOpen(s.conns[c])
    ensures var u := Apply(s, Close(d)); c < |u.conns| && ReadWhileOpen(u.conns[c])
  {
    CloseStreams(s, d, c);
    CloseEstablished(s, d, c);
  }

  lemma CloseEstablished(s: System, d: nat, c: nat)
    requires Known(s, Remove(d)) && c < |s.conns|
    ensures var u := HandleClose(s, s.conns[d].loop, d); c < |u.conns| && u.conns[c].established == s.conns[c].established
  {
  }

  lemma StepReads(s: System, step: Step, c: nat)
    requires Inv(s) && Enabled(s, step) && c < |s.conns| && ReadWhileOpen(s.conns[c])
    ensures var u := Apply(s, step); c < |u.conns| && ReadWhileOpen(u.conns[c])
  {
    match step
    case RunTask(l, n) => TaskReads(s, l, n, c);
    case Close(d) => CloseReads(s, d, c);
    case Continue(call) => ProceedReads(s, call, c);
    case _ =>
  }

  lemma ProceedReads(s: System, call: Pending, c: nat)
    requires Known(s, Shutdown(call.c)) && c < |s.conns| && ReadWhileOpen(s.conns[c])
    ensures var u := Proceed(s, call); c < |u.conns| && ReadWhileOpen(u.conns[c])
  {
  }

  /** In every run of the server without a stray send, read interest is on exactly from a connection's establishment to its
      first handleClose. */
  lemma {:induction false} ReadsWhileOpen(s: System, steps: seq<Step>, c: nat)
    requires Inv(s) && Possible(s, steps) && !SomeStray(s, steps) && c < |s.conns| && ReadWhileOpen(s.conns[c])
    ensures c < |Run(s, steps).conns| && ReadWhileOpen(Run(s, steps).conns[c])
    decreases |steps|
  {
    if steps != [] {
      StepReads(s, steps[0], c);
      StepKeeps(s, steps[0]);
      ReadsWhileOpen(Apply(s, steps[0]), steps[1..], c);
    }
  }

  /** Which is so when it is accepted. */
  lemma AcceptedReads(s: System, loop: nat)
    requires Inv(s) && loop < |s.queues|
    ensures var u := NewConnection(s, loop); |u.conns| == |s.conns| + 1 && ReadWhileOpen(u.conns[|s.conns|])
  {
  }
}

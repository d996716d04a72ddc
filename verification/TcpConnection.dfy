/** TcpConnection::StateE, and the calls that go through it from other threads. */
module ConnectionStates {
  datatype State = Connecting | Connected | Disconnecting | Disconnected

  /** What handleClose and connectDestory assert. */
  predicate Open(state: State) {
    state == Connected || state == Disconnecting
  }

  /** A send() or a shutdown() from another thread that has read kConnected; a shutdown() that has also
      stored kDisconnecting, and has its functor to push. */
  datatype Call = Sending(msg: string) | Shutting | Shut
}

/**
 tcpConnection.cpp: the state, the write interest and the output stream of one connection, as its own loop
 thread sees it.

 write() is a number chosen by the kernel: negative for an error, otherwise the count it took.
 `wire` is what the kernel took so far, `accepted` what sendInloop was given so far, `shuts` counts calls
 of shutdownWrite and `closes` those of handleClose, which does not change the state.
 */
module TcpConnections {
  import opened ConnectionStates

  datatype Conn = Conn(
    state: State, reading: bool, writing: bool, out: string,
    wire: string, accepted: string, shuts: nat, closes: nat)

  const NEW_CONN := Conn(Connecting, false, false, "", "", "", 0, 0)

  // ---------------------------------------------------------------- the handlers

  function AfterSendInLoop(c: Conn, msg: string, n: int): Conn
    requires n <= |msg|
  {
    var wrote := if !c.writing && c.out == "" && n >= 0 then n else 0;
    var d := c.(wire := c.wire + msg[..wrote], accepted := c.accepted + msg);
    if wrote < |msg| then d.(out := c.out + msg[wrote..], writing := true) else d
  }

  function AfterSend(c: Conn, msg: string, n: int): Conn
    requires n <= |msg|
  {
    if c.state == Connected then AfterSendInLoop(c, msg, n) else c
  }

  function AfterShutdownInLoop(c: Conn): Conn {
    if c.writing then c else c.(shuts := c.shuts + 1)
  }

  function AfterShutdown(c: Conn): Conn {
    if c.state == Connected then AfterShutdownInLoop(c.(state := Disconnecting)) else c
  }

  function AfterHandleWrite(c: Conn, n: int): Conn
    requires n <= |c.out|
  {
    if !c.writing || n <= 0 then c
    else
      var d := c.(wire := c.wire + c.out[..n], out := c.out[n..]);
      if d.out != "" then d
      else if c.state == Disconnecting then AfterShutdownInLoop(d.(writing := false))
      else d.(writing := false)
  }

  function AfterHandleClose(c: Conn): Conn {
    c.(reading := false, writing := false, closes := c.closes + 1)
  }

  function Establish(c: Conn): Conn {
    c.(state := Connected, reading := true)
  }

  function Destroy(c: Conn): Conn {
    c.(state := Disconnected, reading := false, writing := false)
  }

  /** write() never takes more than it was given. */
  function Take(n: int, s: string): int {
    if n <= |s| then n else |s|
  }

  // ---------------------------------------------------------------- runs on the loop thread

  datatype Event =
    | EvEstablish
    | EvSend(msg: string, n: int)
    | EvShutdown
    | EvWritable(n: int)
    | EvClose
    | EvDestroy

  /** connectDestory is only ever queued by the removal that handleClose asks for. */
  predicate Enabled(c: Conn, e: Event) {
    match e
    case EvEstablish => c.state == Connecting
    case EvSend(msg, n) => n <= |msg|
    case EvShutdown => true
    case EvWritable(n) => n <= |c.out|
    case EvClose => Open(c.state)
    case EvDestroy => Open(c.state) && c.closes > 0
  }

  function Apply(c: Conn, e: Event): Conn
    requires Enabled(c, e)
  {
    match e
    case EvEstablish => Establish(c)
    case EvSend(msg, n) => AfterSend(c, msg, n)
    case EvShutdown => AfterShutdown(c)
    case EvWritable(n) => AfterHandleWrite(c, n)
    case EvClose => AfterHandleClose(c)
    case EvDestroy => Destroy(c)
  }

  predicate Possible(c: Conn, es: seq<Event>)
    decreases |es|
  {
    es == [] || (Enabled(c, es[0]) && Possible(Apply(c, es[0]), es[1..]))
  }

  function Run(c: Conn, es: seq<Event>): Conn
    requires Possible(c, es)
    decreases |es|
  {
    if es == [] then c else Run(Apply(c, es[0]), es[1..])
  }

  // ---------------------------------------------------------------- the stream is kept in order

  predicate InOrder(c: Conn) {
    c.wire + c.out == c.accepted
  }

  lemma SendInOrder(c: Conn, msg: string, n: int)
    requires InOrder(c) && n <= |msg|
    ensures var d := AfterSendInLoop(c, msg, n);
            InOrder(d) && c.wire <= d.wire && d.accepted == c.accepted + msg
  {
    if !c.writing && c.out == "" && 0 <= n {
      assert msg == msg[..n] + msg[n..];
      assert c.wire == c.accepted;
      assert c.wire + msg[..n] + msg[n..] == c.accepted + msg;
      assert n == |msg| ==> msg[..n] == msg;
    } else {
      assert msg[0..] == msg && msg[..0] == "";
      assert c.wire + (c.out + msg) == c.wire + c.out + msg;
    }
  }

  lemma WriteInOrder(c: Conn, n: int)
    requires InOrder(c) && n <= |c.out|
    ensures var d := AfterHandleWrite(c, n);
            InOrder(d) && c.wire <= d.wire && d.accepted == c.accepted
  {
    if 0 < n {
      assert c.wire + c.out[..n] + c.out[n..] == c.wire + c.out;
    }
  }

  lemma ApplyInOrder(c: Conn, e: Event)
    requires InOrder(c) && Enabled(c, e)
    ensures InOrder(Apply(c, e))
    ensures c.wire <= Apply(c, e).wire && c.accepted <= Apply(c, e).accepted
  {
    match e
    case EvWritable(n) => WriteInOrder(c, n);
    case EvSend(msg, n) => SendInOrder(c, msg, n);
    case _ =>
  }

  // ---------------------------------------------------------------- flush before half-close

  predicate BeforeClose(e: Event) {
    !e.EvClose? && !e.EvDestroy?
  }

  predicate Flushing(c: Conn) {
    && InOrder(c)
    && (c.writing <==> c.out != "")
    && (c.state == Connecting ==> c.out == "" && c.shuts == 0)
    && (c.state == Connected ==> c.shuts == 0)
    && (c.state == Disconnecting ==> c.shuts == if c.out == "" then 1 else 0)
    && c.state != Disconnected
  }

  lemma ApplyFlushing(c: Conn, e: Event)
    requires Flushing(c) && Enabled(c, e) && BeforeClose(e)
    ensures Flushing(Apply(c, e))
  {
    ApplyInOrder(c, e);
  }

  /** Before handleClose, and for calls on the loop thread, the write side is shut exactly when shutdown
      was asked for and every accepted byte is on the wire, and then only once. */
  lemma {:induction false} FlushedBeforeHalfClose(c: Conn, es: seq<Event>)
    requires Flushing(c) && Possible(c, es)
    requires forall e :: e in es ==> BeforeClose(e)
    ensures var d := Run(c, es);
            && Flushing(d)
            && d.shuts <= 1
            && (d.shuts == 1 <==> d.state == Disconnecting && d.wire == d.accepted)
    decreases |es|
  {
    if es == [] {
      assert c.out == "" ==> c.wire + c.out == c.wire;
    } else {
      ApplyFlushing(c, es[0]);
      FlushedBeforeHalfClose(Apply(c, es[0]), es[1..]);
    }
  }

  // ---------------------------------------------------------------- a kernel that takes what it is given

  /** write() takes the whole message. */
  predicate TakesAll(e: Event) {
    e.EvSend? ==> e.n == |e.msg|
  }

  /** When nothing is buffered, a message goes straight to the kernel; so as long as that takes everything, nothing
      is ever buffered, and what send() accepts is on the wire when it returns. */
  lemma {:induction false} NothingBuffered(c: Conn, es: seq<Event>)
    requires InOrder(c) && c.out == "" && !c.writing && Possible(c, es)
    requires forall e :: e in es ==> TakesAll(e)
    ensures var d := Run(c, es); d.out == "" && !d.writing && d.wire == d.accepted
    decreases |es|
  {
    if es == [] {
      assert c.wire + "" == c.wire;
    } else {
      assert es[0] in es;
      ApplyInOrder(c, es[0]);
      NothingBuffered(Apply(c, es[0]), es[1..]);
    }
  }

  function Writes(ns: seq<nat>): seq<Event> {
    if ns == [] then [] else [EvWritable(ns[0])] + Writes(ns[1..])
  }

  function Sum(ns: seq<nat>): nat {
    if ns == [] then 0 else ns[0] + Sum(ns[1..])
  }

  /** And whatever was buffered is written, in however many pieces the kernel takes it; a pending shutdown then
      half-closes, once. */
  lemma {:induction false} WritesDrain(c: Conn, ns: seq<nat>)
    requires Flushing(c) && c.out != "" && Sum(ns) == |c.out| && forall n :: n in ns ==> n > 0
    ensures Possible(c, Writes(ns))
    ensures var d := Run(c, Writes(ns));
            && d.out == "" && !d.writing && d.wire == c.accepted == d.accepted && d.state == c.state
            && d.shuts == c.shuts + if c.state == Disconnecting then 1 else 0
    decreases |ns|
  {
    var e := EvWritable(ns[0]);
    assert forall n :: n in ns[1..] ==> n in ns;
    assert ns[0] in ns && ([e] + Writes(ns[1..]))[1..] == Writes(ns[1..]);
    ApplyFlushing(c, e);
    var d := Apply(c, e);
    if d.out == "" {
      PositiveSum(ns[1..]);
      assert d.wire + "" == d.wire;
    } else {
      WritesDrain(d, ns[1..]);
    }
  }

  lemma PositiveSum(ns: seq<nat>)
    requires forall n :: n in ns ==> n > 0
    ensures Sum(ns) == 0 <==> ns == []
  {
    assert ns != [] ==> ns[0] in ns;
  }

  /** With closes and destruction as well, shutdownWrite still runs at most once, and bytes can only be
      stranded without write interest after a handleClose. */
  predicate LoopInv(c: Conn) {
    && InOrder(c)
    && c.shuts <= 1
    && (c.state == Connecting ==> c.out == "" && c.closes == 0)
    && (c.state == Connecting || c.state == Connected ==> c.shuts == 0)
    && (c.shuts == 1 ==> !c.writing)
    && (c.writing ==> c.out != "")
    && (c.out != "" && !c.writing ==> c.closes > 0)
  }

  lemma ApplyLoopInv(c: Conn, e: Event)
    requires LoopInv(c) && Enabled(c, e)
    ensures LoopInv(Apply(c, e))
  {
    ApplyInOrder(c, e);
  }

  lemma {:induction false} LoopThreadRuns(c: Conn, es: seq<Event>)
    requires LoopInv(c) && Possible(c, es)
    ensures LoopInv(Run(c, es))
    decreases |es|
  {
    if es != [] {
      ApplyLoopInv(c, es[0]);
      LoopThreadRuns(Apply(c, es[0]), es[1..]);
    }
  }
}

/**
 tcpConnection.cpp with send() and shutdown() called from any thread.

 A call from another thread is atomic only in its parts: it reads the state, and goes on only if that is
 kConnected; shutdown() then stores kDisconnecting; and finally the call pushes a functor on the loop's queue, of
 which `queue` is what concerns this connection, its connectDestory included. Between its parts the call is in `calls`.
 Every message that send() has placed in the order of delivery (by running sendInloop, or by pushing its functor)
 has a ticket, its index in `texts`; `ran` are the tickets in the order in which sendInloop took them.

 The kernel: once the write side is shut, write() takes nothing more. A connection is told of its peer's close only
 while it is interested in reading, which the first handleClose ends for good; but a hang-up and a zero read in one
 event run handleClose twice. A sendInloop that turns write interest on after connectDestory has removed the
 channel fails Poller's assertion (see Lifecycle), which sets `aborted` and ends the run.
 */
module TcpCalls {
  import opened ConnectionStates
  import opened T = TcpConnections

  datatype Functor = SendFunctor(msg: string, ticket: nat) | ShutdownFunctor | DestroyFunctor

  /** `removed`: the server has queued connectDestory; `destroyed`: it has run. */
  datatype Line = Line(
    conn: Conn, calls: multiset<Call>, queue: seq<Functor>, texts: seq<string>, ran: seq<nat>,
    removed: bool, destroyed: bool, aborted: bool)

  const NEW_LINE := Line(NEW_CONN, multiset{}, [], [], [], false, false, false)

  datatype Step =
    | Local(event: Event)
    | HangUp
    | CallSend(msg: string)
    | CallShutdown
    | Continue(call: Call)
    | QueueDestroy
    | RunFunctor(n: int)

  /** What write() may return: after shutdown(SHUT_WR) it fails. */
  predicate KernelAllows(c: Conn, n: int) {
    c.shuts > 0 ==> n <= 0
  }

  /** When an event can reach the connection. */
  predicate Reaches(l: Line, e: Event) {
    match e
    case EvSend(_, n) => KernelAllows(l.conn, n)
    case EvWritable(n) => KernelAllows(l.conn, n) && !l.destroyed
    case EvClose => l.conn.reading
    case EvDestroy => false
    case _ => true
  }

  predicate Enabled(l: Line, s: Step) {
    !l.aborted &&
    match s
    case Local(e) => T.Enabled(l.conn, e) && Reaches(l, e)
    case HangUp => T.Enabled(l.conn, EvClose) && l.conn.reading
    case CallSend(_) => l.conn.state == Connected
    case CallShutdown => l.conn.state == Connected
    case Continue(call) => call in l.calls
    case QueueDestroy => l.conn.closes > 0 && !l.removed
    case RunFunctor(n) => CanRunFirst(l, n)
  }

  predicate CanRunFirst(l: Line, n: int) {
    l.queue != [] && (l.queue[0].SendFunctor? ==> n <= |l.queue[0].msg| && KernelAllows(l.conn, n))
  }

  /** The next part of a call. */
  function Proceed(l: Line, call: Call): Line
    requires call in l.calls
  {
    var rest := l.calls - multiset{call};
    match call
    case Sending(msg) =>
      l.(calls := rest, queue := l.queue + [SendFunctor(msg, |l.texts|)], texts := l.texts + [msg])
    case Shutting => l.(calls := rest + multiset{Shut}, conn := l.conn.(state := Disconnecting))
    case Shut => l.(calls := rest, queue := l.queue + [ShutdownFunctor])
  }

  /** doPendingFunctors gets to the first functor. */
  function RunFirst(l: Line, n: int): Line
    requires CanRunFirst(l, n)
  {
    var d := l.(queue := l.queue[1..]);
    match l.queue[0]
    case SendFunctor(msg, ticket) =>
      var c := AfterSendInLoop(l.conn, msg, n);
      d.(conn := c, ran := l.ran + [ticket], aborted := l.destroyed && c.writing && !l.conn.writing)
    case ShutdownFunctor => d.(conn := AfterShutdownInLoop(l.conn))
    case DestroyFunctor => d.(conn := Destroy(l.conn), destroyed := true)
  }

  /** A handler or a call on the loop thread; a send there is placed as it runs. */
  function RunLocal(l: Line, e: Event): Line
    requires T.Enabled(l.conn, e)
  {
    var d := l.(conn := T.Apply(l.conn, e));
    if e.EvSend? && l.conn.state == Connected then d.(texts := l.texts + [e.msg], ran := l.ran + [|l.texts|]) else d
  }

  function Apply(l: Line, s: Step): Line
    requires Enabled(l, s)
  {
    match s
    case Local(e) => RunLocal(l, e)
    case HangUp => l.(conn := AfterHandleClose(AfterHandleClose(l.conn)))
    case CallSend(msg) => l.(calls := l.calls + multiset{Sending(msg)})
    case CallShutdown => l.(calls := l.calls + multiset{Shutting})
    case Continue(call) => Proceed(l, call)
    case QueueDestroy => l.(queue := l.queue + [DestroyFunctor], removed := true)
    case RunFunctor(n) => RunFirst(l, n)
  }

  /** send() from another thread, uninterrupted. */
  function ForeignSend(l: Line, msg: string): Line {
    if l.conn.state == Connected
    then Proceed(l.(calls := l.calls + multiset{Sending(msg)}), Sending(msg)) else l
  }

  /** shutdown() from another thread, uninterrupted. */
  function ForeignShutdown(l: Line): Line {
    if l.conn.state == Connected
    then Proceed(Proceed(l.(calls := l.calls + multiset{Shutting}), Shutting), Shut) else l
  }

  /** Uninterrupted, a call leaves nothing under way. */
  lemma ForeignSendForm(l: Line, msg: string)
    requires l.conn.state == Connected
    ensures ForeignSend(l, msg) ==
            l.(queue := l.queue + [SendFunctor(msg, |l.texts|)], texts := l.texts + [msg])
  {
    assert l.calls + multiset{Sending(msg)} - multiset{Sending(msg)} == l.calls;
  }

  lemma ForeignShutdownForm(l: Line)
    requires l.conn.state == Connected
    ensures ForeignShutdown(l) ==
            l.(queue := l.queue + [ShutdownFunctor], conn := l.conn.(state := Disconnecting))
  {
    assert l.calls + multiset{Shutting} - multiset{Shutting} == l.calls;
    assert l.calls + multiset{Shut} - multiset{Shut} == l.calls;
  }

  predicate Possible(l: Line, steps: seq<Step>)
    decreases |steps|
  {
    steps == [] || (Enabled(l, steps[0]) && Possible(Apply(l, steps[0]), steps[1..]))
  }

  function Run(l: Line, steps: seq<Step>): Line
    requires Possible(l, steps)
    decreases |steps|
  {
    if steps == [] then l else Run(Apply(l, steps[0]), steps[1..])
  }

  // ---------------------------------------------------------------- every message once

  function Tickets(queue: seq<Functor>): seq<nat> {
    if queue == [] then [] else OwnTicket(queue[0]) + Tickets(queue[1..])
  }

  function OwnTicket(f: Functor): seq<nat> {
    if f.SendFunctor? then [f.ticket] else []
  }

  /** The bytes the queued functors will send. */
  function QueuedText(queue: seq<Functor>): string {
    if queue == [] then "" else OwnText(queue[0]) + QueuedText(queue[1..])
  }

  function OwnText(f: Functor): string {
    if f.SendFunctor? then f.msg else ""
  }

  lemma Regroup<A>(a: seq<A>, b: seq<A>, c: seq<A>)
    ensures a + b + c == a + (b + c)
  {
  }

  function TextOf(texts: seq<string>, t: nat): string {
    if t < |texts| then texts[t] else ""
  }

  /** The messages behind tickets, one after the other. */
  function Spell(texts: seq<string>, ts: seq<nat>): string {
    if ts == [] then "" else Spell(texts, ts[..|ts| - 1]) + TextOf(texts, ts[|ts| - 1])
  }

  function Concat(texts: seq<string>): string {
    if texts == [] then "" else Concat(texts[..|texts| - 1]) + texts[|texts| - 1]
  }

  function Upto(n: nat): (ts: seq<nat>)
    ensures |ts| == n && forall i :: 0 <= i < n ==> ts[i] == i
  {
    if n == 0 then [] else Upto(n - 1) + [n - 1]
  }

  lemma SpellSnoc(texts: seq<string>, ts: seq<nat>, t: nat)
    ensures Spell(texts, ts + [t]) == Spell(texts, ts) + TextOf(texts, t)
  {
    assert (ts + [t])[..|ts|] == ts;
  }

  predicate Below(ts: seq<nat>, n: nat) {
    forall i :: 0 <= i < |ts| ==> ts[i] < n
  }

  lemma {:induction false} SpellGrow(texts: seq<string>, ts: seq<nat>, msg: string)
    requires Below(ts, |texts|)
    ensures Spell(texts + [msg], ts) == Spell(texts, ts)
    decreases |ts|
  {
    if ts != [] {
      SpellGrow(texts, ts[..|ts| - 1], msg);
    }
  }

  lemma {:induction false} TicketsSnoc(queue: seq<Functor>, f: Functor)
    ensures Tickets(queue + [f]) == Tickets(queue) + OwnTicket(f)
    decreases |queue|
  {
    if queue == [] {
      assert queue + [f] == [f] && [f][1..] == [];
      assert OwnTicket(f) + [] == [] + OwnTicket(f);
    } else {
      assert (queue + [f])[1..] == queue[1..] + [f];
      TicketsSnoc(queue[1..], f);
      Regroup(OwnTicket(queue[0]), Tickets(queue[1..]), OwnTicket(f));
    }
  }

  predicate Genuine(texts: seq<string>, f: Functor) {
    f.SendFunctor? ==> f.ticket < |texts| && texts[f.ticket] == f.msg
  }

  /** What sendInloop has taken is what these tickets spell. */
  predicate Spelled(c: Conn, texts: seq<string>, ran: seq<nat>) {
    InOrder(c) && Below(ran, |texts|) && c.accepted == Spell(texts, ran)
  }

  predicate AllGenuine(texts: seq<string>, queue: seq<Functor>) {
    forall f :: f in queue ==> Genuine(texts, f)
  }

  /** Every ticket below `n` is there once. */
  predicate Once(ts: seq<nat>, n: nat) {
    multiset(ts) == multiset(Upto(n))
  }

  predicate Kept(l: Line) {
    && Spelled(l.conn, l.texts, l.ran)
    && AllGenuine(l.texts, l.queue)
    && Once(l.ran + Tickets(l.queue), |l.texts|)
  }

  /** sendInloop takes the message with the given ticket. */
  lemma TakeSpelled(c: Conn, texts: seq<string>, ran: seq<nat>, t: nat, n: int)
    requires Spelled(c, texts, ran) && t < |texts| && n <= |texts[t]|
    ensures Spelled(AfterSendInLoop(c, texts[t], n), texts, ran + [t])
  {
    SendInOrder(c, texts[t], n);
    SpellSnoc(texts, ran, t);
  }

  lemma GrowSpelled(c: Conn, texts: seq<string>, ran: seq<nat>, msg: string)
    requires Spelled(c, texts, ran)
    ensures Spelled(c, texts + [msg], ran)
  {
    SpellGrow(texts, ran, msg);
  }

  lemma GrowGenuine(texts: seq<string>, queue: seq<Functor>, msg: string)
    requires AllGenuine(texts, queue)
    ensures AllGenuine(texts + [msg], queue)
  {
    forall f | f in queue ensures Genuine(texts + [msg], f)
    {
      assert Genuine(texts, f);
    }
  }

  lemma OnceMore(a: seq<nat>, b: seq<nat>, n: nat)
    requires Once(a + b, n)
    ensures Once(a + [n] + b, n + 1) && Once(a + (b + [n]), n + 1)
  {
    assert multiset(a + [n] + b) == multiset(a + b) + multiset{n};
    assert multiset(a + (b + [n])) == multiset(a + b) + multiset{n};
  }

  /** A send on the loop thread. */
  lemma PlaceKeeps(l: Line, msg: string, n: int)
    requires Kept(l) && n <= |msg| && l.conn.state == Connected
    ensures Kept(RunLocal(l, EvSend(msg, n)))
  {
    var k := |l.texts|;
    GrowSpelled(l.conn, l.texts, l.ran, msg);
    assert (l.texts + [msg])[k] == msg;
    TakeSpelled(l.conn, l.texts + [msg], l.ran, k, n);
    GrowGenuine(l.texts, l.queue, msg);
    OnceMore(l.ran, Tickets(l.queue), k);
  }

  lemma PushKeeps(l: Line, msg: string)
    requires Kept(l) && Sending(msg) in l.calls
    ensures Kept(Proceed(l, Sending(msg)))
  {
    var k := |l.texts|;
    GrowSpelled(l.conn, l.texts, l.ran, msg);
    GrowGenuine(l.texts, l.queue, msg);
    TicketsSnoc(l.queue, SendFunctor(msg, k));
    OnceMore(l.ran, Tickets(l.queue), k);
  }

  /** Queueing what is not a message. */
  lemma QueueKeeps(l: Line, f: Functor)
    requires Kept(l) && !f.SendFunctor?
    ensures var m := l.(queue := l.queue + [f]); Kept(m) && PlacedInOrder(m) == PlacedInOrder(l)
  {
    TicketsSnoc(l.queue, f);
    assert Tickets(l.queue) + [] == Tickets(l.queue);
  }

  lemma ProceedKeeps(l: Line, call: Call)
    requires Kept(l) && call in l.calls
    ensures Kept(Proceed(l, call))
  {
    match call
    case Sending(msg) => PushKeeps(l, msg);
    case Shut => QueueKeeps(l.(calls := l.calls - multiset{call}), ShutdownFunctor);
    case Shutting =>
  }

  lemma ProceedOrder(l: Line, call: Call)
    requires Kept(l) && call in l.calls
    ensures PlacedInOrder(Proceed(l, call)) <==> PlacedInOrder(l)
  {
    match call
    case Sending(msg) => PushOrder(l, msg);
    case Shut => QueueKeeps(l.(calls := l.calls - multiset{call}), ShutdownFunctor);
    case Shutting =>
  }

  /** Running a functor moves its ticket from the queue to the delivered. */
  lemma FirstTicket(ran: seq<nat>, queue: seq<Functor>)
    requires queue != []
    ensures var f := queue[0];
            (if f.SendFunctor? then ran + [f.ticket] else ran) + Tickets(queue[1..]) == ran + Tickets(queue)
  {
    Regroup(ran, OwnTicket(queue[0]), Tickets(queue[1..]));
    assert ran + [] == ran;
  }

  lemma RunFirstKeeps(l: Line, n: int)
    requires Kept(l) && CanRunFirst(l, n)
    ensures Kept(RunFirst(l, n))
    ensures RunFirst(l, n).ran + Tickets(RunFirst(l, n).queue) == l.ran + Tickets(l.queue)
  {
    FirstTicket(l.ran, l.queue);
    RestGenuine(l.texts, l.queue);
    match l.queue[0]
    case SendFunctor(msg, ticket) => TakeSpelled(l.conn, l.texts, l.ran, ticket, n);
    case _ => assert Spelled(RunFirst(l, n).conn, l.texts, l.ran);
  }

  lemma RestGenuine(texts: seq<string>, queue: seq<Functor>)
    requires AllGenuine(texts, queue) && queue != []
    ensures Genuine(texts, queue[0]) && AllGenuine(texts, queue[1..])
  {
    assert queue[0] in queue;
    assert forall f :: f in queue[1..] ==> f in queue;
  }

  lemma LocalKeeps(l: Line, e: Event)
    requires Kept(l) && T.Enabled(l.conn, e)
    ensures Kept(RunLocal(l, e))
  {
    if e.EvSend? && l.conn.state == Connected {
      PlaceKeeps(l, e.msg, e.n);
    } else {
      ApplyInOrder(l.conn, e);
    }
  }

  lemma WireGrows(l: Line, s: Step)
    requires InOrder(l.conn) && Enabled(l, s)
    ensures l.conn.wire <= Apply(l, s).conn.wire && l.texts <= Apply(l, s).texts
  {
    match s
    case Local(e) => ApplyInOrder(l.conn, e);
    case _ =>
  }

  lemma StepKeeps(l: Line, s: Step)
    requires Kept(l) && Enabled(l, s)
    ensures Kept(Apply(l, s))
  {
    match s
    case Local(e) => LocalKeeps(l, e);
    case Continue(call) => ProceedKeeps(l, call);
    case QueueDestroy => QueueKeeps(l, DestroyFunctor);
    case RunFunctor(n) => RunFirstKeeps(l, n);
    case _ =>
  }

  /** In every run, with calls from any thread, whatever the kernel takes and whenever the peer closes: the bytes
      written followed by the bytes buffered are the messages sendInloop took, in order; these and the queued
      ones are every message placed so far, each exactly once; and no written byte is taken back. */
  lemma {:induction false} StreamInOrder(l: Line, steps: seq<Step>)
    requires Kept(l) && Possible(l, steps)
    ensures var m := Run(l, steps);
            && Kept(m)
            && m.conn.wire + m.conn.out == Spell(m.texts, m.ran)
            && multiset(m.ran + Tickets(m.queue)) == multiset(Upto(|m.texts|))
            && l.conn.wire <= m.conn.wire && l.texts <= m.texts
    decreases |steps|
  {
    if steps != [] {
      StepKeeps(l, steps[0]);
      WireGrows(l, steps[0]);
      StreamInOrder(Apply(l, steps[0]), steps[1..]);
    }
  }

  // ---------------------------------------------------------------- no accepted message is lost

  /** The message that send() accepts in this step, from whichever thread. */
  predicate Accepts(l: Line, s: Step, msg: string) {
    s == CallSend(msg) || (s.Local? && s.event.EvSend? && s.event.msg == msg && l.conn.state == Connected)
  }

  function AcceptedTimes(l: Line, steps: seq<Step>, msg: string): nat
    requires Possible(l, steps)
    decreases |steps|
  {
    if steps == [] then 0
    else (if Accepts(l, steps[0], msg) then 1 else 0) + AcceptedTimes(Apply(l, steps[0]), steps[1..], msg)
  }

  /** How often a message has been placed or is about to be. */
  function Copies(l: Line, msg: string): nat {
    multiset(l.texts)[msg] + l.calls[Sending(msg)]
  }

  lemma StepCopies(l: Line, s: Step, msg: string)
    requires Enabled(l, s)
    ensures Copies(Apply(l, s), msg) == Copies(l, msg) + if Accepts(l, s, msg) then 1 else 0
  {
    match s
    case Local(e) => if e.EvSend? { MoreTexts(l.texts, e.msg, msg); }
    case Continue(call) => ProceedCopies(l, call, msg);
    case _ =>
  }

  lemma MoreTexts(texts: seq<string>, more: string, msg: string)
    ensures multiset(texts + [more])[msg] == multiset(texts)[msg] + if more == msg then 1 else 0
  {
  }

  lemma ProceedCopies(l: Line, call: Call, msg: string)
    requires call in l.calls
    ensures Copies(Proceed(l, call), msg) == Copies(l, msg)
  {
    if call.Sending? { MoreTexts(l.texts, call.msg, msg); }
  }

  /** Every message accepted by send() is placed for delivery, as often as it was accepted, or its call is still on its
      way to do so; and no other is. */
  lemma {:induction false} EveryMessagePlaced(l: Line, steps: seq<Step>, msg: string)
    requires Possible(l, steps)
    ensures Copies(Run(l, steps), msg) == Copies(l, msg) + AcceptedTimes(l, steps, msg)
    decreases |steps|
  {
    if steps != [] {
      StepCopies(l, steps[0], msg);
      EveryMessagePlaced(Apply(l, steps[0]), steps[1..], msg);
    }
  }

  // ---------------------------------------------------------------- the order of delivery

  /** Delivered and queued messages are in the order in which they were placed. */
  predicate PlacedInOrder(l: Line) {
    l.ran + Tickets(l.queue) == Upto(|l.texts|)
  }

  /** A send on the loop thread, while a send from another thread is queued. */
  predicate Overtakes(l: Line, s: Step) {
    s.Local? && s.event.EvSend? && l.conn.state == Connected && Tickets(l.queue) != []
  }

  predicate SomeOvertake(l: Line, steps: seq<Step>)
    requires Possible(l, steps)
    decreases |steps|
  {
    steps != [] && (Overtakes(l, steps[0]) || SomeOvertake(Apply(l, steps[0]), steps[1..]))
  }

  lemma SnocUpto(a: seq<nat>, n: nat)
    requires |a| == n
    ensures a + [n] == Upto(n + 1) <==> a == Upto(n)
  {
    assert (a + [n])[..n] == a;
  }

  lemma TicketsBelow(l: Line)
    requires Kept(l)
    ensures |l.ran + Tickets(l.queue)| == |l.texts|
    ensures forall t :: t in Tickets(l.queue) ==> t < |l.texts|
  {
    var all := l.ran + Tickets(l.queue);
    assert |multiset(all)| == |all| && |multiset(Upto(|l.texts|))| == |l.texts|;
    forall t | t in Tickets(l.queue) ensures t < |l.texts|
    {
      assert t in all && t in multiset(all) && t in multiset(Upto(|l.texts|));
    }
  }

  lemma PlaceOrder(l: Line, msg: string, n: int)
    requires Kept(l) && n <= |msg| && l.conn.state == Connected
    ensures PlacedInOrder(RunLocal(l, EvSend(msg, n))) <==> PlacedInOrder(l) && Tickets(l.queue) == []
  {
    TicketsBelow(l);
    InsertOrder(l.ran, Tickets(l.queue), |l.texts|);
  }

  lemma InsertOrder(r: seq<nat>, q: seq<nat>, k: nat)
    requires |r + q| == k && forall t :: t in q ==> t < k
    ensures r + [k] + q == Upto(k + 1) <==> r + q == Upto(k) && q == []
  {
    if q == [] {
      SnocUpto(r, k);
      assert r + [k] + q == r + [k] && r + q == r;
    } else {
      assert q[|q| - 1] in q;
      assert (r + [k] + q)[k] == q[|q| - 1];
    }
  }

  lemma PushOrder(l: Line, msg: string)
    requires Kept(l) && Sending(msg) in l.calls
    ensures PlacedInOrder(Proceed(l, Sending(msg))) <==> PlacedInOrder(l)
  {
    TicketsBelow(l);
    TicketsSnoc(l.queue, SendFunctor(msg, |l.texts|));
    AppendOrder(l.ran, Tickets(l.queue), |l.texts|);
  }

  lemma AppendOrder(r: seq<nat>, q: seq<nat>, k: nat)
    requires |r + q| == k
    ensures r + (q + [k]) == Upto(k + 1) <==> r + q == Upto(k)
  {
    Regroup(r, q, [k]);
    SnocUpto(r + q, k);
  }

  lemma StepOrder(l: Line, s: Step)
    requires Kept(l) && Enabled(l, s)
    ensures PlacedInOrder(Apply(l, s)) <==> PlacedInOrder(l) && !Overtakes(l, s)
  {
    match s
    case Local(e) =>
      if e.EvSend? && l.conn.state == Connected { PlaceOrder(l, e.msg, e.n); } else { ApplyInOrder(l.conn, e); }
    case Continue(call) => ProceedOrder(l, call);
    case QueueDestroy => QueueKeeps(l, DestroyFunctor);
    case RunFunctor(n) => RunFirstKeeps(l, n);
    case _ =>
  }

  /** Messages leave in the order in which send() placed them if and only if the loop thread never sends while
      a send from another thread is queued. */
  lemma {:induction false} OrderKeptIff(l: Line, steps: seq<Step>)
    requires Kept(l) && Possible(l, steps)
    ensures PlacedInOrder(Run(l, steps)) <==> PlacedInOrder(l) && !SomeOvertake(l, steps)
    decreases |steps|
  {
    if steps != [] {
      StepOrder(l, steps[0]);
      StepKeeps(l, steps[0]);
      OrderKeptIff(Apply(l, steps[0]), steps[1..]);
    }
  }

  lemma {:induction false} SpellQueue(texts: seq<string>, ts: seq<nat>, queue: seq<Functor>)
    requires AllGenuine(texts, queue)
    ensures Spell(texts, ts + Tickets(queue)) == Spell(texts, ts) + QueuedText(queue)
    decreases |queue|
  {
    if queue == [] {
      assert ts + [] == ts && Spell(texts, ts) + "" == Spell(texts, ts);
    } else {
      var f := queue[0];
      assert f in queue && Genuine(texts, f);
      var more := if f.SendFunctor? then ts + [f.ticket] else ts;
      SpellQueue(texts, more, queue[1..]);
      FirstTicket(ts, queue);
      if f.SendFunctor? { SpellSnoc(texts, ts, f.ticket); }
      assert Spell(texts, more) == Spell(texts, ts) + OwnText(f);
      Regroup(Spell(texts, ts), OwnText(f), QueuedText(queue[1..]));
    }
  }

  lemma {:induction false} SpellAll(texts: seq<string>)
    ensures Spell(texts, Upto(|texts|)) == Concat(texts)
    decreases |texts|
  {
    if texts != [] {
      var n := |texts| - 1;
      var init := texts[..n];
      SpellAll(init);
      SpellGrow(init, Upto(n), texts[n]);
      assert init + [texts[n]] == texts;
      SpellSnoc(texts, Upto(n), n);
    }
  }

  /** In such a run the bytes written, buffered and queued are all accepted messages, in order. */
  lemma DeliveredInOrder(steps: seq<Step>)
    requires Possible(NEW_LINE, steps) && !SomeOvertake(NEW_LINE, steps)
    ensures var m := Run(NEW_LINE, steps);
            m.conn.wire + m.conn.out + QueuedText(m.queue) == Concat(m.texts)
  {
    StreamInOrder(NEW_LINE, steps);
    OrderKeptIff(NEW_LINE, steps);
    var m := Run(NEW_LINE, steps);
    SpellQueue(m.texts, m.ran, m.queue);
    SpellAll(m.texts);
  }

  // ---------------------------------------------------------------- half-closing ahead of accepted bytes

  /** A message accepted from another thread is on its way to sendInloop. */
  ghost predicate Waiting(l: Line) {
    || (exists f :: f in l.queue && f.SendFunctor? && f.msg != "")
    || (exists call :: call in l.calls && call.Sending? && call.msg != "")
  }

  /** Bytes that send() has accepted and the kernel has not taken. */
  ghost predicate Owes(l: Line) {
    l.conn.out != "" || Waiting(l)
  }

  ghost predicate HalfClosesAhead(l: Line, s: Step)
    requires Enabled(l, s)
  {
    Apply(l, s).conn.shuts > l.conn.shuts && Owes(Apply(l, s))
  }

  /** The guards under which a step gets to shutdownWrite. */
  predicate Shuts(l: Line, s: Step)
    requires Enabled(l, s)
  {
    match s
    case Local(EvShutdown) => l.conn.state == Connected && !l.conn.writing
    case Local(EvWritable(n)) => l.conn.writing && 0 < n == |l.conn.out| && l.conn.state == Disconnecting
    case RunFunctor(_) => l.queue[0].ShutdownFunctor? && !l.conn.writing
    case _ => false
  }

  /** How a line comes about: what there is before the first shutdown and before the first close; and that bytes
      are only ever stranded, without write interest, by a handleClose. */
  ghost predicate LineInv(l: Line) {
    var c := l.conn;
    && (c.out != "" && !c.writing ==> c.closes > 0)
    && (c.state == Connecting ==> l.queue == [] && l.calls == multiset{} && c.shuts == 0 && c.closes == 0)
    && (c.state == Connected ==> c.shuts == 0 && ShutdownFunctor !in l.queue && Shut !in l.calls)
    && (c.state != Connecting ==> (c.reading <==> c.closes == 0))
    && (c.closes == 0 ==> !l.removed && !l.destroyed && DestroyFunctor !in l.queue && c.state != Disconnected)
    && (l.removed ==> l.destroyed || DestroyFunctor in l.queue)
    && (l.destroyed ==> (c.state == Disconnecting || c.state == Disconnected) && (c.writing ==> l.aborted))
  }

  lemma LineInvStep(l: Line, s: Step)
    requires LineInv(l) && Enabled(l, s)
    ensures LineInv(Apply(l, s))
  {
    match s
    case Local(e) => LocalLineInv(l, e);
    case RunFunctor(n) => FunctorLineInv(l, n);
    case Continue(call) => ProceedLineInv(l, call);
    case QueueDestroy => assert DestroyFunctor in Apply(l, s).queue;
    case _ =>
  }

  lemma ProceedLineInv(l: Line, call: Call)
    requires LineInv(l) && call in l.calls
    ensures LineInv(Proceed(l, call))
  {
    assert forall f, g :: f in l.queue + [g] <==> f in l.queue || f == g;
  }

  lemma LocalLineInv(l: Line, e: Event)
    requires LineInv(l) && Enabled(l, Local(e))
    ensures LineInv(RunLocal(l, e))
  {
  }

  lemma FunctorLineInv(l: Line, n: int)
    requires LineInv(l) && Enabled(l, RunFunctor(n))
    ensures LineInv(RunFirst(l, n))
  {
    assert l.queue == [l.queue[0]] + l.queue[1..];
  }

  lemma {:induction false} LineInvRun(l: Line, steps: seq<Step>)
    requires LineInv(l) && Possible(l, steps)
    ensures LineInv(Run(l, steps))
    decreases |steps|
  {
    if steps != [] {
      LineInvStep(l, steps[0]);
      LineInvRun(Apply(l, steps[0]), steps[1..]);
    }
  }

  /** In every run, a step shuts the write side ahead of bytes accepted by send() exactly when its guard lets it
      shut while bytes are stranded in the buffer, or while a message from another thread is queued or about
      to be; and bytes are stranded only after a handleClose. */
  lemma HalfCloseAheadIff(steps: seq<Step>, s: Step)
    requires Possible(NEW_LINE, steps) && Enabled(Run(NEW_LINE, steps), s)
    ensures var l := Run(NEW_LINE, steps);
            && (Apply(l, s).conn.shuts > l.conn.shuts <==> Shuts(l, s))
            && (HalfClosesAhead(l, s) <==> Shuts(l, s) && ((l.conn.out != "" && !l.conn.writing) || Waiting(l)))
            && (l.conn.out != "" && !l.conn.writing ==> l.conn.closes > 0)
  {
    LineInvRun(NEW_LINE, steps);
    var l := Run(NEW_LINE, steps);
    ShutsWhen(l, s);
    if Shuts(l, s) { ShutLeavesWaiting(l, s); }
  }

  /** Both ways of getting ahead do occur, for every message. */
  lemma HalfClosesAheadOfCall(msg: string)
    requires msg != ""
    ensures var steps := [Local(EvEstablish), CallSend(msg)];
            && Possible(NEW_LINE, steps) && Enabled(Run(NEW_LINE, steps), Local(EvShutdown))
            && HalfClosesAhead(Run(NEW_LINE, steps), Local(EvShutdown))
  {
    var s1, s2 := Local(EvEstablish), CallSend(msg);
    var l1 := Apply(NEW_LINE, s1);
    var l2 := Apply(l1, s2);
    assert [s1, s2][1..] == [s2] && [s2][1..] == [];
    assert Possible(l1, [s2]) && Run(l1, [s2]) == l2;
    assert Sending(msg) in Apply(l2, Local(EvShutdown)).calls;
  }

  lemma HalfClosesAheadOfStranded(msg: string)
    requires msg != ""
    ensures var steps := [Local(EvEstablish), Local(EvSend(msg, 0)), Local(EvClose)];
            && Possible(NEW_LINE, steps) && Enabled(Run(NEW_LINE, steps), Local(EvShutdown))
            && HalfClosesAhead(Run(NEW_LINE, steps), Local(EvShutdown))
  {
    var s1, s2, s3 := Local(EvEstablish), Local(EvSend(msg, 0)), Local(EvClose);
    var l1 := Apply(NEW_LINE, s1);
    var l2 := Apply(l1, s2);
    var l3 := Apply(l2, s3);
    assert l2.conn.out == msg;
    assert [s1, s2, s3][1..] == [s2, s3] && [s2, s3][1..] == [s3] && [s3][1..] == [];
    assert Possible(l2, [s3]) && Run(l2, [s3]) == l3;
    assert Possible(l1, [s2, s3]) && Run(l1, [s2, s3]) == l3;
  }

  lemma ShutsWhen(l: Line, s: Step)
    requires Enabled(l, s)
    ensures Apply(l, s).conn.shuts > l.conn.shuts <==> Shuts(l, s)
  {
  }

  lemma ShutLeavesWaiting(l: Line, s: Step)
    requires Enabled(l, s) && Shuts(l, s)
    ensures Waiting(Apply(l, s)) == Waiting(l)
    ensures Apply(l, s).conn.out == if s.Local? && s.event.EvWritable? then "" else l.conn.out
  {
    if s.RunFunctor? {
      assert l.queue == [l.queue[0]] + l.queue[1..];
    }
  }

  /** How often these steps run handleClose: a hang-up with a read of nothing does so twice. */
  function Closings(steps: seq<Step>): nat {
    if steps == [] then 0
    else (match steps[0] case Local(e) => if e.EvClose? then 1 else 0 case HangUp => 2 case _ => 0) + Closings(steps[1..])
  }

  lemma {:induction false} ClosesCounted(l: Line, steps: seq<Step>)
    requires Possible(l, steps)
    ensures Run(l, steps).conn.closes == l.conn.closes + Closings(steps)
    decreases |steps|
  {
    if steps != [] {
      StepCloses(l, steps[0]);
      ClosesCounted(Apply(l, steps[0]), steps[1..]);
    }
  }

  lemma StepCloses(l: Line, s: Step)
    requires Enabled(l, s)
    ensures Apply(l, s).conn.closes == l.conn.closes + match s case Local(e) => (if e.EvClose? then 1 else 0) case HangUp => 2 case _ => 0
  {
  }

  // ---------------------------------------------------------------- half-closing more than once

  /** Whether running these functors, with write() taking nothing, gets to a shutdownInloop while write interest is
      off. A message turns it on; and it goes off only with the first handleClose, which may come at any time, and
      with connectDestory. A message after connectDestory ends the run. */
  predicate MayShut(queue: seq<Functor>, writing: bool, closed: bool, destroyed: bool) {
    queue != [] &&
    match queue[0]
    case ShutdownFunctor => !writing || !closed || MayShut(queue[1..], writing, closed, destroyed)
    case DestroyFunctor => MayShut(queue[1..], false, true, true)
    case SendFunctor(msg, _) =>
      if msg == "" then MayShut(queue[1..], writing, closed, destroyed)
      else !destroyed && MayShut(queue[1..], true, closed, destroyed)
  }

  /** Running them gets to a message after connectDestory. */
  predicate Aborts(queue: seq<Functor>, destroyed: bool) {
    queue != [] &&
    match queue[0]
    case ShutdownFunctor => Aborts(queue[1..], destroyed)
    case DestroyFunctor => Aborts(queue[1..], true)
    case SendFunctor(msg, _) => (msg != "" && destroyed) || Aborts(queue[1..], destroyed)
  }

  /** A shutdown from another thread is not finished, and will find write interest off: its functor is queued where it
      can; or is yet to be queued, with no message in the queue that ends the run first. */
  ghost predicate MayShutAgain(l: Line) {
    !l.aborted &&
    (MayShut(l.queue, l.conn.writing, l.conn.closes > 0, l.destroyed)
     || ((Shutting in l.calls || Shut in l.calls) && !Aborts(l.queue, l.destroyed)))
  }

  // ---- it may not: nothing that happens changes that

  lemma {:induction false} QueuedNoShutdown(queue: seq<Functor>, f: Functor, writing: bool, closed: bool, destroyed: bool)
    requires f != ShutdownFunctor || Aborts(queue, destroyed)
    ensures MayShut(queue + [f], writing, closed, destroyed) == MayShut(queue, writing, closed, destroyed)
    decreases |queue|
  {
    if queue == [] {
      assert queue + [f] == [f] && [f][1..] == [];
    } else {
      var rest := queue[1..];
      assert (queue + [f])[1..] == rest + [f];
      match queue[0]
      case ShutdownFunctor => QueuedNoShutdown(rest, f, writing, closed, destroyed);
      case DestroyFunctor => QueuedNoShutdown(rest, f, false, true, true);
      case SendFunctor(msg, _) =>
        if msg == "" {
          QueuedNoShutdown(rest, f, writing, closed, destroyed);
        } else if !destroyed {
          QueuedNoShutdown(rest, f, true, closed, destroyed);
        }
    }
  }

  lemma {:induction false} QueuedAborts(queue: seq<Functor>, f: Functor, destroyed: bool)
    ensures Aborts(queue, destroyed) ==> Aborts(queue + [f], destroyed)
    ensures !f.SendFunctor? ==> Aborts(queue + [f], destroyed) == Aborts(queue, destroyed)
    decreases |queue|
  {
    if queue == [] {
      assert queue + [f] == [f] && [f][1..] == [];
    } else {
      assert (queue + [f])[1..] == queue[1..] + [f];
      QueuedAborts(queue[1..], f, if queue[0].DestroyFunctor? then true else destroyed);
    }
  }

  /** Before a close every queued shutdown may find write interest off. */
  lemma {:induction false} OpenQueue(queue: seq<Functor>, writing: bool)
    requires DestroyFunctor !in queue
    ensures MayShut(queue, writing, false, false) <==> ShutdownFunctor in queue
    ensures !Aborts(queue, false)
    decreases |queue|
  {
    if queue != [] {
      assert queue == [queue[0]] + queue[1..];
      OpenQueue(queue[1..], writing || (queue[0].SendFunctor? && queue[0].msg != ""));
    }
  }

  lemma {:induction false} NoShutdownQueued(queue: seq<Functor>, writing: bool, closed: bool, destroyed: bool)
    requires ShutdownFunctor !in queue
    ensures !MayShut(queue, writing, closed, destroyed)
    decreases |queue|
  {
    if queue != [] {
      assert queue == [queue[0]] + queue[1..];
      match queue[0]
      case DestroyFunctor => NoShutdownQueued(queue[1..], false, true, true);
      case SendFunctor(msg, _) => NoShutdownQueued(queue[1..], writing || msg != "", closed, destroyed);
    }
  }

  ghost predicate Done(l: Line) {
    LineInv(l) && l.conn.shuts > 0 && !MayShutAgain(l)
  }

  lemma DoneAtPush(l: Line, f: Functor)
    requires !MayShutAgain(l) && (f == ShutdownFunctor ==> Aborts(l.queue, l.destroyed))
    ensures !MayShutAgain(l.(queue := l.queue + [f]))
  {
    QueuedNoShutdown(l.queue, f, l.conn.writing, l.conn.closes > 0, l.destroyed);
    QueuedAborts(l.queue, f, l.destroyed);
  }

  lemma DoneAtClose(l: Line, c: Conn)
    requires LineInv(l) && l.conn.shuts > 0 && l.conn.closes == 0 && !MayShutAgain(l) && !l.aborted
    ensures !MayShutAgain(l.(conn := c))
  {
    OpenQueue(l.queue, l.conn.writing);
    NoShutdownQueued(l.queue, c.writing, c.closes > 0, l.destroyed);
  }

  lemma DoneAtRun(l: Line, n: int)
    requires Done(l) && Enabled(l, RunFunctor(n))
    ensures !MayShutAgain(RunFirst(l, n)) && RunFirst(l, n).conn.shuts == l.conn.shuts
  {
    var f := l.queue[0];
    assert f in l.queue;
  }

  lemma DoneAtContinue(l: Line, call: Call)
    requires Done(l) && Enabled(l, Continue(call))
    ensures !MayShutAgain(Proceed(l, call)) && Proceed(l, call).conn.shuts == l.conn.shuts
  {
    var rest := l.calls - multiset{call};
    match call
    case Sending(msg) => DoneAtPush(l.(calls := rest), SendFunctor(msg, |l.texts|));
    case Shut => DoneAtPush(l.(calls := rest), ShutdownFunctor);
    case Shutting =>
  }

  lemma DoneStays(l: Line, s: Step)
    requires Done(l) && Enabled(l, s)
    ensures Done(Apply(l, s)) && Apply(l, s).conn.shuts == l.conn.shuts
  {
    LineInvStep(l, s);
    match s
    case Local(e) => if e.EvClose? { DoneAtClose(l, Apply(l, s).conn); }
    case HangUp => DoneAtClose(l, Apply(l, s).conn);
    case Continue(call) => DoneAtContinue(l, call);
    case QueueDestroy => DoneAtPush(l, DestroyFunctor);
    case RunFunctor(n) => DoneAtRun(l, n);
    case _ =>
  }

  lemma {:induction false} DoneForGood(l: Line, steps: seq<Step>)
    requires Done(l) && Possible(l, steps)
    ensures Run(l, steps).conn.shuts == l.conn.shuts
    decreases |steps|
  {
    if steps != [] {
      DoneStays(l, steps[0]);
      DoneForGood(Apply(l, steps[0]), steps[1..]);
    }
  }

  // ---- it may: a run in which it does

  ghost predicate Leads(l: Line, steps: seq<Step>, m: Line) {
    Possible(l, steps) && Run(l, steps) == m
  }

  ghost predicate CanShutMore(l: Line, shuts: nat) {
    exists steps, m :: Leads(l, steps, m) && m.conn.shuts > shuts
  }

  lemma ShutNow(l: Line, shuts: nat)
    requires l.conn.shuts > shuts
    ensures CanShutMore(l, shuts)
  {
    assert Leads(l, [], l);
  }

  lemma ShutAfter(l: Line, s: Step, shuts: nat)
    requires Enabled(l, s) && CanShutMore(Apply(l, s), shuts)
    ensures CanShutMore(l, shuts)
  {
    var steps, m :| Leads(Apply(l, s), steps, m) && m.conn.shuts > shuts;
    assert ([s] + steps)[1..] == steps;
    assert Leads(l, [s] + steps, m);
  }

  ghost predicate Ready(l: Line, shuts: nat) {
    LineInv(l) && !l.aborted && l.conn.state != Connecting && l.conn.shuts >= shuts
  }

  /** Running the queue, with the peer closing just before a shutdown that needs it. */
  lemma {:induction false} QueueShuts(l: Line, shuts: nat)
    requires Ready(l, shuts) && MayShut(l.queue, l.conn.writing, l.conn.closes > 0, l.destroyed)
    ensures CanShutMore(l, shuts)
    decreases |l.queue|, l.conn.writing
  {
    var f := l.queue[0];
    var s := if f.ShutdownFunctor? && l.conn.writing && l.conn.closes == 0 then Local(EvClose) else RunFunctor(0);
    assert f in l.queue;
    LineInvStep(l, s);
    if f.ShutdownFunctor? && !l.conn.writing {
      ShutNow(Apply(l, s), shuts);
    } else {
      QueueShuts(Apply(l, s), shuts);
    }
    ShutAfter(l, s, shuts);
  }

  /** A shutdown at the end of a queue without a message that ends the run. */
  lemma {:induction false} LastShuts(queue: seq<Functor>, writing: bool, closed: bool, destroyed: bool)
    requires !Aborts(queue, destroyed)
    requires closed ==> DestroyFunctor in queue || !writing
    requires closed && !destroyed ==> DestroyFunctor in queue
    ensures MayShut(queue + [ShutdownFunctor], writing, closed, destroyed)
    decreases |queue|
  {
    if queue == [] {
      assert queue + [ShutdownFunctor] == [ShutdownFunctor];
    } else {
      var rest := queue[1..];
      assert queue == [queue[0]] + rest;
      assert (queue + [ShutdownFunctor])[1..] == rest + [ShutdownFunctor];
      match queue[0]
      case ShutdownFunctor => if writing && closed { LastShuts(rest, writing, closed, destroyed); }
      case DestroyFunctor => LastShuts(rest, false, true, true);
      case SendFunctor(msg, _) => LastShuts(rest, writing || msg != "", closed, destroyed);
    }
  }

  lemma StoredShuts(l: Line, shuts: nat)
    requires Ready(l, shuts) && Shut in l.calls && !Aborts(l.queue, l.destroyed)
    requires l.conn.closes > 0 ==> l.removed
    ensures CanShutMore(l, shuts)
  {
    LineInvStep(l, Continue(Shut));
    LastShuts(l.queue, l.conn.writing, l.conn.closes > 0, l.destroyed);
    QueueShuts(Apply(l, Continue(Shut)), shuts);
    ShutAfter(l, Continue(Shut), shuts);
  }

  /** The server's removal of a closed connection comes before the push. */
  lemma ShutShuts(l: Line, shuts: nat)
    requires Ready(l, shuts) && Shut in l.calls && !Aborts(l.queue, l.destroyed)
    ensures CanShutMore(l, shuts)
  {
    if l.conn.closes > 0 && !l.removed {
      LineInvStep(l, QueueDestroy);
      QueuedAborts(l.queue, DestroyFunctor, l.destroyed);
      StoredShuts(Apply(l, QueueDestroy), shuts);
      ShutAfter(l, QueueDestroy, shuts);
    } else {
      StoredShuts(l, shuts);
    }
  }

  lemma CallShuts(l: Line, shuts: nat)
    requires Ready(l, shuts) && (Shutting in l.calls || Shut in l.calls) && !Aborts(l.queue, l.destroyed)
    ensures CanShutMore(l, shuts)
  {
    if Shut in l.calls {
      ShutShuts(l, shuts);
    } else {
      LineInvStep(l, Continue(Shutting));
      ShutShuts(Apply(l, Continue(Shutting)), shuts);
      ShutAfter(l, Continue(Shutting), shuts);
    }
  }

  /** After a half-close the write side can be shut again if and only if some shutdown from another thread is
      unfinished and its functor can find write interest off: no message before it keeps that on for good, as one does
      between a handleClose and the connectDestory, and none ends the run. */
  lemma HalfCloseRepeatsIff(steps: seq<Step>)
    requires Possible(NEW_LINE, steps) && Run(NEW_LINE, steps).conn.shuts > 0
    ensures var l := Run(NEW_LINE, steps); CanShutMore(l, l.conn.shuts) <==> MayShutAgain(l)
  {
    LineInvRun(NEW_LINE, steps);
    var l := Run(NEW_LINE, steps);
    if MayShutAgain(l) {
      if MayShut(l.queue, l.conn.writing, l.conn.closes > 0, l.destroyed) {
        QueueShuts(l, l.conn.shuts);
      } else {
        CallShuts(l, l.conn.shuts);
      }
    } else if CanShutMore(l, l.conn.shuts) {
      var more, m :| Leads(l, more, m) && m.conn.shuts > l.conn.shuts;
      DoneForGood(l, more);
    }
  }

  /** In particular, once no shutdown from another thread is under way or queued, there is no more half-close,
      whatever is buffered or on its way. */
  lemma NoneUnfinished(steps: seq<Step>)
    requires Possible(NEW_LINE, steps) && Run(NEW_LINE, steps).conn.shuts > 0
    requires var l := Run(NEW_LINE, steps); Shutting !in l.calls && Shut !in l.calls && ShutdownFunctor !in l.queue
    ensures !CanShutMore(Run(NEW_LINE, steps), Run(NEW_LINE, steps).conn.shuts)
  {
    var l := Run(NEW_LINE, steps);
    HalfCloseRepeatsIff(steps);
    NoShutdownQueued(l.queue, l.conn.writing, l.conn.closes > 0, l.destroyed);
  }

  /** Two shutdowns from other threads that both read kConnected half-close twice. */
  lemma TwoShutdownsRepeat()
    ensures CanShutMore(NEW_LINE, 1)
  {
    var l1 := Apply(NEW_LINE, Local(EvEstablish));
    var l2 := Apply(l1, CallShutdown);
    var l3 := Apply(l2, CallShutdown);
    LineInvRun(NEW_LINE, []);
    LineInvStep(NEW_LINE, Local(EvEstablish));
    LineInvStep(l1, CallShutdown);
    LineInvStep(l2, CallShutdown);
    BothShut(l3);
    ShutAfter(l2, CallShutdown, 1);
    ShutAfter(l1, CallShutdown, 1);
    ShutAfter(NEW_LINE, Local(EvEstablish), 1);
  }

  lemma BothShut(l: Line)
    requires LineInv(l) && !l.aborted && l.calls[Shutting] == 2 && l.queue == [] && !l.conn.writing && !l.destroyed
    ensures CanShutMore(l, 1)
  {
    var l1 := Apply(l, Continue(Shutting));
    var l2 := Apply(l1, Continue(Shut));
    var l3 := Apply(l2, RunFunctor(0));
    LineInvStep(l, Continue(Shutting));
    LineInvStep(l1, Continue(Shut));
    LineInvStep(l2, RunFunctor(0));
    assert l2.queue == [ShutdownFunctor] && l3.queue == [] && Shutting in l3.calls;
    CallShuts(l3, 1);
    ShutAfter(l2, RunFunctor(0), 1);
    ShutAfter(l1, Continue(Shut), 1);
    ShutAfter(l, Continue(Shutting), 1);
  }
}

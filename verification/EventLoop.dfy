/**
 eventLoop.cpp: the task queue of a loop, its eventfd and the threads that feed it.

 A functor is a number. Thread 0 owns the loop. queueInloop and quit are two atomic steps for a thread
 that must also write the eventfd: the update, then the wakeup; between them the thread is in `waking`.
 callingPendingFunctors_ is never initialised in the source; it is taken to start false.
 */
module EventLoops {

  const OWNER: nat := 0
  const COUNTER_MAX: nat := 0xFFFF_FFFF_FFFF_FFFE

  /** Where the owner is: before loop(), at the while test, blocked in poll, dispatching events (with the
      eventfd among them or not), about to swap the queue, running the batch from index `next`, or returned. */
  datatype Phase =
    | Before
    | Testing
    | Polling
    | Dispatching(readable: bool)
    | Swapping
    | Running(batch: seq<int>, next: nat)
    | Returned

  datatype Loop = Loop(
    phase: Phase, pending: seq<int>, calling: bool, quit: bool, counter: nat, waking: set<nat>,
    enqueued: seq<int>, executed: seq<int>, unwoken: bool)

  const NEW_LOOP := Loop(Before, [], false, false, 0, {}, [], [], false)

  datatype Step =
    | Queue(thread: nat, task: int)
    | Quit(thread: nat)
    | Wakeup(thread: nat)
    // the owner's own control flow
    | EnterLoop
    | TestQuit
    | PollReturns
    | ReadEventFd
    | EndDispatch
    | Swap
    | RunNext
    | EndBatch

  /** The owner runs user code before loop(), in event callbacks and in functors. */
  predicate OwnerInUserCode(s: Loop) {
    s.phase == Before || s.phase.Dispatching? || s.phase.Running?
  }

  predicate CanCall(s: Loop, thread: nat) {
    thread !in s.waking && (thread == OWNER ==> OwnerInUserCode(s))
  }

  predicate Enabled(s: Loop, step: Step) {
    match step
    case Queue(t, _) => CanCall(s, t)
    case Quit(t) => CanCall(s, t)
    case Wakeup(t) => t in s.waking
    case EnterLoop => OWNER !in s.waking && s.phase == Before
    case TestQuit => s.phase == Testing
    case PollReturns => s.phase == Polling
    case ReadEventFd => OWNER !in s.waking && s.phase == Dispatching(true)
    case EndDispatch => OWNER !in s.waking && s.phase == Dispatching(false)
    case Swap => s.phase == Swapping
    case RunNext => OWNER !in s.waking && s.phase.Running? && s.phase.next < |s.phase.batch|
    case EndBatch => OWNER !in s.waking && s.phase.Running? && s.phase.next >= |s.phase.batch|
  }

  /** The eventfd adds up and refuses to overflow. */
  function Written(counter: nat): nat {
    if counter < COUNTER_MAX then counter + 1 else counter
  }

  function Apply(s: Loop, step: Step): Loop
    requires Enabled(s, step)
  {
    match step
    case Queue(t, task) =>
      var s1 := s.(pending := s.pending + [task], enqueued := s.enqueued + [task]);
      if t != OWNER || s.calling then s1.(waking := s.waking + {t})
      else s1.(unwoken := s.unwoken || s.phase == Before)
    case Quit(t) =>
      if t != OWNER then s.(quit := true, waking := s.waking + {t}) else s.(quit := true)
    case Wakeup(t) => s.(waking := s.waking - {t}, counter := Written(s.counter))
    case EnterLoop => s.(quit := false, phase := Testing)
    case TestQuit => s.(phase := if s.quit then Returned else Polling)
    case PollReturns => s.(phase := Dispatching(s.counter > 0))
    case ReadEventFd => s.(counter := 0, phase := Dispatching(false))
    case EndDispatch => s.(calling := true, phase := Swapping)
    case Swap => s.(pending := [], unwoken := false, phase := Running(s.pending, 0))
    case RunNext =>
      s.(executed := s.executed + [s.phase.batch[s.phase.next]], phase := s.phase.(next := s.phase.next + 1))
    case EndBatch => s.(calling := false, phase := Testing)
  }

  predicate Possible(s: Loop, steps: seq<Step>)
    decreases |steps|
  {
    steps == [] || (Enabled(s, steps[0]) && Possible(Apply(s, steps[0]), steps[1..]))
  }

  function Run(s: Loop, steps: seq<Step>): Loop
    requires Possible(s, steps)
    decreases |steps|
  {
    if steps == [] then s else Run(Apply(s, steps[0]), steps[1..])
  }

  lemma {:induction false} RunSnoc(s: Loop, steps: seq<Step>, step: Step)
    requires Possible(s, steps) && Enabled(Run(s, steps), step)
    ensures Possible(s, steps + [step]) && Run(s, steps + [step]) == Apply(Run(s, steps), step)
    decreases |steps|
  {
    if steps == [] {
      assert [step][1..] == [];
    } else {
      assert (steps + [step])[1..] == steps[1..] + [step];
      RunSnoc(Apply(s, steps[0]), steps[1..], step);
    }
  }

  // ---------------------------------------------------------------- no task is lost, repeated or reordered

  /** What the current batch still holds. */
  function Rest(s: Loop): seq<int> {
    if s.phase.Running? && s.phase.next <= |s.phase.batch| then s.phase.batch[s.phase.next..] else []
  }

  predicate Ordered(s: Loop) {
    && (s.phase.Running? ==> s.phase.next <= |s.phase.batch|)
    && s.executed + Rest(s) + s.pending == s.enqueued
  }

  lemma Shift(a: seq<int>, b: seq<int>, c: seq<int>, x: int)
    ensures a + b + (c + [x]) == a + b + c + [x]
    ensures a + [] + c == a + c + []
    ensures b != [] ==> (a + [b[0]]) + b[1..] + c == a + b + c
  {
  }

  lemma ApplyOrdered(s: Loop, step: Step)
    requires Ordered(s) && Enabled(s, step)
    ensures Ordered(Apply(s, step))
    ensures s.executed <= Apply(s, step).executed && s.enqueued <= Apply(s, step).enqueued
  {
    match step
    case Queue(t, task) =>
      Shift(s.executed, Rest(s), s.pending, task);
    case Swap =>
      Shift(s.executed, [], s.pending, 0);
      assert s.pending[0..] == s.pending;
    case RunNext =>
      Shift(s.executed, Rest(s), s.pending, 0);
      assert Rest(s)[1..] == Rest(Apply(s, step));
    case _ =>
  }

  /** In every interleaving, the functors executed, the rest of the batch and the pending queue are the
      functors enqueued, in the order in which they took the lock. */
  lemma {:induction false} QueueOrder(s: Loop, steps: seq<Step>)
    requires Ordered(s) && Possible(s, steps)
    ensures var t := Run(s, steps);
            t.executed + Rest(t) + t.pending == t.enqueued && s.executed <= t.executed <= t.enqueued && Ordered(t)
    decreases |steps|
  {
    if steps != [] {
      ApplyOrdered(s, steps[0]);
      QueueOrder(Apply(s, steps[0]), steps[1..]);
    }
  }

  // ---------------------------------------------------------------- no sleep with work to do

  predicate Notified(s: Loop) {
    s.counter > 0 || s.waking != {}
  }

  predicate WakeInv(s: Loop) {
    && (s.calling <==> s.phase == Swapping || s.phase.Running?)
    && (s.unwoken ==> s.pending != [])
    && (s.phase == Swapping || s.phase.Running? || s.phase == Returned ==> OWNER !in s.waking || s.phase.Running?)
    && (s.phase.Running? ==> !s.unwoken)
    && (s.phase == Before || s.phase == Testing || s.phase == Polling || s.phase.Running? ==>
          (s.pending != [] && !s.unwoken ==> Notified(s)))
    && (s.phase == Polling ==> (s.quit ==> Notified(s)))
    && (s.phase != Before && !s.phase.Running? ==> OWNER !in s.waking)
  }

  lemma ApplyWakeInv(s: Loop, step: Step)
    requires WakeInv(s) && Enabled(s, step)
    ensures WakeInv(Apply(s, step))
  {
    match step
    case Wakeup(t) =>
      assert Written(s.counter) > 0;
    case Queue(t, _) =>
      assert t != OWNER || s.calling ==> t in Apply(s, step).waking;
    case Quit(t) =>
      assert t != OWNER ==> t in Apply(s, step).waking;
    case _ =>
  }

  lemma {:induction false} RunWakeInv(s: Loop, steps: seq<Step>)
    requires WakeInv(s) && Possible(s, steps)
    ensures WakeInv(Run(s, steps))
    decreases |steps|
  {
    if steps != [] {
      ApplyWakeInv(s, steps[0]);
      RunWakeInv(Apply(s, steps[0]), steps[1..]);
    }
  }

  /** Blocked in poll, and nothing done so far will end the wait before its timeout. */
  predicate Asleep(s: Loop) {
    s.phase == Polling && !Notified(s)
  }

  lemma {:induction false} RunAfter(s: Loop, a: seq<Step>, b: seq<Step>)
    requires Possible(s, a + b)
    ensures Possible(s, a) && Possible(Run(s, a), b) && Run(s, a + b) == Run(Run(s, a), b)
    decreases |a|
  {
    if a == [] {
      assert a + b == b;
    } else {
      assert (a + b)[1..] == a[1..] + b;
      RunAfter(Apply(s, a[0]), a[1..], b);
    }
  }

  /** The loop's own thread has queued a functor before loop(). */
  predicate QueuedEarly(steps: seq<Step>) {
    exists i :: 0 <= i < |steps| && OwnerQueues(steps[i]) && EnterLoop !in steps[..i]
  }

  predicate OwnerQueues(step: Step) {
    step.Queue? && step.thread == OWNER
  }

  lemma EarlySnoc(steps: seq<Step>, step: Step)
    ensures QueuedEarly(steps + [step]) <==> QueuedEarly(steps) || (OwnerQueues(step) && EnterLoop !in steps)
  {
    var all := steps + [step];
    assert all[..|steps|] == steps;
    assert forall i :: 0 <= i < |steps| ==> all[..i] == steps[..i] && all[i] == steps[i];
    assert all[|steps|] == step;
  }

  /** What the flags say, in terms of the steps taken. */
  ghost predicate Recorded(s: Loop, steps: seq<Step>) {
    && (s.phase == Before <==> EnterLoop !in steps)
    && (Swap in steps ==> EnterLoop in steps)
    && (s.unwoken <==> QueuedEarly(steps) && Swap !in steps)
  }

  lemma RecordedStep(s: Loop, steps: seq<Step>, step: Step)
    requires Recorded(s, steps) && WakeInv(s) && Enabled(s, step)
    ensures Recorded(Apply(s, step), steps + [step])
  {
    EarlySnoc(steps, step);
    assert forall x :: x in steps + [step] <==> x in steps || x == step;
  }

  lemma {:induction false} RunRecorded(steps: seq<Step>)
    requires Possible(NEW_LOOP, steps)
    ensures Recorded(Run(NEW_LOOP, steps), steps)
    decreases |steps|
  {
    if steps != [] {
      var before, last := steps[..|steps| - 1], steps[|steps| - 1];
      assert before + [last] == steps && [last][1..] == [];
      RunAfter(NEW_LOOP, before, [last]);
      RunRecorded(before);
      RunWakeInv(NEW_LOOP, before);
      RecordedStep(Run(NEW_LOOP, before), before, last);
    }
  }

  /** In every interleaving the loop sleeps with functors queued or quit_ set exactly when its own thread
      queued a functor before loop() and no batch has been taken yet. */
  lemma SleepsWithWorkIff(steps: seq<Step>)
    requires Possible(NEW_LOOP, steps)
    ensures var s := Run(NEW_LOOP, steps);
            Asleep(s) ==> (s.pending != [] || s.quit <==> QueuedEarly(steps) && Swap !in steps)
  {
    RunWakeInv(NEW_LOOP, steps);
    RunRecorded(steps);
  }

  /** So a loop whose thread queues nothing before loop() never sleeps on a task or on a quit() made since. */
  lemma NoLostWakeup(steps: seq<Step>)
    requires Possible(NEW_LOOP, steps) && !QueuedEarly(steps)
    ensures var s := Run(NEW_LOOP, steps);
            s.phase == Polling && (s.pending != [] || s.quit) ==> s.counter > 0 || s.waking != {}
  {
    RunWakeInv(NEW_LOOP, steps);
    RunRecorded(steps);
  }

  lemma PossibleThree(a: Step, b: Step, c: Step)
    requires Enabled(NEW_LOOP, a)
    requires Enabled(Apply(NEW_LOOP, a), b)
    requires Enabled(Apply(Apply(NEW_LOOP, a), b), c)
    ensures Possible(NEW_LOOP, [a, b, c]) && Run(NEW_LOOP, [a, b, c]) == Apply(Apply(Apply(NEW_LOOP, a), b), c)
  {
    RunSnoc(NEW_LOOP, [], a);
    RunSnoc(NEW_LOOP, [] + [a], b);
    RunSnoc(NEW_LOOP, [] + [a] + [b], c);
    assert [a, b, c] == [] + [a] + [b] + [c];
  }

  /** The sleeping case does occur. */
  lemma SleepsOnEarlyTask(task: int)
    ensures var steps := [Queue(OWNER, task), EnterLoop, TestQuit];
            Possible(NEW_LOOP, steps) && Asleep(Run(NEW_LOOP, steps)) && Run(NEW_LOOP, steps).pending == [task]
  {
    PossibleThree(Queue(OWNER, task), EnterLoop, TestQuit);
  }

  predicate SomeQuit(steps: seq<Step>) {
    exists i :: 0 <= i < |steps| && steps[i].Quit?
  }

  lemma {:induction false} QuitSince(s: Loop, steps: seq<Step>)
    requires s.phase != Before && Possible(s, steps)
    ensures Run(s, steps).quit <==> s.quit || SomeQuit(steps)
    decreases |steps|
  {
    if steps != [] {
      QuitSince(Apply(s, steps[0]), steps[1..]);
      assert forall i :: 0 <= i < |steps[1..]| ==> steps[1..][i] == steps[i + 1];
      assert forall i :: 0 < i < |steps| ==> steps[i] == steps[1..][i - 1];
    }
  }

  /** Once loop() has been entered, quit_ is set if and only if some quit() was called after the entry: loop()
      clears the flag, so a quit() made before it is forgotten. */
  lemma QuitSeenIff(before: seq<Step>, after: seq<Step>)
    requires Possible(NEW_LOOP, before + ([EnterLoop] + after))
    ensures Run(NEW_LOOP, before + ([EnterLoop] + after)).quit <==> SomeQuit(after)
  {
    RunAfter(NEW_LOOP, before, [EnterLoop] + after);
    assert ([EnterLoop] + after)[1..] == after;
    QuitSince(Apply(Run(NEW_LOOP, before), EnterLoop), after);
  }

  /** A run in which that happens. */
  lemma QuitBeforeLoopIsLost()
    ensures var steps := [Quit(OWNER), EnterLoop, TestQuit];
            Possible(NEW_LOOP, steps) && Run(NEW_LOOP, steps).phase == Polling && !Run(NEW_LOOP, steps).quit
  {
    PossibleThree(Quit(OWNER), EnterLoop, TestQuit);
  }

  // ---------------------------------------------------------------- the eventfd, step by step

  /** Some wakeup() has been written since the eventfd was last read. */
  predicate WrittenSinceRead(steps: seq<Step>) {
    exists i :: 0 <= i < |steps| && steps[i].Wakeup? && ReadEventFd !in steps[i..]
  }

  lemma WrittenSnoc(steps: seq<Step>, step: Step)
    ensures WrittenSinceRead(steps + [step]) <==> step.Wakeup? || (WrittenSinceRead(steps) && step != ReadEventFd)
  {
    var all := steps + [step];
    assert all[|steps|] == step && all[|steps|..] == [step];
    assert forall i :: 0 <= i < |steps| ==> all[i] == steps[i] && all[i..] == steps[i..] + [step];
  }

  /** doPendingFunctors is under way. */
  predicate InBatch(steps: seq<Step>) {
    steps != [] &&
    var last := steps[|steps| - 1];
    last == EndDispatch || (last != EndBatch && InBatch(steps[..|steps| - 1]))
  }

  /** The thread has pushed a functor or set quit_, must wake the loop for it, and has not yet: every other thread for
      both, the loop's own only for a functor it pushes while functors are run. */
  predicate OwesWakeup(steps: seq<Step>, t: nat) {
    steps != [] &&
    var last, init := steps[|steps| - 1], steps[..|steps| - 1];
    match last
    case Queue(u, _) => if u == t then t != OWNER || InBatch(init) || OwesWakeup(init, t) else OwesWakeup(init, t)
    case Quit(u) => if u == t then t != OWNER || OwesWakeup(init, t) else OwesWakeup(init, t)
    case Wakeup(u) => u != t && OwesWakeup(init, t)
    case _ => OwesWakeup(init, t)
  }

  /** poll has found the eventfd readable, and its handler has not run. */
  predicate ReadDue(steps: seq<Step>) {
    steps != [] &&
    var last, init := steps[|steps| - 1], steps[..|steps| - 1];
    if last == PollReturns then WrittenSinceRead(init) else last != ReadEventFd && ReadDue(init)
  }

  ghost predicate Traced(s: Loop, steps: seq<Step>) {
    && (s.counter > 0 <==> WrittenSinceRead(steps))
    && (s.calling <==> InBatch(steps))
    && (forall t: nat :: t in s.waking <==> OwesWakeup(steps, t))
    && (s.phase.Dispatching? ==> (s.phase.readable <==> ReadDue(steps)))
    && (s.phase == Returned ==> s.quit)
  }

  lemma TracedWaking(s: Loop, steps: seq<Step>, step: Step, t: nat)
    requires Traced(s, steps) && Enabled(s, step)
    ensures t in Apply(s, step).waking <==> OwesWakeup(steps + [step], t)
  {
    assert (steps + [step])[..|steps|] == steps;
  }

  lemma TracedStep(s: Loop, steps: seq<Step>, step: Step)
    requires Traced(s, steps) && Enabled(s, step)
    ensures Traced(Apply(s, step), steps + [step])
  {
    WrittenSnoc(steps, step);
    assert (steps + [step])[..|steps|] == steps;
    forall t: nat ensures t in Apply(s, step).waking <==> OwesWakeup(steps + [step], t) { TracedWaking(s, steps, step, t); }
  }

  lemma {:induction false} RunTraced(steps: seq<Step>)
    requires Possible(NEW_LOOP, steps)
    ensures Traced(Run(NEW_LOOP, steps), steps)
    decreases |steps|
  {
    if steps != [] {
      var before, last := steps[..|steps| - 1], steps[|steps| - 1];
      assert before + [last] == steps && [last][1..] == [];
      RunAfter(NEW_LOOP, before, [last]);
      RunTraced(before);
      TracedStep(Run(NEW_LOOP, before), before, last);
    }
  }

  /** In every run the eventfd is readable if and only if a wakeup has been written since it was last read, and a thread is
      about to write one if and only if it has pushed or quit in a way that asks for it. */
  lemma EventFdIff(steps: seq<Step>)
    requires Possible(NEW_LOOP, steps)
    ensures var s := Run(NEW_LOOP, steps);
            && (s.counter > 0 <==> WrittenSinceRead(steps))
            && (forall t: nat :: t in s.waking <==> OwesWakeup(steps, t))
  {
    RunTraced(steps);
  }

  ghost predicate NobodyOwes(steps: seq<Step>) {
    forall t: nat :: !OwesWakeup(steps, t)
  }

  lemma WakingEmptyIff(s: Loop, steps: seq<Step>)
    requires Traced(s, steps)
    ensures s.waking == {} <==> NobodyOwes(steps)
  {
    if NobodyOwes(steps) {
      assert forall t: nat :: t !in s.waking;
    } else {
      var t: nat :| OwesWakeup(steps, t);
      assert t in s.waking;
    }
  }

  /** So at poll the loop sleeps exactly when no wakeup has been written since the last read and no thread owes one. */
  lemma AsleepIff(steps: seq<Step>)
    requires Possible(NEW_LOOP, steps) && Run(NEW_LOOP, steps).phase == Polling
    ensures Asleep(Run(NEW_LOOP, steps)) <==> !WrittenSinceRead(steps) && NobodyOwes(steps)
  {
    RunTraced(steps);
    var s := Run(NEW_LOOP, steps);
    WakingEmptyIff(s, steps);
  }

  /** Every iteration that finds the eventfd readable reads it before it runs functors, and only then; and loop() returns
      only once quit_ is set. */
  lemma ReadOncePerPoll(steps: seq<Step>)
    requires Possible(NEW_LOOP, steps)
    ensures var s := Run(NEW_LOOP, steps);
            && (Enabled(s, ReadEventFd) ==> ReadDue(steps))
            && (Enabled(s, EndDispatch) ==> !ReadDue(steps))
            && (s.phase == Returned ==> s.quit)
  {
    RunTraced(steps);
  }

  // ---------------------------------------------------------------- doPendingFunctors

  /** What any thread, the owner inside a functor included, may do while a batch is run. */
  predicate Meanwhile(s: Step) {
    s.Queue? || s.Quit? || s.Wakeup?
  }

  /** A functor, and what happens from its start to that of the next one. */
  datatype Functor = Functor(id: int, meanwhile: seq<Step>)

  function Ids(fs: seq<Functor>): seq<int> {
    if fs == [] then [] else [fs[0].id] + Ids(fs[1..])
  }

  /** The rest of a batch. */
  function BatchSteps(fs: seq<Functor>): seq<Step> {
    if fs == [] then [EndBatch] else [RunNext] + (fs[0].meanwhile + BatchSteps(fs[1..]))
  }

  function Pushes(steps: seq<Step>): seq<int> {
    if steps == [] then []
    else (if steps[0].Queue? then [steps[0].task] else []) + Pushes(steps[1..])
  }

  function Pushed(fs: seq<Functor>): seq<int> {
    if fs == [] then [] else Pushes(fs[0].meanwhile) + Pushed(fs[1..])
  }

  class EventLoop {
    var pending: seq<int>
    var calling: bool
    var quit: bool
    var counter: nat
    ghost var phase: Phase
    ghost var enqueued: seq<int>
    ghost var executed: seq<int>
    ghost var unwoken: bool
    ghost var waking: set<nat>

    ghost function View(): Loop
      reads this
    {
      Loop(phase, pending, calling, quit, counter, waking, enqueued, executed, unwoken)
    }

    constructor ()
      ensures View() == NEW_LOOP
    {
      pending, calling, quit, counter := [], false, false, 0;
      phase, enqueued, executed, unwoken, waking := Before, [], [], false, {};
    }

    /** queueInloop up to and including the release of the lock, and whether it goes on to wakeup(). */
    method PushBack(thread: nat, task: int) returns (wake: bool)
      requires Enabled(View(), Queue(thread, task))
      modifies this
      ensures View() == Apply(old(View()), Queue(thread, task))
      ensures wake <==> thread in waking
    {
      pending := pending + [task];
      enqueued := enqueued + [task];
      wake := thread != OWNER || calling;
      if wake {
        waking := waking + {thread};
      } else {
        unwoken := unwoken || phase == Before;
      }
    }

    method Wakeup(thread: nat)
      requires Enabled(View(), Step.Wakeup(thread))
      modifies this
      ensures View() == Apply(old(View()), Step.Wakeup(thread))
    {
      if counter < COUNTER_MAX {
        counter := counter + 1;
      }
      waking := waking - {thread};
    }

    /** quit up to its wakeup(). */
    method SetQuit(thread: nat) returns (wake: bool)
      requires Enabled(View(), Step.Quit(thread))
      modifies this
      ensures View() == Apply(old(View()), Step.Quit(thread))
      ensures wake <==> thread != OWNER
    {
      quit := true;
      wake := thread != OWNER;
      if wake {
        waking := waking + {thread};
      }
    }

    method HandleRead()
      requires Enabled(View(), ReadEventFd)
      modifies this
      ensures View() == Apply(old(View()), ReadEventFd)
    {
      counter := 0;
      phase := Dispatching(false);
    }

    /** One thing done by some thread. */
    method Perform(s: Step)
      requires Meanwhile(s) && Enabled(View(), s)
      modifies this
      ensures View() == Apply(old(View()), s)
    {
      match s
      case Queue(t, task) => { var _ := PushBack(t, task); }
      case Quit(t) => { var _ := SetQuit(t); }
      case Wakeup(t) => { Wakeup(t); }
    }

    /** All that happens before the `rest`. */
    method PerformAll(ops: seq<Step>, ghost rest: seq<Step>)
      requires forall j :: 0 <= j < |ops| ==> Meanwhile(ops[j])
      requires Possible(View(), ops + rest)
      modifies this
      ensures Possible(View(), rest) && Run(View(), rest) == Run(old(View()), ops + rest)
      ensures phase == old(phase) && calling == old(calling) && executed == old(executed)
      ensures pending == old(pending) + Pushes(ops)
    {
      SplitSteps(ops, rest);
      if ops != [] {
        assert ([ops[0]] + (ops[1..] + rest))[1..] == ops[1..] + rest;
        Perform(ops[0]);
        PerformAll(ops[1..], rest);
        PushesHead(old(pending), ops);
      } else {
        assert old(pending) + [] == old(pending);
      }
    }

    /** The functor at the iterator, and what happens until the next. */
    method RunFunctor(f: Functor, ghost rest: seq<Step>)
      requires phase.Running? && phase.next < |phase.batch| && phase.batch[phase.next] == f.id
      requires forall j :: 0 <= j < |f.meanwhile| ==> Meanwhile(f.meanwhile[j])
      requires Possible(View(), [RunNext] + (f.meanwhile + rest))
      modifies this
      ensures Possible(View(), rest) && Run(View(), rest) == Run(old(View()), [RunNext] + (f.meanwhile + rest))
      ensures phase == old(phase).(next := old(phase).next + 1) && calling == old(calling)
      ensures executed == old(executed) + [f.id] && pending == old(pending) + Pushes(f.meanwhile)
    {
      assert ([RunNext] + (f.meanwhile + rest))[1..] == f.meanwhile + rest;
      executed := executed + [f.id];
      phase := phase.(next := phase.next + 1);
      PerformAll(f.meanwhile, rest);
    }

    /** Runs exactly the functors pending at the swap, in order; what is pushed after the swap, by any thread,
        is pending afterwards. `early` happens between the swap and the first functor. */
    method DoPendingFunctors(functors: seq<Functor>, early: seq<Step>)
      requires phase == Swapping && Ids(functors) == pending
      requires forall j :: 0 <= j < |early| ==> Meanwhile(early[j])
      requires forall i, j :: 0 <= i < |functors| && 0 <= j < |functors[i].meanwhile| ==> Meanwhile(functors[i].meanwhile[j])
      requires Possible(View(), [Swap] + (early + BatchSteps(functors)))
      modifies this
      ensures View() == Run(old(View()), [Swap] + (early + BatchSteps(functors)))
      ensures executed == old(executed) + old(pending) && pending == Pushes(early) + Pushed(functors)
    {
      ghost var batch := pending;
      ghost var goal := Run(View(), [Swap] + (early + BatchSteps(functors)));
      IdsIndex(functors);
      TakeBatch(early + BatchSteps(functors));
      PerformAll(early, BatchSteps(functors));
      assert [] + Pushes(early) == Pushes(early);
      RunBatch(functors, batch);
      assert View() == goal;
    }

    /** The swap under the lock. */
    method TakeBatch(ghost rest: seq<Step>)
      requires phase == Swapping && Possible(View(), [Swap] + rest)
      modifies this
      ensures Possible(View(), rest) && Run(View(), rest) == Run(old(View()), [Swap] + rest)
      ensures phase == Running(old(pending), 0) && pending == [] && executed == old(executed)
    {
      assert ([Swap] + rest)[1..] == rest;
      pending, unwoken, phase := [], false, Running(pending, 0);
    }

    /** The loop of doPendingFunctors, and the reset of the flag. */
    method RunBatch(functors: seq<Functor>, ghost batch: seq<int>)
      requires phase == Running(batch, 0) && |functors| == |batch|
      requires forall i :: 0 <= i < |functors| ==> functors[i].id == batch[i]
      requires forall i, j :: 0 <= i < |functors| && 0 <= j < |functors[i].meanwhile| ==> Meanwhile(functors[i].meanwhile[j])
      requires Possible(View(), BatchSteps(functors))
      modifies this
      ensures View() == Run(old(View()), BatchSteps(functors))
      ensures executed == old(executed) + batch && pending == old(pending) + Pushed(functors)
    {
      ghost var goal := Run(View(), BatchSteps(functors));
      assert functors[0..] == functors && executed + batch[..0] == executed;
      var i := 0;
      while i < |functors|
        invariant 0 <= i <= |functors| && phase == Running(batch, i)
        invariant Possible(View(), BatchSteps(functors[i..])) && Run(View(), BatchSteps(functors[i..])) == goal
        invariant executed == old(executed) + batch[..i]
        invariant pending + Pushed(functors[i..]) == old(pending) + Pushed(functors)
      {
        assert functors[i..][0] == functors[i] && functors[i..][1..] == functors[i + 1..];
        Regroup(pending, Pushes(functors[i].meanwhile), Pushed(functors[i + 1..]));
        Regroup(old(executed), batch[..i], [batch[i]]);
        assert batch[..i + 1] == batch[..i] + [batch[i]];
        RunFunctor(functors[i], BatchSteps(functors[i + 1..]));
        i := i + 1;
      }
      assert functors[i..] == [] && [EndBatch][1..] == [] && batch[..i] == batch && pending + [] == pending;
      calling := false;
      phase := Testing;
    }
  }

  lemma SplitSteps(ops: seq<Step>, rest: seq<Step>)
    ensures ops + rest == if ops == [] then rest else [ops[0]] + (ops[1..] + rest)
  {
  }

  lemma PushesHead(pending: seq<int>, ops: seq<Step>)
    requires ops != []
    ensures (if ops[0].Queue? then pending + [ops[0].task] else pending) + Pushes(ops[1..]) == pending + Pushes(ops)
  {
    var own := if ops[0].Queue? then [ops[0].task] else [];
    Regroup(pending, own, Pushes(ops[1..]));
    assert pending + [] == pending;
  }

  lemma Regroup(a: seq<int>, b: seq<int>, c: seq<int>)
    ensures a + b + c == a + (b + c)
  {
  }

  lemma IdsIndex(fs: seq<Functor>)
    ensures |Ids(fs)| == |fs| && forall i :: 0 <= i < |fs| ==> Ids(fs)[i] == fs[i].id
  {
  }
}

/** What addTimer was asked for, against when the timer runs: timerQueue.cpp and timer.cpp over whole runs. */
module TimerRequests {
  import opened TimerQueues
  import opened TimerProperties

  /** The arguments of an addTimer, and the id of the timer it created. */
  datatype Request = Request(id: Id, when_: int, repeat: bool, interval: int)

  /** The runs of the timer in a log: never before its time, and a second one only if it repeats, an interval later. */
  ghost predicate Spaced(ran: seq<Ran>, r: Request) {
    && (forall i :: 0 <= i < |ran| && ran[i].sequence == r.id.sequence ==> r.when_ <= ran[i].at)
    && (forall i, j :: 0 <= i < j < |ran| && ran[i].sequence == ran[j].sequence == r.id.sequence ==>
          r.repeat && ran[i].at + r.interval <= ran[j].at)
  }

  predicate HasRun(ran: seq<Ran>, r: Request) {
    ran != [] && (ran[|ran| - 1].sequence == r.id.sequence || HasRun(ran[..|ran| - 1], r))
  }

  /** When it is to run next: at first when it was asked to, then an interval after its latest run. */
  function Due(ran: seq<Ran>, r: Request): int {
    if ran == [] then r.when_
    else if ran[|ran| - 1].sequence == r.id.sequence then ran[|ran| - 1].at + r.interval
    else Due(ran[..|ran| - 1], r)
  }

  ghost predicate Live(q: Queue, id: Id) {
    id.addr in q.heap && q.heap[id.addr].sequence == id.sequence
  }

  /** The timer at `a` has run in the round under way. */
  ghost predicate AlreadyRun(q: Queue, a: nat) {
    exists i :: 0 <= i < q.next && i < |q.batch| && q.batch[i].addr == a
  }

  /** Its expiration is when it is due; or it has just run, and will be. */
  ghost predicate OnTime(q: Queue, r: Request)
    requires Live(q, r.id)
  {
    var t := q.heap[r.id.addr];
    && t.repeat == r.repeat && t.interval == r.interval
    && if AlreadyRun(q, r.id.addr) then Due(q.ran, r) == q.now + r.interval && HasRun(q.ran, r)
       else t.expiration == Due(q.ran, r) && (HasRun(q.ran, r) ==> r.repeat)
  }

  ghost predicate Honoured(q: Queue, r: Request) {
    Spaced(q.ran, r) && Issued(q, r.id) && (Live(q, r.id) ==> OnTime(q, r))
  }

  lemma {:induction false} DueAfterRuns(ran: seq<Ran>, r: Request)
    requires Spaced(ran, r) && (r.repeat ==> 0 <= r.interval)
    ensures HasRun(ran, r) <==> exists i :: 0 <= i < |ran| && ran[i].sequence == r.id.sequence
    ensures if HasRun(ran, r) then r.when_ + r.interval <= Due(ran, r) else Due(ran, r) == r.when_
    ensures forall i :: 0 <= i < |ran| && ran[i].sequence == r.id.sequence ==> ran[i].at + r.interval <= Due(ran, r)
    decreases |ran|
  {
    if ran != [] {
      var init := ran[..|ran| - 1];
      DueAfterRuns(init, r);
      assert forall i :: 0 <= i < |init| ==> init[i] == ran[i];
    }
  }

  /** One more run, when it is due. */
  lemma RanAgain(ran: seq<Ran>, r: Request, round: nat, now: int)
    requires Spaced(ran, r) && (HasRun(ran, r) ==> r.repeat) && Due(ran, r) <= now && (r.repeat ==> 0 <= r.interval)
    ensures var more := ran + [Ran(r.id.sequence, round, now)];
            Spaced(more, r) && HasRun(more, r) && Due(more, r) == now + r.interval
  {
    DueAfterRuns(ran, r);
  }

  lemma RanOther(ran: seq<Ran>, r: Request, other: Ran)
    requires Spaced(ran, r) && other.sequence != r.id.sequence
    ensures var more := ran + [other];
            Spaced(more, r) && HasRun(more, r) == HasRun(ran, r) && Due(more, r) == Due(ran, r)
  {
    assert (ran + [other])[..|ran|] == ran;
  }

  /** A batch holds each address once. */
  lemma BatchDistinct(heap: map<nat, Timer>, batch: seq<Entry>, i: nat, j: nat)
    requires Pointing(heap, batch) && i < |batch| && j < |batch| && batch[i].addr == batch[j].addr
    ensures i == j
  {
    assert batch[i] in batch && batch[j] in batch;
  }

  lemma HonouredAtRun(q: Queue, r: Request)
    requires Inv(q) && Honoured(q, r) && Enabled(q, DoRun)
    ensures Honoured(RunNext(q), r)
  {
    RunKeeps(q);
    var e, a := q.batch[q.next], r.id.addr;
    assert e in q.batch;
    if q.heap[e.addr].sequence == r.id.sequence {
      assert Live(q, r.id) && e.addr == a;
      if AlreadyRun(q, a) {
        var i :| 0 <= i < q.next && i < |q.batch| && q.batch[i].addr == a;
        BatchDistinct(q.heap, q.batch, i, q.next);
      }
      RanAgain(q.ran, r, q.round, q.now);
      assert RunNext(q).batch[q.next].addr == a;
    } else {
      if Live(q, r.id) { OthersRun(q, a); }
      RanOther(q.ran, r, Ran(q.heap[e.addr].sequence, q.round, q.now));
    }
  }

  lemma OthersRun(q: Queue, a: nat)
    requires q.next < |q.batch| && q.batch[q.next].addr in q.heap && q.batch[q.next].addr != a
    ensures AlreadyRun(RunNext(q), a) == AlreadyRun(q, a)
  {
    var m := RunNext(q);
    if AlreadyRun(m, a) {
      var i :| 0 <= i < m.next && i < |m.batch| && m.batch[i].addr == a;
      assert i < q.next && q.batch[i].addr == a;
    }
    if AlreadyRun(q, a) {
      var i :| 0 <= i < q.next && i < |q.batch| && q.batch[i].addr == a;
      assert m.batch[i].addr == a;
    }
  }

  lemma HonouredAtBegin(q: Queue, r: Request)
    requires Inv(q) && Honoured(q, r) && Enabled(q, DoBegin)
    ensures Honoured(BeginRead(q), r)
  {
    BeginForm(q);
    assert !AlreadyRun(q, r.id.addr) && !AlreadyRun(BeginRead(q), r.id.addr);
  }

  /** When the callbacks are over, all of the batch has run. */
  lemma AllRun(q: Queue, a: nat)
    requires Inv(q) && q.next == |q.batch| && a in q.heap
    ensures AlreadyRun(q, a) <==> Filed(q.heap, q.batch, a)
  {
    if AlreadyRun(q, a) {
      var i :| 0 <= i < q.next && i < |q.batch| && q.batch[i].addr == a;
      assert q.batch[i] in q.batch;
    }
    if Filed(q.heap, q.batch, a) {
      var i :| 0 <= i < |q.batch| && q.batch[i] == EntryAt(q.heap, a);
      assert q.batch[i].addr == a;
    }
  }

  lemma HonouredAtEnd(q: Queue, r: Request)
    requires Inv(q) && Honoured(q, r) && Enabled(q, DoEnd)
    ensures Honoured(EndRead(q), r)
  {
    var q0, a := q.(calling := false, next := 0), r.id.addr;
    assert Core(q0);
    IssuedStays(q, DoEnd, r.id);
    ResetAllFrame(q0);
    if a in q.heap {
      AllRun(q, a);
      ResetSettles(q0, a);
      if Live(ResetAll(q0), r.id) { SettledOnTime(q0, ResetAll(q0), AlreadyRun(q, a), r); }
    }
  }

  /** reset leaves a timer that lives on at the expiration it is due. */
  lemma SettledOnTime(q: Queue, m: Queue, ranNow: bool, r: Request)
    requires r.id.addr in q.heap && SettledAt(q, m, r.id.addr) && m.ran == q.ran && Live(m, r.id)
    requires ranNow <==> Filed(q.heap, q.batch, r.id.addr)
    requires Live(q, r.id) ==>
               var t := q.heap[r.id.addr];
               && t.repeat == r.repeat && t.interval == r.interval
               && if ranNow then Due(q.ran, r) == q.now + r.interval
                  else t.expiration == Due(q.ran, r) && (HasRun(q.ran, r) ==> r.repeat)
    ensures var t := m.heap[r.id.addr];
            && t.repeat == r.repeat && t.interval == r.interval && t.expiration == Due(m.ran, r)
            && (HasRun(m.ran, r) ==> r.repeat)
  {
  }

  /** The steps that neither run nor restart a timer. */
  lemma HonouredElsewhere(q: Queue, s: Step, r: Request)
    requires Inv(q) && Honoured(q, r) && Enabled(q, s) && (s.DoAlloc? || s.DoAdd? || s.DoCancel? || s.DoTick?)
    ensures Honoured(Apply(q, s), r)
  {
    var m := Apply(q, s);
    IssuedStays(q, s, r.id);
    if s.DoCancel? && s.id in q.active { CancelForm(q, s.id); }
    assert m.ran == q.ran && m.batch == q.batch && m.next == q.next && m.now == q.now;
    assert AlreadyRun(m, r.id.addr) == AlreadyRun(q, r.id.addr);
    if Live(m, r.id) {
      assert r.id.sequence < q.created;
      assert Live(q, r.id) && m.heap[r.id.addr] == q.heap[r.id.addr];
    }
  }

  lemma HonouredStays(q: Queue, s: Step, r: Request)
    requires Inv(q) && Honoured(q, r) && Enabled(q, s)
    ensures Honoured(Apply(q, s), r)
  {
    match s
    case DoBegin => HonouredAtBegin(q, r);
    case DoRun => HonouredAtRun(q, r);
    case DoEnd => HonouredAtEnd(q, r);
    case _ => HonouredElsewhere(q, s, r);
  }

  lemma {:induction false} RunHonours(q: Queue, steps: seq<Step>, r: Request)
    requires Inv(q) && Honoured(q, r) && Possible(q, steps)
    ensures Honoured(Run(q, steps), r)
    decreases |steps|
  {
    if steps != [] {
      HonouredStays(q, steps[0], r);
      StepKeeps(q, steps[0]);
      RunHonours(Apply(q, steps[0]), steps[1..], r);
    }
  }

  // ---------------------------------------------------------------- a repeating timer nobody cancels

  ghost predicate Going(q: Queue, id: Id) {
    Live(q, id) && q.heap[id.addr].repeat && id !in q.canceling
  }

  lemma GoingStays(q: Queue, s: Step, id: Id)
    requires Inv(q) && Going(q, id) && Enabled(q, s) && s != DoCancel(id)
    ensures Going(Apply(q, s), id)
  {
    match s
    case DoBegin => BeginForm(q);
    case DoRun => RunKeeps(q);
    case DoEnd =>
      var q0 := q.(calling := false, next := 0);
      assert Core(q0);
      ResetAllFrame(q0);
      ResetSettles(q0, id.addr);
    case DoCancel(other) =>
      CancelIsPrecise(q, other);
      if other in q.active { CancelForm(q, other); }
    case _ =>
  }

  lemma {:induction false} RunGoes(q: Queue, steps: seq<Step>, id: Id)
    requires Inv(q) && Going(q, id) && Possible(q, steps) && DoCancel(id) !in steps
    ensures Going(Run(q, steps), id)
    decreases |steps|
  {
    if steps != [] {
      assert steps[0] in steps;
      GoingStays(q, steps[0], id);
      StepKeeps(q, steps[0]);
      RunGoes(Apply(q, steps[0]), steps[1..], id);
    }
  }

  // ---------------------------------------------------------------- from the request on

  /** The numbers in the log have been given out. */
  ghost predicate LogBelow(q: Queue) {
    forall i :: 0 <= i < |q.ran| ==> q.ran[i].sequence < q.created
  }

  lemma {:induction false} RunLogBelow(q: Queue, steps: seq<Step>)
    requires Inv(q) && LogBelow(q) && Possible(q, steps)
    ensures Inv(Run(q, steps)) && LogBelow(Run(q, steps))
    decreases |steps|
  {
    if steps != [] {
      LogBelowStep(q, steps[0]);
      StepKeeps(q, steps[0]);
      RunLogBelow(Apply(q, steps[0]), steps[1..]);
    }
  }

  lemma LogBelowStep(q: Queue, s: Step)
    requires Inv(q) && LogBelow(q) && Enabled(q, s)
    ensures LogBelow(Apply(q, s))
  {
    match s
    case DoBegin => BeginForm(q);
    case DoEnd => ResetAllFrame(q.(calling := false, next := 0));
    case DoRun =>
      RunKeeps(q);
      assert q.batch[q.next] in q.batch;
    case DoCancel(id) => if id in q.active { CancelForm(q, id); }
    case _ =>
  }

  lemma {:induction false} CancelingWasAsked(q: Queue, steps: seq<Step>, id: Id)
    requires Inv(q) && Possible(q, steps) && id !in q.canceling && DoCancel(id) !in steps
    ensures id !in Run(q, steps).canceling
    decreases |steps|
  {
    if steps != [] {
      assert steps[0] in steps;
      CancelingStep(q, steps[0], id);
      StepKeeps(q, steps[0]);
      CancelingWasAsked(Apply(q, steps[0]), steps[1..], id);
    }
  }

  lemma CancelingStep(q: Queue, s: Step, id: Id)
    requires Inv(q) && Enabled(q, s) && id !in q.canceling && s != DoCancel(id)
    ensures id !in Apply(q, s).canceling
  {
    match s
    case DoBegin => BeginForm(q);
    case DoEnd => ResetAllFrame(q.(calling := false, next := 0));
    case DoCancel(other) => if other in q.active { CancelForm(q, other); }
    case _ =>
  }

  lemma {:induction false} RunAppend(q: Queue, a: seq<Step>, b: seq<Step>)
    requires Possible(q, a + b)
    ensures Possible(q, a) && Possible(Run(q, a), b) && Run(q, a + b) == Run(Run(q, a), b)
    decreases |a|
  {
    if a == [] {
      assert a + b == b;
    } else {
      assert (a + b)[1..] == a[1..] + b;
      RunAppend(Apply(q, a[0]), a[1..], b);
    }
  }

  /** In every run: a timer asked for with addTimer(when, interval) runs at no time before `when`; once only unless it
      repeats; if it repeats, with at least the interval between one run and the next, and then it is never freed
      unless its id is cancelled; and a handleRead that finds it queued runs it if and only if it is due: at `when` at
      first, and then an interval after its latest run. */
  lemma AsAsked(before: seq<Step>, addr: nat, when_: int, repeat: bool, interval: int, after: seq<Step>)
    requires Possible(EMPTY, before + ([DoAlloc(addr, when_, repeat, interval)] + after))
    ensures Possible(EMPTY, before)
    ensures var id := Id(addr, Run(EMPTY, before).created);
            var q := Run(EMPTY, before + ([DoAlloc(addr, when_, repeat, interval)] + after));
            var r := Request(id, when_, repeat, interval);
            && Spaced(q.ran, r)
            && (Live(q, id) && Filed(q.heap, q.timers, addr) && Enabled(q, DoBegin) ==>
                  (Filed(q.heap, BeginRead(q).batch, addr) <==> Due(q.ran, r) <= q.clock))
            && (repeat && DoCancel(id) !in before + after ==> id.sequence !in q.freed && Live(q, id))
  {
    var ask := DoAlloc(addr, when_, repeat, interval);
    RunAppend(EMPTY, before, [ask] + after);
    assert ([ask] + after)[1..] == after;
    RunLogBelow(EMPTY, before);
    var q := Run(EMPTY, before);
    var r := Request(Id(addr, q.created), when_, repeat, interval);
    AskedHonoured(q, r);
    RunHonours(Apply(q, ask), after, r);
    StepsKeep(Apply(q, ask), after);
    DueIsRun(Run(Apply(q, ask), after), r);
    if repeat && DoCancel(r.id) !in before + after {
      CancelingWasAsked(EMPTY, before, r.id);
      RunGoes(Apply(q, ask), after, r.id);
    }
  }

  lemma {:induction false} NeverRan(ran: seq<Ran>, r: Request)
    requires forall i :: 0 <= i < |ran| ==> ran[i].sequence != r.id.sequence
    ensures Spaced(ran, r) && !HasRun(ran, r) && Due(ran, r) == r.when_
    decreases |ran|
  {
    if ran != [] { NeverRan(ran[..|ran| - 1], r); }
  }

  lemma AskedHonoured(q: Queue, r: Request)
    requires Inv(q) && LogBelow(q) && r.id == Id(r.id.addr, q.created)
    requires Enabled(q, DoAlloc(r.id.addr, r.when_, r.repeat, r.interval))
    ensures var m := Apply(q, DoAlloc(r.id.addr, r.when_, r.repeat, r.interval));
            && Inv(m) && Honoured(m, r) && Live(m, r.id)
            && (r.repeat && r.id !in q.canceling ==> Going(m, r.id))
  {
    var ask := DoAlloc(r.id.addr, r.when_, r.repeat, r.interval);
    StepKeeps(q, ask);
    NeverRan(q.ran, r);
    assert forall i :: 0 <= i < |q.batch| ==> q.batch[i] in q.batch && q.batch[i].addr in q.heap;
    assert !AlreadyRun(Apply(q, ask), r.id.addr);
  }

  lemma DueIsRun(q: Queue, r: Request)
    requires Inv(q) && Honoured(q, r)
    ensures Live(q, r.id) && Filed(q.heap, q.timers, r.id.addr) && Enabled(q, DoBegin) ==>
              (Filed(q.heap, BeginRead(q).batch, r.id.addr) <==> Due(q.ran, r) <= q.clock)
    ensures Live(q, r.id) ==> r.id.sequence !in q.freed
  {
    if Enabled(q, DoBegin) { BeginForm(q); }
  }

  // ---------------------------------------------------------------- no idle rounds

  /** The timerfd fires no earlier than the earliest timer. */
  predicate NotEarly(q: Queue) {
    match q.fd
    case Disarmed => true
    case Armed(deadline, _) => q.timers != [] && q.timers[0].when_ <= deadline
    case Fired => q.timers != [] && q.timers[0].when_ <= q.clock
  }

  /** Whatever was before, arming it for the earliest timer makes it so. */
  lemma ArmedNotEarly(q: Queue)
    requires q.timers != []
    ensures NotEarly(Arm(q, q.timers[0].when_))
  {
  }

  lemma NotEarlyAtAdd(q: Queue, addr: nat)
    requires addr in q.heap && (NotEarly(q) || BecomesEarliest(q, q.heap[addr].expiration))
    ensures NotEarly(AddInLoop(q, addr))
  {
    var e := EntryAt(q.heap, addr);
    assert Place(q.timers, e)[0] == if BecomesFirst(q.timers, e) || q.timers[0] == e then e else q.timers[0];
  }

  /** reset brings timers forward and takes none away. */
  lemma {:induction false} ResetLowersHead(q: Queue)
    requires Core(q) && q.timers != []
    ensures ResetAll(q).timers != [] && ResetAll(q).timers[0].when_ <= q.timers[0].when_
    decreases |q.batch|
  {
    if q.batch != [] {
      HeadOfBatch(q);
      ResetOneKeeps(q);
      ResetOneFrame(q);
      if Restarts(q, q.batch[0].addr) {
        RestartForm(q, q.batch[0].addr);
        RestartedIndexed(q, q.batch[0].addr);
      }
      ResetLowersHead(ResetOne(q));
    }
  }

  lemma NotEarlyAtEnd(q: Queue)
    requires Inv(q) && NotEarly(q) && Enabled(q, DoEnd)
    ensures NotEarly(EndRead(q))
  {
    var q0 := q.(calling := false, next := 0);
    assert Core(q0);
    ResetAllFrame(q0);
    if q.timers != [] { ResetLowersHead(q0); }
  }

  lemma NotEarlyStep(q: Queue, s: Step)
    requires Inv(q) && NotEarly(q) && Enabled(q, s) && !s.DoCancel? && (s.DoBegin? ==> q.fd == Fired)
    ensures NotEarly(Apply(q, s))
  {
    match s
    case DoAdd(addr) => NotEarlyAtAdd(q, addr);
    case DoBegin => BeginForm(q);
    case DoRun => RunKeeps(q);
    case DoEnd => NotEarlyAtEnd(q);
    case _ =>
  }

  /** With no cancel since the timerfd was armed, and each handleRead called because it fired, a handleRead always
      finds a timer to run. */
  lemma {:induction false} NoIdleRound(q: Queue, steps: seq<Step>)
    requires Inv(q) && NotEarly(q) && Possible(q, steps) && Woken(q, steps)
    requires forall s :: s in steps ==> !s.DoCancel?
    ensures NotEarly(Run(q, steps))
    ensures Enabled(Run(q, steps), DoBegin) && Run(q, steps).fd == Fired ==> BeginRead(Run(q, steps)).batch != []
    decreases |steps|
  {
    if steps != [] {
      assert steps[0] in steps;
      NotEarlyStep(q, steps[0]);
      StepKeeps(q, steps[0]);
      NoIdleRound(Apply(q, steps[0]), steps[1..]);
    } else if !q.calling && q.fd == Fired {
      BeginForm(q);
      assert q.timers[0] in q.timers;
      assert q.timers[0] in BeginRead(q).batch;
    }
  }

  /** An add that does not become the earliest leaves the timerfd as it was. */
  lemma LaterAddKeepsFd(q: Queue, addr: nat)
    requires addr in q.heap && q.timers != [] && q.timers[0].when_ <= q.heap[addr].expiration
    ensures AddInLoop(q, addr).fd == q.fd
  {
  }
}

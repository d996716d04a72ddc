/** What the timer queue of timerQueue.cpp guarantees over whole runs. */
module TimerProperties {
  import opened TimerQueues

  // ---------------------------------------------------------------- ownership

  ghost predicate LiveIn(q: Queue, s: nat, es: seq<Entry>) {
    exists a :: a in q.heap && q.heap[a].sequence == s && Filed(q.heap, es, a)
  }

  ghost predicate LiveInflight(q: Queue, s: nat) {
    exists a :: a in q.heap && q.heap[a].sequence == s && a in q.inflight
  }

  ghost predicate Exactly(a: bool, b: bool, c: bool, d: bool) {
    (a || b || c || d) && !(a && b) && !(a && c) && !(a && d) && !(b && c) && !(b && d) && !(c && d)
  }

  lemma OnePlace(q: Queue, s: nat)
    requires Inv(q) && s < q.created
    ensures Exactly(LiveInflight(q, s), LiveIn(q, s, q.timers), LiveIn(q, s, q.batch), s in q.freed)
  {
    if s !in q.freed {
      assert Lives(q.heap, s);
      var a :| a in q.heap && q.heap[a].sequence == s;
      assert a in q.inflight || Filed(q.heap, q.timers, a) || Filed(q.heap, q.batch, a);
      assert LiveInflight(q, s) <==> a in q.inflight;
      assert LiveIn(q, s, q.timers) <==> Filed(q.heap, q.timers, a);
      assert LiveIn(q, s, q.batch) <==> Filed(q.heap, q.batch, a);
    }
  }

  /** In every run of allocations, adds, cancels and timer rounds, with callbacks adding and cancelling at
      will, no assertion fails and no timer is used after its deletion or deleted twice; both indexes hold
      the same timers; and each timer ever created is in exactly one of: on its way to the loop, queued,
      in the batch being run, freed. */
  lemma AlwaysSafe(steps: seq<Step>)
    requires Possible(EMPTY, steps)
    ensures var q := Run(EMPTY, steps);
            && !q.fault
            && |q.timers| == |q.active|
            && (forall e :: e in q.timers <==> e.addr in q.heap && e == EntryAt(q.heap, e.addr)
                                               && IdAt(q.heap, e.addr) in q.active)
            && (forall s :: 0 <= s < q.created ==>
                  Exactly(LiveInflight(q, s), LiveIn(q, s, q.timers), LiveIn(q, s, q.batch), s in q.freed))
  {
    StepsKeep(EMPTY, steps);
    var q := Run(EMPTY, steps);
    assert forall a :: a in q.heap ==> (IdAt(q.heap, a) in q.active <==> Filed(q.heap, q.timers, a));
    forall s | 0 <= s < q.created
      ensures Exactly(LiveInflight(q, s), LiveIn(q, s, q.timers), LiveIn(q, s, q.batch), s in q.freed)
    {
      OnePlace(q, s);
    }
  }

  // ---------------------------------------------------------------- a round runs exactly what was due

  /** The numbers of the timers that entries point to. */
  function Sequences(heap: map<nat, Timer>, es: seq<Entry>): (ss: seq<nat>)
    ensures |ss| == |es|
  {
    if es == [] then []
    else [if es[0].addr in heap then heap[es[0].addr].sequence else 0] + Sequences(heap, es[1..])
  }

  function Log(ss: seq<nat>, round: nat, at: int): seq<Ran> {
    if ss == [] then [] else Log(ss[..|ss| - 1], round, at) + [Ran(ss[|ss| - 1], round, at)]
  }

  lemma SequencesAt(heap: map<nat, Timer>, es: seq<Entry>, n: nat)
    requires n < |es| && es[n].addr in heap
    ensures Sequences(heap, es)[n] == heap[es[n].addr].sequence
  {
    if n > 0 {
      SequencesAt(heap, es[1..], n - 1);
    }
  }

  lemma SequencesAgree(h: map<nat, Timer>, k: map<nat, Timer>, es: seq<Entry>)
    requires forall e :: e in es ==> e.addr in h && e.addr in k && h[e.addr] == k[e.addr]
    ensures Sequences(h, es) == Sequences(k, es)
  {
  }

  predicate InsideRound(s: Step) {
    !s.DoBegin? && !s.DoEnd?
  }

  /** What callbacks cannot disturb: the batch, its timers and the round. */
  lemma InsideRoundFrame(q: Queue, s: Step)
    requires Inv(q) && q.calling && Enabled(q, s) && InsideRound(s)
    ensures var r := Apply(q, s);
            && r.calling && r.batch == q.batch && r.round == q.round && r.now == q.now
            && (forall e :: e in q.batch ==> e.addr in r.heap && e.addr in q.heap && r.heap[e.addr] == q.heap[e.addr])
            && (s.DoRun? || (r.next == q.next && r.ran == q.ran))
  {
    match s
    case DoCancel(id) =>
      if id in q.active {
        CancelForm(q, id);
        assert Filed(q.heap, q.timers, id.addr);
        assert !Filed(q.heap, q.batch, id.addr);
      }
    case DoAdd(addr) =>
    case _ =>
  }

  /** Inside round `round`, whose batch are the timers numbered `due`, the log holds those run so far. */
  ghost predicate InRound(q: Queue, due: seq<nat>, ran0: seq<Ran>, round: nat) {
    && q.calling && q.round == round && Sequences(q.heap, q.batch) == due
    && q.next <= |due| && q.ran == ran0 + Log(due[..q.next], round, q.now)
  }

  lemma InRoundStep(q: Queue, s: Step, due: seq<nat>, ran0: seq<Ran>, round: nat)
    requires Inv(q) && InRound(q, due, ran0, round) && Enabled(q, s) && InsideRound(s)
    ensures InRound(Apply(q, s), due, ran0, round) && Apply(q, s).now == q.now
  {
    if s.DoRun? {
      InRoundRunStep(q, due, ran0, round);
    } else {
      InsideRoundFrame(q, s);
      SequencesAgree(q.heap, Apply(q, s).heap, q.batch);
    }
  }

  lemma InRoundRunStep(q: Queue, due: seq<nat>, ran0: seq<Ran>, round: nat)
    requires Pointing(q.heap, q.batch) && InRound(q, due, ran0, round) && q.next < |q.batch|
    ensures InRound(RunNext(q), due, ran0, round)
  {
    assert q.batch[q.next] in q.batch;
    SequencesAt(q.heap, q.batch, q.next);
    LogSnoc(ran0, due, q.next, round, q.now);
  }

  lemma LogSnoc(ran0: seq<Ran>, ss: seq<nat>, n: nat, round: nat, at: int)
    requires n < |ss|
    ensures ran0 + Log(ss[..n + 1], round, at) == ran0 + Log(ss[..n], round, at) + [Ran(ss[n], round, at)]
  {
    assert ss[..n + 1][..n] == ss[..n];
    assert ran0 + (Log(ss[..n], round, at) + [Ran(ss[n], round, at)]) ==
           ran0 + Log(ss[..n], round, at) + [Ran(ss[n], round, at)];
  }

  lemma {:induction false} InRoundRun(q: Queue, steps: seq<Step>, due: seq<nat>, ran0: seq<Ran>, round: nat)
    requires Inv(q) && InRound(q, due, ran0, round) && Possible(q, steps)
    requires forall s :: s in steps ==> InsideRound(s)
    ensures Inv(Run(q, steps)) && InRound(Run(q, steps), due, ran0, round) && Run(q, steps).now == q.now
    decreases |steps|
  {
    if steps != [] {
      assert steps[0] in steps;
      StepKeeps(q, steps[0]);
      InRoundStep(q, steps[0], due, ran0, round);
      InRoundRun(Apply(q, steps[0]), steps[1..], due, ran0, round);
    }
  }

  /** A handleRead at time `clock`, whatever its callbacks add and cancel, runs exactly the timers queued with
      expiration <= clock, once each, in (expiration, address) order. */
  lemma RoundRunsDue(q: Queue, steps: seq<Step>)
    requires Inv(q) && !q.calling
    requires Possible(BeginRead(q), steps) && forall s :: s in steps ==> InsideRound(s)
    requires Enabled(Run(BeginRead(q), steps), DoEnd)
    ensures var due := q.timers[..ExpiredCount(q.timers, q.clock)];
            && (forall i, j :: 0 <= i < j < |due| ==>
                  due[i].when_ < due[j].when_ || (due[i].when_ == due[j].when_ && due[i].addr < due[j].addr))
            && (forall e :: e in due <==> e in q.timers && e.when_ <= q.clock)
            && Run(BeginRead(q), steps).ran == q.ran + Log(Sequences(q.heap, due), q.round + 1, q.clock)
  {
    ExpiredSplit(q.timers, q.clock);
    RoundStarts(q);
    RoundEnds(BeginRead(q), steps, Sequences(q.heap, q.timers[..ExpiredCount(q.timers, q.clock)]), q.ran, q.round + 1);
  }

  lemma RoundEnds(q: Queue, steps: seq<Step>, due: seq<nat>, ran0: seq<Ran>, round: nat)
    requires Inv(q) && InRound(q, due, ran0, round) && Possible(q, steps)
    requires forall s :: s in steps ==> InsideRound(s)
    requires Enabled(Run(q, steps), DoEnd)
    ensures Run(q, steps).ran == ran0 + Log(due, round, q.now)
  {
    InRoundRun(q, steps, due, ran0, round);
    assert due[..|due|] == due;
  }

  lemma RoundStarts(q: Queue)
    requires Inv(q) && !q.calling
    ensures Inv(BeginRead(q)) && BeginRead(q).now == q.clock
    ensures InRound(BeginRead(q), Sequences(q.heap, q.timers[..ExpiredCount(q.timers, q.clock)]), q.ran, q.round + 1)
  {
    BeginForm(q);
    BeginKeeps(q);
    var due := Sequences(q.heap, BeginRead(q).batch);
    assert due[..0] == [] && q.ran + [] == q.ran;
  }

  /** What reset does to the timer at `a`. */
  ghost predicate SettledAt(q: Queue, r: Queue, a: nat)
    requires a in q.heap
  {
    if !Filed(q.heap, q.batch, a) then
      a in r.heap && r.heap[a] == q.heap[a] && Filed(r.heap, r.timers, a) == Filed(q.heap, q.timers, a)
    else if Restarts(q, a) then
      a in r.heap && r.heap[a] == Restarted(q, a) && Filed(r.heap, r.timers, a)
    else
      a !in r.heap && q.heap[a].sequence in r.freed
  }

  /** What one iteration of reset does to it. */
  ghost predicate OneSettledAt(q: Queue, r: Queue, a: nat)
    requires q.batch != [] && a in q.heap
  {
    if a != q.batch[0].addr then
      a in r.heap && r.heap[a] == q.heap[a]
      && Filed(r.heap, r.timers, a) == Filed(q.heap, q.timers, a)
      && Filed(r.heap, r.batch, a) == Filed(q.heap, q.batch, a)
    else
      Filed(q.heap, q.batch, a) &&
      if Restarts(q, a)
      then a in r.heap && r.heap[a] == Restarted(q, a) && Filed(r.heap, r.timers, a) && !Filed(r.heap, r.batch, a)
      else a !in r.heap && q.heap[a].sequence in r.freed
  }

  lemma SettledCompose(q: Queue, r: Queue, z: Queue, a: nat)
    requires q.batch != [] && a in q.heap && OneSettledAt(q, r, a) && (a in r.heap ==> SettledAt(r, z, a))
    requires r.now == q.now && r.canceling == q.canceling && r.freed <= z.freed && z.heap.Keys <= r.heap.Keys
    ensures SettledAt(q, z, a)
  {
  }

  /** After its callbacks handleRead restarts, at now + interval, exactly the batch's repeating timers that were
      not cancelled, frees the rest of the batch and leaves every other timer as it was. */
  lemma {:induction false} ResetSettles(q: Queue, a: nat)
    requires Core(q) && a in q.heap
    ensures SettledAt(q, ResetAll(q), a)
    decreases |q.batch|
  {
    if q.batch != [] {
      var r := ResetOne(q);
      ResetOneKeeps(q);
      ResetOneFrame(q);
      ResetAllFrame(r);
      ResetOneSettles(q, a);
      if a in r.heap {
        ResetSettles(r, a);
      }
      SettledCompose(q, r, ResetAll(r), a);
    }
  }

  lemma ResetOneSettles(q: Queue, a: nat)
    requires Core(q) && q.batch != [] && a in q.heap
    ensures OneSettledAt(q, ResetOne(q), a)
  {
    var addr := q.batch[0].addr;
    HeadOfBatch(q);
    TailPointing(q.heap, q.batch);
    if Restarts(q, addr) {
      RestartForm(q, addr);
      RestartedIndexed(q, addr);
      NoEntryAt(q.heap, q.timers, addr);
    }
  }

  // ---------------------------------------------------------------- cancellation

  /** An id handed out by addTimer: its timer is still alive at that address, or freed. */
  ghost predicate Issued(q: Queue, id: Id) {
    (id.addr in q.heap && q.heap[id.addr].sequence == id.sequence) || id.sequence in q.freed
  }

  /** The id's timer can never run again, except for one already in the current round. */
  ghost predicate Dead(q: Queue, id: Id, round: nat) {
    || id.sequence in q.freed
    || (q.calling && q.round == round && Filed(q.heap, q.batch, id.addr) && IdAt(q.heap, id.addr) == id
        && id in q.canceling)
  }

  /** addTimer has returned the id but its addTimerInloop has not run yet. */
  predicate InFlight(q: Queue, id: Id) {
    id.addr in q.inflight && id.addr in q.heap && q.heap[id.addr].sequence == id.sequence
  }

  lemma CancelKills(q: Queue, id: Id)
    requires Inv(q) && Issued(q, id) && !InFlight(q, id)
    ensures Dead(CancelInLoop(q, id), id, q.round)
  {
    if id in q.active {
      CancelForm(q, id);
    } else if id.sequence !in q.freed {
      assert !Filed(q.heap, q.timers, id.addr);
      assert Filed(q.heap, q.batch, id.addr);
    }
  }

  /** A cancel deletes no timer but the one its id was issued for, even when the address has been reused;
      a stale id deletes nothing. */
  lemma CancelIsPrecise(q: Queue, id: Id)
    requires Inv(q)
    ensures var r := CancelInLoop(q, id);
            && (forall a :: a in q.heap && (a != id.addr || q.heap[a].sequence != id.sequence) ==>
                  a in r.heap && r.heap[a] == q.heap[a])
            && (id.sequence in q.freed ==> r == q.(canceling := r.canceling))
  {
    if id in q.active {
      CancelForm(q, id);
    }
  }

  /** A step that runs no timer of this id, except in round `round`. */
  ghost predicate Quiet(q: Queue, r: Queue, id: Id, round: nat) {
    && q.ran <= r.ran
    && forall i :: |q.ran| <= i < |r.ran| && r.ran[i].sequence == id.sequence ==> r.ran[i].round == round
  }

  lemma DeadAtEnd(q: Queue, id: Id, round: nat)
    requires Inv(q) && Enabled(q, DoEnd) && Dead(q, id, round)
    ensures id.sequence in EndRead(q).freed
  {
    var q0 := q.(calling := false, next := 0);
    assert Core(q0);
    ResetAllFrame(q0);
    if id.sequence !in q.freed {
      ResetSettles(q0, id.addr);
      assert Filed(q0.heap, q0.batch, id.addr) && !Restarts(q0, id.addr);
    }
  }

  lemma DeadAtRun(q: Queue, id: Id, round: nat)
    requires Inv(q) && Enabled(q, DoRun) && Dead(q, id, round)
    ensures Dead(RunNext(q), id, round) && Quiet(q, RunNext(q), id, round)
  {
    RunKeeps(q);
    assert q.batch[q.next] in q.batch;
  }

  lemma DeadInside(q: Queue, s: Step, id: Id, round: nat)
    requires Inv(q) && Enabled(q, s) && Dead(q, id, round) && InsideRound(s) && !s.DoRun?
    ensures Dead(Apply(q, s), id, round) && Apply(q, s).ran == q.ran && Apply(q, s).round == q.round
  {
    if id.sequence !in q.freed {
      InsideRoundFrame(q, s);
      assert EntryAt(q.heap, id.addr) in q.batch;
    }
  }

  lemma DeadStays(q: Queue, s: Step, id: Id, round: nat)
    requires Inv(q) && Enabled(q, s) && Dead(q, id, round) && round <= q.round
    ensures Dead(Apply(q, s), id, round) && round <= Apply(q, s).round && Quiet(q, Apply(q, s), id, round)
  {
    match s
    case DoBegin => BeginForm(q);
    case DoEnd =>
      DeadAtEnd(q, id, round);
      ResetAllFrame(q.(calling := false, next := 0));
    case DoRun => DeadAtRun(q, id, round);
    case _ => DeadInside(q, s, id, round);
  }

  /** After a cancel whose timer has reached the loop, that timer runs in no later round. */
  lemma {:induction false} CancelledNeverRuns(q: Queue, id: Id, steps: seq<Step>, round: nat)
    requires Inv(q) && Possible(q, steps) && Dead(q, id, round) && round <= q.round
    ensures Quiet(q, Run(q, steps), id, round)
    decreases |steps|
  {
    if steps != [] {
      DeadStays(q, steps[0], id, round);
      StepKeeps(q, steps[0]);
      CancelledNeverRuns(Apply(q, steps[0]), id, steps[1..], round);
    }
  }

  // ---- the other half: a cancel that overtakes its timer's addTimerInloop is lost

  /** Every handleRead of the run is called because the timerfd has fired. */
  predicate Woken(q: Queue, steps: seq<Step>)
    requires Possible(q, steps)
    decreases |steps|
  {
    steps == [] || ((steps[0].DoBegin? ==> q.fd == Fired) && Woken(Apply(q, steps[0]), steps[1..]))
  }

  ghost predicate Leads(q: Queue, steps: seq<Step>, r: Queue) {
    Possible(q, steps) && Woken(q, steps) && Run(q, steps) == r
  }

  ghost predicate CanLead(q: Queue, r: Queue) {
    exists steps :: Leads(q, steps, r)
  }

  lemma CanLeadStep(q: Queue, s: Step, r: Queue)
    requires Enabled(q, s) && (s.DoBegin? ==> q.fd == Fired) && CanLead(Apply(q, s), r)
    ensures CanLead(q, r)
  {
    var rest :| Leads(Apply(q, s), rest, r);
    assert ([s] + rest)[1..] == rest;
    assert Leads(q, [s] + rest, r);
  }

  ghost predicate RunsLater(q: Queue, id: Id, r: Queue) {
    q.ran <= r.ran && exists i :: |q.ran| <= i < |r.ran| && r.ran[i].sequence == id.sequence && r.ran[i].round > q.round
  }

  /** Running the rest of the batch up to and including the entry at `n`. */
  lemma {:induction false} RunUpTo(q: Queue, n: nat, id: Id) returns (r: Queue)
    requires Inv(q) && q.calling && q.next <= n < |q.batch|
    requires q.batch[n].addr == id.addr && id.addr in q.heap && q.heap[id.addr].sequence == id.sequence
    ensures CanLead(q, r) && q.ran <= r.ran && r.ran != [] && |q.ran| < |r.ran|
    ensures r.ran[|r.ran| - 1] == Ran(id.sequence, q.round, q.now)
    decreases n - q.next
  {
    RunKeeps(q);
    if q.next == n {
      r := RunNext(q);
      assert Leads(r, [], r);
    } else {
      r := RunUpTo(RunNext(q), n, id);
    }
    CanLeadStep(q, DoRun, r);
  }

  /** A timer whose add has just run, and whose time has come, is run by the next handleRead. */
  lemma DueTimerRuns(q: Queue, id: Id) returns (r: Queue)
    requires Inv(q) && !q.calling && Filed(q.heap, q.timers, id.addr) && q.heap[id.addr].sequence == id.sequence
    requires q.heap[id.addr].expiration <= q.clock && q.fd == Fired
    ensures CanLead(q, r) && RunsLater(q, id, r)
  {
    BeginForm(q);
    BeginKeeps(q);
    var b := BeginRead(q);
    assert EntryAt(q.heap, id.addr) in b.batch;
    var n :| 0 <= n < |b.batch| && b.batch[n] == EntryAt(q.heap, id.addr);
    r := RunUpTo(b, n, id);
    CanLeadStep(q, DoBegin, r);
    assert r.ran[|r.ran| - 1].round > q.round;
  }

  lemma InFlightRuns(q: Queue, id: Id) returns (r: Queue)
    requires Inv(q) && FdInv(q) && !q.calling && InFlight(q, id)
    ensures CanLead(q, r) && RunsLater(q, id, r)
  {
    var a := AddInLoop(q, id.addr);
    AddKeeps(q, id.addr);
    FdAtAdd(q, id.addr);
    InsertIndexed(q.heap, q.timers, q.active, id.addr);
    assert Filed(a.heap, a.timers, id.addr);
    var d := UntilDue(a, q.heap[id.addr].expiration);
    StepKeeps(a, DoTick(d));
    r := DueTimerRuns(Tick(a, d), id);
    CanLeadStep(a, DoTick(d), r);
    CanLeadStep(q, DoAdd(id.addr), r);
  }

  /** Time enough for a timer to be due and for the timerfd to have fired. */
  function UntilDue(q: Queue, when_: int): (d: nat)
    ensures when_ <= q.clock + d && (q.fd.Armed? ==> q.fd.deadline <= q.clock + d)
  {
    var t := if q.fd.Armed? && q.fd.deadline > when_ then q.fd.deadline else when_;
    if t > q.clock then t - q.clock else 0
  }

  /** A round under way can be finished without touching a timer in flight. */
  lemma {:induction false} FinishRound(q: Queue, id: Id) returns (r: Queue)
    requires Inv(q) && FdInv(q) && InFlight(q, id)
    ensures CanLead(q, r) && RunsLater(q, id, r)
    decreases |q.batch| - q.next
  {
    if !q.calling {
      r := InFlightRuns(q, id);
    } else if q.next < |q.batch| {
      RunKeeps(q);
      FdStep(q, DoRun);
      r := FinishRound(RunNext(q), id);
      CanLeadStep(q, DoRun, r);
    } else {
      EndKeeps(q);
      FdAtEnd(q);
      InFlightSurvivesEnd(q, id);
      r := InFlightRuns(EndRead(q), id);
      CanLeadStep(q, DoEnd, r);
    }
  }

  lemma InFlightSurvivesEnd(q: Queue, id: Id)
    requires Inv(q) && q.calling && q.next == |q.batch| && InFlight(q, id)
    ensures var r := EndRead(q); InFlight(r, id) && !r.calling && r.ran == q.ran && r.round == q.round
  {
    var q0 := q.(calling := false, next := 0);
    assert Core(q0);
    ResetAllFrame(q0);
    ResetSettles(q0, id.addr);
  }

  /** A cancelled timer can run in a later round, called by the kernel in its own time, if and only if its
      addTimerInloop had not run when it was cancelled. (The timerfd's invariant holds in every run.) */
  lemma CancelEffectiveIff(q: Queue, id: Id)
    requires Inv(q) && FdInv(q) && Issued(q, id)
    ensures (exists r :: CanLead(CancelInLoop(q, id), r) && RunsLater(q, id, r)) <==> InFlight(q, id)
  {
    var c := CancelInLoop(q, id);
    CancelKeeps(q, id);
    if InFlight(q, id) {
      assert id !in q.active;
      FdStep(q, DoCancel(id));
      var r := FinishRound(c, id);
      assert RunsLater(q, id, r);
    } else {
      CancelKills(q, id);
      assert c.ran == q.ran && c.round == q.round by { if id in q.active { CancelForm(q, id); } }
      forall r | CanLead(c, r) ensures !RunsLater(q, id, r)
      {
        var steps :| Leads(c, steps, r);
        CancelledNeverRuns(c, id, steps, q.round);
      }
    }
  }

  /** What is freed stays freed. */
  lemma FreedStays(q: Queue, s: Step)
    requires Inv(q) && Enabled(q, s)
    ensures q.freed <= Apply(q, s).freed
  {
    match s
    case DoBegin => BeginForm(q);
    case DoEnd => ResetAllFrame(q.(calling := false, next := 0));
    case DoCancel(id) => if id in q.active { CancelForm(q, id); }
    case _ =>
  }

  /** A live timer keeps its address until it is freed. */
  lemma LiveStays(q: Queue, s: Step, id: Id)
    requires Inv(q) && Enabled(q, s) && id.addr in q.heap && q.heap[id.addr].sequence == id.sequence
    ensures Issued(Apply(q, s), id)
  {
    match s
    case DoBegin => BeginForm(q);
    case DoEnd => ResetSettles(q.(calling := false, next := 0), id.addr);
    case DoCancel(other) => CancelIsPrecise(q, other); if other in q.active { CancelForm(q, other); }
    case _ =>
  }

  /** Ids handed out stay issued, so the above applies to every id a caller can hold. */
  lemma IssuedStays(q: Queue, s: Step, id: Id)
    requires Inv(q) && Enabled(q, s)
    ensures Issued(q, id) ==> Issued(Apply(q, s), id)
    ensures s.DoAlloc? ==> Issued(Apply(q, s), Id(s.addr, q.created))
  {
    if id.sequence in q.freed {
      FreedStays(q, s);
    } else if Issued(q, id) {
      LiveStays(q, s, id);
    }
  }

  // ---------------------------------------------------------------- the timerfd

  /** The kernel will wake the loop in time for the earliest timer: it has fired, or is armed no later than
      that timer's expiration or 100 microseconds after the arming. */
  predicate Covered(q: Queue) {
    q.timers == [] || q.fd == Fired
    || (q.fd.Armed? && (q.fd.deadline <= q.timers[0].when_ || q.fd.deadline <= q.fd.since + MIN_DELAY))
  }

  /** Inside handleRead only timers that are already due are spoken for; reset arms for the others. */
  predicate FdInv(q: Queue) {
    (q.calling && (q.timers == [] || q.now < q.timers[0].when_)) || Covered(q)
  }

  lemma ResetKeepsDueHead(q: Queue)
    requires Core(q) && 0 < q.now
    ensures var r := ResetAll(q);
            r.timers != [] && r.timers[0].when_ < q.now ==> q.timers != [] && q.timers[0] == r.timers[0]
    decreases |q.batch|
  {
    if q.batch != [] {
      ResetOneKeeps(q);
      ResetOneFrame(q);
      ResetKeepsDueHead(ResetOne(q));
      HeadOfBatch(q);
      if Restarts(q, q.batch[0].addr) {
        RestartForm(q, q.batch[0].addr);
        RestartedIndexed(q, q.batch[0].addr);
      }
    }
  }

  lemma CancelHead(q: Queue, id: Id)
    requires Inv(q)
    ensures var r := CancelInLoop(q, id);
            r.fd == q.fd && (r.timers != [] ==> q.timers != [] && q.timers[0].when_ <= r.timers[0].when_)
            && r.calling == q.calling && r.now == q.now
  {
    if id in q.active {
      CancelForm(q, id);
      CancelIndexed(q.heap, q.timers, q.active, id);
      var r := CancelInLoop(q, id);
      if r.timers != [] {
        assert r.timers[0] in q.timers;
        assert r.timers[0] == q.timers[0] || Before(q.timers[0], r.timers[0]);
      }
    }
  }

  lemma FdAtAdd(q: Queue, addr: nat)
    requires FdInv(q) && addr in q.heap
    ensures FdInv(AddInLoop(q, addr))
  {
    var e := EntryAt(q.heap, addr);
    assert Place(q.timers, e)[0] == if BecomesFirst(q.timers, e) then e else q.timers[0];
  }

  lemma FdAtBegin(q: Queue)
    requires Inv(q) && !q.calling
    ensures FdInv(BeginRead(q))
  {
    BeginForm(q);
    var r := BeginRead(q);
    assert r.timers != [] ==> r.timers[0] in r.timers;
  }

  lemma FdAtEnd(q: Queue)
    requires Inv(q) && FdInv(q) && Enabled(q, DoEnd)
    ensures Covered(EndRead(q))
  {
    var q0 := q.(calling := false, next := 0);
    assert Core(q0);
    ResetAllFrame(q0);
    ResetKeepsDueHead(q0);
  }

  lemma FdStep(q: Queue, s: Step)
    requires Inv(q) && FdInv(q) && Enabled(q, s)
    ensures FdInv(Apply(q, s))
  {
    match s
    case DoAdd(addr) => FdAtAdd(q, addr);
    case DoCancel(id) => CancelHead(q, id);
    case DoBegin => FdAtBegin(q);
    case DoRun => RunKeeps(q);
    case DoEnd => FdAtEnd(q);
    case _ =>
  }

  /** Whenever timers are queued outside handleRead, the timerfd is set to fire for them. */
  lemma {:induction false} TimerFdCovers(q: Queue, steps: seq<Step>)
    requires Inv(q) && FdInv(q) && Possible(q, steps)
    ensures FdInv(Run(q, steps))
    ensures !Run(q, steps).calling ==> Covered(Run(q, steps))
    decreases |steps|
  {
    if steps != [] {
      FdStep(q, steps[0]);
      StepKeeps(q, steps[0]);
      TimerFdCovers(Apply(q, steps[0]), steps[1..]);
    }
  }

  lemma TimerFdAlwaysCovers(steps: seq<Step>)
    requires Possible(EMPTY, steps)
    ensures !Run(EMPTY, steps).calling ==> Covered(Run(EMPTY, steps))
  {
    TimerFdCovers(EMPTY, steps);
  }
}

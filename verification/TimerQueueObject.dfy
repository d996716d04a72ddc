/** The TimerQueue object of timerQueue.cpp, method by method, against the operations of TimerQueues. */
module TimerQueueObject {
  import opened TimerQueues
  import opened TimerProperties

  /** The steps of the callbacks of a round: each timer's run(), then what that callback does. */
  function RoundSteps(script: seq<seq<Step>>): seq<Step> {
    if script == [] then [] else [DoRun] + (script[0] + RoundSteps(script[1..]))
  }

  /** While a callback runs, timers may be created, handed to the loop and cancelled, and time passes. */
  predicate CallbackStep(s: Step) {
    s.DoAlloc? || s.DoAdd? || s.DoCancel? || s.DoTick?
  }

  lemma PossibleHead(q: Queue, s: Step, rest: seq<Step>)
    requires Possible(q, [s] + rest)
    ensures Enabled(q, s) && Possible(Apply(q, s), rest) && Run(q, [s] + rest) == Run(Apply(q, s), rest)
  {
    assert ([s] + rest)[1..] == rest;
  }

  lemma SplitSteps(ops: seq<Step>, rest: seq<Step>)
    ensures ops + rest == if ops == [] then rest else [ops[0]] + (ops[1..] + rest)
  {
  }

  lemma NextExpired(heap: map<nat, Timer>, es: seq<Entry>, active: set<Id>)
    requires Pointing(heap, es) && es != [] && forall e :: e in es ==> IdAt(heap, e.addr) in active
    ensures es[0].addr in heap && IdAt(heap, es[0].addr) in active && Pointing(heap, es[1..])
    ensures forall e :: e in es[1..] ==> IdAt(heap, e.addr) in active - {IdAt(heap, es[0].addr)}
  {
    TailPointing(heap, es);
    assert es[0] in es;
  }

  class TimerQueue {
    var heap: map<nat, Timer>
    var timers: seq<Entry>
    var active: set<Id>
    var canceling: set<Id>
    var calling: bool
    var created: nat
    var fd: TimerFd
    var clock: int
    ghost var inflight: set<nat>
    ghost var batch: seq<Entry>
    ghost var next: nat
    ghost var now: int
    ghost var round: nat
    ghost var ran: seq<Ran>
    ghost var freed: set<nat>

    ghost function View(): Queue
      reads this
    {
      Queue(heap, inflight, created, timers, active, canceling, calling, batch, next, now,
            clock, fd, round, ran, freed, false)
    }

    constructor ()
      ensures View() == EMPTY
    {
      heap, timers, active, canceling, calling, created, fd := map[], [], {}, {}, false, 0, Disarmed;
      inflight, batch, next, now, clock, round, ran, freed := {}, [], 0, 0, 1, 0, [], {};
    }

    /** The passing of time, and the timerfd's expiry. */
    method Tick(d: nat)
      modifies this`clock, this`fd
      ensures View() == TimerQueues.Tick(old(View()), d)
    {
      clock := clock + d;
      if fd.Armed? && fd.deadline <= clock {
        fd := Fired;
      }
    }

    /** resetTimerfd; `clock` is what now() returns. */
    method ResetTimerFd(when_: int)
      modifies this`fd
      ensures View() == Arm(old(View()), when_)
    {
      var delay := when_ - clock;
      if delay < MIN_DELAY {
        delay := MIN_DELAY;
      }
      fd := Armed(clock + delay, clock);
    }

    /** addTimer's allocation; the allocator returns an address not in use. */
    method NewTimer(addr: nat, when_: int, repeat: bool, interval: int) returns (id: Id)
      requires addr !in heap
      modifies this`heap, this`created, this`inflight
      ensures View() == Alloc(old(View()), addr, when_, repeat, interval)
      ensures id == Id(addr, old(created))
    {
      heap := heap[addr := Timer(when_, repeat, interval, created)];
      id := Id(addr, created);
      created := created + 1;
      inflight := inflight + {addr};
    }

    method Insert(addr: nat) returns (earliestChanged: bool)
      requires Indexed(heap, timers, active) && addr in heap && !Filed(heap, timers, addr)
      modifies this`timers, this`active
      ensures View() == TimerQueues.Insert(old(View()), addr)
      ensures earliestChanged <==> BecomesEarliest(old(View()), heap[addr].expiration)
    {
      InsertForm(View(), addr);
      InsertIndexed(heap, timers, active, addr);
      var when_ := heap[addr].expiration;
      earliestChanged := timers == [] || when_ < timers[0].when_;
      assert Entry(when_, addr) !in timers;
      timers := Place(timers, Entry(when_, addr));
      assert Id(addr, heap[addr].sequence) !in active;
      active := active + {Id(addr, heap[addr].sequence)};
    }

    method AddTimerInLoop(addr: nat)
      requires Indexed(heap, timers, active) && addr in heap && !Filed(heap, timers, addr)
      modifies this`timers, this`active, this`fd, this`inflight
      ensures View() == AddInLoop(old(View()), addr)
    {
      inflight := inflight - {addr};
      var earliestChange := Insert(addr);
      if earliestChange {
        ResetTimerFd(heap[addr].expiration);
      }
    }

    method CancelInLoop(id: Id)
      requires Indexed(heap, timers, active)
      modifies this`heap, this`timers, this`active, this`canceling, this`freed
      ensures View() == TimerQueues.CancelInLoop(old(View()), id)
    {
      assert |timers| == |active|;
      if id in active {
        CancelForm(View(), id);
        var e := Entry(heap[id.addr].expiration, id.addr);
        assert e in timers by { assert Filed(heap, timers, id.addr); }
        timers := Without(timers, e);
        heap := heap - {id.addr};
        freed := freed + {id.sequence};
        active := active - {id};
      } else if calling {
        canceling := canceling + {id};
      }
    }

    method GetExpired(time: int) returns (expired: seq<Entry>)
      requires Indexed(heap, timers, active)
      modifies this`timers, this`active, this`batch
      ensures View() == TimerQueues.GetExpired(old(View()), time)
      ensures expired == batch == old(timers)[..ExpiredCount(old(timers), time)]
    {
      var n := ExpiredCount(timers, time);
      DueAreActive(heap, timers, active, time);
      expired := timers[..n];
      timers := timers[n..];
      batch := expired;
      EraseExpired(expired);
    }

    /** The loop of getExpired. */
    method EraseExpired(expired: seq<Entry>)
      requires Pointing(heap, expired) && forall e :: e in expired ==> IdAt(heap, e.addr) in active
      modifies this`active
      ensures View() == EraseActive(old(View()), expired)
    {
      ghost var goal := EraseActive(View(), expired);
      assert expired[0..] == expired;
      var i := 0;
      while i < |expired|
        invariant 0 <= i <= |expired|
        invariant Pointing(heap, expired[i..])
        invariant forall e :: e in expired[i..] ==> IdAt(heap, e.addr) in active
        invariant EraseActive(View(), expired[i..]) == goal
      {
        assert expired[i..][0] == expired[i] && expired[i..][1..] == expired[i + 1..];
        NextExpired(heap, expired[i..], active);
        var id := Id(expired[i].addr, heap[expired[i].addr].sequence);
        assert id in active;
        active := active - {id};
        i := i + 1;
      }
    }

    /** The body of the loop in reset. */
    method ResetOneTimer(entry: Entry, time: int)
      requires batch != [] && entry == batch[0] && time == now && entry.addr in heap
      requires Indexed(heap, timers, active) && !Filed(heap, timers, entry.addr)
      modifies this`heap, this`timers, this`active, this`batch, this`freed
      ensures View() == ResetOne(old(View()))
    {
      var addr := entry.addr;
      if heap[addr].repeat && Id(addr, heap[addr].sequence) !in canceling {
        RestartTimer(addr, time);
      } else {
        batch := batch[1..];
        freed := freed + {heap[addr].sequence};
        heap := heap - {addr};
      }
    }

    /** restart, then insert. */
    method RestartTimer(addr: nat, time: int)
      requires batch != [] && addr == batch[0].addr && time == now && addr in heap && Restarts(View(), addr)
      requires Indexed(heap, timers, active) && !Filed(heap, timers, addr)
      modifies this`heap, this`timers, this`active, this`batch
      ensures View() == ResetOne(old(View()))
    {
      ghost var q := View();
      RestartIndexed(heap, timers, active, addr, time + heap[addr].interval);
      batch := batch[1..];
      heap := heap[addr := heap[addr].(expiration := time + heap[addr].interval)];
      ghost var q1 := View();
      assert q1 == q.(batch := q.batch[1..], heap := q.heap[addr := Restarted(q, addr)]);
      var _ := Insert(addr);
    }

    method Reset(expire: seq<Entry>, time: int)
      requires Core(View()) && batch == expire && time == now
      modifies this`heap, this`timers, this`active, this`batch, this`freed, this`fd
      ensures var q := ResetAll(old(View()));
              View() == if q.timers != [] && q.timers[0].when_ > 0 then Arm(q, q.timers[0].when_) else q
    {
      ghost var goal := ResetAll(View());
      var i := 0;
      while i < |expire|
        invariant 0 <= i <= |expire|
        invariant Core(View()) && batch == expire[i..]
        invariant now == time
        invariant ResetAll(View()) == goal
      {
        assert expire[i..][0] == expire[i] && expire[i..][1..] == expire[i + 1..];
        HeadOfBatch(View());
        ResetOneKeeps(View());
        ResetOneFrame(View());
        ResetOneTimer(expire[i], time);
        i := i + 1;
      }
      if |timers| != 0 && timers[0].when_ > 0 {
        ResetTimerFd(timers[0].when_);
      }
    }

    /** One thing a callback does. */
    method Perform(s: Step)
      requires Inv(View()) && CallbackStep(s) && Enabled(View(), s)
      modifies this
      ensures View() == Apply(old(View()), s)
    {
      match s
      case DoAlloc(addr, when_, repeat, interval) => { var _ := NewTimer(addr, when_, repeat, interval); }
      case DoAdd(addr) => { AddTimerInLoop(addr); }
      case DoCancel(id) => { CancelInLoop(id); }
      case DoTick(d) => { Tick(d); }
    }

    method PerformNext(s: Step, ghost rest: seq<Step>)
      requires Inv(View()) && calling && CallbackStep(s) && Possible(View(), [s] + rest)
      modifies this
      ensures Inv(View()) && Possible(View(), rest) && Run(View(), rest) == Run(old(View()), [s] + rest)
      ensures calling && next == old(next) && batch == old(batch) && now == old(now)
    {
      PossibleHead(View(), s, rest);
      StepKeeps(View(), s);
      InsideRoundFrame(View(), s);
      Perform(s);
    }

    /** Everything one callback does; `rest` are the steps still to come in the round. */
    method PerformAll(ops: seq<Step>, ghost rest: seq<Step>)
      requires Inv(View()) && calling
      requires forall j :: 0 <= j < |ops| ==> CallbackStep(ops[j])
      requires Possible(View(), ops + rest)
      modifies this
      ensures Inv(View()) && Possible(View(), rest) && Run(View(), rest) == Run(old(View()), ops + rest)
      ensures calling && next == old(next) && batch == old(batch) && now == old(now)
    {
      SplitSteps(ops, rest);
      if ops != [] {
        PerformNext(ops[0], ops[1..] + rest);
        PerformAll(ops[1..], rest);
      }
    }

    /** One timer's run(), with what its callback does. */
    method RunCallback(entry: Entry, ops: seq<Step>, ghost rest: seq<Step>)
      requires Inv(View()) && calling && next < |batch| && batch[next] == entry
      requires forall j :: 0 <= j < |ops| ==> CallbackStep(ops[j])
      requires Possible(View(), [DoRun] + (ops + rest))
      modifies this
      ensures Inv(View()) && Possible(View(), rest) && Run(View(), rest) == Run(old(View()), [DoRun] + (ops + rest))
      ensures calling && next == old(next) + 1 && batch == old(batch) && now == old(now)
    {
      PossibleHead(View(), DoRun, ops + rest);
      RunKeeps(View());
      RunTimer(entry);
      PerformAll(ops, rest);
    }

    /** The callback itself is all that run() does; only the history changes here. */
    method RunTimer(entry: Entry)
      requires Pointing(heap, batch) && next < |batch| && batch[next] == entry
      modifies this`ran, this`next
      ensures View() == RunNext(old(View()))
    {
      assert entry in batch;
      ran := ran + [Ran(heap[entry.addr].sequence, round, now)];
      next := next + 1;
    }

    /** readTimerfd: what is due will be dealt with. */
    method ReadTimerFd(time: int)
      modifies this`fd, this`now
      ensures View() == old(View()).(now := time, fd := if old(fd) == Fired then Disarmed else old(fd))
    {
      now := time;
      if fd == Fired {
        fd := Disarmed;
      }
    }

    /** The flags set between getExpired and the first callback. */
    method EnterCallbacks()
      modifies this`calling, this`canceling, this`next, this`round
      ensures View() == old(View()).(calling := true, canceling := {}, next := 0, round := old(round) + 1)
    {
      calling := true;
      canceling := {};
      next, round := 0, round + 1;
    }

    /** handleRead up to its callbacks. */
    method StartRound() returns (expire: seq<Entry>, time: int)
      requires Indexed(heap, timers, active)
      modifies this
      ensures View() == BeginRead(old(View())) && expire == batch && time == now
      ensures |expire| == ExpiredCount(old(timers), clock)
    {
      time := clock;
      ReadTimerFd(time);
      expire := GetExpired(time);
      EnterCallbacks();
    }

    /** `script` is what happens during the callbacks of the expired timers, one list each. */
    method HandleRead(script: seq<seq<Step>>)
      requires Inv(View()) && !calling
      requires |script| == ExpiredCount(timers, clock)
      requires forall i, j :: 0 <= i < |script| && 0 <= j < |script[i]| ==> CallbackStep(script[i][j])
      requires Possible(BeginRead(View()), RoundSteps(script))
      modifies this
      ensures View() == EndRead(Run(BeginRead(old(View())), RoundSteps(script)))
    {
      BeginKeeps(View());
      BeginForm(View());
      var expire, time := StartRound();
      RunExpired(expire, script);
      FinishRound(expire, time);
    }

    /** The loop of handleRead. */
    method RunExpired(expire: seq<Entry>, script: seq<seq<Step>>)
      requires Inv(View()) && calling && next == 0 && batch == expire
      requires |script| == |expire| && Possible(View(), RoundSteps(script))
      requires forall i, j :: 0 <= i < |script| && 0 <= j < |script[i]| ==> CallbackStep(script[i][j])
      modifies this
      ensures Inv(View()) && View() == Run(old(View()), RoundSteps(script))
      ensures calling && next == |batch| && batch == expire && now == old(now)
    {
      ghost var goal := Run(View(), RoundSteps(script));
      assert script[0..] == script;
      var i := 0;
      while i < |expire|
        invariant 0 <= i <= |expire| == |script|
        invariant Inv(View()) && Possible(View(), RoundSteps(script[i..])) && Run(View(), RoundSteps(script[i..])) == goal
        invariant calling && next == i && batch == expire && now == old(now)
      {
        assert script[i..][1..] == script[i + 1..];
        RunCallback(expire[i], script[i], RoundSteps(script[i + 1..]));
        i := i + 1;
      }
    }

    /** handleRead after its callbacks. */
    method FinishRound(expire: seq<Entry>, time: int)
      requires Inv(View()) && calling && next == |batch| && batch == expire && now == time
      modifies this
      ensures View() == EndRead(old(View()))
    {
      calling := false;
      next := 0;
      Reset(expire, time);
    }
  }
}

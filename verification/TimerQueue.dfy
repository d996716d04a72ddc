/**
 timerQueue.cpp and timer.cpp: two indexes over the same timers, manual memory, re-entrant callbacks and a
 one-shot timerfd.

 The index key. The source builds every ActiveTimer key from numCreated(), the global counter at the moment
 of the call, where the per-timer sequence_ is plainly meant; TimerKeys shows when the code as written
 fails its own assertion. Here the key is the timer's own sequence_.

 Times are microseconds and one clock is assumed for gettimeofday and CLOCK_MONOTONIC. Addresses are
 numbers; the allocator may reuse a freed one. A handleRead is split at its callbacks, between which
 any number of adds and cancels may happen; every failed assert(), use of a freed timer or double
 delete sets `fault`.
 */
module TimerQueues {

  const MIN_DELAY: int := 100

  datatype Timer = Timer(expiration: int, repeat: bool, interval: int, sequence: nat)

  datatype Entry = Entry(when_: int, addr: nat)

  /** TimerId and ActiveTimer: an address and the number of the timer that was created there. */
  datatype Id = Id(addr: nat, sequence: nat)

  /** The timerfd: disarmed, armed at `since` to fire at `deadline`, or expired and unread. */
  datatype TimerFd = Disarmed | Armed(deadline: int, since: int) | Fired

  /** A timer's run(): which timer, in which handleRead, and the `now` of that. */
  datatype Ran = Ran(sequence: nat, round: nat, at: int)

  /** `inflight` are timers allocated by addTimer whose addTimerInloop has not run; `batch` and `next` are the
      expired vector of handleRead and its iterator; `round` counts handleRead calls; `ran` and `freed` are history. */
  datatype Queue = Queue(
    heap: map<nat, Timer>, inflight: set<nat>, created: nat,
    timers: seq<Entry>, active: set<Id>, canceling: set<Id>, calling: bool,
    batch: seq<Entry>, next: nat, now: int,
    clock: int, fd: TimerFd,
    round: nat, ran: seq<Ran>, freed: set<nat>, fault: bool)

  const EMPTY := Queue(map[], {}, 0, [], {}, {}, false, [], 0, 0, 1, Disarmed, 0, [], {}, false)

  // ---------------------------------------------------------------- the ordered set

  predicate Before(a: Entry, b: Entry) {
    a.when_ < b.when_ || (a.when_ == b.when_ && a.addr < b.addr)
  }

  ghost predicate Sorted(ts: seq<Entry>) {
    forall i, j :: 0 <= i < j < |ts| ==> Before(ts[i], ts[j])
  }

  /** std::set::emplace. */
  function Place(ts: seq<Entry>, e: Entry): seq<Entry> {
    if ts == [] || Before(e, ts[0]) then [e] + ts
    else if e == ts[0] then ts
    else [ts[0]] + Place(ts[1..], e)
  }

  /** std::set::erase of a key. */
  function Without(ts: seq<Entry>, e: Entry): seq<Entry> {
    if ts == [] then [] else if ts[0] == e then ts[1..] else [ts[0]] + Without(ts[1..], e)
  }

  /** The number of entries before lower_bound of (now, UINTPTR_MAX). */
  function ExpiredCount(ts: seq<Entry>, now: int): (n: nat)
    ensures n <= |ts|
  {
    if ts == [] || now < ts[0].when_ then 0 else 1 + ExpiredCount(ts[1..], now)
  }

  lemma {:induction false} PlaceSorted(ts: seq<Entry>, e: Entry)
    requires Sorted(ts)
    ensures Sorted(Place(ts, e))
    ensures forall x :: x in Place(ts, e) <==> x in ts || x == e
    ensures Place(ts, e)[0] == if ts == [] || Before(e, ts[0]) then e else ts[0]
  {
    if ts != [] && !Before(e, ts[0]) && e != ts[0] {
      PlaceSorted(ts[1..], e);
      var r := Place(ts[1..], e);
      assert forall j :: 0 <= j < |r| ==> r[j] in r;
      assert forall x :: x in ts[1..] ==> Before(ts[0], x);
      assert ts == [ts[0]] + ts[1..];
    }
  }

  lemma {:induction false} WithoutSorted(ts: seq<Entry>, e: Entry)
    requires Sorted(ts)
    ensures Sorted(Without(ts, e))
    ensures forall x :: x in Without(ts, e) <==> x in ts && x != e
  {
    if ts != [] {
      assert ts == [ts[0]] + ts[1..];
      assert forall x :: x in ts[1..] ==> Before(ts[0], x);
      if ts[0] != e {
        WithoutSorted(ts[1..], e);
        var r := Without(ts[1..], e);
        assert forall j :: 0 <= j < |r| ==> r[j] in r;
      }
    }
  }

  /** getExpired cuts the ordered set exactly at `now`. */
  lemma {:induction false} ExpiredSplit(ts: seq<Entry>, now: int)
    requires Sorted(ts)
    ensures var n := ExpiredCount(ts, now);
            && (forall e :: e in ts[..n] <==> e in ts && e.when_ <= now)
            && (forall e :: e in ts[n..] <==> e in ts && now < e.when_)
            && Sorted(ts[..n]) && Sorted(ts[n..])
  {
    var n := ExpiredCount(ts, now);
    if ts == [] {
    } else if now < ts[0].when_ {
      assert forall x :: x in ts ==> x == ts[0] || Before(ts[0], x);
    } else {
      ExpiredSplit(ts[1..], now);
      assert ts == [ts[0]] + ts[1..];
      assert ts[..n] == [ts[0]] + ts[1..][..n - 1];
      assert ts[n..] == ts[1..][n - 1..];
    }
  }

  // ---------------------------------------------------------------- the operations

  function Check(q: Queue, holds: bool): Queue {
    if holds then q else q.(fault := true)
  }

  function EntryAt(heap: map<nat, Timer>, addr: nat): Entry
    requires addr in heap
  {
    Entry(heap[addr].expiration, addr)
  }

  function IdAt(heap: map<nat, Timer>, addr: nat): Id
    requires addr in heap
  {
    Id(addr, heap[addr].sequence)
  }

  /** howMuchTimeFromNow and timerfd_settime. */
  function Arm(q: Queue, when_: int): Queue {
    var delay := if when_ - q.clock < MIN_DELAY then MIN_DELAY else when_ - q.clock;
    q.(fd := Armed(q.clock + delay, q.clock))
  }

  predicate BecomesEarliest(q: Queue, when_: int) {
    q.timers == [] || when_ < q.timers[0].when_
  }

  function Insert(q: Queue, addr: nat): Queue
    requires addr in q.heap
  {
    var e, id := EntryAt(q.heap, addr), IdAt(q.heap, addr);
    Check(q, e !in q.timers && id !in q.active).(timers := Place(q.timers, e), active := q.active + {id})
  }

  /** delete */
  function Free(q: Queue, addr: nat): Queue {
    if addr !in q.heap then q.(fault := true)
    else q.(heap := q.heap - {addr}, freed := q.freed + {q.heap[addr].sequence})
  }

  /** addTimer's `new Timer`. */
  function Alloc(q: Queue, addr: nat, when_: int, repeat: bool, interval: int): Queue {
    q.(heap := q.heap[addr := Timer(when_, repeat, interval, q.created)],
       inflight := q.inflight + {addr}, created := q.created + 1)
  }

  function AddInLoop(q: Queue, addr: nat): Queue
    requires addr in q.heap
  {
    var when_ := q.heap[addr].expiration;
    var q1 := Insert(q.(inflight := q.inflight - {addr}), addr);
    if BecomesEarliest(q, when_) then Arm(q1, when_) else q1
  }

  function CancelInLoop(q: Queue, id: Id): Queue {
    var q0 := Check(q, |q.timers| == |q.active|);
    if id in q.active then
      if id.addr !in q.heap then q0.(fault := true)
      else
        var e := EntryAt(q.heap, id.addr);
        Free(Check(q0, e in q.timers).(timers := Without(q.timers, e), active := q.active - {id}), id.addr)
    else if q.calling then q0.(canceling := q.canceling + {id})
    else q0
  }

  /** The loop of getExpired over the expired entries. */
  function EraseActive(q: Queue, es: seq<Entry>): Queue
    decreases |es|
  {
    if es == [] then q
    else if es[0].addr !in q.heap then EraseActive(q.(fault := true), es[1..])
    else
      var id := IdAt(q.heap, es[0].addr);
      EraseActive(Check(q, id in q.active).(active := q.active - {id}), es[1..])
  }

  function GetExpired(q: Queue, now: int): Queue {
    var n := ExpiredCount(q.timers, now);
    EraseActive(q.(timers := q.timers[n..], batch := q.timers[..n]), q.timers[..n])
  }

  /** handleRead up to its first callback. */
  function BeginRead(q: Queue): Queue {
    var q1 := GetExpired(q.(now := q.clock, fd := if q.fd == Fired then Disarmed else q.fd), q.clock);
    q1.(calling := true, canceling := {}, next := 0, round := q.round + 1)
  }

  /** One timer's run(). */
  function RunNext(q: Queue): Queue
    requires q.next < |q.batch|
  {
    var addr := q.batch[q.next].addr;
    if addr !in q.heap then q.(fault := true, next := q.next + 1)
    else q.(ran := q.ran + [Ran(q.heap[addr].sequence, q.round, q.now)], next := q.next + 1)
  }

  /** One iteration of reset: the head of `batch` is restarted and re-inserted, or deleted. */
  function ResetOne(q: Queue): Queue
    requires q.batch != []
  {
    var addr := q.batch[0].addr;
    var q1 := q.(batch := q.batch[1..]);
    if addr !in q.heap then q1.(fault := true)
    else
      var t := q.heap[addr];
      if t.repeat && IdAt(q.heap, addr) !in q.canceling
      then Insert(q1.(heap := q.heap[addr := t.(expiration := q.now + t.interval)]), addr)
      else Free(q1, addr)
  }

  function ResetAll(q: Queue): Queue
    decreases |q.batch|
  {
    if q.batch == [] then q else ResetAll(ResetOne(q))
  }

  /** handleRead after its last callback. */
  function EndRead(q: Queue): Queue {
    var q1 := ResetAll(q.(calling := false, next := 0));
    if q1.timers != [] && q1.timers[0].when_ > 0 then Arm(q1, q1.timers[0].when_) else q1
  }

  function Tick(q: Queue, d: nat): Queue {
    var clock := q.clock + d;
    q.(clock := clock, fd := if q.fd.Armed? && q.fd.deadline <= clock then Fired else q.fd)
  }

  datatype Step =
    | DoAlloc(addr: nat, when_: int, repeat: bool, interval: int)
    | DoAdd(addr: nat)
    | DoCancel(id: Id)
    | DoBegin
    | DoRun
    | DoEnd
    | DoTick(d: nat)

  predicate Enabled(q: Queue, s: Step) {
    match s
    case DoAlloc(addr, _, repeat, interval) => addr !in q.heap && (repeat ==> interval >= 0)
    case DoAdd(addr) => addr in q.inflight && addr in q.heap
    case DoCancel(_) => true
    case DoBegin => !q.calling
    case DoRun => q.calling && q.next < |q.batch|
    case DoEnd => q.calling && q.next >= |q.batch|
    case DoTick(_) => true
  }

  function Apply(q: Queue, s: Step): Queue
    requires Enabled(q, s)
  {
    match s
    case DoAlloc(addr, when_, repeat, interval) => Alloc(q, addr, when_, repeat, interval)
    case DoAdd(addr) => AddInLoop(q, addr)
    case DoCancel(id) => CancelInLoop(q, id)
    case DoBegin => BeginRead(q)
    case DoRun => RunNext(q)
    case DoEnd => EndRead(q)
    case DoTick(d) => Tick(q, d)
  }

  predicate Possible(q: Queue, steps: seq<Step>)
    decreases |steps|
  {
    steps == [] || (Enabled(q, steps[0]) && Possible(Apply(q, steps[0]), steps[1..]))
  }

  function Run(q: Queue, steps: seq<Step>): Queue
    requires Possible(q, steps)
    decreases |steps|
  {
    if steps == [] then q else Run(Apply(q, steps[0]), steps[1..])
  }

  // ---------------------------------------------------------------- the invariant

  /** The timer at `addr` is filed in a list of entries. */
  predicate Filed(heap: map<nat, Timer>, es: seq<Entry>, addr: nat) {
    addr in heap && EntryAt(heap, addr) in es
  }

  ghost predicate Pointing(heap: map<nat, Timer>, es: seq<Entry>) {
    Sorted(es) && forall e :: e in es ==> e.addr in heap && e == EntryAt(heap, e.addr)
  }

  /** timers_ and activeTiemrs_ hold the same timers. */
  ghost predicate Indexed(heap: map<nat, Timer>, timers: seq<Entry>, active: set<Id>) {
    && Pointing(heap, timers)
    && (forall id :: id in active <==> Filed(heap, timers, id.addr) && id == IdAt(heap, id.addr))
    && |timers| == |active|
  }

  /** Every live timer is in exactly one place. */
  ghost predicate Placed(heap: map<nat, Timer>, inflight: set<nat>, timers: seq<Entry>, batch: seq<Entry>) {
    && (forall a :: a in heap ==> a in inflight || Filed(heap, timers, a) || Filed(heap, batch, a))
    && (forall a :: a in inflight ==> a in heap && !Filed(heap, timers, a) && !Filed(heap, batch, a))
    && (forall a :: a in heap ==> !(Filed(heap, timers, a) && Filed(heap, batch, a)))
  }

  ghost predicate Lives(heap: map<nat, Timer>, s: nat) {
    exists addr :: addr in heap && heap[addr].sequence == s
  }

  /** The numbers given out are those of the live timers, each once, and of the freed ones. */
  ghost predicate Numbered(heap: map<nat, Timer>, created: nat, freed: set<nat>) {
    && (forall a :: a in heap ==> heap[a].sequence < created && heap[a].sequence !in freed)
    && (forall a, b :: a in heap && b in heap && heap[a].sequence == heap[b].sequence ==> a == b)
    && (forall s :: s in freed ==> s < created)
    && (forall s :: 0 <= s < created ==> s in freed || Lives(heap, s))
  }

  ghost predicate Repeating(heap: map<nat, Timer>) {
    forall a :: a in heap && heap[a].repeat ==> heap[a].interval >= 0
  }

  ghost predicate Core(q: Queue) {
    && !q.fault
    && Indexed(q.heap, q.timers, q.active)
    && Pointing(q.heap, q.batch)
    && Placed(q.heap, q.inflight, q.timers, q.batch)
    && Numbered(q.heap, q.created, q.freed)
    && Repeating(q.heap)
    && (forall e :: e in q.batch ==> e.when_ <= q.now)
    && 0 < q.clock && q.now <= q.clock
  }

  ghost predicate Inv(q: Queue) {
    && Core(q)
    && q.next <= |q.batch|
    && (!q.calling ==> q.batch == [])
    && (q.calling ==> 0 < q.now)
  }

  lemma PlaceLength(ts: seq<Entry>, e: Entry)
    requires e !in ts
    ensures |Place(ts, e)| == |ts| + 1
  {
  }

  lemma WithoutLength(ts: seq<Entry>, e: Entry)
    requires e in ts
    ensures |Without(ts, e)| == |ts| - 1
  {
  }

  predicate BecomesFirst(ts: seq<Entry>, e: Entry) {
    ts == [] || Before(e, ts[0])
  }

  lemma InsertIndexed(heap: map<nat, Timer>, timers: seq<Entry>, active: set<Id>, addr: nat)
    requires Indexed(heap, timers, active) && addr in heap && !Filed(heap, timers, addr)
    ensures IdAt(heap, addr) !in active
    ensures var e := EntryAt(heap, addr);
            var ts := Place(timers, e);
            && Indexed(heap, ts, active + {IdAt(heap, addr)})
            && (forall x :: x in ts <==> x in timers || x == e)
            && ts != [] && ts[0] == if BecomesFirst(timers, e) then e else timers[0]
  {
    PlaceSorted(timers, EntryAt(heap, addr));
    PlaceLength(timers, EntryAt(heap, addr));
  }

  lemma AllocNumbered(heap: map<nat, Timer>, created: nat, freed: set<nat>, addr: nat, t: Timer)
    requires Numbered(heap, created, freed) && addr !in heap && t.sequence == created
    ensures Numbered(heap[addr := t], created + 1, freed)
  {
    forall s | 0 <= s < created + 1 ensures s in freed || Lives(heap[addr := t], s)
    {
      if s == created {
        assert heap[addr := t][addr].sequence == s;
      } else if s !in freed {
        assert Lives(heap, s);
        var a :| a in heap && heap[a].sequence == s;
        assert a in heap[addr := t] && heap[addr := t][a].sequence == s;
      }
    }
  }

  lemma FreeNumbered(heap: map<nat, Timer>, created: nat, freed: set<nat>, addr: nat)
    requires Numbered(heap, created, freed) && addr in heap
    ensures Numbered(heap - {addr}, created, freed + {heap[addr].sequence})
  {
    var h := heap - {addr};
    forall s | 0 <= s < created ensures s in freed + {heap[addr].sequence} || Lives(h, s)
    {
      if s !in freed && s != heap[addr].sequence {
        assert Lives(heap, s);
        var a :| a in heap && heap[a].sequence == s;
        assert a in h && h[a].sequence == s;
      }
    }
  }

  lemma RestartNumbered(heap: map<nat, Timer>, created: nat, freed: set<nat>, addr: nat, when_: int)
    requires Numbered(heap, created, freed) && addr in heap
    ensures Numbered(heap[addr := heap[addr].(expiration := when_)], created, freed)
  {
    var h := heap[addr := heap[addr].(expiration := when_)];
    forall s | 0 <= s < created ensures s in freed || Lives(h, s)
    {
      if s !in freed {
        assert Lives(heap, s);
        var a :| a in heap && heap[a].sequence == s;
        assert a in h && h[a].sequence == s;
      }
    }
  }

  lemma AllocPlaced(heap: map<nat, Timer>, inflight: set<nat>, timers: seq<Entry>, batch: seq<Entry>, active: set<Id>,
                    addr: nat, t: Timer)
    requires Placed(heap, inflight, timers, batch) && addr !in heap
    requires Indexed(heap, timers, active) && Pointing(heap, batch)
    ensures var h := heap[addr := t];
            Placed(h, inflight + {addr}, timers, batch) && Indexed(h, timers, active) && Pointing(h, batch)
  {
    var h := heap[addr := t];
    assert forall a :: a in heap ==> h[a] == heap[a];
    assert !Filed(h, timers, addr) && !Filed(h, batch, addr);
    assert forall a :: a in heap ==> Filed(h, timers, a) == Filed(heap, timers, a);
    assert forall a :: a in heap ==> Filed(h, batch, a) == Filed(heap, batch, a);
  }

  lemma AllocKeeps(q: Queue, addr: nat, when_: int, repeat: bool, interval: int)
    requires Core(q) && addr !in q.heap && (repeat ==> interval >= 0)
    ensures Core(Alloc(q, addr, when_, repeat, interval))
  {
    var t := Timer(when_, repeat, interval, q.created);
    AllocNumbered(q.heap, q.created, q.freed, addr, t);
    AllocPlaced(q.heap, q.inflight, q.timers, q.batch, q.active, addr, t);
    assert Repeating(q.heap[addr := t]);
  }

  lemma AddPlaced(heap: map<nat, Timer>, inflight: set<nat>, timers: seq<Entry>, batch: seq<Entry>, ts: seq<Entry>, addr: nat)
    requires Placed(heap, inflight, timers, batch) && addr in heap
    requires !Filed(heap, timers, addr) && !Filed(heap, batch, addr)
    requires forall x :: x in ts <==> x in timers || x == EntryAt(heap, addr)
    ensures Placed(heap, inflight - {addr}, ts, batch)
  {
    assert forall a :: a in heap ==> (Filed(heap, ts, a) <==> Filed(heap, timers, a) || a == addr);
  }

  lemma AddKeeps(q: Queue, addr: nat)
    requires Core(q) && addr in q.inflight
    ensures Core(AddInLoop(q, addr))
  {
    InsertIndexed(q.heap, q.timers, q.active, addr);
    AddPlaced(q.heap, q.inflight, q.timers, q.batch, Place(q.timers, EntryAt(q.heap, addr)), addr);
  }

  lemma CancelIndexed(heap: map<nat, Timer>, timers: seq<Entry>, active: set<Id>, id: Id)
    requires Indexed(heap, timers, active) && id in active
    ensures var ts := Without(timers, EntryAt(heap, id.addr));
            && Indexed(heap - {id.addr}, ts, active - {id})
            && (forall x :: x in ts <==> x in timers && x != EntryAt(heap, id.addr))
  {
    WithoutSorted(timers, EntryAt(heap, id.addr));
    WithoutLength(timers, EntryAt(heap, id.addr));
  }

  lemma FreePlaced(heap: map<nat, Timer>, inflight: set<nat>, timers: seq<Entry>, batch: seq<Entry>,
                   ts: seq<Entry>, bs: seq<Entry>, addr: nat)
    requires Placed(heap, inflight, timers, batch) && addr in heap && addr !in inflight
    requires forall x :: x in ts <==> x in timers && x != EntryAt(heap, addr)
    requires forall x :: x in bs <==> x in batch && x != EntryAt(heap, addr)
    ensures Placed(heap - {addr}, inflight, ts, bs)
  {
    var h := heap - {addr};
    assert forall a :: a in h ==> EntryAt(h, a) == EntryAt(heap, a) && EntryAt(h, a) != EntryAt(heap, addr);
    assert forall a :: a in h ==> Filed(h, ts, a) == Filed(heap, timers, a) && Filed(h, bs, a) == Filed(heap, batch, a);
  }

  lemma FreePointing(heap: map<nat, Timer>, es: seq<Entry>, addr: nat)
    requires Pointing(heap, es) && !Filed(heap, es, addr)
    ensures Pointing(heap - {addr}, es)
  {
  }

  /** A cancel that finds its timer unfiles and deletes exactly that one. */
  lemma CancelForm(q: Queue, id: Id)
    requires !q.fault && Indexed(q.heap, q.timers, q.active) && id in q.active
    ensures id.addr in q.heap && q.heap[id.addr].sequence == id.sequence
    ensures CancelInLoop(q, id) ==
            q.(heap := q.heap - {id.addr}, timers := Without(q.timers, EntryAt(q.heap, id.addr)),
               active := q.active - {id}, freed := q.freed + {id.sequence})
  {
    assert Filed(q.heap, q.timers, id.addr);
  }

  lemma CancelKeeps(q: Queue, id: Id)
    requires Core(q)
    ensures Core(CancelInLoop(q, id))
  {
    if id in q.active {
      CancelForm(q, id);
      var e := EntryAt(q.heap, id.addr);
      assert Filed(q.heap, q.timers, id.addr);
      CancelIndexed(q.heap, q.timers, q.active, id);
      FreeNumbered(q.heap, q.created, q.freed, id.addr);
      assert !Filed(q.heap, q.batch, id.addr);
      FreePlaced(q.heap, q.inflight, q.timers, q.batch, Without(q.timers, e), q.batch, id.addr);
      FreePointing(q.heap, q.batch, id.addr);
    }
  }

  lemma NoEntryAt(heap: map<nat, Timer>, es: seq<Entry>, addr: nat)
    requires Pointing(heap, es) && addr in heap && !Filed(heap, es, addr)
    ensures forall e :: e in es ==> e.addr != addr
  {
  }

  lemma TailPointing(heap: map<nat, Timer>, es: seq<Entry>)
    requires Pointing(heap, es) && es != []
    ensures Pointing(heap, es[1..]) && Filed(heap, es, es[0].addr)
    ensures forall x :: x in es[1..] <==> x in es && x != es[0]
    ensures forall x :: x in es[1..] ==> x.addr != es[0].addr
  {
    assert es == [es[0]] + es[1..];
    assert forall x :: x in es[1..] ==> Before(es[0], x);
  }

  /** getExpired finds the key of every expired entry. */
  lemma {:induction false} EraseActiveForm(q: Queue, es: seq<Entry>)
    requires Pointing(q.heap, es)
    requires forall id :: id in q.active ==> id.addr in q.heap && id == IdAt(q.heap, id.addr)
    requires forall e :: e in es ==> IdAt(q.heap, e.addr) in q.active
    ensures var r := EraseActive(q, es);
            && r == q.(active := r.active)
            && (forall id :: id in r.active <==> id in q.active && !Filed(q.heap, es, id.addr))
            && |r.active| == |q.active| - |es|
    decreases |es|
  {
    if es != [] {
      TailPointing(q.heap, es);
      var id := IdAt(q.heap, es[0].addr);
      assert id in q.active;
      EraseActiveForm(q.(active := q.active - {id}), es[1..]);
      assert forall a :: a in q.heap ==> (Filed(q.heap, es, a) <==> Filed(q.heap, es[1..], a) || a == es[0].addr);
    }
  }

  lemma BeginIndexed(heap: map<nat, Timer>, timers: seq<Entry>, active: set<Id>, now: int, left: set<Id>)
    requires Indexed(heap, timers, active)
    requires var n := ExpiredCount(timers, now);
             && (forall id :: id in left <==> id in active && !Filed(heap, timers[..n], id.addr))
             && |left| == |active| - n
    ensures var n := ExpiredCount(timers, now);
            && Indexed(heap, timers[n..], left)
            && Pointing(heap, timers[..n])
            && (forall e :: e in timers[..n] <==> e in timers && e.when_ <= now)
            && (forall e :: e in timers[n..] <==> e in timers && now < e.when_)
  {
    ExpiredSplit(timers, now);
    var n := ExpiredCount(timers, now);
    assert forall a :: a in heap ==>
      (Filed(heap, timers[n..], a) <==> Filed(heap, timers, a) && !Filed(heap, timers[..n], a));
  }

  lemma DueAreActive(heap: map<nat, Timer>, timers: seq<Entry>, active: set<Id>, now: int)
    requires Indexed(heap, timers, active)
    ensures var n := ExpiredCount(timers, now);
            Pointing(heap, timers[..n]) && forall e :: e in timers[..n] ==> IdAt(heap, e.addr) in active
  {
    ExpiredSplit(timers, now);
    forall e | e in timers[..ExpiredCount(timers, now)] ensures IdAt(heap, e.addr) in active
    {
      assert Filed(heap, timers, e.addr);
    }
  }

  /** The form of handleRead's first half: the batch is exactly what has expired, in order; the rest stays indexed. */
  lemma BeginForm(q: Queue)
    requires Inv(q) && !q.calling
    ensures var r := BeginRead(q);
            var n := ExpiredCount(q.timers, q.clock);
            && r == q.(now := q.clock, fd := if q.fd == Fired then Disarmed else q.fd, timers := q.timers[n..],
                       batch := q.timers[..n], active := r.active, calling := true, canceling := {}, next := 0,
                       round := q.round + 1)
            && Indexed(q.heap, r.timers, r.active)
            && Pointing(q.heap, r.batch)
            && (forall e :: e in r.batch <==> e in q.timers && e.when_ <= q.clock)
            && (forall e :: e in r.timers <==> e in q.timers && q.clock < e.when_)
  {
    var q0 := q.(now := q.clock, fd := if q.fd == Fired then Disarmed else q.fd);
    ExpiredForm(q0, q.clock);
    BeginIndexed(q.heap, q.timers, q.active, q.clock, GetExpired(q0, q.clock).active);
  }

  lemma ExpiredForm(q: Queue, now: int)
    requires Indexed(q.heap, q.timers, q.active)
    ensures var r := GetExpired(q, now);
            var n := ExpiredCount(q.timers, now);
            && r == q.(timers := q.timers[n..], batch := q.timers[..n], active := r.active)
            && (forall id :: id in r.active <==> id in q.active && !Filed(q.heap, q.timers[..n], id.addr))
            && |r.active| == |q.active| - n
  {
    var n := ExpiredCount(q.timers, now);
    DueAreActive(q.heap, q.timers, q.active, now);
    assert forall id :: id in q.active ==> id.addr in q.heap && id == IdAt(q.heap, id.addr);
    EraseActiveForm(q.(timers := q.timers[n..], batch := q.timers[..n]), q.timers[..n]);
  }

  lemma BeginPlaced(heap: map<nat, Timer>, inflight: set<nat>, timers: seq<Entry>, late: seq<Entry>, due: seq<Entry>, now: int)
    requires Placed(heap, inflight, timers, [])
    requires forall e :: e in due <==> e in timers && e.when_ <= now
    requires forall e :: e in late <==> e in timers && now < e.when_
    ensures Placed(heap, inflight, late, due)
  {
    assert forall a :: a in heap ==> !Filed(heap, [], a);
    assert forall a :: a in heap ==> (Filed(heap, timers, a) <==> Filed(heap, late, a) || Filed(heap, due, a));
    assert forall a :: a in heap ==> !(Filed(heap, late, a) && Filed(heap, due, a));
  }

  lemma BeginKeeps(q: Queue)
    requires Inv(q) && !q.calling
    ensures Inv(BeginRead(q))
  {
    BeginForm(q);
    var r := BeginRead(q);
    BeginPlaced(q.heap, q.inflight, q.timers, r.timers, r.batch, q.clock);
  }

  lemma RunKeeps(q: Queue)
    requires Inv(q) && q.calling && q.next < |q.batch|
    ensures Inv(RunNext(q))
    ensures RunNext(q).ran == q.ran + [Ran(q.heap[q.batch[q.next].addr].sequence, q.round, q.now)]
  {
    assert q.batch[q.next] in q.batch;
  }

  lemma RestartIndexed(heap: map<nat, Timer>, timers: seq<Entry>, active: set<Id>, addr: nat, when_: int)
    requires Indexed(heap, timers, active) && addr in heap && !Filed(heap, timers, addr)
    ensures var h := heap[addr := heap[addr].(expiration := when_)];
            Indexed(h, timers, active) && !Filed(h, timers, addr)
            && forall a :: a in heap && a != addr ==> Filed(h, timers, a) == Filed(heap, timers, a)
  {
    NoEntryAt(heap, timers, addr);
    var h := heap[addr := heap[addr].(expiration := when_)];
    assert forall a :: a in heap && a != addr ==> EntryAt(h, a) == EntryAt(heap, a);
  }

  lemma RestartPlaced(heap: map<nat, Timer>, inflight: set<nat>, timers: seq<Entry>, batch: seq<Entry>,
                      ts: seq<Entry>, when_: int)
    requires Placed(heap, inflight, timers, batch) && Pointing(heap, batch) && batch != [] && Pointing(heap, timers)
    requires var addr := batch[0].addr;
             addr in heap && forall x :: x in ts <==> x in timers || x == Entry(when_, addr)
    ensures var addr := batch[0].addr;
            var h := heap[addr := heap[addr].(expiration := when_)];
            Placed(h, inflight, ts, batch[1..]) && Pointing(h, batch[1..])
  {
    var addr := batch[0].addr;
    var h := heap[addr := heap[addr].(expiration := when_)];
    TailPointing(heap, batch);
    assert Filed(heap, batch, addr);
    NoEntryAt(heap, timers, addr);
    assert forall a :: a in heap && a != addr ==> EntryAt(h, a) == EntryAt(heap, a);
    assert forall a :: a in heap && a != addr ==> Filed(h, ts, a) == Filed(heap, timers, a);
    assert forall a :: a in heap && a != addr ==> Filed(h, batch[1..], a) == Filed(heap, batch, a);
    assert Filed(h, ts, addr) && !Filed(h, batch[1..], addr);
  }

  predicate Restarts(q: Queue, addr: nat)
    requires addr in q.heap
  {
    q.heap[addr].repeat && IdAt(q.heap, addr) !in q.canceling
  }

  function Restarted(q: Queue, addr: nat): Timer
    requires addr in q.heap
  {
    q.heap[addr].(expiration := q.now + q.heap[addr].interval)
  }

  lemma InsertForm(q: Queue, addr: nat)
    requires Indexed(q.heap, q.timers, q.active) && addr in q.heap && !Filed(q.heap, q.timers, addr)
    ensures Insert(q, addr) ==
            q.(timers := Place(q.timers, EntryAt(q.heap, addr)), active := q.active + {IdAt(q.heap, addr)})
  {
    InsertIndexed(q.heap, q.timers, q.active, addr);
  }

  /** The head of the batch is live and filed nowhere else. */
  lemma HeadOfBatch(q: Queue)
    requires Core(q) && q.batch != []
    ensures var addr := q.batch[0].addr;
            addr in q.heap && EntryAt(q.heap, addr) == q.batch[0] && Filed(q.heap, q.batch, addr)
            && !Filed(q.heap, q.timers, addr) && addr !in q.inflight
  {
    TailPointing(q.heap, q.batch);
  }

  lemma RestartForm(q: Queue, addr: nat)
    requires q.batch != [] && addr == q.batch[0].addr && addr in q.heap && Restarts(q, addr)
    requires Indexed(q.heap, q.timers, q.active) && !Filed(q.heap, q.timers, addr)
    ensures var h := q.heap[addr := Restarted(q, addr)];
            ResetOne(q) == q.(heap := h, batch := q.batch[1..], timers := Place(q.timers, EntryAt(h, addr)),
                              active := q.active + {IdAt(h, addr)})
  {
    var h := q.heap[addr := Restarted(q, addr)];
    var q1 := q.(batch := q.batch[1..], heap := h);
    RestartIndexed(q.heap, q.timers, q.active, addr, q.now + q.heap[addr].interval);
    InsertForm(q1, addr);
    assert ResetOne(q) == Insert(q1, addr);
  }

  lemma RestartedIndexed(q: Queue, addr: nat)
    requires addr in q.heap && Indexed(q.heap, q.timers, q.active) && !Filed(q.heap, q.timers, addr)
    ensures var h := q.heap[addr := Restarted(q, addr)];
            var ts := Place(q.timers, EntryAt(h, addr));
            && Indexed(h, ts, q.active + {IdAt(h, addr)})
            && (forall x :: x in ts <==> x in q.timers || x == EntryAt(h, addr))
            && ts != [] && ts[0] == if BecomesFirst(q.timers, EntryAt(h, addr)) then EntryAt(h, addr) else q.timers[0]
  {
    RestartIndexed(q.heap, q.timers, q.active, addr, q.now + q.heap[addr].interval);
    InsertIndexed(q.heap[addr := Restarted(q, addr)], q.timers, q.active, addr);
  }

  lemma ResetRestartKeeps(q: Queue)
    requires Core(q) && q.batch != [] && q.batch[0].addr in q.heap && Restarts(q, q.batch[0].addr)
    ensures Core(ResetOne(q))
  {
    var addr := q.batch[0].addr;
    var when_ := q.now + q.heap[addr].interval;
    var h := q.heap[addr := Restarted(q, addr)];
    HeadOfBatch(q);
    RestartForm(q, addr);
    RestartedIndexed(q, addr);
    RestartNumbered(q.heap, q.created, q.freed, addr, when_);
    RestartPlaced(q.heap, q.inflight, q.timers, q.batch, Place(q.timers, EntryAt(h, addr)), when_);
    RestartRest(q.heap, q.batch, addr, when_, q.now);
  }

  lemma RestartRest(heap: map<nat, Timer>, batch: seq<Entry>, addr: nat, when_: int, now: int)
    requires addr in heap && Repeating(heap) && Pointing(heap, batch) && batch != []
    requires forall e :: e in batch ==> e.when_ <= now
    ensures Repeating(heap[addr := heap[addr].(expiration := when_)])
    ensures forall e :: e in batch[1..] ==> e.when_ <= now
  {
    TailPointing(heap, batch);
  }

  lemma FreeIndexed(heap: map<nat, Timer>, timers: seq<Entry>, active: set<Id>, addr: nat)
    requires Indexed(heap, timers, active) && addr in heap && !Filed(heap, timers, addr)
    ensures Indexed(heap - {addr}, timers, active)
  {
    NoEntryAt(heap, timers, addr);
  }

  lemma ResetFreeKeeps(q: Queue)
    requires Core(q) && q.batch != [] && q.batch[0].addr in q.heap && !Restarts(q, q.batch[0].addr)
    ensures Core(ResetOne(q))
  {
    var addr := q.batch[0].addr;
    HeadOfBatch(q);
    TailPointing(q.heap, q.batch);
    FreeIndexed(q.heap, q.timers, q.active, addr);
    FreeNumbered(q.heap, q.created, q.freed, addr);
    assert EntryAt(q.heap, addr) == q.batch[0];
    FreePlaced(q.heap, q.inflight, q.timers, q.batch, q.timers, q.batch[1..], addr);
    FreePointing(q.heap, q.batch[1..], addr);
  }

  lemma ResetOneKeeps(q: Queue)
    requires Core(q) && q.batch != []
    ensures Core(ResetOne(q))
  {
    TailPointing(q.heap, q.batch);
    if Restarts(q, q.batch[0].addr) {
      ResetRestartKeeps(q);
    } else {
      ResetFreeKeeps(q);
    }
  }

  lemma ResetOneFrame(q: Queue)
    requires Core(q) && q.batch != []
    ensures var r := ResetOne(q);
            r == q.(heap := r.heap, timers := r.timers, active := r.active, batch := q.batch[1..], freed := r.freed)
            && q.freed <= r.freed && r.heap.Keys <= q.heap.Keys
  {
    HeadOfBatch(q);
    if Restarts(q, q.batch[0].addr) {
      RestartForm(q, q.batch[0].addr);
    }
  }

  lemma {:induction false} ResetAllKeeps(q: Queue)
    requires Core(q)
    ensures Core(ResetAll(q)) && ResetAll(q).batch == []
    decreases |q.batch|
  {
    if q.batch != [] {
      ResetOneKeeps(q);
      HeadOfBatch(q);
      ResetOneFrame(q);
      ResetAllKeeps(ResetOne(q));
    }
  }

  lemma {:induction false} ResetAllFrame(q: Queue)
    requires Core(q)
    ensures var r := ResetAll(q);
            r == q.(heap := r.heap, timers := r.timers, active := r.active, batch := [], freed := r.freed)
            && q.freed <= r.freed && r.heap.Keys <= q.heap.Keys
    decreases |q.batch|
  {
    if q.batch != [] {
      ResetOneKeeps(q);
      HeadOfBatch(q);
      ResetOneFrame(q);
      ResetAllFrame(ResetOne(q));
    }
  }

  lemma EndKeeps(q: Queue)
    requires Inv(q) && q.calling && q.next == |q.batch|
    ensures Inv(EndRead(q))
  {
    var q0 := q.(calling := false, next := 0);
    assert Core(q0);
    ResetAllKeeps(q0);
    ResetAllFrame(q0);
  }

  lemma StepKeeps(q: Queue, s: Step)
    requires Inv(q) && Enabled(q, s)
    ensures Inv(Apply(q, s))
  {
    match s
    case DoAlloc(addr, when_, repeat, interval) => AllocKeeps(q, addr, when_, repeat, interval);
    case DoAdd(addr) => AddKeeps(q, addr);
    case DoCancel(id) => CancelKeeps(q, id);
    case DoBegin => BeginKeeps(q);
    case DoRun => RunKeeps(q);
    case DoEnd => EndKeeps(q);
    case DoTick(_) =>
  }

  lemma {:induction false} StepsKeep(q: Queue, steps: seq<Step>)
    requires Inv(q) && Possible(q, steps)
    ensures Inv(Run(q, steps))
    decreases |steps|
  {
    if steps != [] {
      StepKeeps(q, steps[0]);
      StepsKeep(Apply(q, steps[0]), steps[1..]);
    }
  }
}

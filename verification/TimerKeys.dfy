/**
 The index keys of timerQueue.cpp as written: ActiveTimer(timer, timer->numCreated()), where numCreated()
 returns the number of timers created so far in the whole program (timer.cpp), not the timer's own number.

 Timers are created by any thread, on this loop or another one, at any moment; everything else is done by the
 loop's thread. handleRead is split at each entry of getExpired and of reset. A failed assert() sets `fault` and
 ends the run. The results are stated on the operations of the run, the latest last.
 */
module TimerKeys {
  import opened TimerQueues

  /** Outside handleRead, in getExpired from index `at` on, in the callbacks, or in reset. */
  datatype Stage = Idle | Erasing(at: nat) | Calling | Resetting

  datatype Keyed = Keyed(
    heap: map<nat, Timer>, inflight: set<nat>, created: nat,
    timers: seq<Entry>, active: set<Id>, canceling: set<Id>,
    stage: Stage, batch: seq<Entry>, now: int, fault: bool)

  const NO_TIMERS := Keyed(map[], {}, 0, [], {}, {}, Idle, [], 0, false)

  datatype Op =
    | Create(addr: nat, when_: int, repeat: bool, interval: int)
    | Elsewhere
    | Insert(addr: nat)
    | Cancel(id: Id)
    | Expire(now: int)
    | EraseOne(addr: nat)
    | EnterCallbacks
    | EnterReset
    | ResetOne(addr: nat)
    | Leave

  // ---------------------------------------------------------------- what the code does

  function Check(k: Keyed, holds: bool): Keyed {
    if holds then k else k.(fault := true)
  }

  /** insert */
  function File(k: Keyed, addr: nat): Keyed
    requires addr in k.heap
  {
    var e, key := EntryAt(k.heap, addr), Id(addr, k.created);
    Check(k, e !in k.timers && key !in k.active).(timers := Place(k.timers, e), active := k.active + {key})
  }

  function CancelInLoop(k: Keyed, id: Id): Keyed {
    var k0 := Check(k, |k.timers| == |k.active|);
    if id in k.active then
      if id.addr !in k.heap then k0.(fault := true)
      else
        var e := EntryAt(k.heap, id.addr);
        Check(k0, e in k.timers).(timers := Without(k.timers, e), active := k.active - {id}, heap := k.heap - {id.addr})
    else if k.stage == Calling then k0.(canceling := k.canceling + {id})
    else k0
  }

  function ResetFirst(k: Keyed): Keyed
    requires k.batch != [] && k.batch[0].addr in k.heap
  {
    var addr := k.batch[0].addr;
    var t := k.heap[addr];
    var d := k.(batch := k.batch[1..]);
    if t.repeat && Id(addr, k.created) !in k.canceling
    then File(d.(heap := k.heap[addr := t.(expiration := k.now + t.interval)]), addr)
    else d.(heap := k.heap - {addr})
  }

  /** Where the loop's thread may add and cancel. */
  predicate OnLoop(k: Keyed) {
    k.stage == Idle || k.stage == Calling
  }

  predicate Enabled(k: Keyed, op: Op) {
    !k.fault &&
    match op
    case Create(addr, _, repeat, interval) => addr !in k.heap && (repeat ==> interval >= 0)
    case Elsewhere => true
    case Insert(addr) => OnLoop(k) && addr in k.inflight && addr in k.heap
    case Cancel(_) => OnLoop(k)
    case Expire(_) => k.stage == Idle
    case EraseOne(addr) => k.stage.Erasing? && k.stage.at < |k.batch| && k.batch[k.stage.at].addr == addr
    case EnterCallbacks => k.stage.Erasing? && k.stage.at >= |k.batch|
    case EnterReset => k.stage == Calling
    case ResetOne(addr) => k.stage == Resetting && k.batch != [] && k.batch[0].addr == addr && addr in k.heap
    case Leave => k.stage == Resetting && k.batch == []
  }

  function Apply(k: Keyed, op: Op): Keyed
    requires Enabled(k, op)
  {
    match op
    case Create(addr, when_, repeat, interval) =>
      k.(heap := k.heap[addr := Timer(when_, repeat, interval, k.created)], inflight := k.inflight + {addr},
         created := k.created + 1)
    case Elsewhere => k.(created := k.created + 1)
    case Insert(addr) => File(k.(inflight := k.inflight - {addr}), addr)
    case Cancel(id) => CancelInLoop(k, id)
    case Expire(now) =>
      var n := ExpiredCount(k.timers, now);
      k.(now := now, timers := k.timers[n..], batch := k.timers[..n], stage := Erasing(0))
    case EraseOne(addr) =>
      var key := Id(addr, k.created);
      Check(k, key in k.active).(active := k.active - {key}, stage := Erasing(k.stage.at + 1))
    case EnterCallbacks => k.(canceling := {}, stage := Calling)
    case EnterReset => k.(stage := Resetting)
    case ResetOne(_) => ResetFirst(k)
    case Leave => k.(stage := Idle)
  }

  predicate Possible(ops: seq<Op>)
    decreases |ops|, 0
  {
    ops == [] || (Possible(ops[..|ops| - 1]) && Enabled(Run(ops[..|ops| - 1]), ops[|ops| - 1]))
  }

  function Run(ops: seq<Op>): Keyed
    requires Possible(ops)
    decreases |ops|, 1
  {
    if ops == [] then NO_TIMERS else Apply(Run(ops[..|ops| - 1]), ops[|ops| - 1])
  }

  // ---------------------------------------------------------------- the history of a run

  predicate Creates(op: Op) {
    op.Create? || op.Elsewhere?
  }

  predicate Inserts(op: Op, addr: nat) {
    op == Insert(addr) || op == ResetOne(addr)
  }

  /** What numCreated() returns after these operations. */
  function Creations(ops: seq<Op>): nat {
    if ops == [] then 0
    else Creations(ops[..|ops| - 1]) + if Creates(ops[|ops| - 1]) then 1 else 0
  }

  /** What it returned when the timer at `addr` was last inserted. */
  function KeyOf(ops: seq<Op>, addr: nat): nat {
    if ops == [] then 0
    else if Inserts(ops[|ops| - 1], addr) then Creations(ops)
    else KeyOf(ops[..|ops| - 1], addr)
  }

  /** Some timer, anywhere in the program, has been created since. */
  predicate CreatedSince(ops: seq<Op>, addr: nat) {
    ops != [] && !Inserts(ops[|ops| - 1], addr) && (Creates(ops[|ops| - 1]) || CreatedSince(ops[..|ops| - 1], addr))
  }

  lemma {:induction false} KeyIsLatestIff(ops: seq<Op>, addr: nat)
    ensures KeyOf(ops, addr) <= Creations(ops)
    ensures KeyOf(ops, addr) == Creations(ops) <==> !CreatedSince(ops, addr)
    decreases |ops|
  {
    if ops != [] {
      KeyIsLatestIff(ops[..|ops| - 1], addr);
    }
  }

  lemma HistorySnoc(ops: seq<Op>, op: Op, addr: nat)
    ensures Creations(ops + [op]) == Creations(ops) + if Creates(op) then 1 else 0
    ensures KeyOf(ops + [op], addr) == if Inserts(op, addr) then Creations(ops) else KeyOf(ops, addr)
  {
    assert (ops + [op])[..|ops|] == ops;
  }

  // ---------------------------------------------------------------- the invariant

  /** The expired entries getExpired has yet to look up. */
  function Rest(k: Keyed): seq<Entry> {
    if k.stage.Erasing? && k.stage.at <= |k.batch| then k.batch[k.stage.at..] else []
  }

  /** The keys in the second index are those of the timers queued or still to be looked up. */
  ghost predicate Keys(ops: seq<Op>, heap: map<nat, Timer>, timers: seq<Entry>, rest: seq<Entry>, active: set<Id>) {
    && (forall id :: id in active <==>
          (Filed(heap, timers, id.addr) || Filed(heap, rest, id.addr)) && id.sequence == KeyOf(ops, id.addr))
    && |active| == |timers| + |rest|
  }

  ghost predicate Inv(ops: seq<Op>, k: Keyed) {
    && !k.fault
    && k.created == Creations(ops)
    && Pointing(k.heap, k.timers) && Pointing(k.heap, k.batch)
    && Placed(k.heap, k.inflight, k.timers, k.batch)
    && Keys(ops, k.heap, k.timers, Rest(k), k.active)
    && (k.stage == Idle ==> k.batch == [])
    && (k.stage.Erasing? ==> k.stage.at <= |k.batch|)
  }

  /** Operations that insert nothing leave every key as it was. */
  lemma SameKeys(ops: seq<Op>, op: Op, k: Keyed)
    requires Keys(ops, k.heap, k.timers, Rest(k), k.active) && forall a :: !Inserts(op, a)
    ensures Keys(ops + [op], k.heap, k.timers, Rest(k), k.active)
  {
    forall a ensures KeyOf(ops + [op], a) == KeyOf(ops, a) { HistorySnoc(ops, op, a); }
  }

  lemma CreateKeys(ops: seq<Op>, heap: map<nat, Timer>, inflight: set<nat>, timers: seq<Entry>, batch: seq<Entry>,
                   rest: seq<Entry>, active: set<Id>, addr: nat, t: Timer)
    requires Keys(ops, heap, timers, rest, active) && addr !in heap && Placed(heap, inflight, timers, batch)
    requires Pointing(heap, timers) && Pointing(heap, batch) && forall e :: e in rest ==> e in batch
    ensures var h := heap[addr := t];
            && Keys(ops, h, timers, rest, active) && Placed(h, inflight + {addr}, timers, batch)
            && Pointing(h, timers) && Pointing(h, batch)
  {
    var h := heap[addr := t];
    assert !Filed(h, timers, addr) && !Filed(h, batch, addr) && !Filed(h, rest, addr);
    assert forall a :: a in heap ==> h[a] == heap[a];
    assert forall a :: a != addr ==> Filed(h, timers, a) == Filed(heap, timers, a) && Filed(h, rest, a) == Filed(heap, rest, a)
                                     && Filed(h, batch, a) == Filed(heap, batch, a);
  }

  lemma CreateKeeps(ops: seq<Op>, k: Keyed, op: Op)
    requires Inv(ops, k) && Enabled(k, op) && Creates(op)
    ensures Inv(ops + [op], Apply(k, op))
  {
    HistorySnoc(ops, op, 0);
    SameKeys(ops, op, k);
    if op.Create? {
      CreateKeys(ops + [op], k.heap, k.inflight, k.timers, k.batch, Rest(k), k.active, op.addr,
                 Timer(op.when_, op.repeat, op.interval, k.created));
    }
  }

  /** Filing a timer that is not filed, under the latest key. */
  lemma FileKeys(ops: seq<Op>, op: Op, heap: map<nat, Timer>, timers: seq<Entry>, active: set<Id>, addr: nat)
    requires Keys(ops, heap, timers, [], active) && Pointing(heap, timers)
    requires addr in heap && !Filed(heap, timers, addr) && Inserts(op, addr)
    ensures var e := EntryAt(heap, addr);
            var key := Id(addr, Creations(ops));
            && e !in timers && key !in active
            && Keys(ops + [op], heap, Place(timers, e), [], active + {key}) && Pointing(heap, Place(timers, e))
            && (forall x :: x in Place(timers, e) <==> x in timers || x == e)
  {
    var e := EntryAt(heap, addr);
    PlaceSorted(timers, e);
    PlaceLength(timers, e);
    forall a ensures KeyOf(ops + [op], a) == if a == addr then Creations(ops) else KeyOf(ops, a) { HistorySnoc(ops, op, a); }
    assert forall a :: a in heap ==> (Filed(heap, Place(timers, e), a) <==> Filed(heap, timers, a) || a == addr);
  }

  lemma InsertKeeps(ops: seq<Op>, k: Keyed, addr: nat)
    requires Inv(ops, k) && Enabled(k, Insert(addr))
    ensures Inv(ops + [Insert(addr)], Apply(k, Insert(addr)))
  {
    HistorySnoc(ops, Insert(addr), addr);
    FileKeys(ops, Insert(addr), k.heap, k.timers, k.active, addr);
    AddPlaced(k.heap, k.inflight, k.timers, k.batch, Place(k.timers, EntryAt(k.heap, addr)), addr);
  }

  lemma FoundKeys(ops: seq<Op>, heap: map<nat, Timer>, timers: seq<Entry>, active: set<Id>, id: Id)
    requires Keys(ops, heap, timers, [], active) && Pointing(heap, timers) && id in active
    ensures Filed(heap, timers, id.addr)
    ensures var ts := Without(timers, EntryAt(heap, id.addr));
            && Keys(ops, heap - {id.addr}, ts, [], active - {id}) && Pointing(heap - {id.addr}, ts)
            && (forall x :: x in ts <==> x in timers && x != EntryAt(heap, id.addr))
  {
    var e := EntryAt(heap, id.addr);
    var h, ts := heap - {id.addr}, Without(timers, e);
    WithoutSorted(timers, e);
    WithoutLength(timers, e);
    assert forall a :: Filed(h, ts, a) <==> Filed(heap, timers, a) && a != id.addr;
    assert forall j :: j in active - {id} ==> j.addr != id.addr;
  }

  lemma CancelKeeps(ops: seq<Op>, k: Keyed, id: Id)
    requires Inv(ops, k) && Enabled(k, Cancel(id))
    ensures Inv(ops + [Cancel(id)], Apply(k, Cancel(id)))
  {
    HistorySnoc(ops, Cancel(id), 0);
    SameKeys(ops, Cancel(id), k);
    if id in k.active {
      FoundKeys(ops + [Cancel(id)], k.heap, k.timers, k.active, id);
      FreePlaced(k.heap, k.inflight, k.timers, k.batch, Without(k.timers, EntryAt(k.heap, id.addr)), k.batch, id.addr);
      FreePointing(k.heap, k.batch, id.addr);
    }
  }

  lemma ExpireKeeps(ops: seq<Op>, k: Keyed, now: int)
    requires Inv(ops, k) && Enabled(k, Expire(now))
    ensures Inv(ops + [Expire(now)], Apply(k, Expire(now)))
  {
    HistorySnoc(ops, Expire(now), 0);
    SameKeys(ops, Expire(now), k);
    var n := ExpiredCount(k.timers, now);
    ExpiredSplit(k.timers, now);
    BeginPlaced(k.heap, k.inflight, k.timers, k.timers[n..], k.timers[..n], now);
    assert k.timers[..n][0..] == k.timers[..n];
    assert forall a :: Filed(k.heap, k.timers, a) <==> Filed(k.heap, k.timers[n..], a) || Filed(k.heap, k.timers[..n], a);
  }

  /** The head of what is still to be looked up. */
  lemma HeadKeys(ops: seq<Op>, heap: map<nat, Timer>, timers: seq<Entry>, rest: seq<Entry>, active: set<Id>)
    requires Keys(ops, heap, timers, rest, active) && Pointing(heap, rest) && rest != []
    requires forall a :: !(Filed(heap, timers, a) && Filed(heap, rest, a))
    ensures var key := Id(rest[0].addr, KeyOf(ops, rest[0].addr));
            key in active && Keys(ops, heap, timers, rest[1..], active - {key})
    ensures forall n :: Id(rest[0].addr, n) in active <==> n == KeyOf(ops, rest[0].addr)
  {
    TailPointing(heap, rest);
    var addr := rest[0].addr;
    assert forall a :: Filed(heap, rest, a) <==> Filed(heap, rest[1..], a) || a == addr;
    assert !Filed(heap, timers, addr) && !Filed(heap, rest[1..], addr);
  }

  /** The tail of a batch points to live timers, and none of them is queued. */
  lemma RestPointing(heap: map<nat, Timer>, inflight: set<nat>, timers: seq<Entry>, batch: seq<Entry>, at: nat)
    requires Pointing(heap, batch) && Placed(heap, inflight, timers, batch) && at <= |batch|
    ensures Pointing(heap, batch[at..]) && forall a :: !(Filed(heap, timers, a) && Filed(heap, batch[at..], a))
  {
    assert forall e :: e in batch[at..] ==> e in batch;
  }

  /** getExpired's lookup succeeds exactly for the latest key. */
  lemma EraseStep(ops: seq<Op>, k: Keyed, addr: nat)
    requires Inv(ops, k) && Enabled(k, EraseOne(addr))
    ensures Apply(k, EraseOne(addr)).fault <==> CreatedSince(ops, addr)
    ensures !CreatedSince(ops, addr) ==> Inv(ops + [EraseOne(addr)], Apply(k, EraseOne(addr)))
  {
    HistorySnoc(ops, EraseOne(addr), 0);
    KeyIsLatestIff(ops, addr);
    var rest := k.batch[k.stage.at..];
    RestPointing(k.heap, k.inflight, k.timers, k.batch, k.stage.at);
    HeadKeys(ops, k.heap, k.timers, rest, k.active);
    if !CreatedSince(ops, addr) {
      var r := Apply(k, EraseOne(addr));
      assert rest[1..] == k.batch[k.stage.at + 1..] == Rest(r);
      SameKeys(ops, EraseOne(addr), r);
    }
  }

  lemma RestartKeys(ops: seq<Op>, heap: map<nat, Timer>, timers: seq<Entry>, active: set<Id>, addr: nat, when_: int)
    requires Keys(ops, heap, timers, [], active) && Pointing(heap, timers) && addr in heap && !Filed(heap, timers, addr)
    ensures var h := heap[addr := heap[addr].(expiration := when_)];
            Keys(ops, h, timers, [], active) && Pointing(h, timers) && !Filed(h, timers, addr)
  {
    NoEntryAt(heap, timers, addr);
    var h := heap[addr := heap[addr].(expiration := when_)];
    assert forall a :: Filed(h, timers, a) <==> Filed(heap, timers, a);
  }

  lemma RestartKeeps(ops: seq<Op>, k: Keyed, addr: nat)
    requires Inv(ops, k) && Enabled(k, ResetOne(addr)) && addr in ResetFirst(k).heap
    ensures Inv(ops + [ResetOne(addr)], ResetFirst(k))
  {
    var when_ := k.now + k.heap[addr].interval;
    var h := k.heap[addr := k.heap[addr].(expiration := when_)];
    HistorySnoc(ops, ResetOne(addr), addr);
    TailPointing(k.heap, k.batch);
    assert Filed(k.heap, k.batch, addr);
    RequeueKeys(ops, k.heap, k.timers, k.active, addr, when_);
    RestartPlaced(k.heap, k.inflight, k.timers, k.batch, Place(k.timers, EntryAt(h, addr)), when_);
    RequeueForm(k, addr);
  }

  lemma RequeueKeys(ops: seq<Op>, heap: map<nat, Timer>, timers: seq<Entry>, active: set<Id>, addr: nat, when_: int)
    requires Keys(ops, heap, timers, [], active) && Pointing(heap, timers) && addr in heap && !Filed(heap, timers, addr)
    ensures var h := heap[addr := heap[addr].(expiration := when_)];
            var ts, key := Place(timers, EntryAt(h, addr)), Id(addr, Creations(ops));
            && EntryAt(h, addr) !in timers && key !in active
            && Keys(ops + [ResetOne(addr)], h, ts, [], active + {key}) && Pointing(h, ts)
            && (forall x :: x in ts <==> x in timers || x == EntryAt(h, addr))
  {
    RestartKeys(ops, heap, timers, active, addr, when_);
    FileKeys(ops, ResetOne(addr), heap[addr := heap[addr].(expiration := when_)], timers, active, addr);
  }

  lemma RequeueForm(k: Keyed, addr: nat)
    requires Enabled(k, ResetOne(addr)) && addr in ResetFirst(k).heap
    requires var h := k.heap[addr := k.heap[addr].(expiration := k.now + k.heap[addr].interval)];
             EntryAt(h, addr) !in k.timers && Id(addr, k.created) !in k.active
    ensures var h := k.heap[addr := k.heap[addr].(expiration := k.now + k.heap[addr].interval)];
            ResetFirst(k) == k.(heap := h, batch := k.batch[1..], timers := Place(k.timers, EntryAt(h, addr)),
                                active := k.active + {Id(addr, k.created)})
  {
  }

  lemma FreeKeys(ops: seq<Op>, op: Op, heap: map<nat, Timer>, timers: seq<Entry>, active: set<Id>, addr: nat)
    requires Keys(ops, heap, timers, [], active) && Pointing(heap, timers) && !Filed(heap, timers, addr)
    requires forall a :: Inserts(op, a) ==> a == addr
    ensures Keys(ops + [op], heap - {addr}, timers, [], active)
  {
    var h := heap - {addr};
    forall a | a != addr ensures KeyOf(ops + [op], a) == KeyOf(ops, a) { HistorySnoc(ops, op, a); }
    assert forall a :: Filed(h, timers, a) <==> Filed(heap, timers, a) && a != addr;
  }

  lemma DropKeeps(ops: seq<Op>, k: Keyed, addr: nat)
    requires Inv(ops, k) && Enabled(k, ResetOne(addr)) && addr !in ResetFirst(k).heap
    ensures Inv(ops + [ResetOne(addr)], ResetFirst(k))
  {
    HistorySnoc(ops, ResetOne(addr), addr);
    TailPointing(k.heap, k.batch);
    assert Filed(k.heap, k.batch, addr) && EntryAt(k.heap, addr) == k.batch[0];
    FreeKeys(ops, ResetOne(addr), k.heap, k.timers, k.active, addr);
    FreePlaced(k.heap, k.inflight, k.timers, k.batch, k.timers, k.batch[1..], addr);
    FreePointing(k.heap, k.timers, addr);
    FreePointing(k.heap, k.batch[1..], addr);
  }

  lemma StageKeeps(ops: seq<Op>, k: Keyed, op: Op)
    requires Inv(ops, k) && Enabled(k, op) && (op.EnterCallbacks? || op.EnterReset? || op.Leave?)
    ensures Inv(ops + [op], Apply(k, op))
  {
    HistorySnoc(ops, op, 0);
    SameKeys(ops, op, k);
    assert Rest(k) == [] == Rest(Apply(k, op));
  }

  lemma StepKeeps(ops: seq<Op>, k: Keyed, op: Op)
    requires Inv(ops, k) && Enabled(k, op)
    ensures var fails := op.EraseOne? && CreatedSince(ops, op.addr);
            && (Apply(k, op).fault <==> fails)
            && (!fails ==> Inv(ops + [op], Apply(k, op)))
  {
    match op
    case Insert(addr) => InsertKeeps(ops, k, addr);
    case Cancel(id) => CancelKeeps(ops, k, id);
    case Expire(now) => ExpireKeeps(ops, k, now);
    case EraseOne(addr) => EraseStep(ops, k, addr);
    case ResetOne(addr) => if addr in ResetFirst(k).heap { RestartKeeps(ops, k, addr); } else { DropKeeps(ops, k, addr); }
    case Create(_, _, _, _) => CreateKeeps(ops, k, op);
    case Elsewhere => CreateKeeps(ops, k, op);
    case _ => StageKeeps(ops, k, op);
  }

  lemma NoTimersInv()
    ensures Inv([], NO_TIMERS)
  {
  }

  lemma {:induction false} RunInv(ops: seq<Op>)
    requires Possible(ops) && !Run(ops).fault
    ensures Inv(ops, Run(ops))
    decreases |ops|
  {
    if ops == [] {
      NoTimersInv();
    } else {
      var before, last := ops[..|ops| - 1], ops[|ops| - 1];
      assert before + [last] == ops;
      RunInv(before);
      StepKeeps(before, Run(before), last);
    }
  }

  // ---------------------------------------------------------------- main results

  lemma LastStep(ops: seq<Op>, op: Op)
    requires Possible(ops + [op])
    ensures Possible(ops) && Enabled(Run(ops), op) && Run(ops + [op]) == Apply(Run(ops), op)
  {
    assert (ops + [op])[..|ops|] == ops;
  }

  /** In every run, of all the assertions of the timer queue only the lookup in getExpired can fail, and it fails for
      a timer exactly when some timer, anywhere in the program, has been created since that timer was last inserted. */
  lemma FaultIff(ops: seq<Op>, op: Op)
    requires Possible(ops + [op])
    ensures Run(ops + [op]).fault <==> op.EraseOne? && CreatedSince(ops, op.addr)
  {
    LastStep(ops, op);
    RunInv(ops);
    StepKeeps(ops, Run(ops), op);
  }

  /** Over a whole run: no assertion has failed, up to its last operation, if and only if every expired timer that was
      looked up had been inserted after the latest creation. */
  lemma {:induction false} RunPassesIff(ops: seq<Op>)
    requires Possible(ops)
    ensures !Run(ops).fault <==>
            forall i :: 0 <= i < |ops| && ops[i].EraseOne? ==> !CreatedSince(ops[..i], ops[i].addr)
    decreases |ops|
  {
    if ops != [] {
      var before, last := ops[..|ops| - 1], ops[|ops| - 1];
      assert before + [last] == ops;
      FaultIff(before, last);
      RunPassesIff(before);
      assert forall i :: 0 <= i < |before| ==> before[..i] == ops[..i] && before[i] == ops[i];
    }
  }

  /** Until that assertion fails, the code as written keeps its timers in order: each live timer is in exactly one of:
      on its way to the loop, queued, in the batch; queue and batch point to live timers only; and each queued
      timer has one key. */
  lemma SafeUntilThen(ops: seq<Op>)
    requires Possible(ops) && !Run(ops).fault
    ensures var k := Run(ops);
            && (forall a :: a in k.heap ==>
                  (a in k.inflight || Filed(k.heap, k.timers, a) || Filed(k.heap, k.batch, a))
                  && !(a in k.inflight && Filed(k.heap, k.timers, a)) && !(a in k.inflight && Filed(k.heap, k.batch, a))
                  && !(Filed(k.heap, k.timers, a) && Filed(k.heap, k.batch, a)))
            && (forall e :: e in k.timers || e in k.batch ==> e.addr in k.heap && e == EntryAt(k.heap, e.addr))
            && (OnLoop(k) ==> |k.active| == |k.timers|)
            && (forall a :: Filed(k.heap, k.timers, a) ==> Id(a, KeyOf(ops, a)) in k.active)
  {
    RunInv(ops);
  }

  /** What addTimer returns after these operations, which may well include the insertion. */
  function TimerIdNow(ops: seq<Op>, addr: nat): Id {
    Id(addr, Creations(ops))
  }

  /** A cancel deletes a timer, the one at its id's address, if and only if that is queued and numCreated() was
      the same when addTimer returned the id as when the timer there was last inserted. */
  lemma CancelFindsIff(returned: seq<Op>, more: seq<Op>, addr: nat)
    requires Possible(returned + more + [Cancel(TimerIdNow(returned, addr))])
    ensures var k := Run(returned + more);
            var r := Run(returned + more + [Cancel(TimerIdNow(returned, addr))]);
            && (r.heap != k.heap <==>
                  Filed(k.heap, k.timers, addr) && Creations(returned) == KeyOf(returned + more, addr))
            && (r.heap != k.heap ==> r.heap == k.heap - {addr})
  {
    var ops, id := returned + more, TimerIdNow(returned, addr);
    LastStep(ops, Cancel(id));
    RunInv(ops);
    if id in Run(ops).active {
      FoundKeys(ops, Run(ops).heap, Run(ops).timers, Run(ops).active, id);
    }
  }

  // ---- cancelling a timer of the batch that is being run

  /** The callbacks of the round have cancelled this id. */
  predicate CancelledInRound(ops: seq<Op>, id: Id) {
    ops != [] && ops[|ops| - 1] != EnterCallbacks &&
    (ops[|ops| - 1] == Cancel(id) || CancelledInRound(ops[..|ops| - 1], id))
  }

  /** cancelingTimers_ holds, of the batch's timers, exactly what this round has cancelled. */
  ghost predicate RoundInv(ops: seq<Op>, k: Keyed) {
    k.stage == Calling || k.stage == Resetting ==>
      forall e: Entry, n: nat :: e in k.batch ==> (Id(e.addr, n) in k.canceling <==> CancelledInRound(ops, Id(e.addr, n)))
  }

  lemma RoundSnoc(ops: seq<Op>, op: Op, id: Id)
    ensures CancelledInRound(ops + [op], id) <==> op != EnterCallbacks && (op == Cancel(id) || CancelledInRound(ops, id))
  {
    assert (ops + [op])[..|ops|] == ops;
  }

  /** A timer of the batch is queued nowhere, so its cancel is never found. */
  lemma BatchNotFound(ops: seq<Op>, k: Keyed, e: Entry, n: nat)
    requires Inv(ops, k) && OnLoop(k) && e in k.batch
    ensures Id(e.addr, n) !in k.active
  {
    assert Filed(k.heap, k.batch, e.addr);
  }

  lemma RoundStep(ops: seq<Op>, k: Keyed, op: Op)
    requires Inv(ops, k) && RoundInv(ops, k) && Enabled(k, op) && !Apply(k, op).fault
    ensures RoundInv(ops + [op], Apply(k, op))
  {
    var r := Apply(k, op);
    forall e: Entry, n: nat | e in r.batch && (r.stage == Calling || r.stage == Resetting)
      ensures Id(e.addr, n) in r.canceling <==> CancelledInRound(ops + [op], Id(e.addr, n))
    {
      RoundSnoc(ops, op, Id(e.addr, n));
      assert e in k.batch;
      if op.Cancel? { BatchNotFound(ops, k, e, n); }
    }
  }

  lemma {:induction false} RunRound(ops: seq<Op>)
    requires Possible(ops) && !Run(ops).fault
    ensures RoundInv(ops, Run(ops))
    decreases |ops|
  {
    if ops != [] {
      var before, last := ops[..|ops| - 1], ops[|ops| - 1];
      assert before + [last] == ops;
      RunRound(before);
      RunInv(before);
      RoundStep(before, Run(before), last);
    }
  }

  /** The time of the handleRead under way. */
  function LatestExpiry(ops: seq<Op>): int {
    if ops == [] then 0
    else match ops[|ops| - 1] case Expire(now) => now case _ => LatestExpiry(ops[..|ops| - 1])
  }

  lemma {:induction false} NowIsLatest(ops: seq<Op>)
    requires Possible(ops)
    ensures Run(ops).now == LatestExpiry(ops)
    decreases |ops|
  {
    if ops != [] {
      var before, last := ops[..|ops| - 1], ops[|ops| - 1];
      NowIsLatest(before);
      NowStep(Run(before), last);
    }
  }

  lemma NowStep(k: Keyed, op: Op)
    requires Enabled(k, op)
    ensures Apply(k, op).now == match op case Expire(now) => now case _ => k.now
  {
  }

  /** In reset a repeating timer is requeued unless this round's callbacks have cancelled the one id that carries the
      value numCreated() has by then; cancels made with any other are lost. */
  lemma RequeuedIff(ops: seq<Op>, addr: nat)
    requires Possible(ops + [ResetOne(addr)])
    ensures Possible(ops) && addr in Run(ops).heap
    ensures addr in Run(ops + [ResetOne(addr)]).heap <==>
            Run(ops).heap[addr].repeat && !CancelledInRound(ops, Id(addr, Creations(ops)))
    ensures var k, r := Run(ops), Run(ops + [ResetOne(addr)]);
            addr in r.heap ==>
              Filed(r.heap, r.timers, addr) && r.heap[addr].expiration == LatestExpiry(ops) + k.heap[addr].interval
  {
    LastStep(ops, ResetOne(addr));
    RunInv(ops);
    RunRound(ops);
    var k := Run(ops);
    assert k.batch[0] in k.batch;
    NowIsLatest(ops);
    if addr in ResetFirst(k).heap {
      RestartKeeps(ops, k, addr);
      PlaceSorted(k.timers, Entry(k.now + k.heap[addr].interval, addr));
    }
  }

  predicate SomeCreation(ops: seq<Op>) {
    exists i :: 0 <= i < |ops| && Creates(ops[i])
  }

  lemma {:induction false} CreationsGrow(ops: seq<Op>, more: seq<Op>)
    ensures Creations(ops) <= Creations(ops + more)
    ensures Creations(ops) == Creations(ops + more) <==> !SomeCreation(more)
    decreases |more|
  {
    if more == [] {
      assert ops + more == ops;
    } else {
      var init, last := more[..|more| - 1], more[|more| - 1];
      CreationsGrow(ops, init);
      HistorySnoc(ops + init, last, 0);
      assert ops + init + [last] == ops + more;
      assert forall i :: 0 <= i < |init| ==> more[i] == init[i];
    }
  }

  /** So when the callbacks of a round cancel a timer of its batch, a one-shot timer is deleted anyway, and a repeating
      one goes on exactly if some timer, anywhere in the program, has been created since addTimer returned the id. */
  lemma CancelLostIff(returned: seq<Op>, more: seq<Op>, addr: nat)
    requires Possible(returned + more + [ResetOne(addr)])
    requires CancelledInRound(returned + more, TimerIdNow(returned, addr))
    requires forall n: nat :: CancelledInRound(returned + more, Id(addr, n)) ==> n == Creations(returned)
    ensures Possible(returned + more) && addr in Run(returned + more).heap
    ensures addr in Run(returned + more + [ResetOne(addr)]).heap <==>
            Run(returned + more).heap[addr].repeat && SomeCreation(more)
  {
    RequeuedIff(returned + more, addr);
    CreationsGrow(returned, more);
  }

  lemma {:induction false} StillCreatedSince(ops: seq<Op>, more: seq<Op>, addr: nat)
    requires CreatedSince(ops, addr) && forall op :: op in more ==> !Inserts(op, addr)
    ensures CreatedSince(ops + more, addr)
    decreases |more|
  {
    if more == [] {
      assert ops + more == ops;
    } else {
      var init := more[..|more| - 1];
      assert (ops + more)[..|ops + more| - 1] == ops + init;
      StillCreatedSince(ops, init, addr);
    }
  }

  /** So whenever a timer is created after another was inserted, the other's expiry fails, unless it is
      inserted again in between. */
  lemma CreationBreaks(ops: seq<Op>, c: Op, more: seq<Op>, addr: nat)
    requires Creates(c) && Possible(ops + [c] + more + [EraseOne(addr)])
    requires forall op :: op in more ==> !Inserts(op, addr)
    ensures Run(ops + [c] + more + [EraseOne(addr)]).fault
  {
    assert (ops + [c])[..|ops|] == ops;
    StillCreatedSince(ops + [c], more, addr);
    FaultIff(ops + [c] + more, EraseOne(addr));
  }

  lemma Extend(ops: seq<Op>, op: Op)
    requires Possible(ops) && Enabled(Run(ops), op)
    ensures Possible(ops + [op]) && Run(ops + [op]) == Apply(Run(ops), op)
  {
    assert (ops + [op])[..|ops|] == ops;
  }

  /** Two timers created and inserted, one after the other. */
  function TwoAdds(a: nat, first: int, b: nat, second: int): seq<Op> {
    [Create(a, first, false, 0), Insert(a)] + [Create(b, second, false, 0)] + [Insert(b)]
  }

  lemma TwoQueued(a: nat, first: int, b: nat, second: int)
    requires a != b
    ensures var ops := TwoAdds(a, first, b, second);
            && Possible(ops) && Run(ops).stage == Idle && !Run(ops).fault
            && Run(ops).timers == Place([Entry(first, a)], Entry(second, b))
            && Run(ops).created == 2 && Id(b, 2) in Run(ops).active
  {
    var c1, i1, c2, i2 := Create(a, first, false, 0), Insert(a), Create(b, second, false, 0), Insert(b);
    Extend([], c1);
    assert [] + [c1] == [c1];
    Extend([c1], i1);
    assert [c1] + [i1] == [c1, i1];
    Extend([c1, i1], c2);
    assert Entry(second, b) != Entry(first, a) && Id(b, 2) !in Run([c1, i1] + [c2]).active;
    Extend([c1, i1] + [c2], i2);
  }

  /** Any two timers on one loop get there: whatever their times, the expiry of the first one added fails. */
  lemma TwoTimersFail(a: nat, first: int, b: nat, second: int, now: int) returns (more: seq<Op>)
    requires a != b && first <= now
    ensures Possible(TwoAdds(a, first, b, second) + more) && Run(TwoAdds(a, first, b, second) + more).fault
    ensures forall op :: op in more ==> op.Expire? || op.EraseOne?
  {
    var ops := TwoAdds(a, first, b, second);
    var expired := ops + [Expire(now)];
    TwoExpire(a, first, b, second, now);
    var mid := [Expire(now)];
    if Run(expired).batch[0].addr != a {
      Extend(expired, EraseOne(b));
      mid := [Expire(now)] + [EraseOne(b)];
      assert expired + [EraseOne(b)] == ops + mid;
    }
    Extend(ops + mid, EraseOne(a));
    more := mid + [EraseOne(a)];
    Fails(a, first, b, second, mid);
    assert ops + mid + [EraseOne(a)] == ops + more;
  }

  /** The first one is looked up first, or right after the second, whose lookup succeeds. */
  lemma TwoExpire(a: nat, first: int, b: nat, second: int, now: int)
    requires a != b && first <= now
    ensures var expired := TwoAdds(a, first, b, second) + [Expire(now)];
            && Possible(expired)
            && var k := Run(expired);
            && !k.fault && k.stage == Erasing(0) && k.batch != [] && k.created == 2 && Id(b, 2) in k.active
            && (k.batch[0].addr == a || (k.batch[0].addr == b && |k.batch| > 1 && k.batch[1].addr == a))
  {
    var ops := TwoAdds(a, first, b, second);
    TwoQueued(a, first, b, second);
    PlaceSorted([Entry(first, a)], Entry(second, b));
    ExpiredSplit(Run(ops).timers, now);
    Extend(ops, Expire(now));
    var batch := Run(ops + [Expire(now)]).batch;
    assert Entry(first, a) in batch;
    assert batch[0] in batch;
  }

  lemma Fails(a: nat, first: int, b: nat, second: int, mid: seq<Op>)
    requires a != b && Possible(TwoAdds(a, first, b, second) + mid + [EraseOne(a)])
    requires forall op :: op in mid ==> !Inserts(op, a)
    ensures Run(TwoAdds(a, first, b, second) + mid + [EraseOne(a)]).fault
  {
    var before, c := [Create(a, first, false, 0), Insert(a)], Create(b, second, false, 0);
    assert TwoAdds(a, first, b, second) + mid == before + [c] + ([Insert(b)] + mid);
    CreationBreaks(before, c, [Insert(b)] + mid, a);
  }
}

/**
 poller.cpp and epoller.cpp: which file descriptors the kernel is asked to watch, against the interest
 masks of the channels themselves.

 As written, Poller turns a disabled channel's slot negative and never restores it, so a channel enabled
 again without being removed is not polled; and a removed channel keeps its index, so it cannot be used
 again. Epoller re-adds a channel that is disabled twice, with an empty mask.
 */
module Registry {

  /** The two bits of Channel::event_: kReadEvent and kWriteEvent. */
  datatype Mask = Mask(read: bool, write: bool)

  const NO_EVENT := Mask(false, false)

  /** The channels with some interest, and that interest. */
  function Interested(masks: map<nat, Mask>): map<nat, Mask> {
    map fd | fd in masks && masks[fd] != NO_EVENT :: masks[fd]
  }

  // ---------------------------------------------------------------- poll(2)

  datatype Slot = Slot(fd: int, events: Mask, revents: int)

  /** Poller: the pollfd vector, and the index each registered channel remembers. */
  datatype PollTable = PollTable(slots: seq<Slot>, index: map<nat, nat>, fault: bool)

  const NO_POLL := PollTable([], map[], false)

  /** The descriptor of the channel a slot belongs to. */
  function Decode(fd: int): nat {
    if fd < 0 then -fd - 1 else fd
  }

  /** How a slot remembers a descriptor it must not watch. */
  function Muted(fd: int): int {
    -fd - 1
  }

  predicate Consistent(p: PollTable) {
    && (forall fd :: fd in p.index ==> p.index[fd] < |p.slots| && Decode(p.slots[p.index[fd]].fd) == fd)
    && (forall i :: 0 <= i < |p.slots| ==> Decode(p.slots[i].fd) in p.index && p.index[Decode(p.slots[i].fd)] == i)
  }

  function PollUpdate(p: PollTable, fd: nat, mask: Mask): PollTable {
    if fd !in p.index then
      p.(slots := p.slots + [Slot(fd, mask, 0)], index := p.index[fd := |p.slots|])
    else
      var i := p.index[fd];
      if i >= |p.slots| || Decode(p.slots[i].fd) != fd then p.(fault := true)
      else p.(slots := p.slots[i := Slot(if mask == NO_EVENT then Muted(fd) else p.slots[i].fd, mask, 0)])
  }

  function PollRemove(p: PollTable, fd: nat): PollTable {
    if fd !in p.index || p.index[fd] >= |p.slots| then p.(fault := true)
    else
      var i, last := p.index[fd], |p.slots| - 1;
      if i == last then p.(slots := p.slots[..last], index := p.index - {fd})
      else
        var moved := Decode(p.slots[last].fd);
        if moved !in p.index then p.(fault := true)
        else p.(slots := p.slots[i := p.slots[last]][..last], index := (p.index - {fd})[moved := i])
  }

  /** What poll(2) reports on: descriptors that are not negative and have some event asked for. */
  function PollWatches(p: PollTable): map<nat, Mask>
    requires Consistent(p)
  {
    map fd | fd in p.index && p.slots[p.index[fd]].fd >= 0 && p.slots[p.index[fd]].events != NO_EVENT
      :: p.slots[p.index[fd]].events
  }

  /** Updating keeps slots and indexes in correspondence. */
  lemma PollUpdateConsistent(p: PollTable, fd: nat, mask: Mask)
    requires Consistent(p)
    ensures var r := PollUpdate(p, fd, mask);
            && Consistent(r) && r.fault == p.fault && r.index.Keys == p.index.Keys + {fd}
            && r.slots[r.index[fd]].events == mask && r.slots[r.index[fd]].revents == 0
            && (r.slots[r.index[fd]].fd < 0 <==>
                  fd in p.index && (mask == NO_EVENT || p.slots[p.index[fd]].fd < 0))
            && (forall g :: g in p.index && g != fd ==> r.slots[r.index[g]] == p.slots[p.index[g]])
  {
    var r := PollUpdate(p, fd, mask);
    if fd in p.index {
      assert forall g :: g in p.index && g != fd ==> p.index[g] != p.index[fd];
    } else {
      assert forall i :: 0 <= i < |p.slots| ==> Decode(p.slots[i].fd) != fd;
    }
  }

  lemma AddedConsistent(p: PollTable, fd: nat, mask: Mask)
    requires Consistent(p) && fd !in p.index
    ensures var r := p.(slots := p.slots + [Slot(fd, mask, 0)], index := p.index[fd := |p.slots|]);
            r == PollUpdate(p, fd, mask) && Consistent(r)
  {
    PollUpdateConsistent(p, fd, mask);
  }

  /** So does removing by swapping the last slot into the hole. */
  lemma PollRemoveConsistent(p: PollTable, fd: nat)
    requires Consistent(p) && fd in p.index
    ensures var r := PollRemove(p, fd);
            && Consistent(r) && r.fault == p.fault && r.index.Keys == p.index.Keys - {fd}
            && (forall g :: g in r.index ==> r.slots[r.index[g]] == p.slots[p.index[g]])
  {
    var r := PollRemove(p, fd);
    var i, last := p.index[fd], |p.slots| - 1;
    var moved := Decode(p.slots[last].fd);
    assert p.index[moved] == last;
    assert forall g :: g in p.index && g != moved ==> p.index[g] != last;
    assert forall g :: g in p.index && g != fd ==> p.index[g] != i;
    forall j | 0 <= j < |r.slots| ensures Decode(r.slots[j].fd) in r.index && r.index[Decode(r.slots[j].fd)] == j
    {
      if j == i {
        assert r.slots[j] == p.slots[last];
      } else {
        assert r.slots[j] == p.slots[j];
      }
    }
  }

  lemma SwapForm(p: PollTable, fd: nat)
    requires Consistent(p) && fd in p.index && p.index[fd] != |p.slots| - 1
    ensures var i, last := p.index[fd], |p.slots| - 1;
            && i < last
            && var moved := Decode(p.slots[last].fd);
            && moved in p.index && moved != fd && p.index[moved] == last
            && PollRemove(p, fd) == p.(slots := p.slots[i := p.slots[last]][..last], index := (p.index - {fd})[moved := i])
            && Consistent(PollRemove(p, fd))
  {
    PollRemoveConsistent(p, fd);
  }

  // ---------------------------------------------------------------- epoll(7)

  /** A channel's index_ under Epoller, kNew being absence. */
  datatype Mark = Added | Deleted

  datatype EpollTable = EpollTable(mark: map<nat, Mark>, kernel: map<nat, Mask>, fault: bool)

  const NO_EPOLL := EpollTable(map[], map[], false)

  datatype Control = CtlAdd | CtlMod | CtlDel

  /** epoll_ctl: ADD needs the descriptor absent, MOD and DEL need it present. */
  function EpollCtl(e: EpollTable, op: Control, fd: nat, mask: Mask): EpollTable {
    if (op == CtlAdd) == (fd in e.kernel) then e.(fault := true)
    else if op == CtlDel then e.(kernel := e.kernel - {fd})
    else e.(kernel := e.kernel[fd := mask])
  }

  function EpollUpdate(e: EpollTable, fd: nat, mask: Mask): EpollTable {
    if fd !in e.mark || e.mark[fd] == Deleted then
      EpollCtl(e.(mark := e.mark[fd := Added]), CtlAdd, fd, mask)
    else if mask == NO_EVENT then
      EpollCtl(e, CtlDel, fd, mask).(mark := e.mark[fd := Deleted])
    else
      EpollCtl(e, CtlMod, fd, mask)
  }

  function EpollRemove(e: EpollTable, fd: nat): EpollTable {
    if fd !in e.mark then e.(fault := true)
    else if e.mark[fd] == Added then EpollCtl(e, CtlDel, fd, NO_EVENT).(mark := e.mark - {fd})
    else e.(mark := e.mark - {fd})
  }

  // ---------------------------------------------------------------- both, over any sequence of operations

  /** `masks` are the registered channels' own masks; `tainted` those registered channels that have been
      disabled to nothing by an update since they were registered. */
  datatype World = World(masks: map<nat, Mask>, tainted: set<nat>, poll: PollTable, epoll: EpollTable)

  const EMPTY_WORLD := World(map[], {}, NO_POLL, NO_EPOLL)

  datatype Op = Update(fd: nat, mask: Mask) | Remove(fd: nat)

  /** removeChannel asserts that the channel is registered and disabled. */
  predicate Enabled(w: World, op: Op) {
    op.Remove? ==> op.fd in w.masks && w.masks[op.fd] == NO_EVENT
  }

  function Apply(w: World, op: Op): World {
    match op
    case Update(fd, mask) =>
      World(w.masks[fd := mask],
            if fd in w.masks && mask == NO_EVENT then w.tainted + {fd} else w.tainted,
            PollUpdate(w.poll, fd, mask), EpollUpdate(w.epoll, fd, mask))
    case Remove(fd) =>
      World(w.masks - {fd}, w.tainted - {fd}, PollRemove(w.poll, fd), EpollRemove(w.epoll, fd))
  }

  predicate Possible(w: World, ops: seq<Op>)
    decreases |ops|
  {
    ops == [] || (Enabled(w, ops[0]) && Possible(Apply(w, ops[0]), ops[1..]))
  }

  function Run(w: World, ops: seq<Op>): World
    decreases |ops|
  {
    if ops == [] then w else Run(Apply(w, ops[0]), ops[1..])
  }

  ghost predicate PollInv(w: World) {
    && !w.poll.fault && Consistent(w.poll) && w.poll.index.Keys == w.masks.Keys && w.tainted <= w.masks.Keys
    && forall fd :: fd in w.masks ==>
         var s := w.poll.slots[w.poll.index[fd]];
         s.events == w.masks[fd] && (s.fd < 0 <==> fd in w.tainted)
  }

  ghost predicate EpollInv(w: World) {
    && !w.epoll.fault && w.epoll.mark.Keys == w.masks.Keys
    && (forall fd :: fd in w.masks ==> (fd in w.epoll.kernel <==> w.epoll.mark[fd] == Added))
    && (forall fd :: fd in w.epoll.kernel ==> fd in w.masks && w.epoll.kernel[fd] == w.masks[fd])
    && (forall fd :: fd in w.masks && w.epoll.mark[fd] == Deleted ==> w.masks[fd] == NO_EVENT)
  }

  lemma ApplyPollInv(w: World, op: Op)
    requires PollInv(w) && Enabled(w, op)
    ensures PollInv(Apply(w, op))
  {
    match op
    case Update(fd, mask) => PollUpdateConsistent(w.poll, fd, mask);
    case Remove(fd) => PollRemoveConsistent(w.poll, fd);
  }

  lemma ApplyEpollInv(w: World, op: Op)
    requires EpollInv(w) && Enabled(w, op)
    ensures EpollInv(Apply(w, op))
  {
    match op
    case Update(fd, mask) => UpdateEpollInv(w, fd, mask);
    case Remove(fd) => RemoveEpollInv(w, fd);
  }

  lemma UpdateEpollInv(w: World, fd: nat, mask: Mask)
    requires EpollInv(w)
    ensures EpollInv(w.(masks := w.masks[fd := mask], epoll := EpollUpdate(w.epoll, fd, mask)))
  {
  }

  lemma RemoveEpollInv(w: World, fd: nat)
    requires EpollInv(w) && fd in w.masks
    ensures EpollInv(w.(masks := w.masks - {fd}, epoll := EpollRemove(w.epoll, fd)))
  {
  }

  lemma {:induction false} RunInv(w: World, ops: seq<Op>)
    requires PollInv(w) && EpollInv(w) && Possible(w, ops)
    ensures PollInv(Run(w, ops)) && EpollInv(Run(w, ops))
    decreases |ops|
  {
    if ops != [] {
      ApplyPollInv(w, ops[0]);
      ApplyEpollInv(w, ops[0]);
      RunInv(Apply(w, ops[0]), ops[1..]);
    }
  }

  /** After any sequence of updates and removals every epoll_ctl has been legal and the kernel set watches
      exactly the interested channels, each with its own mask. */
  lemma EpollFaithful(ops: seq<Op>)
    requires Possible(EMPTY_WORLD, ops)
    ensures var w := Run(EMPTY_WORLD, ops);
            !w.epoll.fault && Interested(w.epoll.kernel) == Interested(w.masks)
  {
    RunInv(EMPTY_WORLD, ops);
    KernelMatches(Run(EMPTY_WORLD, ops));
  }

  lemma KernelMatches(w: World)
    requires EpollInv(w)
    ensures Interested(w.epoll.kernel) == Interested(w.masks)
  {
    assert Interested(w.epoll.kernel).Keys == Interested(w.masks).Keys;
  }

  // ---- the kernel set, empty masks included

  lemma {:induction false} RunSnoc(w: World, ops: seq<Op>, op: Op)
    requires Possible(w, ops + [op])
    ensures Possible(w, ops) && Enabled(Run(w, ops), op) && Run(w, ops + [op]) == Apply(Run(w, ops), op)
    decreases |ops|
  {
    if ops == [] {
      assert [] + [op] == [op] && [op][1..] == [];
    } else {
      assert (ops + [op])[1..] == ops[1..] + [op];
      RunSnoc(Apply(w, ops[0]), ops[1..], op);
    }
  }

  /** Whether the last thing done with this channel was an update. */
  predicate Registered(ops: seq<Op>, fd: nat) {
    ops != [] &&
    var last := ops[|ops| - 1];
    if last.fd == fd then last.Update? else Registered(ops[..|ops| - 1], fd)
  }

  /** How often in a row the channel, being registered, has been updated to nothing. */
  function Disabled(ops: seq<Op>, fd: nat): nat {
    if ops == [] then 0
    else
      var last, before := ops[|ops| - 1], ops[..|ops| - 1];
      if last.fd != fd then Disabled(before, fd)
      else if last == Update(fd, NO_EVENT) && Registered(before, fd) then Disabled(before, fd) + 1
      else 0
  }

  /** Registered and not interested, a channel is in the kernel set after an even number of disabling updates. */
  ghost predicate Parity(w: World, ops: seq<Op>, fd: nat) {
    && (fd in w.masks <==> Registered(ops, fd))
    && (fd in w.masks <==> fd in w.epoll.mark)
    && (fd in w.masks ==>
          if w.masks[fd] == NO_EVENT then w.epoll.mark[fd] == Added <==> Disabled(ops, fd) % 2 == 0
          else w.epoll.mark[fd] == Added && Disabled(ops, fd) == 0)
  }

  lemma {:induction false} ParityHolds(ops: seq<Op>, fd: nat)
    requires Possible(EMPTY_WORLD, ops)
    ensures Parity(Run(EMPTY_WORLD, ops), ops, fd)
    decreases |ops|
  {
    if ops != [] {
      var last, before := ops[|ops| - 1], ops[..|ops| - 1];
      assert before + [last] == ops;
      RunSnoc(EMPTY_WORLD, before, last);
      ParityHolds(before, fd);
      ParityStep(Run(EMPTY_WORLD, before), before, last, fd);
    }
  }

  lemma ParityStep(w: World, ops: seq<Op>, op: Op, fd: nat)
    requires Parity(w, ops, fd) && Enabled(w, op)
    ensures Parity(Apply(w, op), ops + [op], fd)
  {
    assert (ops + [op])[..|ops|] == ops;
  }

  /** The kernel watches exactly the interested channels, and no channel with an empty mask, if and only if every
      registered channel without interest has been disabled an odd number of times in a row: not merely
      registered with nothing, and not disabled twice. */
  lemma EpollExactIff(ops: seq<Op>)
    requires Possible(EMPTY_WORLD, ops)
    ensures var w := Run(EMPTY_WORLD, ops);
            w.epoll.kernel == Interested(w.masks) <==>
            forall fd :: fd in w.masks && w.masks[fd] == NO_EVENT ==> Disabled(ops, fd) % 2 == 1
  {
    var w := Run(EMPTY_WORLD, ops);
    RunInv(EMPTY_WORLD, ops);
    forall fd | fd in w.masks && w.masks[fd] == NO_EVENT
      ensures fd in w.epoll.kernel <==> Disabled(ops, fd) % 2 != 1
    {
      ParityHolds(ops, fd);
      EmptyInKernel(w, ops, fd);
    }
    ExactWhenNoneEmpty(w);
  }

  lemma EmptyInKernel(w: World, ops: seq<Op>, fd: nat)
    requires EpollInv(w) && Parity(w, ops, fd) && fd in w.masks && w.masks[fd] == NO_EVENT
    ensures fd in w.epoll.kernel <==> Disabled(ops, fd) % 2 != 1
  {
  }

  lemma ExactWhenNoneEmpty(w: World)
    requires EpollInv(w)
    ensures w.epoll.kernel == Interested(w.masks) <==>
            forall fd :: fd in w.masks && w.masks[fd] == NO_EVENT ==> fd !in w.epoll.kernel
  {
    var k, m := w.epoll.kernel, Interested(w.masks);
    if forall fd :: fd in w.masks && w.masks[fd] == NO_EVENT ==> fd !in k {
      assert k.Keys == m.Keys;
    }
  }

  /** A hang-up followed by a zero read disables a connection's channel twice, and puts it back. */
  lemma DisabledTwiceStays(fd: nat, mask: Mask)
    requires mask != NO_EVENT
    ensures var ops := [Update(fd, mask), Update(fd, NO_EVENT), Update(fd, NO_EVENT)];
            Possible(EMPTY_WORLD, ops) && Run(EMPTY_WORLD, ops).epoll.kernel == map[fd := NO_EVENT]
  {
    var on, off := Update(fd, mask), Update(fd, NO_EVENT);
    var w1 := Apply(EMPTY_WORLD, on);
    var w2 := Apply(w1, off);
    RunCons(w2, off, []);
    RunCons(w1, off, [off] + []);
    RunCons(EMPTY_WORLD, on, [off] + ([off] + []));
    assert [on, off, off] == [on] + ([off] + ([off] + []));
    assert w2.epoll.kernel == map[];
  }

  lemma SlotsMatchIff(w: World)
    requires PollInv(w)
    ensures PollWatches(w.poll) == Interested(w.masks) <==>
            forall fd :: fd in w.tainted ==> fd in w.masks && w.masks[fd] == NO_EVENT
  {
    var p, m := PollWatches(w.poll), Interested(w.masks);
    assert forall fd :: fd in p <==> fd in m && fd !in w.tainted;
    assert forall fd :: fd in p ==> p[fd] == m[fd];
    if forall fd :: fd in w.tainted ==> w.masks[fd] == NO_EVENT {
      assert forall fd :: fd in m ==> fd !in w.tainted;
      assert p.Keys == m.Keys;
    }
    if fd :| fd in w.tainted && w.masks[fd] != NO_EVENT {
      assert fd in m && fd !in p;
    }
  }

  /** After any such sequence Poller's table corresponds to its channels, and poll watches exactly the interested
      channels if and only if no channel that was disabled since its registration is interested again. */
  lemma PollFaithfulIff(ops: seq<Op>)
    requires Possible(EMPTY_WORLD, ops)
    ensures var w := Run(EMPTY_WORLD, ops);
            && !w.poll.fault && Consistent(w.poll)
            && (PollWatches(w.poll) == Interested(w.masks) <==>
                  forall fd :: fd in w.tainted ==> fd in w.masks && w.masks[fd] == NO_EVENT)
  {
    RunInv(EMPTY_WORLD, ops);
    SlotsMatchIff(Run(EMPTY_WORLD, ops));
  }

  /** A channel enabled again after being disabled is wanted and not polled. */
  lemma ReenabledIsNotPolled(fd: nat, mask: Mask)
    requires mask != NO_EVENT
    ensures var ops := [Update(fd, mask), Update(fd, NO_EVENT), Update(fd, mask)];
            var w := Run(EMPTY_WORLD, ops);
            && Possible(EMPTY_WORLD, ops) && Consistent(w.poll)
            && fd in Interested(w.masks) && fd !in PollWatches(w.poll) && fd in Interested(w.epoll.kernel)
  {
    var on, off := Update(fd, mask), Update(fd, NO_EVENT);
    var w1 := Apply(EMPTY_WORLD, on);
    var w2 := Apply(w1, off);
    var w3 := Apply(w2, on);
    RunCons(w2, on, []);
    RunCons(w1, off, [on] + []);
    RunCons(EMPTY_WORLD, on, [off] + ([on] + []));
    assert [on, off, on] == [on] + ([off] + ([on] + []));
    RunInv(EMPTY_WORLD, [on, off, on]);
    KernelMatches(w3);
  }

  lemma RunCons(w: World, op: Op, rest: seq<Op>)
    requires Enabled(w, op) && Possible(Apply(w, op), rest)
    ensures Possible(w, [op] + rest) && Run(w, [op] + rest) == Run(Apply(w, op), rest)
  {
    assert ([op] + rest)[1..] == rest;
  }

  ghost predicate Quiet(w: World) {
    forall fd :: fd in w.tainted ==> fd in w.masks && w.masks[fd] == NO_EVENT
  }

  /** A disabled channel is removed, not enabled again. */
  predicate Respects(w: World, op: Op) {
    op.Update? && op.fd in w.tainted ==> op.mask == NO_EVENT
  }

  predicate Disciplined(w: World, ops: seq<Op>)
    decreases |ops|
  {
    ops == [] || (Respects(w, ops[0]) && Disciplined(Apply(w, ops[0]), ops[1..]))
  }

  lemma {:induction false} DisciplinedStaysQuiet(w: World, ops: seq<Op>)
    requires Possible(w, ops) && Disciplined(w, ops) && Quiet(w)
    ensures Quiet(Run(w, ops))
    decreases |ops|
  {
    if ops != [] {
      assert Quiet(Apply(w, ops[0]));
      DisciplinedStaysQuiet(Apply(w, ops[0]), ops[1..]);
    }
  }

  /** Under that discipline the two registries are interchangeable. */
  lemma PollAndEpollAgree(ops: seq<Op>)
    requires Possible(EMPTY_WORLD, ops) && Disciplined(EMPTY_WORLD, ops)
    ensures var w := Run(EMPTY_WORLD, ops);
            && Consistent(w.poll)
            && PollWatches(w.poll) == Interested(w.masks) == Interested(w.epoll.kernel)
  {
    DisciplinedStaysQuiet(EMPTY_WORLD, ops);
    PollFaithfulIff(ops);
    EpollFaithful(ops);
  }

  // ---------------------------------------------------------------- which slots are ready

  /** The slots from `from` on with something to report. */
  function ReadySlots(slots: seq<Slot>, from: nat): seq<nat>
    decreases |slots| - from
  {
    if from >= |slots| then []
    else if slots[from].revents > 0 then [from] + ReadySlots(slots, from + 1)
    else ReadySlots(slots, from + 1)
  }

  /** What poll reported for a channel is forgotten when it is updated, and for no other channel. */
  lemma UpdateForgets(p: PollTable, fd: nat, mask: Mask)
    requires Consistent(p)
    ensures var r := PollUpdate(p, fd, mask);
            && fd in r.index && r.index[fd] !in ReadySlots(r.slots, 0)
            && forall g :: g in p.index && g != fd ==>
                 g in r.index && (r.index[g] in ReadySlots(r.slots, 0) <==> p.index[g] in ReadySlots(p.slots, 0))
  {
    PollUpdateConsistent(p, fd, mask);
    ReadySlotsAre(p.slots, 0);
    ReadySlotsAre(PollUpdate(p, fd, mask).slots, 0);
  }

  predicate Ascending(r: seq<nat>) {
    forall i, j :: 0 <= i < j < |r| ==> r[i] < r[j]
  }

  lemma AscendingCons(n: nat, r: seq<nat>)
    requires Ascending(r) && forall x :: x in r ==> n < x
    ensures Ascending([n] + r)
  {
    assert forall j :: 0 <= j < |r| ==> r[j] in r;
  }

  /** They are listed in order, each once, and none is missing. */
  lemma {:induction false} ReadySlotsAre(slots: seq<Slot>, from: nat)
    ensures Ascending(ReadySlots(slots, from))
    ensures forall n :: n in ReadySlots(slots, from) <==> from <= n < |slots| && slots[n].revents > 0
    decreases |slots| - from
  {
    if from < |slots| {
      ReadySlotsAre(slots, from + 1);
      var r := ReadySlots(slots, from + 1);
      if slots[from].revents > 0 {
        AscendingCons(from, r);
      }
    }
  }

  // ---------------------------------------------------------------- the objects

  class Channel {
    const fd: nat
    var event: Mask
    var revent: int
    var index: int

    constructor (fd: nat)
      ensures this.fd == fd && event == NO_EVENT && revent == 0 && index == -1
    {
      this.fd, event, revent, index := fd, NO_EVENT, 0, -1;
    }

    method SetEvent(revent: int)
      modifies this`revent
      ensures this.revent == revent
    {
      this.revent := revent;
    }
  }

  class Poller {
    var slots: seq<Slot>
    var channels: map<nat, Channel>
    ghost var index: map<nat, nat>

    ghost predicate Valid()
      reads this, (set fd | fd in channels :: channels[fd])`index
    {
      && index.Keys == channels.Keys
      && (forall fd :: fd in channels ==> channels[fd].fd == fd && channels[fd].index == index[fd])
      && Consistent(View())
    }

    ghost function View(): PollTable
      reads this
    {
      PollTable(slots, index, false)
    }

    constructor ()
      ensures Valid() && View() == NO_POLL && channels == map[]
    {
      slots, channels, index := [], map[], map[];
    }

    /** The channel has already changed its mask. */
    method UpdateChannel(channel: Channel)
      requires Valid()
      requires channel.index < 0 ==> channel.fd !in channels
      requires channel.index >= 0 ==> channel.fd in channels && channels[channel.fd] == channel
      modifies this, channel`index
      ensures Valid() && View() == PollUpdate(old(View()), channel.fd, channel.event)
      ensures channels == old(channels)[channel.fd := channel]
    {
      if channel.index < 0 {
        AddSlot(channel);
      } else {
        RewriteSlot(channel);
      }
    }

    /** updateChannel for a channel without an index. */
    method AddSlot(channel: Channel)
      requires Valid() && channel.fd !in channels
      modifies this, channel`index
      ensures Valid() && View() == PollUpdate(old(View()), channel.fd, channel.event)
      ensures channels == old(channels)[channel.fd := channel]
    {
      AddedConsistent(View(), channel.fd, channel.event);
      index := index[channel.fd := |slots|];
      slots := slots + [Slot(channel.fd, channel.event, 0)];
      channel.index := |slots| - 1;
      channels := channels[channel.fd := channel];
    }

    /** updateChannel for a registered channel. */
    method RewriteSlot(channel: Channel)
      requires Valid() && channel.fd in channels && channels[channel.fd] == channel
      modifies this`slots
      ensures Valid() && View() == PollUpdate(old(View()), channel.fd, channel.event)
      ensures channels == old(channels)[channel.fd := channel]
    {
      PollUpdateConsistent(View(), channel.fd, channel.event);
      var idx := channel.index;
      assert idx < |slots| && (slots[idx].fd == channel.fd || slots[idx].fd == Muted(channel.fd));
      var fd := slots[idx].fd;
      if channel.event == NO_EVENT {
        fd := Muted(channel.fd);
      }
      slots := slots[idx := Slot(fd, channel.event, 0)];
    }

    method RemoveChannel(channel: Channel)
      requires Valid()
      requires channel.fd in channels && channels[channel.fd] == channel && channel.event == NO_EVENT
      modifies this, (set fd | fd in channels :: channels[fd])`index
      ensures Valid() && View() == PollRemove(old(View()), channel.fd)
      ensures channels == old(channels) - {channel.fd} && channel.index == old(channel.index)
    {
      assert 0 <= channel.index < |slots|;
      if channel.index == |slots| - 1 {
        RemoveLast(channel);
      } else {
        RemoveSwapping(channel);
      }
    }

    method RemoveLast(channel: Channel)
      requires Valid() && channel.fd in channels && channels[channel.fd] == channel && channel.index == |slots| - 1
      modifies this
      ensures Valid() && View() == PollRemove(old(View()), channel.fd)
      ensures channels == old(channels) - {channel.fd}
    {
      PollRemoveConsistent(View(), channel.fd);
      channels := channels - {channel.fd};
      index := index - {channel.fd};
      slots := slots[..|slots| - 1];
    }

    /** removeChannel by swapping with the last slot. */
    method RemoveSwapping(channel: Channel)
      requires Valid() && channel.fd in channels && channels[channel.fd] == channel && channel.index != |slots| - 1
      modifies this, (set fd | fd in channels :: channels[fd])`index
      ensures Valid() && View() == PollRemove(old(View()), channel.fd)
      ensures channels == old(channels) - {channel.fd} && channel.index == old(channel.index)
    {
      SwapForm(View(), channel.fd);
      var idx, last := channel.index, |slots| - 1;
      var channelAtEnd := slots[last].fd;
      if channelAtEnd < 0 {
        channelAtEnd := Muted(channelAtEnd);
      }
      channels := channels - {channel.fd};
      slots := slots[idx := slots[last]][..last];
      index := (index - {channel.fd})[channelAtEnd := idx];
      MoveIndex(channels[channelAtEnd], idx);
    }

    /** setIndex on the channel that was swapped. */
    method MoveIndex(channel: Channel, idx: nat)
      requires index.Keys == channels.Keys && Consistent(View())
      requires channel.fd in channels && channels[channel.fd] == channel && index[channel.fd] == idx
      requires forall g :: g in channels ==> channels[g].fd == g && (g != channel.fd ==> channels[g].index == index[g])
      modifies channel`index
      ensures Valid()
    {
      channel.index := idx;
    }

    /** The channel registered in slot `n`. */
    ghost function ChannelOf(n: nat): Channel
      reads this
      requires n < |slots| && Decode(slots[n].fd) in channels
    {
      channels[Decode(slots[n].fd)]
    }

    /** `nums` is poll's count of the slots it filled in; it fills in no negative descriptor. */
    method FillActiveChannels(nums: nat) returns (active: seq<Channel>)
      requires Valid() && nums == |ReadySlots(slots, 0)|
      requires forall i :: 0 <= i < |slots| && slots[i].revents > 0 ==> slots[i].fd >= 0
      modifies channels.Values`revent
      ensures Valid() && |active| == nums
      ensures forall k :: 0 <= k < nums ==>
                var n := ReadySlots(slots, 0)[k];
                && n < |slots| && Decode(slots[n].fd) in channels
                && active[k] == ChannelOf(n) && active[k].index == n && active[k].revent == slots[n].revents
    {
      ghost var found, end;
      AllRegistered();
      active, found, end := Collect(nums);
      AllRegistered();
      RestAreSilent(slots, end, found);
    }

    /** `active` are the channels of the slots `found`. */
    ghost predicate Collects(active: seq<Channel>, found: seq<nat>)
      reads this
    {
      && |active| == |found|
      && forall k :: 0 <= k < |found| ==>
           found[k] < |slots| && Decode(slots[found[k]].fd) in channels && active[k] == ChannelOf(found[k])
    }

    /** The ready slots before `end` have reached their channels. */
    ghost predicate Reported(end: nat)
      reads this, channels.Values`revent
    {
      forall n :: 0 <= n < end && n < |slots| && slots[n].revents > 0 && Decode(slots[n].fd) in channels ==>
        ChannelOf(n).revent == slots[n].revents
    }

    /** The body of that loop. */
    method Visit(i: nat, left: nat, active: seq<Channel>, ghost found: seq<nat>)
      returns (left': nat, active': seq<Channel>, ghost found': seq<nat>)
      requires Valid() && i < |slots| && left > 0
      requires slots[i].revents > 0 ==> slots[i].fd >= 0
      requires FoundSoFar(slots, i, found, left) && Collects(active, found) && Reported(i)
      modifies channels.Values`revent
      ensures Valid() && FoundSoFar(slots, i + 1, found', left') && Collects(active', found') && Reported(i + 1)
    {
      left', active', found' := left, active, found;
      NextSlot(slots, i, found, left);
      if slots[i].revents > 0 {
        left' := left - 1;
        var channel := Deliver(i);
        active', found' := active + [channel], found + [i];
      }
    }

    /** The loop of fillActiveChannels: the channels of the slots `found`, all before `end`. */
    method Collect(nums: nat) returns (active: seq<Channel>, ghost found: seq<nat>, ghost end: nat)
      requires Valid() && nums == |ReadySlots(slots, 0)|
      requires forall i :: 0 <= i < |slots| && slots[i].revents > 0 ==> slots[i].fd >= 0
      modifies channels.Values`revent
      ensures Valid() && end <= |slots|
      ensures FoundSoFar(slots, end, found, 0)
      ensures Collects(active, found) && Reported(end)
    {
      active, found := [], [];
      var left := nums;
      var i: nat := 0;
      while i < |slots| && left > 0
        invariant 0 <= i <= |slots| && Valid()
        invariant FoundSoFar(slots, i, found, left)
        invariant Collects(active, found) && Reported(i)
      {
        left, active, found := Visit(i, left, active, found);
        i := i + 1;
      }
      end := i;
      if i == |slots| {
        AllFound(slots, i, found, left);
      }
    }

    /** The lookup of fillActiveChannels, and setEvent. */
    method Deliver(i: nat) returns (channel: Channel)
      requires Valid() && i < |slots| && slots[i].fd >= 0
      modifies channels.Values`revent
      ensures Valid() && channel == ChannelOf(i) && channel.revent == slots[i].revents
      ensures forall n :: 0 <= n < |slots| && n != i ==> ChannelOf(n).revent == old(ChannelOf(n).revent)
    {
      AllRegistered();
      channel := channels[slots[i].fd];
      channel.SetEvent(slots[i].revents);
    }

    /** Every slot decodes to a registered channel of its own. */
    lemma AllRegistered()
      requires Valid()
      ensures forall n :: 0 <= n < |slots| ==> Decode(slots[n].fd) in channels && ChannelOf(n).index == n
      ensures forall m, n :: 0 <= m < |slots| && 0 <= n < |slots| && ChannelOf(m) == ChannelOf(n) ==> m == n
    {
    }
  }

  /** `found` are the ready slots before `i`, and `left` more are to come. */
  predicate FoundSoFar(slots: seq<Slot>, i: nat, found: seq<nat>, left: int) {
    found + ReadySlots(slots, i) == ReadySlots(slots, 0) && left == |ReadySlots(slots, i)|
  }

  lemma AllFound(slots: seq<Slot>, i: nat, found: seq<nat>, left: int)
    requires FoundSoFar(slots, i, found, left) && i >= |slots|
    ensures left == 0
  {
  }

  lemma NextSlot(slots: seq<Slot>, i: nat, found: seq<nat>, left: int)
    requires i < |slots| && FoundSoFar(slots, i, found, left)
    ensures if slots[i].revents > 0 then FoundSoFar(slots, i + 1, found + [i], left - 1)
            else FoundSoFar(slots, i + 1, found, left)
  {
    assert found + ([i] + ReadySlots(slots, i + 1)) == found + [i] + ReadySlots(slots, i + 1);
  }

  /** When everything ready has been found, it lies before `end`. */
  lemma RestAreSilent(slots: seq<Slot>, end: nat, found: seq<nat>)
    requires FoundSoFar(slots, end, found, 0)
    ensures found == ReadySlots(slots, 0)
    ensures forall k :: 0 <= k < |found| ==> found[k] < end && found[k] < |slots| && slots[found[k]].revents > 0
  {
    var all := ReadySlots(slots, 0);
    ReadySlotsAre(slots, 0);
    ReadySlotsAre(slots, end);
    assert found == all;
    assert forall k :: 0 <= k < |found| ==> found[k] in all && found[k] !in ReadySlots(slots, end);
  }

  const K_NEW: int := -1
  const K_ADDED: int := 1
  const K_DELETE: int := -2

  class Epoller {
    var channels: map<nat, Channel>
    ghost var mark: map<nat, Mark>
    ghost var kernel: map<nat, Mask>

    ghost predicate Valid()
      reads this, set fd | fd in channels :: channels[fd]
    {
      && mark.Keys == channels.Keys
      && (forall fd :: fd in channels ==>
            channels[fd].fd == fd && channels[fd].index == if mark[fd] == Added then K_ADDED else K_DELETE)
      && (forall fd :: fd in kernel <==> fd in mark && mark[fd] == Added)
    }

    ghost function View(): EpollTable
      reads this
    {
      EpollTable(mark, kernel, false)
    }

    constructor ()
      ensures Valid() && View() == NO_EPOLL && channels == map[]
    {
      channels, kernel, mark := map[], map[], map[];
    }

    /** epoll_ctl; the precondition is what the kernel demands. */
    method Update(op: Control, channel: Channel)
      requires (op == CtlAdd) != (channel.fd in kernel)
      modifies this`kernel
      ensures View() == EpollCtl(old(View()), op, channel.fd, channel.event)
    {
      if op == CtlDel {
        kernel := kernel - {channel.fd};
      } else {
        kernel := kernel[channel.fd := channel.event];
      }
    }

    method UpdateChannel(channel: Channel)
      requires Valid()
      requires channel.index == K_NEW ==> channel.fd !in channels
      requires channel.index != K_NEW ==> channel.fd in channels && channels[channel.fd] == channel
      modifies this, channel`index
      ensures Valid() && View() == EpollUpdate(old(View()), channel.fd, channel.event)
      ensures channels == old(channels)[channel.fd := channel]
    {
      var index := channel.index;
      if index == K_NEW || index == K_DELETE {
        AddChannel(channel);
      } else {
        ChangeChannel(channel);
      }
    }

    /** updateChannel for kNew and kDelete. */
    method AddChannel(channel: Channel)
      requires Valid()
      requires if channel.index == K_NEW then channel.fd !in channels
               else channel.index == K_DELETE && channel.fd in channels && channels[channel.fd] == channel
      modifies this, channel`index
      ensures Valid() && View() == EpollUpdate(old(View()), channel.fd, channel.event)
      ensures channels == old(channels)[channel.fd := channel]
    {
      if channel.index == K_NEW {
        channels := channels[channel.fd := channel];
      }
      channel.index := K_ADDED;
      mark := mark[channel.fd := Added];
      Update(CtlAdd, channel);
    }

    /** updateChannel for kAdded. */
    method ChangeChannel(channel: Channel)
      requires Valid() && channel.index == K_ADDED && channel.fd in channels && channels[channel.fd] == channel
      modifies this, channel`index
      ensures Valid() && View() == EpollUpdate(old(View()), channel.fd, channel.event)
      ensures channels == old(channels)[channel.fd := channel]
    {
      if channel.event == NO_EVENT {
        Update(CtlDel, channel);
        channel.index := K_DELETE;
        mark := mark[channel.fd := Deleted];
      } else {
        Update(CtlMod, channel);
      }
    }

    method RemoveChannel(channel: Channel)
      requires Valid()
      requires channel.fd in channels && channels[channel.fd] == channel && channel.event == NO_EVENT
      modifies this, channel`index
      ensures Valid() && View() == EpollRemove(old(View()), channel.fd)
      ensures channels == old(channels) - {channel.fd} && channel.index == K_NEW
    {
      var index := channel.index;
      assert index == K_ADDED || index == K_DELETE;
      channels := channels - {channel.fd};
      if index == K_ADDED {
        Update(CtlDel, channel);
      }
      channel.index := K_NEW;
      mark := mark - {channel.fd};
    }
  }
}

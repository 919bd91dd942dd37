/** How many events epoll can deliver at once, and whether they fit an event pool. */
module Pools {
  import opened Events
  import opened LoopTable
  import opened World
  import opened Lifecycle
  import opened Invariant
  import opened StepsTable

  /** The registered descriptors that are armed, counted along the table. */
  function ArmedCount(reg: Registry, kernel: map<int, Interest>): nat {
    if reg == [] then 0
    else One(reg[0].sd in kernel && kernel[reg[0].sd].armed) + ArmedCount(reg[1..], kernel)
  }

  /** A hang-up on every armed descriptor of the table. */
  function FullBatch(reg: Registry, kernel: map<int, Interest>): Batch {
    if reg == [] then NoMore
    else if reg[0].sd in kernel && kernel[reg[0].sd].armed then
      Ready(reg[0].sd, kernel[reg[0].sd].id, {HUP}, OnTimer(false, Return(1, true)), FullBatch(reg[1..], kernel))
    else FullBatch(reg[1..], kernel)
  }

  lemma {:induction false} FullBatchNames(reg: Registry, kernel: map<int, Interest>, fd: int)
    requires forall i :: 0 <= i < |reg| ==> reg[i].sd != fd
    ensures !Names(FullBatch(reg, kernel), fd)
  {
    if reg != [] { FullBatchNames(reg[1..], kernel, fd); }
  }

  lemma {:induction false} FullBatchIsDeliverable(reg: Registry, kernel: map<int, Interest>, next: nat)
    requires TableOk(reg, next)
    ensures Deliverable(kernel, FullBatch(reg, kernel)) && BatchSize(FullBatch(reg, kernel)) == ArmedCount(reg, kernel)
  {
    if reg != [] {
      FullBatchIsDeliverable(reg[1..], kernel, next);
      FullBatchNames(reg[1..], kernel, reg[0].sd);
    }
  }

  function BatchFds(b: Batch): set<int> {
    if b.NoMore? then {} else {b.fd} + BatchFds(b.more)
  }

  ghost function ArmedFds(reg: Registry, kernel: map<int, Interest>): set<int> {
    if reg == [] then {}
    else (if reg[0].sd in kernel && kernel[reg[0].sd].armed then {reg[0].sd} else {}) + ArmedFds(reg[1..], kernel)
  }

  lemma {:induction false} BatchFdsAreDistinct(kernel: map<int, Interest>, b: Batch)
    requires Deliverable(kernel, b)
    ensures |BatchFds(b)| == BatchSize(b)
    ensures forall fd :: fd in BatchFds(b) ==> fd in kernel && kernel[fd].armed
    decreases b
  {
    if b.Ready? {
      BatchFdsAreDistinct(kernel, b.more);
      NamesIsIn(b.more, b.fd);
    }
  }

  lemma {:induction false} NamesIsIn(b: Batch, fd: int)
    ensures Names(b, fd) <==> fd in BatchFds(b)
    decreases b
  {
    if b.Ready? { NamesIsIn(b.more, fd); }
  }

  lemma {:induction false} ArmedFdsCount(reg: Registry, kernel: map<int, Interest>, fd: int)
    ensures |ArmedFds(reg, kernel)| <= ArmedCount(reg, kernel)
    ensures fd in kernel && kernel[fd].armed && Find(reg, fd) < |reg| ==> fd in ArmedFds(reg, kernel)
  {
    if reg != [] { ArmedFdsCount(reg[1..], kernel, fd); }
  }

  lemma SubsetIsSmaller(a: set<int>, b: set<int>)
    requires a <= b
    ensures |a| <= |b|
  {
    assert b == a + (b - a);
  }

  /**
   The events epoll can deliver at once always fit a pool if and only if no more descriptors are
   armed than the pool has places: a pool sized before further descriptors were added is overrun.
   */
  lemma PoolSufficesIff(w: World, pool: nat)
    requires Inv(w)
    ensures (forall b: Batch :: Deliverable(w.kernel, b) ==> BatchSize(b) <= pool)
       <==> ArmedCount(w.reg, w.kernel) <= pool
  {
    hide Inv, Deliverable, BatchSize;
    forall b: Batch | Deliverable(w.kernel, b) ensures BatchSize(b) <= ArmedCount(w.reg, w.kernel) {
      BatchFdsAreDistinct(w.kernel, b);
      forall fd | fd in BatchFds(b) ensures fd in ArmedFds(w.reg, w.kernel) {
        WatchedIffRegistered(w, fd);
        ArmedFdsCount(w.reg, w.kernel, fd);
      }
      SubsetIsSmaller(BatchFds(b), ArmedFds(w.reg, w.kernel));
      ArmedFdsCount(w.reg, w.kernel, 0);
    }
    TableHere(w);
    FullBatchIsDeliverable(w.reg, w.kernel, w.next);
  }

  /** The kernel watches exactly the registered descriptors, for their entries. */
  lemma WatchedIffRegistered(w: World, fd: int)
    requires Inv(w)
    ensures fd in w.kernel <==> Find(w.reg, fd) < |w.reg|
    ensures fd in w.kernel ==> w.reg[Find(w.reg, fd)].id == w.kernel[fd].id
  {
    hide TableOk, LinksOk, RefsOk, SilentOk, MasksOk, TimersOk, HandlersOk, EntryLogOk, ChanLogOk, TimerLogOk,
         LedgerOk, Lawful;
    UnwatchedIsUnregistered(w.reg, w.kernel, w.epollOpen, fd);
  }

  lemma TableHere(w: World)
    requires Inv(w)
    ensures TableOk(w.reg, w.next)
  {
    hide TableOk, MirrorOk, LinksOk, RefsOk, SilentOk, MasksOk, TimersOk, HandlersOk, EntryLogOk, ChanLogOk,
         TimerLogOk, LedgerOk, Lawful;
  }

  lemma {:induction false} BatchFitsTable(w: World, b: Batch)
    requires Inv(w) && Deliverable(w.kernel, b)
    ensures BatchSize(b) <= |w.reg|
  {
    hide Inv, Deliverable;
    PoolSufficesIff(w, |w.reg|);
    ArmedAtMost(w.reg, w.kernel);
  }

  lemma {:induction false} ArmedAtMost(reg: Registry, kernel: map<int, Interest>)
    ensures ArmedCount(reg, kernel) <= |reg|
  {
    if reg != [] { ArmedAtMost(reg[1..], kernel); }
  }
}

/** How the accounts of closings, disposals and firings follow the changes an operation makes. */
module StepsLedger {
  import opened Events
  import opened LoopTable
  import opened World
  import opened Invariant
  import opened StepsTable

  type Kernel = map<int, Interest>

  // ------------------------------------------------------------ events the accounts do not hear

  predicate AboutLedger(e: Event) {
    || e.Wrapped? || e.Opened? || e.ChannelClosed? || e.Detached? || e.Added?
    || e.TimerOpened? || e.TimerClosed? || e.TimerDestroyed? || e.TimerFreed? || e.Fired? || e.Rearmed?
  }

  lemma ClosesHear(log: Trace, e: Event, chans: Chans)
    requires ClosesOk(log, chans) && !e.Wrapped? && !e.Opened? && !e.ChannelClosed? && !e.Detached?
    ensures ClosesOk(Then(log, e), chans)
  {
    var log' := Then(log, e);
    forall p: nat ensures CloseAt(log', Held(chans, p), p) {
      assert CloseAt(log, Held(chans, p), p);
      forall fd: int ensures Times(log', ChannelClosed(p, fd)) == Times(log, ChannelClosed(p, fd)) {
      }
    }
  }

  lemma EndsHear(log: Trace, e: Event, timers: Timers, next: nat)
    requires EndsOk(log, timers, next)
    requires !e.TimerOpened? && !e.TimerClosed? && !e.TimerDestroyed? && !e.TimerFreed?
    requires !e.Added? || forall t: nat :: e.id == EntryOf(t) ==> MakingOf(log, t).Unmade?
    ensures EndsOk(Then(log, e), timers, next)
  {
    forall t: nat ensures EndAt(Then(log, e), Kept(timers, t), next, t) {
      assert EndAt(log, Kept(timers, t), next, t);
      EndHears(log, e, Kept(timers, t), next, t);
    }
  }

  lemma EndHears(log: Trace, e: Event, kept: Making, next: nat, t: nat)
    requires EndAt(log, kept, next, t)
    requires !e.TimerOpened? && !e.TimerClosed? && !e.TimerDestroyed? && !e.TimerFreed?
    requires e == Added(EntryOf(t)) ==> MakingOf(log, t).Unmade?
    ensures EndAt(Then(log, e), kept, next, t)
  {
    var log' := Then(log, e);
    forall fd: int ensures Times(log', TimerClosed(t, fd)) == Times(log, TimerClosed(t, fd)) {
    }
    forall d: nat ensures Times(log', TimerDestroyed(t, d)) == Times(log, TimerDestroyed(t, d)) {
    }
  }

  lemma ShotsHear(log: Trace, e: Event, reg: Registry, kernel: Kernel, timers: Timers, pools: multiset<nat>)
    requires ShotsOk(log, reg, kernel, timers, pools) && !e.Added? && !e.TimerOpened? && !e.Fired? && !e.Rearmed?
    ensures ShotsOk(Then(log, e), reg, kernel, timers, pools)
  {
    forall t: nat
      ensures ShotAt(Then(log, e), InTable(reg, EntryOf(t)), t in timers, ArmedIn(kernel, timers, t),
                     pools[EntryOf(t)], t)
    {
      ShotHere(log, reg, kernel, timers, pools, t);
    }
  }

  lemma ShotHere(log: Trace, reg: Registry, kernel: Kernel, timers: Timers, pools: multiset<nat>, t: nat)
    requires ShotsOk(log, reg, kernel, timers, pools)
    ensures ShotAt(log, InTable(reg, EntryOf(t)), t in timers, ArmedIn(kernel, timers, t), pools[EntryOf(t)], t)
  {
  }

  lemma PoolsHear(log: Trace, e: Event, pools: multiset<nat>)
    requires PoolsOk(log, pools)
    ensures PoolsOk(Then(log, e), pools)
  {
  }

  lemma LedgerHears(log: Trace, e: Event, reg: Registry, kernel: Kernel, chans: Chans, timers: Timers,
                    pools: multiset<nat>, next: nat)
    requires LedgerOk(log, reg, kernel, chans, timers, pools, next) && !AboutLedger(e)
    ensures LedgerOk(Then(log, e), reg, kernel, chans, timers, pools, next)
  {
    hide ClosesOk, EndsOk, ShotsOk, PoolsOk;
    ClosesHear(log, e, chans);
    EndsHear(log, e, timers, next);
    ShotsHear(log, e, reg, kernel, timers, pools);
    PoolsHear(log, e, pools);
  }

  /** b is a with events the accounts do not hear appended. */
  ghost predicate LedgerUnheard(a: Trace, b: Trace)
    decreases b
  {
    a == b || (b.Then? && LedgerUnheard(a, b.past) && !AboutLedger(b.last))
  }

  lemma LedgerHearsAll(a: Trace, b: Trace, reg: Registry, kernel: Kernel, chans: Chans, timers: Timers,
                       pools: multiset<nat>, next: nat)
    requires LedgerOk(a, reg, kernel, chans, timers, pools, next) && LedgerUnheard(a, b)
    ensures LedgerOk(b, reg, kernel, chans, timers, pools, next)
    decreases b
  {
    hide LedgerOk, AboutLedger;
    if a != b {
      LedgerHearsAll(a, b.past, reg, kernel, chans, timers, pools, next);
      LedgerHears(b.past, b.last, reg, kernel, chans, timers, pools, next);
    }
  }

  // ------------------------------------------------------------ records that change or go

  lemma ClosesAfterUpdate(log: Trace, chans: Chans, p: nat, c: Chan)
    requires ClosesOk(log, chans) && c.descriptor == Held(chans, p)
    ensures ClosesOk(log, chans[p := c])
  {
    var chans' := chans[p := c];
    forall q: nat ensures CloseAt(log, Held(chans', q), q) {
      assert CloseAt(log, Held(chans, q), q);
    }
  }

  lemma LedgerAfterUpdate(log: Trace, reg: Registry, kernel: Kernel, chans: Chans, timers: Timers,
                          pools: multiset<nat>, next: nat, p: nat, c: Chan)
    requires LedgerOk(log, reg, kernel, chans, timers, pools, next)
    requires p in chans && c.descriptor == chans[p].descriptor
    ensures LedgerOk(log, reg, kernel, chans[p := c], timers, pools, next)
  {
    hide ClosesOk, EndsOk, ShotsOk, PoolsOk;
    ClosesAfterUpdate(log, chans, p, c);
  }

  lemma LedgerAfterFree(log: Trace, reg: Registry, kernel: Kernel, chans: Chans, timers: Timers,
                        pools: multiset<nat>, next: nat, p: nat)
    requires LedgerOk(log, reg, kernel, chans, timers, pools, next)
    requires p in chans && chans[p].descriptor < 0
    ensures LedgerOk(log, reg, kernel, chans - {p}, timers, pools, next)
  {
    hide EndsOk, ShotsOk, PoolsOk;
    var chans' := chans - {p};
    forall q: nat ensures CloseAt(log, Held(chans', q), q) {
      assert CloseAt(log, Held(chans, q), q);
    }
  }

  lemma ShotsAfterTimerUpdate(log: Trace, reg: Registry, kernel: Kernel, timers: Timers, pools: multiset<nat>,
                              t: nat, r: TimerRecord)
    requires ShotsOk(log, reg, kernel, timers, pools) && t in timers && r.id == timers[t].id
    ensures ShotsOk(log, reg, kernel, timers[t := r], pools)
  {
    var timers' := timers[t := r];
    forall u: nat
      ensures ShotAt(log, InTable(reg, EntryOf(u)), u in timers', ArmedIn(kernel, timers', u), pools[EntryOf(u)], u)
    {
      ShotHere(log, reg, kernel, timers, pools, u);
    }
  }

  lemma LedgerAfterTimerUpdate(log: Trace, reg: Registry, kernel: Kernel, chans: Chans, timers: Timers,
                               pools: multiset<nat>, next: nat, t: nat, pending: bool)
    requires LedgerOk(log, reg, kernel, chans, timers, pools, next) && t in timers
    ensures LedgerOk(log, reg, kernel, chans, timers[t := timers[t].(pending := pending)], pools, next)
  {
    hide ClosesOk, ShotsOk, PoolsOk;
    var timers' := timers[t := timers[t].(pending := pending)];
    forall u: nat ensures EndAt(log, Kept(timers', u), next, u) {
      assert EndAt(log, Kept(timers, u), next, u);
    }
    ShotsAfterTimerUpdate(log, reg, kernel, timers, pools, t, timers'[t]);
  }

  lemma LedgerNextGrows(log: Trace, reg: Registry, kernel: Kernel, chans: Chans, timers: Timers,
                        pools: multiset<nat>, next: nat, n: nat)
    requires LedgerOk(log, reg, kernel, chans, timers, pools, next) && n >= next
    ensures LedgerOk(log, reg, kernel, chans, timers, pools, n)
  {
    hide ClosesOk, ShotsOk;
    forall t: nat ensures EndAt(log, Kept(timers, t), n, t) {
      assert EndAt(log, Kept(timers, t), next, t);
    }
  }

  // ------------------------------------------------------------ the table and the kernel shrink

  /** Fewer entries, fewer armed timers and fewer events to come are no more than before. */
  lemma ShotsShrink(log: Trace, reg: Registry, kernel: Kernel, timers: Timers, pools: multiset<nat>,
                    reg': Registry, kernel': Kernel, pools': multiset<nat>)
    requires ShotsOk(log, reg, kernel, timers, pools)
    requires forall t: nat :: InTable(reg', EntryOf(t)) ==> InTable(reg, EntryOf(t))
    requires forall t: nat :: ArmedIn(kernel', timers, t) ==> ArmedIn(kernel, timers, t)
    requires forall id: nat :: pools'[id] <= pools[id]
    ensures ShotsOk(log, reg', kernel', timers, pools')
  {
    forall t: nat
      ensures ShotAt(log, InTable(reg', EntryOf(t)), t in timers, ArmedIn(kernel', timers, t), pools'[EntryOf(t)], t)
    {
      ShotHere(log, reg, kernel, timers, pools, t);
    }
  }

  lemma LedgerAfterDelete(log: Trace, reg: Registry, kernel: Kernel, chans: Chans, timers: Timers,
                          pools: multiset<nat>, next: nat, k: nat)
    requires LedgerOk(log, reg, kernel, chans, timers, pools, next) && TableOk(reg, next) && k < |reg|
    ensures LedgerOk(log, Without(reg, k), kernel - {reg[k].sd}, chans, timers, pools, next)
  {
    hide ClosesOk, EndsOk, ShotsOk, PoolsOk, TableOk;
    forall t: nat ensures InTable(Without(reg, k), EntryOf(t)) ==> InTable(reg, EntryOf(t)) {
      InTableAfterDelete(reg, next, k, EntryOf(t));
    }
    ShotsShrink(log, reg, kernel, timers, pools, Without(reg, k), kernel - {reg[k].sd}, pools);
  }

  lemma LedgerAfterDraw(log: Trace, reg: Registry, kernel: Kernel, chans: Chans, timers: Timers,
                        pools: multiset<nat>, next: nat, id: nat)
    requires LedgerOk(log, reg, kernel, chans, timers, pools, next)
    ensures LedgerOk(log, reg, kernel, chans, timers, pools - multiset{id}, next)
  {
    hide ClosesOk, EndsOk, ShotsOk;
    ShotsShrink(log, reg, kernel, timers, pools, reg, kernel, pools - multiset{id});
  }

  lemma LedgerWhenEmpty(log: Trace, kernel: Kernel, chans: Chans, timers: Timers, pools: multiset<nat>, next: nat)
    requires LedgerOk(log, [], kernel, chans, timers, pools, next)
    ensures LedgerOk(log, [], map[], chans, timers, pools, next)
  {
    hide ClosesOk, EndsOk, ShotsOk, PoolsOk;
    ShotsShrink(log, [], kernel, timers, pools, [], map[], pools);
  }

  // ------------------------------------------------------------ a channel is closed

  /** What io_destroy_callback adds to the trace after the destroyers. */
  function ClosedLog(log: Trace, p: nat, fd: int, closing: bool): Trace {
    Then(if closing then Then(log, ChannelClosed(p, fd)) else log, Detached(p, closing))
  }

  lemma ClosedLogCounts(log: Trace, p: nat, d: int, closing: bool, q: nat, fd: int)
    ensures var log' := ClosedLog(log, p, d, closing);
            && Times(log', ChannelClosed(q, fd)) == Times(log, ChannelClosed(q, fd)) + One(closing && q == p && fd == d)
            && Times(log', Detached(q, true)) == Times(log, Detached(q, true)) + One(closing && q == p)
            && Times(log', Detached(q, false)) == Times(log, Detached(q, false)) + One(!closing && q == p)
            && FdOf(log', q) == FdOf(log, q) && Happened(log', Opened(q)) == Happened(log, Opened(q))
  {
    var log1 := Then(log, ChannelClosed(p, d));
    assert Times(log1, Detached(q, true)) == Times(log, Detached(q, true));
    assert Times(log1, Detached(q, false)) == Times(log, Detached(q, false));
    assert FdOf(log1, q) == FdOf(log, q) && Happened(log1, Opened(q)) == Happened(log, Opened(q));
    assert Times(log1, ChannelClosed(q, fd)) == Times(log, ChannelClosed(q, fd)) + One(q == p && fd == d);
  }

  lemma NoClosingYet(log: Trace, chans: Chans, p: nat)
    requires ClosesOk(log, chans) && p in chans && chans[p].descriptor >= 0
    ensures Detachments(log, p) == 0 && FdOf(log, p) == chans[p].descriptor
    ensures Times(log, ChannelClosed(p, chans[p].descriptor)) == 0
  {
    assert CloseAt(log, Held(chans, p), p);
  }

  lemma ClosesAfterClose(log: Trace, chans: Chans, p: nat, closing: bool)
    requires ClosesOk(log, chans) && p in chans && chans[p].descriptor >= 0
    ensures ClosesOk(ClosedLog(log, p, chans[p].descriptor, closing), chans[p := chans[p].(descriptor := -1)])
  {
    hide ClosedLog, Times, Happened, FdOf;
    var d := chans[p].descriptor;
    var log', chans' := ClosedLog(log, p, d, closing), chans[p := chans[p].(descriptor := -1)];
    forall q: nat ensures CloseAt(log', Held(chans', q), q) {
      assert CloseAt(log, Held(chans, q), q);
      ClosedLogCounts(log, p, d, closing, q, d);
      forall fd: int
        ensures Times(log', ChannelClosed(q, fd)) == if fd == FdOf(log', q) then Times(log', Detached(q, true)) else 0
      {
        ClosedLogCounts(log, p, d, closing, q, fd);
      }
    }
  }

  lemma LedgerAfterClose(log: Trace, reg: Registry, kernel: Kernel, chans: Chans, timers: Timers,
                         pools: multiset<nat>, next: nat, p: nat, closing: bool)
    requires LedgerOk(log, reg, kernel, chans, timers, pools, next)
    requires p in chans && chans[p].descriptor >= 0
    ensures LedgerOk(ClosedLog(log, p, chans[p].descriptor, closing), reg, kernel,
                     chans[p := chans[p].(descriptor := -1)], timers, pools, next)
  {
    hide ClosesOk, EndsOk, ShotsOk, PoolsOk;
    var e, f := ChannelClosed(p, chans[p].descriptor), Detached(p, closing);
    ClosesAfterClose(log, chans, p, closing);
    if closing {
      PoolsHear(log, e, pools);
      EndsHear(log, e, timers, next);
      ShotsHear(log, e, reg, kernel, timers, pools);
    }
    var log1 := if closing then Then(log, e) else log;
    EndsHear(log1, f, timers, next);
    ShotsHear(log1, f, reg, kernel, timers, pools);
    PoolsHear(log1, f, pools);
  }

  // ------------------------------------------------------------ a channel is opened

  function OpenedLog(log: Trace, p: nat, fd: int): Trace {
    Then(Then(Then(log, Added(EntryOf(p))), Wrapped(p, fd)), Opened(p))
  }

  lemma OpenedLogCounts(log: Trace, p: nat, d: int, q: nat, fd: int)
    ensures var log' := OpenedLog(log, p, d);
            && Times(log', ChannelClosed(q, fd)) == Times(log, ChannelClosed(q, fd))
            && Times(log', Detached(q, true)) == Times(log, Detached(q, true))
            && Times(log', Detached(q, false)) == Times(log, Detached(q, false))
            && FdOf(log', q) == (if q == p then d else FdOf(log, q))
            && Happened(log', Opened(q)) == (q == p || Happened(log, Opened(q)))
  {
    var log1 := Then(log, Added(EntryOf(p)));
    assert Times(log1, ChannelClosed(q, fd)) == Times(log, ChannelClosed(q, fd)) && FdOf(log1, q) == FdOf(log, q);
    assert Times(log1, Detached(q, true)) == Times(log, Detached(q, true))
           && Happened(log1, Opened(q)) == Happened(log, Opened(q));
    assert Times(log1, Detached(q, false)) == Times(log, Detached(q, false));
    var log2 := Then(log1, Wrapped(p, d));
    assert Times(log2, ChannelClosed(q, fd)) == Times(log, ChannelClosed(q, fd));
    assert Times(log2, Detached(q, true)) == Times(log, Detached(q, true))
           && Happened(log2, Opened(q)) == Happened(log, Opened(q));
    assert Times(log2, Detached(q, false)) == Times(log, Detached(q, false))
           && FdOf(log2, q) == (if q == p then d else FdOf(log, q));
  }

  lemma ClosesAfterOpened(log: Trace, chans: Chans, p: nat, c: Chan)
    requires ClosesOk(log, chans) && p !in chans && !Happened(log, Opened(p)) && c.descriptor >= 0
    ensures ClosesOk(OpenedLog(log, p, c.descriptor), chans[p := c])
  {
    hide OpenedLog, Times, Happened, FdOf;
    var d := c.descriptor;
    var log', chans' := OpenedLog(log, p, d), chans[p := c];
    forall q: nat ensures CloseAt(log', Held(chans', q), q) {
      assert CloseAt(log, Held(chans, q), q);
      OpenedLogCounts(log, p, d, q, d);
      forall fd: int
        ensures Times(log', ChannelClosed(q, fd)) == if fd == FdOf(log', q) then Times(log', Detached(q, true)) else 0
      {
        OpenedLogCounts(log, p, d, q, fd);
      }
    }
  }

  lemma UnmadeHere(log: Trace, timers: Timers, next: nat, t: nat)
    requires EndsOk(log, timers, next) && t >= next
    ensures MakingOf(log, t).Unmade? && t !in timers
    ensures Times(log, TimerFreed(t)) == 0
  {
    assert EndAt(log, Kept(timers, t), next, t);
  }

  lemma EndsAfterOpened(log: Trace, timers: Timers, p: nat, fd: int)
    requires EndsOk(log, timers, p)
    ensures EndsOk(OpenedLog(log, p, fd), timers, p + 2)
  {
    UnmadeHere(log, timers, p, p);
    hide EndsOk;
    EndsHear(log, Added(EntryOf(p)), timers, p);
    EndsHear(Then(log, Added(EntryOf(p))), Wrapped(p, fd), timers, p);
    EndsHear(Then(Then(log, Added(EntryOf(p))), Wrapped(p, fd)), Opened(p), timers, p);
    EndsNextGrows(OpenedLog(log, p, fd), timers, p, p + 2);
  }

  lemma EndsNextGrows(log: Trace, timers: Timers, next: nat, n: nat)
    requires EndsOk(log, timers, next) && n >= next
    ensures EndsOk(log, timers, n)
  {
    forall t: nat ensures EndAt(log, Kept(timers, t), n, t) {
      assert EndAt(log, Kept(timers, t), next, t);
    }
  }

  /** The armed flag of a timer is not touched by what is done to another descriptor. */
  lemma ArmedElsewhere(reg: Registry, kernel: Kernel, timers: Timers, next: nat, fd: int, i: Interest, t: nat)
    requires TimersOk(reg, timers, next)
    requires !Registered(reg, fd, Timer(t))
    ensures ArmedIn(kernel[fd := i], timers, t) == ArmedIn(kernel, timers, t)
  {
    assert t in timers ==> Registered(reg, timers[t].id, Timer(t));
  }

  lemma ShotsAfterOpened(log: Trace, reg: Registry, kernel: Kernel, timers: Timers, pools: multiset<nat>,
                         p: nat, e: Row)
    requires ShotsOk(log, reg, kernel, timers, pools) && TimersOk(reg, timers, p)
    requires Find(reg, e.sd) == |reg| && e.id == EntryOf(p) && MakingOf(log, p).Unmade? && Times(log, Fired(p)) == 0
    ensures ShotsOk(OpenedLog(log, p, e.sd), reg + [e], kernel[e.sd := Interest(e.id, e.mask, true)], timers, pools)
  {
    var log', kernel' := OpenedLog(log, p, e.sd), kernel[e.sd := Interest(e.id, e.mask, true)];
    forall t: nat
      ensures ShotAt(log', InTable(reg + [e], EntryOf(t)), t in timers, ArmedIn(kernel', timers, t),
                     pools[EntryOf(t)], t)
    {
      ShotHere(log, reg, kernel, timers, pools, t);
      FindAfterAdd(reg, e, e.sd, EntryOf(t));
      ArmedElsewhere(reg, kernel, timers, p, e.sd, kernel'[e.sd], t);
      OpenedShots(log, p, e.sd, t);
    }
  }

  lemma OpenedShots(log: Trace, p: nat, d: int, t: nat)
    ensures var log' := OpenedLog(log, p, d);
            && MakingOf(log', t) == MakingOf(log, t) && Times(log', Fired(t)) == Times(log, Fired(t))
            && Times(log', Rearmed(t)) == Times(log, Rearmed(t))
            && (t != p ==> Happened(log', Added(EntryOf(t))) == Happened(log, Added(EntryOf(t))))
  {
    var log1 := Then(log, Added(EntryOf(p)));
    var log2 := Then(log1, Wrapped(p, d));
    assert MakingOf(log1, t) == MakingOf(log, t) && Times(log1, Fired(t)) == Times(log, Fired(t));
    assert Times(log1, Rearmed(t)) == Times(log, Rearmed(t));
    assert t != p ==> Happened(log1, Added(EntryOf(t))) == Happened(log, Added(EntryOf(t)));
    assert MakingOf(log2, t) == MakingOf(log, t) && Times(log2, Fired(t)) == Times(log, Fired(t));
    assert Times(log2, Rearmed(t)) == Times(log, Rearmed(t));
    assert Happened(log2, Added(EntryOf(t))) == Happened(log1, Added(EntryOf(t)));
  }

  lemma LedgerAfterOpened(log: Trace, reg: Registry, kernel: Kernel, chans: Chans, timers: Timers,
                          pools: multiset<nat>, p: nat, e: Row, c: Chan)
    requires LedgerOk(log, reg, kernel, chans, timers, pools, p) && TimersOk(reg, timers, p)
    requires Find(reg, e.sd) == |reg| && e.id == EntryOf(p) && e.sd == c.descriptor >= 0
    requires p !in chans && !Happened(log, Opened(p))
    ensures LedgerOk(OpenedLog(log, p, e.sd), reg + [e], kernel[e.sd := Interest(e.id, e.mask, true)],
                     chans[p := c], timers, pools, p + 2)
  {
    UnmadeHere(log, timers, p, p);
    ShotHere(log, reg, kernel, timers, pools, p);
    hide ClosesOk, EndsOk, ShotsOk, TimersOk, PoolsOk;
    PoolsHear(log, Added(EntryOf(p)), pools);
    PoolsHear(Then(log, Added(EntryOf(p))), Wrapped(p, e.sd), pools);
    PoolsHear(Then(Then(log, Added(EntryOf(p))), Wrapped(p, e.sd)), Opened(p), pools);
    ClosesAfterOpened(log, chans, p, c);
    EndsAfterOpened(log, timers, p, e.sd);
    ShotsAfterOpened(log, reg, kernel, timers, pools, p, e);
  }

  // ------------------------------------------------------------ masks

  lemma LedgerAfterRemask(log: Trace, reg: Registry, kernel: Kernel, chans: Chans, timers: Timers,
                          pools: multiset<nat>, next: nat, k: nat, m: Mask)
    requires LedgerOk(log, reg, kernel, chans, timers, pools, next)
    requires TableOk(reg, next) && TimersOk(reg, timers, next) && k < |reg| && reg[k].client.Channel?
    ensures LedgerOk(log, Remasked(reg, k, m), kernel[reg[k].sd := Interest(reg[k].id, m, true)],
                     chans, timers, pools, next)
  {
    FindIs(reg, next, k);
    hide ClosesOk, EndsOk, ShotsOk, PoolsOk, TimersOk, TableOk;
    var kernel' := kernel[reg[k].sd := Interest(reg[k].id, m, true)];
    forall t: nat ensures InTable(Remasked(reg, k, m), EntryOf(t)) ==> InTable(reg, EntryOf(t)) {
      FindAfterRemask(reg, k, m, 0, EntryOf(t));
    }
    forall t: nat ensures ArmedIn(kernel', timers, t) ==> ArmedIn(kernel, timers, t) {
      ArmedElsewhere(reg, kernel, timers, next, reg[k].sd, kernel'[reg[k].sd], t);
    }
    ShotsShrink(log, reg, kernel, timers, pools, Remasked(reg, k, m), kernel', pools);
  }

  // ------------------------------------------------------------ a timer is registered

  function StartedLog(log: Trace, t: nat, r: TimerRecord): Trace {
    Then(Then(Then(log, TimerOpened(t, r.id, r.data, r.destructor)), Armed(t)), Added(EntryOf(t)))
  }

  /** What the accounts read from the trace of one timer. */
  ghost predicate SameAccounts(a: Trace, b: Trace, u: nat) {
    && MakingOf(b, u) == MakingOf(a, u) && Times(b, TimerFreed(u)) == Times(a, TimerFreed(u))
    && (forall fd: int :: Times(b, TimerClosed(u, fd)) == Times(a, TimerClosed(u, fd)))
    && (forall d: nat :: Times(b, TimerDestroyed(u, d)) == Times(a, TimerDestroyed(u, d)))
    && Happened(b, Added(EntryOf(u))) == Happened(a, Added(EntryOf(u)))
    && Times(b, Fired(u)) == Times(a, Fired(u)) && Times(b, Rearmed(u)) == Times(a, Rearmed(u))
  }

  predicate Concerns(e: Event, u: nat) {
    match e
    case TimerOpened(t, _, _, _) => t == u
    case TimerClosed(t, _) => t == u
    case TimerDestroyed(t, _) => t == u
    case TimerFreed(t) => t == u
    case Added(id) => id == EntryOf(u)
    case Fired(t) => t == u
    case Rearmed(t) => t == u
    case _ => false
  }

  lemma Unconcerned(log: Trace, e: Event, u: nat)
    requires !Concerns(e, u)
    ensures SameAccounts(log, Then(log, e), u)
  {
  }

  lemma SameEnd(a: Trace, b: Trace, kept: Making, next: nat, n: nat, u: nat)
    requires EndAt(a, kept, next, u) && SameAccounts(a, b, u) && n >= next
    ensures EndAt(b, kept, n, u)
  {
    hide Times, Happened, MakingOf;
  }

  lemma SameShot(a: Trace, b: Trace, inTable: bool, stored: bool, armed: bool, queued: nat, u: nat)
    requires ShotAt(a, inTable, stored, armed, queued, u) && SameAccounts(a, b, u)
    ensures ShotAt(b, inTable, stored, armed, queued, u)
  {
    hide Times, Happened, MakingOf;
  }

  lemma SameAccountsTwice(a: Trace, b: Trace, c: Trace, u: nat)
    requires SameAccounts(a, b, u) && SameAccounts(b, c, u)
    ensures SameAccounts(a, c, u)
  {
  }

  lemma StartedElsewhere(log: Trace, t: nat, r: TimerRecord, u: nat)
    requires u != t
    ensures SameAccounts(log, StartedLog(log, t, r), u)
  {
    hide SameAccounts;
    var log1 := Then(log, TimerOpened(t, r.id, r.data, r.destructor));
    var log2 := Then(log1, Armed(t));
    Unconcerned(log, log1.last, u);
    Unconcerned(log1, Armed(t), u);
    Unconcerned(log2, Added(EntryOf(t)), u);
    SameAccountsTwice(log, log1, log2, u);
    SameAccountsTwice(log, log2, StartedLog(log, t, r), u);
  }

  lemma StartedHere(log: Trace, t: nat, r: TimerRecord)
    ensures var log' := StartedLog(log, t, r);
            && MakingOf(log', t) == Made(r.id, r.data, r.destructor)
            && Happened(log', Added(EntryOf(t)))
            && Times(log', TimerFreed(t)) == Times(log, TimerFreed(t))
            && Times(log', Fired(t)) == Times(log, Fired(t))
            && (forall fd: int :: Times(log', TimerClosed(t, fd)) == Times(log, TimerClosed(t, fd)))
            && (forall d: nat :: Times(log', TimerDestroyed(t, d)) == Times(log, TimerDestroyed(t, d)))
  {
    var log1 := Then(log, TimerOpened(t, r.id, r.data, r.destructor));
    var log2 := Then(log1, Armed(t));
    Unconcerned(log1, Armed(t), t);
    assert Times(log1, TimerFreed(t)) == Times(log, TimerFreed(t)) && Times(log1, Fired(t)) == Times(log, Fired(t));
    forall fd: int ensures Times(log1, TimerClosed(t, fd)) == Times(log, TimerClosed(t, fd)) {
    }
    forall d: nat ensures Times(log1, TimerDestroyed(t, d)) == Times(log, TimerDestroyed(t, d)) {
    }
  }

  lemma EndsAfterStarted(log: Trace, timers: Timers, t: nat, r: TimerRecord)
    requires EndsOk(log, timers, t)
    ensures EndsOk(StartedLog(log, t, r), timers[t := r], t + 2)
  {
    hide StartedLog, SameAccounts;
    var log', timers' := StartedLog(log, t, r), timers[t := r];
    forall u: nat ensures EndAt(log', Kept(timers', u), t + 2, u) {
      assert EndAt(log, Kept(timers, u), t, u);
      if u == t {
        StartedHere(log, t, r);
      } else {
        StartedElsewhere(log, t, r, u);
        SameEnd(log, log', Kept(timers, u), t, t + 2, u);
      }
    }
  }

  lemma ShotsAfterStarted(log: Trace, reg: Registry, kernel: Kernel, timers: Timers, pools: multiset<nat>,
                          t: nat, r: TimerRecord, e: Row)
    requires ShotsOk(log, reg, kernel, timers, pools) && TimersOk(reg, timers, t)
    requires Find(reg, e.sd) == |reg| && e.sd == r.id && e.id == EntryOf(t)
    requires MakingOf(log, t).Unmade? && pools[EntryOf(t)] == 0 && t !in timers
    ensures ShotsOk(StartedLog(log, t, r), reg + [e], kernel[e.sd := Interest(e.id, e.mask, true)], timers[t := r],
                    pools)
  {
    hide StartedLog, SameAccounts;
    var log', kernel', timers' := StartedLog(log, t, r), kernel[e.sd := Interest(e.id, e.mask, true)], timers[t := r];
    forall u: nat
      ensures ShotAt(log', InTable(reg + [e], EntryOf(u)), u in timers', ArmedIn(kernel', timers', u),
                     pools[EntryOf(u)], u)
    {
      ShotHere(log, reg, kernel, timers, pools, u);
      if u == t {
        StartedHere(log, t, r);
      } else {
        FindAfterAdd(reg, e, e.sd, EntryOf(u));
        ArmedElsewhere(reg, kernel, timers, t, e.sd, kernel'[e.sd], u);
        StartedElsewhere(log, t, r, u);
        SameShot(log, log', InTable(reg, EntryOf(u)), u in timers, ArmedIn(kernel, timers, u), pools[EntryOf(u)], u);
      }
    }
  }

  lemma LedgerAfterStarted(log: Trace, reg: Registry, kernel: Kernel, chans: Chans, timers: Timers,
                           pools: multiset<nat>, t: nat, r: TimerRecord, e: Row)
    requires LedgerOk(log, reg, kernel, chans, timers, pools, t) && TimersOk(reg, timers, t)
    requires Find(reg, e.sd) == |reg| && e.sd == r.id && e.id == EntryOf(t) && pools[EntryOf(t)] == 0
    ensures LedgerOk(StartedLog(log, t, r), reg + [e], kernel[e.sd := Interest(e.id, e.mask, true)],
                     chans, timers[t := r], pools, t + 2)
  {
    UnmadeHere(log, timers, t, t);
    hide ClosesOk, EndsOk, ShotsOk, TimersOk, PoolsOk;
    EndsAfterStarted(log, timers, t, r);
    ShotsAfterStarted(log, reg, kernel, timers, pools, t, r, e);
    var made := TimerOpened(t, r.id, r.data, r.destructor);
    PoolsHear(log, made, pools);
    PoolsHear(Then(log, made), Armed(t), pools);
    PoolsHear(Then(Then(log, made), Armed(t)), Added(EntryOf(t)), pools);
    ClosesHear(log, made, chans);
    ClosesHear(Then(log, made), Armed(t), chans);
    ClosesHear(Then(Then(log, made), Armed(t)), Added(EntryOf(t)), chans);
  }

  // ------------------------------------------------------------ a timer could not be registered

  function AbandonedLog(log: Trace, t: nat, r: TimerRecord): Trace {
    Then(Then(Then(Then(log, TimerOpened(t, r.id, r.data, r.destructor)), Armed(t)), TimerClosed(t, r.id)),
         TimerFreed(t))
  }

  lemma AbandonedElsewhere(log: Trace, t: nat, r: TimerRecord, u: nat)
    requires u != t
    ensures SameAccounts(log, AbandonedLog(log, t, r), u)
  {
    hide SameAccounts;
    var log1 := Then(log, TimerOpened(t, r.id, r.data, r.destructor));
    var log2 := Then(log1, Armed(t));
    var log3 := Then(log2, TimerClosed(t, r.id));
    Unconcerned(log, log1.last, u);
    Unconcerned(log1, Armed(t), u);
    Unconcerned(log2, log3.last, u);
    Unconcerned(log3, TimerFreed(t), u);
    SameAccountsTwice(log, log1, log2, u);
    SameAccountsTwice(log, log2, log3, u);
    SameAccountsTwice(log, log3, AbandonedLog(log, t, r), u);
  }

  /** Closing a descriptor and freeing a record count once each. */
  lemma DisposedCounts(log: Trace, t: nat, id: int)
    ensures var log' := Then(Then(log, TimerClosed(t, id)), TimerFreed(t));
            && MakingOf(log', t) == MakingOf(log, t)
            && Times(log', TimerFreed(t)) == Times(log, TimerFreed(t)) + 1
            && Times(log', Fired(t)) == Times(log, Fired(t)) && Times(log', Rearmed(t)) == Times(log, Rearmed(t))
            && Happened(log', Added(EntryOf(t))) == Happened(log, Added(EntryOf(t)))
            && (forall fd: int :: Times(log', TimerClosed(t, fd)) == Times(log, TimerClosed(t, fd)) + One(fd == id))
            && (forall d: nat :: Times(log', TimerDestroyed(t, d)) == Times(log, TimerDestroyed(t, d)))
  {
    var log1 := Then(log, TimerClosed(t, id));
    var log' := Then(log1, TimerFreed(t));
    assert MakingOf(log1, t) == MakingOf(log, t) && Times(log1, TimerFreed(t)) == Times(log, TimerFreed(t));
    assert Times(log1, Fired(t)) == Times(log, Fired(t)) && Times(log1, Rearmed(t)) == Times(log, Rearmed(t));
    assert Happened(log1, Added(EntryOf(t))) == Happened(log, Added(EntryOf(t)));
    forall fd: int ensures Times(log', TimerClosed(t, fd)) == Times(log, TimerClosed(t, fd)) + One(fd == id) {
      assert Times(log1, TimerClosed(t, fd)) == Times(log, TimerClosed(t, fd)) + One(fd == id);
    }
    forall d: nat ensures Times(log', TimerDestroyed(t, d)) == Times(log, TimerDestroyed(t, d)) {
      assert Times(log1, TimerDestroyed(t, d)) == Times(log, TimerDestroyed(t, d));
    }
  }

  lemma AbandonedHere(log: Trace, t: nat, r: TimerRecord)
    ensures var log' := AbandonedLog(log, t, r);
            && MakingOf(log', t) == Made(r.id, r.data, r.destructor)
            && Times(log', TimerFreed(t)) == Times(log, TimerFreed(t)) + 1
            && Times(log', Fired(t)) == Times(log, Fired(t))
            && Happened(log', Added(EntryOf(t))) == Happened(log, Added(EntryOf(t)))
            && (forall fd: int :: Times(log', TimerClosed(t, fd)) == Times(log, TimerClosed(t, fd)) + One(fd == r.id))
            && (forall d: nat :: Times(log', TimerDestroyed(t, d)) == Times(log, TimerDestroyed(t, d)))
  {
    StartedHere(log, t, r);
    var log1 := Then(log, TimerOpened(t, r.id, r.data, r.destructor));
    var log2 := Then(log1, Armed(t));
    assert MakingOf(log2, t) == Made(r.id, r.data, r.destructor);
    assert StartedLog(log, t, r) == Then(log2, Added(EntryOf(t)));
    assert Times(log1, TimerFreed(t)) == Times(log, TimerFreed(t)) && Times(log1, Fired(t)) == Times(log, Fired(t));
    assert Happened(log1, Added(EntryOf(t))) == Happened(log, Added(EntryOf(t)));
    assert Times(log2, TimerFreed(t)) == Times(log, TimerFreed(t)) && Times(log2, Fired(t)) == Times(log, Fired(t));
    assert Happened(log2, Added(EntryOf(t))) == Happened(log, Added(EntryOf(t)));
    forall fd: int ensures Times(log2, TimerClosed(t, fd)) == Times(log, TimerClosed(t, fd)) {
      assert Times(log1, TimerClosed(t, fd)) == Times(log, TimerClosed(t, fd));
    }
    forall d: nat ensures Times(log2, TimerDestroyed(t, d)) == Times(log, TimerDestroyed(t, d)) {
      assert Times(log1, TimerDestroyed(t, d)) == Times(log, TimerDestroyed(t, d));
    }
    DisposedCounts(log2, t, r.id);
  }

  lemma EndAfterAbandoned(log: Trace, timers: Timers, t: nat, r: TimerRecord)
    requires EndAt(log, Kept(timers, t), t, t) && MakingOf(log, t).Unmade? && !Happened(log, Added(EntryOf(t)))
    ensures EndAt(AbandonedLog(log, t, r), Kept(timers, t), t + 1, t)
  {
    hide AbandonedLog, Times, Happened, MakingOf;
    AbandonedHere(log, t, r);
  }

  lemma EndsAfterAbandoned(log: Trace, timers: Timers, t: nat, r: TimerRecord)
    requires EndsOk(log, timers, t) && !Happened(log, Added(EntryOf(t)))
    ensures EndsOk(AbandonedLog(log, t, r), timers, t + 1)
  {
    UnmadeHere(log, timers, t, t);
    EndAfterAbandoned(log, timers, t, r);
    hide AbandonedLog, SameAccounts, EndAt;
    var log' := AbandonedLog(log, t, r);
    forall u: nat ensures EndAt(log', Kept(timers, u), t + 1, u) {
      assert EndAt(log, Kept(timers, u), t, u);
      if u != t {
        AbandonedElsewhere(log, t, r, u);
        SameEnd(log, log', Kept(timers, u), t, t + 1, u);
      }
    }
  }

  lemma LedgerAfterAbandoned(log: Trace, reg: Registry, kernel: Kernel, chans: Chans, timers: Timers,
                             pools: multiset<nat>, t: nat, r: TimerRecord)
    requires LedgerOk(log, reg, kernel, chans, timers, pools, t) && TableOk(reg, t)
    requires !Happened(log, Added(EntryOf(t)))
    ensures LedgerOk(AbandonedLog(log, t, r), reg, kernel, chans, timers, pools, t + 1)
  {
    UnmadeHere(log, timers, t, t);
    hide ClosesOk, EndsOk, ShotsOk, PoolsOk;
    EndsAfterAbandoned(log, timers, t, r);
    var made := TimerOpened(t, r.id, r.data, r.destructor);
    PoolsHear(log, made, pools);
    PoolsHear(Then(log, made), Armed(t), pools);
    PoolsHear(Then(Then(log, made), Armed(t)), TimerClosed(t, r.id), pools);
    PoolsHear(Then(Then(Then(log, made), Armed(t)), TimerClosed(t, r.id)), TimerFreed(t), pools);
    ClosesHear(log, made, chans);
    ClosesHear(Then(log, made), Armed(t), chans);
    ClosesHear(Then(Then(log, made), Armed(t)), TimerClosed(t, r.id), chans);
    ClosesHear(Then(Then(Then(log, made), Armed(t)), TimerClosed(t, r.id)), TimerFreed(t), chans);
    ShotsAfterAbandoned(log, reg, kernel, timers, pools, t, r);
  }

  lemma ShotsAfterAbandoned(log: Trace, reg: Registry, kernel: Kernel, timers: Timers, pools: multiset<nat>,
                            t: nat, r: TimerRecord)
    requires ShotsOk(log, reg, kernel, timers, pools) && TableOk(reg, t)
    requires MakingOf(log, t).Unmade? && !Happened(log, Added(EntryOf(t)))
    ensures ShotsOk(AbandonedLog(log, t, r), reg, kernel, timers, pools)
  {
    hide AbandonedLog, SameAccounts;
    var log' := AbandonedLog(log, t, r);
    forall u: nat
      ensures ShotAt(log', InTable(reg, EntryOf(u)), u in timers, ArmedIn(kernel, timers, u), pools[EntryOf(u)], u)
    {
      ShotHere(log, reg, kernel, timers, pools, u);
      if u == t {
        AbandonedHere(log, t, r);
      } else {
        AbandonedElsewhere(log, t, r, u);
        SameShot(log, log', InTable(reg, EntryOf(u)), u in timers, ArmedIn(kernel, timers, u), pools[EntryOf(u)], u);
      }
    }
  }

  // ------------------------------------------------------------ a timer is disposed of

  /** The trace of timer_destructor. */
  function TimerFreedLog(log: Trace, t: nat, r: TimerRecord): Trace {
    var log1 := Then(log, TimerClosed(t, r.id));
    Then(if r.destructor != 0 then Then(log1, TimerDestroyed(t, r.data)) else log1, TimerFreed(t))
  }

  lemma TimerFreedElsewhere(log: Trace, t: nat, r: TimerRecord, u: nat)
    requires u != t
    ensures SameAccounts(log, TimerFreedLog(log, t, r), u)
  {
    hide SameAccounts;
    var log1 := Then(log, TimerClosed(t, r.id));
    var log2 := Then(log1, TimerDestroyed(t, r.data));
    Unconcerned(log, log1.last, u);
    Unconcerned(log1, log2.last, u);
    Unconcerned(log1, TimerFreed(t), u);
    Unconcerned(log2, TimerFreed(t), u);
    SameAccountsTwice(log, log1, log2, u);
    SameAccountsTwice(log, log1, Then(log1, TimerFreed(t)), u);
    SameAccountsTwice(log, log2, Then(log2, TimerFreed(t)), u);
  }

  lemma TimerFreedHere(log: Trace, t: nat, r: TimerRecord)
    ensures var log' := TimerFreedLog(log, t, r);
            && MakingOf(log', t) == MakingOf(log, t)
            && Times(log', TimerFreed(t)) == Times(log, TimerFreed(t)) + 1
            && Times(log', Fired(t)) == Times(log, Fired(t)) && Times(log', Rearmed(t)) == Times(log, Rearmed(t))
            && Happened(log', Added(EntryOf(t))) == Happened(log, Added(EntryOf(t)))
            && (forall fd: int :: Times(log', TimerClosed(t, fd)) == Times(log, TimerClosed(t, fd)) + One(fd == r.id))
            && forall d: nat ::
                 Times(log', TimerDestroyed(t, d))
                 == Times(log, TimerDestroyed(t, d)) + One(r.destructor != 0 && d == r.data)
  {
    if r.destructor == 0 {
      DisposedCounts(log, t, r.id);
    } else {
      var log1 := Then(log, TimerClosed(t, r.id));
      var log2 := Then(log1, TimerDestroyed(t, r.data));
      var log' := Then(log2, TimerFreed(t));
      assert MakingOf(log1, t) == MakingOf(log, t) && MakingOf(log2, t) == MakingOf(log, t);
      assert Times(log1, TimerFreed(t)) == Times(log, TimerFreed(t))
             && Times(log2, TimerFreed(t)) == Times(log, TimerFreed(t));
      assert Times(log1, Fired(t)) == Times(log, Fired(t)) && Times(log2, Fired(t)) == Times(log, Fired(t));
      assert Times(log1, Rearmed(t)) == Times(log, Rearmed(t)) && Times(log2, Rearmed(t)) == Times(log, Rearmed(t));
      assert Happened(log1, Added(EntryOf(t))) == Happened(log, Added(EntryOf(t)));
      assert Happened(log2, Added(EntryOf(t))) == Happened(log, Added(EntryOf(t)));
      forall fd: int ensures Times(log', TimerClosed(t, fd)) == Times(log, TimerClosed(t, fd)) + One(fd == r.id) {
        assert Times(log1, TimerClosed(t, fd)) == Times(log, TimerClosed(t, fd)) + One(fd == r.id);
        assert Times(log2, TimerClosed(t, fd)) == Times(log1, TimerClosed(t, fd));
      }
      forall d: nat
        ensures Times(log', TimerDestroyed(t, d))
                == Times(log, TimerDestroyed(t, d)) + One(r.destructor != 0 && d == r.data)
      {
        assert Times(log1, TimerDestroyed(t, d)) == Times(log, TimerDestroyed(t, d));
        assert Times(log2, TimerDestroyed(t, d)) == Times(log1, TimerDestroyed(t, d)) + One(d == r.data);
      }
    }
  }

  lemma EndAfterFreed(log: Trace, timers: Timers, next: nat, t: nat)
    requires EndAt(log, Kept(timers, t), next, t) && t in timers && Happened(log, Added(EntryOf(t)))
    ensures EndAt(TimerFreedLog(log, t, timers[t]), Unmade, next, t)
  {
    hide TimerFreedLog, Times, Happened, MakingOf;
    TimerFreedHere(log, t, timers[t]);
  }

  lemma EndElsewhere(log: Trace, timers: Timers, next: nat, t: nat, u: nat)
    requires EndAt(log, Kept(timers, u), next, u) && t in timers && u != t
    ensures EndAt(TimerFreedLog(log, t, timers[t]), Kept(timers - {t}, u), next, u)
  {
    hide TimerFreedLog, SameAccounts, EndAt;
    TimerFreedElsewhere(log, t, timers[t], u);
    SameEnd(log, TimerFreedLog(log, t, timers[t]), Kept(timers, u), next, next, u);
  }

  lemma EndOf(log: Trace, timers: Timers, next: nat, u: nat)
    requires EndsOk(log, timers, next)
    ensures EndAt(log, Kept(timers, u), next, u)
  {
  }

  lemma EndsIntro(log: Trace, timers: Timers, next: nat)
    requires forall u: nat :: EndAt(log, Kept(timers, u), next, u)
    ensures EndsOk(log, timers, next)
  {
  }

  lemma EndsAfterFreed(log: Trace, timers: Timers, next: nat, t: nat)
    requires EndsOk(log, timers, next) && t in timers && Happened(log, Added(EntryOf(t)))
    ensures EndsOk(TimerFreedLog(log, t, timers[t]), timers - {t}, next)
  {
    hide TimerFreedLog, EndAt, EndsOk;
    var log', timers' := TimerFreedLog(log, t, timers[t]), timers - {t};
    forall u: nat ensures EndAt(log', Kept(timers', u), next, u) {
      EndOf(log, timers, next, u);
      if u == t { EndAfterFreed(log, timers, next, t); } else { EndElsewhere(log, timers, next, t, u); }
    }
    EndsIntro(log', timers', next);
  }

  lemma ShotsAfterFreed(log: Trace, reg: Registry, kernel: Kernel, timers: Timers, pools: multiset<nat>, t: nat)
    requires ShotsOk(log, reg, kernel, timers, pools) && t in timers
    requires !InTable(reg, EntryOf(t))
    ensures ShotsOk(TimerFreedLog(log, t, timers[t]), reg, kernel, timers - {t}, pools)
  {
    hide TimerFreedLog, SameAccounts;
    var log', timers' := TimerFreedLog(log, t, timers[t]), timers - {t};
    forall u: nat
      ensures ShotAt(log', InTable(reg, EntryOf(u)), u in timers', ArmedIn(kernel, timers', u), pools[EntryOf(u)], u)
    {
      ShotHere(log, reg, kernel, timers, pools, u);
      if u == t {
        TimerFreedHere(log, t, timers[t]);
      } else {
        TimerFreedElsewhere(log, t, timers[t], u);
        SameShot(log, log', InTable(reg, EntryOf(u)), u in timers, ArmedIn(kernel, timers, u), pools[EntryOf(u)], u);
      }
    }
  }

  lemma LedgerAfterFreed(log: Trace, reg: Registry, kernel: Kernel, chans: Chans, timers: Timers,
                         pools: multiset<nat>, next: nat, t: nat)
    requires LedgerOk(log, reg, kernel, chans, timers, pools, next) && t in timers
    requires !InTable(reg, EntryOf(t)) && Happened(log, Added(EntryOf(t)))
    ensures LedgerOk(TimerFreedLog(log, t, timers[t]), reg, kernel, chans, timers - {t}, pools, next)
  {
    hide ClosesOk, EndsOk, ShotsOk, PoolsOk;
    var r := timers[t];
    EndsAfterFreed(log, timers, next, t);
    ShotsAfterFreed(log, reg, kernel, timers, pools, t);
    var log1 := Then(log, TimerClosed(t, r.id));
    PoolsHear(log, log1.last, pools);
    PoolsHear(log1, TimerDestroyed(t, r.data), pools);
    PoolsHear(log1, TimerFreed(t), pools);
    PoolsHear(Then(log1, TimerDestroyed(t, r.data)), TimerFreed(t), pools);
    ClosesHear(log, log1.last, chans);
    ClosesHear(log1, TimerDestroyed(t, r.data), chans);
    ClosesHear(log1, TimerFreed(t), chans);
    ClosesHear(Then(log1, TimerDestroyed(t, r.data)), TimerFreed(t), chans);
  }

  // ------------------------------------------------------------ watching again, delivering, firing

  lemma RearmedShot(log: Trace, inTable: bool, stored: bool, armed: bool, armed': bool, queued: nat, t: nat)
    requires ShotAt(log, inTable, stored, armed, queued, t)
    requires MakingOf(log, t).Made? && Happened(log, Added(EntryOf(t)))
    ensures ShotAt(Then(log, Rearmed(t)), inTable, stored, armed', queued, t)
  {
  }

  lemma ShotsAfterRearm(log: Trace, reg: Registry, kernel: Kernel, timers: Timers, pools: multiset<nat>,
                        next: nat, k: nat, m: Mask, t: nat)
    requires ShotsOk(log, reg, kernel, timers, pools) && TableOk(reg, next) && TimersOk(reg, timers, next)
    requires k < |reg| && reg[k].client == Timer(t)
    requires MakingOf(log, t).Made? && Happened(log, Added(EntryOf(t)))
    ensures ShotsOk(Then(log, Rearmed(t)), Remasked(reg, k, m), kernel[reg[k].sd := Interest(reg[k].id, m, true)],
                    timers, pools)
  {
    FindIs(reg, next, k);
    hide ShotsOk, TableOk, TimersOk, ShotAt, ArmedIn, SameAccounts;
    var log', reg' := Then(log, Rearmed(t)), Remasked(reg, k, m);
    var kernel' := kernel[reg[k].sd := Interest(reg[k].id, m, true)];
    forall u: nat
      ensures ShotAt(log', InTable(reg', EntryOf(u)), u in timers, ArmedIn(kernel', timers, u), pools[EntryOf(u)], u)
    {
      ShotHere(log, reg, kernel, timers, pools, u);
      FindAfterRemask(reg, k, m, 0, EntryOf(u));
      if u == t {
        RearmedShot(log, InTable(reg, EntryOf(t)), t in timers, ArmedIn(kernel, timers, t),
                    ArmedIn(kernel', timers, t), pools[EntryOf(t)], t);
      } else {
        ArmedElsewhere(reg, kernel, timers, next, reg[k].sd, kernel'[reg[k].sd], u);
        Unconcerned(log, Rearmed(t), u);
        SameShot(log, log', InTable(reg, EntryOf(u)), u in timers, ArmedIn(kernel, timers, u), pools[EntryOf(u)], u);
      }
    }
    ShotsIntro(log', reg', kernel', timers, pools);
  }

  lemma ShotsIntro(log: Trace, reg: Registry, kernel: Kernel, timers: Timers, pools: multiset<nat>)
    requires forall t: nat ::
               ShotAt(log, InTable(reg, EntryOf(t)), t in timers, ArmedIn(kernel, timers, t), pools[EntryOf(t)], t)
    ensures ShotsOk(log, reg, kernel, timers, pools)
  {
  }

  lemma LedgerAfterRearm(log: Trace, reg: Registry, kernel: Kernel, chans: Chans, timers: Timers,
                         pools: multiset<nat>, next: nat, k: nat, m: Mask, t: nat)
    requires LedgerOk(log, reg, kernel, chans, timers, pools, next) && TableOk(reg, next) && TimersOk(reg, timers, next)
    requires k < |reg| && reg[k].client == Timer(t)
    requires MakingOf(log, t).Made? && Happened(log, Added(EntryOf(t)))
    ensures LedgerOk(Then(log, Rearmed(t)), Remasked(reg, k, m), kernel[reg[k].sd := Interest(reg[k].id, m, true)],
                     chans, timers, pools, next)
  {
    hide ClosesOk, EndsOk, ShotsOk, PoolsOk, TableOk, TimersOk;
    PoolsHear(log, Rearmed(t), pools);
    ClosesHear(log, Rearmed(t), chans);
    EndsHear(log, Rearmed(t), timers, next);
    ShotsAfterRearm(log, reg, kernel, timers, pools, next, k, m, t);
  }

  lemma ShotsAfterFired(log: Trace, reg: Registry, kernel: Kernel, timers: Timers, pools: multiset<nat>, t: nat)
    requires ShotsOk(log, reg, kernel, timers, pools) && pools[EntryOf(t)] > 0
    requires MakingOf(log, t).Made? && Happened(log, Added(EntryOf(t)))
    ensures ShotsOk(Then(log, Fired(t)), reg, kernel, timers, pools - multiset{EntryOf(t)})
  {
    hide ShotsOk;
    var log', pools' := Then(log, Fired(t)), pools - multiset{EntryOf(t)};
    forall u: nat
      ensures ShotAt(log', InTable(reg, EntryOf(u)), u in timers, ArmedIn(kernel, timers, u), pools'[EntryOf(u)], u)
    {
      ShotHere(log, reg, kernel, timers, pools, u);
      if u != t {
        Unconcerned(log, Fired(t), u);
        SameShot(log, log', InTable(reg, EntryOf(u)), u in timers, ArmedIn(kernel, timers, u), pools[EntryOf(u)], u);
      }
    }
    ShotsIntro(log', reg, kernel, timers, pools');
  }

  lemma LedgerAfterFired(log: Trace, reg: Registry, kernel: Kernel, chans: Chans, timers: Timers,
                         pools: multiset<nat>, next: nat, t: nat)
    requires LedgerOk(log, reg, kernel, chans, timers, pools, next) && pools[EntryOf(t)] > 0
    requires MakingOf(log, t).Made? && Happened(log, Added(EntryOf(t)))
    ensures LedgerOk(Then(log, Fired(t)), reg, kernel, chans, timers, pools - multiset{EntryOf(t)}, next)
  {
    hide ClosesOk, EndsOk, ShotsOk;
    ClosesHear(log, Fired(t), chans);
    EndsHear(log, Fired(t), timers, next);
    ShotsAfterFired(log, reg, kernel, timers, pools, t);
  }

  /** Delivered events take the place of armed flags. */
  lemma LedgerAfterFetch(log: Trace, reg: Registry, kernel: Kernel, chans: Chans, timers: Timers,
                         pools: multiset<nat>, next: nat, kernel': Kernel, ids: multiset<nat>)
    requires LedgerOk(log, reg, kernel, chans, timers, pools, next)
    requires forall id: nat :: ids[id] > 0 ==> Happened(log, Added(id))
    requires forall t: nat :: ArmedIn(kernel', timers, t) ==> ArmedIn(kernel, timers, t)
    requires forall t: nat :: t in timers ==>
               ids[EntryOf(t)] + One(ArmedIn(kernel', timers, t)) <= One(ArmedIn(kernel, timers, t))
    requires forall t: nat :: ids[EntryOf(t)] > 0 ==> InTable(reg, EntryOf(t))
    ensures LedgerOk(log, reg, kernel', chans, timers, pools + ids, next)
  {
    hide ClosesOk, EndsOk;
    var pools' := pools + ids;
    forall t: nat
      ensures ShotAt(log, InTable(reg, EntryOf(t)), t in timers, ArmedIn(kernel', timers, t), pools'[EntryOf(t)], t)
    {
      ShotHere(log, reg, kernel, timers, pools, t);
    }
  }
}

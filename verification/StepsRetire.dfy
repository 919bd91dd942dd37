/** Registering and retiring an entry, quitting the loop, and the timers keep the invariant. */
module StepsRetire {
  import opened Events
  import opened LoopTable
  import opened World
  import opened Invariant
  import opened Steps
  import opened StepsTable
  import opened StepsChannel
  import opened StepsLedger

  // ------------------------------------------------------------ a channel entry is retired

  /** The trace of the three destroyers. */
  function SettledLog(log: Trace, p: nat, c: Chan): Trace {
    Settle(Settle(Settle(log, p, Write, c.write), p, Read, c.read), p, Disconnect, c.disconnect)
  }

  /** The trace of io_destroy_callback. */
  function DestroyedLog(log: Trace, p: nat, c: Chan): Trace {
    ClosedLog(SettledLog(log, p, c), p, c.descriptor, c.closeOnDestroy)
  }

  lemma DestroyCallbackIs(w: World, p: nat)
    requires p in w.chans
    ensures DestroyCallback(w, p)
         == w.(log := DestroyedLog(w.log, p, w.chans[p]), chans := w.chans[p := w.chans[p].(descriptor := -1)])
  {
  }

  lemma DestroyedLogCounts(log: Trace, p: nat, c: Chan, q: nat, s: Side, d: Debt)
    ensures Installs(DestroyedLog(log, p, c), q, s, d) == Installs(log, q, s, d)
    ensures Stales(DestroyedLog(log, p, c), q, s, d) == Stales(log, q, s, d)
    ensures Destroys(DestroyedLog(log, p, c), q, s, d) == Destroys(log, q, s, d) + Here(p, s, c.At(s), q, s, d)
  {
    var log1 := Settle(log, p, Write, c.write);
    var log2 := Settle(log1, p, Read, c.read);
    var log3 := Settle(log2, p, Disconnect, c.disconnect);
    SettledHandlers(log, p, Write, c.write, q, s, d);
    SettledHandlers(log1, p, Read, c.read, q, s, d);
    SettledHandlers(log2, p, Disconnect, c.disconnect, q, s, d);
    HandlerUnheard(log3, ChannelClosed(p, c.descriptor), q, s, d);
    HandlerUnheard(log3, Detached(p, c.closeOnDestroy), q, s, d);
    HandlerUnheard(Then(log3, ChannelClosed(p, c.descriptor)), Detached(p, c.closeOnDestroy), q, s, d);
  }

  lemma HandlersAfterDestroy(log: Trace, chans: Chans, p: nat)
    requires HandlersOk(log, chans) && p in chans && chans[p].descriptor >= 0
    ensures HandlersOk(DestroyedLog(log, p, chans[p]), chans[p := chans[p].(descriptor := -1)])
  {
    var log', chans' := DestroyedLog(log, p, chans[p]), chans[p := chans[p].(descriptor := -1)];
    forall q: nat, s: Side, d: Debt ensures HandlersAt(log', LiveAt(chans', q, s, d), q, s, d) {
      assert HandlersAt(log, LiveAt(chans, q, s, d), q, s, d);
      DestroyedLogCounts(log, p, chans[p], q, s, d);
    }
  }

  lemma DestroyedLogLawful(log: Trace, p: nat, c: Chan)
    requires Lawful(log) && Happened(log, Opened(p)) && !Happened(log, Freed(p))
    requires Detachments(log, p) == 0 && Times(log, ChannelClosed(p, c.descriptor)) == 0
    ensures Lawful(DestroyedLog(log, p, c)) && OnlyHandlersHear(log, DestroyedLog(log, p, c))
    ensures AnyDenied(DestroyedLog(log, p, c)) == AnyDenied(log)
    ensures Happened(DestroyedLog(log, p, c), Stopped) == Happened(log, Stopped)
  {
    hide Settle;
    SettledLogLawful(log, p, c);
    var log3 := SettledLog(log, p, c);
    hide SettledLog;
    var log4 := Then(log3, ChannelClosed(p, c.descriptor));
    assert Happened(log4, Opened(p)) && !Happened(log4, Freed(p)) && Happened(log4, Stopped) == Happened(log, Stopped);
    assert Detachments(log4, p) == Detachments(log3, p);
    assert OnlyHandlersHear(log, log4) && AnyDenied(log4) == AnyDenied(log);
  }

  lemma SettledLogLawful(log: Trace, p: nat, c: Chan)
    requires Lawful(log) && Happened(log, Opened(p)) && !Happened(log, Freed(p))
    ensures var log' := SettledLog(log, p, c);
            && Lawful(log') && OnlyHandlersHear(log, log') && LedgerUnheard(log, log')
            && AnyDenied(log') == AnyDenied(log) && Happened(log', Stopped) == Happened(log, Stopped)
            && Happened(log', Opened(p)) && !Happened(log', Freed(p))
            && Detachments(log', p) == Detachments(log, p)
            && Times(log', ChannelClosed(p, c.descriptor)) == Times(log, ChannelClosed(p, c.descriptor))
  {
    var log1 := Settle(log, p, Write, c.write);
    var log2 := Settle(log1, p, Read, c.read);
    SettledOnce(log, log, p, Write, c.write, c.descriptor);
    SettledOnce(log, log1, p, Read, c.read, c.descriptor);
    SettledOnce(log, log2, p, Disconnect, c.disconnect, c.descriptor);
    hide Settle, Lawful;
  }

  lemma SettledOnce(a: Trace, log: Trace, p: nat, side: Side, h: Handler, fd: int)
    requires Lawful(log) && Happened(log, Opened(p)) && !Happened(log, Freed(p))
    requires OnlyHandlersHear(a, log) && LedgerUnheard(a, log)
    ensures var log' := Settle(log, p, side, h);
            && Lawful(log') && OnlyHandlersHear(a, log') && LedgerUnheard(a, log')
            && AnyDenied(log') == AnyDenied(log) && Happened(log', Stopped) == Happened(log, Stopped)
            && Happened(log', Opened(p)) && !Happened(log', Freed(p))
            && Detachments(log', p) == Detachments(log, p)
            && Times(log', ChannelClosed(p, fd)) == Times(log, ChannelClosed(p, fd))
  {
  }

  // ------------------------------------------------------------ what goes with a deleted slot

  lemma LinksAfterDelete(reg: Registry, chans: Chans, owned: set<nat>, next: nat, k: nat)
    requires TableOk(reg, next) && LinksOk(reg, chans, owned) && k < |reg| && reg[k].client.Channel?
    ensures var p := reg[k].client.p;
            p in owned && p in chans && chans[p].descriptor == reg[k].sd &&
            LinksOk(Without(reg, k), chans[p := chans[p].(descriptor := -1)], owned)
  {
    var p, reg' := reg[k].client.p, Without(reg, k);
    assert EntryLinked(reg[k], chans, owned);
    var chans' := chans[p := chans[p].(descriptor := -1)];
    forall i | 0 <= i < |reg'| ensures EntryLinked(reg'[i], chans', owned) {
      var j := if i < k then i else i + 1;
      assert reg'[i] == reg[j] && EntryLinked(reg[j], chans, owned);
    }
    forall q | q in chans' ensures ChanLinked(reg', q, chans'[q]) {
      assert ChanLinked(reg, q, chans[q]);
      FindIs(reg, next, k);
      RegisteredAfterDelete(reg, next, k, chans[q].descriptor, Channel(q));
    }
  }

  lemma LinksAfterTimerDelete(reg: Registry, chans: Chans, owned: set<nat>, next: nat, k: nat)
    requires TableOk(reg, next) && LinksOk(reg, chans, owned) && k < |reg| && reg[k].client.Timer?
    ensures LinksOk(Without(reg, k), chans, owned)
  {
    var reg' := Without(reg, k);
    forall i | 0 <= i < |reg'| ensures EntryLinked(reg'[i], chans, owned) {
      var j := if i < k then i else i + 1;
      assert reg'[i] == reg[j] && EntryLinked(reg[j], chans, owned);
    }
    forall q | q in chans ensures ChanLinked(reg', q, chans[q]) {
      assert ChanLinked(reg, q, chans[q]);
      FindIs(reg, next, k);
      RegisteredAfterDelete(reg, next, k, chans[q].descriptor, Channel(q));
    }
  }

  lemma MasksAfterDelete(reg: Registry, chans: Chans, denied: bool, k: nat)
    requires MasksOk(reg, chans, denied) && k < |reg|
    ensures MasksOk(Without(reg, k), chans, denied)
  {
    var reg' := Without(reg, k);
    if !denied {
      forall i | 0 <= i < |reg'| ensures EntryMaskAgrees(reg'[i], chans) {
        var j := if i < k then i else i + 1;
        assert reg'[i] == reg[j] && EntryMaskAgrees(reg[j], chans);
      }
    }
  }

  lemma MasksAfterClose(reg: Registry, chans: Chans, denied: bool, p: nat)
    requires MasksOk(reg, chans, denied) && p in chans
    ensures MasksOk(reg, chans[p := chans[p].(descriptor := -1)], denied)
  {
    var chans' := chans[p := chans[p].(descriptor := -1)];
    if !denied {
      forall i | 0 <= i < |reg| ensures EntryMaskAgrees(reg[i], chans') {
        assert EntryMaskAgrees(reg[i], chans);
      }
    }
  }

  lemma TimersAfterDelete(reg: Registry, timers: Timers, next: nat, k: nat)
    requires TableOk(reg, next) && TimersOk(reg, timers, next) && k < |reg| && reg[k].client.Channel?
    ensures TimersOk(Without(reg, k), timers, next)
  {
    var reg' := Without(reg, k);
    forall i | 0 <= i < |reg'| ensures TimerLinked(reg'[i], timers) {
      var j := if i < k then i else i + 1;
      assert reg'[i] == reg[j] && TimerLinked(reg[j], timers);
    }
    forall t | t in timers ensures t < next && Registered(reg', timers[t].id, Timer(t)) {
      FindIs(reg, next, k);
      RegisteredAfterDelete(reg, next, k, timers[t].id, Timer(t));
    }
  }

  lemma TimersAfterTimerDelete(reg: Registry, timers: Timers, next: nat, k: nat)
    requires TableOk(reg, next) && TimersOk(reg, timers, next) && k < |reg| && reg[k].client.Timer?
    ensures reg[k].client.t in timers && timers[reg[k].client.t].id == reg[k].sd
    ensures TimersOk(Without(reg, k), timers - {reg[k].client.t}, next)
  {
    assert TimerLinked(reg[k], timers);
    var reg', timers' := Without(reg, k), timers - {reg[k].client.t};
    forall i | 0 <= i < |reg'| ensures TimerLinked(reg'[i], timers') {
      var j := if i < k then i else i + 1;
      assert reg'[i] == reg[j] && TimerLinked(reg[j], timers);
    }
    forall t | t in timers' ensures t < next && Registered(reg', timers'[t].id, Timer(t)) {
      FindIs(reg, next, k);
      RegisteredAfterDelete(reg, next, k, timers[t].id, Timer(t));
    }
  }

  lemma MirrorWhenEmpty(reg: Registry, kernel: map<int, Interest>, epollOpen: bool)
    requires MirrorOk(reg, kernel, epollOpen) && reg == []
    ensures kernel == map[] && MirrorOk(reg, map[], false)
  {
    assert forall fd :: fd in kernel ==> Find(reg, fd) < |reg|;
    assert forall fd :: fd !in kernel;
  }

  // ------------------------------------------------------------ retiring

  function Unlinked(w: World, k: nat): World
    requires k < |w.reg|
  {
    w.(reg := Without(w.reg, k))
  }

  function RetiredLog(log: Trace, id: nat): Trace {
    Then(Then(log, KernelRemoved(id)), Destructed(id))
  }

  lemma RetiredLogLawful(log: Trace, reg: Registry, next: nat, k: nat)
    requires TableOk(reg, next) && EntryLogOk(log, reg, next) && Lawful(log) && k < |reg|
    ensures Lawful(RetiredLog(log, reg[k].id))
    ensures AnyDenied(RetiredLog(log, reg[k].id)) == AnyDenied(log)
    ensures Happened(RetiredLog(log, reg[k].id), Stopped) == Happened(log, Stopped)
    ensures forall p: nat :: Happened(RetiredLog(log, reg[k].id), Opened(p)) == Happened(log, Opened(p))
    ensures forall p: nat :: Happened(RetiredLog(log, reg[k].id), Freed(p)) == Happened(log, Freed(p))
    ensures forall t: nat :: Happened(RetiredLog(log, reg[k].id), TimerFreed(t)) == Happened(log, TimerFreed(t))
    ensures forall id: nat :: Happened(RetiredLog(log, reg[k].id), Added(id)) == Happened(log, Added(id))
  {
    var id := reg[k].id;
    FindIs(reg, next, k);
    assert EntryLogAt(log, InTable(reg, id), next, id);
    var log1 := Then(log, KernelRemoved(id));
    assert Happened(log1, Destructed(id)) == Happened(log, Destructed(id));
    assert Happened(log1, Stopped) == Happened(log, Stopped);
  }

  lemma OthersHearRetired(log: Trace, id: nat, chans: Chans, owned: set<nat>, frames: multiset<nat>, timers: Timers,
                          next: nat)
    requires HandlersOk(log, chans) && ChanLogOk(log, chans, owned, frames, next) && TimerLogOk(log, timers, next)
    ensures HandlersOk(RetiredLog(log, id), chans) && ChanLogOk(RetiredLog(log, id), chans, owned, frames, next)
    ensures TimerLogOk(RetiredLog(log, id), timers, next)
  {
    hide HandlersOk, ChanLogOk, TimerLogOk;
    var e, f := KernelRemoved(id), Destructed(id);
    HandlersHear(log, e, chans);
    HandlersHear(Then(log, e), f, chans);
    ChanLogHears(log, e, chans, owned, frames, next);
    ChanLogHears(Then(log, e), f, chans, owned, frames, next);
    TimerLogHears(log, e, timers, next);
    TimerLogHears(Then(log, e), f, timers, next);
  }

  lemma LedgerHearsRetired(log: Trace, id: nat, reg: Registry, kernel: Kernel, chans: Chans, timers: Timers,
                           pools: multiset<nat>, next: nat)
    requires LedgerOk(log, reg, kernel, chans, timers, pools, next)
    ensures LedgerOk(RetiredLog(log, id), reg, kernel, chans, timers, pools, next)
  {
    hide LedgerOk;
    LedgerHears(log, KernelRemoved(id), reg, kernel, chans, timers, pools, next);
    LedgerHears(Then(log, KernelRemoved(id)), Destructed(id), reg, kernel, chans, timers, pools, next);
  }

  lemma LedgerAfterRetire(log: Trace, reg: Registry, kernel: Kernel, chans: Chans, timers: Timers,
                          pools: multiset<nat>, next: nat, k: nat, p: nat)
    requires LedgerOk(log, reg, kernel, chans, timers, pools, next) && TableOk(reg, next) && k < |reg|
    requires p in chans && chans[p].descriptor >= 0
    requires Lawful(RetiredLog(log, reg[k].id))
    requires Happened(RetiredLog(log, reg[k].id), Opened(p)) && !Happened(RetiredLog(log, reg[k].id), Freed(p))
    ensures LedgerOk(DestroyedLog(RetiredLog(log, reg[k].id), p, chans[p]), Without(reg, k), kernel - {reg[k].sd},
                     chans[p := chans[p].(descriptor := -1)], timers, pools, next)
    ensures Detachments(RetiredLog(log, reg[k].id), p) == 0
    ensures Times(RetiredLog(log, reg[k].id), ChannelClosed(p, chans[p].descriptor)) == 0
  {
    LedgerHearsRetired(log, reg[k].id, reg, kernel, chans, timers, pools, next);
    var log1 := RetiredLog(log, reg[k].id);
    NoClosingYet(log1, chans, p);
    hide LedgerOk, TableOk, RetiredLog, Lawful, SettledLog, ClosedLog;
    LedgerAfterDelete(log1, reg, kernel, chans, timers, pools, next, k);
    SettledLogLawful(log1, p, chans[p]);
    var reg', kernel' := Without(reg, k), kernel - {reg[k].sd};
    LedgerHearsAll(log1, SettledLog(log1, p, chans[p]), reg', kernel', chans, timers, pools, next);
    LedgerAfterClose(SettledLog(log1, p, chans[p]), reg', kernel', chans, timers, pools, next, p,
                     chans[p].closeOnDestroy);
  }

  /** A channel may be closed when it has no callbacks left or the loop is being quit. */
  ghost predicate MayClose(w: World, client: Client) {
    client.Channel? && client.p in w.chans && !w.terminate ==>
      forall side: Side :: w.chans[client.p].At(side).callback == 0
  }

  lemma EntryLogAfterRetire(log: Trace, reg: Registry, next: nat, k: nat)
    requires TableOk(reg, next) && EntryLogOk(log, reg, next) && k < |reg|
    ensures EntryLogOk(RetiredLog(log, reg[k].id), Without(reg, k), next)
  {
    EntryLogAfterDelete(log, reg, next, k);
  }

  lemma LengthWithout<T>(s: seq<T>, k: nat)
    requires k < |s|
    ensures |Without(s, k)| == |s| - 1
  {
  }

  /** The state in which a channel's entry has been retired. */
  function RetiredChannel(w: World, k: nat, p: nat): World
    requires k < |w.reg| && p in w.chans
  {
    w.(reg := Without(w.reg, k), kernel := w.kernel - {w.reg[k].sd},
       log := DestroyedLog(RetiredLog(w.log, w.reg[k].id), p, w.chans[p]),
       chans := w.chans[p := w.chans[p].(descriptor := -1)])
  }

  lemma RetireChannelIs(w: World, k: nat, p: nat)
    requires k < |w.reg| && w.reg[k].client == Channel(p) && p in w.chans
    ensures Retire(Unlinked(w, k), w.reg[k]) == Done(RetiredChannel(w, k, p))
  {
    hide DestroyCallback, DestroyedLog;
    DestroyCallbackIs(w.(reg := Without(w.reg, k), kernel := w.kernel - {w.reg[k].sd},
                         log := RetiredLog(w.log, w.reg[k].id)), p);
  }

  lemma RetireChannelKeeps(w: World, k: nat)
    requires Core(w) && k < |w.reg| && w.reg[k].client.Channel? && MayClose(w, w.reg[k].client)
    ensures var p := w.reg[k].client.p;
            && p in w.chans && w.chans[p].descriptor == w.reg[k].sd
            && Retire(Unlinked(w, k), w.reg[k]) == Done(RetiredChannel(w, k, p))
            && Core(RetiredChannel(w, k, p))
  {
    hide Retire, DestroyedLog;
    hide TableOk, MirrorOk, LinksOk, RefsOk, SilentOk, MasksOk, TimersOk, HandlersOk, EntryLogOk, ChanLogOk,
         TimerLogOk, LedgerOk, Lawful, OnlyHandlersHear, Without, Allowed, RetiredLog, Times, Happened, AnyDenied,
         Detachments;
    var p, denied := w.reg[k].client.p, AnyDenied(w.log);
    LinksAfterDelete(w.reg, w.chans, w.owned, w.next, k);
    RetireChannelIs(w, k, p);
    SdHere(w.reg, w.next, k);
    var c, reg, log1 := w.chans[p].(descriptor := -1), Without(w.reg, k), RetiredLog(w.log, w.reg[k].id);
    var log := DestroyedLog(log1, p, w.chans[p]);
    LengthWithout(w.reg, k);
    LogHere(w.log, w.chans, w.owned, w.frames, w.next, p);
    RetiredLogLawful(w.log, w.reg, w.next, k);
    LedgerAfterRetire(w.log, w.reg, w.kernel, w.chans, w.timers, w.pools, w.next, k, p);
    DestroyedLogLawful(log1, p, w.chans[p]);
    TableAfterDelete(w.reg, w.next, k);
    MirrorAfterDelete(w.reg, w.kernel, w.epollOpen, w.next, k);
    RefsAfterUpdate(w.chans, w.owned, w.frames, w.next, p, c);
    var was := w.chans[p];
    assert was.At(Read) == was.read && was.At(Write) == was.write && was.At(Disconnect) == was.disconnect;
    SilentAfterUpdate(w.chans, w.owned, w.terminate, p, c);
    MasksAfterDelete(w.reg, w.chans, denied, k);
    TimersAfterDelete(w.reg, w.timers, w.next, k);
    OthersHearRetired(w.log, w.reg[k].id, w.chans, w.owned, w.frames, w.timers, w.next);
    EntryLogAfterRetire(w.log, w.reg, w.next, k);
    OthersHear(log1, log, reg, w.chans, w.owned, w.frames, w.timers, w.next);
    MasksAfterClose(reg, w.chans, denied, p);
    HandlersAfterDestroy(log1, w.chans, p);
    ChanLogAfterUpdate(log, w.chans, w.owned, w.frames, w.next, p, c);
  }

  lemma SdHere(reg: Registry, next: nat, k: nat)
    requires TableOk(reg, next) && k < |reg|
    ensures reg[k].sd >= 0 && reg[k].id < next
  {
  }

  ghost predicate OnlyTimersHear(a: Trace, b: Trace)
    decreases b
  {
    a == b || (b.Then? && OnlyTimersHear(a, b.past)
               && !AboutEntry(b.last) && !AboutChan(b.last) && !AboutHandler(b.last))
  }

  lemma OthersHearTimers(a: Trace, b: Trace, reg: Registry, chans: Chans, owned: set<nat>, frames: multiset<nat>,
                         next: nat)
    requires OnlyTimersHear(a, b)
    requires EntryLogOk(a, reg, next) && ChanLogOk(a, chans, owned, frames, next) && HandlersOk(a, chans)
    requires MasksOk(reg, chans, AnyDenied(a))
    ensures EntryLogOk(b, reg, next) && ChanLogOk(b, chans, owned, frames, next) && HandlersOk(b, chans)
    ensures MasksOk(reg, chans, AnyDenied(b))
    decreases b
  {
    hide EntryLogOk, ChanLogOk, LedgerOk, HandlersOk, MasksOk;
    if a != b {
      OthersHearTimers(a, b.past, reg, chans, owned, frames, next);
      EntryLogHears(b.past, b.last, reg, next);
      ChanLogHears(b.past, b.last, chans, owned, frames, next);
      HandlersHear(b.past, b.last, chans);
      MasksHear(reg, chans, b.past, b.last);
    }
  }

  lemma TimerFreedLogLawful(log: Trace, t: nat, r: TimerRecord)
    requires Lawful(log) && !Happened(log, TimerFreed(t))
    requires Times(log, TimerClosed(t, r.id)) == 0 && Times(log, TimerDestroyed(t, r.data)) == 0
    ensures Lawful(TimerFreedLog(log, t, r)) && OnlyTimersHear(log, TimerFreedLog(log, t, r))
    ensures AnyDenied(TimerFreedLog(log, t, r)) == AnyDenied(log)
    ensures Happened(TimerFreedLog(log, t, r), Stopped) == Happened(log, Stopped)
  {
    var log1 := Then(log, TimerClosed(t, r.id));
    var log2 := if r.destructor != 0 then Then(log1, TimerDestroyed(t, r.data)) else log1;
    assert Times(log1, TimerDestroyed(t, r.data)) == 0;
    assert !Happened(log1, TimerFreed(t)) && !Happened(log2, TimerFreed(t));
    assert OnlyTimersHear(log, log);
    assert OnlyTimersHear(log, log1);
    assert OnlyTimersHear(log, log2);
    assert AnyDenied(log2) == AnyDenied(log);
    assert Happened(log1, Stopped) == Happened(log, Stopped) && Happened(log2, Stopped) == Happened(log, Stopped);
  }

  lemma TimerFreedLogCounts(log: Trace, t: nat, r: TimerRecord, u: nat)
    ensures Times(TimerFreedLog(log, t, r), Fired(u)) == Times(log, Fired(u))
    ensures Times(TimerFreedLog(log, t, r), Armed(u)) == Times(log, Armed(u))
    ensures Happened(TimerFreedLog(log, t, r), TimerFreed(u)) <==> u == t || Happened(log, TimerFreed(u))
  {
    var log1 := Then(log, TimerClosed(t, r.id));
    assert Happened(log1, TimerFreed(u)) == Happened(log, TimerFreed(u));
    assert Times(log1, Fired(u)) == Times(log, Fired(u)) && Times(log1, Armed(u)) == Times(log, Armed(u));
  }

  lemma TimerLogAfterFree(log: Trace, timers: Timers, next: nat, t: nat, r: TimerRecord)
    requires TimerLogOk(log, timers, next) && t < next
    ensures TimerLogOk(TimerFreedLog(log, t, r), timers - {t}, next)
  {
    var log', timers' := TimerFreedLog(log, t, r), timers - {t};
    forall u: nat ensures TimerLogAt(log', u in timers', Pending(timers', u), next, u) {
      assert TimerLogAt(log, u in timers, Pending(timers, u), next, u);
      TimerFreedLogCounts(log, t, r, u);
    }
  }

  lemma TimerHere(log: Trace, timers: Timers, next: nat, t: nat)
    requires TimerLogOk(log, timers, next)
    ensures TimerLogAt(log, t in timers, Pending(timers, t), next, t)
  {
  }

  lemma TimerLedgerAfterRetire(log: Trace, reg: Registry, kernel: Kernel, chans: Chans, timers: Timers,
                               pools: multiset<nat>, next: nat, k: nat)
    requires LedgerOk(log, reg, kernel, chans, timers, pools, next) && TableOk(reg, next) && TimersOk(reg, timers, next)
    requires EntryLogOk(log, reg, next) && k < |reg| && reg[k].client.Timer?
    ensures var t, log1 := reg[k].client.t, RetiredLog(log, reg[k].id);
            && t in timers
            && LedgerOk(TimerFreedLog(log1, t, timers[t]), Without(reg, k), kernel - {reg[k].sd}, chans,
                        timers - {t}, pools, next)
            && Times(log1, TimerClosed(t, timers[t].id)) == 0 && Times(log1, TimerDestroyed(t, timers[t].data)) == 0
  {
    hide ClosesOk, EndsOk, ShotsOk, PoolsOk;
    var t, log1 := reg[k].client.t, RetiredLog(log, reg[k].id);
    assert TimerLinked(reg[k], timers);
    FindIs(reg, next, k);
    assert EntryLogAt(log, InTable(reg, EntryOf(t)), next, EntryOf(t));
    assert Happened(log1, Added(EntryOf(t)));
    InTableAfterDelete(reg, next, k, EntryOf(t));
    LedgerHearsRetired(log, reg[k].id, reg, kernel, chans, timers, pools, next);
    NothingDisposedYet(log1, timers, next, t);
    hide LedgerOk, TableOk, RetiredLog, TimerFreedLog;
    LedgerAfterDelete(log1, reg, kernel, chans, timers, pools, next, k);
    LedgerAfterFreed(log1, Without(reg, k), kernel - {reg[k].sd}, chans, timers, pools, next, t);
  }

  lemma NothingDisposedYet(log: Trace, timers: Timers, next: nat, t: nat)
    requires EndsOk(log, timers, next) && t in timers
    ensures Times(log, TimerClosed(t, timers[t].id)) == 0 && Times(log, TimerDestroyed(t, timers[t].data)) == 0
  {
    assert EndAt(log, Kept(timers, t), next, t);
  }

  /** The state in which a timer's entry has been retired. */
  function RetiredTimer(w: World, k: nat, t: nat): World
    requires k < |w.reg| && t in w.timers
  {
    w.(reg := Without(w.reg, k), kernel := w.kernel - {w.reg[k].sd},
       log := TimerFreedLog(RetiredLog(w.log, w.reg[k].id), t, w.timers[t]), timers := w.timers - {t})
  }

  lemma RetireTimerIs(w: World, k: nat, t: nat)
    requires k < |w.reg| && w.reg[k].client == Timer(t) && t in w.timers
    ensures Retire(Unlinked(w, k), w.reg[k]) == Done(RetiredTimer(w, k, t))
  {
    hide DestroyCallback;
  }

  lemma RetireTimerKeeps(w: World, k: nat)
    requires Core(w) && k < |w.reg| && w.reg[k].client.Timer?
    ensures var t := w.reg[k].client.t;
            && t in w.timers && w.timers[t].id == w.reg[k].sd
            && Retire(Unlinked(w, k), w.reg[k]) == Done(RetiredTimer(w, k, t))
            && Core(RetiredTimer(w, k, t))
  {
    hide Retire, TimerFreedLog;
    hide TableOk, MirrorOk, LinksOk, RefsOk, SilentOk, MasksOk, TimersOk, HandlersOk, EntryLogOk, ChanLogOk,
         TimerLogOk, LedgerOk, Lawful, OnlyTimersHear, Without, Allowed, RetiredLog, Times, Happened, AnyDenied,
         Detachments;
    var t, denied := w.reg[k].client.t, AnyDenied(w.log);
    TimersAfterTimerDelete(w.reg, w.timers, w.next, k);
    RetireTimerIs(w, k, t);
    var log1 := RetiredLog(w.log, w.reg[k].id);
    var log2 := TimerFreedLog(log1, t, w.timers[t]);
    LengthWithout(w.reg, k);
    RetiredLogLawful(w.log, w.reg, w.next, k);
    TimerHere(w.log, w.timers, w.next, t);
    TimerLedgerAfterRetire(w.log, w.reg, w.kernel, w.chans, w.timers, w.pools, w.next, k);
    TimerFreedLogLawful(log1, t, w.timers[t]);
    TableAfterDelete(w.reg, w.next, k);
    MirrorAfterDelete(w.reg, w.kernel, w.epollOpen, w.next, k);
    LinksAfterTimerDelete(w.reg, w.chans, w.owned, w.next, k);
    MasksAfterDelete(w.reg, w.chans, denied, k);
    OthersHearRetired(w.log, w.reg[k].id, w.chans, w.owned, w.frames, w.timers, w.next);
    EntryLogAfterRetire(w.log, w.reg, w.next, k);
    OthersHearTimers(log1, log2, Without(w.reg, k), w.chans, w.owned, w.frames, w.next);
    TimerLogAfterFree(log1, w.timers, w.next, t, w.timers[t]);
  }

  /** Retiring an entry leaves the table and the loop alone, but for the kernel's interest. */
  lemma RetireLeaves(w: World, e: Entry<Client>)
    ensures var r := Retire(w, e);
            r.Done? ==>
              && r.value.reg == w.reg && r.value.kernel == w.kernel - {e.sd} && r.value.count == w.count
              && r.value.gap == w.gap && r.value.epollOpen == w.epollOpen && r.value.terminate == w.terminate
  {
    hide DestroyCallback, TimerDestructor;
    var w1 := Note(Note(w.(kernel := w.kernel - {e.sd}), KernelRemoved(e.id)), Destructed(e.id));
    match e.client
    case Channel(p) => if p in w.chans { DestroyLeaves(w1, p); }
    case Timer(t) => if t in w.timers { DestructorLeaves(w1, t); }
  }

  lemma DestroyLeaves(w: World, p: nat)
    requires p in w.chans
    ensures var v := DestroyCallback(w, p);
            && v.reg == w.reg && v.kernel == w.kernel && v.count == w.count
            && v.gap == w.gap && v.epollOpen == w.epollOpen && v.terminate == w.terminate
  {
    hide Settle;
  }

  lemma DestructorLeaves(w: World, t: nat)
    requires t in w.timers
    ensures var v := TimerDestructor(w, t);
            && v.reg == w.reg && v.kernel == w.kernel && v.count == w.count
            && v.gap == w.gap && v.epollOpen == w.epollOpen && v.terminate == w.terminate
  {
  }

  // ------------------------------------------------------------ removing and quitting

  /** Closing is all that happens to the channels. */
  ghost predicate OnlyCloses(a: Chans, b: Chans) {
    && a.Keys == b.Keys
    && forall q :: q in a ==> b[q] == a[q] || b[q] == a[q].(descriptor := -1)
  }

  ghost predicate Retiring(w: World, w': World) {
    && w'.gap == w.gap && w'.owned == w.owned && w'.frames == w.frames && w'.pools == w.pools
    && OnlyCloses(w.chans, w'.chans)
  }

  ghost predicate RetireEffect(w: World, k: nat, v: World)
    requires k < |w.reg|
  {
    && Retiring(w, v)
    && v.reg == Without(w.reg, k)
    && v.count == w.count && v.epollOpen == w.epollOpen && v.terminate == w.terminate
    && (w.reg[k].client.Channel? ==> w.reg[k].client.p in w.chans && v.chans[w.reg[k].client.p].descriptor == -1)
    && (forall q :: q in w.chans && Channel(q) != w.reg[k].client ==> v.chans[q] == w.chans[q])
    && (forall t :: t in w.timers && Timer(t) != w.reg[k].client ==> t in v.timers && v.timers[t] == w.timers[t])
  }

  lemma RetireKeeps(w: World, k: nat)
    requires Core(w) && k < |w.reg| && MayClose(w, w.reg[k].client)
    ensures var r := Retire(Unlinked(w, k), w.reg[k]);
            r.Done? && Core(r.value) && RetireEffect(w, k, r.value)
  {
    hide Core, Retire, Without, DestroyedLog, RetiredLog, TimerFreedLog;
    if w.reg[k].client.Channel? {
      RetireChannelKeeps(w, k);
    } else {
      RetireTimerKeeps(w, k);
    }
  }

  ghost predicate RemoveEffect(w: World, sd: int, v: World) {
    && Retiring(w, v)
    && (forall p :: p in w.chans && w.chans[p].descriptor == sd ==> v.chans[p].descriptor == -1)
  }

  /** Whose descriptor it is, if any channel's. */
  lemma HolderIs(w: World, sd: int, p: nat)
    requires Inv(w) && p in w.chans && w.chans[p].descriptor == sd
    ensures sd == -1 || (sd >= 0 && Find(w.reg, sd) < |w.reg| && w.reg[Find(w.reg, sd)].client == Channel(p))
  {
    hide TableOk, MirrorOk, RefsOk, SilentOk, MasksOk, TimersOk, HandlersOk, EntryLogOk, ChanLogOk, TimerLogOk,
         LedgerOk, Lawful;
    LinkHere(w.reg, w.chans, w.owned, p);
  }

  lemma LoopRemoveKeeps(w: World, sd: int)
    requires Inv(w)
    requires sd >= 0 && Find(w.reg, sd) < |w.reg| ==> MayClose(w, w.reg[Find(w.reg, sd)].client)
    ensures var r := LoopRemove(w, sd);
            && (r.Halt? ==> r == Halt(CorruptTable, w) && w.gap != 1)
            && (r.Done? ==> Inv(r.value) && RemoveEffect(w, sd, r.value))
  {
    hide Core, Retire, Without, Shift;
    var k := Find(w.reg, sd);
    forall p | p in w.chans && w.chans[p].descriptor == sd
      ensures sd == -1 || (sd >= 0 && k < |w.reg| && w.reg[k].client == Channel(p))
    {
      HolderIs(w, sd, p);
    }
    if 0 <= sd && k < |w.reg| {
      if w.gap == 1 { ShiftByOneDeletes(w.reg, k); }
      RetireKeeps(w, k);
    }
  }

  lemma RetireAllKeeps(w: World)
    requires Core(w) && w.terminate
    ensures var r := RetireAll(w);
            && r.Done? && Core(r.value) && Retiring(w, r.value) && r.value.reg == []
            && r.value.terminate == w.terminate
    decreases |w.reg|
  {
    hide Core, Retire;
    if w.reg != [] {
      assert Without(w.reg, 0) == w.reg[1..];
      RetireKeeps(w, 0);
      RetireAllKeeps(Retire(Unlinked(w, 0), w.reg[0]).value);
    }
  }

  lemma LoopQuitKeeps(w: World)
    requires Inv(w)
    ensures var r := LoopQuit(w);
            && r.Done? && Inv(r.value) && Retiring(w, r.value)
            && r.value.reg == [] && r.value.terminate && !r.value.epollOpen
  {
    hide Core, RetireAll;
    StopKeeps(w);
    var w0 := Note(w.(terminate := true), Stopped);
    RetireAllKeeps(w0);
    QuitEndKeeps(RetireAll(w0).value);
  }

  lemma StopKeeps(w: World)
    requires Inv(w)
    ensures Core(Note(w.(terminate := true), Stopped))
  {
    hide TableOk, MirrorOk, LinksOk, RefsOk, SilentOk, MasksOk, TimersOk, HandlersOk, EntryLogOk, ChanLogOk,
         TimerLogOk, LedgerOk;
    SilentAfterStop(w.chans, w.owned, w.terminate);
    HandlersHear(w.log, Stopped, w.chans);
    EntryLogHears(w.log, Stopped, w.reg, w.next);
    ChanLogHears(w.log, Stopped, w.chans, w.owned, w.frames, w.next);
    TimerLogHears(w.log, Stopped, w.timers, w.next);
    MasksHear(w.reg, w.chans, w.log, Stopped);
    LedgerHears(w.log, Stopped, w.reg, w.kernel, w.chans, w.timers, w.pools, w.next);
  }

  lemma SilentAfterStop(chans: Chans, owned: set<nat>, stopped: bool)
    requires SilentOk(chans, owned, stopped)
    ensures SilentOk(chans, owned, true)
  {
    forall p | p in chans ensures Hushed(chans[p], p in owned, true) {
      assert Hushed(chans[p], p in owned, stopped);
    }
  }

  lemma QuitEndKeeps(w: World)
    requires Core(w) && w.reg == []
    ensures Inv(w.(count := 0, epollOpen := false, kernel := map[]))
  {
    hide TableOk, MirrorOk, LinksOk, RefsOk, SilentOk, MasksOk, TimersOk, HandlersOk, EntryLogOk, ChanLogOk,
         TimerLogOk, LedgerOk, Lawful;
    MirrorWhenEmpty(w.reg, w.kernel, w.epollOpen);
    LedgerWhenEmpty(w.log, w.kernel, w.chans, w.timers, w.pools, w.next);
  }
}

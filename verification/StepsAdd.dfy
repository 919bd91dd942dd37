/** Opening channels and timers, and arming and firing timers, keep the invariant. */
module StepsAdd {
  import opened Events
  import opened LoopTable
  import opened World
  import opened Lifecycle
  import opened Invariant
  import opened Steps
  import opened StepsTable
  import opened StepsChannel
  import opened StepsRetire
  import opened StepsLedger

  // ------------------------------------------------------------ addresses

  lemma NextGrows(w: World, n: nat)
    requires Inv(w) && n >= w.next
    ensures Inv(w.(next := n))
  {
    NextGrowsRefs(w.chans, w.owned, w.frames, w.next, n);
    NextGrowsEntryLog(w.log, w.reg, w.next, n);
    NextGrowsChanLog(w.log, w.chans, w.owned, w.frames, w.next, n);
    NextGrowsTimerLog(w.log, w.timers, w.next, n);
    LedgerNextGrows(w.log, w.reg, w.kernel, w.chans, w.timers, w.pools, w.next, n);
    hide MirrorOk, LinksOk, RefsOk, SilentOk, MasksOk, HandlersOk, EntryLogOk, ChanLogOk, TimerLogOk, LedgerOk, Lawful;
  }

  lemma NextGrowsTimers(reg: Registry, timers: Timers, next: nat, n: nat)
    requires TimersOk(reg, timers, next) && n >= next
    ensures TimersOk(reg, timers, n)
  {
  }

  lemma NextGrowsRefs(chans: Chans, owned: set<nat>, frames: multiset<nat>, next: nat, n: nat)
    requires RefsOk(chans, owned, frames, next) && n >= next
    ensures RefsOk(chans, owned, frames, n)
  {
    forall p: nat ensures RefsAt(chans, owned, frames, n, p) {
      assert RefsAt(chans, owned, frames, next, p);
    }
  }

  lemma NextGrowsEntryLog(log: Trace, reg: Registry, next: nat, n: nat)
    requires EntryLogOk(log, reg, next) && n >= next
    ensures EntryLogOk(log, reg, n)
  {
    forall id: nat ensures EntryLogAt(log, InTable(reg, id), n, id) {
      assert EntryLogAt(log, InTable(reg, id), next, id);
    }
  }

  lemma NextGrowsChanLog(log: Trace, chans: Chans, owned: set<nat>, frames: multiset<nat>, next: nat, n: nat)
    requires ChanLogOk(log, chans, owned, frames, next) && n >= next
    ensures ChanLogOk(log, chans, owned, frames, n)
  {
    forall p: nat ensures ChanLogAt(log, p in owned, p in chans, frames[p], n, p) {
      assert ChanLogAt(log, p in owned, p in chans, frames[p], next, p);
    }
  }

  lemma NextGrowsTimerLog(log: Trace, timers: Timers, next: nat, n: nat)
    requires TimerLogOk(log, timers, next) && n >= next
    ensures TimerLogOk(log, timers, n)
  {
    forall t: nat ensures TimerLogAt(log, t in timers, Pending(timers, t), n, t) {
      assert TimerLogAt(log, t in timers, Pending(timers, t), next, t);
    }
  }

  /** An address that has not been handed out belongs to nothing. */
  lemma FreshAddress(w: World, p: nat)
    requires Inv(w) && p >= w.next
    ensures p !in w.chans && p !in w.owned && p !in w.timers && w.frames[p] == 0
    ensures !Happened(w.log, Opened(p)) && !Happened(w.log, Added(p)) && !Happened(w.log, TimerFreed(p))
    ensures Times(w.log, Armed(p)) == 0 && MakingOf(w.log, p).Unmade? && w.pools[p] == 0
  {
    hide TableOk, MirrorOk, LinksOk, RefsOk, SilentOk, MasksOk, HandlersOk, EntryLogOk, ChanLogOk, TimerLogOk,
         LedgerOk, Lawful;
    RefsHere(w.chans, w.owned, w.frames, w.next, p);
    LogHere(w.log, w.chans, w.owned, w.frames, w.next, p);
    EntryHere(w.log, w.reg, w.next, p);
    TimerHere(w.log, w.timers, w.next, p);
    LedgerFresh(w, p);
  }

  lemma LedgerFresh(w: World, p: nat)
    requires Core(w) && p >= w.next
    ensures MakingOf(w.log, p).Unmade? && w.pools[p] == 0
  {
    hide TableOk, MirrorOk, LinksOk, RefsOk, SilentOk, MasksOk, TimersOk, HandlersOk, EntryLogOk, ChanLogOk,
         TimerLogOk, Lawful;
    EntryHere(w.log, w.reg, w.next, p);
    UnmadeHere(w.log, w.timers, w.next, p);
  }

  lemma EntryHere(log: Trace, reg: Registry, next: nat, id: nat)
    requires EntryLogOk(log, reg, next)
    ensures EntryLogAt(log, InTable(reg, id), next, id)
  {
  }

  // ------------------------------------------------------------ a channel is opened

  const BLANK := Chan(1, 0, {}, false, NO_HANDLER, NO_HANDLER, NO_HANDLER)

  lemma LinksAfterOpen(reg: Registry, chans: Chans, owned: set<nat>, p: nat, e: Row)
    requires LinksOk(reg, chans, owned) && p !in chans && Find(reg, e.sd) == |reg| && e.sd >= 0
    requires e.client == Channel(p)
    ensures LinksOk(reg + [e], chans[p := BLANK.(descriptor := e.sd)], owned + {p})
  {
    var reg', chans', owned' := reg + [e], chans[p := BLANK.(descriptor := e.sd)], owned + {p};
    forall i | 0 <= i < |reg'| ensures EntryLinked(reg'[i], chans', owned') {
      assert i < |reg| ==> reg'[i] == reg[i] && EntryLinked(reg[i], chans, owned);
    }
    forall q | q in chans' ensures ChanLinked(reg', q, chans'[q]) {
      assert q != p ==> ChanLinked(reg, q, chans[q]);
      RegisteredAfterAdd(reg, e, chans'[q].descriptor, Channel(q));
    }
  }

  lemma LinksAfterTimerAdd(reg: Registry, chans: Chans, owned: set<nat>, e: Row)
    requires LinksOk(reg, chans, owned) && Find(reg, e.sd) == |reg| && e.client.Timer?
    ensures LinksOk(reg + [e], chans, owned)
  {
    var reg' := reg + [e];
    forall i | 0 <= i < |reg'| ensures EntryLinked(reg'[i], chans, owned) {
      assert i < |reg| ==> reg'[i] == reg[i] && EntryLinked(reg[i], chans, owned);
    }
    forall q | q in chans ensures ChanLinked(reg', q, chans[q]) {
      assert ChanLinked(reg, q, chans[q]);
      RegisteredAfterAdd(reg, e, chans[q].descriptor, Channel(q));
    }
  }

  lemma RefsAfterOpen(chans: Chans, owned: set<nat>, frames: multiset<nat>, next: nat, p: nat, c: Chan)
    requires RefsOk(chans, owned, frames, next) && p !in chans && c.refs == 1 && p < next
    ensures RefsOk(chans[p := c], owned + {p}, frames, next)
  {
    var chans' := chans[p := c];
    forall q: nat ensures RefsAt(chans', owned + {p}, frames, next, q) {
      assert RefsAt(chans, owned, frames, next, q);
    }
  }

  lemma MasksAfterOpen(reg: Registry, chans: Chans, denied: bool, p: nat, e: Row)
    requires MasksOk(reg, chans, denied) && p !in chans && e.client == Channel(p) && e.mask == {}
    ensures MasksOk(reg + [e], chans[p := BLANK.(descriptor := e.sd)], denied)
  {
    var reg', chans' := reg + [e], chans[p := BLANK.(descriptor := e.sd)];
    if !denied {
      forall i | 0 <= i < |reg'| ensures EntryMaskAgrees(reg'[i], chans') {
        assert i < |reg| ==> reg'[i] == reg[i] && EntryMaskAgrees(reg[i], chans);
      }
    }
  }

  lemma MasksAfterTimerAdd(reg: Registry, chans: Chans, denied: bool, e: Row)
    requires MasksOk(reg, chans, denied) && e.client.Timer?
    ensures MasksOk(reg + [e], chans, denied)
  {
    var reg' := reg + [e];
    if !denied {
      forall i | 0 <= i < |reg'| ensures EntryMaskAgrees(reg'[i], chans) {
        assert i < |reg| ==> reg'[i] == reg[i] && EntryMaskAgrees(reg[i], chans);
      }
    }
  }

  lemma TimersAfterOpen(reg: Registry, timers: Timers, next: nat, e: Row)
    requires TimersOk(reg, timers, next) && e.client.Channel? && Find(reg, e.sd) == |reg|
    ensures TimersOk(reg + [e], timers, next)
  {
    var reg' := reg + [e];
    forall i | 0 <= i < |reg'| ensures TimerLinked(reg'[i], timers) {
      assert i < |reg| ==> reg'[i] == reg[i] && TimerLinked(reg[i], timers);
    }
    forall t | t in timers ensures t < next && Registered(reg', timers[t].id, Timer(t)) {
      RegisteredAfterAdd(reg, e, timers[t].id, Timer(t));
    }
  }

  lemma TimersAfterTimerAdd(reg: Registry, timers: Timers, next: nat, t: nat, r: TimerRecord, e: Row)
    requires TimersOk(reg, timers, next) && t < next && t !in timers
    requires e.client == Timer(t) && e.sd == r.id && Find(reg, e.sd) == |reg|
    requires e.id == EntryOf(t) && e.mask == {IN, ONESHOT}
    ensures TimersOk(reg + [e], timers[t := r], next)
  {
    var reg', timers' := reg + [e], timers[t := r];
    forall i | 0 <= i < |reg'| ensures TimerLinked(reg'[i], timers') {
      assert i < |reg| ==> reg'[i] == reg[i] && TimerLinked(reg[i], timers);
    }
    forall u | u in timers' ensures u < next && Registered(reg', timers'[u].id, Timer(u)) {
      RegisteredAfterAdd(reg, e, timers'[u].id, Timer(u));
    }
  }

  lemma ChanLogAfterOpened(log: Trace, chans: Chans, owned: set<nat>, frames: multiset<nat>, next: nat, p: nat, c: Chan)
    requires ChanLogOk(log, chans, owned, frames, next) && p >= next
    ensures ChanLogOk(Then(log, Opened(p)), chans[p := c], owned + {p}, frames, p + 1)
  {
    hide Times, Happened;
    var chans' := chans[p := c];
    forall q: nat ensures ChanLogAt(Then(log, Opened(p)), q in owned + {p}, q in chans', frames[q], p + 1, q) {
      assert ChanLogAt(log, q in owned, q in chans, frames[q], next, q);
      LifeAfter(log, Opened(p), q);
    }
  }

  /** The state after io_new has registered descriptor fd. */
  function Opening(w: World, fd: int, count: nat): World {
    var p, id := w.next, w.next + 1;
    w.(reg := w.reg + [Entry(id, fd, {}, Channel(p))], kernel := w.kernel[fd := Interest(id, {}, true)], count := count,
       chans := w.chans[p := BLANK.(descriptor := fd)], owned := w.owned + {p}, next := id + 1,
       log := OpenedLog(w.log, p, fd))
  }

  lemma OpeningTable(w: World, fd: int, count: nat)
    requires Inv(w) && fd >= 0 && fd !in w.kernel && w.epollOpen
    ensures var o := Opening(w, fd, count);
            TableOk(o.reg, o.next) && MirrorOk(o.reg, o.kernel, o.epollOpen) && LinksOk(o.reg, o.chans, o.owned)
  {
    hide TableOk, MirrorOk, LinksOk, RefsOk, SilentOk, MasksOk, TimersOk, HandlersOk, EntryLogOk, ChanLogOk,
         TimerLogOk, LedgerOk, Lawful;
    var e := Entry(w.next + 1, fd, {}, Channel(w.next));
    FreshAddress(w, w.next);
    UnwatchedIsUnregistered(w.reg, w.kernel, w.epollOpen, fd);
    TableAfterAdd(w.reg, w.next, e);
    MirrorAfterAdd(w.reg, w.kernel, e);
    LinksAfterOpen(w.reg, w.chans, w.owned, w.next, e);
  }

  lemma OpeningClients(w: World, fd: int, count: nat)
    requires Inv(w) && fd >= 0 && fd !in w.kernel && w.epollOpen
    ensures var o := Opening(w, fd, count);
            && RefsOk(o.chans, o.owned, o.frames, o.next) && SilentOk(o.chans, o.owned, o.terminate)
  {
    hide TableOk, MirrorOk, LinksOk, RefsOk, SilentOk, MasksOk, TimersOk, HandlersOk, EntryLogOk, ChanLogOk,
         TimerLogOk, LedgerOk, Lawful;
    var p, n, c := w.next, w.next + 2, BLANK.(descriptor := fd);
    FreshAddress(w, p);
    NextGrowsRefs(w.chans, w.owned, w.frames, w.next, n);
    RefsAfterOpen(w.chans, w.owned, w.frames, n, p, c);
    SilentAfterOpen(w.chans, w.owned, w.terminate, p, c);
  }

  lemma OpeningMasks(w: World, fd: int, count: nat)
    requires Inv(w)
    ensures var o := Opening(w, fd, count); MasksOk(o.reg, o.chans, AnyDenied(o.log))
  {
    hide TableOk, MirrorOk, LinksOk, RefsOk, SilentOk, MasksOk, TimersOk, HandlersOk, EntryLogOk, ChanLogOk,
         TimerLogOk, LedgerOk, Lawful, OpenedLog, Happened;
    FreshAddress(w, w.next);
    FreshAddress(w, w.next + 1);
    OpenedIsLawful(w.log, w.next, fd);
    MasksAfterOpen(w.reg, w.chans, AnyDenied(w.log), w.next, Entry(w.next + 1, fd, {}, Channel(w.next)));
  }

  lemma OpeningTimers(w: World, fd: int, count: nat)
    requires Inv(w) && fd >= 0 && fd !in w.kernel && w.epollOpen
    ensures var o := Opening(w, fd, count); TimersOk(o.reg, o.timers, o.next)
  {
    hide TableOk, MirrorOk, LinksOk, RefsOk, SilentOk, MasksOk, TimersOk, HandlersOk, EntryLogOk, ChanLogOk,
         TimerLogOk, LedgerOk, Lawful;
    UnwatchedIsUnregistered(w.reg, w.kernel, w.epollOpen, fd);
    NextGrowsTimers(w.reg, w.timers, w.next, w.next + 2);
    TimersAfterOpen(w.reg, w.timers, w.next + 2, Entry(w.next + 1, fd, {}, Channel(w.next)));
  }

  lemma OpeningLogs(w: World, fd: int, count: nat)
    requires Inv(w) && fd >= 0 && fd !in w.kernel && w.epollOpen
    ensures var o := Opening(w, fd, count);
            && HandlersOk(o.log, o.chans) && EntryLogOk(o.log, o.reg, o.next)
            && ChanLogOk(o.log, o.chans, o.owned, o.frames, o.next) && TimerLogOk(o.log, o.timers, o.next)
            && LedgerOk(o.log, o.reg, o.kernel, o.chans, o.timers, o.pools, o.next)
  {
    hide TableOk, MirrorOk, LinksOk, RefsOk, SilentOk, MasksOk, TimersOk, HandlersOk, EntryLogOk, ChanLogOk,
         TimerLogOk, LedgerOk, Lawful;
    FreshAddress(w, w.next);
    UnwatchedIsUnregistered(w.reg, w.kernel, w.epollOpen, fd);
    OpeningEntryLog(w.log, w.reg, w.next, fd);
    OpeningHandlers(w.log, w.chans, w.next, fd);
    OpeningChanLog(w.log, w.chans, w.owned, w.frames, w.next, fd);
    OpeningTimerLog(w.log, w.timers, w.next, fd);
    LedgerAfterOpened(w.log, w.reg, w.kernel, w.chans, w.timers, w.pools, w.next,
                      Entry(w.next + 1, fd, {}, Channel(w.next)), BLANK.(descriptor := fd));
  }

  lemma OpeningHandlers(log: Trace, chans: Chans, p: nat, fd: int)
    requires HandlersOk(log, chans) && p !in chans
    ensures HandlersOk(OpenedLog(log, p, fd), chans[p := BLANK.(descriptor := fd)])
  {
    hide HandlersOk;
    var c := BLANK.(descriptor := fd);
    HandlersAfterUpdate(log, chans, p, c);
    HandlersHear(log, Added(p + 1), chans[p := c]);
    HandlersHear(Then(log, Added(p + 1)), Wrapped(p, fd), chans[p := c]);
    HandlersHear(Then(Then(log, Added(p + 1)), Wrapped(p, fd)), Opened(p), chans[p := c]);
  }

  lemma OpeningEntryLog(log: Trace, reg: Registry, p: nat, fd: int)
    requires EntryLogOk(log, reg, p) && TableOk(reg, p) && Find(reg, fd) == |reg|
    requires fd >= 0
    ensures EntryLogOk(OpenedLog(log, p, fd), reg + [Entry(p + 1, fd, {}, Channel(p))], p + 2)
  {
    hide EntryLogOk, TableOk;
    var e := Entry(p + 1, fd, {}, Channel(p));
    EntryLogAfterAdd(log, reg, p, e);
    EntryLogHears(Then(log, Added(p + 1)), Wrapped(p, fd), reg + [e], p + 2);
    EntryLogHears(Then(Then(log, Added(p + 1)), Wrapped(p, fd)), Opened(p), reg + [e], p + 2);
  }

  lemma OpeningChanLog(log: Trace, chans: Chans, owned: set<nat>, frames: multiset<nat>, p: nat, fd: int)
    requires ChanLogOk(log, chans, owned, frames, p)
    ensures ChanLogOk(OpenedLog(log, p, fd), chans[p := BLANK.(descriptor := fd)], owned + {p}, frames, p + 2)
  {
    hide ChanLogOk;
    var log1, c := Then(Then(log, Added(p + 1)), Wrapped(p, fd)), BLANK.(descriptor := fd);
    ChanLogHears(log, Added(p + 1), chans, owned, frames, p);
    ChanLogHears(Then(log, Added(p + 1)), Wrapped(p, fd), chans, owned, frames, p);
    ChanLogAfterOpened(log1, chans, owned, frames, p, p, c);
    NextGrowsChanLog(Then(log1, Opened(p)), chans[p := c], owned + {p}, frames, p + 1, p + 2);
  }

  lemma OpeningTimerLog(log: Trace, timers: Timers, p: nat, fd: int)
    requires TimerLogOk(log, timers, p)
    ensures TimerLogOk(OpenedLog(log, p, fd), timers, p + 2)
  {
    hide TimerLogOk;
    var log1 := Then(Then(log, Added(p + 1)), Wrapped(p, fd));
    TimerLogHears(log, Added(p + 1), timers, p);
    TimerLogHears(Then(log, Added(p + 1)), Wrapped(p, fd), timers, p);
    TimerLogHears(log1, Opened(p), timers, p);
    NextGrowsTimerLog(Then(log1, Opened(p)), timers, p, p + 2);
  }

  lemma OpeningKeeps(w: World, fd: int, count: nat)
    requires Inv(w) && fd >= 0 && fd !in w.kernel && w.epollOpen && RoomOk(Opening(w, fd, count).reg, count)
    ensures Inv(Opening(w, fd, count))
  {
    hide TableOk, MirrorOk, LinksOk, RefsOk, SilentOk, MasksOk, TimersOk, HandlersOk, EntryLogOk, ChanLogOk,
         TimerLogOk, LedgerOk, Lawful, Opening;
    OpeningIs(w, fd, count);
    OpeningTable(w, fd, count);
    OpeningClients(w, fd, count);
    OpeningMasks(w, fd, count);
    OpeningTimers(w, fd, count);
    OpeningLogs(w, fd, count);
    OpeningLawful(w, fd, count);
  }

  lemma OpeningIs(w: World, fd: int, count: nat)
    ensures Opening(w, fd, count).terminate == w.terminate && Opening(w, fd, count).count == count
    ensures Opening(w, fd, count).epollOpen == w.epollOpen
  {
  }

  lemma OpeningLawful(w: World, fd: int, count: nat)
    requires Inv(w)
    ensures Lawful(Opening(w, fd, count).log) && Happened(Opening(w, fd, count).log, Stopped) == w.terminate
  {
    hide TableOk, MirrorOk, LinksOk, RefsOk, SilentOk, MasksOk, TimersOk, HandlersOk, EntryLogOk, ChanLogOk,
         TimerLogOk, LedgerOk;
    FreshAddress(w, w.next);
    FreshAddress(w, w.next + 1);
    OpenedIsLawful(w.log, w.next, fd);
  }

  lemma OpenedIsLawful(log: Trace, p: nat, fd: int)
    requires Lawful(log) && !Happened(log, Opened(p)) && !Happened(log, Added(EntryOf(p)))
    ensures var log' := OpenedLog(log, p, fd);
            Lawful(log') && AnyDenied(log') == AnyDenied(log) && Happened(log', Stopped) == Happened(log, Stopped)
  {
    var log1 := Then(log, Added(EntryOf(p)));
    var log2 := Then(log1, Wrapped(p, fd));
    assert !Happened(log1, Opened(p)) && Happened(log1, Stopped) == Happened(log, Stopped);
    assert !Happened(log2, Opened(p)) && Happened(log2, Stopped) == Happened(log, Stopped);
    assert AnyDenied(log1) == AnyDenied(log) && AnyDenied(log2) == AnyDenied(log);
  }

  lemma StartedIsLawful(log: Trace, t: nat, r: TimerRecord)
    requires Lawful(log) && MakingOf(log, t).Unmade? && !Happened(log, Added(EntryOf(t)))
    ensures var log' := StartedLog(log, t, r);
            Lawful(log') && AnyDenied(log') == AnyDenied(log) && Happened(log', Stopped) == Happened(log, Stopped)
  {
    var log1 := Then(log, TimerOpened(t, r.id, r.data, r.destructor));
    var log2 := Then(log1, Armed(t));
    assert !Happened(log1, Added(EntryOf(t))) && Happened(log1, Stopped) == Happened(log, Stopped);
    assert !Happened(log2, Added(EntryOf(t))) && Happened(log2, Stopped) == Happened(log, Stopped);
    assert AnyDenied(log1) == AnyDenied(log) && AnyDenied(log2) == AnyDenied(log);
  }

  lemma SilentAfterOpen(chans: Chans, owned: set<nat>, stopped: bool, p: nat, c: Chan)
    requires SilentOk(chans, owned, stopped) && c.descriptor >= 0
    ensures SilentOk(chans[p := c], owned + {p}, stopped)
  {
    var chans', owned' := chans[p := c], owned + {p};
    forall q | q in chans' ensures Hushed(chans'[q], q in owned', stopped) {
      assert q != p ==> Hushed(chans[q], q in owned, stopped);
    }
  }

  lemma CountKeeps(w: World, count: nat)
    requires Inv(w) && RoomOk(w.reg, count)
    ensures Inv(w.(count := count))
  {
    hide TableOk, MirrorOk, LinksOk, RefsOk, SilentOk, MasksOk, TimersOk, HandlersOk, EntryLogOk, ChanLogOk,
         TimerLogOk, LedgerOk, Lawful;
  }

  /** Either nothing but the size of the table changes and the code is not 0, or the entry is taken. */
  lemma LoopAddIs(w: World, sd: int, mask: Mask, client: Client, answer: Answer)
    ensures var (v, code) := LoopAdd(w, sd, mask, client, answer);
            if |v.reg| == |w.reg| then code != 0 && v == w.(count := v.count)
            else
              && code == 0 && sd >= 0 && sd !in w.kernel && w.epollOpen
              && v == w.(count := v.count, reg := w.reg + [Entry(w.next, sd, mask, client)],
                         kernel := w.kernel[sd := Interest(w.next, mask, true)], next := w.next + 1,
                         log := Then(w.log, Added(w.next)))
    ensures var v := LoopAdd(w, sd, mask, client, answer).0;
            v.count >= w.count && (RoomOk(w.reg, w.count) ==> RoomOk(v.reg, v.count))
  {
  }

  lemma RoomHere(w: World)
    requires Inv(w)
    ensures RoomOk(w.reg, w.count)
  {
    hide TableOk, MirrorOk, LinksOk, RefsOk, SilentOk, MasksOk, TimersOk, HandlersOk, EntryLogOk, ChanLogOk,
         TimerLogOk, LedgerOk, Lawful;
  }

  lemma NothingOpens(w: World, fd: int, answer: Answer)
    ensures fd < 0 ==> IoNew(w, fd, answer) == NewChannel(w, false, 0)
  {
  }

  lemma OpensBy(w: World, fd: int, answer: Answer)
    requires fd >= 0
    ensures var p, blank := w.next, Chan(0, fd, {}, false, NO_HANDLER, NO_HANDLER, NO_HANDLER);
            var (v, code) := LoopAdd(w.(next := p + 1, chans := w.chans[p := blank]), fd, {}, Channel(p), answer);
            && p in v.chans && v.chans[p] == blank
            && IoNew(w, fd, answer) ==
               if code < 0 then NewChannel(v.(chans := v.chans - {p}), false, 0)
               else NewChannel(v.(chans := v.chans[p := blank.(refs := 1)], owned := v.owned + {p},
                                  log := Then(Then(v.log, Wrapped(p, fd)), Opened(p))), true, p)
  {
    hide LoopAdd;
    var p := w.next;
    var blank := Chan(0, fd, {}, false, NO_HANDLER, NO_HANDLER, NO_HANDLER);
    LoopAddIs(w.(next := p + 1, chans := w.chans[p := blank]), fd, {}, Channel(p), answer);
  }

  /** io_new keeps the invariant unless epoll refuses the descriptor and the caller is not told. */
  lemma IoNewKeeps(w: World, fd: int, answer: Answer)
    requires Inv(w)
    ensures var r := IoNew(w, fd, answer);
            && (|r.w.reg| != |w.reg| || !r.channel ==> Inv(r.w))
            && r.w.gap == w.gap && r.w.frames == w.frames && r.w.pools == w.pools
  {
    hide Inv, LoopAdd, IoNew;
    FreshAddress(w, w.next);
    NothingOpens(w, fd, answer);
    if fd >= 0 {
      OpensBy(w, fd, answer);
      var p, c := w.next, Chan(0, fd, {}, false, NO_HANDLER, NO_HANDLER, NO_HANDLER);
      var w0 := w.(next := p + 1, chans := w.chans[p := c]);
      LoopAddIs(w0, fd, {}, Channel(p), answer);
      var (v, code) := LoopAdd(w0, fd, {}, Channel(p), answer);
      RoomHere(w);
      if |v.reg| != |w.reg| {
        OpeningKeeps(w, fd, v.count);
        assert v.chans[p := c.(refs := 1)] == w.chans[p := BLANK.(descriptor := fd)];
      } else if code < 0 {
        assert v.chans - {p} == w.chans;
        CountKeeps(w, v.count);
        NextGrows(w.(count := v.count), p + 1);
      }
    }
  }

  // ------------------------------------------------------------ a timer is created

  /** The state after create_timer has registered descriptor fd. */
  function Starting(w: World, fd: int, data: nat, destructor: nat, count: nat): World {
    var t, id := w.next, w.next + 1;
    w.(reg := w.reg + [Entry(id, fd, {IN, ONESHOT}, Timer(t))],
       kernel := w.kernel[fd := Interest(id, {IN, ONESHOT}, true)],
       count := count, timers := w.timers[t := TimerRecord(fd, data, destructor, true)], next := id + 1,
       log := StartedLog(w.log, t, TimerRecord(fd, data, destructor, true)))
  }

  lemma TimerLogAfterArmed(log: Trace, timers: Timers, next: nat, t: nat, r: TimerRecord)
    requires TimerLogOk(log, timers, next) && t < next
    requires t in timers || !Happened(log, TimerFreed(t))
    ensures TimerLogOk(Then(log, Armed(t)), timers[t := r], next)
  {
    hide Times, Happened;
    var log', timers' := Then(log, Armed(t)), timers[t := r];
    forall u: nat ensures TimerLogAt(log', u in timers', Pending(timers', u), next, u) {
      assert TimerLogAt(log, u in timers, Pending(timers, u), next, u);
      ArmedCounts(log, t, u);
    }
  }

  lemma ArmedCounts(log: Trace, t: nat, u: nat)
    ensures var log' := Then(log, Armed(t));
            && Times(log', Armed(u)) == Times(log, Armed(u)) + One(u == t)
            && Times(log', Fired(u)) == Times(log, Fired(u))
            && Happened(log', TimerFreed(u)) == Happened(log, TimerFreed(u))
  {
  }

  lemma StartingIs(w: World, fd: int, data: nat, destructor: nat, count: nat)
    ensures var v := Starting(w, fd, data, destructor, count);
            v.terminate == w.terminate && v.count == count && v.epollOpen == w.epollOpen
  {
  }

  lemma StartingLawful(w: World, fd: int, data: nat, destructor: nat, count: nat)
    requires Inv(w)
    ensures Lawful(Starting(w, fd, data, destructor, count).log)
    ensures Happened(Starting(w, fd, data, destructor, count).log, Stopped) == w.terminate
  {
    hide TableOk, MirrorOk, LinksOk, RefsOk, SilentOk, MasksOk, TimersOk, HandlersOk, EntryLogOk, ChanLogOk,
         TimerLogOk, LedgerOk;
    FreshAddress(w, w.next);
    FreshAddress(w, w.next + 1);
    StartedIsLawful(w.log, w.next, TimerRecord(fd, data, destructor, true));
  }

  lemma StartingTable(w: World, fd: int, data: nat, destructor: nat, count: nat)
    requires Inv(w) && fd >= 0 && fd !in w.kernel && w.epollOpen
    ensures var o := Starting(w, fd, data, destructor, count);
            && TableOk(o.reg, o.next) && MirrorOk(o.reg, o.kernel, o.epollOpen) && LinksOk(o.reg, o.chans, o.owned)
            && RefsOk(o.chans, o.owned, o.frames, o.next) && SilentOk(o.chans, o.owned, o.terminate)
  {
    hide TableOk, MirrorOk, LinksOk, RefsOk, SilentOk, MasksOk, TimersOk, HandlersOk, EntryLogOk, ChanLogOk,
         TimerLogOk, LedgerOk, Lawful;
    var n, e := w.next + 2, Entry(w.next + 1, fd, {IN, ONESHOT}, Timer(w.next));
    UnwatchedIsUnregistered(w.reg, w.kernel, w.epollOpen, fd);
    TableAfterAdd(w.reg, w.next, e);
    MirrorAfterAdd(w.reg, w.kernel, e);
    LinksAfterTimerAdd(w.reg, w.chans, w.owned, e);
    NextGrowsRefs(w.chans, w.owned, w.frames, w.next, n);
  }

  lemma StartingMasks(w: World, fd: int, data: nat, destructor: nat, count: nat)
    requires Inv(w)
    ensures var o := Starting(w, fd, data, destructor, count); MasksOk(o.reg, o.chans, AnyDenied(o.log))
  {
    hide TableOk, MirrorOk, LinksOk, RefsOk, SilentOk, MasksOk, TimersOk, HandlersOk, EntryLogOk, ChanLogOk,
         TimerLogOk, LedgerOk, Lawful, StartedLog, Happened, MakingOf;
    FreshAddress(w, w.next);
    FreshAddress(w, w.next + 1);
    StartedIsLawful(w.log, w.next, TimerRecord(fd, data, destructor, true));
    MasksAfterTimerAdd(w.reg, w.chans, AnyDenied(w.log), Entry(w.next + 1, fd, {IN, ONESHOT}, Timer(w.next)));
  }

  lemma StartingTimers(w: World, fd: int, data: nat, destructor: nat, count: nat)
    requires Inv(w) && fd >= 0 && fd !in w.kernel && w.epollOpen
    ensures var o := Starting(w, fd, data, destructor, count); TimersOk(o.reg, o.timers, o.next)
  {
    hide TableOk, MirrorOk, LinksOk, RefsOk, SilentOk, MasksOk, TimersOk, HandlersOk, EntryLogOk, ChanLogOk,
         TimerLogOk, LedgerOk, Lawful;
    var t, n := w.next, w.next + 2;
    var e, r := Entry(w.next + 1, fd, {IN, ONESHOT}, Timer(t)), TimerRecord(fd, data, destructor, true);
    FreshAddress(w, t);
    UnwatchedIsUnregistered(w.reg, w.kernel, w.epollOpen, fd);
    NextGrowsTimers(w.reg, w.timers, w.next, n);
    TimersAfterTimerAdd(w.reg, w.timers, n, t, r, e);
  }

  lemma StartingLogs(w: World, fd: int, data: nat, destructor: nat, count: nat)
    requires Inv(w) && fd >= 0 && fd !in w.kernel && w.epollOpen
    ensures var o := Starting(w, fd, data, destructor, count);
            && HandlersOk(o.log, o.chans) && EntryLogOk(o.log, o.reg, o.next)
            && ChanLogOk(o.log, o.chans, o.owned, o.frames, o.next) && TimerLogOk(o.log, o.timers, o.next)
            && LedgerOk(o.log, o.reg, o.kernel, o.chans, o.timers, o.pools, o.next)
  {
    hide TableOk, MirrorOk, LinksOk, RefsOk, SilentOk, MasksOk, TimersOk, HandlersOk, EntryLogOk, ChanLogOk,
         TimerLogOk, LedgerOk, Lawful;
    var t, id := w.next, w.next + 1;
    var e, r := Entry(id, fd, {IN, ONESHOT}, Timer(t)), TimerRecord(fd, data, destructor, true);
    FreshAddress(w, t);
    FreshAddress(w, id);
    UnwatchedIsUnregistered(w.reg, w.kernel, w.epollOpen, fd);
    StartingOthers(w.log, w.chans, w.owned, w.frames, w.reg, t, r, e);
    StartingTimerLog(w.log, w.timers, t, r);
    LedgerAfterStarted(w.log, w.reg, w.kernel, w.chans, w.timers, w.pools, t, r, e);
  }

  lemma StartingOthers(log: Trace, chans: Chans, owned: set<nat>, frames: multiset<nat>, reg: Registry, t: nat,
                       r: TimerRecord, e: Row)
    requires HandlersOk(log, chans) && ChanLogOk(log, chans, owned, frames, t) && EntryLogOk(log, reg, t)
    requires e.id == EntryOf(t) && Find(reg, e.sd) == |reg|
    ensures HandlersOk(StartedLog(log, t, r), chans) && ChanLogOk(StartedLog(log, t, r), chans, owned, frames, t + 2)
    ensures EntryLogOk(StartedLog(log, t, r), reg + [e], t + 2)
  {
    hide HandlersOk, ChanLogOk, EntryLogOk;
    var made := TimerOpened(t, r.id, r.data, r.destructor);
    var log1 := Then(log, made);
    var log2 := Then(log1, Armed(t));
    HandlersHear(log, made, chans);
    HandlersHear(log1, Armed(t), chans);
    HandlersHear(log2, Added(e.id), chans);
    NextGrowsChanLog(log, chans, owned, frames, t, t + 2);
    ChanLogHears(log, made, chans, owned, frames, t + 2);
    ChanLogHears(log1, Armed(t), chans, owned, frames, t + 2);
    ChanLogHears(log2, Added(e.id), chans, owned, frames, t + 2);
    EntryLogHears(log, made, reg, t);
    EntryLogHears(log1, Armed(t), reg, t);
    EntryLogAfterAdd(log2, reg, t, e);
  }

  lemma StartingTimerLog(log: Trace, timers: Timers, t: nat, r: TimerRecord)
    requires TimerLogOk(log, timers, t) && !Happened(log, TimerFreed(t))
    ensures TimerLogOk(StartedLog(log, t, r), timers[t := r], t + 2)
  {
    hide TimerLogOk;
    var log1 := Then(log, TimerOpened(t, r.id, r.data, r.destructor));
    assert !Happened(log1, TimerFreed(t));
    NextGrowsTimerLog(log, timers, t, t + 2);
    TimerLogHears(log, log1.last, timers, t + 2);
    TimerLogAfterArmed(log1, timers, t + 2, t, r);
    TimerLogHears(Then(log1, Armed(t)), Added(EntryOf(t)), timers[t := r], t + 2);
  }

  lemma StartingKeeps(w: World, fd: int, data: nat, destructor: nat, count: nat)
    requires Inv(w) && fd >= 0 && fd !in w.kernel && w.epollOpen
    requires RoomOk(Starting(w, fd, data, destructor, count).reg, count)
    ensures Inv(Starting(w, fd, data, destructor, count))
  {
    hide TableOk, MirrorOk, LinksOk, RefsOk, SilentOk, MasksOk, TimersOk, HandlersOk, EntryLogOk, ChanLogOk,
         TimerLogOk, LedgerOk, Lawful, Starting;
    StartingIs(w, fd, data, destructor, count);
    StartingTable(w, fd, data, destructor, count);
    StartingMasks(w, fd, data, destructor, count);
    StartingTimers(w, fd, data, destructor, count);
    StartingLogs(w, fd, data, destructor, count);
    StartingLawful(w, fd, data, destructor, count);
  }

  /** The state after create_timer has failed to register its descriptor. */
  function Abandoning(w: World, r: TimerRecord, count: nat): World {
    w.(count := count, next := w.next + 1, log := AbandonedLog(w.log, w.next, r))
  }

  lemma AbandonedIsLawful(log: Trace, t: nat, r: TimerRecord)
    requires Lawful(log) && MakingOf(log, t).Unmade? && !Happened(log, TimerFreed(t))
             && Times(log, TimerClosed(t, r.id)) == 0
    ensures Lawful(AbandonedLog(log, t, r))
  {
    var log1 := Then(log, TimerOpened(t, r.id, r.data, r.destructor));
    var log2 := Then(log1, Armed(t));
    var log3 := Then(log2, TimerClosed(t, r.id));
    assert !Happened(log1, TimerFreed(t)) && Times(log1, TimerClosed(t, r.id)) == 0;
    assert !Happened(log2, TimerFreed(t)) && Times(log2, TimerClosed(t, r.id)) == 0;
    assert !Happened(log3, TimerFreed(t));
    AllowedNext(log, log1.last);
    AllowedNext(log1, Armed(t));
    AllowedNext(log2, log3.last);
    AllowedNext(log3, TimerFreed(t));
    hide Lawful, Allowed;
  }

  /** Events of one timer being made and disposed of at once. */
  lemma AbandonedIsUnheard(log: Trace, t: nat, r: TimerRecord)
    requires Lawful(log) && MakingOf(log, t).Unmade? && !Happened(log, TimerFreed(t))
             && Times(log, TimerClosed(t, r.id)) == 0
    ensures var log' := AbandonedLog(log, t, r);
            && OnlyTimersHear(log, log') && Lawful(log') && AnyDenied(log') == AnyDenied(log)
            && Happened(log', Stopped) == Happened(log, Stopped)
  {
    AbandonedIsLawful(log, t, r);
    hide Lawful, Allowed;
    var log1 := Then(log, TimerOpened(t, r.id, r.data, r.destructor));
    var log2 := Then(log1, Armed(t));
    var log3 := Then(log2, TimerClosed(t, r.id));
    assert OnlyTimersHear(log, log);
    assert OnlyTimersHear(log, log1) && OnlyTimersHear(log, log2) && OnlyTimersHear(log, log3);
    assert Happened(log1, Stopped) == Happened(log, Stopped) && Happened(log2, Stopped) == Happened(log, Stopped);
    assert Happened(log3, Stopped) == Happened(log, Stopped);
    assert AnyDenied(log1) == AnyDenied(log) && AnyDenied(log2) == AnyDenied(log) && AnyDenied(log3) == AnyDenied(log);
  }

  lemma TimerLogAfterAbandoned(log: Trace, timers: Timers, t: nat, r: TimerRecord)
    requires TimerLogOk(log, timers, t) && !Happened(log, TimerFreed(t)) && t !in timers
    ensures TimerLogOk(AbandonedLog(log, t, r), timers, t + 1)
  {
    hide TimerLogOk;
    var log1 := Then(log, TimerOpened(t, r.id, r.data, r.destructor));
    assert !Happened(log1, TimerFreed(t));
    NextGrowsTimerLog(log, timers, t, t + 1);
    TimerLogHears(log, log1.last, timers, t + 1);
    TimerLogAfterArmed(log1, timers, t + 1, t, r);
    var log2, r0 := Then(log1, Armed(t)), r.(destructor := 0);
    TimerLogAfterFree(log2, timers[t := r], t + 1, t, r0);
    assert timers[t := r] - {t} == timers;
  }

  lemma NoClosingOfFresh(w: World, t: nat, fd: int)
    requires Core(w) && t >= w.next
    ensures Times(w.log, TimerClosed(t, fd)) == 0
  {
    hide TableOk, MirrorOk, LinksOk, RefsOk, SilentOk, MasksOk, TimersOk, HandlersOk, EntryLogOk, ChanLogOk,
         TimerLogOk, Lawful;
    assert EndAt(w.log, Kept(w.timers, t), w.next, t);
  }

  lemma AbandoningKeeps(w: World, r: TimerRecord, count: nat)
    requires Inv(w) && RoomOk(w.reg, count)
    ensures Inv(Abandoning(w, r, count))
  {
    hide TableOk, MirrorOk, LinksOk, RefsOk, SilentOk, MasksOk, TimersOk, HandlersOk, EntryLogOk, ChanLogOk,
         TimerLogOk, LedgerOk, Lawful, AbandonedLog, OnlyTimersHear, Happened, AnyDenied;
    var t := w.next;
    var log := AbandonedLog(w.log, t, r);
    FreshAddress(w, t);
    FreshAddress(w, t + 1);
    NoClosingOfFresh(w, t, r.id);
    NextGrows(w, t + 1);
    AbandonedIsUnheard(w.log, t, r);
    OthersHearTimers(w.log, log, w.reg, w.chans, w.owned, w.frames, t + 1);
    TimerLogAfterAbandoned(w.log, w.timers, t, r);
    LedgerAfterAbandoned(w.log, w.reg, w.kernel, w.chans, w.timers, w.pools, t, r);
  }

  /** create_timer keeps the invariant unless epoll refuses the descriptor and the caller is not told. */
  lemma CreateTimerKeeps(w: World, fd: int, data: nat, destructor: nat, answer: Answer)
    requires Inv(w)
    ensures var (v, code) := CreateTimer(w, fd, data, destructor, answer);
            && (|v.reg| != |w.reg| || code < 0 || fd < 0 ==> Inv(v))
            && v.gap == w.gap && v.frames == w.frames && v.pools == w.pools
  {
    hide Inv, StartTimer;
    if fd >= 0 { StartTimerKeeps(w, fd, data, destructor, answer); }
  }

  lemma StartTimerKeeps(w: World, fd: int, data: nat, destructor: nat, answer: Answer)
    requires Inv(w) && fd >= 0
    ensures var (v, code) := StartTimer(w, fd, data, destructor, answer);
            && (|v.reg| != |w.reg| || code < 0 ==> Inv(v))
            && v.gap == w.gap && v.frames == w.frames && v.pools == w.pools
  {
    hide Inv, LoopAdd;
    FreshAddress(w, w.next);
    var t, r := w.next, TimerRecord(fd, data, destructor, true);
    var made := TimerOpened(t, fd, data, destructor);
    var w1 := Note(Note(w.(next := t + 1, timers := w.timers[t := r]), made), Armed(t));
    RoomHere(w);
    LoopAddIs(w1, fd, {IN, ONESHOT}, Timer(t), answer);
    var (v, code) := LoopAdd(w1, fd, {IN, ONESHOT}, Timer(t), answer);
    if |v.reg| != |w.reg| {
      StartingKeeps(w, fd, data, destructor, v.count);
    } else if code < 0 {
      AbandoningKeeps(w, r, v.count);
      assert v.timers - {t} == w.timers;
    }
  }

  // ------------------------------------------------------------ a timer is set again, or fires

  lemma TimersAfterUpdate(reg: Registry, timers: Timers, next: nat, t: nat, r: TimerRecord)
    requires TimersOk(reg, timers, next) && t in timers && r.id == timers[t].id
    ensures TimersOk(reg, timers[t := r], next)
  {
    forall i | 0 <= i < |reg| ensures TimerLinked(reg[i], timers[t := r]) {
      assert TimerLinked(reg[i], timers);
    }
  }

  lemma ArmKeeps(w: World, t: nat)
    requires Inv(w) && t in w.timers
    ensures Inv(Note(w.(timers := w.timers[t := w.timers[t].(pending := true)]), Armed(t)))
  {
    hide TableOk, MirrorOk, LinksOk, RefsOk, SilentOk, MasksOk, TimersOk, HandlersOk, EntryLogOk, ChanLogOk,
         TimerLogOk, LedgerOk;
    var e, r := Armed(t), w.timers[t].(pending := true);
    TimerHere(w.log, w.timers, w.next, t);
    assert OnlyTimersHear(w.log, Then(w.log, e));
    OthersHearTimers(w.log, Then(w.log, e), w.reg, w.chans, w.owned, w.frames, w.next);
    TimersAfterUpdate(w.reg, w.timers, w.next, t, r);
    TimerLogAfterArmed(w.log, w.timers, w.next, t, r);
    LedgerHears(w.log, e, w.reg, w.kernel, w.chans, w.timers, w.pools, w.next);
    LedgerAfterTimerUpdate(Then(w.log, e), w.reg, w.kernel, w.chans, w.timers, w.pools, w.next, t, true);
  }

  lemma TimerLogAfterFired(log: Trace, timers: Timers, next: nat, t: nat)
    requires TimerLogOk(log, timers, next) && Pending(timers, t)
    ensures TimerLogOk(Then(log, Fired(t)), timers[t := timers[t].(pending := false)], next)
  {
    hide Times, Happened;
    var timers' := timers[t := timers[t].(pending := false)];
    forall u: nat ensures TimerLogAt(Then(log, Fired(t)), u in timers', Pending(timers', u), next, u) {
      assert TimerLogAt(log, u in timers, Pending(timers, u), next, u);
      FiredCounts(log, t, u);
    }
  }

  lemma FiredCounts(log: Trace, t: nat, u: nat)
    ensures var log' := Then(log, Fired(t));
            && Times(log', Fired(u)) == Times(log, Fired(u)) + One(u == t)
            && Times(log', Armed(u)) == Times(log, Armed(u))
            && Happened(log', TimerFreed(u)) == Happened(log, TimerFreed(u))
  {
  }

  /** A timer in use was made and has been registered. */
  lemma TimerIsMade(w: World, t: nat)
    requires Core(w) && t in w.timers
    ensures MakingOf(w.log, t).Made? && Happened(w.log, Added(EntryOf(t)))
  {
    hide MirrorOk, LinksOk, RefsOk, SilentOk, MasksOk, HandlersOk, ChanLogOk, TimerLogOk, Lawful;
    assert EndAt(w.log, Kept(w.timers, t), w.next, t);
    var k := Find(w.reg, w.timers[t].id);
    assert Registered(w.reg, w.timers[t].id, Timer(t)) && TimerLinked(w.reg[k], w.timers);
    FindIs(w.reg, w.next, k);
    EntryHere(w.log, w.reg, w.next, EntryOf(t));
  }

  /** The state when a timer's callback is called. */
  function Firing(w: World, t: nat): World
    requires t in w.timers
  {
    Note(Drawn(w, EntryOf(t)).(timers := w.timers[t := w.timers[t].(pending := false)]), Fired(t))
  }

  lemma FiringAllowed(w: World, t: nat)
    requires Core(w) && Pending(w.timers, t) && w.pools[EntryOf(t)] > 0
    ensures Allowed(w.log, Fired(t))
  {
    hide TableOk, MirrorOk, LinksOk, RefsOk, SilentOk, MasksOk, TimersOk, HandlersOk, EntryLogOk, ChanLogOk,
         TimerLogOk, Lawful;
    TimerHere(w.log, w.timers, w.next, t);
    TimerIsMade(w, t);
    ShotHere(w.log, w.reg, w.kernel, w.timers, w.pools, t);
  }

  lemma FiredIsUnheard(log: Trace, t: nat)
    ensures var log' := Then(log, Fired(t));
            && OnlyTimersHear(log, log') && AnyDenied(log') == AnyDenied(log)
            && Happened(log', Stopped) == Happened(log, Stopped)
  {
    assert OnlyTimersHear(log, log);
  }

  lemma FireKeeps(w: World, t: nat)
    requires Inv(w) && Pending(w.timers, t) && w.pools[EntryOf(t)] > 0 && InTable(w.reg, EntryOf(t))
    ensures Inv(Firing(w, t))
  {
    hide Inv;
    var v := Note(w, Picked(EntryOf(t)));
    PickKeeps(w, EntryOf(t));
    FiredKeeps(v, t);
    assert Firing(w, t) == Fires(v, t);
  }

  /** A timer's event is gone and the timer fires. */
  function Fires(w: World, t: nat): World
    requires t in w.timers
  {
    Note(w.(pools := w.pools - multiset{EntryOf(t)}, timers := w.timers[t := w.timers[t].(pending := false)]), Fired(t))
  }

  lemma FiredKeeps(w: World, t: nat)
    requires Inv(w) && Pending(w.timers, t) && w.pools[EntryOf(t)] > 0
    ensures Inv(Fires(w, t))
  {
    FiringAllowed(w, t);
    FiredIsUnheard(w.log, t);
    hide Happened, AnyDenied, OnlyTimersHear, Times;
    hide TableOk, MirrorOk, LinksOk, RefsOk, SilentOk, MasksOk, TimersOk, HandlersOk, EntryLogOk, ChanLogOk,
         TimerLogOk, LedgerOk, Allowed;
    var e, r := Fired(t), w.timers[t].(pending := false);
    TimerIsMade(w, t);
    OthersHearTimers(w.log, Then(w.log, e), w.reg, w.chans, w.owned, w.frames, w.next);
    TimersAfterUpdate(w.reg, w.timers, w.next, t, r);
    TimerLogAfterFired(w.log, w.timers, w.next, t);
    LedgerAfterFired(w.log, w.reg, w.kernel, w.chans, w.timers, w.pools, w.next, t);
    LedgerAfterTimerUpdate(Then(w.log, e), w.reg, w.kernel, w.chans, w.timers, w.pools - multiset{EntryOf(t)},
                           w.next, t, false);
  }

  /** The event of an entry in the table is taken out of a pool. */
  lemma DrawKeeps(w: World, id: nat)
    requires Inv(w) && InTable(w.reg, id)
    ensures Inv(Drawn(w, id))
  {
    hide Inv;
    PickKeeps(w, id);
    UnpoolKeeps(Note(w, Picked(id)), id);
  }

  lemma PickKeeps(w: World, id: nat)
    requires Inv(w) && InTable(w.reg, id)
    ensures Inv(Note(w, Picked(id)))
  {
    hide Inv, Allowed, InTable;
    PickAllowed(w, id);
    QuietKeeps(w, Picked(id));
  }

  lemma PickAllowed(w: World, id: nat)
    requires Inv(w) && InTable(w.reg, id)
    ensures Allowed(w.log, Picked(id))
  {
    hide TableOk, MirrorOk, LinksOk, RefsOk, SilentOk, MasksOk, TimersOk, HandlersOk, EntryLogOk, ChanLogOk,
         TimerLogOk, LedgerOk, Lawful, InTable;
    EntryHere(w.log, w.reg, w.next, id);
  }

  lemma UnpoolKeeps(w: World, id: nat)
    requires Inv(w)
    ensures Inv(w.(pools := w.pools - multiset{id}))
  {
    hide TableOk, MirrorOk, LinksOk, RefsOk, SilentOk, MasksOk, TimersOk, HandlersOk, EntryLogOk, ChanLogOk,
         TimerLogOk, LedgerOk, Lawful;
    LedgerAfterDraw(w.log, w.reg, w.kernel, w.chans, w.timers, w.pools, w.next, id);
  }

  lemma TimerRemaskKeeps(w: World, k: nat, m: Mask, t: nat)
    requires Inv(w) && k < |w.reg| && w.reg[k].client == Timer(t) && t in w.timers && m == {IN, ONESHOT}
    ensures Inv(Note(w.(reg := Remasked(w.reg, k, m),
                        kernel := w.kernel[w.reg[k].sd := Interest(w.reg[k].id, m, true)]), Rearmed(t)))
  {
    hide TableOk, MirrorOk, LinksOk, RefsOk, SilentOk, MasksOk, TimersOk, HandlersOk, EntryLogOk, ChanLogOk,
         TimerLogOk, LedgerOk, Remasked;
    var e, reg := Rearmed(t), Remasked(w.reg, k, m);
    TimerIsMade(w, t);
    RemaskedLength(w.reg, k, m);
    TableAfterRemask(w.reg, w.next, k, m);
    MirrorAfterRemask(w.reg, w.kernel, w.epollOpen, w.next, k, m);
    LinksAfterRemask(w.reg, w.chans, w.owned, k, m);
    MasksAfterTimerRemask(w.reg, w.chans, AnyDenied(w.log), k, m);
    TimersAfterRemask(w.reg, w.timers, w.next, k, m);
    EntryLogAfterRemask(w.log, w.reg, w.next, k, m);
    EntryLogHears(w.log, e, reg, w.next);
    ChanLogHears(w.log, e, w.chans, w.owned, w.frames, w.next);
    TimerLogHears(w.log, e, w.timers, w.next);
    HandlersHear(w.log, e, w.chans);
    MasksHear(reg, w.chans, w.log, e);
    LedgerAfterRearm(w.log, w.reg, w.kernel, w.chans, w.timers, w.pools, w.next, k, m, t);
  }

  lemma DeniedKeeps(w: World, sd: int)
    requires Inv(w)
    ensures Inv(Note(w, Denied(sd)))
  {
    hide TableOk, MirrorOk, LinksOk, RefsOk, SilentOk, MasksOk, TimersOk, HandlersOk, EntryLogOk, ChanLogOk,
         TimerLogOk, LedgerOk, Lawful, Allowed;
    ModifyDenied(w, sd);
  }

  lemma TimerLinkHere(w: World, t: nat)
    requires Inv(w) && t in w.timers
    ensures var k := Find(w.reg, w.timers[t].id);
            k < |w.reg| && w.reg[k].client == Timer(t) && w.timers[t].id >= 0
  {
    hide MirrorOk, LinksOk, RefsOk, SilentOk, MasksOk, HandlersOk, EntryLogOk, ChanLogOk, TimerLogOk, LedgerOk, Lawful;
  }

  lemma ModifyTimerEntryKeeps(w: World, t: nat, granted: bool)
    requires Inv(w) && t in w.timers
    ensures var (v, code) := LoopModify(w, w.timers[t].id, {IN, ONESHOT}, granted);
            && (code >= 0 <==> granted)
            && Inv(if code < 0 then v else Note(v, Rearmed(t)))
            && v.gap == w.gap && v.frames == w.frames && v.pools == w.pools
  {
    hide Inv, Remasked;
    TimerLinkHere(w, t);
    var k := Find(w.reg, w.timers[t].id);
    if granted {
      TimerRemaskKeeps(w, k, {IN, ONESHOT}, t);
      assert Remasked(w.reg, k, {IN, ONESHOT}) == w.reg[k := w.reg[k].(mask := {IN, ONESHOT})] by {
        RemaskedIs(w.reg, k, {IN, ONESHOT});
      }
    } else {
      DeniedKeeps(w, w.timers[t].id);
    }
  }

  lemma RemaskedIs(reg: Registry, k: nat, m: Mask)
    requires k < |reg|
    ensures Remasked(reg, k, m) == reg[k := reg[k].(mask := m)]
  {
  }

  lemma ModifyTimerKeeps(w: World, t: nat, timeout: bool, granted: bool)
    requires Inv(w) && t in w.timers
    ensures var v := ModifyTimer(w, t, timeout, granted).0;
            Inv(v) && v.gap == w.gap && v.frames == w.frames && v.pools == w.pools
  {
    hide Inv, LoopModify;
    var w1 := if timeout then Note(w.(timers := w.timers[t := w.timers[t].(pending := true)]), Armed(t)) else w;
    if timeout { ArmKeeps(w, t); }
    ModifyTimerEntryKeeps(w1, t, granted);
  }

  lemma MirrorDisarmed(reg: Registry, kernel: map<int, Interest>, epollOpen: bool, kernel': map<int, Interest>)
    requires MirrorOk(reg, kernel, epollOpen) && kernel'.Keys == kernel.Keys
    requires forall fd :: fd in kernel' ==> kernel'[fd].id == kernel[fd].id && kernel'[fd].mask == kernel[fd].mask
    requires forall fd :: fd in kernel' ==> ONESHOT in kernel[fd].mask || kernel'[fd].armed == kernel[fd].armed
    ensures MirrorOk(reg, kernel', epollOpen)
  {
    forall fd | fd in kernel' ensures Find(reg, fd) < |reg| {
      assert fd in kernel;
    }
  }
}

/** What every reachable state satisfies. */
module Invariant {
  import opened Events
  import opened LoopTable
  import opened World

  type Registry = seq<Entry<Client>>
  type Chans = map<nat, Chan>
  type Timers = map<nat, TimerRecord>

  ghost predicate Registered(reg: Registry, sd: int, client: Client) {
    var k := Find(reg, sd);
    k < |reg| && reg[k].client == client
  }

  ghost predicate InTable(reg: Registry, id: nat) {
    FindId(reg, id) < |reg|
  }

  /** Entries have distinct addresses and distinct non-negative descriptors. */
  ghost predicate TableOk(reg: Registry, next: nat) {
    && (forall i :: 0 <= i < |reg| ==> reg[i].sd >= 0 && reg[i].id < next)
    && (forall i, j :: 0 <= i < j < |reg| ==> reg[i].sd != reg[j].sd && reg[i].id != reg[j].id)
  }

  /** The kernel watches exactly the registered descriptors, with their masks, and disarms one-shot watches only. */
  ghost predicate MirrorOk(reg: Registry, kernel: map<int, Interest>, epollOpen: bool) {
    && (forall i :: 0 <= i < |reg| ==>
          && reg[i].sd in kernel && kernel[reg[i].sd].id == reg[i].id && kernel[reg[i].sd].mask == reg[i].mask
          && (ONESHOT in reg[i].mask || kernel[reg[i].sd].armed))
    && (forall fd :: fd in kernel ==> Find(reg, fd) < |reg|)
    && (!epollOpen ==> reg == [])
  }

  ghost predicate EntryLinked(e: Entry<Client>, chans: Chans, owned: set<nat>) {
    e.client.Channel? ==> e.client.p in owned && e.client.p in chans && chans[e.client.p].descriptor == e.sd
  }

  ghost predicate ChanLinked(reg: Registry, p: nat, c: Chan) {
    c.descriptor == -1 || (c.descriptor >= 0 && Registered(reg, c.descriptor, Channel(p)))
  }

  /** An open channel is registered under its own descriptor, and only open channels are registered. */
  ghost predicate LinksOk(reg: Registry, chans: Chans, owned: set<nat>) {
    && (forall i :: 0 <= i < |reg| ==> EntryLinked(reg[i], chans, owned))
    && (forall p :: p in chans ==> ChanLinked(reg, p, chans[p]))
  }

  /** The reference count is the owner's reference plus the dispatches in progress. */
  ghost predicate RefsAt(chans: Chans, owned: set<nat>, frames: multiset<nat>, next: nat, p: nat) {
    && (p in chans ==> p < next && chans[p].refs == One(p in owned) + frames[p] > 0)
    && (p !in chans ==> p !in owned && frames[p] == 0)
  }

  ghost predicate RefsOk(chans: Chans, owned: set<nat>, frames: multiset<nat>, next: nat) {
    forall p: nat :: RefsAt(chans, owned, frames, next, p)
  }

  ghost predicate Silent(c: Chan) {
    c.descriptor == -1 && c.read.callback == 0 && c.write.callback == 0 && c.disconnect.callback == 0
  }

  ghost predicate Hushed(c: Chan, owned: bool, stopped: bool) {
    !owned || (c.descriptor == -1 && !stopped) ==> Silent(c)
  }

  /**
   A channel its owner has destroyed is closed and has no callbacks, and neither has a closed
   channel before the loop is quit.
   */
  ghost predicate SilentOk(chans: Chans, owned: set<nat>, stopped: bool) {
    forall p :: p in chans ==> Hushed(chans[p], p in owned, stopped)
  }

  ghost predicate Covered(c: Chan) {
    && (c.read.callback != 0 ==> IN in c.events)
    && (c.write.callback != 0 ==> OUT in c.events)
    && (c.disconnect.callback != 0 ==> RDHUP in c.events)
    && c.events <= {IN, OUT, RDHUP}
  }

  ghost predicate EntryMaskAgrees(e: Entry<Client>, chans: Chans) {
    e.client.Channel? ==> e.client.p in chans && chans[e.client.p].events == e.mask
  }

  /** The masks of an open channel agree and cover its callbacks, as long as epoll granted every change. */
  ghost predicate MasksOk(reg: Registry, chans: Chans, denied: bool) {
    !denied ==>
      && (forall i :: 0 <= i < |reg| ==> EntryMaskAgrees(reg[i], chans))
      && (forall p :: p in chans && chans[p].descriptor >= 0 ==> Covered(chans[p]))
  }

  ghost predicate TimerLinked(e: Entry<Client>, timers: Timers) {
    e.client.Timer? ==>
      && e.client.t in timers && timers[e.client.t].id == e.sd
      && e.id == EntryOf(e.client.t) && e.mask == {IN, ONESHOT}
  }

  /** Timer records and timer entries belong together. */
  ghost predicate TimersOk(reg: Registry, timers: Timers, next: nat) {
    && (forall i :: 0 <= i < |reg| ==> TimerLinked(reg[i], timers))
    && (forall t :: t in timers ==> t < next && Registered(reg, timers[t].id, Timer(t)))
  }

  /** Whether the debt is still to be paid for a position of a channel: 1 or 0. */
  ghost function LiveAt(chans: Chans, p: nat, side: Side, d: Debt): nat {
    if p in chans && chans[p].descriptor >= 0 then Owes(chans[p].At(side), d) else 0
  }

  ghost predicate HandlersAt(log: Trace, live: nat, p: nat, side: Side, d: Debt) {
    Installs(log, p, side, d) + Stales(log, p, side, d) == Destroys(log, p, side, d) + live
  }

  /** Handlers installed, destroyed, still installed and destroyed once too often balance. */
  ghost predicate HandlersOk(log: Trace, chans: Chans) {
    forall p: nat, side: Side, d: Debt :: HandlersAt(log, LiveAt(chans, p, side, d), p, side, d)
  }

  ghost predicate EntryLogAt(log: Trace, inTable: bool, next: nat, id: nat) {
    && (inTable <==> Happened(log, Added(id)) && !Happened(log, Destructed(id)))
    && (Happened(log, KernelRemoved(id)) <==> Happened(log, Destructed(id)))
    && (Happened(log, Destructed(id)) ==> Happened(log, Added(id)))
    && (Happened(log, Added(id)) ==> id < next)
  }

  /** The trace says of every entry whether it is in the table. */
  ghost predicate EntryLogOk(log: Trace, reg: Registry, next: nat) {
    forall id: nat :: EntryLogAt(log, InTable(reg, id), next, id)
  }

  ghost predicate ChanLogAt(log: Trace, owned: bool, stored: bool, frames: nat, next: nat, p: nat) {
    && (owned <==> Happened(log, Opened(p)) && !Happened(log, Released(p)))
    && (stored <==> Happened(log, Opened(p)) && !Happened(log, Freed(p)))
    && (Happened(log, Freed(p)) ==> Happened(log, Released(p)))
    && (Happened(log, Released(p)) ==> Happened(log, Opened(p)))
    && (Happened(log, Opened(p)) ==> p < next)
    && Times(log, Entered(p)) == Times(log, Left(p)) + frames
  }

  /** The trace says of every channel whether it is owned, allocated and being dispatched. */
  ghost predicate ChanLogOk(log: Trace, chans: Chans, owned: set<nat>, frames: multiset<nat>, next: nat) {
    forall p: nat :: ChanLogAt(log, p in owned, p in chans, frames[p], next, p)
  }

  ghost predicate TimerLogAt(log: Trace, stored: bool, pending: bool, next: nat, t: nat) {
    && Times(log, Fired(t)) + One(pending) <= Times(log, Armed(t))
    && (stored ==> !Happened(log, TimerFreed(t)))
    && (stored || Happened(log, TimerFreed(t)) || Times(log, Armed(t)) > 0 ==> t < next)
  }

  ghost predicate Pending(timers: Timers, t: nat) {
    t in timers && timers[t].pending
  }

  /** A timer has fired at most as often as it was armed, once less while it is pending. */
  ghost predicate TimerLogOk(log: Trace, timers: Timers, next: nat) {
    forall t: nat :: TimerLogAt(log, t in timers, Pending(timers, t), next, t)
  }

  ghost function Held(chans: Chans, p: nat): int {
    if p in chans then chans[p].descriptor else -1
  }

  ghost predicate CloseAt(log: Trace, held: int, p: nat) {
    && Detachments(log, p) == One(Happened(log, Opened(p)) && held < 0)
    && (held >= 0 ==> Happened(log, Opened(p)) && held == FdOf(log, p))
    && forall fd: int ::
         Times(log, ChannelClosed(p, fd)) == if fd == FdOf(log, p) then Times(log, Detached(p, true)) else 0
  }

  /**
   io_destroy_callback has run once for every channel that is no longer open, and has closed the
   channel's descriptor, and no other, if it was asked to.
   */
  ghost predicate ClosesOk(log: Trace, chans: Chans) {
    forall p: nat :: CloseAt(log, Held(chans, p), p)
  }

  ghost function Kept(timers: Timers, t: nat): Making {
    if t in timers then Made(timers[t].id, timers[t].data, timers[t].destructor) else Unmade
  }

  ghost predicate Over(m: Making, kept: Making) {
    m.Made? && kept.Unmade?
  }

  /** A timer that was registered and is over has had its destructor called, if it has one. */
  ghost predicate Destructs(log: Trace, m: Making, kept: Making, t: nat) {
    Over(m, kept) && Happened(log, Added(EntryOf(t))) && m.destructor != 0
  }

  ghost predicate EndAt(log: Trace, kept: Making, next: nat, t: nat) {
    var m := MakingOf(log, t);
    && (kept.Made? ==> kept == m)
    && (m.Made? ==> t < next)
    && Times(log, TimerFreed(t)) == One(Over(m, kept))
    && (forall fd: int :: Times(log, TimerClosed(t, fd)) == One(Over(m, kept) && fd == m.fd))
    && forall d: nat :: Times(log, TimerDestroyed(t, d)) == One(Destructs(log, m, kept, t) && d == m.data)
  }

  /**
   The record, the descriptor and the data of a timer that is over have been disposed of once, and
   those of a timer in use have not.
   */
  ghost predicate EndsOk(log: Trace, timers: Timers, next: nat) {
    forall t: nat :: EndAt(log, Kept(timers, t), next, t)
  }

  ghost predicate ArmedIn(kernel: map<int, Interest>, timers: Timers, t: nat) {
    t in timers && timers[t].id in kernel && kernel[timers[t].id].armed
  }

  ghost predicate ShotAt(log: Trace, inTable: bool, stored: bool, armed: bool, queued: nat, t: nat) {
    var made := MakingOf(log, t).Made?;
    && (made && inTable ==> stored)
    && if made && Happened(log, Added(EntryOf(t))) then Times(log, Fired(t)) + queued + One(armed) <= Armings(log, t)
       else Times(log, Fired(t)) == 0 && !armed
  }

  /** Every time epoll was asked to watch for a timer allows one event, delivered or to come, and so one firing. */
  ghost predicate ShotsOk(log: Trace, reg: Registry, kernel: map<int, Interest>, timers: Timers, pools: multiset<nat>) {
    forall t: nat ::
      ShotAt(log, InTable(reg, EntryOf(t)), t in timers, ArmedIn(kernel, timers, t), pools[EntryOf(t)], t)
  }

  /** Only registered entries have events to come. */
  ghost predicate PoolsOk(log: Trace, pools: multiset<nat>) {
    forall id: nat :: pools[id] > 0 ==> Happened(log, Added(id))
  }

  /** The accounts of what is closed, disposed of and fired. */
  ghost predicate LedgerOk(log: Trace, reg: Registry, kernel: map<int, Interest>, chans: Chans, timers: Timers,
                           pools: multiset<nat>, next: nat) {
    && ClosesOk(log, chans)
    && EndsOk(log, timers, next)
    && ShotsOk(log, reg, kernel, timers, pools)
    && PoolsOk(log, pools)
  }

  /** The table has a slot to spare, unless it is empty. */
  ghost predicate RoomOk(reg: Registry, count: nat) {
    |reg| < count || reg == []
  }

  /** The part of the invariant that also holds in the middle of loop_quit. */
  ghost predicate Core(w: World) {
    && TableOk(w.reg, w.next)
    && MirrorOk(w.reg, w.kernel, w.epollOpen)
    && LinksOk(w.reg, w.chans, w.owned)
    && RefsOk(w.chans, w.owned, w.frames, w.next)
    && SilentOk(w.chans, w.owned, w.terminate)
    && (w.terminate <==> Happened(w.log, Stopped))
    && MasksOk(w.reg, w.chans, AnyDenied(w.log))
    && TimersOk(w.reg, w.timers, w.next)
    && HandlersOk(w.log, w.chans)
    && EntryLogOk(w.log, w.reg, w.next)
    && ChanLogOk(w.log, w.chans, w.owned, w.frames, w.next)
    && TimerLogOk(w.log, w.timers, w.next)
    && LedgerOk(w.log, w.reg, w.kernel, w.chans, w.timers, w.pools, w.next)
    && RoomOk(w.reg, w.count)
    && Lawful(w.log)
  }

  /** After a quit epoll is closed. */
  ghost predicate Inv(w: World) {
    Core(w) && (w.terminate ==> !w.epollOpen)
  }
}

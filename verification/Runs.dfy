/** Every run of every program keeps the invariant and never touches freed memory. */
module Runs {
  import opened Events
  import opened LoopTable
  import opened World
  import opened Lifecycle
  import opened Invariant
  import opened Steps
  import opened Frames
  import opened Pools
  import opened StepsTable
  import opened StepsChannel
  import opened StepsRetire
  import opened StepsAdd
  import opened StepsLedger

  /**
   Why a run may stop in this state: never over freed memory, over the table only with a shift that
   does not move every slot, over an event only if the destructor of its entry has run, and over an
   event pool only if more descriptors are armed than it has places.
   */
  ghost predicate Justified(why: Why, at: World) {
    match why
    case UseAfterFree => false
    case CorruptTable => at.gap != 1
    case StaleEvent(id) => at.pools[id] > 0 && Happened(at.log, Destructed(id))
    case PoolOverrun(room) => room < ArmedCount(at.reg, at.kernel)
    case _ => true
  }

  /**
   A piece of a run that starts in w ends in a right state with the same dispatches in progress and
   these events left to process, or stops in a right state for a reason that is allowed there.
   */
  ghost predicate Keeps(w: World, r: Out<World>, pools: multiset<nat>) {
    match r
    case Done(v) => Inv(v) && v.gap == w.gap && v.frames == w.frames && v.pools == pools
    case Halt(why, at) => Inv(at) && at.gap == w.gap && Justified(why, at)
  }

  function Ended(r: Out<Result>): Out<World> {
    match r case Done(res) => Done(res.w) case Halt(why, at) => Halt(why, at)
  }

  lemma MutedIs(w: World, p: nat)
    requires Inv(w) && p in w.chans
    ensures var v := MuteAll(w, p);
            && Inv(v) && v.gap == w.gap && v.frames == w.frames && v.pools == w.pools && v.owned == w.owned
            && v.reg == w.reg
            && v.chans.Keys == w.chans.Keys && v.chans[p].descriptor == w.chans[p].descriptor
            && v.chans[p].read.callback == 0 && v.chans[p].write.callback == 0 && v.chans[p].disconnect.callback == 0
  {
    hide Inv;
    MuteKeeps(w, p, Read);
    MuteKeeps(Mute(w, p, Read), p, Write);
    MuteKeeps(Mute(Mute(w, p, Read), p, Write), p, Disconnect);
  }

  lemma IoDestroyKeeps(w: World, p: nat)
    requires Inv(w) && p in w.owned && p in w.chans
    ensures Keeps(w, IoDestroy(w, p), w.pools)
  {
    hide Inv, LoopRemove, MuteAll, Release, OthersStay;
    MutedIs(w, p);
    var w1 := MuteAll(w, p);
    if w1.chans[p].descriptor >= 0 { HolderIs(w1, w1.chans[p].descriptor, p); }
    LoopRemoveKeeps(w1, w1.chans[p].descriptor);
    var r := LoopRemove(w1, w1.chans[p].descriptor);
    if r.Done? {
      ReleaseKeeps(r.value, p);
      ReleaseFrame(r.value, p);
    }
  }

  lemma {:induction false} DisarmIs(kernel: map<int, Interest>, b: Batch)
    ensures var k := Disarm(kernel, b);
            && k.Keys == kernel.Keys
            && (forall fd :: fd in k ==> k[fd].id == kernel[fd].id && k[fd].mask == kernel[fd].mask)
            && forall fd :: fd in k ==> ONESHOT in kernel[fd].mask || k[fd].armed == kernel[fd].armed
    decreases b
  {
    if b.Ready? {
      if b.fd in kernel && ONESHOT in kernel[b.fd].mask {
        DisarmIs(kernel[b.fd := kernel[b.fd].(armed := false)], b.more);
      } else {
        DisarmIs(kernel, b.more);
      }
    }
  }

  /** A named descriptor is delivered once, and had to be armed. */
  lemma {:induction false} NamedOnce(kernel: map<int, Interest>, b: Batch, fd: int, id: nat)
    requires Deliverable(kernel, b)
    requires forall g :: g in kernel && kernel[g].id == id ==> g == fd
    ensures BatchIds(b)[id] <= One(Names(b, fd))
    ensures Names(b, fd) ==> fd in kernel && kernel[fd].armed
    decreases b
  {
    if b.Ready? { NamedOnce(kernel, b.more, fd, id); }
  }

  lemma {:induction false} PooledIsNamed(kernel: map<int, Interest>, b: Batch, id: nat) returns (fd: int)
    requires Deliverable(kernel, b) && BatchIds(b)[id] > 0
    ensures fd in kernel && kernel[fd].id == id
    decreases b
  {
    if b.id == id { fd := b.fd; } else { fd := PooledIsNamed(kernel, b.more, id); }
  }

  lemma {:induction false} DisarmedAt(kernel: map<int, Interest>, b: Batch, fd: int)
    requires fd in kernel
    ensures fd in Disarm(kernel, b)
    ensures Disarm(kernel, b)[fd].armed == (kernel[fd].armed && !(Names(b, fd) && ONESHOT in kernel[fd].mask))
    decreases b
  {
    if b.Ready? {
      if b.fd in kernel && ONESHOT in kernel[b.fd].mask {
        DisarmedAt(kernel[b.fd := kernel[b.fd].(armed := false)], b.more, fd);
      } else {
        DisarmedAt(kernel, b.more, fd);
      }
    }
  }

  lemma KernelEntry(reg: Registry, kernel: map<int, Interest>, epollOpen: bool, next: nat, fd: int)
    requires TableOk(reg, next) && MirrorOk(reg, kernel, epollOpen) && fd in kernel
    ensures kernel[fd].id < next && InTable(reg, kernel[fd].id)
    ensures forall g :: g in kernel && kernel[g].id == kernel[fd].id ==> g == fd
  {
    var k := Find(reg, fd);
    FindIs(reg, next, k);
    forall g | g in kernel && kernel[g].id == kernel[fd].id ensures g == fd {
      FindIs(reg, next, Find(reg, g));
    }
  }

  lemma TimerInterest(reg: Registry, kernel: map<int, Interest>, epollOpen: bool, timers: Timers, next: nat, t: nat)
    requires TableOk(reg, next) && MirrorOk(reg, kernel, epollOpen) && TimersOk(reg, timers, next) && t in timers
    ensures var fd := timers[t].id; fd in kernel && kernel[fd].id == EntryOf(t) && ONESHOT in kernel[fd].mask
  {
    var k := Find(reg, timers[t].id);
    assert Registered(reg, timers[t].id, Timer(t)) && TimerLinked(reg[k], timers);
  }

  /** A delivered event of a timer takes the place of its armed flag. */
  lemma TimerDelivered(reg: Registry, kernel: map<int, Interest>, epollOpen: bool, timers: Timers, next: nat,
                       b: Batch, t: nat)
    requires TableOk(reg, next) && MirrorOk(reg, kernel, epollOpen) && TimersOk(reg, timers, next)
    requires Deliverable(kernel, b) && t in timers
    ensures BatchIds(b)[EntryOf(t)] + One(ArmedIn(Disarm(kernel, b), timers, t)) <= One(ArmedIn(kernel, timers, t))
  {
    var fd := timers[t].id;
    TimerInterest(reg, kernel, epollOpen, timers, next, t);
    KernelEntry(reg, kernel, epollOpen, next, fd);
    hide TableOk, MirrorOk, TimersOk, Disarm, Deliverable, BatchIds;
    NamedOnce(kernel, b, fd, EntryOf(t));
    DisarmedAt(kernel, b, fd);
  }

  lemma LedgerAfterBatch(log: Trace, reg: Registry, kernel: map<int, Interest>, epollOpen: bool, chans: Chans,
                         timers: Timers, pools: multiset<nat>, next: nat, b: Batch)
    requires TableOk(reg, next) && MirrorOk(reg, kernel, epollOpen) && TimersOk(reg, timers, next)
    requires LedgerOk(log, reg, kernel, chans, timers, pools, next) && Deliverable(kernel, b)
             && EntryLogOk(log, reg, next)
    ensures LedgerOk(log, reg, Disarm(kernel, b), chans, timers, pools + BatchIds(b), next)
  {
    hide TableOk, MirrorOk, TimersOk, LedgerOk, Disarm, Deliverable, BatchIds, InTable;
    var kernel', ids := Disarm(kernel, b), BatchIds(b);
    forall id: nat | ids[id] > 0 ensures Happened(log, Added(id)) && InTable(reg, id) {
      var fd := PooledIsNamed(kernel, b, id);
      KernelEntry(reg, kernel, epollOpen, next, fd);
      EntryHere(log, reg, next, id);
    }
    forall t: nat | t in timers
      ensures ids[EntryOf(t)] + One(ArmedIn(kernel', timers, t)) <= One(ArmedIn(kernel, timers, t))
    {
      TimerDelivered(reg, kernel, epollOpen, timers, next, b, t);
    }
    LedgerAfterFetch(log, reg, kernel, chans, timers, pools, next, kernel', ids);
  }

  lemma FetchKeeps(w: World, b: Batch)
    requires Inv(w) && Deliverable(w.kernel, b)
    ensures Inv(Fetch(w, b))
  {
    hide TableOk, MirrorOk, LinksOk, RefsOk, SilentOk, MasksOk, TimersOk, HandlersOk, EntryLogOk, ChanLogOk, TimerLogOk,
         LedgerOk, Lawful, Disarm, Deliverable, BatchIds;
    DisarmIs(w.kernel, b);
    MirrorDisarmed(w.reg, w.kernel, w.epollOpen, Disarm(w.kernel, b));
    LedgerAfterBatch(w.log, w.reg, w.kernel, w.epollOpen, w.chans, w.timers, w.pools, w.next, b);
  }

  lemma FrameIsAllocated(w: World, p: nat)
    requires Inv(w) && (w.frames[p] > 0 || p in w.owned)
    ensures p in w.chans
  {
    hide TableOk, MirrorOk, LinksOk, RefsOk, SilentOk, MasksOk, TimersOk, HandlersOk, EntryLogOk, ChanLogOk,
         TimerLogOk, LedgerOk, Lawful;
    RefsHere(w.chans, w.owned, w.frames, w.next, p);
  }

  lemma ClientIsAllocated(w: World, k: nat)
    requires Inv(w) && k < |w.reg|
    ensures match w.reg[k].client case Channel(p) => p in w.chans case Timer(t) => t in w.timers
  {
    hide TableOk, MirrorOk, RefsOk, SilentOk, MasksOk, HandlersOk, EntryLogOk, ChanLogOk, TimerLogOk, LedgerOk, Lawful;
    assert EntryLinked(w.reg[k], w.chans, w.owned);
    assert TimerLinked(w.reg[k], w.timers);
  }

  lemma {:induction false} ScriptKeeps(w: World, s: Script)
    requires Inv(w)
    ensures Keeps(w, Ended(RunScript(w, s)), w.pools)
    decreases s, 0
  {
    hide Inv;
    match s
    case Return(_, _) =>
    case Do(call, next) =>
      CallKeeps(w, call);
      var r := RunCall(w, call);
      if r.Done? { ScriptKeeps(r.value, next); }
  }

  lemma CloseOnDestroyKeeps(w: World, p: nat, on: bool)
    requires Inv(w) && p in w.chans
    ensures Inv(w.(chans := w.chans[p := w.chans[p].(closeOnDestroy := on)]))
  {
    hide TableOk, MirrorOk, LinksOk, RefsOk, SilentOk, MasksOk, TimersOk, HandlersOk, EntryLogOk, ChanLogOk,
         TimerLogOk, LedgerOk, Lawful;
    var c := w.chans[p].(closeOnDestroy := on);
    SilentHere(w.chans, w.owned, w.terminate, p);
    CoveredHere(w.reg, w.chans, AnyDenied(w.log), p);
    LedgerAfterUpdate(w.log, w.reg, w.kernel, w.chans, w.timers, w.pools, w.next, p, c);
    LinksAfterUpdate(w.reg, w.chans, w.owned, p, c);
    RefsAfterUpdate(w.chans, w.owned, w.frames, w.next, p, c);
    SilentAfterUpdate(w.chans, w.owned, w.terminate, p, c);
    MasksAfterUpdate(w.reg, w.chans, AnyDenied(w.log), p, c);
    HandlersAfterUpdate(w.log, w.chans, p, c);
    ChanLogAfterUpdate(w.log, w.chans, w.owned, w.frames, w.next, p, c);
  }

  lemma {:induction false} CallKeeps(w: World, c: Call)
    requires Inv(w)
    ensures Keeps(w, RunCall(w, c), w.pools)
    decreases c
  {
    hide Inv, IoNew, SetHandler, IoDestroy, CreateTimer, ModifyTimer, LoopRemove, LoopQuit, RunTurns, OthersStay;
    match c
    case NewChannelOn(fd, answer) => IoNewKeeps(w, fd, answer);
    case CloseOnDestroy(p, on) =>
      if Holds(w, p) { FrameIsAllocated(w, p); CloseOnDestroyKeeps(w, p, on); }
    case SetHandlerOf(p, side, h, granted) =>
      if Holds(w, p) {
        FrameIsAllocated(w, p);
        SetHandlerKeeps(w, p, side, h, granted);
        SetHandlerFrame(w, p, side, h, granted);
      }
    case Destroy(p) =>
      if p in w.owned { FrameIsAllocated(w, p); IoDestroyKeeps(w, p); }
    case NewTimerOn(fd, data, destructor, answer) =>
      CreateTimerKeeps(w, fd, data, destructor, answer);
    case SetTimer(fd, timeout, granted) =>
      var k := Find(w.reg, fd);
      if k < |w.reg| && w.reg[k].client.Timer? {
        ClientIsAllocated(w, k);
        ModifyTimerKeeps(w, w.reg[k].client.t, timeout, granted);
      }
    case DropTimer(fd) =>
      var k := Find(w.reg, fd);
      if k == |w.reg| || w.reg[k].client.Timer? { LoopRemoveKeeps(w, fd); }
    case Quit => LoopQuitKeeps(w);
    case RunLoop(turns) => TurnsKeep(w, turns, w.count);
  }

  lemma {:induction false} TurnsKeep(w: World, turns: Turns, pool: nat)
    requires Inv(w)
    ensures Keeps(w, RunTurns(w, turns, pool), w.pools)
    decreases turns
  {
    hide Inv, RunBatch, Disarm, Deliverable, BatchIds;
    match turns
    case Pause =>
    case Wait(batch, rest) =>
      if Deliverable(w.kernel, batch) {
        OverrunIsJustified(w, batch, pool);
        FetchKeeps(w, batch);
        var w1 := Fetch(w, batch);
        FetchPooled(w, batch);
        BatchKeeps(w1, batch);
        var r := RunBatch(w1, batch);
        if r.Done? { TurnsKeep(r.value, rest, pool); }
      }
  }

  lemma OverrunIsJustified(w: World, b: Batch, room: nat)
    requires Inv(w) && Deliverable(w.kernel, b)
    ensures BatchSize(b) > room ==> room < ArmedCount(w.reg, w.kernel)
  {
    PoolSufficesIff(w, room);
    hide Inv, Deliverable, BatchSize;
  }

  lemma StaleIsJustified(w: World, id: nat)
    requires Inv(w) && w.pools[id] > 0
    ensures FindId(w.reg, id) == |w.reg| ==> Happened(w.log, Destructed(id))
  {
    hide TableOk, MirrorOk, LinksOk, RefsOk, SilentOk, MasksOk, TimersOk, HandlersOk, EntryLogOk, ChanLogOk,
         TimerLogOk, ClosesOk, EndsOk, ShotsOk, Lawful;
    EntryHere(w.log, w.reg, w.next, id);
  }

  /** The events of the batch are in the pools. */
  ghost predicate Pooled(b: Batch, pools: multiset<nat>) {
    BatchIds(b) <= pools
  }

  /** What else is in the pools. */
  function Remaining(b: Batch, pools: multiset<nat>): multiset<nat> {
    pools - BatchIds(b)
  }

  /** The first event of a batch that is in the pools is drawn. */
  lemma DrawnFrom(b: Batch, pools: multiset<nat>)
    requires b.Ready? && Pooled(b, pools)
    ensures pools[b.id] > 0 && Pooled(b.more, pools - multiset{b.id})
    ensures Remaining(b.more, pools - multiset{b.id}) == Remaining(b, pools)
  {
    assert multiset{b.id} <= pools;
  }

  /** A batch that is being processed: its events are in the pools. */
  lemma {:induction false} BatchKeeps(w: World, b: Batch)
    requires Inv(w) && Pooled(b, w.pools)
    ensures Keeps(w, RunBatch(w, b), Remaining(b, w.pools))
    decreases b
  {
    hide Inv, RunEvent, Pooled, Remaining;
    if b.Ready? { DrawnFrom(b, w.pools); } else { NoneDrawn(w.pools); }
    match b
    case NoMore =>
    case Ready(_, id, flags, reaction, more) =>
      var k := FindId(w.reg, id);
      StaleIsJustified(w, id);
      if k < |w.reg| {
        ClientIsAllocated(w, k);
        EventKeeps(w, k, flags, reaction);
        var r := RunEvent(w, id, w.reg[k].client, flags, reaction);
        if r.Done? { BatchKeeps(r.value, more); }
      }
  }

  lemma NoneDrawn(pools: multiset<nat>)
    ensures Remaining(NoMore, pools) == pools
  {
  }

  /** Fetched events are in the pools, on top of what was there. */
  lemma FetchPooled(w: World, b: Batch)
    ensures Pooled(b, Fetch(w, b).pools) && Remaining(b, Fetch(w, b).pools) == w.pools
  {
  }

  /** An event of the entry in slot k that is in the pools. */
  lemma {:induction false} EventKeeps(w: World, k: nat, flags: Mask, r: Reaction)
    requires Inv(w) && k < |w.reg| && w.pools[w.reg[k].id] > 0
    ensures Keeps(w, RunEvent(w, w.reg[k].id, w.reg[k].client, flags, r), w.pools - multiset{w.reg[k].id})
    decreases r
  {
    hide Inv, Dispatch, RunScript, Leave, Enter;
    var id := w.reg[k].id;
    ClientIsAllocated(w, k);
    assert InTable(w.reg, id);
    DrawKeeps(w, id);
    match w.reg[k].client
    case Channel(p) => if r.OnChannel? { EntryKeeps(Drawn(w, id), p, flags, r); }
    case Timer(t) =>
      TimerEntryHere(w, k, t);
      if r.OnTimer? && r.expired && w.timers[t].pending {
        FireKeeps(w, t);
        ScriptKeeps(Firing(w, t), r.callback);
      }
  }

  /** A dispatch with its reference. */
  lemma {:induction false} EntryKeeps(w: World, p: nat, flags: Mask, r: Reaction)
    requires Inv(w) && p in w.chans && r.OnChannel?
    ensures p in Enter(w, p).chans
    ensures var d := Dispatch(Enter(w, p), p, flags, r);
            if d.Done? then p in d.value.chans && Keeps(w, Done(Leave(d.value, p)), w.pools)
            else Keeps(w, d, w.pools)
    decreases r, 2
  {
    hide Inv, Dispatch, Leave, Enter, OthersStay;
    EnterKeeps(w, p);
    EnterFrame(w, p);
    DispatchKeeps(Enter(w, p), p, flags, r);
    var d := Dispatch(Enter(w, p), p, flags, r);
    if d.Done? {
      LeaveKeeps(d.value, p);
      LeaveFrame(d.value, p);
      assert w.frames + multiset{p} - multiset{p} == w.frames;
    }
  }

  lemma TimerEntryHere(w: World, k: nat, t: nat)
    requires Inv(w) && k < |w.reg| && w.reg[k].client == Timer(t)
    ensures w.reg[k].id == EntryOf(t) && t in w.timers
  {
    hide TableOk, MirrorOk, LinksOk, RefsOk, SilentOk, MasksOk, HandlersOk, EntryLogOk, ChanLogOk, TimerLogOk,
         LedgerOk, Lawful;
    assert TimerLinked(w.reg[k], w.timers);
  }

  lemma {:induction false} DispatchKeeps(w: World, p: nat, flags: Mask, r: Reaction)
    requires Inv(w) && w.frames[p] > 0 && p in w.chans && r.OnChannel?
    ensures Keeps(w, Dispatch(w, p, flags, r), w.pools)
    decreases r, 1
  {
    hide Inv, Transfer, Serve, LoopRemove;
    if flags * {RDHUP, HUP, ERR} != {} {
      MuteKeeps(w, p, Read);
      MuteKeeps(Mute(w, p, Read), p, Write);
      var w1 := Mute(Mute(w, p, Read), p, Write);
      if w1.chans[p].disconnect.callback == 0 {
        HolderIs(w1, w1.chans[p].descriptor, p);
        LoopRemoveKeeps(w1, w1.chans[p].descriptor);
      } else {
        ServeKeeps(w1, p, Disconnect, r.disconnect);
        var s := Serve(w1, p, Disconnect, r.disconnect);
        if s.Done? { TransferKeeps(s.value, p, flags, r); }
      }
    } else {
      TransferKeeps(w, p, flags, r);
    }
  }

  lemma {:induction false} TransferKeeps(w: World, p: nat, flags: Mask, r: Reaction)
    requires Inv(w) && w.frames[p] > 0 && r.OnChannel?
    ensures Keeps(w, Transfer(w, p, flags, r), w.pools)
    decreases r, 0
  {
    hide Inv, Serve;
    ServeKeeps(w, p, Read, r.read);
    var s := if IN in flags then Serve(w, p, Read, r.read) else Done(w);
    if s.Done? { ServeKeeps(s.value, p, Write, r.write); }
  }

  lemma {:induction false} ServeKeeps(w: World, p: nat, side: Side, s: Script)
    requires Inv(w) && w.frames[p] > 0
    ensures Keeps(w, Serve(w, p, side, s), w.pools)
    decreases s, 1
  {
    hide Inv, RunScript, Finish, OthersStay;
    FrameIsAllocated(w, p);
    if w.chans[p].At(side).callback != 0 {
      CalledKeeps(w, p, side);
      var w1 := Note(w, Called(p, side, w.chans[p].At(side), w.chans[p].descriptor >= 0));
      ScriptKeeps(w1, s);
      var res := RunScript(w1, s);
      if res.Done? {
        FrameIsAllocated(res.value.w, p);
        FinishKeeps(res.value.w, p, side, res.value.value, res.value.granted);
        FinishFrame(res.value.w, p, side, res.value.value, res.value.granted);
      }
    }
  }
}

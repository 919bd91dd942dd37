/** What each library call does to the state of a running program, and when it can be made. */
module Calls {
  import opened Events
  import opened LoopTable
  import opened World
  import opened Lifecycle
  import opened Frames
  import opened Invariant
  import opened StepsLedger
  import opened StepsRetire
  import opened StepsAdd
  import opened Runs
  import opened TimerTheorems
  import opened Dispatches
  import opened Witnesses
  import opened ProcessSteps

  // ------------------------------------------------------------ destroying a timer

  /**
   Exactly the timer's entry has left table and kernel, its descriptor has been closed, its destructor
   called on its data if it has one, and its record freed, each once and in this order; no channel and no
   other timer has changed.
   */
  ghost predicate HasEnded(w: World, t: nat, v: World)
    requires t in w.timers
  {
    var r, k := w.timers[t], Find(w.reg, w.timers[t].id);
    && k < |w.reg| && w.reg[k].client == Timer(t)
    && v == w.(reg := Without(w.reg, k), kernel := w.kernel - {r.id}, timers := w.timers - {t}, log := v.log)
    && v.log == Along(w.log, [KernelRemoved(EntryOf(t)), Destructed(EntryOf(t))] + Disposing(t, r))
    && Times(v.log, TimerFreed(t)) == Times(w.log, TimerFreed(t)) + 1
    && (forall fd: int :: Times(v.log, TimerClosed(t, fd)) == Times(w.log, TimerClosed(t, fd)) + One(fd == r.id))
    && forall d: nat ::
         Times(v.log, TimerDestroyed(t, d))
         == Times(w.log, TimerDestroyed(t, d)) + One(r.destructor != 0 && d == r.data)
  }

  /** Whether the shift leaves the table right when that descriptor is removed. */
  predicate Removable(w: World, sd: int) {
    w.gap == 1 || Find(w.reg, sd) + 1 == |w.reg|
  }

  /**
   destroy_timer on the descriptor of a timer in use ends exactly that timer; it completes unless the shift
   spoils the table.
   */
  lemma DropTimerEnds(w: World, t: nat)
    requires Inv(w) && t in w.timers && w.gap in {1, 2}
    ensures var o := RunCall(w, DropTimer(w.timers[t].id));
            && (o.Done? <==> Removable(w, w.timers[t].id))
            && (o.Halt? ==> o == Halt(CorruptTable, w))
            && (o.Done? ==> HasEnded(w, t, o.value))
  {
    hide Inv, HasEnded, LoopRemove, Find;
    TimerLinkHere(w, t);
    DropIs(w, t);
    var fd := w.timers[t].id;
    RemovalSpoilsTableIff(w, fd);
    LoopRemoveKeeps(w, fd);
    if LoopRemove(w, fd).Done? { TimerRemoved(w, t); }
  }

  lemma DropIs(w: World, t: nat)
    requires t in w.timers
    requires var k := Find(w.reg, w.timers[t].id); k < |w.reg| && w.reg[k].client == Timer(t)
    ensures RunCall(w, DropTimer(w.timers[t].id)) == LoopRemove(w, w.timers[t].id)
  {
    hide LoopRemove;
  }

  lemma TimerRemoved(w: World, t: nat)
    requires Inv(w) && t in w.timers && LoopRemove(w, w.timers[t].id).Done?
    ensures HasEnded(w, t, LoopRemove(w, w.timers[t].id).value)
  {
    hide Inv, Core, LoopRemove, Along, Disposing, Times, TimerFreedLog, RetiredLog;
    var r, id := w.timers[t], EntryOf(t);
    TimerRemovedIs(w, t);
    AlongTwice(w.log, [KernelRemoved(id), Destructed(id)], Disposing(t, r));
    RetiredIs(w.log, id);
    DisposingIs(RetiredLog(w.log, id), t, r);
    TimerFreedHere(RetiredLog(w.log, id), t, r);
    RetiredQuietly(w.log, id, t);
  }

  lemma TimerRemovedIs(w: World, t: nat)
    requires Inv(w) && t in w.timers && LoopRemove(w, w.timers[t].id).Done?
    ensures var k := Find(w.reg, w.timers[t].id);
            && k < |w.reg| && w.reg[k].client == Timer(t) && w.reg[k].id == EntryOf(t) && w.reg[k].sd == w.timers[t].id
            && LoopRemove(w, w.timers[t].id).value == RetiredTimer(w, k, t)
  {
    hide Inv, Core, Retire, Shift, Without, TimerFreedLog, RetiredLog;
    TimerLinkHere(w, t);
    var k := Find(w.reg, w.timers[t].id);
    TimerEntryHere(w, k, t);
    CoreOf(w);
    RetireTimerKeeps(w, k);
  }

  lemma CoreOf(w: World)
    requires Inv(w)
    ensures Core(w)
  {
  }

  lemma RetiredQuietly(log: Trace, id: nat, t: nat)
    ensures var log' := RetiredLog(log, id);
            && Times(log', TimerFreed(t)) == Times(log, TimerFreed(t))
            && (forall fd: int :: Times(log', TimerClosed(t, fd)) == Times(log, TimerClosed(t, fd)))
            && forall d: nat :: Times(log', TimerDestroyed(t, d)) == Times(log, TimerDestroyed(t, d))
  {
    var log1 := Then(log, KernelRemoved(id));
    assert Times(log1, TimerFreed(t)) == Times(log, TimerFreed(t));
    forall fd: int ensures Times(RetiredLog(log, id), TimerClosed(t, fd)) == Times(log, TimerClosed(t, fd)) {
      assert Times(log1, TimerClosed(t, fd)) == Times(log, TimerClosed(t, fd));
    }
    forall d: nat ensures Times(RetiredLog(log, id), TimerDestroyed(t, d)) == Times(log, TimerDestroyed(t, d)) {
      assert Times(log1, TimerDestroyed(t, d)) == Times(log, TimerDestroyed(t, d));
    }
  }

  /** The same when a timer's own callback destroys it. */
  lemma TimerDropsItself(w: World, t: nat)
    requires Inv(w) && Pending(w.timers, t) && w.pools[EntryOf(t)] > 0 && InTable(w.reg, EntryOf(t)) && w.gap in {1, 2}
    ensures var u := Firing(w, t);
            && t in u.timers
            && var o := RunCall(u, DropTimer(w.timers[t].id));
               (o.Done? <==> Removable(w, w.timers[t].id)) && (o.Done? ==> HasEnded(u, t, o.value))
  {
    hide Inv, RunCall, HasEnded;
    FireKeeps(w, t);
    DropTimerEnds(Firing(w, t), t);
  }

  /** A descriptor that is not registered is nobody's timer, and nothing happens. */
  lemma DropUnknown(w: World, fd: int)
    requires Find(w.reg, fd) == |w.reg|
    ensures RunCall(w, DropTimer(fd)) == Done(w)
  {
  }

  // ------------------------------------------------------------ what follows a callback

  /**
   A callback is called on the state with the call in its trace; what it answers decides what follows, on
   the state its own calls have left.
   */
  lemma CallbackIsFollowedUp(w: World, p: nat, side: Side, s: Script)
    requires Inv(w) && w.frames[p] > 0 && p in w.chans && w.chans[p].At(side).callback != 0
    requires Serve(w, p, side, s).Done?
    ensures var o := RunScript(Calling(w, p, side), s);
            && o.Done? && p in o.value.w.chans
            && HasFinished(o.value.w, p, side, o.value.value, o.value.granted, Serve(w, p, side, s).value)
  {
    hide Inv, RunScript, Finish, HasFinished;
    var o := RunScript(Calling(w, p, side), s);
    ServesBy(w, p, side, s);
    ScriptKeeps(Calling(w, p, side), s);
    FrameIsAllocated(o.value.w, p);
    FinishEffect(o.value.w, p, side, o.value.value, o.value.granted);
  }

  // ------------------------------------------------------------ every call

  /** What a call that completes has done, other than running the loop. */
  ghost predicate HasCalled(w: World, c: Call, v: World) {
    match c
    case NewChannelOn(fd, answer) =>
      HasOpened(w, fd, answer, v, fd >= 0 && !answer.NoTable? && !answer.NoEntry?, w.next)
    case CloseOnDestroy(p, on) =>
      p in w.chans && v == w.(chans := w.chans[p := w.chans[p].(closeOnDestroy := on)])
    case SetHandlerOf(p, side, h, granted) =>
      p in w.chans && (HasSet(w, p, side, h, granted, v, 0) || HasSet(w, p, side, h, granted, v, 1))
    case Destroy(p) => p in w.chans && HasDestroyed(w, p, v)
    case NewTimerOn(fd, data, destructor, answer) =>
      exists code: int :: HasMade(w, fd, data, destructor, answer, v, code)
    case SetTimer(fd, timeout, granted) =>
      var k := Find(w.reg, fd);
      if k == |w.reg| then v == w
      else
        && w.reg[k].client.Timer? && w.reg[k].client.t in w.timers && w.timers[w.reg[k].client.t].id == fd
        && HasChanged(w, w.reg[k].client.t, timeout, granted, v, if granted then 0 else -EIO)
    case DropTimer(fd) =>
      var k := Find(w.reg, fd);
      if k == |w.reg| then v == w
      else
        && w.reg[k].client.Timer? && w.reg[k].client.t in w.timers && w.timers[w.reg[k].client.t].id == fd
        && HasEnded(w, w.reg[k].client.t, v)
    case Quit => HasQuit(w, v)
    case RunLoop(_) => true
  }

  /** Every library call that completes has its effect. */
  lemma CallDoes(w: World, c: Call)
    requires Inv(w) && RunCall(w, c).Done?
    ensures HasCalled(w, c, RunCall(w, c).value)
  {
    hide Inv, IoNew, SetHandler, IoDestroy, CreateTimer, ModifyTimer, LoopRemove, LoopQuit, RunTurns,
         HasOpened, HasSet, HasDestroyed, HasMade, HasChanged, HasEnded, HasQuit, Find;
    match c
    case NewChannelOn(fd, answer) => OpensAs(w, fd, answer);
    case CloseOnDestroy(_, _) =>
    case SetHandlerOf(p, side, h, granted) =>
      SetHandlerEffect(w, p, side, h, granted);
      CodeOf(w, p, side, h, granted);
    case Destroy(p) => DestroyEffect(w, p);
    case NewTimerOn(fd, data, destructor, answer) => NewTimerEffect(w, fd, data, destructor, answer);
    case SetTimer(fd, timeout, granted) =>
      var k := Find(w.reg, fd);
      if k < |w.reg| {
        TimerOf(w, k);
        ModifyTimerEffect(w, w.reg[k].client.t, timeout, granted);
        ModifyTimerMeaning(w, w.reg[k].client.t, timeout, granted);
      }
    case DropTimer(fd) =>
      var k := Find(w.reg, fd);
      if k < |w.reg| {
        TimerOf(w, k);
        TimerRemoved(w, w.reg[k].client.t);
      } else {
        DropUnknown(w, fd);
      }
    case Quit => QuitEffect(w);
    case RunLoop(_) =>
  }

  lemma OpensAs(w: World, fd: int, answer: Answer)
    requires Inv(w)
    ensures HasOpened(w, fd, answer, IoNew(w, fd, answer).w, fd >= 0 && !answer.NoTable? && !answer.NoEntry?, w.next)
  {
    hide Inv, IoNew, TableGains, EpollTakes, Registered;
    NewIoEffect(w, fd, answer);
    FreshAddress(w, w.next);
    NewIoIs(w, fd, answer);
  }

  lemma CodeOf(w: World, p: nat, side: Side, h: Handler, granted: bool)
    requires p in w.chans
    ensures SetHandler(w, p, side, h, granted).1 in {0, 1}
  {
    hide LoopModify;
  }

  lemma TimerOf(w: World, k: nat)
    requires Inv(w) && k < |w.reg|
    ensures match w.reg[k].client
            case Timer(t) => t in w.timers && w.timers[t].id == w.reg[k].sd
            case Channel(p) => p in w.chans && w.chans[p].descriptor == w.reg[k].sd
  {
    hide TableOk, MirrorOk, RefsOk, SilentOk, MasksOk, HandlersOk, EntryLogOk, ChanLogOk, TimerLogOk, LedgerOk, Lawful;
    assert EntryLinked(w.reg[k], w.chans, w.owned);
    assert TimerLinked(w.reg[k], w.timers);
  }

  /**
   When a call other than running the loop completes: the program holds what it uses, epoll takes what it
   is given, and the shift does not spoil the table.
   */
  predicate MayCall(w: World, c: Call) {
    match c
    case NewChannelOn(fd, answer) => fd < 0 || answer.NoTable? || answer.NoEntry? || EpollTakes(w, fd, answer)
    case CloseOnDestroy(p, _) => Holds(w, p)
    case SetHandlerOf(p, _, _, _) => Holds(w, p)
    case Destroy(p) =>
      p in w.owned && p in w.chans && (w.chans[p].descriptor < 0 || Removable(w, w.chans[p].descriptor))
    case NewTimerOn(fd, _, _, answer) => fd < 0 || answer.NoTable? || answer.NoEntry? || EpollTakes(w, fd, answer)
    case SetTimer(fd, _, _) => Find(w.reg, fd) < |w.reg| ==> w.reg[Find(w.reg, fd)].client.Timer?
    case DropTimer(fd) =>
      Find(w.reg, fd) < |w.reg| ==> w.reg[Find(w.reg, fd)].client.Timer? && Removable(w, fd)
    case Quit => true
    case RunLoop(_) => false
  }

  lemma CallCompletesIff(w: World, c: Call)
    requires Inv(w) && w.gap in {1, 2} && !c.RunLoop?
    ensures RunCall(w, c).Done? <==> MayCall(w, c)
  {
    hide Inv, IoNew, SetHandler, IoDestroy, CreateTimer, ModifyTimer, LoopRemove, LoopQuit, Find, EpollTakes;
    match c
    case NewChannelOn(fd, answer) => OpensIff(w, fd, answer);
    case CloseOnDestroy(p, _) => if Holds(w, p) { FrameIsAllocated(w, p); }
    case SetHandlerOf(p, _, _, _) => if Holds(w, p) { FrameIsAllocated(w, p); }
    case Destroy(p) =>
      if p in w.owned {
        FrameIsAllocated(w, p);
        DestroysIff(w, p);
      }
    case NewTimerOn(fd, data, destructor, answer) => StartsIff(w, fd, data, destructor, answer);
    case SetTimer(fd, _, _) => if Find(w.reg, fd) < |w.reg| { TimerOf(w, Find(w.reg, fd)); }
    case DropTimer(fd) =>
      var k := Find(w.reg, fd);
      if k < |w.reg| {
        TimerOf(w, k);
        if w.reg[k].client.Timer? { DropTimerEnds(w, w.reg[k].client.t); }
      } else {
        DropUnknown(w, fd);
      }
    case Quit => LoopQuitKeeps(w);
  }

  lemma OpensIff(w: World, fd: int, answer: Answer)
    requires Inv(w)
    ensures RunCall(w, NewChannelOn(fd, answer)).Done? <==>
            fd < 0 || answer.NoTable? || answer.NoEntry? || EpollTakes(w, fd, answer)
  {
    hide Inv, IoNew, TableGains, EpollTakes;
    FreshAddress(w, w.next);
    NewIoIs(w, fd, answer);
  }

  lemma StartsIff(w: World, fd: int, data: nat, destructor: nat, answer: Answer)
    requires Inv(w)
    ensures RunCall(w, NewTimerOn(fd, data, destructor, answer)).Done? <==>
            fd < 0 || answer.NoTable? || answer.NoEntry? || EpollTakes(w, fd, answer)
  {
    hide Inv, StartTimer, TableGains, EpollTakes;
    FreshAddress(w, w.next);
    if fd >= 0 { NewTimerIs(w, fd, data, destructor, answer); }
  }

  lemma DestroysIff(w: World, p: nat)
    requires Inv(w) && p in w.owned && p in w.chans && w.gap in {1, 2}
    ensures IoDestroy(w, p).Done? <==> w.chans[p].descriptor < 0 || Removable(w, w.chans[p].descriptor)
  {
    hide Inv, IoDestroy, Find;
    if w.chans[p].descriptor >= 0 {
      HolderIs(w, w.chans[p].descriptor, p);
      DestroySpoilsTableIff(w, p);
    } else {
      DestroysClosed(w, p);
    }
  }

  lemma DestroysClosed(w: World, p: nat)
    requires Inv(w) && p in w.owned && p in w.chans && w.chans[p].descriptor < 0
    ensures IoDestroy(w, p).Done?
  {
    hide Inv, LoopRemove, MuteAll, Release;
    MuteAllFrame(w, p);
    RemoveNothing(MuteAll(w, p), w.chans[p].descriptor);
  }
}

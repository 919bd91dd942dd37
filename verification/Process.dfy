/**
 io.c, timer.c and the dispatching loop of loop.c as a program that changes its state step by step.
 The io_t and timer_entry_t records on the heap are the values of two maps keyed by address, so that
 every use of a record is shown to find it allocated. Each method says what it does to the fields,
 keeps the state right, and does what the function of the same step does to a World.
 */
module Process {
  import opened Events
  import opened LoopTable
  import opened World
  import opened Lifecycle
  import opened Invariant
  import opened Frames
  import opened Steps
  import opened StepsChannel
  import opened StepsRetire
  import opened StepsAdd
  import opened Runs
  import opened Theorems
  import opened Growth
  import opened Dispatches
  import opened ProcessSteps
  import opened Calls

  datatype Fault = Fine | Fails(why: Why)

  class Process {
    const gap: nat
    var reg: seq<Entry<Client>>
    var count: nat
    var epollOpen: bool
    var terminate: bool
    var kernel: map<int, Interest>
    var chans: map<nat, Chan>
    var owned: set<nat>
    var frames: multiset<nat>
    var pools: multiset<nat>
    var timers: map<nat, TimerRecord>
    var next: nat
    var log: Trace

    function State(): (w: World)
      reads this
    {
      World(gap, reg, count, epollOpen, terminate, kernel, chans, owned, frames, pools, timers, next, log)
    }

    /** The state is a right one. */
    ghost predicate Valid()
      reads this
    {
      Inv(State())
    }

    /**
     A run stops here for that reason. With an orphan the state is the one after the call whose caller
     was misled.
     */
    ghost predicate StopsHere<T>(r: Out<T>, why: Why)
      reads this
    {
      r.Stops(why) && (why != Orphan ==> r.at == State())
    }

    /** A method that may stop has done what the function does whose result is r. */
    ghost predicate Does(r: Out<World>, f: Fault)
      reads this
    {
      match f case Fine => r == Done(State()) case Fails(why) => StopsHere(r, why)
    }

    constructor (gap: nat)
      ensures Valid() && State() == Init(gap)
    {
      this.gap := gap;
      reg, count, epollOpen, terminate, kernel := [], ENTRY_CHANGE, true, false, map[];
      chans, owned, frames, pools, timers, next, log := map[], {}, multiset{}, multiset{}, map[], 0, Start;
      new;
      hide Inv;
      InitOk(gap);
    }

    // -------------------------------------------------------------- loop.c

    method LoopAddSd(sd: int, mask: Mask, client: Client, answer: Answer) returns (code: int)
      modifies this`reg, this`count, this`kernel, this`next, this`log
      ensures (State(), code) == LoopAdd(old(State()), sd, mask, client, answer)
    {
      if sd < 0 {
        return -EINVAL;
      }
      if count <= |reg| + 1 {
        if answer.NoTable? {
          return -ENOMEM;
        }
        count := count + ENTRY_CHANGE;
      }
      if answer.NoTable? || answer.NoEntry? {
        return -ENOMEM;
      }
      if !answer.Taken? || !epollOpen || sd in kernel {
        return EEXIST;
      }
      kernel := kernel[sd := Interest(next, mask, true)];
      reg := reg + [Entry(next, sd, mask, client)];
      log := Then(log, Added(next));
      next := next + 1;
      return 0;
    }

    method LoopModifySd(sd: int, mask: Mask, granted: bool) returns (code: int)
      modifies this`reg, this`kernel, this`log
      ensures (State(), code) == LoopModify(old(State()), sd, mask, granted)
    {
      if sd < 0 {
        return -EINVAL;
      }
      var k := Find(reg, sd);
      if k == |reg| {
        return -ENXIO;
      }
      if !granted {
        log := Then(log, Denied(sd));
        return -1;
      }
      kernel := kernel[sd := Interest(reg[k].id, mask, true)];
      reg := reg[k := reg[k].(mask := mask)];
      return 0;
    }

    /** The end of loop_remove_sd and the body of the loop in loop_cleanup, for an entry whose client is allocated. */
    method RetireEntry(e: Entry<Client>)
      requires match e.client case Channel(p) => p in chans case Timer(t) => t in timers
      modifies this`kernel, this`chans, this`timers, this`log
      ensures Retire(old(State()), e) == Done(State())
    {
      hide Settle;
      kernel := kernel - {e.sd};
      log := Then(Then(log, KernelRemoved(e.id)), Destructed(e.id));
      match e.client {
        case Channel(p) => IoDestroyCallback(p);
        case Timer(t) => DestructTimer(t);
      }
    }

    method LoopRemoveSd(sd: int) returns (f: Fault)
      requires Valid()
      modifies this`reg, this`kernel, this`chans, this`timers, this`log
      ensures Does(LoopRemove(old(State()), sd), f)
    {
      hide Inv, Retire;
      if sd < 0 {
        return Fine;
      }
      var k := Find(reg, sd);
      if k == |reg| {
        return Fine;
      }
      var e, shifted := reg[k], Shift(reg, k, gap);
      if shifted != Without(reg, k) {
        return Fails(CorruptTable);
      }
      ClientIsAllocated(State(), k);
      reg := shifted;
      RetireEntry(e);
      return Fine;
    }

    /** The loop of loop_cleanup over the entries. */
    method RetireEntries()
      requires Core(State()) && terminate
      modifies this`reg, this`kernel, this`chans, this`timers, this`log
      ensures RetireAll(old(State())) == Done(State())
    {
      hide Core, Retire, RetireAll;
      while reg != []
        invariant RetireAll(old(State())) == RetireAll(State()) && Core(State())
        decreases |reg|
      {
        FirstRetires(State());
        var e := reg[0];
        reg := reg[1..];
        RetireEntry(e);
      }
      NothingRetires(State());
    }

    /** loop_quit: every entry is retired and every channel closed, and epoll is closed. */
    method Quit()
      requires Valid()
      modifies this
      ensures Valid() && HasQuit(old(State()), State())
      ensures LoopQuit(old(State())) == Done(State())
    {
      hide Core, RetireAll, LoopQuit, HasQuit;
      QuitEffect(State());
      StopKeeps(State());
      ghost var was := State();
      log := Then(log, Stopped);
      terminate := true;
      ghost var w0 := State();
      RetireEntries();
      QuitIs(was, w0);
      count, epollOpen, kernel := 0, false, map[];
    }

    // -------------------------------------------------------------- io.c

    method DestroyHandler(p: nat, side: Side)
      requires p in chans
      modifies this`log
      ensures State() == DestroySide(old(State()), p, side)
    {
      if chans[p].At(side).destroy != 0 {
        log := Then(log, Destroyed(p, side, chans[p].At(side)));
      }
    }

    /** io_destroy_callback. */
    method IoDestroyCallback(p: nat)
      requires p in chans
      modifies this`chans, this`log
      ensures HasClosed(old(State()), p, State())
      ensures State() == DestroyCallback(old(State()), p)
    {
      hide Settle, HasClosed;
      DestroyCallbackEffect(State(), p);
      DestroyHandler(p, Write);
      DestroyHandler(p, Read);
      DestroyHandler(p, Disconnect);
      if chans[p].closeOnDestroy {
        log := Then(log, ChannelClosed(p, chans[p].descriptor));
      }
      log := Then(log, Detached(p, chans[p].closeOnDestroy));
      chans := chans[p := chans[p].(descriptor := -1)];
    }

    /** io_unref. */
    method IoUnref(p: nat)
      requires InvBeforeDrop(State(), p)
      modifies this`chans, this`log
      ensures Valid() && p in old(chans) && HasDropped(old(State()), p, State())
      ensures State() == Unref(old(State()), p)
    {
      hide Inv, InvBeforeDrop, HasDropped;
      UnrefKeeps(State(), p);
      UnrefEffect(State(), p);
      chans := chans[p := chans[p].(refs := chans[p].refs - 1)];
      if chans[p].refs != 0 {
        return;
      }
      chans := chans - {p};
      log := Then(log, Freed(p));
      assert chans == old(chans) - {p};
    }

    /** io_new. */
    method NewIo(fd: int, answer: Answer) returns (channel: bool, p: nat)
      requires Valid()
      modifies this
      ensures HasOpened(old(State()), fd, answer, State(), channel, p)
      ensures NewChannel(State(), channel, p) == IoNew(old(State()), fd, answer)
    {
      hide Inv, HasOpened, LoopAdd, IoNew;
      NewIoEffect(State(), fd, answer);
      NothingOpens(State(), fd, answer);
      channel, p := false, 0;
      if fd >= 0 {
        channel, p := OpenOn(fd, answer);
      }
    }

    /** io_new on a descriptor. */
    method OpenOn(fd: int, answer: Answer) returns (channel: bool, p: nat)
      requires fd >= 0
      modifies this
      ensures NewChannel(State(), channel, p) == IoNew(old(State()), fd, answer)
    {
      hide LoopAdd, IoNew;
      OpensBy(State(), fd, answer);
      channel, p := false, next;
      next := next + 1;
      chans := chans[p := Chan(0, fd, {}, false, NO_HANDLER, NO_HANDLER, NO_HANDLER)];
      var code := LoopAddSd(fd, {}, Channel(p), answer);
      if code < 0 {
        chans := chans - {p};
        p := 0;
      } else {
        chans := chans[p := chans[p].(refs := chans[p].refs + 1)];
        owned := owned + {p};
        log := Then(Then(log, Wrapped(p, fd)), Opened(p));
        channel := true;
      }
    }

    /** io_set_read_handler, io_set_write_handler and io_set_disconnect_handler. */
    method IoSetHandler(p: nat, side: Side, h: Handler, granted: bool) returns (code: int)
      requires Valid() && p in chans
      modifies this`reg, this`kernel, this`chans, this`log
      ensures Valid() && HasSet(old(State()), p, side, h, granted, State(), code)
      ensures (State(), code) == SetHandler(old(State()), p, side, h, granted)
    {
      hide Inv, HasSet, Replaced, LoopModify;
      SetHandlerKeeps(State(), p, side, h, granted);
      SetHandlerEffect(State(), p, side, h, granted);
      if chans[p].descriptor < 0 {
        return 0;
      }
      var events := if h.callback != 0 then chans[p].events + {SideBit(side)} else chans[p].events - {SideBit(side)};
      Exchange(p, side, h);
      ModifyFrame(State(), chans[p].descriptor, events, granted);
      if events == chans[p].events {
        return 1;
      }
      var modified := LoopModifySd(chans[p].descriptor, events, granted);
      if modified < 0 {
        return 0;
      }
      chans := chans[p := chans[p].(events := events)];
      return 1;
    }

    /** The old handler is destroyed and the new one stored. */
    method Exchange(p: nat, side: Side, h: Handler)
      requires p in chans
      modifies this`chans, this`log
      ensures State() == Replaced(old(State()), p, side, h)
      ensures chans == old(chans)[p := old(chans)[p].Put(side, h)]
    {
      DestroyHandler(p, side);
      chans := chans[p := chans[p].Put(side, h)];
      log := Then(log, Installed(p, side, h));
    }

    /** The callbacks are cleared; data and destroyers stay. */
    method Silence(p: nat)
      requires p in chans
      modifies this`chans
      ensures State() == MuteAll(old(State()), p) && p in chans
    {
      chans := chans[p := chans[p].Mute(Read)];
      chans := chans[p := chans[p].Mute(Write)];
      chans := chans[p := chans[p].Mute(Disconnect)];
    }

    /** io_destroy. */
    method DestroyIo(p: nat) returns (f: Fault)
      requires Valid() && p in owned
      modifies this
      ensures p in old(chans) && match f
                                 case Fine => Valid() && HasDestroyed(old(State()), p, State())
                                 case Fails(why) => why == CorruptTable && gap != 1
      ensures Does(IoDestroy(old(State()), p), f)
    {
      hide Inv, InvBeforeDrop, HasDestroyed, LoopRemove, Unref, HasDropped, MuteAll;
      ghost var was := State();
      FrameIsAllocated(was, p);
      DestroyEffect(was, p);
      RemovedStillStored(was, p);
      Silence(p);
      f := LoopRemoveSd(chans[p].descriptor);
      if f.Fails? {
        return;
      }
      owned := owned - {p};
      log := Then(log, Released(p));
      IoUnref(p);
    }

    /** What follows a callback. */
    method IoFinish(p: nat, side: Side, value: int, granted: bool)
      requires Valid() && p in chans
      modifies this`reg, this`kernel, this`chans, this`log
      ensures Valid() && HasFinished(old(State()), p, side, value, granted, State())
      ensures State() == Finish(old(State()), p, side, value, granted)
    {
      hide Inv, LoopModify, HasFinished;
      FinishKeeps(State(), p, side, value, granted);
      FinishEffect(State(), p, side, value, granted);
      log := Then(log, Returned(p, side, chans[p].At(side), value, chans[p].descriptor >= 0));
      if value == 0 {
        DestroyHandler(p, side);
        ghost var before := chans;
        chans := chans[p := chans[p].Put(side, NO_HANDLER)];
        chans := chans[p := chans[p].(events := chans[p].events - {SideBit(side)})];
        assert chans == before[p := chans[p]];
        var code := LoopModifySd(chans[p].descriptor, chans[p].events, granted);
      }
    }

    /** Where a method stops, it is not over freed memory, and not over the table if the shift moves every slot. */
    ghost predicate Blameless(f: Fault)
      reads this
    {
      f.Fails? ==> f.why != UseAfterFree && (gap == 1 ==> f.why != CorruptTable)
    }

    /**
     One of the three parts of io_process_event, during a dispatch: the callback, if there is one, and
     what its answer leads to. Whatever the callback has done, the channel's record is still there.
     */
    method IoServe(p: nat, side: Side, s: Script) returns (f: Fault)
      requires Valid() && frames[p] > 0
      modifies this
      ensures f.Fine? ==> Valid() && p in chans && frames == old(frames) && pools == old(pools)
      ensures Blameless(f)
      ensures p in old(chans) && (old(chans)[p].At(side).callback == 0 ==> f.Fine? && State() == old(State()))
      ensures f.Fine? ==> Meets(old(State()), p, side, State())
      ensures Does(Serve(old(State()), p, side, s), f)
      decreases s, 2
    {
      hide Inv, Serve, RunScript, Finish, HasFinished, Calling, Meets;
      FrameIsAllocated(State(), p);
      ServedMeets(State(), p, side, s);
      NothingServes(State(), p, side, s);
      f := Fine;
      if chans[p].At(side).callback != 0 {
        ServesBy(State(), p, side, s);
        var value, granted;
        f, value, granted := CallBack(p, side, s);
        if f.Fine? {
          IoFinish(p, side, value, granted);
          FrameIsAllocated(State(), p);
        }
      }
    }

    /** The callback itself. */
    method CallBack(p: nat, side: Side, s: Script) returns (f: Fault, value: int, granted: bool)
      requires Valid() && frames[p] > 0 && p in chans && chans[p].At(side).callback != 0
      modifies this
      ensures f.Fine? ==> Valid() && p in chans && frames == old(frames) && pools == old(pools)
      ensures Blameless(f)
      ensures match f
              case Fine => RunScript(Calling(old(State()), p, side), s) == Done(Result(State(), value, granted))
              case Fails(why) => StopsHere(RunScript(Calling(old(State()), p, side), s), why)
      decreases s, 1
    {
      hide Inv, RunScript;
      CalledKeeps(State(), p, side);
      log := Then(log, Called(p, side, chans[p].At(side), chans[p].descriptor >= 0));
      f, value, granted := Execute(s);
      if f.Fine? { FrameIsAllocated(State(), p); }
    }

    /** The reference a dispatch takes. */
    method IoEnter(p: nat)
      requires Valid() && p in chans
      modifies this`chans, this`frames, this`log
      ensures Valid() && frames == old(frames) + multiset{p}
      ensures chans == old(chans)[p := old(chans)[p].(refs := old(chans)[p].refs + 1)]
      ensures State() == Enter(old(State()), p)
    {
      hide Inv;
      EnterKeeps(State(), p);
      chans := chans[p := chans[p].(refs := chans[p].refs + 1)];
      frames := frames + multiset{p};
      log := Then(log, Entered(p));
    }

    /** The reference a dispatch gives back: the record stays exactly if another one remains. */
    method IoLeave(p: nat)
      requires Valid() && frames[p] > 0
      modifies this`chans, this`frames, this`log
      ensures Valid() && frames == old(frames) - multiset{p}
      ensures p in chans <==> p in owned || frames[p] > 0
      ensures p in old(chans) && State() == Leave(old(State()), p)
    {
      hide Inv, Unref, InvBeforeDrop;
      LeftBeforeDrop(State(), p);
      FrameIsAllocated(State(), p);
      frames := frames - multiset{p};
      log := Then(log, Left(p));
      IoUnref(p);
    }

    /** The entry at that address has an event in the pools and calls back that client. */
    ghost predicate Delivered(id: nat, client: Client)
      reads this
    {
      FindId(reg, id) < |reg| && reg[FindId(reg, id)].client == client && pools[id] > 0
    }

    /**
     io_process_event. The channel's record is there to the end, whatever the callbacks do. After a
     hang-up that has no callback the channel is closed and its entry gone.
     */
    method IoProcessEvent(id: nat, p: nat, flags: Mask, r: Reaction) returns (f: Fault)
      requires Valid() && Delivered(id, Channel(p)) && r.OnChannel?
      modifies this
      ensures f.Fine? ==> Valid() && frames == old(frames) && pools == old(pools) - multiset{id}
      ensures Blameless(f) && p in old(chans)
      ensures f.Fine? && HangsUp(flags) && old(chans)[p].disconnect.callback == 0 ==> IsHungUp(State(), id, p)
      ensures f.Fine? ==> EventMeans(old(State()), FindId(old(reg), id), p, flags, r, State())
      ensures Does(RunEvent(old(State()), id, Channel(p), flags, r), f)
      decreases r, 2
    {
      hide Inv, Dispatch, Enter, Leave, IsHungUp, HangsUp, EventMeans;
      ghost var was := State();
      ClientIsAllocated(was, FindId(reg, id));
      EventMeaning(was, FindId(reg, id), p, flags, r);
      EventKeeps(was, FindId(reg, id), flags, r);
      DrawKeeps(was, id);
      pools, log := pools - multiset{id}, Then(log, Picked(id));
      EnterFrame(State(), p);
      IoEnter(p);
      f := IoDispatch(p, flags, r);
      if f.Fails? {
        return;
      }
      IoLeave(p);
      if HangsUp(flags) && old(chans)[p].disconnect.callback == 0 { HangUpEffect(was, id, p, flags, r); }
    }

    /** The read and the write part. */
    method IoTransfer(p: nat, flags: Mask, r: Reaction) returns (f: Fault)
      requires Valid() && frames[p] > 0 && p in chans && r.OnChannel?
      modifies this
      ensures f.Fine? ==> Valid() && p in chans && frames == old(frames) && pools == old(pools)
      ensures Blameless(f)
      ensures Does(Transfer(old(State()), p, flags, r), f)
      decreases r, 0
    {
      hide Inv, Serve;
      f := Fine;
      if IN in flags {
        f := IoServe(p, Read, r.read);
        if f.Fails? {
          return;
        }
      }
      if OUT in flags {
        f := IoServe(p, Write, r.write);
      }
    }

    method IoDispatch(p: nat, flags: Mask, r: Reaction) returns (f: Fault)
      requires Valid() && frames[p] > 0 && p in chans && r.OnChannel?
      modifies this
      ensures f.Fine? ==> Valid() && p in chans && frames == old(frames) && pools == old(pools)
      ensures Blameless(f)
      ensures Does(Dispatch(old(State()), p, flags, r), f)
      decreases r, 1
    {
      hide Inv, Serve, LoopRemove;
      ghost var was := State();
      DispatchKeeps(was, p, flags, r);
      if flags * {RDHUP, HUP, ERR} != {} {
        MutedForHangUp(was, p);
        chans := chans[p := chans[p].Mute(Read)];
        chans := chans[p := chans[p].Mute(Write)];
        assert State() == Mute(Mute(was, p, Read), p, Write);
        if chans[p].disconnect.callback == 0 {
          f := LoopRemoveSd(chans[p].descriptor);
          if f.Fine? { FrameIsAllocated(State(), p); }
          return;
        }
        f := IoServe(p, Disconnect, r.disconnect);
        if f.Fails? {
          return;
        }
      }
      f := IoTransfer(p, flags, r);
    }

    // -------------------------------------------------------------- timer.c

    /** timer_destructor. */
    method DestructTimer(t: nat)
      requires t in timers
      modifies this`timers, this`log
      ensures HasDisposed(old(State()), t, State())
      ensures State() == TimerDestructor(old(State()), t)
    {
      hide HasDisposed;
      DisposeEffect(State(), t);
      var r := timers[t];
      log := Then(log, TimerClosed(t, r.id));
      if r.destructor != 0 {
        log := Then(log, TimerDestroyed(t, r.data));
      }
      timers := timers - {t};
      log := Then(log, TimerFreed(t));
    }

    /** create_timer, where fd is what timerfd_create returns. */
    method NewTimer(fd: int, data: nat, destructor: nat, answer: Answer) returns (code: int)
      requires Valid()
      modifies this
      ensures HasMade(old(State()), fd, data, destructor, answer, State(), code)
      ensures (State(), code) == CreateTimer(old(State()), fd, data, destructor, answer)
    {
      hide Inv, LoopAdd, HasMade;
      NewTimerEffect(State(), fd, data, destructor, answer);
      if fd < 0 {
        return EMFILE;
      }
      var t := next;
      next := next + 1;
      timers := timers[t := TimerRecord(fd, data, destructor, true)];
      log := Then(Then(log, TimerOpened(t, fd, data, destructor)), Armed(t));
      code := LoopAddSd(fd, {IN, ONESHOT}, Timer(t), answer);
      if code < 0 {
        timers := timers - {t};
        log := Then(Then(log, TimerClosed(t, fd)), TimerFreed(t));
        return -EIO;
      }
      return fd;
    }

    /** modify_timer on the descriptor of timer t. */
    method ChangeTimer(t: nat, timeout: bool, granted: bool) returns (code: int)
      requires Valid() && t in timers
      modifies this`reg, this`kernel, this`timers, this`log
      ensures Valid() && HasChanged(old(State()), t, timeout, granted, State(), code)
      ensures (State(), code) == ModifyTimer(old(State()), t, timeout, granted)
    {
      hide Inv, LoopModify, HasChanged;
      ModifyTimerEffect(State(), t, timeout, granted);
      if timeout {
        timers := timers[t := timers[t].(pending := true)];
        log := Then(log, Armed(t));
      }
      code := LoopModifySd(timers[t].id, {IN, ONESHOT}, granted);
      if code < 0 {
        return -EIO;
      }
      log := Then(log, Rearmed(t));
      return 0;
    }

    /** timer_callback: without an expired time, or on an error, nothing but the event is gone. */
    method TimerCallback(id: nat, t: nat, flags: Mask, r: Reaction) returns (f: Fault)
      requires Valid() && Delivered(id, Timer(t)) && r.OnTimer?
      modifies this
      ensures f.Fine? ==> Valid() && frames == old(frames) && pools == old(pools) - multiset{id}
      ensures Blameless(f) && t in old(timers)
      ensures flags * {ERR, HUP} != {} || !r.expired || !old(timers)[t].pending ==>
                f.Fine? && State() == Drawn(old(State()), id)
      ensures f.Fine? && flags * {ERR, HUP} == {} && r.expired && old(timers)[t].pending ==>
                Extends(Then(Then(old(log), Picked(id)), Fired(t)), log, false)
      ensures Does(RunEvent(old(State()), id, Timer(t), flags, r), f)
      decreases r, 2
    {
      hide Inv, RunScript, RunEvent, Extends;
      ghost var was := State();
      ClientIsAllocated(was, FindId(reg, id));
      TimerEntryHere(was, FindId(reg, id), t);
      DrawKeeps(was, id);
      TimerRuns(was, id, t, flags, r);
      pools, log := pools - multiset{id}, Then(log, Picked(id));
      f := Fine;
      if flags * {ERR, HUP} == {} && r.expired && timers[t].pending {
        FireKeeps(was, t);
        ScriptExtends(Firing(was, t), r.callback, false);
        timers := timers[t := timers[t].(pending := false)];
        log := Then(log, Fired(t));
        var value, granted;
        f, value, granted := Execute(r.callback);
      }
    }

    // -------------------------------------------------------------- client code and the loop

    /** Client code: its calls one after the other, then its answer. */
    method Execute(s: Script) returns (f: Fault, value: int, granted: bool)
      requires Valid()
      modifies this
      ensures f.Fine? ==> Valid() && frames == old(frames) && pools == old(pools)
      ensures Blameless(f)
      ensures match f
              case Fine => RunScript(old(State()), s) == Done(Result(State(), value, granted))
              case Fails(why) => StopsHere(RunScript(old(State()), s), why)
      decreases s, 0
    {
      hide Inv, RunCall;
      f, value, granted := Fine, 0, false;
      match s
      case Return(v, g) => value, granted := v, g;
      case Do(call, next) =>
        f := Perform(call);
        if f.Fine? {
          f, value, granted := Execute(next);
        }
    }

    method Perform(c: Call) returns (f: Fault)
      requires Valid()
      modifies this
      ensures f.Fine? ==> Valid() && frames == old(frames) && pools == old(pools)
      ensures Blameless(f)
      ensures f.Fine? ==> HasCalled(old(State()), c, State())
      ensures Does(RunCall(old(State()), c), f)
      decreases c
    {
      hide Inv, IoNew, SetHandler, IoDestroy, CreateTimer, ModifyTimer, LoopRemove, LoopQuit, RunTurns,
           HasOpened, HasSet, HasDestroyed, HasMade, HasChanged, HasQuit, HasCalled;
      ghost var was := State();
      CallKeeps(was, c);
      if RunCall(was, c).Done? { CallDoes(was, c); }
      f := Fine;
      match c
      case NewChannelOn(fd, answer) =>
        var n := |reg|;
        var channel, p := NewIo(fd, answer);
        if channel && |reg| == n {
          f := Fails(Orphan);
        }
      case CloseOnDestroy(p, on) =>
        if !Holds(State(), p) {
          f := Fails(Misuse);
        } else {
          FrameIsAllocated(was, p);
          chans := chans[p := chans[p].(closeOnDestroy := on)];
        }
      case SetHandlerOf(p, side, h, granted) =>
        if !Holds(State(), p) {
          f := Fails(Misuse);
        } else {
          FrameIsAllocated(was, p);
          var code := IoSetHandler(p, side, h, granted);
        }
      case Destroy(p) =>
        if p !in owned {
          f := Fails(Misuse);
        } else {
          FrameIsAllocated(was, p);
          f := DestroyIo(p);
        }
      case NewTimerOn(fd, data, destructor, answer) =>
        var n := |reg|;
        var code := NewTimer(fd, data, destructor, answer);
        if fd >= 0 && code >= 0 && |reg| == n {
          f := Fails(Orphan);
        }
      case SetTimer(fd, timeout, granted) =>
        var k := Find(reg, fd);
        if k < |reg| {
          if !reg[k].client.Timer? {
            f := Fails(Misuse);
          } else {
            ClientIsAllocated(was, k);
            var code := ChangeTimer(reg[k].client.t, timeout, granted);
          }
        }
      case DropTimer(fd) =>
        var k := Find(reg, fd);
        if k < |reg| && !reg[k].client.Timer? {
          f := Fails(Misuse);
        } else {
          f := LoopRemoveSd(fd);
        }
      case Quit => Quit();
      case RunLoop(turns) => f := LoopRun(turns);
    }

    /** loop_run: the event pool is sized once, then epoll_wait fills it again and again. */
    method LoopRun(turns: Turns) returns (f: Fault)
      requires Valid()
      modifies this
      ensures f.Fine? ==> Valid() && frames == old(frames) && pools == old(pools)
      ensures Blameless(f)
      ensures Does(RunTurns(old(State()), turns, old(count)), f)
      decreases turns
    {
      hide Inv, RunBatch, Deliverable, Disarm, BatchIds, Pooled, Remaining;
      var pool, rest := count, turns;
      while !terminate && rest.Wait?
        invariant RunTurns(old(State()), turns, pool) == RunTurns(State(), rest, pool)
        invariant Valid() && frames == old(frames) && pools == old(pools)
        invariant rest == turns || rest < turns
        decreases rest
      {
        var batch := rest.batch;
        if !Deliverable(kernel, batch) {
          return Fails(Impossible);
        }
        if BatchSize(batch) > pool {
          return Fails(PoolOverrun(pool));
        }
        FetchKeeps(State(), batch);
        FetchPooled(State(), batch);
        kernel := Disarm(kernel, batch);
        pools := pools + BatchIds(batch);
        f := ProcessEvents(batch);
        if f.Fails? {
          return;
        }
        rest := rest.rest;
      }
      return Fine;
    }

    /** The inner loop of loop_run over the event pool. */
    method ProcessEvents(batch: Batch) returns (f: Fault)
      requires Valid() && Pooled(batch, pools)
      modifies this
      ensures f.Fine? ==> Valid() && frames == old(frames) && pools == Remaining(batch, old(pools))
      ensures Blameless(f)
      ensures Does(RunBatch(old(State()), batch), f)
      decreases batch
    {
      hide Inv, RunEvent, Pooled, Remaining;
      var b := batch;
      while b.Ready?
        invariant RunBatch(old(State()), batch) == RunBatch(State(), b)
        invariant Valid() && Pooled(b, pools) && frames == old(frames)
        invariant Remaining(b, pools) == Remaining(batch, old(pools))
        invariant b == batch || b < batch
        decreases b
      {
        DrawnFrom(b, pools);
        var k := FindId(reg, b.id);
        if k == |reg| {
          return Fails(StaleEvent(b.id));
        }
        ReactionFits(State(), k, b.flags, b.reaction);
        match reg[k].client {
          case Channel(p) =>
            if !b.reaction.OnChannel? {
              return Fails(Impossible);
            }
            f := IoProcessEvent(b.id, p, b.flags, b.reaction);
          case Timer(t) =>
            if !b.reaction.OnTimer? {
              return Fails(Impossible);
            }
            f := TimerCallback(b.id, t, b.flags, b.reaction);
        }
        if f.Fails? {
          return;
        }
        b := b.more;
      }
      NoneDrawn(pools);
      return Fine;
    }

    /** A whole program, from the state loop_init leaves; whether it ends or stops, the fields are right. */
    method RunProgram(s: Script) returns (f: Fault)
      requires State() == Init(gap)
      modifies this
      ensures f.Fine? ==> frames == multiset{} && pools == multiset{}
      ensures Blameless(f)
      ensures f == Fine <==> Run(gap, s).Done?
      ensures f != Fails(Orphan) ==> Valid() && (PaidOnce(State()) <==> NoStaleReturn(log))
    {
      hide Inv, PaidOnce;
      InitOk(gap);
      EveryRunIsSound(gap, s);
      PaidOnceIffNoStaleReturn(gap, s);
      var value, granted;
      f, value, granted := Execute(s);
    }
  }
}

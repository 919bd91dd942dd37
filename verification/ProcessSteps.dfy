/** What single steps do to the fields, as the methods of the process class state it. */
module ProcessSteps {
  import opened Events
  import opened LoopTable
  import opened World
  import opened Lifecycle
  import opened Invariant
  import opened Frames
  import opened Steps
  import opened StepsTable
  import opened StepsChannel
  import opened StepsRetire
  import opened StepsAdd
  import opened StepsLedger
  import opened Runs
  import opened Theorems
  import opened ChannelTheorems
  import opened TimerTheorems
  import opened Dispatches

  // ------------------------------------------------------------ quitting

  /** The addresses of the entries of a table, in order. */
  function Addresses(reg: Registry): seq<nat> {
    if reg == [] then [] else [reg[0].id] + Addresses(reg[1..])
  }

  /** Everything is closed, disposed of and deregistered, in table order, and nothing else has changed. */
  ghost predicate HasQuit(w: World, v: World) {
    && Endings(v.log) == Endings(w.log) + Addresses(w.reg)
    && v.terminate && !v.epollOpen && v.reg == [] && v.kernel == map[] && v.timers == map[] && v.count == 0
    && v.chans.Keys == w.chans.Keys && v.owned == w.owned && v.frames == w.frames && v.pools == w.pools
    && forall p :: p in v.chans ==> v.chans[p] == w.chans[p].(descriptor := -1)
  }

  /** The first entry's client is allocated, and retiring the entry leaves the rest of the table. */
  lemma FirstRetires(w: World)
    requires Core(w) && w.terminate && w.reg != []
    ensures match w.reg[0].client case Channel(p) => p in w.chans case Timer(t) => t in w.timers
    ensures var r := Retire(w.(reg := w.reg[1..]), w.reg[0]);
            r.Done? && Core(r.value) && r.value.reg == w.reg[1..] && r.value.terminate
            && RetireAll(w) == RetireAll(r.value)
  {
    hide Core, Retire;
    assert Without(w.reg, 0) == w.reg[1..];
    RetireKeeps(w, 0);
    FirstIsAllocated(w);
  }

  lemma FirstIsAllocated(w: World)
    requires Core(w) && w.reg != []
    ensures match w.reg[0].client case Channel(p) => p in w.chans case Timer(t) => t in w.timers
  {
    hide TableOk, MirrorOk, RefsOk, SilentOk, MasksOk, HandlersOk, EntryLogOk, ChanLogOk, TimerLogOk, LedgerOk, Lawful;
    assert EntryLinked(w.reg[0], w.chans, w.owned);
    assert TimerLinked(w.reg[0], w.timers);
  }

  lemma NothingRetires(w: World)
    requires w.reg == []
    ensures RetireAll(w) == Done(w)
  {
  }

  lemma QuitIs(was: World, w0: World)
    requires w0 == Note(was.(terminate := true), Stopped) && RetireAll(w0).Done?
    ensures LoopQuit(was) == Done(RetireAll(w0).value.(count := 0, epollOpen := false, kernel := map[]))
  {
    hide RetireAll;
  }

  lemma SettlesNothing(log: Trace, p: nat, side: Side, h: Handler)
    ensures Endings(Settle(log, p, side, h)) == Endings(log)
  {
  }

  lemma RetireEnds(w: World, e: Entry<Client>)
    ensures Retire(w, e).Done? ==> Endings(Retire(w, e).value.log) == Endings(w.log) + [e.id]
  {
    hide Settle, Endings;
    var log1 := Then(Then(w.log, KernelRemoved(e.id)), Destructed(e.id));
    EndsOne(w.log, e.id);
    match e.client
    case Channel(p) =>
      if p in w.chans {
        var c := w.chans[p];
        var log2 := Settle(log1, p, Write, c.write);
        var log3 := Settle(log2, p, Read, c.read);
        SettlesNothing(log1, p, Write, c.write);
        SettlesNothing(log2, p, Read, c.read);
        SettlesNothing(log3, p, Disconnect, c.disconnect);
        var log4 := Settle(log3, p, Disconnect, c.disconnect);
        EndsNone(log4, ChannelClosed(p, c.descriptor), Detached(p, c.closeOnDestroy));
      }
    case Timer(t) =>
      if t in w.timers {
        var r := w.timers[t];
        EndsNone(log1, TimerClosed(t, r.id), TimerFreed(t));
        EndsNone(Then(log1, TimerClosed(t, r.id)), TimerDestroyed(t, r.data), TimerFreed(t));
      }
  }

  lemma EndsOne(log: Trace, id: nat)
    ensures Endings(Then(Then(log, KernelRemoved(id)), Destructed(id))) == Endings(log) + [id]
  {
    assert Endings(Then(log, KernelRemoved(id))) == Endings(log);
  }

  lemma EndsNone(log: Trace, a: Event, b: Event)
    requires !a.Destructed? && !b.Destructed?
    ensures Endings(Then(log, a)) == Endings(Then(log, b)) == Endings(Then(Then(log, a), b)) == Endings(log)
  {
    assert Endings(Then(log, a)) == Endings(log);
  }

  lemma {:induction false} RetireAllEnds(w: World)
    requires Core(w) && w.terminate
    ensures RetireAll(w).Done? && Endings(RetireAll(w).value.log) == Endings(w.log) + Addresses(w.reg)
    decreases |w.reg|
  {
    hide Core, Retire, RetireAll, Endings;
    if w.reg == [] {
      NothingRetires(w);
    } else {
      var r := Retire(w.(reg := w.reg[1..]), w.reg[0]);
      FirstRetires(w);
      RetireEnds(w.(reg := w.reg[1..]), w.reg[0]);
      RetireAllEnds(r.value);
    }
  }

  lemma QuitEnds(w: World)
    requires Inv(w)
    ensures LoopQuit(w).Done? && Endings(LoopQuit(w).value.log) == Endings(w.log) + Addresses(w.reg)
  {
    hide Inv, Core, RetireAll, Endings, Addresses;
    StopKeeps(w);
    RetireAllEnds(Note(w.(terminate := true), Stopped));
    EndsNone(w.log, Stopped, Stopped);
  }

  lemma QuitEffect(w: World)
    requires Inv(w)
    ensures LoopQuit(w).Done? && Inv(LoopQuit(w).value) && HasQuit(w, LoopQuit(w).value)
  {
    hide Inv, RetireAll;
    QuitFinishesEverything(w, 0, 0);
    LoopQuitKeeps(w);
    QuitEnds(w);
    var v := LoopQuit(w).value;
    assert v.count == 0;
    hide LoopQuit;
    forall p | p in v.chans ensures v.chans[p] == w.chans[p].(descriptor := -1) {
      ClosedWhenEmpty(v, p);
    }
  }

  // ------------------------------------------------------------ closing, references

  /**
   The write, the read and the disconnect destroyer were called, in this order and once each, and the
   channel is closed, with its descriptor if that was asked for.
   */
  ghost predicate HasClosed(w: World, p: nat, v: World)
    requires p in w.chans
  {
    var c := w.chans[p];
    && v == w.(chans := w.chans[p := c.(descriptor := -1)], log := Along(w.log, Closing(p, c)))
    && (forall side: Side, d: Debt ::
          Destroys(v.log, p, side, d) == Destroys(w.log, p, side, d) + Owes(c.At(side), d))
    && forall fd: int :: ClosedMore(w.log, v.log, p, fd, c)
  }

  /** The descriptor was closed once more if it is the channel's and was to be closed. */
  ghost predicate ClosedMore(was: Trace, log: Trace, p: nat, fd: int, c: Chan) {
    Times(log, ChannelClosed(p, fd)) == Times(was, ChannelClosed(p, fd)) + One(c.closeOnDestroy && fd == c.descriptor)
  }

  lemma DestroyCallbackEffect(w: World, p: nat)
    requires p in w.chans
    ensures HasClosed(w, p, DestroyCallback(w, p))
  {
    hide DestroyCallback, DestroyedLog, ClosedMore, Along, Closing;
    DestroyCallbackIs(w, p);
    ClosingIs(w.log, p, w.chans[p]);
    var c := w.chans[p];
    forall side: Side, d: Debt
      ensures Destroys(DestroyedLog(w.log, p, c), p, side, d) == Destroys(w.log, p, side, d) + Owes(c.At(side), d)
    {
      DestroyedLogCounts(w.log, p, c, p, side, d);
    }
    forall fd: int ensures ClosedMore(w.log, DestroyedLog(w.log, p, c), p, fd, c) {
      DestroyedLogCloses(w.log, p, c, fd);
    }
  }

  lemma DestroyedLogCloses(log: Trace, p: nat, c: Chan, fd: int)
    ensures ClosedMore(log, DestroyedLog(log, p, c), p, fd, c)
  {
    SettledLogCloses(log, p, c, fd);
    hide SettledLog;
    ClosedLogCounts(SettledLog(log, p, c), p, c.descriptor, c.closeOnDestroy, p, fd);
  }

  lemma SettledLogCloses(log: Trace, p: nat, c: Chan, fd: int)
    ensures Times(SettledLog(log, p, c), ChannelClosed(p, fd)) == Times(log, ChannelClosed(p, fd))
  {
    var e := ChannelClosed(p, fd);
    var log1 := Settle(log, p, Write, c.write);
    var log2 := Settle(log1, p, Read, c.read);
    assert Times(log1, e) == Times(log, e) && Times(log2, e) == Times(log, e);
  }

  /**
   The record is allocated exactly if its owner or a dispatch refers to it, and counts those references;
   otherwise it has been freed, once.
   */
  ghost predicate HasDropped(w: World, p: nat, v: World)
    requires p in w.chans
  {
    && v == w.(chans := v.chans, log := v.log) && OthersStay(w, p, v)
    && (p in v.chans <==> p in w.owned || w.frames[p] > 0)
    && (p in v.chans ==> v.chans[p] == w.chans[p].(refs := One(p in w.owned) + w.frames[p]))
    && Times(v.log, Freed(p)) == Times(w.log, Freed(p)) + One(p !in v.chans)
  }

  lemma UnrefEffect(w: World, p: nat)
    requires InvBeforeDrop(w, p)
    ensures p in w.chans && HasDropped(w, p, Unref(w, p))
  {
    hide TableOk, MirrorOk, LinksOk, RefsOk, SilentOk, MasksOk, TimersOk, HandlersOk, EntryLogOk, ChanLogOk, TimerLogOk,
         LedgerOk, Lawful, RoomOk;
    RefsHere(Dropped(w.chans, p), w.owned, w.frames, w.next, p);
  }

  // ------------------------------------------------------------ opening, setting, destroying

  /**
   A fresh channel without handlers, held by its owner alone, for every answer of epoll, but registered
   only if epoll took the descriptor; without memory in the loop nothing is left behind.
   */
  ghost predicate HasOpened(w: World, fd: int, answer: Answer, v: World, channel: bool, p: nat) {
    && (channel <==> fd >= 0 && !answer.NoTable? && !answer.NoEntry?)
    && (channel ==>
          && p !in w.chans && v.owned == w.owned + {p}
          && v.chans == w.chans[p := Chan(1, fd, {}, false, NO_HANDLER, NO_HANDLER, NO_HANDLER)]
          && (Registered(v.reg, fd, Channel(p)) <==> EpollTakes(w, fd, answer))
          && TableGains(w, fd, {}, Channel(p), EpollTakes(w, fd, answer), v)
          && (EpollTakes(w, fd, answer) ==> Inv(v)))
    && (!channel ==>
          && Inv(v) && v.chans == w.chans && v.owned == w.owned && v.reg == w.reg && v.kernel == w.kernel
          && v.log == w.log)
    && v.timers == w.timers && v.frames == w.frames && v.pools == w.pools
  }

  /** One entry at the top of the table, watched by the kernel, if it was taken; otherwise neither has changed. */
  ghost predicate TableGains(w: World, fd: int, m: Mask, client: Client, taken: bool, v: World) {
    if taken then
      && |v.reg| == |w.reg| + 1
      && var e := v.reg[|w.reg|];
         && e.sd == fd && e.mask == m && e.client == client
         && v.reg == w.reg + [e] && v.kernel == w.kernel[fd := Interest(e.id, m, true)]
    else v.reg == w.reg && v.kernel == w.kernel
  }

  lemma AddGains(w: World, sd: int, mask: Mask, client: Client, answer: Answer)
    requires sd >= 0 && !answer.NoTable? && !answer.NoEntry?
    ensures TableGains(w, sd, mask, client, EpollTakes(w, sd, answer), LoopAdd(w, sd, mask, client, answer).0)
  {
  }

  lemma SameGains(u: World, w: World, fd: int, m: Mask, client: Client, taken: bool, v: World, v': World)
    requires u.reg == w.reg && u.kernel == w.kernel && v.reg == v'.reg && v.kernel == v'.kernel
    ensures TableGains(u, fd, m, client, taken, v) <==> TableGains(w, fd, m, client, taken, v')
  {
  }

  lemma NewIoEffect(w: World, fd: int, answer: Answer)
    requires Inv(w)
    ensures var r := IoNew(w, fd, answer); HasOpened(w, fd, answer, r.w, r.channel, r.p)
  {
    hide Inv, IoNew, EpollTakes, Registered, TableGains;
    IoNewKeeps(w, fd, answer);
    FreshAddress(w, w.next);
    NewIoIs(w, fd, answer);
    if fd >= 0 && !answer.NoTable? && !answer.NoEntry? { RegisteredIffTaken(w, fd, answer); }
  }

  lemma NewIoIs(w: World, fd: int, answer: Answer)
    requires w.next !in w.chans
    ensures var r := IoNew(w, fd, answer);
            && (r.channel <==> fd >= 0 && !answer.NoTable? && !answer.NoEntry?)
            && (r.channel ==>
                  && r.p == w.next && r.w.owned == w.owned + {r.p}
                  && r.w.chans == w.chans[r.p := Chan(1, fd, {}, false, NO_HANDLER, NO_HANDLER, NO_HANDLER)]
                  && (|r.w.reg| != |w.reg| <==> EpollTakes(w, fd, answer))
                  && TableGains(w, fd, {}, Channel(r.p), EpollTakes(w, fd, answer), r.w))
            && (!r.channel ==>
                  && r.w.chans == w.chans && r.w.owned == w.owned && r.w.reg == w.reg && r.w.kernel == w.kernel
                  && r.w.log == w.log)
            && r.w.timers == w.timers && r.w.frames == w.frames && r.w.pools == w.pools
  {
    hide LoopAdd, TableGains;
    if fd >= 0 {
      var p, c := w.next, Chan(0, fd, {}, false, NO_HANDLER, NO_HANDLER, NO_HANDLER);
      var w0 := w.(next := p + 1, chans := w.chans[p := c]);
      LoopAddIs(w0, fd, {}, Channel(p), answer);
      AddCode(w0, fd, {}, Channel(p), answer);
      if !answer.NoTable? && !answer.NoEntry? {
        AddGains(w0, fd, {}, Channel(p), answer);
        SameGains(w0, w, fd, {}, Channel(p), EpollTakes(w, fd, answer), LoopAdd(w0, fd, {}, Channel(p), answer).0,
                  IoNew(w, fd, answer).w);
      }
      assert w0.chans - {p} == w.chans;
    }
  }

  lemma AddCode(w: World, sd: int, mask: Mask, client: Client, answer: Answer)
    requires sd >= 0
    ensures var (v, code) := LoopAdd(w, sd, mask, client, answer);
            && (code < 0 <==> answer.NoTable? || answer.NoEntry?)
            && (|v.reg| != |w.reg| <==> EpollTakes(w, sd, answer))
  {
  }

  /**
   On a closed channel nothing happens. On an open one the old handler is destroyed once and the new one
   is in place, whatever is returned; the code is 1 unless the mask had to change and epoll refused, and
   the mask has the flag of that side exactly if there is a callback.
   */
  ghost predicate HasSet(w: World, p: nat, side: Side, h: Handler, granted: bool, v: World, code: int)
    requires p in w.chans
  {
    var c := w.chans[p];
    && (c.descriptor < 0 ==> v == w && code == 0)
    && (c.descriptor >= 0 ==>
          && OthersStay(w, p, v) && p in v.chans && v.chans[p].At(side) == h
          && (forall other: Side :: other != side ==> v.chans[p].At(other) == c.At(other))
          && v.chans[p].descriptor == c.descriptor && v.chans[p].refs == c.refs
          && (forall d: Debt :: SetCounts(w.log, v.log, p, side, c.At(side), h, d))
          && v.log == Along(w.log, Setting(p, side, c, h, code))
          && (code == 1 <==> granted || (h.callback != 0 <==> SideBit(side) in c.events))
          && (code == 0 || code == 1) && MaskFollows(w, p, v, SideBit(side), h.callback != 0, code))
    && v == w.(reg := v.reg, kernel := v.kernel, chans := v.chans, log := v.log)
  }

  /** The old handler is destroyed before the new one is there, and epoll may refuse the mask after that. */
  function Setting(p: nat, side: Side, c: Chan, h: Handler, code: int): seq<Event> {
    DestroyedBy(p, side, c.At(side)) + [Installed(p, side, h)] + if code == 1 then [] else [Denied(c.descriptor)]
  }

  lemma SetLog(w: World, p: nat, side: Side, h: Handler, granted: bool)
    requires Inv(w) && p in w.chans && w.chans[p].descriptor >= 0
    ensures var (v, code) := SetHandler(w, p, side, h, granted);
            v.log == Along(w.log, Setting(p, side, w.chans[p], h, code))
  {
    hide Inv, Replaced, LoopModify, Along, DestroyedBy, Settle;
    hide TableOk, LinksOk, MasksOk, Lawful;
    var c := w.chans[p];
    var m := if h.callback != 0 then c.events + {SideBit(side)} else c.events - {SideBit(side)};
    ChannelHere(w, p);
    SetsBy(w, p, side, h, granted, m);
    ReplacedFrame(w, p, side, h);
    LoopModifyAnswers(Replaced(w, p, side, h), c.descriptor, m, granted);
    ReplacedLog(w, p, side, h);
    var a, b := DestroyedBy(p, side, c.At(side)), [Installed(p, side, h)];
    var log1 := Along(w.log, a);
    AlongTwice(w.log, a + b, []);
    AlongTwice(w.log, a + b, [Denied(c.descriptor)]);
    AlongTwice(w.log, a, b);
    SettleIs(w.log, p, side, c.At(side));
    AlongOne(log1, Installed(p, side, h));
    AlongNone(Then(log1, Installed(p, side, h)));
    AlongOne(Then(log1, Installed(p, side, h)), Denied(c.descriptor));
    hide SetHandler;
  }

  lemma ReplacedLog(w: World, p: nat, side: Side, h: Handler)
    requires p in w.chans
    ensures Replaced(w, p, side, h).log == Then(Settle(w.log, p, side, w.chans[p].At(side)), Installed(p, side, h))
  {
  }

  /** The old handler was destroyed and the new one installed. */
  ghost predicate SetCounts(was: Trace, log: Trace, p: nat, side: Side, h: Handler, h': Handler, d: Debt) {
    && Destroys(log, p, side, d) == Destroys(was, p, side, d) + Owes(h, d)
    && Installs(log, p, side, d) == Installs(was, p, side, d) + Owes(h', d)
  }

  lemma SetHandlerEffect(w: World, p: nat, side: Side, h: Handler, granted: bool)
    requires Inv(w) && p in w.chans
    ensures var (v, code) := SetHandler(w, p, side, h, granted); HasSet(w, p, side, h, granted, v, code)
  {
    hide Inv, SetHandler, OthersStay, SetCounts, Owes, SideBit, MaskFollows, Along, Setting;
    SetHandlerMeaning(w, p, side, h, granted, Debt(0, 0));
    if w.chans[p].descriptor >= 0 {
      SetHandlerFrame(w, p, side, h, granted);
      SetLog(w, p, side, h, granted);
      forall d: Debt
        ensures SetCounts(w.log, SetHandler(w, p, side, h, granted).0.log, p, side, w.chans[p].At(side), h, d)
      {
        SetHandlerCounts(w, p, side, h, granted, d);
      }
    }
  }

  lemma SetHandlerCounts(w: World, p: nat, side: Side, h: Handler, granted: bool, d: Debt)
    requires Inv(w) && p in w.chans && w.chans[p].descriptor >= 0
    ensures SetCounts(w.log, SetHandler(w, p, side, h, granted).0.log, p, side, w.chans[p].At(side), h, d)
  {
    hide Inv, SetHandler;
    SetHandlerMeaning(w, p, side, h, granted, d);
  }

  /**
   The owner's reference is gone, and the record too unless the channel is being dispatched; it is closed
   and has no callbacks. If it was open exactly its own entry has left the table and the kernel, and it
   was closed; otherwise nothing of this happened. No other channel and no timer is touched.
   */
  ghost predicate HasDestroyed(w: World, p: nat, v: World)
    requires p in w.chans
  {
    var d := w.chans[p].descriptor;
    && v.owned == w.owned - {p} && v.frames == w.frames && v.pools == w.pools && v.timers == w.timers
    && OthersStay(w, p, v)
    && (p in v.chans <==> w.frames[p] > 0)
    && (p in v.chans ==> Silent(v.chans[p]) && v.chans[p].refs == w.frames[p])
    && v.log == Along(w.log, Ending(w, p))
    && if d < 0 then v.reg == w.reg && v.kernel == w.kernel
       else
         && Find(w.reg, d) < |w.reg| && w.reg[Find(w.reg, d)].client == Channel(p)
         && v.reg == Without(w.reg, Find(w.reg, d)) && v.kernel == w.kernel - {d}
  }

  lemma DestroyEffect(w: World, p: nat)
    requires Inv(w) && p in w.owned && p in w.chans
    ensures var r := IoDestroy(w, p);
            && (r.Halt? ==> r.why == CorruptTable && w.gap != 1)
            && (r.Done? ==> Inv(r.value) && HasDestroyed(w, p, r.value))
  {
    hide Inv, IoDestroy, Silent, Without, Find, OthersStay, Along, Ending;
    IoDestroyKeeps(w, p);
    DestroyStops(w, p);
    var r := IoDestroy(w, p);
    if r.Done? {
      var v := r.value;
      DestroyLeavesOthers(w, p);
      DestroyIsPrivate(w, p, p + 1);
      DestroyLog(w, p);
      StoredIffReferred(v, p);
      if p in v.chans { UnownedIsSilent(v, p); }
    }
  }

  /** What io_destroy does, in this order. */
  function Ending(w: World, p: nat): seq<Event>
    requires p in w.chans
  {
    var c, k := w.chans[p], Find(w.reg, w.chans[p].descriptor);
    (if c.descriptor >= 0 && k < |w.reg| then
       [KernelRemoved(w.reg[k].id), Destructed(w.reg[k].id)]
       + Closing(p, c.Mute(Read).Mute(Write).Mute(Disconnect))
     else [])
    + [Released(p)] + (if w.frames[p] > 0 then [] else [Freed(p)])
  }

  lemma DestroyLog(w: World, p: nat)
    requires Inv(w) && p in w.owned && p in w.chans && IoDestroy(w, p).Done?
    ensures IoDestroy(w, p).value.log == Along(w.log, Ending(w, p))
  {
    hide Inv, LoopRemove, MuteAll, Release, Along, Closing;
    MutedIs(w, p);
    MuteAllFrame(w, p);
    MuteAllRecord(w, p);
    var w1, d := MuteAll(w, p), w.chans[p].descriptor;
    HolderIs(w1, d, p);
    StoredIffReferred(w, p);
    var o := LoopRemove(w1, d);
    if d >= 0 {
      Removal(w1, Find(w.reg, d), p);
    } else {
      assert o == Done(w1) by { RemoveNothing(w1, d); }
    }
    var a := if d >= 0 then [KernelRemoved(w.reg[Find(w.reg, d)].id), Destructed(w.reg[Find(w.reg, d)].id)]
                            + Closing(p, w1.chans[p]) else [];
    AlongNone(w.log);
    assert o.value.log == Along(w.log, a);
    ReleaseLog(o.value, p);
    var b := if w.frames[p] > 0 then [] else [Freed(p)];
    AlongTwice(w.log, a + [Released(p)], b);
    AlongTwice(w.log, a, [Released(p)]);
    AlongOne(o.value.log, Released(p));
    AlongNone(Then(o.value.log, Released(p)));
    AlongOne(Then(o.value.log, Released(p)), Freed(p));
  }

  lemma MuteAllRecord(w: World, p: nat)
    requires p in w.chans
    ensures p in MuteAll(w, p).chans && MuteAll(w, p).chans[p] == w.chans[p].Mute(Read).Mute(Write).Mute(Disconnect)
  {
  }

  lemma RemoveNothing(w: World, d: int)
    requires d < 0
    ensures LoopRemove(w, d) == Done(w)
  {
  }

  lemma ReleaseLog(w: World, p: nat)
    requires p in w.chans
    ensures Release(w, p).log
         == (if w.chans[p].refs - 1 != 0 then Then(w.log, Released(p)) else Then(Then(w.log, Released(p)), Freed(p)))
  {
  }

  lemma DestroyLeavesOthers(w: World, p: nat)
    requires Inv(w) && p in w.owned && p in w.chans && IoDestroy(w, p).Done?
    ensures OthersStay(w, p, IoDestroy(w, p).value)
  {
    hide Inv, IoDestroy, Without, Find;
    var v := IoDestroy(w, p).value;
    forall q | q != p ensures (q in v.chans <==> q in w.chans) && (q in v.chans ==> v.chans[q] == w.chans[q]) {
      DestroyIsPrivate(w, p, q);
    }
  }

  lemma DestroyStops(w: World, p: nat)
    requires Inv(w) && p in w.owned && p in w.chans
    ensures var r := IoDestroy(w, p); r.Halt? ==> r.why == CorruptTable && w.gap != 1
  {
    hide Inv, LoopRemove, MuteAll, Release;
    MutedIs(w, p);
    var w1 := MuteAll(w, p);
    if w1.chans[p].descriptor >= 0 { HolderIs(w1, w1.chans[p].descriptor, p); }
    LoopRemoveKeeps(w1, w1.chans[p].descriptor);
  }

  lemma StoredIffReferred(w: World, p: nat)
    requires Inv(w)
    ensures p in w.chans <==> p in w.owned || w.frames[p] > 0
    ensures p in w.chans ==> w.chans[p].refs == One(p in w.owned) + w.frames[p]
  {
    hide TableOk, MirrorOk, LinksOk, RefsOk, SilentOk, MasksOk, TimersOk, HandlersOk, EntryLogOk, ChanLogOk, TimerLogOk,
         LedgerOk, Lawful;
    RefsHere(w.chans, w.owned, w.frames, w.next, p);
  }

  lemma UnownedIsSilent(w: World, p: nat)
    requires Inv(w) && p in w.chans && p !in w.owned
    ensures Silent(w.chans[p])
  {
    hide TableOk, MirrorOk, LinksOk, RefsOk, SilentOk, MasksOk, TimersOk, HandlersOk, EntryLogOk, ChanLogOk, TimerLogOk,
         LedgerOk, Lawful;
    SilentHere(w.chans, w.owned, w.terminate, p);
  }

  /** The state in which io_destroy gives back the owner's reference. */
  lemma RemovedStillStored(w: World, p: nat)
    requires Inv(w) && p in w.owned && p in w.chans
    ensures var w1 := MuteAll(w, p);
            && Inv(w1) && p in w1.chans
            && var r := LoopRemove(w1, w1.chans[p].descriptor);
               r.Done? ==>
                 && p in r.value.chans
                 && InvBeforeDrop(Note(r.value.(owned := r.value.owned - {p}), Released(p)), p)
  {
    hide Inv, LoopRemove, MuteAll, InvBeforeDrop;
    MutedIs(w, p);
    var w1 := MuteAll(w, p);
    if w1.chans[p].descriptor >= 0 { HolderIs(w1, w1.chans[p].descriptor, p); }
    LoopRemoveKeeps(w1, w1.chans[p].descriptor);
    var r := LoopRemove(w1, w1.chans[p].descriptor);
    if r.Done? { ReleasedBeforeDrop(r.value, p); }
  }

  // ------------------------------------------------------------ dispatching

  /** What giving up a handler obliges to: an answer other than 0 to nothing. */
  function DueAfter(value: int, h: Handler, d: Debt): nat {
    if value == 0 then Owes(h, d) else 0
  }

  /**
   Only an answer of 0 changes anything, and then the handler of that side is destroyed and gone, and its
   flag is out of the mask, and out of table and kernel if the channel is registered and epoll grants it.
   */
  ghost predicate HasFinished(w: World, p: nat, side: Side, value: int, granted: bool, v: World)
    requires p in w.chans
  {
    && (value != 0 ==> v == w.(log := v.log))
    && (value == 0 ==>
          && v == w.(reg := v.reg, kernel := v.kernel, chans := v.chans, log := v.log)
          && OthersStay(w, p, v) && p in v.chans
          && v.chans[p] == w.chans[p].Put(side, NO_HANDLER).(events := w.chans[p].events - {SideBit(side)})
          && TableFollows(w, w.chans[p].descriptor, v.chans[p].events, granted, v))
    && forall d: Debt ::
         Destroys(v.log, p, side, d) == Destroys(w.log, p, side, d) + DueAfter(value, w.chans[p].At(side), d)
  }

  lemma FinishEffect(w: World, p: nat, side: Side, value: int, granted: bool)
    requires p in w.chans
    ensures HasFinished(w, p, side, value, granted, Finish(w, p, side, value, granted))
  {
    hide Finish, OthersStay, DueAfter, TableFollows;
    FinishFrame(w, p, side, value, granted);
    forall d: Debt
      ensures Destroys(Finish(w, p, side, value, granted).log, p, side, d)
           == Destroys(w.log, p, side, d) + DueAfter(value, w.chans[p].At(side), d)
    {
      FinishCounts(w, p, side, value, granted, d);
    }
  }

  lemma FinishCounts(w: World, p: nat, side: Side, value: int, granted: bool, d: Debt)
    requires p in w.chans
    ensures Destroys(Finish(w, p, side, value, granted).log, p, side, d)
         == Destroys(w.log, p, side, d) + DueAfter(value, w.chans[p].At(side), d)
  {
    var h, open := w.chans[p].At(side), w.chans[p].descriptor >= 0;
    var log1 := Then(w.log, Returned(p, side, h, value, open));
    var log2 := Settle(log1, p, side, h);
    assert Destroys(log1, p, side, d) == Destroys(w.log, p, side, d);
    SettledHandlers(log1, p, side, h, p, side, d);
    HandlerUnheard(log2, Denied(w.chans[p].descriptor), p, side, d);
    hide Settle;
  }

  /** A callback is told whether its channel is open. */
  function Calling(w: World, p: nat, side: Side): World
    requires p in w.chans
  {
    Note(w, Called(p, side, w.chans[p].At(side), w.chans[p].descriptor >= 0))
  }

  lemma ServedMeets(w: World, p: nat, side: Side, s: Script)
    requires p in w.chans
    ensures Serve(w, p, side, s).Done? ==> Meets(w, p, side, Serve(w, p, side, s).value)
  {
    hide Serve, Meets;
    if Serve(w, p, side, s).Done? { ServeMeets(w, p, side, s); }
  }

  lemma NothingServes(w: World, p: nat, side: Side, s: Script)
    requires p in w.chans
    ensures w.chans[p].At(side).callback == 0 ==> Serve(w, p, side, s) == Done(w)
  {
  }

  lemma ServesBy(w: World, p: nat, side: Side, s: Script)
    requires Inv(w) && p in w.chans && w.chans[p].At(side).callback != 0
    ensures Inv(Calling(w, p, side))
    ensures var r := RunScript(Calling(w, p, side), s);
            && (r.Halt? ==> Serve(w, p, side, s) == Halt(r.why, r.at))
            && (r.Done? && p in r.value.w.chans ==>
                  var v := Finish(r.value.w, p, side, r.value.value, r.value.granted);
                  Serve(w, p, side, s) == Done(v) && v.frames == r.value.w.frames && v.pools == r.value.w.pools)
  {
    hide Inv, RunScript, Finish;
    CalledKeeps(w, p, side);
    var r := RunScript(Calling(w, p, side), s);
    if r.Done? && p in r.value.w.chans { FinishFrame(r.value.w, p, side, r.value.value, r.value.granted); }
  }

  lemma MutedForHangUp(w: World, p: nat)
    requires Inv(w) && p in w.chans
    ensures Inv(Mute(Mute(w, p, Read), p, Write))
  {
    hide Inv;
    MuteKeeps(w, p, Read);
    MuteKeeps(Mute(w, p, Read), p, Write);
  }

  /** A reaction of the other kind stops the run, before anything has happened. */
  lemma ReactionFits(w: World, k: nat, flags: Mask, r: Reaction)
    requires k < |w.reg|
    ensures w.reg[k].client.Channel? && !r.OnChannel? ==>
              RunEvent(w, w.reg[k].id, w.reg[k].client, flags, r) == Halt(Impossible, w)
    ensures w.reg[k].client.Timer? && !r.OnTimer? ==>
              RunEvent(w, w.reg[k].id, w.reg[k].client, flags, r) == Halt(Impossible, w)
  {
    hide Dispatch, RunScript, Enter, Leave;
  }

  /** The channel is closed and its entry gone. */
  ghost predicate IsHungUp(v: World, id: nat, p: nat) {
    FindId(v.reg, id) == |v.reg| && (p in v.chans ==> v.chans[p].descriptor == -1)
  }

  /** So it is after a hang-up without a callback. */
  lemma HangUpEffect(was: World, id: nat, p: nat, flags: Mask, r: Reaction)
    requires Inv(was) && FindId(was.reg, id) < |was.reg| && was.reg[FindId(was.reg, id)].client == Channel(p)
    requires p in was.chans && was.chans[p].disconnect.callback == 0
    requires HangsUp(flags) && r.OnChannel? && RunEvent(was, id, Channel(p), flags, r).Done?
    ensures IsHungUp(RunEvent(was, id, Channel(p), flags, r).value, id, p)
  {
    hide Inv, LoopRemove, Leave, Enter, Mute, Transfer, Serve;
    DrawKeeps(was, id);
    var w0 := Drawn(was, id);
    var w := Enter(w0, p);
    EnterKeeps(w0, p);
    EnterFrame(w0, p);
    MutedForHangUp(w, p);
    MuteFrame(w, p, Read);
    MuteFrame(Mute(w, p, Read), p, Write);
    var w1 := Mute(Mute(w, p, Read), p, Write);
    var o := LoopRemove(w1, w1.chans[p].descriptor);
    assert Dispatch(w, p, flags, r) == o;
    HungUp(w1, FindId(was.reg, id), p);
    LeaveFrame(o.value, p);
  }

  lemma HungUp(w: World, k: nat, p: nat)
    requires Inv(w) && k < |w.reg| && w.reg[k].client == Channel(p) && p in w.chans
    requires forall side: Side :: w.chans[p].At(side).callback == 0
    ensures var o := LoopRemove(w, w.chans[p].descriptor);
            o.Done? ==> p in o.value.chans && IsHungUp(o.value, w.reg[k].id, p)
  {
    hide Inv, LoopRemove, Without, TableOk;
    var d := w.chans[p].descriptor;
    EntryOfChannel(w, k, p);
    LoopRemoveKeeps(w, d);
    var o := LoopRemove(w, d);
    if o.Done? {
      RemovedSlot(w, d);
      InTableAfterDelete(w.reg, w.next, k, w.reg[k].id);
    }
  }

  lemma EntryOfChannel(w: World, k: nat, p: nat)
    requires Inv(w) && k < |w.reg| && w.reg[k].client == Channel(p) && p in w.chans
    ensures w.chans[p].descriptor == w.reg[k].sd >= 0 && Find(w.reg, w.reg[k].sd) == k && TableOk(w.reg, w.next)
  {
    hide MirrorOk, RefsOk, SilentOk, MasksOk, TimersOk, HandlersOk, EntryLogOk, ChanLogOk, TimerLogOk, LedgerOk, Lawful;
    assert EntryLinked(w.reg[k], w.chans, w.owned);
    FindIs(w.reg, w.next, k);
  }

  lemma RemovedSlot(w: World, d: int)
    requires d >= 0 && Find(w.reg, d) < |w.reg| && LoopRemove(w, d).Done?
    ensures LoopRemove(w, d).value.reg == Without(w.reg, Find(w.reg, d))
  {
    hide Retire, Shift, Without;
    RetireLeaves(w.(reg := Shift(w.reg, Find(w.reg, d), w.gap)), w.reg[Find(w.reg, d)]);
  }

  // ------------------------------------------------------------ timers

  /** The descriptor is closed, the data destroyed if asked for, and the record freed, each once and in this order. */
  ghost predicate HasDisposed(w: World, t: nat, v: World)
    requires t in w.timers
  {
    var r := w.timers[t];
    && v == w.(timers := w.timers - {t}, log := Along(w.log, Disposing(t, r)))
    && Times(v.log, TimerFreed(t)) == Times(w.log, TimerFreed(t)) + 1
    && (forall fd: int :: Times(v.log, TimerClosed(t, fd)) == Times(w.log, TimerClosed(t, fd)) + One(fd == r.id))
    && forall d: nat ::
         Times(v.log, TimerDestroyed(t, d))
         == Times(w.log, TimerDestroyed(t, d)) + One(r.destructor != 0 && d == r.data)
  }

  lemma DisposeEffect(w: World, t: nat)
    requires t in w.timers
    ensures HasDisposed(w, t, TimerDestructor(w, t))
  {
    hide TimerFreedLog, Times, TimerDestructor, Along, Disposing;
    DisposingIs(w.log, t, w.timers[t]);
    TimerFreedHere(w.log, t, w.timers[t]);
    DestructorIs(w, t);
  }

  lemma DestructorIs(w: World, t: nat)
    requires t in w.timers
    ensures TimerDestructor(w, t) == w.(timers := w.timers - {t}, log := TimerFreedLog(w.log, t, w.timers[t]))
  {
  }

  /**
   Without a descriptor nothing happens, but the code is positive. Without memory in the loop nothing is
   left of the timer; otherwise its record is in use, and it is registered, for input and once, only if
   epoll took the descriptor.
   */
  ghost predicate HasMade(w: World, fd: int, data: nat, destructor: nat, answer: Answer, v: World, code: int) {
    && (fd < 0 ==> v == w && code > 0)
    && (fd >= 0 ==> code == if answer.NoTable? || answer.NoEntry? then -EIO else fd)
    && (code < 0 ==> Inv(v) && v.timers == w.timers && v.reg == w.reg && v.kernel == w.kernel)
    && (fd >= 0 && code >= 0 ==>
          && v.timers == w.timers[w.next := TimerRecord(fd, data, destructor, true)]
          && (Registered(v.reg, fd, Timer(w.next)) <==> EpollTakes(w, fd, answer))
          && TableGains(w, fd, {IN, ONESHOT}, Timer(w.next), EpollTakes(w, fd, answer), v)
          && (EpollTakes(w, fd, answer) ==> Inv(v)))
    && v.chans == w.chans && v.owned == w.owned && v.frames == w.frames && v.pools == w.pools
  }

  lemma NewTimerEffect(w: World, fd: int, data: nat, destructor: nat, answer: Answer)
    requires Inv(w)
    ensures var (v, code) := CreateTimer(w, fd, data, destructor, answer);
            HasMade(w, fd, data, destructor, answer, v, code)
  {
    hide Inv, StartTimer, Registered, EpollTakes, Armings, TableGains;
    CreateTimerKeeps(w, fd, data, destructor, answer);
    FreshAddress(w, w.next);
    if fd >= 0 {
      NewTimerIs(w, fd, data, destructor, answer);
      TimerRegisteredIffTaken(w, fd, data, destructor, answer);
    }
  }

  lemma NewTimerIs(w: World, fd: int, data: nat, destructor: nat, answer: Answer)
    requires fd >= 0 && w.next !in w.timers
    ensures var (v, code) := StartTimer(w, fd, data, destructor, answer);
            && code == (if answer.NoTable? || answer.NoEntry? then -EIO else fd)
            && (code < 0 ==> v.timers == w.timers && v.reg == w.reg && v.kernel == w.kernel)
            && (code >= 0 ==>
                  && v.timers == w.timers[w.next := TimerRecord(fd, data, destructor, true)]
                  && (|v.reg| != |w.reg| <==> EpollTakes(w, fd, answer))
                  && TableGains(w, fd, {IN, ONESHOT}, Timer(w.next), EpollTakes(w, fd, answer), v))
            && v.chans == w.chans && v.owned == w.owned && v.frames == w.frames && v.pools == w.pools
  {
    hide LoopAdd, TableGains;
    var t, r := w.next, TimerRecord(fd, data, destructor, true);
    var w1 := Note(Note(w.(next := t + 1, timers := w.timers[t := r]), TimerOpened(t, fd, data, destructor)), Armed(t));
    LoopAddIs(w1, fd, {IN, ONESHOT}, Timer(t), answer);
    AddCode(w1, fd, {IN, ONESHOT}, Timer(t), answer);
    if !answer.NoTable? && !answer.NoEntry? {
      AddGains(w1, fd, {IN, ONESHOT}, Timer(t), answer);
      SameGains(w1, w, fd, {IN, ONESHOT}, Timer(t), EpollTakes(w, fd, answer),
                LoopAdd(w1, fd, {IN, ONESHOT}, Timer(t), answer).0, StartTimer(w, fd, data, destructor, answer).0);
    }
    assert w1.timers - {t} == w.timers;
  }

  /** An event of a timer that has not expired, or an error, is taken from the pool and no more; otherwise it fires. */
  lemma TimerRuns(w: World, id: nat, t: nat, flags: Mask, r: Reaction)
    requires t in w.timers && r.OnTimer? && id == EntryOf(t)
    ensures if flags * {ERR, HUP} != {} || !r.expired || !w.timers[t].pending then
              RunEvent(w, id, Timer(t), flags, r) == Done(Drawn(w, id))
            else
              RunEvent(w, id, Timer(t), flags, r) == Ended(RunScript(Firing(w, t), r.callback))
  {
    hide RunScript;
  }

  /** The call succeeds, and counts as one more arming for input, exactly if epoll grants it. */
  ghost predicate HasChanged(w: World, t: nat, timeout: bool, granted: bool, v: World, code: int)
    requires t in w.timers
  {
    && (code == 0 <==> granted) && (code == 0 || code == -EIO)
    && v == w.(timers := v.timers, reg := v.reg, kernel := v.kernel, log := v.log)
    && v.timers == w.timers[t := w.timers[t].(pending := w.timers[t].pending || timeout)]
    && Armings(v.log, t) == Armings(w.log, t) + One(granted)
    && TableFollows(w, w.timers[t].id, {IN, ONESHOT}, granted, v)
  }

  lemma ModifyTimerEffect(w: World, t: nat, timeout: bool, granted: bool)
    requires Inv(w) && t in w.timers
    ensures var (v, code) := ModifyTimer(w, t, timeout, granted);
            Inv(v) && HasChanged(w, t, timeout, granted, v, code)
  {
    hide Inv, ModifyTimer, Armings, TableFollows;
    ModifyTimerKeeps(w, t, timeout, granted);
    ModifyTimerMeaning(w, t, timeout, granted);
    ModifyTimerFrame(w, t, timeout, granted);
  }

  lemma ModifyTimerFrame(w: World, t: nat, timeout: bool, granted: bool)
    requires t in w.timers
    ensures var v := ModifyTimer(w, t, timeout, granted).0;
            && v == w.(timers := v.timers, reg := v.reg, kernel := v.kernel, log := v.log)
            && v.timers == w.timers[t := w.timers[t].(pending := w.timers[t].pending || timeout)]
            && TableFollows(w, w.timers[t].id, {IN, ONESHOT}, granted, v)
  {
    hide LoopModify, TableFollows;
    var w1 := if timeout then Note(w.(timers := w.timers[t := w.timers[t].(pending := true)]), Armed(t)) else w;
    ModifyFrame(w1, w1.timers[t].id, {IN, ONESHOT}, granted);
    SameTableFollows(w1, w, w.timers[t].id, {IN, ONESHOT}, granted,
                     LoopModify(w1, w.timers[t].id, {IN, ONESHOT}, granted).0, ModifyTimer(w, t, timeout, granted).0);
    assert w.timers[t := w.timers[t].(pending := w.timers[t].pending)] == w.timers;
  }
}

/** What single calls do to a channel, its entry and its masks, and when a channel is not registered. */
module ChannelTheorems {
  import opened Events
  import opened LoopTable
  import opened World
  import opened Lifecycle
  import opened Invariant
  import opened Frames
  import opened Pools
  import opened Steps
  import opened StepsTable
  import opened StepsChannel
  import opened StepsRetire
  import opened StepsAdd
  import opened Runs
  import opened Theorems

  // ------------------------------------------------------------ masks

  lemma EntryMaskHere(w: World, p: nat)
    requires Inv(w) && !AnyDenied(w.log) && p in w.chans && w.chans[p].descriptor >= 0
    ensures var k := Find(w.reg, w.chans[p].descriptor);
            && k < |w.reg| && w.reg[k].client == Channel(p) && w.reg[k].mask == w.chans[p].events
    ensures w.chans[p].descriptor in w.kernel && w.kernel[w.chans[p].descriptor].mask == w.chans[p].events
  {
    hide TableOk, LinksOk, RefsOk, SilentOk, TimersOk, HandlersOk, EntryLogOk, ChanLogOk, TimerLogOk, LedgerOk, Lawful;
    LinkHere(w.reg, w.chans, w.owned, p);
    assert EntryMaskAgrees(w.reg[Find(w.reg, w.chans[p].descriptor)], w.chans);
  }

  /**
   Wherever a run in which epoll granted every change of a mask ends or stops, the mask of an open
   channel, of its table entry and in the kernel are the same and ask for the event of every callback.
   */
  lemma MasksAgree(gap: nat, s: Script, p: nat)
    requires var w := Last(Run(gap, s)); !AnyDenied(w.log) && p in w.chans && w.chans[p].descriptor >= 0
    ensures var w := Last(Run(gap, s));
            var c := w.chans[p];
            var k := Find(w.reg, c.descriptor);
            && k < |w.reg| && w.reg[k].client == Channel(p)
            && c.descriptor in w.kernel
            && c.events == w.reg[k].mask == w.kernel[c.descriptor].mask
            && forall side: Side :: c.At(side).callback != 0 ==> SideBit(side) in c.events
  {
    hide Run, Inv, TableOk, LinksOk, MasksOk, Lawful, Happened, AnyDenied;
    LastIsRight(gap, s);
    var w := Last(Run(gap, s));
    EntryMaskHere(w, p);
    ChannelHere(w, p);
  }

  /** One flag is set or cleared, and the others stay. */
  ghost predicate FlagSet(was: Mask, m: Mask, f: Flag, on: bool) {
    forall g: Flag :: g in m <==> if g == f then on else g in was
  }

  /** The mask of an open channel after a call that returns 1 for success, and what table and kernel know of it. */
  ghost predicate MaskFollows(w: World, p: nat, v: World, f: Flag, on: bool, code: int)
    requires p in w.chans && p in v.chans
  {
    var c, m, k := w.chans[p], v.chans[p].events, Find(w.reg, w.chans[p].descriptor);
    && (code == 1 ==> FlagSet(c.events, m, f, on))
    && (code != 1 ==> m == c.events)
    && (m == c.events ==> v.reg == w.reg && v.kernel == w.kernel)
    && (m != c.events ==>
          && k < |w.reg| && w.reg[k].client == Channel(p) && v.reg == w.reg[k := w.reg[k].(mask := m)]
          && v.kernel == w.kernel[c.descriptor := Interest(w.reg[k].id, m, true)])
  }

  /**
   Setting a handler destroys the old one and stores the new one on every open channel, whatever it
   returns. It returns 1 unless the mask had to change and epoll refused; then it returns 0 with the
   new handler in place, and a new callback is not asked for. If it returns 1 the flag of that side is
   in the mask exactly if there is a callback, and every other flag exactly if it was; table and kernel
   follow where the mask changes. If epoll has refused no change before, the mask covers the callbacks
   otherwise. On a closed channel it does nothing and returns 0.
   */
  lemma SetHandlerMeaning(w: World, p: nat, side: Side, h: Handler, granted: bool, d: Debt)
    requires Inv(w) && p in w.chans
    ensures var (v, code) := SetHandler(w, p, side, h, granted);
            var c := w.chans[p];
            if c.descriptor < 0 then v == w && code == 0
            else
              && p in v.chans && v.chans[p].At(side) == h && v.chans[p].descriptor == c.descriptor
              && Destroys(v.log, p, side, d) == Destroys(w.log, p, side, d) + Owes(c.At(side), d)
              && Installs(v.log, p, side, d) == Installs(w.log, p, side, d) + Owes(h, d)
              && (code == 1 <==> granted || (h.callback != 0 <==> SideBit(side) in c.events))
              && (code == 0 || code == 1)
              && MaskFollows(w, p, v, SideBit(side), h.callback != 0, code)
              && (!AnyDenied(w.log) ==>
                    (Covered(v.chans[p]) <==> granted || h.callback == 0 || SideBit(side) in c.events))
  {
    hide Inv, SetHandler, MaskFollows;
    if w.chans[p].descriptor >= 0 {
      SetHandlerLog(w, p, side, h, granted, d);
      SetHandlerState(w, p, side, h, granted);
    } else {
      SetHandlerClosed(w, p, side, h, granted);
    }
  }

  lemma SetHandlerClosed(w: World, p: nat, side: Side, h: Handler, granted: bool)
    requires p in w.chans && w.chans[p].descriptor < 0
    ensures SetHandler(w, p, side, h, granted) == (w, 0)
  {
  }

  lemma SetHandlerState(w: World, p: nat, side: Side, h: Handler, granted: bool)
    requires Inv(w) && p in w.chans && w.chans[p].descriptor >= 0
    ensures var (v, code) := SetHandler(w, p, side, h, granted);
            var c := w.chans[p];
            && p in v.chans && v.chans[p].At(side) == h && v.chans[p].descriptor == c.descriptor
            && (code == 1 <==> granted || (h.callback != 0 <==> SideBit(side) in c.events))
            && (code == 0 || code == 1)
            && MaskFollows(w, p, v, SideBit(side), h.callback != 0, code)
            && (!AnyDenied(w.log) ==>
                  (Covered(v.chans[p]) <==> granted || h.callback == 0 || SideBit(side) in c.events))
  {
    hide Inv, Replaced, TableOk, LinksOk, MasksOk, Lawful, LoopModify, SetHandler;
    ChannelHere(w, p);
    ReplacedFrame(w, p, side, h);
    var c := w.chans[p];
    var m := if h.callback != 0 then c.events + {SideBit(side)} else c.events - {SideBit(side)};
    SetsBy(w, p, side, h, granted, m);
    assert m == c.events <==> (h.callback != 0 <==> SideBit(side) in c.events);
    LoopModifyAnswers(Replaced(w, p, side, h), c.descriptor, m, granted);
  }

  /** A registered descriptor's mask is changed if epoll grants it; nothing else changes. */
  lemma LoopModifyAnswers(w: World, sd: int, m: Mask, granted: bool)
    requires sd >= 0 && Find(w.reg, sd) < |w.reg|
    ensures var (v, code) := LoopModify(w, sd, m, granted);
            var k := Find(w.reg, sd);
            && (code >= 0 <==> granted) && v.chans == w.chans
            && v.reg == (if granted then Remasked(w.reg, k, m) else w.reg)
            && v.kernel == (if granted then w.kernel[sd := Interest(w.reg[k].id, m, true)] else w.kernel)
            && (v.log == if granted then w.log else Then(w.log, Denied(sd)))
  {
  }

  lemma SetHandlerLog(w: World, p: nat, side: Side, h: Handler, granted: bool, d: Debt)
    requires p in w.chans && w.chans[p].descriptor >= 0
    ensures var v := SetHandler(w, p, side, h, granted).0;
            && Destroys(v.log, p, side, d) == Destroys(w.log, p, side, d) + Owes(w.chans[p].At(side), d)
            && Installs(v.log, p, side, d) == Installs(w.log, p, side, d) + Owes(h, d)
  {
    var v := SetHandler(w, p, side, h, granted).0;
    var log1 := Settle(w.log, p, side, w.chans[p].At(side));
    var log2 := Then(log1, Installed(p, side, h));
    SettledHandlers(w.log, p, side, w.chans[p].At(side), p, side, d);
    assert Destroys(log2, p, side, d) == Destroys(log1, p, side, d);
    assert v.log == log2 || v.log == Then(log2, Denied(w.chans[p].descriptor));
    HandlerUnheard(log2, Denied(w.chans[p].descriptor), p, side, d);
  }

  /**
   After a callback of an open channel has answered 0, its handler is gone and so is its flag, and no
   other, and the channel is still registered. If epoll has refused no change before, channel and entry
   agree on the mask exactly if epoll granted the change or there was nothing to change.
   */
  lemma GivingUpMeaning(w: World, p: nat, side: Side, granted: bool)
    requires Inv(w) && p in w.chans && w.chans[p].descriptor >= 0
    ensures var v := Finish(w, p, side, 0, granted);
            var c := w.chans[p];
            var k := Find(w.reg, c.descriptor);
            && p in v.chans && v.chans[p].At(side) == NO_HANDLER
            && FlagSet(c.events, v.chans[p].events, SideBit(side), false)
            && k < |v.reg| && v.reg[k].client == Channel(p)
            && (!AnyDenied(w.log) ==> (v.reg[k].mask == v.chans[p].events <==> granted || SideBit(side) !in c.events))
  {
    hide Inv, GivenUp, LoopModify, TableOk, LinksOk, MasksOk, Lawful, Happened, AnyDenied;
    ChannelHere(w, p);
    if !AnyDenied(w.log) { EntryMaskHere(w, p); }
    var c, w1 := w.chans[p], Note(w, Returned(p, side, w.chans[p].At(side), 0, true));
    GivenUpFrame(w1, p, side);
    LoopModifyAnswers(GivenUp(w1, p, side), c.descriptor, c.events - {SideBit(side)}, granted);
    assert c.events - {SideBit(side)} == c.events <==> SideBit(side) !in c.events;
  }

  // ------------------------------------------------------------ destroying a channel concerns nobody else

  /**
   io_destroy of a channel leaves every other channel and every timer as it was. If the channel is
   open exactly its own entry leaves the table and the kernel; if it has been closed already, by a
   hang-up or by a quit, nothing does, even if its old descriptor number is in use again.
   */
  lemma DestroyIsPrivate(w: World, p: nat, q: nat)
    requires Inv(w) && p in w.owned && p in w.chans && q != p
    requires IoDestroy(w, p).Done?
    ensures var v := IoDestroy(w, p).value;
            var d := w.chans[p].descriptor;
            var k := Find(w.reg, d);
            && (q in v.chans <==> q in w.chans) && (q in w.chans ==> v.chans[q] == w.chans[q])
            && v.timers == w.timers && v.owned == w.owned - {p}
            && (d < 0 ==> v.reg == w.reg && v.kernel == w.kernel)
            && (d >= 0 ==> k < |w.reg| && w.reg[k].client == Channel(p)
                           && v.reg == Without(w.reg, k) && v.kernel == w.kernel - {d})
  {
    hide Inv, LoopRemove, MuteAll, Release;
    MutedIs(w, p);
    MuteAllFrame(w, p);
    var w1 := MuteAll(w, p);
    var d := w1.chans[p].descriptor;
    HolderIs(w1, d, p);
    RemoveIs(w1, d, p);
    ReleaseFrame(LoopRemove(w1, d).value, p);
  }

  lemma RemoveIs(w: World, d: int, p: nat)
    requires Inv(w) && p in w.chans && w.chans[p].descriptor == d && Silent(w.chans[p].(descriptor := -1))
    requires d >= 0 ==> Find(w.reg, d) < |w.reg| && w.reg[Find(w.reg, d)].client == Channel(p)
    requires LoopRemove(w, d).Done?
    ensures var v := LoopRemove(w, d).value;
            && v.timers == w.timers && v.owned == w.owned && v.chans.Keys == w.chans.Keys
            && (forall q :: q in w.chans && q != p ==> v.chans[q] == w.chans[q])
            && (d < 0 ==> v == w)
            && (d >= 0 ==> v.reg == Without(w.reg, Find(w.reg, d)) && v.kernel == w.kernel - {d})
  {
    hide Core, Retire, Without, Shift, DestroyedLog, RetiredLog;
    if d >= 0 {
      RetireChannelKeeps(w, Find(w.reg, d));
    }
  }

  // ------------------------------------------------------------ registration

  lemma RegisteredClients(w: World, sd: int, p: nat)
    requires Inv(w) && p !in w.owned
    ensures !Registered(w.reg, sd, Channel(p))
  {
    hide TableOk, MirrorOk, RefsOk, SilentOk, MasksOk, TimersOk, HandlersOk, EntryLogOk, ChanLogOk, TimerLogOk,
         LedgerOk, Lawful;
    assert forall i :: 0 <= i < |w.reg| ==> EntryLinked(w.reg[i], w.chans, w.owned);
  }

  /**
   io_new returns a channel for every answer of epoll_ctl, but the channel is registered under its
   descriptor if and only if epoll took the descriptor.
   */
  lemma RegisteredIffTaken(w: World, fd: int, answer: Answer)
    requires Inv(w) && fd >= 0 && !answer.NoTable? && !answer.NoEntry?
    ensures var r := IoNew(w, fd, answer);
            && r.channel && r.p in r.w.chans && r.p in r.w.owned && r.w.chans[r.p].descriptor == fd
            && (Registered(r.w.reg, fd, Channel(r.p)) <==> EpollTakes(w, fd, answer))
  {
    hide Inv, LoopAdd;
    FreshAddress(w, w.next);
    RegisteredClients(w, fd, w.next);
    var p, c := w.next, Chan(0, fd, {}, false, NO_HANDLER, NO_HANDLER, NO_HANDLER);
    var w0 := w.(next := p + 1, chans := w.chans[p := c]);
    LoopAddIs(w0, fd, {}, Channel(p), answer);
    LoopAddAnswers(w0, fd, {}, Channel(p), answer);
    var v := LoopAdd(w0, fd, {}, Channel(p), answer).0;
    if EpollTakes(w, fd, answer) {
      WatchedIffRegistered(w, fd);
      var e: Row := Entry(p + 1, fd, {}, Channel(p));
      RegisteredAfterAdd(w.reg, e, fd, Channel(p));
      assert v.reg == w.reg + [e];
    }
  }

  lemma LoopAddAnswers(w: World, sd: int, mask: Mask, client: Client, answer: Answer)
    requires sd >= 0 && !answer.NoTable? && !answer.NoEntry?
    ensures var (v, code) := LoopAdd(w, sd, mask, client, answer);
            && code >= 0 && (|v.reg| != |w.reg| <==> EpollTakes(w, sd, answer))
  {
  }

  /**
   A second channel on the descriptor of an open one is handed out although epoll refuses it, and
   destroying it closes the first channel under its owner.
   */
  lemma OrphanClosesAnother(w: World, q: nat, answer: Answer)
    requires Inv(w) && q in w.chans && w.chans[q].descriptor >= 0 && !answer.NoTable? && !answer.NoEntry?
    ensures var r := IoNew(w, w.chans[q].descriptor, answer);
            && r.channel && r.p in r.w.chans && r.p != q
            && var o := IoDestroy(r.w, r.p);
               && (w.gap == 1 || (w.gap == 2 && Find(w.reg, w.chans[q].descriptor) + 1 == |w.reg|) ==> o.Done?)
               && (o.Done? ==>
                     && q in o.value.chans && o.value.chans[q].descriptor == -1
                     && q in o.value.owned && |o.value.reg| == |w.reg| - 1)
  {
    hide Inv, LoopAdd, IoDestroy, TableOk, LinksOk, MasksOk, Lawful;
    var fd := w.chans[q].descriptor;
    FreshAddress(w, w.next);
    ChannelHere(w, q);
    SilentOwner(w, q);
    WatchedIffRegistered(w, fd);
    var p, c := w.next, Chan(0, fd, {}, false, NO_HANDLER, NO_HANDLER, NO_HANDLER);
    var w0 := w.(next := p + 1, chans := w.chans[p := c]);
    LoopAddIs(w0, fd, {}, Channel(p), answer);
    LoopAddAnswers(w0, fd, {}, Channel(p), answer);
    var r := IoNew(w, fd, answer);
    OrphanDestroyed(r.w, r.p, q);
  }

  lemma SilentOwner(w: World, q: nat)
    requires Inv(w) && q in w.chans && w.chans[q].descriptor >= 0
    ensures q in w.owned
  {
    hide TableOk, MirrorOk, LinksOk, RefsOk, SilentOk, MasksOk, TimersOk, HandlersOk, EntryLogOk, ChanLogOk,
         TimerLogOk, LedgerOk, Lawful;
    SilentHere(w.chans, w.owned, w.terminate, q);
  }

  lemma OrphanDestroyed(w: World, p: nat, q: nat)
    requires p in w.chans && q in w.chans && p != q && q in w.owned
    requires w.chans[p].descriptor == w.chans[q].descriptor >= 0
    requires var k := Find(w.reg, w.chans[q].descriptor); k < |w.reg| && w.reg[k].client == Channel(q)
    ensures var o := IoDestroy(w, p);
            && (w.gap == 1 || (w.gap == 2 && Find(w.reg, w.chans[q].descriptor) + 1 == |w.reg|) ==> o.Done?)
            && (o.Done? ==>
                  && q in o.value.chans && o.value.chans[q].descriptor == -1 && q in o.value.owned
                  && |o.value.reg| == |w.reg| - 1)
  {
    hide Release, MuteAll, LoopRemove;
    MuteAllFrame(w, p);
    var w1 := MuteAll(w, p);
    RemovalClosesHolder(w1, q);
    var r := LoopRemove(w1, w1.chans[p].descriptor);
    if r.Done? { ReleaseFrame(r.value, p); }
  }

  lemma RemovalClosesHolder(w: World, q: nat)
    requires q in w.chans && w.chans[q].descriptor >= 0
    requires var k := Find(w.reg, w.chans[q].descriptor); k < |w.reg| && w.reg[k].client == Channel(q)
    ensures var o := LoopRemove(w, w.chans[q].descriptor);
            && (w.gap == 1 || (w.gap == 2 && Find(w.reg, w.chans[q].descriptor) + 1 == |w.reg|) ==> o.Done?)
            && (o.Done? ==>
                  && o.value.chans == w.chans[q := w.chans[q].(descriptor := -1)]
                  && o.value.owned == w.owned && |o.value.reg| == |w.reg| - 1)
  {
    hide Settle;
  }
}

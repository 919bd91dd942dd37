/** The operations of io.c keep the invariant. */
module StepsChannel {
  import opened Events
  import opened LoopTable
  import opened World
  import opened Frames
  import opened Invariant
  import opened Steps
  import opened StepsTable
  import opened StepsLedger

  // ------------------------------------------------------------ a handler is replaced

  lemma SettledHandlers(log: Trace, p: nat, side: Side, h: Handler, q: nat, s: Side, d: Debt)
    ensures Installs(Settle(log, p, side, h), q, s, d) == Installs(log, q, s, d)
    ensures Stales(Settle(log, p, side, h), q, s, d) == Stales(log, q, s, d)
    ensures Destroys(Settle(log, p, side, h), q, s, d) == Destroys(log, q, s, d) + Here(p, side, h, q, s, d)
  {
  }

  lemma HandlersAfterSet(log: Trace, chans: Chans, p: nat, side: Side, h: Handler)
    requires HandlersOk(log, chans) && p in chans && chans[p].descriptor >= 0
    ensures HandlersOk(Then(Settle(log, p, side, chans[p].At(side)), Installed(p, side, h)),
                       chans[p := chans[p].Put(side, h)])
  {
    var c := chans[p];
    var log1 := Settle(log, p, side, c.At(side));
    var log2, chans' := Then(log1, Installed(p, side, h)), chans[p := c.Put(side, h)];
    forall q: nat, s: Side, d: Debt ensures HandlersAt(log2, LiveAt(chans', q, s, d), q, s, d) {
      assert HandlersAt(log, LiveAt(chans, q, s, d), q, s, d);
      SettledHandlers(log, p, side, c.At(side), q, s, d);
    }
  }

  lemma HandlersAfterFinish(log: Trace, chans: Chans, p: nat, side: Side, events: Mask)
    requires HandlersOk(log, chans) && p in chans
    ensures var c := chans[p];
            HandlersOk(Settle(Then(log, Returned(p, side, c.At(side), 0, c.descriptor >= 0)), p, side, c.At(side)),
                       chans[p := c.Put(side, NO_HANDLER).(events := events)])
  {
    var c := chans[p];
    var log1 := Then(log, Returned(p, side, c.At(side), 0, c.descriptor >= 0));
    var log2, chans' := Settle(log1, p, side, c.At(side)), chans[p := c.Put(side, NO_HANDLER).(events := events)];
    forall q: nat, s: Side, d: Debt ensures HandlersAt(log2, LiveAt(chans', q, s, d), q, s, d) {
      assert HandlersAt(log, LiveAt(chans, q, s, d), q, s, d);
      SettledHandlers(log1, p, side, c.At(side), q, s, d);
    }
  }

  /** Events that only the handler balance hears, appended one after the other. */
  ghost predicate OnlyHandlersHear(a: Trace, b: Trace)
    decreases b
  {
    a == b || (b.Then? && OnlyHandlersHear(a, b.past)
               && !AboutEntry(b.last) && !AboutChan(b.last) && !AboutTimer(b.last))
  }

  lemma OthersHear(a: Trace, b: Trace, reg: Registry, chans: Chans, owned: set<nat>, frames: multiset<nat>,
                   timers: Timers, next: nat)
    requires OnlyHandlersHear(a, b)
    requires EntryLogOk(a, reg, next) && ChanLogOk(a, chans, owned, frames, next) && TimerLogOk(a, timers, next)
    requires MasksOk(reg, chans, AnyDenied(a))
    ensures EntryLogOk(b, reg, next) && ChanLogOk(b, chans, owned, frames, next) && TimerLogOk(b, timers, next)
    ensures MasksOk(reg, chans, AnyDenied(b))
    decreases b
  {
    hide EntryLogOk, ChanLogOk, TimerLogOk, MasksOk;
    if a != b {
      OthersHear(a, b.past, reg, chans, owned, frames, timers, next);
      EntryLogHears(b.past, b.last, reg, next);
      ChanLogHears(b.past, b.last, chans, owned, frames, next);
      TimerLogHears(b.past, b.last, timers, next);
      MasksHear(reg, chans, b.past, b.last);
    }
  }

  lemma LawfulSettle(log: Trace, p: nat, side: Side, h: Handler)
    requires Lawful(log) && Happened(log, Opened(p)) && !Happened(log, Freed(p))
    ensures Lawful(Settle(log, p, side, h)) && AnyDenied(Settle(log, p, side, h)) == AnyDenied(log)
    ensures forall e: Event :: !e.Destroyed? ==> Happened(Settle(log, p, side, h), e) == Happened(log, e)
  {
  }

  lemma ReplacedLog(log: Trace, p: nat, side: Side, was: Handler, h: Handler)
    requires Lawful(log) && Happened(log, Opened(p)) && !Happened(log, Released(p)) && !Happened(log, Freed(p))
    ensures var log2 := Then(Settle(log, p, side, was), Installed(p, side, h));
            && Lawful(log2) && AnyDenied(log2) == AnyDenied(log) && OnlyHandlersHear(log, log2)
            && Happened(log2, Stopped) == Happened(log, Stopped) && LedgerUnheard(log, log2)
  {
    LawfulSettle(log, p, side, was);
    assert LedgerUnheard(log, log);
    assert LedgerUnheard(log, Settle(log, p, side, was));
    assert OnlyHandlersHear(log, log);
    assert OnlyHandlersHear(log, Settle(log, p, side, was));
  }

  lemma GivenUpLog(log: Trace, p: nat, side: Side, h: Handler, open: bool)
    requires Lawful(log) && Happened(log, Opened(p)) && !Happened(log, Freed(p))
    ensures var log2 := Settle(Then(log, Returned(p, side, h, 0, open)), p, side, h);
            && Lawful(log2) && AnyDenied(log2) == AnyDenied(log) && OnlyHandlersHear(log, log2)
            && Happened(log2, Stopped) == Happened(log, Stopped) && LedgerUnheard(log, log2)
  {
    var log1 := Then(log, Returned(p, side, h, 0, open));
    assert LedgerUnheard(log, log);
    assert LedgerUnheard(log, log1);
    LawfulSettle(log1, p, side, h);
    assert OnlyHandlersHear(log, log);
    assert OnlyHandlersHear(log, log1);
  }

  // ------------------------------------------------------------ the mask of a channel is changed

  ghost predicate InvButMasks(w: World) {
    && TableOk(w.reg, w.next)
    && MirrorOk(w.reg, w.kernel, w.epollOpen)
    && LinksOk(w.reg, w.chans, w.owned)
    && RefsOk(w.chans, w.owned, w.frames, w.next)
    && SilentOk(w.chans, w.owned, w.terminate)
    && (w.terminate <==> Happened(w.log, Stopped))
    && TimersOk(w.reg, w.timers, w.next)
    && HandlersOk(w.log, w.chans)
    && EntryLogOk(w.log, w.reg, w.next)
    && ChanLogOk(w.log, w.chans, w.owned, w.frames, w.next)
    && TimerLogOk(w.log, w.timers, w.next)
    && LedgerOk(w.log, w.reg, w.kernel, w.chans, w.timers, w.pools, w.next)
    && RoomOk(w.reg, w.count)
    && (w.terminate ==> !w.epollOpen)
    && Lawful(w.log)
  }

  lemma MasksDenied(reg: Registry, chans: Chans)
    ensures MasksOk(reg, chans, true)
  {
  }

  lemma ModifyDenied(w: World, sd: int)
    requires InvButMasks(w)
    ensures Inv(Note(w, Denied(sd)))
  {
    hide TableOk, MirrorOk, LinksOk, RefsOk, SilentOk, MasksOk, TimersOk, HandlersOk, EntryLogOk, ChanLogOk,
         TimerLogOk, LedgerOk;
    var e := Denied(sd);
    MasksDenied(w.reg, w.chans);
    HandlersHear(w.log, e, w.chans);
    EntryLogHears(w.log, e, w.reg, w.next);
    ChanLogHears(w.log, e, w.chans, w.owned, w.frames, w.next);
    TimerLogHears(w.log, e, w.timers, w.next);
    LedgerHears(w.log, e, w.reg, w.kernel, w.chans, w.timers, w.pools, w.next);
  }

  /** The new mask has reached the kernel, the entry at slot k and the channel. */
  function Remask(w: World, k: nat, p: nat, m: Mask): World
    requires k < |w.reg| && p in w.chans
  {
    w.(reg := Remasked(w.reg, k, m),
       kernel := w.kernel[w.reg[k].sd := Interest(w.reg[k].id, m, true)],
       chans := w.chans[p := w.chans[p].(events := m)])
  }

  lemma ModifyGranted(w: World, before: Chans, k: nat, p: nat, m: Mask)
    requires InvButMasks(w)
    requires p in w.chans && w.chans == before[p := w.chans[p]]
    requires LinksOk(w.reg, before, w.owned) && MasksOk(w.reg, before, AnyDenied(w.log))
    requires k < |w.reg| && w.reg[k].client == Channel(p)
    requires AnyDenied(w.log) || Covered(w.chans[p].(events := m))
    ensures Inv(Remask(w, k, p, m))
  {
    hide TableOk, MirrorOk, LinksOk, RefsOk, MasksOk, TimersOk, HandlersOk, EntryLogOk, ChanLogOk, TimerLogOk,
         LedgerOk, Lawful, SilentOk, Remasked;
    var c := w.chans[p].(events := m);
    SilentHere(w.chans, w.owned, w.terminate, p);
    assert w.chans[p := c] == before[p := c];
    MirrorAfterRemask(w.reg, w.kernel, w.epollOpen, w.next, k, m);
    TableAfterRemask(w.reg, w.next, k, m);
    MasksAfterRemask(w.reg, before, w.owned, AnyDenied(w.log), w.next, k, c);
    LinksAfterUpdate(w.reg, w.chans, w.owned, p, c);
    LinksAfterRemask(w.reg, w.chans[p := c], w.owned, k, m);
    RefsAfterUpdate(w.chans, w.owned, w.frames, w.next, p, c);
    SilentAfterUpdate(w.chans, w.owned, w.terminate, p, c);
    TimersAfterRemask(w.reg, w.timers, w.next, k, m);
    HandlersAfterUpdate(w.log, w.chans, p, c);
    ChanLogAfterUpdate(w.log, w.chans, w.owned, w.frames, w.next, p, c);
    EntryLogAfterRemask(w.log, w.reg, w.next, k, m);
    LedgerAfterUpdate(w.log, w.reg, w.kernel, w.chans, w.timers, w.pools, w.next, p, c);
    LedgerAfterRemask(w.log, w.reg, w.kernel, w.chans[p := c], w.timers, w.pools, w.next, k, m);
    RemaskedLength(w.reg, k, m);
  }

  lemma RemaskedLength(reg: Registry, k: nat, m: Mask)
    requires k < |reg|
    ensures |Remasked(reg, k, m)| == |reg|
  {
  }

  /** Up to the change of the mask, replacing a handler keeps everything but the masks. */
  lemma ReplacedKeeps(w: World, p: nat, side: Side, h: Handler)
    requires Inv(w) && p in w.chans && w.chans[p].descriptor >= 0
    ensures InvButMasks(Replaced(w, p, side, h)) && AnyDenied(Replaced(w, p, side, h).log) == AnyDenied(w.log)
  {
    hide TableOk, MirrorOk, LinksOk, RefsOk, SilentOk, MasksOk, TimersOk, HandlersOk, EntryLogOk, ChanLogOk,
         TimerLogOk, LedgerOk;
    var c := w.chans[p].Put(side, h);
    var log1 := Settle(w.log, p, side, w.chans[p].At(side));
    var log2 := Then(log1, Installed(p, side, h));
    SilentHere(w.chans, w.owned, w.terminate, p);
    LogHere(w.log, w.chans, w.owned, w.frames, w.next, p);
    ReplacedLog(w.log, p, side, w.chans[p].At(side), h);
    hide Lawful, Happened, OnlyHandlersHear, LedgerUnheard, Settle;
    LedgerHearsAll(w.log, log2, w.reg, w.kernel, w.chans, w.timers, w.pools, w.next);
    LedgerAfterUpdate(log2, w.reg, w.kernel, w.chans, w.timers, w.pools, w.next, p, c);
    OthersHear(w.log, log2, w.reg, w.chans, w.owned, w.frames, w.timers, w.next);
    LinksAfterUpdate(w.reg, w.chans, w.owned, p, c);
    RefsAfterUpdate(w.chans, w.owned, w.frames, w.next, p, c);
    SilentAfterUpdate(w.chans, w.owned, w.terminate, p, c);
    HandlersAfterSet(w.log, w.chans, p, side, h);
    ChanLogAfterUpdate(log2, w.chans, w.owned, w.frames, w.next, p, c);
  }

  /** What the invariant says of the masks and the entry of one channel. */
  lemma ChannelHere(w: World, p: nat)
    requires Inv(w) && p in w.chans
    ensures var c := w.chans[p];
            && (c.descriptor >= 0 ==> AnyDenied(w.log) || Covered(c))
            && (c.descriptor < 0 ==> c.descriptor == -1)
            && (c.descriptor >= 0 ==>
                  Find(w.reg, c.descriptor) < |w.reg| && w.reg[Find(w.reg, c.descriptor)].client == Channel(p))
    ensures TableOk(w.reg, w.next) && LinksOk(w.reg, w.chans, w.owned) && MasksOk(w.reg, w.chans, AnyDenied(w.log))
    ensures Lawful(w.log) && Happened(w.log, Opened(p)) && !Happened(w.log, Freed(p))
  {
    hide TableOk, MirrorOk, LinksOk, RefsOk, SilentOk, MasksOk, TimersOk, HandlersOk, EntryLogOk, ChanLogOk,
         TimerLogOk, LedgerOk, Lawful;
    LinkHere(w.reg, w.chans, w.owned, p);
    CoveredHere(w.reg, w.chans, AnyDenied(w.log), p);
    LogHere(w.log, w.chans, w.owned, w.frames, w.next, p);
  }

  /** With its masks in order, a state that is right otherwise is right. */
  lemma InvFromParts(w: World)
    requires InvButMasks(w) && MasksOk(w.reg, w.chans, AnyDenied(w.log))
    ensures Inv(w)
  {
    hide TableOk, MirrorOk, LinksOk, RefsOk, SilentOk, MasksOk, TimersOk, HandlersOk, EntryLogOk, ChanLogOk,
         TimerLogOk, LedgerOk, Lawful;
  }

  lemma SetHandlerKeeps(w: World, p: nat, side: Side, h: Handler, granted: bool)
    requires Inv(w) && p in w.chans
    ensures Inv(SetHandler(w, p, side, h, granted).0)
  {
    hide TableOk, LinksOk, MasksOk, Lawful, Inv, InvButMasks, Replaced;
    var c, denied := w.chans[p], AnyDenied(w.log);
    if c.descriptor >= 0 {
      ReplacedKeeps(w, p, side, h);
      ReplacedFrame(w, p, side, h);
      ChannelHere(w, p);
      var w1 := Replaced(w, p, side, h);
      var m := if h.callback != 0 then c.events + {SideBit(side)} else c.events - {SideBit(side)};
      if m == c.events {
        MasksAfterUpdate(w.reg, w.chans, denied, p, c.Put(side, h));
        InvFromParts(w1);
      } else if !granted {
        ModifyDenied(w1, c.descriptor);
      } else {
        ModifyGranted(w1, w.chans, Find(w.reg, c.descriptor), p, m);
      }
    }
  }

  lemma GivenUpKeeps(w: World, p: nat, side: Side)
    requires Inv(w) && p in w.chans
    ensures var v := GivenUp(Note(w, Returned(p, side, w.chans[p].At(side), 0, w.chans[p].descriptor >= 0)), p, side);
            InvButMasks(v) && AnyDenied(v.log) == AnyDenied(w.log)
  {
    hide TableOk, MirrorOk, LinksOk, RefsOk, SilentOk, MasksOk, TimersOk, HandlersOk, EntryLogOk, ChanLogOk,
         TimerLogOk, LedgerOk;
    var c := w.chans[p];
    var c1 := c.Put(side, NO_HANDLER).(events := c.events - {SideBit(side)});
    var log1 := Then(w.log, Returned(p, side, c.At(side), 0, c.descriptor >= 0));
    var log2 := Settle(log1, p, side, c.At(side));
    SilentHere(w.chans, w.owned, w.terminate, p);
    LogHere(w.log, w.chans, w.owned, w.frames, w.next, p);
    GivenUpLog(w.log, p, side, c.At(side), c.descriptor >= 0);
    hide Lawful, Happened, OnlyHandlersHear, LedgerUnheard, Settle;
    LedgerHearsAll(w.log, log2, w.reg, w.kernel, w.chans, w.timers, w.pools, w.next);
    LedgerAfterUpdate(log2, w.reg, w.kernel, w.chans, w.timers, w.pools, w.next, p, c1);
    OthersHear(w.log, log2, w.reg, w.chans, w.owned, w.frames, w.timers, w.next);
    LinksAfterUpdate(w.reg, w.chans, w.owned, p, c1);
    RefsAfterUpdate(w.chans, w.owned, w.frames, w.next, p, c1);
    SilentAfterUpdate(w.chans, w.owned, w.terminate, p, c1);
    HandlersAfterFinish(w.log, w.chans, p, side, c1.events);
    ChanLogAfterUpdate(log2, w.chans, w.owned, w.frames, w.next, p, c1);
  }

  lemma GivingUpKeeps(w: World, p: nat, side: Side, granted: bool)
    requires Inv(w) && p in w.chans
    ensures var c := w.chans[p];
            var w1 := Note(w, Returned(p, side, c.At(side), 0, c.descriptor >= 0));
            Inv(LoopModify(GivenUp(w1, p, side), c.descriptor, c.events - {SideBit(side)}, granted).0)
  {
    hide TableOk, LinksOk, MasksOk, Lawful, Inv, InvButMasks, GivenUp;
    var c, denied := w.chans[p], AnyDenied(w.log);
    var w1 := Note(w, Returned(p, side, c.At(side), 0, c.descriptor >= 0));
    ChannelHere(w, p);
    GivenUpKeeps(w, p, side);
    GivenUpFrame(w1, p, side);
    var m, w2 := c.events - {SideBit(side)}, GivenUp(w1, p, side);
    if c.descriptor < 0 {
      MasksAfterClosedUpdate(w.reg, w.chans, w.owned, denied, w.next, p, w2.chans[p]);
      InvFromParts(w2);
    } else if !granted {
      ModifyDenied(w2, c.descriptor);
    } else {
      ModifyGranted(w2, w.chans, Find(w.reg, c.descriptor), p, m);
      assert w2.chans[p := w2.chans[p]] == w2.chans;
    }
  }

  lemma FinishKeeps(w: World, p: nat, side: Side, value: int, granted: bool)
    requires Inv(w) && p in w.chans
    ensures Inv(Finish(w, p, side, value, granted))
  {
    hide Inv, GivenUp, LoopModify, Allowed;
    if value == 0 {
      GivingUpKeeps(w, p, side, granted);
    } else {
      ReturnKeeps(w, p, side, value);
    }
  }

  lemma ReturnKeeps(w: World, p: nat, side: Side, value: int)
    requires Inv(w) && p in w.chans && value != 0
    ensures Inv(Note(w, Returned(p, side, w.chans[p].At(side), value, w.chans[p].descriptor >= 0)))
  {
    hide TableOk, LinksOk, MasksOk, Lawful, Inv;
    ChannelHere(w, p);
    QuietKeeps(w, Returned(p, side, w.chans[p].At(side), value, w.chans[p].descriptor >= 0));
  }
}

/** How each part of the invariant follows the changes an operation makes. */
module Steps {
  import opened Events
  import opened World
  import opened Invariant
  import opened StepsLedger

  lemma InitOk(gap: nat)
    ensures Inv(Init(gap))
  {
    assert forall p: nat, side: Side, d: Debt :: LiveAt(map[], p, side, d) == 0;
  }

  // ------------------------------------------------------------ events that a part does not hear

  predicate AboutEntry(e: Event) { e.Added? || e.KernelRemoved? || e.Destructed? }
  predicate AboutChan(e: Event) { e.Opened? || e.Released? || e.Freed? || e.Entered? || e.Left? }
  predicate AboutTimer(e: Event) { e.Armed? || e.Fired? || e.TimerFreed? }
  predicate AboutHandler(e: Event) { e.Installed? || e.Destroyed? || StaleReturn(e) }

  lemma HandlerUnheard(log: Trace, e: Event, p: nat, side: Side, d: Debt)
    requires !AboutHandler(e)
    ensures Installs(Then(log, e), p, side, d) == Installs(log, p, side, d)
    ensures Destroys(Then(log, e), p, side, d) == Destroys(log, p, side, d)
    ensures Stales(Then(log, e), p, side, d) == Stales(log, p, side, d)
  {
  }

  lemma HandlersHear(log: Trace, e: Event, chans: Chans)
    requires HandlersOk(log, chans) && !AboutHandler(e)
    ensures HandlersOk(Then(log, e), chans)
  {
    forall p: nat, side: Side, d: Debt ensures HandlersAt(Then(log, e), LiveAt(chans, p, side, d), p, side, d) {
      assert HandlersAt(log, LiveAt(chans, p, side, d), p, side, d);
      HandlerUnheard(log, e, p, side, d);
    }
  }

  lemma EntryLogHears(log: Trace, e: Event, reg: Registry, next: nat)
    requires EntryLogOk(log, reg, next) && !AboutEntry(e)
    ensures EntryLogOk(Then(log, e), reg, next)
  {
    forall id: nat ensures EntryLogAt(Then(log, e), InTable(reg, id), next, id) {
      assert EntryLogAt(log, InTable(reg, id), next, id);
    }
  }

  lemma ChanLogHears(log: Trace, e: Event, chans: Chans, owned: set<nat>, frames: multiset<nat>, next: nat)
    requires ChanLogOk(log, chans, owned, frames, next) && !AboutChan(e)
    ensures ChanLogOk(Then(log, e), chans, owned, frames, next)
  {
    forall p: nat ensures ChanLogAt(Then(log, e), p in owned, p in chans, frames[p], next, p) {
      assert ChanLogAt(log, p in owned, p in chans, frames[p], next, p);
    }
  }

  lemma TimerLogHears(log: Trace, e: Event, timers: Timers, next: nat)
    requires TimerLogOk(log, timers, next) && !AboutTimer(e)
    ensures TimerLogOk(Then(log, e), timers, next)
  {
    forall t: nat ensures TimerLogAt(Then(log, e), t in timers, Pending(timers, t), next, t) {
      assert TimerLogAt(log, t in timers, Pending(timers, t), next, t);
    }
  }

  lemma MasksHear(reg: Registry, chans: Chans, log: Trace, e: Event)
    requires MasksOk(reg, chans, AnyDenied(log))
    ensures MasksOk(reg, chans, AnyDenied(Then(log, e)))
  {
  }

  predicate Quiet(e: Event) {
    !AboutEntry(e) && !AboutChan(e) && !AboutTimer(e) && !AboutHandler(e) && !AboutLedger(e) && !e.Stopped?
  }

  lemma AllowedNext(log: Trace, e: Event)
    requires Allowed(log, e)
    ensures Lawful(log) ==> Lawful(Then(log, e))
  {
  }

  lemma QuietKeeps(w: World, e: Event)
    requires Inv(w) && Quiet(e) && Allowed(w.log, e)
    ensures Inv(Note(w, e))
  {
    hide TableOk, MirrorOk, LinksOk, RefsOk, SilentOk, MasksOk, TimersOk, HandlersOk, EntryLogOk, ChanLogOk,
         TimerLogOk, LedgerOk, Allowed;
    HandlersHear(w.log, e, w.chans);
    EntryLogHears(w.log, e, w.reg, w.next);
    ChanLogHears(w.log, e, w.chans, w.owned, w.frames, w.next);
    TimerLogHears(w.log, e, w.timers, w.next);
    MasksHear(w.reg, w.chans, w.log, e);
    LedgerHears(w.log, e, w.reg, w.kernel, w.chans, w.timers, w.pools, w.next);
  }

  // ------------------------------------------------------------ one channel record changes

  lemma LinksAfterUpdate(reg: Registry, chans: Chans, owned: set<nat>, p: nat, c: Chan)
    requires LinksOk(reg, chans, owned) && p in chans && c.descriptor == chans[p].descriptor
    ensures LinksOk(reg, chans[p := c], owned)
  {
    forall i | 0 <= i < |reg| ensures EntryLinked(reg[i], chans[p := c], owned) {
      assert EntryLinked(reg[i], chans, owned);
    }
    assert ChanLinked(reg, p, chans[p]);
  }

  lemma RefsAfterUpdate(chans: Chans, owned: set<nat>, frames: multiset<nat>, next: nat, p: nat, c: Chan)
    requires RefsOk(chans, owned, frames, next) && p in chans && c.refs == chans[p].refs
    ensures RefsOk(chans[p := c], owned, frames, next)
  {
    var chans' := chans[p := c];
    forall q: nat ensures RefsAt(chans', owned, frames, next, q) {
      assert RefsAt(chans, owned, frames, next, q);
    }
  }

  lemma SilentAfterUpdate(chans: Chans, owned: set<nat>, stopped: bool, p: nat, c: Chan)
    requires SilentOk(chans, owned, stopped)
    requires Hushed(c, p in owned, stopped)
    ensures SilentOk(chans[p := c], owned, stopped)
  {
  }

  lemma MasksAfterUpdate(reg: Registry, chans: Chans, denied: bool, p: nat, c: Chan)
    requires MasksOk(reg, chans, denied) && p in chans
    requires c.descriptor == chans[p].descriptor && c.events == chans[p].events
    requires c.descriptor >= 0 ==> denied || Covered(c)
    ensures MasksOk(reg, chans[p := c], denied)
  {
    if !denied {
      forall i | 0 <= i < |reg| ensures EntryMaskAgrees(reg[i], chans[p := c]) {
        assert EntryMaskAgrees(reg[i], chans);
      }
    }
  }

  lemma HandlersAfterUpdate(log: Trace, chans: Chans, p: nat, c: Chan)
    requires HandlersOk(log, chans)
    requires forall side: Side, d: Debt :: LiveAt(chans[p := c], p, side, d) == LiveAt(chans, p, side, d)
    ensures HandlersOk(log, chans[p := c])
  {
    var chans' := chans[p := c];
    forall q: nat, side: Side, d: Debt ensures HandlersAt(log, LiveAt(chans', q, side, d), q, side, d) {
      assert HandlersAt(log, LiveAt(chans, q, side, d), q, side, d);
      assert LiveAt(chans', q, side, d) == LiveAt(chans, q, side, d);
    }
  }

  lemma ChanLogAfterUpdate(log: Trace, chans: Chans, owned: set<nat>, frames: multiset<nat>, next: nat, p: nat, c: Chan)
    requires ChanLogOk(log, chans, owned, frames, next) && p in chans
    ensures ChanLogOk(log, chans[p := c], owned, frames, next)
  {
    forall q: nat ensures ChanLogAt(log, q in owned, q in chans[p := c], frames[q], next, q) {
      assert ChanLogAt(log, q in owned, q in chans, frames[q], next, q);
    }
  }

  lemma MuteKeeps(w: World, p: nat, side: Side)
    requires Inv(w) && p in w.chans
    ensures Inv(Mute(w, p, side))
  {
    hide TableOk, MirrorOk, LinksOk, RefsOk, SilentOk, MasksOk, TimersOk, HandlersOk, EntryLogOk, ChanLogOk,
         TimerLogOk, LedgerOk, Lawful;
    var c := w.chans[p].Mute(side);
    SilentHere(w.chans, w.owned, w.terminate, p);
    CoveredHere(w.reg, w.chans, AnyDenied(w.log), p);
    LinksAfterUpdate(w.reg, w.chans, w.owned, p, c);
    RefsAfterUpdate(w.chans, w.owned, w.frames, w.next, p, c);
    SilentAfterUpdate(w.chans, w.owned, w.terminate, p, c);
    MasksAfterUpdate(w.reg, w.chans, AnyDenied(w.log), p, c);
    HandlersAfterUpdate(w.log, w.chans, p, c);
    ChanLogAfterUpdate(w.log, w.chans, w.owned, w.frames, w.next, p, c);
    LedgerAfterUpdate(w.log, w.reg, w.kernel, w.chans, w.timers, w.pools, w.next, p, c);
  }

  // ------------------------------------------------------------ what the invariant says of one channel

  lemma SilentHere(chans: Chans, owned: set<nat>, stopped: bool, p: nat)
    requires SilentOk(chans, owned, stopped) && p in chans
    ensures Hushed(chans[p], p in owned, stopped)
  {
  }

  lemma LinkHere(reg: Registry, chans: Chans, owned: set<nat>, p: nat)
    requires LinksOk(reg, chans, owned) && p in chans
    ensures chans[p].descriptor >= -1
    ensures chans[p].descriptor >= 0 ==> Registered(reg, chans[p].descriptor, Channel(p))
  {
    assert ChanLinked(reg, p, chans[p]);
  }

  lemma CoveredHere(reg: Registry, chans: Chans, denied: bool, p: nat)
    requires MasksOk(reg, chans, denied) && p in chans
    ensures chans[p].descriptor >= 0 ==> denied || Covered(chans[p])
  {
  }

  lemma LogHere(log: Trace, chans: Chans, owned: set<nat>, frames: multiset<nat>, next: nat, p: nat)
    requires ChanLogOk(log, chans, owned, frames, next)
    ensures ChanLogAt(log, p in owned, p in chans, frames[p], next, p)
  {
  }

  lemma RefsHere(chans: Chans, owned: set<nat>, frames: multiset<nat>, next: nat, p: nat)
    requires RefsOk(chans, owned, frames, next)
    ensures RefsAt(chans, owned, frames, next, p)
  {
  }

  lemma CalledAllowed(w: World, p: nat, side: Side)
    requires Inv(w) && p in w.chans && w.chans[p].At(side).callback != 0
    ensures Allowed(w.log, Called(p, side, w.chans[p].At(side), w.chans[p].descriptor >= 0))
  {
    hide TableOk, MirrorOk, LinksOk, RefsOk, SilentOk, MasksOk, TimersOk, HandlersOk, EntryLogOk, ChanLogOk,
         TimerLogOk, LedgerOk;
    SilentHere(w.chans, w.owned, w.terminate, p);
    LinkHere(w.reg, w.chans, w.owned, p);
    LogHere(w.log, w.chans, w.owned, w.frames, w.next, p);
    if w.chans[p].descriptor >= 0 { OpenUntilStopped(w, p); }
  }

  lemma CalledKeeps(w: World, p: nat, side: Side)
    requires Inv(w) && p in w.chans && w.chans[p].At(side).callback != 0
    ensures Inv(Note(w, Called(p, side, w.chans[p].At(side), w.chans[p].descriptor >= 0)))
  {
    hide Inv, Allowed;
    CalledAllowed(w, p, side);
    QuietKeeps(w, Called(p, side, w.chans[p].At(side), w.chans[p].descriptor >= 0));
  }

  /** After a quit no channel is open. */
  lemma OpenUntilStopped(w: World, p: nat)
    requires Inv(w) && p in w.chans && w.chans[p].descriptor >= 0
    ensures !w.terminate
  {
    hide TableOk, RefsOk, SilentOk, MasksOk, TimersOk, HandlersOk, EntryLogOk, ChanLogOk, TimerLogOk, LedgerOk, Lawful;
    LinkHere(w.reg, w.chans, w.owned, p);
  }

  // ------------------------------------------------------------ reference counts

  /** One more event adds itself to what the trace says of a channel. */
  lemma LifeAfter(log: Trace, e: Event, q: nat)
    ensures var log' := Then(log, e);
            && (Happened(log', Opened(q)) <==> Happened(log, Opened(q)) || e == Opened(q))
            && (Happened(log', Released(q)) <==> Happened(log, Released(q)) || e == Released(q))
            && (Happened(log', Freed(q)) <==> Happened(log, Freed(q)) || e == Freed(q))
            && Times(log', Entered(q)) == Times(log, Entered(q)) + One(e == Entered(q))
            && Times(log', Left(q)) == Times(log, Left(q)) + One(e == Left(q))
  {
  }

  lemma RefsAfterEnter(chans: Chans, owned: set<nat>, frames: multiset<nat>, next: nat, p: nat)
    requires RefsOk(chans, owned, frames, next) && p in chans
    ensures RefsOk(chans[p := chans[p].(refs := chans[p].refs + 1)], owned, frames + multiset{p}, next)
  {
    var chans' := chans[p := chans[p].(refs := chans[p].refs + 1)];
    forall q: nat ensures RefsAt(chans', owned, frames + multiset{p}, next, q) {
      assert RefsAt(chans, owned, frames, next, q);
    }
  }

  lemma ChanLogAfterEnter(log: Trace, chans: Chans, owned: set<nat>, frames: multiset<nat>, next: nat, p: nat)
    requires ChanLogOk(log, chans, owned, frames, next)
    ensures ChanLogOk(Then(log, Entered(p)), chans, owned, frames + multiset{p}, next)
  {
    forall q: nat ensures ChanLogAt(Then(log, Entered(p)), q in owned, q in chans, (frames + multiset{p})[q], next, q) {
      assert ChanLogAt(log, q in owned, q in chans, frames[q], next, q);
    }
  }

  lemma EnterKeeps(w: World, p: nat)
    requires Inv(w) && p in w.chans
    ensures Inv(Enter(w, p))
  {
    hide TableOk, MirrorOk, LinksOk, RefsOk, SilentOk, MasksOk, TimersOk, HandlersOk, EntryLogOk, ChanLogOk,
         TimerLogOk, LedgerOk, Lawful;
    var e, c := Entered(p), w.chans[p].(refs := w.chans[p].refs + 1);
    SilentHere(w.chans, w.owned, w.terminate, p);
    CoveredHere(w.reg, w.chans, AnyDenied(w.log), p);
    LogHere(w.log, w.chans, w.owned, w.frames, w.next, p);
    AllowedNext(w.log, e);
    LinksAfterUpdate(w.reg, w.chans, w.owned, p, c);
    RefsAfterEnter(w.chans, w.owned, w.frames, w.next, p);
    SilentAfterUpdate(w.chans, w.owned, w.terminate, p, c);
    MasksAfterUpdate(w.reg, w.chans, AnyDenied(w.log), p, c);
    HandlersAfterUpdate(w.log, w.chans, p, c);
    assert Happened(Then(w.log, e), Stopped) == Happened(w.log, Stopped);
    hide Allowed, Happened, AnyDenied;
    ChanLogAfterUpdate(w.log, w.chans, w.owned, w.frames, w.next, p, c);
    ChanLogAfterEnter(w.log, w.chans[p := c], w.owned, w.frames, w.next, p);
    HandlersHear(w.log, e, w.chans[p := c]);
    EntryLogHears(w.log, e, w.reg, w.next);
    TimerLogHears(w.log, e, w.timers, w.next);
    MasksHear(w.reg, w.chans[p := c], w.log, e);
    LedgerAfterUpdate(w.log, w.reg, w.kernel, w.chans, w.timers, w.pools, w.next, p, c);
    LedgerHears(w.log, e, w.reg, w.kernel, w.chans[p := c], w.timers, w.pools, w.next);
  }

  function Dropped(chans: Chans, p: nat): Chans
    requires p in chans
  {
    if chans[p].refs - 1 != 0 then chans[p := chans[p].(refs := chans[p].refs - 1)] else chans - {p}
  }

  lemma RefsAfterDrop(chans: Chans, owned: set<nat>, frames: multiset<nat>, next: nat,
                      owned': set<nat>, frames': multiset<nat>, p: nat)
    requires RefsOk(chans, owned, frames, next) && p in chans
    requires One(p in owned') + frames'[p] == One(p in owned) + frames[p] - 1
    requires forall q :: q != p ==> (q in owned <==> q in owned') && frames[q] == frames'[q]
    ensures RefsOk(Dropped(chans, p), owned', frames', next)
  {
    var chans' := Dropped(chans, p);
    forall q: nat ensures RefsAt(chans', owned', frames', next, q) {
      assert RefsAt(chans, owned, frames, next, q);
      assert RefsAt(chans, owned, frames, next, p);
    }
  }

  lemma LinksAfterFree(reg: Registry, chans: Chans, owned: set<nat>, p: nat)
    requires LinksOk(reg, chans, owned) && p !in owned
    ensures LinksOk(reg, chans - {p}, owned)
  {
    forall i | 0 <= i < |reg| ensures EntryLinked(reg[i], chans - {p}, owned) {
      assert EntryLinked(reg[i], chans, owned);
    }
  }

  lemma MasksAfterFree(reg: Registry, chans: Chans, owned: set<nat>, denied: bool, p: nat)
    requires LinksOk(reg, chans, owned) && p !in owned
    requires MasksOk(reg, chans, denied)
    ensures MasksOk(reg, chans - {p}, denied)
  {
    if !denied {
      forall i | 0 <= i < |reg| ensures EntryMaskAgrees(reg[i], chans - {p}) {
        assert EntryMaskAgrees(reg[i], chans);
        assert EntryLinked(reg[i], chans, owned);
      }
    }
  }

  lemma HandlersAfterFree(log: Trace, chans: Chans, p: nat)
    requires HandlersOk(log, chans) && p in chans && chans[p].descriptor < 0
    ensures HandlersOk(log, chans - {p})
  {
    var chans' := chans - {p};
    forall q: nat, side: Side, d: Debt ensures HandlersAt(log, LiveAt(chans', q, side, d), q, side, d) {
      assert HandlersAt(log, LiveAt(chans, q, side, d), q, side, d);
      assert LiveAt(chans', q, side, d) == LiveAt(chans, q, side, d);
    }
  }

  lemma ChanLogAfterFree(log: Trace, chans: Chans, owned: set<nat>, frames: multiset<nat>, next: nat, p: nat)
    requires ChanLogOk(log, chans, owned, frames, next) && p in chans && p !in owned
    ensures ChanLogOk(Then(log, Freed(p)), chans - {p}, owned, frames, next)
  {
    hide Times, Happened;
    var chans' := chans - {p};
    forall q: nat ensures ChanLogAt(Then(log, Freed(p)), q in owned, q in chans', frames[q], next, q) {
      assert ChanLogAt(log, q in owned, q in chans, frames[q], next, q);
      LifeAfter(log, Freed(p), q);
    }
  }

  /** The invariant before a reference of channel p is dropped. */
  ghost predicate InvBeforeDrop(w: World, p: nat) {
    && p in w.chans
    && TableOk(w.reg, w.next)
    && MirrorOk(w.reg, w.kernel, w.epollOpen)
    && LinksOk(w.reg, w.chans, w.owned)
    && RefsOk(Dropped(w.chans, p), w.owned, w.frames, w.next)
    && SilentOk(w.chans, w.owned, w.terminate)
    && (w.terminate <==> Happened(w.log, Stopped))
    && MasksOk(w.reg, w.chans, AnyDenied(w.log))
    && TimersOk(w.reg, w.timers, w.next)
    && HandlersOk(w.log, w.chans)
    && EntryLogOk(w.log, w.reg, w.next)
    && ChanLogOk(w.log, w.chans, w.owned, w.frames, w.next)
    && TimerLogOk(w.log, w.timers, w.next)
    && LedgerOk(w.log, w.reg, w.kernel, w.chans, w.timers, w.pools, w.next)
    && RoomOk(w.reg, w.count)
    && (w.terminate ==> !w.epollOpen)
    && Lawful(w.log)
  }

  lemma FreeAllowed(w: World, p: nat)
    requires InvBeforeDrop(w, p) && w.chans[p].refs == 1
    ensures Allowed(w.log, Freed(p)) && p !in w.owned && w.frames[p] == 0
    ensures w.chans[p].descriptor < 0 && RefsOk(w.chans - {p}, w.owned, w.frames, w.next)
  {
    hide TableOk, MirrorOk, LinksOk, RefsOk, SilentOk, MasksOk, TimersOk, HandlersOk, EntryLogOk, ChanLogOk,
         TimerLogOk, LedgerOk, Lawful;
    RefsHere(w.chans - {p}, w.owned, w.frames, w.next, p);
    LogHere(w.log, w.chans, w.owned, w.frames, w.next, p);
    SilentHere(w.chans, w.owned, w.terminate, p);
  }

  lemma UnrefKeeps(w: World, p: nat)
    requires InvBeforeDrop(w, p)
    ensures Inv(Unref(w, p))
  {
    hide TableOk, MirrorOk, LinksOk, RefsOk, SilentOk, MasksOk, TimersOk, HandlersOk, EntryLogOk, ChanLogOk,
         TimerLogOk, LedgerOk, Lawful, Allowed;
    var c := w.chans[p].(refs := w.chans[p].refs - 1);
    SilentHere(w.chans, w.owned, w.terminate, p);
    CoveredHere(w.reg, w.chans, AnyDenied(w.log), p);
    if c.refs != 0 {
      LinksAfterUpdate(w.reg, w.chans, w.owned, p, c);
      SilentAfterUpdate(w.chans, w.owned, w.terminate, p, c);
      MasksAfterUpdate(w.reg, w.chans, AnyDenied(w.log), p, c);
      HandlersAfterUpdate(w.log, w.chans, p, c);
      ChanLogAfterUpdate(w.log, w.chans, w.owned, w.frames, w.next, p, c);
      LedgerAfterUpdate(w.log, w.reg, w.kernel, w.chans, w.timers, w.pools, w.next, p, c);
    } else {
      var e := Freed(p);
      FreeAllowed(w, p);
      AllowedNext(w.log, e);
      LinksAfterFree(w.reg, w.chans, w.owned, p);
      SilentAfterFree(w.chans, w.owned, w.terminate, p);
      MasksAfterFree(w.reg, w.chans, w.owned, AnyDenied(w.log), p);
      HandlersAfterFree(w.log, w.chans, p);
      ChanLogAfterFree(w.log, w.chans, w.owned, w.frames, w.next, p);
      HandlersHear(w.log, e, w.chans - {p});
      EntryLogHears(w.log, e, w.reg, w.next);
      TimerLogHears(w.log, e, w.timers, w.next);
      MasksHear(w.reg, w.chans - {p}, w.log, e);
      LedgerAfterFree(w.log, w.reg, w.kernel, w.chans, w.timers, w.pools, w.next, p);
      LedgerHears(w.log, e, w.reg, w.kernel, w.chans - {p}, w.timers, w.pools, w.next);
    }
  }

  lemma SilentAfterFree(chans: Chans, owned: set<nat>, stopped: bool, p: nat)
    requires SilentOk(chans, owned, stopped)
    ensures SilentOk(chans - {p}, owned, stopped)
  {
  }

  lemma ChanLogAfterLeft(log: Trace, chans: Chans, owned: set<nat>, frames: multiset<nat>, next: nat, p: nat)
    requires ChanLogOk(log, chans, owned, frames, next) && frames[p] > 0
    ensures ChanLogOk(Then(log, Left(p)), chans, owned, frames - multiset{p}, next)
  {
    forall q: nat ensures ChanLogAt(Then(log, Left(p)), q in owned, q in chans, (frames - multiset{p})[q], next, q) {
      assert ChanLogAt(log, q in owned, q in chans, frames[q], next, q);
    }
  }

  lemma LeftBeforeDrop(w: World, p: nat)
    requires Inv(w) && w.frames[p] > 0
    ensures InvBeforeDrop(Note(w.(frames := w.frames - multiset{p}), Left(p)), p)
  {
    hide TableOk, MirrorOk, LinksOk, RefsOk, SilentOk, MasksOk, TimersOk, HandlersOk, EntryLogOk, ChanLogOk,
         TimerLogOk, LedgerOk;
    var e, frames := Left(p), w.frames - multiset{p};
    RefsHere(w.chans, w.owned, w.frames, w.next, p);
    LogHere(w.log, w.chans, w.owned, w.frames, w.next, p);
    RefsAfterDrop(w.chans, w.owned, w.frames, w.next, w.owned, frames, p);
    ChanLogAfterLeft(w.log, w.chans, w.owned, w.frames, w.next, p);
    HandlersHear(w.log, e, w.chans);
    EntryLogHears(w.log, e, w.reg, w.next);
    TimerLogHears(w.log, e, w.timers, w.next);
    MasksHear(w.reg, w.chans, w.log, e);
    LedgerHears(w.log, e, w.reg, w.kernel, w.chans, w.timers, w.pools, w.next);
  }

  lemma LeaveKeeps(w: World, p: nat)
    requires Inv(w) && w.frames[p] > 0
    ensures p in w.chans && Inv(Leave(w, p))
  {
    LeftBeforeDrop(w, p);
    StoredBeforeDrop(Note(w.(frames := w.frames - multiset{p}), Left(p)), p);
    hide Inv, InvBeforeDrop, Unref;
    UnrefKeeps(Note(w.(frames := w.frames - multiset{p}), Left(p)), p);
  }

  lemma StoredBeforeDrop(w: World, p: nat)
    requires InvBeforeDrop(w, p)
    ensures p in w.chans
  {
  }

  lemma LinksAfterRelease(reg: Registry, chans: Chans, owned: set<nat>, next: nat, p: nat)
    requires LinksOk(reg, chans, owned) && TableOk(reg, next)
    requires p in chans && chans[p].descriptor == -1
    ensures LinksOk(reg, chans, owned - {p})
  {
    forall i | 0 <= i < |reg| ensures EntryLinked(reg[i], chans, owned - {p}) {
      assert EntryLinked(reg[i], chans, owned);
    }
  }

  lemma SilentAfterRelease(chans: Chans, owned: set<nat>, stopped: bool, p: nat)
    requires SilentOk(chans, owned, stopped) && (p in chans ==> Silent(chans[p]))
    ensures SilentOk(chans, owned - {p}, stopped)
  {
  }

  lemma ChanLogAfterReleased(log: Trace, chans: Chans, owned: set<nat>, frames: multiset<nat>, next: nat, p: nat)
    requires ChanLogOk(log, chans, owned, frames, next) && p in owned
    ensures ChanLogOk(Then(log, Released(p)), chans, owned - {p}, frames, next)
  {
    hide Times, Happened;
    forall q: nat ensures ChanLogAt(Then(log, Released(p)), q in owned - {p}, q in chans, frames[q], next, q) {
      assert ChanLogAt(log, q in owned, q in chans, frames[q], next, q);
      LifeAfter(log, Released(p), q);
    }
  }

  lemma ReleasedBeforeDrop(w: World, p: nat)
    requires Inv(w) && p in w.owned && p in w.chans && Silent(w.chans[p])
    ensures InvBeforeDrop(Note(w.(owned := w.owned - {p}), Released(p)), p)
  {
    hide TableOk, MirrorOk, LinksOk, RefsOk, SilentOk, MasksOk, TimersOk, HandlersOk, EntryLogOk, ChanLogOk,
         TimerLogOk, LedgerOk;
    var e, owned := Released(p), w.owned - {p};
    LogHere(w.log, w.chans, w.owned, w.frames, w.next, p);
    RefsAfterDrop(w.chans, w.owned, w.frames, w.next, owned, w.frames, p);
    LinksAfterRelease(w.reg, w.chans, w.owned, w.next, p);
    SilentAfterRelease(w.chans, w.owned, w.terminate, p);
    ChanLogAfterReleased(w.log, w.chans, w.owned, w.frames, w.next, p);
    HandlersHear(w.log, e, w.chans);
    EntryLogHears(w.log, e, w.reg, w.next);
    TimerLogHears(w.log, e, w.timers, w.next);
    MasksHear(w.reg, w.chans, w.log, e);
    LedgerHears(w.log, e, w.reg, w.kernel, w.chans, w.timers, w.pools, w.next);
  }

  lemma ReleaseKeeps(w: World, p: nat)
    requires Inv(w) && p in w.owned && p in w.chans && Silent(w.chans[p])
    ensures Inv(Release(w, p))
  {
    ReleasedBeforeDrop(w, p);
    hide Inv, InvBeforeDrop, Unref;
    UnrefKeeps(Note(w.(owned := w.owned - {p}), Released(p)), p);
  }
}

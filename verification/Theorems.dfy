/** What holds of every run of every program on the event loop. */
module Theorems {
  import opened Events
  import opened World
  import opened Lifecycle
  import opened Invariant
  import opened Steps
  import opened StepsRetire
  import opened StepsAdd
  import opened Runs

  /** The state in which a run has ended or stopped. */
  function Last(r: Out<Result>): World {
    match r case Done(res) => res.w case Halt(_, at) => at
  }

  /**
   Every run ends in a right state with no dispatch in progress and no event left, or stops in a
   right state for a reason outside the library's control: the library never touches freed memory,
   with a shift that moves every later slot the entry table never goes wrong, an event is stale only
   if the destructor of its entry has run, and a pool is overrun only if more descriptors are armed
   than it has places.
   */
  lemma EveryRunIsSound(gap: nat, s: Script)
    ensures match Run(gap, s)
            case Done(res) =>
              Inv(res.w) && res.w.frames == multiset{} && res.w.pools == multiset{} && res.w.gap == gap
            case Halt(why, at) => Inv(at) && at.gap == gap && Justified(why, at)
  {
    InitOk(gap);
    ScriptKeeps(Init(gap), s);
  }

  lemma LastIsRight(gap: nat, s: Script)
    ensures Inv(Last(Run(gap, s)))
  {
    EveryRunIsSound(gap, s);
    hide Inv, Run;
  }

  // ------------------------------------------------------------ handlers are destroyed once

  lemma BalanceHere(w: World, p: nat, side: Side, d: Debt)
    requires Inv(w)
    ensures Installs(w.log, p, side, d) + Stales(w.log, p, side, d)
         == Destroys(w.log, p, side, d) + LiveAt(w.chans, p, side, d)
  {
    hide TableOk, MirrorOk, LinksOk, RefsOk, SilentOk, MasksOk, TimersOk, EntryLogOk, ChanLogOk, TimerLogOk, LedgerOk,
         Lawful;
    assert HandlersAt(w.log, LiveAt(w.chans, p, side, d), p, side, d);
  }

  /** Every debt taken on is open on a live channel or paid exactly once. */
  ghost predicate PaidOnce(w: World) {
    forall p: nat, side: Side, d: Debt ::
      Installs(w.log, p, side, d) == Destroys(w.log, p, side, d) + LiveAt(w.chans, p, side, d)
  }

  lemma {:induction false} StaleReturnCounts(log: Trace, p: nat, side: Side, d: Debt)
    ensures NoStaleReturn(log) ==> Stales(log, p, side, d) == 0
  {
    if log.Then? { StaleReturnCounts(log.past, p, side, d); }
  }

  lemma {:induction false} StaleReturnIsCounted(log: Trace) returns (p: nat, side: Side, d: Debt)
    requires !NoStaleReturn(log)
    ensures Stales(log, p, side, d) > 0
  {
    if StaleReturn(log.last) {
      p, side, d := log.last.p, log.last.side, Debt(log.last.h.destroy, log.last.h.data);
    } else {
      p, side, d := StaleReturnIsCounted(log.past);
    }
  }

  /**
   Wherever a run ends or stops, every installed handler has been destroyed exactly once or is still
   installed on an open channel, if and only if no callback whose channel was closed under it has
   answered 0.
   */
  lemma PaidOnceIffNoStaleReturn(gap: nat, s: Script)
    ensures var w := Last(Run(gap, s)); PaidOnce(w) <==> NoStaleReturn(w.log)
  {
    hide Inv, Run;
    LastIsRight(gap, s);
    var w := Last(Run(gap, s));
    if NoStaleReturn(w.log) {
      forall p: nat, side: Side, d: Debt
        ensures Installs(w.log, p, side, d) == Destroys(w.log, p, side, d) + LiveAt(w.chans, p, side, d)
      {
        BalanceHere(w, p, side, d);
        StaleReturnCounts(w.log, p, side, d);
      }
    } else {
      var p, side, d := StaleReturnIsCounted(w.log);
      BalanceHere(w, p, side, d);
    }
  }

  // ------------------------------------------------------------ channels are freed once, and then are gone

  lemma {:induction false} LawfulMeansOnce(log: Trace, n: nat)
    requires Lawful(log)
    ensures Times(log, Added(n)) == One(Happened(log, Added(n)))
    ensures Times(log, KernelRemoved(n)) == One(Happened(log, KernelRemoved(n)))
    ensures Times(log, Destructed(n)) == One(Happened(log, Destructed(n)))
    ensures Times(log, Released(n)) == One(Happened(log, Released(n)))
    ensures Times(log, Freed(n)) == One(Happened(log, Freed(n)))
    ensures Times(log, TimerFreed(n)) == One(Happened(log, TimerFreed(n)))
  {
    if log.Then? { LawfulMeansOnce(log.past, n); }
  }

  predicate Concerns(e: Event, p: nat) {
    match e
    case Entered(q) => q == p
    case Installed(q, _, _) => q == p
    case Called(q, _, _, _) => q == p
    case Returned(q, _, _, _, _) => q == p
    case Destroyed(q, _, _) => q == p
    case _ => false
  }

  /** Callbacks of the channel that ran after its owner had destroyed it. */
  function CallsAfterRelease(log: Trace, p: nat): nat {
    if log.Start? then 0
    else CallsAfterRelease(log.past, p) + One(log.last.Called? && log.last.p == p && Happened(log.past, Released(p)))
  }

  /** Uses of the channel's record after it had been freed. */
  function UsesAfterFree(log: Trace, p: nat): nat {
    if log.Start? then 0
    else UsesAfterFree(log.past, p) + One(Concerns(log.last, p) && Happened(log.past, Freed(p)))
  }

  /** Times the record was freed while a dispatch of the channel was in progress. */
  function FreesUnderDispatch(log: Trace, p: nat): nat {
    if log.Start? then 0
    else FreesUnderDispatch(log.past, p)
         + One(log.last == Freed(p) && Times(log.past, Entered(p)) != Times(log.past, Left(p)))
  }

  /** Callbacks that found the channel closed before the loop was quit, or open after. */
  function CallsOutOfTime(log: Trace, p: nat): nat {
    if log.Start? then 0
    else CallsOutOfTime(log.past, p)
         + One(log.last.Called? && log.last.p == p && (log.last.open <==> Happened(log.past, Stopped)))
  }

  ghost predicate FreedIsForever(log: Trace, p: nat) {
    Happened(log, Freed(p)) ==> Happened(log, Released(p)) && Happened(log, Opened(p))
  }

  lemma {:induction false} LawfulMeansNever(log: Trace, p: nat)
    requires Lawful(log)
    ensures FreedIsForever(log, p)
    ensures Happened(log, Released(p)) ==> Happened(log, Opened(p))
    ensures CallsAfterRelease(log, p) == 0 && UsesAfterFree(log, p) == 0
    ensures FreesUnderDispatch(log, p) == 0 && CallsOutOfTime(log, p) == 0
  {
    if log.Then? { LawfulMeansNever(log.past, p); }
  }

  /**
   Wherever a run ends or stops, no callback of a channel has run since its owner destroyed it, not even
   when the channel was destroyed from inside one of its own callbacks; its record was freed at most
   once, never while one of its dispatches was in progress, and not used afterwards; and a callback
   found its channel closed if and only if the loop had been quit before.
   */
  lemma ChannelsEndCleanly(gap: nat, s: Script, p: nat)
    ensures var log := Last(Run(gap, s)).log;
            && CallsAfterRelease(log, p) == 0 && UsesAfterFree(log, p) == 0 && FreesUnderDispatch(log, p) == 0
            && CallsOutOfTime(log, p) == 0 && Times(log, Freed(p)) <= 1
  {
    hide Run;
    LastIsRight(gap, s);
    var w := Last(Run(gap, s));
    LawfulMeansNever(w.log, p);
    LawfulMeansOnce(w.log, p);
  }

  /**
   Wherever a run ends or stops, a channel is allocated exactly if its owner holds it or it is being
   dispatched, and counts those references; one that was destroyed owes nothing any more, and has been
   freed exactly once unless it is being dispatched. When a run has ended nothing is being dispatched.
   */
  lemma NothingLeaks(gap: nat, s: Script, p: nat, side: Side, d: Debt)
    ensures var w := Last(Run(gap, s));
            && (p in w.chans <==> p in w.owned || w.frames[p] > 0)
            && (p in w.chans ==> w.chans[p].refs == One(p in w.owned) + w.frames[p])
            && (Run(gap, s).Done? ==> w.frames == multiset{})
            && (Happened(w.log, Released(p)) ==>
                  && Times(w.log, Freed(p)) == One(w.frames[p] == 0)
                  && Destroys(w.log, p, side, d) == Installs(w.log, p, side, d) + Stales(w.log, p, side, d))
  {
    hide Run, Inv, Times, Happened;
    EveryRunIsSound(gap, s);
    var w := Last(Run(gap, s));
    ChannelAccount(w, p);
    BalanceHere(w, p, side, d);
    LawfulHere(w);
    LawfulMeansOnce(w.log, p);
    if p in w.chans && p !in w.owned { ReleasedIsClosed(w, p); }
  }

  lemma ReleasedIsClosed(w: World, p: nat)
    requires Inv(w) && p !in w.owned && p in w.chans
    ensures Silent(w.chans[p])
  {
    hide TableOk, MirrorOk, LinksOk, RefsOk, SilentOk, MasksOk, TimersOk, HandlersOk, EntryLogOk, ChanLogOk,
         TimerLogOk, LedgerOk, Lawful;
    SilentHere(w.chans, w.owned, w.terminate, p);
  }

  lemma LawfulHere(w: World)
    requires Inv(w)
    ensures Lawful(w.log)
  {
    hide TableOk, MirrorOk, LinksOk, RefsOk, SilentOk, MasksOk, TimersOk, HandlersOk, EntryLogOk, ChanLogOk,
         TimerLogOk, LedgerOk, Lawful;
  }

  lemma ChannelAccount(w: World, p: nat)
    requires Inv(w)
    ensures p in w.chans <==> p in w.owned || w.frames[p] > 0
    ensures p in w.chans ==> w.chans[p].refs == One(p in w.owned) + w.frames[p] > 0
    ensures p in w.owned <==> Happened(w.log, Opened(p)) && !Happened(w.log, Released(p))
    ensures p in w.chans <==> Happened(w.log, Opened(p)) && !Happened(w.log, Freed(p))
    ensures Happened(w.log, Released(p)) ==> Happened(w.log, Opened(p))
  {
    hide TableOk, MirrorOk, LinksOk, RefsOk, SilentOk, MasksOk, TimersOk, HandlersOk, EntryLogOk, ChanLogOk,
         TimerLogOk, LedgerOk, Lawful;
    RefsHere(w.chans, w.owned, w.frames, w.next, p);
    LogHere(w.log, w.chans, w.owned, w.frames, w.next, p);
  }

  lemma CloseHere(w: World, p: nat)
    requires Inv(w)
    ensures CloseAt(w.log, Held(w.chans, p), p)
  {
    hide TableOk, MirrorOk, LinksOk, RefsOk, SilentOk, MasksOk, TimersOk, HandlersOk, EntryLogOk, ChanLogOk, TimerLogOk,
         EndsOk, ShotsOk, Lawful;
  }

  /**
   Wherever a run ends or stops, io_destroy_callback has run exactly once for a channel that is no
   longer open and not at all for one that is; the descriptor the channel was made for has been closed
   once if the callback was asked to close it and not at all otherwise, and no other descriptor ever was.
   */
  lemma ChannelsCloseOnce(gap: nat, s: Script, p: nat, fd: int)
    ensures var w := Last(Run(gap, s));
            var open := p in w.chans && w.chans[p].descriptor >= 0;
            && Detachments(w.log, p) == One(Happened(w.log, Opened(p)) && !open)
            && (open ==> w.chans[p].descriptor == FdOf(w.log, p))
            && Times(w.log, ChannelClosed(p, fd)) == One(fd == FdOf(w.log, p) && Happened(w.log, Detached(p, true)))
  {
    hide Run;
    LastIsRight(gap, s);
    var w := Last(Run(gap, s));
    CloseHere(w, p);
    HappenedIffCounted(w.log, Detached(p, true));
    hide Inv;
  }

  lemma {:induction false} HappenedIffCounted(log: Trace, e: Event)
    ensures Happened(log, e) <==> Times(log, e) > 0
  {
    if log.Then? { HappenedIffCounted(log.past, e); }
  }

  // ------------------------------------------------------------ entries

  /** Each destructor of a registered entry runs after the kernel has let go of the descriptor. */
  function EarlyDestructors(log: Trace, id: nat): nat {
    if log.Start? then 0
    else EarlyDestructors(log.past, id) + One(log.last == Destructed(id) && !Happened(log.past, KernelRemoved(id)))
  }

  lemma {:induction false} LawfulMeansOrdered(log: Trace, id: nat)
    requires Lawful(log)
    ensures EarlyDestructors(log, id) == 0
  {
    if log.Then? { LawfulMeansOrdered(log.past, id); }
  }

  lemma EntryAccount(w: World, id: nat)
    requires Inv(w)
    ensures InTable(w.reg, id) <==> Happened(w.log, Added(id)) && !Happened(w.log, Destructed(id))
    ensures Happened(w.log, Destructed(id)) ==> Happened(w.log, Added(id))
  {
    hide TableOk, MirrorOk, LinksOk, RefsOk, SilentOk, MasksOk, TimersOk, HandlersOk, EntryLogOk, ChanLogOk,
         TimerLogOk, LedgerOk, Lawful;
    EntryHere(w.log, w.reg, w.next, id);
  }

  /**
   Wherever a run ends or stops, the destructor of an entry has run exactly once if the entry was
   registered and has left the table, never otherwise, and not before the kernel stopped watching the
   descriptor.
   */
  lemma DestructorsRunOnce(gap: nat, s: Script, id: nat)
    ensures var w := Last(Run(gap, s));
            && Times(w.log, Destructed(id)) == One(Happened(w.log, Added(id)) && !InTable(w.reg, id))
            && EarlyDestructors(w.log, id) == 0
  {
    hide Run;
    LastIsRight(gap, s);
    var w := Last(Run(gap, s));
    EntryAccount(w, id);
    LawfulHere(w);
    LawfulMeansOnce(w.log, id);
    LawfulMeansOrdered(w.log, id);
    hide Inv;
  }

  lemma ClosedWhenEmpty(w: World, p: nat)
    requires Inv(w) && w.reg == [] && p in w.chans
    ensures w.chans[p].descriptor == -1
  {
    hide TableOk, MirrorOk, RefsOk, SilentOk, MasksOk, TimersOk, HandlersOk, EntryLogOk, ChanLogOk, TimerLogOk,
         LedgerOk, Lawful;
    LinkHere(w.reg, w.chans, w.owned, p);
  }

  lemma NoTimersWhenEmpty(w: World)
    requires Inv(w) && w.reg == []
    ensures w.timers == map[]
  {
    hide TableOk, MirrorOk, LinksOk, RefsOk, SilentOk, MasksOk, HandlersOk, EntryLogOk, ChanLogOk, TimerLogOk,
         LedgerOk, Lawful;
    assert forall t :: t in w.timers ==> Registered(w.reg, w.timers[t].id, Timer(t));
    assert forall t :: t !in w.timers;
  }

  // ------------------------------------------------------------ events of entries that are gone

  /** The trace, with the event that a run stopped over. */
  function Seen(r: Out<World>): Trace {
    match r
    case Done(v) => v.log
    case Halt(why, at) => if why.StaleEvent? then Then(at.log, Picked(why.id)) else at.log
  }

  /** Some event was taken from a pool when the destructor of its entry had run. */
  predicate PicksDestructed(log: Trace) {
    log.Then? &&
    ((log.last.Picked? && Happened(log.past, Destructed(log.last.id))) || PicksDestructed(log.past))
  }

  lemma {:induction false} LawfulPicks(log: Trace)
    requires Lawful(log)
    ensures !PicksDestructed(log)
  {
    if log.Then? { LawfulPicks(log.past); }
  }

  /** A piece of a run stops over a stale event exactly if it sees an event of an entry whose destructor has run. */
  lemma StaleMeansDestructed(w: World, r: Out<World>, pools: multiset<nat>)
    requires Keeps(w, r, pools)
    ensures r.Halt? && r.why.StaleEvent? <==> PicksDestructed(Seen(r))
  {
    var v := if r.Done? then r.value else r.at;
    LawfulHere(v);
    LawfulPicks(v.log);
    hide Inv;
  }

  /**
   Any run, however its callbacks nest, runs into a freed entry if and only if an event is taken from
   an event pool when the destructor of its entry has run.
   */
  lemma RunIsStaleIff(gap: nat, s: Script)
    ensures var r := Ended(Run(gap, s)); r.Halt? && r.why.StaleEvent? <==> PicksDestructed(Seen(r))
  {
    hide Inv;
    InitOk(gap);
    ScriptKeeps(Init(gap), s);
    StaleMeansDestructed(Init(gap), Ended(Run(gap, s)), multiset{});
  }

  // ------------------------------------------------------------ quitting

  /**
   loop_quit succeeds from every right state, destructs every entry that was ever registered and
   has not been destructed yet, closes every channel, frees every timer, and a second loop_quit
   finds nothing to do.
   */
  lemma QuitFinishesEverything(w: World, id: nat, p: nat)
    requires Inv(w)
    ensures LoopQuit(w).Done?
    ensures var v := LoopQuit(w).value;
            && Inv(v) && v.timers == map[] && v.kernel == map[]
            && (Happened(v.log, Added(id)) ==> Times(v.log, Destructed(id)) == 1)
            && v.chans.Keys == w.chans.Keys
            && (p in v.chans ==> v.chans[p].descriptor == -1)
            && LoopQuit(v) == Done(Note(v, Stopped))
  {
    LoopQuitKeeps(w);
    var v := LoopQuit(w).value;
    assert v.kernel == map[] && v.count == 0;
    assert LoopQuit(v) == Done(Note(v, Stopped));
    hide Inv, LoopQuit;
    NoTimersWhenEmpty(v);
    EntryAccount(v, id);
    LawfulHere(v);
    LawfulMeansOnce(v.log, id);
    if p in v.chans { ClosedWhenEmpty(v, p); }
  }
}

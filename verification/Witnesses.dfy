/** What happens, in every state it can happen in, when the conditions of the theorems are not met. */
module Witnesses {
  import opened Events
  import opened LoopTable
  import opened World
  import opened Lifecycle
  import opened Invariant
  import opened Frames
  import opened Steps
  import opened StepsTable
  import opened StepsChannel
  import opened StepsRetire
  import opened Runs
  import opened ChannelTheorems
  import opened StepsLedger
  import opened Theorems
  import opened Pools

  /**
   With the shift as written, removing a registered descriptor spoils the table exactly if it is
   not the one registered last; with a shift that moves every later slot it never does.
   */
  lemma RemovalSpoilsTableIff(w: World, sd: int)
    requires Inv(w) && w.gap in {1, 2} && sd >= 0 && Find(w.reg, sd) < |w.reg|
    ensures LoopRemove(w, sd).Stops(CorruptTable) <==> w.gap == 2 && Find(w.reg, sd) + 1 < |w.reg|
  {
    hide Inv, Retire, Shift, Without;
    var k := Find(w.reg, sd);
    TableHere(w);
    assert forall i, j :: 0 <= i < j < |w.reg| ==> w.reg[i] != w.reg[j];
    ShiftByOneDeletes(w.reg, k);
    ShiftAsWrittenDeletesIffLast(w.reg, k);
    RetireHalts(Unlinked(w, k), w.reg[k]);
    RetireHalts(w.(reg := Shift(w.reg, k, w.gap)), w.reg[k]);
  }

  lemma RetireHalts(w: World, e: Row)
    ensures !Retire(w, e).Stops(CorruptTable)
  {
  }

  /** Destroying an open channel spoils the table in the same cases, and otherwise succeeds. */
  lemma DestroySpoilsTableIff(w: World, p: nat)
    requires Inv(w) && p in w.owned && p in w.chans && w.gap in {1, 2} && w.chans[p].descriptor >= 0
    ensures IoDestroy(w, p).Stops(CorruptTable) <==> w.gap == 2 && Find(w.reg, w.chans[p].descriptor) + 1 < |w.reg|
    ensures IoDestroy(w, p).Done? || IoDestroy(w, p).Stops(CorruptTable)
  {
    hide Inv, LoopRemove, MuteAll, Release;
    MutedIs(w, p);
    var w1 := MuteAll(w, p);
    HolderIs(w1, w1.chans[p].descriptor, p);
    RemovalSpoilsTableIff(w1, w1.chans[p].descriptor);
    IoDestroyKeeps(w, p);
    IoDestroyHalts(w, p);
    if LoopRemove(w1, w1.chans[p].descriptor).Done? { StillStored(w1, p); }
  }

  lemma StillStored(w: World, p: nat)
    requires Inv(w) && p in w.chans && w.chans[p].descriptor >= 0 && Silent(w.chans[p].(descriptor := -1))
    requires LoopRemove(w, w.chans[p].descriptor).Done?
    ensures p in LoopRemove(w, w.chans[p].descriptor).value.chans
  {
    hide Inv, LoopRemove;
    RemoveCounts(w, p, Read, Debt(0, 0));
  }

  // ------------------------------------------------------------ a callback destroys its channel and answers 0

  lemma RemoveCounts(w: World, p: nat, side: Side, d: Debt)
    requires Inv(w) && p in w.chans && w.chans[p].descriptor >= 0 && Silent(w.chans[p].(descriptor := -1))
    requires LoopRemove(w, w.chans[p].descriptor).Done?
    ensures var v := LoopRemove(w, w.chans[p].descriptor).value;
            && Destroys(v.log, p, side, d) == Destroys(w.log, p, side, d) + Owes(w.chans[p].At(side), d)
            && Installs(v.log, p, side, d) == Installs(w.log, p, side, d)
            && p in v.chans && v.chans[p] == w.chans[p].(descriptor := -1)
  {
    hide Core, Retire, Without, Shift, DestroyedLog, RetiredLog;
    HolderIs(w, w.chans[p].descriptor, p);
    var k := Find(w.reg, w.chans[p].descriptor);
    RetireChannelKeeps(w, k);
    RetiredUnheard(w.log, w.reg[k].id, p, side, d);
    DestroyedLogCounts(RetiredLog(w.log, w.reg[k].id), p, w.chans[p], p, side, d);
  }

  lemma RetiredUnheard(log: Trace, id: nat, p: nat, side: Side, d: Debt)
    ensures Destroys(RetiredLog(log, id), p, side, d) == Destroys(log, p, side, d)
    ensures Installs(RetiredLog(log, id), p, side, d) == Installs(log, p, side, d)
  {
    HandlerUnheard(log, KernelRemoved(id), p, side, d);
    HandlerUnheard(Then(log, KernelRemoved(id)), Destructed(id), p, side, d);
  }

  lemma ReleaseCounts(w: World, p: nat, side: Side, d: Debt)
    requires p in w.chans
    ensures var v := Release(w, p);
            && Destroys(v.log, p, side, d) == Destroys(w.log, p, side, d)
            && Installs(v.log, p, side, d) == Installs(w.log, p, side, d)
            && (p in v.chans ==> v.chans[p] == w.chans[p].(refs := w.chans[p].refs - 1))
  {
    HandlerUnheard(w.log, Released(p), p, side, d);
    HandlerUnheard(Then(w.log, Released(p)), Freed(p), p, side, d);
  }

  /** io_destroy runs each destroyer of an open channel once but leaves the destroyers in place. */
  lemma IoDestroyCounts(w: World, p: nat, side: Side, d: Debt)
    requires Inv(w) && p in w.owned && p in w.chans && w.chans[p].descriptor >= 0 && IoDestroy(w, p).Done?
    ensures var v := IoDestroy(w, p).value;
            && Destroys(v.log, p, side, d) == Destroys(w.log, p, side, d) + Owes(w.chans[p].At(side), d)
            && Installs(v.log, p, side, d) == Installs(w.log, p, side, d)
            && (p in v.chans ==>
                  && v.chans[p].descriptor == -1
                  && v.chans[p].At(side).data == w.chans[p].At(side).data
                  && v.chans[p].At(side).destroy == w.chans[p].At(side).destroy)
  {
    hide Inv, LoopRemove, MuteAll, Release;
    MutedIs(w, p);
    MuteAllFrame(w, p);
    var w1 := MuteAll(w, p);
    RemoveCounts(w1, p, side, d);
    ReleaseCounts(LoopRemove(w1, w1.chans[p].descriptor).value, p, side, d);
  }

  lemma RetiredLogCloses(log: Trace, id: nat, p: nat, c: Chan, fd: int)
    ensures Times(DestroyedLog(RetiredLog(log, id), p, c), ChannelClosed(p, fd))
         == Times(log, ChannelClosed(p, fd)) + One(c.closeOnDestroy && fd == c.descriptor)
  {
    var e := ChannelClosed(p, fd);
    var log1 := Then(log, KernelRemoved(id));
    assert Times(log1, e) == Times(log, e) && Times(RetiredLog(log, id), e) == Times(log1, e);
    hide RetiredLog;
    var log2 := Settle(RetiredLog(log, id), p, Write, c.write);
    var log3 := Settle(log2, p, Read, c.read);
    var log4 := Settle(log3, p, Disconnect, c.disconnect);
    assert Times(log2, e) == Times(log, e) && Times(log3, e) == Times(log, e) && Times(log4, e) == Times(log, e);
    hide Settle;
    ClosedLogCounts(log4, p, c.descriptor, c.closeOnDestroy, p, fd);
  }

  lemma RemoveCloses(w: World, p: nat, fd: int)
    requires Inv(w) && p in w.chans && w.chans[p].descriptor >= 0 && Silent(w.chans[p].(descriptor := -1))
    requires LoopRemove(w, w.chans[p].descriptor).Done?
    ensures var v := LoopRemove(w, w.chans[p].descriptor).value;
            && p in v.chans
            && Times(v.log, ChannelClosed(p, fd))
            == Times(w.log, ChannelClosed(p, fd)) + One(w.chans[p].closeOnDestroy && fd == w.chans[p].descriptor)
  {
    hide Core, Retire, Without, Shift, DestroyedLog, RetiredLog;
    HolderIs(w, w.chans[p].descriptor, p);
    var k := Find(w.reg, w.chans[p].descriptor);
    RetireChannelKeeps(w, k);
    RetiredLogCloses(w.log, w.reg[k].id, p, w.chans[p], fd);
  }

  /** io_destroy closes the descriptor of an open channel if it was asked to, and no other. */
  lemma IoDestroyCloses(w: World, p: nat, fd: int)
    requires Inv(w) && p in w.owned && p in w.chans && w.chans[p].descriptor >= 0 && IoDestroy(w, p).Done?
    ensures Times(IoDestroy(w, p).value.log, ChannelClosed(p, fd))
         == Times(w.log, ChannelClosed(p, fd)) + One(w.chans[p].closeOnDestroy && fd == w.chans[p].descriptor)
  {
    hide Inv, LoopRemove, MuteAll, Release;
    MutedIs(w, p);
    MuteAllFrame(w, p);
    var w1 := MuteAll(w, p);
    RemoveCloses(w1, p, fd);
    var v := LoopRemove(w1, w1.chans[p].descriptor).value;
    ReleaseCloses(v, p, fd);
  }

  lemma ReleaseCloses(w: World, p: nat, fd: int)
    requires p in w.chans
    ensures Times(Release(w, p).log, ChannelClosed(p, fd)) == Times(w.log, ChannelClosed(p, fd))
  {
    assert Times(Then(w.log, Released(p)), ChannelClosed(p, fd)) == Times(w.log, ChannelClosed(p, fd));
  }

  lemma FinishClosedCounts(w: World, p: nat, side: Side, granted: bool, d: Debt)
    requires p in w.chans && w.chans[p].descriptor == -1
    ensures var log := Finish(w, p, side, 0, granted).log;
            && Destroys(log, p, side, d) == Destroys(w.log, p, side, d) + Owes(w.chans[p].At(side), d)
            && Installs(log, p, side, d) == Installs(w.log, p, side, d)
  {
    var h := w.chans[p].At(side);
    var e := Returned(p, side, h, 0, false);
    assert Destroys(Then(w.log, e), p, side, d) == Destroys(w.log, p, side, d);
    SettledHandlers(Then(w.log, e), p, side, h, p, side, d);
  }

  /**
   In every state, a callback that destroys its own channel and then answers 0 has its destroyer
   called twice on the same data.
   */
  lemma GivingUpADestroyedChannel(w: World, p: nat, side: Side, granted: bool)
    requires Inv(w) && p in w.chans && w.frames[p] > 0 && w.chans[p].descriptor >= 0
    requires w.chans[p].At(side).callback != 0 && w.chans[p].At(side).destroy != 0
    ensures var r := Serve(w, p, side, Do(Destroy(p), Return(0, granted)));
            var d := Debt(w.chans[p].At(side).destroy, w.chans[p].At(side).data);
            && (w.gap == 1 || (w.gap == 2 && Find(w.reg, w.chans[p].descriptor) + 1 == |w.reg|) ==> r.Done?)
            && (r.Done? ==>
                  && Destroys(r.value.log, p, side, d) == Destroys(w.log, p, side, d) + 2
                  && Installs(r.value.log, p, side, d) == Installs(w.log, p, side, d))
  {
    hide Inv, IoDestroy, Finish;
    var h := w.chans[p].At(side);
    var d := Debt(h.destroy, h.data);
    var w1 := Note(w, Called(p, side, h, true));
    CalledKeeps(w, p, side);
    SilentOwner(w, p);
    HandlerUnheard(w.log, Called(p, side, h, true), p, side, d);
    var s := Do(Destroy(p), Return(0, granted));
    var r := IoDestroy(w1, p);
    DestroyThenReturn(w1, p, granted);
    IoDestroyKeeps(w1, p);
    IoDestroyHalts(w1, p);
    if w.gap in {1, 2} { DestroySpoilsTableIff(w1, p); }
    if r.Done? { FrameIsAllocated(r.value, p); }
    if r.Done? && p in r.value.chans {
      IoDestroyCounts(w1, p, side, d);
      FinishClosedCounts(r.value, p, side, granted, d);
    }
  }

  lemma IoDestroyHalts(w: World, p: nat)
    requires p in w.chans
    ensures var r := IoDestroy(w, p); r.Halt? ==> r.why in {CorruptTable, UseAfterFree}
  {
    hide MuteAll, Release, DestroyCallback, TimerDestructor;
  }

  lemma DestroyThenReturn(w: World, p: nat, granted: bool)
    requires p in w.owned && p in w.chans
    ensures RunScript(w, Do(Destroy(p), Return(0, granted)))
         == match IoDestroy(w, p) case Done(v) => Done(Result(v, 0, granted)) case Halt(why, at) => Halt(why, at)
  {
    hide IoDestroy;
    var r := IoDestroy(w, p);
    assert RunCall(w, Destroy(p)) == r;
    if r.Done? { assert RunScript(r.value, Return(0, granted)) == Done(Result(r.value, 0, granted)); }
  }

  // ------------------------------------------------------------ a callback quits the loop

  lemma QuitKeepsHandlers(w: World, p: nat)
    requires Inv(w) && p in w.chans
    ensures var r := LoopQuit(w);
            && r.Done? && p in r.value.chans && r.value.chans[p].descriptor == -1
            && r.value.chans[p] == w.chans[p].(descriptor := -1)
  {
    hide Inv, LoopQuit;
    LoopQuitKeeps(w);
    ClosedWhenEmpty(LoopQuit(w).value, p);
  }

  lemma QuitThenReturn(w: World)
    requires LoopQuit(w).Done?
    ensures RunScript(w, Do(Quit, Return(1, true))) == Done(Result(LoopQuit(w).value, 1, true))
  {
    hide LoopQuit;
    assert RunCall(w, Quit) == LoopQuit(w);
    var v := LoopQuit(w).value;
    assert RunScript(v, Return(1, true)) == Done(Result(v, 1, true));
  }

  /**
   In every state, if a read callback quits the loop, the write callback of the same event runs
   although the channel has been closed and its write destroyer has been called.
   */
  lemma QuitInReadCallbackRunsWriteCallback(w: World, p: nat, r: Reaction)
    requires Inv(w) && p in w.chans && w.frames[p] > 0 && w.chans[p].descriptor >= 0
    requires w.chans[p].read.callback != 0 && w.chans[p].write.callback != 0
    requires r.OnChannel? && r.read == Do(Quit, Return(1, true)) && r.write == Return(1, true)
    ensures var t := Transfer(w, p, {IN, OUT}, r);
            t.Done? && Happened(t.value.log, Called(p, Write, w.chans[p].write, false))
  {
    hide Inv, LoopQuit;
    var c := w.chans[p];
    CalledKeeps(w, p, Read);
    var w1 := Note(w, Called(p, Read, c.read, true));
    QuitKeepsHandlers(w1, p);
    QuitThenReturn(w1);
    var v := LoopQuit(w1).value;
    var w2 := Note(v, Returned(p, Read, c.read, 1, false));
    assert Serve(w, p, Read, r.read) == Done(w2);
    var w3 := Note(w2, Called(p, Write, c.write, false));
    assert RunScript(w3, Return(1, true)) == Done(Result(w3, 1, true));
    assert Serve(w2, p, Write, r.write) == Done(Note(w3, Returned(p, Write, c.write, 1, false)));
  }
}

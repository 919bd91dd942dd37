/** Which callbacks an event calls, in which order, and that those that were asked for are reached. */
module Dispatches {
  import opened Events
  import opened LoopTable
  import opened World
  import opened Lifecycle
  import opened Frames
  import opened Invariant
  import opened Pools
  import opened Steps
  import opened StepsTable
  import opened StepsLedger
  import opened StepsRetire
  import opened StepsAdd
  import opened Runs
  import opened Growth

  predicate HangsUp(flags: Mask): (b: bool)
    ensures b <==> flags * {RDHUP, HUP, ERR} != {}
  {
    var m := flags * {RDHUP, HUP, ERR};
    assert (RDHUP in flags ==> RDHUP in m) && (HUP in flags ==> HUP in m) && (ERR in flags ==> ERR in m);
    RDHUP in flags || HUP in flags || ERR in flags
  }

  // ------------------------------------------------------------ one part after the other

  /** From u on: the callback of that side is called next if there is one, and otherwise nothing happens. */
  ghost predicate Meets(u: World, p: nat, side: Side, v: World) {
    && p in u.chans
    && var h := u.chans[p].At(side);
       if h.callback == 0 then v == u
       else Extends(Then(u.log, Called(p, side, h, u.chans[p].descriptor >= 0)), v.log, false)
  }

  lemma ServeMeets(w: World, p: nat, side: Side, s: Script)
    requires p in w.chans && Serve(w, p, side, s).Done?
    ensures Meets(w, p, side, Serve(w, p, side, s).value)
  {
    ServeExtends(w, p, side, s, false);
    hide Extends, RunScript, Finish;
  }

  /**
   With OUT in the flags an event does what it does without, and then meets the write callback that is
   installed when that is done.
   */
  lemma WriteIsMet(w: World, p: nat, flags: Mask, r: Reaction)
    requires Inv(w) && w.frames[p] > 0 && p in w.chans && r.OnChannel? && OUT in flags
    requires Dispatch(w, p, flags, r).Done?
    ensures var before := Dispatch(w, p, flags - {OUT}, r);
            before.Done? && Meets(before.value, p, Write, Dispatch(w, p, flags, r).value)
  {
    hide Inv, Meets, LoopRemove;
    SameHangUp(flags, OUT);
    var w1 := Mute(Mute(w, p, Read), p, Write);
    if HangsUp(flags) && w1.chans[p].disconnect.callback == 0 {
      RemovedIsMuted(w, p);
      MeetsNothing(LoopRemove(w1, w1.chans[p].descriptor).value, p, Write);
    } else {
      var u := if HangsUp(flags) then Serve(w1, p, Disconnect, r.disconnect).value else w;
      HangUpKeeps(w, p, r.disconnect);
      WriteAfterRead(u, p, flags, r);
    }
  }

  lemma SameHangUp(flags: Mask, f: Flag)
    requires f in {IN, OUT}
    ensures HangsUp(flags - {f}) == HangsUp(flags)
  {
    assert forall g: Flag :: g in {RDHUP, HUP, ERR} ==> (g in flags - {f} <==> g in flags);
    assert flags * {RDHUP, HUP, ERR} == (flags - {f}) * {RDHUP, HUP, ERR};
  }

  lemma MeetsNothing(u: World, p: nat, side: Side)
    requires p in u.chans && u.chans[p].At(side).callback == 0
    ensures Meets(u, p, side, u)
  {
  }

  /** The disconnect part of a hang-up that has a callback. */
  lemma HangUpKeeps(w: World, p: nat, s: Script)
    requires Inv(w) && w.frames[p] > 0 && p in w.chans
    ensures var w1 := Mute(Mute(w, p, Read), p, Write);
            && p in Mute(w, p, Read).chans && p in w1.chans && Inv(w1) && w1.frames == w.frames && w1.log == w.log
            && w1.chans[p] == w.chans[p].Mute(Read).Mute(Write)
            && var o := Serve(w1, p, Disconnect, s);
               o.Done? ==> Inv(o.value) && o.value.frames == w.frames && p in o.value.chans
  {
    hide Inv, Serve;
    MuteKeeps(w, p, Read);
    MuteFrame(w, p, Read);
    MuteKeeps(Mute(w, p, Read), p, Write);
    MuteFrame(Mute(w, p, Read), p, Write);
    var w1 := Mute(Mute(w, p, Read), p, Write);
    ServeKeeps(w1, p, Disconnect, s);
    var o := Serve(w1, p, Disconnect, s);
    if o.Done? { FrameIsAllocated(o.value, p); }
  }

  /** A hang-up without a callback leaves a record without any. */
  lemma RemovedIsMuted(w: World, p: nat)
    requires Inv(w) && w.frames[p] > 0 && p in w.chans && w.chans[p].disconnect.callback == 0
    ensures var w1 := Mute(Mute(w, p, Read), p, Write);
            && p in Mute(w, p, Read).chans && p in w1.chans
            && var o := LoopRemove(w1, w1.chans[p].descriptor);
               o.Done? ==> p in o.value.chans && Silent(o.value.chans[p])
  {
    hide Inv, LoopRemove;
    HangUpKeeps(w, p, Return(1, true));
    var w1 := Mute(Mute(w, p, Read), p, Write);
    HolderIs(w1, w1.chans[p].descriptor, p);
    LoopRemoveKeeps(w1, w1.chans[p].descriptor);
  }

  lemma WriteAfterRead(w: World, p: nat, flags: Mask, r: Reaction)
    requires Inv(w) && w.frames[p] > 0 && p in w.chans && r.OnChannel? && OUT in flags
    requires Transfer(w, p, flags, r).Done?
    ensures var before := Transfer(w, p, flags - {OUT}, r);
            before.Done? && Meets(before.value, p, Write, Transfer(w, p, flags, r).value)
  {
    hide Inv, Serve, Meets;
    ServeKeeps(w, p, Read, r.read);
    var s := if IN in flags then Serve(w, p, Read, r.read) else Done(w);
    FrameIsAllocated(s.value, p);
    ServeMeets(s.value, p, Write, r.write);
  }

  /** With IN in the flags, and without OUT, the read callback is met in the same way. */
  lemma ReadIsMet(w: World, p: nat, flags: Mask, r: Reaction)
    requires Inv(w) && w.frames[p] > 0 && p in w.chans && r.OnChannel? && IN in flags && OUT !in flags
    requires Dispatch(w, p, flags, r).Done?
    ensures var before := Dispatch(w, p, flags - {IN}, r);
            before.Done? && Meets(before.value, p, Read, Dispatch(w, p, flags, r).value)
  {
    hide Inv, Meets, LoopRemove, Serve;
    SameHangUp(flags, IN);
    var w1 := Mute(Mute(w, p, Read), p, Write);
    if HangsUp(flags) && w1.chans[p].disconnect.callback == 0 {
      RemovedIsMuted(w, p);
      MeetsNothing(LoopRemove(w1, w1.chans[p].descriptor).value, p, Read);
    } else {
      var u := if HangsUp(flags) then Serve(w1, p, Disconnect, r.disconnect).value else w;
      HangUpKeeps(w, p, r.disconnect);
      ServeMeets(u, p, Read, r.read);
    }
  }

  /** The record without a read and a write callback. */
  function Muted(w: World, p: nat): World
    requires p in w.chans
  {
    w.(chans := w.chans[p := w.chans[p].Mute(Read).Mute(Write)])
  }

  /**
   Without IN and OUT an event does nothing unless it is a hang-up. On a hang-up the read and write
   callbacks are cleared; then the disconnect callback is met if there is one, and otherwise the channel
   is closed without any callback being called.
   */
  lemma DisconnectIsMet(w: World, p: nat, flags: Mask, r: Reaction)
    requires Inv(w) && w.frames[p] > 0 && p in w.chans && r.OnChannel? && IN !in flags && OUT !in flags
    requires Dispatch(w, p, flags, r).Done?
    ensures var v := Dispatch(w, p, flags, r).value;
            && (!HangsUp(flags) ==> v == w)
            && (HangsUp(flags) && w.chans[p].disconnect.callback != 0 ==> Meets(Muted(w, p), p, Disconnect, v))
            && (HangsUp(flags) && w.chans[p].disconnect.callback == 0 ==> p in v.chans && Silent(v.chans[p]))
  {
    hide Inv, Meets, LoopRemove, Serve;
    if HangsUp(flags) {
      var w1 := Mute(Mute(w, p, Read), p, Write);
      HangUpKeeps(w, p, r.disconnect);
      MutedTwice(w, p);
      if w.chans[p].disconnect.callback == 0 {
        RemovedIsMuted(w, p);
      } else {
        ServeMeets(w1, p, Disconnect, r.disconnect);
      }
    }
  }

  lemma MutedTwice(w: World, p: nat)
    requires p in w.chans
    ensures p in Mute(w, p, Read).chans && Mute(Mute(w, p, Read), p, Write) == Muted(w, p)
  {
    var c := w.chans[p].Mute(Read);
    assert w.chans[p := c][p := c.Mute(Write)] == w.chans[p := c.Mute(Write)];
  }

  // ------------------------------------------------------------ the first callback of an event

  /** The trace when the event of a channel is about to be dispatched. */
  function Entering(log: Trace, id: nat, p: nat): Trace {
    Then(Then(log, Picked(id)), Entered(p))
  }

  /**
   What an event calls first, whatever its callbacks do: the disconnect callback on a hang-up, else the
   read callback if there is input, else the write callback if there is room for output. If there is none
   of these, a hang-up closes the channel and leaves a record without callbacks, and anything else is over.
   */
  ghost predicate CallsFirst(w: World, id: nat, p: nat, flags: Mask, v: World)
    requires p in w.chans
  {
    var c, log := w.chans[p], Entering(w.log, id, p);
    if HangsUp(flags) then
      if c.disconnect.callback != 0 then Extends(Then(log, Called(p, Disconnect, c.disconnect, true)), v.log, false)
      else p in v.chans ==> Silent(v.chans[p])
    else if IN in flags && c.read.callback != 0 then Extends(Then(log, Called(p, Read, c.read, true)), v.log, false)
    else if OUT in flags && c.write.callback != 0 then Extends(Then(log, Called(p, Write, c.write, true)), v.log, false)
    else v == w.(pools := w.pools - multiset{id}, log := Then(log, Left(p)))
  }

  lemma EventCallsFirst(w: World, k: nat, p: nat, flags: Mask, r: Reaction)
    requires Inv(w) && k < |w.reg| && w.reg[k].client == Channel(p) && w.pools[w.reg[k].id] > 0 && r.OnChannel?
    requires RunEvent(w, w.reg[k].id, Channel(p), flags, r).Done?
    ensures p in w.chans && CallsFirst(w, w.reg[k].id, p, flags, RunEvent(w, w.reg[k].id, Channel(p), flags, r).value)
  {
    hide Inv, CallsFirst, Dispatch, Leave, Enter;
    var id := w.reg[k].id;
    ClientIsAllocated(w, k);
    OpenHere(w, k, p);
    assert InTable(w.reg, id);
    DrawKeeps(w, id);
    var w0 := Drawn(w, id);
    EnterKeeps(w0, p);
    EnterFrame(w0, p);
    EnterLog(w0, p);
    var d := Dispatch(Enter(w0, p), p, flags, r);
    DispatchKeeps(Enter(w0, p), p, flags, r);
    DispatchCallsFirst(Enter(w0, p), p, flags, r);
    CountHere(w, p);
    FrameIsAllocated(d.value, p);
    EndsWithLeaving(w, id, p, flags, d.value);
  }

  lemma OpenHere(w: World, k: nat, p: nat)
    requires Inv(w) && k < |w.reg| && w.reg[k].client == Channel(p)
    ensures p in w.chans && w.chans[p].descriptor == w.reg[k].sd >= 0
  {
    hide MirrorOk, RefsOk, SilentOk, MasksOk, TimersOk, HandlersOk, EntryLogOk, ChanLogOk, TimerLogOk, LedgerOk, Lawful;
    assert EntryLinked(w.reg[k], w.chans, w.owned);
  }

  lemma EnterLog(w: World, p: nat)
    requires p in w.chans
    ensures Enter(w, p).log == Then(w.log, Entered(p))
  {
  }

  /** The same between the reference that a dispatch takes and the one it gives back. */
  ghost predicate DispatchedFirst(w: World, p: nat, flags: Mask, v: World)
    requires p in w.chans
  {
    var c := w.chans[p];
    if HangsUp(flags) then
      if c.disconnect.callback != 0 then Extends(Then(w.log, Called(p, Disconnect, c.disconnect, true)), v.log, false)
      else p in v.chans && Silent(v.chans[p])
    else if IN in flags && c.read.callback != 0 then Extends(Then(w.log, Called(p, Read, c.read, true)), v.log, false)
    else if OUT in flags && c.write.callback != 0 then
      Extends(Then(w.log, Called(p, Write, c.write, true)), v.log, false)
    else v == w
  }

  lemma DispatchCallsFirst(w: World, p: nat, flags: Mask, r: Reaction)
    requires Inv(w) && w.frames[p] > 0 && p in w.chans && r.OnChannel? && w.chans[p].descriptor >= 0
    requires Dispatch(w, p, flags, r).Done?
    ensures DispatchedFirst(w, p, flags, Dispatch(w, p, flags, r).value)
  {
    hide Inv, LoopRemove, Serve, Transfer, Extends;
    var v := Dispatch(w, p, flags, r).value;
    if HangsUp(flags) {
      var w1 := Mute(Mute(w, p, Read), p, Write);
      HangUpKeeps(w, p, r.disconnect);
      if w.chans[p].disconnect.callback == 0 {
        RemovedIsMuted(w, p);
        HangUpRemoves(w, p, flags, r);
      } else {
        var o := Serve(w1, p, Disconnect, r.disconnect);
        ServeMeets(w1, p, Disconnect, r.disconnect);
        TransferExtends(o.value, p, flags, r, false);
        ExtendsTwice(Then(w.log, Called(p, Disconnect, w.chans[p].disconnect, true)), o.value.log, v.log, false);
      }
    } else {
      TransferCallsFirst(w, p, flags, r);
    }
  }

  lemma HangUpRemoves(w: World, p: nat, flags: Mask, r: Reaction)
    requires p in w.chans && r.OnChannel? && HangsUp(flags) && w.chans[p].disconnect.callback == 0
    ensures p in Mute(w, p, Read).chans
    ensures var w1 := Mute(Mute(w, p, Read), p, Write);
            p in w1.chans && Dispatch(w, p, flags, r) == LoopRemove(w1, w1.chans[p].descriptor)
  {
    hide LoopRemove, Serve, Transfer;
  }

  lemma TransferCallsFirst(w: World, p: nat, flags: Mask, r: Reaction)
    requires Inv(w) && w.frames[p] > 0 && p in w.chans && r.OnChannel? && w.chans[p].descriptor >= 0
    requires Transfer(w, p, flags, r).Done? && !HangsUp(flags)
    ensures DispatchedFirst(w, p, flags, Transfer(w, p, flags, r).value)
  {
    hide Inv, Serve, Extends;
    var v := Transfer(w, p, flags, r).value;
    if IN in flags {
      ServeMeets(w, p, Read, r.read);
      var s := Serve(w, p, Read, r.read);
      if OUT in flags {
        ServeExtends(s.value, p, Write, r.write, false);
        if w.chans[p].read.callback != 0 {
          ExtendsTwice(Then(w.log, Called(p, Read, w.chans[p].read, true)), s.value.log, v.log, false);
        } else {
          ServeMeets(w, p, Write, r.write);
        }
      }
    } else if OUT in flags {
      ServeMeets(w, p, Write, r.write);
    }
  }

  lemma EndsWithLeaving(w: World, id: nat, p: nat, flags: Mask, u: World)
    requires p in w.chans && p in u.chans && w.chans[p].refs > 0
    requires p in Enter(Drawn(w, id), p).chans && DispatchedFirst(Enter(Drawn(w, id), p), p, flags, u)
    ensures CallsFirst(w, id, p, flags, Leave(u, p))
  {
    hide Extends, Leave, Enter;
    var w0 := Drawn(w, id);
    EnterFrame(w0, p);
    EnterLog(w0, p);
    LeaveFrame(u, p);
    LeaveExtends(u, p);
    ExtendsAnyway(u.log, Leave(u, p).log, true);
    var c, log := w.chans[p], Entering(w.log, id, p);
    if HangsUp(flags) {
      if c.disconnect.callback != 0 {
        ExtendsTwice(Then(log, Called(p, Disconnect, c.disconnect, true)), u.log, Leave(u, p).log, false);
      }
    } else if IN in flags && c.read.callback != 0 {
      ExtendsTwice(Then(log, Called(p, Read, c.read, true)), u.log, Leave(u, p).log, false);
    } else if OUT in flags && c.write.callback != 0 {
      ExtendsTwice(Then(log, Called(p, Write, c.write, true)), u.log, Leave(u, p).log, false);
    } else {
      EnterAndLeave(w0, p);
    }
  }

  /** A dispatch that does nothing in between changes nothing but the trace. */
  lemma EnterAndLeave(w: World, p: nat)
    requires p in w.chans && w.chans[p].refs > 0
    ensures p in Enter(w, p).chans
    ensures Leave(Enter(w, p), p) == w.(log := Then(Then(w.log, Entered(p)), Left(p)))
  {
    var c := w.chans[p];
    assert w.frames + multiset{p} - multiset{p} == w.frames;
    assert w.chans[p := c.(refs := c.refs + 1)][p := c.(refs := c.refs)] == w.chans;
  }

  lemma CountHere(w: World, p: nat)
    requires Inv(w) && p in w.chans
    ensures w.chans[p].refs > 0
  {
    hide TableOk, MirrorOk, LinksOk, RefsOk, SilentOk, MasksOk, TimersOk, HandlersOk, EntryLogOk, ChanLogOk,
         TimerLogOk, LedgerOk, Lawful;
    RefsHere(w.chans, w.owned, w.frames, w.next, p);
  }

  // ------------------------------------------------------------ everything an event does when its callbacks do nothing

  function DestroyedBy(p: nat, side: Side, h: Handler): seq<Event> {
    if h.destroy != 0 then [Destroyed(p, side, h)] else []
  }

  /** What io_destroy_callback does, in this order. */
  function Closing(p: nat, c: Chan): seq<Event> {
    DestroyedBy(p, Write, c.write) + DestroyedBy(p, Read, c.read) + DestroyedBy(p, Disconnect, c.disconnect)
    + (if c.closeOnDestroy then [ChannelClosed(p, c.descriptor)] else []) + [Detached(p, c.closeOnDestroy)]
  }

  lemma ClosingIs(log: Trace, p: nat, c: Chan)
    ensures DestroyedLog(log, p, c) == Along(log, Closing(p, c))
  {
    hide Along;
    var a, b := DestroyedBy(p, Write, c.write), DestroyedBy(p, Read, c.read);
    var d := DestroyedBy(p, Disconnect, c.disconnect);
    var e := if c.closeOnDestroy then [ChannelClosed(p, c.descriptor)] else [];
    var f := [Detached(p, c.closeOnDestroy)];
    AlongTwice(log, a + b + d + e, f);
    AlongTwice(log, a + b + d, e);
    AlongTwice(log, a + b, d);
    AlongTwice(log, a, b);
    var log1 := Settle(log, p, Write, c.write);
    var log2 := Settle(log1, p, Read, c.read);
    var log3 := Settle(log2, p, Disconnect, c.disconnect);
    SettleIs(log, p, Write, c.write);
    SettleIs(log1, p, Read, c.read);
    SettleIs(log2, p, Disconnect, c.disconnect);
    AlongNone(log3);
    AlongOne(log3, ChannelClosed(p, c.descriptor));
    AlongOne(log3, Detached(p, false));
    AlongOne(Then(log3, ChannelClosed(p, c.descriptor)), Detached(p, true));
  }

  /** What timer_destructor does, in this order. */
  function Disposing(t: nat, r: TimerRecord): seq<Event> {
    [TimerClosed(t, r.id)] + (if r.destructor != 0 then [TimerDestroyed(t, r.data)] else []) + [TimerFreed(t)]
  }

  lemma DisposingIs(log: Trace, t: nat, r: TimerRecord)
    ensures TimerFreedLog(log, t, r) == Along(log, Disposing(t, r))
  {
    hide Along;
    var a := [TimerClosed(t, r.id)];
    var b := if r.destructor != 0 then [TimerDestroyed(t, r.data)] else [];
    var log1 := Then(log, TimerClosed(t, r.id));
    AlongTwice(log, a + b, [TimerFreed(t)]);
    AlongTwice(log, a, b);
    AlongOne(log, TimerClosed(t, r.id));
    AlongNone(log1);
    AlongOne(log1, TimerDestroyed(t, r.data));
    AlongOne(log1, TimerFreed(t));
    AlongOne(Then(log1, TimerDestroyed(t, r.data)), TimerFreed(t));
  }

  lemma AlongNone(log: Trace)
    ensures Along(log, []) == log
  {
  }

  lemma SettleIs(log: Trace, p: nat, side: Side, h: Handler)
    ensures Settle(log, p, side, h) == Along(log, DestroyedBy(p, side, h))
  {
    hide Along;
    AlongOne(log, Destroyed(p, side, h));
    AlongNone(log);
  }

  /** The script only answers, and does not give its handler up. */
  predicate Answers(s: Script) {
    s.Return? && s.value != 0
  }

  predicate OnlyAnswers(r: Reaction) {
    match r
    case OnChannel(disconnect, read, write) => Answers(disconnect) && Answers(read) && Answers(write)
    case OnTimer(_, callback) => callback.Return?
  }

  function CallOf(p: nat, side: Side, h: Handler, s: Script): seq<Event>
    requires s.Return?
  {
    if h.callback == 0 then [] else [Called(p, side, h, true), Returned(p, side, h, s.value, true)]
  }

  /** What happens between the reference that a dispatch takes and the one it gives back. */
  function PartsOf(id: nat, p: nat, c: Chan, flags: Mask, r: Reaction): seq<Event>
    requires r.OnChannel? && OnlyAnswers(r)
  {
    if HangsUp(flags) then
      if c.disconnect.callback != 0 then CallOf(p, Disconnect, c.disconnect, r.disconnect)
      else [KernelRemoved(id), Destructed(id)] + Closing(p, c.Mute(Read).Mute(Write))
    else
      (if IN in flags then CallOf(p, Read, c.read, r.read) else [])
      + (if OUT in flags then CallOf(p, Write, c.write, r.write) else [])
  }

  lemma AnswersServed(w: World, p: nat, side: Side, s: Script)
    requires p in w.chans && w.chans[p].descriptor >= 0 && Answers(s)
    ensures Serve(w, p, side, s) == Done(w.(log := Along(w.log, CallOf(p, side, w.chans[p].At(side), s))))
  {
    hide Along;
    var h := w.chans[p].At(side);
    AlongNone(w.log);
    AlongTwice(w.log, [Called(p, side, h, true)], [Returned(p, side, h, s.value, true)]);
    AlongOne(w.log, Called(p, side, h, true));
    AlongOne(Then(w.log, Called(p, side, h, true)), Returned(p, side, h, s.value, true));
    assert [Called(p, side, h, true)] + [Returned(p, side, h, s.value, true)]
           == [Called(p, side, h, true), Returned(p, side, h, s.value, true)];
  }

  lemma AnswersTransferred(w: World, p: nat, flags: Mask, r: Reaction)
    requires p in w.chans && w.chans[p].descriptor >= 0 && r.OnChannel? && OnlyAnswers(r)
    ensures var es := (if IN in flags then CallOf(p, Read, w.chans[p].read, r.read) else [])
                      + (if OUT in flags then CallOf(p, Write, w.chans[p].write, r.write) else []);
            Transfer(w, p, flags, r) == Done(w.(log := Along(w.log, es)))
  {
    hide Along, Serve, CallOf;
    var a := if IN in flags then CallOf(p, Read, w.chans[p].read, r.read) else [];
    var b := if OUT in flags then CallOf(p, Write, w.chans[p].write, r.write) else [];
    var w1 := w.(log := Along(w.log, a));
    AlongTwice(w.log, a, b);
    AlongNone(w.log);
    AlongNone(w1.log);
    AnswersServed(w, p, Read, r.read);
    AnswersServed(w1, p, Write, r.write);
  }

  /** What a dispatch leaves of the record when its callbacks do nothing. */
  function RecordAfter(c: Chan, flags: Mask): Chan {
    if !HangsUp(flags) then c
    else if c.disconnect.callback != 0 then c.Mute(Read).Mute(Write)
    else c.Mute(Read).Mute(Write).(descriptor := -1)
  }

  /** What it leaves of the state: only a hang-up that nobody handles takes the entry away. */
  ghost function After(w: World, k: nat, p: nat, flags: Mask): World
    requires k < |w.reg| && p in w.chans
  {
    var v := w.(chans := w.chans[p := RecordAfter(w.chans[p], flags)]);
    if HangsUp(flags) && w.chans[p].disconnect.callback == 0 then
      v.(reg := Without(w.reg, k), kernel := w.kernel - {w.reg[k].sd})
    else v
  }

  lemma AnswersDispatched(w: World, k: nat, p: nat, flags: Mask, r: Reaction)
    requires Inv(w) && k < |w.reg| && w.reg[k].client == Channel(p) && p in w.chans && w.frames[p] > 0
    requires w.chans[p].descriptor == w.reg[k].sd && w.chans[p].descriptor >= 0
    requires r.OnChannel? && OnlyAnswers(r) && Dispatch(w, p, flags, r).Done?
    ensures Dispatch(w, p, flags, r).value
         == After(w, k, p, flags).(log := Along(w.log, PartsOf(w.reg[k].id, p, w.chans[p], flags, r)))
  {
    hide Inv, Along, Serve, Transfer, LoopRemove, Closing, CallOf, Without;
    assert !HangsUp(flags) ==> w.chans[p := w.chans[p]] == w.chans;
    if HangsUp(flags) {
      var w1 := Mute(Mute(w, p, Read), p, Write);
      HangUpKeeps(w, p, r.disconnect);
      MutedTwice(w, p);
      if w.chans[p].disconnect.callback == 0 {
        HangUpRemoves(w, p, flags, r);
        Removal(w1, k, p);
        assert w.chans[p := w1.chans[p]][p := w1.chans[p].(descriptor := -1)]
               == w.chans[p := w1.chans[p].(descriptor := -1)];
      } else {
        AnswersServed(w1, p, Disconnect, r.disconnect);
        var u := Serve(w1, p, Disconnect, r.disconnect).value;
        NothingTransferred(u, p, flags, r);
      }
    } else {
      AnswersTransferred(w, p, flags, r);
    }
  }

  lemma NothingTransferred(w: World, p: nat, flags: Mask, r: Reaction)
    requires p in w.chans && w.chans[p].read.callback == 0 && w.chans[p].write.callback == 0 && r.OnChannel?
    ensures Transfer(w, p, flags, r) == Done(w)
  {
  }

  lemma Removal(w: World, k: nat, p: nat)
    requires Inv(w) && k < |w.reg| && w.reg[k].client == Channel(p) && p in w.chans
    requires w.chans[p].descriptor == w.reg[k].sd && w.reg[k].sd >= 0 && Silent(w.chans[p].(descriptor := -1))
    requires LoopRemove(w, w.reg[k].sd).Done?
    ensures LoopRemove(w, w.reg[k].sd).value
         == w.(reg := Without(w.reg, k), kernel := w.kernel - {w.reg[k].sd},
               chans := w.chans[p := w.chans[p].(descriptor := -1)],
               log := Along(w.log, [KernelRemoved(w.reg[k].id), Destructed(w.reg[k].id)] + Closing(p, w.chans[p])))
  {
    hide Core, Retire, Without, Shift, DestroyedLog, Along, Closing;
    TableHere(w);
    FindIs(w.reg, w.next, k);
    RetireChannelKeeps(w, k);
    var id := w.reg[k].id;
    AlongTwice(w.log, [KernelRemoved(id), Destructed(id)], Closing(p, w.chans[p]));
    RetiredIs(w.log, id);
    ClosingIs(RetiredLog(w.log, id), p, w.chans[p]);
  }

  lemma RetiredIs(log: Trace, id: nat)
    ensures Along(log, [KernelRemoved(id), Destructed(id)]) == RetiredLog(log, id)
  {
    assert [KernelRemoved(id), Destructed(id)] == [KernelRemoved(id)] + [Destructed(id)];
    AlongTwice(log, [KernelRemoved(id)], [Destructed(id)]);
    AlongOne(log, KernelRemoved(id));
    AlongOne(Then(log, KernelRemoved(id)), Destructed(id));
  }

  /**
   An event whose callbacks only answer: the disconnect callback alone is called on a hang-up; otherwise
   the read callback on input and then the write callback if there is room; a hang-up without a callback
   deregisters and closes the channel. Nothing else happens, and nothing else changes.
   */
  ghost predicate DoesExactly(w: World, k: nat, p: nat, flags: Mask, r: Reaction, v: World)
    requires k < |w.reg| && p in w.chans && r.OnChannel? && OnlyAnswers(r)
  {
    var id := w.reg[k].id;
    var es := [Picked(id), Entered(p)] + PartsOf(id, p, w.chans[p], flags, r) + [Left(p)];
    v == After(w, k, p, flags).(pools := w.pools - multiset{id}, log := Along(w.log, es))
  }

  lemma EventDoesExactly(w: World, k: nat, p: nat, flags: Mask, r: Reaction)
    requires Inv(w) && k < |w.reg| && w.reg[k].client == Channel(p) && w.pools[w.reg[k].id] > 0
    requires r.OnChannel? && OnlyAnswers(r) && RunEvent(w, w.reg[k].id, Channel(p), flags, r).Done?
    ensures p in w.chans
    ensures DoesExactly(w, k, p, flags, r, RunEvent(w, w.reg[k].id, Channel(p), flags, r).value)
  {
    hide Inv, Dispatch, Leave, Enter, PartsOf, Along, After;
    var id := w.reg[k].id;
    OpenHere(w, k, p);
    assert InTable(w.reg, id);
    DrawKeeps(w, id);
    var w0 := Drawn(w, id);
    EnterKeeps(w0, p);
    EnterFrame(w0, p);
    EnterLog(w0, p);
    var w1 := Enter(w0, p);
    SameParts(id, p, w.chans[p], w1.chans[p], flags, r);
    AnswersDispatched(w1, k, p, flags, r);
    CountHere(w, p);
    var es := PartsOf(id, p, w.chans[p], flags, r);
    AlongPicked(w.log, id, p);
    AlongTwice(w.log, [Picked(id), Entered(p)] + es, [Left(p)]);
    AlongTwice(w.log, [Picked(id), Entered(p)], es);
    AlongOne(Along(w1.log, es), Left(p));
    AfterLeaving(w0, k, p, flags, Along(w1.log, es));
    AfterDrawn(w, id, k, p, flags);
  }

  lemma AlongPicked(log: Trace, id: nat, p: nat)
    ensures Along(log, [Picked(id), Entered(p)]) == Entering(log, id, p)
  {
    assert [Picked(id), Entered(p)] == [Picked(id)] + [Entered(p)];
    AlongTwice(log, [Picked(id)], [Entered(p)]);
    AlongOne(log, Picked(id));
    AlongOne(Then(log, Picked(id)), Entered(p));
  }

  lemma SameParts(id: nat, p: nat, c: Chan, c': Chan, flags: Mask, r: Reaction)
    requires r.OnChannel? && OnlyAnswers(r) && c' == c.(refs := c'.refs)
    ensures PartsOf(id, p, c', flags, r) == PartsOf(id, p, c, flags, r)
  {
    hide DestroyedBy, CallOf;
  }

  lemma AfterDrawn(w: World, id: nat, k: nat, p: nat, flags: Mask)
    requires k < |w.reg| && p in w.chans
    ensures var u, v := After(w, k, p, flags), After(Drawn(w, id), k, p, flags);
            v == u.(pools := w.pools - multiset{id}, log := v.log)
  {
    hide Without, RecordAfter, HangsUp;
  }

  lemma AfterLeaving(w: World, k: nat, p: nat, flags: Mask, log: Trace)
    requires k < |w.reg| && p in w.chans && w.chans[p].refs > 0 && p in Enter(w, p).chans && Enter(w, p).reg == w.reg
    ensures var u := After(Enter(w, p), k, p, flags).(log := log);
            && p in u.chans && Leave(u, p) == After(w, k, p, flags).(log := Then(log, Left(p)))
  {
    hide After, RecordAfter, Enter, Leave;
    var c := w.chans[p];
    var d := RecordAfter(c.(refs := c.refs + 1), flags);
    SameRecord(c, c.refs + 1, flags);
    AfterEntered(w, k, p, flags);
    LeavesAs(After(Enter(w, p), k, p, flags).(log := log), p);
    assert w.frames + multiset{p} - multiset{p} == w.frames;
    assert w.chans[p := d][p := d.(refs := c.refs)] == w.chans[p := d.(refs := c.refs)];
  }

  lemma AfterEntered(w: World, k: nat, p: nat, flags: Mask)
    requires k < |w.reg| && p in w.chans && p in Enter(w, p).chans && Enter(w, p).reg == w.reg
    ensures var v, c := After(w, k, p, flags), w.chans[p];
            && v.frames == w.frames && v.chans == w.chans[p := RecordAfter(c, flags)]
            && After(Enter(w, p), k, p, flags)
               == v.(chans := w.chans[p := RecordAfter(c.(refs := c.refs + 1), flags)],
                     frames := w.frames + multiset{p}, log := Then(w.log, Entered(p)))
  {
    hide Without, RecordAfter, HangsUp, Enter;
    EntersAs(w, p);
    var c := w.chans[p];
    var d := RecordAfter(c.(refs := c.refs + 1), flags);
    assert w.chans[p := c.(refs := c.refs + 1)][p := d] == w.chans[p := d];
  }

  lemma EntersAs(w: World, p: nat)
    requires p in w.chans
    ensures Enter(w, p)
         == w.(chans := w.chans[p := w.chans[p].(refs := w.chans[p].refs + 1)], frames := w.frames + multiset{p},
               log := Then(w.log, Entered(p)))
  {
  }

  lemma LeavesAs(w: World, p: nat)
    requires p in w.chans && w.chans[p].refs > 1
    ensures Leave(w, p)
         == w.(chans := w.chans[p := w.chans[p].(refs := w.chans[p].refs - 1)], frames := w.frames - multiset{p},
               log := Then(w.log, Left(p)))
  {
  }

  lemma SameRecord(c: Chan, n: int, flags: Mask)
    ensures RecordAfter(c.(refs := n), flags).(refs := c.refs) == RecordAfter(c, flags)
    ensures RecordAfter(c.(refs := n), flags).refs == n
  {
  }

  /** What an event calls first, and all it does if its callbacks only answer. */
  ghost predicate EventMeans(w: World, k: nat, p: nat, flags: Mask, r: Reaction, v: World)
    requires k < |w.reg| && p in w.chans && r.OnChannel?
  {
    CallsFirst(w, w.reg[k].id, p, flags, v) && (OnlyAnswers(r) ==> DoesExactly(w, k, p, flags, r, v))
  }

  lemma EventMeaning(w: World, k: nat, p: nat, flags: Mask, r: Reaction)
    requires Inv(w) && k < |w.reg| && w.reg[k].client == Channel(p) && w.pools[w.reg[k].id] > 0 && r.OnChannel?
    ensures p in w.chans
    ensures var o := RunEvent(w, w.reg[k].id, Channel(p), flags, r); o.Done? ==> EventMeans(w, k, p, flags, r, o.value)
  {
    hide Inv, RunEvent, CallsFirst, DoesExactly;
    OpenHere(w, k, p);
    if RunEvent(w, w.reg[k].id, Channel(p), flags, r).Done? {
      EventCallsFirst(w, k, p, flags, r);
      if OnlyAnswers(r) { EventDoesExactly(w, k, p, flags, r); }
    }
  }
}

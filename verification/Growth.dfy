/** The trace only grows, and only the loop takes events from a pool. */
module Growth {
  import opened Events
  import opened LoopTable
  import opened World
  import opened Lifecycle
  import opened Batches

  /** The second trace continues the first one; a flat continuation takes no event from a pool. */
  ghost predicate Extends(a: Trace, b: Trace, flat: bool)
    decreases b
  {
    a == b || (b.Then? && (flat ==> !b.last.Picked?) && Extends(a, b.past, flat))
  }

  lemma ExtendsBy(a: Trace, b: Trace, e: Event, flat: bool)
    requires Extends(a, b, flat) && !e.Picked?
    ensures Extends(a, Then(b, e), flat)
  {
  }

  lemma {:induction false} ExtendsTwice(a: Trace, b: Trace, c: Trace, flat: bool)
    requires Extends(a, b, flat) && Extends(b, c, flat)
    ensures Extends(a, c, flat)
    decreases c
  {
    if b != c { ExtendsTwice(a, b, c.past, flat); }
  }

  lemma {:induction false} ExtendsAnyway(a: Trace, b: Trace, flat: bool)
    requires Extends(a, b, flat)
    ensures Extends(a, b, false)
    decreases b
  {
    if a != b { ExtendsAnyway(a, b.past, flat); }
  }

  /** What has happened stays, and counts never fall. */
  lemma {:induction false} ExtendsCounts(a: Trace, b: Trace, flat: bool, e: Event)
    requires Extends(a, b, flat)
    ensures Times(a, e) <= Times(b, e)
    ensures Happened(a, e) ==> Happened(b, e)
    decreases b
  {
    if a != b { ExtendsCounts(a, b.past, flat, e); }
  }

  /** The entries whose events have been taken from a pool, in order. */
  function Picks(log: Trace): seq<nat> {
    if log.Start? then []
    else if log.last.Picked? then Picks(log.past) + [log.last.id]
    else Picks(log.past)
  }

  lemma {:induction false} FlatPicks(a: Trace, b: Trace)
    requires Extends(a, b, true)
    ensures Picks(b) == Picks(a)
    decreases b
  {
    if a != b { FlatPicks(a, b.past); }
  }

  // ------------------------------------------------------------ steps

  ghost predicate Continues(w: World, v: World, flat: bool) {
    Extends(w.log, v.log, flat)
  }

  ghost predicate Carries(w: World, r: Out<World>, flat: bool) {
    r.Done? ==> Continues(w, r.value, flat)
  }

  lemma SettleExtends(log: Trace, p: nat, side: Side, h: Handler)
    ensures Extends(log, Settle(log, p, side, h), true)
  {
  }

  lemma AddExtends(w: World, sd: int, mask: Mask, client: Client, answer: Answer)
    ensures Continues(w, LoopAdd(w, sd, mask, client, answer).0, true)
  {
  }

  lemma ModifyExtends(w: World, sd: int, m: Mask, granted: bool)
    ensures Continues(w, LoopModify(w, sd, m, granted).0, true)
  {
  }

  lemma DestroyCallbackExtends(w: World, p: nat)
    requires p in w.chans
    ensures Continues(w, DestroyCallback(w, p), true)
  {
    hide Settle, Extends;
    var c := w.chans[p];
    var log1 := Settle(w.log, p, Write, c.write);
    var log2 := Settle(log1, p, Read, c.read);
    var log3 := Settle(log2, p, Disconnect, c.disconnect);
    SettleExtends(w.log, p, Write, c.write);
    SettleExtends(log1, p, Read, c.read);
    SettleExtends(log2, p, Disconnect, c.disconnect);
    ExtendsTwice(w.log, log1, log2, true);
    ExtendsTwice(w.log, log2, log3, true);
    ExtendsBy(w.log, log3, ChannelClosed(p, c.descriptor), true);
    ExtendsBy(w.log, log3, Detached(p, c.closeOnDestroy), true);
    ExtendsBy(w.log, Then(log3, ChannelClosed(p, c.descriptor)), Detached(p, c.closeOnDestroy), true);
  }

  lemma DestructorExtends(w: World, t: nat)
    requires t in w.timers
    ensures Continues(w, TimerDestructor(w, t), true)
  {
    var log1 := Then(w.log, TimerClosed(t, w.timers[t].id));
    var log2 := Then(log1, TimerDestroyed(t, w.timers[t].data));
    assert Extends(w.log, w.log, true) && Extends(w.log, log1, true) && Extends(w.log, log2, true);
  }

  lemma RetireExtends(w: World, e: Entry<Client>)
    ensures Carries(w, Retire(w, e), true)
  {
    hide DestroyCallback, TimerDestructor, Extends;
    var w1 := Note(Note(w.(kernel := w.kernel - {e.sd}), KernelRemoved(e.id)), Destructed(e.id));
    ExtendsSelf(w.log, true);
    ExtendsBy(w.log, w.log, KernelRemoved(e.id), true);
    ExtendsBy(w.log, Then(w.log, KernelRemoved(e.id)), Destructed(e.id), true);
    match e.client
    case Channel(p) =>
      if p in w.chans {
        DestroyCallbackExtends(w1, p);
        ExtendsTwice(w.log, w1.log, DestroyCallback(w1, p).log, true);
      }
    case Timer(t) =>
      if t in w.timers {
        DestructorExtends(w1, t);
        ExtendsTwice(w.log, w1.log, TimerDestructor(w1, t).log, true);
      }
  }

  lemma ExtendsSelf(log: Trace, flat: bool)
    ensures Extends(log, log, flat)
  {
  }

  lemma RemoveExtends(w: World, sd: int)
    ensures Carries(w, LoopRemove(w, sd), true)
  {
    hide Retire, Extends, Shift, Without;
    ExtendsSelf(w.log, true);
    var k := Find(w.reg, sd);
    if k < |w.reg| { RetireExtends(w.(reg := Shift(w.reg, k, w.gap)), w.reg[k]); }
  }

  lemma IoNewExtends(w: World, fd: int, answer: Answer)
    ensures Continues(w, IoNew(w, fd, answer).w, true)
  {
    hide LoopAdd, Extends;
    ExtendsSelf(w.log, true);
    var p, blank := w.next, Chan(0, fd, {}, false, NO_HANDLER, NO_HANDLER, NO_HANDLER);
    var w0 := w.(next := p + 1, chans := w.chans[p := blank]);
    AddExtends(w0, fd, {}, Channel(p), answer);
    var log1 := LoopAdd(w0, fd, {}, Channel(p), answer).0.log;
    ExtendsBy(w.log, log1, Wrapped(p, fd), true);
    ExtendsBy(w.log, Then(log1, Wrapped(p, fd)), Opened(p), true);
  }

  lemma SetHandlerExtends(w: World, p: nat, side: Side, h: Handler, granted: bool)
    requires p in w.chans
    ensures Continues(w, SetHandler(w, p, side, h, granted).0, true)
  {
    hide LoopModify, Settle, Extends;
    ExtendsSelf(w.log, true);
    var c := w.chans[p];
    var log1 := Settle(w.log, p, side, c.At(side));
    SettleExtends(w.log, p, side, c.At(side));
    ExtendsBy(w.log, log1, Installed(p, side, h), true);
    var m := if h.callback != 0 then c.events + {SideBit(side)} else c.events - {SideBit(side)};
    var w1 := Replaced(w, p, side, h);
    ModifyExtends(w1, c.descriptor, m, granted);
    ExtendsTwice(w.log, w1.log, LoopModify(w1, c.descriptor, m, granted).0.log, true);
  }

  lemma UnrefExtends(w: World, p: nat)
    requires p in w.chans
    ensures Continues(w, Unref(w, p), true)
  {
  }

  lemma DestroyExtends(w: World, p: nat)
    requires p in w.chans
    ensures Carries(w, IoDestroy(w, p), true)
  {
    hide LoopRemove, Unref, Extends;
    var w1 := MuteAll(w, p);
    RemoveExtends(w1, w1.chans[p].descriptor);
    var r := LoopRemove(w1, w1.chans[p].descriptor);
    if r.Done? && p in r.value.chans {
      var w2 := Note(r.value.(owned := r.value.owned - {p}), Released(p));
      ExtendsBy(w.log, r.value.log, Released(p), true);
      UnrefExtends(w2, p);
      ExtendsTwice(w.log, w2.log, Unref(w2, p).log, true);
    }
  }

  lemma LeaveExtends(w: World, p: nat)
    requires p in w.chans
    ensures Continues(w, Leave(w, p), true)
  {
    hide Unref, Extends;
    var w1 := Note(w.(frames := w.frames - multiset{p}), Left(p));
    ExtendsSelf(w.log, true);
    ExtendsBy(w.log, w.log, Left(p), true);
    UnrefExtends(w1, p);
    ExtendsTwice(w.log, w1.log, Unref(w1, p).log, true);
  }

  lemma FinishExtends(w: World, p: nat, side: Side, value: int, granted: bool)
    requires p in w.chans
    ensures Continues(w, Finish(w, p, side, value, granted), true)
  {
    hide LoopModify, Settle, Extends;
    var c := w.chans[p];
    var w1 := Note(w, Returned(p, side, c.At(side), value, c.descriptor >= 0));
    var w2, m := GivenUp(w1, p, side), c.events - {SideBit(side)};
    ExtendsSelf(w.log, true);
    ExtendsBy(w.log, w.log, w1.log.last, true);
    SettleExtends(w1.log, p, side, c.At(side));
    ExtendsTwice(w.log, w1.log, w2.log, true);
    ModifyExtends(w2, c.descriptor, m, granted);
    ExtendsTwice(w.log, w2.log, LoopModify(w2, c.descriptor, m, granted).0.log, true);
  }

  lemma CreateTimerExtends(w: World, fd: int, data: nat, destructor: nat, answer: Answer)
    ensures Continues(w, CreateTimer(w, fd, data, destructor, answer).0, true)
  {
    hide LoopAdd, Extends;
    ExtendsSelf(w.log, true);
    var t := w.next;
    var w0 := w.(next := t + 1, timers := w.timers[t := TimerRecord(fd, data, destructor, true)]);
    var w1 := Note(Note(w0, TimerOpened(t, fd, data, destructor)), Armed(t));
    ExtendsBy(w.log, w.log, TimerOpened(t, fd, data, destructor), true);
    ExtendsBy(w.log, Then(w.log, TimerOpened(t, fd, data, destructor)), Armed(t), true);
    AddExtends(w1, fd, {IN, ONESHOT}, Timer(t), answer);
    var log2 := LoopAdd(w1, fd, {IN, ONESHOT}, Timer(t), answer).0.log;
    ExtendsTwice(w.log, w1.log, log2, true);
    ExtendsBy(w.log, log2, TimerClosed(t, fd), true);
    ExtendsBy(w.log, Then(log2, TimerClosed(t, fd)), TimerFreed(t), true);
  }

  lemma ModifyTimerExtends(w: World, t: nat, timeout: bool, granted: bool)
    requires t in w.timers
    ensures Continues(w, ModifyTimer(w, t, timeout, granted).0, true)
  {
    hide LoopModify, Extends;
    ExtendsSelf(w.log, true);
    ExtendsBy(w.log, w.log, Armed(t), true);
    var w1 := if timeout then Note(w.(timers := w.timers[t := w.timers[t].(pending := true)]), Armed(t)) else w;
    ModifyExtends(w1, w1.timers[t].id, {IN, ONESHOT}, granted);
    var log2 := LoopModify(w1, w1.timers[t].id, {IN, ONESHOT}, granted).0.log;
    ExtendsTwice(w.log, w1.log, log2, true);
    ExtendsBy(w.log, log2, Rearmed(t), true);
  }

  lemma {:induction false} RetireAllExtends(w: World)
    ensures Carries(w, RetireAll(w), true)
    decreases |w.reg|
  {
    hide Retire, Extends;
    ExtendsSelf(w.log, true);
    if w.reg != [] {
      var w0 := w.(reg := w.reg[1..]);
      RetireExtends(w0, w.reg[0]);
      var r := Retire(w0, w.reg[0]);
      if r.Done? && |r.value.reg| < |w.reg| {
        RetireAllExtends(r.value);
        var a := RetireAll(r.value);
        if a.Done? { ExtendsTwice(w.log, r.value.log, a.value.log, true); }
      }
    }
  }

  lemma QuitExtends(w: World)
    ensures Carries(w, LoopQuit(w), true)
  {
    hide RetireAll, Extends;
    var w0 := Note(w.(terminate := true), Stopped);
    ExtendsSelf(w.log, true);
    ExtendsBy(w.log, w.log, Stopped, true);
    RetireAllExtends(w0);
    var r := RetireAll(w0);
    if r.Done? { ExtendsTwice(w.log, w0.log, r.value.log, true); }
  }

  // ------------------------------------------------------------ runs

  lemma {:induction false} CallExtends(w: World, c: Call, flat: bool)
    requires flat ==> !c.RunLoop?
    ensures Carries(w, RunCall(w, c), flat)
    decreases c
  {
    hide Extends, IoNew, SetHandler, IoDestroy, CreateTimer, ModifyTimer, LoopRemove, LoopQuit, RunTurns;
    ExtendsSelf(w.log, flat);
    match c
    case RunLoop(turns) => TurnsExtend(w, turns, w.count);
    case _ => FlatCallExtends(w, c);
      var r := RunCall(w, c);
      if r.Done? && !flat { ExtendsAnyway(w.log, r.value.log, true); }
  }

  lemma FlatCallExtends(w: World, c: Call)
    requires !c.RunLoop?
    ensures Carries(w, RunCall(w, c), true)
  {
    hide Extends, IoNew, SetHandler, IoDestroy, CreateTimer, ModifyTimer, LoopRemove, LoopQuit;
    ExtendsSelf(w.log, true);
    match c
    case NewChannelOn(fd, answer) => IoNewExtends(w, fd, answer);
    case CloseOnDestroy(_, _) =>
    case SetHandlerOf(p, side, h, granted) => if p in w.chans { SetHandlerExtends(w, p, side, h, granted); }
    case Destroy(p) => if p in w.chans { DestroyExtends(w, p); }
    case NewTimerOn(fd, data, destructor, answer) => CreateTimerExtends(w, fd, data, destructor, answer);
    case SetTimer(fd, timeout, granted) =>
      var k := Find(w.reg, fd);
      if k < |w.reg| && w.reg[k].client.Timer? && w.reg[k].client.t in w.timers {
        ModifyTimerExtends(w, w.reg[k].client.t, timeout, granted);
      }
    case DropTimer(fd) => RemoveExtends(w, fd);
    case Quit => QuitExtends(w);
  }

  lemma {:induction false} ScriptExtends(w: World, s: Script, flat: bool)
    requires flat ==> FlatScript(s)
    ensures var r := RunScript(w, s); r.Done? ==> Continues(w, r.value.w, flat)
    decreases s, 0
  {
    hide Extends, RunCall;
    match s
    case Return(_, _) => ExtendsSelf(w.log, flat);
    case Do(call, next) =>
      CallExtends(w, call, flat);
      var r := RunCall(w, call);
      if r.Done? {
        ScriptExtends(r.value, next, flat);
        var s := RunScript(r.value, next);
        if s.Done? { ExtendsTwice(w.log, r.value.log, s.value.w.log, flat); }
      }
  }

  lemma {:induction false} TurnsExtend(w: World, turns: Turns, pool: nat)
    ensures Carries(w, RunTurns(w, turns, pool), false)
    decreases turns
  {
    hide Extends, RunBatch, Disarm, Deliverable, BatchIds;
    ExtendsSelf(w.log, false);
    match turns
    case Pause =>
    case Wait(batch, rest) =>
      var w1 := Fetch(w, batch);
      BatchExtends(w1, batch);
      var r := RunBatch(w1, batch);
      if r.Done? {
        TurnsExtend(r.value, rest, pool);
        var t := RunTurns(r.value, rest, pool);
        if t.Done? { ExtendsTwice(w.log, r.value.log, t.value.log, false); }
      }
  }

  lemma {:induction false} BatchExtends(w: World, b: Batch)
    ensures Carries(w, RunBatch(w, b), false)
    decreases b
  {
    hide Extends, RunEvent;
    ExtendsSelf(w.log, false);
    match b
    case NoMore =>
    case Ready(_, id, flags, reaction, more) =>
      var k := FindId(w.reg, id);
      if k < |w.reg| {
        EventExtends(w, id, w.reg[k].client, flags, reaction, false);
        var r := RunEvent(w, id, w.reg[k].client, flags, reaction);
        if r.Done? {
          PickExtends(w.log, r.value.log, id);
          BatchExtends(r.value, more);
          var v := RunBatch(r.value, more);
          if v.Done? { ExtendsTwice(w.log, r.value.log, v.value.log, false); }
        }
      }
  }

  lemma PickExtends(a: Trace, b: Trace, id: nat)
    requires Extends(Then(a, Picked(id)), b, false)
    ensures Extends(a, b, false)
  {
    ExtendsTwice(a, Then(a, Picked(id)), b, false);
  }

  /** Processing an event takes it from the pool, and a flat reaction takes no further one. */
  lemma {:induction false} EventExtends(w: World, id: nat, client: Client, flags: Mask, r: Reaction, flat: bool)
    requires flat ==> FlatReaction(r)
    ensures var o := RunEvent(w, id, client, flags, r);
            o.Done? ==> Extends(Then(w.log, Picked(id)), o.value.log, flat)
    decreases r
  {
    hide Extends, Dispatch, RunScript, Enter, Leave;
    var w0 := Drawn(w, id);
    ExtendsSelf(w0.log, flat);
    match client
    case Channel(p) =>
      if r.OnChannel? && p in w.chans {
        Enters(w0, p, flat);
        var w1 := Enter(w0, p);
        DispatchExtends(w1, p, flags, r, flat);
        var d := Dispatch(w1, p, flags, r);
        if d.Done? && p in d.value.chans {
          Leaves(d.value, p, flat);
          ExtendsTwice(w0.log, w1.log, d.value.log, flat);
          ExtendsTwice(w0.log, d.value.log, Leave(d.value, p).log, flat);
        }
      }
    case Timer(t) =>
      if r.OnTimer? && t in w.timers {
        var w1 := Note(w0.(timers := w0.timers[t := w0.timers[t].(pending := false)]), Fired(t));
        ExtendsBy(w0.log, w0.log, Fired(t), flat);
        ScriptExtends(w1, r.callback, flat);
        var s := RunScript(w1, r.callback);
        if s.Done? { ExtendsTwice(w0.log, w1.log, s.value.w.log, flat); }
      }
  }

  lemma Enters(w: World, p: nat, flat: bool)
    requires p in w.chans
    ensures p in Enter(w, p).chans && Enter(w, p).log == Then(w.log, Entered(p)) && Continues(w, Enter(w, p), flat)
  {
    ExtendsSelf(w.log, flat);
    ExtendsBy(w.log, w.log, Entered(p), flat);
  }

  lemma Leaves(w: World, p: nat, flat: bool)
    requires p in w.chans
    ensures Continues(w, Leave(w, p), flat)
  {
    hide Leave, Extends;
    LeaveExtends(w, p);
    if !flat { ExtendsAnyway(w.log, Leave(w, p).log, true); }
  }

  lemma {:induction false} DispatchExtends(w: World, p: nat, flags: Mask, r: Reaction, flat: bool)
    requires p in w.chans && r.OnChannel? && (flat ==> FlatReaction(r))
    ensures Carries(w, Dispatch(w, p, flags, r), flat)
    decreases r, 1
  {
    hide Extends, Serve, Transfer, LoopRemove;
    var w1 := Mute(Mute(w, p, Read), p, Write);
    TransferExtends(w, p, flags, r, flat);
    RemoveExtends(w1, w1.chans[p].descriptor);
    var o := LoopRemove(w1, w1.chans[p].descriptor);
    if o.Done? && !flat { ExtendsAnyway(w1.log, o.value.log, true); }
    ServeExtends(w1, p, Disconnect, r.disconnect, flat);
    var s := Serve(w1, p, Disconnect, r.disconnect);
    if s.Done? {
      TransferExtends(s.value, p, flags, r, flat);
      var t := Transfer(s.value, p, flags, r);
      if t.Done? { ExtendsTwice(w.log, s.value.log, t.value.log, flat); }
    }
  }

  lemma {:induction false} TransferExtends(w: World, p: nat, flags: Mask, r: Reaction, flat: bool)
    requires r.OnChannel? && (flat ==> FlatReaction(r))
    ensures Carries(w, Transfer(w, p, flags, r), flat)
    decreases r, 0
  {
    hide Extends, Serve;
    ExtendsSelf(w.log, flat);
    ServeExtends(w, p, Read, r.read, flat);
    var s := if IN in flags then Serve(w, p, Read, r.read) else Done(w);
    if s.Done? {
      ServeExtends(s.value, p, Write, r.write, flat);
      var t := Serve(s.value, p, Write, r.write);
      if t.Done? { ExtendsTwice(w.log, s.value.log, t.value.log, flat); }
    }
  }

  lemma {:induction false} ServeExtends(w: World, p: nat, side: Side, s: Script, flat: bool)
    requires flat ==> FlatScript(s)
    ensures Carries(w, Serve(w, p, side, s), flat)
    ensures p in w.chans && w.chans[p].At(side).callback != 0 ==>
              var o := Serve(w, p, side, s);
              var e := Called(p, side, w.chans[p].At(side), w.chans[p].descriptor >= 0);
              o.Done? ==> Extends(Then(w.log, e), o.value.log, flat)
    decreases s, 1
  {
    hide Extends, RunScript, Finish;
    ExtendsSelf(w.log, flat);
    if p in w.chans && w.chans[p].At(side).callback != 0 {
      var e := Called(p, side, w.chans[p].At(side), w.chans[p].descriptor >= 0);
      var w1 := Note(w, e);
      ExtendsBy(w.log, w.log, e, flat);
      ScriptExtends(w1, s, flat);
      var res := RunScript(w1, s);
      if res.Done? && p in res.value.w.chans {
        var u := res.value;
        FinishExtends(u.w, p, side, u.value, u.granted);
        if !flat { ExtendsAnyway(u.w.log, Finish(u.w, p, side, u.value, u.granted).log, true); }
        ExtendsTwice(w1.log, u.w.log, Finish(u.w, p, side, u.value, u.granted).log, flat);
        ExtendsTwice(w.log, w1.log, Finish(u.w, p, side, u.value, u.granted).log, flat);
      }
    }
  }
}

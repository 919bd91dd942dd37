/** What was asked for is delivered: callbacks that are set and timers that are running are reached by their events. */
module Deliveries {
  import opened Events
  import opened LoopTable
  import opened World
  import opened Lifecycle
  import opened Invariant
  import opened Pools
  import opened StepsTable
  import opened StepsChannel
  import opened StepsAdd
  import opened Runs
  import opened ChannelTheorems
  import opened TimerTheorems
  import opened Growth
  import opened Dispatches

  // ------------------------------------------------------------ channels

  /** An event of a channel for the flag of that side. */
  function EventFor(w: World, p: nat, side: Side, r: Reaction): Batch
    requires p in w.chans && w.chans[p].descriptor in w.kernel
  {
    var fd := w.chans[p].descriptor;
    Ready(fd, w.kernel[fd].id, {SideBit(side)}, r, NoMore)
  }

  /** As long as epoll has refused no change, it can deliver an event for every callback of an open channel. */
  lemma CallbackIsWatched(w: World, p: nat, side: Side, r: Reaction)
    requires Inv(w) && !AnyDenied(w.log) && p in w.chans && w.chans[p].descriptor >= 0
    requires w.chans[p].At(side).callback != 0
    ensures w.chans[p].descriptor in w.kernel && Deliverable(w.kernel, EventFor(w, p, side, r))
    ensures var k := Find(w.reg, w.chans[p].descriptor);
            && k < |w.reg| && w.reg[k].client == Channel(p) && w.reg[k].id == w.kernel[w.chans[p].descriptor].id
  {
    hide TableOk, LinksOk, RefsOk, SilentOk, MasksOk, TimersOk, HandlersOk, EntryLogOk, ChanLogOk, TimerLogOk, LedgerOk,
         Lawful, AnyDenied, Happened;
    EntryMaskHere(w, p);
    ChannelHere(w, p);
  }

  /** In the pass of the loop that delivers the event, the callback is called before anything else. */
  lemma CallbackIsReached(w: World, p: nat, side: Side, r: Reaction)
    requires Inv(w) && !AnyDenied(w.log) && !w.terminate && p in w.chans && w.chans[p].descriptor >= 0
    requires w.chans[p].At(side).callback != 0 && r.OnChannel? && w.chans[p].descriptor in w.kernel
    ensures var o := RunTurns(w, Wait(EventFor(w, p, side, r), Pause), w.count);
            var log := Entering(w.log, w.kernel[w.chans[p].descriptor].id, p);
            o.Done? ==> Extends(Then(log, Called(p, side, w.chans[p].At(side), true)), o.value.log, false)
  {
    hide Inv, Extends, RunEvent, AnyDenied, Deliverable;
    CallbackIsWatched(w, p, side, r);
    var b, k := EventFor(w, p, side, r), Find(w.reg, w.chans[p].descriptor);
    OnePass(w, b, k);
    var w1 := Fetch(w, b);
    FetchKeeps(w, b);
    assert w1.pools[b.id] > 0;
    var o := RunEvent(w1, b.id, Channel(p), b.flags, r);
    if o.Done? {
      EventCallsFirst(w1, k, p, b.flags, r);
      FirstForSide(w1, b.id, p, side, o.value);
    }
  }

  lemma FirstForSide(w: World, id: nat, p: nat, side: Side, v: World)
    requires p in w.chans && w.chans[p].At(side).callback != 0 && CallsFirst(w, id, p, {SideBit(side)}, v)
    ensures Extends(Then(Entering(w.log, id, p), Called(p, side, w.chans[p].At(side), true)), v.log, false)
  {
    hide Extends;
    assert HangsUp({SideBit(side)}) <==> side == Disconnect by {
      assert RDHUP in {RDHUP} * {RDHUP, HUP, ERR};
    }
  }

  /** A pass that delivers one event and no other. */
  lemma OnePass(w: World, b: Batch, k: nat)
    requires Inv(w) && !w.terminate && Deliverable(w.kernel, b) && b.Ready? && b.more.NoMore?
    requires k < |w.reg| && w.reg[k].id == b.id
    ensures RunTurns(w, Wait(b, Pause), w.count) == RunEvent(Fetch(w, b), b.id, w.reg[k].client, b.flags, b.reaction)
  {
    hide Inv, RunEvent, Deliverable, Disarm;
    RoomHere(w);
    TableHere(w);
    FindIs(w.reg, w.next, k);
    assert BatchSize(NoMore) == 0 && BatchSize(b) == 1;
    var o := RunEvent(Fetch(w, b), b.id, w.reg[k].client, b.flags, b.reaction);
    if o.Done? {
      assert RunBatch(o.value, NoMore) == Done(o.value) && RunTurns(o.value, Pause, w.count) == Done(o.value);
    }
    assert RunBatch(Fetch(w, b), b) == o;
  }

  // ------------------------------------------------------------ timers

  /** The time of a timer is up. */
  function Expiry(w: World, t: nat, s: Script): Batch
    requires t in w.timers
  {
    Ready(w.timers[t].id, EntryOf(t), {IN}, OnTimer(true, s), NoMore)
  }

  /** A timer that is armed can be reached by the end of its time. */
  lemma ArmedTimerIsWatched(w: World, t: nat, s: Script)
    requires Inv(w) && t in w.timers && ArmedIn(w.kernel, w.timers, t)
    ensures Deliverable(w.kernel, Expiry(w, t, s))
    ensures var k := Find(w.reg, w.timers[t].id);
            k < |w.reg| && w.reg[k].client == Timer(t) && w.reg[k].id == EntryOf(t)
  {
    hide TableOk, LinksOk, RefsOk, SilentOk, MasksOk, HandlersOk, EntryLogOk, ChanLogOk, TimerLogOk, LedgerOk, Lawful;
    var k := Find(w.reg, w.timers[t].id);
    assert Registered(w.reg, w.timers[t].id, Timer(t)) && TimerLinked(w.reg[k], w.timers);
  }

  /** So it is after create_timer if epoll takes the descriptor; the timer is running. */
  lemma NewTimerIsWatched(w: World, fd: int, data: nat, destructor: nat, answer: Answer, s: Script)
    requires Inv(w) && fd >= 0 && EpollTakes(w, fd, answer)
    ensures var (v, code) := CreateTimer(w, fd, data, destructor, answer);
            var t := w.next;
            && code == fd && t in v.timers && v.timers[t].pending && v.timers[t].id == fd
            && ArmedIn(v.kernel, v.timers, t) && Deliverable(v.kernel, Expiry(v, t, s))
  {
    hide Inv, Deliverable;
    TimerRegisteredIffTaken(w, fd, data, destructor, answer);
    CreateTimerKeeps(w, fd, data, destructor, answer);
    TakenIsArmed(w, fd, data, destructor, answer);
    ArmedTimerIsWatched(CreateTimer(w, fd, data, destructor, answer).0, w.next, s);
  }

  lemma TakenIsArmed(w: World, fd: int, data: nat, destructor: nat, answer: Answer)
    requires Inv(w) && fd >= 0 && EpollTakes(w, fd, answer)
    ensures var v := CreateTimer(w, fd, data, destructor, answer).0;
            && |v.reg| != |w.reg| && fd in v.kernel && v.kernel[fd].armed
            && w.next in v.timers && v.timers[w.next] == TimerRecord(fd, data, destructor, true)
  {
    hide Inv;
  }

  /** So it is after modify_timer if epoll grants it. */
  lemma SetTimerIsWatched(w: World, t: nat, timeout: bool, s: Script)
    requires Inv(w) && t in w.timers
    ensures var (v, code) := ModifyTimer(w, t, timeout, true);
            && code == 0 && t in v.timers && (timeout ==> v.timers[t].pending)
            && ArmedIn(v.kernel, v.timers, t) && Deliverable(v.kernel, Expiry(v, t, s))
  {
    hide Inv, Deliverable;
    ModifyTimerMeaning(w, t, timeout, true);
    ModifyTimerKeeps(w, t, timeout, true);
    ModifiedRecord(w, t, timeout);
    ArmedTimerIsWatched(ModifyTimer(w, t, timeout, true).0, t, s);
  }

  lemma ModifiedRecord(w: World, t: nat, timeout: bool)
    requires t in w.timers
    ensures var v := ModifyTimer(w, t, timeout, true).0;
            t in v.timers && v.timers[t] == w.timers[t].(pending := w.timers[t].pending || timeout)
  {
  }

  /**
   In the pass of the loop that delivers the end of its time, a running timer fires, once if its callback
   does nothing, and then it is neither running nor watched for.
   */
  lemma TimerFires(w: World, t: nat, s: Script)
    requires Inv(w) && !w.terminate && Pending(w.timers, t) && ArmedIn(w.kernel, w.timers, t)
    ensures var o := RunTurns(w, Wait(Expiry(w, t, s), Pause), w.count);
            var log := Then(Then(w.log, Picked(EntryOf(t))), Fired(t));
            && (o.Done? ==> Extends(log, o.value.log, false))
            && (s.Return? ==>
                  var fd := w.timers[t].id;
                  o == Done(w.(timers := w.timers[t := w.timers[t].(pending := false)],
                               kernel := w.kernel[fd := w.kernel[fd].(armed := false)], log := log)))
  {
    hide Inv, Extends, RunEvent, RunTurns, Deliverable, RunScript;
    ArmedTimerIsWatched(w, t, s);
    var b, k := Expiry(w, t, s), Find(w.reg, w.timers[t].id);
    OnePass(w, b, k);
    var w1 := Fetch(w, b);
    ExpiryFires(w1, t, s);
    ScriptExtends(Firing(w1, t), s, false);
    ExpiryDisarms(w, t, s);
    if s.Return? { Answered(Firing(w1, t), s); }
  }

  lemma Answered(w: World, s: Script)
    requires s.Return?
    ensures RunScript(w, s) == Done(Result(w, s.value, s.granted))
  {
  }

  lemma ExpiryFires(w: World, t: nat, s: Script)
    requires Pending(w.timers, t)
    ensures RunEvent(w, EntryOf(t), Timer(t), {IN}, OnTimer(true, s)) == Ended(RunScript(Firing(w, t), s))
  {
    hide RunScript;
    assert {IN} * {ERR, HUP} == {};
  }

  lemma ExpiryDisarms(w: World, t: nat, s: Script)
    requires Inv(w) && Pending(w.timers, t) && ArmedIn(w.kernel, w.timers, t)
    ensures var fd, w1 := w.timers[t].id, Fetch(w, Expiry(w, t, s));
            && w1.kernel == w.kernel[fd := w.kernel[fd].(armed := false)]
            && w1.pools - multiset{EntryOf(t)} == w.pools && w1.timers == w.timers && w1.log == w.log
            && w1 == w.(kernel := w1.kernel, pools := w1.pools)
  {
    hide LinksOk, RefsOk, SilentOk, MasksOk, HandlersOk, EntryLogOk, ChanLogOk, TimerLogOk, LedgerOk, Lawful;
    TimerInterest(w.reg, w.kernel, w.epollOpen, w.timers, w.next, t);
    hide TableOk, MirrorOk, TimersOk;
    var fd, b := w.timers[t].id, Expiry(w, t, s);
    var kernel := w.kernel[fd := w.kernel[fd].(armed := false)];
    assert Disarm(kernel, NoMore) == kernel;
    assert BatchIds(NoMore) == multiset{} && BatchIds(b) == multiset{EntryOf(t)};
  }
}

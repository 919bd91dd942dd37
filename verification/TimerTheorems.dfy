/** What holds of the timers in every run of every program. */
module TimerTheorems {
  import opened Events
  import opened LoopTable
  import opened World
  import opened Lifecycle
  import opened Invariant
  import opened Pools
  import opened StepsTable
  import opened StepsRetire
  import opened StepsAdd
  import opened StepsLedger
  import opened Theorems
  import ChannelTheorems

  lemma EndHere(w: World, t: nat)
    requires Inv(w)
    ensures EndAt(w.log, Kept(w.timers, t), w.next, t)
  {
    hide TableOk, MirrorOk, LinksOk, RefsOk, SilentOk, MasksOk, TimersOk, HandlersOk, EntryLogOk, ChanLogOk, TimerLogOk,
         ClosesOk, ShotsOk, Lawful;
  }

  lemma TimerClientHere(w: World, t: nat)
    requires Inv(w)
    ensures t in w.timers <==> exists i :: 0 <= i < |w.reg| && w.reg[i].client == Timer(t)
    ensures t in w.timers ==> Registered(w.reg, w.timers[t].id, Timer(t))
  {
    hide TableOk, MirrorOk, LinksOk, RefsOk, SilentOk, MasksOk, HandlersOk, EntryLogOk, ChanLogOk, TimerLogOk,
         LedgerOk, Lawful;
    if t in w.timers {
      assert w.reg[Find(w.reg, w.timers[t].id)].client == Timer(t);
    }
    if i :| 0 <= i < |w.reg| && w.reg[i].client == Timer(t) {
      assert TimerLinked(w.reg[i], w.timers);
    }
  }

  /**
   Wherever a run ends or stops, a timer is in use exactly if it is registered. If it is over, its
   record has been freed once and its descriptor closed once, and its destructor has been called once
   on its data if it has one and the timer had been registered; no other descriptor or data is touched
   on its behalf, and nothing at all as long as it is in use.
   */
  lemma TimersEndOnce(gap: nat, s: Script, t: nat, fd: int, d: nat)
    ensures var w := Last(Run(gap, s));
            var m := MakingOf(w.log, t);
            var over := m.Made? && t !in w.timers;
            && (t in w.timers <==> exists i :: 0 <= i < |w.reg| && w.reg[i].client == Timer(t))
            && (t in w.timers ==>
                  && m == Made(w.timers[t].id, w.timers[t].data, w.timers[t].destructor)
                  && Registered(w.reg, w.timers[t].id, Timer(t)))
            && Times(w.log, TimerFreed(t)) == One(over)
            && Times(w.log, TimerClosed(t, fd)) == One(over && fd == m.fd)
            && Times(w.log, TimerDestroyed(t, d))
            == One(over && Happened(w.log, Added(EntryOf(t))) && m.destructor != 0 && d == m.data)
  {
    hide Run;
    LastIsRight(gap, s);
    var w := Last(Run(gap, s));
    EndHere(w, t);
    TimerClientHere(w, t);
    hide Inv;
  }

  lemma TimerAccount(w: World, t: nat)
    requires Inv(w)
    ensures Times(w.log, Fired(t)) + One(Pending(w.timers, t)) <= Times(w.log, Armed(t))
  {
    hide TableOk, MirrorOk, LinksOk, RefsOk, SilentOk, MasksOk, TimersOk, HandlersOk, EntryLogOk, ChanLogOk, TimerLogOk,
         LedgerOk, Lawful;
    TimerHere(w.log, w.timers, w.next, t);
  }

  lemma ShotAccount(w: World, t: nat)
    requires Inv(w)
    ensures Times(w.log, Fired(t)) + One(ArmedIn(w.kernel, w.timers, t)) <= Armings(w.log, t)
    ensures t in w.timers ==>
              Times(w.log, Fired(t)) + w.pools[EntryOf(t)] + One(ArmedIn(w.kernel, w.timers, t)) <= Armings(w.log, t)
  {
    if t in w.timers { TimerIsMade(w, t); }
    hide TableOk, MirrorOk, LinksOk, RefsOk, SilentOk, MasksOk, TimersOk, HandlersOk, EntryLogOk, ChanLogOk, TimerLogOk,
         ClosesOk, EndsOk, Lawful;
    ShotHere(w.log, w.reg, w.kernel, w.timers, w.pools, t);
  }

  /** Firings of a timer that had been freed, or that nothing allowed since it last fired. */
  function UnallowedFirings(log: Trace, t: nat): nat {
    if log.Start? then 0
    else
      UnallowedFirings(log.past, t)
      + One(log.last == Fired(t)
            && (Happened(log.past, TimerFreed(t)) || Times(log.past, Fired(t)) >= Times(log.past, Armed(t))
                || Times(log.past, Fired(t)) >= Armings(log.past, t)))
  }

  lemma {:induction false} LawfulMeansAllowed(log: Trace, t: nat)
    requires Lawful(log)
    ensures UnallowedFirings(log, t) == 0
  {
    if log.Then? { LawfulMeansAllowed(log.past, t); }
  }

  /**
   Wherever a run ends or stops, a timer's callback has run at most as often as the one-shot watch was
   set, by the registration and by the modifications that epoll granted, and less often while it is
   still armed or its event is waiting in a pool; it has also run at most as often as the time was set.
   None of its firings came too early, nor after the timer was freed.
   */
  lemma TimersFireOncePerArming(gap: nat, s: Script, t: nat)
    ensures var w := Last(Run(gap, s));
            && Times(w.log, Fired(t)) + One(ArmedIn(w.kernel, w.timers, t)) <= Armings(w.log, t)
            && (t in w.timers ==>
                  Times(w.log, Fired(t)) + w.pools[EntryOf(t)] + One(ArmedIn(w.kernel, w.timers, t))
                  <= Armings(w.log, t))
            && Times(w.log, Fired(t)) + One(Pending(w.timers, t)) <= Times(w.log, Armed(t))
            && UnallowedFirings(w.log, t) == 0
  {
    hide Run;
    LastIsRight(gap, s);
    var w := Last(Run(gap, s));
    TimerAccount(w, t);
    ShotAccount(w, t);
    LawfulHere(w);
    LawfulMeansAllowed(w.log, t);
    hide Inv;
  }

  lemma CountsAfter(log: Trace, e: Event, t: nat)
    requires !e.Added?
    ensures Armings(Then(log, e), t) == Armings(log, t) + One(e == Rearmed(t))
    ensures Times(Then(log, e), Armed(t)) == Times(log, Armed(t)) + One(e == Armed(t))
  {
  }

  /** A modification counts as an arming exactly if it succeeds, which it does exactly if epoll grants it. */
  lemma ModifyTimerMeaning(w: World, t: nat, timeout: bool, granted: bool)
    requires Inv(w) && t in w.timers
    ensures var (v, code) := ModifyTimer(w, t, timeout, granted);
            && (code == 0 || code == -EIO)
            && (code == 0 <==> granted)
            && Armings(v.log, t) == Armings(w.log, t) + One(code == 0)
            && Times(v.log, Armed(t)) == Times(w.log, Armed(t)) + One(timeout)
            && (code == 0 ==> ArmedIn(v.kernel, v.timers, t))
  {
    hide Inv, Armings, Times;
    TimerLinkHere(w, t);
    var w1 := if timeout then Note(w.(timers := w.timers[t := w.timers[t].(pending := true)]), Armed(t)) else w;
    assert w1.timers[t].id == w.timers[t].id && w1.reg == w.reg;
    if timeout { CountsAfter(w.log, Armed(t), t); }
    CountsAfter(w1.log, Rearmed(t), t);
    CountsAfter(w1.log, Denied(w.timers[t].id), t);
  }

  /**
   create_timer returns something other than a negative code for every answer of epoll_ctl, and even
   without a descriptor, but what it returns is the descriptor of a registered timer if and only if
   timerfd_create made one and epoll took it.
   */
  lemma TimerRegisteredIffTaken(w: World, fd: int, data: nat, destructor: nat, answer: Answer)
    requires Inv(w)
    ensures var (v, code) := CreateTimer(w, fd, data, destructor, answer);
            && (code < 0 <==> fd >= 0 && (answer.NoTable? || answer.NoEntry?))
            && (code >= 0 ==>
                  (Registered(v.reg, code, Timer(w.next)) <==> fd >= 0 && EpollTakes(w, fd, answer)))
            && (fd >= 0 && code >= 0 ==>
                  && code == fd && w.next in v.timers && v.timers[w.next] == TimerRecord(fd, data, destructor, true)
                  && MakingOf(v.log, w.next) == Made(fd, data, destructor)
                  && (Happened(v.log, Added(EntryOf(w.next))) <==> EpollTakes(w, fd, answer))
                  && (EpollTakes(w, fd, answer) ==>
                        fd in v.kernel && v.kernel[fd] == Interest(EntryOf(w.next), {IN, ONESHOT}, true)))
  {
    hide Inv, StartTimer, LoopAdd;
    if fd < 0 {
      FreshAddress(w, w.next);
      TimerClientHere(w, w.next);
    } else if answer.NoTable? || answer.NoEntry? {
      NoTimerWithoutMemory(w, fd, data, destructor, answer);
    } else {
      StartedIffTaken(w, fd, data, destructor, answer);
    }
  }

  lemma NoTimerWithoutMemory(w: World, fd: int, data: nat, destructor: nat, answer: Answer)
    requires fd >= 0 && (answer.NoTable? || answer.NoEntry?)
    ensures StartTimer(w, fd, data, destructor, answer).1 == -EIO
  {
  }

  lemma StartedIffTaken(w: World, fd: int, data: nat, destructor: nat, answer: Answer)
    requires Inv(w) && fd >= 0 && !answer.NoTable? && !answer.NoEntry?
    ensures var (v, code) := StartTimer(w, fd, data, destructor, answer);
            && code == fd && w.next in v.timers && v.timers[w.next] == TimerRecord(fd, data, destructor, true)
            && MakingOf(v.log, w.next) == Made(fd, data, destructor)
            && (Registered(v.reg, fd, Timer(w.next)) <==> EpollTakes(w, fd, answer))
            && (Happened(v.log, Added(EntryOf(w.next))) <==> EpollTakes(w, fd, answer))
            && (EpollTakes(w, fd, answer) ==>
                  fd in v.kernel && v.kernel[fd] == Interest(EntryOf(w.next), {IN, ONESHOT}, true))
  {
    hide Inv, LoopAdd;
    FreshAddress(w, w.next);
    FreshAddress(w, EntryOf(w.next));
    TimerClientHere(w, w.next);
    var t, r := w.next, TimerRecord(fd, data, destructor, true);
    var log1 := Then(w.log, TimerOpened(t, fd, data, destructor));
    var w1 := w.(next := t + 1, timers := w.timers[t := r], log := Then(log1, Armed(t)));
    assert !Happened(log1, Added(EntryOf(t))) && !Happened(w1.log, Added(EntryOf(t)));
    assert MakingOf(log1, t) == Made(fd, data, destructor) && MakingOf(w1.log, t) == Made(fd, data, destructor);
    LoopAddIs(w1, fd, {IN, ONESHOT}, Timer(t), answer);
    ChannelTheorems.LoopAddAnswers(w1, fd, {IN, ONESHOT}, Timer(t), answer);
    if EpollTakes(w, fd, answer) {
      WatchedIffRegistered(w, fd);
      var e: Row := Entry(t + 1, fd, {IN, ONESHOT}, Timer(t));
      RegisteredAfterAdd(w.reg, e, fd, Timer(t));
      assert StartTimer(w, fd, data, destructor, answer).0.reg == w.reg + [e];
    }
  }

  /**
   Where timerfd_create fails, the errno may be the number of another client's descriptor: setting
   that "timer" again changes the mask of an open channel, in its entry and in the kernel, and the
   channel does not know.
   */
  lemma FailedTimerChangesAnother(w: World, fd: int, data: nat, destructor: nat, answer: Answer, q: nat)
    requires Inv(w) && fd < 0
    requires q in w.chans && w.chans[q].descriptor == CreateTimer(w, fd, data, destructor, answer).1
    ensures var (v, code) := CreateTimer(w, fd, data, destructor, answer);
            var u := LoopModify(v, code, {IN, ONESHOT}, true).0;
            var k := Find(w.reg, code);
            && v == w && code > 0 && k < |u.reg| && u.reg[k].client == Channel(q)
            && u.reg[k].mask == {IN, ONESHOT} == u.kernel[code].mask && u.chans == w.chans
  {
    hide Inv, StartTimer;
    HolderIs(w, w.chans[q].descriptor, q);
  }
}

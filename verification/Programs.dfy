/** Small programs whose runs meet the cases the theorems set apart. */
module Programs {
  import opened Events
  import opened LoopTable
  import opened World
  import opened Lifecycle
  import opened Invariant
  import opened Runs
  import opened Theorems
  import opened Batches
  import opened Witnesses

  const OK := Return(1, true)

  lemma Step(w: World, c: Call, next: Script)
    ensures RunScript(w, Do(c, next))
         == (if RunCall(w, c).Done? then RunScript(RunCall(w, c).value, next)
             else Halt(RunCall(w, c).why, RunCall(w, c).at))
  {
    hide RunCall;
  }

  lemma Stop(w: World, value: int, granted: bool)
    ensures RunScript(w, Return(value, granted)) == Done(Result(w, value, granted))
  {
  }

  /** The state after opening a channel on descriptor fd, with addresses p for the channel and p + 1 for its entry. */
  function Opened1(w: World, fd: int): World {
    var p := w.next;
    w.(reg := w.reg + [Entry(p + 1, fd, {}, Channel(p))],
       count := if w.count <= |w.reg| + 1 then w.count + ENTRY_CHANGE else w.count,
       kernel := w.kernel[fd := Interest(p + 1, {}, true)],
       chans := w.chans[p := Chan(1, fd, {}, false, NO_HANDLER, NO_HANDLER, NO_HANDLER)],
       owned := w.owned + {p},
       next := p + 2,
       log := Then(Then(Then(w.log, Added(p + 1)), Wrapped(p, fd)), Opened(p)))
  }

  lemma Opens(w: World, fd: int)
    requires fd >= 0 && w.epollOpen && fd !in w.kernel && w.next !in w.chans
    ensures RunCall(w, NewChannelOn(fd, Taken)) == Done(Opened1(w, fd))
  {
    hide IoNew;
    NewOn(w, fd);
  }

  lemma NewOn(w: World, fd: int)
    requires fd >= 0 && w.epollOpen && fd !in w.kernel && w.next !in w.chans
    ensures IoNew(w, fd, Taken) == NewChannel(Opened1(w, fd), true, w.next)
  {
    hide LoopAdd;
    var p, c := w.next, Chan(0, fd, {}, false, NO_HANDLER, NO_HANDLER, NO_HANDLER);
    var w0 := w.(next := p + 1, chans := w.chans[p := c]);
    Adds(w0, fd, Channel(p));
    assert w.chans[p := c][p := c.(refs := 1)] == Opened1(w, fd).chans;
  }

  lemma Adds(w: World, fd: int, client: Client)
    requires fd >= 0 && w.epollOpen && fd !in w.kernel
    ensures LoopAdd(w, fd, {}, client, Taken)
         == (w.(reg := w.reg + [Entry(w.next, fd, {}, client)],
                count := if w.count <= |w.reg| + 1 then w.count + ENTRY_CHANGE else w.count,
                kernel := w.kernel[fd := Interest(w.next, {}, true)],
                next := w.next + 1,
                log := Then(w.log, Added(w.next))), 0)
  {
  }

  // ------------------------------------------------------------ the shift

  /** Two channels, of which the first is destroyed. */
  const DESTROY_FIRST := Do(NewChannelOn(3, Taken), Do(NewChannelOn(4, Taken), Do(Destroy(0), OK)))

  /** Destroying the first of two channels spoils the table as the code is written, and only then. */
  lemma DestroyingTheFirstOfTwo()
    ensures Run(2, DESTROY_FIRST).Stops(CorruptTable)
    ensures Run(1, DESTROY_FIRST).Done?
  {
    DestroyingWithGap(1);
    DestroyingWithGap(2);
  }

  lemma DestroyingWithGap(gap: nat)
    requires gap in {1, 2}
    ensures gap == 2 ==> Run(gap, DESTROY_FIRST).Stops(CorruptTable)
    ensures gap == 1 ==> Run(gap, DESTROY_FIRST).Done?
  {
    hide Inv, RunScript, RunCall;
    var w0 := Init(gap);
    Step(w0, NewChannelOn(3, Taken), Do(NewChannelOn(4, Taken), Do(Destroy(0), OK)));
    Opens(w0, 3);
    var w1 := Opened1(w0, 3);
    Step(w1, NewChannelOn(4, Taken), Do(Destroy(0), OK));
    Opens(w1, 4);
    var w2 := Opened1(w1, 4);
    Step(w2, Destroy(0), OK);
    Steps.InitOk(gap);
    CallKeeps(w0, NewChannelOn(3, Taken));
    CallKeeps(w1, NewChannelOn(4, Taken));
    CallKeeps(w2, Destroy(0));
    assert w2.reg == [Entry(1, 3, {}, Channel(0)), Entry(3, 4, {}, Channel(2))];
    assert RunCall(w2, Destroy(0)) == IoDestroy(w2, 0) by { DestroyCall(w2, 0); }
    DestroySpoilsTableIff(w2, 0);
    if gap == 1 { Stop(RunCall(w2, Destroy(0)).value, 1, true); }
  }

  lemma DestroyCall(w: World, p: nat)
    requires p in w.owned && p in w.chans
    ensures RunCall(w, Destroy(p)) == IoDestroy(w, p)
  {
    hide IoDestroy;
  }

  // ------------------------------------------------------------ a stale return

  const HANDLER := Handler(1, 2, 3)

  /** The reaction of a read callback that destroys channel 0 and then answers 0. */
  const DESTROY_AND_GIVE_UP := OnChannel(OK, Do(Destroy(0), Return(0, true)), OK)

  const ONE_EVENT := Wait(Ready(3, 1, {IN}, DESTROY_AND_GIVE_UP, NoMore), Pause)

  /** One channel with a read handler, and one readable event for it. */
  const GIVE_UP_DESTROYED := Do(NewChannelOn(3, Taken),
                                Do(SetHandlerOf(0, Read, HANDLER, true), Do(RunLoop(ONE_EVENT), OK)))

  /** In the run of this program, on the code as written too, one installed handler is destroyed twice. */
  lemma OneHandlerDestroyedTwice(gap: nat)
    requires gap in {1, 2}
    ensures var r := Run(gap, GIVE_UP_DESTROYED);
            && r.Done?
            && Installs(r.value.w.log, 0, Read, Debt(3, 2)) == 1
            && Destroys(r.value.w.log, 0, Read, Debt(3, 2)) == 2
            && !NoStaleReturn(r.value.w.log)
  {
    hide Inv, RunScript, RunCall;
    var w0 := Init(gap);
    Steps.InitOk(gap);
    Step(w0, NewChannelOn(3, Taken), Do(SetHandlerOf(0, Read, HANDLER, true), Do(RunLoop(ONE_EVENT), OK)));
    Opens(w0, 3);
    CallKeeps(w0, NewChannelOn(3, Taken));
    var w1 := Opened1(w0, 3);
    Step(w1, SetHandlerOf(0, Read, HANDLER, true), Do(RunLoop(ONE_EVENT), OK));
    CallKeeps(w1, SetHandlerOf(0, Read, HANDLER, true));
    Listens(w1);
    var w2 := Listening(w1);
    Step(w2, RunLoop(ONE_EVENT), OK);
    DestroyedTwice(w2);
    Stop(RunCall(w2, RunLoop(ONE_EVENT)).value, 1, true);
    PaidOnceIffNoStaleReturn(gap, GIVE_UP_DESTROYED);
  }

  /** The state after a read handler has been set on channel 0. */
  function Listening(w: World): World
    requires 0 in w.chans
  {
    w.(reg := [Entry(1, 3, {IN}, Channel(0))], kernel := w.kernel[3 := Interest(1, {IN}, true)],
       chans := w.chans[0 := w.chans[0].(read := HANDLER, events := {IN})],
       log := Then(w.log, Installed(0, Read, HANDLER)))
  }

  lemma Listens(w: World)
    requires 0 in w.owned && w.reg == [Entry(1, 3, {}, Channel(0))]
    requires w.chans == map[0 := Chan(1, 3, {}, false, NO_HANDLER, NO_HANDLER, NO_HANDLER)]
    ensures RunCall(w, SetHandlerOf(0, Read, HANDLER, true)) == Done(Listening(w))
  {
    hide SetHandler;
    Sets(w);
  }

  lemma Sets(w: World)
    requires w.reg == [Entry(1, 3, {}, Channel(0))]
    requires w.chans == map[0 := Chan(1, 3, {}, false, NO_HANDLER, NO_HANDLER, NO_HANDLER)]
    ensures SetHandler(w, 0, Read, HANDLER, true) == (Listening(w), 1)
  {
    hide LoopModify;
    var c := w.chans[0];
    var w1 := w.(chans := w.chans[0 := c.(read := HANDLER)], log := Then(w.log, Installed(0, Read, HANDLER)));
    assert Replaced(w, 0, Read, HANDLER) == w1;
    Modifies(w1, 3);
    assert {} + {SideBit(Read)} == {IN};
    assert w1.chans[0 := c.(read := HANDLER, events := {IN})] == Listening(w).chans;
  }

  lemma Modifies(w: World, fd: int)
    requires fd >= 0 && w.reg == [Entry(1, fd, {}, Channel(0))]
    ensures LoopModify(w, fd, {IN}, true)
         == (w.(reg := [Entry(1, fd, {IN}, Channel(0))], kernel := w.kernel[fd := Interest(1, {IN}, true)]), 0)
  {
    assert w.reg[0 := Entry(1, fd, {IN}, Channel(0))] == [Entry(1, fd, {IN}, Channel(0))];
  }

  /** The pass of the loop in which the callback destroys its channel and gives it up. */
  lemma DestroyedTwice(w: World)
    requires Inv(w) && w.gap in {1, 2} && !w.terminate && w.count > 0
    requires w.reg == [Entry(1, 3, {IN}, Channel(0))]
    requires 3 in w.kernel && w.kernel[3] == Interest(1, {IN}, true)
    requires 0 in w.chans && w.chans[0].descriptor == 3 && w.chans[0].read == HANDLER
    ensures var r := RunCall(w, RunLoop(ONE_EVENT));
            && r.Done?
            && Destroys(r.value.log, 0, Read, Debt(3, 2)) == Destroys(w.log, 0, Read, Debt(3, 2)) + 2
            && Installs(r.value.log, 0, Read, Debt(3, 2)) == Installs(w.log, 0, Read, Debt(3, 2))
  {
    hide Inv, RunEvent;
    var b := ONE_EVENT.batch;
    assert Deliverable(w.kernel, b);
    FetchKeeps(w, b);
    var w1 := Fetch(w, b);
    assert w1.pools[1] > 0 && w1.reg == w.reg && w1.chans == w.chans && w1.log == w.log && w1.gap == w.gap;
    EventDestroysTwice(w1);
    OneEvent(w, RunEvent(w1, 1, Channel(0), {IN}, DESTROY_AND_GIVE_UP).value);
  }

  lemma OneEvent(w: World, v: World)
    requires !w.terminate && w.count > 0 && w.reg == [Entry(1, 3, {IN}, Channel(0))]
    requires Deliverable(w.kernel, ONE_EVENT.batch)
    requires RunEvent(Fetch(w, ONE_EVENT.batch), 1, Channel(0), {IN}, DESTROY_AND_GIVE_UP) == Done(v)
    ensures RunCall(w, RunLoop(ONE_EVENT)) == Done(v)
  {
    hide RunEvent, Deliverable, Disarm;
    var w1 := Fetch(w, ONE_EVENT.batch);
    assert RunBatch(v, NoMore) == Done(v);
    assert FindId(w1.reg, 1) == 0;
    assert RunBatch(w1, ONE_EVENT.batch) == Done(v);
    assert RunTurns(v, Pause, w.count) == Done(v);
    assert BatchSize(NoMore) == 0 && BatchSize(ONE_EVENT.batch) == 1;
  }

  lemma EventDestroysTwice(was: World)
    requires Inv(was) && was.gap in {1, 2} && was.reg == [Entry(1, 3, {IN}, Channel(0))] && was.pools[1] > 0
    requires 0 in was.chans && was.chans[0].descriptor == 3 && was.chans[0].read == HANDLER
    ensures var r := RunEvent(was, 1, Channel(0), {IN}, DESTROY_AND_GIVE_UP);
            && r.Done?
            && Destroys(r.value.log, 0, Read, Debt(3, 2)) == Destroys(was.log, 0, Read, Debt(3, 2)) + 2
            && Installs(r.value.log, 0, Read, Debt(3, 2)) == Installs(was.log, 0, Read, Debt(3, 2))
  {
    hide Inv, Serve, RunScript, Enter, Leave;
    var w := Drawn(was, 1);
    StepsAdd.DrawKeeps(was, 1);
    Enters(w, 0, Read, Debt(3, 2));
    Steps.EnterKeeps(w, 0);
    var w1, s := Enter(w, 0), Do(Destroy(0), Return(0, true));
    GivingUpADestroyedChannel(w1, 0, Read, true);
    ServeKeeps(w1, 0, Read, s);
    var v := Serve(w1, 0, Read, s).value;
    FrameIsAllocated(v, 0);
    Leaves(v, 0, Read, Debt(3, 2));
    assert Transfer(w1, 0, {IN}, DESTROY_AND_GIVE_UP) == Done(v);
    assert Dispatch(w1, 0, {IN}, DESTROY_AND_GIVE_UP) == Done(v);
  }

  lemma Enters(w: World, p: nat, side: Side, d: Debt)
    requires p in w.chans
    ensures var v := Enter(w, p);
            && p in v.chans && v.chans[p] == w.chans[p].(refs := w.chans[p].refs + 1) && v.frames[p] > 0
            && v.reg == w.reg && v.gap == w.gap
            && Destroys(v.log, p, side, d) == Destroys(w.log, p, side, d)
            && Installs(v.log, p, side, d) == Installs(w.log, p, side, d)
  {
    Steps.HandlerUnheard(w.log, Entered(p), p, side, d);
  }

  lemma Leaves(w: World, p: nat, side: Side, d: Debt)
    requires p in w.chans
    ensures Destroys(Leave(w, p).log, p, side, d) == Destroys(w.log, p, side, d)
    ensures Installs(Leave(w, p).log, p, side, d) == Installs(w.log, p, side, d)
  {
    Steps.HandlerUnheard(w.log, Left(p), p, side, d);
    Steps.HandlerUnheard(Then(w.log, Left(p)), Freed(p), p, side, d);
  }

  // ------------------------------------------------------------ events that cannot be processed

  /** The state in which the read callback of channel 0 is called for a drawn event. */
  function Reading(was: World): World
    requires 0 in was.chans
  {
    Note(Enter(Drawn(was, 1), 0), Called(0, Read, HANDLER, was.chans[0].descriptor >= 0))
  }

  /** The state after the callback has answered 1. */
  function HasRead(u: World): World
    requires 0 in u.chans
  {
    Leave(Note(u, Returned(0, Read, u.chans[0].At(Read), 1, u.chans[0].descriptor >= 0)), 0)
  }

  lemma ReadEvent(was: World, s: Script, u: World)
    requires 0 in was.chans && was.chans[0].read == HANDLER
    requires RunScript(Reading(was), s) == Done(Result(u, 1, true)) && 0 in u.chans
    ensures RunEvent(was, 1, Channel(0), {IN}, OnChannel(OK, s, OK)) == Done(HasRead(u))
  {
    hide RunScript, Leave, Enter;
    var w := Drawn(was, 1);
    Enters(w, 0, Read, Debt(0, 0));
    var w1, r := Enter(w, 0), OnChannel(OK, s, OK);
    assert w1.chans[0].At(Read) == HANDLER && w1.chans[0].descriptor == was.chans[0].descriptor;
    assert Serve(w1, 0, Read, s)
           == Done(Note(u, Returned(0, Read, u.chans[0].At(Read), 1, u.chans[0].descriptor >= 0)));
    assert Transfer(w1, 0, {IN}, r) == Serve(w1, 0, Read, s);
    assert Dispatch(w1, 0, {IN}, r) == Serve(w1, 0, Read, s);
  }

  /** A channel that reads, and the state in which its callback is called is a right one. */
  lemma ReadingIsOk(was: World)
    requires Inv(was) && 0 in was.chans && was.chans[0].read == HANDLER && InTable(was.reg, 1)
    ensures Inv(Reading(was)) && 0 in Reading(was).chans && Reading(was).reg == was.reg
  {
    hide Inv, Enter;
    StepsAdd.DrawKeeps(was, 1);
    var w := Drawn(was, 1);
    Enters(w, 0, Read, Debt(0, 0));
    Steps.EnterKeeps(w, 0);
    Steps.CalledKeeps(Enter(w, 0), 0, Read);
  }

  const QUITS := OnChannel(OK, Do(Quit, OK), OK)
  const IDLE := OnChannel(OK, OK, OK)

  /** Events on descriptors 3 and 4 at once; the first callback quits the loop. */
  const TWO_EVENTS := Ready(3, 1, {IN}, QUITS, Ready(4, 3, {HUP}, IDLE, NoMore))

  const QUIT_EARLY :=
    Do(NewChannelOn(3, Taken), Do(SetHandlerOf(0, Read, HANDLER, true), Do(NewChannelOn(4, Taken),
       Do(RunLoop(Wait(TWO_EVENTS, Pause)), OK))))

  /** Two channels with an event each: after a quit in the first callback the second event names a freed entry. */
  lemma QuittingEarlyLeavesAStaleEvent(gap: nat)
    ensures Run(gap, QUIT_EARLY).Stops(StaleEvent(3))
  {
    hide Inv, RunScript, RunCall, RunTurns;
    var rest := Do(RunLoop(Wait(TWO_EVENTS, Pause)), OK);
    var w2 := OneListens(gap, Do(NewChannelOn(4, Taken), rest));
    Step(w2, NewChannelOn(4, Taken), rest);
    Opens(w2, 4);
    CallKeeps(w2, NewChannelOn(4, Taken));
    var w3 := Opened1(w2, 4);
    Step(w3, RunLoop(Wait(TWO_EVENTS, Pause)), OK);
    TwoEventsStale(w3);
    LoopCall(w3, Wait(TWO_EVENTS, Pause));
  }

  lemma LoopCall(w: World, turns: Turns)
    ensures RunCall(w, RunLoop(turns)) == RunTurns(w, turns, w.count)
  {
    hide RunTurns;
  }

  /** The first two calls of the programs below. */
  lemma OneListens(gap: nat, rest: Script) returns (w: World)
    ensures Run(gap, Do(NewChannelOn(3, Taken), Do(SetHandlerOf(0, Read, HANDLER, true), rest))) == RunScript(w, rest)
    ensures Inv(w) && w.reg == [Entry(1, 3, {IN}, Channel(0))] && w.count == 4 && w.next == 2 && w.epollOpen
            && !w.terminate
    ensures w.chans.Keys == {0} && w.chans[0].descriptor == 3 && w.chans[0].read == HANDLER
    ensures w.kernel == map[3 := Interest(1, {IN}, true)]
  {
    hide Inv, RunScript, RunCall;
    var w0 := Init(gap);
    Steps.InitOk(gap);
    Step(w0, NewChannelOn(3, Taken), Do(SetHandlerOf(0, Read, HANDLER, true), rest));
    Opens(w0, 3);
    CallKeeps(w0, NewChannelOn(3, Taken));
    var w1 := Opened1(w0, 3);
    Step(w1, SetHandlerOf(0, Read, HANDLER, true), rest);
    CallKeeps(w1, SetHandlerOf(0, Read, HANDLER, true));
    Listens(w1);
    w := Listening(w1);
  }

  lemma TwoEventsStale(w: World)
    requires Inv(w) && !w.terminate && w.count >= 2
    requires w.reg == [Entry(1, 3, {IN}, Channel(0)), Entry(3, 4, {}, Channel(2))]
    requires w.kernel == map[3 := Interest(1, {IN}, true), 4 := Interest(3, {}, true)]
    requires 0 in w.chans && w.chans[0].read == HANDLER
    ensures RunTurns(w, Wait(TWO_EVENTS, Pause), w.count).Stops(StaleEvent(3))
  {
    hide Inv, RunEvent, RunScript, Deliverable, Disarm, BatchSize, RunBatch, HasRead;
    TwoAreDeliverable(w.kernel);
    FetchKeeps(w, TWO_EVENTS);
    FetchPooled(w, TWO_EVENTS);
    var w1 := Fetch(w, TWO_EVENTS);
    assert FindId(w1.reg, 1) == 0;
    QuittingEvent(w1);
    QuitStrandsTheRest(w1, TWO_EVENTS);
  }

  lemma TwoAreDeliverable(kernel: map<int, Interest>)
    requires kernel == map[3 := Interest(1, {IN}, true), 4 := Interest(3, {}, true)]
    ensures Deliverable(kernel, TWO_EVENTS) && BatchSize(TWO_EVENTS) == 2
  {
    var b := TWO_EVENTS.more;
    assert b.more == NoMore && BatchSize(b.more) == 0 && BatchSize(b) == 1;
    assert Deliverable(kernel, b);
  }

  /** The first event is processed to its end, and the loop has been quit. */
  lemma QuittingEvent(w: World)
    requires Inv(w) && 0 in w.chans && w.chans[0].read == HANDLER && InTable(w.reg, 1)
    ensures var r := RunEvent(w, 1, Channel(0), {IN}, QUITS); r.Done? && r.value.terminate
  {
    hide Inv, RunEvent, RunScript, LoopQuit, HasRead, Reading;
    ReadingIsOk(w);
    QuitKeepsHandlers(Reading(w), 0);
    QuitThenReturn(Reading(w));
    StepsRetire.LoopQuitKeeps(Reading(w));
    var u := LoopQuit(Reading(w)).value;
    ReadEvent(w, Do(Quit, OK), u);
    HasReadIs(u);
  }

  lemma HasReadIs(u: World)
    requires 0 in u.chans
    ensures var v := HasRead(u);
            v.terminate == u.terminate && v.reg == u.reg && v.kernel == u.kernel && v.count == u.count
  {
  }

  const ADDS_FOUR :=
    Do(NewChannelOn(4, Taken), Do(NewChannelOn(5, Taken), Do(NewChannelOn(6, Taken), Do(NewChannelOn(7, Taken), OK))))

  /** An event for one channel, whose callback opens four more, and then a hang-up on all five. */
  const ONE_THEN_FIVE :=
    Wait(Ready(3, 1, {IN}, OnChannel(OK, ADDS_FOUR, OK), NoMore), Wait(FIVE_EVENTS, Pause))

  const LAST_EVENTS := Ready(6, 7, {HUP}, IDLE, Ready(7, 9, {HUP}, IDLE, NoMore))
  const FIVE_EVENTS := Ready(3, 1, {HUP}, IDLE, Ready(4, 3, {HUP}, IDLE, Ready(5, 5, {HUP}, IDLE, LAST_EVENTS)))

  const OUTGROW_POOL :=
    Do(NewChannelOn(3, Taken), Do(SetHandlerOf(0, Read, HANDLER, true), Do(RunLoop(ONE_THEN_FIVE), OK)))

  /** One channel whose callback opens four more: the next pass delivers five events to a pool of four. */
  lemma OutgrowingThePoolOverrunsIt(gap: nat)
    ensures Run(gap, OUTGROW_POOL).Stops(PoolOverrun(4))
  {
    hide Inv, RunScript, RunCall, RunTurns;
    var rest := Do(RunLoop(ONE_THEN_FIVE), OK);
    var w := OneListens(gap, rest);
    Step(w, RunLoop(ONE_THEN_FIVE), OK);
    LoopCall(w, ONE_THEN_FIVE);
    FiveEventsOverrun(w);
  }

  lemma FourOpened(w: World) returns (u: World)
    requires Inv(w) && w.epollOpen && w.next == 2 && w.chans.Keys == {0}
    requires w.kernel == map[3 := Interest(1, {IN}, true)]
    ensures RunScript(w, ADDS_FOUR) == Done(Result(u, 1, true))
    ensures 0 in u.chans && u.terminate == w.terminate
    ensures u.kernel == map[3 := Interest(1, {IN}, true), 4 := Interest(3, {}, true), 5 := Interest(5, {}, true),
                            6 := Interest(7, {}, true), 7 := Interest(9, {}, true)]
  {
    hide Inv, RunScript, RunCall;
    var s4 := Do(NewChannelOn(7, Taken), OK);
    var s3 := Do(NewChannelOn(6, Taken), s4);
    var s2 := Do(NewChannelOn(5, Taken), s3);
    Step(w, NewChannelOn(4, Taken), s2);
    Opens(w, 4);
    var w1 := Opened1(w, 4);
    Step(w1, NewChannelOn(5, Taken), s3);
    Opens(w1, 5);
    var w2 := Opened1(w1, 5);
    Step(w2, NewChannelOn(6, Taken), s4);
    Opens(w2, 6);
    var w3 := Opened1(w2, 6);
    Step(w3, NewChannelOn(7, Taken), OK);
    Opens(w3, 7);
    u := Opened1(w3, 7);
    Stop(u, 1, true);
  }

  lemma FiveEventsOverrun(w: World)
    requires Inv(w) && !w.terminate && w.epollOpen && w.count == 4 && w.next == 2
    requires w.reg == [Entry(1, 3, {IN}, Channel(0))] && w.kernel == map[3 := Interest(1, {IN}, true)]
    requires w.chans.Keys == {0} && w.chans[0].read == HANDLER
    ensures RunTurns(w, ONE_THEN_FIVE, 4).Stops(PoolOverrun(4))
  {
    hide Inv, RunEvent, RunScript, Leave, Enter;
    var b := ONE_THEN_FIVE.batch;
    assert b.more == NoMore && BatchSize(b.more) == 0 && BatchSize(b) == 1;
    assert Deliverable(w.kernel, b);
    FetchKeeps(w, b);
    var w1 := Fetch(w, b);
    assert FindId(w1.reg, 1) == 0;
    ReadingIsOk(w1);
    assert Disarm(w.kernel, b) == w.kernel;
    ReadingIs(w1);
    var u := FourOpened(Reading(w1));
    ReadEvent(w1, ADDS_FOUR, u);
    HasReadIs(u);
    var v := HasRead(u);
    assert RunBatch(v, NoMore) == Done(v) && FindId(w1.reg, 1) == 0;
    assert RunBatch(w1, b) == Done(v);
    FiveAreTooMany(v);
  }

  lemma ReadingIs(w: World)
    requires 0 in w.chans
    ensures var v := Reading(w);
            v.kernel == w.kernel && v.next == w.next && v.chans.Keys == w.chans.Keys
            && v.epollOpen == w.epollOpen && v.terminate == w.terminate
  {
  }

  lemma FiveAreTooMany(w: World)
    requires !w.terminate
    requires w.kernel == map[3 := Interest(1, {IN}, true), 4 := Interest(3, {}, true), 5 := Interest(5, {}, true),
                             6 := Interest(7, {}, true), 7 := Interest(9, {}, true)]
    ensures RunTurns(w, Wait(FIVE_EVENTS, Pause), 4).Stops(PoolOverrun(4))
  {
    var b4 := LAST_EVENTS.more;
    var b2 := FIVE_EVENTS.more;
    assert Deliverable(w.kernel, b4) && Deliverable(w.kernel, LAST_EVENTS);
    assert !Names(b4, 6) && !Names(LAST_EVENTS, 5) && !Names(LAST_EVENTS, 4) && !Names(LAST_EVENTS, 3);
    assert Deliverable(w.kernel, b2.more) && !Names(b2.more, 4) && !Names(b2.more, 3);
    assert Deliverable(w.kernel, b2) && !Names(b2, 3);
    assert Deliverable(w.kernel, FIVE_EVENTS);
    assert BatchSize(b4) == 1 && BatchSize(LAST_EVENTS) == 2 && BatchSize(b2.more) == 3 && BatchSize(b2) == 4;
  }
}

/**
 The state shared by loop.c, io.c and timer.c, and their operations as functions of it.
 Addresses are numbers that are never used twice.
 */
module World {
  import opened Events
  import opened LoopTable

  datatype Client = Channel(p: nat) | Timer(t: nat)

  /** io_t. */
  datatype Chan = Chan(
    refs: int,
    descriptor: int,
    events: Mask,
    closeOnDestroy: bool,
    read: Handler,
    write: Handler,
    disconnect: Handler)
  {
    function At(side: Side): Handler {
      match side case Read => read case Write => write case Disconnect => disconnect
    }

    function Put(side: Side, h: Handler): (c: Chan)
      ensures c.At(side) == h
      ensures forall other :: other != side ==> c.At(other) == At(other)
      ensures c.refs == refs && c.descriptor == descriptor && c.events == events && c.closeOnDestroy == closeOnDestroy
    {
      match side
      case Read => this.(read := h)
      case Write => this.(write := h)
      case Disconnect => this.(disconnect := h)
    }

    function Mute(side: Side): Chan {
      Put(side, At(side).(callback := 0))
    }
  }

  /** timer_entry_t, with `pending` for a timer that is running or has expired unread. */
  datatype TimerRecord = TimerRecord(id: int, data: nat, destructor: nat, pending: bool)

  /** What epoll keeps for a descriptor; `armed` is cleared by delivering a one-shot event. */
  datatype Interest = Interest(id: nat, mask: Mask, armed: bool)

  /**
   The state. `owned` are the channels their owners hold, `frames` the dispatches in progress, by
   channel, and `pools` the delivered events not yet processed, by entry.
   */
  datatype World = World(
    gap: nat,
    reg: seq<Entry<Client>>,
    count: nat,
    epollOpen: bool,
    terminate: bool,
    kernel: map<int, Interest>,
    chans: map<nat, Chan>,
    owned: set<nat>,
    frames: multiset<nat>,
    pools: multiset<nat>,
    timers: map<nat, TimerRecord>,
    next: nat,
    log: Trace)

  /** Why a run cannot go on. */
  datatype Why =
    | Misuse          // the program uses a channel or timer it does not hold
    | Impossible      // the kernel would not deliver these events
    | Orphan          // epoll refused a descriptor and the caller was told it was taken
    | CorruptTable    // the shift in loop_remove_sd left the table wrong
    | UseAfterFree    // the library itself touches a freed channel or timer
      // a delivered event names an entry that has been freed
    | StaleEvent(id: nat)
      // epoll is asked to fill a pool of this size, and more descriptors are ready
    | PoolOverrun(room: nat)

  /** A run ends, or stops in the state before the step that cannot be taken. */
  datatype Out<+T> = Done(value: T) | Halt(why: Why, at: World) {
    predicate IsFailure() { Halt? }
    function PropagateFailure<U>(): Out<U> requires Halt? { Halt(why, at) }
    function Extract(): T requires Done? { value }
    predicate Stops(reason: Why) { Halt? && why == reason }
  }

  const EIO := 5
  const EMFILE := 24

  function SideBit(side: Side): Flag {
    match side case Read => IN case Write => OUT case Disconnect => RDHUP
  }

  function Init(gap: nat): World {
    World(gap, [], ENTRY_CHANGE, true, false, map[], map[], {}, multiset{}, multiset{}, map[], 0, Start)
  }

  function Note(w: World, e: Event): World {
    w.(log := Then(w.log, e))
  }

  // ---------------------------------------------------------------- loop.c

  predicate EpollTakes(w: World, sd: int, answer: Answer) {
    answer.Taken? && w.epollOpen && sd !in w.kernel
  }

  /** loop_add_sd; the code is 0, a negative errno, or epoll's errno with its positive sign. */
  function LoopAdd(w: World, sd: int, mask: Mask, client: Client, answer: Answer): (World, int) {
    if sd < 0 then (w, -EINVAL)
    else
      var grows := w.count <= |w.reg| + 1;
      if grows && answer.NoTable? then (w, -ENOMEM)
      else
        var w1 := if grows then w.(count := w.count + ENTRY_CHANGE) else w;
        if answer.NoTable? || answer.NoEntry? then (w1, -ENOMEM)
        else if !EpollTakes(w1, sd, answer) then (w1, EEXIST)
        else
          var id := w1.next;
          (Note(w1.(reg := w1.reg + [Entry(id, sd, mask, client)],
                    kernel := w1.kernel[sd := Interest(id, mask, true)],
                    next := id + 1),
                Added(id)), 0)
  }

  /** loop_modify_sd; `granted` is epoll's answer. */
  function LoopModify(w: World, sd: int, mask: Mask, granted: bool): (World, int) {
    if sd < 0 then (w, -EINVAL)
    else
      var k := Find(w.reg, sd);
      if k == |w.reg| then (w, -ENXIO)
      else if !granted then (Note(w, Denied(sd)), -1)
      else
        (w.(reg := w.reg[k := w.reg[k].(mask := mask)],
            kernel := w.kernel[sd := Interest(w.reg[k].id, mask, true)]), 0)
  }

  /** EPOLL_CTL_DEL and then the destructor of an entry that has left the table. */
  function Retire(w: World, e: Entry<Client>): Out<World> {
    var w1 := Note(Note(w.(kernel := w.kernel - {e.sd}), KernelRemoved(e.id)), Destructed(e.id));
    match e.client
    case Channel(p) => if p in w1.chans then Done(DestroyCallback(w1, p)) else Halt(UseAfterFree, w)
    case Timer(t) => if t in w1.timers then Done(TimerDestructor(w1, t)) else Halt(UseAfterFree, w)
  }

  /** loop_remove_sd; a run stops where the shift has left a table that is not the old one without the entry. */
  function LoopRemove(w: World, sd: int): Out<World> {
    if sd < 0 then Done(w)
    else
      var k := Find(w.reg, sd);
      if k == |w.reg| then Done(w)
      else if Shift(w.reg, k, w.gap) != Without(w.reg, k) then Halt(CorruptTable, w)
      else Retire(w.(reg := Shift(w.reg, k, w.gap)), w.reg[k])
  }

  /** The loop of loop_cleanup over the entries. */
  function RetireAll(w: World): Out<World>
    decreases |w.reg|
  {
    if w.reg == [] then Done(w)
    else
      var w1 :- Retire(w.(reg := w.reg[1..]), w.reg[0]);
      if |w1.reg| < |w.reg| then RetireAll(w1) else Done(w1)
  }

  /** loop_quit. */
  function LoopQuit(w: World): Out<World> {
    var w1 :- RetireAll(Note(w.(terminate := true), Stopped));
    Done(w1.(count := 0, epollOpen := false, kernel := map[]))
  }

  // ---------------------------------------------------------------- io.c

  /** The destroyer of a handler, if there is one, is called on the handler's data. */
  function Settle(log: Trace, p: nat, side: Side, h: Handler): Trace {
    if h.destroy != 0 then Then(log, Destroyed(p, side, h)) else log
  }

  function DestroySide(w: World, p: nat, side: Side): World
    requires p in w.chans
  {
    w.(log := Settle(w.log, p, side, w.chans[p].At(side)))
  }

  /** io_destroy_callback. */
  function DestroyCallback(w: World, p: nat): World
    requires p in w.chans
  {
    var w1 := DestroySide(DestroySide(DestroySide(w, p, Write), p, Read), p, Disconnect);
    var c := w1.chans[p];
    var w2 := if c.closeOnDestroy then Note(w1, ChannelClosed(p, c.descriptor)) else w1;
    Note(w2.(chans := w2.chans[p := c.(descriptor := -1)]), Detached(p, c.closeOnDestroy))
  }

  /** io_unref. */
  function Unref(w: World, p: nat): World
    requires p in w.chans
  {
    var c := w.chans[p];
    if c.refs - 1 != 0 then w.(chans := w.chans[p := c.(refs := c.refs - 1)])
    else Note(w.(chans := w.chans - {p}), Freed(p))
  }

  /** io_new; None is a null result. */
  datatype NewChannel = NewChannel(w: World, channel: bool, p: nat)

  function IoNew(w: World, fd: int, answer: Answer): NewChannel {
    if fd < 0 then NewChannel(w, false, 0)
    else
      var p := w.next;
      var blank := Chan(0, fd, {}, false, NO_HANDLER, NO_HANDLER, NO_HANDLER);
      var (w1, code) := LoopAdd(w.(next := p + 1, chans := w.chans[p := blank]), fd, {}, Channel(p), answer);
      if code < 0 then NewChannel(w1.(chans := w1.chans - {p}), false, 0)
      else
        var w2 := w1.(chans := w1.chans[p := blank.(refs := 1)], owned := w1.owned + {p});
        NewChannel(Note(Note(w2, Wrapped(p, fd)), Opened(p)), true, p)
  }

  /** The old handler's destroyer is called and the new handler stored. */
  function Replaced(w: World, p: nat, side: Side, h: Handler): World
    requires p in w.chans
  {
    Note(DestroySide(w, p, side).(chans := w.chans[p := w.chans[p].Put(side, h)]), Installed(p, side, h))
  }

  /** io_set_read_handler, io_set_write_handler and io_set_disconnect_handler. */
  function SetHandler(w: World, p: nat, side: Side, h: Handler, granted: bool): (World, int)
    requires p in w.chans
  {
    var c := w.chans[p];
    if c.descriptor < 0 then (w, 0)
    else
      var events := if h.callback != 0 then c.events + {SideBit(side)} else c.events - {SideBit(side)};
      var w1 := Replaced(w, p, side, h);
      if events == c.events then (w1, 1)
      else
        var (w2, code) := LoopModify(w1, c.descriptor, events, granted);
        if code < 0 then (w2, 0)
        else (w2.(chans := w2.chans[p := c.Put(side, h).(events := events)]), 1)
  }

  /** The callback of one side is cleared; its data and destroyer stay. */
  function Mute(w: World, p: nat, side: Side): World
    requires p in w.chans
  {
    w.(chans := w.chans[p := w.chans[p].Mute(side)])
  }

  function MuteAll(w: World, p: nat): World
    requires p in w.chans
  {
    Mute(Mute(Mute(w, p, Read), p, Write), p, Disconnect)
  }

  /** The owner's reference is given back. */
  function Release(w: World, p: nat): World
    requires p in w.chans
  {
    Unref(Note(w.(owned := w.owned - {p}), Released(p)), p)
  }

  /** io_destroy. */
  function IoDestroy(w: World, p: nat): Out<World>
    requires p in w.chans
  {
    var w1 := MuteAll(w, p);
    var w2 :- LoopRemove(w1, w1.chans[p].descriptor);
    if p in w2.chans then Done(Release(w2, p)) else Halt(UseAfterFree, w2)
  }

  /** The entry of io_process_event: a reference for the dispatch. */
  function Enter(w: World, p: nat): World
    requires p in w.chans
  {
    var c := w.chans[p];
    Note(w.(chans := w.chans[p := c.(refs := c.refs + 1)], frames := w.frames + multiset{p}), Entered(p))
  }

  /** The exit of io_process_event: the reference of the dispatch is dropped. */
  function Leave(w: World, p: nat): World
    requires p in w.chans
  {
    Unref(Note(w.(frames := w.frames - multiset{p}), Left(p)), p)
  }

  /** A callback has answered 0: its handler is destroyed, cleared and no longer asked for. */
  function GivenUp(w: World, p: nat, side: Side): World
    requires p in w.chans
  {
    var c := w.chans[p];
    DestroySide(w, p, side).(chans := w.chans[p := c.Put(side, NO_HANDLER).(events := c.events - {SideBit(side)})])
  }

  /** What io_process_event does when a callback has returned. */
  function Finish(w: World, p: nat, side: Side, value: int, granted: bool): World
    requires p in w.chans
  {
    var c := w.chans[p];
    var w1 := Note(w, Returned(p, side, c.At(side), value, c.descriptor >= 0));
    if value != 0 then w1
    else LoopModify(GivenUp(w1, p, side), c.descriptor, c.events - {SideBit(side)}, granted).0
  }

  // ---------------------------------------------------------------- timer.c

  /** timer_destructor. */
  function TimerDestructor(w: World, t: nat): World
    requires t in w.timers
  {
    var r := w.timers[t];
    var w1 := Note(w, TimerClosed(t, r.id));
    var w2 := if r.destructor != 0 then Note(w1, TimerDestroyed(t, r.data)) else w1;
    Note(w2.(timers := w2.timers - {t}), TimerFreed(t))
  }

  /**
   create_timer: fd is what timerfd_create returns, and timeout_set succeeds. Without a descriptor the
   caller gets the errno with its positive sign.
   */
  function CreateTimer(w: World, fd: int, data: nat, destructor: nat, answer: Answer): (World, int) {
    if fd < 0 then (w, EMFILE) else StartTimer(w, fd, data, destructor, answer)
  }

  function StartTimer(w: World, fd: int, data: nat, destructor: nat, answer: Answer): (World, int) {
    var t := w.next;
    var w0 := w.(next := t + 1, timers := w.timers[t := TimerRecord(fd, data, destructor, true)]);
    var w1 := Note(Note(w0, TimerOpened(t, fd, data, destructor)), Armed(t));
    var (w2, code) := LoopAdd(w1, fd, {IN, ONESHOT}, Timer(t), answer);
    if code < 0 then (Note(Note(w2.(timers := w2.timers - {t}), TimerClosed(t, fd)), TimerFreed(t)), -EIO)
    else (w2, fd)
  }

  /** modify_timer on the descriptor of timer t; without a timeout the timer itself is not set again. */
  function ModifyTimer(w: World, t: nat, timeout: bool, granted: bool): (World, int)
    requires t in w.timers
  {
    var w1 := if timeout then Note(w.(timers := w.timers[t := w.timers[t].(pending := true)]), Armed(t)) else w;
    var (w2, code) := LoopModify(w1, w1.timers[t].id, {IN, ONESHOT}, granted);
    if code < 0 then (w2, -EIO) else (Note(w2, Rearmed(t)), 0)
  }
}

/**
 Whole runs: a program is a tree of library calls in which every callback the library makes is
 answered by a script of further calls, so that callbacks may replace handlers, destroy channels,
 quit the loop or run it again. The functions here run such a program to its end.
 */
module Lifecycle {
  import opened Events
  import opened LoopTable
  import opened World

  /** What a piece of client code does: library calls, then a return value (0 gives the handler up). */
  datatype Script = Return(value: int, granted: bool) | Do(call: Call, next: Script)

  datatype Call =
    | NewChannelOn(fd: int, answer: Answer)
    | CloseOnDestroy(p: nat, on: bool)
    | SetHandlerOf(p: nat, side: Side, h: Handler, granted: bool)
    | Destroy(p: nat)
    | NewTimerOn(fd: int, data: nat, destructor: nat, answer: Answer)
    | SetTimer(fd: int, timeout: bool, granted: bool)
    | DropTimer(fd: int)
    | Quit
    | RunLoop(turns: Turns)

  /** The passes of loop_run's outer loop that are observed, each with what epoll_wait delivers. */
  datatype Turns = Pause | Wait(batch: Batch, rest: Turns)

  /** The filled part of the event pool, each event with the reaction of the code it reaches. */
  datatype Batch = NoMore | Ready(fd: int, id: nat, flags: Mask, reaction: Reaction, more: Batch)

  datatype Reaction =
    | OnChannel(disconnect: Script, read: Script, write: Script)
    | OnTimer(expired: bool, callback: Script)

  datatype Result = Result(w: World, value: int, granted: bool)

  predicate Holds(w: World, p: nat) {
    p in w.owned || w.frames[p] > 0
  }

  function BatchSize(b: Batch): nat {
    if b.NoMore? then 0 else 1 + BatchSize(b.more)
  }

  /** The entries the events name. */
  function BatchIds(b: Batch): multiset<nat> {
    if b.NoMore? then multiset{} else multiset{b.id} + BatchIds(b.more)
  }

  predicate Names(b: Batch, fd: int) {
    b.Ready? && (b.fd == fd || Names(b.more, fd))
  }

  /** The kernel may deliver an event on an armed descriptor for bits asked for, or an error or hang-up. */
  predicate Deliverable(kernel: map<int, Interest>, b: Batch) {
    b.Ready? ==>
      && b.fd in kernel
      && kernel[b.fd].id == b.id
      && kernel[b.fd].armed
      && b.flags != {}
      && b.flags <= kernel[b.fd].mask - {ONESHOT} + {HUP, ERR}
      && !Names(b.more, b.fd)
      && Deliverable(kernel, b.more)
  }

  /** Delivering a one-shot event disarms its descriptor. */
  function Disarm(kernel: map<int, Interest>, b: Batch): map<int, Interest> {
    if b.NoMore? then kernel
    else if b.fd in kernel && ONESHOT in kernel[b.fd].mask then
      Disarm(kernel[b.fd := kernel[b.fd].(armed := false)], b.more)
    else Disarm(kernel, b.more)
  }

  /** epoll_wait fills the event pool. */
  function Fetch(w: World, b: Batch): World {
    w.(kernel := Disarm(w.kernel, b), pools := w.pools + BatchIds(b))
  }

  /** The loop takes an event out of the pool. */
  function Drawn(w: World, id: nat): World {
    Note(w.(pools := w.pools - multiset{id}), Picked(id))
  }

  function RunScript(w: World, s: Script): Out<Result>
    decreases s, 0
  {
    match s
    case Return(value, granted) => Done(Result(w, value, granted))
    case Do(call, next) =>
      var w1 :- RunCall(w, call);
      RunScript(w1, next)
  }

  function RunCall(w: World, c: Call): Out<World>
    decreases c
  {
    match c
    case NewChannelOn(fd, answer) =>
      var r := IoNew(w, fd, answer);
      if r.channel && |r.w.reg| == |w.reg| then Halt(Orphan, w)
      else Done(r.w)
    case CloseOnDestroy(p, on) =>
      if !Holds(w, p) then Halt(Misuse, w)
      else if p !in w.chans then Halt(UseAfterFree, w)
      else Done(w.(chans := w.chans[p := w.chans[p].(closeOnDestroy := on)]))
    case SetHandlerOf(p, side, h, granted) =>
      if !Holds(w, p) then Halt(Misuse, w)
      else if p !in w.chans then Halt(UseAfterFree, w)
      else Done(SetHandler(w, p, side, h, granted).0)
    case Destroy(p) =>
      if p !in w.owned then Halt(Misuse, w)
      else if p !in w.chans then Halt(UseAfterFree, w)
      else IoDestroy(w, p)
    case NewTimerOn(fd, data, destructor, answer) =>
      var (w1, code) := CreateTimer(w, fd, data, destructor, answer);
      if fd >= 0 && code >= 0 && |w1.reg| == |w.reg| then Halt(Orphan, w) else Done(w1)
    case SetTimer(fd, timeout, granted) =>
      var k := Find(w.reg, fd);
      if k == |w.reg| then Done(w)
      else if !w.reg[k].client.Timer? then Halt(Misuse, w)
      else if w.reg[k].client.t !in w.timers then Halt(UseAfterFree, w)
      else Done(ModifyTimer(w, w.reg[k].client.t, timeout, granted).0)
    case DropTimer(fd) =>
      var k := Find(w.reg, fd);
      if k < |w.reg| && !w.reg[k].client.Timer? then Halt(Misuse, w)
      else LoopRemove(w, fd)
    case Quit => LoopQuit(w)
    case RunLoop(turns) => RunTurns(w, turns, w.count)
  }

  /** loop_run; the event pool was sized when it was called. */
  function RunTurns(w: World, turns: Turns, pool: nat): Out<World>
    decreases turns
  {
    match turns
    case Pause => Done(w)
    case Wait(batch, rest) =>
      if w.terminate then Done(w)
      else if !Deliverable(w.kernel, batch) then Halt(Impossible, w)
      else if BatchSize(batch) > pool then Halt(PoolOverrun(pool), w)
      else
        var w1 :- RunBatch(Fetch(w, batch), batch);
        RunTurns(w1, rest, pool)
  }

  function RunBatch(w: World, b: Batch): Out<World>
    decreases b
  {
    match b
    case NoMore => Done(w)
    case Ready(_, id, flags, reaction, more) =>
      var k := FindId(w.reg, id);
      if k == |w.reg| then Halt(StaleEvent(id), w)
      else
        var w1 :- RunEvent(w, id, w.reg[k].client, flags, reaction);
        RunBatch(w1, more)
  }

  /** The next event leaves the pool and is passed to the callback of its entry. */
  function RunEvent(was: World, id: nat, client: Client, flags: Mask, r: Reaction): Out<World>
    decreases r
  {
    var w := Drawn(was, id);
    match client
    case Channel(p) =>
      if !r.OnChannel? then Halt(Impossible, was)
      else if p !in w.chans then Halt(UseAfterFree, w)
      else
        var w1 :- Dispatch(Enter(w, p), p, flags, r);
        if p in w1.chans then Done(Leave(w1, p)) else Halt(UseAfterFree, w1)
    case Timer(t) =>
      if !r.OnTimer? then Halt(Impossible, was)
      else if flags * {ERR, HUP} != {} then Done(w)
      else if t !in w.timers then Halt(UseAfterFree, w)
      else if !r.expired || !w.timers[t].pending then Done(w)
      else
        var w1 := Note(w.(timers := w.timers[t := w.timers[t].(pending := false)]), Fired(t));
        var res :- RunScript(w1, r.callback);
        Done(res.w)
  }

  /** io_process_event between its io_ref and its io_unref. */
  function Dispatch(w: World, p: nat, flags: Mask, r: Reaction): Out<World>
    requires p in w.chans && r.OnChannel?
    decreases r, 1
  {
    if flags * {RDHUP, HUP, ERR} != {} then
      var w1 := Mute(Mute(w, p, Read), p, Write);
      if w1.chans[p].disconnect.callback == 0 then LoopRemove(w1, w1.chans[p].descriptor)
      else
        var w2 :- Serve(w1, p, Disconnect, r.disconnect);
        Transfer(w2, p, flags, r)
    else Transfer(w, p, flags, r)
  }

  /** The read and the write part of io_process_event. */
  function Transfer(w: World, p: nat, flags: Mask, r: Reaction): Out<World>
    requires r.OnChannel?
    decreases r, 0
  {
    var w1 :- if IN in flags then Serve(w, p, Read, r.read) else Done(w);
    if OUT in flags then Serve(w1, p, Write, r.write) else Done(w1)
  }

  /** A callback is called if there is one, answered by the script, and followed up. */
  function Serve(w: World, p: nat, side: Side, s: Script): Out<World>
    decreases s, 1
  {
    if p !in w.chans then Halt(UseAfterFree, w)
    else if w.chans[p].At(side).callback == 0 then Done(w)
    else
      var res :- RunScript(Note(w, Called(p, side, w.chans[p].At(side), w.chans[p].descriptor >= 0)), s);
      if p !in res.w.chans then Halt(UseAfterFree, res.w)
      else Done(Finish(res.w, p, side, res.value, res.granted))
  }

  /** A program run from the state loop_init leaves. */
  function Run(gap: nat, s: Script): Out<Result> {
    RunScript(Init(gap), s)
  }
}

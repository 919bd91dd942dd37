/** Whole calls of loop_run: when the event pool is large enough and when no event is stale. */
module Loops {
  import opened Events
  import opened LoopTable
  import opened World
  import opened Lifecycle
  import opened Invariant
  import opened Frames
  import opened Pools
  import opened StepsRetire
  import opened StepsAdd
  import opened Runs
  import opened Theorems
  import opened Growth
  import opened Batches

  // ------------------------------------------------------------ how many registrations code can make

  function CallAdds(c: Call): nat {
    match c
    case NewChannelOn(_, _) => 1
    case NewTimerOn(_, _, _, _) => 1
    case RunLoop(turns) => TurnsAdd(turns)
    case _ => 0
  }

  function ScriptAdds(s: Script): nat {
    match s
    case Return(_, _) => 0
    case Do(call, next) => CallAdds(call) + ScriptAdds(next)
  }

  function ReactionAdds(r: Reaction): nat {
    match r
    case OnChannel(disconnect, read, write) => ScriptAdds(disconnect) + ScriptAdds(read) + ScriptAdds(write)
    case OnTimer(_, callback) => ScriptAdds(callback)
  }

  function BatchAdds(b: Batch): nat {
    if b.NoMore? then 0 else ReactionAdds(b.reaction) + BatchAdds(b.more)
  }

  /** The registrations that the callbacks of these passes can make, in the loops they run again too. */
  function TurnsAdd(turns: Turns): nat {
    match turns
    case Pause => 0
    case Wait(batch, rest) => BatchAdds(batch) + TurnsAdd(rest)
  }

  // ------------------------------------------------------------ the table stays within a limit

  /** Until a quit, n more entries stay within the limit, and the size of the table is not below it. */
  ghost predicate Roomy(w: World, n: nat, limit: nat) {
    w.epollOpen ==> |w.reg| + n <= limit <= w.count
  }

  /** A step that adds at most n entries and does not open epoll again. */
  ghost predicate Grows(w: World, v: World, n: nat) {
    v.epollOpen ==> w.epollOpen && |v.reg| <= |w.reg| + n && w.count <= v.count
  }

  /** A piece of a run that starts in w overruns no pool and leaves room for n entries. */
  ghost predicate Fits(w: World, r: Out<World>, n: nat, limit: nat) {
    match r
    case Done(v) => Roomy(v, n, limit) && (v.epollOpen ==> w.epollOpen)
    case Halt(why, _) => !why.PoolOverrun?
  }

  lemma AddGrows(w: World, sd: int, mask: Mask, client: Client, answer: Answer)
    ensures Grows(w, LoopAdd(w, sd, mask, client, answer).0, 1)
  {
    LoopAddIs(w, sd, mask, client, answer);
  }

  lemma IoNewGrows(w: World, fd: int, answer: Answer)
    ensures Grows(w, IoNew(w, fd, answer).w, 1)
  {
    hide LoopAdd;
    var p, c := w.next, Chan(0, fd, {}, false, NO_HANDLER, NO_HANDLER, NO_HANDLER);
    AddGrows(w.(next := p + 1, chans := w.chans[p := c]), fd, {}, Channel(p), answer);
  }

  lemma CreateTimerGrows(w: World, fd: int, data: nat, destructor: nat, answer: Answer)
    ensures Grows(w, CreateTimer(w, fd, data, destructor, answer).0, 1)
  {
    hide LoopAdd;
    var t := w.next;
    var w0 := w.(next := t + 1, timers := w.timers[t := TimerRecord(fd, data, destructor, true)]);
    AddGrows(Note(Note(w0, TimerOpened(t, fd, data, destructor)), Armed(t)), fd, {IN, ONESHOT}, Timer(t), answer);
  }

  lemma ModifyTimerGrows(w: World, t: nat, timeout: bool, granted: bool)
    requires t in w.timers
    ensures Grows(w, ModifyTimer(w, t, timeout, granted).0, 0)
  {
    hide LoopModify;
    var w1 := if timeout then Note(w.(timers := w.timers[t := w.timers[t].(pending := true)]), Armed(t)) else w;
    ModifyFrame(w1, w1.timers[t].id, {IN, ONESHOT}, granted);
  }

  lemma RemoveGrows(w: World, sd: int)
    ensures var r := LoopRemove(w, sd);
            match r case Done(v) => Grows(w, v, 0) case Halt(why, _) => !why.PoolOverrun?
  {
    hide Retire, Shift, Without;
    var k := Find(w.reg, sd);
    if sd >= 0 && k < |w.reg| {
      LengthWithout(w.reg, k);
      RetireLeaves(w.(reg := Shift(w.reg, k, w.gap)), w.reg[k]);
      RetireNotOverrun(w.(reg := Shift(w.reg, k, w.gap)), w.reg[k]);
    }
  }

  lemma RetireNotOverrun(w: World, e: Entry<Client>)
    ensures Retire(w, e).Halt? ==> !Retire(w, e).why.PoolOverrun?
  {
    hide DestroyCallback, TimerDestructor;
  }

  lemma DestroyGrows(w: World, p: nat)
    requires p in w.chans
    ensures match IoDestroy(w, p) case Done(v) => Grows(w, v, 0) case Halt(why, _) => !why.PoolOverrun?
  {
    hide LoopRemove, MuteAll, Release;
    MuteAllFrame(w, p);
    var w1 := MuteAll(w, p);
    var r := LoopRemove(w1, w1.chans[p].descriptor);
    RemoveGrows(w1, w1.chans[p].descriptor);
    if r.Done? && p in r.value.chans { ReleaseFrame(r.value, p); }
  }

  lemma QuitSize(w: World)
    requires Inv(w)
    ensures LoopQuit(w).Done? && !LoopQuit(w).value.epollOpen
  {
    LoopQuitKeeps(w);
  }

  // ------------------------------------------------------------ the pool is never overrun

  lemma {:induction false} ScriptFits(w: World, s: Script, n: nat, limit: nat)
    requires Inv(w) && Roomy(w, ScriptAdds(s) + n, limit)
    ensures Fits(w, Ended(RunScript(w, s)), n, limit)
    decreases s, 0
  {
    hide Inv, RunCall;
    match s
    case Return(_, _) =>
    case Do(call, next) =>
      CallFits(w, call, ScriptAdds(next) + n, limit);
      CallKeeps(w, call);
      var r := RunCall(w, call);
      if r.Done? { ScriptFits(r.value, next, n, limit); }
  }

  lemma {:induction false} CallFits(w: World, c: Call, n: nat, limit: nat)
    requires Inv(w) && Roomy(w, CallAdds(c) + n, limit)
    ensures Fits(w, RunCall(w, c), n, limit)
    decreases c
  {
    hide Inv, IoNew, SetHandler, IoDestroy, CreateTimer, ModifyTimer, LoopRemove, LoopQuit, RunTurns;
    match c
    case NewChannelOn(fd, answer) => IoNewGrows(w, fd, answer);
    case CloseOnDestroy(_, _) =>
    case SetHandlerOf(p, side, h, granted) => if p in w.chans { SetHandlerFrame(w, p, side, h, granted); }
    case Destroy(p) => if p in w.chans { DestroyGrows(w, p); }
    case NewTimerOn(fd, data, destructor, answer) => CreateTimerGrows(w, fd, data, destructor, answer);
    case SetTimer(fd, timeout, granted) =>
      var k := Find(w.reg, fd);
      if k < |w.reg| && w.reg[k].client.Timer? && w.reg[k].client.t in w.timers {
        ModifyTimerGrows(w, w.reg[k].client.t, timeout, granted);
      }
    case DropTimer(fd) => RemoveGrows(w, fd);
    case Quit => QuitSize(w);
    case RunLoop(turns) => TurnsFit(w, turns, w.count, n, limit);
  }

  lemma {:induction false} TurnsFit(w: World, turns: Turns, pool: nat, n: nat, limit: nat)
    requires Inv(w) && Roomy(w, TurnsAdd(turns) + n, limit) && (w.epollOpen ==> limit <= pool)
    ensures Fits(w, RunTurns(w, turns, pool), n, limit)
    decreases turns
  {
    hide Inv, RunBatch, Disarm, Deliverable, BatchIds;
    match turns
    case Pause =>
    case Wait(batch, rest) =>
      if !w.terminate && Deliverable(w.kernel, batch) {
        BatchFitsTable(w, batch);
        ClosedIsEmpty(w);
        FetchKeeps(w, batch);
        FetchPooled(w, batch);
        var w1 := Fetch(w, batch);
        BatchFits(w1, batch, TurnsAdd(rest) + n, limit);
        BatchKeeps(w1, batch);
        var r := RunBatch(w1, batch);
        if r.Done? { TurnsFit(r.value, rest, pool, n, limit); }
      }
  }

  lemma ClosedIsEmpty(w: World)
    requires Inv(w)
    ensures !w.epollOpen ==> w.reg == []
  {
    hide TableOk, LinksOk, RefsOk, SilentOk, MasksOk, TimersOk, HandlersOk, EntryLogOk, ChanLogOk, TimerLogOk,
         LedgerOk, Lawful;
  }

  lemma {:induction false} BatchFits(w: World, b: Batch, n: nat, limit: nat)
    requires Inv(w) && Pooled(b, w.pools) && Roomy(w, BatchAdds(b) + n, limit)
    ensures Fits(w, RunBatch(w, b), n, limit)
    decreases b
  {
    hide Inv, RunEvent, Pooled, Remaining, Roomy;
    match b
    case NoMore =>
    case Ready(_, id, flags, reaction, more) =>
      DrawnFrom(b, w.pools);
      var k := FindId(w.reg, id);
      if k < |w.reg| {
        EventFits(w, k, flags, reaction, BatchAdds(more) + n, limit);
        EventKeeps(w, k, flags, reaction);
        var r := RunEvent(w, id, w.reg[k].client, flags, reaction);
        if r.Done? { BatchFits(r.value, more, n, limit); }
      }
  }

  lemma {:induction false} EventFits(w: World, k: nat, flags: Mask, r: Reaction, n: nat, limit: nat)
    requires Inv(w) && k < |w.reg| && w.pools[w.reg[k].id] > 0 && Roomy(w, ReactionAdds(r) + n, limit)
    ensures Fits(w, RunEvent(w, w.reg[k].id, w.reg[k].client, flags, r), n, limit)
    decreases r
  {
    hide Inv, Dispatch, RunScript, Leave, Enter;
    var id := w.reg[k].id;
    ClientIsAllocated(w, k);
    var w0 := Drawn(w, id);
    DrawKeeps(w, id);
    match w.reg[k].client
    case Channel(p) =>
      if r.OnChannel? {
        Steps.EnterKeeps(w0, p);
        EnterFrame(w0, p);
        DispatchFits(Enter(w0, p), p, flags, r, n, limit);
        var d := Dispatch(Enter(w0, p), p, flags, r);
        if d.Done? && p in d.value.chans { LeaveFrame(d.value, p); }
      }
    case Timer(t) =>
      TimerEntryHere(w, k, t);
      if r.OnTimer? && r.expired && w.timers[t].pending {
        FireKeeps(w, t);
        ScriptFits(Firing(w, t), r.callback, n, limit);
      }
  }

  lemma {:induction false} DispatchFits(w: World, p: nat, flags: Mask, r: Reaction, n: nat, limit: nat)
    requires Inv(w) && w.frames[p] > 0 && p in w.chans && r.OnChannel? && Roomy(w, ReactionAdds(r) + n, limit)
    ensures Fits(w, Dispatch(w, p, flags, r), n, limit)
    decreases r, 1
  {
    hide Inv, Transfer, Serve, LoopRemove, Mute;
    var m := ScriptAdds(r.read) + ScriptAdds(r.write) + n;
    if flags * {RDHUP, HUP, ERR} != {} {
      Steps.MuteKeeps(w, p, Read);
      MuteFrame(w, p, Read);
      Steps.MuteKeeps(Mute(w, p, Read), p, Write);
      MuteFrame(Mute(w, p, Read), p, Write);
      var w1 := Mute(Mute(w, p, Read), p, Write);
      if w1.chans[p].disconnect.callback == 0 {
        RemoveGrows(w1, w1.chans[p].descriptor);
      } else {
        ServeFits(w1, p, Disconnect, r.disconnect, m, limit);
        ServeKeeps(w1, p, Disconnect, r.disconnect);
        var s := Serve(w1, p, Disconnect, r.disconnect);
        if s.Done? { TransferFits(s.value, p, flags, r, n, limit); }
      }
    } else {
      TransferFits(w, p, flags, r, n, limit);
    }
  }

  lemma {:induction false} TransferFits(w: World, p: nat, flags: Mask, r: Reaction, n: nat, limit: nat)
    requires Inv(w) && w.frames[p] > 0 && r.OnChannel?
    requires Roomy(w, ScriptAdds(r.read) + ScriptAdds(r.write) + n, limit)
    ensures Fits(w, Transfer(w, p, flags, r), n, limit)
    decreases r, 0
  {
    hide Inv, Serve;
    ServeFits(w, p, Read, r.read, ScriptAdds(r.write) + n, limit);
    ServeKeeps(w, p, Read, r.read);
    var s := if IN in flags then Serve(w, p, Read, r.read) else Done(w);
    if s.Done? { ServeFits(s.value, p, Write, r.write, n, limit); }
  }

  lemma {:induction false} ServeFits(w: World, p: nat, side: Side, s: Script, n: nat, limit: nat)
    requires Inv(w) && w.frames[p] > 0 && Roomy(w, ScriptAdds(s) + n, limit)
    ensures Fits(w, Serve(w, p, side, s), n, limit)
    decreases s, 1
  {
    hide Inv, RunScript, Finish;
    FrameIsAllocated(w, p);
    if w.chans[p].At(side).callback != 0 {
      Steps.CalledKeeps(w, p, side);
      var w1 := Note(w, Called(p, side, w.chans[p].At(side), w.chans[p].descriptor >= 0));
      ScriptFits(w1, s, n, limit);
      var res := RunScript(w1, s);
      if res.Done? && p in res.value.w.chans {
        FinishFrame(res.value.w, p, side, res.value.value, res.value.granted);
      }
    }
  }

  /**
   loop_run never overruns its event pool, which it sizes when it is called, if the callbacks make no
   more registrations than the table then has room for; the loops that callbacks run again do not
   overrun theirs either.
   */
  lemma PoolIsLargeEnough(w: World, turns: Turns)
    requires Inv(w) && |w.reg| + TurnsAdd(turns) <= w.count
    ensures var r := RunTurns(w, turns, w.count); r.Halt? ==> !r.why.PoolOverrun?
  {
    hide Inv, RunTurns;
    TurnsFit(w, turns, w.count, 0, w.count);
  }

  // ------------------------------------------------------------ a table that stays within the pool

  /** In every pass that is reached the table is no larger than the pool. */
  ghost predicate WithinTurns(w: World, turns: Turns, pool: nat)
    decreases turns
  {
    turns.Wait? && !w.terminate && Deliverable(w.kernel, turns.batch) ==>
      && |w.reg| <= pool
      && var r := RunBatch(Fetch(w, turns.batch), turns.batch);
         r.Done? ==> WithinTurns(r.value, turns.rest, pool)
  }

  /** In every pass that is reached the batch is considerate of the table as it then is. */
  ghost predicate ConsiderateTurns(w: World, turns: Turns)
    decreases turns
  {
    turns.Wait? && !w.terminate && Deliverable(w.kernel, turns.batch) ==>
      && Considerate(w.reg, turns.batch)
      && var r := RunBatch(Fetch(w, turns.batch), turns.batch);
         r.Done? ==> ConsiderateTurns(r.value, turns.rest)
  }

  predicate FlatTurns(turns: Turns) {
    turns.Wait? ==> FlatBatch(turns.batch) && FlatTurns(turns.rest)
  }

  lemma {:induction false} FlatBatchFits(w: World, b: Batch)
    requires FlatBatch(b)
    ensures var r := RunBatch(w, b); r.Halt? ==> !r.why.PoolOverrun?
    decreases b
  {
    hide RunEvent;
    if b.Ready? && FindId(w.reg, b.id) < |w.reg| {
      FlatEventIsPlain(w, b.id, w.reg[FindId(w.reg, b.id)].client, b.flags, b.reaction);
      var r := RunEvent(w, b.id, w.reg[FindId(w.reg, b.id)].client, b.flags, b.reaction);
      if r.Done? { FlatBatchFits(r.value, b.more); }
    }
  }

  /** The pass in which loop_run is called always fits, whatever epoll delivers, and after a quit there is none. */
  lemma FirstPassFits(w: World, b: Batch)
    requires Inv(w)
    ensures Deliverable(w.kernel, b) ==> BatchSize(b) <= w.count
    ensures var r := RunCall(w, RunLoop(Wait(b, Pause))); FlatBatch(b) && r.Halt? ==> !r.why.PoolOverrun?
    ensures w.terminate ==> forall turns: Turns :: RunCall(w, RunLoop(turns)) == Done(w)
  {
    hide Inv, RunBatch, Deliverable, FlatBatch, Fetch;
    RoomHere(w);
    if Deliverable(w.kernel, b) { BatchFitsTable(w, b); }
    if FlatBatch(b) { FlatBatchFits(Fetch(w, b), b); }
    var r := RunBatch(Fetch(w, b), b);
    if r.Done? { assert RunTurns(r.value, Pause, w.count) == Done(r.value); }
  }

  /**
   A call of loop_run whose callbacks do not run it again never overruns its pool if the table stays
   within the pool, however much is registered and removed again.
   */
  lemma {:induction false} TableWithinPoolFits(w: World, turns: Turns, pool: nat)
    requires Inv(w) && FlatTurns(turns) && WithinTurns(w, turns, pool)
    ensures var r := RunTurns(w, turns, pool); r.Halt? ==> !r.why.PoolOverrun?
    decreases turns
  {
    hide Inv, RunBatch, Disarm, Deliverable, BatchIds, FlatBatch;
    if turns.Wait? && !w.terminate && Deliverable(w.kernel, turns.batch) {
      var w1 := Fetch(w, turns.batch);
      BatchFitsTable(w, turns.batch);
      FetchKeeps(w, turns.batch);
      FetchPooled(w, turns.batch);
      BatchKeeps(w1, turns.batch);
      FlatBatchFits(w1, turns.batch);
      var r := RunBatch(w1, turns.batch);
      if r.Done? { TableWithinPoolFits(r.value, turns.rest, pool); }
    }
  }

  /**
   In a call of loop_run every delivered event reaches a live entry and the pool is never overrun, if
   in no pass a callback removes the descriptor of a later event, quits before the last event or runs
   the loop again, and the table stays within the size the pool was given.
   */
  lemma {:induction false} LoopReachesLiveEntries(w: World, turns: Turns, pool: nat)
    requires Inv(w) && ConsiderateTurns(w, turns) && WithinTurns(w, turns, pool)
    ensures var r := RunTurns(w, turns, pool); r.Halt? ==> !r.why.StaleEvent? && !r.why.PoolOverrun?
    decreases turns
  {
    hide Inv, RunBatch, Disarm, Deliverable, BatchIds, Considerate;
    if turns.Wait? && !w.terminate && Deliverable(w.kernel, turns.batch) {
      var w1 := Fetch(w, turns.batch);
      BatchFitsTable(w, turns.batch);
      BatchReachesLiveEntries(w, turns.batch);
      FetchKeeps(w, turns.batch);
      FetchPooled(w, turns.batch);
      BatchKeeps(w1, turns.batch);
      var r := RunBatch(w1, turns.batch);
      if r.Done? { LoopReachesLiveEntries(r.value, turns.rest, pool); }
    }
  }

  // ------------------------------------------------------------ exactly when a call goes wrong

  /**
   A call of loop_run, with whatever loops its callbacks run again, runs into a freed entry if and only
   if an event is taken from a pool when the destructor of its entry has run.
   */
  lemma LoopIsStaleIff(w: World, turns: Turns, pool: nat)
    requires Inv(w)
    ensures var r := RunTurns(w, turns, pool); r.Halt? && r.why.StaleEvent? <==> PicksDestructed(Seen(r))
  {
    hide Inv, RunTurns;
    TurnsKeep(w, turns, pool);
    StaleMeansDestructed(w, RunTurns(w, turns, pool), w.pools);
  }

  /** The first n passes. */
  function FirstTurns(turns: Turns, n: nat): Turns {
    if n == 0 || turns.Pause? then Pause else turns.(rest := FirstTurns(turns.rest, n - 1))
  }

  /** The first n passes and then one that delivers b. */
  function ThenTurn(turns: Turns, n: nat, b: Batch): Turns {
    if n == 0 || turns.Pause? then Wait(b, Pause) else turns.(rest := ThenTurn(turns.rest, n - 1, b))
  }

  lemma {:induction false} PassAfter(w: World, turns: Turns, pool: nat, n: nat, b: Batch)
    requires RunTurns(w, FirstTurns(turns, n), pool).Done?
    requires !RunTurns(w, FirstTurns(turns, n), pool).value.terminate
    ensures RunTurns(w, ThenTurn(turns, n, b), pool)
         == RunTurns(RunTurns(w, FirstTurns(turns, n), pool).value, Wait(b, Pause), pool)
    decreases turns
  {
    hide RunBatch, Fetch, Deliverable;
    if n > 0 && turns.Wait? && !w.terminate {
      PassAfter(RunBatch(Fetch(w, turns.batch), turns.batch).value, turns.rest, pool, n - 1, b);
    }
  }

  /**
   After any number of passes that have gone well, epoll can overrun the pool of loop_run in the next
   one if and only if more descriptors are armed than the pool has places.
   */
  lemma PassCanOverrunIff(w: World, turns: Turns, pool: nat, n: nat)
    requires Inv(w) && RunTurns(w, FirstTurns(turns, n), pool).Done?
    requires !RunTurns(w, FirstTurns(turns, n), pool).value.terminate
    ensures var v := RunTurns(w, FirstTurns(turns, n), pool).value;
            (exists b: Batch :: RunTurns(w, ThenTurn(turns, n, b), pool) == Halt(PoolOverrun(pool), v))
            <==> ArmedCount(v.reg, v.kernel) > pool
  {
    hide Inv, RunTurns, ThenTurn, FirstTurns;
    var v := RunTurns(w, FirstTurns(turns, n), pool).value;
    TurnsKeep(w, FirstTurns(turns, n), pool);
    if b: Batch :| RunTurns(w, ThenTurn(turns, n, b), pool) == Halt(PoolOverrun(pool), v) {
      TurnsKeep(w, ThenTurn(turns, n, b), pool);
    }
    if ArmedCount(v.reg, v.kernel) > pool {
      var b := FullBatch(v.reg, v.kernel);
      TableHere(v);
      FullBatchIsDeliverable(v.reg, v.kernel, v.next);
      PassAfter(w, turns, pool, n, b);
      OverrunBy(v, b, pool);
    }
  }

  lemma OverrunBy(w: World, b: Batch, pool: nat)
    requires !w.terminate && Deliverable(w.kernel, b) && BatchSize(b) > pool
    ensures RunTurns(w, Wait(b, Pause), pool) == Halt(PoolOverrun(pool), w)
  {
  }

  // ------------------------------------------------------------ every event, in order

  /** The entries the events of a batch name, in order. */
  function IdsOf(b: Batch): seq<nat> {
    if b.NoMore? then [] else [b.id] + IdsOf(b.more)
  }

  /** The entries the events of all these passes name, in order. */
  function AllIds(turns: Turns): seq<nat> {
    if turns.Pause? then [] else IdsOf(turns.batch) + AllIds(turns.rest)
  }

  /** A batch that is processed to its end: all its events have been taken from the pool, in order. */
  lemma {:induction false} BatchTakesAll(w: World, b: Batch)
    requires FlatBatch(b) && RunBatch(w, b).Done?
    ensures Picks(RunBatch(w, b).value.log) == Picks(w.log) + IdsOf(b)
    decreases b
  {
    hide RunEvent, Extends;
    match b
    case NoMore =>
    case Ready(_, id, flags, reaction, more) =>
      var client := w.reg[FindId(w.reg, id)].client;
      EventExtends(w, id, client, flags, reaction, true);
      var v := RunEvent(w, id, client, flags, reaction).value;
      FlatPicks(Then(w.log, Picked(id)), v.log);
      BatchTakesAll(v, more);
      assert Picks(w.log) + [id] + IdsOf(more) == Picks(w.log) + IdsOf(b);
  }

  /**
   A call of loop_run that ends has taken all events of a number of passes from the pool, in order and no
   others: of every pass there was, unless a callback has quit the loop.
   */
  lemma {:induction false} LoopTakesAll(w: World, turns: Turns, pool: nat)
    requires FlatTurns(turns) && RunTurns(w, turns, pool).Done?
    ensures var v := RunTurns(w, turns, pool).value;
            exists n: nat ::
              && Picks(v.log) == Picks(w.log) + AllIds(FirstTurns(turns, n))
              && (v.terminate || FirstTurns(turns, n) == turns)
    decreases turns
  {
    hide RunBatch, Fetch, Deliverable, Picks, FlatBatch;
    var v := RunTurns(w, turns, pool).value;
    if turns.Pause? || w.terminate {
      assert FirstTurns(turns, 0) == Pause && AllIds(Pause) == [];
      assert Picks(v.log) == Picks(w.log) + AllIds(FirstTurns(turns, 0));
    } else {
      var w1 := Fetch(w, turns.batch);
      FetchLog(w, turns.batch);
      BatchTakesAll(w1, turns.batch);
      var u := RunBatch(w1, turns.batch).value;
      LoopTakesAll(u, turns.rest, pool);
      var n: nat :| Picks(v.log) == Picks(u.log) + AllIds(FirstTurns(turns.rest, n))
                    && (v.terminate || FirstTurns(turns.rest, n) == turns.rest);
      assert FirstTurns(turns, n + 1) == turns.(rest := FirstTurns(turns.rest, n));
      assert Picks(v.log) == Picks(w.log) + AllIds(FirstTurns(turns, n + 1));
    }
  }

  lemma FetchLog(w: World, b: Batch)
    ensures Fetch(w, b).log == w.log
  {
  }
}

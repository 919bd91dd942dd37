/** When the events of one pass of the loop all reach live entries. */
module Batches {
  import opened Events
  import opened LoopTable
  import opened World
  import opened Lifecycle
  import opened Invariant
  import opened Frames
  import opened Pools
  import opened Steps
  import opened StepsTable
  import opened StepsRetire
  import opened StepsAdd
  import opened Runs
  import opened Theorems
  import opened ChannelTheorems

  // ------------------------------------------------------------ entries that stay

  /** The entry at that address is still in the table, with its descriptor and its client. */
  ghost predicate Still(reg: Registry, id: nat, sd: int, client: Client) {
    var k := FindId(reg, id);
    k < |reg| && reg[k].sd == sd && reg[k].client == client
  }

  lemma StillAfterRemask(reg: Registry, k: nat, m: Mask, id: nat, sd: int, client: Client)
    requires k < |reg|
    ensures Still(Remasked(reg, k, m), id, sd, client) == Still(reg, id, sd, client)
  {
    FindAfterRemask(reg, k, m, 0, id);
  }

  lemma StillAfterDelete(reg: Registry, next: nat, k: nat, id: nat, sd: int, client: Client)
    requires TableOk(reg, next) && k < |reg| && Still(reg, id, sd, client)
    requires reg[k].sd != sd || reg[k].client != client
    ensures Still(Without(reg, k), id, sd, client)
  {
    var reg', j := Without(reg, k), FindId(reg, id);
    assert reg'[if j < k then j else j - 1] == reg[j];
    TableAfterDelete(reg, next, k);
    FindIs(reg', next, if j < k then j else j - 1);
  }

  lemma StillAfterAdd(reg: Registry, e: Row, id: nat, sd: int, client: Client)
    requires Still(reg, id, sd, client)
    ensures Still(reg + [e], id, sd, client)
  {
    var j := FindId(reg, id);
    assert (reg + [e])[j] == reg[j];
  }

  // ------------------------------------------------------------ scripts that leave an entry alone

  predicate SparesCall(c: Call, sd: int, client: Client) {
    match c
    case Destroy(p) => client != Channel(p)
    case DropTimer(fd) => fd != sd
    case Quit => false
    case RunLoop(_) => false
    case _ => true
  }

  /** The script does not quit the loop or run it again, nor remove the entry. */
  predicate SparesScript(s: Script, sd: int, client: Client) {
    s.Do? ==> SparesCall(s.call, sd, client) && SparesScript(s.next, sd, client)
  }

  predicate SparesReaction(r: Reaction, sd: int, client: Client) {
    match r
    case OnChannel(disconnect, read, write) =>
      SparesScript(disconnect, sd, client) && SparesScript(read, sd, client) && SparesScript(write, sd, client)
    case OnTimer(_, callback) => SparesScript(callback, sd, client)
  }

  /** The script does not run the loop again. */
  predicate FlatScript(s: Script) {
    s.Do? ==> !s.call.RunLoop? && FlatScript(s.next)
  }

  predicate FlatReaction(r: Reaction) {
    match r
    case OnChannel(disconnect, read, write) => FlatScript(disconnect) && FlatScript(read) && FlatScript(write)
    case OnTimer(_, callback) => FlatScript(callback)
  }

  /** A piece of a run that neither meets a freed entry nor overruns a pool. */
  ghost predicate Plain<T>(r: Out<T>) {
    r.Halt? ==> !r.why.StaleEvent? && !r.why.PoolOverrun?
  }

  lemma RetireAllIsPlain(w: World)
    ensures Plain(RetireAll(w))
    decreases |w.reg|
  {
    if w.reg != [] {
      var r := Retire(w.(reg := w.reg[1..]), w.reg[0]);
      if r.Done? && |r.value.reg| < |w.reg| { RetireAllIsPlain(r.value); }
    }
  }

  lemma {:induction false} FlatCallIsPlain(w: World, c: Call)
    requires !c.RunLoop?
    ensures Plain(RunCall(w, c))
  {
    hide IoNew, SetHandler, CreateTimer, ModifyTimer, Mute, MuteAll, Release, DestroyCallback, TimerDestructor,
         RetireAll;
    if c.Quit? { RetireAllIsPlain(Note(w.(terminate := true), Stopped)); }
  }

  lemma {:induction false} FlatScriptIsPlain(w: World, s: Script)
    requires FlatScript(s)
    ensures Plain(RunScript(w, s))
    decreases s
  {
    hide RunCall;
    if s.Do? {
      FlatCallIsPlain(w, s.call);
      var r := RunCall(w, s.call);
      if r.Done? { FlatScriptIsPlain(r.value, s.next); }
    }
  }

  lemma FlatServeIsPlain(w: World, p: nat, side: Side, s: Script)
    requires FlatScript(s)
    ensures Plain(Serve(w, p, side, s))
  {
    hide RunScript, Finish;
    if p in w.chans {
      FlatScriptIsPlain(Note(w, Called(p, side, w.chans[p].At(side), w.chans[p].descriptor >= 0)), s);
    }
  }

  lemma FlatTransferIsPlain(w: World, p: nat, flags: Mask, r: Reaction)
    requires r.OnChannel? && FlatReaction(r)
    ensures Plain(Transfer(w, p, flags, r))
  {
    hide Serve;
    FlatServeIsPlain(w, p, Read, r.read);
    var s := if IN in flags then Serve(w, p, Read, r.read) else Done(w);
    if s.Done? { FlatServeIsPlain(s.value, p, Write, r.write); }
  }

  lemma FlatDispatchIsPlain(w: World, p: nat, flags: Mask, r: Reaction)
    requires p in w.chans && r.OnChannel? && FlatReaction(r)
    ensures Plain(Dispatch(w, p, flags, r))
  {
    hide Serve, Transfer, DestroyCallback, TimerDestructor, Mute, OthersStay;
    FlatTransferIsPlain(w, p, flags, r);
    MuteFrame(w, p, Read);
    MuteFrame(Mute(w, p, Read), p, Write);
    var v := Mute(Mute(w, p, Read), p, Write);
    FlatServeIsPlain(v, p, Disconnect, r.disconnect);
    var s := Serve(v, p, Disconnect, r.disconnect);
    if s.Done? { FlatTransferIsPlain(s.value, p, flags, r); }
  }

  lemma FlatEventIsPlain(was: World, id: nat, client: Client, flags: Mask, r: Reaction)
    requires FlatReaction(r)
    ensures Plain(RunEvent(was, id, client, flags, r))
  {
    hide Dispatch, RunScript, Leave, Enter, OthersStay;
    var w := Drawn(was, id);
    match client
    case Channel(p) =>
      if r.OnChannel? && p in w.chans {
        EnterFrame(w, p);
        FlatDispatchIsPlain(Enter(w, p), p, flags, r);
      }
    case Timer(t) =>
      if r.OnTimer? && t in w.timers {
        FlatScriptIsPlain(Note(w.(timers := w.timers[t := w.timers[t].(pending := false)]), Fired(t)), r.callback);
      }
  }

  // ------------------------------------------------------------ what leaves an entry in the table

  lemma LoopModifyStill(w: World, fd: int, m: Mask, granted: bool, id: nat, sd: int, client: Client)
    requires Still(w.reg, id, sd, client)
    ensures Still(LoopModify(w, fd, m, granted).0.reg, id, sd, client)
  {
    hide Still;
    var k := Find(w.reg, fd);
    if fd >= 0 && k < |w.reg| {
      LoopModifyAnswers(w, fd, m, granted);
      StillAfterRemask(w.reg, k, m, id, sd, client);
    }
  }

  lemma LoopAddStill(w: World, fd: int, m: Mask, c: Client, answer: Answer, id: nat, sd: int, client: Client)
    requires Still(w.reg, id, sd, client)
    ensures Still(LoopAdd(w, fd, m, c, answer).0.reg, id, sd, client)
  {
    hide Still;
    StillAfterAdd(w.reg, Entry(w.next, fd, m, c), id, sd, client);
  }

  lemma LoopRemoveStill(w: World, fd: int, id: nat, sd: int, client: Client)
    requires TableOk(w.reg, w.next) && Still(w.reg, id, sd, client) && LoopRemove(w, fd).Done?
    requires fd != sd || (Find(w.reg, fd) < |w.reg| && w.reg[Find(w.reg, fd)].client != client)
    ensures Still(LoopRemove(w, fd).value.reg, id, sd, client)
  {
    hide Still, TableOk, DestroyCallback, TimerDestructor, Shift;
    var k := Find(w.reg, fd);
    if fd >= 0 && k < |w.reg| {
      StillAfterDelete(w.reg, w.next, k, id, sd, client);
      RetireLeaves(Unlinked(w, k), w.reg[k]);
    }
  }

  lemma IoDestroyStill(w: World, p: nat, id: nat, sd: int, client: Client)
    requires Inv(w) && Still(w.reg, id, sd, client) && client != Channel(p)
    requires p in w.owned && p in w.chans && IoDestroy(w, p).Done?
    ensures Still(IoDestroy(w, p).value.reg, id, sd, client)
  {
    hide Inv, IoDestroy, Still;
    DestroyIsPrivate(w, p, p + 1);
    TableHere(w);
    if w.chans[p].descriptor >= 0 {
      StillAfterDelete(w.reg, w.next, Find(w.reg, w.chans[p].descriptor), id, sd, client);
    }
  }

  lemma SetHandlerStill(w: World, p: nat, side: Side, h: Handler, granted: bool, id: nat, sd: int, client: Client)
    requires p in w.chans && Still(w.reg, id, sd, client)
    ensures Still(SetHandler(w, p, side, h, granted).0.reg, id, sd, client)
  {
    hide Still, Replaced, LoopModify;
    var c := w.chans[p];
    var m := if h.callback != 0 then c.events + {SideBit(side)} else c.events - {SideBit(side)};
    ReplacedFrame(w, p, side, h);
    LoopModifyStill(Replaced(w, p, side, h), c.descriptor, m, granted, id, sd, client);
  }

  lemma FinishStill(w: World, p: nat, side: Side, value: int, granted: bool, id: nat, sd: int, client: Client)
    requires p in w.chans && Still(w.reg, id, sd, client)
    ensures Still(Finish(w, p, side, value, granted).reg, id, sd, client)
  {
    hide Still, GivenUp, LoopModify;
    var c := w.chans[p];
    var w1 := Note(w, Returned(p, side, c.At(side), value, c.descriptor >= 0));
    GivenUpFrame(w1, p, side);
    LoopModifyStill(GivenUp(w1, p, side), c.descriptor, c.events - {SideBit(side)}, granted, id, sd, client);
  }

  lemma ModifyTimerStill(w: World, t: nat, timeout: bool, granted: bool, id: nat, sd: int, client: Client)
    requires t in w.timers && Still(w.reg, id, sd, client)
    ensures Still(ModifyTimer(w, t, timeout, granted).0.reg, id, sd, client)
  {
    hide Still, LoopModify;
    var w1 := if timeout then Note(w.(timers := w.timers[t := w.timers[t].(pending := true)]), Armed(t)) else w;
    LoopModifyStill(w1, w1.timers[t].id, {IN, ONESHOT}, granted, id, sd, client);
  }

  lemma IoNewStill(w: World, fd: int, answer: Answer, id: nat, sd: int, client: Client)
    requires Still(w.reg, id, sd, client)
    ensures Still(IoNew(w, fd, answer).w.reg, id, sd, client)
  {
    hide Still, LoopAdd;
    var p, c := w.next, Chan(0, fd, {}, false, NO_HANDLER, NO_HANDLER, NO_HANDLER);
    LoopAddStill(w.(next := p + 1, chans := w.chans[p := c]), fd, {}, Channel(p), answer, id, sd, client);
  }

  lemma CreateTimerStill(w: World, fd: int, data: nat, destructor: nat, answer: Answer, id: nat, sd: int,
                         client: Client)
    requires Still(w.reg, id, sd, client)
    ensures Still(CreateTimer(w, fd, data, destructor, answer).0.reg, id, sd, client)
  {
    hide Still, LoopAdd;
    var t := w.next;
    var w0 := w.(next := t + 1, timers := w.timers[t := TimerRecord(fd, data, destructor, true)]);
    var w1 := Note(Note(w0, TimerOpened(t, fd, data, destructor)), Armed(t));
    LoopAddStill(w1, fd, {IN, ONESHOT}, Timer(t), answer, id, sd, client);
  }

  // ------------------------------------------------------------ runs that leave an entry in the table

  /** Where the run goes on, the entry is still there. */
  ghost predicate Spared(r: Out<World>, id: nat, sd: int, client: Client) {
    r.Done? ==> Still(r.value.reg, id, sd, client)
  }

  lemma {:induction false} CallSpares(w: World, c: Call, id: nat, sd: int, client: Client)
    requires Inv(w) && Still(w.reg, id, sd, client) && SparesCall(c, sd, client)
    ensures Spared(RunCall(w, c), id, sd, client)
  {
    hide Inv, Still, IoNew, SetHandler, IoDestroy, CreateTimer, ModifyTimer, LoopRemove;
    match c
    case NewChannelOn(fd, answer) => IoNewStill(w, fd, answer, id, sd, client);
    case CloseOnDestroy(_, _) =>
    case SetHandlerOf(p, side, h, granted) =>
      if p in w.chans { SetHandlerStill(w, p, side, h, granted, id, sd, client); }
    case Destroy(p) =>
      if p in w.owned && p in w.chans && IoDestroy(w, p).Done? { IoDestroyStill(w, p, id, sd, client); }
    case NewTimerOn(fd, data, destructor, answer) =>
      CreateTimerStill(w, fd, data, destructor, answer, id, sd, client);
    case SetTimer(fd, timeout, granted) =>
      var k := Find(w.reg, fd);
      if k < |w.reg| && w.reg[k].client.Timer? && w.reg[k].client.t in w.timers {
        ModifyTimerStill(w, w.reg[k].client.t, timeout, granted, id, sd, client);
      }
    case DropTimer(fd) =>
      TableHere(w);
      if LoopRemove(w, fd).Done? { LoopRemoveStill(w, fd, id, sd, client); }
  }

  lemma {:induction false} ScriptSpares(w: World, s: Script, id: nat, sd: int, client: Client)
    requires Inv(w) && Still(w.reg, id, sd, client) && SparesScript(s, sd, client)
    ensures Spared(Ended(RunScript(w, s)), id, sd, client)
    decreases s
  {
    hide Inv, Still, RunCall;
    if s.Do? {
      CallSpares(w, s.call, id, sd, client);
      CallKeeps(w, s.call);
      var r := RunCall(w, s.call);
      if r.Done? { ScriptSpares(r.value, s.next, id, sd, client); }
    }
  }

  lemma ServeSpares(w: World, p: nat, side: Side, s: Script, id: nat, sd: int, client: Client)
    requires Inv(w) && w.frames[p] > 0 && Still(w.reg, id, sd, client) && SparesScript(s, sd, client)
    ensures Spared(Serve(w, p, side, s), id, sd, client)
  {
    hide Inv, Still, RunScript, Finish;
    if p in w.chans && w.chans[p].At(side).callback != 0 {
      CalledKeeps(w, p, side);
      var w1 := Note(w, Called(p, side, w.chans[p].At(side), w.chans[p].descriptor >= 0));
      ScriptSpares(w1, s, id, sd, client);
      var res := RunScript(w1, s);
      if res.Done? && p in res.value.w.chans {
        FinishStill(res.value.w, p, side, res.value.value, res.value.granted, id, sd, client);
      }
    }
  }

  lemma TransferSpares(w: World, p: nat, flags: Mask, r: Reaction, id: nat, sd: int, client: Client)
    requires Inv(w) && w.frames[p] > 0 && Still(w.reg, id, sd, client)
    requires r.OnChannel? && SparesReaction(r, sd, client)
    ensures Spared(Transfer(w, p, flags, r), id, sd, client)
  {
    hide Inv, Still, Serve;
    ServeSpares(w, p, Read, r.read, id, sd, client);
    ServeKeeps(w, p, Read, r.read);
    var s := if IN in flags then Serve(w, p, Read, r.read) else Done(w);
    if s.Done? { ServeSpares(s.value, p, Write, r.write, id, sd, client); }
  }

  lemma DispatchSpares(w: World, p: nat, flags: Mask, r: Reaction, id: nat, sd: int, client: Client)
    requires Inv(w) && w.frames[p] > 0 && p in w.chans && Still(w.reg, id, sd, client) && client != Channel(p)
    requires r.OnChannel? && SparesReaction(r, sd, client)
    ensures Spared(Dispatch(w, p, flags, r), id, sd, client)
  {
    hide Inv, Still, Transfer, Serve, LoopRemove, Mute;
    if flags * {RDHUP, HUP, ERR} != {} {
      MuteKeeps(w, p, Read);
      MuteFrame(w, p, Read);
      MuteKeeps(Mute(w, p, Read), p, Write);
      MuteFrame(Mute(w, p, Read), p, Write);
      var w1 := Mute(Mute(w, p, Read), p, Write);
      var d := w1.chans[p].descriptor;
      if w1.chans[p].disconnect.callback == 0 {
        HolderIs(w1, d, p);
        TableHere(w1);
        if LoopRemove(w1, d).Done? && d >= 0 { LoopRemoveStill(w1, d, id, sd, client); }
        LoopRemoveNegative(w1, d);
      } else {
        ServeSpares(w1, p, Disconnect, r.disconnect, id, sd, client);
        ServeKeeps(w1, p, Disconnect, r.disconnect);
        var s := Serve(w1, p, Disconnect, r.disconnect);
        if s.Done? { TransferSpares(s.value, p, flags, r, id, sd, client); }
      }
    } else {
      TransferSpares(w, p, flags, r, id, sd, client);
    }
  }

  lemma LoopRemoveNegative(w: World, d: int)
    ensures d < 0 ==> LoopRemove(w, d) == Done(w)
  {
  }

  /** Dispatching an event of the entry in slot j leaves the entries alone that its callbacks leave alone. */
  lemma EventSpares(was: World, j: nat, flags: Mask, r: Reaction, id: nat, sd: int, client: Client)
    requires Inv(was) && j < |was.reg| && was.pools[was.reg[j].id] > 0
    requires Still(was.reg, id, sd, client) && client != was.reg[j].client && SparesReaction(r, sd, client)
    ensures Spared(RunEvent(was, was.reg[j].id, was.reg[j].client, flags, r), id, sd, client)
  {
    hide Inv, Still, Dispatch, RunScript, Leave, Enter;
    ClientIsAllocated(was, j);
    var w := Drawn(was, was.reg[j].id);
    DrawKeeps(was, was.reg[j].id);
    match was.reg[j].client
    case Channel(p) =>
      if r.OnChannel? {
        EnterKeeps(w, p);
        EnterFrame(w, p);
        DispatchSpares(Enter(w, p), p, flags, r, id, sd, client);
        var d := Dispatch(Enter(w, p), p, flags, r);
        if d.Done? && p in d.value.chans { LeaveFrame(d.value, p); }
      }
    case Timer(t) =>
      TimerEntryHere(was, j, t);
      if r.OnTimer? && r.expired && w.timers[t].pending {
        FireKeeps(was, t);
        ScriptSpares(Firing(was, t), r.callback, id, sd, client);
      }
  }

  // ------------------------------------------------------------ a batch

  /** Every event of the batch names an entry of the table by address and descriptor. */
  ghost predicate AllStill(table: Registry, reg: Registry, b: Batch) {
    b.Ready? ==>
      && FindId(table, b.id) < |table|
      && Still(reg, b.id, table[FindId(table, b.id)].sd, table[FindId(table, b.id)].client)
      && AllStill(table, reg, b.more)
  }

  /** The reaction leaves the entries of the later events alone. */
  ghost predicate SparesLater(table: Registry, r: Reaction, b: Batch) {
    b.Ready? ==>
      var k := FindId(table, b.id);
      && (k < |table| ==> SparesReaction(r, table[k].sd, table[k].client))
      && SparesLater(table, r, b.more)
  }

  /** Each reaction leaves the entries of the events after its own alone and does not run the loop again. */
  ghost predicate Considerate(table: Registry, b: Batch) {
    b.Ready? ==> FlatReaction(b.reaction) && SparesLater(table, b.reaction, b.more) && Considerate(table, b.more)
  }

  /** The events of the batch name different clients. */
  ghost predicate OtherClients(table: Registry, c: Client, b: Batch) {
    b.Ready? ==>
      && (FindId(table, b.id) < |table| ==> table[FindId(table, b.id)].client != c)
      && OtherClients(table, c, b.more)
  }

  lemma {:induction false} EventSparesBatch(table: Registry, w: World, j: nat, flags: Mask, r: Reaction, b: Batch)
    requires Inv(w) && j < |w.reg| && w.pools[w.reg[j].id] > 0
    requires AllStill(table, w.reg, b) && SparesLater(table, r, b) && OtherClients(table, w.reg[j].client, b)
    requires RunEvent(w, w.reg[j].id, w.reg[j].client, flags, r).Done?
    ensures AllStill(table, RunEvent(w, w.reg[j].id, w.reg[j].client, flags, r).value.reg, b)
    decreases b
  {
    hide Inv, Still, RunEvent;
    if b.Ready? {
      var k := FindId(table, b.id);
      EventSpares(w, j, flags, r, b.id, table[k].sd, table[k].client);
      EventSparesBatch(table, w, j, flags, r, b.more);
    }
  }

  lemma {:induction false} ClientsDiffer(w: World, kernel: map<int, Interest>, k: nat, b: Batch)
    requires Inv(w) && k < |w.reg| && Deliverable(kernel, b) && !Names(b, w.reg[k].sd)
    requires forall fd :: fd in kernel ==> Find(w.reg, fd) < |w.reg| && w.reg[Find(w.reg, fd)].id == kernel[fd].id
    ensures OtherClients(w.reg, w.reg[k].client, b)
    decreases b
  {
    hide Inv;
    if b.Ready? {
      ClientsDiffer(w, kernel, k, b.more);
      var j := Find(w.reg, b.fd);
      TableHere(w);
      FindIs(w.reg, w.next, j);
      if w.reg[j].client == w.reg[k].client { OneEntryEach(w, j, k); }
    }
  }

  lemma OneEntryEach(w: World, j: nat, k: nat)
    requires Inv(w) && j < |w.reg| && k < |w.reg| && w.reg[j].client == w.reg[k].client
    ensures w.reg[j].sd == w.reg[k].sd
  {
    hide TableOk, MirrorOk, RefsOk, SilentOk, MasksOk, HandlersOk, EntryLogOk, ChanLogOk, TimerLogOk, LedgerOk, Lawful;
    assert EntryLinked(w.reg[j], w.chans, w.owned) && EntryLinked(w.reg[k], w.chans, w.owned);
    assert TimerLinked(w.reg[j], w.timers) && TimerLinked(w.reg[k], w.timers);
  }

  /** The clients of different events of a batch are different. */
  ghost predicate Separate(table: Registry, b: Batch) {
    b.Ready? ==>
      && (FindId(table, b.id) < |table| ==> OtherClients(table, table[FindId(table, b.id)].client, b.more))
      && Separate(table, b.more)
  }

  lemma {:induction false} RunBatchIsPlain(table: Registry, w: World, b: Batch)
    requires Inv(w) && AllStill(table, w.reg, b) && Considerate(table, b) && Separate(table, b) && Pooled(b, w.pools)
    ensures Plain(RunBatch(w, b))
    decreases b
  {
    hide Inv, RunEvent;
    if b.Ready? {
      var k := FindId(w.reg, b.id);
      DrawnFrom(b, w.pools);
      FlatEventIsPlain(w, b.id, w.reg[k].client, b.flags, b.reaction);
      EventKeeps(w, k, b.flags, b.reaction);
      var r := RunEvent(w, b.id, w.reg[k].client, b.flags, b.reaction);
      if r.Done? {
        EventSparesBatch(table, w, k, b.flags, b.reaction, b.more);
        RunBatchIsPlain(table, r.value, b.more);
      }
    }
  }

  lemma {:induction false} DeliverableIsSeparate(w: World, kernel: map<int, Interest>, b: Batch)
    requires Inv(w) && Deliverable(kernel, b)
    requires forall fd :: fd in kernel ==> Find(w.reg, fd) < |w.reg| && w.reg[Find(w.reg, fd)].id == kernel[fd].id
    ensures Separate(w.reg, b) && AllStill(w.reg, w.reg, b)
    decreases b
  {
    hide Inv;
    if b.Ready? {
      DeliverableIsSeparate(w, kernel, b.more);
      TableHere(w);
      var k := Find(w.reg, b.fd);
      FindIs(w.reg, w.next, k);
      ClientsDiffer(w, kernel, k, b.more);
    }
  }

  /**
   Every event of a delivered batch reaches an entry that is still registered, if no callback
   removes the descriptor of a later event, quits the loop before the last event or runs the loop
   again; a callback may remove its own descriptor.
   */
  lemma BatchReachesLiveEntries(w: World, b: Batch)
    requires Inv(w) && Deliverable(w.kernel, b) && Considerate(w.reg, b)
    ensures Plain(RunBatch(Fetch(w, b), b))
  {
    hide Inv, RunBatch, Disarm;
    forall fd | fd in w.kernel ensures Find(w.reg, fd) < |w.reg| && w.reg[Find(w.reg, fd)].id == w.kernel[fd].id {
      WatchedIffRegistered(w, fd);
    }
    DeliverableIsSeparate(w, w.kernel, b);
    FetchKeeps(w, b);
    FetchPooled(w, b);
    RunBatchIsPlain(w.reg, Fetch(w, b), b);
  }

  // ------------------------------------------------------------ when exactly an event is stale

  predicate FlatBatch(b: Batch) {
    b.Ready? ==> FlatReaction(b.reaction) && FlatBatch(b.more)
  }

  /**
   Processing a batch, with whatever loops its callbacks run again, runs into a freed entry if and only
   if an event is taken from a pool when the destructor of its entry has run.
   */
  lemma StaleIffDestructed(w: World, b: Batch)
    requires Inv(w) && Pooled(b, w.pools)
    ensures var r := RunBatch(w, b); r.Halt? && r.why.StaleEvent? <==> PicksDestructed(Seen(r))
  {
    hide Inv, RunBatch;
    BatchKeeps(w, b);
    StaleMeansDestructed(w, RunBatch(w, b), Remaining(b, w.pools));
  }

  /** If a callback quits the loop, every further event of the batch names a freed entry. */
  lemma QuitStrandsTheRest(w: World, b: Batch)
    requires Inv(w) && b.Ready? && b.more.Ready? && Pooled(b, w.pools) && FindId(w.reg, b.id) < |w.reg|
    requires var r := RunEvent(w, b.id, w.reg[FindId(w.reg, b.id)].client, b.flags, b.reaction);
             r.Done? && r.value.terminate
    ensures RunBatch(w, b).Stops(StaleEvent(b.more.id))
  {
    hide Inv, RunEvent;
    DrawnFrom(b, w.pools);
    EventKeeps(w, FindId(w.reg, b.id), b.flags, b.reaction);
    NothingAfterQuit(RunEvent(w, b.id, w.reg[FindId(w.reg, b.id)].client, b.flags, b.reaction).value);
  }

  lemma NothingAfterQuit(w: World)
    requires Inv(w) && w.terminate
    ensures w.reg == [] && w.kernel == map[]
  {
    hide TableOk, LinksOk, RefsOk, SilentOk, MasksOk, TimersOk, HandlersOk, EntryLogOk, ChanLogOk, TimerLogOk,
         LedgerOk, Lawful;
    MirrorWhenEmpty(w.reg, w.kernel, w.epollOpen);
  }
}

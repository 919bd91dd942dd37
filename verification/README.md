# Beaconizer: event loop, I/O channels, timers, UUID names and buffers

A Dafny model of the core of beaconizer's common library and of the UUID option of its `ibeacon`
program, with proofs about it.

## What is modelled

**The event loop and its clients** (`src/common/loop.c`, `io.c`, `timer.c`). The modules `World` and
`Lifecycle` are an executable machine for whole programs. A program is a tree (`Script`): client code
makes library calls, and every callback the library makes is answered by a further script, so callbacks
may replace handlers, destroy their own or other channels, create and drop timers, quit the loop or run
it again. `World` holds the entry table, what epoll keeps for each descriptor (mask, user data, one-shot
arming), the `io_t` and `timer_entry_t` records, the events fetched into the event pools and not yet
processed, and a trace of events (`Events`): entries added, deregistered and destructed; events taken
from a pool; channels opened, released, closed and freed; dispatches entered and left; handlers
installed, called, answered and destroyed; timers made, set, watched for, fired, closed and freed.
`Invariant.Inv` is what every reachable state satisfies; `Steps*` and `Runs` prove that each operation and
each piece of a run keeps it
(`StepsLedger` has the part about closing, freeing, arming and firing, `Frames` what single steps leave
alone, `Pools` how much epoll can deliver at once). `Theorems`, `ChannelTheorems`,
`TimerTheorems`, `Batches` (one pass over the event pool), `Loops` (a whole call of `loop_run`),
`Dispatches` (which callbacks an event calls), `Deliveries` (what was asked for is delivered), `Calls` (what
each library call does) and `Witnesses` draw the conclusions, `Growth` has that the trace only grows, and
`Programs` has small concrete programs.

The same operations are written as programs that assign to fields. `Process.Process` is io.c, timer.c and
the dispatching loop: each method keeps the invariant and states its effect on the fields
(`ProcessSteps`), and does what the function of `World` or `Lifecycle` for that step does, so that the
theorems hold of it. `Registry.Loop` is loop.c with its growing array of heap entries. `RegistryRefines`
proves that the array and the table of the machine stay the same thing (entry addresses, callbacks and
user data included) through adding, modifying, removing and quitting.

**UUID text and names** (`src/common/db.c`, `src/ibeacon/ibeacon.c`): `HexText`, `BeaconUuid`,
`Numerals`, `Names`. **Buffers** (`src/common/utility.c`): `Codec`, `HexDump`, `UidPool`, `Delimit`.
**Appearance lookup**: `Appearance`.

## How a run can stop

A run ends in a state, or stops with a reason (`World.Why`) in the state before the step that it cannot
take. The code has no such stops; they mark where it goes on with undefined behaviour, or where the
program or the kernel does what they cannot do. What is proved "wherever a run ends or stops" holds of
that state too, so it says of every program what holds up to the first such step.

- `Misuse`: the program uses a channel it does not hold or a timer call on a channel's descriptor.
- `Impossible`: epoll would not deliver these events.
- `Orphan`: epoll refused a descriptor but the caller got a channel or timer (see below).
- `CorruptTable`: the shift in `loop_remove_sd` would leave the table wrong (see below).
- `StaleEvent`: a delivered event names an entry that has been freed.
- `PoolOverrun`: more events than the pool that `loop_run` sized at its start.
- `UseAfterFree`: the library itself would touch a freed channel or timer. `EveryRunIsSound` proves this
  never happens, and what holds of the state where one of the others does.

## Where the code departs from its evident intent

The model follows the code; each departure has a lemma saying exactly when the code is right.

- `src/common/loop.c:237`: the shift stops one slot early. `gap` is 2 as the code is written and 1 for a
  shift that moves every later slot. The removal is right if and only if the last slot is removed
  (`ShiftAsWrittenDeletesIffLast`, `RemovalSpoilsTableIff`, `Registry.Loop.RemoveSd`); all theorems hold
  for both values, and with gap 1 no run stops with `CorruptTable`.
- `src/common/loop.c:158`: a refused descriptor is answered with a positive errno, which
  `src/common/io.c:180` and `src/common/timer.c:138` take for success. A channel is registered if and
  only if epoll took the descriptor (`RegisteredIffTaken`), and so is a timer (`TimerRegisteredIffTaken`);
  `OrphanClosesAnother` shows the consequence. The model answers every refusal with EEXIST; only the sign
  matters.
- `src/common/timer.c:122-125`: where `timerfd_create` fails, `create_timer` returns the errno with its positive
  sign too, so that the caller takes it for a descriptor (`TimerRegisteredIffTaken`), perhaps that of another
  client (`FailedTimerChangesAnother`). The model answers EMFILE.
- `src/common/io.c:114-157`: a callback that destroys its channel and then answers 0 has its destroyer
  called twice (`GivingUpADestroyedChannel`). Every handler is destroyed once if and only if no such
  answer is given (`PaidOnceIffNoStaleReturn`); `OneHandlerDestroyedTwice` is a program that gives one.
- `src/common/io.c:130-146`: after a quit inside a read callback the write callback still runs, on a closed
  channel (`QuitInReadCallbackRunsWriteCallback`). A callback finds its channel closed if and only if the
  loop has been quit before (`ChannelsEndCleanly`).
- `src/common/loop.c:262-277`: the pool is sized once and a batch is not revised when entries go. A call of
  `loop_run` is right if the table stays within the pool (`TableWithinPoolFits`) and the callbacks leave the
  entries of later events alone (`LoopReachesLiveEntries`). Epoll can overrun the pool in the next pass if
  and only if more descriptors are armed than it has places (`PassCanOverrunIff`), and a run, a call or a batch
  meets a freed entry if and only if an event is taken when the destructor of its entry has run
  (`RunIsStaleIff`, `LoopIsStaleIff`, `StaleIffDestructed`). `OutgrowingThePoolOverrunsIt` and
  `QuittingEarlyLeavesAStaleEvent` are programs for which it goes wrong.
- `src/common/utility.c:169`: `put_be24` stores the high byte where the next line overwrites it
  (`GetAfterPutBe24Iff`).
- `src/common/utility.c:370`: `strdelimit` does not end when it meets its own replacement (`EndsIff`).

## Model

| member | source | states |
|---|---|---|
| Theorems.EveryRunIsSound | src/common/io.c:47-360 | every program run from `loop_init` ends with channels, registry and kernel in agreement, no dispatch open and every fetched event processed, or stops in a state in which they agree for a reason outside the library: the library never touches a freed record, never spoils the table if the shift moves every slot, meets a stale event only if its entry's destructor has run, and overruns a pool only if more descriptors are armed than it has places |
| Theorems.PaidOnceIffNoStaleReturn | src/common/io.c:114-160 | wherever a run ends or stops, each installed destroyer is owed on an open channel or was called exactly once, if and only if no callback whose channel was closed under it answered 0 |
| Theorems.ChannelsEndCleanly | src/common/io.c:347-360 | wherever a run ends or stops, no callback of a channel has run after `io_destroy`; its record was freed at most once, never under a running dispatch and not used afterwards; a callback found its channel closed if and only if the loop had been quit before |
| Theorems.NothingLeaks | src/common/io.c:59-69 | wherever a run ends or stops, a record exists exactly if its owner or a dispatch refers to it, and counts them; a destroyed channel owes nothing and was freed exactly once unless it is being dispatched; nothing is being dispatched when a run has ended |
| Theorems.ChannelsCloseOnce | src/common/io.c:72-90 | wherever a run ends or stops, `io_destroy_callback` has run once for each channel that is no longer open and not for an open one; it closed the descriptor the channel was made for, once, exactly if asked to, and no other |
| Theorems.DestructorsRunOnce | src/common/loop.c:244-252 | wherever a run ends or stops, an entry's destructor has run exactly once if it was registered and has left the table, never otherwise, and always after the kernel let go |
| Theorems.RunIsStaleIff | src/common/loop.c:275-278 | any program, however its callbacks nest loops, runs into a freed entry if and only if an event is taken from a pool when the destructor of its entry has run |
| Theorems.QuitFinishesEverything | src/common/loop.c:285-333 | `loop_quit` succeeds in every right state, destructs every remaining entry, closes every channel, frees every timer, and a second one changes nothing |
| ChannelTheorems.MasksAgree | src/common/io.c:225-240 | wherever a run in which epoll granted each change ends or stops, an open channel's mask, its entry's mask and the kernel's mask are equal and cover every callback |
| ChannelTheorems.SetHandlerMeaning | src/common/io.c:211-313 | in every right state, earlier refusals or not, a setter on an open channel destroys the old handler once and installs the new one whatever it returns; it returns 1 exactly if no change was needed or epoll granted it, and then the flag of that side is in the mask exactly if there is a callback and every other flag exactly if it was, else the mask stays; table and kernel follow where the mask changes; if nothing was refused before, the mask covers the callbacks exactly if no new bit was refused; on a closed channel nothing happens |
| ChannelTheorems.GivingUpMeaning | src/common/io.c:131-142 | after an answer of 0 on an open channel, earlier refusals or not, the slot is empty, exactly its flag gone and the channel still registered; if nothing was refused before, the entry's mask agrees exactly if epoll granted the change or none was needed |
| ChannelTheorems.DestroyIsPrivate | src/common/io.c:347-360 | `io_destroy` touches no other channel and no timer; an open channel loses exactly its own entry, a closed one removes nothing even if its old number is in use again |
| ChannelTheorems.RegisteredIffTaken | src/common/io.c:166-186 | `io_new` hands out a channel for every answer of epoll_ctl, and it is registered under its descriptor if and only if epoll took it |
| ChannelTheorems.OrphanClosesAnother | src/common/loop.c:156-159 | a second channel on an open channel's descriptor is handed out; destroying it completes with the shift that moves every slot, and as written if the first channel's entry is the last, and closes the first channel |
| TimerTheorems.TimersEndOnce | src/common/timer.c:60-76 | wherever a run ends or stops, a timer is in use exactly if it is registered; once it is over its record was freed once, its descriptor and no other was closed once, and its destructor was called once on its data if it has one and the timer had been registered; nothing of this happened to a timer in use |
| TimerTheorems.TimersFireOncePerArming | src/common/timer.c:34-57 | wherever a run ends or stops, a timer has fired at most as often as the one-shot watch was set by its registration and by the modifications epoll granted, less often while it is armed or its event waits in a pool; also at most as often as its time was set; no firing came too early or after it was freed |
| TimerTheorems.ModifyTimerMeaning | src/common/timer.c:148-163 | `modify_timer` returns 0 exactly if epoll grants the change, and exactly then the timer is watched for once more |
| TimerTheorems.TimerRegisteredIffTaken | src/common/timer.c:94-145 | `create_timer` fails exactly if the loop is out of memory; what it returns otherwise is the descriptor of a registered timer if and only if timerfd_create made one and epoll took it, and then epoll watches it for input, once |
| TimerTheorems.FailedTimerChangesAnother | src/common/timer.c:122-125 | where timerfd_create fails and the errno is the number of an open channel's descriptor, setting that "timer" again changes the channel's mask in table and kernel, and the channel does not know |
| Dispatches.WriteIsMet | src/common/io.c:145-160 | with EPOLLOUT an event does what it does without, and then calls the write callback that is installed when that is done, or nothing more if there is none; whatever the other callbacks do |
| Dispatches.ReadIsMet | src/common/io.c:129-143 | the same for EPOLLIN and the read callback, before the write part |
| Dispatches.DisconnectIsMet | src/common/io.c:103-127 | without those an event does nothing unless it is a hang-up (EPOLLRDHUP, EPOLLHUP or EPOLLERR); then the read and write callbacks are cleared and the disconnect callback is called, or the channel is closed without any callback |
| Dispatches.EventCallsFirst | src/common/io.c:93-163 | processing a channel's event takes it from the pool, takes a reference, and then calls first: the disconnect callback on a hang-up, else the read callback on input, else the write callback; without any of these nothing but a hang-up changes anything |
| Dispatches.EventDoesExactly | src/common/io.c:93-163 | if the callbacks only answer, everything that happens in an event in order, and the whole state after it |
| Deliveries.CallbackIsWatched | src/common/io.c:211-313 | unless epoll has refused a change, it can deliver an event for every callback of an open channel |
| Deliveries.CallbackIsReached | src/common/io.c:93-163 | in the pass that delivers it, that callback is called before any other |
| Deliveries.NewTimerIsWatched | src/common/timer.c:121-144 | after `create_timer` the end of the time can be delivered if epoll took the descriptor |
| Deliveries.SetTimerIsWatched | src/common/timer.c:148-163 | so it can after `modify_timer` if epoll grants it |
| Deliveries.TimerFires | src/common/timer.c:34-57 | in the pass that delivers the end of its time a running timer fires; if the callback makes no calls it fires once, and nothing else changes but that the timer is neither running nor watched for |
| ProcessSteps.TimerRuns | src/common/timer.c:40-56 | an error, a hang-up or an event before the time is up only takes the event from the pool; otherwise the callback runs on the state in which the timer has fired |
| Calls.DropTimerEnds | src/common/timer.c:165-169 | `destroy_timer` on a timer in use completes unless the shift spoils the table; then exactly its entry has left table and kernel, its descriptor was closed, its destructor called if it has one and its record freed, once each and in this order, and nothing else has changed |
| Calls.TimerDropsItself | src/common/timer.c:165-169 | the same from inside the timer's own callback |
| Calls.CallDoes | src/common/io.c:166-360 | every library call that completes has done to the whole state what it is for: opening, setting handlers, closing on destroy, destroying, timers, quitting |
| Calls.CallCompletesIff | src/common/io.c:166-360 | a call other than running the loop completes if and only if the program holds what it uses, epoll takes what it is given and the shift does not spoil the table |
| Calls.CallbackIsFollowedUp | src/common/io.c:113-158 | what a callback answers decides what follows on the state its own calls have left: only 0 gives the handler up, takes its flag and no other out of the mask, and out of table and kernel if epoll grants it |
| Pools.PoolSufficesIff | src/common/loop.c:262-268 | every batch epoll can deliver fits a pool if and only if no more descriptors are armed than it has places |
| Batches.BatchReachesLiveEntries | src/common/loop.c:275-278 | no event of a batch names a freed entry if no callback removes a later event's descriptor, quits early or runs the loop again; removing one's own descriptor is fine |
| Batches.StaleIffDestructed | src/common/loop.c:275-278 | processing a batch, with whatever loops its callbacks run again, meets a freed entry if and only if an event is taken from a pool when the destructor of its entry has run |
| Batches.QuitStrandsTheRest | src/common/loop.c:275-278 | when the callbacks of an event quit the loop and another event follows in the batch, that event names a freed entry |
| Pools.FullBatchIsDeliverable | src/common/loop.c:268 | epoll can deliver an event on every armed descriptor at once |
| Batches.EventSpares | src/common/io.c:93-163 | dispatching an event leaves every entry in place that its callbacks leave alone |
| Loops.PoolIsLargeEnough | src/common/loop.c:258-282 | a call of `loop_run`, its pool sized as it starts, never overruns it if its callbacks ask for no more registrations than the table then has room for; loops that callbacks run again do not overrun theirs either |
| Loops.FirstPassFits | src/common/loop.c:262-268 | in every right state whatever epoll delivers in the first pass fits the pool `loop_run` sizes as it starts; after a quit it returns at once and changes nothing |
| Loops.TableWithinPoolFits | src/common/loop.c:258-282 | a call whose callbacks do not run the loop again never overruns its pool if the table is within the pool in every pass it reaches, however much is registered and removed again |
| Loops.LoopReachesLiveEntries | src/common/loop.c:258-282 | if moreover no callback removes the descriptor of a later event of its pass, quits before the last event or runs the loop again, the whole call meets no freed entry and overruns nothing |
| Loops.LoopIsStaleIff | src/common/loop.c:258-282 | a call, with whatever loops its callbacks run again, meets a freed entry if and only if an event is taken from a pool when the destructor of its entry has run |
| Loops.PassCanOverrunIff | src/common/loop.c:262-268 | after any passes that have gone well epoll can overrun the pool in the next one if and only if more descriptors are armed than it has places |
| Loops.LoopTakesAll | src/common/loop.c:258-282 | a call that ends has taken from the pool all events of its passes, in order and no others; of every pass, unless a callback has quit the loop |
| Witnesses.RemovalSpoilsTableIff | src/common/loop.c:236-241 | in every state removing a descriptor spoils the table exactly if the shift is the written one and the entry is not the last |
| Witnesses.DestroySpoilsTableIff | src/common/io.c:353-359 | `io_destroy` of an open channel spoils the table in exactly those cases and otherwise completes |
| Programs.DestroyingTheFirstOfTwo | src/common/loop.c:237 | a concrete program: opening two channels and destroying the first spoils the table as the code is written, and completes with the shift that moves every slot |
| Programs.OneHandlerDestroyedTwice | src/common/io.c:131-137 | a concrete program with one channel and one event in whose run the one installed handler is destroyed twice |
| Programs.QuittingEarlyLeavesAStaleEvent | src/common/loop.c:275-278 | a concrete program: of two events in a batch the first callback quits, and the second event names a freed entry |
| Programs.OutgrowingThePoolOverrunsIt | src/common/loop.c:262-268 | a concrete program: a callback opens four channels, and the next pass delivers five events to a pool of four |
| Witnesses.GivingUpADestroyedChannel | src/common/io.c:131-137 | in every state a callback that destroys its channel and answers 0 has its destroyer called exactly twice |
| Witnesses.QuitInReadCallbackRunsWriteCallback | src/common/io.c:130-147 | in every state a quit in the read callback is followed by the write callback on the closed channel |
| Witnesses.IoDestroyCounts | src/common/io.c:77-89 | `io_destroy` calls each destroyer once and leaves it stored in the closed record |
| Witnesses.IoDestroyCloses | src/common/io.c:84-86 | `io_destroy` of an open channel closes its descriptor once if it was asked to, and no other |
| Steps.InitOk | src/common/loop.c:64-90 | the state `loop_init` leaves satisfies the invariant |
| Steps.EnterKeeps | src/common/io.c:100 | taking the reference of a dispatch keeps the invariant |
| Steps.LeaveKeeps | src/common/io.c:162 | dropping it keeps the invariant and the record was still allocated |
| Steps.UnrefKeeps | src/common/io.c:59-69 | giving back either kind of reference restores the count's meaning and frees the record only at the last one |
| Steps.ReleaseKeeps | src/common/io.c:357-360 | giving back the owner's reference of a silent channel keeps the invariant |
| StepsChannel.SetHandlerKeeps | src/common/io.c:211-313 | setting any handler, granted or refused, keeps the invariant |
| StepsChannel.FinishKeeps | src/common/io.c:114-158 | following up any answer of a callback, whatever the callback did, keeps the invariant |
| StepsRetire.RetireChannelKeeps | src/common/io.c:72-90 | deregistering and destructing a channel's entry closes that channel, calls its destroyers once and changes nothing else |
| StepsRetire.RetireTimerKeeps | src/common/timer.c:60-76 | deregistering and destructing a timer's entry frees that record and keeps the invariant |
| StepsRetire.LoopRemoveKeeps | src/common/loop.c:210-255 | removing a descriptor stops only over a spoiled table, otherwise keeps the invariant and closes the channel that had it |
| StepsRetire.RetireAllKeeps | src/common/loop.c:296-310 | the cleanup loop reaches the end from every stopped state with an empty table |
| StepsRetire.LoopQuitKeeps | src/common/loop.c:285-333 | quitting keeps the invariant and frees no channel record |
| StepsAdd.IoNewKeeps | src/common/io.c:166-186 | opening a channel keeps the invariant unless epoll refused and the channel was handed out all the same |
| StepsAdd.CreateTimerKeeps | src/common/timer.c:94-145 | creating a timer keeps the invariant under the same exception |
| StepsAdd.ModifyTimerKeeps | src/common/timer.c:148-163 | setting a timer again, granted or refused, keeps the invariant |
| Runs.IoDestroyKeeps | src/common/io.c:347-360 | `io_destroy` from anywhere keeps the invariant and the open dispatches |
| Runs.CallKeeps | src/common/io.c:166-360 | every library call keeps the invariant or stops for an allowed reason |
| Runs.ScriptKeeps | src/common/io.c:93-163 | so does every sequence of calls, with callbacks nested to any depth |
| Runs.ServeKeeps | src/common/io.c:129-143 | so does one callback with everything it does and what follows |
| Runs.DispatchKeeps | src/common/io.c:103-160 | so does a whole dispatch, and its record is still allocated when it ends |
| Runs.EventKeeps | src/common/loop.c:276-277 | so does the processing of any event of a live entry |
| Runs.BatchKeeps | src/common/loop.c:275-278 | so does a batch of events |
| Runs.TurnsKeep | src/common/loop.c:258-282 | so does `loop_run`, also when called from a callback |
| LoopTable.Find | src/common/loop.c:183-188 | the first slot that holds the descriptor, or none does |
| LoopTable.ShiftByOneDeletes | src/common/loop.c:236-241 | with the bound `top > i + 1` the shift deletes exactly the slot and keeps the order |
| LoopTable.ShiftAsWrittenDeletesIffLast | src/common/loop.c:237 | with the bound as written it does so if and only if the slot is the last |
| LoopTable.RemoveThenQuitAsWritten | src/common/loop.c:237-241 | as written, a removal and a quit run the last but one destructor once too often and the last never, unless the last slot was removed |
| LoopTable.RemoveThenQuitIsExactIffLast | src/common/loop.c:237-241 | each destructor runs once over a removal and a quit if and only if the last slot was removed |
| Registry.Loop.constructor | src/common/loop.c:64-90 | an empty table of four slots that mirrors an empty kernel |
| Registry.Loop.Grow | src/common/loop.c:116-136 | growth keeps contents and order and leaves two slots to spare |
| Registry.Loop.AddSd | src/common/loop.c:93-165 | adds exactly one entry at the top and in the kernel, or changes neither; code and new size for every answer of malloc and epoll |
| Registry.Loop.IndexOf | src/common/loop.c:222-229 | finds the slot of a descriptor; if there is none the kernel does not watch it |
| Registry.Loop.ModifySd | src/common/loop.c:168-207 | changes the mask of exactly one entry and of its kernel watch, or nothing; the code for each case |
| Registry.Loop.ShiftDown | src/common/loop.c:236-241 | the shift loop in place |
| Registry.Loop.RemoveSd | src/common/loop.c:210-255 | deregisters and frees exactly the entry; the table mirrors the kernel again if and only if every later slot was moved |
| Registry.Loop.Cleanup | src/common/loop.c:285-327 | frees every entry once in table order, empties table and kernel |
| RegistryRefines.AddRefines | src/common/loop.c:93-165 | the array of heap entries and the machine's table answer alike and stay the same, addresses, callbacks and user data included; an entry that is taken gets one new address |
| RegistryRefines.ModifyRefines | src/common/loop.c:168-207 | the same for changing a mask: no entry moves and no other field changes |
| RegistryRefines.RemoveRefines | src/common/loop.c:210-255 | the same for removing, with the same code; the array is spoiled exactly where the machine stops with a spoiled table |
| RegistryRefines.QuitRefines | src/common/loop.c:285-327 | the same for quitting |
| RegistryRefines.FindAgrees | src/common/loop.c:222-229 | both searches find the same slot |
| Process.Process.Quit | src/common/loop.c:285-333 | the cleanup loop runs the destructors of all entries in table order, closes every channel, disposes of every timer, empties table and kernel and changes nothing else; any right state stays right |
| Process.Process.LoopRun | src/common/loop.c:258-282 | the outer loop, with the pool sized once: a right state stays right, every fetched event is processed, the dispatches in progress are as before; it does what the recursive step of the machine does |
| Process.Process.Perform | src/common/io.c:166-360 | every library call that completes has its effect (`CallDoes`), keeps the state right and leaves the dispatches in progress and the fetched events as they were |
| Process.Process.ProcessEvents | src/common/loop.c:275-278 | the inner loop takes exactly the events of the batch from the pool, keeps the state right and stops only for a reason outside the library; it does what the recursive step of the machine does |
| Process.Process.IoDestroyCallback | src/common/io.c:72-90 | the write, the read and the disconnect destroyer are called on their data in this order and once each, the descriptor is closed once if that was asked for, and the record then says -1; no other record and nothing else changes |
| Process.Process.IoUnref | src/common/io.c:59-69 | the record is still there exactly if the owner or a dispatch refers to it, and counts them; otherwise it was freed once; no other record changes, and the state is right again |
| Process.Process.NewIo | src/common/io.c:166-186 | without memory in the loop nothing is left behind; otherwise the caller gets a fresh channel with one reference, no handlers and an empty mask, registered exactly if epoll took the descriptor |
| Process.Process.IoSetHandler | src/common/io.c:211-313 | on an open channel the old handler is destroyed and then the new one stored, once each; the other handlers, the references and all other channels stay; the code says whether the mask was granted or needed no change, and the mask has the flag exactly if there is a callback and the other flags as before; a closed channel stays as it is |
| Process.Process.DestroyIo | src/common/io.c:347-360 | the owner's reference is gone; the record stays exactly if a dispatch refers to it, closed and without callbacks; exactly its own entry has left table and kernel and it was closed, in the order the code has, or none of this if it was closed before; no other channel and no timer changes |
| Process.Process.IoServe | src/common/io.c:129-143 | the callback is called if there is one and otherwise nothing happens; whatever it does, the channel's record is still there when it returns, the dispatches in progress and the fetched events are as before, and the state is right |
| Process.Process.IoProcessEvent | src/common/io.c:93-163 | a dispatch takes its event from the pool, calls first what `EventCallsFirst` says and does exactly what `EventDoesExactly` says if its callbacks only answer, leaves the other dispatches as they were and never finds its record freed; after a hang-up without a callback the channel is closed and its entry gone |
| Process.Process.DestructTimer | src/common/timer.c:60-76 | the descriptor is closed, the destructor called on the data if there is one, and the record freed, once each and in this order; no other timer and nothing else changes |
| Process.Process.NewTimer | src/common/timer.c:120-145 | without a descriptor nothing happens and the code is positive; without memory in the loop nothing is left behind and -EIO is returned; otherwise a fresh pending timer is in use, registered for input and one shot exactly if epoll took the descriptor |
| Process.Process.ChangeTimer | src/common/timer.c:148-163 | returns 0 exactly if epoll grants the change, and then the entry and its watch ask for input once more; only this timer changes, and becomes pending if a time is given |
| Process.Process.TimerCallback | src/common/timer.c:34-57 | an event with an error, a hang-up or no expired time is taken from the pool and changes nothing else; otherwise the timer fires and, whatever the callback does, the dispatches in progress and the other fetched events are as before, and the state is right |
| Process.Process.RunProgram | src/common/loop.c:258-282 | a whole program run on the fields completes exactly if the machine's run does, with no dispatch open and no event left; whether it ends or stops, unless over an orphan, the fields are right, and every handler was destroyed once exactly if no stale 0 was answered |
| Codec.GetIsPositional | src/common/utility.c:105-145 | on either host order each reader gives the positional sum of its bytes |
| Codec.Get24IsPositional | src/common/utility.c:115-125 | the same for the three-byte readers |
| Codec.PutIsPositional | src/common/utility.c:147-195 | on either host order each writer stores the value's low bytes in the order of its name |
| Codec.GetAfterPut | src/common/utility.c:105-195 | reading what was written gives the value modulo 2^N, even across hosts |
| Codec.GetAfterPutBe24Iff | src/common/utility.c:166-171 | `get_be24` reads back what `put_be24` wrote if and only if the first byte already held the high byte; the little-endian pair always does |
| Codec.ValueOfBytes | src/common/utility.c:28-56 | the low n bytes of a value have that value modulo 256^n |
| Codec.BytesOfValue | src/common/utility.c:28-56 | the bytes of the value of n bytes are those bytes |
| Codec.WriteLe | src/common/utility.c:147-189 | the 16, 32 and 64-bit writers store the value's low bytes, lowest first, leave their neighbours alone, and are read back on either host |
| Codec.WriteBe | src/common/utility.c:153-195 | the same with the highest byte first |
| Codec.PutLe24 | src/common/utility.c:159-164 | writes three bytes and leaves its neighbours alone |
| Codec.PutBe24 | src/common/utility.c:166-171 | writes the two lower bytes and leaves everything else alone, the first byte too |
| HexText.HexOfLeValue | src/common/db.c:1014-1017 | formatting a little-endian integer gives its bytes' digits from last to first |
| HexText.FormattedIsReversed | src/common/db.c:1014-1017 | `uuid2str128` formats the RFC 4122 text of the bytes in the opposite order, on either host |
| HexText.PrintedAt | src/ibeacon/ibeacon.c:96-103 | every character `main` prints of a UUID: the hyphens in their places and two upper-case digits for each byte |
| HexText.NumberOfHexDigits | src/common/db.c:1060 | the digits of a value read as the value |
| BeaconUuid.ParseUuid | src/ibeacon/ibeacon.c:390-424 | fills in the digits of the text in place: two make a byte, a last odd one a byte of its own, the bytes it does not reach stay; refuses wrong characters |
| BeaconUuid.RefusedIff | src/ibeacon/ibeacon.c:420-423 | a text is refused if and only if a wrong character comes before the last digit needed |
| BeaconUuid.ScanOfCanonical | src/ibeacon/ibeacon.c:391-419 | separators and letter case make no difference anywhere |
| BeaconUuid.ParserInvertsPrinter | src/ibeacon/ibeacon.c:96-103 | for every UUID the parser gives back what `main` prints, also with other separators and letter case |
| BeaconUuid.ParserReadsColons | src/ibeacon/ibeacon.c:418-421 | so does the form with colons, in either letter case |
| BeaconUuid.ParserReversesFormatted | src/common/db.c:1014-1017 | of the text `uuid2str128` formats the parser makes the reverse of its bytes |
| BeaconUuid.FormattedIsInjective | src/common/db.c:1014-1017 | different UUIDs have different texts |
| Numerals.StrToLOfDecimal | src/common/db.c:1039-1041 | a decimal numeral is read as its value, or the largest there is, with nothing left |
| Numerals.StrToLOfHex | src/common/db.c:1039-1041 | so is a hexadecimal numeral in any letter case |
| Numerals.StrToLOfSigned | src/common/db.c:1039-1041 | blanks and a sign in front, and whatever follows the digits is left |
| Numerals.StrToLOfOctal | src/common/db.c:1039-1041 | a 0 in front announces octal digits |
| Names.Uuid2Str16 | src/common/db.c:985-996 | the name in the first row for the UUID, and the default if there is no such row |
| Names.DetectVendor | src/common/db.c:1023-1064 | the name in the first row equal but for letter case; otherwise by numeral or by the Base UUID |
| Names.NameOfBaseText | src/common/db.c:1057-1063 | a Base UUID text in any letter case has the name in the first row for its value, and the default if there is none or the value has more than 16 bits |
| Names.AllFormsHaveOneName | src/common/db.c:1009-1064 | for every 32-bit value the raw Base UUID (section 2.5.1 of the Core Specification, Vol 3 Part B), its text in any letter case, its decimal numeral and its hexadecimal numerals of any width have one name: that of the first row for the value, and the default if there is none or the value has more than 16 bits |
| Names.EveryUuidHasName | src/common/db.c:1009-1020 | `uuid2str128` is never null: the name of the first row whose text it is, for a Base UUID what the table of short UUIDs makes of its value, and the vendor's otherwise |
| Names.Name32IsNamed | src/common/db.c:999-1006 | the name in the first row for a UUID of 16 bits and the default if there is none; the default for every larger one |
| Names.NoName | src/common/db.c:1039-1055 | null for a numeral with anything left behind it, for a short text that is none, and for a text longer than a UUID |
| Names.NegativeNumeral | src/common/db.c:1039-1046 | a negative numeral wraps around to a 32-bit value |
| HexDump.HexDump | src/common/utility.c:265-310 | the reused buffer yields exactly the lines of the buffer, none stale, and nothing without a function or bytes |
| HexDump.Dump | src/common/utility.c:281-309 | a line for every sixteen bytes begun, each of 67 characters |
| HexDump.DumpReadsBack | src/common/utility.c:282-284 | decoding the hexadecimal columns gives the buffer back, for every length |
| HexDump.LineLayout | src/common/utility.c:281-309 | every place of every line: the direction on the first, a blank and two digits for each byte, two blanks, and each byte or a dot; blanks where a short last line has no bytes |
| UidPool.GetIsLeastFree | src/common/utility.c:328-342 | the least free id up to the limit, marked; 0 exactly if all are out |
| UidPool.ClearTakesBack | src/common/utility.c:345-353 | exactly the id is free again; ids out of range change nothing |
| UidPool.HistoryIsExact | src/common/utility.c:327-353 | after any sequence of calls the set bits are the ids handed out and not taken back |
| UidPool.Bitmap.GetId | src/common/utility.c:328-342 | hands out the least id up to the limit that is not out, and 0 exactly if all are out; exactly that id is out afterwards |
| UidPool.Bitmap.ClearId | src/common/utility.c:345-353 | exactly the id is no longer out; an id that was not out, or does not exist, changes nothing |
| Delimit.AllReplacedAt | src/common/utility.c:367-374 | exactly the delimiters are replaced and the length stays, also if the replacement is a delimiter itself |
| Delimit.AllReplacedCuts | src/common/utility.c:370-371 | with the terminator as replacement the string ends before its first delimiter |
| Delimit.InnerLoopEndsIff | src/common/utility.c:370-371 | the loop for one delimiter ends if and only if the replacement differs from it or it does not occur |
| Delimit.EndsIff | src/common/utility.c:367-374 | the call ends if and only if no delimiter up to the replacement's last place among them occurs in the string |
| Delimit.ReplaceOne | src/common/utility.c:368-371 | the inner loop in place, with the remaining places as its measure |
| Delimit.StrDelimit | src/common/utility.c:356-377 | whenever it ends, a fresh copy with all delimiters replaced |
| Appearance.DetectDevice | src/common/db.c:1129-1152 | on an ascending table the exact row or else the greatest generic row not above the input |
| Appearance.ScanFindsBest | src/common/db.c:1136-1146 | breaking off early never misses a row |
| Appearance.BestRowIsUnique | src/common/db.c:1066-1126 | there is only one such row |

## Left out

- Batches.BatchReachesLiveEntries: its condition on the callbacks is sufficient, not necessary, because a callback may ask for the removal of a later descriptor that is already gone; the exact condition, on what has happened when an event is taken, is `Batches.StaleIffDestructed`.
- Loops.PoolIsLargeEnough: its condition counts registrations that are refused or removed again too; it is there for callbacks that run the loop again, and `Loops.TableWithinPoolFits` needs only that the table stays within the pool.
- Loops.LoopReachesLiveEntries: like `Loops.TableWithinPoolFits` it does not cover callbacks that run the loop again, whose inner calls have pools of their own; `Theorems.EveryRunIsSound` and `Theorems.RunIsStaleIff` do.
- Calls back into the library from destroyers and timer destructors (also during cleanup): they are taken to return without calling it; only callbacks run client code.
- The identity of `io_t` and timer records as heap objects: they are values of maps keyed by address, and addresses are never used twice, so aliasing between records is not captured.
- Real system calls, descriptors closed by the program behind the loop's back, and EINTR: epoll is a map from descriptor to mask, and its answers are parameters.
- Time values: a timer is pending or not, and timerfd_settime succeeds; `timer.c:90` passes a clock id where flags are expected.
- Failing malloc for `io_t`, timers, event pool and `strdup`, and failing `loop_init`; failing malloc in `loop_add_sd` is modelled.
- The atomic builtins of `io_ref` and `io_unref`: the loop has one thread.
- Clients that register their own callbacks with `loop_add_sd` in whole runs: the machine has channels and timers, `Registry.Loop` has any client.
- `io_send`, `io_shutdown`, `io_get_descriptor`, watchdog notifications and signal plumbing.
- Null arguments of the channel and string functions, which return at once.
- Contents of the UUID and appearance tables: parameters, with the hypotheses that no 128-bit row is a Base UUID (`Names.NoBaseRow`) and that appearance values ascend from a generic 0 (`Appearance.InOrder`).
- sscanf on 36-character texts that end like a Base UUID but do not begin with eight hexadecimal digits: its answer is a parameter of the tables.
- Locale effects in `isprint` and `strcasecmp`: `isprint` is a parameter, letter case is that of ASCII.
- HCI commands, option parsing other than the UUID, the empty eddystone program, and the small helpers `strsuffix`, `util_memdup`, `util_get_dt` and the debug output.

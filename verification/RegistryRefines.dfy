/** The array of heap entries in loop.c does to the table, the kernel and the sizes what the run machine does. */
module RegistryRefines {
  import opened Events
  import opened LoopTable
  import opened World
  import opened Invariant
  import opened Registry
  import opened StepsRetire
  import Witnesses

  const IO_PROCESS_EVENT := 1
  const IO_DESTROY_CALLBACK := 2
  const TIMER_CALLBACK := 3
  const TIMER_DESTRUCTOR := 4

  /** What io_new and create_timer register: their own functions, and their record as user data. */
  function HooksOf(client: Client): Hooks {
    match client
    case Channel(p) => Hooks(IO_PROCESS_EVENT, IO_DESTROY_CALLBACK, p)
    case Timer(t) => Hooks(TIMER_CALLBACK, TIMER_DESTRUCTOR, t)
  }

  /** The addresses of the entries on the heap. */
  type Addresses = map<EventEntry, nat>

  /** An entry on the heap and a row of the table say the same. */
  ghost predicate SameEntry(at: Addresses, e: EventEntry, row: Entry<Client>)
    reads e
  {
    && e in at && at[e] == row.id
    && e.sd == row.sd && e.mask == row.mask && e.hooks == HooksOf(row.client)
  }

  ghost predicate SameKernel(at: Addresses, l: map<int, Watch>, k: map<int, Interest>) {
    && l.Keys == k.Keys
    && forall fd :: fd in l ==> l[fd].mask == k[fd].mask && l[fd].entry in at && at[l[fd].entry] == k[fd].id
  }

  /** The loop on the heap stands for the loop part of the world. */
  ghost predicate Represents(at: Addresses, l: Loop, w: World)
    requires l.Distinct()
    reads l, l.entry, l.Entries()
  {
    && l.gap == w.gap && l.count == w.count && l.epollOpen == w.epollOpen && l.terminate == w.terminate
    && |l.Slots()| == |w.reg|
    && (forall i :: 0 <= i < |w.reg| ==> SameEntry(at, l.Slots()[i], w.reg[i]))
    && SameKernel(at, l.kernel, w.kernel)
  }

  lemma Addition(w: World, sd: int, mask: Mask, client: Client, answer: Answer)
    ensures var (v, code) := LoopAdd(w, sd, mask, client, answer);
            && code == (if sd < 0 then -EINVAL
                        else if answer.NoTable? || answer.NoEntry? then -ENOMEM
                        else if !EpollTakes(w, sd, answer) then EEXIST else 0)
            && v.count == (if sd >= 0 && !answer.NoTable? && w.count <= |w.reg| + 1 then w.count + ENTRY_CHANGE
                           else w.count)
            && v.gap == w.gap && v.epollOpen == w.epollOpen && v.terminate == w.terminate
            && (code != 0 ==> v.reg == w.reg && v.kernel == w.kernel)
            && (code == 0 ==> v.reg == w.reg + [Entry(w.next, sd, mask, client)]
                              && v.kernel == w.kernel[sd := Interest(w.next, mask, true)])
  {
  }

  /** Adding a descriptor gives the same answer and the same new state, with one more address if it is taken. */
  method AddRefines(ghost at: Addresses, l: Loop, ghost w: World, sd: int, mask: Mask, client: Client, answer: Answer)
    returns (code: int, ghost at': Addresses)
    requires l.Valid() && Represents(at, l, w)
    modifies l, if l.entry == null then {} else {l.entry}
    ensures l.Valid() && (forall e :: e in at ==> e in at' && at'[e] == at[e])
    ensures Represents(at', l, LoopAdd(w, sd, mask, client, answer).0) && code == LoopAdd(w, sd, mask, client, answer).1
  {
    hide LoopAdd, Loop.Mirrored, Loop.Storage;
    Addition(w, sd, mask, client, answer);
    ghost var slots, v := l.Slots(), LoopAdd(w, sd, mask, client, answer).0;
    code := l.AddSd(sd, mask, HooksOf(client), answer);
    at' := if code == 0 then at[l.Slots()[|slots|] := w.next] else at;
    assert code == 0 ==> l.Slots()[|slots|] !in at;
    forall i | 0 <= i < |v.reg| ensures SameEntry(at', l.Slots()[i], v.reg[i]) {
      if i < |slots| {
        assert l.Slots()[i] == slots[i] && slots[i] in slots;
      }
    }
  }

  lemma FindAgrees(at: Addresses, l: Loop, w: World, sd: int)
    requires l.Valid() && Represents(at, l, w)
    ensures sd in l.kernel ==> sd >= 0
    ensures var k := Find(w.reg, sd);
            && (k < |w.reg| <==> sd in l.kernel)
            && (k < |w.reg| ==> l.Slots()[k] == l.kernel[sd].entry)
            && (k < |w.reg| ==> sd in w.kernel && w.kernel[sd].id == w.reg[k].id)
  {
    var k := Find(w.reg, sd);
    if k < |w.reg| {
      assert SameEntry(at, l.Slots()[k], w.reg[k]);
    } else {
      forall i | 0 <= i < |l.Slots()| ensures l.Slots()[i].sd != sd {
        assert SameEntry(at, l.Slots()[i], w.reg[i]);
      }
    }
  }

  lemma Modification(w: World, sd: int, mask: Mask, granted: bool)
    ensures var (v, code) := LoopModify(w, sd, mask, granted);
            var known := sd >= 0 && Find(w.reg, sd) < |w.reg|;
            && code == (if sd < 0 then -EINVAL else if !known then -ENXIO else if granted then 0 else -1)
            && v.gap == w.gap && v.count == w.count && v.epollOpen == w.epollOpen && v.terminate == w.terminate
            && (!(known && granted) ==> v.reg == w.reg && v.kernel == w.kernel)
            && (known && granted ==>
                  && v.reg == w.reg[Find(w.reg, sd) := w.reg[Find(w.reg, sd)].(mask := mask)]
                  && v.kernel.Keys == w.kernel.Keys + {sd} && v.kernel[sd].mask == mask
                  && v.kernel[sd].id == w.reg[Find(w.reg, sd)].id
                  && forall fd :: fd in w.kernel && fd != sd ==> v.kernel[fd] == w.kernel[fd])
  {
  }

  lemma RemaskedKernel(at: Addresses, l: map<int, Watch>, k: map<int, Interest>, k': map<int, Interest>, sd: int,
                       mask: Mask)
    requires SameKernel(at, l, k) && sd in l && k'.Keys == k.Keys + {sd}
    requires k'[sd].mask == mask && k'[sd].id == k[sd].id
    requires forall fd :: fd in k && fd != sd ==> k'[fd] == k[fd]
    ensures SameKernel(at, l[sd := Watch(l[sd].entry, mask)], k')
  {
  }

  /** Changing a mask gives the same answer and the same new state. */
  method ModifyRefines(ghost at: Addresses, l: Loop, ghost w: World, sd: int, mask: Mask, granted: bool)
    returns (code: int)
    requires l.Valid() && Represents(at, l, w)
    modifies l, l.Entries()
    ensures l.Valid()
    ensures Represents(at, l, LoopModify(w, sd, mask, granted).0) && code == LoopModify(w, sd, mask, granted).1
  {
    hide LoopModify, Loop.Mirrored, Loop.Storage, Find, SameKernel;
    ghost var slots, v := l.Slots(), LoopModify(w, sd, mask, granted).0;
    FindAgrees(at, l, w, sd);
    Modification(w, sd, mask, granted);
    if sd in l.kernel && granted {
      RemaskedKernel(at, l.kernel, w.kernel, v.kernel, sd, mask);
    }
    assert forall i :: 0 <= i < |slots| ==> SameEntry(at, slots[i], w.reg[i]);
    code := l.ModifySd(sd, mask, granted);
    forall i | 0 <= i < |slots| ensures SameEntry(at, l.Slots()[i], v.reg[i]) {
      assert l.Slots()[i] == slots[i] && slots[i].sd == w.reg[i].sd;
    }
  }

  lemma ShiftedFrom<T>(s: seq<T>, k: nat, gap: nat, i: nat)
    requires k < |s| && i < |s| - 1
    ensures Shift(s, k, gap)[i] == s[if k <= i && i + gap < |s| then i + 1 else i]
  {
  }

  lemma RemoveUnknown(w: World, sd: int)
    requires sd < 0 || Find(w.reg, sd) == |w.reg|
    ensures LoopRemove(w, sd) == Done(w)
  {
  }

  /**
   Removing a descriptor gives the same new state, and the array is spoiled exactly where the run
   machine stops because of a spoiled table.
   */
  method RemoveRefines(ghost at: Addresses, l: Loop, ghost w: World, sd: int) returns (code: int)
    requires l.Valid() && Represents(at, l, w) && Inv(w) && 1 <= l.gap <= 2
    modifies l, if l.entry == null then {} else {l.entry}
    ensures code == if sd < 0 then -EINVAL else if Find(w.reg, sd) == |w.reg| then -ENXIO else 0
    ensures l.Valid() <==> !LoopRemove(w, sd).Stops(CorruptTable)
    ensures LoopRemove(w, sd).Done? ==> l.Distinct() && Represents(at, l, LoopRemove(w, sd).value)
  {
    hide Inv, Retire, Shift, Without, LoopRemove, Loop.Mirrored, Loop.Storage, Find;
    ghost var slots, known := l.Slots(), sd in l.kernel;
    FindAgrees(at, l, w, sd);
    ghost var k := Find(w.reg, sd);
    if known {
      Witnesses.RemovalSpoilsTableIff(w, sd);
      Removal(w, sd);
    } else {
      RemoveUnknown(w, sd);
    }
    assert forall i :: 0 <= i < |slots| ==> slots[i] in slots && SameEntry(at, slots[i], w.reg[i]);
    ghost var slot;
    code, slot := l.RemoveSd(sd);
    if known && LoopRemove(w, sd).Done? {
      assert slot == k;
      forall i | 0 <= i < |l.Slots()| ensures SameEntry(at, l.Slots()[i], LoopRemove(w, sd).value.reg[i]) {
        ShiftedFrom(slots, k, l.gap, i);
        ShiftedFrom(w.reg, k, l.gap, i);
      }
    }
  }

  lemma Removal(w: World, sd: int)
    requires Inv(w) && sd >= 0 && Find(w.reg, sd) < |w.reg|
    ensures var v, k := LoopRemove(w, sd), Find(w.reg, sd);
            v.Done? ==>
              && v.value.reg == Shift(w.reg, k, w.gap) && |v.value.reg| == |w.reg| - 1
              && v.value.kernel == w.kernel - {sd}
              && v.value.count == w.count && v.value.gap == w.gap
              && v.value.epollOpen == w.epollOpen && v.value.terminate == w.terminate
  {
    hide Inv, Retire, Without;
    var k := Find(w.reg, sd);
    RetireLeaves(w.(reg := Shift(w.reg, k, w.gap)), w.reg[k]);
  }

  /** Quitting gives the same new state. */
  method QuitRefines(ghost at: Addresses, l: Loop, ghost w: World)
    requires l.Valid() && Represents(at, l, w) && Inv(w)
    modifies l, if l.entry == null then {} else {l.entry}
    ensures l.Valid() && LoopQuit(w).Done? && Represents(at, l, LoopQuit(w).value)
  {
    hide Inv, LoopQuit;
    Quit(w);
    l.Cleanup();
  }

  lemma Quit(w: World)
    requires Inv(w)
    ensures LoopQuit(w).Done?
    ensures var v := LoopQuit(w).value;
            v.reg == [] && v.kernel == map[] && v.count == 0 && v.gap == w.gap && v.terminate && !v.epollOpen
  {
    hide Inv, Retire, RetireAll;
    LoopQuitKeeps(w);
  }
}

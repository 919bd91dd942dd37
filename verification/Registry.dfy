/** loop.c as a program: entries on the heap, an array of them that grows and shrinks, and epoll's own table. */
module Registry {
  import opened Events
  import opened LoopTable

  /** The callback, the destructor and the user data of an entry; 0 is the null pointer. */
  datatype Hooks = Hooks(callback: nat, destructor: nat, data: nat)

  /** event_entry_t. */
  class EventEntry {
    const sd: int
    const hooks: Hooks
    var mask: Mask

    constructor (sd: int, mask: Mask, hooks: Hooks)
      ensures this.sd == sd && this.mask == mask && this.hooks == hooks
    {
      this.sd, this.mask, this.hooks := sd, mask, hooks;
    }
  }

  /** What epoll keeps for a descriptor: the entry as user data, and the mask. */
  datatype Watch = Watch(entry: EventEntry, mask: Mask)

  /** The loop control structure. The shift in RemoveSd is written with gap 2 in loop.c. */
  class Loop {
    const gap: nat
    var epollOpen: bool
    var terminate: bool
    var count: nat
    var top: nat
    var entry: array?<EventEntry?>
    var kernel: map<int, Watch>
    ghost var freed: seq<EventEntry>

    ghost function Slots(): (s: seq<EventEntry?>)
      reads this, entry
    {
      if entry == null || top > entry.Length then [] else entry[..top]
    }

    ghost function Entries(): set<EventEntry?>
      reads this, entry
    {
      set e | e in Slots() && e != null
    }

    /** The array has room to spare and holds its entries first and nothing after them. */
    ghost predicate Storage()
      reads this, entry
    {
      && (entry == null ==> count == 0 && top == 0)
      && (entry != null ==>
            && entry.Length == count && top < count
            && (forall i :: 0 <= i < top ==> entry[i] != null)
            && (forall i :: top <= i < count ==> entry[i] == null))
    }

    /** No two entries for a descriptor and none that has been freed. */
    ghost predicate Distinct()
      reads this, entry
    {
      && null !in Slots()
      && (forall i, j :: 0 <= i < j < |Slots()| ==> Slots()[i].sd != Slots()[j].sd)
      && (forall i :: 0 <= i < |Slots()| ==> Slots()[i].sd >= 0 && Slots()[i] !in freed)
    }

    /** The kernel watches exactly the entries, with their masks. */
    ghost predicate Mirrored()
      requires Distinct()
      reads this, entry, Entries()
    {
      && (forall i :: 0 <= i < |Slots()| ==>
            Slots()[i].sd in kernel && kernel[Slots()[i].sd] == Watch(Slots()[i], Slots()[i].mask))
      && (forall fd :: fd in kernel ==> exists i :: 0 <= i < |Slots()| && Slots()[i].sd == fd)
      && (!epollOpen ==> kernel == map[])
    }

    ghost predicate Valid()
      reads this, entry, Entries()
    {
      Storage() && Distinct() && Mirrored()
    }

    /** loop_init, when epoll_create1 and malloc succeed. */
    constructor (gap: nat)
      requires 1 <= gap <= 2
      ensures Valid() && Slots() == [] && kernel == map[] && freed == [] && !terminate && epollOpen
      ensures this.gap == gap && count == ENTRY_CHANGE && entry != null && fresh(entry)
    {
      this.gap := gap;
      epollOpen, terminate, count, top := true, false, ENTRY_CHANGE, 0;
      kernel, freed := map[], [];
      entry := new EventEntry?[ENTRY_CHANGE](_ => null);
    }

    /** The part of loop_add_sd that makes room: the entries move to a larger array. */
    method Grow()
      requires Storage()
      modifies this`entry, this`count, if entry == null then {} else {entry}
      ensures Storage() && top + 1 < count && entry != null && fresh(entry)
      ensures count == old(count) + ENTRY_CHANGE && top == old(top)
      ensures Slots() == old(Slots())
    {
      var ep := new EventEntry?[count + ENTRY_CHANGE](_ => null);
      ghost var slots := Slots();
      var i := 0;
      while i < count
        modifies ep, if entry == null then {} else {entry}
        invariant 0 <= i <= count
        invariant forall j :: 0 <= j < i ==> ep[j] == if j < top then slots[j] else null
        invariant forall j :: i <= j < count ==> entry != null && entry[j] == if j < top then slots[j] else null
      {
        ep[i] := entry[i];
        entry[i] := null;
        i := i + 1;
      }
      count := count + ENTRY_CHANGE;
      while i < count
        modifies ep
        invariant count - ENTRY_CHANGE <= i <= count
        invariant forall j :: 0 <= j < i ==> ep[j] == if j < top then slots[j] else null
      {
        ep[i] := null;
        i := i + 1;
      }
      entry := ep;
      assert Slots() == slots;
    }

    /** The array grows when there is no second slot to spare. */
    method MakeRoom()
      requires Valid() && count <= top + 1
      modifies this`entry, this`count, if entry == null then {} else {entry}
      ensures Valid() && entry != null && fresh(entry) && top + 1 < count && Slots() == old(Slots())
      ensures count == old(count) + ENTRY_CHANGE
    {
      ghost var slots := Slots();
      Grow();
      assert forall i :: 0 <= i < |slots| ==> kernel[slots[i].sd] == Watch(slots[i], slots[i].mask);
    }

    /** The store at the top of the array. */
    method Push(data: EventEntry)
      requires Storage() && entry != null && top + 1 < count
      modifies this`top, entry
      ensures Storage() && Slots() == old(Slots()) + [data]
    {
      ghost var slots := Slots();
      entry[top] := data;
      top := top + 1;
      assert Slots() == slots + [data];
    }

    /** loop_add_sd. */
    method AddSd(sd: int, mask: Mask, hooks: Hooks, answer: Answer) returns (code: int)
      requires Valid()
      modifies this, if entry == null then {} else {entry}
      ensures Valid() && terminate == old(terminate) && epollOpen == old(epollOpen) && freed == old(freed)
      ensures code == 0 <==>
              sd >= 0 && hooks.callback != 0 && answer.Taken? && epollOpen && sd !in old(kernel)
      ensures code != 0 ==> Slots() == old(Slots()) && kernel == old(kernel)
      ensures code == 0 ==>
                && |Slots()| == |old(Slots())| + 1 && Slots()[..|old(Slots())|] == old(Slots())
                && var e := Slots()[|old(Slots())|];
                   && fresh(e) && e.sd == sd && e.mask == mask && e.hooks == hooks
                   && kernel == old(kernel)[sd := Watch(e, mask)]
      ensures code == if sd < 0 || hooks.callback == 0 then -EINVAL
                      else if answer.NoTable? || answer.NoEntry? then -ENOMEM
                      else if !answer.Taken? || !epollOpen || sd in old(kernel) then EEXIST else 0
      ensures count == if sd >= 0 && hooks.callback != 0 && !answer.NoTable? && old(count) <= |old(Slots())| + 1
                       then old(count) + ENTRY_CHANGE else old(count)
      ensures forall e :: e in old(Slots()) && e != null ==> unchanged(e)
    {
      if sd < 0 || hooks.callback == 0 {
        return -EINVAL;
      }
      if count <= top + 1 {
        if answer.NoTable? {
          return -ENOMEM;
        }
        MakeRoom();
      }
      if answer.NoTable? || answer.NoEntry? {
        return -ENOMEM;
      }
      if !answer.Taken? || !epollOpen || sd in kernel {
        return EEXIST;
      }
      Insert(sd, mask, hooks);
      return 0;
    }

    /** The end of loop_add_sd, once epoll has taken the descriptor. */
    method Insert(sd: int, mask: Mask, hooks: Hooks)
      requires Valid() && entry != null && top + 1 < count && sd >= 0 && sd !in kernel && epollOpen
      modifies this`top, this`kernel, entry
      ensures Valid()
      ensures |Slots()| == |old(Slots())| + 1 && Slots()[..|old(Slots())|] == old(Slots())
      ensures var e := Slots()[|old(Slots())|];
              && e != null && fresh(e) && e.sd == sd && e.mask == mask && e.hooks == hooks
              && kernel == old(kernel)[sd := Watch(e, mask)]
    {
      var data := new EventEntry(sd, mask, hooks);
      kernel := kernel[sd := Watch(data, mask)];
      ghost var slots := Slots();
      Push(data);
      AddedIsValid(slots, data);
    }

    /** One more entry, watched by the kernel, leaves everything in order. */
    twostate lemma AddedIsValid(slots: seq<EventEntry?>, new data: EventEntry)
      requires old(Valid()) && Storage() && slots == old(Slots()) && Slots() == slots + [data]
      requires fresh(data) && data.sd >= 0 && data.sd !in old(kernel) && epollOpen && freed == old(freed)
      requires kernel == old(kernel)[data.sd := Watch(data, data.mask)]
      requires forall e :: e in slots && e != null ==> unchanged(e)
      ensures Valid()
    {
      forall i | 0 <= i < |Slots()|
        ensures Slots()[i].sd in kernel && kernel[Slots()[i].sd] == Watch(Slots()[i], Slots()[i].mask)
      {
        if i < |slots| {
          var e := slots[i];
          assert Slots()[i] == e && e in slots;
          assert old(kernel)[e.sd] == Watch(e, old(e.mask));
        }
      }
      forall fd | fd in kernel ensures exists i :: 0 <= i < |Slots()| && Slots()[i].sd == fd {
        if fd == data.sd {
          assert Slots()[|slots|].sd == fd;
        } else {
          var i :| 0 <= i < |slots| && slots[i].sd == fd;
          assert Slots()[i].sd == fd;
        }
      }
    }

    /** The search loops of loop_modify_sd and loop_remove_sd. */
    method IndexOf(sd: int) returns (k: nat)
      requires Valid()
      ensures k <= |Slots()|
      ensures k < |Slots()| ==> Slots()[k].sd == sd
      ensures k == |Slots()| ==> sd !in kernel
    {
      k := 0;
      while k < top
        invariant k <= top
        invariant forall j :: 0 <= j < k ==> Slots()[j].sd != sd
      {
        if sd == entry[k].sd {
          return;
        }
        k := k + 1;
      }
    }

    /** loop_modify_sd; `granted` is epoll's answer. */
    method ModifySd(sd: int, mask: Mask, granted: bool) returns (code: int)
      requires Valid()
      modifies this`kernel, Entries()
      ensures Valid() && Slots() == old(Slots())
      ensures code == if sd < 0 then -EINVAL else if sd !in old(kernel) then -ENXIO else if granted then 0 else -1
      ensures forall i :: 0 <= i < |Slots()| ==>
                Slots()[i].mask == if Slots()[i].sd == sd && code == 0 then mask else old(Slots()[i].mask)
      ensures code != 0 ==> kernel == old(kernel)
      ensures code == 0 ==> kernel == old(kernel)[sd := Watch(old(kernel)[sd].entry, mask)]
    {
      if sd < 0 {
        return -EINVAL;
      }
      var k := IndexOf(sd);
      if k == top {
        return -ENXIO;
      }
      if !granted {
        return -1;
      }
      ghost var slots, watched := Slots(), kernel;
      assert forall i :: 0 <= i < |slots| ==> kernel[slots[i].sd] == Watch(slots[i], slots[i].mask);
      kernel := kernel[sd := Watch(entry[k], mask)];
      entry[k].mask := mask;
      assert Slots() == slots;
      return 0;
    }

    /**
     loop_remove_sd on a registered descriptor. The slots become what the shift makes of them; the
     table is right again if and only if every later slot was moved.
     */
    method RemoveSd(sd: int) returns (code: int, ghost slot: nat)
      requires Valid() && 1 <= gap <= 2
      modifies this, if entry == null then {} else {entry}
      ensures sd !in old(kernel) ==>
                && code == (if sd < 0 then -EINVAL else -ENXIO) && Valid() && Slots() == old(Slots())
                && kernel == old(kernel) && freed == old(freed)
      ensures sd in old(kernel) ==>
                && code == 0
                && slot < |old(Slots())| && old(Slots())[slot] == old(kernel)[sd].entry
                && Slots() == Shift(old(Slots()), slot, gap)
                && (Valid() <==> gap == 1 || slot + 1 == |old(Slots())|)
      ensures sd in old(kernel) ==> kernel == old(kernel) - {sd} && freed == old(freed) + [old(kernel)[sd].entry]
      ensures count == old(count) && terminate == old(terminate) && epollOpen == old(epollOpen)
      ensures forall e :: e in old(Slots()) && e != null ==> unchanged(e)
    {
      if sd < 0 {
        return -EINVAL, 0;
      }
      var k := IndexOf(sd);
      if k == top {
        return -ENXIO, 0;
      }
      Unhook(k);
      return 0, k;
    }

    /** The part of loop_remove_sd that follows the search. */
    method Unhook(k: nat)
      requires Valid() && k < top && 1 <= gap <= 2
      modifies this, if entry == null then {} else {entry}
      ensures Slots() == Shift(old(Slots()), k, gap)
      ensures kernel == old(kernel) - {old(Slots())[k].sd} && freed == old(freed) + [old(Slots())[k]]
      ensures Valid() <==> gap == 1 || k + 1 == old(top)
      ensures count == old(count) && terminate == old(terminate) && epollOpen == old(epollOpen)
    {
      var removed := entry[k];
      ghost var slots := Slots();
      ShiftDown(k);
      kernel := kernel - {removed.sd};
      freed := freed + [removed];
      if gap == 1 {
        ShiftByOneDeletes(slots, k);
        RemovedIsValid(k);
      } else if k + 1 == |slots| {
        assert Slots() == Without(slots, k);
        RemovedIsValid(k);
      } else {
        RemovedIsSpoiled(k);
      }
    }

    /** The shift loop and the store that drops the top slot. */
    method ShiftDown(k: nat)
      requires Storage() && k < top && 1 <= gap <= 2
      modifies this`top, entry
      ensures Storage() && Slots() == Shift(old(Slots()), k, gap)
    {
      ghost var slots := Slots();
      assert |slots| == top && forall j :: 0 <= j < top ==> entry[j] == slots[j];
      var i := k;
      while top > i + gap
        modifies entry
        invariant k <= i < top && (i + gap <= top || i == k)
        invariant forall j :: 0 <= j < k ==> entry[j] == slots[j]
        invariant forall j :: k <= j < i ==> entry[j] == slots[j + 1]
        invariant forall j :: i <= j < top ==> entry[j] == slots[j]
        invariant forall j :: top <= j < count ==> entry[j] == null
      {
        entry[i] := entry[i + 1];
        i := i + 1;
      }
      top := top - 1;
      entry[top] := null;
      assert Slots() == Shift(slots, k, gap);
    }

    /** Without the removed entry everything is in order if the shift moved every later slot. */
    twostate lemma RemovedIsValid(k: nat)
      requires old(Valid()) && Storage() && k < |old(Slots())|
      requires Slots() == Without(old(Slots()), k)
      requires kernel == old(kernel) - {old(Slots())[k].sd} && freed == old(freed) + [old(Slots())[k]]
               && epollOpen == old(epollOpen)
      requires forall e :: e in old(Slots()) && e != null ==> unchanged(e)
      ensures Valid()
    {
      RemovedIsDistinct(k);
      var slots := old(Slots());
      forall i | 0 <= i < |Slots()|
        ensures Slots()[i].sd in kernel && kernel[Slots()[i].sd] == Watch(Slots()[i], Slots()[i].mask)
      {
        var e := slots[if i < k then i else i + 1];
        assert Slots()[i] == e && e in slots;
        assert old(kernel)[e.sd] == Watch(e, old(e.mask));
      }
      forall fd | fd in kernel ensures exists i :: 0 <= i < |Slots()| && Slots()[i].sd == fd {
        var i :| 0 <= i < |slots| && slots[i].sd == fd;
        assert Slots()[if i < k then i else i - 1].sd == fd;
      }
    }

    twostate lemma RemovedIsDistinct(k: nat)
      requires old(Distinct()) && k < |old(Slots())|
      requires Slots() == Without(old(Slots()), k) && freed == old(freed) + [old(Slots())[k]]
      ensures Distinct()
    {
      assert forall i :: 0 <= i < |Slots()| ==> Slots()[i] == old(Slots())[if i < k then i else i + 1];
    }

    /** Otherwise the freed entry is still in the table, or another entry is there twice. */
    twostate lemma RemovedIsSpoiled(k: nat)
      requires old(Valid()) && Storage() && k + 1 < |old(Slots())|
      requires Slots() == Shift(old(Slots()), k, 2) && freed == old(freed) + [old(Slots())[k]]
      ensures !Distinct()
    {
      var slots, n := old(Slots()), |old(Slots())|;
      assert Slots()[n - 2] == slots[n - 2];
      if k == n - 2 {
        assert slots[k] in freed;
      } else {
        assert Slots()[n - 3] == slots[n - 2];
      }
    }

    /** The loop of loop_cleanup over the entries. */
    method FreeEntries()
      requires Storage() && entry != null
      modifies this`kernel, this`freed, entry
      ensures |freed| == |old(freed)| + top && freed[..|old(freed)|] == old(freed) && kernel.Keys <= old(kernel.Keys)
      ensures forall j :: 0 <= j < top ==> freed[|old(freed)| + j] == old(entry[j])
    {
      ghost var slots, n := entry[..], |freed|;
      var i := 0;
      while i < top
        modifies this`kernel, this`freed, entry
        invariant i <= top
        invariant forall j :: i <= j < top ==> entry[j] == slots[j]
        invariant |freed| == n + i && freed[..n] == old(freed) && kernel.Keys <= old(kernel.Keys)
        invariant forall j :: 0 <= j < i ==> freed[n + j] == slots[j]
      {
        var data := entry[i];
        entry[i] := null;
        if data != null {
          kernel := kernel - {data.sd};
          freed := freed + [data];
        }
        i := i + 1;
      }
    }

    /**
     loop_cleanup. Every entry is destructed, in the order of the table and after the kernel has
     let go of it; nothing is left, and a second cleanup finds nothing to do.
     */
    method Cleanup()
      requires Valid()
      modifies this, if entry == null then {} else {entry}
      ensures Valid() && terminate && !epollOpen && entry == null && count == 0 && Slots() == [] && kernel == map[]
      ensures |freed| == |old(freed)| + |old(Slots())| && freed[..|old(freed)|] == old(freed)
      ensures forall i :: 0 <= i < |old(Slots())| ==> freed[|old(freed)| + i] == old(Slots())[i]
    {
      terminate := true;
      if entry != null {
        FreeEntries();
        top, count, entry := 0, 0, null;
      }
      if epollOpen {
        epollOpen, kernel := false, map[];
      }
      assert Slots() == [];
    }
  }
}

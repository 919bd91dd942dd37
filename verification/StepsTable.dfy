/** How the invariant follows changes of the entry table. */
module StepsTable {
  import opened Events
  import opened LoopTable
  import opened World
  import opened Invariant

  type Row = Entry<Client>

  lemma FindIs(reg: Registry, next: nat, k: nat)
    requires TableOk(reg, next) && k < |reg|
    ensures Find(reg, reg[k].sd) == k && FindId(reg, reg[k].id) == k
  {
  }

  // ------------------------------------------------------------ a mask is changed in place

  function Remasked(reg: Registry, k: nat, m: Mask): Registry
    requires k < |reg|
  {
    reg[k := reg[k].(mask := m)]
  }

  lemma TableAfterRemask(reg: Registry, next: nat, k: nat, m: Mask)
    requires TableOk(reg, next) && k < |reg|
    ensures TableOk(Remasked(reg, k, m), next)
  {
  }

  lemma FindAfterRemask(reg: Registry, k: nat, m: Mask, sd: int, id: nat)
    requires k < |reg|
    ensures Find(Remasked(reg, k, m), sd) == Find(reg, sd)
    ensures FindId(Remasked(reg, k, m), id) == FindId(reg, id)
  {
    var reg' := Remasked(reg, k, m);
    var a, b := Find(reg, sd), Find(reg', sd);
    assert a < |reg| ==> reg'[a].sd == sd;
    assert b < |reg| ==> reg[b].sd == sd;
    var c, d := FindId(reg, id), FindId(reg', id);
    assert c < |reg| ==> reg'[c].id == id;
    assert d < |reg| ==> reg[d].id == id;
  }

  lemma RegisteredAfterRemask(reg: Registry, k: nat, m: Mask, sd: int, client: Client)
    requires k < |reg|
    ensures Registered(Remasked(reg, k, m), sd, client) == Registered(reg, sd, client)
  {
    FindAfterRemask(reg, k, m, sd, 0);
  }

  lemma MirrorAfterRemask(reg: Registry, kernel: map<int, Interest>, epollOpen: bool, next: nat, k: nat, m: Mask)
    requires TableOk(reg, next) && MirrorOk(reg, kernel, epollOpen) && k < |reg|
    ensures MirrorOk(Remasked(reg, k, m), kernel[reg[k].sd := Interest(reg[k].id, m, true)], epollOpen)
  {
    var reg', kernel' := Remasked(reg, k, m), kernel[reg[k].sd := Interest(reg[k].id, m, true)];
    forall fd | fd in kernel' ensures Find(reg', fd) < |reg'| {
      FindAfterRemask(reg, k, m, fd, 0);
    }
  }

  lemma LinksAfterRemask(reg: Registry, chans: Chans, owned: set<nat>, k: nat, m: Mask)
    requires LinksOk(reg, chans, owned) && k < |reg|
    ensures LinksOk(Remasked(reg, k, m), chans, owned)
  {
    var reg' := Remasked(reg, k, m);
    forall i | 0 <= i < |reg'| ensures EntryLinked(reg'[i], chans, owned) {
      assert EntryLinked(reg[i], chans, owned);
    }
    forall p | p in chans ensures ChanLinked(reg', p, chans[p]) {
      assert ChanLinked(reg, p, chans[p]);
      RegisteredAfterRemask(reg, k, m, chans[p].descriptor, Channel(p));
    }
  }

  lemma TimersAfterRemask(reg: Registry, timers: Timers, next: nat, k: nat, m: Mask)
    requires TimersOk(reg, timers, next) && k < |reg| && (reg[k].client.Channel? || m == {IN, ONESHOT})
    ensures TimersOk(Remasked(reg, k, m), timers, next)
  {
    var reg' := Remasked(reg, k, m);
    forall i | 0 <= i < |reg'| ensures TimerLinked(reg'[i], timers) {
      assert TimerLinked(reg[i], timers);
    }
    forall t | t in timers ensures t < next && Registered(reg', timers[t].id, Timer(t)) {
      RegisteredAfterRemask(reg, k, m, timers[t].id, Timer(t));
    }
  }

  lemma EntryLogAfterRemask(log: Trace, reg: Registry, next: nat, k: nat, m: Mask)
    requires EntryLogOk(log, reg, next) && k < |reg|
    ensures EntryLogOk(log, Remasked(reg, k, m), next)
  {
    var reg' := Remasked(reg, k, m);
    forall id: nat ensures EntryLogAt(log, InTable(reg', id), next, id) {
      assert EntryLogAt(log, InTable(reg, id), next, id);
      FindAfterRemask(reg, k, m, 0, id);
    }
  }

  /** The masks of the channel at slot k and of its entry change together. */
  lemma MasksAfterRemask(reg: Registry, chans: Chans, owned: set<nat>, denied: bool, next: nat, k: nat, c: Chan)
    requires TableOk(reg, next) && LinksOk(reg, chans, owned) && MasksOk(reg, chans, denied)
    requires k < |reg| && reg[k].client.Channel?
    requires denied || Covered(c)
    ensures MasksOk(Remasked(reg, k, c.events), chans[reg[k].client.p := c], denied)
  {
    if !denied {
      var p := reg[k].client.p;
      var reg', chans' := Remasked(reg, k, c.events), chans[p := c];
      forall i | 0 <= i < |reg'| ensures EntryMaskAgrees(reg'[i], chans') {
        assert EntryMaskAgrees(reg[i], chans);
        assert EntryLinked(reg[i], chans, owned) && EntryLinked(reg[k], chans, owned);
      }
    }
  }

  lemma MasksAfterTimerRemask(reg: Registry, chans: Chans, denied: bool, k: nat, m: Mask)
    requires MasksOk(reg, chans, denied)
    requires k < |reg| && reg[k].client.Timer?
    ensures MasksOk(Remasked(reg, k, m), chans, denied)
  {
    if !denied {
      var reg' := Remasked(reg, k, m);
      forall i | 0 <= i < |reg'| ensures EntryMaskAgrees(reg'[i], chans) {
        assert EntryMaskAgrees(reg[i], chans);
      }
    }
  }

  /** A closed channel has no entry, so its mask is nobody else's concern. */
  lemma MasksAfterClosedUpdate(reg: Registry, chans: Chans, owned: set<nat>, denied: bool, next: nat, p: nat, c: Chan)
    requires TableOk(reg, next) && LinksOk(reg, chans, owned) && MasksOk(reg, chans, denied)
    requires p in chans && chans[p].descriptor == -1 && c.descriptor == -1
    ensures MasksOk(reg, chans[p := c], denied)
  {
    if !denied {
      forall i | 0 <= i < |reg| ensures EntryMaskAgrees(reg[i], chans[p := c]) {
        assert EntryMaskAgrees(reg[i], chans);
        assert EntryLinked(reg[i], chans, owned);
      }
    }
  }

  // ------------------------------------------------------------ a slot is deleted

  lemma TableAfterDelete(reg: Registry, next: nat, k: nat)
    requires TableOk(reg, next) && k < |reg|
    ensures TableOk(Without(reg, k), next)
  {
  }

  lemma FindAfterDelete(reg: Registry, next: nat, k: nat, sd: int)
    requires TableOk(reg, next) && k < |reg|
    ensures var k' := Find(Without(reg, k), sd);
            if Find(reg, sd) in {k, |reg|} then k' == |reg| - 1
            else k' < |reg| - 1 && Without(reg, k)[k'] == reg[Find(reg, sd)]
  {
    var reg', i := Without(reg, k), Find(reg, sd);
    var i' := Find(reg', sd);
    if i < |reg| && i != k { assert reg'[if i < k then i else i - 1] == reg[i]; }
    if i' < |reg'| { assert reg'[i'] == reg[if i' < k then i' else i' + 1]; }
  }

  lemma InTableAfterDelete(reg: Registry, next: nat, k: nat, id: nat)
    requires TableOk(reg, next) && k < |reg|
    ensures InTable(Without(reg, k), id) <==> InTable(reg, id) && id != reg[k].id
  {
    var reg', j := Without(reg, k), FindId(reg, id);
    var j' := FindId(reg', id);
    if j < |reg| && j != k { assert reg'[if j < k then j else j - 1] == reg[j]; }
    if j' < |reg'| { assert reg'[j'] == reg[if j' < k then j' else j' + 1]; }
  }

  lemma RegisteredAfterDelete(reg: Registry, next: nat, k: nat, sd: int, client: Client)
    requires TableOk(reg, next) && k < |reg|
    ensures Registered(Without(reg, k), sd, client) <==> Registered(reg, sd, client) && sd != reg[k].sd
  {
    FindAfterDelete(reg, next, k, sd);
    FindIs(reg, next, k);
  }

  lemma MirrorAfterDelete(reg: Registry, kernel: map<int, Interest>, epollOpen: bool, next: nat, k: nat)
    requires TableOk(reg, next) && MirrorOk(reg, kernel, epollOpen) && k < |reg|
    ensures MirrorOk(Without(reg, k), kernel - {reg[k].sd}, epollOpen)
  {
    var reg', kernel' := Without(reg, k), kernel - {reg[k].sd};
    forall fd | fd in kernel' ensures Find(reg', fd) < |reg'| {
      FindAfterDelete(reg, next, k, fd);
    }
  }

  lemma EntryLogAfterDelete(log: Trace, reg: Registry, next: nat, k: nat)
    requires TableOk(reg, next) && EntryLogOk(log, reg, next) && k < |reg|
    ensures EntryLogOk(Then(Then(log, KernelRemoved(reg[k].id)), Destructed(reg[k].id)), Without(reg, k), next)
  {
    var e, reg' := reg[k].id, Without(reg, k);
    FindIs(reg, next, k);
    var log1 := Then(log, KernelRemoved(e));
    var log2 := Then(log1, Destructed(e));
    forall id: nat ensures EntryLogAt(log2, InTable(reg', id), next, id) {
      assert EntryLogAt(log, InTable(reg, id), next, id);
      InTableAfterDelete(reg, next, k, id);
      assert Happened(log1, KernelRemoved(id)) == (id == e || Happened(log, KernelRemoved(id)));
      assert Happened(log1, Added(id)) == Happened(log, Added(id));
      assert Happened(log1, Destructed(id)) == Happened(log, Destructed(id));
    }
  }

  // ------------------------------------------------------------ an entry is appended

  lemma TableAfterAdd(reg: Registry, next: nat, e: Row)
    requires TableOk(reg, next) && e.sd >= 0 && e.id >= next
    requires Find(reg, e.sd) == |reg|
    ensures TableOk(reg + [e], e.id + 1)
  {
  }

  lemma FindAfterAdd(reg: Registry, e: Row, sd: int, id: nat)
    requires Find(reg, e.sd) == |reg|
    ensures var k := Find(reg + [e], sd);
            if sd == e.sd then k == |reg| else if Find(reg, sd) < |reg| then k == Find(reg, sd) else k == |reg| + 1
    ensures InTable(reg + [e], id) <==> InTable(reg, id) || id == e.id
  {
    var i, j := Find(reg, sd), FindId(reg, id);
    if i < |reg| { assert (reg + [e])[i] == reg[i]; }
    if j < |reg| { assert (reg + [e])[j] == reg[j]; }
    assert (reg + [e])[|reg|] == e;
  }

  lemma RegisteredAfterAdd(reg: Registry, e: Row, sd: int, client: Client)
    requires Find(reg, e.sd) == |reg|
    ensures sd == e.sd && client == e.client ==> Registered(reg + [e], sd, client)
    ensures Registered(reg, sd, client) ==> Registered(reg + [e], sd, client)
  {
    FindAfterAdd(reg, e, sd, 0);
  }

  lemma UnwatchedIsUnregistered(reg: Registry, kernel: map<int, Interest>, epollOpen: bool, sd: int)
    requires MirrorOk(reg, kernel, epollOpen)
    ensures sd in kernel <==> Find(reg, sd) < |reg|
  {
    var k := Find(reg, sd);
    assert k < |reg| ==> reg[k].sd in kernel;
  }

  lemma MirrorAfterAdd(reg: Registry, kernel: map<int, Interest>, e: Row)
    requires MirrorOk(reg, kernel, true) && e.sd !in kernel && Find(reg, e.sd) == |reg|
    ensures MirrorOk(reg + [e], kernel[e.sd := Interest(e.id, e.mask, true)], true)
  {
    var reg', kernel' := reg + [e], kernel[e.sd := Interest(e.id, e.mask, true)];
    forall i | 0 <= i < |reg'|
      ensures reg'[i].sd in kernel' && kernel'[reg'[i].sd].id == reg'[i].id && kernel'[reg'[i].sd].mask == reg'[i].mask
      ensures ONESHOT in reg'[i].mask || kernel'[reg'[i].sd].armed
    {
      assert i < |reg| ==> reg'[i] == reg[i] && reg[i].sd in kernel;
    }
    forall fd | fd in kernel' ensures Find(reg', fd) < |reg'| {
      assert fd != e.sd ==> Find(reg, fd) < |reg|;
      FindAfterAdd(reg, e, fd, 0);
    }
  }

  lemma EntryLogAfterAdd(log: Trace, reg: Registry, next: nat, e: Row)
    requires EntryLogOk(log, reg, next) && e.id >= next && Find(reg, e.sd) == |reg|
    ensures EntryLogOk(Then(log, Added(e.id)), reg + [e], e.id + 1)
  {
    forall id: nat ensures EntryLogAt(Then(log, Added(e.id)), InTable(reg + [e], id), e.id + 1, id) {
      assert EntryLogAt(log, InTable(reg, id), next, id);
      FindAfterAdd(reg, e, 0, id);
    }
  }
}

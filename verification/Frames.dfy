/** What the steps of io.c that only count references, clear callbacks or change a mask leave as it was. */
module Frames {
  import opened Events
  import opened LoopTable
  import opened World

  /** All other channels are as they were. */
  ghost predicate OthersStay(w: World, p: nat, v: World) {
    forall q :: q != p ==> (q in v.chans <==> q in w.chans) && (q in v.chans ==> v.chans[q] == w.chans[q])
  }

  lemma MuteFrame(w: World, p: nat, side: Side)
    requires p in w.chans
    ensures var v := Mute(w, p, side);
            && v == w.(chans := v.chans) && OthersStay(w, p, v)
            && p in v.chans && v.chans[p] == w.chans[p].Mute(side)
  {
  }

  lemma MuteAllFrame(w: World, p: nat)
    requires p in w.chans
    ensures var v := MuteAll(w, p);
            && v == w.(chans := v.chans) && v.chans.Keys == w.chans.Keys && OthersStay(w, p, v)
            && v.chans[p].descriptor == w.chans[p].descriptor && v.chans[p].refs == w.chans[p].refs
            && v.chans[p].closeOnDestroy == w.chans[p].closeOnDestroy
            && forall side: Side :: v.chans[p].At(side) == w.chans[p].At(side).(callback := 0)
  {
  }

  lemma EnterFrame(w: World, p: nat)
    requires p in w.chans
    ensures var v := Enter(w, p);
            && v == w.(chans := v.chans, frames := w.frames + multiset{p}, log := v.log) && OthersStay(w, p, v)
            && p in v.chans && v.chans[p] == w.chans[p].(refs := w.chans[p].refs + 1) && v.frames[p] > 0
  {
  }

  lemma LeaveFrame(w: World, p: nat)
    requires p in w.chans
    ensures var v := Leave(w, p);
            && v == w.(chans := v.chans, frames := w.frames - multiset{p}, log := v.log) && OthersStay(w, p, v)
            && (p in v.chans ==> v.chans[p] == w.chans[p].(refs := w.chans[p].refs - 1))
  {
  }

  lemma ReleaseFrame(w: World, p: nat)
    requires p in w.chans
    ensures var v := Release(w, p);
            && v == w.(chans := v.chans, owned := w.owned - {p}, log := v.log) && OthersStay(w, p, v)
            && (p in v.chans ==> v.chans[p] == w.chans[p].(refs := w.chans[p].refs - 1))
  {
  }

  /** Entry and watch of a registered descriptor have the mask if epoll granted it; no other has changed. */
  ghost predicate TableFollows(w: World, fd: int, m: Mask, granted: bool, v: World) {
    var k := Find(w.reg, fd);
    if fd >= 0 && k < |w.reg| && granted then
      v.reg == w.reg[k := w.reg[k].(mask := m)] && v.kernel == w.kernel[fd := Interest(w.reg[k].id, m, true)]
    else v.reg == w.reg && v.kernel == w.kernel
  }

  lemma ModifyFrame(w: World, sd: int, m: Mask, granted: bool)
    ensures var v := LoopModify(w, sd, m, granted).0;
            && v == w.(reg := v.reg, kernel := v.kernel, log := v.log) && |v.reg| == |w.reg|
            && TableFollows(w, sd, m, granted, v)
  {
  }

  lemma ReplacedFrame(w: World, p: nat, side: Side, h: Handler)
    requires p in w.chans
    ensures var v := Replaced(w, p, side, h);
            v == w.(chans := w.chans[p := w.chans[p].Put(side, h)], log := v.log)
  {
  }

  lemma GivenUpFrame(w: World, p: nat, side: Side)
    requires p in w.chans
    ensures var v, c := GivenUp(w, p, side), w.chans[p];
            v == w.(log := v.log, chans := w.chans[p := c.Put(side, NO_HANDLER).(events := c.events - {SideBit(side)})])
  {
  }

  lemma SetHandlerRecord(w: World, p: nat, side: Side, h: Handler, granted: bool)
    requires p in w.chans && w.chans[p].descriptor >= 0
    ensures var v := SetHandler(w, p, side, h, granted).0;
            && p in v.chans && v == w.(reg := v.reg, kernel := v.kernel, chans := v.chans, log := v.log)
            && v.chans == w.chans[p := w.chans[p].Put(side, h).(events := v.chans[p].events)] && |v.reg| == |w.reg|
  {
    hide SetHandler, Replaced, LoopModify, TableFollows;
    var c := w.chans[p];
    var m := if h.callback != 0 then c.events + {SideBit(side)} else c.events - {SideBit(side)};
    SetsBy(w, p, side, h, granted, m);
    ReplacedFrame(w, p, side, h);
    ModifyFrame(Replaced(w, p, side, h), c.descriptor, m, granted);
    var c1 := c.Put(side, h);
    assert w.chans[p := c1][p := c1.(events := m)] == w.chans[p := c1.(events := m)];
  }

  lemma SetsBy(w: World, p: nat, side: Side, h: Handler, granted: bool, m: Mask)
    requires p in w.chans && w.chans[p].descriptor >= 0
    requires m == if h.callback != 0 then w.chans[p].events + {SideBit(side)} else w.chans[p].events - {SideBit(side)}
    ensures var w1, c := Replaced(w, p, side, h), w.chans[p];
            var (w2, code) := LoopModify(w1, c.descriptor, m, granted);
            SetHandler(w, p, side, h, granted)
            == if m == c.events then (w1, 1)
               else if code < 0 then (w2, 0)
               else (w2.(chans := w2.chans[p := c.Put(side, h).(events := m)]), 1)
  {
    hide Replaced, LoopModify;
  }

  /** Setting a handler of an open channel; on a closed one it does nothing. */
  lemma SetHandlerFrame(w: World, p: nat, side: Side, h: Handler, granted: bool)
    requires p in w.chans
    ensures var v := SetHandler(w, p, side, h, granted).0;
            && v == w.(reg := v.reg, kernel := v.kernel, chans := v.chans, log := v.log) && |v.reg| == |w.reg|
            && OthersStay(w, p, v) && p in v.chans
            && v.chans[p].descriptor == w.chans[p].descriptor && v.chans[p].refs == w.chans[p].refs
            && (forall other: Side :: other != side ==> v.chans[p].At(other) == w.chans[p].At(other))
  {
    if w.chans[p].descriptor >= 0 { SetHandlerRecord(w, p, side, h, granted); }
    hide SetHandler;
  }

  lemma FinishFrame(w: World, p: nat, side: Side, value: int, granted: bool)
    requires p in w.chans
    ensures var v := Finish(w, p, side, value, granted);
            && v == w.(reg := v.reg, kernel := v.kernel, chans := v.chans, log := v.log) && |v.reg| == |w.reg|
            && OthersStay(w, p, v) && p in v.chans
            && (value == 0 ==>
                  && v.chans[p] == w.chans[p].Put(side, NO_HANDLER).(events := w.chans[p].events - {SideBit(side)})
                  && TableFollows(w, w.chans[p].descriptor, v.chans[p].events, granted, v))
            && (value != 0 ==> v == w.(log := v.log))
  {
    hide LoopModify, Settle, TableFollows;
    var c := w.chans[p];
    var w1 := Note(w, Returned(p, side, c.At(side), value, c.descriptor >= 0));
    ModifyFrame(GivenUp(w1, p, side), c.descriptor, c.events - {SideBit(side)}, granted);
    var v := Finish(w, p, side, 0, granted);
    SameTableFollows(GivenUp(w1, p, side), w, c.descriptor, c.events - {SideBit(side)}, granted, v, v);
  }

  lemma SameTableFollows(u: World, w: World, fd: int, m: Mask, granted: bool, v: World, v': World)
    requires u.reg == w.reg && u.kernel == w.kernel && v.reg == v'.reg && v.kernel == v'.kernel
    ensures TableFollows(u, fd, m, granted, v) <==> TableFollows(w, fd, m, granted, v')
  {
  }
}

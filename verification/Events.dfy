/**
 What a program built on the event loop can be seen to do: the epoll flags and handlers the
 library handles, the observable events, and traces of them.
 */
module Events {

  /** The epoll event bits the library looks at or passes on. */
  datatype Flag = IN | OUT | RDHUP | HUP | ERR | ONESHOT

  /** An epoll mask; `a | b` is `a + b` and `a & ~b` is `a - b`. */
  type Mask = set<Flag>

  /** The three handler positions of an I/O channel. */
  datatype Side = Read | Write | Disconnect

  /** A callback, its user data and the destroyer of that data; 0 is the null pointer. */
  datatype Handler = Handler(callback: nat, data: nat, destroy: nat)

  const NO_HANDLER := Handler(0, 0, 0)

  datatype Event =
      // registry entries, by entry address
    | Added(id: nat)
    | Picked(id: nat)
    | KernelRemoved(id: nat)
    | Destructed(id: nat)
      // channels, by channel address
    | Wrapped(p: nat, fd: int)
    | Opened(p: nat)
    | Released(p: nat)
    | Freed(p: nat)
    | Entered(p: nat)
    | Left(p: nat)
    | Installed(p: nat, side: Side, h: Handler)
    | Called(p: nat, side: Side, h: Handler, open: bool)
    | Returned(p: nat, side: Side, h: Handler, value: int, open: bool)
    | Destroyed(p: nat, side: Side, h: Handler)
    | ChannelClosed(p: nat, fd: int)
    | Detached(p: nat, closing: bool)
      // timers, by timer record address
    | TimerOpened(t: nat, fd: int, data: nat, destructor: nat)
    | Armed(t: nat)
    | Rearmed(t: nat)
    | Fired(t: nat)
    | TimerClosed(t: nat, fd: int)
    | TimerDestroyed(t: nat, data: nat)
    | TimerFreed(t: nat)
      // the loop and the operating system
    | Stopped
    | Denied(fd: int)

  /** A trace grows at its right end. */
  datatype Trace = Start | Then(past: Trace, last: Event)

  predicate Happened(log: Trace, e: Event) {
    log.Then? && (log.last == e || Happened(log.past, e))
  }

  function One(b: bool): nat {
    if b then 1 else 0
  }

  function Times(log: Trace, e: Event): nat {
    if log.Start? then 0 else Times(log.past, e) + One(log.last == e)
  }

  /** The trace with the events after it, in order. */
  function Along(log: Trace, es: seq<Event>): Trace
    decreases |es|
  {
    if es == [] then log else Along(Then(log, es[0]), es[1..])
  }

  /** The entries whose destructors have run, in order. */
  function Endings(log: Trace): seq<nat> {
    if log.Start? then []
    else if log.last.Destructed? then Endings(log.past) + [log.last.id]
    else Endings(log.past)
  }

  lemma {:induction false} AlongTwice(log: Trace, a: seq<Event>, b: seq<Event>)
    ensures Along(log, a + b) == Along(Along(log, a), b)
    decreases |a|
  {
    if a == [] {
      assert a + b == b;
    } else {
      assert (a + b)[1..] == a[1..] + b;
      AlongTwice(Then(log, a[0]), a[1..], b);
    }
  }

  lemma AlongOne(log: Trace, e: Event)
    ensures Along(log, [e]) == Then(log, e)
  {
    assert [e][1..] == [];
    assert Along(Then(log, e), []) == Then(log, e);
  }

  predicate AnyDenied(log: Trace) {
    log.Then? && (log.last.Denied? || AnyDenied(log.past))
  }

  /** A destroyer that is to be called on its data. */
  datatype Debt = Debt(destroy: nat, data: nat)

  /** How often installing the handler obliges the library to pay the debt; not at all without a destroyer. */
  function Owes(h: Handler, d: Debt): nat {
    One(h.destroy != 0 && d == Debt(h.destroy, h.data))
  }

  /** A callback that finds its channel closed and still answers 0. */
  predicate StaleReturn(e: Event) {
    e.Returned? && e.value == 0 && !e.open && e.h.destroy != 0
  }

  /** How often the debt was taken on at a position of a channel. */
  function Installs(log: Trace, p: nat, side: Side, d: Debt): nat {
    if log.Start? then 0
    else Installs(log.past, p, side, d)
         + match log.last case Installed(q, s, h) => Here(q, s, h, p, side, d) case _ => 0
  }

  /** How often the destroyer was called on the data on behalf of that position. */
  function Destroys(log: Trace, p: nat, side: Side, d: Debt): nat {
    if log.Start? then 0
    else Destroys(log.past, p, side, d)
         + match log.last case Destroyed(q, s, h) => Here(q, s, h, p, side, d) case _ => 0
  }

  /** How often a callback at that position gave up a handler whose channel had been closed already. */
  function Stales(log: Trace, p: nat, side: Side, d: Debt): nat {
    if log.Start? then 0
    else Stales(log.past, p, side, d)
         + match log.last
           case Returned(q, s, h, value, open) => if value == 0 && !open then Here(q, s, h, p, side, d) else 0
           case _ => 0
  }

  function Here(q: nat, s: Side, h: Handler, p: nat, side: Side, d: Debt): nat {
    if q == p && s == side then Owes(h, d) else 0
  }

  /** The descriptor the channel was made for. */
  function FdOf(log: Trace, p: nat): int {
    if log.Start? then -1
    else if log.last.Wrapped? && log.last.p == p then log.last.fd
    else FdOf(log.past, p)
  }

  /** How often io_destroy_callback has run for the channel. */
  function Detachments(log: Trace, p: nat): nat {
    Times(log, Detached(p, true)) + Times(log, Detached(p, false))
  }

  /** What a timer was made with. */
  datatype Making = Unmade | Made(fd: int, data: nat, destructor: nat)

  function MakingOf(log: Trace, t: nat): Making {
    if log.Start? then Unmade
    else if log.last.TimerOpened? && log.last.t == t then Made(log.last.fd, log.last.data, log.last.destructor)
    else MakingOf(log.past, t)
  }

  /** A client's entry is allocated right after its own record. */
  function EntryOf(address: nat): nat {
    address + 1
  }

  /** How often the loop was asked to watch for the timer, with success. */
  function Armings(log: Trace, t: nat): nat {
    One(Happened(log, Added(EntryOf(t)))) + Times(log, Rearmed(t))
  }

  predicate NoStaleReturn(log: Trace) {
    log.Then? ==> !StaleReturn(log.last) && NoStaleReturn(log.past)
  }

  /** What must already have happened, or must not, when an event happens. */
  predicate Allowed(past: Trace, e: Event) {
    match e
    case Added(id) => !Happened(past, Added(id))
    case Picked(id) => Happened(past, Added(id)) && !Happened(past, Destructed(id))
    case KernelRemoved(id) => Happened(past, Added(id)) && !Happened(past, KernelRemoved(id))
    case Destructed(id) => Happened(past, KernelRemoved(id)) && !Happened(past, Destructed(id))
    case Wrapped(p, _) => !Happened(past, Opened(p))
    case Opened(p) => !Happened(past, Opened(p))
    case Released(p) => Happened(past, Opened(p)) && !Happened(past, Released(p))
    case Freed(p) =>
      && Happened(past, Released(p))
      && !Happened(past, Freed(p))
      && Times(past, Entered(p)) == Times(past, Left(p))
    case Entered(p) => Happened(past, Opened(p)) && !Happened(past, Freed(p))
    case Left(p) => Times(past, Left(p)) < Times(past, Entered(p))
    case Installed(p, _, _) => Happened(past, Opened(p)) && !Happened(past, Released(p))
    case Called(p, _, h, open) =>
      && h.callback != 0
      && Happened(past, Opened(p))
      && !Happened(past, Released(p))
      && (open <==> !Happened(past, Stopped))
    case Returned(p, _, _, _, _) => Happened(past, Opened(p)) && !Happened(past, Freed(p))
    case Destroyed(p, _, h) => h.destroy != 0 && Happened(past, Opened(p)) && !Happened(past, Freed(p))
    case ChannelClosed(p, fd) => Detachments(past, p) == 0 && Times(past, ChannelClosed(p, fd)) == 0
    case Detached(p, _) => Detachments(past, p) == 0 && Happened(past, Opened(p)) && !Happened(past, Freed(p))
    case TimerOpened(t, _, _, _) => MakingOf(past, t).Unmade?
    case Fired(t) =>
      && Times(past, Fired(t)) < Times(past, Armed(t))
      && Times(past, Fired(t)) < Armings(past, t)
      && !Happened(past, TimerFreed(t))
    case TimerClosed(t, fd) => Times(past, TimerClosed(t, fd)) == 0 && !Happened(past, TimerFreed(t))
    case TimerDestroyed(t, data) =>
      Times(past, TimerDestroyed(t, data)) == 0 && !Happened(past, TimerFreed(t))
    case TimerFreed(t) => !Happened(past, TimerFreed(t))
    case _ => true
  }

  /** Every event of the trace was allowed when it happened. */
  predicate Lawful(log: Trace) {
    log.Then? ==> Lawful(log.past) && Allowed(log.past, log.last)
  }
}

/**
 * The backtest driver loop of pytech/backtest/backtest.py: pull one bar at a
 * time from the data handler, then drain the shared FIFO event queue,
 * dispatching every event to its handler and counting signals, orders and
 * fills.
 *
 * The collaborators (strategy, portfolio, execution handler, data handler)
 * are not part of this model: each handler is given as the entries it puts
 * on the queue for an event, and the data handler as the finite sequence of
 * entries it puts on the queue for each bar.
 */
module Backtesting {
  import opened Wrappers

  /** The event types the dispatcher tells apart; OtherType is any other value. */
  datatype EventType = Market | Signal | Trade | Fill | OtherType

  /** An event; payload stands for the fields only the collaborators read. */
  datatype Event = Event(eventType: EventType, payload: int)

  /** A queue entry: the driver dequeues None entries and skips them. */
  type Entry = Option<Event>

  /** The collaborators' handlers, each as the entries it puts on the queue. */
  datatype Handlers = Handlers(
    generateSignals: Event -> seq<Entry>,
    updateTimeindex: Event -> seq<Entry>,
    updateSignal: Event -> seq<Entry>,
    executeOrder: Event -> seq<Entry>,
    updateFill: Event -> seq<Entry>)

  /** The handler names: strategy.generate_signals, portfolio.update_timeindex, ... */
  datatype Handler = GenerateSignals | UpdateTimeindex | UpdateSignal | ExecuteOrder | UpdateFill

  /** One call of a handler on an event. */
  datatype Call = Call(handler: Handler, event: Event)

  /** The handler calls _process_event makes for a dequeued entry, in order. */
  function CallsFor(x: Entry): (cs: seq<Call>)
    ensures x.None? || IsOfType(x, OtherType) ==> cs == []
    ensures IsOfType(x, Market) ==> |cs| == 2 && cs[0].handler == GenerateSignals && cs[1].handler == UpdateTimeindex
    ensures IsOfType(x, Signal) ==> |cs| == 1 && cs[0].handler == UpdateSignal
    ensures IsOfType(x, Trade) ==> |cs| == 1 && cs[0].handler == ExecuteOrder
    ensures IsOfType(x, Fill) ==> |cs| == 1 && cs[0].handler == UpdateFill
    ensures forall i :: 0 <= i < |cs| ==> cs[i].event == x.value
  {
    match x
    case None => []
    case Some(e) =>
      match e.eventType
      case Market => [Call(GenerateSignals, e), Call(UpdateTimeindex, e)]
      case Signal => [Call(UpdateSignal, e)]
      case Trade => [Call(ExecuteOrder, e)]
      case Fill => [Call(UpdateFill, e)]
      case OtherType => []
  }

  /** What one handler call puts on the queue. */
  function Output(h: Handlers, c: Call): seq<Entry> {
    match c.handler
    case GenerateSignals => h.generateSignals(c.event)
    case UpdateTimeindex => h.updateTimeindex(c.event)
    case UpdateSignal => h.updateSignal(c.event)
    case ExecuteOrder => h.executeOrder(c.event)
    case UpdateFill => h.updateFill(c.event)
  }

  /** What a sequence of handler calls puts on the queue, in call order. */
  function Outputs(h: Handlers, cs: seq<Call>): seq<Entry> {
    if cs == [] then [] else Output(h, cs[0]) + Outputs(h, cs[1..])
  }

  /** What processing one dequeued entry puts on the queue. */
  function Pushed(h: Handlers, x: Entry): seq<Entry> {
    Outputs(h, CallsFor(x))
  }

  /** The handler calls made for a sequence of dequeued entries. */
  function CallLog(log: seq<Entry>): seq<Call> {
    if log == [] then [] else CallsFor(log[0]) + CallLog(log[1..])
  }

  /** What processing a sequence of dequeued entries puts on the queue. */
  function PushedAll(h: Handlers, log: seq<Entry>): seq<Entry> {
    if log == [] then [] else Pushed(h, log[0]) + PushedAll(h, log[1..])
  }

  /** Does this entry hold an event of type t? */
  predicate IsOfType(x: Entry, t: EventType) {
    x.Some? && x.value.eventType == t
  }

  /** The number of events of type t among the entries. */
  function CountOf(log: seq<Entry>, t: EventType): nat {
    if log == [] then 0 else (if IsOfType(log[0], t) then 1 else 0) + CountOf(log[1..], t)
  }

  /** One entry counts towards type t exactly when it is an event of type t. */
  lemma CountOfOne(x: Entry, t: EventType)
    ensures CountOf([x], t) == if IsOfType(x, t) then 1 else 0
  {
    assert [x][1..] == [];
  }

  /** The number of None entries. */
  function CountNone(log: seq<Entry>): nat {
    if log == [] then 0 else (if log[0].None? then 1 else 0) + CountNone(log[1..])
  }

  lemma {:induction false} CountOfAppend(a: seq<Entry>, b: seq<Entry>, t: EventType)
    ensures CountOf(a + b, t) == CountOf(a, t) + CountOf(b, t)
  {
    if a == [] {
      assert a + b == b;
    } else {
      assert (a + b)[0] == a[0];
      assert (a + b)[1..] == a[1..] + b;
      CountOfAppend(a[1..], b, t);
    }
  }

  lemma {:induction false} CallLogAppend(a: seq<Entry>, b: seq<Entry>)
    ensures CallLog(a + b) == CallLog(a) + CallLog(b)
  {
    if a == [] {
      assert a + b == b;
    } else {
      assert (a + b)[0] == a[0];
      assert (a + b)[1..] == a[1..] + b;
      CallLogAppend(a[1..], b);
    }
  }

  /**
   * Every dequeued entry is exactly one of: a SIGNAL, TRADE or FILL event
   * (the three that are counted), a MARKET event, an event of another type,
   * or None.
   */
  lemma {:induction false} EntriesPartition(log: seq<Entry>)
    ensures CountOf(log, Signal) + CountOf(log, Trade) + CountOf(log, Fill)
      + CountOf(log, Market) + CountOf(log, OtherType) + CountNone(log) == |log|
  {
    if log != [] {
      EntriesPartition(log[1..]);
    }
  }

  /*
   * Termination of the drain. The source does not bound how many events a
   * handler may push, so nothing in it guarantees that the drain ends. The
   * model assumes the causal order of a backtest: a handler only pushes
   * entries of a strictly later rank than the event it handles (MARKET,
   * then SIGNAL, then TRADE, then FILL, then None and other types).
   */

  function Rank(x: Entry): nat {
    match x
    case None => 4
    case Some(e) =>
      match e.eventType
      case Market => 0
      case Signal => 1
      case Trade => 2
      case Fill => 3
      case OtherType => 4
  }

  /** Handling e pushes only entries of a later rank than e. */
  ghost predicate PushesLater(h: Handlers, e: Event) {
    forall i :: 0 <= i < |Pushed(h, Some(e))| ==> Rank(Some(e)) < Rank(Pushed(h, Some(e))[i])
  }

  /** Handlers only ever push entries of a later rank than the event handled. */
  ghost predicate Causal(h: Handlers) {
    forall e: Event :: PushesLater(h, e)
  }

  /** The number of entries of rank k. */
  function CountRank(q: seq<Entry>, k: nat): nat {
    if q == [] then 0 else (if Rank(q[0]) == k then 1 else 0) + CountRank(q[1..], k)
  }

  lemma {:induction false} CountRankAppend(a: seq<Entry>, b: seq<Entry>, k: nat)
    ensures CountRank(a + b, k) == CountRank(a, k) + CountRank(b, k)
  {
    if a == [] {
      assert a + b == b;
    } else {
      assert (a + b)[0] == a[0];
      assert (a + b)[1..] == a[1..] + b;
      CountRankAppend(a[1..], b, k);
    }
  }

  lemma {:induction false} CountRankAbove(q: seq<Entry>, r: nat, k: nat)
    requires forall i :: 0 <= i < |q| ==> r < Rank(q[i])
    requires k <= r
    ensures CountRank(q, k) == 0
  {
    if q != [] {
      CountRankAbove(q[1..], r, k);
    }
  }

  /**
   * One step of the drain lowers the rank counts lexicographically: counts
   * below the head's rank stay, the count at its rank drops by one.
   */
  lemma DrainStepDecreases(h: Handlers, q: seq<Entry>)
    requires Causal(h) && q != []
    ensures var r, next := Rank(q[0]), q[1..] + Pushed(h, q[0]);
      r <= 4 &&
      (forall k: nat :: k < r ==> CountRank(next, k) == CountRank(q, k)) &&
      CountRank(next, r) + 1 == CountRank(q, r)
  {
    var r, p := Rank(q[0]), Pushed(h, q[0]);
    assert q == [q[0]] + q[1..];
    PushedIsLater(h, q[0]);
    forall k: nat | k <= r
      ensures CountRank(q[1..] + p, k) + (if k == r then 1 else 0) == CountRank(q, k)
    {
      CountRankAppend(q[1..], p, k);
      CountRankAbove(p, r, k);
    }
  }

  /** Causal, for one entry: None and other types push nothing. */
  lemma PushedIsLater(h: Handlers, x: Entry)
    requires Causal(h)
    ensures forall i :: 0 <= i < |Pushed(h, x)| ==> Rank(x) < Rank(Pushed(h, x)[i])
  {
    if x.None? {
      assert Pushed(h, x) == [];
    } else {
      assert PushesLater(h, x.value);
    }
  }

  /**
   * The entries dequeued, in order, by draining a queue that starts as q
   * until it is empty; processed entries push their handlers' output at the
   * tail. The queue's own entries come first.
   */
  function DrainFrom(h: Handlers, q: seq<Entry>): seq<Entry>
    requires Causal(h)
    decreases CountRank(q, 0), CountRank(q, 1), CountRank(q, 2), CountRank(q, 3), CountRank(q, 4)
  {
    if q == [] then []
    else
      DrainStepDecreases(h, q);
      [q[0]] + DrainFrom(h, q[1..] + Pushed(h, q[0]))
  }

  /**
   * The drain is FIFO: what it dequeues is exactly the initial queue followed
   * by everything the dequeued entries pushed, in the order they pushed it.
   * So every entry pushed while draining is handled in the same drain.
   */
  lemma {:induction false} DrainIsFifo(h: Handlers, q: seq<Entry>)
    requires Causal(h)
    ensures DrainFrom(h, q) == q + PushedAll(h, DrainFrom(h, q))
    decreases CountRank(q, 0), CountRank(q, 1), CountRank(q, 2), CountRank(q, 3), CountRank(q, 4)
  {
    if q != [] {
      DrainStepDecreases(h, q);
      DrainIsFifo(h, q[1..] + Pushed(h, q[0]));
      FifoStep(h, q);
    }
  }

  /** The inductive step of DrainIsFifo: if the rest of the drain is FIFO, so is the whole. */
  lemma FifoStep(h: Handlers, q: seq<Entry>)
    requires Causal(h) && q != []
    requires var next := q[1..] + Pushed(h, q[0]);
      DrainFrom(h, next) == next + PushedAll(h, DrainFrom(h, next))
    ensures DrainFrom(h, q) == q + PushedAll(h, DrainFrom(h, q))
  {
    var rest := DrainFrom(h, q[1..] + Pushed(h, q[0]));
    DrainUnfold(h, q);
    PushedAllCons(h, q[0], rest);
    Regroup(q, Pushed(h, q[0]), PushedAll(h, rest), rest);
  }

  lemma OutputsCons(h: Handlers, c: Call, cs: seq<Call>)
    ensures Outputs(h, [c] + cs) == Output(h, c) + Outputs(h, cs)
  {
    assert ([c] + cs)[1..] == cs;
  }

  lemma PushedOne(h: Handlers, e: Event, c: Call)
    requires CallsFor(Some(e)) == [c]
    ensures Pushed(h, Some(e)) == Output(h, c)
  {
    OutputsCons(h, c, []);
    assert [c] + [] == [c];
  }

  lemma PushedTwo(h: Handlers, e: Event, c: Call, d: Call)
    requires CallsFor(Some(e)) == [c, d]
    ensures Pushed(h, Some(e)) == Output(h, c) + Output(h, d)
  {
    OutputsCons(h, c, [d]);
    OutputsCons(h, d, []);
    assert [c, d] == [c] + [d] && [d] + [] == [d];
  }

  /** The sequence algebra of FifoStep, apart from the functions it is about. */
  lemma Regroup<T>(q: seq<T>, p: seq<T>, pa: seq<T>, rest: seq<T>)
    requires q != [] && rest == (q[1..] + p) + pa
    ensures [q[0]] + rest == q + (p + pa)
  {
    assert q == [q[0]] + q[1..];
  }

  lemma DrainUnfold(h: Handlers, q: seq<Entry>)
    requires Causal(h) && q != []
    ensures DrainFrom(h, q) == [q[0]] + DrainFrom(h, q[1..] + Pushed(h, q[0]))
  {
  }

  lemma PushedAllCons(h: Handlers, x: Entry, rest: seq<Entry>)
    ensures PushedAll(h, [x] + rest) == Pushed(h, x) + PushedAll(h, rest)
  {
    assert ([x] + rest)[1..] == rest;
  }

  /**
   * The entries a run dequeues: pending is what the queue holds when the run
   * starts, bars what the data handler still has to deliver. Each bar is
   * drained completely before the next is requested.
   */
  function RunLog(h: Handlers, pending: seq<Entry>, bars: seq<seq<Entry>>): seq<Entry>
    requires Causal(h)
    decreases |bars|
  {
    if bars == [] then [] else DrainFrom(h, pending + bars[0]) + RunLog(h, [], bars[1..])
  }

  /**
   * The progress of a run bar by bar, as the driver accumulates it: the
   * pending entries and the first bar are drained, then every later bar on
   * its own.
   */
  function Played(h: Handlers, p: Progress, pending: seq<Entry>, bars: seq<seq<Entry>>): Progress
    requires Causal(h)
    decreases |bars|
  {
    if bars == [] then p else Played(h, Advance(p, DrainFrom(h, pending + bars[0])), [], bars[1..])
  }

  /** Accumulating bar by bar is the same as processing the whole run log at once. */
  lemma {:induction false} PlayedIsRunLog(h: Handlers, p: Progress, pending: seq<Entry>, bars: seq<seq<Entry>>)
    requires Causal(h)
    ensures Played(h, p, pending, bars) == Advance(p, RunLog(h, pending, bars))
    decreases |bars|
  {
    if bars == [] {
      AdvanceNothing(p);
    } else {
      var first := DrainFrom(h, pending + bars[0]);
      PlayedIsRunLog(h, Advance(p, first), [], bars[1..]);
      AdvanceAppend(p, first, RunLog(h, [], bars[1..]));
    }
  }

  lemma {:induction false} RunLogSnoc(h: Handlers, pending: seq<Entry>, bars: seq<seq<Entry>>, bar: seq<Entry>)
    requires Causal(h)
    ensures RunLog(h, pending, bars + [bar])
      == RunLog(h, pending, bars) + DrainFrom(h, (if bars == [] then pending else []) + bar)
    decreases |bars|
  {
    if bars == [] {
      assert RunLog(h, pending, [bar]) == DrainFrom(h, pending + bar) + RunLog(h, [], []);
    } else {
      var longer := bars + [bar];
      assert longer[0] == bars[0] && longer[1..] == bars[1..] + [bar];
      assert RunLog(h, pending, longer) == DrainFrom(h, pending + bars[0]) + RunLog(h, [], bars[1..] + [bar]);
      RunLogSnoc(h, [], bars[1..], bar);
      assert [] + bar == bar;
      assert RunLog(h, pending, bars) == DrainFrom(h, pending + bars[0]) + RunLog(h, [], bars[1..]);
    }
  }

  /**
   * A run's log is the pending entries, then every bar's entries, with all
   * their consequences, each bar's entries after the previous bar's
   * consequences.
   */
  lemma {:induction false} RunLogIsBarByBar(h: Handlers, pending: seq<Entry>, bars: seq<seq<Entry>>)
    requires Causal(h) && bars != []
    ensures pending + bars[0] <= RunLog(h, pending, bars)
  {
    var q := pending + bars[0];
    DrainIsFifo(h, q);
    var pushed, later := PushedAll(h, DrainFrom(h, q)), RunLog(h, [], bars[1..]);
    assert RunLog(h, pending, bars) == (q + pushed) + later;
    PrefixOfAppend(q, pushed, later);
  }

  /** The shared queue.Queue, single-threaded. */
  class EventQueue {
    var items: seq<Entry>

    constructor ()
      ensures items == []
    {
      items := [];
    }

    /** put, once per entry. */
    method Put(xs: seq<Entry>)
      modifies this
      ensures items == old(items) + xs
    {
      items := items + xs;
    }

    /** get(False): the head, or queue.Empty when there is none. */
    method Get() returns (empty: bool, x: Entry)
      modifies this
      ensures empty <==> old(items) == []
      ensures empty ==> items == old(items)
      ensures !empty ==> x == old(items)[0] && items == old(items)[1..]
    {
      if items == [] {
        empty, x := true, None;
      } else {
        empty, x := false, items[0];
        items := items[1..];
      }
    }
  }

  /** The data handler: a finite feed of bars, each putting its entries on the queue. */
  class BarFeed {
    const events: EventQueue
    const bars: seq<seq<Entry>>
    var cursor: nat

    constructor (events: EventQueue, bars: seq<seq<Entry>>)
      ensures this.events == events && this.bars == bars && cursor == 0
    {
      this.events := events;
      this.bars := bars;
      cursor := 0;
    }

    /** update_bars: deliver the next bar, or raise StopIteration when there is none. */
    method UpdateBars() returns (stopIteration: bool)
      modifies this, events
      ensures stopIteration <==> old(cursor) >= |bars|
      ensures stopIteration ==> cursor == old(cursor) && events.items == old(events.items)
      ensures !stopIteration ==>
        cursor == old(cursor) + 1 && events.items == old(events.items) + bars[old(cursor)]
    {
      if cursor >= |bars| {
        return true;
      }
      events.Put(bars[cursor]);
      cursor := cursor + 1;
      stopIteration := false;
    }
  }

  /** What the driver has done so far: entries taken off the queue, handler calls, counters. */
  datatype Progress = Tally(dequeued: seq<Entry>, calls: seq<Call>, signals: nat, orders: nat, fills: nat)

  /** The progress after the driver takes the entries of log off the queue and processes them. */
  function Advance(p: Progress, log: seq<Entry>): Progress {
    Tally(p.dequeued + log, p.calls + CallLog(log),
             p.signals + CountOf(log, Signal), p.orders + CountOf(log, Trade), p.fills + CountOf(log, Fill))
  }

  /**
   * The bookkeeping invariant: the calls are the calls due for the dequeued
   * entries, and each counter is the number of dequeued events of its type.
   */
  predicate Counted(p: Progress) {
    p.calls == CallLog(p.dequeued) && p.signals == CountOf(p.dequeued, Signal)
    && p.orders == CountOf(p.dequeued, Trade) && p.fills == CountOf(p.dequeued, Fill)
  }

  /** Processing more entries keeps the counters and the call log in step with what was dequeued. */
  lemma AdvanceKeepsCounted(p: Progress, log: seq<Entry>)
    requires Counted(p)
    ensures Counted(Advance(p, log))
    ensures Advance(p, log).signals >= p.signals && Advance(p, log).orders >= p.orders
    ensures Advance(p, log).fills >= p.fills
  {
    CallLogAppend(p.dequeued, log);
    CountOfAppend(p.dequeued, log, Signal);
    CountOfAppend(p.dequeued, log, Trade);
    CountOfAppend(p.dequeued, log, Fill);
  }

  lemma AdvanceAppend(p: Progress, a: seq<Entry>, b: seq<Entry>)
    ensures Advance(Advance(p, a), b) == Advance(p, a + b)
  {
    CallLogAppend(a, b);
    CountOfAppend(a, b, Signal);
    CountOfAppend(a, b, Trade);
    CountOfAppend(a, b, Fill);
    Assoc(p.dequeued, a, b);
    Assoc(p.calls, CallLog(a), CallLog(b));
  }

  /**
   * One turn of the draining loop: taking the head off a non-empty queue and
   * putting back what processing it pushes leaves the rest of the drain
   * unchanged and strictly shorter.
   */
  lemma DrainLoopStep(h: Handlers, orig: seq<Entry>, log: seq<Entry>, q: seq<Entry>)
    requires Causal(h) && q != []
    requires log + DrainFrom(h, q) == DrainFrom(h, orig)
    ensures (log + [q[0]]) + DrainFrom(h, q[1..] + Pushed(h, q[0])) == DrainFrom(h, orig)
    ensures |DrainFrom(h, q[1..] + Pushed(h, q[0]))| < |DrainFrom(h, q)|
  {
    DrainUnfold(h, q);
    Regroup1(log, q[0], DrainFrom(h, q[1..] + Pushed(h, q[0])));
  }

  /** Taking one entry off the queue: it is logged, then processed as CallsFor says. */
  lemma AdvanceOne(p: Progress, x: Entry)
    ensures Advance(p, [x]) == Tally(p.dequeued + [x], p.calls + CallsFor(x),
      p.signals + CountOf([x], Signal), p.orders + CountOf([x], Trade), p.fills + CountOf([x], Fill))
  {
    assert [x][1..] == [];
    assert CallLog([x]) == CallsFor(x) + CallLog([]);
    assert CallsFor(x) + [] == CallsFor(x);
  }

  lemma AdvanceNothing(p: Progress)
    ensures Advance(p, []) == p
  {
    assert p.dequeued + [] == p.dequeued && p.calls + [] == p.calls;
  }

  class Backtest {
    const handlers: Handlers
    const events: EventQueue
    const dataHandler: BarFeed
    var signals: nat
    var orders: nat
    var fills: nat
    /** Every entry taken off the queue, in order. */
    ghost var dequeued: seq<Entry>
    /** Every handler call made, in order. */
    ghost var calls: seq<Call>

    ghost predicate Valid()
      reads this, dataHandler
    {
      dataHandler.events == events && dataHandler.cursor <= |dataHandler.bars|
    }

    ghost function Progress(): Progress
      reads this
    {
      Tally(dequeued, calls, signals, orders, fills)
    }

    /** __init__: an empty queue, all counters at zero. */
    constructor (handlers: Handlers, bars: seq<seq<Entry>>)
      ensures Valid() && fresh(events) && fresh(dataHandler)
      ensures this.handlers == handlers && dataHandler.bars == bars && dataHandler.cursor == 0
      ensures events.items == [] && signals == 0 && orders == 0 && fills == 0
      ensures dequeued == [] && calls == [] && Counted(Progress())
    {
      this.handlers := handlers;
      var queue := new EventQueue();
      events := queue;
      dataHandler := new BarFeed(queue, bars);
      signals, orders, fills := 0, 0, 0;
      dequeued, calls := [], [];
    }

    /** One handler call: record it and put its output on the queue. */
    method Invoke(handler: Handler, e: Event)
      modifies this, events
      ensures calls == old(calls) + [Call(handler, e)]
      ensures events.items == old(events.items) + Output(handlers, Call(handler, e))
      ensures signals == old(signals) && orders == old(orders) && fills == old(fills)
      ensures dequeued == old(dequeued)
    {
      calls := calls + [Call(handler, e)];
      events.Put(Output(handlers, Call(handler, e)));
    }

    /**
     * _process_event: MARKET calls generate_signals then update_timeindex;
     * SIGNAL, TRADE and FILL bump their own counter, then call their handler;
     * any other type does nothing.
     */
    method ProcessEvent(e: Event)
      modifies this, events
      ensures calls == old(calls) + CallsFor(Some(e))
      ensures events.items == old(events.items) + Pushed(handlers, Some(e))
      ensures signals == old(signals) + CountOf([Some(e)], Signal)
      ensures orders == old(orders) + CountOf([Some(e)], Trade)
      ensures fills == old(fills) + CountOf([Some(e)], Fill)
      ensures dequeued == old(dequeued)
    {
      match e.eventType
      case Market =>
        PushedTwo(handlers, e, Call(GenerateSignals, e), Call(UpdateTimeindex, e));
        Invoke(GenerateSignals, e);
        Invoke(UpdateTimeindex, e);
      case Signal =>
        PushedOne(handlers, e, Call(UpdateSignal, e));
        signals := signals + 1;
        Invoke(UpdateSignal, e);
      case Trade =>
        PushedOne(handlers, e, Call(ExecuteOrder, e));
        orders := orders + 1;
        Invoke(ExecuteOrder, e);
      case Fill =>
        PushedOne(handlers, e, Call(UpdateFill, e));
        fills := fills + 1;
        Invoke(UpdateFill, e);
      case OtherType =>
    }

    /**
     * One turn of the inner loop of run: get(False), and process the entry
     * unless it is None. Reports whether the queue raised Empty instead.
     */
    method ProcessNext() returns (empty: bool)
      modifies this, events
      ensures empty <==> old(events.items) == []
      ensures empty ==> events.items == old(events.items) && Progress() == old(Progress())
      ensures !empty ==> events.items == old(events.items)[1..] + Pushed(handlers, old(events.items)[0])
      ensures !empty ==> Progress() == Advance(old(Progress()), [old(events.items)[0]])
    {
      ghost var p := Progress();
      var x;
      empty, x := events.Get();
      if empty {
        return;
      }
      AdvanceOne(p, x);
      dequeued := dequeued + [x];
      if x.Some? {
        ProcessEvent(x.value);
      } else {
        assert calls == p.calls + CallsFor(x);
      }
    }

    /**
     * The inner loop of run: process entries until the queue reports Empty.
     * Entries pushed meanwhile are drained too.
     */
    method DrainEvents()
      requires Causal(handlers)
      modifies this, events
      ensures events.items == []
      ensures Progress() == Advance(old(Progress()), DrainFrom(handlers, old(events.items)))
    {
      ghost var start := Progress();
      ghost var log: seq<Entry> := [];
      AdvanceNothing(start);
      while true
        invariant log + DrainFrom(handlers, events.items) == DrainFrom(handlers, old(events.items))
        invariant Progress() == Advance(start, log)
        decreases |DrainFrom(handlers, events.items)|
      {
        ghost var before := events.items;
        var empty := ProcessNext();
        if empty {
          break;
        }
        DrainLoopStep(handlers, old(events.items), log, before);
        AdvanceAppend(start, log, [before[0]]);
        log := log + [before[0]];
      }
      assert log + [] == log;
    }

    /**
     * One turn of the outer loop of run: update_bars, then, unless it raised
     * StopIteration, drain the queue.
     */
    method PlayBar() returns (stopIteration: bool)
      requires Valid() && Causal(handlers)
      modifies this, events, dataHandler
      ensures Valid()
      ensures stopIteration <==> old(dataHandler.cursor) == |dataHandler.bars|
      ensures stopIteration ==> dataHandler.cursor == old(dataHandler.cursor)
      ensures stopIteration ==> events.items == old(events.items) && Progress() == old(Progress())
      ensures !stopIteration ==> dataHandler.cursor == old(dataHandler.cursor) + 1 && events.items == []
      ensures !stopIteration ==> (Progress() ==
        Advance(old(Progress()), DrainFrom(handlers, old(events.items) + dataHandler.bars[old(dataHandler.cursor)])))
    {
      stopIteration := dataHandler.UpdateBars();
      if !stopIteration {
        DrainEvents();
      }
    }

    /**
     * run: request bars until the data handler raises StopIteration, draining
     * the queue completely after each bar. Returns the iteration count the
     * source keeps in a local.
     */
    method Run() returns (iterations: nat)
      requires Valid() && Causal(handlers)
      modifies this, events, dataHandler
      ensures Valid()
      ensures dataHandler.cursor == |dataHandler.bars|
      ensures iterations == |dataHandler.bars| - old(dataHandler.cursor) + 1
      ensures events.items == if old(dataHandler.cursor) < |dataHandler.bars| then [] else old(events.items)
      ensures Progress() == Advance(old(Progress()),
        RunLog(handlers, old(events.items), dataHandler.bars[old(dataHandler.cursor)..]))
    {
      ghost var pending := events.items;
      ghost var first := dataHandler.cursor;
      ghost var bars := dataHandler.bars;
      ghost var start := Progress();
      iterations := 0;
      while true
        invariant Valid() && dataHandler.bars == bars
        invariant first <= dataHandler.cursor <= |bars|
        invariant iterations == dataHandler.cursor - first
        invariant events.items == if iterations == 0 then pending else []
        invariant Played(handlers, Progress(), events.items, bars[dataHandler.cursor..])
          == Played(handlers, start, pending, bars[first..])
        decreases |bars| - dataHandler.cursor
      {
        ghost var p := Progress();
        ghost var queued := events.items;
        ghost var cur := dataHandler.cursor;
        iterations := iterations + 1;
        var stopIteration := PlayBar();
        if stopIteration {
          break;
        }
        PlayedStep(handlers, p, queued, bars, cur);
      }
      assert bars[dataHandler.cursor..] == [];
      PlayedIsRunLog(handlers, start, pending, bars[first..]);
    }
  }

  /** One turn of run's outer loop: the next bar is drained behind what the queue holds. */
  lemma PlayedStep(h: Handlers, p: Progress, q: seq<Entry>, bars: seq<seq<Entry>>, cur: nat)
    requires Causal(h) && cur < |bars|
    ensures Played(h, p, q, bars[cur..]) == Played(h, Advance(p, DrainFrom(h, q + bars[cur])), [], bars[cur + 1..])
  {
    assert bars[cur..][0] == bars[cur] && bars[cur..][1..] == bars[cur + 1..];
  }

  lemma PrefixOfAppend<T>(q: seq<T>, a: seq<T>, b: seq<T>)
    ensures q <= (q + a) + b
  {
    assert (q + a) + b == q + (a + b);
  }

  lemma Assoc<T>(a: seq<T>, b: seq<T>, c: seq<T>)
    ensures (a + b) + c == a + (b + c)
  {
  }

  lemma Regroup1<T>(log: seq<T>, x: T, rest: seq<T>)
    ensures (log + [x]) + rest == log + ([x] + rest)
  {
  }
}

/** The per-connection Watcher of internal/pkg/httpsrv/watcher.go: a counter
    engine fed through a capacity-1 inbound channel of signals, publishing a
    pointer to its one Counter on a capacity-1 outbound channel.

    The goroutine, the channels and the locks only carry the behaviour; what
    they implement is the state machine below. Each public method and each
    pass of the background loop is one atomic `Step`. The 100 ms ticker is the
    `abandoned` choice of a loop pass and the `Ticked` event. The uuid is a
    constructor parameter. */
module Watcher {
  import opened Wrappers

  /** Both channels are made with `make(chan ..., 1)`. */
  const SlotCapacity: nat := 1

  /** Abstract state of one Watcher.
      `inbox`     the signals buffered in the inbound channel;
      `published` how many Counter pointers sit in the outbound channel (all
                  of them point to the one Counter of the Watcher);
      `iteration`, `value` the current fields of that Counter;
      `stopped`   the context is cancelled, the loop has exited and both
                  channels are closed;
      `publishing` the loop has incremented and is blocked sending the Counter
                  pointer to a full outbound channel. */
  datatype State = State(inbox: seq<string>, published: nat, iteration: nat, value: string, stopped: bool,
                         publishing: bool)

  /** Each channel holds at most one item; the loop only waits to publish while
      the outbound channel is full and the Watcher runs. */
  predicate Inv(s: State)
  {
    |s.inbox| <= SlotCapacity && s.published <= SlotCapacity &&
    (s.publishing ==> s.published == SlotCapacity && !s.stopped)
  }

  /** The state after `New` and `Start`: iteration 0, value "", empty
      channels, the loop waiting for a signal. */
  function Init(): (s: State)
    ensures Inv(s) && !s.stopped && !s.publishing
  {
    State([], 0, 0, "", false, false)
  }

  /** What can happen to a Watcher, one atomic step each. */
  datatype Event =
    | Signalled(signal: string)   // Send(signal)
    | Passed(abandoned: bool)     // one pass of mainLoop; `abandoned`: the ticker case won the publish select
    | Ticked                      // the 100 ms ticker fires
    | ResetRequested              // ResetCounter()
    | Received                    // one receive on Recv()
    | Stopped                     // Stop()

  /** What one receive records: the Counter's iteration at the moment the
      pointer is taken, if one was taken. */
  function Observe(o: Option<nat>): seq<nat>
  {
    match o
    case None => []
    case Some(i) => [i]
  }

  /** One atomic step. `None` when the event cannot happen from `s`: a send on
      a closed channel (Go may panic), a loop pass after the loop exited, while
      it waits to publish or with no signal to take, a receive that would wait
      for a publish. The second component is the iteration at the receive,
      if a pointer was received.

      A pass whose publish finds the outbound channel full (and no tick
      pending) leaves the loop waiting: `publishing`. A receive then takes the
      queued pointer and, in the same operation, the waiting send refills the
      channel with the same pointer; a tick abandons the waiting publish. */
  function Step(s: State, e: Event): Option<(State, Option<nat>)>
  {
    match e
    case Signalled(signal) =>
      if s.stopped then None
      else if |s.inbox| < SlotCapacity then Some((s.(inbox := s.inbox + [signal]), None))
      else Some((s, None))
    case Passed(abandoned) =>
      if s.stopped || s.publishing || s.inbox == [] then None
      else if s.inbox[0] == "" then Some((s.(inbox := s.inbox[1..]), None))
      else
        var t := s.(inbox := s.inbox[1..], iteration := s.iteration + 1);
        if abandoned then Some((t, None))
        else if s.published < SlotCapacity then Some((t.(published := s.published + 1), None))
        else Some((t.(publishing := true), None))
    case Ticked =>
      Some((s.(publishing := false), None))
    case ResetRequested =>
      if s.stopped then None
      else if s.published < SlotCapacity then Some((s.(iteration := 0, published := s.published + 1), None))
      else Some((s.(iteration := 0), None))
    case Received =>
      if s.published > 0 then
        if s.publishing then Some((s.(publishing := false), Some(s.iteration)))
        else Some((s.(published := s.published - 1), Some(s.iteration)))
      else if s.stopped then Some((s, None))
      else None
    case Stopped =>
      Some((s.(stopped := true, publishing := false), None))
  }

  /** Runs a sequence of events; the result is the final state and the
      iterations seen at the receives, in order. */
  function Run(s: State, es: seq<Event>): Option<(State, seq<nat>)>
    decreases |es|
  {
    if es == [] then Some((s, []))
    else
      match Step(s, es[0])
      case None => None
      case Some((t, o)) =>
        match Run(t, es[1..])
        case None => None
        case Some((u, obs)) => Some((u, Observe(o) + obs))
  }

  // ---------------------------------------------------------------------------
  // Single steps

  /** Send never blocks: with room it buffers the signal, otherwise the signal
      is dropped and nothing changes. */
  lemma SendNeverBlocks(s: State, signal: string)
    requires Inv(s) && !s.stopped
    ensures Step(s, Signalled(signal)).Some?
    ensures var (t, o) := Step(s, Signalled(signal)).value;
      o.None? &&
      (if s.inbox == [] then t == s.(inbox := [signal]) else t == s)
  {
  }

  /** A pass that takes the empty string only empties the inbound slot,
      whatever the ticker does. */
  lemma EmptySignalIsSkipped(s: State, abandoned: bool)
    requires !s.stopped && !s.publishing && s.inbox != [] && s.inbox[0] == ""
    ensures Step(s, Passed(abandoned)) == Some((s.(inbox := s.inbox[1..]), None))
  {
  }

  /** A pass that takes a non-empty signal raises the iteration by exactly one
      whether the publish succeeds, is abandoned or has to wait; an abandoned
      publish leaves the outbound slot as it was, a successful one fills it,
      and one that finds the slot full leaves the loop waiting to publish. */
  lemma SignalIncrementsOnce(s: State, abandoned: bool)
    requires Inv(s) && !s.stopped && !s.publishing && s.inbox != [] && s.inbox[0] != ""
    ensures Step(s, Passed(abandoned)).Some?
    ensures var t := Step(s, Passed(abandoned)).value.0;
      t.iteration == s.iteration + 1 && t.inbox == [] &&
      t.published == (if abandoned then s.published else 1) &&
      t.publishing == (!abandoned && s.published == 1)
  {
  }

  /** A tick while the loop waits to publish abandons that publish; the
      increment stays and the outbound slot keeps the earlier pointer. */
  lemma TickAbandonsWaitingPublish(s: State)
    requires Inv(s) && s.publishing
    ensures Step(s, Ticked) == Some((s.(publishing := false), None))
    ensures Inv(Step(s, Ticked).value.0) && Step(s, Ticked).value.0.published == 1
  {
  }

  /** A pass that waits to publish is released by the receiver, which reads the
      new iteration through the pointer already queued; the released publish
      queues the same pointer again, so the next receive reads that iteration a
      second time. */
  lemma WaitingPublishDeliversTwice(s: State, signal: string)
    requires signal != "" && !s.stopped && !s.publishing && s.inbox == [signal] && s.published == 1
    ensures Run(s, [Passed(false), Received, Received]) ==
      Some((s.(inbox := [], iteration := s.iteration + 1, published := 0), [s.iteration + 1, s.iteration + 1]))
  {
    var t := s.(inbox := [], iteration := s.iteration + 1);
    var w, u := t.(publishing := true), t.(published := 0);
    assert [signal][1..] == [];
    assert Step(s, Passed(false)) == Some((w, None));
    assert Step(w, Received) == Some((t, Some(s.iteration + 1)));
    assert Step(t, Received) == Some((u, Some(s.iteration + 1)));
    RunCons(t, Received, []);
    assert [Received] + [] == [Received];
    assert Run(u, []) == Some((u, []));
    assert Observe(Some(s.iteration + 1)) + [] == [s.iteration + 1];
    assert Run(t, [Received]) == Some((u, [s.iteration + 1]));
    RunCons(w, Received, [Received]);
    assert [Received] + [Received] == [Received, Received];
    assert Observe(Some(s.iteration + 1)) + [s.iteration + 1] == [s.iteration + 1, s.iteration + 1];
    assert Run(w, [Received, Received]) == Some((u, [s.iteration + 1, s.iteration + 1]));
    RunCons(s, Passed(false), [Received, Received]);
    assert [Passed(false)] + [Received, Received] == [Passed(false), Received, Received];
    assert Observe(None) + [s.iteration + 1, s.iteration + 1] == [s.iteration + 1, s.iteration + 1];
  }

  /** Reset sets the iteration to 0 whatever it was, and publishes only when
      the outbound slot is empty. */
  lemma ResetZeroes(s: State)
    requires Inv(s) && !s.stopped
    ensures Step(s, ResetRequested).Some?
    ensures var t := Step(s, ResetRequested).value.0;
      t.iteration == 0 && t.inbox == s.inbox && t.published == 1 && !t.stopped
  {
  }

  /** Every step keeps each channel at capacity one. */
  lemma StepKeepsInv(s: State, e: Event)
    requires Inv(s) && Step(s, e).Some?
    ensures Inv(Step(s, e).value.0)
  {
  }

  // ---------------------------------------------------------------------------
  // Runs

  /** Each channel holds at most one item at any time. */
  lemma {:induction false} RunKeepsInv(s: State, es: seq<Event>)
    requires Inv(s) && Run(s, es).Some?
    ensures Inv(Run(s, es).value.0)
    decreases |es|
  {
    if es != [] {
      StepKeepsInv(s, es[0]);
      RunKeepsInv(Step(s, es[0]).value.0, es[1..]);
    }
  }

  /** Stop is terminal: no later modelled event raises or resets the iteration,
      takes a signal or reopens the Watcher; a receiver can only drain what was
      published before, and reads the frozen iteration. */
  lemma {:induction false} StoppedIsTerminal(s: State, es: seq<Event>)
    requires Inv(s) && s.stopped && Run(s, es).Some?
    ensures var (t, obs) := Run(s, es).value;
      t.stopped && t.iteration == s.iteration && t.inbox == s.inbox &&
      t.published <= s.published && |obs| <= s.published &&
      forall k :: 0 <= k < |obs| ==> obs[k] == s.iteration
    decreases |es|
  {
    if es != [] {
      var (t, o) := Step(s, es[0]).value;
      StepKeepsInv(s, es[0]);
      StoppedIsTerminal(t, es[1..]);
    }
  }

  predicate NoReset(es: seq<Event>)
  {
    forall k :: 0 <= k < |es| ==> es[k] != ResetRequested
  }

  /** Without a reset, the iteration never goes down and the receiver reads
      non-decreasing iterations, none below the start nor above the end. */
  lemma {:induction false} ObservationsAreMonotone(s: State, es: seq<Event>)
    requires NoReset(es) && Run(s, es).Some?
    ensures var (t, obs) := Run(s, es).value;
      s.iteration <= t.iteration &&
      (forall k :: 0 <= k < |obs| ==> s.iteration <= obs[k] <= t.iteration) &&
      (forall j, k :: 0 <= j < k < |obs| ==> obs[j] <= obs[k])
    decreases |es|
  {
    if es != [] {
      assert es[0] != ResetRequested;
      var (t, o) := Step(s, es[0]).value;
      assert NoReset(es[1..]) by {
        forall k | 0 <= k < |es[1..]| ensures es[1..][k] != ResetRequested {
          assert es[1..][k] == es[k + 1];
        }
      }
      ObservationsAreMonotone(t, es[1..]);
    }
  }

  /** One tick of the broadcast source followed by one pass of the loop. */
  function Ticks(signals: seq<string>, abandoned: seq<bool>): (es: seq<Event>)
    requires |signals| == |abandoned|
    ensures |es| == 2 * |signals|
  {
    if signals == [] then []
    else [Signalled(signals[0]), Passed(abandoned[0])] + Ticks(signals[1..], abandoned[1..])
  }

  /** Increments are never lost: when every signal is taken by a pass before the
      next one arrives, the iteration rises by the number of signals whatever
      happened to the publishes, and nothing is read. */
  lemma {:induction false} IncrementsAreNeverLost(s: State, signals: seq<string>, abandoned: seq<bool>)
    requires |signals| == |abandoned|
    requires forall k :: 0 <= k < |signals| ==> signals[k] != ""
    requires Inv(s) && s.inbox == [] && Run(s, Ticks(signals, abandoned)).Some?
    ensures var (t, obs) := Run(s, Ticks(signals, abandoned)).value;
      t.iteration == s.iteration + |signals| && t.inbox == [] && obs == []
    decreases |signals|
  {
    if signals != [] {
      var es := Ticks(signals, abandoned);
      var t1 := Step(s, es[0]).value.0;
      assert es[1..][1..] == Ticks(signals[1..], abandoned[1..]);
      var t2 := Step(t1, es[1..][0]).value.0;
      IncrementsAreNeverLost(t2, signals[1..], abandoned[1..]);
    }
  }

  /** With every publish abandoned, such a run always completes. */
  lemma {:induction false} AbandonedTicksComplete(s: State, signals: seq<string>, abandoned: seq<bool>)
    requires |signals| == |abandoned|
    requires forall k :: 0 <= k < |abandoned| ==> abandoned[k]
    requires Inv(s) && s.inbox == [] && !s.stopped && !s.publishing
    ensures Run(s, Ticks(signals, abandoned)).Some?
    ensures Run(s, Ticks(signals, abandoned)).value.0.published == s.published
    decreases |signals|
  {
    if signals != [] {
      var es := Ticks(signals, abandoned);
      var t1 := Step(s, es[0]).value.0;
      assert es[1..][1..] == Ticks(signals[1..], abandoned[1..]);
      var t2 := Step(t1, es[1..][0]).value.0;
      AbandonedTicksComplete(t2, signals[1..], abandoned[1..]);
    }
  }

  /** A signal, a pass that publishes, and a receive that drains it. */
  function DrainedRounds(signals: seq<string>): (es: seq<Event>)
    ensures |es| == 3 * |signals|
  {
    if signals == [] then []
    else [Signalled(signals[0]), Passed(false), Received] + DrainedRounds(signals[1..])
  }

  /** Send calls each drained before the next are observed as successive
      iterations: from iteration i the receiver reads i+1, i+2, ..., i+n. */
  lemma {:induction false} DrainedRoundsCountUp(s: State, signals: seq<string>)
    requires forall k :: 0 <= k < |signals| ==> signals[k] != ""
    requires !s.stopped && !s.publishing && s.inbox == [] && s.published == 0
    ensures Run(s, DrainedRounds(signals)) ==
      Some((s.(iteration := s.iteration + |signals|), seq(|signals|, k => s.iteration + 1 + k)))
    decreases |signals|
  {
    if signals != [] {
      var round := [Signalled(signals[0]), Passed(false), Received];
      var t := s.(iteration := s.iteration + 1);
      OneDrainedRound(s, signals[0]);
      assert DrainedRounds(signals) == round + DrainedRounds(signals[1..]);
      DrainedRoundsCountUp(t, signals[1..]);
      RunAppend(s, round, DrainedRounds(signals[1..]));
      assert [s.iteration + 1] + seq(|signals| - 1, k => t.iteration + 1 + k)
          == seq(|signals|, k => s.iteration + 1 + k);
    } else {
      assert seq(0, k => s.iteration + 1 + k) == [];
    }
  }

  /** One signal, published and drained: the receiver reads the new iteration. */
  lemma OneDrainedRound(s: State, signal: string)
    requires signal != "" && !s.stopped && !s.publishing && s.inbox == [] && s.published == 0
    ensures Run(s, [Signalled(signal), Passed(false), Received]) ==
      Some((s.(iteration := s.iteration + 1), [s.iteration + 1]))
  {
    var t := s.(iteration := s.iteration + 1);
    var p0 := s.(inbox := [signal]);
    PublishThenReceive(p0, signal);
    assert s.inbox + [signal] == [signal];
    assert Step(s, Signalled(signal)) == Some((p0, None));
    RunCons(s, Signalled(signal), [Passed(false), Received]);
    assert [Signalled(signal)] + [Passed(false), Received] == [Signalled(signal), Passed(false), Received];
    assert Observe(None) + [s.iteration + 1] == [s.iteration + 1];
  }

  /** A queued signal taken by a pass that publishes, then drained. */
  lemma PublishThenReceive(s: State, signal: string)
    requires signal != "" && !s.stopped && !s.publishing && s.inbox == [signal] && s.published == 0
    ensures Run(s, [Passed(false), Received]) ==
      Some((s.(inbox := [], iteration := s.iteration + 1), [s.iteration + 1]))
  {
    var t := s.(inbox := [], iteration := s.iteration + 1);
    var p1 := t.(published := 1);
    assert Step(p1, Received) == Some((t, Some(s.iteration + 1)));
    RunCons(p1, Received, []);
    assert [Received] + [] == [Received];
    assert Run(t, []) == Some((t, []));
    assert Observe(Some(s.iteration + 1)) + [] == [s.iteration + 1];
    assert Run(p1, [Received]) == Some((t, [s.iteration + 1]));
    assert [signal][1..] == [];
    assert Step(s, Passed(false)) == Some((p1, None));
    RunCons(s, Passed(false), [Received]);
    assert [Passed(false)] + [Received] == [Passed(false), Received];
    assert Observe(None) + [s.iteration + 1] == [s.iteration + 1];
  }

  /** After a reset the next receive reads 0, whether the reset published its
      own pointer or the slot already held an earlier one: the receiver reads
      the Counter's current fields. A publish the loop was waiting on refills
      the slot. */
  lemma ResetThenReceiveReadsZero(s: State)
    requires Inv(s) && !s.stopped
    ensures Run(s, [ResetRequested, Received]) ==
      Some((s.(iteration := 0, published := if s.publishing then 1 else 0, publishing := false), [0]))
  {
    var t := s.(iteration := 0, published := 1);
    var u := s.(iteration := 0, published := if s.publishing then 1 else 0, publishing := false);
    assert Step(s, ResetRequested) == Some((t, None));
    assert Step(t, Received) == Some((u, Some(0)));
    RunCons(t, Received, []);
    assert [Received] + [] == [Received];
    assert Observe(Some(0)) + [] == [0];
    assert Run(t, [Received]) == Some((u, [0]));
    RunCons(s, ResetRequested, [Received]);
    assert [ResetRequested] + [Received] == [ResetRequested, Received];
    assert Observe(None) + [0] == [0];
  }

  /** The reference scenario: two drained signals read 1 and 2, a reset then
      reads 0. */
  lemma ScenarioSendSendReset()
    ensures Run(Init(), DrainedRounds(["a", "b"]) + [ResetRequested, Received]).Some?
    ensures Run(Init(), DrainedRounds(["a", "b"]) + [ResetRequested, Received]).value.1 == [1, 2, 0]
  {
    DrainedRoundsCountUp(Init(), ["a", "b"]);
    var mid := Init().(iteration := 2);
    ResetThenReceiveReadsZero(mid);
    RunAppend(Init(), DrainedRounds(["a", "b"]), [ResetRequested, Received]);
    assert seq(2, k => 0 + 1 + k) == [1, 2];
  }

  /** Running one event, then the rest. */
  lemma RunCons(s: State, e: Event, rest: seq<Event>)
    ensures Step(s, e).None? ==> Run(s, [e] + rest).None?
    ensures Step(s, e).Some? ==>
      Run(s, [e] + rest) ==
        (var r := Run(Step(s, e).value.0, rest);
         if r.None? then None else Some((r.value.0, Observe(Step(s, e).value.1) + r.value.1)))
  {
    assert ([e] + rest)[0] == e;
    assert ([e] + rest)[1..] == rest;
  }

  /** Running two event sequences one after the other. */
  lemma {:induction false} RunAppend(s: State, xs: seq<Event>, ys: seq<Event>)
    requires Run(s, xs).Some? && Run(Run(s, xs).value.0, ys).Some?
    ensures Run(s, xs + ys) ==
      Some((Run(Run(s, xs).value.0, ys).value.0, Run(s, xs).value.1 + Run(Run(s, xs).value.0, ys).value.1))
    decreases |xs|
  {
    if xs == [] {
      assert xs + ys == ys;
      assert [] + Run(s, ys).value.1 == Run(s, ys).value.1;
    } else {
      assert xs == [xs[0]] + xs[1..];
      assert xs + ys == [xs[0]] + (xs[1..] + ys);
      RunCons(s, xs[0], xs[1..]);
      RunCons(s, xs[0], xs[1..] + ys);
      var (t, o) := Step(s, xs[0]).value;
      RunAppend(t, xs[1..], ys);
      var mid := Run(t, xs[1..]).value;
      var last := Run(mid.0, ys).value;
      assert Observe(o) + (mid.1 + last.1) == (Observe(o) + mid.1) + last.1;
    }
  }

  // ---------------------------------------------------------------------------
  // The objects

  /** `Counter{Iteration, Value}`; nothing in the modelled code assigns Value. */
  class Counter {
    var iteration: nat
    var value: string

    constructor ()
      ensures iteration == 0 && value == ""
    {
      iteration := 0;
      value := "";
    }
  }

  class Watcher {
    const id: string
    const counter: Counter
    var inbox: seq<string>
    var outbox: seq<Counter>
    var stopped: bool
    var publishing: bool   // the loop is blocked sending `counter` to a full outbox

    /** Each channel holds at most one item, the outbound one only ever carries
        the Watcher's own Counter, and the loop only waits to publish while the
        outbound channel is full and the Watcher runs. */
    ghost predicate Valid()
      reads this
    {
      |inbox| <= SlotCapacity && |outbox| <= SlotCapacity &&
      (forall k :: 0 <= k < |outbox| ==> outbox[k] == counter) &&
      (publishing ==> |outbox| == SlotCapacity && !stopped)
    }

    function Snapshot(): State
      reads this, counter
    {
      State(inbox, |outbox|, counter.iteration, counter.value, stopped, publishing)
    }

    /** `New` followed by `Start`: the uuid is supplied by the caller, and the
        loop is running. */
    constructor (id: string)
      ensures Valid() && Snapshot() == Init() && this.id == id && fresh(counter)
    {
      this.id := id;
      counter := new Counter();
      inbox := [];
      outbox := [];
      stopped := false;
      publishing := false;
    }

    /** The id given to the constructor; it is a constant of the object, so no
        method changes it. */
    function GetWatcherId(): (r: string)
      ensures r == id
    {
      id
    }

    method Send(signal: string)
      requires Valid() && !stopped
      modifies this
      ensures Valid() && Step(old(Snapshot()), Signalled(signal)) == Some((Snapshot(), None))
    {
      if |inbox| < SlotCapacity {
        inbox := inbox + [signal];
      }
    }

    /** One pass of `mainLoop` after a signal arrived. A publish that finds the
        outbound channel full leaves the loop waiting (`publishing`) until a
        receive or a tick releases it. */
    method MainLoopPass(abandoned: bool)
      requires Valid() && !stopped && !publishing && inbox != []
      modifies this, counter
      ensures Valid() && Step(old(Snapshot()), Passed(abandoned)) == Some((Snapshot(), None))
    {
      var signal := inbox[0];
      inbox := inbox[1..];
      if signal == "" {
        return;
      }
      counter.iteration := counter.iteration + 1;
      if !abandoned {
        if |outbox| < SlotCapacity {
          outbox := outbox + [counter];
        } else {
          publishing := true;
        }
      }
    }

    /** The ticker fires: a publish the loop is waiting on is abandoned. */
    method Tick()
      requires Valid()
      modifies this
      ensures Valid() && Step(old(Snapshot()), Ticked) == Some((Snapshot(), None))
    {
      publishing := false;
    }

    method ResetCounter()
      requires Valid() && !stopped
      modifies this, counter
      ensures Valid() && Step(old(Snapshot()), ResetRequested) == Some((Snapshot(), None))
    {
      counter.iteration := 0;
      if |outbox| < SlotCapacity {
        outbox := outbox + [counter];
      }
    }

    /** One receive on the outbound channel: the Counter pointer, or null once
        the channel is closed and drained. A receive on an open, empty channel
        waits, so it is not a step. A publish the loop is waiting on moves into
        the freed slot. */
    method Recv() returns (c: Counter?)
      requires Valid() && (outbox != [] || stopped)
      modifies this
      ensures Valid() && (c == null || c == counter)
      ensures Step(old(Snapshot()), Received) ==
        Some((Snapshot(), if c == null then None else Some(counter.iteration)))
    {
      if outbox != [] {
        c := outbox[0];
        outbox := outbox[1..];
        if publishing {
          outbox := outbox + [counter];
          publishing := false;
        }
      } else {
        c := null;
      }
    }

    method Stop()
      requires Valid()
      modifies this
      ensures Valid() && Step(old(Snapshot()), Stopped) == Some((Snapshot(), None))
    {
      stopped := true;
      publishing := false;
    }
  }
}

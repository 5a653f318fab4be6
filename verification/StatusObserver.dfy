/** The observer that turns packet arrivals and timeouts of a worker into "stalled" and "recovered" events. */
module StatusObserverModel {

  datatype Status = Stalled | Recovered

  /** Where the worker's goroutine is: waiting on the task channel, in one of the two handlers, about to put an event
      on the status channel, finished, or dead from sending on a closed channel. */
  datatype Loop = Waiting | OnTask | OnTimeout | Emitting(status: Status) | Exited | Panicked

  /** `observed` is what the receiver has taken from the status channel, `buffer` what it has not taken yet. */
  datatype Observer = Observer(
    arrivals: nat,
    workerClosed: bool,
    stalled: bool,
    loop: Loop,
    buffer: seq<Status>,
    statusClosed: bool,
    observed: seq<Status>)

  const CHANNEL_SIZE: nat := 1

  datatype Action =
    | DoPacketArrived
    | DoReceive
    | DoTimeout
    | DoTask
    | DoOnTimeout
    | DoEmit
    | DoObserve
    | DoStopWorker
    | DoCloseStatus

  const INITIAL := Observer(0, false, false, Waiting, [], false, [])

  lemma InitialInv()
    ensures Inv(INITIAL)
  {
  }

  predicate Enabled(o: Observer, a: Action) {
    match a
    case DoPacketArrived => true
    case DoReceive => o.loop == Waiting && (o.arrivals > 0 || o.workerClosed)
    case DoTimeout => o.loop == Waiting
    case DoTask => o.loop == OnTask
    case DoOnTimeout => o.loop == OnTimeout
    case DoEmit => o.loop.Emitting? && (o.statusClosed || |o.buffer| < 1)
    case DoObserve => o.buffer != []
    case DoStopWorker => true
    case DoCloseStatus => o.workerClosed && !o.statusClosed
  }

  function Next(o: Observer, a: Action): Observer
    requires Enabled(o, a)
  {
    match a
    case DoPacketArrived =>
      if o.workerClosed || o.arrivals >= CHANNEL_SIZE then o else o.(arrivals := o.arrivals + 1)
    case DoReceive =>
      if o.arrivals > 0 then o.(arrivals := o.arrivals - 1, loop := OnTask) else o.(loop := Exited)
    case DoTimeout => o.(loop := OnTimeout)
    case DoTask => if o.stalled then o.(stalled := false, loop := Emitting(Recovered)) else o.(loop := Waiting)
    case DoOnTimeout => if o.stalled then o.(loop := Waiting) else o.(stalled := true, loop := Emitting(Stalled))
    case DoEmit =>
      if o.statusClosed then o.(loop := Panicked)
      else o.(buffer := o.buffer + [o.loop.status], loop := Waiting)
    case DoObserve => o.(observed := o.observed + [o.buffer[0]], buffer := o.buffer[1..])
    case DoStopWorker => o.(workerClosed := true)
    case DoCloseStatus => o.(statusClosed := true)
  }

  /** Stalled, recovered, stalled, and so on. */
  predicate Alternates(events: seq<Status>) {
    forall i :: 0 <= i < |events| ==> events[i] == if i % 2 == 0 then Stalled else Recovered
  }

  /** The events put on the channel so far, and the one about to be. */
  function Decided(o: Observer): seq<Status> {
    o.observed + o.buffer + if o.loop.Emitting? then [o.loop.status] else []
  }

  /** While the observer lives, the decided events alternate and the flag is set exactly when the last is a stall. */
  predicate Inv(o: Observer) {
    && Alternates(o.observed)
    && |o.buffer| <= 1 && o.arrivals <= 1
    && (o.statusClosed ==> o.workerClosed)
    && (o.loop == Exited ==> o.workerClosed && o.arrivals == 0)
    && (o.loop == Panicked ==> o.statusClosed)
    && (o.loop != Panicked ==> Alternates(Decided(o)) && (o.stalled <==> |Decided(o)| % 2 == 1))
    && (o.loop == Panicked ==> Alternates(o.observed + o.buffer))
  }

  lemma StepKeepsInv(o: Observer, a: Action)
    requires Inv(o) && Enabled(o, a)
    ensures Inv(Next(o, a))
  {
    match a
    case DoEmit => EmitKeepsInv(o);
    case DoObserve => ObserveKeepsInv(o);
    case DoTask => DecisionKeepsInv(o, a, Recovered);
    case DoOnTimeout => DecisionKeepsInv(o, a, Stalled);
    case _ => assert Decided(Next(o, a)) == Decided(o);
  }

  lemma EmitKeepsInv(o: Observer)
    requires Inv(o) && Enabled(o, DoEmit)
    ensures Inv(Next(o, DoEmit))
  {
    var o' := Next(o, DoEmit);
    if o.statusClosed {
      assert Decided(o) == (o'.observed + o'.buffer) + [o.loop.status];
      AlternatesPrefix(o'.observed + o'.buffer, [o.loop.status]);
    } else {
      assert Decided(o') == Decided(o);
    }
  }

  lemma ObserveKeepsInv(o: Observer)
    requires Inv(o) && Enabled(o, DoObserve)
    ensures Inv(Next(o, DoObserve))
  {
    var o' := Next(o, DoObserve);
    assert o'.observed + o'.buffer == o.observed + o.buffer;
    if o.loop == Panicked {
      AlternatesPrefix(o'.observed, o'.buffer);
    } else {
      assert Decided(o') == Decided(o);
      var rest := o'.buffer + if o.loop.Emitting? then [o.loop.status] else [];
      assert Decided(o') == o'.observed + rest;
      AlternatesPrefix(o'.observed, rest);
    }
  }

  lemma AlternatesPrefix(events: seq<Status>, more: seq<Status>)
    requires Alternates(events + more)
    ensures Alternates(events)
  {
    assert forall i :: 0 <= i < |events| ==> (events + more)[i] == events[i];
  }

  /** A handler that changes the flag decides the next event. */
  lemma DecisionKeepsInv(o: Observer, a: Action, status: Status)
    requires Inv(o) && Enabled(o, a)
    requires (a == DoTask && status == Recovered) || (a == DoOnTimeout && status == Stalled)
    ensures Inv(Next(o, a))
  {
    var o' := Next(o, a);
    assert Decided(o') == Decided(o) + if o'.stalled != o.stalled then [status] else [];
  }

  ghost predicate Path(o: Observer, actions: seq<Action>, z: Observer)
    decreases |actions|
  {
    if actions == [] then o == z
    else Enabled(o, actions[0]) && Path(Next(o, actions[0]), actions[1..], z)
  }

  /** Whatever the interleaving of packets, timeouts, emissions and observations, the receiver sees stalls and
      recoveries strictly alternating, beginning with a stall, and the flag agrees with the last event decided. */
  lemma {:induction false} RunsAlternate(o: Observer, actions: seq<Action>, z: Observer)
    requires Inv(o) && Path(o, actions, z)
    ensures Inv(z) && Alternates(z.observed)
    decreases |actions|
  {
    if actions == [] {
    } else {
      StepKeepsInv(o, actions[0]);
      RunsAlternate(Next(o, actions[0]), actions[1..], z);
    }
  }

  lemma ReachableAlternate(start: Observer, actions: seq<Action>, z: Observer)
    requires start == INITIAL && Path(start, actions, z)
    ensures Inv(z) && Alternates(z.observed)
  {
    InitialInv();
    RunsAlternate(start, actions, z);
  }

  /** The flag says what the last event was. */
  lemma FlagMatchesLastEvent(o: Observer)
    requires Inv(o) && o.loop != Panicked
    ensures o.stalled <==> Decided(o) != [] && Decided(o)[|Decided(o)| - 1] == Stalled
  {
    if Decided(o) != [] {
      var last := |Decided(o)| - 1;
      assert Decided(o)[last] == if last % 2 == 0 then Stalled else Recovered;
    }
  }

  /** Nothing but the stop closes the worker and the status channel. */
  lemma {:induction false} ClosedIff(o: Observer, actions: seq<Action>, z: Observer)
    requires Path(o, actions, z)
    ensures z.workerClosed <==> o.workerClosed || DoStopWorker in actions
    ensures z.statusClosed <==> o.statusClosed || DoCloseStatus in actions
    decreases |actions|
  {
    if actions == [] {
    } else {
      ClosedIff(Next(o, actions[0]), actions[1..], z);
      assert forall a :: a in actions <==> a == actions[0] || a in actions[1..];
    }
  }

  // ---------------------------------------------------------------------------------------------
  // What a packet brings about
  // ---------------------------------------------------------------------------------------------

  predicate IsLoopStep(a: Action) {
    a.DoReceive? || a.DoTask? || a.DoOnTimeout? || a.DoEmit?
  }

  function LoopSteps(actions: seq<Action>): nat {
    if actions == [] then 0 else (if IsLoopStep(actions[0]) then 1 else 0) + LoopSteps(actions[1..])
  }

  /** How many packets the handler has dealt with. */
  function Handled(actions: seq<Action>): nat {
    if actions == [] then 0 else (if actions[0].DoTask? then 1 else 0) + Handled(actions[1..])
  }

  /** The packets that wait or are in the handler's hands. */
  function Outstanding(o: Observer): nat {
    o.arrivals + if o.loop == OnTask then 1 else 0
  }

  /** A bound on the loop's steps until n of them are dealt with. */
  function StepsFor(o: Observer, n: nat): nat {
    if n == 0 then 0
    else
      match o.loop
      case Waiting => 3 * n - 1
      case OnTask => 3 * n - 2
      case Emitting(_) => 3 * n
      case _ => 3 * n + 1
  }

  predicate Undisturbed(actions: seq<Action>) {
    DoTimeout !in actions && DoCloseStatus !in actions
  }

  lemma OneStepFor(o: Observer, a: Action, n: nat)
    requires Inv(o) && Enabled(o, a) && !a.DoTimeout? && n <= Outstanding(o) && !o.statusClosed
    ensures n - (if a.DoTask? then 1 else 0) <= Outstanding(Next(o, a))
    ensures n > 0 ==>
              StepsFor(Next(o, a), n - if a.DoTask? then 1 else 0) + (if IsLoopStep(a) then 1 else 0) <= StepsFor(o, n)
  {
  }

  /** With somebody taking the events off, the loop is never stuck before it has dealt with the packets that were there,
      and it needs at most that many steps of its own. */
  lemma {:induction false} PacketsAreHandled(o: Observer, actions: seq<Action>, z: Observer, n: nat)
    requires Inv(o) && !o.statusClosed && Path(o, actions, z) && Undisturbed(actions) && n <= Outstanding(o)
    ensures Inv(z) && !z.statusClosed
    ensures LoopSteps(actions) >= StepsFor(o, n) ==> Handled(actions) >= n
    ensures Handled(actions) < n ==>
              || Enabled(z, DoReceive) || Enabled(z, DoTask) || Enabled(z, DoOnTimeout) || Enabled(z, DoEmit)
              || Enabled(z, DoObserve)
    decreases |actions|
  {
    if actions == [] {
    } else {
      assert actions[0] in actions && forall a :: a in actions[1..] ==> a in actions;
      StepKeepsInv(o, actions[0]);
      OneStepFor(o, actions[0], n);
      var left := if actions[0].DoTask? && n > 0 then n - 1 else n;
      PacketsAreHandled(Next(o, actions[0]), actions[1..], z, left);
    }
  }

  /** The events that the next packet to be handled still brings, timeouts aside. */
  function Ahead(o: Observer): seq<Status> {
    if o.stalled then [Recovered] else if o.loop == OnTimeout then [Stalled, Recovered] else []
  }

  lemma AheadIsConserved(o: Observer, a: Action)
    requires Enabled(o, a) && !a.DoTimeout? && !o.statusClosed && o.loop != Panicked
    ensures Decided(Next(o, a)) + Ahead(Next(o, a)) == Decided(o) + Ahead(o)
    ensures a.DoTask? || (!o.stalled && o.loop != OnTimeout) ==>
              !Next(o, a).stalled && Next(o, a).loop != OnTimeout
  {
    var o' := Next(o, a);
    var now := if a.DoTask? && o.stalled then [Recovered] else if a.DoOnTimeout? && !o.stalled then [Stalled] else [];
    NowDecided(o, a, now);
    assert Ahead(o) == now + Ahead(o');
    Regrouped(Decided(o), now, Ahead(o'));
  }

  lemma NowDecided(o: Observer, a: Action, now: seq<Status>)
    requires Enabled(o, a) && !o.statusClosed
    requires now == if a.DoTask? && o.stalled then [Recovered]
                    else if a.DoOnTimeout? && !o.stalled then [Stalled] else []
    ensures Decided(Next(o, a)) == Decided(o) + now
  {
    var o' := Next(o, a);
    if a.DoObserve? { assert o'.observed + o'.buffer == o.observed + o.buffer; }
  }

  lemma Regrouped<T>(a: seq<T>, b: seq<T>, c: seq<T>)
    ensures a + b + c == a + (b + c)
  {
  }

  lemma {:induction false} HandlingClearsFlag(o: Observer, actions: seq<Action>, z: Observer)
    requires Inv(o) && !o.statusClosed && Path(o, actions, z) && Undisturbed(actions)
    ensures Inv(z) && Decided(z) + Ahead(z) == Decided(o) + Ahead(o)
    ensures Handled(actions) > 0 || (!o.stalled && o.loop != OnTimeout) ==> !z.stalled && z.loop != OnTimeout
    decreases |actions|
  {
    if actions == [] {
    } else {
      assert actions[0] in actions && forall a :: a in actions[1..] ==> a in actions;
      StepKeepsInv(o, actions[0]);
      AheadIsConserved(o, actions[0]);
      HandlingClearsFlag(Next(o, actions[0]), actions[1..], z);
    }
  }

  /** A packet that arrives at an observer that has not been stopped is waiting for the loop. In every run from there in
      which no timeout fires and the status channel is not closed, the loop is never stuck before it has dealt with
      that packet, and it gets there within a bounded number of its own steps. Once it has, the flag is clear; if it
      was set on arrival, one recovery has been decided since and nothing else; and if a timeout's handler was about
      to set it, a stall and a recovery. */
  lemma PacketEndsStall(o: Observer, actions: seq<Action>, z: Observer)
    requires Inv(o) && !o.workerClosed && Undisturbed(actions) && Path(Next(o, DoPacketArrived), actions, z)
    ensures Next(o, DoPacketArrived) == o.(arrivals := 1)
    ensures var n := 1 + if o.loop == OnTask then 1 else 0;
            && (Handled(actions) < n ==>
                  || Enabled(z, DoReceive) || Enabled(z, DoTask) || Enabled(z, DoOnTimeout) || Enabled(z, DoEmit)
                  || Enabled(z, DoObserve))
            && (LoopSteps(actions) >= 4 ==> Handled(actions) >= n)
            && (Handled(actions) >= n ==>
                  && !z.stalled
                  && Decided(z) == Decided(o) + if o.stalled then [Recovered]
                                                else if o.loop == OnTimeout then [Stalled, Recovered]
                                                else [])
  {
    var p := Next(o, DoPacketArrived);
    StepKeepsInv(o, DoPacketArrived);
    PacketsAreHandled(p, actions, z, Outstanding(p));
    HandlingClearsFlag(p, actions, z);
    assert Decided(p) == Decided(o);
    if Handled(actions) > 0 { assert Decided(z) + [] == Decided(z); }
  }

  // ---------------------------------------------------------------------------------------------
  // After the stop
  // ---------------------------------------------------------------------------------------------

  /** Stopping has stopped the worker and closed the status channel, without waiting for the worker's loop. */
  predicate Stopped(o: Observer) {
    o.workerClosed && o.statusClosed
  }

  /** An event is still to be sent: one is decided, a stall is about to be, or a recovery because a packet is waiting
      while the flag is set. */
  predicate Due(o: Observer) {
    match o.loop
    case Panicked => true
    case Emitting(_) => true
    case OnTimeout => !o.stalled || o.arrivals > 0
    case OnTask => o.stalled
    case Waiting => o.stalled && o.arrivals > 0
    case Exited => false
  }

  /** Unless a timeout fires, whether an event is due does not change. */
  lemma DueIsStable(o: Observer, a: Action)
    requires Stopped(o) && Enabled(o, a) && !a.DoTimeout?
    ensures Stopped(Next(o, a)) && (Due(Next(o, a)) <==> Due(o))
  {
  }

  /** A bound on the loop's steps that are left after the stop. */
  function Left(o: Observer): nat {
    match o.loop
    case Exited => 0
    case Panicked => 0
    case Waiting => 3 * o.arrivals + 1
    case Emitting(_) => 3 * o.arrivals + 2
    case _ => 3 * o.arrivals + 3
  }

  predicate Ended(o: Observer) {
    o.loop == Exited || o.loop == Panicked
  }

  lemma OneLoopStep(o: Observer, a: Action)
    requires Stopped(o) && Enabled(o, a) && !a.DoTimeout?
    ensures Left(Next(o, a)) + (if IsLoopStep(a) then 1 else 0) <= Left(o)
  {
  }

  /** A stopped observer's worker that sees no further timeout is never stuck before its end, reaches it after a
      bounded number of its own steps, and the end is death on the closed channel, rather than exit, exactly when an
      event was due at the stop: whatever the interleaving. */
  lemma {:induction false} StopPanicsIff(o: Observer, actions: seq<Action>, z: Observer)
    requires Stopped(o) && Path(o, actions, z) && DoTimeout !in actions
    ensures Stopped(z) && LoopSteps(actions) + Left(z) <= Left(o)
    ensures LoopSteps(actions) == Left(o) ==> Ended(z)
    ensures !Ended(z) ==> Enabled(z, DoReceive) || Enabled(z, DoTask) || Enabled(z, DoOnTimeout) || Enabled(z, DoEmit)
    ensures Ended(z) ==> (z.loop == Panicked <==> Due(o))
    decreases |actions|
  {
    if actions == [] {
    } else {
      assert actions[0] in actions && forall a :: a in actions[1..] ==> a in actions;
      DueIsStable(o, actions[0]);
      OneLoopStep(o, actions[0]);
      StopPanicsIff(Next(o, actions[0]), actions[1..], z);
    }
  }

  /** Only a set flag with nothing waiting is safe from timeouts: with the flag clear, a timeout sets it and sends. */
  predicate CanPanic(o: Observer) {
    match o.loop
    case Exited => false
    case Waiting => !o.stalled || o.arrivals > 0
    case OnTimeout => !o.stalled || o.arrivals > 0
    case _ => true
  }

  lemma SafeIsStable(o: Observer, a: Action)
    requires Stopped(o) && Enabled(o, a) && !CanPanic(o)
    ensures Stopped(Next(o, a)) && !CanPanic(Next(o, a))
  {
  }

  lemma {:induction false} SafeForGood(o: Observer, actions: seq<Action>, z: Observer)
    requires Stopped(o) && Path(o, actions, z) && !CanPanic(o)
    ensures z.loop != Panicked
    decreases |actions|
  {
    if actions == [] {
    } else {
      SafeIsStable(o, actions[0]);
      SafeForGood(Next(o, actions[0]), actions[1..], z);
    }
  }

  lemma ThenStep(o: Observer, a: Action, actions: seq<Action>, z: Observer)
    requires Enabled(o, a) && Path(Next(o, a), actions, z)
    ensures Path(o, [a] + actions, z)
  {
    var path := [a] + actions;
    assert path[0] == a && path[1..] == actions;
  }

  /** A way to the end. */
  lemma {:induction false} PanicRun(o: Observer) returns (actions: seq<Action>, z: Observer)
    requires Stopped(o) && CanPanic(o)
    ensures Path(o, actions, z) && z.loop == Panicked
    decreases match o.loop
              case Panicked => 0
              case Emitting(_) => 1
              case OnTimeout => if o.stalled then 5 else 2
              case OnTask => if o.stalled then 3 else 6
              case Waiting => 4
              case Exited => 0
  {
    if o.loop == Panicked {
      actions, z := [], o;
    } else {
      var a := match o.loop
               case Emitting(_) => DoEmit
               case OnTimeout => DoOnTimeout
               case OnTask => DoTask
               case _ => if o.stalled then DoReceive else DoTimeout;
      var rest;
      rest, z := PanicRun(Next(o, a));
      ThenStep(o, a, rest, z);
      actions := [a] + rest;
    }
  }

  ghost predicate PanicsBy(o: Observer, actions: seq<Action>, z: Observer) {
    Path(o, actions, z) && z.loop == Panicked
  }

  /** With timeouts, which may fire at any moment the loop waits: a stopped observer's worker can still die exactly when
      its loop has not exited and the flag is clear or something is waiting or under way. */
  lemma StopCanPanicIff(o: Observer)
    requires Stopped(o)
    ensures (exists actions, z :: PanicsBy(o, actions, z)) <==> CanPanic(o)
  {
    if CanPanic(o) {
      var actions, z := PanicRun(o);
      assert PanicsBy(o, actions, z);
    } else {
      forall actions, z | Path(o, actions, z) ensures !PanicsBy(o, actions, z) {
        SafeForGood(o, actions, z);
      }
    }
  }

  /** Timeouts are what makes the difference: right after the start, with nothing due, a stop leaves a worker that exits
      on its own and dies if a timeout comes first. */
  lemma TimeoutAfterStopPanics()
    ensures var o := INITIAL.(workerClosed := true, statusClosed := true);
            && !Due(o) && Next(o, DoReceive).loop == Exited
            && Path(o, [DoTimeout, DoOnTimeout, DoEmit], o.(stalled := true, loop := Panicked))
  {
    var o := INITIAL.(workerClosed := true, statusClosed := true);
    var o1, o2 := o.(loop := OnTimeout), o.(stalled := true, loop := Emitting(Stalled));
    var z := o.(stalled := true, loop := Panicked);
    ThenStep(o2, DoEmit, [], z);
    ThenStep(o1, DoOnTimeout, [DoEmit], z);
    ThenStep(o, DoTimeout, [DoOnTimeout, DoEmit], z);
    assert [DoEmit] + [] == [DoEmit] && [DoOnTimeout] + [DoEmit] == [DoOnTimeout, DoEmit];
    assert [DoTimeout] + [DoOnTimeout, DoEmit] == [DoTimeout, DoOnTimeout, DoEmit];
  }

  /** The observer's object. The two handlers are split at their only blocking point: deciding the event, and putting it
      on the status channel. */
  class StatusObserver {
    var arrivals: nat
    var workerClosed: bool
    var stalled: bool
    var loop: Loop
    var buffer: seq<Status>
    var statusClosed: bool
    ghost var observed: seq<Status>

    ghost function State(): Observer
      reads this
    {
      Observer(arrivals, workerClosed, stalled, loop, buffer, statusClosed, observed)
    }

    constructor ()
      ensures State() == INITIAL
    {
      arrivals, workerClosed, stalled, loop, buffer, statusClosed, observed := 0, false, false, Waiting, [], false, [];
    }

    method CompareAndSwapStalled(expected: bool, desired: bool) returns (swapped: bool)
      modifies this`stalled
      ensures swapped == (old(stalled) == expected)
      ensures stalled == if swapped then desired else old(stalled)
    {
      swapped := stalled == expected;
      if swapped {
        stalled := desired;
      }
    }

    method HandleTimeout()
      requires loop == Loop.OnTimeout
      modifies this`stalled, this`loop
      ensures State() == Next(old(State()), DoOnTimeout)
    {
      var swapped := CompareAndSwapStalled(false, true);
      loop := if swapped then Emitting(Stalled) else Waiting;
    }

    method HandleTask()
      requires loop == Loop.OnTask
      modifies this`stalled, this`loop
      ensures State() == Next(old(State()), DoTask)
    {
      var swapped := CompareAndSwapStalled(true, false);
      loop := if swapped then Emitting(Recovered) else Waiting;
    }

    method Emit()
      requires Enabled(State(), DoEmit)
      modifies this`buffer, this`loop
      ensures State() == Next(old(State()), DoEmit)
    {
      if statusClosed {
        loop := Panicked;
      } else {
        buffer := buffer + [loop.status];
        loop := Waiting;
      }
    }

    /** What the worker calls after a timeout: both parts in a row, when the status channel has room. */
    method OnTimeout()
      requires loop == Loop.OnTimeout && (statusClosed || |buffer| < 1)
      modifies this`stalled, this`loop, this`buffer
      ensures var o := Next(old(State()), DoOnTimeout); State() == if o.loop.Emitting? then Next(o, DoEmit) else o
    {
      HandleTimeout();
      if loop.Emitting? {
        Emit();
      }
    }

    /** What the worker calls for a packet. */
    method OnTask()
      requires loop == Loop.OnTask && (statusClosed || |buffer| < 1)
      modifies this`stalled, this`loop, this`buffer
      ensures var o := Next(old(State()), DoTask); State() == if o.loop.Emitting? then Next(o, DoEmit) else o
    {
      HandleTask();
      if loop.Emitting? {
        Emit();
      }
    }

    method PacketArrived()
      modifies this`arrivals
      ensures State() == Next(old(State()), DoPacketArrived)
      ensures !workerClosed ==> arrivals > 0
    {
      if !workerClosed && arrivals < CHANNEL_SIZE {
        arrivals := arrivals + 1;
      }
    }

    method Stop()
      requires !statusClosed
      modifies this`workerClosed, this`statusClosed
      ensures State() == Next(Next(old(State()), DoStopWorker), DoCloseStatus)
    {
      workerClosed := true;
      statusClosed := true;
    }
  }
}

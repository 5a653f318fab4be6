/** A bounded queue with one goroutine taking tasks off it, closed from outside. */
module WorkerModel {

  datatype Loop<T> = Waiting | Handling(task: T) | OnTimeout | Exited

  /** `accepted` and `processed` are histories: the tasks that `Send` took, and those whose handler has returned. */
  datatype Queue<T> = Queue(
    channelSize: nat,
    queue: seq<T>,
    closed: bool,
    loop: Loop<T>,
    accepted: seq<T>,
    processed: seq<T>)

  datatype SendResult = Sent | TooBusy | Closed

  datatype Action<T> =
    | DoSend(task: T)
    | DoStop
    | DoReceive
    | DoHandled
    | DoTimeout
    | DoTimeoutHandled

  function Initial<T>(channelSize: nat): Queue<T> {
    Queue(channelSize, [], false, Waiting, [], [])
  }

  function SendVerdict<T>(w: Queue<T>): SendResult {
    if w.closed then Closed else if |w.queue| < w.channelSize then Sent else TooBusy
  }

  predicate Enabled<T>(w: Queue<T>, a: Action<T>) {
    match a
    case DoSend(_) => true
    case DoStop => true
    case DoReceive => w.loop.Waiting? && (w.queue != [] || w.closed)
    case DoHandled => w.loop.Handling?
    case DoTimeout => w.loop.Waiting?
    case DoTimeoutHandled => w.loop.OnTimeout?
  }

  function Next<T>(w: Queue<T>, a: Action<T>): Queue<T>
    requires Enabled(w, a)
  {
    match a
    case DoSend(task) =>
      if SendVerdict(w) == Sent then w.(queue := w.queue + [task], accepted := w.accepted + [task]) else w
    case DoStop => w.(closed := true)
    case DoReceive =>
      if w.queue != [] then w.(queue := w.queue[1..], loop := Handling(w.queue[0])) else w.(loop := Exited)
    case DoHandled => w.(processed := w.processed + [w.loop.task], loop := Waiting)
    case DoTimeout => w.(loop := OnTimeout)
    case DoTimeoutHandled => w.(loop := Waiting)
  }

  function InFlight<T>(w: Queue<T>): seq<T> {
    if w.loop.Handling? then [w.loop.task] else []
  }

  /** Nothing is lost, repeated or reordered between acceptance and processing, and the loop ends only when there is
      nothing left to process. */
  predicate Inv<T(==)>(w: Queue<T>) {
    && w.accepted == w.processed + InFlight(w) + w.queue
    && |w.queue| <= w.channelSize
    && (w.loop.Exited? ==> w.closed && w.queue == [])
  }

  /** What is still to come. */
  function Pending<T>(w: Queue<T>): seq<T> {
    InFlight(w) + w.queue
  }

  lemma ProcessedThenPending<T>(w: Queue<T>)
    requires Inv(w)
    ensures w.accepted == w.processed + Pending(w)
    ensures w.loop.Exited? ==> w.processed == w.accepted
  {
    assert w.processed + InFlight(w) + w.queue == w.processed + Pending(w);
  }

  lemma StepKeepsInv<T>(w: Queue<T>, a: Action<T>)
    requires Inv(w) && Enabled(w, a)
    ensures Inv(Next(w, a))
  {
    match a
    case DoSend(task) =>
      assert w.processed + InFlight(w) + (w.queue + [task]) == w.processed + InFlight(w) + w.queue + [task];
    case DoReceive =>
      if w.queue != [] {
        assert w.queue == [w.queue[0]] + w.queue[1..];
        assert w.processed + [] + w.queue == w.processed + [w.queue[0]] + w.queue[1..];
      }
    case DoHandled =>
      assert w.processed + [w.loop.task] + w.queue == w.processed + [w.loop.task] + [] + w.queue;
    case _ =>
  }

  // ---------------------------------------------------------------------------------------------
  // What an open worker takes and gets done
  // ---------------------------------------------------------------------------------------------

  /** How many accepted tasks are neither processed nor in flight, from the histories alone. */
  function Unstarted<T>(w: Queue<T>): int {
    |w.accepted| - |w.processed| - if w.loop.Handling? then 1 else 0
  }

  /** An open worker takes a task exactly when fewer accepted tasks than its channel holds wait to be started; it says
      so, and otherwise nothing changes. */
  lemma SendAcceptsIff<T>(w: Queue<T>, task: T)
    requires Inv(w)
    ensures var z := Next(w, DoSend(task));
            && z.accepted == (if !w.closed && Unstarted(w) < w.channelSize then w.accepted + [task] else w.accepted)
            && (z.accepted == w.accepted ==> z == w)
            && (SendVerdict(w) == Sent <==> z.accepted == w.accepted + [task])
            && (SendVerdict(w) == Closed <==> w.closed)
  {
    assert |w.accepted| == |w.processed| + |InFlight(w)| + |w.queue|;
    assert |w.accepted + [task]| == |w.accepted| + 1;
  }

  ghost predicate Path<T>(w: Queue<T>, actions: seq<Action<T>>, z: Queue<T>)
    decreases |actions|
  {
    if actions == [] then w == z
    else Enabled(w, actions[0]) && Path(Next(w, actions[0]), actions[1..], z)
  }

  /** In every reachable state the accepted tasks are the processed ones, then the one in flight, then the queue; and
      once the loop has exited they are exactly the processed ones. */
  lemma {:induction false} RunsKeepLog<T>(w: Queue<T>, actions: seq<Action<T>>, z: Queue<T>)
    requires Inv(w) && Path(w, actions, z)
    ensures Inv(z)
    ensures z.processed <= z.accepted
    ensures z.loop.Exited? ==> z.processed == z.accepted
    decreases |actions|
  {
    if actions == [] {
      ProcessedThenPending(w);
    } else {
      StepKeepsInv(w, actions[0]);
      RunsKeepLog(Next(w, actions[0]), actions[1..], z);
    }
  }

  function LoopSteps<T>(actions: seq<Action<T>>): nat {
    if actions == [] then 0
    else (if actions[0].DoReceive? || actions[0].DoHandled? then 1 else 0) + LoopSteps(actions[1..])
  }

  /** How many receives and handlers it takes until the first n accepted tasks are processed. */
  function Owed<T>(w: Queue<T>, n: nat): nat {
    if n <= |w.processed| then 0 else 2 * (n - |w.processed|) - if w.loop.Handling? then 1 else 0
  }

  lemma OneStepOwed<T>(w: Queue<T>, a: Action<T>, n: nat)
    requires Inv(w) && Enabled(w, a) && n <= |w.accepted|
    ensures w.accepted <= Next(w, a).accepted
    ensures (a.DoReceive? || a.DoHandled?) && Owed(w, n) > 0 ==> Owed(Next(w, a), n) == Owed(w, n) - 1
    ensures !(a.DoReceive? || a.DoHandled?) ==> Owed(Next(w, a), n) == Owed(w, n)
  {
    assert |w.accepted| == |w.processed| + |InFlight(w)| + |w.queue|;
  }

  /** A worker, stopped or not, gets everything it has accepted done, in order: under every interleaving with sends,
      timeouts and the stop, it is not stuck while an accepted task is unprocessed, and after as many of its own steps
      as the tasks accepted so far need, they are processed. */
  lemma {:induction false} LoopProcesses<T>(w: Queue<T>, actions: seq<Action<T>>, z: Queue<T>, n: nat)
    requires Inv(w) && Path(w, actions, z) && n <= |w.accepted|
    ensures Inv(z) && w.accepted <= z.accepted && z.processed <= z.accepted
    ensures LoopSteps(actions) + Owed(z, n) >= Owed(w, n)
    ensures LoopSteps(actions) >= Owed(w, n) ==> w.accepted[..n] <= z.processed
    ensures z.processed != z.accepted ==> Enabled(z, DoReceive) || Enabled(z, DoHandled) || Enabled(z, DoTimeoutHandled)
    decreases |actions|
  {
    if actions == [] {
      ProcessedThenPending(w);
    } else {
      StepKeepsInv(w, actions[0]);
      OneStepOwed(w, actions[0], n);
      LoopProcesses(Next(w, actions[0]), actions[1..], z, n);
    }
  }

  /** Nothing but a stop closes a worker. */
  lemma {:induction false} ClosedIff<T>(w: Queue<T>, actions: seq<Action<T>>, z: Queue<T>)
    requires Path(w, actions, z)
    ensures z.closed <==> w.closed || exists i :: 0 <= i < |actions| && actions[i].DoStop?
    decreases |actions|
  {
    if actions == [] {
    } else {
      ClosedIff(Next(w, actions[0]), actions[1..], z);
      assert forall i :: 0 <= i < |actions| - 1 ==> actions[1..][i] == actions[i + 1];
      if i :| 0 <= i < |actions| && actions[i].DoStop? && i > 0 { assert actions[1..][i - 1].DoStop?; }
      if i :| 0 <= i < |actions[1..]| && actions[1..][i].DoStop? { assert actions[i + 1].DoStop?; }
    }
  }

  /** After `Stop` every `Send` fails and nothing more is accepted. */
  lemma {:induction false} StopIsFinal<T>(w: Queue<T>, actions: seq<Action<T>>, z: Queue<T>)
    requires w.closed && Path(w, actions, z)
    ensures z.closed && z.accepted == w.accepted && SendVerdict(z) == Closed
    decreases |actions|
  {
    if actions == [] {
    } else {
      StopIsFinal(Next(w, actions[0]), actions[1..], z);
    }
  }

  /** How many receives and handlers a stopped worker's loop has left. */
  function Remaining<T>(w: Queue<T>): nat {
    match w.loop
    case Exited => 0
    case Handling(_) => 2 * |w.queue| + 2
    case _ => 2 * |w.queue| + 1
  }

  lemma OneLoopStep<T>(w: Queue<T>, a: Action<T>)
    requires w.closed && Enabled(w, a)
    ensures Next(w, a).closed
    ensures Remaining(Next(w, a)) == Remaining(w) - if a.DoReceive? || a.DoHandled? then 1 else 0
  {
  }

  /** A stopped worker's loop, however timeouts and late sends interleave with it, makes exactly the receives and
      handlers that were left at the stop, never gets stuck before that, and then exits with everything it ever
      accepted processed in order. */
  lemma {:induction false} DrainProcessesAll<T>(w: Queue<T>, actions: seq<Action<T>>, z: Queue<T>)
    requires w.closed && Inv(w) && Path(w, actions, z)
    ensures LoopSteps(actions) + Remaining(z) == Remaining(w)
    ensures z.loop.Exited? <==> LoopSteps(actions) == Remaining(w)
    ensures z.loop.Exited? ==> z.processed == w.accepted
    ensures !z.loop.Exited? ==> Enabled(z, DoReceive) || Enabled(z, DoHandled) || Enabled(z, DoTimeoutHandled)
    decreases |actions|
  {
    if actions == [] {
      ProcessedThenPending(w);
    } else {
      StepKeepsInv(w, actions[0]);
      OneLoopStep(w, actions[0]);
      StopIsFinal(w, [actions[0]], Next(w, actions[0]));
      DrainProcessesAll(Next(w, actions[0]), actions[1..], z);
    }
  }

  /** The worker's object. `Send` and `Stop` run under the mutex, so each is one step; `Receive` and the handlers are
      the loop's steps. */
  class Worker<T> {
    const channelSize: nat
    var queue: seq<T>
    var closed: bool
    var loop: Loop<T>
    ghost var accepted: seq<T>
    ghost var processed: seq<T>

    ghost function State(): Queue<T>
      reads this
    {
      Queue(channelSize, queue, closed, loop, accepted, processed)
    }

    constructor (size: nat)
      ensures State() == Initial(size)
    {
      channelSize := size;
      queue, closed, loop := [], false, Waiting;
      accepted, processed := [], [];
    }

    method Stop()
      modifies this`closed
      ensures State() == Next(old(State()), DoStop)
    {
      if !closed {
        closed := true;
      }
    }

    method Send(task: T) returns (result: SendResult)
      modifies this`queue, this`accepted
      ensures result == SendVerdict(old(State()))
      ensures State() == Next(old(State()), DoSend(task))
      ensures result == Sent <==> !closed && |old(queue)| < channelSize
      ensures result == Closed <==> closed
      ensures queue == if result == Sent then old(queue) + [task] else old(queue)
    {
      if !closed {
        if |queue| < channelSize {
          queue := queue + [task];
          accepted := accepted + [task];
          return Sent;
        }
        return TooBusy;
      }
      return Closed;
    }

    /** The loop's channel receive: a task, or nothing once the channel is closed and empty. */
    method Receive() returns (ok: bool)
      requires Enabled(State(), DoReceive)
      modifies this`queue, this`loop
      ensures ok == (old(queue) != [])
      ensures State() == Next(old(State()), DoReceive)
    {
      if queue != [] {
        loop := Handling(queue[0]);
        queue := queue[1..];
        ok := true;
      } else {
        loop := Exited;
        ok := false;
      }
    }

    /** The handler of the task has returned. */
    method Handled()
      requires loop.Handling?
      modifies this`loop, this`processed
      ensures State() == Next(old(State()), DoHandled)
    {
      processed := processed + [loop.task];
      loop := Waiting;
    }

    /** The goroutine's loop after a stop: it processes what is left, in order, and returns. */
    method RunToEnd()
      requires closed && loop == Waiting
      modifies this`queue, this`loop, this`processed
      ensures loop == Exited && queue == [] && processed == old(processed + queue)
    {
      var ok := true;
      while ok
        invariant loop == if ok then Waiting else Exited
        invariant !ok ==> queue == []
        invariant processed + queue == old(processed + queue)
        decreases |queue|, ok
      {
        ok := Receive();
        if ok {
          Handled();
        }
      }
    }
  }
}

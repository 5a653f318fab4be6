/** A video subscription: a worker whose handler renumbers each packet and writes it to the outgoing track. */
module VideoSubscriptionModel {
  import opened Identifiers
  import opened Rewriter
  import opened RewriterRuns
  import opened EndToEnd
  import WorkerModel

  /** A call to `Unsubscribe`: begun, past the compare-and-swap that only one call wins, past the stop of the worker, or
      returned. */
  datatype Call = Begun | Won | WorkerStopped | Returned(ok: bool)

  /** `written` is everything put on the outgoing track; `removals` counts how often the track is taken off the peer
      connection. */
  datatype Subscription = Subscription(
    worker: WorkerModel.Queue<Packet>,
    rewriter: State,
    written: seq<Packet>,
    stopped: bool,
    calls: map<nat, Call>,
    removals: nat)

  datatype Action =
    | DoWriteRTP(packet: Packet)
    | DoReceive
    | DoHandlePacket
    | DoTimeout
    | DoTimeoutHandled
    | DoUnsubscribe(call: nat)
    | DoCompareAndSwap(call: nat)
    | DoStopWorker(call: nat)
    | DoRemoveTrack(call: nat)

  const CHANNEL_SIZE: nat := 16

  function Initially(): Subscription {
    Subscription(WorkerModel.Initial(CHANNEL_SIZE), INITIAL, [], false, map[], 0)
  }

  /** The step of the worker that the action amounts to. */
  function OfWorker(a: Action): WorkerModel.Action<Packet> {
    match a
    case DoWriteRTP(packet) => WorkerModel.DoSend(packet)
    case DoReceive => WorkerModel.DoReceive
    case DoHandlePacket => WorkerModel.DoHandled
    case DoTimeout => WorkerModel.DoTimeout
    case DoTimeoutHandled => WorkerModel.DoTimeoutHandled
    case _ => WorkerModel.DoStop
  }

  predicate Enabled(v: Subscription, a: Action) {
    match a
    case DoUnsubscribe(c) => c !in v.calls
    case DoCompareAndSwap(c) => c in v.calls && v.calls[c].Begun?
    case DoStopWorker(c) => c in v.calls && v.calls[c].Won?
    case DoRemoveTrack(c) => c in v.calls && v.calls[c].WorkerStopped?
    case _ => WorkerModel.Enabled(v.worker, OfWorker(a))
  }

  function Next(v: Subscription, a: Action): Subscription
    requires Enabled(v, a)
  {
    match a
    case DoUnsubscribe(c) => v.(calls := v.calls[c := Begun])
    case DoCompareAndSwap(c) => v.(stopped := true, calls := v.calls[c := if v.stopped then Returned(false) else Won])
    case DoStopWorker(c) =>
      v.(worker := WorkerModel.Next(v.worker, WorkerModel.DoStop), calls := v.calls[c := WorkerStopped])
    case DoRemoveTrack(c) => v.(calls := v.calls[c := Returned(true)], removals := v.removals + 1)
    case DoHandlePacket =>
      var p := v.worker.loop.task;
      v.(worker := WorkerModel.Next(v.worker, WorkerModel.DoHandled),
         rewriter := Step(v.rewriter, p).0,
         written := v.written + [Rewritten(v.rewriter, p)])
    case _ => v.(worker := WorkerModel.Next(v.worker, OfWorker(a)))
  }

  /** What was written is the rewriter's output, from the state it started in, on exactly the packets processed, and the
      track is taken off the peer connection once. */
  predicate Inv(v: Subscription, start: State) {
    && WorkerModel.Inv(v.worker)
    && v.rewriter == Final(start, v.worker.processed)
    && v.written == Wire(start, v.worker.processed)
    && RemovedOnce(v)
  }

  predicate Winning(c: Call) {
    c.Won? || c.WorkerStopped?
  }

  /** No call is between winning and removing the track. */
  predicate NoWinner(v: Subscription) {
    forall c :: c in v.calls ==> !Winning(v.calls[c])
  }

  /** One call wins; the track has been removed once it is through, and not before. Only a call stops the worker. */
  predicate RemovedOnce(v: Subscription) {
    && (forall c, d :: c in v.calls && d in v.calls && Winning(v.calls[c]) && Winning(v.calls[d]) ==> c == d)
    && (forall c :: c in v.calls && v.calls[c].WorkerStopped? ==> v.worker.closed)
    && (!NoWinner(v) ==> v.stopped)
    && v.removals == (if v.stopped && NoWinner(v) then 1 else 0)
    && (v.removals == 1 ==> v.worker.closed)
    && (v.worker.closed ==> v.stopped) && (v.stopped ==> v.calls.Keys != {})
  }

  lemma StepKeepsRemovedOnce(v: Subscription, a: Action)
    requires RemovedOnce(v) && Enabled(v, a)
    ensures RemovedOnce(Next(v, a))
  {
    var z := Next(v, a);
    match a
    case DoUnsubscribe(c) => assert forall d :: d in v.calls ==> z.calls[d] == v.calls[d];
    case DoCompareAndSwap(c) =>
      assert z.calls[c] == if v.stopped then Returned(false) else Won;
      assert forall d :: d in v.calls && d != c ==> z.calls[d] == v.calls[d];
    case DoStopWorker(c) => assert z.calls[c] == WorkerStopped && Winning(v.calls[c]);
    case DoRemoveTrack(c) => assert Winning(v.calls[c]);
    case _ =>
  }

  lemma StepKeepsInv(v: Subscription, start: State, a: Action)
    requires Inv(v, start) && Enabled(v, a)
    ensures Inv(Next(v, a), start)
  {
    if !a.DoUnsubscribe? && !a.DoCompareAndSwap? && !a.DoRemoveTrack? {
      WorkerModel.StepKeepsInv(v.worker, OfWorker(a));
    }
    StepKeepsRemovedOnce(v, a);
    if a.DoHandlePacket? { RunSnoc(start, v.worker.processed, v.worker.loop.task); }
  }

  ghost predicate Path(v: Subscription, actions: seq<Action>, z: Subscription)
    decreases |actions|
  {
    if actions == [] then v == z
    else Enabled(v, actions[0]) && Path(Next(v, actions[0]), actions[1..], z)
  }

  lemma {:induction false} RunsKeepInv(v: Subscription, start: State, actions: seq<Action>, z: Subscription)
    requires Inv(v, start) && Path(v, actions, z)
    ensures Inv(z, start)
    decreases |actions|
  {
    if actions == [] {
    } else {
      StepKeepsInv(v, start, actions[0]);
      RunsKeepInv(Next(v, actions[0]), start, actions[1..], z);
    }
  }

  /** Open, and fewer accepted packets than the channel's 16 places wait to be renumbered. */
  predicate HasRoom(v: Subscription) {
    !v.worker.closed && WorkerModel.Unstarted(v.worker) < 16
  }

  lemma SizeStays(v: Subscription, a: Action)
    requires Enabled(v, a)
    ensures Next(v, a).worker.channelSize == v.worker.channelSize
  {
  }

  lemma InitiallyInv()
    ensures Inv(Initially(), INITIAL)
  {
    assert Initially().worker.processed == [];
  }

  lemma WirePrefix(s: State, a: seq<Packet>, b: seq<Packet>)
    ensures Wire(s, a) <= Wire(s, a + b)
  {
    RunConcat(s, a, b);
  }

  /** In every run the packets written are the first ones the rewriter makes of the accepted packets, in order, and
      all of them once the worker's loop has exited. */
  lemma WrittenIsRewrittenAccepted(actions: seq<Action>, z: Subscription)
    requires Path(Initially(), actions, z)
    ensures z.written <= Wire(INITIAL, z.worker.accepted)
    ensures z.worker.loop.Exited? ==> z.written == Wire(INITIAL, z.worker.accepted)
  {
    InitiallyInv();
    RunsKeepInv(Initially(), INITIAL, actions, z);
    InvWritten(z, INITIAL);
  }

  lemma InvWritten(z: Subscription, start: State)
    requires Inv(z, start)
    ensures z.written <= Wire(start, z.worker.accepted)
    ensures z.worker.loop.Exited? ==> z.written == Wire(start, z.worker.accepted)
  {
    WorkerModel.ProcessedThenPending(z.worker);
    WirePrefix(start, z.worker.processed, WorkerModel.Pending(z.worker));
  }

  /** The steps that the worker sees. */
  function WorkerActions(actions: seq<Action>): seq<WorkerModel.Action<Packet>> {
    if actions == [] then []
    else
      (if actions[0].DoUnsubscribe? || actions[0].DoCompareAndSwap? || actions[0].DoRemoveTrack? then []
       else [OfWorker(actions[0])])
      + WorkerActions(actions[1..])
  }

  /** The steps of the subscription's loop: taking a packet off the channel, and renumbering and writing it. */
  function LoopSteps(actions: seq<Action>): nat {
    if actions == [] then 0
    else (if actions[0].DoReceive? || actions[0].DoHandlePacket? then 1 else 0) + LoopSteps(actions[1..])
  }

  lemma {:induction false} WorkerRuns(v: Subscription, actions: seq<Action>, z: Subscription)
    requires RemovedOnce(v) && Path(v, actions, z)
    ensures WorkerModel.Path(v.worker, WorkerActions(actions), z.worker)
    ensures WorkerModel.LoopSteps(WorkerActions(actions)) == LoopSteps(actions)
    decreases |actions|
  {
    if actions == [] {
    } else {
      var a, rest := actions[0], WorkerActions(actions[1..]);
      StepKeepsRemovedOnce(v, a);
      WorkerRuns(Next(v, a), actions[1..], z);
      if a.DoUnsubscribe? || a.DoCompareAndSwap? || a.DoRemoveTrack? {
        assert WorkerActions(actions) == rest;
      } else {
        assert WorkerActions(actions)[0] == OfWorker(a) && WorkerActions(actions)[1..] == rest;
      }
    }
  }

  /** Every packet accepted goes out: whatever sends, timeouts and unsubscriptions come in between, the subscription is
      not stuck while an accepted packet is unwritten, and after as many steps of its loop as they need, the packets
      accepted at v have been written, renumbered and in order. */
  lemma AcceptedGetsWritten(v: Subscription, start: State, actions: seq<Action>, z: Subscription)
    requires Inv(v, start) && Path(v, actions, z)
    ensures LoopSteps(actions) >= WorkerModel.Owed(v.worker, |v.worker.accepted|) ==>
              Wire(start, v.worker.accepted) <= z.written
    ensures |z.written| < |z.worker.accepted| ==>
              Enabled(z, DoReceive) || Enabled(z, DoHandlePacket) || Enabled(z, DoTimeoutHandled)
  {
    var n := |v.worker.accepted|;
    WorkerRuns(v, actions, z);
    RunsKeepInv(v, start, actions, z);
    WorkerModel.LoopProcesses(v.worker, WorkerActions(actions), z.worker, n);
    assert v.worker.accepted[..n] == v.worker.accepted;
    if v.worker.accepted <= z.worker.processed {
      assert z.worker.processed == v.worker.accepted + z.worker.processed[n..];
      WirePrefix(start, v.worker.accepted, z.worker.processed[n..]);
    }
  }

  lemma {:induction false} GoodPrefix(s: State, a: seq<Packet>, b: seq<Packet>)
    requires GoodRun(s, a + b)
    ensures GoodRun(s, a)
    decreases |a|
  {
    if a == [] {
    } else {
      assert (a + b)[0] == a[0] && (a + b)[1..] == a[1..] + b;
      GoodPrefix(Step(s, a[0]).0, a[1..], b);
    }
  }

  /** From the publisher's write to the subscriber's ear: whatever the interleaving, unwrapping what the subscription
      has written recovers the expanded identifiers of the packets it has processed. */
  lemma SubscriberRecoversIdentifiers(start: State, actions: seq<Action>, z: Subscription)
    requires Path(Initially(), actions, z) && start == INITIAL && GoodRun(start, z.worker.accepted)
    ensures Received(Heard(0, 0), z.written) == WideAll(Outgoing(start, z.worker.processed))
  {
    InitiallyInv();
    RunsKeepInv(Initially(), start, actions, z);
    InvRecovers(z, start);
  }

  lemma InvRecovers(z: Subscription, start: State)
    requires Inv(z, start) && Lockstep(start) && GoodRun(start, z.worker.accepted)
    ensures Received(Wide(start.latestOutgoing), z.written) == WideAll(Outgoing(start, z.worker.processed))
  {
    WorkerModel.ProcessedThenPending(z.worker);
    GoodPrefix(start, z.worker.processed, WorkerModel.Pending(z.worker));
    ReceiverRoundTripFrom(start, z.worker.processed);
  }

  /** The track has been taken off the peer connection. */
  predicate Unsubscribed(v: Subscription) {
    v.stopped && NoWinner(v) && v.worker.closed
  }

  lemma RemovalMeansUnsubscribed(v: Subscription)
    requires RemovedOnce(v)
    ensures v.removals <= 1 && (v.removals == 1 <==> Unsubscribed(v))
  {
  }

  lemma StaysUnsubscribed(v: Subscription, a: Action)
    requires Unsubscribed(v) && Enabled(v, a)
    ensures Unsubscribed(Next(v, a)) && Next(v, a).removals == v.removals
    ensures Next(v, a).worker.accepted == v.worker.accepted
  {
    var z := Next(v, a);
    forall d | d in z.calls ensures !Winning(z.calls[d]) {
      if d in v.calls { assert !Winning(v.calls[d]); }
    }
  }

  /** Unsubscribing takes effect once: however the calls and the end of the RTCP reader interleave afterwards, the
      track is not removed again and no packet is accepted. */
  lemma {:induction false} UnsubscribedForGood(v: Subscription, actions: seq<Action>, z: Subscription)
    requires Unsubscribed(v) && Path(v, actions, z)
    ensures Unsubscribed(z) && z.removals == v.removals && z.worker.accepted == v.worker.accepted
    ensures WorkerModel.SendVerdict(z.worker) == WorkerModel.Closed
    decreases |actions|
  {
    if actions == [] {
    } else {
      StaysUnsubscribed(v, actions[0]);
      UnsubscribedForGood(Next(v, actions[0]), actions[1..], z);
    }
  }

  class VideoSubscription {
    const worker: WorkerModel.Worker<Packet>
    const packetRewriter: PacketRewriter
    var stopped: bool
    ghost var calls: map<nat, Call>
    ghost var written: seq<Packet>
    ghost var removals: nat

    ghost function Contents(): Subscription
      reads this, worker, packetRewriter, packetRewriter.state
    {
      Subscription(worker.State(), packetRewriter.Contents(), written, stopped, calls, removals)
    }

    constructor ()
      ensures Contents() == Initially() && worker.channelSize == 16
      ensures fresh(worker) && fresh(packetRewriter) && fresh(packetRewriter.state)
    {
      worker := new WorkerModel.Worker(CHANNEL_SIZE);
      packetRewriter := new PacketRewriter();
      stopped, calls, written, removals := false, map[], [], 0;
    }

    method WriteRTP(packet: Packet) returns (result: WorkerModel.SendResult)
      modifies worker
      ensures result == WorkerModel.SendVerdict(old(worker.State()))
      ensures Contents() == Next(old(Contents()), DoWriteRTP(packet))
      ensures result == WorkerModel.Sent <==> !worker.closed && |old(worker.queue)| < worker.channelSize
      ensures worker.queue == if result == WorkerModel.Sent then old(worker.queue) + [packet] else old(worker.queue)
    {
      result := worker.Send(packet);
    }

    /** The handler that the worker's loop calls with the task it has taken. */
    method HandlePacket() returns (packet: Packet)
      requires worker.loop.Handling?
      modifies worker, packetRewriter, packetRewriter.state, this`written
      ensures Contents() == Next(old(Contents()), DoHandlePacket)
      ensures Contents().written == old(written) + [packet]
      ensures packet.payload == old(worker.loop.task.payload) && packet.ssrc == old(worker.loop.task.ssrc)
    {
      packet := packetRewriter.ProcessIncoming(worker.loop.task);
      written := written + [packet];
      worker.Handled();
    }

    /** The compare-and-swap at the start of `Unsubscribe`; only its winner goes on. */
    method CompareAndSwapStopped(ghost call: nat) returns (won: bool)
      requires Enabled(Contents(), DoCompareAndSwap(call))
      modifies this`stopped, this`calls
      ensures won == !old(stopped)
      ensures Contents() == Next(old(Contents()), DoCompareAndSwap(call))
    {
      won := !stopped;
      calls := calls[call := if stopped then Returned(false) else Won];
      if won {
        stopped := true;
      }
    }

    method StopWorker(ghost call: nat)
      requires Enabled(Contents(), DoStopWorker(call))
      modifies worker, this`calls
      ensures Contents() == Next(old(Contents()), DoStopWorker(call))
    {
      worker.Stop();
      calls := calls[call := WorkerStopped];
    }

    method RemoveTrack(ghost call: nat)
      requires Enabled(Contents(), DoRemoveTrack(call))
      modifies this`calls, this`removals
      ensures Contents() == Next(old(Contents()), DoRemoveTrack(call))
    {
      removals := removals + 1;
      calls := calls[call := Returned(true)];
    }

    /** A call that nobody else gets in between of. */
    method Unsubscribe(ghost call: nat) returns (ok: bool)
      requires Enabled(Contents(), DoUnsubscribe(call))
      modifies worker, this`stopped, this`calls, this`removals
      ensures ok == !old(stopped) && stopped && calls == old(calls)[call := Returned(ok)]
      ensures removals == old(removals) + if ok then 1 else 0
      ensures worker.State() ==
              if ok then WorkerModel.Next(old(worker.State()), WorkerModel.DoStop) else old(worker.State())
      ensures Contents().written == old(written) && Contents().rewriter == old(Contents()).rewriter
    {
      calls := calls[call := Begun];
      ok := CompareAndSwapStopped(call);
      if ok {
        StopWorker(call);
        RemoveTrack(call);
      }
    }
  }
}

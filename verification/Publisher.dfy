/** A publisher reads packets from a remote track and hands each to all subscriptions it feeds. */
module PublisherModel {
  import opened Identifiers
  import opened Rewriter
  import opened RewriterRuns
  import opened EndToEnd
  import StatusObserverModel
  import VideoSubscriptionModel
  import WorkerModel

  datatype Option<T> = None | Some(value: T)

  // ---------------------------------------------------------------------------------------------
  // One subscription's view of its publishers
  // ---------------------------------------------------------------------------------------------

  /** A publisher that feeds the subscription forwards a packet, one that does not forwards a packet, the subscription
      is put on a feed or taken off, or it acts on its own. */
  datatype Event =
    | Forwarded(packet: Packet)
    | Added
    | Removed
    | Own(action: VideoSubscriptionModel.Action)

  datatype Feed = Feed(fed: bool, subscription: VideoSubscriptionModel.Subscription)

  predicate Enabled(f: Feed, e: Event) {
    e.Own? ==> !e.action.DoWriteRTP? && VideoSubscriptionModel.Enabled(f.subscription, e.action)
  }

  function Next(f: Feed, e: Event): Feed
    requires Enabled(f, e)
  {
    match e
    case Forwarded(packet) =>
      var write := VideoSubscriptionModel.DoWriteRTP(packet);
      if f.fed then f.(subscription := VideoSubscriptionModel.Next(f.subscription, write)) else f
    case Added => f.(fed := true)
    case Removed => f.(fed := false)
    case Own(action) => f.(subscription := VideoSubscriptionModel.Next(f.subscription, action))
  }

  ghost predicate Path(f: Feed, events: seq<Event>, g: Feed)
    decreases |events|
  {
    if events == [] then f == g
    else Enabled(f, events[0]) && Path(Next(f, events[0]), events[1..], g)
  }

  /** The packets forwarded while the subscription was fed, whatever became of them. */
  function Delivered(fed: bool, events: seq<Event>): seq<Packet>
    decreases |events|
  {
    if events == [] then []
    else
      var now := match events[0]
                 case Added => true
                 case Removed => false
                 case _ => fed;
      (if events[0].Forwarded? && fed then [events[0].packet] else []) + Delivered(now, events[1..])
  }

  predicate IsTaken(f: Feed, e: Event) {
    e.Forwarded? && f.fed && WorkerModel.SendVerdict(f.subscription.worker) == WorkerModel.Sent
  }

  /** The packets the subscription's worker takes. */
  ghost function Taken(f: Feed, events: seq<Event>, g: Feed): seq<Packet>
    requires Path(f, events, g)
    decreases |events|
  {
    if events == [] then []
    else
      (if IsTaken(f, events[0]) then [events[0].packet] else []) + Taken(Next(f, events[0]), events[1..], g)
  }

  /** How often the subscription refused a packet, being too busy or closed. */
  ghost function Refusals(f: Feed, events: seq<Event>, g: Feed): nat
    requires Path(f, events, g)
    decreases |events|
  {
    if events == [] then 0
    else
      (if events[0].Forwarded? && f.fed && !IsTaken(f, events[0]) then 1 else 0)
      + Refusals(Next(f, events[0]), events[1..], g)
  }

  /** `a` is `b` with some elements left out. */
  predicate Thinned<T(==)>(a: seq<T>, b: seq<T>) {
    if a == [] then true
    else if b == [] then false
    else if a[0] == b[0] then Thinned(a[1..], b[1..])
    else Thinned(a, b[1..])
  }

  lemma {:induction false} ThinnedSkips<T>(a: seq<T>, x: T, b: seq<T>)
    requires Thinned(a, b)
    ensures Thinned(a, [x] + b)
    decreases |b|
  {
    var c := [x] + b;
    assert c[0] == x && c[1..] == b;
    if a != [] && a[0] == x && b != [] {
      if a[0] == b[0] {
        assert b == [b[0]] + b[1..];
        ThinnedSkips(a[1..], b[0], b[1..]);
      } else {
        ThinnedDrops(a, b[1..]);
        assert b == [b[0]] + b[1..];
        ThinnedSkips(a[1..], b[0], b[1..]);
      }
    }
  }

  lemma {:induction false} ThinnedDrops<T>(a: seq<T>, b: seq<T>)
    requires Thinned(a, b) && a != []
    ensures Thinned(a[1..], b)
    decreases |b|
  {
    if a[0] == b[0] {
      assert b == [b[0]] + b[1..];
      ThinnedSkips(a[1..], b[0], b[1..]);
    } else {
      ThinnedDrops(a, b[1..]);
      assert b == [b[0]] + b[1..];
      ThinnedSkips(a[1..], b[0], b[1..]);
    }
  }

  lemma ThinnedKeeps<T>(a: seq<T>, x: T, b: seq<T>)
    requires Thinned(a, b)
    ensures Thinned([x] + a, [x] + b)
  {
    var c, d := [x] + a, [x] + b;
    assert c[1..] == a && d[1..] == b;
  }

  lemma {:induction false} AcceptedIsTaken(f: Feed, events: seq<Event>, g: Feed)
    requires Path(f, events, g)
    ensures g.subscription.worker.accepted == f.subscription.worker.accepted + Taken(f, events, g)
    decreases |events|
  {
    if events == [] {
    } else {
      var f' := Next(f, events[0]);
      OneEvent(f, events[0]);
      AcceptedIsTaken(f', events[1..], g);
      assert f.subscription.worker.accepted + Taken(f, events, g)
          == f'.subscription.worker.accepted + Taken(f', events[1..], g);
    }
  }

  lemma {:induction false} TakenIsThinned(f: Feed, events: seq<Event>, g: Feed)
    requires Path(f, events, g)
    ensures Thinned(Taken(f, events, g), Delivered(f.fed, events))
    ensures |Taken(f, events, g)| + Refusals(f, events, g) == |Delivered(f.fed, events)|
    decreases |events|
  {
    if events == [] {
    } else {
      var e, f' := events[0], Next(f, events[0]);
      var taken, delivered := Taken(f', events[1..], g), Delivered(f'.fed, events[1..]);
      TakenIsThinned(f', events[1..], g);
      DeliveredStep(f, events);
      if IsTaken(f, e) {
        ThinnedKeeps(taken, e.packet, delivered);
      } else {
        assert Taken(f, events, g) == taken;
        if e.Forwarded? && f.fed {
          ThinnedSkips(taken, e.packet, delivered);
        } else {
          assert Delivered(f.fed, events) == delivered;
        }
      }
    }
  }

  lemma DeliveredStep(f: Feed, events: seq<Event>)
    requires events != [] && Enabled(f, events[0])
    ensures Delivered(f.fed, events)
            == (if events[0].Forwarded? && f.fed then [events[0].packet] else [])
               + Delivered(Next(f, events[0]).fed, events[1..])
  {
  }

  lemma {:induction false} ThinnedToTheSameLength<T>(a: seq<T>, b: seq<T>)
    requires Thinned(a, b)
    ensures |a| <= |b| && (|a| == |b| ==> a == b)
    decreases |b|
  {
    if a != [] {
      if a[0] == b[0] {
        ThinnedToTheSameLength(a[1..], b[1..]);
        assert a == [a[0]] + a[1..] && b == [b[0]] + b[1..];
      } else {
        ThinnedToTheSameLength(a, b[1..]);
      }
    }
  }

  /** Between a publisher and a subscription's worker packets are only lost, never repeated or reordered, and the
      refusals count the losses: whatever the interleaving, the packets newly accepted are the delivered ones without
      the refused ones. */
  lemma FeedConserves(f: Feed, events: seq<Event>, g: Feed) returns (taken: seq<Packet>)
    requires Path(f, events, g)
    ensures g.subscription.worker.accepted == f.subscription.worker.accepted + taken
    ensures Thinned(taken, Delivered(f.fed, events))
    ensures |taken| + Refusals(f, events, g) == |Delivered(f.fed, events)|
    ensures Refusals(f, events, g) == 0 <==> taken == Delivered(f.fed, events)
  {
    taken := Taken(f, events, g);
    AcceptedIsTaken(f, events, g);
    TakenIsThinned(f, events, g);
    ThinnedToTheSameLength(taken, Delivered(f.fed, events));
  }

  /** Each packet that is delivered finds room at the subscription. */
  ghost predicate FindsRoom(f: Feed, events: seq<Event>, g: Feed)
    requires Path(f, events, g)
    decreases |events|
  {
    events != [] ==>
      && (events[0].Forwarded? && f.fed ==> VideoSubscriptionModel.HasRoom(f.subscription))
      && FindsRoom(Next(f, events[0]), events[1..], g)
  }

  lemma {:induction false} RefusesNoneIff(f: Feed, start: State, events: seq<Event>, g: Feed)
    requires VideoSubscriptionModel.Inv(f.subscription, start) && f.subscription.worker.channelSize == 16
    requires Path(f, events, g)
    ensures Refusals(f, events, g) == 0 <==> FindsRoom(f, events, g)
    decreases |events|
  {
    if events == [] {
    } else {
      match events[0] {
        case Forwarded(packet) =>
          WorkerModel.SendAcceptsIff(f.subscription.worker, packet);
          VideoSubscriptionModel.StepKeepsInv(f.subscription, start, VideoSubscriptionModel.DoWriteRTP(packet));
        case Own(action) =>
          VideoSubscriptionModel.StepKeepsInv(f.subscription, start, action);
          VideoSubscriptionModel.SizeStays(f.subscription, action);
        case _ =>
      }
      RefusesNoneIff(Next(f, events[0]), start, events[1..], g);
    }
  }

  /** From the start of a subscription everything delivered is taken exactly when each packet, on delivery, finds the
      subscription open and fewer than 16 packets waiting. */
  lemma NothingLostIff(f: Feed, events: seq<Event>, g: Feed)
    requires f == Feed(false, VideoSubscriptionModel.Initially()) && Path(f, events, g)
    ensures g.subscription.worker.accepted == Delivered(false, events) <==> FindsRoom(f, events, g)
  {
    var taken := FeedConserves(f, events, g);
    assert g.subscription.worker.accepted == taken;
    VideoSubscriptionModel.InitiallyInv();
    RefusesNoneIff(f, INITIAL, events, g);
  }

  lemma OneEvent(f: Feed, e: Event)
    requires Enabled(f, e)
    ensures Next(f, e).subscription.worker.accepted
            == f.subscription.worker.accepted + if IsTaken(f, e) then [e.packet] else []
  {
    if e.Own? {
      OwnStepAcceptsNothing(f.subscription, e.action);
    } else if e.Forwarded? && f.fed {
      assert Next(f, e).subscription.worker == WorkerModel.Next(f.subscription.worker, WorkerModel.DoSend(e.packet));
    }
  }

  lemma OwnStepAcceptsNothing(v: VideoSubscriptionModel.Subscription, a: VideoSubscriptionModel.Action)
    requires VideoSubscriptionModel.Enabled(v, a) && !a.DoWriteRTP?
    ensures VideoSubscriptionModel.Next(v, a).worker.accepted == v.worker.accepted
  {
  }

  lemma {:induction false} FeedKeepsInv(f: Feed, start: State, events: seq<Event>, g: Feed)
    requires VideoSubscriptionModel.Inv(f.subscription, start) && Path(f, events, g)
    ensures VideoSubscriptionModel.Inv(g.subscription, start)
    decreases |events|
  {
    if events == [] {
    } else {
      match events[0] {
        case Forwarded(packet) =>
          VideoSubscriptionModel.StepKeepsInv(f.subscription, start, VideoSubscriptionModel.DoWriteRTP(packet));
        case Own(action) => VideoSubscriptionModel.StepKeepsInv(f.subscription, start, action);
        case _ =>
      }
      FeedKeepsInv(Next(f, events[0]), start, events[1..], g);
    }
  }

  lemma WrittenKeepsMedia(v: VideoSubscriptionModel.Subscription, start: State)
    requires VideoSubscriptionModel.Inv(v, start)
    ensures |v.written| <= |v.worker.accepted|
    ensures forall k :: 0 <= k < |v.written| ==>
              && v.written[k].payload == v.worker.accepted[k].payload
              && v.written[k].ssrc == v.worker.accepted[k].ssrc
  {
    WorkerModel.ProcessedThenPending(v.worker);
    WireKeepsMedia(start, v.worker.processed);
  }

  /** From the remote track to the subscriber: whatever the interleaving of forwarding, layer changes, the worker and
      the end of the subscription, what goes out is the rewriter's image of the delivered packets without the refused
      ones, in order and complete once the worker has exited; and the subscriber recovers the identifiers. */
  lemma PublisherToSubscriber(f: Feed, start: State, events: seq<Event>, g: Feed)
    requires f == Feed(false, VideoSubscriptionModel.Initially()) && start == INITIAL && Path(f, events, g)
    ensures var taken, v := Taken(f, events, g), g.subscription;
            && Thinned(taken, Delivered(false, events))
            && v.written <= Wire(start, taken)
            && (v.worker.loop.Exited? ==> v.written == Wire(start, taken))
            && |v.written| <= |taken|
            && (forall k :: 0 <= k < |v.written| ==>
                  v.written[k].payload == taken[k].payload && v.written[k].ssrc == taken[k].ssrc)
            && (GoodRun(start, taken) ==>
                  Received(Heard(0, 0), v.written) == WideAll(Outgoing(start, v.worker.processed)))
  {
    var taken, v := Taken(f, events, g), g.subscription;
    AcceptedIsTaken(f, events, g);
    TakenIsThinned(f, events, g);
    assert v.worker.accepted == taken;
    VideoSubscriptionModel.InitiallyInv();
    FeedKeepsInv(f, start, events, g);
    VideoSubscriptionModel.InvWritten(v, start);
    WrittenKeepsMedia(v, start);
    if GoodRun(start, taken) { VideoSubscriptionModel.InvRecovers(v, start); }
  }

  // ---------------------------------------------------------------------------------------------
  // The publisher's object
  // ---------------------------------------------------------------------------------------------

  lemma TakesWithRoom(v: VideoSubscriptionModel.Subscription, packet: Packet)
    ensures var w, z := v.worker, VideoSubscriptionModel.Next(v, VideoSubscriptionModel.DoWriteRTP(packet)).worker;
            && z.closed == w.closed
            && z.queue == if !w.closed && |w.queue| < w.channelSize then w.queue + [packet] else w.queue
  {
  }

  /** How the set of subscriptions changes is the business of the published track. */
  class Publisher {
    const observer: StatusObserverModel.StatusObserver
    var subscriptions: set<VideoSubscriptionModel.VideoSubscription>

    constructor (subs: set<VideoSubscriptionModel.VideoSubscription>)
      ensures subscriptions == subs && fresh(observer)
    {
      observer := new StatusObserverModel.StatusObserver();
      subscriptions := subs;
    }

    /** No two of the subscriptions share a worker. */
    ghost predicate Valid()
      reads this
    {
      forall s, t :: s in subscriptions && t in subscriptions && s.worker == t.worker ==> s == t
    }

    /** The loop over the subscriptions, in any order. */
    method WriteToAll(packet: Packet)
      requires Valid()
      modifies set s | s in subscriptions :: s.worker
      ensures forall s :: s in subscriptions ==>
                s.Contents() ==
                VideoSubscriptionModel.Next(old(s.Contents()), VideoSubscriptionModel.DoWriteRTP(packet))
    {
      var pending := subscriptions;
      while pending != {}
        invariant pending <= subscriptions
        invariant forall s :: s in subscriptions ==>
                    s.Contents() ==
                    if s in pending then old(s.Contents())
                    else VideoSubscriptionModel.Next(old(s.Contents()), VideoSubscriptionModel.DoWriteRTP(packet))
        decreases pending
      {
        var s :| s in pending;
        var _ := s.WriteRTP(packet);
        pending := pending - {s};
      }
    }

    /** One packet, or the error that ends the publisher. The observer hears of the packet, and every subscription is
        written to once, in any order, whatever the others answer. */
    method ForwardPacket(read: Option<Packet>) returns (ok: bool)
      requires Valid()
      modifies observer, set s | s in subscriptions :: s.worker
      ensures ok == read.Some?
      ensures observer.State() ==
              if ok then StatusObserverModel.Next(old(observer.State()), StatusObserverModel.DoPacketArrived)
              else old(observer.State())
      ensures forall s :: s in subscriptions ==>
                s.Contents() ==
                if ok then VideoSubscriptionModel.Next(old(s.Contents()), VideoSubscriptionModel.DoWriteRTP(read.value))
                else old(s.Contents())
      ensures ok && !observer.workerClosed ==> observer.arrivals > 0
      ensures ok ==> forall s :: s in subscriptions ==>
                s.worker.queue == if !s.worker.closed && |old(s.worker.queue)| < s.worker.channelSize
                                  then old(s.worker.queue) + [read.value] else old(s.worker.queue)
    {
      ok := read.Some?;
      if !ok { return; }
      observer.PacketArrived();
      WriteToAll(read.value);
      forall s | s in subscriptions
        ensures s.worker.queue == if !s.worker.closed && |old(s.worker.queue)| < s.worker.channelSize
                                  then old(s.worker.queue) + [read.value] else old(s.worker.queue)
      {
        TakesWithRoom(old(s.Contents()), read.value);
        assert s.Contents().worker == s.worker.State() && old(s.Contents()).worker == old(s.worker.State());
      }
    }
  }
}

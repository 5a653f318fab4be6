/** One video subscription inside its track: the track's steps, the publishers' forwarding, the subscription's worker
    and the calls that end it, in any interleaving, from the remote tracks to what the subscriber recovers. */
module TrackToSubscriber {
  import E = EndToEnd
  import opened FeedSources
  import opened Layers
  import opened TrackModel
  import opened TrackSystem
  import P = PublisherModel
  import R = Rewriter
  import RewriterRuns
  import V = VideoSubscriptionModel

  datatype Joint<ID(==), Sub(==), Pub(==)> = Joint(system: System<ID, Sub, Pub>, subscription: V.Subscription)

  /** An event of the track, or a step of the subscription's own. */
  datatype JointEvent<ID(==), Sub(==), Pub(==)> = Around(event: Event<ID, Sub, Pub>) | Inside(action: V.Action)

  ghost predicate JointCan<ID, Sub, Pub>(j: Joint<ID, Sub, Pub>, e: JointEvent<ID, Sub, Pub>) {
    match e
    case Around(event) => Can(j.system, event)
    case Inside(action) => !action.DoWriteRTP? && V.Enabled(j.subscription, action)
  }

  /** A publisher that feeds the subscription writes its packet to it. */
  function Written<ID, Sub, Pub>(j: Joint<ID, Sub, Pub>, e: Event<ID, Sub, Pub>, s: Sub): V.Subscription {
    match e
    case Forwards(pub, packet) =>
      var write := V.DoWriteRTP(packet);
      if Feeds(j.system, pub, s) then V.Next(j.subscription, write) else j.subscription
    case Acts(_) => j.subscription
  }

  ghost function JointAfter<ID, Sub, Pub>(
    j: Joint<ID, Sub, Pub>, e: JointEvent<ID, Sub, Pub>, s: Sub
  ): Joint<ID, Sub, Pub>
    requires JointCan(j, e)
  {
    match e
    case Inside(action) => j.(subscription := V.Next(j.subscription, action))
    case Around(event) => Joint(After(j.system, event), Written(j, event, s))
  }

  ghost predicate JointRun<ID, Sub, Pub>(
    j: Joint<ID, Sub, Pub>, events: seq<JointEvent<ID, Sub, Pub>>, k: Joint<ID, Sub, Pub>, s: Sub
  )
    decreases |events|
  {
    if events == [] then j == k
    else JointCan(j, events[0]) && JointRun(JointAfter(j, events[0], s), events[1..], k, s)
  }

  /** The track's part of the run. */
  function TrackEvents<ID, Sub, Pub>(events: seq<JointEvent<ID, Sub, Pub>>): seq<Event<ID, Sub, Pub>> {
    if events == [] then []
    else (if events[0].Around? then [events[0].event] else []) + TrackEvents(events[1..])
  }

  // ---------------------------------------------------------------------------------------------
  // The run as the subscription sees it
  // ---------------------------------------------------------------------------------------------

  ghost function AsFeed<ID, Sub, Pub>(j: Joint<ID, Sub, Pub>, s: Sub): P.Feed {
    P.Feed(IsFed(j.system, s), j.subscription)
  }

  ghost function JointSeen<ID, Sub, Pub>(j: Joint<ID, Sub, Pub>, e: JointEvent<ID, Sub, Pub>, s: Sub): seq<P.Event>
    requires JointCan(j, e)
  {
    match e
    case Inside(action) => [P.Own(action)]
    case Around(event) => Seen(j.system, event, s)
  }

  ghost function JointSeenAll<ID, Sub, Pub>(
    j: Joint<ID, Sub, Pub>, events: seq<JointEvent<ID, Sub, Pub>>, k: Joint<ID, Sub, Pub>, s: Sub
  ): seq<P.Event>
    requires JointRun(j, events, k, s)
    decreases |events|
  {
    if events == [] then []
    else JointSeen(j, events[0], s) + JointSeenAll(JointAfter(j, events[0], s), events[1..], k, s)
  }

  lemma PathCons(f: P.Feed, e: P.Event, rest: seq<P.Event>, g: P.Feed)
    requires P.Enabled(f, e) && P.Path(P.Next(f, e), rest, g)
    ensures P.Path(f, [e] + rest, g)
  {
    assert ([e] + rest)[0] == e && ([e] + rest)[1..] == rest;
  }

  /** One event changes nothing for the subscription, or is one event of its feed. */
  lemma OneEvent<ID, Sub, Pub>(j: Joint<ID, Sub, Pub>, e: JointEvent<ID, Sub, Pub>, s: Sub)
    requires Inv(j.system) && JointCan(j, e)
    ensures var seen, f, g := JointSeen(j, e, s), AsFeed(j, s), AsFeed(JointAfter(j, e, s), s);
            if seen == [] then f == g
            else seen == [seen[0]] && P.Enabled(f, seen[0]) && P.Next(f, seen[0]) == g
  {
    if e.Around? && e.event.Forwards? && Feeds(j.system, e.event.pub, s) {
      LiveFeeds(j.system, e.event.pub, s);
    }
  }

  lemma {:induction false} JointIsFeed<ID, Sub, Pub>(
    j: Joint<ID, Sub, Pub>, events: seq<JointEvent<ID, Sub, Pub>>, k: Joint<ID, Sub, Pub>, s: Sub
  )
    requires Inv(j.system) && JointRun(j, events, k, s)
    ensures P.Path(AsFeed(j, s), JointSeenAll(j, events, k, s), AsFeed(k, s))
    decreases |events|
  {
    if events == [] {
    } else {
      var e, j' := events[0], JointAfter(j, events[0], s);
      var seen, later := JointSeen(j, e, s), JointSeenAll(j', events[1..], k, s);
      if e.Around? { AfterKeepsInv(j.system, e.event); }
      JointIsFeed(j', events[1..], k, s);
      OneEvent(j, e, s);
      if seen == [] {
        assert seen + later == later;
      } else {
        PathCons(AsFeed(j, s), seen[0], later, AsFeed(k, s));
      }
    }
  }

  lemma {:induction false} TrackRuns<ID, Sub, Pub>(
    j: Joint<ID, Sub, Pub>, events: seq<JointEvent<ID, Sub, Pub>>, k: Joint<ID, Sub, Pub>, s: Sub
  )
    requires JointRun(j, events, k, s)
    ensures Run(j.system, TrackEvents(events), k.system)
    decreases |events|
  {
    if events == [] {
    } else {
      var j' := JointAfter(j, events[0], s);
      TrackRuns(j', events[1..], k, s);
      if events[0].Around? {
        var all, rest := TrackEvents(events), TrackEvents(events[1..]);
        assert all[0] == events[0].event && all[1..] == rest;
      } else {
        assert TrackEvents(events) == TrackEvents(events[1..]);
      }
    }
  }

  /** The subscription's own steps do not show in what is delivered to it. */
  lemma {:induction false} SeenDelivers<ID, Sub, Pub>(
    j: Joint<ID, Sub, Pub>, events: seq<JointEvent<ID, Sub, Pub>>, k: Joint<ID, Sub, Pub>, s: Sub, fed: bool
  )
    requires JointRun(j, events, k, s) && Run(j.system, TrackEvents(events), k.system)
    ensures P.Delivered(fed, JointSeenAll(j, events, k, s)) ==
            P.Delivered(fed, SeenAll(j.system, TrackEvents(events), k.system, s))
    decreases |events|
  {
    if events == [] {
    } else {
      var e, j', rest := events[0], JointAfter(j, events[0], s), TrackEvents(events[1..]);
      var seen, later := JointSeen(j, e, s), JointSeenAll(j', events[1..], k, s);
      TrackRuns(j', events[1..], k, s);
      if e.Inside? {
        assert TrackEvents(events) == rest && j'.system == j.system;
        DeliveredCons(fed, seen[0], later);
        SeenDelivers(j', events[1..], k, s, fed);
      } else {
        assert TrackEvents(events)[0] == e.event && TrackEvents(events)[1..] == rest;
        AroundDelivers(j, e, j', later, SeenAll(j'.system, rest, k.system, s), s, fed);
        SeenDelivers(j', events[1..], k, s, false);
        SeenDelivers(j', events[1..], k, s, true);
      }
    }
  }

  lemma AroundDelivers<ID, Sub, Pub>(
    j: Joint<ID, Sub, Pub>, e: JointEvent<ID, Sub, Pub>, j': Joint<ID, Sub, Pub>,
    later: seq<P.Event>, later': seq<P.Event>, s: Sub, fed: bool
  )
    requires JointCan(j, e) && e.Around?
    ensures P.Delivered(false, later) == P.Delivered(false, later')
            && P.Delivered(true, later) == P.Delivered(true, later')
            ==> P.Delivered(fed, JointSeen(j, e, s) + later) == P.Delivered(fed, Seen(j.system, e.event, s) + later')
  {
    var seen := Seen(j.system, e.event, s);
    if seen == [] {
      assert seen + later == later && seen + later' == later';
    } else {
      assert seen == [seen[0]];
      DeliveredCons(fed, seen[0], later);
      DeliveredCons(fed, seen[0], later');
    }
  }

  /** Each packet that a feeding publisher forwards finds room at the subscription. */
  ghost predicate JointRoom<ID, Sub, Pub>(
    j: Joint<ID, Sub, Pub>, events: seq<JointEvent<ID, Sub, Pub>>, k: Joint<ID, Sub, Pub>, s: Sub
  )
    requires JointRun(j, events, k, s)
    decreases |events|
  {
    events != [] ==>
      && (IsDelivery(j, events[0], s) ==> V.HasRoom(j.subscription))
      && JointRoom(JointAfter(j, events[0], s), events[1..], k, s)
  }

  predicate IsDelivery<ID, Sub, Pub>(j: Joint<ID, Sub, Pub>, e: JointEvent<ID, Sub, Pub>, s: Sub) {
    e.Around? && e.event.Forwards? && Feeds(j.system, e.event.pub, s)
  }

  lemma {:induction false} JointRoomIsFeedRoom<ID, Sub, Pub>(
    j: Joint<ID, Sub, Pub>, events: seq<JointEvent<ID, Sub, Pub>>, k: Joint<ID, Sub, Pub>, s: Sub
  )
    requires Inv(j.system) && JointRun(j, events, k, s)
    requires P.Path(AsFeed(j, s), JointSeenAll(j, events, k, s), AsFeed(k, s))
    ensures JointRoom(j, events, k, s) <==> P.FindsRoom(AsFeed(j, s), JointSeenAll(j, events, k, s), AsFeed(k, s))
    decreases |events|
  {
    if events == [] {
    } else {
      var e, j' := events[0], JointAfter(j, events[0], s);
      var seen, later := JointSeen(j, e, s), JointSeenAll(j', events[1..], k, s);
      if e.Around? { AfterKeepsInv(j.system, e.event); }
      OneEvent(j, e, s);
      JointIsFeed(j', events[1..], k, s);
      JointRoomIsFeedRoom(j', events[1..], k, s);
      if seen == [] {
        assert seen + later == later;
      } else {
        DeliverySeen(j, e, s);
        assert (seen + later)[0] == seen[0] && (seen + later)[1..] == later;
      }
    }
  }

  lemma DeliverySeen<ID, Sub, Pub>(j: Joint<ID, Sub, Pub>, e: JointEvent<ID, Sub, Pub>, s: Sub)
    requires Inv(j.system) && JointCan(j, e)
    ensures var seen := JointSeen(j, e, s);
            if seen == [] then !IsDelivery(j, e, s)
            else IsDelivery(j, e, s) <==> seen[0].Forwarded? && IsFed(j.system, s)
  {
    if IsDelivery(j, e, s) { LiveFeeds(j.system, e.event.pub, s); }
  }

  // ---------------------------------------------------------------------------------------------
  // From the remote tracks to the subscriber
  // ---------------------------------------------------------------------------------------------

  /** In every interleaving of the track, its publishers, the subscription's worker and its unsubscription: what goes
      out is the rewriter's image, in order, of the packets that the feeding publishers handed over, without the
      refused ones; it is complete once the worker has exited; it carries their payloads; and the subscriber recovers
      the identifiers. None is refused exactly when each finds the subscription open with fewer than 16 waiting. */
  lemma TrackReachesSubscriber<ID, Sub, Pub>(
    j: Joint<ID, Sub, Pub>, start: R.State, events: seq<JointEvent<ID, Sub, Pub>>, k: Joint<ID, Sub, Pub>, s: Sub
  )
    returns (taken: seq<Packet>)
    requires Inv(j.system) && s !in j.system.track.layerOf && j.subscription == V.Initially() && start == R.INITIAL
    requires JointRun(j, events, k, s)
    ensures Run(j.system, TrackEvents(events), k.system)
    ensures P.Thinned(taken, Packets(Deliveries(j.system, TrackEvents(events), k.system, s)))
    ensures k.subscription.written <= RewriterRuns.Wire(start, taken)
    ensures k.subscription.worker.loop.Exited? ==> k.subscription.written == RewriterRuns.Wire(start, taken)
    ensures |k.subscription.written| <= |taken|
    ensures forall i :: 0 <= i < |k.subscription.written| ==>
              && k.subscription.written[i].payload == taken[i].payload
              && k.subscription.written[i].ssrc == taken[i].ssrc
    ensures JointRoom(j, events, k, s) <==> taken == Packets(Deliveries(j.system, TrackEvents(events), k.system, s))
    ensures E.GoodRun(start, taken) ==>
              E.Received(E.Heard(0, 0), k.subscription.written)
              == E.WideAll(RewriterRuns.Outgoing(start, k.subscription.worker.processed))
  {
    var f, g, seen := AsFeed(j, s), AsFeed(k, s), JointSeenAll(j, events, k, s);
    JointIsFeed(j, events, k, s);
    TrackRuns(j, events, k, s);
    SeenDelivers(j, events, k, s, false);
    DeliveredIsDeliveries(j.system, TrackEvents(events), k.system, s);
    taken := P.Taken(f, seen, g);
    P.AcceptedIsTaken(f, seen, g);
    P.NothingLostIff(f, seen, g);
    JointRoomIsFeedRoom(j, events, k, s);
    P.PublisherToSubscriber(f, start, seen, g);
  }
}

/** Where a subscription's packets come from: the track decides which publisher feeds it, the publishers forward. */
module FeedSources {
  import opened Layers
  import opened TrackModel
  import opened TrackSystem
  import P = PublisherModel
  import Rewriter
  import RewriterRuns

  type Packet = Rewriter.Packet

  /** A step of the track, or a packet that a running publisher forwards to whatever it feeds. */
  datatype Event<ID(==), Sub(==), Pub(==)> =
    | Acts(action: Action<ID, Sub, Pub>)
    | Forwards(pub: Pub, packet: Packet)

  ghost predicate Can<ID, Sub, Pub>(y: System<ID, Sub, Pub>, e: Event<ID, Sub, Pub>) {
    match e
    case Acts(a) => Typed(y) && Enabled(y, a) && KeepsUnmixed(y, a) && Next(y, a).Stepped?
    case Forwards(pub, _) => pub in y.running
  }

  ghost function After<ID, Sub, Pub>(y: System<ID, Sub, Pub>, e: Event<ID, Sub, Pub>): System<ID, Sub, Pub>
    requires Can(y, e)
  {
    match e
    case Acts(a) => Next(y, a).system
    case Forwards(_, _) => y
  }

  ghost predicate Run<ID, Sub, Pub>(
    y: System<ID, Sub, Pub>, events: seq<Event<ID, Sub, Pub>>, z: System<ID, Sub, Pub>
  )
    decreases |events|
  {
    if events == [] then y == z
    else Can(y, events[0]) && Run(After(y, events[0]), events[1..], z)
  }

  /** The publisher hands its packets to the subscription. */
  predicate Feeds<ID, Sub, Pub>(y: System<ID, Sub, Pub>, pub: Pub, s: Sub) {
    pub in y.track.feeds && s in y.track.feeds[pub]
  }

  /** What the subscription is handed over the run, with the publisher it comes from. */
  ghost function Deliveries<ID, Sub, Pub>(
    y: System<ID, Sub, Pub>, events: seq<Event<ID, Sub, Pub>>, z: System<ID, Sub, Pub>, s: Sub
  ): seq<(Pub, Packet)>
    requires Run(y, events, z)
    decreases |events|
  {
    if events == [] then []
    else
      (if events[0].Forwards? && Feeds(y, events[0].pub, s) then [(events[0].pub, events[0].packet)] else [])
      + Deliveries(After(y, events[0]), events[1..], z, s)
  }

  /** The subscription stands on the layer throughout, and the layer's publisher does not stop. */
  ghost predicate StaysOn<ID, Sub, Pub>(
    y: System<ID, Sub, Pub>, events: seq<Event<ID, Sub, Pub>>, z: System<ID, Sub, Pub>, s: Sub, l: Layer
  )
    requires Run(y, events, z)
    decreases |events|
  {
    && s in y.track.layerOf && y.track.layerOf[s] == l
    && (events != [] ==> !Stops(y, events[0], l) && StaysOn(After(y, events[0]), events[1..], z, s, l))
  }

  predicate Stops<ID, Sub, Pub>(y: System<ID, Sub, Pub>, e: Event<ID, Sub, Pub>, l: Layer) {
    e.Acts? && e.action.DoStopped? && e.action.pub in y.track.pubLayer && y.track.pubLayer[e.action.pub] == l
  }

  lemma AfterKeepsInv<ID, Sub, Pub>(y: System<ID, Sub, Pub>, e: Event<ID, Sub, Pub>)
    requires Inv(y) && Can(y, e)
    ensures Inv(After(y, e))
  {
    if e.Acts? { StepKeepsInv(y, e.action); }
  }

  /** A layer keeps its publisher until that one stops. */
  lemma PublisherStays<ID, Sub, Pub>(y: System<ID, Sub, Pub>, e: Event<ID, Sub, Pub>, l: Layer)
    requires Inv(y) && Can(y, e) && l in y.track.publishers && !Stops(y, e, l)
    ensures l in After(y, e).track.publishers && After(y, e).track.publishers[l] == y.track.publishers[l]
  {
    if e.Acts? {
      if e.action.DoStopped? {
        StopOnlyRemovesPublisher(y.track, e.action.pub, e.action.survivor);
      } else if !e.action.DoAddPublisher? {
        OthersKeepPublishers(y, e.action);
      }
    }
  }

  lemma OthersKeepPublishers<ID, Sub, Pub>(y: System<ID, Sub, Pub>, a: Action<ID, Sub, Pub>)
    requires Typed(y) && Enabled(y, a) && Next(y, a).Stepped? && !a.DoAddPublisher? && !a.DoStopped?
    ensures Next(y, a).system.track.publishers == y.track.publishers
  {
    if a.DoSubscribe? {
      SubscribeKeepsPublishers(y, a);
    } else if a.DoUnsubscribe? || a.DoEnded? {
      EndKeepsPublishers(y, a);
    }
  }

  lemma SubscribeKeepsPublishers<ID, Sub, Pub>(y: System<ID, Sub, Pub>, a: Action<ID, Sub, Pub>)
    requires Typed(y) && Enabled(y, a) && Next(y, a).Stepped? && a.DoSubscribe?
    ensures Next(y, a).system.track.publishers == y.track.publishers
  {
    if Subscribe(y.track, a.id, a.s, a.request).Done? {
      SubscribeKeepsLayers(y.track, a.id, a.s, a.request);
    }
  }

  lemma EndKeepsPublishers<ID, Sub, Pub>(y: System<ID, Sub, Pub>, a: Action<ID, Sub, Pub>)
    requires Typed(y) && Enabled(y, a) && Next(y, a).Stepped? && (a.DoUnsubscribe? || a.DoEnded?)
    ensures Next(y, a).system.track.publishers == y.track.publishers
  {
  }

  lemma {:induction false} AllFromPublisher<ID, Sub, Pub>(
    y: System<ID, Sub, Pub>, events: seq<Event<ID, Sub, Pub>>, z: System<ID, Sub, Pub>, s: Sub, l: Layer
  )
    requires Inv(y) && Run(y, events, z) && StaysOn(y, events, z, s, l) && l in y.track.publishers
    ensures forall d :: d in Deliveries(y, events, z, s) ==> d.0 == y.track.publishers[l]
    decreases |events|
  {
    if events == [] {
    } else {
      if events[0].Forwards? && Feeds(y, events[0].pub, s) { LiveFeeds(y, events[0].pub, s); }
      AfterKeepsInv(y, events[0]);
      PublisherStays(y, events[0], l);
      AllFromPublisher(After(y, events[0]), events[1..], z, s, l);
    }
  }

  /** A running publisher may forward at any moment, and its packet reaches a subscription exactly if the subscription
      is fed and the publisher is the one of its layer. */
  lemma ForwardReachesIff<ID, Sub, Pub>(y: System<ID, Sub, Pub>, pub: Pub, packet: Packet, s: Sub)
    requires Inv(y) && pub in y.running && s in y.track.layerOf
    ensures Run(y, [Forwards(pub, packet)], y)
    ensures Deliveries(y, [Forwards(pub, packet)], y, s) ==
            if y.track.Fed(s) && y.track.publishers[y.track.layerOf[s]] == pub then [(pub, packet)] else []
  {
    var event: Event<ID, Sub, Pub> := Forwards(pub, packet);
    assert Can(y, event) && After(y, event) == y && [event][1..] == [];
    if s in y.track.feeds[pub] { LiveFeeds(y, pub, s); }
  }

  /** What one publisher forwards over a run. */
  function ForwardsOf<ID, Sub, Pub>(events: seq<Event<ID, Sub, Pub>>, pub: Pub): seq<(Pub, Packet)> {
    if events == [] then []
    else
      (if events[0].Forwards? && events[0].pub == pub then [(pub, events[0].packet)] else [])
      + ForwardsOf(events[1..], pub)
  }

  ghost predicate StaysFed<ID, Sub, Pub>(
    y: System<ID, Sub, Pub>, events: seq<Event<ID, Sub, Pub>>, z: System<ID, Sub, Pub>, s: Sub, l: Layer
  )
    requires Inv(y) && Run(y, events, z) && StaysOn(y, events, z, s, l)
    decreases |events|
  {
    && y.track.Fed(s)
    && (events != [] ==> (AfterKeepsInv(y, events[0]); StaysFed(After(y, events[0]), events[1..], z, s, l)))
  }

  /** While a subscription stays fed on a layer whose publisher does not stop, it is handed exactly what that publisher
      forwards, in order: nothing is withheld, and nothing comes from anybody else. */
  lemma {:induction false} FedGetsEverything<ID, Sub, Pub>(
    y: System<ID, Sub, Pub>, events: seq<Event<ID, Sub, Pub>>, z: System<ID, Sub, Pub>, s: Sub, l: Layer
  )
    requires Inv(y) && Run(y, events, z) && StaysOn(y, events, z, s, l) && StaysFed(y, events, z, s, l)
    ensures l in y.track.publishers
    ensures Deliveries(y, events, z, s) == ForwardsOf(events, y.track.publishers[l])
    decreases |events|
  {
    if events == [] {
    } else {
      var e := events[0];
      AfterKeepsInv(y, e);
      PublisherStays(y, e, l);
      if e.Forwards? && Feeds(y, e.pub, s) { LiveFeeds(y, e.pub, s); }
      FedGetsEverything(After(y, e), events[1..], z, s, l);
    }
  }

  /** While a subscription stays on a layer and the layer's publisher does not stop, everything it is handed comes from
      one publisher: under every interleaving, it is never fed by two. */
  lemma {:induction false} OneSource<ID, Sub, Pub>(
    y: System<ID, Sub, Pub>, events: seq<Event<ID, Sub, Pub>>, z: System<ID, Sub, Pub>, s: Sub, l: Layer
  )
    requires Inv(y) && Run(y, events, z) && StaysOn(y, events, z, s, l)
    ensures forall d, d' :: d in Deliveries(y, events, z, s) && d' in Deliveries(y, events, z, s) ==> d.0 == d'.0
    decreases |events|
  {
    if l in y.track.publishers {
      AllFromPublisher(y, events, z, s, l);
    } else if events != [] {
      if events[0].Forwards? && Feeds(y, events[0].pub, s) { LiveFeeds(y, events[0].pub, s); }
      assert !(events[0].Forwards? && Feeds(y, events[0].pub, s));
      AfterKeepsInv(y, events[0]);
      OneSource(After(y, events[0]), events[1..], z, s, l);
    }
  }

  /** So if every publisher forwards one SSRC, what is delivered between two changes is one layer for the rewriter. */
  lemma OneLayerDelivered<ID, Sub, Pub>(
    y: System<ID, Sub, Pub>, events: seq<Event<ID, Sub, Pub>>, z: System<ID, Sub, Pub>, s: Sub, l: Layer,
    ssrcs: map<Pub, nat>
  )
    requires Inv(y) && Run(y, events, z) && StaysOn(y, events, z, s, l)
    requires forall e :: e in events && e.Forwards? ==> e.pub in ssrcs && e.packet.ssrc == ssrcs[e.pub]
    ensures var packets := Packets(Deliveries(y, events, z, s));
            packets != [] ==> RewriterRuns.OneLayer(packets[0].ssrc, packets)
  {
    OneSource(y, events, z, s, l);
    DeliveriesForwarded(y, events, z, s);
    var deliveries := Deliveries(y, events, z, s);
    forall i | 0 <= i < |deliveries| ensures Packets(deliveries)[i].ssrc == Packets(deliveries)[0].ssrc {
      assert deliveries[i] in deliveries && deliveries[0] in deliveries;
      assert Forwards(deliveries[i].0, deliveries[i].1) in events;
      assert Forwards(deliveries[0].0, deliveries[0].1) in events;
    }
  }

  function Packets<Pub>(deliveries: seq<(Pub, Packet)>): (packets: seq<Packet>)
    ensures |packets| == |deliveries|
    ensures forall i :: 0 <= i < |packets| ==> packets[i] == deliveries[i].1
  {
    seq(|deliveries|, i requires 0 <= i < |deliveries| => deliveries[i].1)
  }

  lemma {:induction false} DeliveriesForwarded<ID, Sub, Pub>(
    y: System<ID, Sub, Pub>, events: seq<Event<ID, Sub, Pub>>, z: System<ID, Sub, Pub>, s: Sub
  )
    requires Run(y, events, z)
    ensures forall d :: d in Deliveries(y, events, z, s) ==> Forwards(d.0, d.1) in events
    decreases |events|
  {
    if events == [] {
    } else {
      DeliveriesForwarded(After(y, events[0]), events[1..], z, s);
      assert forall e :: e in events[1..] ==> e in events;
      assert events[0] in events;
    }
  }

  // ---------------------------------------------------------------------------------------------
  // The track's run as one subscription sees it
  // ---------------------------------------------------------------------------------------------

  /** Whether the publisher of the subscription's layer feeds it. */
  ghost predicate IsFed<ID, Sub, Pub>(y: System<ID, Sub, Pub>, s: Sub) {
    Typed(y) && s in y.track.layerOf && y.track.Fed(s)
  }

  /** What one event means to the subscription. */
  ghost function Seen<ID, Sub, Pub>(y: System<ID, Sub, Pub>, e: Event<ID, Sub, Pub>, s: Sub): seq<P.Event>
    requires Can(y, e)
  {
    match e
    case Forwards(pub, packet) => if Feeds(y, pub, s) then [P.Forwarded(packet)] else []
    case Acts(_) =>
      if IsFed(After(y, e), s) == IsFed(y, s) then []
      else if IsFed(y, s) then [P.Removed]
      else [P.Added]
  }

  ghost function SeenAll<ID, Sub, Pub>(
    y: System<ID, Sub, Pub>, events: seq<Event<ID, Sub, Pub>>, z: System<ID, Sub, Pub>, s: Sub
  ): seq<P.Event>
    requires Run(y, events, z)
    decreases |events|
  {
    if events == [] then [] else Seen(y, events[0], s) + SeenAll(After(y, events[0]), events[1..], z, s)
  }

  lemma DeliveredCons(fed: bool, e: P.Event, rest: seq<P.Event>)
    ensures P.Delivered(fed, [e] + rest)
            == (if e.Forwarded? && fed then [e.packet] else [])
               + P.Delivered(match e case Added => true case Removed => false case _ => fed, rest)
  {
    assert ([e] + rest)[0] == e && ([e] + rest)[1..] == rest;
  }

  /** The feed of one subscription is exactly what the track's publishers hand it: never more, because no two feed it.
      */
  lemma {:induction false} DeliveredIsDeliveries<ID, Sub, Pub>(
    y: System<ID, Sub, Pub>, events: seq<Event<ID, Sub, Pub>>, z: System<ID, Sub, Pub>, s: Sub
  )
    requires Inv(y) && Run(y, events, z)
    ensures P.Delivered(IsFed(y, s), SeenAll(y, events, z, s)) == Packets(Deliveries(y, events, z, s))
    decreases |events|
  {
    if events == [] {
    } else {
      var y', rest := After(y, events[0]), events[1..];
      AfterKeepsInv(y, events[0]);
      DeliveredIsDeliveries(y', rest, z, s);
      if events[0].Forwards? && Feeds(y, events[0].pub, s) { LiveFeeds(y, events[0].pub, s); }
      var seen, later := Seen(y, events[0], s), SeenAll(y', rest, z, s);
      if seen == [] {
        assert seen + later == later;
        assert Deliveries(y, events, z, s) == Deliveries(y', rest, z, s);
      } else {
        assert seen == [seen[0]];
        DeliveredCons(IsFed(y, s), seen[0], later);
        PacketsSplit(y, events, z, s);
      }
    }
  }

  lemma PacketsSplit<ID, Sub, Pub>(
    y: System<ID, Sub, Pub>, events: seq<Event<ID, Sub, Pub>>, z: System<ID, Sub, Pub>, s: Sub
  )
    requires Run(y, events, z) && events != []
    ensures Packets(Deliveries(y, events, z, s))
            == (if events[0].Forwards? && Feeds(y, events[0].pub, s) then [events[0].packet] else [])
               + Packets(Deliveries(After(y, events[0]), events[1..], z, s))
  {
    var rest := Deliveries(After(y, events[0]), events[1..], z, s);
    if events[0].Forwards? && Feeds(y, events[0].pub, s) {
      PacketsCons((events[0].pub, events[0].packet), rest);
    } else {
      assert [] + rest == rest && [] + Packets(rest) == Packets(rest);
    }
  }

  lemma PacketsCons<Pub>(d: (Pub, Packet), rest: seq<(Pub, Packet)>)
    ensures Packets([d] + rest) == [d.1] + Packets(rest)
  {
  }
}

/** The track's objects, which the operations update in place. */
module PublishedTrackObjects {
  import opened Layers
  import opened TrackModel

  class TrackSubscription<ID> {
    const subscriberID: ID
    var currentLayer: Layer

    constructor (id: ID, layer: Layer)
      ensures subscriberID == id && currentLayer == layer
    {
      subscriberID := id;
      currentLayer := layer;
    }
  }

  class TrackPublisher<ID> {
    const layer: Layer
    var subscriptions: set<TrackSubscription<ID>>

    constructor (l: Layer)
      ensures layer == l && subscriptions == {}
    {
      layer := l;
      subscriptions := {};
    }

    method AddSubscription(s: TrackSubscription<ID>)
      modifies this
      ensures subscriptions == old(subscriptions) + {s}
    {
      if s !in subscriptions {
        subscriptions := subscriptions + {s};
      }
    }

    method RemoveSubscription(s: TrackSubscription<ID>)
      modifies this
      ensures subscriptions == old(subscriptions) - {s}
    {
      subscriptions := subscriptions - {s};
    }

    /** Empties the set and hands out what was in it, in no particular order. */
    method RemoveSubscriptions() returns (removed: seq<TrackSubscription<ID>>)
      modifies this
      ensures subscriptions == {}
      ensures forall s :: s in removed <==> s in old(subscriptions)
      ensures forall i, j :: 0 <= i < j < |removed| ==> removed[i] != removed[j]
    {
      removed := [];
      var rest := subscriptions;
      while rest != {}
        invariant rest <= subscriptions == old(subscriptions)
        invariant forall s :: s in removed <==> s in subscriptions - rest
        invariant forall i, j :: 0 <= i < j < |removed| ==> removed[i] != removed[j]
        decreases rest
      {
        var s :| s in rest;
        assert s !in removed;
        removed := removed + [s];
        rest := rest - {s};
      }
      subscriptions := {};
    }
  }

  /** Puts each subscription on the layer and, if there is a publisher to feed it from, on its feed. */
  method Move<ID>(removed: seq<TrackSubscription<ID>>, layer: Layer, target: TrackPublisher?<ID>)
    modifies (set s | s in removed), target
    ensures target != null ==> target.subscriptions == old(target.subscriptions) + (set s | s in removed)
    ensures forall s :: s in removed ==> s.currentLayer == layer
  {
    var i := 0;
    while i < |removed|
      invariant 0 <= i <= |removed|
      invariant target != null ==> target.subscriptions == old(target.subscriptions) + (set s | s in removed[..i])
      invariant forall s :: s in removed[..i] ==> s.currentLayer == layer
    {
      if target != null {
        target.AddSubscription(removed[i]);
      }
      removed[i].currentLayer := layer;
      assert removed[..i + 1] == removed[..i] + [removed[i]];
      i := i + 1;
    }
    assert removed[..i] == removed;
  }

  /** Takes everything off the publisher, puts it on the layer and, if there is another publisher for it, on its feed.
      */
  method MoveAll<ID>(pub: TrackPublisher<ID>, layer: Layer, target: TrackPublisher?<ID>)
    requires target != pub
    modifies pub, target, pub.subscriptions
    ensures pub.subscriptions == {}
    ensures target != null ==> target.subscriptions == old(target.subscriptions) + old(pub.subscriptions)
    ensures forall s :: s in old(pub.subscriptions) ==> s.currentLayer == layer
  {
    ghost var subs := pub.subscriptions;
    var removed := pub.RemoveSubscriptions();
    assert (set s | s in removed) == subs;
    Move(removed, layer, target);
  }

  /** How a call returned: normally, with an error, or not at all because a publisher was missing. */
  datatype Verdict = Ok | Failed | Panic

  /** What a successful request comes to, for all layers that could have been chosen. */
  lemma PlacedBest<ID, Sub, Pub>(
    t: Track<ID, Sub, Pub>, id: ID, s: Sub, r: Request<Pub>, t': Track<ID, Sub, Pub>
  )
    requires t.WellFormed() && t.kind == Video && None !in t.publishers && (id in t.subscriptions || s !in t.layerOf)
    requires exists l :: l in t.publishers && t.publishers[l] !in r.stalled
    requires EndsIn(TrackModel.Subscribe(t, id, s, r), t')
    ensures t'.WellFormed() && id in t'.subscriptions
    ensures var x := t'.subscriptions[id];
            var l := t'.layerOf[x];
            var desired := DesiredLayer(t.metadata.maxWidth, t.metadata.maxHeight, r.width, r.height);
            && x == (if id in t.subscriptions then t.subscriptions[id] else s)
            && t'.publishers == t.publishers && l in t.publishers && t.publishers[l] !in r.stalled
            && (forall k :: k in t.publishers && t.publishers[k] !in r.stalled ==>
                  || Apart(l, desired) < Apart(k, desired)
                  || (Apart(l, desired) == Apart(k, desired) && l.Rank() <= k.Rank()))
            && (t'.Fed(x) <==> id !in t.subscriptions || t.layerOf[x] != l || t.Fed(x))
  {
    forall k | k in t.publishers && t.publishers[k] !in r.stalled
      ensures var l := t'.layerOf[t'.subscriptions[id]];
              var desired := DesiredLayer(t.metadata.maxWidth, t.metadata.maxHeight, r.width, r.height);
              || Apart(l, desired) < Apart(k, desired)
              || (Apart(l, desired) == Apart(k, desired) && l.Rank() <= k.Rank())
    {
      RequestPlaces(t, id, s, r, k);
    }
    var k :| k in t.publishers && t.publishers[k] !in r.stalled;
    RequestPlaces(t, id, s, r, k);
  }

  /** The operation of the specification ended normally, in t. */
  ghost predicate EndsIn<T>(o: Outcome<T>, t: T) {
    o.Done? && o.track == t
  }

  class PublishedTrack<ID(==)> {
    const kind: Kind
    var done: bool
    var subscriptions: map<ID, TrackSubscription<ID>>
    var publishers: map<Layer, TrackPublisher<ID>>
    var metadata: Metadata

    /** Every subscription and publisher this track has created. */
    ghost var subs: set<TrackSubscription<ID>>
    ghost var pubs: set<TrackPublisher<ID>>

    ghost function State(): Track<ID, TrackSubscription<ID>, TrackPublisher<ID>>
      reads this, subs, pubs
    {
      Track(kind, done, subscriptions, publishers, metadata,
            map p | p in pubs :: p.subscriptions,
            map s | s in subs :: s.currentLayer,
            map s | s in subs :: s.subscriberID,
            map p | p in pubs :: p.layer)
    }

    ghost predicate Valid()
      reads this, subs, pubs
    {
      State().WellFormed()
    }

    constructor (k: Kind, m: Metadata)
      ensures Valid() && subs == {} && pubs == {}
      ensures State() == Track(k, false, map[], map[], m, map[], map[], map[], map[])
    {
      kind := k;
      done := false;
      subscriptions := map[];
      publishers := map[];
      metadata := m;
      subs, pubs := {}, {};
    }

    method AddPublisher(layer: Layer, matches: bool) returns (verdict: Verdict, ghost added: TrackPublisher?<ID>)
      requires Valid()
      modifies this
      ensures verdict == if old(done) || !matches then Failed else Ok
      ensures verdict == Ok && layer !in old(publishers) ==>
                added != null && fresh(added) && State() == WithPublisher(old(State()), layer, added)
      ensures verdict == Failed || layer in old(publishers) ==> State() == old(State())
    {
      added := null;
      if done || !matches {
        return Failed, null;
      }
      if layer in publishers {
        return Ok, null;
      }
      var pub := new TrackPublisher(layer);
      publishers := publishers[layer := pub];
      pubs := pubs + {pub};
      assert State().feeds == old(State()).feeds[pub := {}];
      assert State().pubLayer == old(State()).pubLayer[pub := layer];
      assert State().layerOf == old(State()).layerOf && State().idOf == old(State()).idOf;
      added := pub;
      verdict := Ok;
    }

    /** The request as the specification sees it, with what the track knows itself. */
    ghost function AsRequest(
      width: int, height: int, stalled: set<TrackPublisher<ID>>, created: bool
    ): Request<TrackPublisher<ID>>
      reads this
    {
      Request(width, height, stalled, created, done)
    }

    /** There is a publisher to choose for a request, and all publishers have layers. */
    predicate HasChoice(stalled: set<TrackPublisher<ID>>)
      reads this
    {
      kind == Video && None !in publishers && exists l :: l in publishers && publishers[l] !in stalled
    }

    /** The layer is one to choose, and no other is closer to the desired one, or as close and lower. */
    predicate IsBest(l: Layer, width: int, height: int, stalled: set<TrackPublisher<ID>>)
      reads this
    {
      var desired := DesiredLayer(metadata.maxWidth, metadata.maxHeight, width, height);
      && l in publishers && publishers[l] !in stalled
      && forall k :: k in publishers && publishers[k] !in stalled ==>
           Apart(l, desired) < Apart(k, desired) || (Apart(l, desired) == Apart(k, desired) && l.Rank() <= k.Rank())
    }

    /** `stalled` is what the publishers' flags say; `created` is whether a WebRTC track could be made. */
    method Subscribe(id: ID, width: int, height: int, stalled: set<TrackPublisher<ID>>, created: bool)
      returns (verdict: Verdict, ghost added: TrackSubscription?<ID>)
      requires Valid()
      modifies this, pubs, subs
      ensures verdict == Panic <==>
              NoPublisherForRequest(old(State()), id, old(AsRequest(width, height, stalled, created)))
      ensures verdict == Failed <==> old(done) || (id !in old(subscriptions) && (!created || kind == Unsupported))
      ensures verdict == Failed ==> State() == old(State())
      ensures verdict == Ok && id in old(subscriptions) ==>
                EndsIn(Resubscribe(old(State()), old(subscriptions)[id],
                                   old(AsRequest(width, height, stalled, created))), State())
      ensures verdict == Ok && id !in old(subscriptions) ==>
                added != null && fresh(added) &&
                EndsIn(TrackModel.Subscribe(old(State()), id, added,
                                            old(AsRequest(width, height, stalled, created))), State())
      ensures verdict == Ok && old(HasChoice(stalled)) ==>
                && id in subscriptions
                && (id in old(subscriptions) ==> subscriptions[id] == old(subscriptions)[id])
                && IsBest(subscriptions[id].currentLayer, width, height, stalled)
                && (subscriptions[id] in publishers[subscriptions[id].currentLayer].subscriptions <==>
                      || id !in old(subscriptions)
                      || subscriptions[id].currentLayer != old(subscriptions[id].currentLayer)
                      || subscriptions[id] in old(publishers[subscriptions[id].currentLayer].subscriptions))
    {
      added := null;
      if done {
        return Failed, null;
      }
      ghost var t, r := State(), AsRequest(width, height, stalled, created);
      if id in subscriptions {
        var sub := subscriptions[id];
        SubscribePanicsIff(t, id, sub, r);
        verdict := UpdateSubscription(sub, width, height, stalled);
        if verdict == Ok && old(HasChoice(stalled)) { PlacedBest(t, id, sub, r, State()); }
      } else {
        verdict, added := NewSubscription(id, width, height, stalled, created);
        if verdict == Ok && old(HasChoice(stalled)) { PlacedBest(t, id, added, r, State()); }
      }
    }

    method ActiveLayers(stalled: set<TrackPublisher<ID>>) returns (layers: set<Layer>)
      ensures layers == State().ActiveLayers(stalled)
    {
      layers := {};
      var rest := publishers.Keys;
      while rest != {}
        invariant rest <= publishers.Keys
        invariant layers == set l | l in publishers.Keys - rest && publishers[l] !in stalled
        decreases rest
      {
        var l :| l in rest;
        if publishers[l] !in stalled {
          layers := layers + {l};
        }
        rest := rest - {l};
      }
    }

    method UpdateSubscription(sub: TrackSubscription<ID>, width: int, height: int, stalled: set<TrackPublisher<ID>>)
      returns (verdict: Verdict)
      requires Valid() && sub in subs && !done
      modifies pubs, sub
      ensures verdict != Failed
      ensures verdict == Panic <==>
              Resubscribe(old(State()), sub, old(AsRequest(width, height, stalled, true))).Panicked?
      ensures verdict == Ok ==>
                EndsIn(Resubscribe(old(State()), sub, old(AsRequest(width, height, stalled, true))), State())
    {
      if !(kind == Video && publishers != map[] && None !in publishers) {
        return Ok;
      }
      var active := ActiveLayers(stalled);
      var layer := OptimalLayer(active, metadata, width, height);
      if sub.currentLayer != layer {
        DetachFromCurrent(sub);
        if layer !in publishers {
          return Panic;
        }
        AttachTo(layer, sub);
        SetLayer(sub, layer);
      }
      verdict := Ok;
    }

    method SetLayer(sub: TrackSubscription<ID>, layer: Layer)
      requires sub in subs
      modifies sub
      ensures State() == old(State()).(layerOf := old(State()).layerOf[sub := layer])
    {
      sub.currentLayer := layer;
      assert State().layerOf == old(State()).layerOf[sub := layer];
      assert State().feeds == old(State()).feeds;
    }

    /** Takes the subscription off the feed of its current layer, if that has a publisher. */
    method DetachFromCurrent(sub: TrackSubscription<ID>)
      requires Valid() && sub in subs
      modifies pubs
      ensures var t := old(State());
              State() == if t.layerOf[sub] in t.publishers then t.Detach(t.publishers[t.layerOf[sub]], sub) else t
    {
      if sub.currentLayer in publishers {
        var p := publishers[sub.currentLayer];
        assert State().pubLayer[p] == sub.currentLayer;
        p.RemoveSubscription(sub);
        assert State().feeds == old(State()).feeds[p := old(p.subscriptions) - {sub}];
      }
    }

    method AttachTo(layer: Layer, sub: TrackSubscription<ID>)
      requires layer in publishers && publishers[layer] in pubs
      modifies publishers[layer]
      ensures State() == old(State()).Attach(publishers[layer], sub)
    {
      var p := publishers[layer];
      p.AddSubscription(sub);
      assert State().feeds == old(State()).feeds[p := old(p.subscriptions) + {sub}];
    }

    method NewSubscription(id: ID, width: int, height: int, stalled: set<TrackPublisher<ID>>, created: bool)
      returns (verdict: Verdict, ghost added: TrackSubscription?<ID>)
      requires Valid() && id !in subscriptions && !done
      modifies this`subscriptions, this`subs, pubs
      ensures verdict == Panic <==>
              NoPublisherForRequest(old(State()), id, old(AsRequest(width, height, stalled, created)))
      ensures verdict == Failed <==> !created || kind == Unsupported
      ensures verdict == Failed ==> State() == old(State())
      ensures verdict == Ok ==>
                added != null && fresh(added) &&
                EndsIn(TrackModel.Subscribe(old(State()), id, added,
                                            old(AsRequest(width, height, stalled, created))), State())
    {
      added := null;
      if !created || kind == Unsupported {
        return Failed, null;
      }
      var layer := None;
      if kind == Video {
        var active := ActiveLayers(stalled);
        layer := OptimalLayer(active, metadata, width, height);
        OptimalIsAvailable(active, metadata, width, height);
      }
      var sub := Register(id, layer);
      added := sub;
      if kind == Video {
        if layer !in publishers {
          return Panic, sub;
        }
        assert State().pubLayer[publishers[layer]] == layer;
        AttachTo(layer, sub);
      }
      verdict := Ok;
    }

    method Register(id: ID, layer: Layer) returns (sub: TrackSubscription<ID>)
      modifies this`subscriptions, this`subs
      ensures fresh(sub) && sub in subs && State() == WithSubscription(old(State()), id, sub, layer)
    {
      sub := new TrackSubscription(id, layer);
      subscriptions := subscriptions[id := sub];
      subs := subs + {sub};
      assert State().layerOf == old(State()).layerOf[sub := layer];
      assert State().idOf == old(State()).idOf[sub := id];
      assert State().feeds == old(State()).feeds;
    }

    method SetMetadata(m: Metadata)
      modifies this`metadata
      ensures State() == old(State()).(metadata := m)
    {
      metadata := m;
    }

    method Unsubscribe(id: ID) returns (verdict: Verdict)
      requires Valid()
      modifies this`subscriptions, pubs
      ensures verdict == Panic <==> TrackModel.Unsubscribe(old(State()), id).Panicked?
      ensures verdict != Panic ==> verdict == Ok && State() == TrackModel.Unsubscribe(old(State()), id).track
    {
      if id in subscriptions {
        var sub := subscriptions[id];
        subscriptions := subscriptions - {id};
        if kind == Video {
          if sub.currentLayer !in publishers {
            return Panic;
          }
          publishers[sub.currentLayer].RemoveSubscription(sub);
          ghost var p := publishers[sub.currentLayer];
          assert State().feeds == old(State()).feeds[p := old(p.subscriptions) - {sub}];
        }
      }
      verdict := Ok;
    }

    method HandleStalledPublisher(pub: TrackPublisher<ID>)
      requires Valid() && pub in pubs
      modifies pubs, subs
      ensures State() == Stalled(old(State()), pub)
    {
      if metadata.muted {
        return;
      }
      if Low in publishers && publishers[Low] != pub {
        assert State().pubLayer[publishers[Low]] == Low;
        SwitchToLow(pub, publishers[Low]);
      } else {
        SwitchOff(pub);
      }
    }

    method SwitchToLow(pub: TrackPublisher<ID>, low: TrackPublisher<ID>)
      requires Valid() && pub in pubs && low in pubs && low != pub
      modifies pubs, subs
      ensures var t := old(State());
              State() == t.(feeds := t.feeds[pub := {}][low := t.feeds[low] + t.feeds[pub]],
                            layerOf := t.Relayered(t.feeds[pub], Low))
    {
      assert State().feeds[pub] == pub.subscriptions <= subs;
      MoveAll(pub, Low, low);
      assert State().feeds == old(State()).feeds[pub := {}][low := old(low.subscriptions) + old(pub.subscriptions)];
      assert State().layerOf == old(State()).Relayered(old(pub.subscriptions), Low);
    }

    method SwitchOff(pub: TrackPublisher<ID>)
      requires Valid() && pub in pubs
      modifies pubs, subs
      ensures var t := old(State());
              State() == t.(feeds := t.feeds[pub := {}], layerOf := t.Relayered(t.feeds[pub], None))
    {
      assert State().feeds[pub] == pub.subscriptions <= subs;
      MoveAll(pub, None, null);
      assert State().feeds == old(State()).feeds[pub := {}];
      assert State().layerOf == old(State()).Relayered(old(pub.subscriptions), None);
    }

    method RecoverOrphanedSubscriptions(pub: TrackPublisher<ID>, isStalled: bool) returns (verdict: Verdict)
      requires Valid() && pub in pubs
      modifies pub, subs
      ensures verdict == if isStalled then Failed else Ok
      ensures State() == Recovered(old(State()), pub, isStalled)
    {
      if isStalled {
        return Failed;
      }
      ghost var orphans := State().Orphans();
      ghost var moved: set<TrackSubscription<ID>> := {};
      var rest := subscriptions.Keys;
      while rest != {}
        invariant rest <= subscriptions.Keys
        invariant moved <= orphans
        invariant forall id :: id in subscriptions && subscriptions[id] in orphans ==>
                    (id in rest <==> subscriptions[id] !in moved)
        invariant pub.subscriptions == old(pub.subscriptions) + moved
        invariant forall s :: s in subs ==> s.currentLayer == if s in moved then pub.layer else old(s.currentLayer)
        decreases rest
      {
        var id :| id in rest;
        var sub := subscriptions[id];
        if sub.currentLayer == None {
          sub.currentLayer := pub.layer;
          pub.AddSubscription(sub);
          moved := moved + {sub};
        }
        rest := rest - {id};
      }
      assert moved == orphans;
      assert State().feeds == old(State()).feeds[pub := old(pub.subscriptions) + orphans];
      verdict := Ok;
    }

    method PublisherStopped(pub: TrackPublisher<ID>) returns (ghost survivor: Layer)
      requires Valid() && pub in pubs
      modifies this`publishers, pubs, subs
      ensures State() == Stopped(old(State()), pub, survivor)
    {
      publishers := publishers - {pub.layer};
      assert State() == old(State()).(publishers := publishers) && Valid();
      survivor := pub.layer;
      if publishers.Keys != {} {
        survivor := Reshuffle();
      }
    }

    /** Takes the subscriptions of whichever publisher comes first off it and puts them back. */
    method Reshuffle() returns (layer: Layer)
      requires Valid() && publishers.Keys != {}
      modifies pubs, subs
      ensures layer in publishers && publishers[layer] in pubs
      ensures var t := old(State()); State() == t.(layerOf := t.Relayered(t.feeds[publishers[layer]], layer))
    {
      layer :| layer in publishers.Keys;
      var other := publishers[layer];
      assert State().pubLayer[other] == layer && State().feeds[other] == other.subscriptions <= subs;
      var removed := other.RemoveSubscriptions();
      assert forall s :: s in removed ==> s in subs;
      Move(removed, layer, other);
      assert (set s | s in removed) == old(other.subscriptions);
      assert other.subscriptions == old(other.subscriptions);
      assert State().feeds == old(State()).feeds;
      assert State().layerOf == old(State()).Relayered(old(other.subscriptions), layer);
    }

    method SubscriptionEnded(sub: TrackSubscription<ID>)
      requires Valid() && sub in subs
      modifies this`subscriptions, pubs
      ensures State() == Ended(old(State()), sub)
    {
      DetachFromCurrent(sub);
      subscriptions := subscriptions - {sub.subscriberID};
    }

    method WindDown()
      modifies this`done
      ensures State() == old(State()).(done := true)
    {
      done := true;
    }
  }
}

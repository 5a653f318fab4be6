/** A published track on values: which publisher feeds which subscription, and what each operation does to that.

    Subscriptions and publishers are compared by identity, so the model is generic in what identifies them. */
module TrackModel {
  import opened Layers

  datatype Kind = Audio | Video | Unsupported

  datatype Track<ID(==), Sub(==), Pub(==)> = Track(
    kind: Kind,
    done: bool,
    subscriptions: map<ID, Sub>,
    publishers: map<Layer, Pub>,
    metadata: Metadata,
    feeds: map<Pub, set<Sub>>,
    layerOf: map<Sub, Layer>,
    idOf: map<Sub, ID>,
    pubLayer: map<Pub, Layer>)
  {
    /** Every object mentioned is known, and knows the key it is stored under. */
    ghost predicate WellFormed() {
      && layerOf.Keys == idOf.Keys
      && feeds.Keys == pubLayer.Keys
      && (forall p :: p in feeds ==> feeds[p] <= layerOf.Keys)
      && (forall id :: id in subscriptions ==> subscriptions[id] in layerOf && idOf[subscriptions[id]] == id)
      && (forall l :: l in publishers ==> publishers[l] in feeds && pubLayer[publishers[l]] == l)
    }

    /** The publisher of the subscription's current layer feeds it. */
    predicate Fed(s: Sub)
      requires s in layerOf && (forall l :: l in publishers ==> publishers[l] in feeds)
    {
      layerOf[s] in publishers && s in feeds[publishers[layerOf[s]]]
    }

    predicate IsSimulcast() {
      kind == Video && publishers != map[] && None !in publishers
    }

    /** The layers whose publishers are not flagged as stalled. */
    function ActiveLayers(stalled: set<Pub>): set<Layer> {
      set l | l in publishers && publishers[l] !in stalled
    }

    function Attach(p: Pub, s: Sub): Track<ID, Sub, Pub>
      requires p in feeds
    {
      this.(feeds := feeds[p := feeds[p] + {s}])
    }

    function Detach(p: Pub, s: Sub): Track<ID, Sub, Pub>
      requires p in feeds
    {
      this.(feeds := feeds[p := feeds[p] - {s}])
    }

    /** All of `subs` now stand on `layer`. */
    function Relayered(subs: set<Sub>, layer: Layer): map<Sub, Layer> {
      map s | s in layerOf :: if s in subs then layer else layerOf[s]
    }

    /** Registered subscriptions that stand on no layer. */
    function Orphans(): set<Sub>
      requires forall id :: id in subscriptions ==> subscriptions[id] in layerOf
    {
      set id | id in subscriptions && layerOf[subscriptions[id]] == None :: subscriptions[id]
    }
  }

  /** How a call on a track ends: normally, with an error that changed nothing, or by calling a method on a publisher
      that is not there. */
  datatype Outcome<T> = Done(track: T) | Rejected | Panicked

  function AddPublisher<ID(==), Sub(==), Pub(==)>(
    t: Track<ID, Sub, Pub>, layer: Layer, pub: Pub, matches: bool, sawDone: bool
  ): Outcome<Track<ID, Sub, Pub>> {
    if sawDone || !matches then Rejected
    else if layer in t.publishers then Done(t)
    else Done(WithPublisher(t, layer, pub))
  }

  function WithPublisher<ID(==), Sub(==), Pub(==)>(
    t: Track<ID, Sub, Pub>, layer: Layer, pub: Pub
  ): Track<ID, Sub, Pub> {
    t.(publishers := t.publishers[layer := pub], feeds := t.feeds[pub := {}], pubLayer := t.pubLayer[pub := layer])
  }

  /** What a subscriber asks for, and what the environment answers: the publishers flagged as stalled, whether the
      WebRTC track could be created, and whether the caller saw the track closed before it took the lock. */
  datatype Request<Pub(==)> = Request(width: int, height: int, stalled: set<Pub>, created: bool, sawDone: bool)

  function Chosen<ID(==), Sub(==), Pub(==)>(t: Track<ID, Sub, Pub>, r: Request<Pub>): Layer {
    OptimalLayer(t.ActiveLayers(r.stalled), t.metadata, r.width, r.height)
  }

  function Subscribe<ID(==), Sub(==), Pub(==)>(
    t: Track<ID, Sub, Pub>, id: ID, s: Sub, r: Request<Pub>
  ): Outcome<Track<ID, Sub, Pub>>
    requires t.WellFormed()
  {
    if r.sawDone then Rejected
    else if id in t.subscriptions then Resubscribe(t, t.subscriptions[id], r)
    else if !r.created || t.kind == Unsupported then Rejected
    else if t.kind == Audio then Done(WithSubscription(t, id, s, None))
    else
      var layer := Chosen(t, r);
      if layer !in t.publishers then Panicked
      else Done(WithSubscription(t, id, s, layer).Attach(t.publishers[layer], s))
  }

  function WithSubscription<ID(==), Sub(==), Pub(==)>(
    t: Track<ID, Sub, Pub>, id: ID, s: Sub, layer: Layer
  ): Track<ID, Sub, Pub> {
    t.(subscriptions := t.subscriptions[id := s], layerOf := t.layerOf[s := layer], idOf := t.idOf[s := id])
  }

  function Resubscribe<ID(==), Sub(==), Pub(==)>(
    t: Track<ID, Sub, Pub>, s: Sub, r: Request<Pub>
  ): Outcome<Track<ID, Sub, Pub>>
    requires t.WellFormed() && s in t.layerOf
  {
    var layer := Chosen(t, r);
    if !t.IsSimulcast() || t.layerOf[s] == layer then Done(t)
    else
      var t' := if t.layerOf[s] in t.publishers then t.Detach(t.publishers[t.layerOf[s]], s) else t;
      if layer !in t.publishers then Panicked
      else Done(t'.Attach(t.publishers[layer], s).(layerOf := t.layerOf[s := layer]))
  }

  function Unsubscribe<ID(==), Sub(==), Pub(==)>(t: Track<ID, Sub, Pub>, id: ID): Outcome<Track<ID, Sub, Pub>>
    requires t.WellFormed()
  {
    if id !in t.subscriptions then Done(t)
    else
      var s, t' := t.subscriptions[id], t.(subscriptions := t.subscriptions - {id});
      if t.kind != Video then Done(t')
      else if t.layerOf[s] !in t.publishers then Panicked
      else Done(t'.Detach(t.publishers[t.layerOf[s]], s))
  }

  /** The publisher has delivered nothing for a while. */
  function Stalled<ID(==), Sub(==), Pub(==)>(t: Track<ID, Sub, Pub>, pub: Pub): Track<ID, Sub, Pub>
    requires t.WellFormed() && pub in t.feeds
  {
    if t.metadata.muted then t
    else
      var removed := t.feeds[pub];
      if Low in t.publishers && t.publishers[Low] != pub then
        var low := t.publishers[Low];
        t.(feeds := t.feeds[pub := {}][low := t.feeds[low] + removed], layerOf := t.Relayered(removed, Low))
      else
        t.(feeds := t.feeds[pub := {}], layerOf := t.Relayered(removed, None))
  }

  /** The publisher delivers again. */
  function Recovered<ID(==), Sub(==), Pub(==)>(t: Track<ID, Sub, Pub>, pub: Pub, isStalled: bool): Track<ID, Sub, Pub>
    requires t.WellFormed() && pub in t.feeds
  {
    if isStalled then t
    else
      var orphans := t.Orphans();
      t.(feeds := t.feeds[pub := t.feeds[pub] + orphans], layerOf := t.Relayered(orphans, t.pubLayer[pub]))
  }

  /** The publisher has stopped. `survivor` is the layer that the iteration over the publishers happens to visit first;
      its own subscriptions are taken off it and put back. */
  function Stopped<ID(==), Sub(==), Pub(==)>(t: Track<ID, Sub, Pub>, pub: Pub, survivor: Layer): Track<ID, Sub, Pub>
    requires t.WellFormed() && pub in t.feeds
  {
    var rest := t.publishers - {t.pubLayer[pub]};
    if survivor in rest
    then t.(publishers := rest, layerOf := t.Relayered(t.feeds[rest[survivor]], survivor))
    else t.(publishers := rest)
  }

  /** The goroutine that listens to a subscription has ended. */
  function Ended<ID(==), Sub(==), Pub(==)>(t: Track<ID, Sub, Pub>, s: Sub): Track<ID, Sub, Pub>
    requires t.WellFormed() && s in t.layerOf
  {
    var t' := if t.layerOf[s] in t.publishers then t.Detach(t.publishers[t.layerOf[s]], s) else t;
    t'.(subscriptions := t.subscriptions - {t.idOf[s]})
  }

  // ---------------------------------------------------------------------------------------------
  // What the operations promise each other
  // ---------------------------------------------------------------------------------------------

  /** Subscriptions fed by a publisher of the track stand on that publisher's layer. */
  ghost predicate SingleFeed<ID, Sub, Pub>(t: Track<ID, Sub, Pub>)
    requires t.WellFormed()
  {
    forall l, s :: l in t.publishers && s in t.feeds[t.publishers[l]] ==> t.layerOf[s] == l
  }

  /** Subscriptions fed by a publisher of the track are the ones registered for their subscribers. */
  ghost predicate FedAreRegistered<ID, Sub, Pub>(t: Track<ID, Sub, Pub>)
    requires t.WellFormed()
  {
    forall l, s :: l in t.publishers && s in t.feeds[t.publishers[l]] ==>
      t.idOf[s] in t.subscriptions && t.subscriptions[t.idOf[s]] == s
  }

  ghost predicate IsRegistered<ID, Sub, Pub>(t: Track<ID, Sub, Pub>, s: Sub) {
    s in t.idOf && t.idOf[s] in t.subscriptions && t.subscriptions[t.idOf[s]] == s
  }

  /** With one feed each, it is enough to look at the publisher of each subscription's own layer. */
  lemma FedAreRegisteredPerSubscription<ID, Sub, Pub>(t: Track<ID, Sub, Pub>)
    requires t.WellFormed() && SingleFeed(t)
    ensures FedAreRegistered(t) <==> forall s :: s in t.layerOf && t.Fed(s) ==> IsRegistered(t, s)
  {
    if forall s :: s in t.layerOf && t.Fed(s) ==> IsRegistered(t, s) {
      forall l, s | l in t.publishers && s in t.feeds[t.publishers[l]]
        ensures t.idOf[s] in t.subscriptions && t.subscriptions[t.idOf[s]] == s
      {
        assert s in t.layerOf && t.layerOf[s] == l && t.Fed(s);
        assert IsRegistered(t, s);
      }
    }
  }

  /** A track has either one publisher without a layer or publishers with layers. */
  predicate Unmixed<ID, Sub, Pub>(t: Track<ID, Sub, Pub>) {
    None in t.publishers ==> t.publishers.Keys == {None}
  }

  /** No subscription is fed twice. */
  lemma FedOnce<ID, Sub, Pub>(t: Track<ID, Sub, Pub>, k: Layer, l: Layer, s: Sub)
    requires t.WellFormed() && SingleFeed(t) && k in t.publishers && l in t.publishers
    requires s in t.feeds[t.publishers[k]] && s in t.feeds[t.publishers[l]]
    ensures t.publishers[k] == t.publishers[l]
  {
  }

  /** An unsubscription calls a publisher that is not there exactly when a video subscription is registered and its
      layer has no publisher: after a stall that left no layer, or after the layer's publisher stopped. */
  lemma UnsubscribePanicsIff<ID, Sub, Pub>(t: Track<ID, Sub, Pub>, id: ID)
    requires t.WellFormed()
    ensures Unsubscribe(t, id).Panicked? <==>
            t.kind == Video && id in t.subscriptions && t.layerOf[t.subscriptions[id]] !in t.publishers
  {
  }

  /** Every publisher is flagged as stalled, or there is none, and a publisher would be needed: for a new video
      subscription, or to move an existing one of a simulcast track. */
  predicate NoPublisherForRequest<ID, Sub, Pub>(t: Track<ID, Sub, Pub>, id: ID, r: Request<Pub>)
    requires id in t.subscriptions ==> t.subscriptions[id] in t.layerOf
  {
    && !r.sawDone && t.ActiveLayers(r.stalled) == {} && t.kind == Video
    && (if id in t.subscriptions
        then t.publishers != map[] && None !in t.publishers && t.layerOf[t.subscriptions[id]] != None
        else r.created && None !in t.publishers)
  }

  /** A subscription calls a publisher that is not there exactly then. It is refused, and changes nothing, exactly if
      the track was seen closed, or for a new subscriber if there is nothing to subscribe to. */
  lemma SubscribePanicsIff<ID, Sub, Pub>(t: Track<ID, Sub, Pub>, id: ID, s: Sub, r: Request<Pub>)
    requires t.WellFormed()
    ensures Subscribe(t, id, s, r).Panicked? <==> NoPublisherForRequest(t, id, r)
    ensures Subscribe(t, id, s, r).Rejected? <==>
            r.sawDone || (id !in t.subscriptions && (!r.created || t.kind == Unsupported))
  {
    OptimalIsAvailable(t.ActiveLayers(r.stalled), t.metadata, r.width, r.height);
  }

  /** After a stop, the shuffling of a surviving publisher's subscriptions has no effect, whichever is picked: the
      track only loses the publisher, and the stopped publisher's subscriptions stay on its layer. */
  lemma StopOnlyRemovesPublisher<ID, Sub, Pub>(t: Track<ID, Sub, Pub>, pub: Pub, survivor: Layer)
    requires t.WellFormed() && SingleFeed(t) && pub in t.feeds
    ensures Stopped(t, pub, survivor) == t.(publishers := t.publishers - {t.pubLayer[pub]})
  {
    var rest := t.publishers - {t.pubLayer[pub]};
    if survivor in rest {
      assert t.Relayered(t.feeds[rest[survivor]], survivor) == t.layerOf;
    }
  }

  // ---------------------------------------------------------------------------------------------
  // Each operation keeps the track well formed and every subscription on one feed
  // ---------------------------------------------------------------------------------------------

  ghost predicate Sound<ID, Sub, Pub>(t: Track<ID, Sub, Pub>) {
    t.WellFormed() && SingleFeed(t)
  }

  lemma NewPublisherSound<ID, Sub, Pub>(t: Track<ID, Sub, Pub>, layer: Layer, pub: Pub)
    requires Sound(t) && pub !in t.feeds && layer !in t.publishers
    ensures Sound(WithPublisher(t, layer, pub))
  {
  }

  lemma NewSubscriptionSound<ID, Sub, Pub>(t: Track<ID, Sub, Pub>, id: ID, s: Sub, layer: Layer)
    requires Sound(t) && s !in t.layerOf
    ensures Sound(WithSubscription(t, id, s, layer))
  {
  }

  lemma AttachSound<ID, Sub, Pub>(t: Track<ID, Sub, Pub>, l: Layer, s: Sub)
    requires Sound(t) && s in t.layerOf && t.layerOf[s] == l && l in t.publishers
    ensures Sound(t.Attach(t.publishers[l], s))
  {
  }

  /** Taking a subscription off the publisher of its layer takes it off every publisher. */
  lemma DetachedEverywhere<ID, Sub, Pub>(t: Track<ID, Sub, Pub>, s: Sub)
    requires Sound(t) && s in t.layerOf
    ensures var t' := if t.layerOf[s] in t.publishers then t.Detach(t.publishers[t.layerOf[s]], s) else t;
            Sound(t') && forall l :: l in t'.publishers ==> s !in t'.feeds[t'.publishers[l]]
  {
  }

  /** A subscription on no feed may be put on any layer. */
  lemma RelayerOneSound<ID, Sub, Pub>(t: Track<ID, Sub, Pub>, s: Sub, layer: Layer)
    requires Sound(t) && s in t.layerOf && forall l :: l in t.publishers ==> s !in t.feeds[t.publishers[l]]
    ensures Sound(t.(layerOf := t.layerOf[s := layer]))
  {
  }

  lemma SubscribeSound<ID, Sub, Pub>(t: Track<ID, Sub, Pub>, id: ID, s: Sub, r: Request<Pub>)
    requires Sound(t) && s !in t.layerOf && Subscribe(t, id, s, r).Done?
    ensures Sound(Subscribe(t, id, s, r).track)
  {
    var layer := Chosen(t, r);
    if id in t.subscriptions {
      ResubscribeSound(t, t.subscriptions[id], r);
    } else if t.kind == Audio {
      NewSubscriptionSound(t, id, s, None);
    } else {
      NewSubscriptionSound(t, id, s, layer);
      AttachSound(WithSubscription(t, id, s, layer), layer, s);
    }
  }

  lemma ResubscribeSound<ID, Sub, Pub>(t: Track<ID, Sub, Pub>, s: Sub, r: Request<Pub>)
    requires Sound(t) && s in t.layerOf && Resubscribe(t, s, r).Done?
    ensures Sound(Resubscribe(t, s, r).track)
  {
    var layer := Chosen(t, r);
    if t.IsSimulcast() && t.layerOf[s] != layer {
      DetachedEverywhere(t, s);
      var t1 := if t.layerOf[s] in t.publishers then t.Detach(t.publishers[t.layerOf[s]], s) else t;
      RelayerOneSound(t1, s, layer);
      var t2 := t1.(layerOf := t1.layerOf[s := layer]);
      AttachSound(t2, layer, s);
      assert t2.Attach(t.publishers[layer], s) == Resubscribe(t, s, r).track;
    }
  }

  lemma UnsubscribeSound<ID, Sub, Pub>(t: Track<ID, Sub, Pub>, id: ID)
    requires Sound(t) && Unsubscribe(t, id).Done?
    ensures Sound(Unsubscribe(t, id).track)
  {
  }

  lemma EndedSound<ID, Sub, Pub>(t: Track<ID, Sub, Pub>, s: Sub)
    requires Sound(t) && s in t.layerOf
    ensures Sound(Ended(t, s))
  {
    DetachedEverywhere(t, s);
  }

  lemma StalledSound<ID, Sub, Pub>(t: Track<ID, Sub, Pub>, pub: Pub)
    requires Sound(t) && pub in t.feeds && t.pubLayer[pub] in t.publishers && t.publishers[t.pubLayer[pub]] == pub
    ensures Sound(Stalled(t, pub))
  {
    StalledWellFormed(t, pub);
    var t' := Stalled(t, pub);
    if !t.metadata.muted {
      forall l, s | l in t'.publishers && s in t'.feeds[t'.publishers[l]] ensures t'.layerOf[s] == l {
        assert s in t.feeds[t.publishers[l]] || (l == Low && s in t.feeds[pub]);
      }
    }
  }

  lemma StalledWellFormed<ID, Sub, Pub>(t: Track<ID, Sub, Pub>, pub: Pub)
    requires t.WellFormed() && pub in t.feeds
    ensures Stalled(t, pub).WellFormed()
  {
  }

  lemma StoppedSound<ID, Sub, Pub>(t: Track<ID, Sub, Pub>, pub: Pub, survivor: Layer)
    requires Sound(t) && pub in t.feeds
    ensures Sound(Stopped(t, pub, survivor))
  {
    StopOnlyRemovesPublisher(t, pub, survivor);
  }

  /** A recovery keeps every subscription on one feed exactly when it does not hand a layer to a subscription that a
      publisher without a layer is feeding: layer `None` is taken for "no publisher". */
  lemma RecoveredSoundIff<ID, Sub, Pub>(t: Track<ID, Sub, Pub>, pub: Pub)
    requires Sound(t) && pub in t.feeds && t.pubLayer[pub] in t.publishers && t.publishers[t.pubLayer[pub]] == pub
    ensures Recovered(t, pub, false).WellFormed()
    ensures SingleFeed(Recovered(t, pub, false)) <==>
            t.pubLayer[pub] == None || None !in t.publishers || t.Orphans() !! t.feeds[t.publishers[None]]
  {
    var t' := Recovered(t, pub, false);
    if t.pubLayer[pub] != None && None in t.publishers && !(t.Orphans() !! t.feeds[t.publishers[None]]) {
      var s :| s in t.Orphans() && s in t.feeds[t.publishers[None]];
      assert t'.publishers[None] != pub;
      assert s in t'.feeds[t'.publishers[None]] && t'.layerOf[s] != None;
    }
  }

  /** A publisher is added unless the track was seen closed or the publisher is of another track. Under a new layer it
      joins the ones there, can be chosen from then on, and feeds nobody yet; under a known one nothing changes. */
  lemma AddedPublisherIsAvailable<ID, Sub, Pub>(
    t: Track<ID, Sub, Pub>, layer: Layer, pub: Pub, matches: bool, sawDone: bool, stalled: set<Pub>
  )
    requires t.WellFormed() && pub !in t.feeds && pub !in stalled
    ensures var o := AddPublisher(t, layer, pub, matches, sawDone);
            && (o.Done? <==> matches && !sawDone) && !o.Panicked?
            && (o.Done? && layer in t.publishers ==> o.track == t)
            && (o.Done? && layer !in t.publishers ==>
                  && o.track.WellFormed() && o.track.publishers == t.publishers[layer := pub]
                  && o.track.ActiveLayers(stalled) == t.ActiveLayers(stalled) + {layer}
                  && o.track.feeds == t.feeds[pub := {}] && o.track.layerOf == t.layerOf
                  && o.track.subscriptions == t.subscriptions)
  {
    var o := AddPublisher(t, layer, pub, matches, sawDone);
    if o.Done? && layer !in t.publishers {
      forall l ensures l in o.track.ActiveLayers(stalled) <==> l in t.ActiveLayers(stalled) + {layer} {
      }
    }
  }

  // ---------------------------------------------------------------------------------------------
  // What each operation does to one subscription
  // ---------------------------------------------------------------------------------------------

  /** The subscription stands where it stood and is fed if it was fed. */
  ghost predicate Untouched<ID, Sub, Pub>(t: Track<ID, Sub, Pub>, t': Track<ID, Sub, Pub>, s: Sub)
    requires t.WellFormed() && t'.WellFormed() && s in t.layerOf
  {
    s in t'.layerOf && t'.layerOf[s] == t.layerOf[s] && (t'.Fed(s) <==> t.Fed(s))
  }

  /** A new subscriber's subscription is fed from the start, and nobody else's is touched. */
  lemma SubscribeTouchesOne<ID, Sub, Pub>(t: Track<ID, Sub, Pub>, id: ID, s: Sub, r: Request<Pub>, other: Sub)
    requires Sound(t) && s !in t.layerOf && id !in t.subscriptions && Subscribe(t, id, s, r).Done? && other in t.layerOf
    ensures var t' := Subscribe(t, id, s, r).track;
            t'.WellFormed() && Untouched(t, t', other) && (t.kind == Video ==> t'.Fed(s))
  {
    SubscribeSound(t, id, s, r);
  }

  lemma NewSubscriptionFed<ID, Sub, Pub>(t: Track<ID, Sub, Pub>, id: ID, s: Sub, r: Request<Pub>)
    requires Sound(t) && s !in t.layerOf && id !in t.subscriptions && Subscribe(t, id, s, r).Done?
    ensures var t' := Subscribe(t, id, s, r).track;
            t'.WellFormed() && t'.subscriptions == t.subscriptions[id := s] && (t.kind == Video ==> t'.Fed(s))
  {
    SubscribeSound(t, id, s, r);
  }

  lemma ResubscribeTouchesOne<ID, Sub, Pub>(t: Track<ID, Sub, Pub>, s: Sub, r: Request<Pub>, other: Sub)
    requires Sound(t) && s in t.layerOf && Resubscribe(t, s, r).Done? && other in t.layerOf && other != s
    ensures var t' := Resubscribe(t, s, r).track;
            t'.WellFormed() && Untouched(t, t', other)
  {
    ResubscribeSound(t, s, r);
    ResubscribeKeepsOthersFeeds(t, s, r, other);
  }

  lemma ResubscribeKeepsOthersFeeds<ID, Sub, Pub>(t: Track<ID, Sub, Pub>, s: Sub, r: Request<Pub>, other: Sub)
    requires t.WellFormed() && s in t.layerOf && Resubscribe(t, s, r).Done? && other in t.layerOf && other != s
    ensures var t' := Resubscribe(t, s, r).track;
            && t'.publishers == t.publishers && t'.feeds.Keys == t.feeds.Keys
            && other in t'.layerOf && t'.layerOf[other] == t.layerOf[other]
            && forall p :: p in t.feeds ==> (other in t'.feeds[p] <==> other in t.feeds[p])
  {
    if t.layerOf[s] in t.publishers {
      var t1 := t.Detach(t.publishers[t.layerOf[s]], s);
      assert forall p :: p in t.feeds ==> (other in t1.feeds[p] <==> other in t.feeds[p]);
    }
  }

  /** A repeated request leaves the track alone or puts the subscription on its new layer's feed. */
  lemma ResubscribeFeeds<ID, Sub, Pub>(t: Track<ID, Sub, Pub>, s: Sub, r: Request<Pub>)
    requires Sound(t) && s in t.layerOf && Resubscribe(t, s, r).Done?
    ensures var t' := Resubscribe(t, s, r).track;
            && t'.WellFormed() && t' == t.(feeds := t'.feeds, layerOf := t'.layerOf)
            && t'.layerOf.Keys == t.layerOf.Keys && t'.feeds.Keys == t.feeds.Keys
            && (t'.layerOf[s] == t.layerOf[s] ==> t' == t)
            && (t'.layerOf[s] != t.layerOf[s] ==> t'.Fed(s))
  {
    ResubscribeSound(t, s, r);
  }

  /** An unsubscription removes the subscriber from the register and its video subscription from every feed. Nobody
      else's registration, layer or feed changes. */
  lemma UnsubscribeTakesOff<ID, Sub, Pub>(t: Track<ID, Sub, Pub>, id: ID, other: Sub)
    requires Sound(t) && Unsubscribe(t, id).Done? && other in t.layerOf
    ensures var t' := Unsubscribe(t, id).track;
            && t'.WellFormed() && t'.subscriptions == t.subscriptions - {id} && t'.publishers == t.publishers
            && (id in t.subscriptions && t.kind == Video ==>
                  forall l :: l in t'.publishers ==> t.subscriptions[id] !in t'.feeds[t'.publishers[l]])
            && (id !in t.subscriptions || other != t.subscriptions[id] ==> Untouched(t, t', other))
  {
    UnsubscribeSound(t, id);
  }

  lemma EndedTouchesOne<ID, Sub, Pub>(t: Track<ID, Sub, Pub>, s: Sub, other: Sub)
    requires Sound(t) && s in t.layerOf && other in t.layerOf && other != s
    ensures Ended(t, s).WellFormed() && Untouched(t, Ended(t, s), other)
  {
    EndedSound(t, s);
  }

  lemma EndedStopsFeed<ID, Sub, Pub>(t: Track<ID, Sub, Pub>, s: Sub)
    requires Sound(t) && s in t.layerOf
    ensures var t' := Ended(t, s);
            && t'.WellFormed() && t'.subscriptions == t.subscriptions - {t.idOf[s]}
            && t'.layerOf == t.layerOf && t'.idOf == t.idOf && !t'.Fed(s)
  {
    EndedSound(t, s);
  }

  // ---------------------------------------------------------------------------------------------
  // Across operations
  // ---------------------------------------------------------------------------------------------

  /** After a request the subscriber is registered and stands on the chosen layer, if the track has layers. */
  lemma SubscribeSettles<ID, Sub, Pub>(t: Track<ID, Sub, Pub>, id: ID, s: Sub, r: Request<Pub>)
    requires t.WellFormed() && s !in t.layerOf && Subscribe(t, id, s, r).Done?
    ensures var t' := Subscribe(t, id, s, r).track;
            && id in t'.subscriptions && t'.subscriptions[id] in t'.layerOf
            && (t'.kind == Video && t'.publishers != map[] && None !in t'.publishers ==>
                  t'.layerOf[t'.subscriptions[id]] == Chosen(t', r))
  {
    SubscribeKeepsLayers(t, id, s, r);
  }

  lemma SubscribeKeepsLayers<ID, Sub, Pub>(t: Track<ID, Sub, Pub>, id: ID, s: Sub, r: Request<Pub>)
    requires t.WellFormed() && Subscribe(t, id, s, r).Done?
    ensures var t' := Subscribe(t, id, s, r).track;
            t'.publishers == t.publishers && t'.kind == t.kind && Chosen(t', r) == Chosen(t, r)
  {
    var t' := Subscribe(t, id, s, r).track;
    assert t'.publishers == t.publishers && t'.metadata == t.metadata;
    assert t'.ActiveLayers(r.stalled) == t.ActiveLayers(r.stalled);
  }

  /** On a video track whose publishers have layers, one of them unflagged, a request succeeds exactly if the track was
      not seen closed and, for a new subscriber, the WebRTC track could be made. */
  lemma RequestSucceedsIff<ID, Sub, Pub>(t: Track<ID, Sub, Pub>, id: ID, s: Sub, r: Request<Pub>, l: Layer)
    requires t.WellFormed() && t.kind == Video && None !in t.publishers && s !in t.layerOf
    requires l in t.publishers && t.publishers[l] !in r.stalled
    ensures Subscribe(t, id, s, r).Done? <==> !r.sawDone && (id in t.subscriptions || r.created)
  {
    assert l in t.ActiveLayers(r.stalled);
    SubscribePanicsIff(t, id, s, r);
  }

  /** It leaves the subscriber's subscription, old or new, on the unflagged layer that is closest to the desired one,
      the lower of two equally close ones. The subscription is fed unless it stood there already and was not: then the
      layer's publisher has changed since, and asking for the same layer again does not help. */
  lemma RequestPlaces<ID, Sub, Pub>(t: Track<ID, Sub, Pub>, id: ID, s: Sub, r: Request<Pub>, other: Layer)
    requires t.WellFormed() && t.kind == Video && None !in t.publishers && (id in t.subscriptions || s !in t.layerOf)
    requires other in t.publishers && t.publishers[other] !in r.stalled && Subscribe(t, id, s, r).Done?
    ensures var t' := Subscribe(t, id, s, r).track;
            var desired := DesiredLayer(t.metadata.maxWidth, t.metadata.maxHeight, r.width, r.height);
            && t'.WellFormed() && t'.publishers == t.publishers && id in t'.subscriptions
            && var x := t'.subscriptions[id];
               var l := t'.layerOf[x];
               && x == (if id in t.subscriptions then t.subscriptions[id] else s)
               && l in t.publishers && t.publishers[l] !in r.stalled
               && Apart(l, desired) <= Apart(other, desired)
               && (Apart(l, desired) == Apart(other, desired) ==> l.Rank() <= other.Rank())
               && (t'.Fed(x) <==> id !in t.subscriptions || t.layerOf[x] != l || t.Fed(x))
  {
    SubscribeKeepsLayers(t, id, s, r);
    assert other in t.ActiveLayers(r.stalled);
    OptimalIsAvailable(t.ActiveLayers(r.stalled), t.metadata, r.width, r.height);
    OptimalIsClosest(t.ActiveLayers(r.stalled), t.metadata, r.width, r.height, other);
    RequestStandsOn(t, id, s, r);
    RequestFeedsIff(t, id, s, r);
  }

  lemma RequestStandsOn<ID, Sub, Pub>(t: Track<ID, Sub, Pub>, id: ID, s: Sub, r: Request<Pub>)
    requires t.WellFormed() && t.kind == Video && None !in t.publishers && t.publishers != map[]
    requires (id in t.subscriptions || s !in t.layerOf) && Subscribe(t, id, s, r).Done?
    ensures var t' := Subscribe(t, id, s, r).track;
            var x := if id in t.subscriptions then t.subscriptions[id] else s;
            id in t'.subscriptions && t'.subscriptions[id] == x && x in t'.layerOf && t'.layerOf[x] == Chosen(t, r)
  {
  }

  lemma RequestFeedsIff<ID, Sub, Pub>(t: Track<ID, Sub, Pub>, id: ID, s: Sub, r: Request<Pub>)
    requires t.WellFormed() && t.kind == Video && None !in t.publishers && t.publishers != map[]
    requires (id in t.subscriptions || s !in t.layerOf) && Subscribe(t, id, s, r).Done?
    ensures var t' := Subscribe(t, id, s, r).track;
            var x := if id in t.subscriptions then t.subscriptions[id] else s;
            && t'.WellFormed() && x in t'.layerOf
            && (t'.Fed(x) <==> id !in t.subscriptions || t.layerOf[x] != Chosen(t, r) || t.Fed(x))
  {
    if id in t.subscriptions {
      ResubscribeFeedsIff(t, t.subscriptions[id], r);
    } else {
      AttachFeeds(WithSubscription(t, id, s, Chosen(t, r)), s);
    }
  }

  lemma ResubscribeFeedsIff<ID, Sub, Pub>(t: Track<ID, Sub, Pub>, s: Sub, r: Request<Pub>)
    requires t.WellFormed() && t.kind == Video && None !in t.publishers && t.publishers != map[]
    requires s in t.layerOf && Resubscribe(t, s, r).Done?
    ensures var t' := Resubscribe(t, s, r).track;
            t'.WellFormed() && s in t'.layerOf && (t'.Fed(s) <==> t.layerOf[s] != Chosen(t, r) || t.Fed(s))
  {
    var layer := Chosen(t, r);
    if t.layerOf[s] != layer {
      var t1 := if t.layerOf[s] in t.publishers then t.Detach(t.publishers[t.layerOf[s]], s) else t;
      var t2 := t1.(layerOf := t1.layerOf[s := layer]);
      assert t2.WellFormed();
      AttachFeeds(t2, s);
      assert t2.Attach(t.publishers[layer], s) == Resubscribe(t, s, r).track;
    }
  }

  lemma AttachFeeds<ID, Sub, Pub>(t: Track<ID, Sub, Pub>, s: Sub)
    requires t.WellFormed() && s in t.layerOf && t.layerOf[s] in t.publishers
    ensures var t' := t.Attach(t.publishers[t.layerOf[s]], s); t'.WellFormed() && t'.Fed(s)
  {
  }

  /** Repeating a request changes nothing. */
  lemma SubscribeIdempotent<ID, Sub, Pub>(t: Track<ID, Sub, Pub>, id: ID, s: Sub, s': Sub, r: Request<Pub>)
    requires Sound(t) && s !in t.layerOf && Subscribe(t, id, s, r).Done?
    ensures var t' := Subscribe(t, id, s, r).track; t'.WellFormed() && Subscribe(t', id, s', r) == Done(t')
  {
    SubscribeSound(t, id, s, r);
    SubscribeSettles(t, id, s, r);
  }

  /** A stall of a muted track changes nothing. An unmuted one moves exactly the stalled publisher's subscriptions, to
      the low layer if another publisher has it and otherwise off every layer; nobody else moves. */
  lemma StallMovesExactly<ID, Sub, Pub>(t: Track<ID, Sub, Pub>, pub: Pub, s: Sub)
    requires Sound(t) && s in t.layerOf
    requires pub in t.feeds && t.pubLayer[pub] in t.publishers && t.publishers[t.pubLayer[pub]] == pub
    ensures var t' := Stalled(t, pub);
            var toLow := Low in t.publishers && t.publishers[Low] != pub;
            && (t.metadata.muted ==> t' == t)
            && t'.WellFormed()
            && t'.subscriptions == t.subscriptions && t'.publishers == t.publishers
            && (!t.metadata.muted ==>
                  && t'.layerOf[s] == (if s !in t.feeds[pub] then t.layerOf[s] else if toLow then Low else None)
                  && (t'.Fed(s) <==> t.Fed(s) && (s in t.feeds[pub] ==> toLow)))
  {
    if !t.metadata.muted { UnmutedStallMoves(t, pub, s); }
  }

  lemma UnmutedStallMoves<ID, Sub, Pub>(t: Track<ID, Sub, Pub>, pub: Pub, s: Sub)
    requires Sound(t) && s in t.layerOf && !t.metadata.muted
    requires pub in t.feeds && t.pubLayer[pub] in t.publishers && t.publishers[t.pubLayer[pub]] == pub
    ensures var t' := Stalled(t, pub);
            var toLow := Low in t.publishers && t.publishers[Low] != pub;
            && t'.WellFormed()
            && t'.subscriptions == t.subscriptions && t'.publishers == t.publishers
            && t'.layerOf[s] == (if s !in t.feeds[pub] then t.layerOf[s] else if toLow then Low else None)
            && (t'.Fed(s) <==> t.Fed(s) && (s in t.feeds[pub] ==> toLow))
  {
    StalledSound(t, pub);
  }

  /** A stall that found no other layer, followed by the publisher's recovery, restores the track: exactly the same
      subscriptions are fed again, and those that had been orphaned before join them. */
  lemma StallThenRecover<ID, Sub, Pub>(t: Track<ID, Sub, Pub>, pub: Pub)
    requires Sound(t) && FedAreRegistered(t) && !t.metadata.muted && t.kind == Video
    requires pub in t.feeds && t.pubLayer[pub] in t.publishers && t.publishers[t.pubLayer[pub]] == pub
    requires Low !in t.publishers || t.publishers[Low] == pub
    ensures StalledSoundFor(t, pub)
    ensures var t' := Recovered(Stalled(t, pub), pub, false);
            && t'.feeds == t.feeds[pub := t.feeds[pub] + t.Orphans()]
            && t'.layerOf == t.Relayered(t.Orphans(), t.pubLayer[pub])
            && t'.subscriptions == t.subscriptions && t'.publishers == t.publishers
  {
    StalledSound(t, pub);
    StallOrphans(t, pub);
    var t' := Recovered(Stalled(t, pub), pub, false);
    assert t'.feeds[pub] == t.feeds[pub] + t.Orphans();
    assert t'.feeds == t.feeds[pub := t.feeds[pub] + t.Orphans()];
  }

  lemma StallOrphans<ID, Sub, Pub>(t: Track<ID, Sub, Pub>, pub: Pub)
    requires Sound(t) && FedAreRegistered(t) && !t.metadata.muted && t.kind == Video
    requires pub in t.feeds && t.pubLayer[pub] in t.publishers && t.publishers[t.pubLayer[pub]] == pub
    requires Sound(Stalled(t, pub))
    requires Low !in t.publishers || t.publishers[Low] == pub
    ensures Stalled(t, pub).Orphans() == t.Orphans() + t.feeds[pub]
  {
    var u := Stalled(t, pub);
    forall s | s in t.feeds[pub] ensures s in u.Orphans() {
      assert t.subscriptions[t.idOf[s]] == s;
      assert t.idOf[s] in u.subscriptions && u.layerOf[u.subscriptions[t.idOf[s]]] == None;
    }
  }

  ghost predicate StalledSoundFor<ID, Sub, Pub>(t: Track<ID, Sub, Pub>, pub: Pub)
    requires t.WellFormed() && pub in t.feeds
  {
    Stalled(t, pub).WellFormed()
  }

  /** After a recovery no registered subscription is left on layer `None`, unless that is the publisher's layer; the
      others have not moved. */
  lemma RecoveryLeavesNoOrphan<ID, Sub, Pub>(t: Track<ID, Sub, Pub>, pub: Pub, s: Sub)
    requires t.WellFormed() && pub in t.feeds && s in t.layerOf
    requires t.pubLayer[pub] in t.publishers && t.publishers[t.pubLayer[pub]] == pub
    ensures var t' := Recovered(t, pub, false);
            && t'.WellFormed()
            && (t.pubLayer[pub] != None ==> t'.Orphans() == {})
            && (s in t.Orphans() ==> t'.Fed(s))
            && (s !in t.Orphans() ==> t'.layerOf[s] == t.layerOf[s] && (t'.Fed(s) <==> t.Fed(s)))
  {
    RecoveredKeepsShape(t, pub);
    var t' := Recovered(t, pub, false);
    forall id | id in t'.subscriptions ensures t'.layerOf[t'.subscriptions[id]] == None ==> t.pubLayer[pub] == None {
      assert t.layerOf[t.subscriptions[id]] == None ==> t.subscriptions[id] in t.Orphans();
    }
  }

  lemma RecoveredKeepsShape<ID, Sub, Pub>(t: Track<ID, Sub, Pub>, pub: Pub)
    requires t.WellFormed() && pub in t.feeds
    ensures Recovered(t, pub, false).WellFormed()
  {
  }

  /** The end of a listener leaves the feeds registered exactly when its subscriber has not subscribed again in the
      meantime, or the new subscription gets nothing anyway: the registration is deleted by subscriber. */
  lemma EndedKeepsRegisteredIff<ID, Sub, Pub>(t: Track<ID, Sub, Pub>, s: Sub)
    requires Sound(t) && FedAreRegistered(t) && s in t.layerOf
    ensures Ended(t, s).WellFormed()
    ensures FedAreRegistered(Ended(t, s)) <==>
            (t.idOf[s] in t.subscriptions ==>
               t.subscriptions[t.idOf[s]] == s || !t.Fed(t.subscriptions[t.idOf[s]]))
  {
    EndedStopsFeed(t, s);
    var t', id := Ended(t, s), t.idOf[s];
    if id in t.subscriptions && t.subscriptions[id] != s && t.Fed(t.subscriptions[id]) {
      var other := t.subscriptions[id];
      EndedTouchesOne(t, s, other);
      assert t'.idOf[other] !in t'.subscriptions;
    } else {
      EndedSound(t, s);
      FedAreRegisteredPerSubscription(t);
      forall x | x in t'.layerOf && t'.Fed(x) ensures IsRegistered(t', x) {
        EndedTouchesOne(t, s, x);
        assert IsRegistered(t, x);
      }
      FedAreRegisteredPerSubscription(t');
    }
  }

  /** The case in full: a subscriber leaves and comes back before the listener of the first subscription is done. Its
      new subscription is fed, but no longer registered. */
  lemma LateCleanupUnregisters<ID, Sub, Pub>(t: Track<ID, Sub, Pub>, id: ID, s': Sub, r: Request<Pub>)
    requires Sound(t) && t.kind == Video && id in t.subscriptions && s' !in t.layerOf
    requires Unsubscribe(t, id).Done?
    ensures var u := Unsubscribe(t, id).track;
            && u.WellFormed()
            && (Subscribe(u, id, s', r).Done? ==>
                  var v := Subscribe(u, id, s', r).track;
                  && v.WellFormed() && t.subscriptions[id] in v.layerOf
                  && var z := Ended(v, t.subscriptions[id]); z.WellFormed() && z.Fed(s') && id !in z.subscriptions)
  {
    UnsubscribeSound(t, id);
    var u, s := Unsubscribe(t, id).track, t.subscriptions[id];
    assert u.idOf[s] == id;
    if Subscribe(u, id, s', r).Done? {
      var v := Subscribe(u, id, s', r).track;
      SubscribeSound(u, id, s', r);
      NewSubscriptionFed(u, id, s', r);
      SubscribeTouchesOne(u, id, s', r, s);
      assert v.idOf[s] == id;
      EndedTouchesOne(v, s, s');
      EndedStopsFeed(v, s);
    }
  }

  /** An unmuted stall that finds no other layer makes the next unsubscription of each subscriber it cut off call a
      publisher that is not there. */
  lemma StallThenUnsubscribePanics<ID, Sub, Pub>(t: Track<ID, Sub, Pub>, pub: Pub, id: ID)
    requires Sound(t) && t.kind == Video && !t.metadata.muted && None !in t.publishers
    requires pub in t.feeds && t.pubLayer[pub] in t.publishers && t.publishers[t.pubLayer[pub]] == pub
    requires Low !in t.publishers || t.publishers[Low] == pub
    requires id in t.subscriptions && t.subscriptions[id] in t.feeds[pub]
    ensures Stalled(t, pub).WellFormed() && Unsubscribe(Stalled(t, pub), id).Panicked?
  {
    StallMovesExactly(t, pub, t.subscriptions[id]);
    UnsubscribePanicsIff(Stalled(t, pub), id);
  }
}

/** A published track together with the goroutines that act on it: every interleaving of their atomic steps. */
module TrackSystem {
  import opened Layers
  import opened TrackModel

  /** `running`: publishers whose goroutine has not yet taken its last step. `listening`: video subscriptions whose
      listener has not yet taken its last step. `cutOff`, a history: subscriptions that a stall or a stop has taken off
      their feed, and that no recovery and no request has put on one since. */
  datatype System<ID(==), Sub(==), Pub(==)> = System(
    track: Track<ID, Sub, Pub>,
    running: set<Pub>,
    listening: set<Sub>,
    cutOff: set<Sub>)

  datatype Action<ID(==), Sub(==), Pub(==)> =
    | DoAddPublisher(layer: Layer, pub: Pub, matches: bool, sawDone: bool)
    | DoSubscribe(id: ID, s: Sub, request: Request<Pub>)
    | DoUnsubscribe(id: ID)
    | DoStalled(pub: Pub)
    | DoRecovered(pub: Pub, isStalled: bool)
    | DoStopped(pub: Pub, survivor: Layer)
    | DoEnded(s: Sub)
    | DoSetMetadata(metadata: Metadata)
    | DoWindDown

  /** When a step can happen. New objects are new; goroutines of publishers and subscriptions act until their last
      step. The wind-down waits for the publishers, but one may be added before it marks the track as done. */
  predicate Enabled<ID, Sub, Pub>(y: System<ID, Sub, Pub>, a: Action<ID, Sub, Pub>) {
    match a
    case DoAddPublisher(_, pub, _, sawDone) => pub !in y.track.feeds && (sawDone ==> y.track.done)
    case DoSubscribe(_, s, request) => s !in y.track.layerOf && (request.sawDone ==> y.track.done)
    case DoStalled(pub) => pub in y.running
    case DoRecovered(pub, _) => pub in y.running
    case DoStopped(pub, _) => pub in y.running
    case DoEnded(s) => s in y.listening
    case DoWindDown => !y.track.done
    case _ => true
  }

  /** The goroutines belong to objects of the track. */
  ghost predicate Typed<ID, Sub, Pub>(y: System<ID, Sub, Pub>) {
    y.track.WellFormed() && y.running <= y.track.feeds.Keys && y.listening <= y.track.layerOf.Keys
  }

  datatype Result<T> = Stepped(system: T) | Crashed

  function FromOutcome<ID(==), Sub(==), Pub(==)>(
    y: System<ID, Sub, Pub>, o: Outcome<Track<ID, Sub, Pub>>
  ): Result<System<ID, Sub, Pub>> {
    match o
    case Done(t) => Stepped(y.(track := t))
    case Rejected => Stepped(y)
    case Panicked => Crashed
  }

  /** What an unmuted stall leaves without a feed: the publisher's subscriptions, if no other publisher has layer
      `Low`. */
  function CutByStall<ID(==), Sub(==), Pub(==)>(t: Track<ID, Sub, Pub>, pub: Pub): set<Sub>
    requires pub in t.feeds
  {
    if t.metadata.muted || (Low in t.publishers && t.publishers[Low] != pub) then {} else t.feeds[pub]
  }

  function Next<ID(==), Sub(==), Pub(==)>(
    y: System<ID, Sub, Pub>, a: Action<ID, Sub, Pub>
  ): Result<System<ID, Sub, Pub>>
    requires Typed(y) && Enabled(y, a)
  {
    var t := y.track;
    match a
    case DoAddPublisher(layer, pub, matches, sawDone) =>
      var o := AddPublisher(t, layer, pub, matches, sawDone);
      var isNew := o.Done? && layer !in t.publishers;
      FromOutcome(if isNew then y.(running := y.running + {pub}) else y, o)
    case DoSubscribe(id, s, request) =>
      var o := Subscribe(t, id, s, request);
      if !o.Done? then FromOutcome(y, o)
      else if id !in t.subscriptions then
        FromOutcome(if t.kind == Video then y.(listening := y.listening + {s}) else y, o)
      else
        var known := t.subscriptions[id];
        FromOutcome(if o.track.layerOf[known] != t.layerOf[known] then y.(cutOff := y.cutOff - {known}) else y, o)
    case DoUnsubscribe(id) => FromOutcome(y, Unsubscribe(t, id))
    case DoStalled(pub) => Stepped(y.(track := Stalled(t, pub), cutOff := y.cutOff + CutByStall(t, pub)))
    case DoRecovered(pub, isStalled) =>
      Stepped(y.(track := Recovered(t, pub, isStalled),
                 cutOff := if isStalled then y.cutOff else y.cutOff - t.Orphans()))
    case DoStopped(pub, survivor) =>
      Stepped(System(Stopped(t, pub, survivor), y.running - {pub}, y.listening, y.cutOff + t.feeds[pub]))
    case DoEnded(s) => Stepped(y.(track := Ended(t, s), listening := y.listening - {s}))
    case DoSetMetadata(metadata) => Stepped(y.(track := t.(metadata := metadata)))
    case DoWindDown => Stepped(y.(track := t.(done := true)))
  }

  // ---------------------------------------------------------------------------------------------
  // Invariants
  // ---------------------------------------------------------------------------------------------

  /** The publishers in the map are the ones whose goroutines run, each under its own layer. */
  ghost predicate Live<ID, Sub, Pub>(y: System<ID, Sub, Pub>)
    requires y.track.WellFormed()
  {
    && (forall l :: l in y.track.publishers ==> y.track.publishers[l] in y.running)
    && (forall p :: p in y.running ==>
          && p in y.track.feeds && y.track.pubLayer[p] in y.track.publishers
          && y.track.publishers[y.track.pubLayer[p]] == p)
    && y.listening <= y.track.layerOf.Keys
  }

  /** What is cut off gets nothing, and every registered video subscription is either fed or cut off. */
  ghost predicate Settled<ID, Sub, Pub>(y: System<ID, Sub, Pub>, s: Sub)
    requires y.track.WellFormed() && s in y.track.layerOf
  {
    && (s in y.cutOff ==> !y.track.Fed(s))
    && (y.track.kind == Video && IsRegistered(y.track, s) ==> y.track.Fed(s) || s in y.cutOff)
  }

  ghost predicate AllSettled<ID, Sub, Pub>(y: System<ID, Sub, Pub>)
    requires y.track.WellFormed()
  {
    && y.cutOff <= y.track.layerOf.Keys
    && forall s {:trigger Settled(y, s)} :: s in y.track.layerOf ==> Settled(y, s)
  }

  ghost predicate Inv<ID, Sub, Pub>(y: System<ID, Sub, Pub>) {
    Sound(y.track) && Live(y) && Unmixed(y.track) && AllSettled(y)
  }

  /** The assumption on publishers: one without a layer is never added next to others, nor others next to it. */
  predicate KeepsUnmixed<ID, Sub, Pub>(y: System<ID, Sub, Pub>, a: Action<ID, Sub, Pub>) {
    match a
    case DoAddPublisher(layer, _, _, _) =>
      || layer in y.track.publishers
      || (if layer == None then y.track.publishers == map[] else None !in y.track.publishers)
    case _ => true
  }

  /** A subscription that a step does not touch stays settled. */
  lemma UntouchedSettled<ID, Sub, Pub>(y: System<ID, Sub, Pub>, z: System<ID, Sub, Pub>, s: Sub)
    requires y.track.WellFormed() && z.track.WellFormed() && s in y.track.layerOf && y.track.kind == z.track.kind
    requires Untouched(y.track, z.track, s) && (IsRegistered(z.track, s) ==> IsRegistered(y.track, s))
    requires s in z.cutOff <==> s in y.cutOff
    requires Settled(y, s)
    ensures Settled(z, s)
  {
  }

  lemma NewPublisherTouchesNone<ID, Sub, Pub>(t: Track<ID, Sub, Pub>, layer: Layer, pub: Pub, s: Sub)
    requires Sound(t) && layer !in t.publishers && pub !in t.feeds && s in t.layerOf
    ensures WithPublisher(t, layer, pub).WellFormed() && Untouched(t, WithPublisher(t, layer, pub), s)
  {
  }

  lemma AddPublisherKeepsInv<ID, Sub, Pub>(y: System<ID, Sub, Pub>, a: Action<ID, Sub, Pub>)
    requires Inv(y) && a.DoAddPublisher? && Enabled(y, a) && KeepsUnmixed(y, a)
    ensures Next(y, a).Stepped? && Inv(Next(y, a).system)
  {
    if !a.sawDone && a.matches && a.layer !in y.track.publishers {
      NewPublisherSound(y.track, a.layer, a.pub);
      var z := Next(y, a).system;
      forall s | s in y.track.layerOf ensures Settled(z, s) {
        assert Settled(y, s);
        NewPublisherTouchesNone(y.track, a.layer, a.pub, s);
        UntouchedSettled(y, z, s);
      }
    }
  }

  lemma NewSubscriptionSettled<ID, Sub, Pub>(y: System<ID, Sub, Pub>, a: Action<ID, Sub, Pub>, s: Sub)
    requires Inv(y) && a.DoSubscribe? && Enabled(y, a) && a.id !in y.track.subscriptions
    requires Subscribe(y.track, a.id, a.s, a.request).Done?
    requires s in Subscribe(y.track, a.id, a.s, a.request).track.layerOf
    ensures Next(y, a).Stepped? && Next(y, a).system.track.WellFormed() && Settled(Next(y, a).system, s)
  {
    NewSubscriptionFed(y.track, a.id, a.s, a.request);
    if s in y.track.layerOf {
      assert Settled(y, s);
      SubscribeTouchesOne(y.track, a.id, a.s, a.request, s);
      UntouchedSettled(y, Next(y, a).system, s);
    }
  }

  lemma NewSubscriptionKeepsInv<ID, Sub, Pub>(y: System<ID, Sub, Pub>, a: Action<ID, Sub, Pub>)
    requires Inv(y) && a.DoSubscribe? && Enabled(y, a) && a.id !in y.track.subscriptions && Next(y, a).Stepped?
    ensures Inv(Next(y, a).system)
  {
    var o := Subscribe(y.track, a.id, a.s, a.request);
    if o.Done? {
      SubscribeSound(y.track, a.id, a.s, a.request);
      forall s | s in o.track.layerOf ensures Settled(Next(y, a).system, s) {
        NewSubscriptionSettled(y, a, s);
      }
    }
  }

  lemma ResubscribeSettled<ID, Sub, Pub>(y: System<ID, Sub, Pub>, a: Action<ID, Sub, Pub>, s: Sub)
    requires Inv(y) && a.DoSubscribe? && Enabled(y, a) && a.id in y.track.subscriptions && s in y.track.layerOf
    requires Subscribe(y.track, a.id, a.s, a.request).Done?
    ensures Next(y, a).Stepped? && Next(y, a).system.track.WellFormed()
    ensures s in Next(y, a).system.track.layerOf && Settled(Next(y, a).system, s)
  {
    var t, known := y.track, y.track.subscriptions[a.id];
    assert Settled(y, s);
    ResubscribeFeeds(t, known, a.request);
    if s != known {
      ResubscribeTouchesOne(t, known, a.request, s);
      UntouchedSettled(y, Next(y, a).system, s);
    }
  }

  lemma ResubscribeKeepsInv<ID, Sub, Pub>(y: System<ID, Sub, Pub>, a: Action<ID, Sub, Pub>)
    requires Inv(y) && a.DoSubscribe? && Enabled(y, a) && a.id in y.track.subscriptions && Next(y, a).Stepped?
    ensures Inv(Next(y, a).system)
  {
    var o := Subscribe(y.track, a.id, a.s, a.request);
    if o.Done? {
      ResubscribeSound(y.track, y.track.subscriptions[a.id], a.request);
      ResubscribeFeeds(y.track, y.track.subscriptions[a.id], a.request);
      forall s | s in y.track.layerOf ensures Settled(Next(y, a).system, s) {
        ResubscribeSettled(y, a, s);
      }
    }
  }

  lemma UnsubscribeKeepsInv<ID, Sub, Pub>(y: System<ID, Sub, Pub>, a: Action<ID, Sub, Pub>)
    requires Inv(y) && a.DoUnsubscribe? && Next(y, a).Stepped?
    ensures Inv(Next(y, a).system)
  {
    var z := Next(y, a).system;
    UnsubscribeSound(y.track, a.id);
    forall s | s in y.track.layerOf ensures Settled(z, s) {
      assert Settled(y, s);
      UnsubscribeTouchesOne(y.track, a.id, s);
      if IsRegistered(z.track, s) { UntouchedSettled(y, z, s); }
    }
  }

  /** An unsubscription leaves everybody else alone; what it takes back is no longer registered. */
  lemma UnsubscribeTouchesOne<ID, Sub, Pub>(t: Track<ID, Sub, Pub>, id: ID, s: Sub)
    requires Sound(t) && Unsubscribe(t, id).Done? && s in t.layerOf
    ensures var t' := Unsubscribe(t, id).track;
            && t'.WellFormed() && t'.layerOf == t.layerOf && (t'.Fed(s) ==> t.Fed(s))
            && (IsRegistered(t', s) ==> IsRegistered(t, s) && Untouched(t, t', s))
  {
    UnsubscribeSound(t, id);
  }

  /** What the publisher feeds stands on its layer and gets its packets. */
  lemma LiveFeeds<ID, Sub, Pub>(y: System<ID, Sub, Pub>, pub: Pub, s: Sub)
    requires Sound(y.track) && Live(y) && pub in y.running && s in y.track.feeds[pub]
    ensures s in y.track.layerOf && y.track.layerOf[s] == y.track.pubLayer[pub] && y.track.Fed(s)
  {
    assert y.track.publishers[y.track.pubLayer[pub]] == pub;
  }

  lemma StalledKeepsInv<ID, Sub, Pub>(y: System<ID, Sub, Pub>, a: Action<ID, Sub, Pub>)
    requires Inv(y) && a.DoStalled? && Enabled(y, a)
    ensures Inv(Next(y, a).system)
  {
    var z := Next(y, a).system;
    StalledSound(y.track, a.pub);
    forall s | s in y.track.layerOf ensures Settled(z, s) {
      assert Settled(y, s);
      if !y.track.metadata.muted {
        StallMovesExactly(y.track, a.pub, s);
        if s in y.track.feeds[a.pub] { LiveFeeds(y, a.pub, s); }
      }
    }
  }

  lemma RecoveredKeepsInv<ID, Sub, Pub>(y: System<ID, Sub, Pub>, a: Action<ID, Sub, Pub>)
    requires Inv(y) && a.DoRecovered? && Enabled(y, a)
    ensures Inv(Next(y, a).system)
  {
    if !a.isStalled {
      var z := Next(y, a).system;
      RecoveredSoundIff(y.track, a.pub);
      forall s | s in y.track.layerOf ensures Settled(z, s) {
        assert Settled(y, s);
        RecoveryLeavesNoOrphan(y.track, a.pub, s);
      }
    }
  }

  lemma StoppedKeepsInv<ID, Sub, Pub>(y: System<ID, Sub, Pub>, a: Action<ID, Sub, Pub>)
    requires Inv(y) && a.DoStopped? && Enabled(y, a)
    ensures Inv(Next(y, a).system)
  {
    var z := Next(y, a).system;
    StopOnlyRemovesPublisher(y.track, a.pub, a.survivor);
    StoppedSound(y.track, a.pub, a.survivor);
    forall s | s in y.track.layerOf ensures Settled(z, s) {
      assert Settled(y, s);
      if s in y.track.feeds[a.pub] { LiveFeeds(y, a.pub, s); }
    }
  }

  lemma EndedKeepsInv<ID, Sub, Pub>(y: System<ID, Sub, Pub>, a: Action<ID, Sub, Pub>)
    requires Inv(y) && a.DoEnded? && Enabled(y, a)
    ensures Inv(Next(y, a).system)
  {
    var z := Next(y, a).system;
    EndedSound(y.track, a.s);
    EndedStopsFeed(y.track, a.s);
    forall s | s in y.track.layerOf ensures Settled(z, s) {
      assert Settled(y, s);
      if s != a.s {
        EndedTouchesOne(y.track, a.s, s);
        UntouchedSettled(y, z, s);
      }
    }
  }

  lemma QuietStepKeepsInv<ID, Sub, Pub>(y: System<ID, Sub, Pub>, a: Action<ID, Sub, Pub>)
    requires Inv(y) && (a.DoSetMetadata? || a.DoWindDown?) && Enabled(y, a)
    ensures Inv(Next(y, a).system)
  {
    var z := Next(y, a).system;
    forall s | s in y.track.layerOf ensures Settled(z, s) {
      assert Settled(y, s);
    }
  }

  lemma StepKeepsInv<ID, Sub, Pub>(y: System<ID, Sub, Pub>, a: Action<ID, Sub, Pub>)
    requires Inv(y) && Enabled(y, a) && KeepsUnmixed(y, a) && Next(y, a).Stepped?
    ensures Inv(Next(y, a).system)
  {
    match a
    case DoAddPublisher(_, _, _, _) => AddPublisherKeepsInv(y, a);
    case DoSubscribe(id, _, _) =>
      if id in y.track.subscriptions { ResubscribeKeepsInv(y, a); } else { NewSubscriptionKeepsInv(y, a); }
    case DoUnsubscribe(_) => UnsubscribeKeepsInv(y, a);
    case DoStalled(_) => StalledKeepsInv(y, a);
    case DoRecovered(_, _) => RecoveredKeepsInv(y, a);
    case DoStopped(_, _) => StoppedKeepsInv(y, a);
    case DoEnded(_) => EndedKeepsInv(y, a);
    case DoSetMetadata(_) => QuietStepKeepsInv(y, a);
    case DoWindDown => QuietStepKeepsInv(y, a);
  }

  // ---------------------------------------------------------------------------------------------
  // Runs
  // ---------------------------------------------------------------------------------------------

  /** `actions` lead from y to z, without a crash and under the assumption on publishers. */
  ghost predicate Path<ID, Sub, Pub>(
    y: System<ID, Sub, Pub>, actions: seq<Action<ID, Sub, Pub>>, z: System<ID, Sub, Pub>
  )
    decreases |actions|
  {
    if actions == [] then y == z
    else
      && Typed(y) && Enabled(y, actions[0]) && KeepsUnmixed(y, actions[0])
      && Next(y, actions[0]).Stepped?
      && Path(Next(y, actions[0]).system, actions[1..], z)
  }

  /** A track before its first publisher. */
  function NewTrack<ID(==), Sub(==), Pub(==)>(kind: Kind, metadata: Metadata): System<ID, Sub, Pub> {
    System(Track(kind, false, map[], map[], metadata, map[], map[], map[], map[]), {}, {}, {})
  }

  /** Kind and metadata change by nothing but new metadata. */
  lemma MetadataIff<ID, Sub, Pub>(y: System<ID, Sub, Pub>, a: Action<ID, Sub, Pub>)
    requires Typed(y) && Enabled(y, a) && Next(y, a).Stepped?
    ensures Next(y, a).system.track.kind == y.track.kind
    ensures Next(y, a).system.track.metadata == if a.DoSetMetadata? then a.metadata else y.track.metadata
  {
  }

  /** Every run keeps each subscription on at most one feed, and every registered video subscription fed unless a stall
      or a stop has cut it off. */
  lemma {:induction false} RunsKeepInv<ID, Sub, Pub>(
    y: System<ID, Sub, Pub>, actions: seq<Action<ID, Sub, Pub>>, z: System<ID, Sub, Pub>
  )
    requires Inv(y) && Path(y, actions, z)
    ensures Inv(z) && z.track.kind == y.track.kind
    decreases |actions|
  {
    if actions == [] {
    } else {
      StepKeepsInv(y, actions[0]);
      MetadataIff(y, actions[0]);
      RunsKeepInv(Next(y, actions[0]).system, actions[1..], z);
    }
  }

  lemma NewTrackInv<ID, Sub, Pub>(y: System<ID, Sub, Pub>)
    requires y == NewTrack(y.track.kind, y.track.metadata)
    ensures Inv(y) && FedAreRegistered(y.track)
  {
  }

  /** The register changes for a subscriber only by its own request, which adds it, by its unsubscription, and by the
      end of a listener of one of its subscriptions. */
  lemma RegisteredIff<ID, Sub, Pub>(y: System<ID, Sub, Pub>, a: Action<ID, Sub, Pub>, id: ID)
    requires Typed(y) && Enabled(y, a) && Next(y, a).Stepped?
    ensures var before, after := y.track.subscriptions, Next(y, a).system.track.subscriptions;
            if id in before then
              && (id in after <==> a != DoUnsubscribe(id) && !(a.DoEnded? && y.track.idOf[a.s] == id))
              && (id in after ==> after[id] == before[id])
            else
              && (id in after <==> a.DoSubscribe? && a.id == id && !a.request.sawDone && a.request.created
                                   && y.track.kind != Unsupported)
              && (id in after ==> after[id] == a.s)
  {
    if a.DoSubscribe? {
      SubscribePanicsIff(y.track, a.id, a.s, a.request);
      if Subscribe(y.track, a.id, a.s, a.request).Done? { RequestRegisters(y.track, a.id, a.s, a.request); }
    }
  }

  lemma RequestRegisters<ID, Sub, Pub>(t: Track<ID, Sub, Pub>, id: ID, s: Sub, r: Request<Pub>)
    requires t.WellFormed() && s !in t.layerOf && Subscribe(t, id, s, r).Done?
    ensures Subscribe(t, id, s, r).track.subscriptions ==
            if id in t.subscriptions then t.subscriptions else t.subscriptions[id := s]
  {
    if id in t.subscriptions {
      ResubscribeKeepsRegister(t, t.subscriptions[id], r);
    } else {
      var layer := if t.kind == Audio then None else Chosen(t, r);
      assert WithSubscription(t, id, s, layer).subscriptions == t.subscriptions[id := s];
    }
  }

  lemma ResubscribeKeepsRegister<ID, Sub, Pub>(t: Track<ID, Sub, Pub>, s: Sub, r: Request<Pub>)
    requires t.WellFormed() && s in t.layerOf && Resubscribe(t, s, r).Done?
    ensures Resubscribe(t, s, r).track.subscriptions == t.subscriptions
  {
  }

  /** A track is done exactly from its wind-down on, for good. */
  lemma {:induction false} DoneIff<ID, Sub, Pub>(
    y: System<ID, Sub, Pub>, actions: seq<Action<ID, Sub, Pub>>, z: System<ID, Sub, Pub>
  )
    requires Path(y, actions, z)
    ensures z.track.done <==> y.track.done || DoWindDown in actions
    decreases |actions|
  {
    if actions == [] {
    } else {
      OneStepDone(y, actions[0]);
      DoneIff(Next(y, actions[0]).system, actions[1..], z);
      assert DoWindDown in actions <==> actions[0] == DoWindDown || DoWindDown in actions[1..];
    }
  }

  lemma OneStepDone<ID, Sub, Pub>(y: System<ID, Sub, Pub>, a: Action<ID, Sub, Pub>)
    requires Typed(y) && Enabled(y, a) && Next(y, a).Stepped?
    ensures Next(y, a).system.track.done <==> y.track.done || a == DoWindDown
  {
  }

  lemma {:induction false} StaysEnded<ID, Sub, Pub>(
    y: System<ID, Sub, Pub>, actions: seq<Action<ID, Sub, Pub>>, z: System<ID, Sub, Pub>, s: Sub
  )
    requires Path(y, actions, z) && s in y.track.layerOf && s !in y.listening
    ensures s !in z.listening && DoEnded(s) !in actions
    decreases |actions|
  {
    if actions == [] {
    } else {
      OneStepListens(y, actions[0], s);
      StaysEnded(Next(y, actions[0]).system, actions[1..], z, s);
      assert DoEnded(s) in actions <==> actions[0] == DoEnded(s) || DoEnded(s) in actions[1..];
    }
  }

  lemma OneStepListens<ID, Sub, Pub>(y: System<ID, Sub, Pub>, a: Action<ID, Sub, Pub>, s: Sub)
    requires Typed(y) && Enabled(y, a) && Next(y, a).Stepped? && s in y.track.layerOf
    requires s in y.listening ==> a == DoEnded(s)
    ensures s !in Next(y, a).system.listening && s in Next(y, a).system.track.layerOf
  {
  }

  /** A subscription's listener ends once: whatever happens afterwards, it does not take its last step again. */
  lemma ListenerEndsOnce<ID, Sub, Pub>(
    y: System<ID, Sub, Pub>, actions: seq<Action<ID, Sub, Pub>>, z: System<ID, Sub, Pub>, s: Sub
  )
    requires Path(y, [DoEnded(s)] + actions, z)
    ensures DoEnded(s) !in actions
  {
    var path := [DoEnded(s)] + actions;
    assert path[0] == DoEnded(s) && path[1..] == actions;
    OneStepListens(y, DoEnded(s), s);
    StaysEnded(Next(y, DoEnded(s)).system, actions, z, s);
  }

  /** In every reachable state of a video track a registered subscription is fed, by one publisher, exactly if nothing
      has cut it off. */
  lemma ReachableAreFedIff<ID, Sub, Pub>(
    y: System<ID, Sub, Pub>, actions: seq<Action<ID, Sub, Pub>>, z: System<ID, Sub, Pub>, id: ID
  )
    requires y == NewTrack(Video, y.track.metadata) && Path(y, actions, z) && id in z.track.subscriptions
    ensures Inv(z) && (z.track.Fed(z.track.subscriptions[id]) <==> z.track.subscriptions[id] !in z.cutOff)
  {
    NewTrackInv(y);
    RunsKeepInv(y, actions, z);
    assert Settled(z, z.track.subscriptions[id]);
  }

  /** What is fed stays registered through this step: a listener's last step does not come after its subscriber has
      subscribed again, and no subscription of an audio track is unsubscribed while a publisher feeds it. */
  predicate KeepsRegistered<ID, Sub, Pub>(y: System<ID, Sub, Pub>, a: Action<ID, Sub, Pub>)
    requires y.track.layerOf.Keys == y.track.idOf.Keys && (a.DoEnded? ==> a.s in y.track.idOf)
    requires forall id :: id in y.track.subscriptions ==> y.track.subscriptions[id] in y.track.layerOf
    requires forall l :: l in y.track.publishers ==> y.track.publishers[l] in y.track.feeds
  {
    match a
    case DoEnded(s) =>
      y.track.idOf[s] in y.track.subscriptions ==>
        var registered := y.track.subscriptions[y.track.idOf[s]];
        registered == s || !y.track.Fed(registered)
    case DoUnsubscribe(id) =>
      y.track.kind == Video || id !in y.track.subscriptions || !y.track.Fed(y.track.subscriptions[id])
    case _ => true
  }

  lemma NewSubscriptionKeepsRegistered<ID, Sub, Pub>(t: Track<ID, Sub, Pub>, id: ID, s: Sub, r: Request<Pub>)
    requires Sound(t) && FedAreRegistered(t) && s !in t.layerOf && id !in t.subscriptions
    requires Subscribe(t, id, s, r).Done?
    ensures Subscribe(t, id, s, r).track.WellFormed() && FedAreRegistered(Subscribe(t, id, s, r).track)
  {
    var t' := Subscribe(t, id, s, r).track;
    SubscribeSound(t, id, s, r);
    FedAreRegisteredPerSubscription(t);
    forall x | x in t'.layerOf && t'.Fed(x) ensures IsRegistered(t', x) {
      NewSubscriptionKeepsOneRegistered(t, id, s, r, x);
    }
    FedAreRegisteredPerSubscription(t');
  }

  lemma NewSubscriptionKeepsOneRegistered<ID, Sub, Pub>(t: Track<ID, Sub, Pub>, id: ID, s: Sub, r: Request<Pub>, x: Sub)
    requires Sound(t) && s !in t.layerOf && id !in t.subscriptions && Subscribe(t, id, s, r).Done?
    requires x in t.layerOf && t.Fed(x) ==> IsRegistered(t, x)
    requires x in Subscribe(t, id, s, r).track.layerOf
    ensures var t' := Subscribe(t, id, s, r).track; t'.WellFormed() && (t'.Fed(x) ==> IsRegistered(t', x))
  {
    NewSubscriptionFed(t, id, s, r);
    if x in t.layerOf { SubscribeTouchesOne(t, id, s, r, x); }
  }

  lemma ResubscribeKeepsRegistered<ID, Sub, Pub>(t: Track<ID, Sub, Pub>, s: Sub, r: Request<Pub>)
    requires Sound(t) && FedAreRegistered(t) && s in t.layerOf && IsRegistered(t, s) && Resubscribe(t, s, r).Done?
    ensures Resubscribe(t, s, r).track.WellFormed() && FedAreRegistered(Resubscribe(t, s, r).track)
  {
    var t' := Resubscribe(t, s, r).track;
    ResubscribeSound(t, s, r);
    ResubscribeFeeds(t, s, r);
    FedAreRegisteredPerSubscription(t);
    forall x | x in t'.layerOf && t'.Fed(x) ensures IsRegistered(t', x) {
      if x != s {
        ResubscribeTouchesOne(t, s, r, x);
        assert IsRegistered(t, x);
      }
    }
    FedAreRegisteredPerSubscription(t');
  }

  /** An unsubscription takes a video subscription off its feed, and any other only off the register. */
  lemma UnsubscribeKeepsRegisteredIff<ID, Sub, Pub>(t: Track<ID, Sub, Pub>, id: ID)
    requires Sound(t) && FedAreRegistered(t) && Unsubscribe(t, id).Done?
    ensures Unsubscribe(t, id).track.WellFormed()
    ensures FedAreRegistered(Unsubscribe(t, id).track) <==>
            t.kind == Video || id !in t.subscriptions || !t.Fed(t.subscriptions[id])
  {
    UnsubscribeSound(t, id);
    if t.kind != Video && id in t.subscriptions {
      var s, t' := t.subscriptions[id], Unsubscribe(t, id).track;
      FedAreRegisteredPerSubscription(t);
      FedAreRegisteredPerSubscription(t');
      if t.Fed(s) {
        assert t'.Fed(s) && !IsRegistered(t', s);
      } else {
        forall x | x in t'.layerOf && t'.Fed(x) ensures IsRegistered(t', x) {
          assert IsRegistered(t, x) && x != s;
        }
      }
    }
  }

  lemma StalledKeepsRegistered<ID, Sub, Pub>(t: Track<ID, Sub, Pub>, pub: Pub)
    requires Sound(t) && FedAreRegistered(t)
    requires pub in t.feeds && t.pubLayer[pub] in t.publishers && t.publishers[t.pubLayer[pub]] == pub
    ensures Stalled(t, pub).WellFormed() && FedAreRegistered(Stalled(t, pub))
  {
    if !t.metadata.muted {
      var t' := Stalled(t, pub);
      StalledSound(t, pub);
      FedAreRegisteredPerSubscription(t);
      forall x | x in t'.layerOf && t'.Fed(x) ensures IsRegistered(t', x) {
        StallMovesExactly(t, pub, x);
        assert IsRegistered(t, x);
      }
      FedAreRegisteredPerSubscription(t');
    }
  }

  lemma RecoveredKeepsRegistered<ID, Sub, Pub>(t: Track<ID, Sub, Pub>, pub: Pub, isStalled: bool)
    requires Sound(t) && FedAreRegistered(t) && pub in t.feeds
    ensures Recovered(t, pub, isStalled).WellFormed() && FedAreRegistered(Recovered(t, pub, isStalled))
  {
  }

  lemma PublisherStepKeepsRegistered<ID, Sub, Pub>(y: System<ID, Sub, Pub>, a: Action<ID, Sub, Pub>)
    requires Inv(y) && FedAreRegistered(y.track) && Enabled(y, a)
    requires a.DoAddPublisher? || a.DoStalled? || a.DoRecovered? || a.DoStopped?
    ensures Next(y, a).system.track.WellFormed() && FedAreRegistered(Next(y, a).system.track)
  {
    match a
    case DoAddPublisher(layer, pub, _, _) =>
      if layer !in y.track.publishers { NewPublisherSound(y.track, layer, pub); }
    case DoStalled(pub) => StalledKeepsRegistered(y.track, pub);
    case DoRecovered(pub, isStalled) => RecoveredKeepsRegistered(y.track, pub, isStalled);
    case DoStopped(pub, survivor) => StopOnlyRemovesPublisher(y.track, pub, survivor);
  }

  lemma SubscribeStepKeepsRegistered<ID, Sub, Pub>(y: System<ID, Sub, Pub>, a: Action<ID, Sub, Pub>)
    requires Inv(y) && FedAreRegistered(y.track) && a.DoSubscribe? && Enabled(y, a) && Next(y, a).Stepped?
    ensures Next(y, a).system.track.WellFormed() && FedAreRegistered(Next(y, a).system.track)
  {
    if Subscribe(y.track, a.id, a.s, a.request).Done? {
      if a.id in y.track.subscriptions {
        ResubscribeKeepsRegistered(y.track, y.track.subscriptions[a.id], a.request);
      } else {
        NewSubscriptionKeepsRegistered(y.track, a.id, a.s, a.request);
      }
    }
  }

  /** What is fed is still registered after a step exactly then. */
  lemma StepKeepsRegisteredIff<ID, Sub, Pub>(y: System<ID, Sub, Pub>, a: Action<ID, Sub, Pub>)
    requires Inv(y) && FedAreRegistered(y.track)
    requires Enabled(y, a) && KeepsUnmixed(y, a) && Next(y, a).Stepped?
    ensures Next(y, a).system.track.WellFormed()
    ensures FedAreRegistered(Next(y, a).system.track) <==> KeepsRegistered(y, a)
  {
    if a.DoAddPublisher? || a.DoStalled? || a.DoRecovered? || a.DoStopped? {
      PublisherStepKeepsRegistered(y, a);
    } else if a.DoSubscribe? {
      SubscribeStepKeepsRegistered(y, a);
    } else if a.DoUnsubscribe? {
      UnsubscribeKeepsRegisteredIff(y.track, a.id);
    } else if a.DoEnded? {
      EndedKeepsRegisteredIff(y.track, a.s);
    }
  }

  ghost predicate RegisteredPath<ID, Sub, Pub>(
    y: System<ID, Sub, Pub>, actions: seq<Action<ID, Sub, Pub>>, z: System<ID, Sub, Pub>
  )
    requires Path(y, actions, z)
    decreases |actions|
  {
    actions != [] ==> KeepsRegistered(y, actions[0]) && RegisteredPath(Next(y, actions[0]).system, actions[1..], z)
  }

  /** In every run of such steps, on tracks of any kind, what a publisher feeds is what is registered. */
  lemma {:induction false} RunsKeepRegistered<ID, Sub, Pub>(
    y: System<ID, Sub, Pub>, actions: seq<Action<ID, Sub, Pub>>, z: System<ID, Sub, Pub>
  )
    requires Inv(y) && FedAreRegistered(y.track)
    requires Path(y, actions, z) && RegisteredPath(y, actions, z)
    ensures Inv(z) && FedAreRegistered(z.track)
    decreases |actions|
  {
    if actions == [] {
    } else {
      StepKeepsInv(y, actions[0]);
      StepKeepsRegisteredIff(y, actions[0]);
      RunsKeepRegistered(Next(y, actions[0]).system, actions[1..], z);
    }
  }

  /** An unsubscription crashes exactly for a registered video subscription that has been cut off and stands on a layer
      without a publisher. */
  lemma CrashNeedsLoss<ID, Sub, Pub>(y: System<ID, Sub, Pub>, id: ID)
    requires Inv(y)
    ensures Next(y, DoUnsubscribe(id)).Crashed? <==>
            && y.track.kind == Video && id in y.track.subscriptions && y.track.subscriptions[id] in y.cutOff
            && y.track.layerOf[y.track.subscriptions[id]] !in y.track.publishers
  {
    UnsubscribePanicsIff(y.track, id);
    if id in y.track.subscriptions {
      assert Settled(y, y.track.subscriptions[id]);
    }
  }

  // ---------------------------------------------------------------------------------------------
  // What is cut off
  // ---------------------------------------------------------------------------------------------

  /** A step that puts the subscription on a feed again: its subscriber asks for another layer of a track with layers,
      or a publisher recovers while the subscription is registered and stands on no layer. */
  predicate FeedsAgain<ID, Sub, Pub>(y: System<ID, Sub, Pub>, a: Action<ID, Sub, Pub>, s: Sub)
    requires s in y.track.layerOf
    requires forall id :: id in y.track.subscriptions ==> y.track.subscriptions[id] in y.track.layerOf
  {
    match a
    case DoSubscribe(id, _, r) =>
      && id in y.track.subscriptions && y.track.subscriptions[id] == s && !r.sawDone
      && y.track.kind == Video && y.track.publishers != map[] && None !in y.track.publishers
      && Chosen(y.track, r) != y.track.layerOf[s]
    case DoRecovered(_, isStalled) => !isStalled && s in y.track.Orphans()
    case _ => false
  }

  /** Nothing else ends it, and in the meantime the subscription stays on its layer. */
  lemma FedAgainIff<ID, Sub, Pub>(y: System<ID, Sub, Pub>, a: Action<ID, Sub, Pub>, s: Sub)
    requires Inv(y) && Enabled(y, a) && KeepsUnmixed(y, a) && Next(y, a).Stepped? && s in y.cutOff
    ensures Inv(Next(y, a).system) && s in Next(y, a).system.track.layerOf
    ensures Next(y, a).system.track.Fed(s) <==> FeedsAgain(y, a, s)
    ensures s !in Next(y, a).system.cutOff <==> FeedsAgain(y, a, s)
    ensures !FeedsAgain(y, a, s) ==> Next(y, a).system.track.layerOf[s] == y.track.layerOf[s]
    ensures Next(y, a).system.track.idOf[s] == y.track.idOf[s]
  {
    StepKeepsInv(y, a);
    assert Settled(y, s) && Settled(Next(y, a).system, s);
    if a.DoSubscribe? {
      SubscribeToCutOff(y, a, s);
    } else if a.DoRecovered? {
      RecoverCutOff(y, a, s);
    } else {
      OtherStepKeepsCutOff(y, a, s);
    }
  }

  lemma SubscribeToCutOff<ID, Sub, Pub>(y: System<ID, Sub, Pub>, a: Action<ID, Sub, Pub>, s: Sub)
    requires Inv(y) && a.DoSubscribe? && Enabled(y, a) && Next(y, a).Stepped? && s in y.cutOff
    requires Inv(Next(y, a).system) && s in Next(y, a).system.track.layerOf
    ensures s !in Next(y, a).system.cutOff <==> FeedsAgain(y, a, s)
    ensures Next(y, a).system.track.Fed(s) <==> FeedsAgain(y, a, s)
    ensures !FeedsAgain(y, a, s) ==> Next(y, a).system.track.layerOf[s] == y.track.layerOf[s]
    ensures Next(y, a).system.track.idOf[s] == y.track.idOf[s]
  {
    assert Settled(Next(y, a).system, s);
    if a.id in y.track.subscriptions && !a.request.sawDone {
      var known := y.track.subscriptions[a.id];
      ResubscribeMoves(y.track, known, a.request, s);
      if FeedsAgain(y, a, s) { ResubscribeFeeds(y.track, s, a.request); }
    }
  }

  /** A repeated request moves the known subscription, if it moves anything. */
  lemma ResubscribeMoves<ID, Sub, Pub>(t: Track<ID, Sub, Pub>, known: Sub, r: Request<Pub>, s: Sub)
    requires t.WellFormed() && known in t.layerOf && s in t.layerOf && !Resubscribe(t, known, r).Panicked?
    ensures var t' := Resubscribe(t, known, r).track;
            && t'.idOf == t.idOf && t'.layerOf.Keys == t.layerOf.Keys
            && (t'.layerOf[s] != t.layerOf[s] <==>
                  && s == known && t.kind == Video && t.publishers != map[] && None !in t.publishers
                  && Chosen(t, r) != t.layerOf[known])
  {
  }

  lemma RecoverCutOff<ID, Sub, Pub>(y: System<ID, Sub, Pub>, a: Action<ID, Sub, Pub>, s: Sub)
    requires Inv(y) && a.DoRecovered? && Enabled(y, a) && s in y.cutOff
    ensures s in Next(y, a).system.track.layerOf && Next(y, a).system.track.WellFormed()
    ensures s !in Next(y, a).system.cutOff <==> FeedsAgain(y, a, s)
    ensures Next(y, a).system.track.Fed(s) <==> FeedsAgain(y, a, s)
    ensures !FeedsAgain(y, a, s) ==> Next(y, a).system.track.layerOf[s] == y.track.layerOf[s]
  {
    assert Settled(y, s);
    RecoveryLeavesNoOrphan(y.track, a.pub, s);
  }

  lemma OtherStepKeepsCutOff<ID, Sub, Pub>(y: System<ID, Sub, Pub>, a: Action<ID, Sub, Pub>, s: Sub)
    requires Inv(y) && Enabled(y, a) && Next(y, a).Stepped? && s in y.cutOff
    requires !a.DoSubscribe? && !a.DoRecovered?
    ensures s in Next(y, a).system.cutOff && s in Next(y, a).system.track.layerOf
    ensures Next(y, a).system.track.layerOf[s] == y.track.layerOf[s]
  {
    assert Settled(y, s);
    match a
    case DoStalled(pub) => if s in y.track.feeds[pub] { LiveFeeds(y, pub, s); }
    case DoStopped(pub, survivor) => StopOnlyRemovesPublisher(y.track, pub, survivor);
    case _ =>
  }

  /** No step is a new request of the subscriber. */
  predicate NoRequestFor<ID, Sub, Pub>(id: ID, actions: seq<Action<ID, Sub, Pub>>) {
    forall a :: a in actions ==> !(a.DoSubscribe? && a.id == id)
  }

  predicate NoRecovery<ID, Sub, Pub>(actions: seq<Action<ID, Sub, Pub>>) {
    forall a :: a in actions ==> !a.DoRecovered?
  }

  lemma {:induction false} StaysCutOff<ID, Sub, Pub>(
    y: System<ID, Sub, Pub>, actions: seq<Action<ID, Sub, Pub>>, z: System<ID, Sub, Pub>, s: Sub
  )
    requires Inv(y) && Path(y, actions, z) && s in y.cutOff && NoRequestFor(y.track.idOf[s], actions)
    requires y.track.layerOf[s] == None ==> NoRecovery(actions)
    ensures Inv(z) && s in z.cutOff
    decreases |actions|
  {
    if actions == [] {
    } else {
      var a, y' := actions[0], Next(y, actions[0]).system;
      assert a in actions && forall b :: b in actions[1..] ==> b in actions;
      FedAgainIff(y, a, s);
      StaysCutOff(y', actions[1..], z, s);
    }
  }

  /** Once a publisher stops, the subscriptions it was feeding get nothing from any publisher, however the run goes on,
      until their subscriber asks for another layer; those on no layer also until some publisher recovers. No other
      publisher picks them up. */
  lemma StopLosesSubscriptions<ID, Sub, Pub>(
    y: System<ID, Sub, Pub>, pub: Pub, survivor: Layer, actions: seq<Action<ID, Sub, Pub>>, z: System<ID, Sub, Pub>,
    s: Sub, l: Layer
  )
    requires Inv(y) && pub in y.running && s in y.track.feeds[pub]
    requires Path(y, [DoStopped(pub, survivor)] + actions, z) && NoRequestFor(y.track.idOf[s], actions)
    requires y.track.pubLayer[pub] == None ==> NoRecovery(actions)
    ensures Inv(z) && s in z.cutOff
    ensures l in z.track.publishers ==> s !in z.track.feeds[z.track.publishers[l]]
  {
    var stop := DoStopped(pub, survivor);
    var path := [stop] + actions;
    assert path[0] == stop && path[1..] == actions;
    StepKeepsInv(y, stop);
    LiveFeeds(y, pub, s);
    StopOnlyRemovesPublisher(y.track, pub, survivor);
    StaysCutOff(Next(y, stop).system, actions, z, s);
    assert Settled(z, s);
  }

  /** What a stop costs a track without layers: it has no publisher left, nobody registered is fed, and every
      unsubscription crashes until a publisher is added. */
  lemma StopOfLayerlessTrack<ID, Sub, Pub>(y: System<ID, Sub, Pub>, pub: Pub, survivor: Layer, id: ID)
    requires Inv(y) && pub in y.running && y.track.pubLayer[pub] == None
    requires y.track.kind == Video && id in y.track.subscriptions
    ensures var z := Next(y, DoStopped(pub, survivor)).system;
            && Inv(z) && z.track.publishers == map[] && z.track.subscriptions == y.track.subscriptions
            && z.track.subscriptions[id] in z.cutOff && Unsubscribe(z.track, id).Panicked?
  {
    var stop := DoStopped(pub, survivor);
    StepKeepsInv(y, stop);
    StopOnlyRemovesPublisher(y.track, pub, survivor);
    var z := Next(y, stop).system;
    assert y.track.publishers.Keys == {None};
    assert Settled(z, z.track.subscriptions[id]);
    UnsubscribePanicsIff(z.track, id);
  }
}

/** Runs from the beginning that reach the failures whose conditions the other modules give. */
module Traces {
  import opened Layers
  import opened TrackModel
  import opened TrackSystem

  /** `actions` lead from y to z without a crash; nothing is assumed about publishers. */
  ghost predicate Steps<ID, Sub, Pub>(
    y: System<ID, Sub, Pub>, actions: seq<Action<ID, Sub, Pub>>, z: System<ID, Sub, Pub>
  )
    decreases |actions|
  {
    if actions == [] then y == z
    else
      && Typed(y) && Enabled(y, actions[0]) && Next(y, actions[0]).Stepped?
      && Steps(Next(y, actions[0]).system, actions[1..], z)
  }

  ghost predicate Does<ID, Sub, Pub>(y: System<ID, Sub, Pub>, a: Action<ID, Sub, Pub>, z: System<ID, Sub, Pub>) {
    Typed(y) && Enabled(y, a) && Next(y, a) == Stepped(z)
  }

  lemma ThenStep<ID, Sub, Pub>(
    y: System<ID, Sub, Pub>, a: Action<ID, Sub, Pub>, mid: System<ID, Sub, Pub>,
    actions: seq<Action<ID, Sub, Pub>>, z: System<ID, Sub, Pub>
  )
    requires Does(y, a, mid) && Steps(mid, actions, z)
    ensures Steps(y, [a] + actions, z)
  {
    var path := [a] + actions;
    assert path[0] == a && path[1..] == actions;
  }

  lemma TwoSteps<ID, Sub, Pub>(
    y: System<ID, Sub, Pub>, a: Action<ID, Sub, Pub>, y1: System<ID, Sub, Pub>,
    b: Action<ID, Sub, Pub>, z: System<ID, Sub, Pub>
  )
    requires Does(y, a, y1) && Does(y1, b, z)
    ensures Steps(y, [a, b], z)
  {
    ThenStep(y1, b, z, [], z);
    ThenStep(y, a, y1, [b] + [], z);
    assert [a] + ([b] + []) == [a, b];
  }

  lemma ThenTwoSteps<ID, Sub, Pub>(
    y: System<ID, Sub, Pub>, a: Action<ID, Sub, Pub>, y1: System<ID, Sub, Pub>, b: Action<ID, Sub, Pub>,
    y2: System<ID, Sub, Pub>, actions: seq<Action<ID, Sub, Pub>>, z: System<ID, Sub, Pub>
  )
    requires Does(y, a, y1) && Does(y1, b, y2) && Steps(y2, actions, z)
    ensures Steps(y, [a, b] + actions, z)
  {
    ThenStep(y1, b, y2, actions, z);
    ThenStep(y, a, y1, [b] + actions, z);
    assert [a] + ([b] + actions) == [a, b] + actions;
  }

  /** A track with one publisher, which has no layer, and one subscriber. */
  function Alone<ID, Sub, Pub>(m: Metadata, p0: Pub, id: ID, s: Sub): System<ID, Sub, Pub> {
    System(Track(Video, false, map[id := s], map[None := p0], m, map[p0 := {s}], map[s := None], map[s := id],
                 map[p0 := None]),
           {p0}, {s}, {})
  }

  lemma FirstSubscriber<ID, Sub, Pub>(
    y0: System<ID, Sub, Pub>, m: Metadata, p0: Pub, id: ID, s: Sub, r: Request<Pub>
  )
    returns (y1: System<ID, Sub, Pub>, y2: System<ID, Sub, Pub>)
    requires y0 == NewTrack(Video, m) && r == Request(r.width, r.height, {}, true, false)
    ensures Does(y0, DoAddPublisher(None, p0, true, false), y1) && Does(y1, DoSubscribe(id, s, r), y2)
    ensures y2 == Alone(m, p0, id, s)
  {
    y1 := Next(y0, DoAddPublisher(None, p0, true, false)).system;
    assert None in y1.track.ActiveLayers({});
    assert Chosen(y1.track, r) == None;
    y2 := Next(y1, DoSubscribe(id, s, r)).system;
    assert y2.track == WithSubscription(y1.track, id, s, None).Attach(p0, s);
    assert y2.track.feeds[p0] == {s};
    assert y2.track.feeds == map[p0 := {s}];
  }

  /** The only publisher stops; the next new subscriber's request crashes. */
  lemma LastStopThenSubscribeCrashes<ID, Sub, Pub>(m: Metadata, l: Layer, pub: Pub, id: ID, s: Sub, r: Request<Pub>)
    returns (z: System<ID, Sub, Pub>)
    requires r.created && !r.sawDone
    ensures Steps(NewTrack(Video, m), [DoAddPublisher(l, pub, true, false), DoStopped(pub, l)], z)
    ensures Enabled(z, DoSubscribe(id, s, r)) && Typed(z) && Next(z, DoSubscribe(id, s, r)).Crashed?
  {
    var y0: System<ID, Sub, Pub> := NewTrack(Video, m);
    var add, stop := DoAddPublisher(l, pub, true, false), DoStopped(pub, l);
    var y1 := Next(y0, add).system;
    z := Next(y1, stop).system;
    assert z.track.publishers == map[];
    TwoSteps(y0, add, y1, stop, z);
    SubscribePanicsIff(z.track, id, s, r);
    assert z.track.ActiveLayers(r.stalled) == {};
  }

  /** A publisher without a layer and one with a layer on the same track: when the second recovers, a subscription that
      the first is feeding is put on both feeds. */
  lemma MixingFeedsTwice<ID, Sub, Pub>(m: Metadata, l: Layer, p0: Pub, p1: Pub, id: ID, s: Sub, width: int, height: int)
    returns (z: System<ID, Sub, Pub>)
    requires l != None && p0 != p1
    ensures Steps(NewTrack(Video, m),
                  [DoAddPublisher(None, p0, true, false), DoSubscribe(id, s, Request(width, height, {}, true, false)),
                   DoAddPublisher(l, p1, true, false), DoRecovered(p1, false)], z)
    ensures z.track.publishers == map[None := p0, l := p1] && z.track.feeds == map[p0 := {s}, p1 := {s}]
  {
    var request := Request(width, height, {}, true, false);
    var a0, a1 := DoAddPublisher(None, p0, true, false), DoSubscribe(id, s, request);
    var a2, a3 := DoAddPublisher(l, p1, true, false), DoRecovered(p1, false);
    var y0: System<ID, Sub, Pub> := NewTrack(Video, m);
    var y1, y2 := FirstSubscriber(y0, m, p0, id, s, request);
    var y3 := SecondPublisher(y2, p0, l, p1, id, s);
    z := SecondRecovers(y3, p0, l, p1, id, s);
    TwoSteps(y2, a2, y3, a3, z);
    ThenTwoSteps(y0, a0, y1, a1, y2, [a2, a3], z);
    assert [a0, a1] + [a2, a3] == [a0, a1, a2, a3];
  }

  lemma SecondPublisher<ID, Sub, Pub>(y: System<ID, Sub, Pub>, p0: Pub, l: Layer, p1: Pub, id: ID, s: Sub)
    returns (z: System<ID, Sub, Pub>)
    requires y == Alone(y.track.metadata, p0, id, s) && l != None && p0 != p1
    ensures Does(y, DoAddPublisher(l, p1, true, false), z) && Typed(z) && p1 in z.running && z.track.kind == Video
    ensures z.track.publishers == map[None := p0, l := p1] && z.track.feeds == map[p0 := {s}, p1 := {}]
    ensures z.track.subscriptions == map[id := s] && z.track.layerOf == map[s := None]
  {
    z := Next(y, DoAddPublisher(l, p1, true, false)).system;
    assert z.track.feeds == map[p0 := {s}, p1 := {}];
  }

  lemma SecondRecovers<ID, Sub, Pub>(y: System<ID, Sub, Pub>, p0: Pub, l: Layer, p1: Pub, id: ID, s: Sub)
    returns (z: System<ID, Sub, Pub>)
    requires Typed(y) && y.track.kind == Video && l != None && p0 != p1 && p1 in y.running
    requires y.track.publishers == map[None := p0, l := p1] && y.track.feeds == map[p0 := {s}, p1 := {}]
    requires y.track.subscriptions == map[id := s] && y.track.layerOf == map[s := None]
    ensures Does(y, DoRecovered(p1, false), z)
    ensures z.track.publishers == y.track.publishers && z.track.feeds == map[p0 := {s}, p1 := {s}]
  {
    assert y.track.Orphans() == {s} by {
      assert id in y.track.subscriptions && y.track.subscriptions[id] == s;
    }
    z := Next(y, DoRecovered(p1, false)).system;
    assert z.track.feeds[p0] == {s} && z.track.feeds[p1] == {s};
    assert z.track.feeds == map[p0 := {s}, p1 := {s}];
  }

  /** A subscriber leaves and comes back, and only then does the listener of its first subscription end: the second
      subscription is fed but no longer registered. */
  lemma LateCleanupRun<ID, Sub, Pub>(m: Metadata, p0: Pub, id: ID, s: Sub, s': Sub, r: Request<Pub>)
    returns (z: System<ID, Sub, Pub>)
    requires s != s' && r == Request(r.width, r.height, {}, true, false)
    ensures Steps(NewTrack(Video, m),
                  [DoAddPublisher(None, p0, true, false), DoSubscribe(id, s, r), DoUnsubscribe(id),
                   DoSubscribe(id, s', r), DoEnded(s)], z)
    ensures z.track.publishers == map[None := p0] && z.track.feeds == map[p0 := {s'}] && id !in z.track.subscriptions
  {
    var a0, a1 := DoAddPublisher(None, p0, true, false), DoSubscribe(id, s, r);
    var a2, a3, a4 := DoUnsubscribe(id), DoSubscribe(id, s', r), DoEnded(s);
    var y0: System<ID, Sub, Pub> := NewTrack(Video, m);
    var y1, y2 := FirstSubscriber(y0, m, p0, id, s, r);
    z := LateCleanupFrom(y2, p0, id, s, s', r);
    ThenTwoSteps(y0, a0, y1, a1, y2, [a2, a3, a4], z);
    assert [a0, a1] + [a2, a3, a4] == [a0, a1, a2, a3, a4];
  }

  lemma LateCleanupFrom<ID, Sub, Pub>(y2: System<ID, Sub, Pub>, p0: Pub, id: ID, s: Sub, s': Sub, r: Request<Pub>)
    returns (z: System<ID, Sub, Pub>)
    requires y2 == Alone(y2.track.metadata, p0, id, s) && s != s' && r == Request(r.width, r.height, {}, true, false)
    ensures Steps(y2, [DoUnsubscribe(id), DoSubscribe(id, s', r), DoEnded(s)], z)
    ensures z.track.publishers == map[None := p0] && z.track.feeds == map[p0 := {s'}] && id !in z.track.subscriptions
  {
    var y3 := LeavingSubscriber(y2, p0, id, s);
    var y4 := ReturningSubscriber(y3, p0, id, s', r);
    z := LateEnd(y4, p0, id, s, s');
    TwoSteps(y3, DoSubscribe(id, s', r), y4, DoEnded(s), z);
    ThenStep(y2, DoUnsubscribe(id), y3, [DoSubscribe(id, s', r), DoEnded(s)], z);
    var rest := [DoSubscribe(id, s', r), DoEnded(s)];
    assert [DoUnsubscribe(id)] + rest == [DoUnsubscribe(id), DoSubscribe(id, s', r), DoEnded(s)];
  }

  lemma LeavingSubscriber<ID, Sub, Pub>(y: System<ID, Sub, Pub>, p0: Pub, id: ID, s: Sub)
    returns (z: System<ID, Sub, Pub>)
    requires y == Alone(y.track.metadata, p0, id, s)
    ensures Does(y, DoUnsubscribe(id), z)
    ensures z.track == y.track.(subscriptions := map[], feeds := map[p0 := {}]) && z.listening == {s}
  {
    z := Next(y, DoUnsubscribe(id)).system;
    assert z.track.subscriptions == map[];
    assert z.track.feeds[p0] == {};
    assert z.track.feeds == map[p0 := {}];
  }

  lemma LateEnd<ID, Sub, Pub>(y: System<ID, Sub, Pub>, p0: Pub, id: ID, s: Sub, s': Sub)
    returns (z: System<ID, Sub, Pub>)
    requires Typed(y) && y.track.publishers == map[None := p0] && y.track.feeds == map[p0 := {s'}] && s != s'
    requires s in y.listening && s in y.track.layerOf && y.track.layerOf[s] == None && y.track.idOf[s] == id
    ensures Does(y, DoEnded(s), z)
    ensures z.track.publishers == map[None := p0] && z.track.feeds == map[p0 := {s'}] && id !in z.track.subscriptions
  {
    z := Next(y, DoEnded(s)).system;
    assert z.track.feeds[p0] == {s'};
    assert z.track.feeds == map[p0 := {s'}];
  }

  lemma ReturningSubscriber<ID, Sub, Pub>(y: System<ID, Sub, Pub>, p0: Pub, id: ID, s: Sub, r: Request<Pub>)
    returns (z: System<ID, Sub, Pub>)
    requires Typed(y) && y.track.kind == Video
    requires y.track.publishers == map[None := p0] && y.track.feeds == map[p0 := {}]
    requires id !in y.track.subscriptions && s !in y.track.layerOf && r == Request(r.width, r.height, {}, true, false)
    ensures Does(y, DoSubscribe(id, s, r), z)
    ensures z.track == WithSubscription(y.track, id, s, None).(feeds := map[p0 := {s}])
    ensures Typed(z) && z.listening == y.listening + {s}
  {
    assert None in y.track.ActiveLayers({});
    assert Chosen(y.track, r) == None;
    z := Next(y, DoSubscribe(id, s, r)).system;
    assert z.track == WithSubscription(y.track, id, s, None).Attach(p0, s);
    assert z.track.feeds[p0] == {s};
    assert z.track.feeds == map[p0 := {s}];
  }

  /** Every publisher of a layered track is flagged as stalled: the request of a subscriber it has already crashes. */
  lemma AllFlaggedThenResubscribeCrashes<ID, Sub, Pub>(m: Metadata, l: Layer, p: Pub, id: ID, s: Sub, s': Sub)
    returns (z: System<ID, Sub, Pub>)
    requires l != None && s != s'
    ensures Steps(NewTrack(Video, m),
                  [DoAddPublisher(l, p, true, false), DoSubscribe(id, s, Request(1, 1, {}, true, false))], z)
    ensures var again := DoSubscribe(id, s', Request(1, 1, {p}, true, false));
            Typed(z) && Enabled(z, again) && Next(z, again).Crashed?
  {
    var a0, a1 := DoAddPublisher(l, p, true, false), DoSubscribe(id, s, Request(1, 1, {}, true, false));
    var y0: System<ID, Sub, Pub> := NewTrack(Video, m);
    var y1;
    y1, z := FirstLayeredSubscriber(y0, m, l, p, id, s);
    TwoSteps(y0, a0, y1, a1, z);
    SubscribePanicsIff(z.track, id, s', Request(1, 1, {p}, true, false));
    assert z.track.ActiveLayers({p}) == {};
  }

  /** A layer's publisher stops and another one takes the layer: the subscriber of the first, asking for that layer
      again, is left on it without being fed. */
  lemma RestartedLayerStaysUnfed<ID, Sub, Pub>(m: Metadata, l: Layer, p: Pub, p': Pub, id: ID, s: Sub, s': Sub)
    returns (z: System<ID, Sub, Pub>)
    requires l != None && p != p' && s != s'
    ensures var r := Request(1, 1, {}, true, false);
            Steps(NewTrack(Video, m),
                  [DoAddPublisher(l, p, true, false), DoSubscribe(id, s, r)]
                  + [DoStopped(p, l), DoAddPublisher(l, p', true, false), DoSubscribe(id, s', r)], z)
    ensures z.track.publishers == map[l := p'] && z.track.subscriptions == map[id := s]
    ensures z.track.layerOf == map[s := l] && p' in z.track.feeds && z.track.feeds[p'] == {}
  {
    var r := Request(1, 1, {}, true, false);
    var y0: System<ID, Sub, Pub> := NewTrack(Video, m);
    var y1, y2 := FirstLayeredSubscriber(y0, m, l, p, id, s);
    var y3, y4 := Restart(y2, l, p, p', s);
    z := AskAgain(y4, l, p', id, s, s');
    TwoSteps(y3, DoAddPublisher(l, p', true, false), y4, DoSubscribe(id, s', r), z);
    ThenStep(y2, DoStopped(p, l), y3, [DoAddPublisher(l, p', true, false), DoSubscribe(id, s', r)], z);
    var rest := [DoAddPublisher(l, p', true, false), DoSubscribe(id, s', r)];
    assert [DoStopped(p, l)] + rest == [DoStopped(p, l), rest[0], rest[1]];
    ThenTwoSteps(y0, DoAddPublisher(l, p, true, false), y1, DoSubscribe(id, s, r), y2,
                 [DoStopped(p, l), rest[0], rest[1]], z);
  }

  lemma Restart<ID, Sub, Pub>(y: System<ID, Sub, Pub>, l: Layer, p: Pub, p': Pub, s: Sub)
    returns (y': System<ID, Sub, Pub>, z: System<ID, Sub, Pub>)
    requires Typed(y) && y.track.publishers == map[l := p] && y.track.feeds.Keys == {p} && p in y.running && p != p'
    requires y.track.pubLayer[p] == l
    ensures Does(y, DoStopped(p, l), y') && Does(y', DoAddPublisher(l, p', true, false), z)
    ensures z.track == y.track.(publishers := map[l := p'], feeds := y.track.feeds[p' := {}],
                                pubLayer := y.track.pubLayer[p' := l])
    ensures Typed(z)
  {
    y' := Next(y, DoStopped(p, l)).system;
    assert y'.track.publishers == map[];
    z := Next(y', DoAddPublisher(l, p', true, false)).system;
    assert z.track.publishers == map[l := p'];
  }

  lemma AskAgain<ID, Sub, Pub>(y: System<ID, Sub, Pub>, l: Layer, p: Pub, id: ID, s: Sub, s': Sub)
    returns (z: System<ID, Sub, Pub>)
    requires Typed(y) && l != None && y.track.kind == Video && y.track.publishers == map[l := p]
    requires y.track.subscriptions == map[id := s] && y.track.layerOf == map[s := l] && s != s'
    ensures Does(y, DoSubscribe(id, s', Request(1, 1, {}, true, false)), z) && z.track == y.track
  {
    var r := Request(1, 1, {}, true, false);
    assert y.track.ActiveLayers({}) == {l};
    OptimalIsAvailable({l}, y.track.metadata, 1, 1);
    assert Chosen(y.track, r) == l;
    z := Next(y, DoSubscribe(id, s', r)).system;
  }

  lemma FirstLayeredSubscriber<ID, Sub, Pub>(y0: System<ID, Sub, Pub>, m: Metadata, l: Layer, p: Pub, id: ID, s: Sub)
    returns (y1: System<ID, Sub, Pub>, z: System<ID, Sub, Pub>)
    requires y0 == NewTrack(Video, m) && l != None
    ensures Does(y0, DoAddPublisher(l, p, true, false), y1)
    ensures Does(y1, DoSubscribe(id, s, Request(1, 1, {}, true, false)), z)
    ensures Typed(z) && z.track.kind == Video && z.track.publishers == map[l := p]
    ensures z.track.subscriptions == map[id := s] && z.track.layerOf == map[s := l]
    ensures z.track.feeds.Keys == {p} && z.track.pubLayer[p] == l && z.running == {p}
  {
    y1 := Next(y0, DoAddPublisher(l, p, true, false)).system;
    assert y1.track.ActiveLayers({}) == {l};
    OptimalIsAvailable({l}, m, 1, 1);
    assert Chosen(y1.track, Request(1, 1, {}, true, false)) == l;
    z := Next(y1, DoSubscribe(id, s, Request(1, 1, {}, true, false))).system;
  }
}

/** Runs from an empty conference to failures whose conditions the other modules give. */
module ConferenceTraces {
  import opened ConferenceModel
  import opened ConferenceRuns
  import opened Layers
  import Offers
  import TrackModel
  import TrackSystem

  type Step = TrackSystem.Action<ParticipantID, nat, nat>

  ghost predicate Acts(c: Conference, a: Action, d: Conference) {
    BodiesInv(c) && Enabled(c, a) && KeepsUnmixed(c, a) && Next(c, a) == Stepped(d)
  }

  lemma ThenAct(c: Conference, a: Action, mid: Conference, actions: seq<Action>, d: Conference)
    requires Acts(c, a, mid) && Path(mid, actions, d)
    ensures Path(c, [a] + actions, d)
  {
    var path := [a] + actions;
    assert path[0] == a && path[1..] == actions;
  }

  lemma TwoActs(c: Conference, p: Action, c1: Conference, q: Action, d: Conference)
    requires Acts(c, p, c1) && Acts(c1, q, d)
    ensures Path(c, [p, q], d)
  {
    ThenAct(c1, q, d, [], d);
    ThenAct(c, p, c1, [q], d);
    assert [q] + [] == [q] && [p] + [q] == [p, q];
  }

  lemma ThenTwoActs(
    c: Conference, p: Action, c1: Conference, q: Action, c2: Conference, actions: seq<Action>, d: Conference
  )
    requires Acts(c, p, c1) && Acts(c1, q, c2) && Path(c2, actions, d)
    ensures Path(c, [p, q] + actions, d)
  {
    ThenAct(c1, q, c2, actions, d);
    ThenAct(c, p, c1, [q] + actions, d);
    assert [p] + ([q] + actions) == [p, q] + actions;
  }

  lemma ThenThreeActs(
    c: Conference, p: Action, c1: Conference, q: Action, c2: Conference, r: Action, c3: Conference,
    actions: seq<Action>, d: Conference
  )
    requires Acts(c, p, c1) && Acts(c1, q, c2) && Acts(c2, r, c3) && Path(c3, actions, d)
    ensures Path(c, [p, q, r] + actions, d)
  {
    ThenTwoActs(c1, q, c2, r, c3, actions, d);
    ThenAct(c, p, c1, [q, r] + actions, d);
    assert [p] + ([q, r] + actions) == [p, q, r] + actions;
  }

  lemma ThreeActs(c: Conference, p: Action, c1: Conference, q: Action, c2: Conference, r: Action, d: Conference)
    requires Acts(c, p, c1) && Acts(c1, q, c2) && Acts(c2, r, d)
    ensures Path(c, [p, q, r], d)
  {
    TwoActs(c1, q, c2, r, d);
    ThenAct(c, p, c1, [q, r], d);
    assert [p] + [q, r] == [p, q, r];
  }

  function Joining(id: ParticipantID): Action {
    Join(id, "", true, map[], map[])
  }

  /** The streams are known, their tracks are not. */
  ghost predicate Undescribed(streams: map<StreamID, StreamMetadata>) {
    forall s :: s in streams ==> streams[s].tracks == map[]
  }

  function Publishing(id: ParticipantID, t: TrackID, stream: StreamID): Action {
    Publish(id, t, stream, TrackModel.Video, Metadata(0, 0, false), Adding(), true)
  }

  function Adding(): Step {
    TrackSystem.DoAddPublisher(High, 0, true, false)
  }

  function Requesting(id: ParticipantID): Step {
    TrackSystem.DoSubscribe(id, 0, TrackModel.Request(1, 1, {}, true, false))
  }

  function Stalling(): Step {
    TrackSystem.DoStalled(0)
  }

  lemma JoinActs(c: Conference, join: Action) returns (d: Conference)
    requires c.tracks == map[] && join.Join? && join.id !in c.participants && join.peerOk
    requires Undescribed(join.streams) && join.flat == map[]
    ensures Acts(c, join, d)
    ensures d == c.(participants := c.participants[join.id := Participant(join.session, c.channels)],
                    channels := c.channels + 1, metadata := c.metadata + join.streams)
  {
    d := Next(c, join).conference;
    assert d.tracks == map[];
  }

  lemma TwoJoin(a: ParticipantID, b: ParticipantID) returns (c1: Conference, c2: Conference)
    requires a != b
    ensures Acts(EMPTY, Joining(a), c1) && Acts(c1, Joining(b), c2)
    ensures c2 == Conference(map[a := Participant("", 0), b := Participant("", 1)], map[], map[], {}, {}, false, 2)
  {
    c1 := JoinActs(EMPTY, Joining(a));
    c2 := JoinActs(c1, Joining(b));
    assert c2.participants == map[a := Participant("", 0), b := Participant("", 1)];
  }

  ghost predicate Moves(y: Body, step: Step, z: Body) {
    TrackSystem.Inv(y) && TrackSystem.Enabled(y, step) && TrackSystem.Next(y, step) == TrackSystem.Stepped(z)
  }

  /** The track's part: published, subscribed to, stalled; its subscriber cannot be taken back. */
  lemma StallStrands(owner: ParticipantID, stream: StreamID, signal: nat, b: ParticipantID)
    returns (y0: Body, y1: Body, y2: Body)
    ensures y0 == NewBody(TrackModel.Video, Metadata(0, 0, false), Adding()) && TrackSystem.Inv(y0)
    ensures Moves(y0, Requesting(b), y1) && Moves(y1, Stalling(), y2)
    ensures CannotLeave(Published(owner, stream, TrackModel.Video, signal, y2), b)
  {
    y0 := NewBody(TrackModel.Video, Metadata(0, 0, false), Adding());
    NewBodyInv(TrackModel.Video, Metadata(0, 0, false), Adding());
    y1 := StallableSubscription(y0, b);
    y2 := TrackSystem.Next(y1, Stalling()).system;
    TrackSystem.StepKeepsInv(y1, Stalling());
    assert 0 in y1.track.feeds[0];
  }

  lemma StallableSubscription(y0: Body, b: ParticipantID) returns (y1: Body)
    requires y0 == NewBody(TrackModel.Video, Metadata(0, 0, false), Adding()) && TrackSystem.Inv(y0)
    ensures Moves(y0, Requesting(b), y1)
    ensures TrackSystem.Inv(y1) && y1.running == {0} && !y1.track.metadata.muted && y1.track.kind == TrackModel.Video
    ensures y1.track.publishers == map[High := 0] && y1.track.subscriptions == map[b := 0]
    ensures 0 in y1.track.feeds && 0 in y1.track.feeds[0] && 0 in y1.track.layerOf
  {
    var r := TrackModel.Request(1, 1, {}, true, false);
    assert High in y0.track.ActiveLayers({});
    OptimalIsAvailable(y0.track.ActiveLayers({}), y0.track.metadata, 1, 1);
    assert TrackModel.Chosen(y0.track, r) == High;
    y1 := TrackSystem.Next(y0, Requesting(b)).system;
    TrackSystem.StepKeepsInv(y0, Requesting(b));
  }

  lemma PublishingActs(c: Conference, a: ParticipantID, t: TrackID, stream: StreamID, y0: Body)
    returns (d: Conference)
    requires BodiesInv(c) && Undescribed(c.metadata) && t !in c.tracks && a in c.participants
    requires y0 == NewBody(TrackModel.Video, Metadata(0, 0, false), Adding())
    ensures Acts(c, Publishing(a, t, stream), d)
    ensures d == c.(tracks := c.tracks[t := Published(a, stream, TrackModel.Video, c.channels, y0)],
                    channels := c.channels + 1)
  {
    d := Next(c, Publishing(a, t, stream)).conference;
  }

  lemma TrackActs(c: Conference, t: TrackID, action: Action, step: Step, y: Body) returns (d: Conference)
    requires c.tracks.Keys == {t} && Moves(c.tracks[t].body, step, y)
    requires if step.DoSubscribe? then action == Subscribe(t, step) && step.id in c.participants
             else GoroutineStep(step) && action == Internal(t, step)
    ensures Acts(c, action, d) && d.participants == c.participants && d.tracks == map[t := WithBody(c.tracks[t], y)]
  {
    d := c.(tracks := c.tracks[t := WithBody(c.tracks[t], y)]);
  }

  lemma SubscribeThenStall(c3: Conference, a: ParticipantID, b: ParticipantID, t: TrackID, y0: Body)
    returns (c4: Conference, d: Conference)
    requires y0 == NewBody(TrackModel.Video, Metadata(0, 0, false), Adding()) && b in c3.participants
    requires c3.tracks.Keys == {t} && c3.tracks[t].owner == a && c3.tracks[t].body == y0
    ensures Acts(c3, Subscribe(t, Requesting(b)), c4) && Acts(c4, Internal(t, Stalling()), d)
    ensures t in d.tracks && d.tracks[t].owner == a && CannotLeave(d.tracks[t], b) && b in d.participants
  {
    var y, y1, y2 := StallStrands(a, c3.tracks[t].stream, c3.tracks[t].stopSignal, b);
    c4 := TrackActs(c3, t, Subscribe(t, Requesting(b)), Requesting(b), y1);
    d := TrackActs(c4, t, Internal(t, Stalling()), Stalling(), y2);
  }

  /** From two participants on: publish, subscribe, stall. */
  lemma StrandingRun(c2: Conference, a: ParticipantID, b: ParticipantID, t: TrackID, stream: StreamID)
    returns (d: Conference)
    requires c2.tracks == map[] && Undescribed(c2.metadata) && a in c2.participants && b in c2.participants
    ensures Path(c2, [Publishing(a, t, stream), Subscribe(t, Requesting(b)), Internal(t, Stalling())], d)
    ensures t in d.tracks && d.tracks[t].owner == a && CannotLeave(d.tracks[t], b) && b in d.participants
  {
    var c3 := PublishingActs(c2, a, t, stream, NewBody(TrackModel.Video, Metadata(0, 0, false), Adding()));
    var c4;
    c4, d := SubscribeThenStall(c3, a, b, t, c3.tracks[t].body);
    ThreeActs(c2, Publishing(a, t, stream), c3, Subscribe(t, Requesting(b)), c4, Internal(t, Stalling()), d);
  }

  /** Two participants join, one publishes a layer, the other subscribes, the publisher stalls, and the subscriber's
      departure crashes. */
  lemma OrphanedSubscriberCannotLeave(a: ParticipantID, b: ParticipantID, t: TrackID, stream: StreamID)
    returns (d: Conference)
    requires a != b
    ensures var rest := [Publishing(a, t, stream), Subscribe(t, Requesting(b)), Internal(t, Stalling())];
            Path(EMPTY, [Joining(a)] + ([Joining(b)] + rest), d)
    ensures Inv(d) && Next(d, Leave(b)).Crashed?
  {
    var rest := [Publishing(a, t, stream), Subscribe(t, Requesting(b)), Internal(t, Stalling())];
    var c1, c2 := TwoJoin(a, b);
    d := StrandingRun(c2, a, b, t, stream);
    ThenAct(c1, Joining(b), c2, rest, d);
    ThenAct(EMPTY, Joining(a), c1, [Joining(b)] + rest, d);
    RunsKeepInv(EMPTY, [Joining(a)] + ([Joining(b)] + rest), d);
    Offers.LeaveCrashesIff(d, b);
  }

  // ---------------------------------------------------------------------------------------------
  // A stream that two participants publish to
  // ---------------------------------------------------------------------------------------------

  function Describing(id: ParticipantID, stream: StreamID): Action {
    Join(id, "", true, map[stream := StreamMetadata("", false, false, map[])], map[])
  }

  lemma ThreeJoin(a: ParticipantID, b: ParticipantID, q: ParticipantID, stream: StreamID)
    returns (c1: Conference, c2: Conference, c3: Conference)
    requires a != b && a != q && b != q
    ensures Acts(EMPTY, Describing(a, stream), c1) && Acts(c1, Joining(b), c2) && Acts(c2, Joining(q), c3)
    ensures c3.participants.Keys == {a, b, q} && c3.tracks == map[]
    ensures c3.metadata == map[stream := StreamMetadata("", false, false, map[])]
  {
    c1 := JoinActs(EMPTY, Describing(a, stream));
    c2 := JoinActs(c1, Joining(b));
    c3 := JoinActs(c2, Joining(q));
  }

  lemma BothPublish(c: Conference, a: ParticipantID, b: ParticipantID, t: TrackID, u: TrackID, stream: StreamID)
    returns (c': Conference, d: Conference)
    requires c.tracks == map[] && Undescribed(c.metadata) && a in c.participants && b in c.participants && t != u
    ensures Acts(c, Publishing(a, t, stream), c') && Acts(c', Publishing(b, u, stream), d)
    ensures d.tracks.Keys == {t, u} && d.participants == c.participants && d.metadata == c.metadata
    ensures d.tracks[t].owner == a && d.tracks[u].owner == b && d.tracks[t].stream == d.tracks[u].stream == stream
    ensures d.tracks[t].Subscribers() == d.tracks[u].Subscribers() == {}
  {
    var y := NewBody(TrackModel.Video, Metadata(0, 0, false), Adding());
    NewBodyInv(TrackModel.Video, Metadata(0, 0, false), Adding());
    c' := PublishingActs(c, a, t, stream, y);
    d := PublishingActs(c', b, u, stream, y);
  }

  lemma NobodySubscribed(c: Conference, id: ParticipantID)
    requires Inv(c) && id in c.participants && forall t :: t in c.tracks ==> id !in c.tracks[t].Subscribers()
    ensures Next(c, Leave(id)).Stepped?
  {
    Offers.LeaveCrashesIff(c, id);
  }

  lemma SharingRun(a: ParticipantID, b: ParticipantID, q: ParticipantID, t: TrackID, u: TrackID, stream: StreamID)
    returns (c: Conference)
    requires a != b && a != q && b != q && t != u
    ensures var acts := [Publishing(a, t, stream), Publishing(b, u, stream)];
            Path(EMPTY, [Describing(a, stream), Joining(b), Joining(q)] + acts, c)
    ensures c.participants.Keys == {a, b, q} && stream in c.metadata && c.tracks.Keys == {t, u}
    ensures c.tracks[t].owner == a && c.tracks[u].owner == b && c.tracks[t].stream == c.tracks[u].stream == stream
    ensures c.tracks[t].Subscribers() == c.tracks[u].Subscribers() == {}
  {
    var publishing := [Publishing(a, t, stream), Publishing(b, u, stream)];
    var c1, c2, c3 := ThreeJoin(a, b, q, stream);
    var c4;
    c4, c := BothPublish(c3, a, b, t, u, stream);
    TwoActs(c3, Publishing(a, t, stream), c4, Publishing(b, u, stream), c);
    ThenThreeActs(EMPTY, Describing(a, stream), c1, Joining(b), c2, Joining(q), c3, publishing, c);
  }

  /** Three participants join, two of them publish to one stream, and the one that had published first leaves: the third
      is no longer offered the track of the one that stays. */
  lemma SharedStreamLeavesWithFirstOwner(
    a: ParticipantID, b: ParticipantID, q: ParticipantID, t: TrackID, u: TrackID, stream: StreamID
  )
    returns (c: Conference, d: Conference)
    requires a != b && a != q && b != q && t != u
    ensures var acts := [Publishing(a, t, stream), Publishing(b, u, stream)];
            Path(EMPTY, [Describing(a, stream), Joining(b), Joining(q)] + acts, c)
    ensures Inv(c) && Next(c, Leave(a)) == Stepped(d)
    ensures u in Offers.Offered(c, q) && u in d.tracks && d.tracks[u].owner == b && u !in Offers.Offered(d, q)
  {
    c := SharingRun(a, b, q, t, u, stream);
    var publishing := [Publishing(a, t, stream), Publishing(b, u, stream)];
    RunsKeepInv(EMPTY, [Describing(a, stream), Joining(b), Joining(q)] + publishing, c);
    d := FirstOwnerLeaves(c, a, b, q, t, u);
  }

  lemma FirstOwnerLeaves(
    c: Conference, a: ParticipantID, b: ParticipantID, q: ParticipantID, t: TrackID, u: TrackID
  )
    returns (d: Conference)
    requires Inv(c) && a in c.participants && a != b && a != q && b != q
    requires c.tracks.Keys == {t, u} && c.tracks[t].owner == a && c.tracks[u].owner == b
    requires c.tracks[t].stream == c.tracks[u].stream && c.tracks[u].stream in c.metadata
    requires c.tracks[t].Subscribers() == c.tracks[u].Subscribers() == {}
    ensures Next(c, Leave(a)) == Stepped(d)
    ensures u in Offers.Offered(c, q) && u in d.tracks && d.tracks[u].owner == b && u !in Offers.Offered(d, q)
  {
    NobodySubscribed(c, a);
    d := Next(c, Leave(a)).conference;
    Offers.RemoveDeparts(c, a);
    Offers.OfferedAfterDeparture(c, d, a, q, u);
    assert t in OwnedBy(c, a);
  }

  // ---------------------------------------------------------------------------------------------
  // A track published again before the report of its end
  // ---------------------------------------------------------------------------------------------

  function Rejoining(id: ParticipantID, session: string): Action {
    Join(id, session, true, map[], map[])
  }

  lemma RejoinActs(c: Conference, a: ParticipantID, session: string, t: TrackID) returns (d: Conference)
    requires Inv(c) && c.participants.Keys == {a} && c.participants[a].session != session && c.metadata == map[]
    requires c.tracks.Keys == {t} && c.tracks[t].owner == a
    ensures Acts(c, Rejoining(a, session), d) && a in d.participants && d.tracks == map[] && d.metadata == map[]
  {
    assert !LeavingCrashes(c, a);
    d := Next(c, Rejoining(a, session)).conference;
    assert d.tracks == map[];
  }

  /** A participant joins, publishes, comes back under another session and publishes the track again; only then does
      the report arrive that the first publication ended, and it takes the second one down. */
  lemma LateReportRun(a: ParticipantID, session: string, t: TrackID, stream: StreamID)
    returns (c: Conference, d: Conference)
    requires session != ""
    ensures var publish := Publishing(a, t, stream);
            Path(EMPTY, [Joining(a), publish] + [Rejoining(a, session), publish], c)
    ensures Inv(c) && t in c.tracks && c.tracks[t].owner == a && Next(c, TrackGone(t)) == Stepped(d)
    ensures t !in d.tracks && c.tracks[t].stopSignal in d.stopped && c.tracks[t].stopSignal !in c.stopped
  {
    var publish, rejoin := Publishing(a, t, stream), Rejoining(a, session);
    var y := NewBody(TrackModel.Video, Metadata(0, 0, false), Adding());
    var c1 := JoinActs(EMPTY, Joining(a));
    var c2 := PublishingActs(c1, a, t, stream, y);
    TwoActs(EMPTY, Joining(a), c1, publish, c2);
    RunsKeepInv(EMPTY, [Joining(a), publish], c2);
    var c3 := RejoinActs(c2, a, session, t);
    c := PublishingActs(c3, a, t, stream, y);
    TwoActs(c2, rejoin, c3, publish, c);
    Offers.RejoinRepublishes(c2, t, rejoin, publish, c);
    ThenTwoActs(EMPTY, Joining(a), c1, publish, c2, [rejoin, publish], c);
    RunsKeepInv(EMPTY, [Joining(a), publish] + [rejoin, publish], c);
    d := Next(c, TrackGone(t)).conference;
  }
}

/** What streams say about tracks and what becomes of it on the tracks; who is admitted by an invitation. */
module Descriptions {
  import opened ConferenceModel
  import opened ConferenceRuns
  import opened Layers
  import TrackModel
  import TrackSystem

  // ---------------------------------------------------------------------------------------------
  // From a message to the tracks
  // ---------------------------------------------------------------------------------------------

  /** One of the streams names the track, and says of it what m says: its entry's size, and muted if and only if the
      stream's audio or video, whichever the entry is, is muted. */
  ghost predicate SaidBy(streams: map<StreamID, StreamMetadata>, track: TrackID, m: Metadata) {
    exists s ::
      && s in streams && track in streams[s].tracks
      && var entry := streams[s].tracks[track];
         && m.maxWidth == entry.width && m.maxHeight == entry.height
         && (m.muted <==> || (entry.kind == TrackModel.Audio && streams[s].audioMuted)
                          || (entry.kind == TrackModel.Video && streams[s].videoMuted))
  }

  ghost predicate Named(streams: map<StreamID, StreamMetadata>, track: TrackID) {
    exists s :: s in streams && track in streams[s].tracks
  }

  lemma DescribedIsSaid(streams: map<StreamID, StreamMetadata>, s: StreamID, track: TrackID)
    requires s in streams && track in streams[s].tracks
    ensures SaidBy(streams, track, Described(streams[s], track))
  {
    var m, entry := Described(streams[s], track), streams[s].tracks[track];
    assert m.maxWidth == entry.width && m.maxHeight == entry.height;
    assert m.muted <==> || (entry.kind == TrackModel.Audio && streams[s].audioMuted)
                        || (entry.kind == TrackModel.Video && streams[s].videoMuted);
  }

  /** A message reaches the published tracks that it names: each has the size and the muting that one of its streams
      gives it. Nothing else about a track changes, and nothing at all about the others. */
  lemma MessageReachesTrack(
    c: Conference, streams: map<StreamID, StreamMetadata>, flat: map<TrackID, Metadata>, t: TrackID
  )
    requires BodiesInv(c) && Flattens(streams, flat) && t in c.tracks
    ensures Next(c, MetadataChanged(streams, flat)).Stepped?
    ensures var d := Next(c, MetadataChanged(streams, flat)).conference;
            && d.metadata == c.metadata + streams && d.participants == c.participants
            && d.tracks.Keys == c.tracks.Keys
            && (if Named(streams, t) then
                  var y, m := c.tracks[t].body, d.tracks[t].body.track.metadata;
                  && SaidBy(streams, t, m)
                  && d.tracks[t] == c.tracks[t].(body := y.(track := y.track.(metadata := m)))
                else d.tracks[t] == c.tracks[t])
  {
    NamedIffListed(streams, flat, t);
    var d := UpdateMetadata(c, streams, flat);
    assert d.tracks[t] == if t in flat then WithMetadata(c.tracks[t], flat[t]) else c.tracks[t];
    if t in flat { ListedIsSaid(streams, flat, t); }
  }

  lemma NamedIffListed(streams: map<StreamID, StreamMetadata>, flat: map<TrackID, Metadata>, t: TrackID)
    requires Flattens(streams, flat)
    ensures Named(streams, t) <==> t in flat
  {
  }

  lemma ListedIsSaid(streams: map<StreamID, StreamMetadata>, flat: map<TrackID, Metadata>, t: TrackID)
    requires Flattens(streams, flat) && t in flat
    ensures SaidBy(streams, t, flat[t])
  {
    var s :| s in streams && t in streams[s].tracks && flat[t] == Described(streams[s], t);
    DescribedIsSaid(streams, s, t);
  }

  /** A newly published track belongs to its owner and stream, starts with what a stored stream says about it, or with
      nothing, has no subscribers, and for video its first publisher, under its layer. */
  lemma PublicationStarts(c: Conference, a: Action)
    requires Inv(c) && a.Publish? && Enabled(c, a) && a.track !in c.tracks && a.id in c.participants && a.ok
    ensures Next(c, a).Stepped? && a.track in Next(c, a).conference.tracks
    ensures var t := Next(c, a).conference.tracks[a.track];
            var y := t.body;
            && t.owner == a.id && t.stream == a.stream && t.kind == a.kind && y.track.kind == a.kind
            && !y.track.done && y.track.subscriptions == map[]
            && (a.kind == TrackModel.Video ==>
                  && y.track.publishers == map[a.publisher.layer := a.publisher.pub] && y.running == {a.publisher.pub})
            && (a.kind != TrackModel.Video ==> y.track.publishers == map[] && y.running == {})
            && (if Named(c.metadata, a.track) then SaidBy(c.metadata, a.track, y.track.metadata)
                else y.track.metadata == Metadata(0, 0, false))
  {
    if Named(c.metadata, a.track) {
      var s :| s in c.metadata && a.track in c.metadata[s].tracks && a.metadata == Described(c.metadata[s], a.track);
      DescribedIsSaid(c.metadata, s, a.track);
    }
  }

  /** Publishing under a known ID adds the publisher to the track, whoever publishes, if its layer is new there; the
      track stays the first owner's. */
  lemma PublicationJoins(c: Conference, a: Action)
    requires Inv(c) && a.Publish? && Enabled(c, a) && a.track in c.tracks && a.id in c.participants
    ensures Next(c, a).Stepped?
    ensures var d := Next(c, a).conference;
            var p, before, after := a.publisher, c.tracks[a.track].body.track, d.tracks[a.track].body.track;
            && a.track in d.tracks && d.tracks[a.track] == c.tracks[a.track].(body := d.tracks[a.track].body)
            && after.publishers == (if p.matches && !p.sawDone && p.layer !in before.publishers
                                    then before.publishers[p.layer := p.pub] else before.publishers)
            && after.subscriptions == before.subscriptions && after.metadata == before.metadata
            && after.layerOf == before.layerOf
  {
    assert TrackSystem.Inv(c.tracks[a.track].body);
    var p, t := a.publisher, c.tracks[a.track].body.track;
    TrackModel.AddedPublisherIsAvailable(t, p.layer, p.pub, p.matches, p.sawDone, {});
  }

  // ---------------------------------------------------------------------------------------------
  // Invitations
  // ---------------------------------------------------------------------------------------------

  /** The invitation ends an earlier session of the same participant. */
  predicate Replaces(c: Conference, a: Action)
    requires a.Join?
  {
    a.id in c.participants && c.participants[a.id].session != a.session
  }

  /** Who is invited is a participant afterwards exactly if its peer connection accepts the offer or it was one under
      that very session, which it then keeps; everybody else stays what they were. */
  lemma AdmittedIff(c: Conference, a: Action)
    requires Inv(c) && a.Join? && OnNewParticipant(c, a).Stepped?
    ensures var d := OnNewParticipant(c, a).conference;
            && (a.id in d.participants <==>
                  a.peerOk || (a.id in c.participants && c.participants[a.id].session == a.session))
            && (a.id in d.participants ==> d.participants[a.id].session == a.session)
            && (a.id in c.participants && c.participants[a.id].session == a.session ==>
                  d.participants[a.id] == c.participants[a.id])
            && (Replaces(c, a) ==> c.participants[a.id].pong in d.closedPongs)
            && (forall p :: p != a.id ==> (p in d.participants <==> p in c.participants))
            && (forall p :: p in c.participants && p != a.id ==> d.participants[p] == c.participants[p])
  {
  }

  /** A participant keeps its entry in every step but its own departure and an invitation under another session, and
      nobody becomes one but by an accepted invitation. */
  lemma EntryKeptIff(c: Conference, a: Action, p: ParticipantID)
    requires Inv(c) && Enabled(c, a) && Next(c, a).Stepped?
    ensures var d := Next(c, a).conference;
            if p in c.participants then
              p in d.participants && d.participants[p] == c.participants[p] <==>
              a != Leave(p) && !(a.Join? && a.id == p && Replaces(c, a))
            else p in d.participants <==> a.Join? && a.id == p && a.peerOk
  {
    if a.Join? {
      AdmittedIff(c, a);
      if Replaces(c, a) { EntryReplaced(c, a); }
    }
  }

  lemma EntryReplaced(c: Conference, a: Action)
    requires Inv(c) && a.Join? && OnNewParticipant(c, a).Stepped? && Replaces(c, a)
    ensures var d := OnNewParticipant(c, a).conference;
            a.id in d.participants ==> d.participants[a.id] != c.participants[a.id]
  {
  }

  /** A refused offer leaves the streams as they were, but for those of a session that was ended; an accepted one adds
      the message's streams. */
  lemma InvitationStreams(c: Conference, a: Action)
    requires Inv(c) && a.Join? && OnNewParticipant(c, a).Stepped?
    ensures var d := OnNewParticipant(c, a).conference;
            var kept := c.metadata - (if Replaces(c, a) then StreamsOf(c, a.id) else {});
            d.metadata == if a.peerOk then kept + a.streams else kept
  {
  }

  /** An accepted invitation also reaches the published tracks that its streams name. */
  lemma InvitationReachesTrack(c: Conference, a: Action, t: TrackID)
    requires Inv(c) && a.Join? && Enabled(c, a) && a.peerOk && Next(c, a).Stepped?
    requires t in Next(c, a).conference.tracks && Named(a.streams, t)
    ensures SaidBy(a.streams, t, Next(c, a).conference.tracks[t].body.track.metadata)
  {
    var c' := if Replaces(c, a) then Remove(c, a.id).conference else c;
    assert BodiesInv(c') by {
      if Replaces(c, a) { RemoveKeepsInv(c, a.id); }
    }
    MessageReachesTrack(Admit(c', a.id, a.session), a.streams, a.flat, t);
  }

  // ---------------------------------------------------------------------------------------------
  // Channels
  // ---------------------------------------------------------------------------------------------

  /** Taking the participant out closes only channels that are open. */
  ghost predicate ClosesOpen(c: Conference, id: ParticipantID)
    requires id in c.participants
  {
    && c.participants[id].pong !in c.closedPongs
    && forall t :: t in c.tracks && c.tracks[t].owner == id && !c.tracks[t].body.track.done ==>
         c.tracks[t].stopSignal !in c.stopped
  }

  /** What `misused` stands for: as long as it is not set, no report and no departure has closed a channel that was
      closed already, and no pong has gone to a closed one. */
  lemma MisuseShows(c: Conference, a: Action)
    requires BodiesInv(c) && Enabled(c, a) && Next(c, a).Stepped? && !Next(c, a).conference.misused
    ensures !c.misused
    ensures a.TrackGone? && a.track in c.tracks && !c.tracks[a.track].body.track.done ==>
              c.tracks[a.track].stopSignal !in c.stopped
    ensures a.Leave? && a.id in c.participants ==> ClosesOpen(c, a.id)
    ensures a.Join? && Replaces(c, a) ==> ClosesOpen(c, a.id)
    ensures a.Pong? && a.id in c.participants ==> c.participants[a.id].pong !in c.closedPongs
  {
    if (a.Leave? && a.id in c.participants) || (a.Join? && Replaces(c, a)) { RemovalShows(c, a.id); }
  }

  lemma RemovalShows(c: Conference, id: ParticipantID)
    requires BodiesInv(c) && id in c.participants && Remove(c, id).Stepped? && !Remove(c, id).conference.misused
    ensures !c.misused && ClosesOpen(c, id)
  {
    assert SignalsOf(c, id) !! c.stopped;
    forall t | t in c.tracks && c.tracks[t].owner == id && !c.tracks[t].body.track.done
      ensures c.tracks[t].stopSignal !in c.stopped
    {
      assert t in OwnedBy(c, id) && c.tracks[t].stopSignal in SignalsOf(c, id);
    }
  }

  // ---------------------------------------------------------------------------------------------
  // Subscriptions
  // ---------------------------------------------------------------------------------------------

  /** A participant's request for a published video track with layers, one of them unflagged, goes through and leaves
      it subscribed, on the unflagged layer that fits best. */
  lemma SubscriptionPutsOn(
    c: Conference, track: TrackID, id: ParticipantID, s: nat, r: TrackModel.Request<nat>, other: Layer
  )
    requires Inv(c) && Enabled(c, Subscribe(track, TrackSystem.DoSubscribe(id, s, r)))
    requires id in c.participants && track in c.tracks && !r.sawDone && r.created
    requires var t := c.tracks[track].body.track;
             && t.kind == TrackModel.Video && None !in t.publishers
             && other in t.publishers && t.publishers[other] !in r.stalled
    ensures Next(c, Subscribe(track, TrackSystem.DoSubscribe(id, s, r))).Stepped?
    ensures var d := Next(c, Subscribe(track, TrackSystem.DoSubscribe(id, s, r))).conference;
            var t, t' := c.tracks[track].body.track, d.tracks[track].body.track;
            var desired := DesiredLayer(t.metadata.maxWidth, t.metadata.maxHeight, r.width, r.height);
            && d == c.(tracks := c.tracks[track := c.tracks[track].(body := d.tracks[track].body)])
            && id in d.tracks[track].Subscribers()
            && t'.subscriptions[id] in t'.layerOf
            && var l := t'.layerOf[t'.subscriptions[id]];
               && l in t'.publishers && t'.publishers[l] !in r.stalled
               && Apart(l, desired) <= Apart(other, desired)
               && (Apart(l, desired) == Apart(other, desired) ==> l.Rank() <= other.Rank())
  {
    assert TrackSystem.Inv(c.tracks[track].body);
    var t := c.tracks[track].body.track;
    TrackModel.RequestSucceedsIff(t, id, s, r, other);
    TrackModel.RequestPlaces(t, id, s, r, other);
  }

  predicate IsOwnStep(step: TrackSystem.Action<ParticipantID, nat, nat>) {
    !step.DoAddPublisher? && !step.DoSubscribe? && !step.DoUnsubscribe? && !step.DoSetMetadata?
  }

  /** What the goroutines of a published track and of its subscriptions do, they may do at any time; it changes that
      track alone. */
  lemma TrackActsAlone(c: Conference, track: TrackID, step: TrackSystem.Action<ParticipantID, nat, nat>, y: Body)
    requires Inv(c) && track in c.tracks && IsOwnStep(step)
    requires TrackSystem.Typed(c.tracks[track].body) && TrackSystem.Enabled(c.tracks[track].body, step)
    requires TrackSystem.Next(c.tracks[track].body, step) == TrackSystem.Stepped(y)
    ensures Enabled(c, Internal(track, step))
    ensures Next(c, Internal(track, step)) == Stepped(c.(tracks := c.tracks[track := c.tracks[track].(body := y)]))
  {
  }

  /** An unsubscription that does not crash takes the participant off the track and off its feeds. */
  lemma UnsubscriptionTakesOff(c: Conference, track: TrackID, id: ParticipantID, l: Layer)
    requires Inv(c) && track in c.tracks && Next(c, Unsubscribe(id, track)).Stepped?
    ensures var d := Next(c, Unsubscribe(id, track)).conference;
            var t, t' := c.tracks[track].body.track, d.tracks[track].body.track;
            && d == c.(tracks := c.tracks[track := c.tracks[track].(body := d.tracks[track].body)])
            && d.tracks[track].Subscribers() == c.tracks[track].Subscribers() - {id}
            && t'.WellFormed()
            && (id in t.subscriptions && t.kind == TrackModel.Video && l in t'.publishers ==>
                  t.subscriptions[id] !in t'.feeds[t'.publishers[l]])
  {
    assert TrackSystem.Inv(c.tracks[track].body);
    var t := c.tracks[track].body.track;
    if id in t.subscriptions {
      TrackModel.UnsubscribeTakesOff(t, id, t.subscriptions[id]);
    }
  }
}

/** Every run of a conference: joins, departures, publications, subscriptions and the tracks' own steps, in any order.
    */
module ConferenceRuns {
  import opened ConferenceModel
  import opened Layers
  import TrackModel
  import TrackSystem

  // ---------------------------------------------------------------------------------------------
  // Each step keeps the invariant
  // ---------------------------------------------------------------------------------------------

  lemma RemovePublishedTrackKeepsInv(c: Conference, track: TrackID)
    requires Inv(c)
    ensures Inv(RemovePublishedTrack(c, track))
  {
  }

  lemma NewBodyInv(kind: TrackModel.Kind, metadata: Metadata, publisher: TrackSystem.Action<ParticipantID, nat, nat>)
    requires publisher.DoAddPublisher?
    ensures TrackSystem.Inv(NewBody(kind, metadata, publisher))
    ensures NewBody(kind, metadata, publisher).track.subscriptions == map[]
  {
  }

  lemma NewTrackKeepsInv(c: Conference, track: TrackID, t: Published)
    requires Inv(c) && track !in c.tracks && t.owner in c.participants && t.stopSignal == c.channels
    requires TrackSystem.Inv(t.body) && t.Subscribers() == {}
    ensures Inv(c.(tracks := c.tracks[track := t], channels := c.channels + 1))
  {
  }

  lemma AddPublishedTrackKeepsInv(c: Conference, a: Action)
    requires Inv(c) && a.Publish? && Enabled(c, a) && KeepsUnmixed(c, a) && AddPublishedTrack(c, a).Stepped?
    ensures Inv(AddPublishedTrack(c, a).conference)
  {
    if a.id in c.participants {
      if a.track in c.tracks {
        StepTrackKeepsInv(c, a.track, a.publisher);
      } else {
        NewBodyInv(a.kind, a.metadata, a.publisher);
        var body := NewBody(a.kind, a.metadata, a.publisher);
        NewTrackKeepsInv(c, a.track, Published(a.id, a.stream, a.kind, c.channels, body));
      }
    }
  }

  lemma WithMetadataInv(t: Published, metadata: Metadata)
    requires TrackSystem.Inv(t.body)
    ensures TrackSystem.Inv(WithMetadata(t, metadata).body)
    ensures WithMetadata(t, metadata).Subscribers() == t.Subscribers()
  {
    var step: TrackSystem.Action<ParticipantID, nat, nat> := TrackSystem.DoSetMetadata(metadata);
    TrackSystem.StepKeepsInv(t.body, step);
  }

  lemma UpdateMetadataKeepsInv(c: Conference, streams: map<StreamID, StreamMetadata>, flat: map<TrackID, Metadata>)
    requires Inv(c)
    ensures Inv(UpdateMetadata(c, streams, flat))
  {
    forall t | t in c.tracks && t in flat
      ensures TrackSystem.Inv(WithMetadata(c.tracks[t], flat[t]).body)
      ensures WithMetadata(c.tracks[t], flat[t]).Subscribers() == c.tracks[t].Subscribers()
    {
      WithMetadataInv(c.tracks[t], flat[t]);
    }
  }

  lemma AdmitKeepsInv(c: Conference, id: ParticipantID, session: string)
    requires Inv(c)
    ensures Inv(Admit(c, id, session))
  {
  }

  lemma RemoveKeepsInv(c: Conference, id: ParticipantID)
    requires Inv(c) && Remove(c, id).Stepped?
    ensures Inv(Remove(c, id).conference) && id !in Remove(c, id).conference.participants
  {
    RemoveParticipantKeepsInv(c, id);
  }

  lemma OnNewParticipantKeepsInv(c: Conference, a: Action)
    requires Inv(c) && a.Join? && OnNewParticipant(c, a).Stepped?
    ensures Inv(OnNewParticipant(c, a).conference)
  {
    var isNew := a.id in c.participants && c.participants[a.id].session != a.session;
    if isNew { RemoveKeepsInv(c, a.id); }
    var c' := if isNew then Remove(c, a.id).conference else c;
    AdmitKeepsInv(c', a.id, a.session);
    UpdateMetadataKeepsInv(Admit(c', a.id, a.session), a.streams, a.flat);
  }

  lemma StepKeepsInv(c: Conference, a: Action)
    requires Inv(c) && Enabled(c, a) && KeepsUnmixed(c, a) && Next(c, a).Stepped?
    ensures Inv(Next(c, a).conference)
  {
    match a
    case Join(_, _, _, _, _) => OnNewParticipantKeepsInv(c, a);
    case Leave(id) => RemoveKeepsInv(c, id);
    case Publish(_, _, _, _, _, _, _) => AddPublishedTrackKeepsInv(c, a);
    case TrackGone(track) => RemovePublishedTrackKeepsInv(c, track);
    case Subscribe(track, request) =>
      if request.id in c.participants && track in c.tracks { StepTrackKeepsInv(c, track, request); }
    case Unsubscribe(id, track) =>
      var step: TrackSystem.Action<ParticipantID, nat, nat> := TrackSystem.DoUnsubscribe(id);
      if track in c.tracks { StepTrackKeepsInv(c, track, step); }
    case Pong(_) =>
    case MetadataChanged(streams, flat) => UpdateMetadataKeepsInv(c, streams, flat);
    case Internal(track, step) => StepTrackKeepsInv(c, track, step);
  }

  // ---------------------------------------------------------------------------------------------
  // Runs
  // ---------------------------------------------------------------------------------------------

  /** `actions` lead from c to d, without a crash and under the assumption on publishers. */
  ghost predicate Path(c: Conference, actions: seq<Action>, d: Conference)
    decreases |actions|
  {
    if actions == [] then c == d
    else
      && BodiesInv(c) && Enabled(c, actions[0]) && KeepsUnmixed(c, actions[0])
      && Next(c, actions[0]).Stepped?
      && Path(Next(c, actions[0]).conference, actions[1..], d)
  }

  const EMPTY := Conference(map[], map[], map[], {}, {}, false, 0)

  /** From an empty conference on: owners and subscribers of published tracks are participants, every channel is closed
      at most once, no pong goes to a closed channel, and what the tracker holds is open. */
  lemma {:induction false} RunsKeepInv(c: Conference, actions: seq<Action>, d: Conference)
    requires Inv(c) && Path(c, actions, d)
    ensures Inv(d)
    decreases |actions|
  {
    if actions == [] {
    } else {
      StepKeepsInv(c, actions[0]);
      RunsKeepInv(Next(c, actions[0]).conference, actions[1..], d);
    }
  }

  lemma ReachableIsSynchronized(actions: seq<Action>, d: Conference)
    requires Path(EMPTY, actions, d)
    ensures Synchronized(d) && ChannelsOpen(d) && BodiesInv(d)
  {
    RunsKeepInv(EMPTY, actions, d);
  }

  /** A participant is not forgotten while its heartbeat waits: it stays as it is, or its pong channel is closed. */
  predicate KeptOrClosed(c: Conference, d: Conference, p: ParticipantID)
    requires p in c.participants
  {
    (p in d.participants && d.participants[p] == c.participants[p]) <==> c.participants[p].pong !in d.closedPongs
  }

  lemma StepClosesPongs(c: Conference, a: Action, p: ParticipantID)
    requires Inv(c) && Enabled(c, a) && Next(c, a).Stepped? && p in c.participants
    ensures KeptOrClosed(c, Next(c, a).conference, p)
  {
    match a
    case Join(_, _, _, _, _) => JoinClosesPongs(c, a, p);
    case Leave(_) =>
    case _ => QuietStepKeepsParticipants(c, a);
  }

  lemma JoinClosesPongs(c: Conference, a: Action, p: ParticipantID)
    requires Inv(c) && a.Join? && OnNewParticipant(c, a).Stepped? && p in c.participants
    ensures KeptOrClosed(c, OnNewParticipant(c, a).conference, p)
  {
  }

  lemma QuietStepKeepsParticipants(c: Conference, a: Action)
    requires BodiesInv(c) && Enabled(c, a) && Next(c, a).Stepped? && !a.Leave? && !a.Join?
    ensures Next(c, a).conference.participants == c.participants
    ensures Next(c, a).conference.closedPongs == c.closedPongs
  {
  }

  lemma StepKeepsClosed(c: Conference, a: Action)
    requires BodiesInv(c) && Enabled(c, a) && Next(c, a).Stepped?
    ensures c.closedPongs <= Next(c, a).conference.closedPongs && c.stopped <= Next(c, a).conference.stopped
  {
  }

  lemma {:induction false} RunsKeepClosed(c: Conference, actions: seq<Action>, d: Conference)
    requires Path(c, actions, d)
    ensures c.closedPongs <= d.closedPongs && c.stopped <= d.stopped
    decreases |actions|
  {
    if actions != [] {
      StepKeepsClosed(c, actions[0]);
      RunsKeepClosed(Next(c, actions[0]).conference, actions[1..], d);
    }
  }

  /** A join overwrites nobody: over any run a participant keeps its entry exactly as long as its pong channel is
      open. */
  lemma {:induction false} RunsCloseWhatLeaves(c: Conference, actions: seq<Action>, d: Conference, p: ParticipantID)
    requires Inv(c) && Path(c, actions, d) && p in c.participants
    ensures KeptOrClosed(c, d, p)
    decreases |actions|
  {
    if actions == [] {
    } else {
      var c' := Next(c, actions[0]).conference;
      StepClosesPongs(c, actions[0], p);
      StepKeepsInv(c, actions[0]);
      RunsKeepInv(c', actions[1..], d);
      RunsKeepClosed(c', actions[1..], d);
      if p in c'.participants && c'.participants[p] == c.participants[p] {
        RunsCloseWhatLeaves(c', actions[1..], d, p);
      } else {
        assert c.participants[p].pong in d.closedPongs;
      }
    }
  }
}

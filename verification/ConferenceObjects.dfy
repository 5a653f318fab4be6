/** The conference as an object over the tracker: stream metadata whose track tables are shared by reference, and the
    handlers that change it. */
module ConferenceObjects {
  import opened ConferenceModel
  import opened ConferenceRuns
  import opened Layers
  import opened Offers
  import opened TrackerObjects
  import TrackModel
  import TrackSystem

  /** A map that is passed by reference. */
  class TrackTable {
    var entries: map<TrackID, TrackDescription>

    constructor (track: TrackID, description: TrackDescription)
      ensures entries == map[track := description]
    {
      entries := map[track := description];
    }

    method Put(track: TrackID, description: TrackDescription)
      modifies this
      ensures entries == old(entries)[track := description]
    {
      entries := entries[track := description];
    }
  }

  /** Copying a stream's metadata copies the reference to its track table. */
  datatype Stream = Stream(purpose: string, audioMuted: bool, videoMuted: bool, tracks: TrackTable)

  function Tables(streams: map<StreamID, Stream>): set<TrackTable> {
    set s | s in streams :: streams[s].tracks
  }

  function ViewOne(s: Stream): StreamMetadata
    reads s.tracks
  {
    StreamMetadata(s.purpose, s.audioMuted, s.videoMuted, s.tracks.entries)
  }

  function View(streams: map<StreamID, Stream>): map<StreamID, StreamMetadata>
    reads Tables(streams)
  {
    map s | s in streams :: ViewOne(streams[s])
  }

  ghost predicate Separate(streams: map<StreamID, Stream>) {
    forall s, r :: s in streams && r in streams && streams[s].tracks == streams[r].tracks ==> s == r
  }

  /** Putting a track into the table of one stream shows in that stream alone. */
  method PutInStream(streams: map<StreamID, Stream>, stream: StreamID, t: TrackID, description: TrackDescription)
    requires Separate(streams) && stream in streams
    modifies streams[stream].tracks
    ensures var before := old(View(streams));
            View(streams) == before[stream := WithTrack(before[stream], t, description)]
  {
    streams[stream].tracks.Put(t, description);
  }

  /** A stream's first track gets a copy of the metadata with a table of its own. */
  method AddStream(streams: map<StreamID, Stream>, stream: StreamID, metadata: Stream, t: TrackID,
                   description: TrackDescription) returns (streams': map<StreamID, Stream>)
    requires Separate(streams) && stream !in streams
    ensures Separate(streams') && fresh(Tables(streams') - Tables(streams))
    ensures View(streams') == View(streams)[stream := WithTrack(ViewOne(metadata).(tracks := map[]), t, description)]
  {
    var table := new TrackTable(t, description);
    streams' := streams[stream := metadata.(tracks := table)];
  }

  /** The tracks of one stream, described; a track that is there already is described anew. */
  method DescribeTracksOf(stream: Stream, flat: map<TrackID, Metadata>) returns (flat': map<TrackID, Metadata>)
    ensures flat' == flat + map t | t in stream.tracks.entries :: Described(ViewOne(stream), t)
  {
    ghost var all := map t | t in stream.tracks.entries :: Described(ViewOne(stream), t);
    var pending := stream.tracks.entries.Keys;
    flat' := flat;
    while pending != {}
      invariant pending <= all.Keys && flat' == flat + (all - pending)
      decreases pending
    {
      var t :| t in pending;
      flat' := flat'[t := Described(ViewOne(stream), t)];
      pending := pending - {t};
    }
  }

  /** `flat` describes the tracks of the visited streams, each as one of them does. */
  ghost predicate FlattensAmong(
    streams: map<StreamID, StreamMetadata>, visited: set<StreamID>, flat: map<TrackID, Metadata>
  ) {
    && (forall t :: t in flat ==>
          exists s :: s in visited && s in streams && t in streams[s].tracks && flat[t] == Described(streams[s], t))
    && (forall s, t :: s in visited && s in streams && t in streams[s].tracks ==> t in flat)
  }

  lemma OneMoreFlattened(
    streams: map<StreamID, StreamMetadata>, visited: set<StreamID>, s: StreamID, flat: map<TrackID, Metadata>
  )
    requires FlattensAmong(streams, visited, flat) && s in streams
    ensures FlattensAmong(streams, visited + {s}, flat + map t | t in streams[s].tracks :: Described(streams[s], t))
  {
    var flat' := flat + map t | t in streams[s].tracks :: Described(streams[s], t);
    forall t | t in flat'
      ensures exists r ::
                r in visited + {s} && r in streams && t in streams[r].tracks && flat'[t] == Described(streams[r], t)
    {
      if t in streams[s].tracks {
        assert s in visited + {s};
      } else {
        var r :| r in visited && r in streams && t in streams[r].tracks && flat[t] == Described(streams[r], t);
        assert r in visited + {s};
      }
    }
  }

  /** Every track that a stream names is listed, and every listed track with the size that one of the streams gives it,
      and muted exactly if that stream's media of its kind is. */
  method StreamIntoTrackMetadata(streams: map<StreamID, Stream>) returns (flat: map<TrackID, Metadata>)
    ensures Flattens(View(streams), flat)
    ensures forall s, t :: s in streams && t in streams[s].tracks.entries ==> t in flat
    ensures forall t :: t in flat ==>
              exists s ::
                && s in streams && t in streams[s].tracks.entries
                && var entry := streams[s].tracks.entries[t];
                   && flat[t].maxWidth == entry.width && flat[t].maxHeight == entry.height
                   && (flat[t].muted <==> || (entry.kind == TrackModel.Audio && streams[s].audioMuted)
                                          || (entry.kind == TrackModel.Video && streams[s].videoMuted))
  {
    var pending := streams.Keys;
    ghost var visited: set<StreamID> := {};
    flat := map[];
    while pending != {}
      invariant pending <= streams.Keys && visited == streams.Keys - pending
      invariant FlattensAmong(View(streams), visited, flat)
      decreases pending
    {
      var s :| s in pending;
      OneMoreFlattened(View(streams), visited, s, flat);
      flat := DescribeTracksOf(streams[s], flat);
      visited := visited + {s};
      pending := pending - {s};
    }
    FlatFromStreams(streams, flat);
  }

  lemma FlatFromStreams(streams: map<StreamID, Stream>, flat: map<TrackID, Metadata>)
    requires Flattens(View(streams), flat)
    ensures forall s, t :: s in streams && t in streams[s].tracks.entries ==> t in flat
    ensures forall t :: t in flat ==>
              exists s ::
                && s in streams && t in streams[s].tracks.entries
                && var entry := streams[s].tracks.entries[t];
                   && flat[t].maxWidth == entry.width && flat[t].maxHeight == entry.height
                   && (flat[t].muted <==> || (entry.kind == TrackModel.Audio && streams[s].audioMuted)
                                          || (entry.kind == TrackModel.Video && streams[s].videoMuted))
  {
    assert forall s :: s in streams ==> View(streams)[s] == ViewOne(streams[s]);
    forall t | t in flat
      ensures exists s ::
                && s in streams && t in streams[s].tracks.entries
                && var entry := streams[s].tracks.entries[t];
                   && flat[t].maxWidth == entry.width && flat[t].maxHeight == entry.height
                   && (flat[t].muted <==> || (entry.kind == TrackModel.Audio && streams[s].audioMuted)
                                          || (entry.kind == TrackModel.Video && streams[s].videoMuted))
    {
      var s :| s in View(streams) && t in View(streams)[s].tracks && flat[t] == Described(View(streams)[s], t);
      assert s in streams && t in streams[s].tracks.entries;
    }
  }

  ghost function Updated(
    tracks: map<TrackID, Published>, flat: map<TrackID, Metadata>, visited: set<TrackID>
  ): map<TrackID, Published> {
    map t | t in tracks :: if t in visited && t in flat then WithMetadata(tracks[t], flat[t]) else tracks[t]
  }

  lemma OneMoreUpdated(tracks: map<TrackID, Published>, flat: map<TrackID, Metadata>, visited: set<TrackID>, t: TrackID)
    requires t in flat && t !in visited
    ensures var before := Updated(tracks, flat, visited);
            Updated(tracks, flat, visited + {t})
            == (map u | u in before :: if u == t then WithMetadata(before[u], flat[t]) else before[u])
  {
  }

  lemma UpdatedAll(c: ConferenceModel.Conference, streams: map<StreamID, StreamMetadata>, flat: map<TrackID, Metadata>)
    returns (d: ConferenceModel.Conference)
    ensures d == ConferenceModel.UpdateMetadata(c, streams, flat)
    ensures d.participants == c.participants && d.closedPongs == c.closedPongs && d.stopped == c.stopped
    ensures d.misused == c.misused && d.channels == c.channels
    ensures d.metadata == c.metadata + streams && d.tracks == Updated(c.tracks, flat, flat.Keys)
  {
    d := ConferenceModel.UpdateMetadata(c, streams, flat);
    assert d.tracks == Updated(c.tracks, flat, flat.Keys);
  }

  lemma ViewOfUnion(a: map<StreamID, Stream>, b: map<StreamID, Stream>)
    ensures View(a + b) == View(a) + View(b)
  {
  }

  class Conference {
    const tracker: Tracker
    var streamsMetadata: map<StreamID, Stream>

    ghost function State(): ConferenceModel.Conference
      reads this, tracker, Tables(streamsMetadata)
    {
      tracker.State().(metadata := View(streamsMetadata))
    }

    constructor ()
      ensures fresh(tracker) && streamsMetadata == map[] && State() == EMPTY
    {
      tracker := new Tracker();
      streamsMetadata := map[];
    }

    /** One track of somebody else goes into what is offered, unless its stream has no metadata. The first track of a
        stream gets a table of its own. */
    method Offer(ghost c: ConferenceModel.Conference, ghost offered: set<TrackID>, available: map<StreamID, Stream>,
                 t: TrackID, published: Published) returns (available': map<StreamID, Stream>)
      requires Groupable(c, offered) && t in c.tracks && published == c.tracks[t]
      requires c.metadata == View(streamsMetadata) && Tables(streamsMetadata) !! Tables(available)
      requires Separate(available) && View(available) == Grouped(c, offered)
      modifies Tables(available)
      ensures Separate(available') && fresh(Tables(available') - Tables(available))
      ensures published.stream in c.metadata ==>
                Groupable(c, offered + {t}) && View(available') == Grouped(c, offered + {t})
      ensures published.stream !in c.metadata ==> View(available') == Grouped(c, offered)
    {
      available' := available;
      var stream, description := published.stream, Kinded(published.kind);
      if stream in available {
        assert stream in View(available) && stream in Grouped(c, offered);
        OneMoreGrouped(c, offered, t);
        PutInStream(available, stream, t, description);
      } else if stream in streamsMetadata {
        OneMoreGrouped(c, offered, t);
        available' := AddStream(available, stream, streamsMetadata[stream], t, description);
      }
    }

    /** What the participant is offered, whatever order the tracks are visited in. The result shares no table with the
        stored metadata, and nothing stored changes. */
    method GetAvailableStreamsFor(p: ParticipantID) returns (available: map<StreamID, Stream>)
      ensures IsOffer(available, State(), p)
      ensures fresh(Tables(available))
    {
      ghost var c := State();
      ghost var offered: set<TrackID> := {};
      var pending := tracker.publishedTracks.Keys;
      available := map[];
      while pending != {}
        invariant pending <= c.tracks.Keys && offered == Offered(c, p) - pending
        invariant State() == c && fresh(Tables(available)) && Separate(available)
        invariant Groupable(c, offered) && View(available) == Grouped(c, offered)
        decreases pending
      {
        var t :| t in pending;
        var published := tracker.publishedTracks[t];
        if published.owner != p {
          available := Offer(c, offered, available, t, published);
          if published.stream in c.metadata { offered := offered + {t}; }
        }
        pending := pending - {t};
      }
      assert offered == Offered(c, p);
      GroupedIsAvailable(c, p);
    }

    /** What each participant but one is sent: the messages are written out at once, so `sent` holds values. */
    method ResendMetadataToAllExcept(exceptMe: ParticipantID)
      returns (sent: map<ParticipantID, map<StreamID, StreamMetadata>>)
      ensures State() == old(State())
      ensures sent.Keys == tracker.participants.Keys - {exceptMe}
      ensures forall q {:trigger sent[q]} :: q in sent ==> sent[q] == Available(State(), q)
    {
      ghost var c := State();
      var pending := tracker.participants.Keys;
      sent := map[];
      while pending != {}
        invariant pending <= c.participants.Keys && c == State()
        invariant sent.Keys == c.participants.Keys - pending - {exceptMe}
        invariant forall q {:trigger sent[q]} :: q in sent ==> sent[q] == Available(c, q)
        decreases pending
      {
        var q :| q in pending;
        var available := GetAvailableStreamsFor(q);
        if q != exceptMe { sent := sent[q := View(available)]; }
        pending := pending - {q};
      }
    }

    /** The tracks of the tracker get the metadata listed for them. */
    method UpdateTracks(flat: map<TrackID, Metadata>)
      modifies tracker`publishedTracks
      ensures tracker.publishedTracks == Updated(old(tracker.publishedTracks), flat, flat.Keys)
    {
      ghost var tracks := tracker.publishedTracks;
      var pending := flat.Keys;
      while pending != {}
        invariant pending <= flat.Keys
        invariant tracker.publishedTracks == Updated(tracks, flat, flat.Keys - pending)
        decreases pending
      {
        var t :| t in pending;
        OneMoreUpdated(tracks, flat, flat.Keys - pending, t);
        tracker.UpdatePublishedTrackMetadata(t, flat[t]);
        pending := pending - {t};
      }
    }

    method UpdateTracksKeepingStreams(flat: map<TrackID, Metadata>, ghost stored: map<StreamID, StreamMetadata>)
      requires View(streamsMetadata) == stored
      modifies tracker`publishedTracks
      ensures tracker.publishedTracks == Updated(old(tracker.publishedTracks), flat, flat.Keys)
      ensures View(streamsMetadata) == stored
    {
      UpdateTracks(flat);
    }

    method PutStreams(streams: map<StreamID, Stream>)
      modifies this`streamsMetadata
      ensures streamsMetadata == old(streamsMetadata) + streams
    {
      var pending := streams.Keys;
      while pending != {}
        invariant pending <= streams.Keys && streamsMetadata == old(streamsMetadata) + (streams - pending)
        decreases pending
      {
        var s :| s in pending;
        streamsMetadata := streamsMetadata[s := streams[s]];
        pending := pending - {s};
      }
    }

    method StoreStreams(streams: map<StreamID, Stream>, ghost stored: map<StreamID, StreamMetadata>)
      requires stored == View(streamsMetadata) + View(streams)
      modifies this`streamsMetadata
      ensures streamsMetadata == old(streamsMetadata) + streams && View(streamsMetadata) == stored
    {
      ViewOfUnion(streamsMetadata, streams);
      PutStreams(streams);
    }

    /** New metadata; the stored streams share their track tables with the message. */
    method UpdateMetadata(streams: map<StreamID, Stream>, ghost before: ConferenceModel.Conference,
                          ghost added: map<StreamID, StreamMetadata>) returns (ghost flat: map<TrackID, Metadata>)
      requires before == State() && added == View(streams)
      modifies this`streamsMetadata, tracker`publishedTracks
      ensures Flattens(added, flat) && State() == ConferenceModel.UpdateMetadata(before, added, flat)
      ensures streamsMetadata == old(streamsMetadata) + streams
    {
      var listed := StreamIntoTrackMetadata(streams);
      flat := listed;
      ghost var after := UpdatedAll(before, added, flat);
      StoreAndUpdate(streams, listed, after);
    }

    method StoreAndUpdate(streams: map<StreamID, Stream>, flat: map<TrackID, Metadata>,
                          ghost after: ConferenceModel.Conference)
      requires after == tracker.State().(metadata := after.metadata, tracks := after.tracks)
      requires after.metadata == View(streamsMetadata) + View(streams)
      requires after.tracks == Updated(tracker.publishedTracks, flat, flat.Keys)
      modifies this`streamsMetadata, tracker`publishedTracks
      ensures State() == after && streamsMetadata == old(streamsMetadata) + streams
    {
      StoreStreams(streams, after.metadata);
      UpdateTracksKeepingStreams(flat, after.metadata);
    }

    method ForgetStreams(streams: set<StreamID>)
      modifies this`streamsMetadata
      ensures streamsMetadata == old(streamsMetadata) - streams
    {
      var pending := streams;
      while pending != {}
        invariant pending <= streams && streamsMetadata == old(streamsMetadata) - (streams - pending)
        decreases pending
      {
        var s :| s in pending;
        streamsMetadata := streamsMetadata - {s};
        pending := pending - {s};
      }
    }

    method ForgetStreamsIn(streams: set<StreamID>, ghost stored: map<StreamID, StreamMetadata>)
      requires View(streamsMetadata) == stored
      modifies this`streamsMetadata
      ensures View(streamsMetadata) == stored - streams
    {
      ForgetStreams(streams);
    }

    method RemoveFromTracker(id: ParticipantID, ghost bare: ConferenceModel.Conference,
                             ghost stored: map<StreamID, StreamMetadata>)
      returns (streams: set<StreamID>, crashed: bool)
      requires bare == tracker.State() && Inv(bare) && View(streamsMetadata) == stored
      modifies tracker
      ensures streams == if id in bare.participants then StreamsOf(bare, id) else {}
      ensures if crashed then ConferenceModel.RemoveParticipant(bare, id).Crashed?
              else ConferenceModel.RemoveParticipant(bare, id) == Stepped(tracker.State())
      ensures View(streamsMetadata) == stored
    {
      streams, crashed := tracker.RemoveParticipant(id);
    }

    method RemoveWithStreams(id: ParticipantID) returns (crashed: bool)
      requires Inv(State())
      modifies this`streamsMetadata, tracker
      ensures crashed <==> Remove(old(State()), id).Crashed?
      ensures !crashed ==> Stepped(State()) == Remove(old(State()), id)
    {
      ghost var stored := View(streamsMetadata);
      MetadataDoesNotMatter(State(), id);
      var streams;
      streams, crashed := RemoveFromTracker(id, tracker.State(), stored);
      if !crashed { ForgetStreamsIn(streams, stored); }
    }

    /** The others are told what is left for them. */
    method TellTheOthers(ghost before: ConferenceModel.Conference, id: ParticipantID)
      returns (sent: map<ParticipantID, map<StreamID, StreamMetadata>>)
      requires forall q {:trigger Available(State(), q)} :: q != id ==> Available(State(), q) == Rest(before, id, q)
      ensures sent.Keys == tracker.participants.Keys - {id}
      ensures forall q :: q in sent ==> sent[q] == Rest(before, id, q)
    {
      ghost var c := State();
      sent := ResendMetadataToAllExcept(id);
      assert c == State();
      forall q | q in sent ensures sent[q] == Rest(before, id, q) {
        assert sent[q] == Available(c, q) == Rest(before, id, q);
      }
    }

    /** A departure: the others are told what is left for them, which is what they had without the departed streams. */
    method RemoveParticipant(id: ParticipantID)
      returns (sent: map<ParticipantID, map<StreamID, StreamMetadata>>, crashed: bool)
      requires Inv(State())
      modifies this`streamsMetadata, tracker
      ensures crashed <==> Remove(old(State()), id).Crashed?
      ensures !crashed ==> Stepped(State()) == Remove(old(State()), id)
      ensures !crashed ==> sent.Keys == tracker.participants.Keys - {id}
      ensures !crashed ==> forall q :: q in sent ==> sent[q] == Rest(old(State()), id, q)
    {
      ghost var before := State();
      sent := map[];
      crashed := RemoveWithStreams(id);
      if crashed { return; }
      RestIsOffered(before, State(), id);
      sent := TellTheOthers(before, id);
    }

    /** What is known about a track that is being published. */
    method LookUp(track: TrackID) returns (metadata: Metadata)
      ensures KnownMetadata(View(streamsMetadata), track, metadata)
      ensures if exists s :: s in streamsMetadata && track in streamsMetadata[s].tracks.entries then
                exists s ::
                  && s in streamsMetadata && track in streamsMetadata[s].tracks.entries
                  && var entry := streamsMetadata[s].tracks.entries[track];
                     && metadata.maxWidth == entry.width && metadata.maxHeight == entry.height
                     && (metadata.muted <==> || (entry.kind == TrackModel.Audio && streamsMetadata[s].audioMuted)
                                             || (entry.kind == TrackModel.Video && streamsMetadata[s].videoMuted))
              else metadata == Metadata(0, 0, false)
    {
      var flat := StreamIntoTrackMetadata(streamsMetadata);
      LookedUp(View(streamsMetadata), flat, track);
      metadata := if track in flat then flat[track] else Metadata(0, 0, false);
    }

    method AddToTracker(ghost a: Action, ghost bare: ConferenceModel.Conference,
                        ghost stored: map<StreamID, StreamMetadata>, id: ParticipantID, track: TrackID,
                        stream: StreamID, kind: TrackModel.Kind, metadata: Metadata,
                        publisher: TrackSystem.Action<ParticipantID, nat, nat>, ok: bool)
      returns (crashed: bool)
      requires bare == tracker.State() && Inv(bare) && View(streamsMetadata) == stored
      requires a == Publish(id, track, stream, kind, metadata, publisher, ok) && publisher.DoAddPublisher?
      requires track in bare.tracks ==> TrackSystem.Enabled(bare.tracks[track].body, publisher)
      modifies tracker
      ensures if crashed then ConferenceModel.AddPublishedTrack(bare, a).Crashed?
              else ConferenceModel.AddPublishedTrack(bare, a) == Stepped(tracker.State())
      ensures View(streamsMetadata) == stored
    {
      crashed := tracker.AddPublishedTrack(a, id, track, stream, kind, metadata, publisher, ok);
    }

    method AddTrack(ghost a: Action, ghost before: ConferenceModel.Conference, id: ParticipantID, track: TrackID,
                    stream: StreamID, kind: TrackModel.Kind, metadata: Metadata,
                    publisher: TrackSystem.Action<ParticipantID, nat, nat>, ok: bool) returns (crashed: bool)
      requires before == State() && Inv(before)
      requires a == Publish(id, track, stream, kind, metadata, publisher, ok) && publisher.DoAddPublisher?
      requires track in before.tracks ==> TrackSystem.Enabled(before.tracks[track].body, publisher)
      modifies tracker
      ensures if crashed then ConferenceModel.AddPublishedTrack(before, a).Crashed?
              else ConferenceModel.AddPublishedTrack(before, a) == Stepped(State())
    {
      BareAdds(before, a);
      crashed := AddToTracker(a, tracker.State(), View(streamsMetadata), id, track, stream, kind, metadata, publisher,
                              ok);
    }

    /** A participant has published a track, or another layer of one: it starts with what the stored streams say about
        it, and the others are told. */
    method NewTrackPublished(id: ParticipantID, track: TrackID, stream: StreamID, kind: TrackModel.Kind,
                             publisher: TrackSystem.Action<ParticipantID, nat, nat>, ok: bool)
      returns (metadata: Metadata, sent: map<ParticipantID, map<StreamID, StreamMetadata>>, crashed: bool)
      requires Inv(State()) && publisher.DoAddPublisher?
      requires track in tracker.publishedTracks ==>
                 TrackSystem.Enabled(tracker.publishedTracks[track].body, publisher)
      modifies tracker
      ensures KnownMetadata(old(State()).metadata, track, metadata)
      ensures var a := Publish(id, track, stream, kind, metadata, publisher, ok);
              var result := ConferenceModel.AddPublishedTrack(old(State()), a);
              if crashed then result.Crashed? else result == Stepped(State())
      ensures !crashed ==> sent.Keys == tracker.participants.Keys - {id}
      ensures !crashed ==> forall q {:trigger sent[q]} :: q in sent ==> sent[q] == Available(State(), q)
    {
      ghost var before := State();
      metadata := LookUp(track);
      ghost var a := Publish(id, track, stream, kind, metadata, publisher, ok);
      sent := map[];
      crashed := AddTrack(a, before, id, track, stream, kind, metadata, publisher, ok);
      if crashed { return; }
      sent := ResendMetadataToAllExcept(id);
    }

    /** An invitation under another session ends the one that is there. */
    method EndOldSession(id: ParticipantID, session: string) returns (crashed: bool)
      requires Inv(State())
      modifies this`streamsMetadata, tracker
      ensures crashed <==> FirstOf(old(State()), id, session).Crashed?
      ensures !crashed ==> Stepped(State()) == FirstOf(old(State()), id, session)
    {
      crashed := false;
      if id in tracker.participants && tracker.participants[id].session != session {
        var sent;
        sent, crashed := RemoveParticipant(id);
      }
    }

    method AdmitIfNew(id: ParticipantID, session: string, ghost streams: map<StreamID, Stream>,
                      ghost added: map<StreamID, StreamMetadata>)
      requires added == View(streams)
      modifies tracker
      ensures added == View(streams)
      ensures State() == Admit(old(State()), id, session) && streamsMetadata == old(streamsMetadata)
    {
      if id !in tracker.participants {
        tracker.AddParticipant(id, session);
      }
    }

    /** An invitation; `peerOk` is whether the peer connection accepts the offer. The answer lists what is on offer. */
    method OnNewParticipant(id: ParticipantID, session: string, peerOk: bool, streams: map<StreamID, Stream>)
      returns (ghost flat: map<TrackID, Metadata>, answer: map<StreamID, Stream>, crashed: bool)
      requires Inv(State())
      modifies this`streamsMetadata, tracker
      ensures var a := Join(id, session, peerOk, old(View(streams)), flat);
              var result := ConferenceModel.OnNewParticipant(old(State()), a);
              if crashed then result.Crashed? else result == Stepped(State())
      ensures !crashed && peerOk ==> Flattens(old(View(streams)), flat) && IsOffer(answer, State(), id)
    {
      ghost var before, added := State(), View(streams);
      flat, answer := map[], map[];
      crashed := EndOldSession(id, session);
      if crashed || !peerOk { return; }
      flat, answer := Welcome(id, session, streams, added);
    }

    method Welcome(id: ParticipantID, session: string, streams: map<StreamID, Stream>,
                   ghost added: map<StreamID, StreamMetadata>)
      returns (ghost flat: map<TrackID, Metadata>, answer: map<StreamID, Stream>)
      requires added == View(streams)
      modifies this`streamsMetadata, tracker
      ensures Flattens(added, flat) && IsOffer(answer, State(), id)
      ensures State() == ConferenceModel.UpdateMetadata(Admit(old(State()), id, session), added, flat)
    {
      ghost var before := State();
      AdmitIfNew(id, session, streams, added);
      flat := UpdateMetadata(streams, Admit(before, id, session), added);
      answer := GetAvailableStreamsFor(id);
    }
  }

  /** The first part of an invitation. */
  ghost function FirstOf(c: ConferenceModel.Conference, id: ParticipantID, session: string): Result
    requires BodiesInv(c)
  {
    if id in c.participants && c.participants[id].session != session then Remove(c, id) else Stepped(c)
  }

  lemma LookedUp(streams: map<StreamID, StreamMetadata>, flat: map<TrackID, Metadata>, track: TrackID)
    requires Flattens(streams, flat)
    ensures KnownMetadata(streams, track, if track in flat then flat[track] else Metadata(0, 0, false))
  {
  }

  /** Adding a track does not depend on the streams. */
  lemma BareAdds(c: ConferenceModel.Conference, a: Action)
    requires Inv(c) && a.Publish? && a.publisher.DoAddPublisher?
    requires a.track in c.tracks ==> TrackSystem.Enabled(c.tracks[a.track].body, a.publisher)
    ensures var bare := c.(metadata := map[]);
            && Inv(bare)
            && match ConferenceModel.AddPublishedTrack(bare, a)
               case Crashed => ConferenceModel.AddPublishedTrack(c, a).Crashed?
               case Stepped(c') =>
                 ConferenceModel.AddPublishedTrack(c, a) == Stepped(c'.(metadata := c.metadata))
  {
  }

  ghost predicate IsOffer(streams: map<StreamID, Stream>, c: ConferenceModel.Conference, q: ParticipantID)
    reads Tables(streams)
  {
    View(streams) == Available(c, q)
  }

  /** What q was offered before the participant left, without the participant's streams. */
  ghost function Rest(
    before: ConferenceModel.Conference, id: ParticipantID, q: ParticipantID
  ): map<StreamID, StreamMetadata> {
    Available(before, q) - (if id in before.participants then StreamsOf(before, id) else {})
  }

  lemma RestIsOffered(c: ConferenceModel.Conference, d: ConferenceModel.Conference, id: ParticipantID)
    requires Inv(c) && Remove(c, id) == Stepped(d)
    ensures forall q {:trigger Available(d, q)} :: q != id ==> Available(d, q) == Rest(c, id, q)
  {
    forall q {:trigger Available(d, q)} | q != id ensures Available(d, q) == Rest(c, id, q) {
      if id in c.participants { DepartureRemovesStreams(c, id, q); }
    }
  }

  lemma MetadataDoesNotMatter(c: ConferenceModel.Conference, id: ParticipantID)
    requires Inv(c)
    ensures var bare := c.(metadata := map[]);
            && Inv(bare) && StreamsOf(bare, id) == StreamsOf(c, id)
            && match ConferenceModel.RemoveParticipant(bare, id)
               case Crashed => Remove(c, id).Crashed?
               case Stepped(c') =>
                 var forgotten := if id in c.participants then StreamsOf(c, id) else {};
                 Remove(c, id) == Stepped(c'.(metadata := c.metadata - forgotten))
  {
    assert OwnedBy(c.(metadata := map[]), id) == OwnedBy(c, id);
  }
}

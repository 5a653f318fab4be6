/** The tracker as an object that changes its maps in place, each method proved against the operations on values. */
module TrackerObjects {
  import opened ConferenceModel
  import opened ConferenceRuns
  import opened Layers
  import TrackModel
  import TrackSystem

  /** The tracks that are left when the owner's have been removed among those visited. */
  ghost function Remaining(
    tracks: map<TrackID, Published>, id: ParticipantID, visited: set<TrackID>
  ): map<TrackID, Published> {
    map t | t in tracks && !(t in visited && tracks[t].owner == id) :: tracks[t]
  }

  ghost function SignalsAmong(tracks: map<TrackID, Published>, id: ParticipantID, visited: set<TrackID>): set<nat> {
    set t | t in visited && t in tracks && tracks[t].owner == id && !tracks[t].body.track.done :: tracks[t].stopSignal
  }

  ghost function StreamsAmong(
    tracks: map<TrackID, Published>, id: ParticipantID, visited: set<TrackID>
  ): set<StreamID> {
    set t | t in visited && t in tracks && tracks[t].owner == id :: tracks[t].stream
  }

  /** The tracks' stop signals are open, and no two are the same. */
  ghost predicate SignalsOpen(c: Conference) {
    && (forall t :: t in c.tracks ==> c.tracks[t].stopSignal !in c.stopped)
    && (forall t, u :: t in c.tracks && u in c.tracks && c.tracks[t].stopSignal == c.tracks[u].stopSignal ==> t == u)
  }

  lemma OneMoreVisited(c: Conference, id: ParticipantID, visited: set<TrackID>, t: TrackID)
    requires SignalsOpen(c) && t in c.tracks && t !in visited
    ensures var isOwned, isRunning := c.tracks[t].owner == id, !c.tracks[t].body.track.done;
            && Remaining(c.tracks, id, visited + {t})
               == Remaining(c.tracks, id, visited) - (if isOwned then {t} else {})
            && SignalsAmong(c.tracks, id, visited + {t})
               == SignalsAmong(c.tracks, id, visited) + (if isOwned && isRunning then {c.tracks[t].stopSignal} else {})
            && StreamsAmong(c.tracks, id, visited + {t})
               == StreamsAmong(c.tracks, id, visited) + (if isOwned then {c.tracks[t].stream} else {})
    ensures c.tracks[t].stopSignal !in c.stopped + SignalsAmong(c.tracks, id, visited)
  {
  }

  /** The tracks when all but the pending ones have been replaced. */
  ghost function Replaced(
    tracks: map<TrackID, Published>, after: map<TrackID, Published>, pending: set<TrackID>
  ): map<TrackID, Published> {
    map t | t in tracks :: if t in pending || t !in after then tracks[t] else after[t]
  }

  lemma UnsubscribeIsRemoval(t: Published, id: ParticipantID)
    requires TrackSystem.Inv(t.body)
    ensures TakingOffCrashes(t, id) <==> CannotLeave(t, id)
    ensures var step := TrackSystem.DoUnsubscribe(id);
            if CannotLeave(t, id) then TrackSystem.Next(t.body, step).Crashed?
            else TrackSystem.Next(t.body, step) == TrackSystem.Stepped(BodyWithout(t.body, id))
  {
    TrackModel.UnsubscribePanicsIff(t.body.track, id);
  }

  lemma OneMoreReplaced(
    tracks: map<TrackID, Published>, after: map<TrackID, Published>, pending: set<TrackID>, t: TrackID
  )
    requires t in tracks && t in pending && after.Keys == tracks.Keys
    ensures Replaced(tracks, after, pending)[t] == tracks[t]
    ensures Replaced(tracks, after, pending)[t := after[t]] == Replaced(tracks, after, pending - {t})
  {
  }

  lemma NoneOrAllReplaced(tracks: map<TrackID, Published>, after: map<TrackID, Published>)
    requires after.Keys == tracks.Keys
    ensures Replaced(tracks, after, tracks.Keys) == tracks && Replaced(tracks, after, {}) == after
  {
  }

  lemma AllVisited(c: Conference, id: ParticipantID)
    requires ChannelsOpen(c)
    ensures SignalsAmong(c.tracks, id, c.tracks.Keys) == SignalsOf(c, id)
    ensures StreamsAmong(c.tracks, id, c.tracks.Keys) == StreamsOf(c, id)
    ensures SignalsOf(c, id) !! c.stopped
  {
  }

  lemma RemainingAreOthers(tracks: map<TrackID, Published>, id: ParticipantID)
    ensures var rest := Remaining(tracks, id, tracks.Keys);
            && (forall t :: t in rest <==> t in tracks && tracks[t].owner != id)
            && (forall t :: t in rest ==> rest[t] == tracks[t])
  {
  }

  /** The tracks that cannot take the participant's subscription back. */
  ghost function Stuck(tracks: map<TrackID, Published>, id: ParticipantID): set<TrackID> {
    set t | t in tracks && CannotLeave(tracks[t], id)
  }

  ghost predicate TakenOff(t: Published, t': Published, id: ParticipantID) {
    TrackSystem.Inv(t.body) && t' == WithBody(t, BodyWithout(t.body, id))
  }

  lemma OthersTakenOff(c: Conference, rest: map<TrackID, Published>, id: ParticipantID)
    returns (after: map<TrackID, Published>)
    requires BodiesInv(c) && rest == Remaining(c.tracks, id, c.tracks.Keys)
    ensures after == TracksWithout(c.tracks, id) && after.Keys == rest.Keys
    ensures forall t {:trigger TakenOff(rest[t], after[t], id)} :: t in rest ==> TakenOff(rest[t], after[t], id)
  {
    RemainingAreOthers(c.tracks, id);
    after := TracksWithout(c.tracks, id);
  }

  /** What the two loops have done is what the removal promises. */
  lemma RemovalAssembled(c: Conference, rest: map<TrackID, Published>, id: ParticipantID)
    requires BodiesInv(c) && ChannelsOpen(c) && id in c.participants && rest == Remaining(c.tracks, id, c.tracks.Keys)
    ensures StreamsAmong(c.tracks, id, c.tracks.Keys) == StreamsOf(c, id)
    ensures Stuck(rest, id) != {} <==> ConferenceModel.RemoveParticipant(c, id).Crashed?
    ensures Stuck(rest, id) == {} ==>
              ConferenceModel.RemoveParticipant(c, id) ==
              Stepped(Conference(c.participants - {id}, TracksWithout(c.tracks, id), c.metadata,
                                 c.closedPongs + {c.participants[id].pong},
                                 c.stopped + SignalsAmong(c.tracks, id, c.tracks.Keys), c.misused, c.channels))
  {
    RemainingAreOthers(c.tracks, id);
    AllVisited(c, id);
    StuckIff(c, rest, id);
  }

  lemma StuckIff(c: Conference, rest: map<TrackID, Published>, id: ParticipantID)
    requires BodiesInv(c) && rest == Remaining(c.tracks, id, c.tracks.Keys)
    ensures Stuck(rest, id) != {} <==> LeavingCrashes(c, id)
  {
    RemainingAreOthers(c.tracks, id);
    forall t | t in c.tracks
      ensures TrackSystem.Inv(c.tracks[t].body) && (TakingOffCrashes(c.tracks[t], id) <==> CannotLeave(c.tracks[t], id))
    {
      assert TrackSystem.Inv(c.tracks[t].body);
      TakingOffCrashesIff(c.tracks[t], id);
    }
    if LeavingCrashes(c, id) {
      var t :| t in c.tracks && c.tracks[t].owner != id && CannotLeave(c.tracks[t], id);
      assert t in Stuck(rest, id);
    }
  }

  /** The track answers with an error: it is closed, or a new subscription is asked for that cannot be made. */
  predicate Refuses(t: TrackModel.Track<ParticipantID, nat, nat>, a: TrackSystem.Action<ParticipantID, nat, nat>)
    requires a.DoSubscribe?
  {
    a.request.sawDone || (a.id !in t.subscriptions && (!a.request.created || t.kind == TrackModel.Unsupported))
  }

  lemma SubscriptionOutcome(body: Body, a: TrackSystem.Action<ParticipantID, nat, nat>)
    requires TrackSystem.Typed(body) && a.DoSubscribe? && TrackSystem.Enabled(body, a)
    ensures Refuses(body.track, a) <==>
            TrackModel.Subscribe(body.track, a.id, a.s, a.request) == TrackModel.Rejected
    ensures Refuses(body.track, a) ==> TrackSystem.Next(body, a) == TrackSystem.Stepped(body)
  {
  }

  class Tracker {
    var participants: map<ParticipantID, Participant>
    var publishedTracks: map<TrackID, Published>
    var closedPongs: set<nat>
    var stopped: set<nat>
    var misused: bool
    var channels: nat

    /** The conference without its stream metadata. */
    ghost function State(): Conference
      reads this
    {
      Conference(participants, publishedTracks, map[], closedPongs, stopped, misused, channels)
    }

    constructor ()
      ensures State() == EMPTY
    {
      participants, publishedTracks := map[], map[];
      closedPongs, stopped, misused, channels := {}, {}, false, 0;
    }

    /** A new participant with a pong channel of its own. */
    method AddParticipant(id: ParticipantID, session: string)
      modifies this
      ensures participants == old(participants)[id := Participant(session, old(channels))]
      ensures channels == old(channels) + 1
      ensures publishedTracks == old(publishedTracks) && closedPongs == old(closedPongs)
      ensures stopped == old(stopped) && misused == old(misused)
    {
      participants := participants[id := Participant(session, channels)];
      channels := channels + 1;
    }

    method RemovePublishedTrack(track: TrackID)
      modifies this
      ensures State() == ConferenceModel.RemovePublishedTrack(old(State()), track)
    {
      if track in publishedTracks {
        var published := publishedTracks[track];
        if !published.body.track.done {
          misused := misused || published.stopSignal in stopped;
          stopped := stopped + {published.stopSignal};
        }
        publishedTracks := publishedTracks - {track};
      }
    }

    method ClosePong(pong: nat)
      modifies this`closedPongs, this`misused
      ensures closedPongs == old(closedPongs) + {pong} && misused == (old(misused) || pong in old(closedPongs))
    {
      misused := misused || pong in closedPongs;
      closedPongs := closedPongs + {pong};
    }

    /** The first loop has visited these tracks. */
    ghost predicate RemovedAmong(before: Conference, id: ParticipantID, visited: set<TrackID>, streams: set<StreamID>)
      reads this
    {
      && participants == before.participants && closedPongs == before.closedPongs
      && misused == before.misused && channels == before.channels
      && publishedTracks == Remaining(before.tracks, id, visited)
      && stopped == before.stopped + SignalsAmong(before.tracks, id, visited)
      && streams == StreamsAmong(before.tracks, id, visited)
    }

    /** One iteration of the first loop. */
    method RemoveNext(ghost before: Conference, ghost visited: set<TrackID>, id: ParticipantID, t: TrackID,
                      streams: set<StreamID>) returns (streams': set<StreamID>)
      requires SignalsOpen(before) && t in before.tracks && t !in visited
      requires RemovedAmong(before, id, visited, streams)
      modifies this
      ensures RemovedAmong(before, id, visited + {t}, streams')
    {
      OneMoreVisited(before, id, visited, t);
      var published := publishedTracks[t];
      streams' := streams;
      if published.owner == id {
        streams' := streams + {published.stream};
        RemovePublishedTrack(t);
      }
    }

    /** The first loop: the owner's tracks go, in any order. */
    method RemoveTracksOf(id: ParticipantID) returns (streams: set<StreamID>)
      requires SignalsOpen(State())
      modifies this
      ensures RemovedAmong(old(State()), id, old(publishedTracks.Keys), streams)
    {
      ghost var before, visited: set<TrackID> := State(), {};
      var pending := publishedTracks.Keys;
      streams := {};
      assert publishedTracks == Remaining(before.tracks, id, {});
      while pending != {}
        invariant pending <= before.tracks.Keys && visited == before.tracks.Keys - pending
        invariant RemovedAmong(before, id, visited, streams)
        decreases pending
      {
        var t :| t in pending;
        streams := RemoveNext(before, visited, id, t, streams);
        visited := visited + {t};
        pending := pending - {t};
      }
    }

    method Unsubscribe(id: ParticipantID, track: TrackID) returns (crashed: bool)
      requires track in publishedTracks ==> TrackSystem.Inv(publishedTracks[track].body)
      modifies this`publishedTracks
      ensures crashed <==> track in old(publishedTracks) && CannotLeave(old(publishedTracks)[track], id)
      ensures publishedTracks ==
              if crashed || track !in old(publishedTracks) then old(publishedTracks)
              else
                var t := old(publishedTracks)[track];
                old(publishedTracks)[track := WithBody(t, BodyWithout(t.body, id))]
      ensures !crashed && track in old(publishedTracks) ==>
                publishedTracks[track].Subscribers() == old(publishedTracks)[track].Subscribers() - {id}
    {
      crashed := false;
      if track in publishedTracks {
        var published := publishedTracks[track];
        UnsubscribeIsRemoval(published, id);
        match TrackSystem.Next(published.body, TrackSystem.DoUnsubscribe(id))
        case Crashed => crashed := true;
        case Stepped(body) => publishedTracks := publishedTracks[track := WithBody(published, body)];
      }
    }

    /** One iteration of the second loop. */
    method UnsubscribeNext(ghost tracks: map<TrackID, Published>, ghost after: map<TrackID, Published>,
                           ghost pending: set<TrackID>, id: ParticipantID, t: TrackID) returns (crashed: bool)
      requires t in tracks && t in pending && after.Keys == tracks.Keys && TakenOff(tracks[t], after[t], id)
      requires publishedTracks == Replaced(tracks, after, pending)
      modifies this`publishedTracks
      ensures crashed <==> t in Stuck(tracks, id)
      ensures !crashed ==> publishedTracks == Replaced(tracks, after, pending - {t})
    {
      OneMoreReplaced(tracks, after, pending, t);
      crashed := Unsubscribe(id, t);
    }

    /** The second loop: the participant is taken off every track that is left, in any order. */
    method UnsubscribeFromAll(ghost after: map<TrackID, Published>, id: ParticipantID) returns (crashed: bool)
      requires after.Keys == publishedTracks.Keys
      requires forall t {:trigger TakenOff(publishedTracks[t], after[t], id)} ::
                 t in publishedTracks ==> TakenOff(publishedTracks[t], after[t], id)
      modifies this`publishedTracks
      ensures crashed <==> Stuck(old(publishedTracks), id) != {}
      ensures !crashed ==> publishedTracks == after
    {
      ghost var tracks, stuck := publishedTracks, Stuck(publishedTracks, id);
      var pending := publishedTracks.Keys;
      crashed := false;
      NoneOrAllReplaced(tracks, after);
      while pending != {}
        invariant stuck <= pending <= tracks.Keys
        invariant publishedTracks == Replaced(tracks, after, pending)
        decreases pending
      {
        var t :| t in pending;
        crashed := UnsubscribeNext(tracks, after, pending, id, t);
        if crashed { return; }
        pending := pending - {t};
      }
    }

    /** Removing a participant through both loops: whatever order they visit the tracks in, the outcome is the same. */
    method RemoveParticipant(id: ParticipantID) returns (streams: set<StreamID>, crashed: bool)
      requires Inv(State())
      modifies this
      ensures streams == if id in old(participants) then StreamsOf(old(State()), id) else {}
      ensures crashed <==> ConferenceModel.RemoveParticipant(old(State()), id).Crashed?
      ensures !crashed ==> Stepped(State()) == ConferenceModel.RemoveParticipant(old(State()), id)
    {
      streams, crashed := {}, false;
      if id in participants {
        ghost var before := State();
        ClosePong(participants[id].pong);
        participants := participants - {id};
        streams := RemoveTracksOf(id);
        ghost var rest := publishedTracks;
        ghost var after := OthersTakenOff(before, rest, id);
        crashed := UnsubscribeFromAll(after, id);
        RemovalAssembled(before, rest, id);
      }
    }

    method AddPublishedTrack(ghost a: Action, id: ParticipantID, track: TrackID, stream: StreamID,
                             kind: TrackModel.Kind, metadata: Metadata,
                             publisher: TrackSystem.Action<ParticipantID, nat, nat>, ok: bool)
      returns (crashed: bool)
      requires Inv(State()) && a == Publish(id, track, stream, kind, metadata, publisher, ok)
      requires publisher.DoAddPublisher?
      requires track in publishedTracks ==> TrackSystem.Enabled(publishedTracks[track].body, publisher)
      modifies this
      ensures crashed <==> ConferenceModel.AddPublishedTrack(old(State()), a).Crashed?
      ensures !crashed ==> Stepped(State()) == ConferenceModel.AddPublishedTrack(old(State()), a)
    {
      crashed := false;
      if id !in participants { return; }
      if track in publishedTracks {
        var published := publishedTracks[track];
        assert TrackSystem.Inv(State().tracks[track].body);
        match TrackSystem.Next(published.body, publisher)
        case Crashed => crashed := true;
        case Stepped(body) => publishedTracks := publishedTracks[track := WithBody(published, body)];
      } else if ok {
        var body := NewBody(kind, metadata, publisher);
        publishedTracks := publishedTracks[track := Published(id, stream, kind, channels, body)];
        channels := channels + 1;
      }
    }

    /** `accepted` is false for the errors: no such participant, no such track, or a refusal by the track. */
    method Subscribe(track: TrackID, request: TrackSystem.Action<ParticipantID, nat, nat>)
      returns (accepted: bool, crashed: bool)
      requires Inv(State()) && Enabled(State(), ConferenceModel.Subscribe(track, request))
      modifies this`publishedTracks
      ensures crashed <==> Next(old(State()), ConferenceModel.Subscribe(track, request)).Crashed?
      ensures !crashed ==> Stepped(State()) == Next(old(State()), ConferenceModel.Subscribe(track, request))
      ensures accepted <==>
                && !crashed && request.id in old(participants) && track in old(publishedTracks)
                && !Refuses(old(publishedTracks)[track].body.track, request)
      ensures !accepted ==> State() == old(State())
    {
      accepted, crashed := false, false;
      if request.id in participants && track in publishedTracks {
        var published := publishedTracks[track];
        assert TrackSystem.Inv(State().tracks[track].body);
        SubscriptionOutcome(published.body, request);
        match TrackSystem.Next(published.body, request)
        case Crashed => crashed := true;
        case Stepped(body) =>
          accepted := !Refuses(published.body.track, request);
          publishedTracks := publishedTracks[track := WithBody(published, body)];
      }
    }

    method UpdatePublishedTrackMetadata(track: TrackID, metadata: Metadata)
      modifies this`publishedTracks
      ensures publishedTracks == map t | t in old(publishedTracks) ::
                if t == track then WithMetadata(old(publishedTracks)[t], metadata) else old(publishedTracks)[t]
    {
      if track in publishedTracks {
        publishedTracks := publishedTracks[track := WithMetadata(publishedTracks[track], metadata)];
      }
    }
  }
}

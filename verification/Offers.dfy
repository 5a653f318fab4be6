/** What each participant is offered: the tracks of the others, grouped by stream, and how that changes. */
module Offers {
  import opened ConferenceModel
  import opened ConferenceRuns
  import opened Layers
  import TrackModel
  import TrackSystem

  function Kinded(kind: TrackModel.Kind): TrackDescription {
    TrackDescription(kind, 0, 0)
  }

  /** The tracks of others whose stream has metadata. */
  function Offered(c: Conference, p: ParticipantID): set<TrackID> {
    set t | t in c.tracks && c.tracks[t].owner != p && c.tracks[t].stream in c.metadata
  }

  function OfferedStreams(c: Conference, p: ParticipantID): set<StreamID> {
    set t | t in Offered(c, p) :: c.tracks[t].stream
  }

  function OfferedOn(c: Conference, p: ParticipantID, s: StreamID): map<TrackID, TrackDescription> {
    map t | t in Offered(c, p) && c.tracks[t].stream == s :: Kinded(c.tracks[t].kind)
  }

  /** The streams with an offered track, each with the stored metadata but for the tracks, which are the offered ones.
      */
  function Available(c: Conference, p: ParticipantID): map<StreamID, StreamMetadata> {
    map s | s in OfferedStreams(c, p) :: c.metadata[s].(tracks := OfferedOn(c, p, s))
  }

  /** A track appears under a stream exactly when it belongs to it, is somebody else's and the stream has metadata; it
      appears with its kind, under the stored purpose and muting of the stream. */
  lemma OfferedIff(c: Conference, p: ParticipantID, s: StreamID, t: TrackID)
    ensures s in Available(c, p) && t in Available(c, p)[s].tracks <==>
            t in c.tracks && c.tracks[t].owner != p && c.tracks[t].stream == s && s in c.metadata
    ensures s in Available(c, p) && t in Available(c, p)[s].tracks ==>
              Available(c, p)[s].tracks[t] == TrackDescription(c.tracks[t].kind, 0, 0)
    ensures s in Available(c, p) ==>
              && s in c.metadata && Available(c, p)[s].purpose == c.metadata[s].purpose
              && Available(c, p)[s].audioMuted == c.metadata[s].audioMuted
              && Available(c, p)[s].videoMuted == c.metadata[s].videoMuted
    ensures s in Available(c, p) ==> Available(c, p)[s].tracks != map[]
  {
    if s in Available(c, p) {
      var u :| u in Offered(c, p) && c.tracks[u].stream == s;
      assert u in Available(c, p)[s].tracks;
    }
  }

  /** Nothing about the participant's own tracks shows in what it is offered. */
  lemma OwnTracksDoNotMatter(c: Conference, d: Conference, p: ParticipantID)
    requires c.metadata == d.metadata
    requires forall t :: t in c.tracks && c.tracks[t].owner != p ==>
               t in d.tracks && d.tracks[t].owner != p && d.tracks[t].stream == c.tracks[t].stream
               && d.tracks[t].kind == c.tracks[t].kind
    requires forall t :: t in d.tracks && d.tracks[t].owner != p ==> t in c.tracks && c.tracks[t].owner != p
    ensures Available(c, p) == Available(d, p)
  {
    assert Offered(c, p) == Offered(d, p);
    SameStreams(c, d, p);
    forall s | s in OfferedStreams(c, p) ensures OfferedOn(c, p, s) == OfferedOn(d, p, s) {
    }
  }

  lemma SameStreams(c: Conference, d: Conference, p: ParticipantID)
    requires Offered(c, p) == Offered(d, p)
    requires forall t :: t in Offered(c, p) ==> d.tracks[t].stream == c.tracks[t].stream
    ensures OfferedStreams(c, p) == OfferedStreams(d, p)
  {
    forall s ensures s in OfferedStreams(c, p) <==> s in OfferedStreams(d, p) {
      if s in OfferedStreams(c, p) {
        var t :| t in Offered(c, p) && c.tracks[t].stream == s;
        assert t in Offered(d, p) && d.tracks[t].stream == s;
      }
      if s in OfferedStreams(d, p) {
        var t :| t in Offered(d, p) && d.tracks[t].stream == s;
        assert t in Offered(c, p) && c.tracks[t].stream == s;
      }
    }
  }

  /** New metadata withdraws nothing: what was on offer stays, and tracks whose stream is described for the first time
      join it. A stream is shown as the message describes it, and as before if the message does not mention it. */
  lemma MetadataOnlyAdds(c: Conference, streams: map<StreamID, StreamMetadata>, flat: map<TrackID, Metadata>,
                         p: ParticipantID, s: StreamID)
    ensures var d := UpdateMetadata(c, streams, flat);
            && Offered(d, p) ==
               Offered(c, p) + set t | t in c.tracks && c.tracks[t].owner != p && c.tracks[t].stream in streams
            && OfferedOn(c, p, s).Items <= OfferedOn(d, p, s).Items
            && (s in c.metadata ==> OfferedOn(d, p, s) == OfferedOn(c, p, s))
            && (s in Available(d, p) ==>
                  var described := if s in streams then streams[s] else c.metadata[s];
                  Available(d, p)[s] == described.(tracks := OfferedOn(d, p, s)))
  {
    var d := UpdateMetadata(c, streams, flat);
    assert forall t :: t in d.tracks <==> t in c.tracks;
    forall t | t in c.tracks
      ensures d.tracks[t].owner == c.tracks[t].owner && d.tracks[t].stream == c.tracks[t].stream
      ensures d.tracks[t].kind == c.tracks[t].kind
    {
    }
  }

  // ---------------------------------------------------------------------------------------------
  // Departures
  // ---------------------------------------------------------------------------------------------

  /** What a departure leaves behind: the others' tracks, and the metadata of streams that were not the participant's.
      */
  ghost predicate Departed(c: Conference, d: Conference, id: ParticipantID) {
    && d.metadata == c.metadata - StreamsOf(c, id)
    && (forall t :: t in d.tracks <==> t in c.tracks && c.tracks[t].owner != id)
    && (forall t :: t in d.tracks ==> d.tracks[t] == c.tracks[t].(body := d.tracks[t].body))
  }

  lemma RemoveDeparts(c: Conference, id: ParticipantID)
    requires Inv(c) && id in c.participants && Remove(c, id).Stepped?
    ensures Departed(c, Remove(c, id).conference, id)
  {
  }

  lemma OfferedAfterDeparture(c: Conference, d: Conference, id: ParticipantID, q: ParticipantID, t: TrackID)
    requires Departed(c, d, id) && q != id
    ensures t in Offered(d, q) <==> t in Offered(c, q) && c.tracks[t].stream !in StreamsOf(c, id)
  {
    if t in Offered(c, q) && c.tracks[t].owner == id {
      assert t in OwnedBy(c, id);
    }
  }

  lemma OfferedByOthers(c: Conference, d: Conference, id: ParticipantID, q: ParticipantID)
    requires Departed(c, d, id) && q != id
    ensures Offered(d, q) == set t | t in Offered(c, q) && c.tracks[t].stream !in StreamsOf(c, id)
  {
    forall t ensures t in Offered(d, q) <==> t in Offered(c, q) && c.tracks[t].stream !in StreamsOf(c, id) {
      OfferedAfterDeparture(c, d, id, q, t);
    }
  }

  lemma StreamsAfterDeparture(c: Conference, d: Conference, id: ParticipantID, q: ParticipantID, s: StreamID)
    requires Departed(c, d, id) && q != id
    ensures s in OfferedStreams(d, q) <==> s in OfferedStreams(c, q) && s !in StreamsOf(c, id)
    ensures s in OfferedStreams(d, q) ==> OfferedOn(d, q, s) == OfferedOn(c, q, s)
  {
    OfferedByOthers(c, d, id, q);
    if s in OfferedStreams(c, q) && s !in StreamsOf(c, id) {
      var t :| t in Offered(c, q) && c.tracks[t].stream == s;
      assert t in Offered(d, q) && d.tracks[t].stream == s;
    }
  }

  /** A departure takes from what each other participant is offered the departed participant's streams and nothing
      else. */
  lemma DepartureRemovesStreams(c: Conference, id: ParticipantID, q: ParticipantID)
    requires Inv(c) && id in c.participants && q != id && Remove(c, id).Stepped?
    ensures Available(Remove(c, id).conference, q) == Available(c, q) - StreamsOf(c, id)
    ensures forall s ::
              s in Remove(c, id).conference.metadata <==>
              s in c.metadata && forall t :: t in c.tracks && c.tracks[t].owner == id ==> c.tracks[t].stream != s
  {
    RemoveDeparts(c, id);
    forall s
      ensures s in StreamsOf(c, id) <==> exists t :: t in c.tracks && c.tracks[t].owner == id && c.tracks[t].stream == s
    {
      if t :| t in c.tracks && c.tracks[t].owner == id && c.tracks[t].stream == s { assert t in OwnedBy(c, id); }
    }
    AvailableAfterDeparture(c, Remove(c, id).conference, id, q);
  }

  lemma AvailableAfterDeparture(c: Conference, d: Conference, id: ParticipantID, q: ParticipantID)
    requires Departed(c, d, id) && q != id
    ensures Available(d, q) == Available(c, q) - StreamsOf(c, id)
  {
    forall s
      ensures s in OfferedStreams(d, q) <==> s in OfferedStreams(c, q) && s !in StreamsOf(c, id)
      ensures s in OfferedStreams(d, q) ==> OfferedOn(d, q, s) == OfferedOn(c, q, s)
    {
      StreamsAfterDeparture(c, d, id, q, s);
    }
  }

  /** No stream of the participant holds a track that somebody else offers to q. */
  ghost predicate StreamsNotShared(c: Conference, id: ParticipantID, q: ParticipantID) {
    forall t, u ::
      && t in c.tracks && u in c.tracks && c.tracks[t].owner == id && c.tracks[u].owner !in {id, q}
      && c.tracks[u].stream in c.metadata
      ==> c.tracks[t].stream != c.tracks[u].stream
  }

  /** The others' tracks stay on offer exactly when no stream is shared between owners; a shared one goes with whoever
      leaves first. */
  lemma DepartureKeepsOthersIff(c: Conference, id: ParticipantID, q: ParticipantID)
    requires Inv(c) && id in c.participants && q != id && Remove(c, id).Stepped?
    ensures (forall u :: u in Offered(c, q) && c.tracks[u].owner != id ==> u in Offered(Remove(c, id).conference, q))
            <==> StreamsNotShared(c, id, q)
  {
    RemoveDeparts(c, id);
    KeptIffNotShared(c, Remove(c, id).conference, id, q);
  }

  lemma KeptIffNotShared(c: Conference, d: Conference, id: ParticipantID, q: ParticipantID)
    requires Departed(c, d, id) && q != id
    ensures (forall u :: u in Offered(c, q) && c.tracks[u].owner != id ==> u in Offered(d, q))
            <==> StreamsNotShared(c, id, q)
  {
    OfferedByOthers(c, d, id, q);
    if !StreamsNotShared(c, id, q) {
      var t, u :| && t in c.tracks && u in c.tracks && c.tracks[t].owner == id && c.tracks[u].owner !in {id, q}
                  && c.tracks[u].stream in c.metadata && c.tracks[t].stream == c.tracks[u].stream;
      assert u in Offered(c, q) && t in OwnedBy(c, id) && c.tracks[u].stream in StreamsOf(c, id);
    }
  }

  /** The owner goes: by leaving, or by joining again under another session. */
  predicate OwnerGoes(c: Conference, a: Action, t: TrackID)
    requires t in c.tracks && c.tracks[t].owner in c.participants
  {
    match a
    case Leave(id) => id == c.tracks[t].owner
    case Join(id, session, _, _, _) => id == c.tracks[t].owner && c.participants[id].session != session
    case _ => false
  }

  /** A track leaves exactly when its end is reported under its ID or its owner goes. */
  lemma TrackLeavesIff(c: Conference, a: Action, t: TrackID)
    requires Inv(c) && Enabled(c, a) && Next(c, a).Stepped? && t in c.tracks
    ensures t !in Next(c, a).conference.tracks <==> a == TrackGone(t) || OwnerGoes(c, a, t)
  {
    match a
    case Leave(id) => LeaveTakesIff(c, id, t);
    case Join(_, _, _, _, _) => JoinTakesIff(c, a, t);
    case TrackGone(track) => ReportTakesIff(c, track, t);
    case _ => QuietStepTakesNothing(c, a, t);
  }

  lemma LeaveTakesIff(c: Conference, id: ParticipantID, t: TrackID)
    requires Inv(c) && Remove(c, id).Stepped? && t in c.tracks
    ensures t !in Remove(c, id).conference.tracks <==> id == c.tracks[t].owner
  {
    if id in c.participants { RemoveDeparts(c, id); }
  }

  lemma ReportTakesIff(c: Conference, track: TrackID, t: TrackID)
    requires t in c.tracks
    ensures t !in RemovePublishedTrack(c, track).tracks <==> t == track
  {
  }

  lemma JoinTakesIff(c: Conference, a: Action, t: TrackID)
    requires Inv(c) && a.Join? && OnNewParticipant(c, a).Stepped? && t in c.tracks
    ensures t !in OnNewParticipant(c, a).conference.tracks <==> OwnerGoes(c, a, t)
  {
    if a.id in c.participants && c.participants[a.id].session != a.session { RemoveDeparts(c, a.id); }
  }

  lemma QuietStepTakesNothing(c: Conference, a: Action, t: TrackID)
    requires BodiesInv(c) && Enabled(c, a) && Next(c, a).Stepped? && t in c.tracks
    requires !a.Leave? && !a.Join? && !a.TrackGone?
    ensures t in Next(c, a).conference.tracks
  {
  }

  ghost predicate KeptOrStopped(c: Conference, d: Conference, t: TrackID)
    requires t in c.tracks
  {
    if t in d.tracks then d.tracks[t] == c.tracks[t].(body := d.tracks[t].body)
    else c.tracks[t].body.track.done || c.tracks[t].stopSignal in d.stopped
  }

  lemma RemovalKeepsOrStops(c: Conference, id: ParticipantID, t: TrackID)
    requires Inv(c) && Remove(c, id).Stepped? && t in c.tracks
    ensures KeptOrStopped(c, Remove(c, id).conference, t)
  {
    if id in c.participants && c.tracks[t].owner == id && !c.tracks[t].body.track.done {
      assert t in OwnedBy(c, id) && c.tracks[t].stopSignal in SignalsOf(c, id);
    }
  }

  lemma JoinKeepsOrStops(c: Conference, a: Action, t: TrackID)
    requires Inv(c) && a.Join? && OnNewParticipant(c, a).Stepped? && t in c.tracks
    ensures KeptOrStopped(c, OnNewParticipant(c, a).conference, t)
  {
    var isNew := a.id in c.participants && c.participants[a.id].session != a.session;
    if isNew { RemovalKeepsOrStops(c, a.id, t); }
    var c' := if isNew then Remove(c, a.id).conference else c;
    assert KeptOrStopped(c, c', t);
    assert t in c'.tracks ==> KeptOrStopped(c', UpdateMetadata(Admit(c', a.id, a.session), a.streams, a.flat), t);
  }

  /** A track that stays keeps its owner, stream, kind and stop signal; one that leaves has its publishers told to stop,
      unless they are done. */
  lemma TrackKeptOrStopped(c: Conference, a: Action, t: TrackID)
    requires Inv(c) && Enabled(c, a) && Next(c, a).Stepped? && t in c.tracks
    ensures KeptOrStopped(c, Next(c, a).conference, t)
  {
    match a
    case Leave(id) => RemovalKeepsOrStops(c, id, t);
    case Join(_, _, _, _, _) => JoinKeepsOrStops(c, a, t);
    case _ => QuietStepKeepsOrStops(c, a, t);
  }

  lemma QuietStepKeepsOrStops(c: Conference, a: Action, t: TrackID)
    requires Inv(c) && Enabled(c, a) && Next(c, a).Stepped? && t in c.tracks && !a.Leave? && !a.Join?
    ensures KeptOrStopped(c, Next(c, a).conference, t)
  {
    match a
    case Publish(_, track, _, _, _, publisher, _) => if track in c.tracks { TrackStepKeeps(c, track, publisher, t); }
    case Subscribe(track, request) => if track in c.tracks { TrackStepKeeps(c, track, request, t); }
    case Unsubscribe(id, track) =>
      var step: TrackSystem.Action<ParticipantID, nat, nat> := TrackSystem.DoUnsubscribe(id);
      if track in c.tracks { TrackStepKeeps(c, track, step, t); }
    case Internal(track, step) => TrackStepKeeps(c, track, step, t);
    case _ =>
  }

  lemma TrackStepKeeps(c: Conference, track: TrackID, step: TrackSystem.Action<ParticipantID, nat, nat>, t: TrackID)
    requires Inv(c) && t in c.tracks && track in c.tracks && TrackSystem.Enabled(c.tracks[track].body, step)
    ensures StepTrack(c, track, step).Stepped? ==> KeptOrStopped(c, StepTrack(c, track, step).conference, t)
  {
  }

  lemma OnlyPublishAddsTracks(c: Conference, a: Action, t: TrackID)
    requires Inv(c) && Enabled(c, a) && Next(c, a).Stepped? && t !in c.tracks && !(a.Publish? && a.track == t)
    ensures t !in Next(c, a).conference.tracks
  {
  }

  /** A track that left is offered to nobody, however the run goes on, until it is published again. */
  lemma {:induction false} StaysWithdrawn(
    c: Conference, actions: seq<Action>, d: Conference, t: TrackID, p: ParticipantID, s: StreamID
  )
    requires Inv(c) && Path(c, actions, d) && t !in c.tracks
    requires forall i :: 0 <= i < |actions| ==> !(actions[i].Publish? && actions[i].track == t)
    ensures t !in d.tracks && (s in Available(d, p) ==> t !in Available(d, p)[s].tracks)
    decreases |actions|
  {
    if actions == [] {
      OfferedIff(d, p, s, t);
    } else {
      StepKeepsInv(c, actions[0]);
      OnlyPublishAddsTracks(c, actions[0], t);
      StaysWithdrawn(Next(c, actions[0]).conference, actions[1..], d, t, p, s);
    }
  }

  /** Once a track's end is reported or its owner leaves or is replaced, the track is withdrawn for good, until somebody
      publishes it again. */
  lemma DepartureWithdraws(
    c: Conference, a: Action, actions: seq<Action>, d: Conference, t: TrackID, p: ParticipantID, s: StreamID
  )
    requires Inv(c) && t in c.tracks && (a == TrackGone(t) || OwnerGoes(c, a, t))
    requires Path(c, [a] + actions, d)
    requires forall i :: 0 <= i < |actions| ==> !(actions[i].Publish? && actions[i].track == t)
    ensures t !in d.tracks && (s in Available(d, p) ==> t !in Available(d, p)[s].tracks)
  {
    FirstStep(c, a, actions, d);
    StepKeepsInv(c, a);
    TrackLeavesIff(c, a, t);
    StaysWithdrawn(Next(c, a).conference, actions, d, t, p, s);
  }

  lemma FirstStep(c: Conference, a: Action, actions: seq<Action>, d: Conference)
    requires Path(c, [a] + actions, d)
    ensures BodiesInv(c) && Enabled(c, a) && KeepsUnmixed(c, a) && Next(c, a).Stepped?
    ensures Path(Next(c, a).conference, actions, d)
  {
    var path := [a] + actions;
    assert path[0] == a && path[1..] == actions;
  }

  lemma BothSteps(c: Conference, a: Action, b: Action, d: Conference)
    requires Path(c, [a, b], d)
    ensures BodiesInv(c) && Enabled(c, a) && KeepsUnmixed(c, a) && Next(c, a).Stepped?
    ensures var c' := Next(c, a).conference;
            BodiesInv(c') && Enabled(c', b) && KeepsUnmixed(c', b) && Next(c', b) == Stepped(d)
  {
    assert [a, b] == [a] + [b] && [b] == [b] + [];
    FirstStep(c, a, [b], d);
    FirstStep(Next(c, a).conference, b, [], d);
  }

  // ---------------------------------------------------------------------------------------------
  // Reports of a track's end
  // ---------------------------------------------------------------------------------------------

  /** A report tells running publishers to stop exactly when its track ID is in use by a track that is not done: it
      carries nothing else by which to recognise the track that ended. */
  lemma ReportStopsIff(c: Conference, t: TrackID)
    requires Inv(c)
    ensures RemovePublishedTrack(c, t).stopped != c.stopped <==> t in c.tracks && !c.tracks[t].body.track.done
    ensures t in c.tracks && !c.tracks[t].body.track.done ==>
              t !in RemovePublishedTrack(c, t).tracks && c.tracks[t].stopSignal in RemovePublishedTrack(c, t).stopped
  {
    if t in c.tracks && !c.tracks[t].body.track.done {
      assert c.tracks[t].stopSignal !in c.stopped;
    }
  }

  /** So when the owner leaves or is replaced and the track is published again before the report of its end arrives, the
      report removes the successor, which has a stop signal of its own, and stops its publishers while they run. */
  lemma LateReportRemovesSuccessor(c: Conference, t: TrackID, a: Action, again: Action, d: Conference)
    requires Inv(c) && t in c.tracks && OwnerGoes(c, a, t)
    requires again.Publish? && again.track == t && Path(c, [a, again], d) && t in d.tracks
    ensures Inv(d) && d.tracks[t].owner == again.id && d.tracks[t].stopSignal != c.tracks[t].stopSignal
    ensures t !in RemovePublishedTrack(d, t).tracks && d.tracks[t].stopSignal in RemovePublishedTrack(d, t).stopped
  {
    BothSteps(c, a, again, d);
    StepKeepsInv(c, a);
    TrackLeavesIff(c, a, t);
    ChannelsGrow(c, a);
    PublishAdds(Next(c, a).conference, again);
    ReportStopsIff(d, t);
  }

  /** The likeliest way there: the owner comes back under another session and publishes the track again. */
  lemma RejoinRepublishes(c: Conference, t: TrackID, join: Action, again: Action, d: Conference)
    requires Inv(c) && t in c.tracks && join.Join? && OwnerGoes(c, join, t) && join.peerOk
    requires again.Publish? && again.track == t && again.id == c.tracks[t].owner && again.ok
    requires Path(c, [join, again], d)
    ensures t in d.tracks && d.tracks[t].owner == c.tracks[t].owner
    ensures t !in RemovePublishedTrack(d, t).tracks && d.tracks[t].stopSignal in RemovePublishedTrack(d, t).stopped
  {
    RejoinPublishes(c, t, join, again, d);
    LateReportRemovesSuccessor(c, t, join, again, d);
  }

  lemma RejoinPublishes(c: Conference, t: TrackID, join: Action, again: Action, d: Conference)
    requires Inv(c) && t in c.tracks && join.Join? && OwnerGoes(c, join, t) && join.peerOk
    requires again.Publish? && again.track == t && again.id == c.tracks[t].owner && again.ok
    requires Path(c, [join, again], d)
    ensures t in d.tracks && d.tracks[t].owner == c.tracks[t].owner
  {
    BothSteps(c, join, again, d);
    StepKeepsInv(c, join);
    TrackLeavesIff(c, join, t);
    JoinAdmits(c, join);
    PublishAdds(Next(c, join).conference, again);
  }

  lemma JoinAdmits(c: Conference, a: Action)
    requires BodiesInv(c) && a.Join? && a.peerOk && OnNewParticipant(c, a).Stepped?
    ensures a.id in OnNewParticipant(c, a).conference.participants
  {
  }

  lemma ChannelsGrow(c: Conference, a: Action)
    requires BodiesInv(c) && Enabled(c, a) && Next(c, a).Stepped?
    ensures c.channels <= Next(c, a).conference.channels
  {
  }

  /** A publication under an unused ID adds a track exactly when the publisher is a participant and the track can be
      made; the new track has a stop signal never used before. */
  lemma PublishAdds(c: Conference, a: Action)
    requires Inv(c) && a.Publish? && a.track !in c.tracks && Enabled(c, a)
    ensures Next(c, a).Stepped?
    ensures var d := Next(c, a).conference;
            && Inv(d) && (a.track in d.tracks <==> a.id in c.participants && a.ok)
            && (a.track in d.tracks ==>
                  && d.tracks[a.track].owner == a.id && d.tracks[a.track].stopSignal == c.channels
                  && !d.tracks[a.track].body.track.done)
  {
    StepKeepsInv(c, a);
  }

  /** A departure ends the process exactly when, on some track that stays, the participant's video subscription stands
      on a layer without a publisher. */
  lemma LeaveCrashesIff(c: Conference, id: ParticipantID)
    requires Inv(c) && id in c.participants
    ensures Next(c, Leave(id)).Crashed? <==>
            exists t :: t in c.tracks && c.tracks[t].owner != id && CannotLeave(c.tracks[t], id)
  {
    forall t | t in c.tracks
      ensures TrackSystem.Inv(c.tracks[t].body) && (TakingOffCrashes(c.tracks[t], id) <==> CannotLeave(c.tracks[t], id))
    {
      assert TrackSystem.Inv(c.tracks[t].body);
      TakingOffCrashesIff(c.tracks[t], id);
    }
  }

  // ---------------------------------------------------------------------------------------------
  // Grouping tracks by stream, one track at a time
  // ---------------------------------------------------------------------------------------------

  ghost predicate Groupable(c: Conference, offered: set<TrackID>) {
    forall t :: t in offered ==> t in c.tracks && c.tracks[t].stream in c.metadata
  }

  ghost function StreamsWith(c: Conference, offered: set<TrackID>): set<StreamID>
    requires Groupable(c, offered)
  {
    set t | t in offered :: c.tracks[t].stream
  }

  ghost function Entries(c: Conference, offered: set<TrackID>, s: StreamID): map<TrackID, TrackDescription>
    requires Groupable(c, offered)
  {
    map t | t in offered && c.tracks[t].stream == s :: Kinded(c.tracks[t].kind)
  }

  ghost function Grouped(c: Conference, offered: set<TrackID>): map<StreamID, StreamMetadata>
    requires Groupable(c, offered)
  {
    map s | s in StreamsWith(c, offered) :: c.metadata[s].(tracks := Entries(c, offered, s))
  }

  lemma GroupedIsAvailable(c: Conference, p: ParticipantID)
    ensures Groupable(c, Offered(c, p)) && Grouped(c, Offered(c, p)) == Available(c, p)
  {
    assert StreamsWith(c, Offered(c, p)) == OfferedStreams(c, p);
    forall s | s in OfferedStreams(c, p) ensures Entries(c, Offered(c, p), s) == OfferedOn(c, p, s) {
    }
  }

  ghost function WithTrack(s: StreamMetadata, t: TrackID, description: TrackDescription): StreamMetadata {
    s.(tracks := s.tracks[t := description])
  }

  /** One more track goes under its stream and touches no other. */
  lemma OneMoreGrouped(c: Conference, offered: set<TrackID>, t: TrackID)
    requires Groupable(c, offered) && t in c.tracks && c.tracks[t].stream in c.metadata
    ensures Groupable(c, offered + {t})
    ensures var s, before := c.tracks[t].stream, Grouped(c, offered);
            var stream := if s in before then before[s] else c.metadata[s].(tracks := map[]);
            Grouped(c, offered + {t}) == before[s := WithTrack(stream, t, Kinded(c.tracks[t].kind))]
  {
    var s, more := c.tracks[t].stream, offered + {t};
    assert StreamsWith(c, more) == StreamsWith(c, offered) + {s};
    forall r ensures Entries(c, more, r) ==
                     if r == s then Entries(c, offered, r)[t := Kinded(c.tracks[t].kind)] else Entries(c, offered, r)
    {
    }
    if s !in StreamsWith(c, offered) {
      assert Entries(c, offered, s) == map[];
    }
  }
}

/** A conference on values: participants, the tracks they publish, who subscribes to them, and the stream metadata. */
module ConferenceModel {
  import opened Layers
  import TrackModel
  import TrackSystem

  datatype ParticipantID = ParticipantID(user: string, device: string, call: string)

  type TrackID = string
  type StreamID = string

  /** `pong` identifies the participant's pong channel. */
  datatype Participant = Participant(session: string, pong: nat)

  type Body = TrackSystem.System<ParticipantID, nat, nat>

  /** `stopSignal` identifies the channel that tells the track's publishers to stop. */
  datatype Published = Published(
    owner: ParticipantID,
    stream: StreamID,
    kind: TrackModel.Kind,
    stopSignal: nat,
    body: Body)
  {
    function Subscribers(): set<ParticipantID> {
      body.track.subscriptions.Keys
    }
  }

  datatype TrackDescription = TrackDescription(kind: TrackModel.Kind, width: int, height: int)

  datatype StreamMetadata = StreamMetadata(
    purpose: string,
    audioMuted: bool,
    videoMuted: bool,
    tracks: map<TrackID, TrackDescription>)

  /** `closedPongs` and `stopped` are the channels closed so far; `misused` says that one was closed twice or that a
      pong was sent on a closed one, which ends the process. Channels are numbered from `channels` on. */
  datatype Conference = Conference(
    participants: map<ParticipantID, Participant>,
    tracks: map<TrackID, Published>,
    metadata: map<StreamID, StreamMetadata>,
    closedPongs: set<nat>,
    stopped: set<nat>,
    misused: bool,
    channels: nat)

  datatype Result = Stepped(conference: Conference) | Crashed

  datatype Action =
    | Join(id: ParticipantID, session: string, peerOk: bool,
           streams: map<StreamID, StreamMetadata>, flat: map<TrackID, Metadata>)
    | Leave(id: ParticipantID)
    | Publish(id: ParticipantID, track: TrackID, stream: StreamID, kind: TrackModel.Kind, metadata: Metadata,
              publisher: TrackSystem.Action<ParticipantID, nat, nat>, ok: bool)
    | TrackGone(track: TrackID)
    | Subscribe(track: TrackID, request: TrackSystem.Action<ParticipantID, nat, nat>)
    | Unsubscribe(id: ParticipantID, track: TrackID)
    | Pong(id: ParticipantID)
    | MetadataChanged(streams: map<StreamID, StreamMetadata>, flat: map<TrackID, Metadata>)
    | Internal(track: TrackID, step: TrackSystem.Action<ParticipantID, nat, nat>)

  // ---------------------------------------------------------------------------------------------
  // Operations of the tracker
  // ---------------------------------------------------------------------------------------------

  function WithBody(t: Published, body: Body): Published {
    t.(body := body)
  }

  ghost predicate BodiesInv(c: Conference) {
    forall t {:trigger TrackSystem.Inv(c.tracks[t].body)} :: t in c.tracks ==> TrackSystem.Inv(c.tracks[t].body)
  }

  /** One step of one track. */
  function StepTrack(c: Conference, track: TrackID, step: TrackSystem.Action<ParticipantID, nat, nat>): Result
    requires BodiesInv(c)
    requires track in c.tracks && TrackSystem.Enabled(c.tracks[track].body, step)
  {
    assert TrackSystem.Inv(c.tracks[track].body);
    match TrackSystem.Next(c.tracks[track].body, step)
    case Stepped(body) => Stepped(c.(tracks := c.tracks[track := WithBody(c.tracks[track], body)]))
    case Crashed => Crashed
  }

  /** Stopping a track closes its signal unless the track is done already. */
  function ToClose(t: Published): set<nat> {
    if t.body.track.done then {} else {t.stopSignal}
  }

  function RemovePublishedTrack(c: Conference, track: TrackID): Conference {
    if track !in c.tracks then c
    else
      var closing := ToClose(c.tracks[track]);
      c.(tracks := c.tracks - {track}, stopped := c.stopped + closing, misused := c.misused || !(closing !! c.stopped))
  }

  function OwnedBy(c: Conference, id: ParticipantID): set<TrackID> {
    set t | t in c.tracks && c.tracks[t].owner == id
  }

  function StreamsOf(c: Conference, id: ParticipantID): set<StreamID> {
    set t | t in OwnedBy(c, id) :: c.tracks[t].stream
  }

  function SignalsOf(c: Conference, id: ParticipantID): set<nat> {
    set t | t in OwnedBy(c, id) && !c.tracks[t].body.track.done :: c.tracks[t].stopSignal
  }

  /** Taking the participant off the track calls a publisher that is not there. */
  predicate TakingOffCrashes(t: Published, id: ParticipantID)
    requires TrackSystem.Inv(t.body)
  {
    var step := TrackSystem.DoUnsubscribe(id);
    TrackSystem.Next(t.body, step).Crashed?
  }

  predicate LeavingCrashes(c: Conference, id: ParticipantID)
    requires BodiesInv(c)
  {
    exists t ::
      && t in c.tracks && c.tracks[t].owner != id
      && (assert TrackSystem.Inv(c.tracks[t].body); TakingOffCrashes(c.tracks[t], id))
  }

  /** The subscription cannot be taken back: its layer has no publisher. */
  predicate CannotLeave(t: Published, id: ParticipantID) {
    && t.body.track.kind == TrackModel.Video
    && id in t.body.track.subscriptions && t.body.track.subscriptions[id] in t.body.track.layerOf
    && t.body.track.layerOf[t.body.track.subscriptions[id]] !in t.body.track.publishers
  }

  lemma TakingOffCrashesIff(t: Published, id: ParticipantID)
    requires TrackSystem.Inv(t.body)
    ensures TakingOffCrashes(t, id) <==> CannotLeave(t, id)
  {
    TrackModel.UnsubscribePanicsIff(t.body.track, id);
  }

  function BodyWithout(body: Body, id: ParticipantID): Body
    requires TrackSystem.Inv(body)
  {
    var step := TrackSystem.DoUnsubscribe(id);
    match TrackSystem.Next(body, step)
    case Stepped(body') => body'
    case Crashed => body
  }

  /** The others' tracks, with the participant off all of them. */
  function TracksWithout(tracks: map<TrackID, Published>, id: ParticipantID): map<TrackID, Published>
    requires forall t :: t in tracks ==> TrackSystem.Inv(tracks[t].body)
  {
    map t | t in tracks && tracks[t].owner != id :: WithBody(tracks[t], BodyWithout(tracks[t].body, id))
  }

  /** The participant and its tracks are gone, and it is off every track that stays. */
  function RemoveParticipant(c: Conference, id: ParticipantID): Result
    requires BodiesInv(c)
  {
    if id !in c.participants then Stepped(c)
    else if LeavingCrashes(c, id) then Crashed
    else
      var pong := c.participants[id].pong;
      Stepped(c.(
        participants := c.participants - {id},
        tracks := TracksWithout(c.tracks, id),
        closedPongs := c.closedPongs + {pong},
        stopped := c.stopped + SignalsOf(c, id),
        misused := c.misused || pong in c.closedPongs || !(SignalsOf(c, id) !! c.stopped)))
  }

  function AddPublishedTrack(c: Conference, a: Action): Result
    requires BodiesInv(c) && a.Publish? && a.publisher.DoAddPublisher?
    requires a.track in c.tracks ==> TrackSystem.Enabled(c.tracks[a.track].body, a.publisher)
  {
    if a.id !in c.participants then Stepped(c)
    else if a.track in c.tracks then StepTrack(c, a.track, a.publisher)
    else if !a.ok then Stepped(c)
    else
      var body := NewBody(a.kind, a.metadata, a.publisher);
      Stepped(c.(tracks := c.tracks[a.track := Published(a.id, a.stream, a.kind, c.channels, body)],
                 channels := c.channels + 1))
  }

  /** A new track; a video track starts with its first publisher. */
  function NewBody(
    kind: TrackModel.Kind, metadata: Metadata, publisher: TrackSystem.Action<ParticipantID, nat, nat>
  ): Body
    requires publisher.DoAddPublisher?
  {
    var t := TrackModel.Track(kind, false, map[], map[], metadata, map[], map[], map[], map[]);
    if kind == TrackModel.Video
    then TrackSystem.System(TrackModel.WithPublisher(t, publisher.layer, publisher.pub), {publisher.pub}, {}, {})
    else TrackSystem.System(t, {}, {}, {})
  }

  // ---------------------------------------------------------------------------------------------
  // Operations of the conference
  // ---------------------------------------------------------------------------------------------

  /** Removing a participant also forgets the streams its tracks belonged to. */
  function Remove(c: Conference, id: ParticipantID): Result
    requires BodiesInv(c)
  {
    match RemoveParticipant(c, id)
    case Crashed => Crashed
    case Stepped(c') =>
      Stepped(if id in c.participants then c'.(metadata := c.metadata - StreamsOf(c, id)) else c')
  }

  /** What the streams say about one track. */
  function Described(s: StreamMetadata, track: TrackID): Metadata
    requires track in s.tracks
  {
    var d := s.tracks[track];
    Metadata(d.width, d.height,
             match d.kind
             case Audio => s.audioMuted
             case Video => s.videoMuted
             case Unsupported => false)
  }

  /** `flat` lists the tracks of the streams; when several streams describe a track, any of them may win. */
  ghost predicate Flattens(streams: map<StreamID, StreamMetadata>, flat: map<TrackID, Metadata>) {
    && (forall t :: t in flat ==>
          exists s :: s in streams && t in streams[s].tracks && flat[t] == Described(streams[s], t))
    && (forall s, t :: s in streams && t in streams[s].tracks ==> t in flat)
  }

  /** What is known about a track when it is published: what one of the streams says, or nothing. */
  ghost predicate KnownMetadata(streams: map<StreamID, StreamMetadata>, track: TrackID, metadata: Metadata) {
    if exists s :: s in streams && track in streams[s].tracks
    then exists s :: s in streams && track in streams[s].tracks && metadata == Described(streams[s], track)
    else metadata == Metadata(0, 0, false)
  }

  function UpdateMetadata(
    c: Conference, streams: map<StreamID, StreamMetadata>, flat: map<TrackID, Metadata>
  ): Conference {
    c.(metadata := c.metadata + streams,
       tracks := map t | t in c.tracks :: if t in flat then WithMetadata(c.tracks[t], flat[t]) else c.tracks[t])
  }

  function WithMetadata(t: Published, metadata: Metadata): Published {
    WithBody(t, t.body.(track := t.body.track.(metadata := metadata)))
  }

  function Admit(c: Conference, id: ParticipantID, session: string): Conference {
    if id in c.participants then c
    else c.(participants := c.participants[id := Participant(session, c.channels)], channels := c.channels + 1)
  }

  /** An invitation: a session that replaces another one ends it first; a repeated one is renegotiated. */
  function OnNewParticipant(c: Conference, a: Action): Result
    requires BodiesInv(c) && a.Join?
  {
    var first := if a.id in c.participants && c.participants[a.id].session != a.session then Remove(c, a.id)
                 else Stepped(c);
    match first
    case Crashed => Crashed
    case Stepped(c') =>
      if !a.peerOk then Stepped(c')
      else Stepped(UpdateMetadata(Admit(c', a.id, a.session), a.streams, a.flat))
  }

  predicate GoroutineStep(step: TrackSystem.Action<ParticipantID, nat, nat>) {
    step.DoStalled? || step.DoRecovered? || step.DoStopped? || step.DoEnded? || step.DoWindDown?
  }

  ghost predicate Enabled(c: Conference, a: Action) {
    match a
    case Join(_, _, _, streams, flat) => Flattens(streams, flat)
    case Publish(_, track, _, _, metadata, publisher, _) =>
      && publisher.DoAddPublisher?
      && KnownMetadata(c.metadata, track, metadata)
      && (track in c.tracks ==> TrackSystem.Enabled(c.tracks[track].body, publisher))
    case Subscribe(track, request) =>
      request.DoSubscribe? && (track in c.tracks ==> TrackSystem.Enabled(c.tracks[track].body, request))
    case MetadataChanged(streams, flat) => Flattens(streams, flat)
    case Internal(track, step) =>
      track in c.tracks && GoroutineStep(step) && TrackSystem.Enabled(c.tracks[track].body, step)
    case _ => true
  }

  function Next(c: Conference, a: Action): Result
    requires BodiesInv(c) && Enabled(c, a)
  {
    match a
    case Join(_, _, _, _, _) => OnNewParticipant(c, a)
    case Leave(id) => Remove(c, id)
    case Publish(_, _, _, _, _, _, _) => AddPublishedTrack(c, a)
    case TrackGone(track) => Stepped(RemovePublishedTrack(c, track))
    case Subscribe(track, request) =>
      if request.id in c.participants && track in c.tracks then StepTrack(c, track, request) else Stepped(c)
    case Unsubscribe(id, track) =>
      if track in c.tracks then
        var step := TrackSystem.DoUnsubscribe(id);
        StepTrack(c, track, step)
      else Stepped(c)
    case Pong(id) =>
      Stepped(if id in c.participants then c.(misused := c.misused || c.participants[id].pong in c.closedPongs) else c)
    case MetadataChanged(streams, flat) => Stepped(UpdateMetadata(c, streams, flat))
    case Internal(track, step) => StepTrack(c, track, step)
  }

  // ---------------------------------------------------------------------------------------------
  // Invariants
  // ---------------------------------------------------------------------------------------------

  /** Owners and subscribers of the published tracks are participants. */
  ghost predicate Synchronized(c: Conference) {
    forall t :: t in c.tracks ==>
      c.tracks[t].owner in c.participants && c.tracks[t].Subscribers() <= c.participants.Keys
  }

  /** Everything in the maps has channels of its own that are still open, and nothing has been misused. */
  ghost predicate ChannelsOpen(c: Conference) {
    && !c.misused
    && (forall h :: h in c.closedPongs || h in c.stopped ==> h < c.channels)
    && (forall p :: p in c.participants ==>
          c.participants[p].pong < c.channels && c.participants[p].pong !in c.closedPongs)
    && (forall t :: t in c.tracks ==> c.tracks[t].stopSignal < c.channels && c.tracks[t].stopSignal !in c.stopped)
    && (forall p, q ::
          p in c.participants && q in c.participants && c.participants[p].pong == c.participants[q].pong ==> p == q)
    && (forall t, u :: t in c.tracks && u in c.tracks && c.tracks[t].stopSignal == c.tracks[u].stopSignal ==> t == u)
  }

  ghost predicate Inv(c: Conference) {
    BodiesInv(c) && Synchronized(c) && ChannelsOpen(c)
  }

  /** The assumption on publishers, track by track. */
  predicate KeepsUnmixed(c: Conference, a: Action) {
    a.Publish? && a.track in c.tracks ==> TrackSystem.KeepsUnmixed(c.tracks[a.track].body, a.publisher)
  }

  /** A track's step adds at most the subscriber that asked. */
  lemma StepAddsSubscriber(body: Body, step: TrackSystem.Action<ParticipantID, nat, nat>)
    requires TrackSystem.Typed(body) && TrackSystem.Enabled(body, step) && TrackSystem.Next(body, step).Stepped?
    ensures TrackSystem.Next(body, step).system.track.subscriptions.Keys
            <= body.track.subscriptions.Keys + if step.DoSubscribe? then {step.id} else {}
    ensures step.DoUnsubscribe? ==> step.id !in TrackSystem.Next(body, step).system.track.subscriptions
  {
    if step.DoSubscribe? && TrackModel.Subscribe(body.track, step.id, step.s, step.request).Done? {
      SubscribeAddsSubscriber(body.track, step.id, step.s, step.request);
    }
  }

  lemma SubscribeAddsSubscriber(
    t: TrackModel.Track<ParticipantID, nat, nat>, id: ParticipantID, s: nat, r: TrackModel.Request<nat>
  )
    requires t.WellFormed() && TrackModel.Subscribe(t, id, s, r).Done?
    ensures TrackModel.Subscribe(t, id, s, r).track.subscriptions.Keys <= t.subscriptions.Keys + {id}
  {
  }

  lemma StepTrackKeepsInv(c: Conference, track: TrackID, step: TrackSystem.Action<ParticipantID, nat, nat>)
    requires Inv(c) && track in c.tracks && TrackSystem.Enabled(c.tracks[track].body, step)
    requires TrackSystem.KeepsUnmixed(c.tracks[track].body, step)
    requires step.DoSubscribe? ==> step.id in c.participants
    requires StepTrack(c, track, step).Stepped?
    ensures Inv(StepTrack(c, track, step).conference)
  {
    TrackSystem.StepKeepsInv(c.tracks[track].body, step);
    StepAddsSubscriber(c.tracks[track].body, step);
    ReplacingBodyKeepsInv(c, track, TrackSystem.Next(c.tracks[track].body, step).system);
  }

  lemma ReplacingBodyKeepsInv(c: Conference, track: TrackID, body: Body)
    requires Inv(c) && track in c.tracks && TrackSystem.Inv(body)
    requires body.track.subscriptions.Keys <= c.participants.Keys
    ensures Inv(c.(tracks := c.tracks[track := WithBody(c.tracks[track], body)]))
  {
  }

  lemma BodyWithoutKeepsInv(t: Published, id: ParticipantID)
    requires TrackSystem.Inv(t.body) && !TakingOffCrashes(t, id)
    ensures TrackSystem.Inv(BodyWithout(t.body, id))
    ensures BodyWithout(t.body, id).track.subscriptions.Keys == t.Subscribers() - {id}
  {
    var step: TrackSystem.Action<ParticipantID, nat, nat> := TrackSystem.DoUnsubscribe(id);
    TrackSystem.StepKeepsInv(t.body, step);
    StepAddsSubscriber(t.body, step);
  }

  lemma RemovalKeepsBodies(c: Conference, id: ParticipantID, t: TrackID)
    requires BodiesInv(c) && id in c.participants && RemoveParticipant(c, id).Stepped?
    requires t in c.tracks && c.tracks[t].owner != id
    ensures TrackSystem.Inv(BodyWithout(c.tracks[t].body, id))
    ensures BodyWithout(c.tracks[t].body, id).track.subscriptions.Keys == c.tracks[t].Subscribers() - {id}
  {
    assert TrackSystem.Inv(c.tracks[t].body);
    assert !TakingOffCrashes(c.tracks[t], id);
    BodyWithoutKeepsInv(c.tracks[t], id);
  }

  lemma RemovalKeepsChannels(c: Conference, id: ParticipantID)
    requires BodiesInv(c) && ChannelsOpen(c) && RemoveParticipant(c, id).Stepped?
    ensures ChannelsOpen(RemoveParticipant(c, id).conference)
  {
  }

  lemma RemovalKeepsTrack(c: Conference, id: ParticipantID, t: TrackID)
    requires BodiesInv(c) && id in c.participants && RemoveParticipant(c, id).Stepped?
    ensures var c' := RemoveParticipant(c, id).conference;
            && (t in c'.tracks <==> t in c.tracks && c.tracks[t].owner != id)
            && (t in c'.tracks ==> TrackSystem.Inv(c'.tracks[t].body) && c'.tracks[t].owner == c.tracks[t].owner
                                   && c'.tracks[t].Subscribers() == c.tracks[t].Subscribers() - {id})
  {
    if t in c.tracks && c.tracks[t].owner != id {
      RemovalKeepsBodies(c, id, t);
    }
  }

  /** A departure leaves no trace of the participant: not as owner, not as subscriber, and its channels are closed for
      the first time. */
  lemma RemoveParticipantKeepsInv(c: Conference, id: ParticipantID)
    requires Inv(c) && RemoveParticipant(c, id).Stepped?
    ensures var c' := RemoveParticipant(c, id).conference;
            && Inv(c') && id !in c'.participants
            && forall t :: t in c'.tracks ==> c'.tracks[t].owner != id && id !in c'.tracks[t].Subscribers()
  {
    var c' := RemoveParticipant(c, id).conference;
    RemovalKeepsChannels(c, id);
    if id in c.participants {
      forall t | t in c'.tracks
        ensures t in c.tracks && TrackSystem.Inv(c'.tracks[t].body)
        ensures c'.tracks[t].owner in c.participants && c'.tracks[t].owner != id
        ensures c'.tracks[t].Subscribers() <= c.participants.Keys && id !in c'.tracks[t].Subscribers()
      {
        RemovalKeepsTrack(c, id, t);
      }
    } else {
      assert forall t :: t in c.tracks ==> id !in c.tracks[t].Subscribers();
    }
  }
}

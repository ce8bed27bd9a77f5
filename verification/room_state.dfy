/**
 * What both room stores share: the room as the client keeps it, the
 * listeners a store places on it, the participant ordering, the collection of
 * remote audio tracks and the normalisation of a failed connect.
 */
module RoomState {
  import opened LiveKit
  import opened Seqs

  datatype RoomEvent =
    | ParticipantConnected | ParticipantDisconnected | ActiveSpeakersChanged
    | TrackSubscribed | TrackUnsubscribed | LocalTrackPublished | LocalTrackUnpublished
    | AudioPlaybackChanged | Disconnected

  datatype RoomHandler = OnParticipantsChanged | OnSubscribedTrackChanged | OnDisconnectedOnce

  type RoomListener = (RoomEvent, RoomHandler)

  /** The one-shot handler for the room's disconnect. */
  const DisconnectListener: RoomListener := (Disconnected, OnDisconnectedOnce)

  /** The `.on` chain placed on a newly connected room, in order. */
  const RoomRegistered: multiset<RoomListener> := multiset{
    (ParticipantConnected, OnParticipantsChanged),
    (ParticipantDisconnected, OnParticipantsChanged),
    (ActiveSpeakersChanged, OnParticipantsChanged),
    (TrackSubscribed, OnSubscribedTrackChanged),
    (TrackUnsubscribed, OnSubscribedTrackChanged),
    (LocalTrackPublished, OnParticipantsChanged),
    (LocalTrackUnpublished, OnParticipantsChanged),
    (AudioPlaybackChanged, OnParticipantsChanged)
  }

  /** The `.off` chain of the disconnect handler, in order. */
  const RoomDeregistered: multiset<RoomListener> := multiset{
    (ParticipantConnected, OnParticipantsChanged),
    (ParticipantDisconnected, OnParticipantsChanged),
    (ActiveSpeakersChanged, OnParticipantsChanged),
    (TrackSubscribed, OnSubscribedTrackChanged),
    (TrackUnsubscribed, OnSubscribedTrackChanged),
    (LocalTrackPublished, OnParticipantsChanged),
    (LocalTrackUnpublished, OnParticipantsChanged),
    (AudioPlaybackChanged, OnParticipantsChanged)
  }

  /** The disconnect handler removes exactly the 8 distinct pairs the connect placed. */
  lemma RoomListenerSetsMatch()
    ensures RoomRegistered == RoomDeregistered
    ensures |RoomRegistered| == 8 && forall l :: RoomRegistered[l] <= 1
    ensures DisconnectListener !in RoomRegistered
  {
  }

  /**
   * Connecting and then disconnecting leaves the room's listener table as it
   * was before the connect: the one-shot removes itself, the `.off` chain the rest.
   */
  lemma ConnectThenDisconnectRestores(table: multiset<RoomListener>)
    ensures table + multiset{DisconnectListener} + RoomRegistered
              - multiset{DisconnectListener} - RoomDeregistered == table
  {
    RoomListenerSetsMatch();
  }

  /**
   * A connected room as the client keeps it. The client changes these fields
   * between events; the stores only read them, and add and remove listeners.
   */
  class Session {
    var localParticipant: Participant
    /** `room.participants`: the remote participants, in map order. */
    var remotes: seq<Participant>
    var canPlaybackAudio: bool
    var listeners: multiset<RoomListener>

    constructor (local: Participant, remotes: seq<Participant>, canPlaybackAudio: bool)
      ensures localParticipant == local && this.remotes == remotes
      ensures this.canPlaybackAudio == canPlaybackAudio
      ensures listeners == multiset{}
    {
      localParticipant := local;
      this.remotes := remotes;
      this.canPlaybackAudio := canPlaybackAudio;
      listeners := multiset{};
    }
  }

  /** The in-place sort applied to the participant list, given the local participant. */
  type Sorter = (seq<Participant>, Participant) -> seq<Participant>

  /** The sort only reorders its input. */
  ghost predicate Permutes(sort: Sorter)
  {
    forall s, local :: multiset(sort(s, local)) == multiset(s)
  }

  /** The participant list: the local participant followed by the remotes, then sorted. */
  function OrderedParticipants(sort: Sorter, local: Participant, remotes: seq<Participant>): seq<Participant>
  {
    sort([local] + remotes, local)
  }

  /** With a sort that only reorders, the list holds the local participant and every remote, once each. */
  lemma OrderedParticipantsMembers(sort: Sorter, local: Participant, remotes: seq<Participant>)
    requires Permutes(sort)
    ensures multiset(OrderedParticipants(sort, local, remotes)) == multiset{local} + multiset(remotes)
    ensures |OrderedParticipants(sort, local, remotes)| == 1 + |remotes|
    ensures local in OrderedParticipants(sort, local, remotes)
    ensures forall r :: r in remotes ==> r in OrderedParticipants(sort, local, remotes)
  {
    var ps := OrderedParticipants(sort, local, remotes);
    assert multiset(ps) == multiset([local] + remotes);
    assert |multiset(ps)| == |ps|;
    assert local in multiset(ps);
    forall r | r in remotes ensures r in ps {
      assert r in multiset(ps);
    }
  }

  /** The `audioTrack`s that are set, of a participant's audio publications, in order. */
  function AttachedAudio(audio: seq<Publication>): seq<Track>
  {
    if audio == [] then []
    else
      var last := audio[|audio| - 1];
      AttachedAudio(audio[..|audio| - 1]) + (if AudioTrackOf(last).Some? then [AudioTrackOf(last).value] else [])
  }

  /** At most one track per publication, and a track is collected exactly when some publication carries it. */
  lemma {:induction false} AttachedAudioMembers(audio: seq<Publication>)
    ensures |AttachedAudio(audio)| <= |audio|
    ensures forall t :: t in AttachedAudio(audio) <==> exists pub :: pub in audio && AudioTrackOf(pub) == Some(t)
  {
    if audio != [] {
      var init, last := audio[..|audio| - 1], audio[|audio| - 1];
      assert audio == init + [last];
      AttachedAudioMembers(init);
    }
  }

  /** The audio tracks of the remote participants, participant by participant. */
  function RemoteAudioTracks(remotes: seq<Participant>): seq<Track>
  {
    if remotes == [] then []
    else
      RemoteAudioTracks(remotes[..|remotes| - 1]) + AttachedAudio(AudioPublications(remotes[|remotes| - 1].tracks))
  }

  /** A track is collected exactly when some remote has an audio publication carrying it. */
  lemma {:induction false} RemoteAudioTracksMembers(remotes: seq<Participant>)
    ensures forall t :: t in RemoteAudioTracks(remotes) <==>
              exists r, pub :: r in remotes && pub in r.tracks && pub.kind == Audio && pub.track == Some(t)
  {
    if remotes != [] {
      var init, last := remotes[..|remotes| - 1], remotes[|remotes| - 1];
      assert remotes == init + [last];
      RemoteAudioTracksMembers(init);
      AttachedAudioMembers(AudioPublications(last.tracks));
      forall t
        ensures t in RemoteAudioTracks(remotes) <==>
                exists r, pub :: r in remotes && pub in r.tracks && pub.kind == Audio && pub.track == Some(t)
      {
        if t in AttachedAudio(AudioPublications(last.tracks)) {
          var pub :| pub in AudioPublications(last.tracks) && AudioTrackOf(pub) == Some(t);
          assert last in remotes && pub in last.tracks && pub.kind == Audio && pub.track == Some(t);
        }
        if exists r, pub :: r in remotes && pub in r.tracks && pub.kind == Audio && pub.track == Some(t) {
          var r, pub :| r in remotes && pub in r.tracks && pub.kind == Audio && pub.track == Some(t);
          if r == last {
            assert pub in AudioPublications(last.tracks) && AudioTrackOf(pub) == Some(t);
          } else {
            assert r in init;
          }
        }
      }
    }
  }

  /** The inner `forEach`: push each audio publication's track, when set, onto `acc`. */
  method PushAttachedAudio(acc: seq<Track>, audio: seq<Publication>) returns (tracks: seq<Track>)
    ensures tracks == acc + AttachedAudio(audio)
  {
    tracks := acc;
    for j := 0 to |audio|
      invariant tracks == acc + AttachedAudio(audio[..j])
    {
      assert audio[..j + 1][..j] == audio[..j];
      var audioTrack := AudioTrackOf(audio[j]);
      if audioTrack.Some? {
        tracks := tracks + [audioTrack.value];
      }
    }
    assert audio[..|audio|] == audio;
  }

  /** The nested `forEach` of the subscribed-track handler. */
  method CollectAudioTracks(remotes: seq<Participant>) returns (tracks: seq<Track>)
    ensures tracks == RemoteAudioTracks(remotes)
  {
    tracks := [];
    for i := 0 to |remotes|
      invariant tracks == RemoteAudioTracks(remotes[..i])
    {
      assert remotes[..i + 1][..i] == remotes[..i];
      tracks := PushAttachedAudio(tracks, AudioPublications(remotes[i].tracks));
    }
    assert remotes[..|remotes|] == remotes;
  }

  /** The subscribed-track handler recollects audio tracks for no track or an audio track. */
  predicate NeedsAudioRefresh(track: Option<Track>)
  {
    track.None? || track.value.kind == Audio
  }

  /** What a failed connect threw. */
  datatype Thrown = ThrownError(error: Error) | ThrownOther

  /** The error a failed connect records: the thrown `Error`, or a generic one for anything else. */
  function Normalise(thrown: Thrown): (e: Error)
    ensures thrown.ThrownError? ==> e == thrown.error
    ensures thrown.ThrownOther? ==> e.message == "an error has occured"
  {
    match thrown
    case ThrownError(error) => error
    case ThrownOther => Error("an error has occured")
  }
}

/**
 * The per-participant projection: signals kept in step with one participant
 * by event handlers, a mute rule derived from its audio publications, and the
 * snapshot accessor handed to the views.
 *
 * The participant is external and changes between events; each handler reads
 * it through a parameter holding its state at the moment the handler runs.
 */
module CreateParticipant {
  import opened LiveKit
  import opened Seqs

  datatype ParticipantEvent =
    | TrackMuted | TrackUnmuted | ParticipantMetadataChanged | IsSpeakingChanged
    | TrackPublished | TrackUnpublished | TrackSubscribed | TrackUnsubscribed
    | LocalTrackPublished | LocalTrackUnpublished | ConnectionQualityChanged

  datatype Handler =
    | OnMuted | OnUnmuted | OnMetadataChanged | OnIsSpeakingChanged
    | OnPublicationsChanged | OnConnectionQualityUpdate

  type Listener = (ParticipantEvent, Handler)

  /** The `.on` chain of the setup effect, in order. */
  const Registered: multiset<Listener> := multiset{
    (TrackMuted, OnMuted),
    (TrackUnmuted, OnUnmuted),
    (ParticipantMetadataChanged, OnMetadataChanged),
    (IsSpeakingChanged, OnIsSpeakingChanged),
    (TrackPublished, OnPublicationsChanged),
    (TrackUnpublished, OnPublicationsChanged),
    (TrackSubscribed, OnPublicationsChanged),
    (TrackUnsubscribed, OnPublicationsChanged),
    (LocalTrackPublished, OnPublicationsChanged),
    (LocalTrackUnpublished, OnPublicationsChanged),
    (ConnectionQualityChanged, OnConnectionQualityUpdate)
  }

  /** The `.off` chain of the cleanup, in order. */
  const Deregistered: multiset<Listener> := multiset{
    (TrackMuted, OnMuted),
    (TrackUnmuted, OnUnmuted),
    (ParticipantMetadataChanged, OnMetadataChanged),
    (IsSpeakingChanged, OnIsSpeakingChanged),
    (TrackPublished, OnPublicationsChanged),
    (TrackUnpublished, OnPublicationsChanged),
    (TrackSubscribed, OnPublicationsChanged),
    (TrackUnsubscribed, OnPublicationsChanged),
    (LocalTrackPublished, OnPublicationsChanged),
    (LocalTrackUnpublished, OnPublicationsChanged),
    (ConnectionQualityChanged, OnConnectionQualityUpdate)
  }

  /** What the accessor returns. */
  datatype ParticipantState = ParticipantState(
    isLocal: bool,
    isSpeaking: bool,
    isAudioMuted: bool,
    isVideoMuted: bool,
    connectionQuality: ConnectionQuality,
    publications: seq<Publication>,
    subscribedTracks: seq<Publication>,
    cameraPublication: Option<Publication>,
    microphonePublication: Option<Publication>,
    screenSharePublication: Option<Publication>,
    metadata: Option<string>,
    tracks: seq<Publication>)

  /** The publications that are subscribed and have a track, in their order. */
  function SubscribedOf(pubs: seq<Publication>): (r: seq<Publication>)
    ensures forall p :: p in r <==> p in pubs && p.isSubscribed && p.track.Some?
    ensures IsSubsequence(r, pubs)
    ensures forall p :: multiset(r)[p] == if p.isSubscribed && p.track.Some? then multiset(pubs)[p] else 0
  {
    if pubs == [] then []
    else
      var init, last := pubs[..|pubs| - 1], pubs[|pubs| - 1];
      assert pubs == init + [last];
      var rest := SubscribedOf(init);
      if last.isSubscribed && last.track.Some? then
        SubseqSnoc(rest, init, last);
        rest + [last]
      else
        SubseqExtend(rest, init, last);
        rest
  }

  /** The mute value the derived effect settles on: that of the last audio publication, muted when there is none. */
  function DerivedMuteOf(pubs: seq<Publication>): bool
  {
    var audio := AudioPublications(pubs);
    if audio == [] then true else audio[|audio| - 1].isMuted
  }

  /** The `forEach` of the derived-mute effect, keeping the last `isMuted` seen. */
  method DerivedMute(pubs: seq<Publication>) returns (muted: bool)
    ensures muted == DerivedMuteOf(pubs)
    ensures (forall p :: p in pubs ==> p.kind != Audio) ==> muted
    ensures (exists p :: p in pubs && p.kind == Audio) ==>
              exists p :: p in pubs && p.kind == Audio && muted == p.isMuted
  {
    var audio := AudioPublications(pubs);
    var last: Option<bool> := None;
    for i := 0 to |audio|
      invariant last == if i == 0 then None else Some(audio[i - 1].isMuted)
    {
      last := Some(audio[i].isMuted);
    }
    muted := if last.None? then true else last.value;
    if audio != [] {
      assert audio[|audio| - 1] in audio;
    } else {
      assert forall p :: p in pubs ==> p.kind != Audio;
    }
  }

  /** Every registered pair is removed again on cleanup: the same 11 distinct pairs. */
  lemma ListenerSetsMatch()
    ensures Registered == Deregistered
    ensures |Registered| == 11 && forall l :: Registered[l] <= 1
  {
  }

  /** Registering and then cleaning up leaves the participant's listener table as it was. */
  lemma AttachThenCleanupRestores(table: multiset<Listener>)
    ensures table + Registered - Deregistered == table
  {
    ListenerSetsMatch();
  }

  /** The signals of one participant's projection. */
  class ParticipantProjection {
    const sid: Sid
    var isAudioMuted: bool
    var isVideoMuted: bool
    var connectionQuality: ConnectionQuality
    var isSpeaking: bool
    var metadata: Option<string>
    var publications: seq<Publication>
    var subscribedTracks: seq<Publication>
    /** The pairs this projection holds on the participant's event emitter. */
    var listeners: multiset<Listener>

    /** Initial signal values. */
    constructor (p: Participant)
      ensures sid == p.sid
      ensures !isAudioMuted && !isVideoMuted && !isSpeaking
      ensures connectionQuality == p.connectionQuality
      ensures metadata == None && publications == [] && subscribedTracks == []
      ensures listeners == multiset{}
    {
      sid := p.sid;
      isAudioMuted, isVideoMuted := false, false;
      connectionQuality := p.connectionQuality;
      isSpeaking := false;
      metadata := None;
      publications, subscribedTracks := [], [];
      listeners := multiset{};
    }

    method HandlePublicationsChanged(p: Participant)
      requires p.sid == sid
      modifies this`publications, this`subscribedTracks
      ensures publications == p.tracks
      ensures subscribedTracks == SubscribedOf(p.tracks)
    {
      publications := p.tracks;
      subscribedTracks := SubscribedOf(p.tracks);
    }

    method HandleMuted(publication: Publication)
      modifies this`isAudioMuted, this`isVideoMuted
      ensures isAudioMuted == (publication.kind == Audio || old(isAudioMuted))
      ensures isVideoMuted == (publication.kind == Video || old(isVideoMuted))
    {
      if publication.kind == Audio {
        isAudioMuted := true;
      } else if publication.kind == Video {
        isVideoMuted := true;
      }
    }

    method HandleUnmuted(publication: Publication)
      modifies this`isAudioMuted, this`isVideoMuted
      ensures isAudioMuted == (publication.kind != Audio && old(isAudioMuted))
      ensures isVideoMuted == (publication.kind != Video && old(isVideoMuted))
    {
      if publication.kind == Audio {
        isAudioMuted := false;
      } else if publication.kind == Video {
        isVideoMuted := false;
      }
    }

    method HandleMetadataChanged(p: Participant)
      requires p.sid == sid
      modifies this`metadata
      ensures Truthy(p.metadata) ==> metadata == p.metadata
      ensures !Truthy(p.metadata) ==> metadata == old(metadata)
    {
      if Truthy(p.metadata) {
        metadata := p.metadata;
      }
    }

    method HandleIsSpeakingChanged(p: Participant)
      requires p.sid == sid
      modifies this`isSpeaking
      ensures isSpeaking == p.isSpeaking
    {
      isSpeaking := p.isSpeaking;
    }

    method HandleConnectionQualityUpdate(p: Participant)
      requires p.sid == sid
      modifies this`connectionQuality
      ensures connectionQuality == p.connectionQuality
    {
      connectionQuality := p.connectionQuality;
    }

    /** The setup effect: register the 11 listeners, then seed metadata, speaking and publications. */
    method Attach(p: Participant)
      requires p.sid == sid
      modifies this`listeners, this`metadata, this`isSpeaking, this`publications, this`subscribedTracks
      ensures listeners == old(listeners) + Registered
      ensures metadata == if Truthy(p.metadata) then p.metadata else old(metadata)
      ensures isSpeaking == p.isSpeaking
      ensures publications == p.tracks && subscribedTracks == SubscribedOf(p.tracks)
    {
      listeners := listeners + Registered;
      HandleMetadataChanged(p);
      HandleIsSpeakingChanged(p);
      HandlePublicationsChanged(p);
    }

    /** The derived-mute effect: both flags take the derived mute value. */
    method ApplyDerivedMute(p: Participant)
      requires p.sid == sid
      modifies this`isAudioMuted, this`isVideoMuted
      ensures isAudioMuted == DerivedMuteOf(p.tracks)
      ensures isVideoMuted == DerivedMuteOf(p.tracks)
    {
      var muted := DerivedMute(p.tracks);
      isAudioMuted := if isAudioMuted != muted then muted else isAudioMuted;
      isVideoMuted := if isVideoMuted != muted then muted else isVideoMuted;
    }

    /** The `onCleanup` of the projection: the `.off` chain. */
    method Cleanup()
      modifies this`listeners
      ensures listeners == old(listeners) - Deregistered
    {
      listeners := listeners - Deregistered;
    }

    /** The accessor: the signals, with the camera, microphone and screen-share publications looked up by source. */
    function Snapshot(p: Participant): (s: ParticipantState)
      requires p.sid == sid
      reads this
      ensures s.isLocal <==> p.isLocal
      ensures s.cameraPublication.Some? <==> exists pub :: pub in p.tracks && pub.source == Camera
      ensures s.microphonePublication.Some? <==> exists pub :: pub in p.tracks && pub.source == Microphone
      ensures s.screenSharePublication.Some? <==> exists pub :: pub in p.tracks && pub.source == ScreenShare
      ensures s.cameraPublication.Some? ==> s.cameraPublication.value in p.tracks && s.cameraPublication.value.source == Camera
      ensures s.microphonePublication.Some? ==> s.microphonePublication.value in p.tracks && s.microphonePublication.value.source == Microphone
      ensures s.screenSharePublication.Some? ==> s.screenSharePublication.value in p.tracks && s.screenSharePublication.value.source == ScreenShare
      ensures s.isAudioMuted == isAudioMuted && s.isVideoMuted == isVideoMuted && s.isSpeaking == isSpeaking
      ensures s.metadata == metadata && s.publications == publications && s.subscribedTracks == subscribedTracks
      ensures s.connectionQuality == connectionQuality && s.tracks == p.tracks
    {
      ParticipantState(
        isLocal := p.isLocal,
        isSpeaking := isSpeaking,
        isAudioMuted := isAudioMuted,
        isVideoMuted := isVideoMuted,
        connectionQuality := connectionQuality,
        publications := publications,
        subscribedTracks := subscribedTracks,
        cameraPublication := GetTrack(p.tracks, Camera),
        microphonePublication := GetTrack(p.tracks, Microphone),
        screenSharePublication := GetTrack(p.tracks, ScreenShare),
        metadata := metadata,
        tracks := p.tracks)
    }
  }

  /**
   * `createParticipant`: the initial signals, then the setup effect, then the
   * derived-mute effect. The listeners are on the participant until `Cleanup`.
   */
  method NewParticipantProjection(p: Participant) returns (proj: ParticipantProjection)
    ensures fresh(proj) && proj.sid == p.sid
    ensures proj.listeners == Registered
    ensures proj.metadata == if Truthy(p.metadata) then p.metadata else None
    ensures proj.isSpeaking == p.isSpeaking
    ensures proj.connectionQuality == p.connectionQuality
    ensures proj.publications == p.tracks && proj.subscribedTracks == SubscribedOf(p.tracks)
    ensures proj.isAudioMuted == DerivedMuteOf(p.tracks) && proj.isVideoMuted == DerivedMuteOf(p.tracks)
  {
    proj := new ParticipantProjection(p);
    proj.Attach(p);
    ghost var attached := (proj.listeners, proj.metadata, proj.isSpeaking, proj.connectionQuality, proj.publications, proj.subscribedTracks);
    proj.ApplyDerivedMute(p);
    assert attached == (proj.listeners, proj.metadata, proj.isSpeaking, proj.connectionQuality, proj.publications, proj.subscribedTracks);
  }
}

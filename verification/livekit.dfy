/**
 * The parts of the real-time client that the bindings read. The client itself
 * (connecting, signalling, media) is external; only the shape of its state is
 * modelled here, as values read at the moment a handler runs.
 */
module LiveKit {

  datatype Option<+T> = None | Some(value: T)

  /** A session id; unique within one session. */
  type Sid = string

  datatype TrackKind = Audio | Video | UnknownKind

  datatype TrackSource = Camera | Microphone | ScreenShare | ScreenShareAudio | UnknownSource

  /** Which track class an attached track is an instance of. */
  datatype TrackClass = LocalTrack | RemoteTrack | OtherTrack

  datatype Track = Track(sid: Sid, kind: TrackKind, cls: TrackClass, currentBitrate: nat)

  datatype Dimensions = Dimensions(width: nat, height: nat)

  /** A JavaScript `Error`, reduced to its message. */
  datatype Error = Error(message: string)

  datatype ConnectionQuality = Excellent | Good | Poor | UnknownQuality

  datatype Publication = Publication(
    trackSid: Sid,
    kind: TrackKind,
    source: TrackSource,
    isMuted: bool,
    isSubscribed: bool,
    track: Option<Track>,
    dimensions: Option<Dimensions>)

  /**
   * A participant as it stands when a handler reads it. `name` and `metadata`
   * use the empty string and None for JavaScript's falsy values; `tracks` lists
   * the publication map in insertion order; `isLocal` is
   * `participant instanceof LocalParticipant`.
   */
  datatype Participant = Participant(
    sid: Sid,
    identity: string,
    name: string,
    metadata: Option<string>,
    isSpeaking: bool,
    connectionQuality: ConnectionQuality,
    isLocal: bool,
    tracks: seq<Publication>)

  /** `participant.audioTracks`: the audio publications, in map order. */
  function AudioPublications(pubs: seq<Publication>): (r: seq<Publication>)
    ensures |r| <= |pubs|
    ensures forall p :: p in r <==> p in pubs && p.kind == Audio
  {
    if pubs == [] then []
    else
      var rest := AudioPublications(pubs[..|pubs| - 1]);
      var last := pubs[|pubs| - 1];
      assert pubs == pubs[..|pubs| - 1] + [last];
      if last.kind == Audio then rest + [last] else rest
  }

  /** `publication.audioTrack`: the attached track of an audio publication. */
  function AudioTrackOf(pub: Publication): Option<Track>
  {
    if pub.kind == Audio then pub.track else None
  }

  /** `publication.videoTrack`: the attached track when it is a video track. */
  function VideoTrackOf(pub: Publication): Option<Track>
  {
    if pub.track.Some? && pub.track.value.kind == Video then pub.track else None
  }

  /** `participant.getTrack(source)`: the first publication with that source. */
  function GetTrack(pubs: seq<Publication>, source: TrackSource): (r: Option<Publication>)
    ensures r.Some? <==> exists i :: 0 <= i < |pubs| && pubs[i].source == source
    ensures r.Some? ==> r.value in pubs && r.value.source == source
    ensures r.Some? ==> exists i :: 0 <= i < |pubs| && pubs[i] == r.value &&
                          forall j :: 0 <= j < i ==> pubs[j].source != source
  {
    if pubs == [] then None
    else if pubs[0].source == source then
      Some(pubs[0])
    else
      var r := GetTrack(pubs[1..], source);
      if r.Some? then
        var i :| 0 <= i < |pubs[1..]| && pubs[1..][i] == r.value &&
                 forall j :: 0 <= j < i ==> pubs[1..][j].source != source;
        assert pubs[i + 1] == r.value;
        assert forall j :: 0 <= j < i + 1 ==> pubs[j].source != source by {
          forall j | 0 <= j < i + 1 ensures pubs[j].source != source {
            if j > 0 { assert pubs[j] == pubs[1..][j - 1]; }
          }
        }
        r
      else
        assert forall i :: 1 <= i < |pubs| ==> pubs[i] == pubs[1..][i - 1];
        r
  }

  /** A JavaScript string used as a condition: truthy when present and non-empty. */
  predicate Truthy(s: Option<string>)
  {
    s.Some? && s.value != ""
  }
}

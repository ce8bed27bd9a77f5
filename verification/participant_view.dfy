/**
 * The participant tile: its layout orientation, the orientation of the
 * camera video, the object-fit mode, the display name, the bitrate total
 * refreshed by an interval, whether video is shown, and the class list.
 */
module ParticipantView {
  import opened LiveKit

  datatype Orientation = Landscape | Portrait

  datatype ObjectFit = Contain | Cover

  /** A JavaScript number used as a condition: truthy when present and non-zero. */
  predicate NonZero(x: Option<real>)
  {
    x.Some? && x.value != 0.0
  }

  /**
   * The tile's orientation: the prop when given, else derived from the aspect
   * values when both are set, else none.
   */
  function ResolveOrientation(orientation: Option<Orientation>, aspectWidth: Option<real>, aspectHeight: Option<real>): (o: Option<Orientation>)
    ensures orientation.Some? ==> o == orientation
    ensures o == Some(Landscape) <==>
              orientation == Some(Landscape) ||
              (orientation.None? && NonZero(aspectWidth) && NonZero(aspectHeight) && aspectWidth.value > aspectHeight.value)
    ensures o == Some(Portrait) <==>
              orientation == Some(Portrait) ||
              (orientation.None? && NonZero(aspectWidth) && NonZero(aspectHeight) && aspectWidth.value <= aspectHeight.value)
    ensures o.None? <==> orientation.None? && !(NonZero(aspectWidth) && NonZero(aspectHeight))
  {
    if orientation.None? && NonZero(aspectWidth) && NonZero(aspectHeight) then
      Some(if aspectWidth.value > aspectHeight.value then Landscape else Portrait)
    else orientation
  }

  /** The orientation of a video of the given size. */
  function VideoOrientationOf(d: Dimensions): Orientation
  {
    if d.width > d.height then Landscape else Portrait
  }

  /** The base of a default display name: the name when non-empty, else the identity. */
  function BaseName(p: Participant): string
  {
    if p.name != "" then p.name else p.identity
  }

  /** The default display name: the base name, followed by " (You)" for the local participant only. */
  function DefaultDisplayName(p: Participant): (n: string)
    ensures |n| == |BaseName(p)| + (if p.isLocal then 6 else 0)
  {
    BaseName(p) + (if p.isLocal then " (You)" else "")
  }

  /** Whether a publication's track counts towards the bitrate: it is a local or a remote track. */
  predicate CountsForBitrate(pub: Publication)
  {
    pub.track.Some? && (pub.track.value.cls == LocalTrack || pub.track.value.cls == RemoteTrack)
  }

  /** The bitrate of a publication towards the total. */
  function BitrateShare(pub: Publication): nat
  {
    if CountsForBitrate(pub) then pub.track.value.currentBitrate else 0
  }

  /** The sum of the counted tracks' current bitrates. */
  function BitrateOf(pubs: seq<Publication>): nat
  {
    if pubs == [] then 0 else BitrateOf(pubs[..|pubs| - 1]) + BitrateShare(pubs[|pubs| - 1])
  }

  /** The total over a concatenation is the sum of the totals. */
  lemma {:induction false} BitrateOfAppend(a: seq<Publication>, b: seq<Publication>)
    ensures BitrateOf(a + b) == BitrateOf(a) + BitrateOf(b)
    decreases |b|
  {
    if b == [] {
      assert a + b == a;
    } else {
      var init := b[..|b| - 1];
      assert (a + b)[..|a + b| - 1] == a + init;
      assert (a + b)[|a + b| - 1] == b[|b| - 1];
      BitrateOfAppend(a, init);
    }
  }

  /** Every counted track's bitrate is part of the total, and with no counted track the total is 0. */
  lemma {:induction false} BitrateOfBounds(pubs: seq<Publication>)
    ensures forall i :: 0 <= i < |pubs| && CountsForBitrate(pubs[i]) ==> pubs[i].track.value.currentBitrate <= BitrateOf(pubs)
    ensures (forall i :: 0 <= i < |pubs| ==> !CountsForBitrate(pubs[i])) ==> BitrateOf(pubs) == 0
  {
    if pubs != [] {
      var init := pubs[..|pubs| - 1];
      BitrateOfBounds(init);
      assert forall i :: 0 <= i < |init| ==> init[i] == pubs[i];
    }
  }

  /** The interval body: `total +=` over the participant's publications. */
  method TotalBitrate(pubs: seq<Publication>) returns (total: nat)
    ensures total == BitrateOf(pubs)
  {
    total := 0;
    for i := 0 to |pubs|
      invariant total == BitrateOf(pubs[..i])
    {
      assert pubs[..i + 1][..i] == pubs[..i];
      if pubs[i].track.Some? && (pubs[i].track.value.cls == LocalTrack || pubs[i].track.value.cls == RemoteTrack) {
        total := total + pubs[i].track.value.currentBitrate;
      }
    }
    assert pubs[..|pubs|] == pubs;
  }

  /** The track the main element renders: the camera track when subscribed, not muted and present. */
  function VideoContent(camera: Option<Publication>): (r: Option<Track>)
    ensures r.Some? <==> camera.Some? && camera.value.isSubscribed && !camera.value.isMuted && camera.value.track.Some?
    ensures r.Some? ==> r == camera.value.track
  {
    if camera.Some? && camera.value.isSubscribed && !camera.value.isMuted then camera.value.track else None
  }

  /** The class applied while speaking: the prop when non-empty, else "speaker". */
  function SpeakerClass(speakerClassName: Option<string>): (c: string)
    ensures c != ""
    ensures Truthy(speakerClassName) ==> c == speakerClassName.value
    ensures !Truthy(speakerClassName) ==> c == "speaker"
  {
    if Truthy(speakerClassName) then speakerClassName.value else "speaker"
  }

  /**
   * The `classList` object: "participant" on, the class-name prop on when
   * truthy, and the speaker class on exactly while speaking; a later key
   * overrides an earlier equal one.
   */
  function ClassList(className: Option<string>, speakerClassName: Option<string>, isSpeaking: bool): (m: map<string, bool>)
    ensures SpeakerClass(speakerClassName) in m && m[SpeakerClass(speakerClassName)] == isSpeaking
    ensures "participant" in m
    ensures (SpeakerClass(speakerClassName) != "participant" && (!Truthy(className) || className.value != "participant"))
        ==> m["participant"]
    ensures Truthy(className) ==> className.value in m
    ensures Truthy(className) && className.value != SpeakerClass(speakerClassName) ==> className.value in m && m[className.value]
    ensures !Truthy(speakerClassName) ==> "speaker" in m && m["speaker"] == isSpeaking
    ensures Truthy(speakerClassName) ==> speakerClassName.value in m && m[speakerClassName.value] == isSpeaking
  {
    var cn := if className.Some? then className.value else "";
    map["participant" := true][cn := Truthy(className)][SpeakerClass(speakerClassName) := isSpeaking]
  }

  datatype QualityIcon = HighIcon | MidIcon | LowIcon | NoIcon

  /** How good a connection quality is: 0 for unknown, up to 3 for excellent. */
  function QualityRank(q: ConnectionQuality): nat
  {
    match q
    case UnknownQuality => 0
    case Poor => 1
    case Good => 2
    case Excellent => 3
  }

  /** How many bars an icon shows: 0 for no icon, up to 3 for the high icon. */
  function IconBars(icon: QualityIcon): nat
  {
    match icon
    case NoIcon => 0
    case LowIcon => 1
    case MidIcon => 2
    case HighIcon => 3
  }

  /**
   * The connection-quality `Switch`: one icon per known level, none otherwise.
   * The icon shows as many bars as the quality's rank, so a better quality
   * never gets a lower icon and two levels never share one.
   */
  function QualityIconFor(q: ConnectionQuality): (icon: QualityIcon)
    ensures icon == NoIcon <==> q == UnknownQuality
    ensures IconBars(icon) == QualityRank(q)
  {
    match q
    case Excellent => HighIcon
    case Good => MidIcon
    case Poor => LowIcon
    case UnknownQuality => NoIcon
  }

  /** The tile's signals. */
  class ParticipantTile {
    const orientation: Option<Orientation>
    var videoOrientation: Option<Orientation>
    var objectFit: ObjectFit
    var displayName: Option<string>
    var currentBitrate: Option<nat>
    /** The bitrate interval is running. */
    var intervalActive: bool

    /** Initial signal values; the bitrate interval starts with the tile. */
    constructor (orientation: Option<Orientation>, aspectWidth: Option<real>, aspectHeight: Option<real>, displayName: Option<string>)
      ensures this.orientation == ResolveOrientation(orientation, aspectWidth, aspectHeight)
      ensures videoOrientation == None && objectFit == Contain
      ensures this.displayName == displayName && currentBitrate == None && intervalActive
    {
      this.orientation := ResolveOrientation(orientation, aspectWidth, aspectHeight);
      videoOrientation := None;
      objectFit := Contain;
      this.displayName := displayName;
      currentBitrate := None;
      intervalActive := true;
    }

    /** One interval tick: the bitrate total over the participant's publications. */
    method Tick(p: Participant)
      requires intervalActive
      modifies this`currentBitrate
      ensures currentBitrate == Some(BitrateOf(p.tracks))
    {
      var total := TotalBitrate(p.tracks);
      currentBitrate := Some(total);
    }

    /** The camera-dimensions effect: the video orientation follows the camera size when known. */
    method UpdateVideoOrientation(camera: Option<Publication>)
      modifies this`videoOrientation
      ensures camera.Some? && camera.value.dimensions.Some? ==>
                videoOrientation == Some(VideoOrientationOf(camera.value.dimensions.value))
      ensures !(camera.Some? && camera.value.dimensions.Some?) ==> videoOrientation == old(videoOrientation)
    {
      if camera.Some? && camera.value.dimensions.Some? {
        var d := camera.value.dimensions.value;
        videoOrientation := Some(if d.width > d.height then Landscape else Portrait);
      }
    }

    /** The object-fit effect: cover once the video orientation equals the tile's; it never reverts. */
    method UpdateObjectFit()
      modifies this`objectFit
      ensures videoOrientation == orientation ==> objectFit == Cover
      ensures videoOrientation != orientation ==> objectFit == old(objectFit)
      ensures old(objectFit) == Cover ==> objectFit == Cover
    {
      if videoOrientation == orientation {
        objectFit := Cover;
      }
    }

    /** The display-name effect: with no truthy name, the default name for the participant. */
    method UpdateDisplayName(p: Participant)
      modifies this`displayName
      ensures !Truthy(old(displayName)) ==> displayName == Some(DefaultDisplayName(p))
      ensures Truthy(old(displayName)) ==> displayName == old(displayName)
    {
      if !Truthy(displayName) {
        var suffix := if p.isLocal then " (You)" else "";
        var base := if p.name != "" then p.name else p.identity;
        displayName := Some(base + suffix);
      }
    }

    /** The effect's cleanup: the interval is cleared. */
    method Cleanup()
      modifies this`intervalActive
      ensures !intervalActive
    {
      intervalActive := false;
    }
  }

  /**
   * A tile with neither an orientation nor aspect values, for a participant
   * whose camera size is unknown: both orientations are undefined and compare
   * equal, so the tile covers at once.
   */
  method MountWithoutOrientation() returns (tile: ParticipantTile)
    ensures fresh(tile)
    ensures tile.orientation == None && tile.videoOrientation == None
    ensures tile.objectFit == Cover
  {
    tile := new ParticipantTile(None, None, None, None);
    tile.UpdateVideoOrientation(None);
    tile.UpdateObjectFit();
  }
}

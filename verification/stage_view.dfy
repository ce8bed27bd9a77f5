/**
 * The stage view: chooses the mobile, speaker or grid stage, tracks the first
 * subscribed screen share, renders one audio element per remote audio track
 * and shows an unmute overlay when the browser blocks playback.
 */
module StageView {
  import opened LiveKit
  import opened RoomState

  datatype Stage = MobileStage | SpeakerStage | GridStage

  /** The display options of the surrounding context; absent fields are `undefined`. */
  datatype DisplayOptions = DisplayOptions(stageLayout: Option<string>, showStats: Option<bool>)

  /** The context's default display options. */
  const DefaultDisplay: DisplayOptions := DisplayOptions(Some("grid"), Some(false))

  /** The media query `(min-width: 800px)`. */
  predicate IsDesktop(viewportWidth: nat)
  {
    viewportWidth >= 800
  }

  /**
   * The screen-share video a participant offers: its first screen-share
   * publication, when that is subscribed and carries a video track.
   */
  function ScreenShareVideo(p: Participant): (r: Option<Track>)
    ensures r.Some? ==> r.value.kind == Video
    ensures r.Some? ==> exists pub :: pub in p.tracks && pub.source == ScreenShare && pub.isSubscribed && pub.track == r
    ensures (forall pub :: pub in p.tracks ==> pub.source != ScreenShare) ==> r.None?
    ensures forall i :: 0 <= i < |p.tracks| && p.tracks[i].source == ScreenShare &&
                        (forall j :: 0 <= j < i ==> p.tracks[j].source != ScreenShare) ==>
                          (r.Some? <==> p.tracks[i].isSubscribed && VideoTrackOf(p.tracks[i]).Some?) &&
                          (r.Some? ==> r == p.tracks[i].track)
  {
    var pub := GetTrack(p.tracks, ScreenShare);
    if pub.Some? && pub.value.isSubscribed && VideoTrackOf(pub.value).Some? then VideoTrackOf(pub.value) else None
  }

  /** The `setScreenTrack` updater for one participant: keep a track already found. */
  function ScreenStep(current: Option<Track>, p: Participant): Option<Track>
  {
    if current.None? && ScreenShareVideo(p).Some? then ScreenShareVideo(p) else current
  }

  /** The `forEach` of the screen-track effect over the participant list. */
  function ScreenFold(current: Option<Track>, participants: seq<Participant>): Option<Track>
  {
    if participants == [] then current
    else ScreenStep(ScreenFold(current, participants[..|participants| - 1]), participants[|participants| - 1])
  }

  /** A track once found is kept, whatever the participants offer. */
  lemma {:induction false} ScreenFoldKeepsFound(current: Option<Track>, participants: seq<Participant>)
    requires current.Some?
    ensures ScreenFold(current, participants) == current
  {
    if participants != [] {
      ScreenFoldKeepsFound(current, participants[..|participants| - 1]);
    }
  }

  /**
   * With no track yet, the first participant, in list order, that offers a
   * screen share supplies it, and there is none exactly when nobody offers one.
   */
  lemma {:induction false} ScreenFoldFirstWins(participants: seq<Participant>)
    ensures ScreenFold(None, participants).None? <==>
              forall i :: 0 <= i < |participants| ==> ScreenShareVideo(participants[i]).None?
    ensures ScreenFold(None, participants).Some? ==>
              exists i :: 0 <= i < |participants| && ScreenFold(None, participants) == ScreenShareVideo(participants[i]) &&
                forall j :: 0 <= j < i ==> ScreenShareVideo(participants[j]).None?
  {
    if participants != [] {
      var init := participants[..|participants| - 1];
      var last := participants[|participants| - 1];
      ScreenFoldFirstWins(init);
      assert forall i :: 0 <= i < |init| ==> init[i] == participants[i];
      var found := ScreenFold(None, init);
      if found.Some? {
        var i :| 0 <= i < |init| && found == ScreenShareVideo(init[i]) &&
                 forall j :: 0 <= j < i ==> ScreenShareVideo(init[j]).None?;
        assert ScreenFold(None, participants) == ScreenShareVideo(participants[i]);
      } else if ScreenShareVideo(last).Some? {
        assert ScreenFold(None, participants) == ScreenShareVideo(participants[|participants| - 1]);
      }
    }
  }

  /**
   * The grid condition as written. Its second operand compares the signal
   * accessor itself with `undefined`, and a function is never `undefined`, so
   * the grid is never chosen and `screenTrack` plays no part.
   */
  function ChooseStage(isDesktop: bool, display: DisplayOptions, screenTrack: Option<Track>): (s: Stage)
    ensures s == MobileStage <==> !isDesktop
    ensures s == SpeakerStage <==> isDesktop
    ensures s != GridStage
  {
    var accessorIsUndefined := false;
    if !isDesktop then MobileStage
    else if display.stageLayout == Some("grid") && accessorIsUndefined then GridStage
    else SpeakerStage
  }

  /** The grid condition reading the screen track's value, as the layout option describes. */
  function ChooseStageIntended(isDesktop: bool, display: DisplayOptions, screenTrack: Option<Track>): (s: Stage)
    ensures s == MobileStage <==> !isDesktop
    ensures s == GridStage <==> isDesktop && display.stageLayout == Some("grid") && screenTrack.None?
    ensures s == SpeakerStage <==> isDesktop && (display.stageLayout != Some("grid") || screenTrack.Some?)
  {
    if !isDesktop then MobileStage
    else if display.stageLayout == Some("grid") && screenTrack.None? then GridStage
    else SpeakerStage
  }

  /** On a desktop with the default grid layout and no screen share, the code as written shows the speaker stage. */
  lemma GridLayoutIgnored()
    ensures ChooseStage(true, DefaultDisplay, None) == SpeakerStage
    ensures ChooseStageIntended(true, DefaultDisplay, None) == GridStage
  {
  }

  /** The two conditions agree except where the intended one picks the grid. */
  lemma ChooseStageDiffersOnlyOnGrid(isDesktop: bool, display: DisplayOptions, screenTrack: Option<Track>)
    ensures (ChooseStage(isDesktop, display, screenTrack) != ChooseStageIntended(isDesktop, display, screenTrack))
        <==> (ChooseStageIntended(isDesktop, display, screenTrack) == GridStage)
  {
  }

  /** The desktop branch's own signal: the screen track found so far. */
  class DesktopStage {
    var screenTrack: Option<Track>

    constructor ()
      ensures screenTrack == None
    {
      screenTrack := None;
    }

    /** The screen-track effect, run over the current participant list. */
    method RecomputeScreenTrack(participants: seq<Participant>)
      modifies this
      ensures screenTrack == ScreenFold(old(screenTrack), participants)
    {
      var i := 0;
      while i < |participants|
        invariant 0 <= i <= |participants|
        invariant screenTrack == ScreenFold(old(screenTrack), participants[..i])
      {
        assert participants[..i + 1][..i] == participants[..i];
        if screenTrack.None? {
          var pub := GetTrack(participants[i].tracks, ScreenShare);
          if pub.Some? && pub.value.isSubscribed && VideoTrackOf(pub.value).Some? {
            screenTrack := VideoTrackOf(pub.value);
          }
        }
        i := i + 1;
      }
      assert participants[..|participants|] == participants;
    }

    /** The stage the desktop branch shows. */
    function CurrentStage(display: DisplayOptions): (s: Stage)
      reads this
      ensures s == GridStage <==> display.stageLayout == Some("grid") && screenTrack.None?
      ensures s != MobileStage
    {
      ChooseStageIntended(true, display, screenTrack)
    }
  }

  /** An audio element for one track. */
  datatype AudioRenderer = AudioRenderer(track: Track, isLocal: bool)

  /** The `For` over the store's audio tracks: one renderer per track, in order, none of them local. */
  function AudioRenderers(tracks: seq<Track>): (r: seq<AudioRenderer>)
    ensures |r| == |tracks|
    ensures forall i :: 0 <= i < |r| ==> r[i].track == tracks[i] && !r[i].isLocal
  {
    if tracks == [] then [] else [AudioRenderer(tracks[0], false)] + AudioRenderers(tracks[1..])
  }

  /** The unmute overlay shows exactly when a room is set and reports that it cannot play audio. */
  function ShowUnmuteOverlay(room: Session?): (show: bool)
    reads room
  {
    if room == null then false else room.canPlaybackAudio == false
  }

  /**
   * The audio `For` as written: it is given the accessor, not its value, and a
   * function has a `length` of 0, so no audio element is rendered.
   */
  function AudioRenderersAsWritten(tracks: seq<Track>): (r: seq<AudioRenderer>)
    ensures r == []
  {
    AudioRenderers([])
  }

  /** Any audio track at all is lost by the `For` as written. */
  lemma AudioRenderersAsWrittenDrops(tracks: seq<Track>)
    ensures tracks != [] ==> AudioRenderersAsWritten(tracks) != AudioRenderers(tracks)
  {
  }

  /**
   * The overlay condition as written: `room` is the accessor, which has no
   * `canPlaybackAudio`, and `undefined === false` never holds.
   */
  function UnmuteOverlayAsWritten(room: Session?): (show: bool)
    ensures !show
  {
    false
  }

  /** The overlay as written stays hidden exactly where it is needed. */
  lemma UnmuteOverlayAsWrittenHidden(room: Session?)
    ensures ShowUnmuteOverlay(room) != UnmuteOverlayAsWritten(room) <==> room != null && !room.canPlaybackAudio
  {
  }

}

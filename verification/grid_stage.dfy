/**
 * The desktop grid stage: the grid class and the bounded window of visible
 * participants, recomputed incrementally from the previous window.
 *
 * Participants are identified by sid (the window holds the same participant
 * objects the room holds, and a sid names one participant within a session).
 * Each participant's live `isSpeaking` flag is given as the set `speaking`.
 */
module DesktopGrid {
  import opened LiveKit
  import opened Seqs

  datatype GridClass = Grid1x1 | Grid2x1 | Grid2x2 | Grid3x3 | Grid4x4

  datatype GridLayout = GridLayout(cls: GridClass, numVisible: nat)

  /** What the grid stage reads of the connected room. */
  datatype RoomView = RoomView(localSid: Sid, remoteSids: set<Sid>, activeSpeakers: seq<Sid>)

  function Min(a: nat, b: nat): nat { if a < b then a else b }

  /** The grid class and window capacity chosen from the participant count. */
  function LayoutFor(count: nat): (g: GridLayout)
    ensures g.numVisible == Min(count, 25)
    ensures g.cls == Grid1x1 <==> count == 1
    ensures g.cls == Grid2x1 <==> count == 2
    ensures g.cls == Grid2x2 <==> count == 0 || count == 3 || count == 4
    ensures g.cls == Grid3x3 <==> 5 <= count <= 9
    ensures g.cls == Grid4x4 <==> 10 <= count
  {
    if count == 1 then GridLayout(Grid1x1, 1)
    else if count == 2 then GridLayout(Grid2x1, 2)
    else if count <= 4 then GridLayout(Grid2x2, Min(count, 4))
    else if count <= 9 then GridLayout(Grid3x3, Min(count, 9))
    else if count <= 16 then GridLayout(Grid4x4, Min(count, 16))
    else GridLayout(Grid4x4, Min(count, 25))
  }

  /** The participant is the local one or a remote one of the room. */
  predicate Present(room: RoomView, sid: Sid)
  {
    sid in room.remoteSids || sid == room.localSid
  }

  /** As `Present`, where an absent room holds no one. */
  predicate PresentIn(room: Option<RoomView>, sid: Sid)
  {
    room.Some? && Present(room.value, sid)
  }

  // ---------------------------------------------------------------------------
  // The four steps of the window update, as functions of their inputs.
  // ---------------------------------------------------------------------------

  /** Step 1: the previous window without the participants who left. */
  function KeepPresent(prev: seq<Sid>, room: Option<RoomView>): seq<Sid>
  {
    if prev == [] then []
    else
      var last := prev[|prev| - 1];
      KeepPresent(prev[..|prev| - 1], room) + (if PresentIn(room, last) then [last] else [])
  }

  /** `findIndex` of the first entry that is not speaking, or -1. */
  function FirstNotSpeaking(w: seq<Sid>, speaking: set<Sid>): (i: int)
    ensures -1 <= i < |w|
    ensures i == -1 <==> forall k :: 0 <= k < |w| ==> w[k] in speaking
    ensures 0 <= i ==> w[i] !in speaking && forall k :: 0 <= k < i ==> w[k] in speaking
  {
    if w == [] then -1
    else if w[0] !in speaking then 0
    else
      var j := FirstNotSpeaking(w[1..], speaking);
      assert forall k :: 1 <= k < |w| ==> w[k] == w[1..][k - 1];
      if j == -1 then -1 else j + 1
  }

  /** Step 2 for one active speaker. */
  function PlaceSpeaker(w: seq<Sid>, s: Sid, room: RoomView, speaking: set<Sid>): seq<Sid>
  {
    if s in w || !Present(room, s) then w
    else
      var i := FirstNotSpeaking(w, speaking);
      if 0 <= i then w[i := s] else w + [s]
  }

  /** Step 2: every active speaker, in the room's order. */
  function PlaceSpeakers(w: seq<Sid>, speakers: seq<Sid>, room: RoomView, speaking: set<Sid>): seq<Sid>
  {
    if speakers == [] then w
    else
      PlaceSpeaker(PlaceSpeakers(w, speakers[..|speakers| - 1], room, speaking),
                   speakers[|speakers| - 1], room, speaking)
  }

  /** Step 2, skipped when there is no room. */
  function SpeakerStep(w: seq<Sid>, room: Option<RoomView>, speaking: set<Sid>): seq<Sid>
  {
    if room.Some? then PlaceSpeakers(w, room.value.activeSpeakers, room.value, speaking) else w
  }

  /** Step 3 for one participant of the ordered list. */
  function BackfillOne(w: seq<Sid>, p: Sid, n: nat, speaking: set<Sid>): seq<Sid>
  {
    if |w| < n && p !in w && p !in speaking then w + [p] else w
  }

  /** Step 3: the ordered participant list, in order. */
  function Backfill(w: seq<Sid>, ps: seq<Sid>, n: nat, speaking: set<Sid>): seq<Sid>
  {
    if ps == [] then w
    else BackfillOne(Backfill(w, ps[..|ps| - 1], n, speaking), ps[|ps| - 1], n, speaking)
  }

  /** Step 4: `splice` away everything from position `n` on. */
  function Truncate(w: seq<Sid>, n: nat): seq<Sid>
  {
    if |w| > n then w[..n] else w
  }

  /** The new visible window. */
  function Window(prev: seq<Sid>, participants: seq<Sid>, room: Option<RoomView>, speaking: set<Sid>): seq<Sid>
  {
    var n := LayoutFor(|participants|).numVisible;
    Truncate(Backfill(SpeakerStep(KeepPresent(prev, room), room, speaking), participants, n, speaking), n)
  }

  // ---------------------------------------------------------------------------
  // The update as the component runs it.
  // ---------------------------------------------------------------------------

  /** The `setVisibleParticipants` updater: builds the new window by push, overwrite and splice. */
  method SelectWindow(prev: seq<Sid>, participants: seq<Sid>, room: Option<RoomView>, speaking: set<Sid>)
    returns (next: seq<Sid>)
    ensures next == Window(prev, participants, room, speaking)
    ensures |next| <= Min(|participants|, 25)
  {
    var n := LayoutFor(|participants|).numVisible;

    // remove any participants that are no longer connected
    next := [];
    var i := 0;
    while i < |prev|
      invariant 0 <= i <= |prev|
      invariant next == KeepPresent(prev[..i], room)
    {
      assert prev[..i + 1][..i] == prev[..i];
      if PresentIn(room, prev[i]) {
        next := next + [prev[i]];
      }
      i := i + 1;
    }
    assert prev[..|prev|] == prev;
    ghost var kept := next;

    // ensure active speakers are all visible
    if room.Some? {
      var speakers := room.value.activeSpeakers;
      var k := 0;
      while k < |speakers|
        invariant 0 <= k <= |speakers|
        invariant next == PlaceSpeakers(kept, speakers[..k], room.value, speaking)
      {
        assert speakers[..k + 1][..k] == speakers[..k];
        var speaker := speakers[k];
        if !(speaker in next || (speaker != room.value.localSid && speaker !in room.value.remoteSids)) {
          var idx := FirstNotSpeaking(next, speaking);
          if idx >= 0 {
            next := next[idx := speaker];
          } else {
            next := next + [speaker];
          }
        }
        k := k + 1;
      }
      assert speakers[..|speakers|] == speakers;
    }
    ghost var placed := next;

    // add other non speakers
    var j := 0;
    while j < |participants|
      invariant 0 <= j <= |participants|
      invariant next == Backfill(placed, participants[..j], n, speaking)
    {
      assert participants[..j + 1][..j] == participants[..j];
      var participant := participants[j];
      var isFull := |next| >= n;
      var isVisible := participant in next || participant in speaking;
      if !isFull && !isVisible {
        next := next + [participant];
      }
      j := j + 1;
    }
    assert participants[..|participants|] == participants;

    if |next| > n {
      next := next[..n];
    }
  }

  /** The grid stage's signals. */
  class GridStage {
    var visible: seq<Sid>
    var gridClass: GridClass

    /** Initial signal values: an empty window and the 1x1 grid. */
    constructor ()
      ensures visible == [] && gridClass == Grid1x1
    {
      visible := [];
      gridClass := Grid1x1;
    }

    /** The effect that recomputes the grid class and the window. */
    method Recompute(participants: seq<Sid>, room: Option<RoomView>, speaking: set<Sid>)
      modifies this
      ensures gridClass == LayoutFor(|participants|).cls
      ensures visible == Window(old(visible), participants, room, speaking)
      ensures |visible| <= Min(|participants|, 25)
    {
      gridClass := LayoutFor(|participants|).cls;
      visible := SelectWindow(visible, participants, room, speaking);
    }
  }

  // ---------------------------------------------------------------------------
  // What the fallback view shows before the grid.
  // ---------------------------------------------------------------------------

  datatype StatusView = ErrorView(message: string) | ConnectingView | RoomClosedView | EmptyRoomView | GridView

  /** The `Switch` of the grid stage: the first matching case wins, the grid is the fallback. */
  function StatusFor(error: Option<Error>, isConnecting: bool, roomPresent: bool, participantCount: nat): (v: StatusView)
    ensures v.ErrorView? <==> error.Some?
    ensures v.ErrorView? ==> v.message == error.value.message
    ensures v == ConnectingView <==> error.None? && isConnecting
    ensures v == RoomClosedView <==> error.None? && !isConnecting && !roomPresent
    ensures v == EmptyRoomView <==> error.None? && !isConnecting && roomPresent && participantCount == 0
    ensures v == GridView <==> error.None? && !isConnecting && roomPresent && participantCount > 0
  {
    if error.Some? then ErrorView(error.value.message)
    else if isConnecting then ConnectingView
    else if !roomPresent then RoomClosedView
    else if participantCount == 0 then EmptyRoomView
    else GridView
  }

  /**
   * The `Switch` as written: each `when` reads a store accessor rather than
   * its value. An accessor is a function, which is truthy, has no `message`
   * and has a `length` of 0, so the error case always matches, with an empty
   * message.
   */
  function StatusAsWritten(): (v: StatusView)
    ensures v == ErrorView("")
  {
    StatusFor(Some(Error("")), true, true, 0)
  }

  /** Whenever there is no error, the status as written differs from the one the values call for. */
  lemma StatusAsWrittenHidesState(error: Option<Error>, isConnecting: bool, roomPresent: bool, participantCount: nat)
    ensures error.None? ==> StatusFor(error, isConnecting, roomPresent, participantCount) != StatusAsWritten()
    ensures StatusFor(None, false, true, 1) == GridView
  {
  }

}

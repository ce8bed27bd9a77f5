/**
 * What the grid window update guarantees: a bounded, duplicate-free window,
 * built only from the previous window, the active speakers and the ordered
 * list, that keeps speakers in place and does not churn when nothing changed.
 */
module DesktopGridProperties {
  import opened LiveKit
  import opened Seqs
  import opened DesktopGrid

  // ---------------------------------------------------------------------------
  // Step by step
  // ---------------------------------------------------------------------------

  /** Dropping departed members keeps exactly the present ones. */
  lemma {:induction false} KeepPresentMembers(prev: seq<Sid>, room: Option<RoomView>)
    ensures |KeepPresent(prev, room)| <= |prev|
    ensures forall x :: x in KeepPresent(prev, room) <==> x in prev && PresentIn(room, x)
  {
    if prev != [] {
      var init := prev[..|prev| - 1];
      assert prev == init + [prev[|prev| - 1]];
      KeepPresentMembers(init, room);
    }
  }

  /** Each present member is kept as many times as it occurred, each departed one not at all. */
  lemma {:induction false} KeepPresentCounts(prev: seq<Sid>, room: Option<RoomView>)
    ensures forall x :: multiset(KeepPresent(prev, room))[x] == if PresentIn(room, x) then multiset(prev)[x] else 0
  {
    if prev != [] {
      var init := prev[..|prev| - 1];
      assert prev == init + [prev[|prev| - 1]];
      KeepPresentCounts(init, room);
    }
  }

  /** The kept members stay in their previous order. */
  lemma {:induction false} KeepPresentInOrder(prev: seq<Sid>, room: Option<RoomView>)
    ensures IsSubsequence(KeepPresent(prev, room), prev)
  {
    if prev != [] {
      var init, last := prev[..|prev| - 1], prev[|prev| - 1];
      assert prev == init + [last];
      KeepPresentInOrder(init, room);
      var k := KeepPresent(init, room);
      if PresentIn(room, last) {
        SubseqSnoc(k, init, last);
      } else {
        assert KeepPresent(prev, room) == k;
        SubseqExtend(k, init, last);
      }
    }
  }

  /** Dropping members adds no duplicates. */
  lemma {:induction false} KeepPresentNoDup(prev: seq<Sid>, room: Option<RoomView>)
    requires NoDup(prev)
    ensures NoDup(KeepPresent(prev, room))
  {
    if prev != [] {
      var init, last := prev[..|prev| - 1], prev[|prev| - 1];
      assert prev == init + [last];
      NoDupSnoc(init, last);
      KeepPresentNoDup(init, room);
      KeepPresentMembers(init, room);
      if PresentIn(room, last) {
        NoDupSnoc(KeepPresent(init, room), last);
      }
    }
  }

  /** Dropping departed members keeps exactly the present ones, in their previous order. */
  lemma KeepPresentSpec(prev: seq<Sid>, room: Option<RoomView>)
    ensures var r := KeepPresent(prev, room);
      && |r| <= |prev|
      && (forall x :: x in r <==> x in prev && PresentIn(room, x))
      && IsSubsequence(r, prev)
      && (NoDup(prev) ==> NoDup(r))
  {
    KeepPresentMembers(prev, room);
    KeepPresentInOrder(prev, room);
    if NoDup(prev) {
      KeepPresentNoDup(prev, room);
    }
  }

  /** One active speaker: skipped, swapped in for the first non-speaker, or appended. */
  lemma PlaceSpeakerStep(w: seq<Sid>, s: Sid, room: RoomView, speaking: set<Sid>)
    ensures var r := PlaceSpeaker(w, s, room, speaking);
      && |w| <= |r| <= |w| + 1
      && (forall x :: x in r ==> x in w || (x == s && Present(room, s)))
      && (NoDup(w) ==> NoDup(r))
      && (forall i :: 0 <= i < |w| && w[i] in speaking ==> r[i] == w[i])
      && (Present(room, s) ==> s in r)
      && (|r| == |w| + 1 ==> r == w + [s] && forall x :: x in w ==> x in speaking)
      && ((s in w || !Present(room, s)) ==> r == w)
      && (s !in w && Present(room, s) && 0 <= FirstNotSpeaking(w, speaking) ==>
            r == w[FirstNotSpeaking(w, speaking) := s])
      && (s !in w && Present(room, s) && FirstNotSpeaking(w, speaking) == -1 ==> r == w + [s])
  {
    if s !in w && Present(room, s) {
      var i := FirstNotSpeaking(w, speaking);
      if 0 <= i {
        var r := w[i := s];
        assert PlaceSpeaker(w, s, room, speaking) == r;
        forall x | x in r ensures x in w || x == s {
          var j :| 0 <= j < |r| && r[j] == x;
          if j != i { assert x == w[j]; }
        }
        if NoDup(w) {
          forall a, b | 0 <= a < b < |r| ensures r[a] != r[b] {
            if a != i && b != i { assert r[a] == w[a] && r[b] == w[b]; }
          }
        }
        forall j | 0 <= j < |w| && w[j] in speaking ensures r[j] == w[j] {
          assert j != i;
        }
        assert r[i] == s;
      } else {
        NoDupSnoc(w, s);
      }
    }
  }

  /**
   * All active speakers: the window only grows by inserted speakers, keeps every
   * speaking member where it was and, when every listed speaker is flagged as
   * speaking, ends up holding each present one.
   */
  lemma {:induction false} PlaceSpeakersSpec(w: seq<Sid>, sp: seq<Sid>, room: RoomView, speaking: set<Sid>)
    ensures var r := PlaceSpeakers(w, sp, room, speaking);
      && |w| <= |r| <= |w| + |sp|
      && (forall x :: x in r ==> x in w || (x in sp && Present(room, x)))
      && (NoDup(w) ==> NoDup(r))
      && (forall i :: 0 <= i < |w| && w[i] in speaking ==> r[i] == w[i])
      && ((forall s :: s in sp ==> s in speaking) ==>
            forall s :: s in sp && Present(room, s) ==> s in r)
  {
    if sp != [] {
      var init, last := sp[..|sp| - 1], sp[|sp| - 1];
      assert sp == init + [last];
      PlaceSpeakersSpec(w, init, room, speaking);
      var r' := PlaceSpeakers(w, init, room, speaking);
      PlaceSpeakerStep(r', last, room, speaking);
      var r := PlaceSpeaker(r', last, room, speaking);
      if forall s :: s in sp ==> s in speaking {
        forall s | s in sp && Present(room, s) ensures s in r {
          if s != last {
            assert s in init;
            var j :| 0 <= j < |r'| && r'[j] == s;
            assert r[j] == s;
          }
        }
      }
    }
  }

  /** Backfill only appends, stops at capacity, and appends only list entries neither visible nor speaking. */
  lemma {:induction false} BackfillAppends(w: seq<Sid>, ps: seq<Sid>, n: nat, speaking: set<Sid>)
    ensures var r := Backfill(w, ps, n, speaking);
      && |w| <= |r| && r[..|w|] == w
      && |r| <= (if |w| < n then n else |w|)
      && (forall k :: |w| <= k < |r| ==> r[k] in ps && r[k] !in w && r[k] !in speaking)
  {
    if ps != [] {
      var init := ps[..|ps| - 1];
      assert ps == init + [ps[|ps| - 1]];
      BackfillAppends(w, init, n, speaking);
      var r' := Backfill(w, init, n, speaking);
      assert r'[..|w|] == w;
      assert forall x :: x in w ==> x in r';
    }
  }

  /** The appended entries keep the list's order. */
  lemma {:induction false} BackfillInOrder(w: seq<Sid>, ps: seq<Sid>, n: nat, speaking: set<Sid>)
    ensures |w| <= |Backfill(w, ps, n, speaking)|
    ensures IsSubsequence(Backfill(w, ps, n, speaking)[|w|..], ps)
  {
    if ps != [] {
      var init, last := ps[..|ps| - 1], ps[|ps| - 1];
      assert ps == init + [last];
      BackfillInOrder(w, init, n, speaking);
      var r' := Backfill(w, init, n, speaking);
      if |r'| < n && last !in r' && last !in speaking {
        assert (r' + [last])[|w|..] == r'[|w|..] + [last];
        SubseqSnoc(r'[|w|..], init, last);
      } else {
        SubseqExtend(r'[|w|..], init, last);
      }
    }
  }

  /** Backfill adds no duplicates. */
  lemma {:induction false} BackfillNoDup(w: seq<Sid>, ps: seq<Sid>, n: nat, speaking: set<Sid>)
    requires NoDup(w)
    ensures NoDup(Backfill(w, ps, n, speaking))
  {
    if ps != [] {
      var init, last := ps[..|ps| - 1], ps[|ps| - 1];
      BackfillNoDup(w, init, n, speaking);
      var r' := Backfill(w, init, n, speaking);
      if |r'| < n && last !in r' && last !in speaking {
        NoDupSnoc(r', last);
      }
    }
  }

  /** A list entry is left out only when it is visible, speaking, or the window is full. */
  lemma {:induction false} BackfillComplete(w: seq<Sid>, ps: seq<Sid>, n: nat, speaking: set<Sid>)
    ensures var r := Backfill(w, ps, n, speaking);
      forall p :: p in ps ==> p in r || p in speaking || |r| >= n
  {
    if ps != [] {
      var init, last := ps[..|ps| - 1], ps[|ps| - 1];
      assert ps == init + [last];
      BackfillComplete(w, init, n, speaking);
      var r' := Backfill(w, init, n, speaking);
      var r := Backfill(w, ps, n, speaking);
      assert forall x :: x in r' ==> x in r;
    }
  }

  /**
   * Backfill only appends, in list order, participants that were neither
   * visible nor speaking, stops at capacity, and leaves out a participant only
   * when it is visible, speaking, or the window is full.
   */
  lemma BackfillSpec(w: seq<Sid>, ps: seq<Sid>, n: nat, speaking: set<Sid>)
    ensures var r := Backfill(w, ps, n, speaking);
      && |w| <= |r| && r[..|w|] == w
      && |r| <= (if |w| < n then n else |w|)
      && (forall k :: |w| <= k < |r| ==> r[k] in ps && r[k] !in w && r[k] !in speaking)
      && IsSubsequence(r[|w|..], ps)
      && (NoDup(w) ==> NoDup(r))
      && (forall p :: p in ps ==> p in r || p in speaking || |r| >= n)
  {
    BackfillAppends(w, ps, n, speaking);
    BackfillInOrder(w, ps, n, speaking);
    if NoDup(w) {
      BackfillNoDup(w, ps, n, speaking);
    }
    BackfillComplete(w, ps, n, speaking);
  }

  // ---------------------------------------------------------------------------
  // The whole update
  // ---------------------------------------------------------------------------

  /** If the previous window had no duplicates, neither has the new one. */
  lemma WindowNoDup(prev: seq<Sid>, participants: seq<Sid>, room: Option<RoomView>, speaking: set<Sid>)
    requires NoDup(prev)
    ensures NoDup(Window(prev, participants, room, speaking))
  {
    var n := LayoutFor(|participants|).numVisible;
    var w0 := KeepPresent(prev, room);
    KeepPresentSpec(prev, room);
    if room.Some? {
      PlaceSpeakersSpec(w0, room.value.activeSpeakers, room.value, speaking);
    }
    BackfillSpec(SpeakerStep(w0, room, speaking), participants, n, speaking);
  }

  /**
   * Nothing else enters the window: each member is a present member of the
   * previous window, a present active speaker, or an entry of the ordered list.
   */
  lemma WindowProvenance(prev: seq<Sid>, participants: seq<Sid>, room: Option<RoomView>, speaking: set<Sid>)
    ensures forall x :: x in Window(prev, participants, room, speaking) ==>
      || (x in prev && PresentIn(room, x))
      || (room.Some? && x in room.value.activeSpeakers && Present(room.value, x))
      || x in participants
  {
    var n := LayoutFor(|participants|).numVisible;
    var w0 := KeepPresent(prev, room);
    KeepPresentMembers(prev, room);
    if room.Some? {
      PlaceSpeakersSpec(w0, room.value.activeSpeakers, room.value, speaking);
    }
    var w1 := SpeakerStep(w0, room, speaking);
    BackfillAppends(w1, participants, n, speaking);
    var b := Backfill(w1, participants, n, speaking);
    forall x | x in Window(prev, participants, room, speaking)
      ensures x in w1 || x in participants
    {
      var k :| 0 <= k < |b| && b[k] == x;
      if k < |w1| { assert b[..|w1|][k] == x; }
    }
  }

  /**
   * Backfill and truncation never move what the speaker step produced: its
   * first `numVisible` entries open the new window, in the same places.
   */
  lemma WindowKeepsSpeakerStepHead(prev: seq<Sid>, participants: seq<Sid>, room: Option<RoomView>, speaking: set<Sid>)
    ensures var n := LayoutFor(|participants|).numVisible;
            var w1 := SpeakerStep(KeepPresent(prev, room), room, speaking);
            var r := Window(prev, participants, room, speaking);
            forall j :: 0 <= j < |w1| && j < n ==> j < |r| && r[j] == w1[j]
  {
    var n := LayoutFor(|participants|).numVisible;
    var w1 := SpeakerStep(KeepPresent(prev, room), room, speaking);
    BackfillAppends(w1, participants, n, speaking);
    var b := Backfill(w1, participants, n, speaking);
    forall j | 0 <= j < |w1| && j < n ensures b[j] == w1[j] {
      assert b[..|w1|][j] == b[j];
    }
  }

  /**
   * Speaker preservation: when every listed active speaker reports speaking and
   * the speaker step did not overflow the capacity, every present active
   * speaker is visible.
   */
  lemma SpeakersVisible(prev: seq<Sid>, participants: seq<Sid>, room: Option<RoomView>, speaking: set<Sid>)
    requires room.Some?
    requires forall s :: s in room.value.activeSpeakers ==> s in speaking
    requires |SpeakerStep(KeepPresent(prev, room), room, speaking)| <= LayoutFor(|participants|).numVisible
    ensures forall s :: s in room.value.activeSpeakers && Present(room.value, s) ==>
              s in Window(prev, participants, room, speaking)
  {
    var w0 := KeepPresent(prev, room);
    var w1 := SpeakerStep(w0, room, speaking);
    PlaceSpeakersSpec(w0, room.value.activeSpeakers, room.value, speaking);
    WindowKeepsSpeakerStepHead(prev, participants, room, speaking);
    var r := Window(prev, participants, room, speaking);
    forall s | s in room.value.activeSpeakers && Present(room.value, s) ensures s in r {
      var j :| 0 <= j < |w1| && w1[j] == s;
      assert r[j] == s;
    }
  }

  /**
   * The scenario of a full window and one new speaker: the speaker takes the
   * slot of the first non-speaking member and the window keeps its size.
   */
  lemma NewSpeakerSwapsIntoFullWindow(prev: seq<Sid>, participants: seq<Sid>, room: RoomView, speaking: set<Sid>, s: Sid)
    requires room.activeSpeakers == [s] && Present(room, s) && s !in prev
    requires forall x :: x in prev ==> Present(room, x)
    requires |prev| == LayoutFor(|participants|).numVisible
    requires 0 <= FirstNotSpeaking(prev, speaking)
    ensures Window(prev, participants, Some(room), speaking) == prev[FirstNotSpeaking(prev, speaking) := s]
  {
    var n := LayoutFor(|participants|).numVisible;
    KeepAllPresent(prev, Some(room));
    assert [s][..0] == [];
    assert PlaceSpeakers(prev, [s][..0], room, speaking) == prev;
    var w1 := prev[FirstNotSpeaking(prev, speaking) := s];
    assert PlaceSpeakers(prev, [s], room, speaking) == PlaceSpeaker(prev, s, room, speaking) == w1;
    assert SpeakerStep(prev, Some(room), speaking) == w1;
    BackfillNoop(w1, participants, n, speaking);
  }

  /** On first mount, with nobody speaking, the window is the head of the ordered list. */
  lemma FirstMountWindow(participants: seq<Sid>, room: Option<RoomView>, speaking: set<Sid>)
    requires NoDup(participants)
    requires forall p :: p in participants ==> p !in speaking
    requires room.Some? ==> room.value.activeSpeakers == []
    ensures Window([], participants, room, speaking) == participants[..Min(|participants|, 25)]
  {
    BackfillFromEmpty(participants, LayoutFor(|participants|).numVisible, speaking);
  }

  /**
   * Churn minimisation: recomputing with unchanged inputs gives the same window,
   * when the ordered list holds only present participants, every listed active
   * speaker reports speaking, and the speaker step did not overflow.
   */
  lemma WindowStable(prev: seq<Sid>, participants: seq<Sid>, room: Option<RoomView>, speaking: set<Sid>)
    requires forall p :: p in participants ==> PresentIn(room, p)
    requires room.Some? ==> forall s :: s in room.value.activeSpeakers ==> s in speaking
    requires |SpeakerStep(KeepPresent(prev, room), room, speaking)| <= LayoutFor(|participants|).numVisible
    ensures var r := Window(prev, participants, room, speaking);
            Window(r, participants, room, speaking) == r
  {
    var n := LayoutFor(|participants|).numVisible;
    var w1 := SpeakerStep(KeepPresent(prev, room), room, speaking);
    SpeakerStepFacts(prev, room, speaking);
    BackfillAppends(w1, participants, n, speaking);
    BackfillComplete(w1, participants, n, speaking);
    var r := Backfill(w1, participants, n, speaking);
    assert Window(prev, participants, room, speaking) == r;
    PrefixMembers(w1, r);
    assert forall x :: x in r ==> PresentIn(room, x) by {
      forall x | x in r ensures PresentIn(room, x) {
        if x !in w1 {
          var k :| |w1| <= k < |r| && r[k] == x;
          assert x in participants;
        }
      }
    }
    WindowFixedPoint(r, participants, room, speaking);
  }

  /** After the speaker step everyone is present, and so is every present flagged speaker. */
  lemma SpeakerStepFacts(prev: seq<Sid>, room: Option<RoomView>, speaking: set<Sid>)
    ensures forall x :: x in SpeakerStep(KeepPresent(prev, room), room, speaking) ==> PresentIn(room, x)
    ensures room.Some? && (forall s :: s in room.value.activeSpeakers ==> s in speaking) ==>
              forall s :: s in room.value.activeSpeakers && Present(room.value, s) ==>
                s in SpeakerStep(KeepPresent(prev, room), room, speaking)
  {
    var w0 := KeepPresent(prev, room);
    KeepPresentMembers(prev, room);
    if room.Some? {
      PlaceSpeakersSpec(w0, room.value.activeSpeakers, room.value, speaking);
    }
  }

  /** A window that needs nothing dropped, inserted or added is left as it is. */
  lemma WindowFixedPoint(r: seq<Sid>, participants: seq<Sid>, room: Option<RoomView>, speaking: set<Sid>)
    requires forall x :: x in r ==> PresentIn(room, x)
    requires room.Some? ==> forall s :: s in room.value.activeSpeakers && Present(room.value, s) ==> s in r
    requires forall p :: p in participants ==> p in r || p in speaking || |r| >= LayoutFor(|participants|).numVisible
    requires |r| <= LayoutFor(|participants|).numVisible
    ensures Window(r, participants, room, speaking) == r
  {
    KeepAllPresent(r, room);
    if room.Some? {
      PlaceSpeakersNoop(r, room.value.activeSpeakers, room.value, speaking);
    }
    BackfillNoop(r, participants, LayoutFor(|participants|).numVisible, speaking);
  }

  /** What a prefix holds, the whole holds; what the whole holds beyond it, comes after it. */
  lemma PrefixMembers(w: seq<Sid>, r: seq<Sid>)
    requires |w| <= |r| && r[..|w|] == w
    ensures forall x :: x in w ==> x in r
    ensures forall x :: x in r ==> x in w || exists k :: |w| <= k < |r| && r[k] == x
  {
    forall x | x in r ensures x in w || exists k :: |w| <= k < |r| && r[k] == x {
      var k :| 0 <= k < |r| && r[k] == x;
      if k < |w| { assert r[..|w|][k] == x; }
    }
  }

  // ---------------------------------------------------------------------------
  // Helpers: when a step changes nothing
  // ---------------------------------------------------------------------------

  lemma {:induction false} KeepAllPresent(w: seq<Sid>, room: Option<RoomView>)
    requires forall x :: x in w ==> PresentIn(room, x)
    ensures KeepPresent(w, room) == w
  {
    if w != [] {
      assert w == w[..|w| - 1] + [w[|w| - 1]];
      KeepAllPresent(w[..|w| - 1], room);
    }
  }

  lemma {:induction false} PlaceSpeakersNoop(w: seq<Sid>, sp: seq<Sid>, room: RoomView, speaking: set<Sid>)
    requires forall s :: s in sp ==> s in w || !Present(room, s)
    ensures PlaceSpeakers(w, sp, room, speaking) == w
  {
    if sp != [] {
      assert sp == sp[..|sp| - 1] + [sp[|sp| - 1]];
      PlaceSpeakersNoop(w, sp[..|sp| - 1], room, speaking);
    }
  }

  lemma {:induction false} BackfillNoop(w: seq<Sid>, ps: seq<Sid>, n: nat, speaking: set<Sid>)
    requires forall p :: p in ps ==> p in w || p in speaking || |w| >= n
    ensures Backfill(w, ps, n, speaking) == w
  {
    if ps != [] {
      assert ps == ps[..|ps| - 1] + [ps[|ps| - 1]];
      BackfillNoop(w, ps[..|ps| - 1], n, speaking);
    }
  }

  lemma {:induction false} BackfillFromEmpty(ps: seq<Sid>, n: nat, speaking: set<Sid>)
    requires NoDup(ps)
    requires forall p :: p in ps ==> p !in speaking
    ensures Backfill([], ps, n, speaking) == ps[..Min(|ps|, n)]
  {
    if ps != [] {
      var init, last := ps[..|ps| - 1], ps[|ps| - 1];
      assert ps == init + [last];
      NoDupSnoc(init, last);
      BackfillFromEmpty(init, n, speaking);
      if |init| < n {
        assert init[..Min(|init|, n)] == init;
      } else {
        assert init[..n] == ps[..n];
      }
    }
  }
}

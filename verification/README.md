# solid-livekit core, modelled in Dafny

This project models the reactive core of a Solid.js binding for the LiveKit
video-conferencing client:

- **the room store** (`createRoom`, in two copies: `src/signals/createRoom.ts` and the older
  `src/createRoom.ts`). Connecting, the connecting flag and the last error, the sorted
  participant list, and the remote audio tracks. The store keeps them current through listeners
  it places on the room, and removes those listeners again on disconnect.
- **the per-participant projection** (`createParticipant`). Signals kept in step with one
  participant by 11 event listeners, a mute value derived from its audio publications, and the
  snapshot accessor that the views read.
- **the desktop grid stage** (`GridStage`). The grid class and capacity for the participant
  count, and the window of visible participants. The window keeps members that are still
  present, swaps active speakers in, back-fills from the participant list and truncates to
  capacity.
- **the stage view** (`StageView`). It chooses the mobile, speaker or grid stage, tracks the
  first subscribed screen share, renders one audio element per remote audio track, and shows
  the unmute overlay.
- **the participant tile** (`ParticipantView`). Its orientation, the camera video's
  orientation, object fit, display name, bitrate total, whether video is shown, its class list
  and its connection-quality icon.

## Modelling approach

- **Solid signals** become the fields of a `class`. Each event handler and each effect becomes
  a `method` whose `modifies` clause names only the signals it sets.
- **Accessors** become functions that `reads` the object.
- **Loops in the source** (`forEach` with accumulation) become methods with loops. Each is
  proved equal to a recursive specification function, and the properties are proved as lemmas
  about that function.
- **The LiveKit client** is not modelled. Participants, publications and tracks are immutable
  snapshots (`LiveKit.Participant`) handed to each handler as a parameter. Rooms are the
  `RoomState.Session` class, because the stores keep a reference to the room and add and remove
  listeners on it.
- **An emitter's listener table** is a multiset of (event, handler) pairs.
- **Object identity** of participants is modelled by their `sid`.
- **The async connect** is split at its `await`:
  - `BeginConnect` is the part before it;
  - `ConnectSucceeded` is the part after a resolved connect;
  - `ConnectFailed` is the `catch`.
- **The timer** that clears the room after a disconnect is the counter `pendingClears`. Firing
  it is `RunDeferredClear`. In the signals copy, `Dispose` models the intended cancellation of
  every pending clear, and `DisposeAsWritten` models the code as written, which cancels nothing
  (see Findings).
- **The participant sort** is a parameter of type `RoomState.Sorter`. Its one assumed property,
  that it only reorders, is the predicate `RoomState.Permutes`.
- **Grid capacity** is `min(count, 25)` for every participant count, and 0 participants give
  `grid2x2` (`GridStage.tsx` lines 33-55).
- **Placing an active speaker:** the speaker replaces the first non-speaking window member
  whenever one exists, even when the window has room. It is appended only when every member is
  speaking (`GridStage.tsx` lines 80-88).
- **The derived-mute effect** in `createParticipant.ts` (lines 125-151) reads no signal, so it
  runs once, at creation.

## Model

| member | source | states |
|---|---|---|
| DesktopGrid.LayoutFor | src/components/desktop/GridStage.tsx:34-55 | capacity is min(count, 25), and each grid class is chosen for exactly its count range: 1; 2; 0, 3 or 4; 5-9; 10 and above |
| DesktopGrid.FirstNotSpeaking | src/components/desktop/GridStage.tsx:81-83 | the index of the first non-speaking member, or -1 exactly when every member is speaking |
| DesktopGridProperties.KeepPresentMembers | src/components/desktop/GridStage.tsx:58-69 | the pruned window holds exactly the previous members still in the room, and is no longer than before |
| DesktopGridProperties.KeepPresentCounts | src/components/desktop/GridStage.tsx:63-69 | each present member is kept exactly as often as it occurred, each departed one not at all |
| DesktopGridProperties.KeepPresentInOrder | src/components/desktop/GridStage.tsx:63-69 | pruning keeps the previous order (a subsequence) |
| DesktopGridProperties.KeepPresentNoDup | src/components/desktop/GridStage.tsx:63-69 | pruning a duplicate-free window leaves it duplicate-free |
| DesktopGridProperties.KeepPresentSpec | src/components/desktop/GridStage.tsx:58-69 | the three pruning facts together |
| DesktopGridProperties.PlaceSpeakerStep | src/components/desktop/GridStage.tsx:72-88 | one active speaker: the window is unchanged when the speaker is already in or absent; otherwise the speaker overwrites exactly the first non-speaking entry, or is appended when every entry is speaking. Speaking members keep their places and no duplicate arises |
| DesktopGridProperties.PlaceSpeakersSpec | src/components/desktop/GridStage.tsx:71-89 | over all active speakers: the window grows by at most one per speaker and only by present speakers; speaking members stay put; no duplicates; and, when every listed speaker is flagged as speaking, every present one ends up visible |
| DesktopGridProperties.BackfillAppends | src/components/desktop/GridStage.tsx:91-99 | back-fill only appends and stops at capacity; every appended entry comes from the participant list and is neither visible already nor speaking |
| DesktopGridProperties.BackfillInOrder | src/components/desktop/GridStage.tsx:92-99 | the appended entries follow participant-list order |
| DesktopGridProperties.BackfillNoDup | src/components/desktop/GridStage.tsx:92-99 | back-fill adds no duplicate |
| DesktopGridProperties.BackfillComplete | src/components/desktop/GridStage.tsx:92-99 | afterwards each listed participant is visible or speaking, or the window is full |
| DesktopGridProperties.BackfillSpec | src/components/desktop/GridStage.tsx:91-99 | the back-fill facts together |
| DesktopGridProperties.WindowNoDup | src/components/desktop/GridStage.tsx:57-106 | the new window is duplicate-free when the previous one was |
| DesktopGridProperties.WindowProvenance | src/components/desktop/GridStage.tsx:57-106 | every visible participant was visible before and is still present, or is a present active speaker, or comes from the participant list |
| DesktopGridProperties.WindowKeepsSpeakerStepHead | src/components/desktop/GridStage.tsx:91-103 | back-fill and truncation never disturb the first capacity-many entries that pruning and speaker placement produced |
| DesktopGridProperties.SpeakersVisible | src/components/desktop/GridStage.tsx:71-103 | when every listed active speaker reports speaking and the speaker step fits the capacity, every present active speaker is visible after the update |
| DesktopGridProperties.NewSpeakerSwapsIntoFullWindow | src/components/desktop/GridStage.tsx:80-88 | a new speaker entering a full window takes the place of the first non-speaker, and nothing else changes |
| DesktopGridProperties.FirstMountWindow | src/components/desktop/GridStage.tsx:26-28 | from the initial empty window, with no one speaking, the window is the first min(count, 25) participants in list order |
| DesktopGridProperties.WindowStable | src/components/desktop/GridStage.tsx:57-106 | recomputing with unchanged inputs returns the same window (the effect is idempotent), when the list holds only present participants, every listed speaker reports speaking and the speaker step fits the capacity |
| DesktopGridProperties.SpeakerStepFacts | src/components/desktop/GridStage.tsx:58-89 | after pruning and speaker placement every member is present, and every present speaker is in |
| DesktopGridProperties.WindowFixedPoint | src/components/desktop/GridStage.tsx:57-106 | a window of present members that holds every present speaker and is full, or has no participant left to add, is returned unchanged |
| DesktopGridProperties.KeepAllPresent | src/components/desktop/GridStage.tsx:63-69 | pruning a window whose members are all present changes nothing |
| DesktopGridProperties.PlaceSpeakersNoop | src/components/desktop/GridStage.tsx:72-78 | speakers already visible or absent leave the window unchanged |
| DesktopGridProperties.BackfillNoop | src/components/desktop/GridStage.tsx:92-99 | back-fill changes nothing when each participant is visible or speaking, or the window is full |
| DesktopGridProperties.BackfillFromEmpty | src/components/desktop/GridStage.tsx:92-99 | back-filling an empty window with a duplicate-free, non-speaking list takes its first capacity-many entries |
| DesktopGridProperties.PrefixMembers | src/components/desktop/GridStage.tsx:91-99 | a window that extends a prefix keeps that prefix's members, and each of its other members lies past the prefix |
| DesktopGrid.SelectWindow | src/components/desktop/GridStage.tsx:57-106 | the three loops and the splice compute the window function, and the result never exceeds min(count, 25) |
| DesktopGrid.GridStage.constructor | src/components/desktop/GridStage.tsx:26-30 | initially there are no visible participants and the class is grid1x1 |
| DesktopGrid.GridStage.Recompute | src/components/desktop/GridStage.tsx:33-107 | the effect sets the grid class for the count and replaces the window by the window function of the old one, within capacity |
| DesktopGrid.StatusFor | src/components/desktop/GridStage.tsx:145-157 | the Switch precedence: error, then connecting, then room closed, then empty room, else the grid; each view is shown exactly under its condition |
| DesktopGrid.StatusAsWritten | src/components/desktop/GridStage.tsx:145-147 | as written the Switch tests the store accessors themselves, so the error view always shows, with an empty message |
| DesktopGrid.StatusAsWrittenHidesState | src/components/desktop/GridStage.tsx:145-157 | whenever there is no error, the view as written differs from the one the store values call for |
| LiveKit.AudioPublications | src/signals/createParticipant.ts:128 | a participant's audio publications are exactly its publications of kind audio |
| LiveKit.GetTrack | src/signals/createParticipant.ts:161-163 | the lookup by source finds a publication exactly when one with that source exists, and returns the first such |
| CreateParticipant.SubscribedOf | src/signals/createParticipant.ts:52-54 | the filter keeps exactly the subscribed publications that have a track, in their order and with their multiplicity |
| CreateParticipant.DerivedMute | src/signals/createParticipant.ts:125-134 | the loop yields the last audio publication's muted flag, or muted when there is no audio publication |
| CreateParticipant.ListenerSetsMatch | src/signals/createParticipant.ts:88-122 | the cleanup's 11 `.off` pairs are exactly the 11 distinct `.on` pairs of the setup |
| CreateParticipant.AttachThenCleanupRestores | src/signals/createParticipant.ts:87-123 | setup followed by cleanup leaves any listener table as it was |
| CreateParticipant.ParticipantProjection.constructor | src/signals/createParticipant.ts:37-47 | the initial signal values: not muted, not speaking, the participant's connection quality, no metadata, no publications |
| CreateParticipant.ParticipantProjection.HandlePublicationsChanged | src/signals/createParticipant.ts:49-55 | publications become the participant's tracks, and subscribed tracks become their subscribed, track-bearing subset |
| CreateParticipant.ParticipantProjection.HandleMuted | src/signals/createParticipant.ts:57-63 | an audio publication mutes audio, a video one mutes video, and the other flag is unchanged |
| CreateParticipant.ParticipantProjection.HandleUnmuted | src/signals/createParticipant.ts:65-71 | an audio publication unmutes audio, a video one unmutes video, and the other flag is unchanged |
| CreateParticipant.ParticipantProjection.HandleMetadataChanged | src/signals/createParticipant.ts:73-77 | metadata is copied only when non-empty; otherwise the old value is kept |
| CreateParticipant.ParticipantProjection.HandleIsSpeakingChanged | src/signals/createParticipant.ts:79-81 | the speaking flag follows the participant |
| CreateParticipant.ParticipantProjection.HandleConnectionQualityUpdate | src/signals/createParticipant.ts:83-85 | connection quality follows the participant |
| CreateParticipant.ParticipantProjection.Attach | src/signals/createParticipant.ts:87-105 | the setup effect adds the 11 listeners and seeds metadata, speaking flag and publications |
| CreateParticipant.ParticipantProjection.ApplyDerivedMute | src/signals/createParticipant.ts:136-150 | both mute flags take the derived mute value |
| CreateParticipant.ParticipantProjection.Cleanup | src/signals/createParticipant.ts:107-123 | the 11 listeners are removed |
| CreateParticipant.ParticipantProjection.Snapshot | src/signals/createParticipant.ts:153-166 | the accessor returns every signal's value (speaking, both mute flags, connection quality, metadata, publications, subscribed tracks) with the participant's tracks and local flag, and each camera, microphone or screen-share entry is present exactly when the participant has a publication of that source, which it is |
| CreateParticipant.NewParticipantProjection | src/signals/createParticipant.ts:34-151 | a new projection carries exactly the 11 listeners, the seeded metadata, speaking flag and publications, and both mute flags equal the derived value |
| RoomState.RoomListenerSetsMatch | src/signals/createRoom.ts:88-113 | the 8 `.off` pairs equal the 8 distinct `.on` pairs, and the one-shot disconnect pair is not among them |
| RoomState.ConnectThenDisconnectRestores | src/signals/createRoom.ts:88-113 | adding the one-shot and the 8 listeners, then removing both, leaves any listener table as it was |
| RoomState.Session.constructor | src/signals/createRoom.ts:61 | a connected room with its local participant, remotes and playback flag, and no listeners |
| RoomState.OrderedParticipantsMembers | src/signals/createRoom.ts:64-69 | with a sort that only reorders, the list holds the local participant and every remote, once per occurrence, and has length 1 + remotes |
| RoomState.AttachedAudioMembers | src/signals/createRoom.ts:78-82 | one participant contributes at most one track per audio publication, and exactly the tracks its audio publications carry |
| RoomState.RemoteAudioTracksMembers | src/signals/createRoom.ts:76-83 | a track is collected exactly when some remote participant has an audio publication carrying it |
| RoomState.PushAttachedAudio | src/signals/createRoom.ts:78-82 | the inner loop appends that participant's attached audio tracks to the accumulator |
| RoomState.CollectAudioTracks | src/signals/createRoom.ts:76-83 | the nested loop computes the remote audio tracks, participant by participant |
| CreateRoom.Store.constructor | src/signals/createRoom.ts:45-51 | the initial signals: no room, not connecting, no error, no participants or tracks, and the given sort |
| CreateRoom.Store.BeginConnect | src/signals/createRoom.ts:58 | connecting is set before the await |
| CreateRoom.Store.HandleParticipantsChanged | src/signals/createRoom.ts:64-69 | the participant list becomes the sorted local-then-remotes list |
| CreateRoom.Store.HandleSubscribedTrackChanged | src/signals/createRoom.ts:71-86 | re-sorts, and recollects audio tracks exactly for no track or an audio track; otherwise the tracks are unchanged |
| CreateRoom.Store.ConnectSucceeded | src/signals/createRoom.ts:60-118 | sets the room, adds the one-shot and the 8 listeners, clears connecting, leaves participants and audio tracks current, and resolves with the room (line 118) |
| CreateRoom.Store.ConnectFailed | src/signals/createRoom.ts:119-129 | clears connecting, records the thrown Error or else the generic "an error has occured" (`RoomState.Normalise`), and resolves with undefined (line 128) |
| CreateRoom.Store.HandleDisconnected | src/signals/createRoom.ts:88-102 | the one-shot and the 8 listeners are removed, and one clear of the room is scheduled |
| CreateRoom.Store.RunDeferredClear | src/signals/createRoom.ts:89 | a scheduled clear sets the room to undefined |
| CreateRoom.Store.Dispose | src/signals/createRoom.ts:101 | as intended (the corrected half of a finding): disposal cancels every scheduled clear |
| CreateRoom.Store.DisposeAsWritten | src/signals/createRoom.ts:101 | as written: the cancellation was registered with no owner, so disposal leaves the scheduled clears and the room as they were |
| CreateRoom.ConnectThenDisconnect | src/signals/createRoom.ts:58-118 | connect followed by disconnect restores the room's listener table and leaves one clear pending |
| CreateRoom.DisconnectThenDispose | src/signals/createRoom.ts:88-102 | as intended: disposal before the timer fires leaves the room signal set, with nothing pending |
| CreateRoom.DisconnectThenDisposeAsWritten | src/signals/createRoom.ts:88-102 | as written: after a disconnect and a disposal the timer still fires and the room signal becomes undefined |
| LegacyCreateRoom.Store.constructor | src/createRoom.ts:43-49 | the initial signals, as in the signals copy |
| LegacyCreateRoom.Store.BeginConnect | src/createRoom.ts:56 | connecting is set before the await |
| LegacyCreateRoom.Store.HandleParticipantsChanged | src/createRoom.ts:62-67 | the participant list becomes the sorted local-then-remotes list |
| LegacyCreateRoom.Store.HandleSubscribedTrackChanged | src/createRoom.ts:69-84 | re-sorts, and recollects audio tracks exactly for no track or an audio track |
| LegacyCreateRoom.Store.ConnectSucceeded | src/createRoom.ts:58-114 | sets the room, adds the one-shot and the 8 listeners, clears connecting, leaves participants and audio tracks current, and resolves with the room (line 114) |
| LegacyCreateRoom.Store.ConnectFailed | src/createRoom.ts:115-125 | clears connecting, records the thrown Error or else the generic "an error has occured" (`RoomState.Normalise`), and resolves with undefined (line 124) |
| LegacyCreateRoom.Store.HandleDisconnected | src/createRoom.ts:86-98 | removes the one-shot and the 8 listeners, and schedules a clear that nothing can cancel |
| LegacyCreateRoom.Store.RunDeferredClear | src/createRoom.ts:87 | a scheduled clear sets the room to undefined |
| LegacyCreateRoom.ConnectThenDisconnect | src/createRoom.ts:56-114 | connect followed by disconnect restores the room's listener table and leaves one clear pending |
| LegacyCreateRoom.DisconnectThenClear | src/createRoom.ts:86-98 | in this copy a disconnect always ends with the room signal undefined |
| StageView.ScreenShareVideo | src/components/StageView.tsx:51-55 | only the first screen-share publication (`getTrack`) decides: a track is offered exactly when that publication is subscribed and carries a video track, and it is that publication's track; with no screen-share publication nothing is offered |
| StageView.ScreenFoldKeepsFound | src/components/StageView.tsx:49-58 | a screen track once found is never replaced |
| StageView.ScreenFoldFirstWins | src/components/StageView.tsx:47-61 | starting from none, the result is none exactly when nobody offers a screen share; otherwise it is the first offering participant's track |
| StageView.DesktopStage.RecomputeScreenTrack | src/components/StageView.tsx:45-61 | the effect's loop computes the fold over the participant list |
| StageView.ChooseStage | src/components/StageView.tsx:38-70 | as written: mobile exactly when not desktop, speaker exactly when desktop; the grid is never chosen |
| StageView.ChooseStageIntended | src/components/StageView.tsx:38-70 | the grid exactly on a desktop with layout "grid" and no screen track; otherwise speaker on desktop and mobile elsewhere |
| StageView.GridLayoutIgnored | src/components/DisplayContext.tsx:9-12 | with the default display options on a desktop with no screen share, the code as written shows the speaker stage where the grid was meant |
| StageView.ChooseStageDiffersOnlyOnGrid | src/components/StageView.tsx:64-70 | the two conditions disagree exactly where the intended one picks the grid |
| StageView.DesktopStage.constructor | src/components/StageView.tsx:45 | no screen track at first |
| StageView.DesktopStage.CurrentStage | src/components/StageView.tsx:64-70 | the corrected stage choice (see Findings): the desktop branch shows the grid exactly for layout "grid" with no screen track, and never the mobile stage |
| StageView.AudioRenderers | src/components/StageView.tsx:79-83 | one non-local audio renderer per store audio track, in order |
| StageView.AudioRenderersAsWritten | src/components/StageView.tsx:79 | as written the `For` is given the accessor, whose length is 0, so no audio element is rendered |
| StageView.AudioRenderersAsWrittenDrops | src/components/StageView.tsx:79-83 | whenever the store holds any audio track, the renderers as written differ from the intended ones |
| StageView.UnmuteOverlayAsWritten | src/components/StageView.tsx:85 | as written the condition reads `canPlaybackAudio` of the accessor, which is undefined, so the overlay never shows |
| StageView.UnmuteOverlayAsWrittenHidden | src/components/StageView.tsx:85 | the overlay as written and the intended one (`ShowUnmuteOverlay`: a room is set and cannot play audio) disagree exactly when a room is set and cannot play audio |
| ParticipantView.ResolveOrientation | src/components/ParticipantView.tsx:108-114 | the prop wins; without it, landscape or portrait from non-zero aspect values (equal counts as portrait); otherwise none |
| ParticipantView.BitrateOfAppend | src/components/ParticipantView.tsx:86-95 | the bitrate total is additive over concatenated publication lists |
| ParticipantView.BitrateOfBounds | src/components/ParticipantView.tsx:86-95 | every counted track's bitrate is at most the total, and the total is 0 when no track counts |
| ParticipantView.TotalBitrate | src/components/ParticipantView.tsx:86-95 | the loop sums the current bitrates of the local and remote tracks |
| ParticipantView.VideoContent | src/components/ParticipantView.tsx:146-153 | video is shown exactly for a subscribed, unmuted camera publication with a track, and it is that track |
| ParticipantView.ClassList | src/components/ParticipantView.tsx:173-177 | the speaker class (the prop when non-empty, else "speaker") is on exactly while speaking, a truthy class name is present and on unless the speaker key overrides it, and "participant" is on unless a later key overrides it |
| ParticipantView.QualityIconFor | src/components/ParticipantView.tsx:220-230 | the icon shows as many bars as the quality's rank (excellent high, good mid, poor low), so a better quality never gets a lower icon; there is no icon exactly for an unknown quality |
| ParticipantView.ParticipantTile.constructor | src/components/ParticipantView.tsx:72-76 | the initial signals: the resolved orientation, no video orientation, contain, the name prop, no bitrate, and the interval running |
| ParticipantView.ParticipantTile.Tick | src/components/ParticipantView.tsx:85-98 | a tick sets the bitrate signal to the total |
| ParticipantView.ParticipantTile.UpdateVideoOrientation | src/components/ParticipantView.tsx:116-126 | with known camera dimensions the video orientation becomes landscape exactly when the video is wider than tall (`VideoOrientationOf`); otherwise it is unchanged |
| ParticipantView.ParticipantTile.UpdateObjectFit | src/components/ParticipantView.tsx:128-132 | cover once the orientations match, and cover is never reverted |
| ParticipantView.ParticipantTile.UpdateDisplayName | src/components/ParticipantView.tsx:134-143 | an empty name becomes the default display name (the name when non-empty, else the identity, followed by " (You)" exactly for the local participant); a non-empty one is kept |
| ParticipantView.ParticipantTile.Cleanup | src/components/ParticipantView.tsx:100 | the interval stops |
| ParticipantView.MountWithoutOrientation | src/components/ParticipantView.tsx:108-132 | with neither orientation known, both are undefined and equal, so the tile covers at once |

## Left out

- The LiveKit client: `connect`, the signalling, track publication and subscription, `startAudio`, and how `room.participants`, `activeSpeakers` and `canPlaybackAudio` change. Handlers receive the client's state as parameters.
- ConnectSucceeded (both stores): an exception thrown after the `await`, such as one from a caller-supplied sort run by the subscribed-track handler, is caught by the same `catch`. It would leave the room set and the 9 listeners placed, and then record the error. The model's sort is total, so `ConnectFailed` never follows `ConnectSucceeded`.
- ConnectFailed (both stores): models only a `connect` that throws before resolving. A throw after the room was set, described on the line above, is not modelled.
- TotalBitrate: JavaScript numbers are modelled as unbounded naturals (`Track.currentBitrate`) and reals (aspect values in `ResolveOrientation`). Floating-point rounding and NaN are not modelled, so `BitrateOfAppend`'s exact additivity holds for the model, not for IEEE doubles.
- Timers and intervals run only when the host calls `RunDeferredClear` or `Tick`. Their timing and the one-second period are not modelled.
- The media query is reduced to a viewport width; how the browser re-evaluates it is not modelled.
- The default `sortParticipants` body is not part of this model. Any sort is a parameter, and properties that need it assume only that it reorders.
- AudioRenderers, StatusFor, ShowUnmuteOverlay: the stages read `roomState.participants`, `room`, `error`, `isConnecting` and `audioTracks` as plain values, although `createRoom` exposes them as accessors. These members take the accessors' current values, which is the intended behaviour. The as-written behaviour is `AudioRenderersAsWritten`, `StatusAsWritten` and `UnmuteOverlayAsWritten` (see Findings).
- DesktopGrid.GridStage.Recompute, DesktopGrid.SelectWindow: as written, the grid effect reads `participants.length` of the accessor (`GridStage.tsx` line 36), which is 0, so it always sets the grid class to `grid2x2` with capacity 0. Its window updater then calls `forEach` on the accessor (line 92), which throws a TypeError, so the window stays empty. The model runs the effect on the participant list's value, which is the intended behaviour; the as-written class and the throw are not modelled.
- StageView.DesktopStage.RecomputeScreenTrack: as written, the screen-share effect calls `forEach` on the participants accessor (`StageView.tsx` line 48), which throws a TypeError, so the screen track stays undefined. The model runs the loop on the participant list's value; the throw is not modelled.
- Participant identity in `includes` and `!==` is reference identity. The model compares by `sid`, and assumes sids are unique within a room.
- GridStage uses `grid4x4` above 16 participants while showing up to 25. The model keeps this as written (`DesktopGrid.LayoutFor`).
- The rendering itself is not modelled: JSX markup, CSS, `VideoRenderer`, `AudioRenderer`, `AspectRatio`, the hover overlay flag, the video-size text, the kbps rounding and the microphone icon.
- `SpeakerStage`, `MobileStage`, `ControlsView`, `ScreenShareView`, the buttons, `LiveKitRoom` and the example app are not part of this model.
- Effects are assumed to run when their inputs change. Solid's dependency tracking and batching are not modelled; each effect is a method the host calls.
- The `once` registration is modelled as a listener in the table that removes itself when it fires.

## Findings

| source | as written | input that shows it | evidently intended | confidence | as-written member | corrected member |
|---|---|---|---|---|---|---|
| src/components/StageView.tsx:64-70 | the grid condition compares the `screenTrack` accessor (a function) with `undefined`, which never holds, so the desktop always shows the speaker stage | a desktop viewport, the default display options (layout "grid") and no participant sharing a screen | compare the accessor's value, `screenTrack() === undefined`, so the grid stage shows when no one shares a screen | high, not executed | StageView.ChooseStage (shown by StageView.GridLayoutIgnored) | StageView.ChooseStageIntended (used by StageView.DesktopStage.CurrentStage) |
| src/signals/createRoom.ts:101 | `onCleanup` is called inside the room's disconnect callback, which runs outside any reactive owner, so the timer's cancellation is attached to no scope and disposal cancels nothing | disconnect the room, then dispose of the store's scope before the timer fires: the room signal still becomes undefined | register the cancellation with the store's owning scope, so that disposal stops a pending clear | medium, not executed | CreateRoom.Store.DisposeAsWritten (shown by CreateRoom.DisconnectThenDisposeAsWritten) | CreateRoom.Store.Dispose (used by CreateRoom.DisconnectThenDispose) |
| src/components/desktop/GridStage.tsx:145-157 | each `Match` tests a store accessor, which is always truthy, so the error case always matches and shows an empty message | any room state without an error, for example connected with one participant | test the accessors' values: `error()`, `isConnecting()`, `room()`, `participants().length` | medium, not executed | DesktopGrid.StatusAsWritten (shown by DesktopGrid.StatusAsWrittenHidesState) | DesktopGrid.StatusFor |
| src/components/StageView.tsx:79-83 | `For` is given the `audioTracks` accessor; a function has length 0, so no audio element is rendered | a room with one remote participant publishing audio | iterate `audioTracks()` | medium, not executed | StageView.AudioRenderersAsWritten (shown by StageView.AudioRenderersAsWrittenDrops) | StageView.AudioRenderers |
| src/components/StageView.tsx:85 | `room?.canPlaybackAudio` reads a property of the accessor, which is undefined, so `=== false` never holds and the unmute overlay never shows | a connected room whose browser blocks audio playback | read `room()?.canPlaybackAudio` | medium, not executed | StageView.UnmuteOverlayAsWritten (shown by StageView.UnmuteOverlayAsWrittenHidden) | StageView.ShowUnmuteOverlay |

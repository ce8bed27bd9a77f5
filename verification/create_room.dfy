/**
 * The room store: signals for the connected room, the connecting flag, the
 * last connect error, the ordered participants and the remote audio tracks,
 * kept up to date by handlers placed on the room at connect.
 *
 * The asynchronous connect is split at its `await`: `BeginConnect` runs
 * before it, `ConnectSucceeded` or `ConnectFailed` after it. The timer the
 * disconnect handler schedules is the counter `pendingClears`; the host runs
 * one with `RunDeferredClear`. Disposal is meant to cancel them (`Dispose`);
 * as written it cancels nothing (`DisposeAsWritten`).
 */
module CreateRoom {
  import opened LiveKit
  import opened RoomState

  class Store {
    var room: Session?
    var isConnecting: bool
    var error: Option<Error>
    var participants: seq<Participant>
    var audioTracks: seq<Track>
    /** Deferred `setRoom(undefined)` calls scheduled and neither run nor cancelled. */
    var pendingClears: nat
    const sort: Sorter

    /** `createRoom`: the initial signal values, with the given sort or the default one. */
    constructor (sort: Sorter)
      ensures room == null && !isConnecting && error == None
      ensures participants == [] && audioTracks == [] && pendingClears == 0
      ensures this.sort == sort
    {
      room := null;
      isConnecting := false;
      error := None;
      participants := [];
      audioTracks := [];
      pendingClears := 0;
      this.sort := sort;
    }

    /** The part of `connect` before the `await`. */
    method BeginConnect()
      modifies this`isConnecting
      ensures isConnecting
    {
      isConnecting := true;
    }

    /** The participants handler: the local participant and the remotes, sorted. */
    method HandleParticipantsChanged(s: Session)
      modifies this`participants
      ensures participants == OrderedParticipants(sort, s.localParticipant, s.remotes)
    {
      participants := sort([s.localParticipant] + s.remotes, s.localParticipant);
    }

    /** The subscribed-track handler: re-sort, and recollect audio tracks for no track or an audio track. */
    method HandleSubscribedTrackChanged(s: Session, track: Option<Track>)
      modifies this`participants, this`audioTracks
      ensures participants == OrderedParticipants(sort, s.localParticipant, s.remotes)
      ensures NeedsAudioRefresh(track) ==> audioTracks == RemoteAudioTracks(s.remotes)
      ensures !NeedsAudioRefresh(track) ==> audioTracks == old(audioTracks)
    {
      HandleParticipantsChanged(s);
      if track.None? || track.value.kind == Audio {
        audioTracks := CollectAudioTracks(s.remotes);
      }
    }

    /**
     * The rest of a connect that resolved with room `s`: set the room, place
     * the one-shot disconnect handler and the 8 listeners, clear the
     * connecting flag, run the subscribed-track handler once and resolve
     * with the room. The last error is left as it was.
     */
    method ConnectSucceeded(s: Session) returns (r: Session?)
      modifies this`room, this`isConnecting, this`participants, this`audioTracks, s`listeners
      ensures r == s
      ensures room == s && !isConnecting
      ensures s.listeners == old(s.listeners) + multiset{DisconnectListener} + RoomRegistered
      ensures participants == OrderedParticipants(sort, s.localParticipant, s.remotes)
      ensures audioTracks == RemoteAudioTracks(s.remotes)
    {
      room := s;
      s.listeners := s.listeners + multiset{DisconnectListener};
      s.listeners := s.listeners + RoomRegistered;
      isConnecting := false;
      HandleSubscribedTrackChanged(s, None);
      r := s;
    }

    /** The `catch` of a connect that threw: clear the connecting flag, record the error and resolve with `undefined`. */
    method ConnectFailed(thrown: Thrown) returns (r: Session?)
      modifies this`isConnecting, this`error
      ensures r == null
      ensures !isConnecting
      ensures error == Some(Normalise(thrown))
    {
      isConnecting := false;
      match thrown {
        case ThrownError(e) => error := Some(e);
        case ThrownOther => error := Some(Error("an error has occured"));
      }
      r := null;
    }

    /**
     * The one-shot disconnect handler of room `s`: it is removed as it fires,
     * schedules the clearing of the room, removes the 8 listeners and registers
     * the cancellation of the timer with disposal.
     */
    method HandleDisconnected(s: Session)
      modifies this`pendingClears, s`listeners
      ensures pendingClears == old(pendingClears) + 1
      ensures s.listeners == old(s.listeners) - multiset{DisconnectListener} - RoomDeregistered
    {
      s.listeners := s.listeners - multiset{DisconnectListener};
      pendingClears := pendingClears + 1;
      s.listeners := s.listeners - RoomDeregistered;
    }

    /** A scheduled clear fires: the room signal becomes undefined. */
    method RunDeferredClear()
      requires pendingClears > 0
      modifies this`room, this`pendingClears
      ensures room == null
      ensures pendingClears == old(pendingClears) - 1
    {
      room := null;
      pendingClears := pendingClears - 1;
    }

    /**
     * Disposal as written: the cancellation is registered with `onCleanup`
     * inside the disconnect callback, which runs outside any reactive owner,
     * so it is attached to no scope and disposal cancels nothing.
     */
    method DisposeAsWritten()
      ensures pendingClears == old(pendingClears) && room == old(room)
    {
    }

    /** Disposal of the owning scope as intended: every scheduled clear is cancelled. */
    method Dispose()
      modifies this`pendingClears
      ensures pendingClears == 0
    {
      pendingClears := 0;
    }
  }

  /**
   * A connect that resolves, followed by the room's disconnect: the room's
   * listener table is back as it was, and one clear of the room is pending.
   */
  method ConnectThenDisconnect(store: Store, s: Session)
    modifies store, s
    ensures s.listeners == old(s.listeners)
    ensures store.pendingClears == old(store.pendingClears) + 1
  {
    ghost var before := s.listeners;
    store.BeginConnect();
    var connectedRoom := store.ConnectSucceeded(s);
    ghost var connected := s.listeners;
    assert connected == before + multiset{DisconnectListener} + RoomRegistered;
    store.HandleDisconnected(s);
    ConnectThenDisconnectRestores(before);
    assert s.listeners == connected - multiset{DisconnectListener} - RoomDeregistered;
  }

  /** As written, disposal after a disconnect does not stop the timer: the room is cleared anyway. */
  method DisconnectThenDisposeAsWritten(store: Store, s: Session)
    modifies store, s
    ensures store.room == null
    ensures store.pendingClears == old(store.pendingClears)
  {
    store.HandleDisconnected(s);
    store.DisposeAsWritten();
    store.RunDeferredClear();
  }

  /** As intended, disposal after a disconnect and before the timer fires leaves the room set for good. */
  method DisconnectThenDispose(store: Store, s: Session)
    modifies store, s
    ensures store.room == old(store.room)
    ensures store.pendingClears == 0
  {
    store.HandleDisconnected(s);
    store.Dispose();
  }
}

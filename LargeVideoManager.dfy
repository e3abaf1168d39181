/**
 * An abstract stand-in for the large-video manager that the stage
 * coordinator drives. Its own code is not part of this model, so it is
 * reduced to what the coordinator reads (the participant on large, the
 * visible container type, the attached stream id, the container
 * registry) plus an append-only log of the attach, show, flip, resize,
 * audio-level and destroy calls the coordinator makes on it; registry
 * changes and reads are not logged. Each attach is a synchronous logged call; the promise it returns
 * upstream, and the rejection the coordinator swallows, are not modelled.
 */
module LargeVideoManager {
  import opened Media

  /** Which manager entry point an attach went through. */
  datatype Slot =
    | LargeVideoSlot     // updateLargeVideo: the primary (local main) surface
    | LocalSubVideo      // updateLocalSubVideo
    | RemoteMainVideo    // updateRemoteMainVideo
    | RemoteSubVideo     // updateRemoteSubVideo

  /** One call made on the manager, as recorded in its log. */
  datatype Call =
    | Attach(slot: Slot, participant: ParticipantId, stream: Option<string>, videoType: string)
    | ShowContainer(containerType: Option<string>)
    | LocalFlipX(flip: Option<bool>)
    | UpdateContainerSize
    | Resize(animate: bool)
    | AudioLevel(level: real)
    | Destroy

  /** An opaque display container registered under a type tag. */
  datatype Container = Container(handle: nat)

  /** The container the manager creates for itself on construction. */
  const DEFAULT_VIDEO_CONTAINER: Container := Container(0)

  /** The manager's observable state. */
  datatype ManagerState = ManagerState(
    id: Option<ParticipantId>,
    state: Option<string>,
    streamId: Option<string>,
    containers: map<string, Container>,
    log: seq<Call>)

  /**
   * `LargeVideoManager.isVideoContainer`, assumed to accept exactly the
   * default video container tag and the desktop tag.
   */
  predicate IsVideoContainer(containerType: Option<string>)
  {
    containerType == Some(VIDEO_CONTAINER_TYPE) || containerType == Some(DESKTOP_CONTAINER_TYPE)
  }

  /** The state of a freshly constructed manager: the video container registered and visible. */
  function InitialState(): (r: ManagerState)
    ensures r.id.None? && r.streamId.None? && r.log == []
    ensures r.state == Some(VIDEO_CONTAINER_TYPE) && VIDEO_CONTAINER_TYPE in r.containers
  {
    ManagerState(None, Some(VIDEO_CONTAINER_TYPE), None, map[VIDEO_CONTAINER_TYPE := DEFAULT_VIDEO_CONTAINER], [])
  }

  class Manager {
    var id: Option<ParticipantId>
    var state: Option<string>
    var streamId: Option<string>
    var containers: map<string, Container>
    var log: seq<Call>
    var destroyed: bool

    /** The manager's observable state as one value. */
    function Snapshot(): ManagerState
      reads this
    {
      ManagerState(id, state, streamId, containers, log)
    }

    constructor ()
      ensures Snapshot() == InitialState() && !destroyed
    {
      id, state, streamId := None, Some(VIDEO_CONTAINER_TYPE), None;
      containers := map[VIDEO_CONTAINER_TYPE := DEFAULT_VIDEO_CONTAINER];
      log := [];
      destroyed := false;
    }

    /** The primary attach: the participant and its local main stream go on large. */
    method UpdateLargeVideo(participant: ParticipantId, stream: Option<JitsiTrack>, videoType: string)
      modifies this
      ensures Snapshot() == old(Snapshot()).(
        id := Some(participant),
        streamId := StreamIdOf(stream),
        log := old(log) + [Attach(LargeVideoSlot, participant, StreamIdOf(stream), videoType)])
      ensures destroyed == old(destroyed)
    {
      id := Some(participant);
      streamId := StreamIdOf(stream);
      log := log + [Attach(LargeVideoSlot, participant, StreamIdOf(stream), videoType)];
    }

    /** Attach to one of the three secondary quadrant surfaces. */
    method UpdateQuadrant(slot: Slot, participant: ParticipantId, stream: JitsiTrack, videoType: string)
      requires slot != LargeVideoSlot
      modifies this`log
      ensures log == old(log) + [Attach(slot, participant, Some(stream.id), videoType)]
    {
      log := log + [Attach(slot, participant, Some(stream.id), videoType)];
    }

    /** `showContainer(type)`: the given type becomes the visible one. */
    method ShowContainerOf(containerType: Option<string>)
      modifies this`state, this`log
      ensures state == containerType
      ensures log == old(log) + [ShowContainer(containerType)]
    {
      state := containerType;
      log := log + [ShowContainer(containerType)];
    }

    method AddContainer(containerType: string, container: Container)
      modifies this`containers
      ensures containers == old(containers)[containerType := container]
    {
      containers := containers[containerType := container];
    }

    method RemoveContainer(containerType: string)
      modifies this`containers
      ensures containers == old(containers) - {containerType}
    {
      containers := containers - {containerType};
    }

    /** Any other call that only leaves a trace in the log. */
    method Record(call: Call)
      requires !call.Attach? && !call.ShowContainer?
      modifies this`log
      ensures log == old(log) + [call]
    {
      log := log + [call];
    }

    method Destroy()
      modifies this`log, this`destroyed
      ensures destroyed && log == old(log) + [Call.Destroy]
    {
      destroyed := true;
      log := log + [Call.Destroy];
    }
  }
}

/**
 * The large-video stage coordinator (`VideoLayout`): the singleton that
 * owns the large-video manager and decides, on every participant or
 * track change, whether the four quadrant streams must be re-attached,
 * how an operator swap routes them, which container becomes visible, and
 * which last-N changes reach the stage.
 *
 * The decisions are stated first as functions over the manager's
 * observable state (`ManagerState`); the `VideoLayout` class at the end
 * performs them in place and is proved against those functions.
 */
module VideoLayout {
  import opened Media
  import opened LargeVideoManager
  import opened ReduxState

  // ---------------------------------------------------------------------
  // Pure queries
  // ---------------------------------------------------------------------

  /**
   * `getRemoteVideoType`: a fake participant that is not a screen share
   * shows as a camera, a screen-share participant as a desktop; anyone
   * else takes the type of their video track, which may be missing.
   */
  function GetRemoteVideoType(s: State, id: ParticipantId): (r: Option<string>)
    ensures IsScreenShareParticipantById(s, id) ==> r == Some(DESKTOP)
    ensures id in s.participants && s.participants[id].fakeParticipant && !IsScreenShareParticipantById(s, id)
      ==> r == Some(CAMERA)
    ensures !IsScreenShareParticipantById(s, id) && !(id in s.participants && s.participants[id].fakeParticipant)
      ==> r == (if id in s.videoTracks then s.videoTracks[id].videoType else None)
    ensures r.None? ==> id !in s.videoTracks || s.videoTracks[id].videoType.None?
  {
    var participant := GetParticipantById(s, id);
    var isScreenShare := IsScreenShareParticipantById(s, id);
    if participant.Some? && participant.value.fakeParticipant && !isScreenShare then Some(CAMERA)
    else if isScreenShare then Some(DESKTOP)
    else if id in s.videoTracks then s.videoTracks[id].videoType
    else None
  }

  /** `videoType || VIDEO_TYPE.CAMERA`: the type every attach is tagged with. */
  function VideoTypeOrCamera(videoType: Option<string>): (r: string)
    ensures r != ""
    ensures videoType.Some? && videoType.value != "" ==> r == videoType.value
    ensures r != CAMERA ==> videoType == Some(r)
  {
    if videoType.Some? && videoType.value != "" then videoType.value else CAMERA
  }

  /** `getPinnedId`: the pinned participant's id, or null when none (or an empty id) is pinned. */
  function GetPinnedId(s: State): (r: Option<ParticipantId>)
    ensures r.Some? ==> r.value != "" && s.pinnedId == r
    ensures r.None? ==> s.pinnedId.None? || s.pinnedId.value == ""
  {
    if s.pinnedId.Some? && s.pinnedId.value != "" then s.pinnedId else None
  }

  // ---------------------------------------------------------------------
  // Quadrant routing
  // ---------------------------------------------------------------------

  /**
   * The operator swap of `changeViewByLocal`: the local flag exchanges the
   * local main/sub pair and nothing else, the remote flag the remote pair
   * and nothing else.
   */
  function RouteQuadrant<T>(q: Quad<T>, swapLocal: bool, swapRemote: bool): (r: Quad<T>)
    ensures (r.localMain, r.localSub) == if swapLocal then (q.localSub, q.localMain) else (q.localMain, q.localSub)
    ensures (r.remoteMain, r.remoteSub) == if swapRemote then (q.remoteSub, q.remoteMain) else (q.remoteMain, q.remoteSub)
  {
    Quad(
      if swapLocal then q.localSub else q.localMain,
      if swapLocal then q.localMain else q.localSub,
      if swapRemote then q.remoteSub else q.remoteMain,
      if swapRemote then q.remoteMain else q.remoteSub)
  }

  /**
   * The logical stream each manager entry point is fed with. The remote
   * pair is cross-wired: the remote main stream goes to the remote SUB
   * surface and the remote sub stream to the remote MAIN surface.
   */
  function FedBy<T>(q: Quad<T>, slot: Slot): Option<T>
  {
    match slot
    case LargeVideoSlot => q.localMain
    case LocalSubVideo => q.localSub
    case RemoteSubVideo => q.remoteMain
    case RemoteMainVideo => q.remoteSub
  }

  /** The order in which the coordinator issues the attaches. */
  function SlotRank(slot: Slot): nat
  {
    match slot
    case LocalSubVideo => 0
    case RemoteSubVideo => 1
    case RemoteMainVideo => 2
    case LargeVideoSlot => 3
  }

  /** The attach for one secondary surface, issued only when its stream is present. */
  function AttachIfPresent(slot: Slot, id: ParticipantId, stream: Option<JitsiTrack>, videoType: string): seq<Call>
  {
    if stream.Some? then [Attach(slot, id, StreamIdOf(stream), videoType)] else []
  }

  /**
   * The calls an update makes: local sub, remote main and remote sub only
   * when present, in that order, then always the primary attach of the
   * local main stream, even when it is missing.
   */
  function AttachCalls(id: ParticipantId, q: Quad<JitsiTrack>, videoType: string): (r: seq<Call>)
    ensures 1 <= |r| <= 4
    ensures r[|r| - 1] == Attach(LargeVideoSlot, id, StreamIdOf(q.localMain), videoType)
    ensures forall i :: 0 <= i < |r| ==> r[i].Attach? && r[i].participant == id && r[i].videoType == videoType
    ensures forall i :: 0 <= i < |r| ==> r[i].Attach? && r[i].stream == StreamIdOf(FedBy(q, r[i].slot))
  {
    AttachIfPresent(LocalSubVideo, id, q.localSub, videoType)
    + AttachIfPresent(RemoteSubVideo, id, q.remoteMain, videoType)
    + AttachIfPresent(RemoteMainVideo, id, q.remoteSub, videoType)
    + [Attach(LargeVideoSlot, id, StreamIdOf(q.localMain), videoType)]
  }

  /**
   * The attaches come in the fixed order local sub, remote sub surface,
   * remote main surface, primary, with no surface twice, and a secondary
   * surface is attached exactly when the stream that feeds it is present.
   */
  lemma AttachCallsOrderAndPresence(id: ParticipantId, q: Quad<JitsiTrack>, videoType: string)
    ensures var r := AttachCalls(id, q, videoType);
      forall i, j :: 0 <= i < j < |r| ==> r[i].Attach? && r[j].Attach? && SlotRank(r[i].slot) < SlotRank(r[j].slot)
    ensures var r := AttachCalls(id, q, videoType);
      forall slot :: slot != LargeVideoSlot ==>
        (FedBy(q, slot).Some? <==> Attach(slot, id, StreamIdOf(FedBy(q, slot)), videoType) in r)
  {
  }

  /** The manager after the coordinator has pushed a quadrant assignment into it. */
  function AttachAll(m: ManagerState, id: ParticipantId, q: Quad<JitsiTrack>, videoType: string): ManagerState
  {
    m.(id := Some(id), streamId := StreamIdOf(q.localMain), log := m.log + AttachCalls(id, q, videoType))
  }

  // ---------------------------------------------------------------------
  // The update decision
  // ---------------------------------------------------------------------

  /**
   * Whether `updateLargeVideo` re-attaches. It always does for a
   * participant not on large or when forced. For the participant already
   * on large it does so only when the visible container is a video
   * container, a local main stream exists and its id differs from the
   * attached one: that difference acts exactly like a forced update.
   */
  function ShouldAttach(m: ManagerState, id: ParticipantId, forceUpdate: bool, localMain: Option<JitsiTrack>): (r: bool)
    ensures m.id != Some(id) ==> r
    ensures forceUpdate ==> r
    ensures m.id == Some(id) && !forceUpdate && IsVideoContainer(m.state) && localMain.Some?
      ==> (r <==> m.streamId != NewStreamId(localMain.value))
    ensures m.id == Some(id) && !forceUpdate && !(IsVideoContainer(m.state) && localMain.Some?) ==> !r
  {
    var isOnLarge := m.id == Some(id);
    var force :=
      if isOnLarge && !forceUpdate && IsVideoContainer(m.state) && localMain.Some?
      then forceUpdate || m.streamId != NewStreamId(localMain.value)
      else forceUpdate;
    !isOnLarge || force
  }

  /** The video type an update of `id` tags its attaches with. */
  function AttachVideoType(s: State, id: ParticipantId): string
  {
    VideoTypeOrCamera(GetRemoteVideoType(s, id))
  }

  /** The manager after `updateLargeVideo(id, forceUpdate, _)` on an initialized coordinator. */
  function UpdateEffect(m: ManagerState, s: State, id: ParticipantId, forceUpdate: bool): ManagerState
  {
    var q := QuadrantOf(s, id);
    if ShouldAttach(m, id, forceUpdate, q.localMain) then AttachAll(m, id, q, AttachVideoType(s, id)) else m
  }

  /** The manager after `changeViewByLocal(id, swapLocal, swapRemote)`: no de-duplication at all. */
  function ChangeViewEffect(m: ManagerState, s: State, id: ParticipantId, swapLocal: bool, swapRemote: bool): ManagerState
  {
    AttachAll(m, id, RouteQuadrant(QuadrantOf(s, id), swapLocal, swapRemote), AttachVideoType(s, id))
  }

  /** `_updateLargeVideoIfDisplayed`: only the participant on large is updated. */
  function IfDisplayedEffect(m: ManagerState, s: State, id: ParticipantId, force: bool): ManagerState
  {
    if m.id == Some(id) then UpdateEffect(m, s, id, force) else m
  }

  /**
   * `ids.forEach(this._updateLargeVideoIfDisplayed, this)`: forEach hands
   * the element's index over as the `force` argument, so every element
   * after the first is a forced update. An id not on large leaves the
   * manager as it was, and no step changes who is on large.
   */
  function ForEachIfDisplayed(m: ManagerState, s: State, ids: seq<ParticipantId>): (r: ManagerState)
    ensures r.id == m.id && r.state == m.state && r.containers == m.containers
    ensures (forall k :: 0 <= k < |ids| ==> m.id != Some(ids[k])) ==> r == m
    ensures |r.log| >= |m.log| && r.log[..|m.log|] == m.log
    decreases |ids|
  {
    if ids == [] then m
    else
      var last := |ids| - 1;
      IfDisplayedEffect(ForEachIfDisplayed(m, s, ids[..last]), s, ids[last], last != 0)
  }

  // ---------------------------------------------------------------------
  // Visibility
  // ---------------------------------------------------------------------

  /**
   * The container `showLargeVideoContainer` switches to: `type` itself on
   * show; on hide, the pinned participant's video type if one is pinned,
   * else the default video container.
   */
  function ShowTarget(s: State, containerType: string, show: bool): (r: Option<string>)
    ensures show ==> r == Some(containerType)
    ensures !show && GetPinnedId(s).Some? ==> r == GetRemoteVideoType(s, GetPinnedId(s).value)
    ensures !show && GetPinnedId(s).None? ==> r == Some(VIDEO_CONTAINER_TYPE)
  {
    if show then Some(containerType)
    else
      var pinnedId := GetPinnedId(s);
      if pinnedId.Some? then GetRemoteVideoType(s, pinnedId.value) else Some(VIDEO_CONTAINER_TYPE)
  }

  /** `isLargeContainerTypeVisible` on an initialized manager. */
  predicate TypeVisible(m: ManagerState, containerType: string)
  {
    m.state == Some(containerType)
  }

  /** The manager after `showLargeVideoContainer(type, show)` on an initialized coordinator. */
  function ShowEffect(m: ManagerState, s: State, containerType: string, show: bool): ManagerState
  {
    if TypeVisible(m, containerType) == show then m
    else
      var target := ShowTarget(s, containerType, show);
      m.(state := target, log := m.log + [ShowContainer(target)])
  }

  // ---------------------------------------------------------------------
  // Properties of the decisions
  // ---------------------------------------------------------------------

  /**
   * De-duplication: the participant already on large, not forced, shown in
   * a video container whose attached stream is its local main stream,
   * causes no call and no change.
   */
  lemma DeduplicatedUpdateChangesNothing(m: ManagerState, s: State, id: ParticipantId)
    requires m.id == Some(id) && IsVideoContainer(m.state)
    requires QuadrantOf(s, id).localMain.Some?
    requires m.streamId == NewStreamId(QuadrantOf(s, id).localMain.value)
    ensures UpdateEffect(m, s, id, false) == m
  {
  }

  /** A changed stream id on the participant on large acts exactly like a forced update. */
  lemma StreamChangeActsAsForce(m: ManagerState, s: State, id: ParticipantId)
    requires m.id == Some(id) && IsVideoContainer(m.state)
    requires QuadrantOf(s, id).localMain.Some?
    requires m.streamId != NewStreamId(QuadrantOf(s, id).localMain.value)
    ensures UpdateEffect(m, s, id, false) == UpdateEffect(m, s, id, true)
  {
  }

  /**
   * A forced update always appends the full attach sequence, ending with
   * the primary attach, and puts the participant on large.
   */
  lemma ForcedUpdateAttaches(m: ManagerState, s: State, id: ParticipantId)
    ensures UpdateEffect(m, s, id, true).log == m.log + AttachCalls(id, QuadrantOf(s, id), AttachVideoType(s, id))
    ensures UpdateEffect(m, s, id, true).id == Some(id)
  {
  }

  /**
   * An update either leaves the manager untouched or appends exactly one
   * attach sequence; it never changes the visible container or the
   * registry.
   */
  lemma UpdateIsAllOrNothing(m: ManagerState, s: State, id: ParticipantId, forceUpdate: bool)
    ensures var r := UpdateEffect(m, s, id, forceUpdate);
      r.state == m.state && r.containers == m.containers &&
      (r == m || r.log == m.log + AttachCalls(id, QuadrantOf(s, id), AttachVideoType(s, id)))
  {
  }

  /**
   * Swap orthogonality: the remote flag never changes what the local
   * surfaces receive, and the local flag never changes what the remote
   * surfaces receive.
   */
  lemma SwapsAreOrthogonal<T>(q: Quad<T>, swapLocal: bool, swapRemote: bool)
    ensures FedBy(RouteQuadrant(q, swapLocal, swapRemote), LargeVideoSlot) == FedBy(RouteQuadrant(q, swapLocal, false), LargeVideoSlot)
    ensures FedBy(RouteQuadrant(q, swapLocal, swapRemote), LocalSubVideo) == FedBy(RouteQuadrant(q, swapLocal, false), LocalSubVideo)
    ensures FedBy(RouteQuadrant(q, swapLocal, swapRemote), RemoteMainVideo) == FedBy(RouteQuadrant(q, false, swapRemote), RemoteMainVideo)
    ensures FedBy(RouteQuadrant(q, swapLocal, swapRemote), RemoteSubVideo) == FedBy(RouteQuadrant(q, false, swapRemote), RemoteSubVideo)
  {
  }

  /** Swapping twice with the same flags restores the original assignment. */
  lemma RouteQuadrantIsInvolution<T>(q: Quad<T>, swapLocal: bool, swapRemote: bool)
    ensures RouteQuadrant(RouteQuadrant(q, swapLocal, swapRemote), swapLocal, swapRemote) == q
  {
  }

  /**
   * Because of the cross-wiring, a remote swap is what sends the remote
   * main stream to the remote main surface: without it the remote main
   * stream lands on the remote sub surface.
   */
  lemma RemoteSwapUndoesCrossWiring<T>(q: Quad<T>, swapLocal: bool)
    ensures FedBy(RouteQuadrant(q, swapLocal, true), RemoteMainVideo) == q.remoteMain
    ensures FedBy(RouteQuadrant(q, swapLocal, true), RemoteSubVideo) == q.remoteSub
    ensures FedBy(RouteQuadrant(q, swapLocal, false), RemoteSubVideo) == q.remoteMain
    ensures FedBy(RouteQuadrant(q, swapLocal, false), RemoteMainVideo) == q.remoteSub
  {
  }

  /**
   * The last-N quirk: with the participant on large listed twice, the
   * second element carries index 1, which forces a full re-attach even
   * though nothing changed in between.
   */
  lemma SecondListedElementIsForced(m: ManagerState, s: State, id: ParticipantId)
    requires m.id == Some(id)
    ensures ForEachIfDisplayed(m, s, [id, id]) ==
      AttachAll(ForEachIfDisplayed(m, s, [id]), id, QuadrantOf(s, id), AttachVideoType(s, id))
  {
    assert [id, id][..1] == [id];
    assert [id][..0] == [];
  }

  /**
   * Last-N scoping: when neither list holds the participant on large, the
   * manager sees no call at all.
   */
  lemma LastNScopedToStage(m: ManagerState, s: State, leaving: seq<ParticipantId>, entering: seq<ParticipantId>)
    requires m.id.Some? && m.id.value !in leaving && m.id.value !in entering
    ensures ForEachIfDisplayed(ForEachIfDisplayed(m, s, leaving), s, entering) == m
  {
  }

  /** Showing a type twice makes one transition, not two. */
  lemma ShowTwiceIsShowOnce(m: ManagerState, s: State, containerType: string)
    ensures ShowEffect(ShowEffect(m, s, containerType, true), s, containerType, true) == ShowEffect(m, s, containerType, true)
  {
  }

  /** Hiding a type twice makes one transition when the fallback is another type. */
  lemma HideTwiceIsHideOnce(m: ManagerState, s: State, containerType: string)
    requires ShowTarget(s, containerType, false) != Some(containerType)
    ensures ShowEffect(ShowEffect(m, s, containerType, false), s, containerType, false) == ShowEffect(m, s, containerType, false)
  {
  }

  /**
   * Hiding the default video container with nothing pinned falls back to
   * the default video container itself, so every such call makes the
   * coordinator call `showContainer` with it again.
   */
  lemma HidingTheFallbackRepeats(m: ManagerState, s: State)
    requires GetPinnedId(s).None? && m.state == Some(VIDEO_CONTAINER_TYPE)
    ensures ShowEffect(ShowEffect(m, s, VIDEO_CONTAINER_TYPE, false), s, VIDEO_CONTAINER_TYPE, false).log
      == m.log + [ShowContainer(Some(VIDEO_CONTAINER_TYPE)), ShowContainer(Some(VIDEO_CONTAINER_TYPE))]
  {
  }

  /** Hiding a visible container while a screen share is pinned switches to the desktop type. */
  lemma HideFallsBackToPinnedScreenShare(m: ManagerState, s: State, containerType: string)
    requires TypeVisible(m, containerType)
    requires GetPinnedId(s).Some? && IsScreenShareParticipantById(s, GetPinnedId(s).value)
    ensures ShowEffect(m, s, containerType, false).state == Some(DESKTOP)
  {
  }

  // ---------------------------------------------------------------------
  // The coordinator
  // ---------------------------------------------------------------------

  /** How a `showLargeVideoContainer` promise settles. */
  datatype Settled = Rejected | Resolved | FromManager

  class VideoLayout {
    /** The module-level `largeVideo`; null before init and after reset. */
    var largeVideo: Manager?

    constructor ()
      ensures largeVideo == null
    {
      largeVideo := null;
    }

    /** `isCurrentlyOnLarge`. */
    function IsCurrentlyOnLarge(id: ParticipantId): (r: bool)
      reads this, largeVideo
      ensures r ==> largeVideo != null
      ensures largeVideo != null ==> (r <==> largeVideo.id == Some(id))
    {
      largeVideo != null && largeVideo.id == Some(id)
    }

    /** `isLargeContainerTypeVisible`: false while uninitialized. */
    function IsLargeContainerTypeVisible(containerType: string): (r: bool)
      reads this, largeVideo
      ensures r ==> largeVideo != null
      ensures largeVideo != null ==> (r <==> TypeVisible(largeVideo.Snapshot(), containerType))
    {
      largeVideo != null && largeVideo.state == Some(containerType)
    }

    /** `isLargeVideoVisible`: whether the default video container is the visible one. */
    function IsLargeVideoVisible(): (r: bool)
      reads this, largeVideo
      ensures r <==> largeVideo != null && largeVideo.state == Some(VIDEO_CONTAINER_TYPE)
    {
      IsLargeContainerTypeVisible(VIDEO_CONTAINER_TYPE)
    }

    /** `getLargeVideoID`: empty while uninitialized. */
    function GetLargeVideoId(): (r: Option<ParticipantId>)
      reads this, largeVideo
      ensures largeVideo == null ==> r.None?
      ensures largeVideo != null ==> r == largeVideo.id
      ensures forall id :: IsCurrentlyOnLarge(id) <==> r == Some(id)
    {
      if largeVideo == null then None else largeVideo.id
    }

    /** `_resetLargeVideo`: destroy the manager, if any, and drop it. */
    method ResetLargeVideo()
      modifies this, largeVideo
      ensures largeVideo == null
      ensures old(largeVideo) != null ==>
        old(largeVideo).destroyed && old(largeVideo).log == old(largeVideo.log) + [Call.Destroy]
      ensures GetLargeVideoId().None? && forall id :: !IsCurrentlyOnLarge(id)
    {
      if largeVideo != null {
        largeVideo.Destroy();
      }
      largeVideo := null;
    }

    /** `reset`. */
    method Reset()
      modifies this, largeVideo
      ensures largeVideo == null
      ensures old(largeVideo) != null ==>
        old(largeVideo).destroyed && old(largeVideo).log == old(largeVideo.log) + [Call.Destroy]
      ensures GetLargeVideoId().None? && forall id :: !IsCurrentlyOnLarge(id)
    {
      ResetLargeVideo();
    }

    /**
     * `initLargeVideo`: a fresh manager replaces any previous one, which is
     * destroyed; a boolean local flip setting is applied before the first
     * container-size update.
     */
    method InitLargeVideo(localFlipX: Option<bool>)
      modifies this, largeVideo
      ensures largeVideo != null && fresh(largeVideo) && !largeVideo.destroyed
      ensures largeVideo.Snapshot() == InitialState().(log :=
        (if localFlipX.Some? then [LocalFlipX(localFlipX)] else []) + [UpdateContainerSize])
      ensures old(largeVideo) != null ==>
        old(largeVideo).destroyed && old(largeVideo).log == old(largeVideo.log) + [Call.Destroy]
    {
      ResetLargeVideo();
      var manager := new Manager();
      largeVideo := manager;
      if localFlipX.Some? {
        manager.Record(LocalFlipX(localFlipX));
      }
      manager.Record(UpdateContainerSize);
    }

    /**
     * `onLocalFlipXChanged`: the current local flip setting, whatever its
     * type, is forwarded to an initialized manager.
     */
    method OnLocalFlipXChanged(localFlipX: Option<bool>)
      modifies largeVideo
      ensures largeVideo == old(largeVideo)
      ensures largeVideo != null ==> largeVideo.Snapshot() == old(largeVideo.Snapshot()).(log :=
        old(largeVideo.log) + [LocalFlipX(localFlipX)])
      ensures largeVideo != null ==> largeVideo.destroyed == old(largeVideo.destroyed)
    {
      if largeVideo != null {
        largeVideo.Record(LocalFlipX(localFlipX));
      }
    }

    /** `setAudioLevel`: forwarded only for the participant on large. */
    method SetAudioLevel(id: ParticipantId, level: real)
      modifies largeVideo
      ensures largeVideo == old(largeVideo)
      ensures largeVideo != null ==> largeVideo.Snapshot() == old(largeVideo.Snapshot()).(log :=
        old(largeVideo.log) + if old(largeVideo.id) == Some(id) then [AudioLevel(level)] else [])
      ensures largeVideo != null ==> largeVideo.destroyed == old(largeVideo.destroyed)
    {
      if largeVideo != null && Some(id) == largeVideo.id {
        largeVideo.Record(AudioLevel(level));
      }
    }

    /** `resizeVideoArea` (and `refreshLayout` and `onResize`, which only call it). */
    method ResizeVideoArea()
      modifies largeVideo
      ensures largeVideo == old(largeVideo)
      ensures largeVideo != null ==> largeVideo.Snapshot() == old(largeVideo.Snapshot()).(log :=
        old(largeVideo.log) + [UpdateContainerSize, Resize(false)])
      ensures largeVideo != null ==> largeVideo.destroyed == old(largeVideo.destroyed)
    {
      if largeVideo != null {
        largeVideo.Record(UpdateContainerSize);
        largeVideo.Record(Resize(false));
      }
    }

    /** Pushes a quadrant assignment into the manager, in the coordinator's order. */
    method AttachStreams(id: ParticipantId, q: Quad<JitsiTrack>, videoType: string)
      requires largeVideo != null
      modifies largeVideo
      ensures largeVideo.Snapshot() == AttachAll(old(largeVideo.Snapshot()), id, q, videoType)
      ensures largeVideo.destroyed == old(largeVideo.destroyed)
    {
      if q.localSub.Some? {
        largeVideo.UpdateQuadrant(LocalSubVideo, id, q.localSub.value, videoType);
      }
      if q.remoteMain.Some? {
        largeVideo.UpdateQuadrant(RemoteSubVideo, id, q.remoteMain.value, videoType);
      }
      if q.remoteSub.Some? {
        largeVideo.UpdateQuadrant(RemoteMainVideo, id, q.remoteSub.value, videoType);
      }
      largeVideo.UpdateLargeVideo(id, q.localMain, videoType);
    }

    /** Sets the force-reattach flag on every present track object of a quadrant. */
    static method MarkForReattach(q: Quad<JitsiTrack>)
      modifies Streams(q)
      ensures forall t | t in Streams(q) :: t.forceStreamToReattach
    {
      if q.localMain.Some? {
        q.localMain.value.forceStreamToReattach := true;
      }
      if q.localSub.Some? {
        q.localSub.value.forceStreamToReattach := true;
      }
      if q.remoteMain.Some? {
        q.remoteMain.value.forceStreamToReattach := true;
      }
      if q.remoteSub.Some? {
        q.remoteSub.value.forceStreamToReattach := true;
      }
    }

    /**
     * `updateLargeVideo`: nothing at all while uninitialized; otherwise the
     * force flag is set on every present track object when asked for,
     * whatever is decided next, and the manager then changes exactly as
     * `UpdateEffect` says.
     */
    method UpdateLargeVideo(s: State, id: ParticipantId, forceUpdate: bool, forceStreamToReattach: bool)
      modifies largeVideo
      modifies if forceStreamToReattach && largeVideo != null then Streams(QuadrantOf(s, id)) else {}
      ensures largeVideo == old(largeVideo)
      ensures largeVideo != null ==>
        largeVideo.Snapshot() == UpdateEffect(old(largeVideo.Snapshot()), s, id, forceUpdate)
        && largeVideo.destroyed == old(largeVideo.destroyed)
      ensures forall t | t in Streams(QuadrantOf(s, id)) ::
        t.forceStreamToReattach == (old(t.forceStreamToReattach) || (forceStreamToReattach && largeVideo != null))
    {
      if largeVideo == null {
        return;
      }
      var isOnLarge := IsCurrentlyOnLarge(id);
      var q := QuadrantOf(s, id);
      if forceStreamToReattach {
        MarkForReattach(q);
      }
      var force := forceUpdate;
      if isOnLarge && !force && IsVideoContainer(largeVideo.state) && q.localMain.Some? {
        var currentStreamId := largeVideo.streamId;
        var newStreamId := NewStreamId(q.localMain.value);
        if currentStreamId != newStreamId {
          force := true;
        }
      }
      if !isOnLarge || force {
        AttachStreams(id, q, VideoTypeOrCamera(GetRemoteVideoType(s, id)));
      }
    }

    /**
     * `changeViewByLocal`: routes the swapped quadrant into the manager
     * unconditionally. It does not guard against an uninitialized
     * coordinator: the first manager call then throws, before any change.
     */
    method ChangeViewByLocal(s: State, id: ParticipantId, swapLocal: bool, swapRemote: bool) returns (thrown: bool)
      modifies largeVideo
      ensures largeVideo == old(largeVideo)
      ensures thrown <==> largeVideo == null
      ensures largeVideo != null ==>
        largeVideo.Snapshot() == ChangeViewEffect(old(largeVideo.Snapshot()), s, id, swapLocal, swapRemote)
        && largeVideo.destroyed == old(largeVideo.destroyed)
    {
      var q := RouteQuadrant(QuadrantOf(s, id), swapLocal, swapRemote);
      var videoType := GetRemoteVideoType(s, id);
      if largeVideo == null {
        return true;
      }
      AttachStreams(id, q, VideoTypeOrCamera(videoType));
      return false;
    }

    /** `addLargeVideoContainer`: ignored while uninitialized. */
    method AddLargeVideoContainer(containerType: string, container: Container)
      modifies largeVideo
      ensures largeVideo == old(largeVideo)
      ensures largeVideo != null ==> largeVideo.Snapshot() == old(largeVideo.Snapshot()).(containers :=
        old(largeVideo.containers)[containerType := container])
      ensures largeVideo != null ==> largeVideo.destroyed == old(largeVideo.destroyed)
    {
      if largeVideo != null {
        largeVideo.AddContainer(containerType, container);
      }
    }

    /** `removeLargeVideoContainer`: ignored while uninitialized. */
    method RemoveLargeVideoContainer(containerType: string)
      modifies largeVideo
      ensures largeVideo == old(largeVideo)
      ensures largeVideo != null ==> largeVideo.Snapshot() == old(largeVideo.Snapshot()).(containers :=
        old(largeVideo.containers) - {containerType})
      ensures largeVideo != null ==> largeVideo.destroyed == old(largeVideo.destroyed)
    {
      if largeVideo != null {
        largeVideo.RemoveContainer(containerType);
      }
    }

    /**
     * `showLargeVideoContainer`: rejects while uninitialized, resolves at
     * once when the visibility already matches, and otherwise hands the
     * manager's own promise back after switching to `ShowTarget`.
     */
    method ShowLargeVideoContainer(s: State, containerType: string, show: bool) returns (p: Settled)
      modifies largeVideo
      ensures largeVideo == old(largeVideo)
      ensures p == Rejected <==> largeVideo == null
      ensures largeVideo != null ==>
        largeVideo.Snapshot() == ShowEffect(old(largeVideo.Snapshot()), s, containerType, show)
        && largeVideo.destroyed == old(largeVideo.destroyed)
        && (p == Resolved <==> TypeVisible(old(largeVideo.Snapshot()), containerType) == show)
    {
      if largeVideo == null {
        return Rejected;
      }
      var isVisible := IsLargeContainerTypeVisible(containerType);
      if isVisible == show {
        return Resolved;
      }
      var containerTypeToShow := Some(containerType);
      if !show {
        var pinnedId := GetPinnedId(s);
        if pinnedId.Some? {
          containerTypeToShow := GetRemoteVideoType(s, pinnedId.value);
        } else {
          containerTypeToShow := Some(VIDEO_CONTAINER_TYPE);
        }
      }
      largeVideo.ShowContainerOf(containerTypeToShow);
      return FromManager;
    }

    /** `_updateLargeVideoIfDisplayed`. */
    method UpdateLargeVideoIfDisplayed(s: State, id: ParticipantId, force: bool)
      modifies largeVideo
      ensures largeVideo == old(largeVideo)
      ensures largeVideo != null ==>
        largeVideo.Snapshot() == IfDisplayedEffect(old(largeVideo.Snapshot()), s, id, force)
        && largeVideo.destroyed == old(largeVideo.destroyed)
    {
      if IsCurrentlyOnLarge(id) {
        UpdateLargeVideo(s, id, force, false);
      }
    }

    /** One `forEach(this._updateLargeVideoIfDisplayed, this)` over a list of ids. */
    method ForEachUpdateIfDisplayed(s: State, ids: seq<ParticipantId>)
      modifies largeVideo
      ensures largeVideo == old(largeVideo)
      ensures largeVideo != null ==>
        largeVideo.Snapshot() == ForEachIfDisplayed(old(largeVideo.Snapshot()), s, ids)
        && largeVideo.destroyed == old(largeVideo.destroyed)
    {
      var i := 0;
      while i < |ids|
        invariant 0 <= i <= |ids|
        invariant largeVideo == old(largeVideo)
        invariant largeVideo != null ==>
          largeVideo.Snapshot() == ForEachIfDisplayed(old(largeVideo.Snapshot()), s, ids[..i])
          && largeVideo.destroyed == old(largeVideo.destroyed)
      {
        assert ids[..i + 1][..i] == ids[..i];
        UpdateLargeVideoIfDisplayed(s, ids[i], i != 0);
        i := i + 1;
      }
      assert ids[..|ids|] == ids;
    }

    /** `onLastNEndpointsChanged`: the leaving list first, then the entering list. */
    method OnLastNEndpointsChanged(s: State, leaving: Option<seq<ParticipantId>>, entering: Option<seq<ParticipantId>>)
      modifies largeVideo
      ensures largeVideo == old(largeVideo)
      ensures largeVideo != null ==>
        largeVideo.Snapshot() == ForEachIfDisplayed(
          ForEachIfDisplayed(old(largeVideo.Snapshot()), s, if leaving.Some? then leaving.value else []),
          s, if entering.Some? then entering.value else [])
        && largeVideo.destroyed == old(largeVideo.destroyed)
    {
      if leaving.Some? {
        ForEachUpdateIfDisplayed(s, leaving.value);
      }
      if entering.Some? {
        ForEachUpdateIfDisplayed(s, entering.value);
      }
    }

    /**
     * `updateVideoMutedForNoTracks`: a conference participant with no video
     * track forces an update if it is on large. `videoTrackCount` is the
     * number of video tracks the conference reports, absent for an unknown
     * participant.
     */
    method UpdateVideoMutedForNoTracks(s: State, id: ParticipantId, videoTrackCount: Option<nat>)
      modifies largeVideo
      ensures largeVideo == old(largeVideo)
      ensures largeVideo != null ==>
        largeVideo.Snapshot() == (if videoTrackCount == Some(0)
          then IfDisplayedEffect(old(largeVideo.Snapshot()), s, id, true)
          else old(largeVideo.Snapshot()))
        && largeVideo.destroyed == old(largeVideo.destroyed)
    {
      if videoTrackCount.Some? && videoTrackCount.value == 0 {
        UpdateLargeVideoIfDisplayed(s, id, true);
      }
    }
  }
}

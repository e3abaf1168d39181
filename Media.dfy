/**
 * Vocabulary shared by the stage coordinator, the abstract large-video
 * manager and the store snapshot: optional values, the video-type tags,
 * the media-engine track object and the four quadrant slots of a
 * participant.
 */
module Media {

  /** JavaScript `undefined`/`null` versus a present value. */
  datatype Option<+T> = None | Some(value: T)

  /** JavaScript truthiness of an optional string: present and not empty. */
  predicate NonEmpty(s: Option<string>)
  {
    s.Some? && s.value != ""
  }

  /** An opaque participant id (a real participant or a screen-share pseudo-participant). */
  type ParticipantId = string

  /** `VIDEO_TYPE.CAMERA`. */
  const CAMERA: string := "camera"

  /** `VIDEO_TYPE.DESKTOP`. */
  const DESKTOP: string := "desktop"

  /**
   * `VIDEO_CONTAINER_TYPE`: the tag of the default video container. Its
   * defining file is not part of this model; the value is an assumption.
   */
  const VIDEO_CONTAINER_TYPE: string := "camera"

  /**
   * The second tag the manager's video-container test accepts, assumed to
   * be the desktop tag; the manager's code is not part of this model.
   */
  const DESKTOP_CONTAINER_TYPE: string := "desktop"

  /**
   * A media-engine track (`jitsiTrack`). Its id is fixed; the coordinator
   * sets `forceStreamToReattach` on the object itself, so every holder of
   * the same track sees the flag.
   */
  class JitsiTrack {
    const id: string
    var forceStreamToReattach: bool

    constructor (id: string)
      ensures this.id == id && !forceStreamToReattach
    {
      this.id := id;
      forceStreamToReattach := false;
    }
  }

  /** The id a container reports for an attached stream (`stream ? stream.getId() : null`). */
  function StreamIdOf(stream: Option<JitsiTrack>): (r: Option<string>)
    ensures r.Some? <==> stream.Some?
    ensures r.Some? ==> r.value == stream.value.id
  {
    if stream.Some? then Some(stream.value.id) else None
  }

  /** `stream.getId() || null`: an empty id compares as null. */
  function NewStreamId(stream: JitsiTrack): (r: Option<string>)
    ensures r.None? <==> stream.id == ""
    ensures r.Some? ==> r.value == stream.id
  {
    if stream.id == "" then None else Some(stream.id)
  }

  /**
   * The four logical streams of one participant: the local main and sub
   * cameras and the remote main and sub cameras.
   */
  datatype Quad<T> = Quad(localMain: Option<T>, localSub: Option<T>, remoteMain: Option<T>, remoteSub: Option<T>)

  /** The set holding the value of an option, if any. */
  function Present<T>(o: Option<T>): (r: set<T>)
    ensures o.Some? ==> r == {o.value}
    ensures o.None? ==> r == {}
  {
    if o.Some? then {o.value} else {}
  }

  /** Every track object present in a quadrant assignment. */
  function Streams(q: Quad<JitsiTrack>): set<JitsiTrack>
  {
    Present(q.localMain) + Present(q.localSub) + Present(q.remoteMain) + Present(q.remoteSub)
  }
}

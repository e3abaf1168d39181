/**
 * An immutable snapshot of the parts of the redux store the stage
 * coordinator reads at decision time, with the selectors it calls. The
 * selectors' own code is not part of this model; each is reduced to the
 * lookup it performs.
 */
module ReduxState {
  import opened Media

  /** What the coordinator reads of a participant record. */
  datatype Participant = Participant(fakeParticipant: bool, isScreenShare: bool)

  /** The participant's video track as found by media type (`getTrackByMediaTypeAndParticipant`). */
  datatype VideoTrack = VideoTrack(videoType: Option<string>)

  datatype State = State(
    participants: map<ParticipantId, Participant>,
    pinnedId: Option<ParticipantId>,
    videoTracks: map<ParticipantId, VideoTrack>,
    quadrants: map<ParticipantId, Quad<JitsiTrack>>)

  /** `getParticipantById`. */
  function GetParticipantById(s: State, id: ParticipantId): (r: Option<Participant>)
    ensures r.Some? <==> id in s.participants
    ensures r.Some? ==> r.value == s.participants[id]
  {
    if id in s.participants then Some(s.participants[id]) else None
  }

  /** `isScreenShareParticipantById`: false for an unknown id. */
  predicate IsScreenShareParticipantById(s: State, id: ParticipantId)
  {
    id in s.participants && s.participants[id].isScreenShare
  }

  const NO_STREAMS: Quad<JitsiTrack> := Quad(None, None, None, None)

  /**
   * `getMainVideoTrack`/`getSubVideoTrack` for the local and the remote
   * side, reduced to the track objects: an unknown participant has none.
   */
  function QuadrantOf(s: State, id: ParticipantId): (r: Quad<JitsiTrack>)
    ensures id !in s.participants ==> r == NO_STREAMS
  {
    if id in s.participants && id in s.quadrants then s.quadrants[id] else NO_STREAMS
  }
}

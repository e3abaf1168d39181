# Large-video stage of a customised Jitsi Meet web client

This project models, in Dafny, the part of a customised Jitsi Meet web
client that drives the large-video stage and a few web configuration
helpers around it. The model has three parts.

**The stage coordinator (`VideoLayout`).** The coordinator is a singleton.
It owns the large-video manager and decides, on every participant or
track change, whether to push that participant's streams into the
manager. Each participant has four streams: local main, local sub,
remote main and remote sub.

- The decisions are functions over the manager's observable state
  (`ManagerState`):
  - re-attach or de-duplicate;
  - the operator's local/remote swap;
  - the quirky routing of the remote pair;
  - which container becomes visible;
  - how last-N changes reach the stage.
- The `VideoLayout.VideoLayout` class holds the mutable `largeVideo`
  reference and performs them in place. Each method is proved to change
  the manager exactly as the function says.

**The stage component (`LargeVideo`).** This part covers:
- the props derived from the store;
- the side effects a props update triggers, as an ordered list;
- the two-tap gesture;
- the view-mode head buttons, as arrays of class names updated in place;
- the custom container styles.

**The configuration helpers.** This part covers:
- the toolbar button list and the notify-click list. Both are pushed
  into in place, and the array pushed into may be the configuration's
  own array or the shared default list;
- the deeplinking defaults, filled in place into the platform objects;
- the WebHID and audio-level feature rules.

Files:
- `Media.dfy`: optional values, the video-type tags, the media-engine
  track object (whose `forceStreamToReattach` flag is set in place) and
  the four-stream `Quad`.
- `LargeVideoManager.dfy`: an abstract stand-in for the manager. It keeps
  the participant on large, the visible container type, the attached
  stream id, the container registry, and a log of the attach, show,
  flip, resize, audio-level and destroy calls the coordinator makes.
- `ReduxState.dfy`: an immutable store snapshot with the selectors the
  coordinator calls.
- `VideoLayout.dfy`: the coordinator.
- `LargeVideoView.dfy`: the stage component.
- `ConfigFunctions.dfy`: the configuration helpers.

Quirks of the code that the model keeps:
- **Cross-wired remote pair.** The remote main stream is attached
  through `updateRemoteSubVideo`, and the remote sub stream through
  `updateRemoteMainVideo`. A remote swap therefore puts each remote
  stream on its own surface (`RemoteSwapUndoesCrossWiring`).
- **Last-N index as `force`.** `forEach(this._updateLargeVideoIfDisplayed, this)`
  hands the element index over as the `force` argument. So every id
  after the first in its list, if it is on large, is re-attached as if
  forced; ids not on large are ignored
  (`SecondListedElementIsForced`).
- **Hiding the fallback repeats.** Hiding the default video container
  while nothing is pinned falls back to that same container. Each such
  call makes the coordinator call `showContainer` with it again, so this
  hide is not idempotent (`HidingTheFallbackRepeats`). Shows, and hides whose fallback is
  another type, are idempotent.
- **Tri-state screen-share prop.** The screen-share prop is undefined
  when no participant is on large. A change from undefined to false
  therefore also switches see-what-is-being-shared off
  (`UndefinedToFalseAlsoResets`).
- **`includes(undefined)`.** With no local participant, the id test
  searches for the text `undefined` (`SearchString`).
- **Growing toolbar lists.** The toolbar list grows by the custom ids on
  every call. From the first call on, its membership stays the same
  (`MembershipStableAcrossCalls`).

## Model

| member | source | states |
|---|---|---|
| VideoLayout.GetRemoteVideoType | modules/UI/videolayout/VideoLayout.js:91-107 | a screen-share participant is a desktop; a fake participant that is not a screen share is a camera; anyone else takes their video track's type, which may be missing |
| VideoLayout.VideoTypeOrCamera | modules/UI/videolayout/VideoLayout.js:263-288 | the attach tag is never empty: the video type when set, otherwise camera |
| VideoLayout.GetPinnedId | modules/UI/videolayout/VideoLayout.js:109-113 | the pinned id when one with a non-empty id is pinned, otherwise null |
| VideoLayout.RouteQuadrant | modules/UI/videolayout/VideoLayout.js:168-179 | the local flag exchanges exactly the local main/sub pair and the remote flag exactly the remote pair |
| VideoLayout.AttachCalls | modules/UI/videolayout/VideoLayout.js:265-291 | one to four attaches, all for the participant and tagged with the video type; the last is always the primary attach of the local main stream, even when it is missing; each surface gets the stream that feeds it under the cross-wiring |
| VideoLayout.AttachCallsOrderAndPresence | modules/UI/videolayout/VideoLayout.js:265-291 | attaches come in the fixed order local sub, remote sub surface, remote main surface, primary; a secondary surface is attached iff its feeding stream is present |
| VideoLayout.ShouldAttach | modules/UI/videolayout/VideoLayout.js:248-262 | always attaches for a participant not on large or when forced; for the participant on large in a video container with a local main stream, attaches iff the stream id changed; otherwise never |
| VideoLayout.ForEachIfDisplayed | modules/UI/videolayout/VideoLayout.js:123-131 | a forEach pass over ids never changes who is on large, the visible container or the registry; only appends to the log; leaves the manager untouched when no id is on large |
| VideoLayout.ShowTarget | modules/UI/videolayout/VideoLayout.js:319-333 | on show the given type; on hide the pinned participant's video type when one is pinned, else the default video container |
| VideoLayout.DeduplicatedUpdateChangesNothing | modules/UI/videolayout/VideoLayout.js:248-262 | an unforced update of the participant on large whose attached stream is already its local main stream changes nothing and makes no call |
| VideoLayout.StreamChangeActsAsForce | modules/UI/videolayout/VideoLayout.js:251-258 | a changed stream id on the participant on large has exactly the effect of a forced update |
| VideoLayout.ForcedUpdateAttaches | modules/UI/videolayout/VideoLayout.js:262-291 | a forced update appends the full attach sequence and puts the participant on large |
| VideoLayout.UpdateIsAllOrNothing | modules/UI/videolayout/VideoLayout.js:215-295 | an update either leaves the manager unchanged or appends exactly one attach sequence, and never changes the visible container or the registry |
| VideoLayout.SwapsAreOrthogonal | modules/UI/videolayout/VideoLayout.js:170-179 | the remote flag never changes what the local surfaces get, and the local flag never changes what the remote surfaces get |
| VideoLayout.RouteQuadrantIsInvolution | modules/UI/videolayout/VideoLayout.js:170-179 | swapping twice with the same flags restores the original assignment |
| VideoLayout.RemoteSwapUndoesCrossWiring | modules/UI/videolayout/VideoLayout.js:183-200 | without a remote swap each remote stream lands on the other remote surface; with one, each lands on its own |
| VideoLayout.SecondListedElementIsForced | modules/UI/videolayout/VideoLayout.js:125-129 | the participant on large listed twice is re-attached by the second element, whose index acts as force |
| VideoLayout.LastNScopedToStage | modules/UI/videolayout/VideoLayout.js:123-131 | last-N lists that do not contain the participant on large cause no manager call |
| VideoLayout.ShowTwiceIsShowOnce | modules/UI/videolayout/VideoLayout.js:313-335 | showing a type twice makes the same single transition as showing it once |
| VideoLayout.HideTwiceIsHideOnce | modules/UI/videolayout/VideoLayout.js:313-335 | hiding a type twice makes one transition when its fallback is another type |
| VideoLayout.HidingTheFallbackRepeats | modules/UI/videolayout/VideoLayout.js:325-335 | hiding the default video container with nothing pinned calls `showContainer` with it again on every call |
| VideoLayout.HideFallsBackToPinnedScreenShare | modules/UI/videolayout/VideoLayout.js:325-333 | hiding the visible type while a screen share is pinned switches to the desktop type |
| VideoLayout.VideoLayout.IsCurrentlyOnLarge | modules/UI/videolayout/VideoLayout.js:155-157 | true iff a manager exists and its participant on large is the id |
| VideoLayout.VideoLayout.IsLargeContainerTypeVisible | modules/UI/videolayout/VideoLayout.js:338-340 | true iff a manager exists and the type is its visible one |
| VideoLayout.VideoLayout.IsLargeVideoVisible | modules/UI/videolayout/VideoLayout.js:143-145 | true iff a manager exists showing the default video container |
| VideoLayout.VideoLayout.GetLargeVideoId | modules/UI/videolayout/VideoLayout.js:346-348 | empty while uninitialized; equals some id exactly when that id is on large |
| VideoLayout.VideoLayout.ResetLargeVideo | modules/UI/videolayout/VideoLayout.js:382-388 | the previous manager, if any, is destroyed, and none remains |
| VideoLayout.VideoLayout.Reset | modules/UI/videolayout/VideoLayout.js:41-43 | same as resetting the large video |
| VideoLayout.VideoLayout.InitLargeVideo | modules/UI/videolayout/VideoLayout.js:45-57 | a fresh manager replaces a destroyed previous one; a boolean flip setting is applied, then the container size is updated |
| VideoLayout.VideoLayout.OnLocalFlipXChanged | modules/UI/videolayout/VideoLayout.js:27-34 | the flip setting is forwarded to an initialized manager, with no type check |
| VideoLayout.VideoLayout.SetAudioLevel | modules/UI/videolayout/VideoLayout.js:65-69 | the level reaches the manager only for the participant on large |
| VideoLayout.VideoLayout.ResizeVideoArea | modules/UI/videolayout/VideoLayout.js:136-141 | an initialized manager gets a container-size update followed by a non-animated resize |
| VideoLayout.VideoLayout.AttachStreams | modules/UI/videolayout/VideoLayout.js:265-291 | the manager changes exactly as `AttachAll` says |
| VideoLayout.VideoLayout.MarkForReattach | modules/UI/videolayout/VideoLayout.js:235-246 | every present track object of the participant gets its force-reattach flag set |
| VideoLayout.VideoLayout.UpdateLargeVideo | modules/UI/videolayout/VideoLayout.js:215-295 | nothing happens while uninitialized; otherwise the requested flags are set on the track objects whatever the decision, and the manager changes exactly as `UpdateEffect` says |
| VideoLayout.VideoLayout.ChangeViewByLocal | modules/UI/videolayout/VideoLayout.js:159-213 | routes the swapped assignment in with no de-duplication; throws, changing nothing, while uninitialized |
| VideoLayout.VideoLayout.AddLargeVideoContainer | modules/UI/videolayout/VideoLayout.js:297-299 | registers the container under its type; ignored while uninitialized |
| VideoLayout.VideoLayout.RemoveLargeVideoContainer | modules/UI/videolayout/VideoLayout.js:301-303 | unregisters the type; ignored while uninitialized |
| VideoLayout.VideoLayout.ShowLargeVideoContainer | modules/UI/videolayout/VideoLayout.js:308-336 | rejects iff uninitialized; resolves at once iff visibility already matches; otherwise switches to `ShowTarget` |
| VideoLayout.VideoLayout.UpdateLargeVideoIfDisplayed | modules/UI/videolayout/VideoLayout.js:400-404 | only the participant on large is updated |
| VideoLayout.VideoLayout.ForEachUpdateIfDisplayed | modules/UI/videolayout/VideoLayout.js:125-129 | the loop leaves the manager exactly as `ForEachIfDisplayed` says, index as force |
| VideoLayout.VideoLayout.OnLastNEndpointsChanged | modules/UI/videolayout/VideoLayout.js:123-131 | the leaving list, then the entering list, each when present |
| VideoLayout.VideoLayout.UpdateVideoMutedForNoTracks | modules/UI/videolayout/VideoLayout.js:78-84 | a known participant with no video track forces an update if on large; anything else changes nothing |
| LargeVideoManager.InitialState | modules/UI/videolayout/VideoLayout.js:48 | a new manager has no participant or stream, and shows its registered default video container |
| LargeVideoManager.Manager.UpdateLargeVideo | modules/UI/videolayout/VideoLayout.js:284-288 | the primary attach puts the participant and its local main stream id on large and is logged |
| LargeVideoManager.Manager.UpdateQuadrant | modules/UI/videolayout/VideoLayout.js:265-282 | a secondary attach is only logged |
| LargeVideoManager.Manager.ShowContainerOf | modules/UI/videolayout/VideoLayout.js:335 | the given type, even an undefined one, becomes the visible one |
| Media.StreamIdOf | modules/UI/videolayout/VideoLayout.js:251 | the attached stream's id, null without a stream |
| Media.NewStreamId | modules/UI/videolayout/VideoLayout.js:252 | the track's id, with an empty id compared as null |
| ReduxState.GetParticipantById | modules/UI/videolayout/VideoLayout.js:93 | the participant record exactly when the id is known |
| ReduxState.QuadrantOf | modules/UI/videolayout/VideoLayout.js:224-233 | an unknown participant has no streams |
| LargeVideoView.Includes | react/features/large-video/components/LargeVideo.web.js:602 | true iff the text occurs at some position of the id |
| LargeVideoView.LocalScreenshareOnLarge | react/features/large-video/components/LargeVideo.web.js:602-603 | undefined iff no participant id is on large; true iff that id contains the local id and its track is a desktop |
| LargeVideoView.MapStateToProps | react/features/large-video/components/LargeVideo.web.js:592-625 | the placeholder shows iff the local share is on large, see-what-is-being-shared is off and the device is not a Spot room |
| LargeVideoView.UpdateLayoutEffects | react/features/large-video/components/LargeVideo.web.js:481-496 | the layout is refreshed exactly once; transition classes are added before and their removal scheduled after iff the filmstrip is resizable and at least the breakpoint wide |
| LargeVideoView.LayoutPart | react/features/large-video/components/LargeVideo.web.js:171-173 | re-layout iff filmstrip visibility changed |
| LargeVideoView.SharePart | react/features/large-video/components/LargeVideo.web.js:175-177 | the reset is dispatched iff the sharing flag changed to a falsy value |
| LargeVideoView.ReattachPart | react/features/large-video/components/LargeVideo.web.js:179-181 | a forced re-attach of the participant on large iff the local share is watched |
| LargeVideoView.SelfViewPart | react/features/large-video/components/LargeVideo.web.js:183-186 | a forced update without re-attach iff the local participant is on large and the self-view setting changed |
| LargeVideoView.DidUpdateEffects | react/features/large-video/components/LargeVideo.web.js:162-187 | every update requested is a forced update of the participant on large; never tile view, never see-what-is-being-shared on |
| LargeVideoView.DidUpdateTriggers | react/features/large-video/components/LargeVideo.web.js:162-187 | each of the four effects occurs iff its own condition holds |
| LargeVideoView.StoppingShareResetsSeeWhatIsShared | react/features/large-video/components/LargeVideo.web.js:175-177 | ending the local share switches see-what-is-being-shared off |
| LargeVideoView.UndefinedToFalseAlsoResets | react/features/large-video/components/LargeVideo.web.js:175-177 | so does a change from undefined to false |
| LargeVideoView.WatchedShareReattachesOnEveryUpdate | react/features/large-video/components/LargeVideo.web.js:179-181 | while the local share is watched, even an update with unchanged props re-attaches |
| LargeVideoView.GetCustomStyles | react/features/large-video/components/LargeVideo.web.js:532-560 | custom colour or the interface default, with alpha iff set; image with cover size iff set; a width iff the filmstrip is visible and at least the breakpoint wide, equal to the max width or 0 |
| LargeVideoView.TapStep | react/features/large-video/components/LargeVideo.web.js:571-581 | a tap with a pending timer clears it and enters tile view; otherwise it arms the new timer and dispatches nothing |
| LargeVideoView.TwoTapsEnterTileView | react/features/large-video/components/LargeVideo.web.js:571-581 | two taps enter tile view exactly once and leave no timer |
| LargeVideoView.LargeVideo.constructor | react/features/large-video/components/LargeVideo.web.js:305-439 | as rendered: buttons plain, plain, active; screen divs in mode 2; no timer |
| LargeVideoView.LargeVideo.ClearTapTimeout | react/features/large-video/components/LargeVideo.web.js:521-524 | the pending handle is cancelled and none remains |
| LargeVideoView.LargeVideo.OnDoubleTap | react/features/large-video/components/LargeVideo.web.js:571-581 | the timer and dispatched actions are exactly `TapStep`'s |
| LargeVideoView.LargeVideo.OnChangeView | react/features/large-video/components/LargeVideo.web.js:499-511 | exactly the head button of the mode is active; the screen divs take that mode's classes |
| ConfigFunctions.CustomIds | react/features/base/config/functions.web.ts:36 | the ids of the custom buttons in order, none when absent |
| ConfigFunctions.SelectedList | react/features/base/config/functions.web.ts:38 | the configured array when there is one, else the shared default list |
| ConfigFunctions.GetToolbarButtons | react/features/base/config/functions.web.ts:34-45 | returns the selected array itself, grown in place by the custom ids |
| ConfigFunctions.AfterCalls | react/features/base/config/functions.web.ts:38-42 | after n calls the list has grown by n times the custom ids and still starts with the original list |
| ConfigFunctions.MembershipStableAcrossCalls | react/features/base/config/functions.web.ts:38-42 | from the first call on, a name is listed iff it is configured or a custom id |
| ConfigFunctions.RepeatedCallsGrow | react/features/base/config/functions.web.ts:40-42 | with a custom button, each further call lengthens the list |
| ConfigFunctions.GetToolbarButtonsTwice | react/features/base/config/functions.web.ts:34-45 | two calls leave the custom ids appended twice |
| ConfigFunctions.IsToolbarButtonEnabled | react/features/base/config/functions.web.ts:65-69 | membership in the given array, leaving it as it was; or, given the store, membership in the selected list plus the custom ids, with that list grown in place by the custom ids |
| ConfigFunctions.NotifyEntries | react/features/base/config/functions.web.ts:130-135 | one entry per custom button, none preventing execution |
| ConfigFunctions.NotifyEntriesKeyCustomIds | react/features/base/config/functions.web.ts:130-135 | the entries' keys are exactly the custom ids, in order |
| ConfigFunctions.GetButtonsWithNotifyClick | react/features/base/config/functions.web.ts:128-146 | the configured array, grown in place, or a new one holding only the custom entries |
| ConfigFunctions.GetWebHIDFeatureConfig | react/features/base/config/functions.web.ts:53-55 | true iff the option is set to true; false when absent |
| ConfigFunctions.AreAudioLevelsEnabled | react/features/base/config/functions.web.ts:77-80 | true iff not on the mobile app and audio levels are not disabled |
| ConfigFunctions.LinkIbi | react/features/base/config/functions.web.ts:101-119 | the platform's bundle id default is never empty |
| ConfigFunctions.Fill | react/features/base/config/functions.web.ts:95 | a set value is kept, an unset or empty one takes the default |
| ConfigFunctions.FillIos | react/features/base/config/functions.web.ts:97-100 | name, scheme and download link become set, set ones kept; package and F-Droid URL untouched |
| ConfigFunctions.FillAndroid | react/features/base/config/functions.web.ts:108-113 | all five fields become set, set ones kept |
| ConfigFunctions.FillLink | react/features/base/config/functions.web.ts:101-119 | all four link fields become set, set ones kept |
| ConfigFunctions.FillsAreIdempotent | react/features/base/config/functions.web.ts:88-120 | a second fill changes nothing |
| ConfigFunctions.AndroidFillAbsorbsIos | react/features/base/config/functions.web.ts:97-113 | filling one object with both sets of defaults equals the Android fill |
| ConfigFunctions.DynamicLink.FillDefaults | react/features/base/config/functions.web.ts:101-106 | the link's fields become `FillLink` of their old values |
| ConfigFunctions.MobileConfig.FillIosDefaults | react/features/base/config/functions.web.ts:97-100 | the fields become `FillIos` of their old values |
| ConfigFunctions.MobileConfig.FillAndroidDefaults | react/features/base/config/functions.web.ts:108-113 | the fields become `FillAndroid` of their old values |
| ConfigFunctions.Footprint | react/features/base/config/functions.web.ts:89-93 | every present platform object is writable |
| ConfigFunctions.SetDeeplinkingDefaults | react/features/base/config/functions.web.ts:88-120 | present platform objects and their dynamic links are filled in place; absent ones stay absent; a shared iOS/Android object ends Android-filled and a shared link keeps the iOS bundle id |

## Left out

- The large-video manager and its containers: their code is not part of this model. The manager is reduced to the state the coordinator reads and a log of the calls it receives. The primary attach does not switch the visible container.
- Promises: every manager call is synchronous, and the rejections the coordinator swallows are not modelled, nor are races between in-flight attaches.
- Timers: `setTimeout`/`clearTimeout` become handles passed in, and the 300 ms and 1000 ms delays are not modelled.
- The DOM: jQuery, JSX markup, the transition classes and the style table are left out. The head buttons and screen divs are arrays of class names. `onChangeView` receives the mode as a number below 3; the markup only passes '0', '1' and '2'.
- `setColorAlpha` and CSS string building are left out: a colour keeps its base and the alpha applied to it, unevaluated.
- Logging and `APP.conference.listMembers` are left out.
- `getCurrentlyOnLargeContainer`, `getLargeVideo` and `getLargeVideoWrapper` are left out: they only hand out the manager or its DOM wrapper.
- `_cleanupConfig` and `getReplaceParticipant` are left out: the first does nothing and the second reads one option.
- The store selectors are left out: `getVideoTrackByParticipant`, `isFilmstripResizable`, `getVerticalViewMaxWidth`, `getHideSelfView`, `getLocalParticipant` and the track getters. Their results are fields of the store snapshot.
- `FILMSTRIP_BREAKPOINT`, `interfaceConfig.DEFAULT_BACKGROUND`, `navigator.product` and the contents of `TOOLBAR_BUTTONS` are parameters, because their defining files are not part of this model.
- LargeVideoView.MapStateToProps: the placeholder flag is a boolean. The code yields undefined in place of false when no participant is on large, which only matters for truthiness.
- ConfigFunctions.SetDeeplinkingDefaults: a platform entry that is `null`, rather than missing, throws in the code. The model treats it as missing.
- ConfigFunctions.GetButtonsWithNotifyClick: configured entries are modelled as key/flag records. Plain-string entries in the array are not distinguished.
- ReduxState.QuadrantOf: an unknown participant is given no streams, and any quadrant stored for an unknown id is ignored. This is an assumption about `getMainVideoTrack` and `getSubVideoTrack`, which receive an undefined participant there and whose code is not part of this model.
- LargeVideoManager.Manager.ShowContainerOf: what the manager itself does when asked to show the container it already shows is not modelled; the model records the call and sets the visible type.
- LargeVideoManager.IsVideoContainer: the two tags (`VIDEO_CONTAINER_TYPE` as "camera", the desktop tag as "desktop") and the camera-or-desktop test are assumptions about `VideoContainer.js` and `LargeVideoManager.js`, whose code is not part of this model.

/**
 * The decision logic of the large-video stage component: which props it
 * derives from the store, which calls back into the coordinator a props
 * update triggers, the two-tap gesture, the view-mode head buttons and the
 * custom container styles. Markup, jQuery and CSS text are not modelled;
 * side effects are returned as an ordered list of `Effect`s.
 */
module LargeVideoView {
  import opened Media

  /** `SPOT_DISPLAY_NAME`: the default display name that marks a Spot room device. */
  const SPOT_DISPLAY_NAME: string := "Meeting Room"

  /** The class of a head button, plain and selected. */
  const HEAD_BUTTON: string := "room_head_button_bg"
  const HEAD_BUTTON_ACTIVE: string := "room_head_button_bg active"

  /** Globals the component reads: `interfaceConfig.DEFAULT_BACKGROUND` and `FILMSTRIP_BREAKPOINT`. */
  datatype Env = Env(defaultBackground: string, filmstripBreakpoint: int)

  /** The side effects the component performs, in the order it performs them. */
  datatype Effect =
    | AddTransitionClasses
    | RefreshLayout
    | ScheduleTransitionRemoval
    | SetSeeWhatIsBeingShared(value: bool)
    | UpdateLargeVideo(id: Option<ParticipantId>, forceUpdate: bool, forceStreamToReattach: bool)
    | SetTileView(enabled: bool)

  /** The slice of the redux store `_mapStateToProps` reads. */
  datatype StageState = StageState(
    backgroundAlpha: Option<real>,
    brandingBackgroundColor: Option<string>,
    brandingBackgroundImageUrl: Option<string>,
    filmstripWidth: Option<int>,
    filmstripVisible: bool,
    filmstripResizable: bool,
    verticalViewMaxWidth: Option<int>,
    defaultLocalDisplayName: Option<string>,
    seeWhatIsBeingShared: bool,
    hideSelfView: bool,
    localParticipantId: Option<ParticipantId>,
    largeVideoParticipantId: Option<ParticipantId>,
    largeVideoTrackType: Option<string>)

  /** The props the component's decisions read. */
  datatype Props = Props(
    backgroundAlpha: Option<real>,
    customBackgroundColor: Option<string>,
    customBackgroundImageUrl: Option<string>,
    displayScreenSharingPlaceholder: bool,
    hideSelfView: bool,
    isScreenSharing: Option<bool>,
    largeVideoParticipantId: Option<ParticipantId>,
    localParticipantId: Option<ParticipantId>,
    resizableFilmstrip: bool,
    seeWhatIsBeingShared: bool,
    verticalFilmstripWidth: Option<int>,
    verticalViewMaxWidth: Option<int>,
    visibleFilmstrip: bool)

  /** JavaScript truthiness of an optional boolean. */
  predicate IsTrue(b: Option<bool>)
  {
    b == Some(true)
  }

  /** `width >= FILMSTRIP_BREAKPOINT` with an undefined width comparing false. */
  predicate WidthAtLeast(width: Option<int>, breakpoint: int)
  {
    width.Some? && width.value >= breakpoint
  }

  /** `sub` occurs in `s` starting at index `i`. */
  predicate OccursAt(s: string, sub: string, i: int)
  {
    0 <= i <= |s| - |sub| && s[i..i + |sub|] == sub
  }

  /** `String.prototype.includes`: whether `sub` occurs anywhere in `s`. */
  function Includes(s: string, sub: string): (r: bool)
    ensures r <==> exists i :: OccursAt(s, sub, i)
    decreases |s|
  {
    if |sub| > |s| then false
    else if s[..|sub|] == sub then assert OccursAt(s, sub, 0); true
    else
      var rest := Includes(s[1..], sub);
      assert rest ==> exists i :: OccursAt(s, sub, i) by {
        if rest {
          var j :| OccursAt(s[1..], sub, j);
          assert s[j + 1..j + 1 + |sub|] == s[1..][j..j + |sub|];
          assert OccursAt(s, sub, j + 1);
        }
      }
      assert (exists i :: OccursAt(s, sub, i)) ==> rest by {
        if exists i :: OccursAt(s, sub, i) {
          var j :| OccursAt(s, sub, j);
          assert j != 0 by { assert s[0..|sub|] == s[..|sub|]; }
          assert s[j..j + |sub|] == s[1..][j - 1..j - 1 + |sub|];
          assert OccursAt(s[1..], sub, j - 1);
        }
      }
      rest
  }

  /** The string `includes` searches for: an undefined argument is converted to "undefined". */
  function SearchString(id: Option<ParticipantId>): string
  {
    if id.Some? then id.value else "undefined"
  }

  /**
   * `isLocalScreenshareOnLargeVideo`: undefined without a large
   * participant; otherwise whether its id contains the local id and its
   * video track is a desktop.
   */
  function LocalScreenshareOnLarge(st: StageState): (r: Option<bool>)
    ensures r.None? <==> st.largeVideoParticipantId.None?
    ensures IsTrue(r) <==>
      st.largeVideoParticipantId.Some?
      && Includes(st.largeVideoParticipantId.value, SearchString(st.localParticipantId))
      && st.largeVideoTrackType == Some(DESKTOP)
  {
    if st.largeVideoParticipantId.None? then None
    else Some(Includes(st.largeVideoParticipantId.value, SearchString(st.localParticipantId))
              && st.largeVideoTrackType == Some(DESKTOP))
  }

  /**
   * `_mapStateToProps`. The screen-sharing placeholder is shown exactly
   * when the local screen share is on large, see-what-is-being-shared is
   * off and the device is not a Spot room.
   */
  function MapStateToProps(st: StageState): (p: Props)
    ensures p.displayScreenSharingPlaceholder <==>
      st.largeVideoParticipantId.Some?
      && Includes(st.largeVideoParticipantId.value, SearchString(st.localParticipantId))
      && st.largeVideoTrackType == Some(DESKTOP)
      && !st.seeWhatIsBeingShared
      && st.defaultLocalDisplayName != Some(SPOT_DISPLAY_NAME)
    ensures p.displayScreenSharingPlaceholder ==> IsTrue(p.isScreenSharing) && !p.seeWhatIsBeingShared
    ensures p.largeVideoParticipantId == st.largeVideoParticipantId && p.localParticipantId == st.localParticipantId
  {
    var isLocalScreenshareOnLargeVideo := LocalScreenshareOnLarge(st);
    var isOnSpot := st.defaultLocalDisplayName == Some(SPOT_DISPLAY_NAME);
    Props(
      backgroundAlpha := st.backgroundAlpha,
      customBackgroundColor := st.brandingBackgroundColor,
      customBackgroundImageUrl := st.brandingBackgroundImageUrl,
      displayScreenSharingPlaceholder := IsTrue(isLocalScreenshareOnLargeVideo) && !st.seeWhatIsBeingShared && !isOnSpot,
      hideSelfView := st.hideSelfView,
      isScreenSharing := isLocalScreenshareOnLargeVideo,
      largeVideoParticipantId := st.largeVideoParticipantId,
      localParticipantId := st.localParticipantId,
      resizableFilmstrip := st.filmstripResizable,
      seeWhatIsBeingShared := st.seeWhatIsBeingShared,
      verticalFilmstripWidth := st.filmstripWidth,
      verticalViewMaxWidth := st.verticalViewMaxWidth,
      visibleFilmstrip := st.filmstripVisible)
  }

  /**
   * `_updateLayout`: always refreshes the layout; transition classes are
   * added first, and their removal scheduled after, only for a resizable
   * filmstrip at least as wide as the breakpoint.
   */
  function UpdateLayoutEffects(p: Props, env: Env): (r: seq<Effect>)
    ensures multiset(r)[RefreshLayout] == 1
    ensures AddTransitionClasses in r <==> p.resizableFilmstrip && WidthAtLeast(p.verticalFilmstripWidth, env.filmstripBreakpoint)
    ensures ScheduleTransitionRemoval in r <==> AddTransitionClasses in r
    ensures AddTransitionClasses in r ==> r == [AddTransitionClasses, RefreshLayout, ScheduleTransitionRemoval]
    ensures AddTransitionClasses !in r ==> r == [RefreshLayout]
  {
    if p.resizableFilmstrip && WidthAtLeast(p.verticalFilmstripWidth, env.filmstripBreakpoint) then
      [AddTransitionClasses, RefreshLayout, ScheduleTransitionRemoval]
    else
      [RefreshLayout]
  }

  /** `componentDidUpdate`, first rule: a change of filmstrip visibility re-lays the stage out. */
  function LayoutPart(prev: Props, cur: Props, env: Env): (r: seq<Effect>)
    ensures RefreshLayout in r <==> prev.visibleFilmstrip != cur.visibleFilmstrip
    ensures forall e :: e in r ==> !e.SetSeeWhatIsBeingShared? && !e.UpdateLargeVideo? && !e.SetTileView?
  {
    if prev.visibleFilmstrip != cur.visibleFilmstrip then UpdateLayoutEffects(cur, env) else []
  }

  /** Second rule: the sharing flag changed to a falsy value. */
  function SharePart(prev: Props, cur: Props): (r: seq<Effect>)
    ensures r == [] || r == [SetSeeWhatIsBeingShared(false)]
    ensures r != [] <==> prev.isScreenSharing != cur.isScreenSharing && !IsTrue(cur.isScreenSharing)
  {
    if prev.isScreenSharing != cur.isScreenSharing && !IsTrue(cur.isScreenSharing)
    then [SetSeeWhatIsBeingShared(false)] else []
  }

  /** Third rule: the local share is on large and being watched. */
  function ReattachPart(cur: Props): (r: seq<Effect>)
    ensures r == [] || r == [UpdateLargeVideo(cur.largeVideoParticipantId, true, true)]
    ensures r != [] <==> IsTrue(cur.isScreenSharing) && cur.seeWhatIsBeingShared
  {
    if IsTrue(cur.isScreenSharing) && cur.seeWhatIsBeingShared
    then [UpdateLargeVideo(cur.largeVideoParticipantId, true, true)] else []
  }

  /** Fourth rule: the local participant is on large and the self-view setting changed. */
  function SelfViewPart(prev: Props, cur: Props): (r: seq<Effect>)
    ensures r == [] || r == [UpdateLargeVideo(cur.largeVideoParticipantId, true, false)]
    ensures r != [] <==> cur.largeVideoParticipantId == cur.localParticipantId && prev.hideSelfView != cur.hideSelfView
  {
    if cur.largeVideoParticipantId == cur.localParticipantId && prev.hideSelfView != cur.hideSelfView
    then [UpdateLargeVideo(cur.largeVideoParticipantId, true, false)] else []
  }

  /**
   * What `componentDidUpdate` may do to the participant on large: only
   * forced updates of that participant, never a switch to tile view and
   * never turning see-what-is-being-shared on.
   */
  predicate Allowed(e: Effect, cur: Props)
  {
    (e.UpdateLargeVideo? ==> e.id == cur.largeVideoParticipantId && e.forceUpdate)
    && !e.SetTileView? && e != SetSeeWhatIsBeingShared(true)
  }

  predicate AllAllowed(r: seq<Effect>, cur: Props)
  {
    forall e :: e in r ==> Allowed(e, cur)
  }

  lemma AllowedConcat(a: seq<Effect>, b: seq<Effect>, cur: Props)
    requires AllAllowed(a, cur) && AllAllowed(b, cur)
    ensures AllAllowed(a + b, cur)
  {
  }

  /** `componentDidUpdate`: the four rules in source order. */
  function DidUpdateEffects(prev: Props, cur: Props, env: Env): (r: seq<Effect>)
    ensures AllAllowed(r, cur)
  {
    var a, b, c, d := LayoutPart(prev, cur, env), SharePart(prev, cur), ReattachPart(cur), SelfViewPart(prev, cur);
    assert AllAllowed(a, cur) && AllAllowed(b, cur) && AllAllowed(c, cur) && AllAllowed(d, cur);
    AllowedConcat(a, b, cur);
    AllowedConcat(a + b, c, cur);
    AllowedConcat(a + b + c, d, cur);
    a + b + c + d
  }

  /**
   * When `componentDidUpdate` acts: the layout is refreshed exactly when
   * filmstrip visibility changed; see-what-is-being-shared is switched
   * off exactly when the sharing flag changed to a falsy value; a forced
   * re-attach is requested exactly when the local share is on large and
   * being watched; a forced update without re-attach exactly when the
   * local participant is on large and the self-view setting changed.
   */
  lemma DidUpdateTriggers(prev: Props, cur: Props, env: Env)
    ensures RefreshLayout in DidUpdateEffects(prev, cur, env) <==> prev.visibleFilmstrip != cur.visibleFilmstrip
    ensures SetSeeWhatIsBeingShared(false) in DidUpdateEffects(prev, cur, env) <==>
      prev.isScreenSharing != cur.isScreenSharing && !IsTrue(cur.isScreenSharing)
    ensures UpdateLargeVideo(cur.largeVideoParticipantId, true, true) in DidUpdateEffects(prev, cur, env) <==>
      IsTrue(cur.isScreenSharing) && cur.seeWhatIsBeingShared
    ensures UpdateLargeVideo(cur.largeVideoParticipantId, true, false) in DidUpdateEffects(prev, cur, env) <==>
      cur.largeVideoParticipantId == cur.localParticipantId && prev.hideSelfView != cur.hideSelfView
  {
    var a, b, c, d := LayoutPart(prev, cur, env), SharePart(prev, cur), ReattachPart(cur), SelfViewPart(prev, cur);
    InConcat4(a, b, c, d, RefreshLayout);
    InConcat4(a, b, c, d, SetSeeWhatIsBeingShared(false));
    InConcat4(a, b, c, d, UpdateLargeVideo(cur.largeVideoParticipantId, true, true));
    InConcat4(a, b, c, d, UpdateLargeVideo(cur.largeVideoParticipantId, true, false));
  }

  /** Membership in a concatenation of four sequences. */
  lemma InConcat4<T>(a: seq<T>, b: seq<T>, c: seq<T>, d: seq<T>, e: T)
    ensures e in a + b + c + d <==> e in a || e in b || e in c || e in d
  {
  }

  /** Ending a local screen share switches see-what-is-being-shared off. */
  lemma StoppingShareResetsSeeWhatIsShared(prev: Props, cur: Props, env: Env)
    requires IsTrue(prev.isScreenSharing) && cur.isScreenSharing == Some(false)
    ensures SetSeeWhatIsBeingShared(false) in DidUpdateEffects(prev, cur, env)
  {
    DidUpdateTriggers(prev, cur, env);
  }

  /**
   * Because the sharing prop is undefined without a large participant, a
   * change between undefined and false also switches it off, although no
   * share ended.
   */
  lemma UndefinedToFalseAlsoResets(prev: Props, cur: Props, env: Env)
    requires prev.isScreenSharing.None? && cur.isScreenSharing == Some(false)
    ensures SetSeeWhatIsBeingShared(false) in DidUpdateEffects(prev, cur, env)
  {
    DidUpdateTriggers(prev, cur, env);
  }

  /** Unchanged props still re-attach on every update while the local share is watched. */
  lemma WatchedShareReattachesOnEveryUpdate(p: Props, env: Env)
    requires IsTrue(p.isScreenSharing) && p.seeWhatIsBeingShared
    ensures DidUpdateEffects(p, p, env) == [UpdateLargeVideo(p.largeVideoParticipantId, true, true)]
  {
  }

  /** The background colour before and after `setColorAlpha`, which is not evaluated here. */
  datatype Color = Plain(base: string) | WithAlpha(base: string, alpha: real)

  /** The style object of the container; `width` holds N of `calc(100% - Npx)`. */
  datatype Styles = Styles(
    backgroundColor: Color,
    backgroundImageUrl: Option<string>,
    backgroundSizeCover: bool,
    width: Option<int>)

  /**
   * `_getCustomStyles`: the custom colour or else the interface default,
   * with the alpha applied when one is set; the custom image when set; a
   * width only for a visible filmstrip at least as wide as the breakpoint.
   */
  method GetCustomStyles(p: Props, env: Env) returns (styles: Styles)
    ensures styles.backgroundColor.base ==
      (if NonEmpty(p.customBackgroundColor) then p.customBackgroundColor.value else env.defaultBackground)
    ensures styles.backgroundColor.WithAlpha? <==> p.backgroundAlpha.Some?
    ensures styles.backgroundColor.WithAlpha? ==> styles.backgroundColor.alpha == p.backgroundAlpha.value
    ensures styles.backgroundImageUrl.Some? <==> NonEmpty(p.customBackgroundImageUrl)
    ensures styles.backgroundImageUrl.Some? ==> styles.backgroundImageUrl == p.customBackgroundImageUrl
    ensures styles.backgroundSizeCover <==> styles.backgroundImageUrl.Some?
    ensures styles.width.Some? <==> p.visibleFilmstrip && WidthAtLeast(p.verticalFilmstripWidth, env.filmstripBreakpoint)
    ensures styles.width.Some? ==>
      styles.width.value == (if p.verticalViewMaxWidth.Some? then p.verticalViewMaxWidth.value else 0)
  {
    styles := Styles(Plain(""), None, false, None);
    styles := styles.(backgroundColor :=
      Plain(if NonEmpty(p.customBackgroundColor) then p.customBackgroundColor.value else env.defaultBackground));
    if p.backgroundAlpha.Some? {
      styles := styles.(backgroundColor := WithAlpha(styles.backgroundColor.base, p.backgroundAlpha.value));
    }
    if NonEmpty(p.customBackgroundImageUrl) {
      styles := styles.(backgroundImageUrl := p.customBackgroundImageUrl, backgroundSizeCover := true);
    }
    if p.visibleFilmstrip && WidthAtLeast(p.verticalFilmstripWidth, env.filmstripBreakpoint) {
      styles := styles.(width := Some(if p.verticalViewMaxWidth.Some? then p.verticalViewMaxWidth.value else 0));
    }
  }

  /** Whether a `_tappedTimeout` handle is pending (a truthy timer id). */
  predicate TapPending(timer: Option<nat>)
  {
    timer.Some? && timer.value != 0
  }

  /**
   * One tap of `_onDoubleTap`: a tap with a pending timer clears it and
   * switches to tile view; otherwise it arms `newTimer` and dispatches
   * nothing.
   */
  function TapStep(timer: Option<nat>, newTimer: nat): (r: (Option<nat>, seq<Effect>))
    ensures TapPending(timer) ==> r.0.None? && r.1 == [SetTileView(true)]
    ensures !TapPending(timer) ==> r.0 == Some(newTimer) && r.1 == []
  {
    if TapPending(timer) then (None, [SetTileView(true)]) else (Some(newTimer), [])
  }

  /** Two taps within the timer's life switch to tile view once and leave no timer pending. */
  lemma TwoTapsEnterTileView(timer: Option<nat>, first: nat, second: nat)
    requires !TapPending(timer) && first != 0
    ensures var (t1, e1) := TapStep(timer, first);
      var (t2, e2) := TapStep(t1, second);
      t2.None? && e1 + e2 == [SetTileView(true)]
  {
  }

  /** A single digit as text, for `'room_local_' + num`. */
  function Digit(n: nat): (r: string)
    requires n < 10
    ensures |r| == 1 && '0' <= r[0] <= '9'
  {
    [(('0' as int) + n) as char]
  }

  /** The mounted stage component: its tap timer and the class names of its head buttons and screen divs. */
  class LargeVideo {
    var tappedTimeout: Option<nat>
    const headButtons: array<string>
    const screenDivs: array<string>

    /** Three head buttons and the local and remote screen divs, as rendered. */
    predicate Valid()
      reads this
    {
      headButtons.Length == 3 && screenDivs.Length == 2 && headButtons != screenDivs
    }

    /** The component as first rendered: mode 2 selected, no timer. */
    constructor ()
      ensures Valid() && fresh(headButtons) && fresh(screenDivs) && tappedTimeout.None?
      ensures headButtons[..] == [HEAD_BUTTON, HEAD_BUTTON, HEAD_BUTTON_ACTIVE]
      ensures screenDivs[..] == ["room_local_2", "room_remote_2"]
    {
      tappedTimeout := None;
      headButtons := new string[3] [HEAD_BUTTON, HEAD_BUTTON, HEAD_BUTTON_ACTIVE];
      screenDivs := new string[2] ["room_local_2", "room_remote_2"];
    }

    /** `_clearTapTimeout`: returns the handle it cancels and leaves none pending. */
    method ClearTapTimeout() returns (cancelled: Option<nat>)
      modifies this`tappedTimeout
      ensures cancelled == old(tappedTimeout) && tappedTimeout.None?
    {
      cancelled := tappedTimeout;
      tappedTimeout := None;
    }

    /** `_onDoubleTap`; `newTimer` is the handle `setTimeout` would return. */
    method OnDoubleTap(newTimer: nat) returns (dispatched: seq<Effect>)
      modifies this`tappedTimeout
      ensures (tappedTimeout, dispatched) == TapStep(old(tappedTimeout), newTimer)
    {
      if TapPending(tappedTimeout) {
        var _ := ClearTapTimeout();
        dispatched := [SetTileView(true)];
      } else {
        tappedTimeout := Some(newTimer);
        dispatched := [];
      }
    }

    /**
     * `onChangeView({num})`: the screen divs take the classes of mode
     * `num`, every head button is reset to plain, then button `num` is
     * made active.
     */
    method OnChangeView(num: nat)
      requires Valid() && num < 3
      modifies headButtons, screenDivs
      ensures forall i :: 0 <= i < 3 ==> headButtons[i] == (if i == num then HEAD_BUTTON_ACTIVE else HEAD_BUTTON)
      ensures screenDivs[..] == ["room_local_" + Digit(num), "room_remote_" + Digit(num)]
    {
      screenDivs[0] := "room_local_" + Digit(num);
      screenDivs[1] := "room_remote_" + Digit(num);
      headButtons[0] := HEAD_BUTTON;
      headButtons[1] := HEAD_BUTTON;
      headButtons[2] := HEAD_BUTTON;
      headButtons[num] := HEAD_BUTTON_ACTIVE;
    }
  }
}

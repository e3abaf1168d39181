/**
 * The web configuration helpers: the toolbar button list and the list of
 * buttons that notify the API when clicked, both grown in place by the
 * custom toolbar buttons; the deeplinking defaults, filled in place into
 * the configuration objects; and two boolean feature rules.
 */
module ConfigFunctions {
  import opened Media

  /** A JavaScript array of button names that the helpers grow in place. */
  class ButtonList {
    var items: seq<string>

    constructor (items: seq<string>)
      ensures this.items == items
    {
      this.items := items;
    }
  }

  /** `{ key, preventExecution }`: a button that notifies the API when clicked. */
  datatype NotifyButton = NotifyButton(key: string, preventExecution: bool)

  /** A JavaScript array of notify-click entries, grown in place. */
  class NotifyList {
    var items: seq<NotifyButton>

    constructor (items: seq<NotifyButton>)
      ensures this.items == items
    {
      this.items := items;
    }
  }

  /** A custom toolbar button; only its id is read here. */
  datatype CustomButton = CustomButton(id: string)

  /**
   * The slice of the configuration the helpers read. A list that is not
   * an array in the configuration is `None`.
   */
  datatype Config = Config(
    toolbarButtons: Option<ButtonList>,
    customToolbarButtons: Option<seq<CustomButton>>,
    buttonsWithNotifyClick: Option<NotifyList>,
    enableWebHIDFeature: Option<bool>,
    disableAudioLevels: Option<bool>)

  /** `customToolbarButtons?.map(({ id }) => id)`, with an absent list giving no ids. */
  function CustomIds(custom: Option<seq<CustomButton>>): (r: seq<string>)
    ensures custom.None? ==> r == []
    ensures custom.Some? ==> |r| == |custom.value| && forall i :: 0 <= i < |r| ==> r[i] == custom.value[i].id
  {
    if custom.None? then [] else seq(|custom.value|, i requires 0 <= i < |custom.value| => custom.value[i].id)
  }

  /** The array `getToolbarButtons` pushes into: the configured one, else the shared `TOOLBAR_BUTTONS`. */
  function SelectedList(config: Config, defaults: ButtonList): (r: ButtonList)
    ensures config.toolbarButtons.Some? ==> r == config.toolbarButtons.value
    ensures config.toolbarButtons.None? ==> r == defaults
  {
    if config.toolbarButtons.Some? then config.toolbarButtons.value else defaults
  }

  /**
   * `getToolbarButtons`: the selected array with the custom ids appended
   * in order, in place, and that same array returned. `defaults` is the
   * shared `TOOLBAR_BUTTONS` array.
   */
  method GetToolbarButtons(config: Config, defaults: ButtonList) returns (buttons: ButtonList)
    modifies SelectedList(config, defaults)
    ensures buttons == SelectedList(config, defaults)
    ensures buttons.items == old(buttons.items) + CustomIds(config.customToolbarButtons)
  {
    buttons := SelectedList(config, defaults);
    buttons.items := buttons.items + CustomIds(config.customToolbarButtons);
  }

  /** The contents of a list that started as `base` after `n` calls that each append `ids`. */
  function AfterCalls(base: seq<string>, ids: seq<string>, n: nat): (r: seq<string>)
    ensures |r| == |base| + n * |ids|
    ensures r[..|base|] == base
  {
    if n == 0 then base else AfterCalls(base, ids, n - 1) + ids
  }

  /**
   * The list keeps growing, but from the first call on its membership is
   * that of the configured buttons and the custom ids together.
   */
  lemma {:induction false} MembershipStableAcrossCalls(base: seq<string>, ids: seq<string>, n: nat, name: string)
    requires n >= 1
    ensures name in AfterCalls(base, ids, n) <==> name in base || name in ids
  {
    if n == 1 {
      assert AfterCalls(base, ids, 1) == AfterCalls(base, ids, 0) + ids;
    } else {
      MembershipStableAcrossCalls(base, ids, n - 1, name);
      assert AfterCalls(base, ids, n) == AfterCalls(base, ids, n - 1) + ids;
    }
  }

  /** With at least one custom button, every further call lengthens the list. */
  lemma RepeatedCallsGrow(base: seq<string>, ids: seq<string>, n: nat)
    requires |ids| > 0
    ensures |AfterCalls(base, ids, n + 1)| > |AfterCalls(base, ids, n)|
  {
  }

  /** Two calls: the second call's list is the first call's result with the ids appended again. */
  method GetToolbarButtonsTwice(config: Config, defaults: ButtonList) returns (first: seq<string>, second: seq<string>)
    modifies SelectedList(config, defaults)
    ensures first == AfterCalls(old(SelectedList(config, defaults).items), CustomIds(config.customToolbarButtons), 1)
    ensures second == AfterCalls(old(SelectedList(config, defaults).items), CustomIds(config.customToolbarButtons), 2)
  {
    var list := GetToolbarButtons(config, defaults);
    first := list.items;
    list := GetToolbarButtons(config, defaults);
    second := list.items;
  }

  /** The second argument of `isToolbarButtonEnabled`: an array, or the redux state. */
  datatype ButtonsSource = FromArray(list: ButtonList) | FromState(config: Config)

  /**
   * `isToolbarButtonEnabled`: membership in the given array, or in the
   * list `getToolbarButtons` returns, which grows the selected array as
   * a side effect.
   */
  method IsToolbarButtonEnabled(name: string, source: ButtonsSource, defaults: ButtonList) returns (enabled: bool)
    modifies if source.FromState? then {SelectedList(source.config, defaults)} else {}
    ensures source.FromArray? ==> enabled == (name in source.list.items)
    ensures source.FromState? ==>
      (enabled <==> name in old(SelectedList(source.config, defaults).items) || name in CustomIds(source.config.customToolbarButtons))
    ensures source.FromState? ==>
      SelectedList(source.config, defaults).items
        == old(SelectedList(source.config, defaults).items) + CustomIds(source.config.customToolbarButtons)
  {
    var buttons: ButtonList;
    if source.FromArray? {
      buttons := source.list;
    } else {
      buttons := GetToolbarButtons(source.config, defaults);
    }
    enabled := name in buttons.items;
  }

  /** The notify-click entries of the custom buttons: `{ key: id, preventExecution: false }` each. */
  function NotifyEntries(custom: Option<seq<CustomButton>>): (r: seq<NotifyButton>)
    ensures |r| == |CustomIds(custom)|
    ensures forall i :: 0 <= i < |r| ==> !r[i].preventExecution
  {
    var ids := CustomIds(custom);
    seq(|ids|, i requires 0 <= i < |ids| => NotifyButton(ids[i], false))
  }

  /** The keys of a list of notify-click entries. */
  function Keys(entries: seq<NotifyButton>): (r: seq<string>)
    ensures |r| == |entries|
  {
    seq(|entries|, i requires 0 <= i < |entries| => entries[i].key)
  }

  /** The entries carry exactly the custom ids, in order. */
  lemma NotifyEntriesKeyCustomIds(custom: Option<seq<CustomButton>>)
    ensures Keys(NotifyEntries(custom)) == CustomIds(custom)
  {
  }

  /**
   * `getButtonsWithNotifyClick`: the configured array, or a new empty
   * one, with the custom entries appended in place, and that array
   * returned.
   */
  method GetButtonsWithNotifyClick(config: Config) returns (buttons: NotifyList)
    modifies if config.buttonsWithNotifyClick.Some? then {config.buttonsWithNotifyClick.value} else {}
    ensures config.buttonsWithNotifyClick.Some? ==>
      buttons == config.buttonsWithNotifyClick.value
      && buttons.items == old(buttons.items) + NotifyEntries(config.customToolbarButtons)
    ensures config.buttonsWithNotifyClick.None? ==>
      fresh(buttons) && buttons.items == NotifyEntries(config.customToolbarButtons)
  {
    if config.buttonsWithNotifyClick.Some? {
      buttons := config.buttonsWithNotifyClick.value;
    } else {
      buttons := new NotifyList([]);
    }
    buttons.items := buttons.items + NotifyEntries(config.customToolbarButtons);
  }

  /** `getWebHIDFeatureConfig`: `enableWebHIDFeature || false`. */
  function GetWebHIDFeatureConfig(config: Config): (r: bool)
    ensures r <==> config.enableWebHIDFeature == Some(true)
    ensures config.enableWebHIDFeature.None? ==> !r
  {
    if config.enableWebHIDFeature.Some? then config.enableWebHIDFeature.value else false
  }

  /** `navigator.product` on the mobile app. */
  const REACT_NATIVE: string := "ReactNative"

  /** `areAudioLevelsEnabled`: off on the mobile app and when the option disables them. */
  function AreAudioLevelsEnabled(product: string, config: Config): (r: bool)
    ensures product == REACT_NATIVE ==> !r
    ensures config.disableAudioLevels == Some(true) ==> !r
    ensures r <==> product != REACT_NATIVE && config.disableAudioLevels != Some(true)
  {
    product != REACT_NATIVE && !(config.disableAudioLevels.Some? && config.disableAudioLevels.value)
  }

  // ---------------------------------------------------------------
  // Deeplinking defaults
  // ---------------------------------------------------------------

  const APP_NAME: string := "GLEP Meet"
  const APP_SCHEME: string := "liveedu.meet.castis.io"
  const DOWNLOAD_LINK: string := "https://liveedu.meet.castis.io"
  const APP_PACKAGE: string := "liveedu.meet.castis.io"
  const FDROID_URL: string := "https://f-droid.org/en/packages/org.jitsi.meet/"
  const LINK_APN: string := "liveedu.meet.castis.io"
  const LINK_APP_CODE: string := "w2atb"
  const IOS_LINK_IBI: string := "com.atlassian.JitsiMeet.ios"
  const ANDROID_LINK_IBI: string := "https://liveedu.meet.castis.io"
  const LINK_ISI: string := "1165103905"

  /** The two mobile platforms; their dynamic links differ only in the `ibi` default. */
  datatype Platform = Ios | Android

  function LinkIbi(p: Platform): (r: string)
    ensures r != ""
  {
    if p == Ios then IOS_LINK_IBI else ANDROID_LINK_IBI
  }

  /** `value || fallback` on an optional string. */
  function Fill(value: Option<string>, fallback: string): (r: Option<string>)
    ensures NonEmpty(value) ==> r == value
    ensures !NonEmpty(value) ==> r == Some(fallback)
  {
    if NonEmpty(value) then value else Some(fallback)
  }

  /** The string fields of a mobile platform's deeplinking config. */
  datatype MobileFields = MobileFields(
    appName: Option<string>,
    appScheme: Option<string>,
    downloadLink: Option<string>,
    appPackage: Option<string>,
    fDroidUrl: Option<string>)

  /** The fields of a dynamic link. */
  datatype LinkFields = LinkFields(apn: Option<string>, appCode: Option<string>, ibi: Option<string>, isi: Option<string>)

  /** Every field `FillIos` fills is set. */
  predicate IosComplete(f: MobileFields)
  {
    NonEmpty(f.appName) && NonEmpty(f.appScheme) && NonEmpty(f.downloadLink)
  }

  /** Every field `FillAndroid` fills is set. */
  predicate AndroidComplete(f: MobileFields)
  {
    IosComplete(f) && NonEmpty(f.appPackage) && NonEmpty(f.fDroidUrl)
  }

  predicate LinkComplete(d: LinkFields)
  {
    NonEmpty(d.apn) && NonEmpty(d.appCode) && NonEmpty(d.ibi) && NonEmpty(d.isi)
  }

  /** The iOS defaults: name, scheme and download link; package and F-Droid URL untouched. */
  function FillIos(f: MobileFields): (r: MobileFields)
    ensures IosComplete(r)
    ensures r.appPackage == f.appPackage && r.fDroidUrl == f.fDroidUrl
    ensures NonEmpty(f.appName) ==> r.appName == f.appName
    ensures NonEmpty(f.appScheme) ==> r.appScheme == f.appScheme
    ensures NonEmpty(f.downloadLink) ==> r.downloadLink == f.downloadLink
    ensures IosComplete(f) ==> r == f
  {
    f.(appName := Fill(f.appName, APP_NAME),
       appScheme := Fill(f.appScheme, APP_SCHEME),
       downloadLink := Fill(f.downloadLink, DOWNLOAD_LINK))
  }

  /** The Android defaults: the iOS ones plus the package and the F-Droid URL. */
  function FillAndroid(f: MobileFields): (r: MobileFields)
    ensures AndroidComplete(r)
    ensures NonEmpty(f.appName) ==> r.appName == f.appName
    ensures NonEmpty(f.appScheme) ==> r.appScheme == f.appScheme
    ensures NonEmpty(f.downloadLink) ==> r.downloadLink == f.downloadLink
    ensures NonEmpty(f.appPackage) ==> r.appPackage == f.appPackage
    ensures NonEmpty(f.fDroidUrl) ==> r.fDroidUrl == f.fDroidUrl
    ensures AndroidComplete(f) ==> r == f
  {
    FillIos(f).(appPackage := Fill(f.appPackage, APP_PACKAGE), fDroidUrl := Fill(f.fDroidUrl, FDROID_URL))
  }

  /** A dynamic link's defaults; only `ibi` differs between the platforms. */
  function FillLink(d: LinkFields, platform: Platform): (r: LinkFields)
    ensures LinkComplete(r)
    ensures NonEmpty(d.apn) ==> r.apn == d.apn
    ensures NonEmpty(d.appCode) ==> r.appCode == d.appCode
    ensures NonEmpty(d.ibi) ==> r.ibi == d.ibi
    ensures NonEmpty(d.isi) ==> r.isi == d.isi
    ensures LinkComplete(d) ==> r == d
  {
    LinkFields(Fill(d.apn, LINK_APN), Fill(d.appCode, LINK_APP_CODE), Fill(d.ibi, LinkIbi(platform)), Fill(d.isi, LINK_ISI))
  }

  /** Filling twice is filling once. */
  lemma FillsAreIdempotent(f: MobileFields, d: LinkFields, platform: Platform, other: Platform)
    ensures FillIos(FillIos(f)) == FillIos(f)
    ensures FillAndroid(FillAndroid(f)) == FillAndroid(f)
    ensures FillLink(FillLink(d, platform), other) == FillLink(d, platform)
  {
  }

  /** Both platforms share the name, scheme and download-link defaults, so the Android fill absorbs the iOS one. */
  lemma AndroidFillAbsorbsIos(f: MobileFields)
    ensures FillAndroid(FillIos(f)) == FillAndroid(f)
  {
  }

  /** `deeplinking.desktop`. */
  class PlatformConfig {
    var appName: Option<string>

    constructor ()
      ensures appName.None?
    {
      appName := None;
    }
  }

  /** `ios.dynamicLink` / `android.dynamicLink`. */
  class DynamicLink {
    var apn: Option<string>
    var appCode: Option<string>
    var ibi: Option<string>
    var isi: Option<string>

    function Fields(): LinkFields
      reads this
    {
      LinkFields(apn, appCode, ibi, isi)
    }

    /** Fill the unset fields in place. */
    method FillDefaults(platform: Platform)
      modifies this
      ensures Fields() == FillLink(old(Fields()), platform)
    {
      apn := Fill(apn, LINK_APN);
      appCode := Fill(appCode, LINK_APP_CODE);
      ibi := Fill(ibi, LinkIbi(platform));
      isi := Fill(isi, LINK_ISI);
    }
  }

  /** `deeplinking.ios` / `deeplinking.android`. */
  class MobileConfig {
    var appName: Option<string>
    var appScheme: Option<string>
    var downloadLink: Option<string>
    var appPackage: Option<string>
    var fDroidUrl: Option<string>
    var dynamicLink: DynamicLink?

    constructor ()
      ensures Fields() == MobileFields(None, None, None, None, None) && dynamicLink == null
    {
      appName, appScheme, downloadLink, appPackage, fDroidUrl := None, None, None, None, None;
      dynamicLink := null;
    }

    function Fields(): MobileFields
      reads this
    {
      MobileFields(appName, appScheme, downloadLink, appPackage, fDroidUrl)
    }

    /** The iOS fills, in place; the dynamic link itself is not touched here. */
    method FillIosDefaults()
      modifies this
      ensures Fields() == FillIos(old(Fields())) && dynamicLink == old(dynamicLink)
    {
      appName := Fill(appName, APP_NAME);
      appScheme := Fill(appScheme, APP_SCHEME);
      downloadLink := Fill(downloadLink, DOWNLOAD_LINK);
    }

    /** The Android fills, in place. */
    method FillAndroidDefaults()
      modifies this
      ensures Fields() == FillAndroid(old(Fields())) && dynamicLink == old(dynamicLink)
    {
      FillIosDefaults();
      appPackage := Fill(appPackage, APP_PACKAGE);
      fDroidUrl := Fill(fDroidUrl, FDROID_URL);
    }
  }

  /** `IDeeplinkingConfig`: each platform may be absent. */
  class DeeplinkingConfig {
    var desktop: PlatformConfig?
    var ios: MobileConfig?
    var android: MobileConfig?
  }

  /** The objects `_setDeeplinkingDefaults` may write: the present platforms and their dynamic links. */
  function Footprint(dl: DeeplinkingConfig): (r: set<object>)
    reads dl, dl.ios, dl.android
    ensures dl.desktop != null ==> dl.desktop in r
    ensures dl.ios != null ==> dl.ios in r
    ensures dl.android != null ==> dl.android in r
  {
    (if dl.desktop != null then {dl.desktop} else {})
    + (if dl.ios != null then {dl.ios} + (if dl.ios.dynamicLink != null then {dl.ios.dynamicLink} else {}) else {})
    + (if dl.android != null then {dl.android} + (if dl.android.dynamicLink != null then {dl.android.dynamicLink} else {}) else {})
  }

  /**
   * `_setDeeplinkingDefaults`: fills every unset field of the present
   * platform objects and of their dynamic links; an absent platform is
   * filled into a new local object that is dropped, so the configuration
   * still has none. Should the iOS and Android entries be one object,
   * the Android fill absorbs the iOS one, and a dynamic link they share
   * keeps the iOS `ibi`, which is filled first.
   */
  method SetDeeplinkingDefaults(dl: DeeplinkingConfig)
    modifies Footprint(dl)
    ensures dl.desktop != null ==> dl.desktop.appName == Fill(old(dl.desktop.appName), APP_NAME)
    ensures dl.ios != null && dl.ios != dl.android ==> dl.ios.Fields() == FillIos(old(dl.ios.Fields()))
    ensures dl.android != null ==> dl.android.Fields() == FillAndroid(old(dl.android.Fields()))
    ensures dl.ios != null ==> dl.ios.dynamicLink == old(dl.ios.dynamicLink)
    ensures dl.android != null ==> dl.android.dynamicLink == old(dl.android.dynamicLink)
    ensures dl.ios != null && dl.ios.dynamicLink != null ==>
      dl.ios.dynamicLink.Fields() == FillLink(old(dl.ios.dynamicLink.Fields()), Ios)
    ensures dl.android != null && dl.android.dynamicLink != null ==>
      dl.android.dynamicLink.Fields() == FillLink(old(dl.android.dynamicLink.Fields()),
        if dl.ios != null && dl.ios.dynamicLink == dl.android.dynamicLink then Ios else Android)
  {
    var desktop := dl.desktop;
    if desktop == null {
      desktop := new PlatformConfig();
    }
    desktop.appName := Fill(desktop.appName, APP_NAME);

    var ios := dl.ios;
    if ios == null {
      ios := new MobileConfig();
    }
    ios.FillIosDefaults();
    if ios.dynamicLink != null {
      ios.dynamicLink.FillDefaults(Ios);
    }

    var android := dl.android;
    if android == null {
      android := new MobileConfig();
    }
    android.FillAndroidDefaults();
    if android.dynamicLink != null {
      android.dynamicLink.FillDefaults(Android);
    }
    if ios == android {
      AndroidFillAbsorbsIos(old(ios.Fields()));
    }
  }
}

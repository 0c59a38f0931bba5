/** Device detection of client/hooks/use-device-detection.tsx: the mobile /
    tablet / desktop classification from the window size and two user-agent
    tests, the automatic redirect to the mobile interface, the stored
    interface preference and the adaptive container's class list. The two
    regular expressions are taken as their boolean results. */
module DeviceDetection {
  import opened Common

  datatype DeviceType = Mobile | Tablet | Desktop
  datatype Orientation = Portrait | Landscape

  function DeviceTypeName(t: DeviceType): string {
    match t
    case Mobile => "mobile"
    case Tablet => "tablet"
    case Desktop => "desktop"
  }

  function OrientationName(o: Orientation): string {
    match o
    case Portrait => "portrait"
    case Landscape => "landscape"
  }

  datatype DeviceInfo = DeviceInfo(
    isMobile: bool,
    isTablet: bool,
    isDesktop: bool,
    screenWidth: int,
    screenHeight: int,
    userAgent: string,
    deviceType: DeviceType,
    orientation: Orientation)

  /** The breakpoints of the size-based detection. */
  const MobileMaxWidth := 768
  const TabletMaxWidth := 1024

  function OrientationOf(width: int, height: int): (o: Orientation)
    ensures o == Landscape <==> width > height
  {
    if width > height then Landscape else Portrait
  }

  /** `detectDevice`: `mobileUA` is `mobileRegex.test(userAgent)` and
      `tabletUA` is `tabletRegex.test(userAgent)`. A tablet user agent wins
      over a mobile one, a user agent wins over the size, and the size
      decides when neither test matches. */
  function DetectDevice(width: int, height: int, userAgent: string, mobileUA: bool, tabletUA: bool): (info: DeviceInfo)
    ensures !(info.isMobile && info.isTablet)
    ensures info.isDesktop <==> !info.isMobile && !info.isTablet
    ensures (info.deviceType == Mobile <==> info.isMobile)
         && (info.deviceType == Tablet <==> info.isTablet)
         && (info.deviceType == Desktop <==> info.isDesktop)
    ensures info.orientation == Landscape <==> width > height
    ensures tabletUA ==> info.isTablet
    ensures mobileUA && !tabletUA ==> info.isMobile
    ensures !mobileUA && !tabletUA ==> (info.isMobile <==> width <= MobileMaxWidth)
    ensures !mobileUA && !tabletUA ==> (info.isTablet <==> MobileMaxWidth < width <= TabletMaxWidth)
    ensures !mobileUA && !tabletUA ==> (info.isDesktop <==> width > TabletMaxWidth)
    ensures info.screenWidth == width && info.screenHeight == height && info.userAgent == userAgent
  {
    var isMobileSize := width <= MobileMaxWidth;
    var isTabletSize := width > MobileMaxWidth && width <= TabletMaxWidth;
    var isMobileUA := mobileUA && !tabletUA;
    var isTabletUA := tabletUA;
    var isMobile := isMobileUA || (isMobileSize && !isTabletUA);
    var isTablet := isTabletUA || (isTabletSize && !isMobileUA);
    var isDesktop := !isMobile && !isTablet;
    var deviceType := if isMobile then Mobile else if isTablet then Tablet else Desktop;
    DeviceInfo(isMobile, isTablet, isDesktop, width, height, userAgent, deviceType, OrientationOf(width, height))
  }

  /** The state of `useDeviceDetection`. */
  class DeviceDetector {
    var deviceInfo: DeviceInfo
    var shouldAutoRedirect: bool

    /** The initial state, before the first detection: a desktop. */
    constructor (width: int, height: int, userAgent: string)
      ensures deviceInfo == DeviceInfo(false, false, true, width, height, userAgent, Desktop, OrientationOf(width, height))
      ensures shouldAutoRedirect
    {
      deviceInfo := DeviceInfo(false, false, true, width, height, userAgent, Desktop, OrientationOf(width, height));
      shouldAutoRedirect := true;
    }

    /** One detection, at mount, on resize or after an orientation change. */
    method Detect(width: int, height: int, userAgent: string, mobileUA: bool, tabletUA: bool)
      modifies this
      ensures deviceInfo == DetectDevice(width, height, userAgent, mobileUA, tabletUA)
      ensures shouldAutoRedirect == old(shouldAutoRedirect)
    {
      deviceInfo := DetectDevice(width, height, userAgent, mobileUA, tabletUA);
    }

    method SetShouldAutoRedirect(value: bool)
      modifies this
      ensures shouldAutoRedirect == value && deviceInfo == old(deviceInfo)
    {
      shouldAutoRedirect := value;
    }
  }

  datatype Redirect = Stay | RedirectAfter(delayMs: nat, target: string)

  const PreferenceKey := "interface-preference"

  /** The page the redirect effect never leaves, or a stored desktop
      preference. */
  predicate RedirectBlocked(pathname: string, preference: Option<string>)
    ensures pathname == "/mobile" || pathname == "/admin" ==> RedirectBlocked(pathname, preference)
    ensures preference == Some("desktop") ==> RedirectBlocked(pathname, preference)
    ensures RedirectBlocked(pathname, preference) && pathname != "/mobile" && pathname != "/admin" ==> preference == Some("desktop")
  {
    pathname == "/mobile" || pathname == "/admin" || preference == Some("desktop")
  }

  /** The effect of `useAutoMobileRedirect`: a mobile device is sent to
      /mobile after 500 ms from any page, a tablet after 1000 ms and only
      from the home page, unless the effect is blocked. */
  function RedirectDecision(pathname: string, preference: Option<string>, isMobile: bool, isTablet: bool): (r: Redirect)
    ensures RedirectBlocked(pathname, preference) ==> r == Stay
    ensures r.RedirectAfter? ==> r.target == "/mobile"
    ensures r == RedirectAfter(500, "/mobile") <==> !RedirectBlocked(pathname, preference) && isMobile
    ensures r == RedirectAfter(1000, "/mobile")
        <==> !RedirectBlocked(pathname, preference) && !isMobile && isTablet && pathname == "/"
    ensures r == Stay <==> RedirectBlocked(pathname, preference) || (!isMobile && !(isTablet && pathname == "/"))
  {
    if pathname == "/mobile" then Stay
    else if pathname == "/admin" then Stay
    else if preference == Some("desktop") then Stay
    else if isMobile then RedirectAfter(500, "/mobile")
    else if isTablet && pathname == "/" then RedirectAfter(1000, "/mobile")
    else Stay
  }

  /** Over a detected device: a desktop is never redirected, and a tablet
      user agent never takes the 500 ms path. */
  lemma DetectedRedirect(pathname: string, preference: Option<string>, width: int, height: int, userAgent: string, mobileUA: bool, tabletUA: bool)
    ensures var info := DetectDevice(width, height, userAgent, mobileUA, tabletUA);
      info.isDesktop ==> RedirectDecision(pathname, preference, info.isMobile, info.isTablet) == Stay
    ensures var info := DetectDevice(width, height, userAgent, mobileUA, tabletUA);
      tabletUA ==> RedirectDecision(pathname, preference, info.isMobile, info.isTablet) != RedirectAfter(500, "/mobile")
    ensures var info := DetectDevice(width, height, userAgent, mobileUA, tabletUA);
      tabletUA && !RedirectBlocked(pathname, preference) ==>
        (RedirectDecision(pathname, preference, info.isMobile, info.isTablet) == Stay <==> pathname != "/")
  {
  }

  /** The preference handlers of `useAutoMobileRedirect`, over the storage
      and the current path. */
  class InterfacePreference {
    var storage: map<string, string>
    var pathname: string

    constructor (storage: map<string, string>, pathname: string)
      ensures this.storage == storage && this.pathname == pathname
    {
      this.storage := storage;
      this.pathname := pathname;
    }

    function Preference(): (p: Option<string>)
      reads this
      ensures p.Some? <==> PreferenceKey in storage
      ensures p.Some? ==> p.value == storage[PreferenceKey]
    {
      if PreferenceKey in storage then Some(storage[PreferenceKey]) else None
    }

    /** `forceDesktopMode`. */
    method ForceDesktopMode()
      modifies this
      ensures storage == old(storage)[PreferenceKey := "desktop"]
      ensures pathname == "/dashboard"
      ensures Preference() == Some("desktop")
    {
      storage := storage[PreferenceKey := "desktop"];
      pathname := "/dashboard";
    }

    /** `forceMobileMode`. */
    method ForceMobileMode()
      modifies this
      ensures storage == old(storage)[PreferenceKey := "mobile"]
      ensures pathname == "/mobile"
      ensures Preference() == Some("mobile")
    {
      storage := storage[PreferenceKey := "mobile"];
      pathname := "/mobile";
    }

    /** `clearPreference`: the key goes, the page stays. */
    method ClearPreference()
      modifies this
      ensures storage == old(storage) - {PreferenceKey}
      ensures pathname == old(pathname)
      ensures Preference() == None
    {
      storage := storage - {PreferenceKey};
    }
  }

  /** After either forced mode the redirect effect does nothing, whatever
      the device: the desktop choice is stored, the mobile one lands on
      /mobile. */
  method ForcedModesStay(pref: InterfacePreference, desktop: bool, isMobile: bool, isTablet: bool)
    modifies pref
    ensures RedirectDecision(pref.pathname, pref.Preference(), isMobile, isTablet) == Stay
  {
    if desktop {
      pref.ForceDesktopMode();
    } else {
      pref.ForceMobileMode();
    }
  }

  /** After the preference is cleared, a phone on the home page is sent to
      /mobile again. */
  method ClearedPreferenceRedirects(pref: InterfacePreference)
    requires pref.pathname == "/"
    modifies pref
    ensures RedirectDecision(pref.pathname, pref.Preference(), true, false) == RedirectAfter(500, "/mobile")
  {
    pref.ClearPreference();
  }

  /** The class list of `DeviceAdaptiveContainer` before the empty entries
      are dropped. */
  function CandidateClasses(deviceType: DeviceType, orientation: Orientation, screenWidth: int): seq<string> {
    [
      "device-adaptive-container",
      "device-" + DeviceTypeName(deviceType),
      "orientation-" + OrientationName(orientation),
      if screenWidth <= 480 then "screen-xs" else "",
      if screenWidth <= 768 then "screen-sm" else "",
      if screenWidth <= 1024 then "screen-md" else "",
      if screenWidth <= 1280 then "screen-lg" else "screen-xl"
    ]
  }

  /** `.filter(Boolean)` on strings. */
  predicate NonEmpty(c: string) {
    c != ""
  }

  /** The three classes every container has. */
  function FixedClasses(deviceType: DeviceType, orientation: Orientation): seq<string> {
    ["device-adaptive-container", "device-" + DeviceTypeName(deviceType), "orientation-" + OrientationName(orientation)]
  }

  lemma FixedClassesNonEmpty(deviceType: DeviceType, orientation: Orientation)
    ensures |FixedClasses(deviceType, orientation)| == 3
    ensures forall c :: c in FixedClasses(deviceType, orientation) ==> |c| > 0 && (c[0] == 'd' || c[0] == 'o')
  {
    var fixed := FixedClasses(deviceType, orientation);
    assert fixed[1][0] == 'd' && fixed[2][0] == 'o';
  }

  /** The size classes a width earns, narrowest first. */
  function SizeClasses(screenWidth: int): seq<string> {
    (if screenWidth <= 480 then ["screen-xs"] else [])
    + (if screenWidth <= 768 then ["screen-sm"] else [])
    + (if screenWidth <= 1024 then ["screen-md"] else [])
    + [if screenWidth <= 1280 then "screen-lg" else "screen-xl"]
  }

  /** The classes of the container: the three fixed classes, then the size
      classes of the width. */
  function ContainerClasses(deviceType: DeviceType, orientation: Orientation, screenWidth: int): (r: seq<string>)
    ensures r == FixedClasses(deviceType, orientation) + SizeClasses(screenWidth)
    ensures forall i :: 0 <= i < |r| ==> r[i] != ""
  {
    FilterCandidates(deviceType, orientation, screenWidth);
    SizeClassMembership(screenWidth);
    FixedClassesNonEmpty(deviceType, orientation);
    Filter(CandidateClasses(deviceType, orientation, screenWidth), NonEmpty)
  }

  lemma FilterCandidates(deviceType: DeviceType, orientation: Orientation, screenWidth: int)
    ensures Filter(CandidateClasses(deviceType, orientation, screenWidth), NonEmpty)
         == FixedClasses(deviceType, orientation) + SizeClasses(screenWidth)
  {
    var fixed := FixedClasses(deviceType, orientation);
    var tail := [if screenWidth <= 480 then "screen-xs" else "", if screenWidth <= 768 then "screen-sm" else "",
                 if screenWidth <= 1024 then "screen-md" else "", if screenWidth <= 1280 then "screen-lg" else "screen-xl"];
    assert CandidateClasses(deviceType, orientation, screenWidth) == fixed + tail;
    FixedClassesNonEmpty(deviceType, orientation);
    assert forall i :: 0 <= i < 3 ==> NonEmpty(fixed[i]) by {
      assert fixed[0] in fixed && fixed[1] in fixed && fixed[2] in fixed;
    }
    FilterPrefix(fixed, 3, NonEmpty);
    assert fixed[..3] == fixed;
    FilterAppend(fixed, tail, NonEmpty);
    TailFilter(tail, screenWidth);
  }

  lemma TailFilter(tail: seq<string>, screenWidth: int)
    requires tail == [if screenWidth <= 480 then "screen-xs" else "", if screenWidth <= 768 then "screen-sm" else "",
                      if screenWidth <= 1024 then "screen-md" else "", if screenWidth <= 1280 then "screen-lg" else "screen-xl"]
    ensures Filter(tail, NonEmpty) == SizeClasses(screenWidth)
  {
    assert tail == [tail[0]] + [tail[1]] + [tail[2]] + [tail[3]];
    FilterAppend([tail[0]] + [tail[1]] + [tail[2]], [tail[3]], NonEmpty);
    FilterAppend([tail[0]] + [tail[1]], [tail[2]], NonEmpty);
    FilterAppend([tail[0]], [tail[1]], NonEmpty);
    FilterSingle(tail[0], NonEmpty);
    FilterSingle(tail[1], NonEmpty);
    FilterSingle(tail[2], NonEmpty);
    FilterSingle(tail[3], NonEmpty);
  }

  lemma FilterSingle<T>(x: T, p: T -> bool)
    ensures Filter([x], p) == if p(x) then [x] else []
  {
    assert [x][..0] == [];
  }

  lemma {:induction false} FilterPrefix<T>(s: seq<T>, n: nat, p: T -> bool)
    requires n <= |s|
    requires forall i :: 0 <= i < n ==> p(s[i])
    ensures Filter(s[..n], p) == s[..n]
  {
    if n > 0 {
      var t := s[..n];
      FilterPrefix(s, n - 1, p);
      assert t[..|t| - 1] == s[..n - 1];
      assert t[|t| - 1] == s[n - 1] && p(s[n - 1]);
      assert Filter(t, p) == Filter(s[..n - 1], p) + [s[n - 1]];
      assert s[..n - 1] + [s[n - 1]] == t;
    }
  }

  lemma {:induction false} FilterAppend<T>(a: seq<T>, b: seq<T>, p: T -> bool)
    ensures Filter(a + b, p) == Filter(a, p) + Filter(b, p)
  {
    if b == [] {
      assert a + b == a;
      assert Filter(b, p) == [];
    } else {
      var init, x := b[..|b| - 1], b[|b| - 1];
      var tail := if p(x) then [x] else [];
      FilterAppend(a, init, p);
      assert (a + b)[..|a + b| - 1] == a + init;
      assert (a + b)[|a + b| - 1] == x;
      assert Filter(b, p) == Filter(init, p) + tail;
      assert Filter(a + b, p) == Filter(a + init, p) + tail;
      assert Filter(a, p) + Filter(init, p) + tail == Filter(a, p) + (Filter(init, p) + tail);
    }
  }

  /** The size classes are nested, exactly one of the two widest is
      present, and each one is present exactly when the width reaches its
      breakpoint. */
  lemma ScreenClassesNested(deviceType: DeviceType, orientation: Orientation, screenWidth: int)
    ensures "screen-xs" in ContainerClasses(deviceType, orientation, screenWidth) <==> screenWidth <= 480
    ensures "screen-sm" in ContainerClasses(deviceType, orientation, screenWidth) <==> screenWidth <= 768
    ensures "screen-md" in ContainerClasses(deviceType, orientation, screenWidth) <==> screenWidth <= 1024
    ensures "screen-lg" in ContainerClasses(deviceType, orientation, screenWidth) <==> screenWidth <= 1280
    ensures "screen-lg" in ContainerClasses(deviceType, orientation, screenWidth)
        <==> "screen-xl" !in ContainerClasses(deviceType, orientation, screenWidth)
  {
    SizeClassMembership(screenWidth);
    OnlySizeClassesStartWithS("screen-xs", deviceType, orientation, screenWidth);
    OnlySizeClassesStartWithS("screen-sm", deviceType, orientation, screenWidth);
    OnlySizeClassesStartWithS("screen-md", deviceType, orientation, screenWidth);
    OnlySizeClassesStartWithS("screen-lg", deviceType, orientation, screenWidth);
    OnlySizeClassesStartWithS("screen-xl", deviceType, orientation, screenWidth);
  }

  lemma OnlySizeClassesStartWithS(c: string, deviceType: DeviceType, orientation: Orientation, screenWidth: int)
    requires |c| > 0 && c[0] == 's'
    ensures c in ContainerClasses(deviceType, orientation, screenWidth) <==> c in SizeClasses(screenWidth)
  {
    FixedClassesNonEmpty(deviceType, orientation);
    assert c !in FixedClasses(deviceType, orientation);
  }

  lemma SizeClassMembership(screenWidth: int)
    ensures "screen-xs" in SizeClasses(screenWidth) <==> screenWidth <= 480
    ensures "screen-sm" in SizeClasses(screenWidth) <==> screenWidth <= 768
    ensures "screen-md" in SizeClasses(screenWidth) <==> screenWidth <= 1024
    ensures "screen-lg" in SizeClasses(screenWidth) <==> screenWidth <= 1280
    ensures "screen-xl" in SizeClasses(screenWidth) <==> screenWidth > 1280
    ensures forall c :: c in SizeClasses(screenWidth) ==> |c| > 0 && c[0] == 's'
  {
    var s := SizeClasses(screenWidth);
    if screenWidth <= 480 {
      assert s == ["screen-xs", "screen-sm", "screen-md", "screen-lg"];
    } else if screenWidth <= 768 {
      assert s == ["screen-sm", "screen-md", "screen-lg"];
    } else if screenWidth <= 1024 {
      assert s == ["screen-md", "screen-lg"];
    } else if screenWidth <= 1280 {
      assert s == ["screen-lg"];
    } else {
      assert s == ["screen-xl"];
    }
  }
}

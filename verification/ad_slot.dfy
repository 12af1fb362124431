/**
 * The per-view state machine of PrebidView: the banner and interstitial
 * units the view holds, its layout, and whether its method channel still has
 * a handler. The Prebid and Google Mobile Ads objects are opaque records that
 * keep only the arguments the plugin gives them; demand fetching, ad loading
 * and presentation happen inside those SDKs and are not modelled.
 */
module AdSlot {
  import opened Wrappers
  import opened Payload
  import opened Validation

  /** The auto-refresh period as handed to the SDK: iOS passes milliseconds,
      Android passes seconds. */
  datatype RefreshPeriod = Millis(ms: int) | Seconds(secs: int)
  {
    function InMillis(): int
    {
      match this
      case Millis(ms) => ms
      case Seconds(secs) => secs * 1000
    }
  }

  /** The creative API frameworks a banner unit declares support for. */
  datatype SignalApi = Mraid3 | Omid1

  /** A Prebid banner unit: its config ID, size, refresh period, declared
      APIs, and whether its auto-refresh is running (false once stopped). */
  datatype BannerUnit = BannerUnit(
    configId: string,
    width: int,
    height: int,
    refresh: RefreshPeriod,
    apis: seq<SignalApi>,
    refreshRunning: bool)

  /** iOS declares MRAID 3 only; Android declares MRAID 3 and OMID 1. */
  function BannerApis(platform: Platform): seq<SignalApi>
  {
    match platform
    case IOS => [Mraid3]
    case Android => [Mraid3, Omid1]
  }

  /** Interstitial sizing: minimum width and height percentages, or the SDK default. */
  datatype InterstitialSize = MinSize(width: int, height: int) | DefaultSize

  /** A Prebid interstitial unit, with the ad-server unit ID its load will target. */
  datatype InterstitialUnit = InterstitialUnit(configId: string, adUnitId: string, size: InterstitialSize)

  /** An ad-server banner view placed into the layout. */
  datatype AdView = AdView(adUnitId: string, width: int, height: int)

  /** The view's container: hidden or not, and its child views in order. */
  datatype Layout = Layout(hidden: bool, children: seq<AdView>)

  /** The state of one platform view. `released` lists, in order, the banner
      units the view dropped its reference to, as they were when dropped. */
  datatype SlotState = SlotState(
    banner: Option<BannerUnit>,
    interstitial: Option<InterstitialUnit>,
    layout: Option<Layout>,
    handlerRegistered: bool,
    released: seq<BannerUnit>)

  /** What the host can deliver to a view: a channel call, or disposal of the view. */
  datatype Event = Call(call: MethodCall) | Dispose

  datatype StepResult = StepResult(state: SlotState, reply: Reply)

  /** The method names the view handles, matched exactly. */
  const KnownMethods: set<string> := {"setParams", "pauseAuction", "resumeAuction", "destroyAuction"}

  /** A freshly constructed view: handler registered, empty visible layout, no units. */
  const Fresh := SlotState(None, None, Some(Layout(false, [])), true, [])

  /** The iOS handler force-casts the `setParams` arguments to a map; a call
      that would crash there is outside the model. */
  predicate Deliverable(platform: Platform, call: MethodCall)
  {
    platform == IOS && call.name == "setParams" ==> call.arguments.Dict?
  }

  /** The banner unit `createBanner` builds. */
  function NewBanner(platform: Platform, configId: string, width: int, height: int, refreshInterval: int): (u: BannerUnit)
    ensures u.configId == configId && u.width == width && u.height == height
    ensures u.refresh.InMillis() == refreshInterval * 1000
    ensures u.refreshRunning
    ensures u.refresh.Millis? <==> platform == IOS
    ensures Mraid3 in u.apis && (Omid1 in u.apis <==> platform == Android)
  {
    var period := match platform
      case IOS => Millis(refreshInterval * 1000)
      case Android => Seconds(refreshInterval);
    BannerUnit(configId, width, height, period, BannerApis(platform), true)
  }

  /** The interstitial unit `createInterstitial` builds: sized exactly when
      both dimensions are non-zero. */
  function NewInterstitial(adUnitId: string, configId: string, width: int, height: int): (u: InterstitialUnit)
    ensures u.configId == configId && u.adUnitId == adUnitId
    ensures u.size.MinSize? <==> width != 0 && height != 0
    ensures u.size.MinSize? ==> u.size == MinSize(width, height)
  {
    if width != 0 && height != 0 then InterstitialUnit(configId, adUnitId, MinSize(width, height))
    else InterstitialUnit(configId, adUnitId, DefaultSize)
  }

  /** The banner units `s` references or has dropped. */
  function AllBanners(s: SlotState): seq<BannerUnit>
  {
    s.released + (if s.banner.Some? then [s.banner.value] else [])
  }

  /** Replace the banner unit (the previous one is dropped as it is, refresh
      still running) and add the ad-server view to the layout. */
  function CreateBanner(platform: Platform, s: SlotState, adUnitId: string, configId: string,
                        width: int, height: int, refreshInterval: int): (r: SlotState)
    ensures r.banner == Some(NewBanner(platform, configId, width, height, refreshInterval))
    ensures r.released == AllBanners(s)
    ensures r.interstitial == s.interstitial && r.handlerRegistered == s.handlerRegistered
    ensures r.layout.Some? <==> s.layout.Some?
    ensures r.layout.Some? ==>
              r.layout.value.hidden == s.layout.value.hidden
              && r.layout.value.children == s.layout.value.children + [AdView(adUnitId, width, height)]
  {
    s.(banner := Some(NewBanner(platform, configId, width, height, refreshInterval)),
       released := AllBanners(s),
       layout := match s.layout
         case None => None
         case Some(l) => Some(l.(children := l.children + [AdView(adUnitId, width, height)])))
  }

  /** Replace the interstitial unit and hide the layout; the banner unit is not touched. */
  function CreateInterstitial(s: SlotState, adUnitId: string, configId: string, width: int, height: int): (r: SlotState)
    ensures r.interstitial == Some(NewInterstitial(adUnitId, configId, width, height))
    ensures r.banner == s.banner && r.released == s.released && r.handlerRegistered == s.handlerRegistered
    ensures r.layout.Some? <==> s.layout.Some?
    ensures r.layout.Some? ==> r.layout.value.hidden && r.layout.value.children == s.layout.value.children
  {
    s.(interstitial := Some(NewInterstitial(adUnitId, configId, width, height)),
       layout := match s.layout
         case None => None
         case Some(l) => Some(l.(hidden := true)))
  }

  /** Android's `bannerLayout?.removeAllViews()`. */
  function ClearChildren(s: SlotState): (r: SlotState)
    ensures r.layout.Some? <==> s.layout.Some?
    ensures r.layout.Some? ==> r.layout.value == Layout(s.layout.value.hidden, [])
    ensures r.(layout := s.layout) == s
  {
    match s.layout
    case None => s
    case Some(l) => s.(layout := Some(l.(children := [])))
  }

  /** `settingParameters`: read, validate, then create a unit. Android first
      empties the layout, whether or not the payload then validates. */
  function SetParams(platform: Platform, s: SlotState, args: Arguments): (r: SlotState)
    requires platform == IOS ==> args.Dict?
    ensures r.layout.Some? <==> s.layout.Some?
    ensures Route(platform, ReadParams(args)).Failure? ==>
              r == (if platform == Android then ClearChildren(s) else s)
    ensures IsValid(ReadParams(args)) && SelectsBanner(platform, ReadParams(args).adType) ==>
              var p := ReadParams(args);
              && r.banner == Some(NewBanner(platform, p.configId, p.width, p.height, p.refreshInterval))
              && r.interstitial == s.interstitial
              && r.released == AllBanners(s)
              && (r.layout.Some? ==> r.layout.value.hidden == s.layout.value.hidden)
    ensures IsValid(ReadParams(args)) && !SelectsBanner(platform, ReadParams(args).adType) ==>
              var p := ReadParams(args);
              && r.interstitial == Some(NewInterstitial(p.adUnitId, p.configId, p.width, p.height))
              && r.banner == s.banner
              && r.released == s.released
              && (r.layout.Some? ==> r.layout.value.hidden)
    ensures var p := ReadParams(args);
            r.layout.Some? ==>
              r.layout.value.children
              == (if platform == Android then [] else s.layout.value.children)
                 + (if IsValid(p) && SelectsBanner(platform, p.adType) then [AdView(p.adUnitId, p.width, p.height)] else [])
    ensures r.handlerRegistered == s.handlerRegistered
  {
    var s1 := if platform == Android then ClearChildren(s) else s;
    match Route(platform, ReadParams(args))
    case Failure(_) => s1
    case Success(BannerRequest(adUnitId, configId, width, height, refreshInterval)) =>
      CreateBanner(platform, s1, adUnitId, configId, width, height, refreshInterval)
    case Success(InterstitialRequest(adUnitId, configId, width, height)) =>
      CreateInterstitial(s1, adUnitId, configId, width, height)
  }

  /** `onPause`: stop the banner's auto-refresh, if there is a banner. */
  function Pause(s: SlotState): (r: SlotState)
    ensures s.banner.None? ==> r == s
    ensures s.banner.Some? ==> r.banner == Some(s.banner.value.(refreshRunning := false))
    ensures r.(banner := s.banner) == s
  {
    match s.banner
    case None => s
    case Some(u) => s.(banner := Some(u.(refreshRunning := false)))
  }

  /** `onResume`: restart the banner's auto-refresh, if there is a banner. */
  function Resume(s: SlotState): (r: SlotState)
    ensures s.banner.None? ==> r == s
    ensures s.banner.Some? ==> r.banner == Some(s.banner.value.(refreshRunning := true))
    ensures r.(banner := s.banner) == s
  {
    match s.banner
    case None => s
    case Some(u) => s.(banner := Some(u.(refreshRunning := true)))
  }

  /** `onDestroy`: stop the banner's auto-refresh and drop the unit. */
  function Destroy(s: SlotState): (r: SlotState)
    ensures r.banner.None?
    ensures s.banner.None? ==> r == s
    ensures s.banner.Some? ==> r.released == s.released + [s.banner.value.(refreshRunning := false)]
    ensures r.(banner := s.banner, released := s.released) == s
  {
    match s.banner
    case None => s
    case Some(u) => s.(banner := None, released := s.released + [u.(refreshRunning := false)])
  }

  /** `dispose`: drop the layout, unregister the handler, then destroy. */
  function DisposeView(s: SlotState): (r: SlotState)
    ensures r.layout.None? && !r.handlerRegistered && r.banner.None?
    ensures r.interstitial == s.interstitial
    ensures r == Destroy(s).(layout := None, handlerRegistered := false)
  {
    Destroy(s.(layout := None, handlerRegistered := false))
  }

  /** `onMethodCall`: exact-name dispatch to one handler; any other name, or
      a call on a view whose handler is gone, is answered not-implemented and
      changes nothing. */
  function HandleCall(platform: Platform, s: SlotState, call: MethodCall): (r: StepResult)
    requires Deliverable(platform, call)
    ensures !s.handlerRegistered || call.name !in KnownMethods <==> r.reply == NotImplemented
    ensures r.reply == NotImplemented ==> r.state == s
  {
    if !s.handlerRegistered then StepResult(s, NotImplemented)
    else match call.name
      case "setParams" => StepResult(SetParams(platform, s, call.arguments), NoReply)
      case "pauseAuction" => StepResult(Pause(s), NoReply)
      case "resumeAuction" => StepResult(Resume(s), NoReply)
      case "destroyAuction" => StepResult(Destroy(s), NoReply)
      case _ => StepResult(s, NotImplemented)
  }

  predicate EventDeliverable(platform: Platform, e: Event)
  {
    e.Call? ==> Deliverable(platform, e.call)
  }

  function Step(platform: Platform, s: SlotState, e: Event): SlotState
    requires EventDeliverable(platform, e)
  {
    match e
    case Call(call) => HandleCall(platform, s, call).state
    case Dispose => DisposeView(s)
  }

  /** The state after a sequence of events, applied in order. */
  function Run(platform: Platform, s: SlotState, es: seq<Event>): SlotState
    requires forall i :: 0 <= i < |es| ==> EventDeliverable(platform, es[i])
    decreases |es|
  {
    if es == [] then s else Run(platform, Step(platform, s, es[0]), es[1..])
  }

  // ---------------------------------------------------------------------------
  // Dispatch

  /** Each known name reaches exactly its own handler. */
  lemma DispatchIsExact(platform: Platform, s: SlotState, args: Arguments)
    requires s.handlerRegistered
    requires platform == IOS ==> args.Dict?
    ensures HandleCall(platform, s, MethodCall("setParams", args)).state == SetParams(platform, s, args)
    ensures HandleCall(platform, s, MethodCall("pauseAuction", args)).state == Pause(s)
    ensures HandleCall(platform, s, MethodCall("resumeAuction", args)).state == Resume(s)
    ensures HandleCall(platform, s, MethodCall("destroyAuction", args)).state == Destroy(s)
  {
  }

  /** Names are matched exactly: a differently cased name is not implemented. */
  lemma MethodNamesAreCaseSensitive(platform: Platform, s: SlotState, args: Arguments)
    ensures HandleCall(platform, s, MethodCall("SetParams", args)) == StepResult(s, NotImplemented)
    ensures HandleCall(platform, s, MethodCall("PauseAuction", args)) == StepResult(s, NotImplemented)
  {
  }

  // ---------------------------------------------------------------------------
  // Pause, resume, destroy, dispose

  /** Resuming after pausing a running banner restores the state. */
  lemma ResumeUndoesPause(s: SlotState)
    requires s.banner.Some? && s.banner.value.refreshRunning
    ensures Resume(Pause(s)) == s
  {
  }

  /** Destroy is idempotent, and pause or resume after destroy change nothing. */
  lemma DestroyIdempotent(s: SlotState)
    ensures Destroy(Destroy(s)) == Destroy(s)
    ensures Pause(Destroy(s)) == Destroy(s)
    ensures Resume(Destroy(s)) == Destroy(s)
  {
  }

  /** Once disposed, a view ignores every further event. */
  lemma {:induction false} DisposeIsTerminal(platform: Platform, s: SlotState, es: seq<Event>)
    requires forall i :: 0 <= i < |es| ==> EventDeliverable(platform, es[i])
    ensures Run(platform, DisposeView(s), es) == DisposeView(s)
    decreases |es|
  {
    if es != [] {
      var d := DisposeView(s);
      assert Step(platform, d, es[0]) == d by {
        match es[0]
        case Call(call) =>
        case Dispose =>
          assert Destroy(d) == d;
      }
      DisposeIsTerminal(platform, s, es[1..]);
    }
  }

  // ---------------------------------------------------------------------------
  // Invariants over runs

  /** A banner period in milliseconds within the accepted refresh bounds. */
  predicate PeriodInRange(u: BannerUnit)
  {
    MinRefreshInterval * 1000 <= u.refresh.InMillis() <= MaxRefreshInterval * 1000
  }

  /** The units each platform builds carry the period in its own unit. */
  predicate PeriodUnitOf(platform: Platform, u: BannerUnit)
  {
    u.refresh.Millis? <==> platform == IOS
  }

  /** What every reachable state satisfies. */
  predicate Inv(platform: Platform, s: SlotState)
  {
    && (forall u :: u in AllBanners(s) ==> PeriodInRange(u) && PeriodUnitOf(platform, u))
    && (s.layout.None? <==> !s.handlerRegistered)
    && (platform == Android && s.layout.Some? ==> |s.layout.value.children| <= 1)
  }

  lemma FreshSatisfiesInv(platform: Platform)
    ensures Inv(platform, Fresh)
  {
  }

  lemma SetParamsPreservesInv(platform: Platform, s: SlotState, args: Arguments)
    requires platform == IOS ==> args.Dict?
    requires Inv(platform, s)
    ensures Inv(platform, SetParams(platform, s, args))
  {
  }

  lemma StepPreservesInv(platform: Platform, s: SlotState, e: Event)
    requires EventDeliverable(platform, e)
    requires Inv(platform, s)
    ensures Inv(platform, Step(platform, s, e))
  {
    match e
    case Dispose =>
      if s.banner.Some? {
        var u := s.banner.value;
        assert u in AllBanners(s);
        assert AllBanners(DisposeView(s)) == s.released + [u.(refreshRunning := false)];
      }
    case Call(call) =>
      if s.handlerRegistered && call.name == "setParams" {
        SetParamsPreservesInv(platform, s, call.arguments);
      } else if s.handlerRegistered && call.name == "destroyAuction" && s.banner.Some? {
        assert s.banner.value in AllBanners(s);
        assert AllBanners(Destroy(s)) == s.released + [s.banner.value.(refreshRunning := false)];
      } else if s.handlerRegistered && (call.name == "pauseAuction" || call.name == "resumeAuction") && s.banner.Some? {
        var r := HandleCall(platform, s, call).state;
        assert s.banner.value in AllBanners(s);
        assert r.banner.value.refresh == s.banner.value.refresh;
        assert AllBanners(r) == s.released + [r.banner.value];
      }
  }

  /** Every banner unit a view ever holds or drops has a period within
      [30000, 120000] ms; the layout is gone exactly when the handler is; and
      an Android layout never holds more than one ad view. */
  lemma {:induction false} RunPreservesInv(platform: Platform, s: SlotState, es: seq<Event>)
    requires forall i :: 0 <= i < |es| ==> EventDeliverable(platform, es[i])
    requires Inv(platform, s)
    ensures Inv(platform, Run(platform, s, es))
    decreases |es|
  {
    if es != [] {
      StepPreservesInv(platform, s, es[0]);
      RunPreservesInv(platform, Step(platform, s, es[0]), es[1..]);
    }
  }

  /** Once hidden, a layout stays hidden for as long as it exists: nothing
      in either platform makes it visible again. */
  lemma {:induction false} HiddenIsSticky(platform: Platform, s: SlotState, es: seq<Event>)
    requires forall i :: 0 <= i < |es| ==> EventDeliverable(platform, es[i])
    requires s.layout.Some? && s.layout.value.hidden
    ensures var r := Run(platform, s, es); r.layout.Some? ==> r.layout.value.hidden
    decreases |es|
  {
    if es != [] {
      var s' := Step(platform, s, es[0]);
      if s'.layout.Some? {
        HiddenIsSticky(platform, s', es[1..]);
      } else {
        assert s' == DisposeView(s) by {
          match es[0]
          case Dispose =>
          case Call(call) =>
        }
        DisposeIsTerminal(platform, s, es[1..]);
      }
    }
  }

  /** The released log only grows: a run appends to it and never rewrites it. */
  lemma {:induction false} ReleasedOnlyGrows(platform: Platform, s: SlotState, es: seq<Event>)
    requires forall i :: 0 <= i < |es| ==> EventDeliverable(platform, es[i])
    ensures s.released <= Run(platform, s, es).released
    decreases |es|
  {
    if es != [] {
      var s' := Step(platform, s, es[0]);
      assert s.released <= s'.released;
      ReleasedOnlyGrows(platform, s', es[1..]);
    }
  }
}

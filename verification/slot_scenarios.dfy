/**
 * Worked runs of the ad-slot state machine, including behaviours of the
 * code that are easy to miss.
 */
module SlotScenarios {
  import opened Wrappers
  import opened Payload
  import opened Validation
  import opened AdSlot

  /** A `setParams` payload carrying all six fields with their expected types. */
  function FullArgs(adType: string, adUnitId: string, configId: string,
                    width: int, height: int, refreshInterval: int): Arguments
  {
    Dict(map[
      "adType" := Str(adType), "adUnitId" := Str(adUnitId), "configId" := Str(configId),
      "width" := Int(width), "height" := Int(height), "refreshInterval" := Int(refreshInterval)])
  }

  function BannerCall(): MethodCall
  {
    MethodCall("setParams", FullArgs("banner", "a1", "c1", 320, 50, 30))
  }

  function InterstitialCall(): MethodCall
  {
    MethodCall("setParams", FullArgs("interstitial", "a1", "c1", 0, 0, 0))
  }

  /** A rejected payload creates no unit on either platform; on iOS it changes
      nothing at all, on Android it only empties the layout. */
  lemma RejectedSetParamsCreatesNothing(platform: Platform, s: SlotState, args: Arguments)
    requires platform == IOS ==> args.Dict?
    requires !IsValid(ReadParams(args))
    ensures var r := SetParams(platform, s, args);
      && r.banner == s.banner && r.interstitial == s.interstitial && r.released == s.released
      && (r.layout.Some? ==> r.layout.value.hidden == s.layout.value.hidden)
      && (platform == IOS ==> r == s)
      && (platform == Android && r.layout.Some? ==> r.layout.value.children == [])
  {
  }

  /** On Android a payload that is not a map is rejected for its empty ad
      type, after the layout has been emptied. */
  lemma AndroidNonMapPayload(s: SlotState)
    ensures Route(Android, ReadParams(NotADict)) == Failure(EmptyAdType)
    ensures SetParams(Android, s, NotADict) == ClearChildren(s)
  {
  }

  /** A banner call: a 320x50 unit refreshing every 30 seconds, and one ad view. */
  lemma BannerExample(platform: Platform)
    ensures var r := SetParams(platform, Fresh, BannerCall().arguments);
      && r.banner.Some?
      && r.banner.value.configId == "c1" && r.banner.value.width == 320 && r.banner.value.height == 50
      && r.banner.value.refresh.InMillis() == 30000 && r.banner.value.refreshRunning
      && r.interstitial.None?
      && r.layout == Some(Layout(false, [AdView("a1", 320, 50)]))
  {
    FullPayloadReadVerbatim("banner", "a1", "c1", 320, 50, 30);
    RefreshBoundaries(platform);
    assert ClearChildren(Fresh) == Fresh;
    assert Route(platform, ReadParams(BannerCall().arguments)) == Success(BannerRequest("a1", "c1", 320, 50, 30));
    var r := CreateBanner(platform, Fresh, "a1", "c1", 320, 50, 30);
    assert SetParams(platform, Fresh, BannerCall().arguments) == r;
    assert r.layout.value.children == [] + [AdView("a1", 320, 50)] == [AdView("a1", 320, 50)];
    assert r.layout == Some(Layout(false, [AdView("a1", 320, 50)]));
  }

  /** An interstitial call with zero size: default sizing, refresh not checked, layout hidden. */
  lemma InterstitialExample(platform: Platform)
    ensures var r := SetParams(platform, Fresh, InterstitialCall().arguments);
      && r.interstitial == Some(InterstitialUnit("c1", "a1", DefaultSize))
      && r.banner.None?
      && r.layout == Some(Layout(true, []))
  {
    InterstitialRoutes(platform);
    assert ClearChildren(Fresh) == Fresh;
  }

  /** How both platforms route that interstitial payload. */
  lemma InterstitialRoutes(platform: Platform)
    ensures ReadParams(InterstitialCall().arguments) == AdParams("interstitial", "a1", "c1", 0, 0, 0)
    ensures Route(platform, ReadParams(InterstitialCall().arguments)) == Success(InterstitialRequest("a1", "c1", 0, 0))
  {
    FullPayloadReadVerbatim("interstitial", "a1", "c1", 0, 0, 0);
    InterstitialIsLowerCase();
    InterstitialSkipsRefreshCheck(platform, AdParams("interstitial", "a1", "c1", 0, 0, 0));
  }

  lemma InterstitialIsLowerCase()
    ensures Text.Lower("interstitial") == "interstitial"
  {
    assert Text.NoUpper("interstitial");
    Text.LowerFixesExactlyNoUpper("interstitial");
  }


  /** Pause and resume before any `setParams` change nothing. */
  lemma PauseResumeOnFreshView(platform: Platform)
    ensures HandleCall(platform, Fresh, MethodCall("pauseAuction", NotADict)) == StepResult(Fresh, NoReply)
    ensures HandleCall(platform, Fresh, MethodCall("resumeAuction", NotADict)) == StepResult(Fresh, NoReply)
    ensures HandleCall(platform, Fresh, MethodCall("destroyAuction", NotADict)) == StepResult(Fresh, NoReply)
  {
  }

  /** A second banner `setParams` replaces the unit without stopping the old
      one. iOS keeps adding ad views to the layout; Android empties it first. */
  lemma RepeatedBannerSetParams(platform: Platform)
    ensures var s1 := SetParams(platform, Fresh, BannerCall().arguments);
      var s2 := SetParams(platform, s1, BannerCall().arguments);
      && |s2.released| == 1 && s2.released[0] == s1.banner.value && s2.released[0].refreshRunning
      && s2.layout.Some?
      && |s2.layout.value.children| == (if platform == IOS then 2 else 1)
  {
    BannerExample(platform);
    var s1 := SetParams(platform, Fresh, BannerCall().arguments);
    assert Route(platform, ReadParams(BannerCall().arguments)).Success?;
  }

  /** A banner followed by an interstitial leaves the view holding both units,
      the banner still refreshing. On Android the banner's ad view is gone
      from the layout. */
  lemma BannerThenInterstitialKeepsBoth(platform: Platform)
    ensures var s1 := SetParams(platform, Fresh, BannerCall().arguments);
      var s2 := SetParams(platform, s1, InterstitialCall().arguments);
      && s2.banner == s1.banner && s2.banner.Some? && s2.banner.value.refreshRunning
      && s2.interstitial.Some?
      && s2.layout.Some? && s2.layout.value.hidden
      && |s2.layout.value.children| == (if platform == IOS then 1 else 0)
  {
    BannerExample(platform);
    InterstitialRoutes(platform);
  }

  /** On iOS "Banner" passes validation as a banner would, then takes the
      interstitial branch: a sized interstitial, a hidden layout, and the
      banner unit left as it was. Android creates a banner from the same call. */
  lemma CapitalisedBannerOnBothPlatforms(s: SlotState)
    ensures var r := SetParams(IOS, s, FullArgs("Banner", "a1", "c1", 320, 50, 60));
      && r.interstitial == Some(InterstitialUnit("c1", "a1", MinSize(320, 50)))
      && r.banner == s.banner
      && (r.layout.Some? ==> r.layout.value.hidden)
    ensures SetParams(Android, s, FullArgs("Banner", "a1", "c1", 320, 50, 60)).banner
            == Some(NewBanner(Android, "c1", 320, 50, 60))
  {
    FullPayloadReadVerbatim("Banner", "a1", "c1", 320, 50, 60);
    CapitalisedBannerExample();
  }
}

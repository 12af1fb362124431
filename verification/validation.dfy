/**
 * The `setParams` validator and router of PrebidView, on iOS and on Android.
 * Both platforms read the same six fields, run the same first-failure-wins
 * chain of checks, and then pick the banner or the interstitial branch; they
 * differ in how the payload is cast and in how the branch is picked.
 */
module Validation {
  import opened Wrappers
  import opened Payload
  import opened Text

  datatype Platform = IOS | Android

  /** The six `setParams` fields after defaulting. */
  datatype AdParams = AdParams(
    adType: string,
    adUnitId: string,
    configId: string,
    width: int,
    height: int,
    refreshInterval: int)

  /** One value per validation message the source logs. */
  datatype ValidationError =
    | EmptyAdType
    | UnrecognizedAdType
    | EmptyAdUnitId
    | EmptyConfigId
    | EmptyAdUnitAndConfigId
    | RefreshIntervalTooSmall
    | RefreshIntervalTooLarge

  /** The unit creation a successful `setParams` performs, with its arguments. */
  datatype AdAction =
    | BannerRequest(adUnitId: string, configId: string, width: int, height: int, refreshInterval: int)
    | InterstitialRequest(adUnitId: string, configId: string, width: int, height: int)

  /** Banner refresh bounds, in seconds, both inclusive. */
  const MinRefreshInterval := 30
  const MaxRefreshInterval := 120

  const DefaultParams := AdParams("", "", "", 0, 0, 0)

  /** Field extraction: a missing or wrong-typed field reads as "" or 0. On
      Android a payload that is not a map reads as all defaults. */
  function ReadParams(args: Arguments): AdParams
  {
    AdParams(
      StringArg(args, "adType", ""),
      StringArg(args, "adUnitId", ""),
      StringArg(args, "configId", ""),
      IntArg(args, "width", 0),
      IntArg(args, "height", 0),
      IntArg(args, "refreshInterval", 0))
  }

  /** The ad type names one of the two supported formats, in any letter case. */
  predicate Recognised(adType: string)
  {
    Lower(adType) == "banner" || Lower(adType) == "interstitial"
  }

  /** The refresh bounds apply to every accepted type except the interstitial one. */
  predicate RefreshChecked(adType: string)
  {
    Lower(adType) != "interstitial"
  }

  predicate RefreshInRange(refreshInterval: int)
  {
    MinRefreshInterval <= refreshInterval <= MaxRefreshInterval
  }

  /** Reference definition of a valid payload, stated as one conjunction
      rather than as an ordered chain of checks. */
  predicate IsValid(p: AdParams)
  {
    && Recognised(p.adType)
    && p.adUnitId != ""
    && p.configId != ""
    && (RefreshChecked(p.adType) ==> RefreshInRange(p.refreshInterval))
  }

  /** The first failing check, or None when the payload passes them all.
      Each error is characterised by the exact set of payloads that yield it. */
  function Check(p: AdParams): (r: Option<ValidationError>)
    ensures r.None? <==> IsValid(p)
    ensures r == Some(EmptyAdType) <==> p.adType == ""
    ensures r == Some(UnrecognizedAdType) <==> p.adType != "" && !Recognised(p.adType)
    ensures r == Some(EmptyAdUnitId) <==> Recognised(p.adType) && p.adUnitId == "" && p.configId != ""
    ensures r == Some(EmptyConfigId) <==> Recognised(p.adType) && p.adUnitId != "" && p.configId == ""
    ensures r == Some(EmptyAdUnitAndConfigId) <==> Recognised(p.adType) && p.adUnitId == "" && p.configId == ""
    ensures r == Some(RefreshIntervalTooSmall) <==>
              Recognised(p.adType) && p.adUnitId != "" && p.configId != ""
              && RefreshChecked(p.adType) && p.refreshInterval < MinRefreshInterval
    ensures r == Some(RefreshIntervalTooLarge) <==>
              Recognised(p.adType) && p.adUnitId != "" && p.configId != ""
              && RefreshChecked(p.adType) && p.refreshInterval > MaxRefreshInterval
  {
    if p.adType == "" then Some(EmptyAdType)
    else if !Recognised(p.adType) then Some(UnrecognizedAdType)
    else if p.adUnitId == "" && p.configId != "" then Some(EmptyAdUnitId)
    else if p.adUnitId != "" && p.configId == "" then Some(EmptyConfigId)
    else if p.adUnitId == "" && p.configId == "" then Some(EmptyAdUnitAndConfigId)
    else if p.refreshInterval < MinRefreshInterval && RefreshChecked(p.adType) then Some(RefreshIntervalTooSmall)
    else if p.refreshInterval > MaxRefreshInterval && RefreshChecked(p.adType) then Some(RefreshIntervalTooLarge)
    else None
  }

  /** Branch selection after a successful check: iOS compares the ad type with
      "banner" exactly, Android compares its lower-case form. */
  predicate SelectsBanner(platform: Platform, adType: string)
  {
    match platform
    case IOS => adType == "banner"
    case Android => Lower(adType) == "banner"
  }

  /** The whole decision of `settingParameters`: the error it logs, or the
      unit creation it performs. */
  function Route(platform: Platform, p: AdParams): (r: Result<AdAction, ValidationError>)
    ensures r.Success? <==> IsValid(p)
    ensures r.Failure? ==> Check(p) == Some(r.error)
    ensures r.Success? ==> (r.value.BannerRequest? <==> SelectsBanner(platform, p.adType))
    ensures r.Success? && r.value.BannerRequest? ==>
              r.value == BannerRequest(p.adUnitId, p.configId, p.width, p.height, p.refreshInterval)
              && Lower(p.adType) == "banner" && RefreshInRange(p.refreshInterval)
    ensures r.Success? && r.value.InterstitialRequest? ==>
              r.value == InterstitialRequest(p.adUnitId, p.configId, p.width, p.height)
  {
    match Check(p)
    case Some(e) => Failure(e)
    case None =>
      if SelectsBanner(platform, p.adType) then
        Success(BannerRequest(p.adUnitId, p.configId, p.width, p.height, p.refreshInterval))
      else
        Success(InterstitialRequest(p.adUnitId, p.configId, p.width, p.height))
  }

  /** Each field of the expected type is read as it is, whatever the other
      fields hold. Together with WrongTypedFieldsReadAsDefaults this fixes
      every field of ReadParams for every payload. */
  lemma TypedFieldsReadVerbatim(args: Arguments)
    ensures forall t :: Lookup(args, "adType") == Some(Str(t)) ==> ReadParams(args).adType == t
    ensures forall t :: Lookup(args, "adUnitId") == Some(Str(t)) ==> ReadParams(args).adUnitId == t
    ensures forall t :: Lookup(args, "configId") == Some(Str(t)) ==> ReadParams(args).configId == t
    ensures forall n :: Lookup(args, "width") == Some(Int(n)) ==> ReadParams(args).width == n
    ensures forall n :: Lookup(args, "height") == Some(Int(n)) ==> ReadParams(args).height == n
    ensures forall n :: Lookup(args, "refreshInterval") == Some(Int(n)) ==> ReadParams(args).refreshInterval == n
  {
  }

  /** A map holding all six fields with their expected types reads as those values. */
  lemma FullPayloadReadVerbatim(adType: string, adUnitId: string, configId: string,
                                width: int, height: int, refreshInterval: int)
    ensures ReadParams(Dict(map[
              "adType" := Str(adType), "adUnitId" := Str(adUnitId), "configId" := Str(configId),
              "width" := Int(width), "height" := Int(height), "refreshInterval" := Int(refreshInterval)]))
            == AdParams(adType, adUnitId, configId, width, height, refreshInterval)
  {
  }

  /** A string field that is missing or not a string. */
  predicate NotAString(args: Arguments, key: string)
  {
    Lookup(args, key).None? || !Lookup(args, key).value.Str?
  }

  /** An integer field that is missing or not an integer. */
  predicate NotAnInt(args: Arguments, key: string)
  {
    Lookup(args, key).None? || !Lookup(args, key).value.Int?
  }

  /** Each field that is missing or holds a value of another type reads as its
      default, whatever the other fields hold. A defaulted ad type is rejected
      as empty on both platforms; a defaulted refresh interval is too small for
      a banner; a payload that is not a map reads as all defaults. */
  lemma WrongTypedFieldsReadAsDefaults(args: Arguments)
    ensures NotAString(args, "adType") ==> ReadParams(args).adType == ""
    ensures NotAString(args, "adUnitId") ==> ReadParams(args).adUnitId == ""
    ensures NotAString(args, "configId") ==> ReadParams(args).configId == ""
    ensures NotAnInt(args, "width") ==> ReadParams(args).width == 0
    ensures NotAnInt(args, "height") ==> ReadParams(args).height == 0
    ensures NotAnInt(args, "refreshInterval") ==> ReadParams(args).refreshInterval == 0
    ensures NotAString(args, "adType") ==>
              Route(IOS, ReadParams(args)) == Failure(EmptyAdType)
              && Route(Android, ReadParams(args)) == Failure(EmptyAdType)
    ensures NotAnInt(args, "refreshInterval") && Recognised(ReadParams(args).adType)
            && RefreshChecked(ReadParams(args).adType)
            && ReadParams(args).adUnitId != "" && ReadParams(args).configId != "" ==>
              Route(IOS, ReadParams(args)) == Failure(RefreshIntervalTooSmall)
              && Route(Android, ReadParams(args)) == Failure(RefreshIntervalTooSmall)
    ensures args.NotADict? ==> ReadParams(args) == DefaultParams
  {
  }

  /** Both platforms accept and reject exactly the same payloads, with the same error. */
  lemma PlatformsAgreeOnValidation(p: AdParams)
    ensures Route(IOS, p).Failure? <==> Route(Android, p).Failure?
    ensures Route(IOS, p).Failure? ==> Route(IOS, p).error == Route(Android, p).error
  {
  }

  /** When the ad type has no upper-case letters the platforms route alike. */
  lemma PlatformsAgreeOnLowerCaseType(p: AdParams)
    requires NoUpper(p.adType)
    ensures Route(IOS, p) == Route(Android, p)
  {
  }

  /** The one observable difference: a valid ad type that folds to "banner"
      but is not spelt exactly so creates a banner on Android and an
      interstitial on iOS. */
  lemma PlatformsDivergeOnCapitalisedBanner(p: AdParams)
    requires IsValid(p) && Lower(p.adType) == "banner" && p.adType != "banner"
    ensures Route(Android, p).Success? && Route(Android, p).value.BannerRequest?
    ensures Route(IOS, p).Success? && Route(IOS, p).value.InterstitialRequest?
  {
  }

  /** Any other difference is excluded: the routes differ only in that case. */
  lemma PlatformsDifferOnlyOnCapitalisedBanner(p: AdParams)
    requires Route(IOS, p) != Route(Android, p)
    ensures IsValid(p) && Lower(p.adType) == "banner" && p.adType != "banner"
  {
  }

  /** A concrete instance: "Banner" with a 60-second refresh. */
  lemma CapitalisedBannerExample()
    ensures Route(Android, AdParams("Banner", "a1", "c1", 320, 50, 60)) == Success(BannerRequest("a1", "c1", 320, 50, 60))
    ensures Route(IOS, AdParams("Banner", "a1", "c1", 320, 50, 60)) == Success(InterstitialRequest("a1", "c1", 320, 50))
    ensures Route(IOS, AdParams("Banner", "a1", "c1", 320, 50, 0)) == Failure(RefreshIntervalTooSmall)
  {
  }

  /** The refresh bounds are inclusive: 30 and 120 pass, 29 and 121 do not. */
  lemma RefreshBoundaries(platform: Platform)
    ensures Route(platform, AdParams("banner", "a1", "c1", 320, 50, 29)) == Failure(RefreshIntervalTooSmall)
    ensures Route(platform, AdParams("banner", "a1", "c1", 320, 50, 30)) == Success(BannerRequest("a1", "c1", 320, 50, 30))
    ensures Route(platform, AdParams("banner", "a1", "c1", 320, 50, 120)) == Success(BannerRequest("a1", "c1", 320, 50, 120))
    ensures Route(platform, AdParams("banner", "a1", "c1", 320, 50, 121)) == Failure(RefreshIntervalTooLarge)
  {
  }

  /** Interstitials skip the refresh bounds whatever the interval, in any letter case. */
  lemma InterstitialSkipsRefreshCheck(platform: Platform, p: AdParams)
    requires Lower(p.adType) == "interstitial" && p.adUnitId != "" && p.configId != ""
    ensures Route(platform, p) == Success(InterstitialRequest(p.adUnitId, p.configId, p.width, p.height))
  {
  }
}

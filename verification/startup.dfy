/**
 * The global channel of the iOS plugin class: `startPrebid` writes the
 * account, debug, geolocation, server and timeout settings of the shared
 * Prebid configuration; every other method is answered not-implemented.
 */
module Startup {
  import opened Wrappers
  import opened Payload

  /** The Setupad Prebid Server auction endpoint, fixed in the plugin. */
  const PrebidServerUrl := "https://prebid.setupad.io/openrtb2/auction"

  const DefaultTimeoutMillis := 3000

  /** The fields of the shared Prebid configuration the plugin writes.
      `customServerUrl` is None while no custom server has been set. */
  datatype SdkSettings = SdkSettings(
    accountId: string,
    pbsDebug: bool,
    shareGeoLocation: bool,
    customServerUrl: Option<string>,
    timeoutMillis: int)

  /** The `startPrebid` arguments after defaulting. */
  datatype StartArgs = StartArgs(accountId: string, timeoutMillis: int, pbsDebug: bool)

  function ReadStartArgs(args: Arguments): StartArgs
  {
    StartArgs(
      StringArg(args, "accountID", ""),
      IntArg(args, "timeoutMillis", DefaultTimeoutMillis),
      BoolArg(args, "pbsDebug", false))
  }

  /** The settings `startPrebid` leaves behind. An empty account ID leaves
      them untouched; otherwise every written field takes a value that depends
      on the arguments only, never on the previous settings. */
  function StartPrebid(s: SdkSettings, args: Arguments): (r: SdkSettings)
    requires args.Dict?
    ensures ReadStartArgs(args).accountId == "" ==> r == s
    ensures ReadStartArgs(args).accountId != "" ==>
              && r.accountId == ReadStartArgs(args).accountId
              && r.pbsDebug == ReadStartArgs(args).pbsDebug
              && r.timeoutMillis == ReadStartArgs(args).timeoutMillis
              && r.shareGeoLocation
              && r.customServerUrl == Some(PrebidServerUrl)
  {
    var a := ReadStartArgs(args);
    if a.accountId == "" then s
    else s.(accountId := a.accountId,
            pbsDebug := a.pbsDebug,
            shareGeoLocation := true,
            customServerUrl := Some(PrebidServerUrl),
            timeoutMillis := a.timeoutMillis)
  }

  /** The global channel's handler. */
  function HandleGlobalCall(s: SdkSettings, call: MethodCall): (r: (SdkSettings, Reply))
    requires call.name == "startPrebid" ==> call.arguments.Dict?
    ensures call.name != "startPrebid" <==> r.1 == NotImplemented
    ensures call.name != "startPrebid" ==> r.0 == s
    ensures call.name == "startPrebid" ==> r == (StartPrebid(s, call.arguments), NoReply)
  {
    if call.name == "startPrebid" then (StartPrebid(s, call.arguments), NoReply)
    else (s, NotImplemented)
  }

  /** Each argument is read on its own: a value of the expected type is taken
      as it is, and a missing or wrong-typed one reads as "", 3000 or false,
      whatever the other arguments hold. */
  lemma StartArgsDefaults(args: Arguments)
    ensures forall a :: Lookup(args, "accountID") == Some(Str(a)) ==> ReadStartArgs(args).accountId == a
    ensures forall t :: Lookup(args, "timeoutMillis") == Some(Int(t)) ==> ReadStartArgs(args).timeoutMillis == t
    ensures forall b :: Lookup(args, "pbsDebug") == Some(Bool(b)) ==> ReadStartArgs(args).pbsDebug == b
    ensures Lookup(args, "accountID").None? || !Lookup(args, "accountID").value.Str? ==>
              ReadStartArgs(args).accountId == ""
    ensures Lookup(args, "timeoutMillis").None? || !Lookup(args, "timeoutMillis").value.Int? ==>
              ReadStartArgs(args).timeoutMillis == DefaultTimeoutMillis
    ensures Lookup(args, "pbsDebug").None? || !Lookup(args, "pbsDebug").value.Bool? ==>
              !ReadStartArgs(args).pbsDebug
  {
  }

  /** With an account ID set, a missing or wrong-typed timeout writes 3000 ms
      and a missing or wrong-typed debug flag writes false. */
  lemma DefaultsReachSettings(s: SdkSettings, args: Arguments)
    requires args.Dict? && ReadStartArgs(args).accountId != ""
    ensures Lookup(args, "timeoutMillis").None? || !Lookup(args, "timeoutMillis").value.Int? ==>
              StartPrebid(s, args).timeoutMillis == DefaultTimeoutMillis
    ensures Lookup(args, "pbsDebug").None? || !Lookup(args, "pbsDebug").value.Bool? ==>
              !StartPrebid(s, args).pbsDebug
  {
  }

  /** With a non-empty account, the result does not depend on the previous settings. */
  lemma StartPrebidOverwrites(s1: SdkSettings, s2: SdkSettings, args: Arguments)
    requires args.Dict? && ReadStartArgs(args).accountId != ""
    ensures StartPrebid(s1, args) == StartPrebid(s2, args)
  {
  }

  /** Repeating the same `startPrebid` changes nothing more. */
  lemma StartPrebidIdempotent(s: SdkSettings, args: Arguments)
    requires args.Dict?
    ensures StartPrebid(StartPrebid(s, args), args) == StartPrebid(s, args)
  {
  }

  /** A later call with an empty account ID keeps whatever an earlier call set. */
  lemma EmptyAccountKeepsEarlierStart(s: SdkSettings, first: Arguments, second: Arguments)
    requires first.Dict? && second.Dict?
    requires ReadStartArgs(second).accountId == ""
    ensures StartPrebid(StartPrebid(s, first), second) == StartPrebid(s, first)
  {
  }

  /** An account ID without a timeout sets the default 3000 ms; the server URL
      is the fixed endpoint whatever else the payload holds. */
  lemma AccountOnlyExample(s: SdkSettings, account: string)
    requires account != ""
    ensures StartPrebid(s, Dict(map["accountID" := Str(account)]))
            == SdkSettings(account, false, true, Some(PrebidServerUrl), DefaultTimeoutMillis)
  {
  }
}

# Setupad Prebid Flutter plugin: validator and ad-slot state machine

This project models the plugin's own logic, on iOS and on Android. It does not model the
Prebid Mobile and Google Mobile Ads SDKs that the plugin drives. Three pieces are modelled:

- **The `setParams` validator and router** (module `Validation`). It reads six fields from an
  untyped payload, defaulting each to `""` or `0`. It runs a first-failure-wins chain of
  checks, then picks the banner or the interstitial branch. The result is
  `Result<AdAction, ValidationError>`, with a platform parameter.
- **The per-view state machine** (module `AdSlot`). Its state holds:
  - the optional banner and interstitial units, as opaque records of the arguments the plugin passes to the SDK;
  - the layout: hidden or not, plus its ad-view children;
  - whether the view's method handler is registered;
  - a log of the banner units the view dropped.

  Its transitions are `setParams`, `pauseAuction`, `resumeAuction`, `destroyAuction`,
  `dispose` and the not-implemented fallback. `Run` folds a sequence of events over a state.
- **The global `startPrebid` update** (module `Startup`). It applies the argument defaults
  and leaves the SDK settings untouched when the account ID is empty.

Module `Payload` holds the channel values, arguments and replies. `Text` holds case folding.
`SlotScenarios` holds worked runs.

Behaviours of the code that are easy to miss:

- A view can hold a banner unit and an interstitial unit at the same time. Neither
  `createBanner` nor `createInterstitial` clears the other unit
  (`SlotScenarios.BannerThenInterstitialKeepsBoth`).
- The validated ad type is not normalised. iOS picks the banner branch only for the exact
  string `"banner"`. Android compares the lower-cased type
  (`Validation.PlatformsDivergeOnCapitalisedBanner`).
- The plugin never stops a replaced unit's auto-refresh; pause and destroy reach only the current
  unit. What the SDK does with an unreferenced unit is not modelled.
- Android empties the layout on every `setParams`, including rejected ones. iOS never removes
  ad views, so repeated banner calls pile them up (`SlotScenarios.RepeatedBannerSetParams`).
- Nothing makes a hidden layout visible again (`AdSlot.HiddenIsSticky`).

## Model

| member | source | states |
|---|---|---|
| Validation.TypedFieldsReadVerbatim | ios/Classes/PrebidView.swift:80-85 | for every payload and each field separately, a string field holding a string and an integer field holding an integer are read unchanged, whatever the other fields hold |
| Validation.WrongTypedFieldsReadAsDefaults | android/src/main/kotlin/setupad/plugin/setupad_prebid_flutter/PrebidView.kt:100-106 | for every payload and each field separately, a string field that is missing or not a string reads as "" and an integer field that is missing or not an integer reads as 0, whatever the other fields hold; a defaulted ad type is rejected with EmptyAdType on both platforms; a defaulted refresh interval on an otherwise valid banner is rejected as too small; a non-map payload (Android) reads as all defaults |
| Validation.Check | ios/Classes/PrebidView.swift:88-112 | the first failing check, with each error tied to exactly the payloads that produce it: empty type, then an unrecognised type (case-insensitive), then the ID pair, then refresh < 30 or > 120 unless the type folds to "interstitial"; no error iff the payload meets the one-conjunction validity definition |
| Validation.Route | android/src/main/kotlin/setupad/plugin/setupad_prebid_flutter/PrebidView.kt:110-151 | success iff the payload is valid; a failure carries the first failing check's error; the banner branch is taken iff the type is exactly "banner" (iOS) or folds to "banner" (Android); a banner request always has a refresh interval in [30, 120]; fields pass through unchanged |
| Validation.PlatformsAgreeOnValidation | android/src/main/kotlin/setupad/plugin/setupad_prebid_flutter/PrebidView.kt:110-140 | the two platforms accept the same payloads and reject the others with the same error |
| Validation.PlatformsAgreeOnLowerCaseType | ios/Classes/PrebidView.swift:115 | when the ad type has no upper-case letters, both platforms route alike |
| Validation.PlatformsDivergeOnCapitalisedBanner | ios/Classes/PrebidView.swift:113-124 | a valid type that folds to "banner" but is not exactly "banner" creates a banner on Android and an interstitial on iOS |
| Validation.PlatformsDifferOnlyOnCapitalisedBanner | android/src/main/kotlin/setupad/plugin/setupad_prebid_flutter/PrebidView.kt:141-150 | that is the only case in which the platforms route differently |
| Validation.CapitalisedBannerExample | ios/Classes/PrebidView.swift:107-124 | on iOS, "Banner" is still refresh-checked (refresh 0 is rejected) but at refresh 60 it becomes an interstitial |
| Validation.RefreshBoundaries | ios/Classes/PrebidView.swift:107-111 | 29 is too small, 121 too large, and 30 and 120 are accepted |
| Validation.InterstitialSkipsRefreshCheck | android/src/main/kotlin/setupad/plugin/setupad_prebid_flutter/PrebidView.kt:133-139 | a type that folds to "interstitial", with both IDs present, is accepted whatever the refresh interval |
| Text.Lower | ios/Classes/PrebidView.swift:91 | folding keeps the length and lower-cases each character; the result has no upper-case letters |
| Text.LowerFixesExactlyNoUpper | android/src/main/kotlin/setupad/plugin/setupad_prebid_flutter/PrebidView.kt:115 | folding leaves exactly the strings with no upper-case letters unchanged |
| AdSlot.NewBanner | ios/Classes/PrebidView.swift:130-136 | the banner unit takes the config ID and size; its refresh period is refreshInterval × 1000 ms (iOS passes milliseconds, Android seconds); it declares MRAID 3, and also OMID 1 on Android only |
| AdSlot.NewInterstitial | android/src/main/kotlin/setupad/plugin/setupad_prebid_flutter/PrebidView.kt:191-201 | the interstitial unit is sized iff width ≠ 0 and height ≠ 0, and uses the default size otherwise |
| AdSlot.CreateBanner | android/src/main/kotlin/setupad/plugin/setupad_prebid_flutter/PrebidView.kt:160-179 | the banner unit is replaced and the old one is dropped as it is; one ad view for the ad-unit ID is appended to the layout; the interstitial unit and handler are untouched |
| AdSlot.CreateInterstitial | ios/Classes/PrebidView.swift:118-124 | the interstitial unit is replaced and the layout is hidden; the banner unit, the released log and the ad views are untouched |
| AdSlot.ClearChildren | android/src/main/kotlin/setupad/plugin/setupad_prebid_flutter/PrebidView.kt:108 | the layout loses all its ad views, and nothing else changes |
| AdSlot.SetParams | android/src/main/kotlin/setupad/plugin/setupad_prebid_flutter/PrebidView.kt:98-155 | a rejected payload leaves the state unchanged on iOS, and on Android only empties the layout; a valid payload on the banner branch (exact "banner" on iOS, folding to "banner" on Android) installs the new banner unit, drops the old one and keeps the interstitial; a valid payload on the other branch installs the new interstitial, keeps the banner and hides the layout; on every call the ad views become exactly the earlier ones (iOS) or none (Android), followed by the new banner's ad view on the banner branch; the handler and the presence of the layout never change |
| AdSlot.Pause | android/src/main/kotlin/setupad/plugin/setupad_prebid_flutter/PrebidView.kt:280-285 | with a banner, its refresh stops; without one, nothing changes; only the banner unit changes |
| AdSlot.Resume | android/src/main/kotlin/setupad/plugin/setupad_prebid_flutter/PrebidView.kt:290-295 | with a banner, its refresh restarts; without one, nothing changes; only the banner unit changes |
| AdSlot.Destroy | android/src/main/kotlin/setupad/plugin/setupad_prebid_flutter/PrebidView.kt:269-275 | afterwards there is no banner; a present banner is appended to the released log with its refresh stopped; without a banner, nothing changes |
| AdSlot.DisposeView | ios/Classes/PrebidView.swift:54-58 | the layout is gone, the handler is unregistered, and the banner is destroyed |
| AdSlot.HandleCall | ios/Classes/PrebidView.swift:61-73 | the reply is not-implemented iff the handler is gone or the name is not one of the four, and such a call changes nothing |
| AdSlot.DispatchIsExact | android/src/main/kotlin/setupad/plugin/setupad_prebid_flutter/PrebidView.kt:85-93 | each of the four names reaches its own handler |
| AdSlot.MethodNamesAreCaseSensitive | ios/Classes/PrebidView.swift:62-72 | differently cased names such as "SetParams" are not implemented |
| AdSlot.ResumeUndoesPause | ios/Classes/PrebidView.swift:229-238 | resuming after pausing a running banner restores the state |
| AdSlot.DestroyIdempotent | ios/Classes/PrebidView.swift:241-245 | destroying twice equals destroying once; pause and resume after destroy change nothing |
| AdSlot.DisposeIsTerminal | android/src/main/kotlin/setupad/plugin/setupad_prebid_flutter/PrebidView.kt:76-80 | after dispose, every further event leaves the state unchanged |
| AdSlot.FreshSatisfiesInv | ios/Classes/PrebidView.swift:27-33 | a new view (handler registered, empty layout, no units) satisfies the invariant |
| AdSlot.SetParamsPreservesInv | ios/Classes/PrebidView.swift:77-127 | setParams preserves the invariant |
| AdSlot.StepPreservesInv | android/src/main/kotlin/setupad/plugin/setupad_prebid_flutter/PrebidView.kt:76-93 | every call and dispose preserves the invariant |
| AdSlot.RunPreservesInv | ios/Classes/PrebidView.swift:107-132 | in every reachable state, every banner unit held or dropped has a period within [30000, 120000] ms in the platform's own unit; the layout is gone exactly when the handler is; an Android layout holds at most one ad view |
| AdSlot.HiddenIsSticky | android/src/main/kotlin/setupad/plugin/setupad_prebid_flutter/PrebidView.kt:149 | once hidden, the layout stays hidden for every later event, for as long as it exists |
| AdSlot.ReleasedOnlyGrows | android/src/main/kotlin/setupad/plugin/setupad_prebid_flutter/PrebidView.kt:167 | dropped banner units are only ever appended to the log |
| SlotScenarios.RejectedSetParamsCreatesNothing | ios/Classes/PrebidView.swift:88-112 | an invalid payload creates no unit and changes no unit; on iOS the state is unchanged; on Android the layout is emptied |
| SlotScenarios.AndroidNonMapPayload | android/src/main/kotlin/setupad/plugin/setupad_prebid_flutter/PrebidView.kt:100-108 | a non-map payload is rejected as EmptyAdType after the layout is emptied |
| SlotScenarios.BannerExample | ios/Classes/PrebidView.swift:115-116 | a banner of 320×50 at 30 s yields that unit with a 30000 ms period, and one ad view in a visible layout |
| SlotScenarios.InterstitialExample | android/src/main/kotlin/setupad/plugin/setupad_prebid_flutter/PrebidView.kt:147-150 | an interstitial with 0×0 and no refresh yields a default-sized unit and a hidden layout |
| SlotScenarios.PauseResumeOnFreshView | android/src/main/kotlin/setupad/plugin/setupad_prebid_flutter/PrebidView.kt:280-295 | pause, resume and destroy before any setParams change nothing and send no reply |
| SlotScenarios.RepeatedBannerSetParams | android/src/main/kotlin/setupad/plugin/setupad_prebid_flutter/PrebidView.kt:108 | a second banner drops the first unit with its refresh still running; iOS then has two ad views, Android one |
| SlotScenarios.BannerThenInterstitialKeepsBoth | android/src/main/kotlin/setupad/plugin/setupad_prebid_flutter/PrebidView.kt:191-214 | after a banner then an interstitial, both units exist and the banner still refreshes; the layout is hidden; Android has removed the banner's ad view |
| SlotScenarios.CapitalisedBannerOnBothPlatforms | ios/Classes/PrebidView.swift:113-124 | a valid "Banner" call on iOS creates a sized interstitial, hides the layout and keeps the banner unit; on Android the same call creates a banner |
| Startup.StartPrebid | ios/Classes/SetupadPrebidFlutterPlugin.swift:24-57 | an empty account ID leaves the settings unchanged; otherwise the account, debug flag and timeout come from the arguments, geolocation sharing is on, and the server is the fixed Setupad endpoint |
| Startup.HandleGlobalCall | ios/Classes/SetupadPrebidFlutterPlugin.swift:18-61 | startPrebid applies the settings update and sends no reply; any other method is answered not-implemented and changes nothing |
| Startup.StartArgsDefaults | ios/Classes/SetupadPrebidFlutterPlugin.swift:20-23 | for every payload and each argument separately, a value of the expected type is read as it is, and a missing or wrong-typed one reads as "", 3000 or false |
| Startup.DefaultsReachSettings | ios/Classes/SetupadPrebidFlutterPlugin.swift:22-56 | with an account ID set, a missing or wrong-typed timeout writes 3000 ms and a missing or wrong-typed debug flag writes false |
| Startup.StartPrebidOverwrites | ios/Classes/SetupadPrebidFlutterPlugin.swift:25-56 | with a non-empty account, the new settings do not depend on the old ones |
| Startup.StartPrebidIdempotent | ios/Classes/SetupadPrebidFlutterPlugin.swift:19-57 | repeating the same startPrebid changes nothing further |
| Startup.EmptyAccountKeepsEarlierStart | ios/Classes/SetupadPrebidFlutterPlugin.swift:24 | a later call with an empty account ID keeps what an earlier call set |
| Startup.AccountOnlyExample | ios/Classes/SetupadPrebidFlutterPlugin.swift:21-30 | an account ID with no other fields gives timeout 3000, debug off, geolocation on, and the fixed server URL |

## Left out

- The SDK work is left out because it is foreign, asynchronous code:
  - demand fetching, ad loading and presentation;
  - creative-size lookup and banner resizing;
  - `Prebid.initializeSDK` and its status callback.

  Units are opaque records of the arguments passed to them. Whether a banner's refresh is
  running is a flag that pause, resume and destroy set.
- Main-queue dispatch on iOS is not modelled. The deferred `addSubview` and `isHidden` are
  applied within the step that schedules them. Callbacks arriving after destroy or dispose are
  not modelled either.
- The App Tracking Transparency prompt, layout constraints and frame parameters are left out
  because they are UI and system I/O. So is the logging: errors are the `ValidationError` enum.
- iOS force-casts the `setParams` and `startPrebid` arguments to a map and crashes otherwise.
  That case is a precondition (`AdSlot.Deliverable`, `Startup.StartPrebid`).
- AdSlot.Deliverable: also requires a map for an iOS `setParams` on a view whose handler is gone,
  although such a call never reaches the force-cast.
- Other iOS crash paths outside the SDK callbacks are not modelled:
  - `createBanner`'s main-queue block force-unwraps the app delegate, its window and the root
    view controller (`ios/Classes/PrebidView.swift:142`);
  - the same block calls `fetchDemand` on the implicitly unwrapped banner unit, which is nil if a
    `destroyAuction` ran before the block (`ios/Classes/PrebidView.swift:146`);
  - the deferred `isHidden` write and `addBannerViewToView` dereference the layout, which is nil
    after `dispose` (`ios/Classes/PrebidView.swift:122`, `ios/Classes/PrebidView.swift:208`).
- A fresh view (`AdSlot.Fresh`) assumes the Android handler registration succeeds. The constructor catches a
  failure there and carries on without a handler
  (`android/src/main/kotlin/setupad/plugin/setupad_prebid_flutter/PrebidView.kt:53-57`).
- `ios/Classes/PrebidViewFactory.swift` only constructs views, so it is left out.
- The Android plugin class and its `startPrebid` are not part of this model.
- Payload integers are unbounded. Swift's `Int` is 64-bit and Kotlin's is 32-bit, but the only
  arithmetic is `refreshInterval × 1000` on values already checked to lie in [30, 120], and
  every comparison is the same at any width. Which Dart integers Kotlin's `as? Int` accepts
  depends on the channel codec, which is not modelled.
- Casts are strict: a value is a string, an integer, a boolean or something else. Swift's
  NSNumber bridging is not modelled. Under it, `as? Int` on iOS also accepts a boolean or a
  whole-number double, so a Dart `refreshInterval: 60.0` passes validation on iOS but reads as
  0 on Android, where it is rejected as too small. The model treats the double as wrong-typed
  on both platforms.
- Text.Lower: folds ASCII letters only, where Swift and Kotlin apply full Unicode case mapping.
  Full case mapping can turn a non-ASCII character into an ASCII letter: U+0130 `İ` becomes
  `i` followed by the combining dot U+0307, and U+212A KELVIN SIGN becomes a plain `k`. The
  leftover combining mark keeps both comparisons with "banner" and "interstitial" false, and
  neither word contains a `k`, so every decision the model makes is the same.
- Startup.StartPrebid: assumes `setCustomPrebidServer` accepts the fixed URL. The
  catch-and-print path is not modelled.
- AdSlot.HandleCall: a call on a view whose handler was removed never reaches the view. The
  model answers it not-implemented, which is what the Flutter engine's empty reply means on the
  Dart side.
- On iOS, `Dispose` models `dispose()` (`ios/Classes/PrebidView.swift:54-58`), which is not
  part of Flutter's iOS platform-view protocol and which nothing in the iOS sources calls. So
  a removed iOS view stops its banner only through `destroyAuction`; the model's `Dispose`
  event does not happen on iOS in practice.
- Dropped interstitial units are not logged. Unlike banner units, they have no refresh to stop.

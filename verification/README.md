# Linkrunner Flutter bridge: dispatch and argument translation

The Linkrunner Flutter plugin is a method-channel bridge (`"linkrunner_native"`)
in front of a native attribution SDK on each platform. The plugin itself holds
little logic. It receives a method name and an argument bag, checks the required
arguments, and turns the loosely typed bag into the SDK's request objects. It
then turns the SDK's outcome into exactly one channel response. The only state
it keeps is the Android `nativeLinkRunner` handle and the iOS `isInitialized`
flag.

This project models both dispatchers as pure functions:

- `Dispatch(state, name, args, enums) -> Decision`. The decision is one of
  `InvalidArgument(msg)`, `NotInitialized`, `NotImplemented`, `Raises`,
  `Immediate(payload)` and `CallNative(request)`. The request is a typed record
  for each operation.
- `Respond(request, outcome) -> Response` turns a native outcome into the
  channel answer.
- `Next` and `Handle` run one whole call: the new state and the single response.

The native SDK is never modelled. Its outcomes are inputs, and the constants of
its payment enumerations are a parameter (`PaymentEnums`).

Files:

- `channel.dfy`, module `Channel`. Defines the codec values (`Value`), the
  `as?` safe casts, the method-name table, `Decision`, `Response`, the
  enum-fallback catalogue, the integration-data conversion both platforms share
  and the reading of an error code back to its operation.
- `android.dfy`, module `Android`. Models `LinkrunnerPlugin.kt`: the reads of
  `call.argument<T>`, the request records, `Dispatch`, the attribution
  reshaping, `Respond`, `Next` and `Handle`.
- `ios.dfy`, module `Ios`. Models `SwiftLinkrunnerPlugin.swift`: the argument
  dictionary, the request records, the `isInitialized` gate, `Dispatch`,
  `Respond`, `Next` and `Handle`.
- `android_proofs.dfy` and `ios_proofs.dfy`. These check each dispatcher against
  an independent table of its parameters. They also state what each native
  request carries, the user-data and attribution conversions against their
  inverses, the error codes, and the state over any sequence of calls.

## Behaviour worth knowing

The model follows the code in every case below.

- **Android: a mismatched argument type is not read as "absent".** A branch of
  `onMethodCall` reads each argument with `call.argument<T>(key)`. Kotlin casts
  the result to `T` where it is used. So an entry of the wrong type (an integer
  `amount`, a string `debug`) throws instead of reading as missing, and so does
  an argument object that is not a map. Every read in a branch happens before
  that branch's null check. So a failed cast wins over a missing required
  argument. This is modelled as the decision `Raises` and the response
  `HandlerRaised`.
- **Android: `isAvailable` does not mean "successfully initialised".** The
  handle is stored as soon as `getInstance()` returns, before `init` runs. So
  `isAvailable` is true after a failed init as well.
- **iOS gates operations on `isInitialized`.** Android does not, and `isAvailable`
  on iOS is true only after a successful init.
- **Type mismatches read as "absent" on iOS, and inside `convertToNativeUserData`
  and `setAdditionalData` on Android.** These places use safe casts (`as?`).
- **iOS `removePayment` with non-dictionary arguments is `INVALID_ARGUMENT`.** The
  message is "User ID or payment ID is required". Neither id is checked when the
  arguments are a dictionary.
- **The argument key for `setAdditionalData` differs.** It is `"IntegrationData"`
  on Android and `"integrationData"` on iOS.
- **iOS has no `_EXCEPTION` codes.** Every native throw becomes `<OP>_FAILED`
  with the error's description.

## Model

| member | source | states |
|---|---|---|
| Channel.MethodNamed | android/src/main/kotlin/io/linkrunner/flutter/LinkrunnerPlugin.kt:40-142 | A name is recognised exactly when some method of the table has it, and the recognised method is the one with that name |
| Channel.IntegrationFromArgs | android/src/main/kotlin/io/linkrunner/flutter/LinkrunnerPlugin.kt:295-300 | The CleverTap id is present exactly when `clevertap_id` holds a string, and is then that string; iOS builds it the same way (SwiftLinkrunnerPlugin.swift lines 240-242) |
| Channel.IntegrationRoundTrip | ios/Classes/SwiftLinkrunnerPlugin.swift:240-242 | Writing integration data out and converting it back gives the same data, and no key other than `clevertap_id` changes the result |
| Android.Arg | android/src/main/kotlin/io/linkrunner/flutter/LinkrunnerPlugin.kt:42-47 | `call.argument<T>` reads as absent exactly for null arguments or a missing/null entry; a returned value is the entry itself and has the requested type; anything else is a failing cast |
| Android.Dispatch | android/src/main/kotlin/io/linkrunner/flutter/LinkrunnerPlugin.kt:39-143 | Unknown names are not implemented; Android never answers NOT_INITIALIZED; only `isAvailable` is answered locally; a native request always belongs to the method that was called |
| Android.Handle | android/src/main/kotlin/io/linkrunner/flutter/LinkrunnerPlugin.kt:39-143 | Exactly the names outside the table get `notImplemented`; `isAvailable` answers whether the handle is present |
| Android.Next | android/src/main/kotlin/io/linkrunner/flutter/LinkrunnerPlugin.kt:155-158 | No call clears the handle, and only an init call that gets past `getInstance()` sets it |
| AndroidProofs.DispatchFollowsTable | android/src/main/kotlin/io/linkrunner/flutter/LinkrunnerPlugin.kt:41-136 | For every method: the handler throws iff some argument it reads has the wrong type; otherwise a missing required argument gives INVALID_ARGUMENT with that method's message; a native call happens only when every required argument is present and typed, and then always happens, except for `isAvailable` and a blank push token |
| AndroidProofs.UnknownMethodNotImplemented | android/src/main/kotlin/io/linkrunner/flutter/LinkrunnerPlugin.kt:140-142 | A name outside the table gets `notImplemented`, never a success or an error, and leaves the handle unchanged |
| AndroidProofs.PushTokenBlankCheck | android/src/main/kotlin/io/linkrunner/flutter/LinkrunnerPlugin.kt:437-441 | A present but blank push token is INVALID_ARGUMENT "Push token cannot be empty" with no native call; a non-blank one reaches the SDK unchanged |
| AndroidProofs.BlankConcat | android/src/main/kotlin/io/linkrunner/flutter/LinkrunnerPlugin.kt:438-438 | A string is blank exactly when both halves of any split of it are blank |
| AndroidProofs.SignupRequest | android/src/main/kotlin/io/linkrunner/flutter/LinkrunnerPlugin.kt:57-65 | With a `userData` map and a map or nothing as `data`, `signup` sends the converted user map and the `data` map unchanged |
| AndroidProofs.SetUserDataRequest | android/src/main/kotlin/io/linkrunner/flutter/LinkrunnerPlugin.kt:66-73 | With a `userData` map, `setUserData` sends the converted user map |
| AndroidProofs.SetAdditionalDataRequest | android/src/main/kotlin/io/linkrunner/flutter/LinkrunnerPlugin.kt:74-82 | With an `IntegrationData` map, `setAdditionalData` sends its conversion |
| AndroidProofs.TrackEventRequest | android/src/main/kotlin/io/linkrunner/flutter/LinkrunnerPlugin.kt:83-92 | `trackEvent` sends the name, the event data and the event id as they were read |
| AndroidProofs.RemovePaymentPassesIds | android/src/main/kotlin/io/linkrunner/flutter/LinkrunnerPlugin.kt:105-109 | `removePayment` checks neither id and sends each as it was read, possibly null, without mixing them up |
| AndroidProofs.FlagRequests | android/src/main/kotlin/io/linkrunner/flutter/LinkrunnerPlugin.kt:113-136 | `enablePIIHashing` and `setDisableAaidCollection` send their boolean unchanged |
| Android.PaymentRequest | android/src/main/kotlin/io/linkrunner/flutter/LinkrunnerPlugin.kt:345-363 | The payment type and status are always constants of the native enumerations, whatever strings came in |
| AndroidProofs.CapturePaymentDefaults | android/src/main/kotlin/io/linkrunner/flutter/LinkrunnerPlugin.kt:93-104 | With valid arguments: user id and amount are passed through, a missing payment id becomes "", and type/status are the named constant when the string names one and DEFAULT/PAYMENT_COMPLETED otherwise, whether absent or unrecognised |
| AndroidProofs.InitRequestShape | android/src/main/kotlin/io/linkrunner/flutter/LinkrunnerPlugin.kt:160-177 | `init` uses the secret-key variant iff both `secretKey` and `keyId` are strings; debug defaults to false, the platform tag to "FLUTTER" (line 46) and the version to "unknown" |
| AndroidProofs.UserRoundTrip | android/src/main/kotlin/io/linkrunner/flutter/LinkrunnerPlugin.kt:411-426 | Writing a user out as an argument map and converting it back gives the same user |
| AndroidProofs.UserConversionKeepsTypedPart | android/src/main/kotlin/io/linkrunner/flutter/LinkrunnerPlugin.kt:411-426 | Converting a map and writing it back gives exactly its typed part: each of the eleven fields is kept iff it has the expected type, `id` is the string or "", and every other key is dropped |
| AndroidProofs.UserConversionIgnoresOtherKeys | android/src/main/kotlin/io/linkrunner/flutter/LinkrunnerPlugin.kt:411-426 | Changing a key outside the twelve user keys never changes the request |
| Android.AttributionPayload | android/src/main/kotlin/io/linkrunner/flutter/LinkrunnerPlugin.kt:209-236 | Null data gives the empty map; other data gives a map with exactly `deeplink` and `campaign_data`, and `campaign_data` has exactly the nine snake_case keys |
| AndroidProofs.AttributionRoundTrip | android/src/main/kotlin/io/linkrunner/flutter/LinkrunnerPlugin.kt:213-230 | Reading the reshaped map back recovers every field of the native attribution data, and the empty map reads back as null |
| AndroidProofs.AttributionAnswerCarriesData | android/src/main/kotlin/io/linkrunner/flutter/LinkrunnerPlugin.kt:204-236 | A `getAttributionData` call whose native call returned answers success, and the answer reads back to exactly the native data |
| AndroidProofs.NullAttributionIsEmptyMap | android/src/main/kotlin/io/linkrunner/flutter/LinkrunnerPlugin.kt:233-236 | `getAttributionData` with null native data answers success with the empty map, not an error |
| AndroidProofs.ResultTranslation | android/src/main/kotlin/io/linkrunner/flutter/LinkrunnerPlugin.kt:257-268 | Native success gives `success(null)`, the reshaped attribution map or the flag; a native failure gives `<OP>_FAILED` with the native message, or the operation's fallback text when there is none; an exception, including one thrown by `getInstance()`, gives `<OP>_EXCEPTION`, or `<OP>_FAILED` for the inline operations |
| Android.Respond | android/src/main/kotlin/io/linkrunner/flutter/LinkrunnerPlugin.kt:188-199 | A response is a success exactly when the native call returned, with the payload of that operation; every error code reads back to the operation that produced it |
| AndroidProofs.ErrorCodeIdentifiesOperation | android/src/main/kotlin/io/linkrunner/flutter/LinkrunnerPlugin.kt:368-379 | Two equal error codes come from the same operation, and for asynchronous operations also from the same kind of failure (reported failure or exception) |
| AndroidProofs.InitSetsHandleWhateverTheOutcome | android/src/main/kotlin/io/linkrunner/flutter/LinkrunnerPlugin.kt:155-200 | An `init` call with a usable token stores the handle whether init then succeeds, fails or throws, unless `getInstance()` itself threw; `isAvailable` then answers true |
| AndroidProofs.IsAvailableReportsHandle | android/src/main/kotlin/io/linkrunner/flutter/LinkrunnerPlugin.kt:110-112 | `isAvailable` answers whether the handle is present and changes nothing |
| AndroidProofs.NextHandle | android/src/main/kotlin/io/linkrunner/flutter/LinkrunnerPlugin.kt:157-158 | One call stores the handle iff it is an init call that gets past `getInstance()`, and no call ever clears it |
| AndroidProofs.AvailableIffSomeInitStoredInstance | android/src/main/kotlin/io/linkrunner/flutter/LinkrunnerPlugin.kt:28-28 | After any sequence of calls, the handle is present iff it was already present or one of the calls was an init call that stored the instance |
| Ios.Gate | ios/Classes/SwiftLinkrunnerPlugin.swift:138-141 | The guarded operation reaches the SDK iff the plugin is initialized, and otherwise answers NOT_INITIALIZED |
| Ios.Dispatch | ios/Classes/SwiftLinkrunnerPlugin.swift:17-112 | The iOS handler never throws; it answers not-implemented exactly for names outside its eleven cases; only `isAvailable` is answered locally; a native request always belongs to the method that was called |
| Ios.Handle | ios/Classes/SwiftLinkrunnerPlugin.swift:17-112 | The handler never throws; exactly the names outside its eleven cases get not-implemented; `isAvailable` answers the flag |
| Ios.Next | ios/Classes/SwiftLinkrunnerPlugin.swift:114-135 | No call clears the flag, and only an init call whose `initialize` returned sets it |
| IosProofs.DispatchFollowsTable | ios/Classes/SwiftLinkrunnerPlugin.swift:19-107 | For every method: non-dictionary arguments or a missing or mistyped required entry give INVALID_ARGUMENT with that case's message, checked before the guard; then a gated operation on an uninitialized plugin gives NOT_INITIALIZED; otherwise the SDK is called, except for `isAvailable` |
| IosProofs.NonDictionaryArgumentsRejected | ios/Classes/SwiftLinkrunnerPlugin.swift:81-88 | Arguments that are not a dictionary are INVALID_ARGUMENT for every case that reads them, `removePayment` included, and leave the flag unchanged |
| IosProofs.UnknownMethodNotImplemented | ios/Classes/SwiftLinkrunnerPlugin.swift:109-110 | Names outside the iOS cases, `setDisableAaidCollection` and `isAaidCollectionDisabled` among them, get `FlutterMethodNotImplemented` |
| IosProofs.GateBlocksUntilInitialized | ios/Classes/SwiftLinkrunnerPlugin.swift:161-164 | While uninitialized, the eight gated operations with valid arguments answer NOT_INITIALIZED "SDK not initialized" with no native call and no state change |
| IosProofs.PIIHashingNotGated | ios/Classes/SwiftLinkrunnerPlugin.swift:339-342 | `enablePIIHashing` with a boolean reaches the SDK and answers null whether or not the plugin is initialized |
| IosProofs.InitOutcomeDecidesFlag | ios/Classes/SwiftLinkrunnerPlugin.swift:118-132 | A successful `initialize` sets the flag and answers null; a throwing one leaves the flag as it was and answers INIT_FAILED with the error's description |
| IosProofs.IsAvailableReportsFlag | ios/Classes/SwiftLinkrunnerPlugin.swift:90-91 | `isAvailable` answers the flag and changes nothing |
| IosProofs.NextFlag | ios/Classes/SwiftLinkrunnerPlugin.swift:123-123 | One call sets the flag iff it is an init call with a token whose `initialize` returned, and no call ever clears it |
| IosProofs.InitializedIffSomeInitSucceeded | ios/Classes/SwiftLinkrunnerPlugin.swift:114-135 | After any sequence of calls, the flag is set iff it was already set or some init call succeeded |
| IosProofs.CapturePaymentFallback | ios/Classes/SwiftLinkrunnerPlugin.swift:289-290 | Absent type/status read as "DEFAULT_PAYMENT"/"PAYMENT_COMPLETED" (lines 74-75); a raw value naming a case gives that case, any other falls back to `.default`/`.completed`; user id and amount pass through and the payment id stays as it came |
| IosProofs.RemovePaymentDefaults | ios/Classes/SwiftLinkrunnerPlugin.swift:322-325 | `removePayment` sends `userId ?? ""` and the payment id unchanged, with no check that either is present |
| IosProofs.InitRequestShape | ios/Classes/SwiftLinkrunnerPlugin.swift:19-29 | `init` sends the token; it uses the secret-key variant iff both `secretKey` and `keyId` are strings; `disableIdfa` is passed as read, possibly absent; debug is on only for the boolean true |
| IosProofs.SignupRequest | ios/Classes/SwiftLinkrunnerPlugin.swift:34-41 | On an initialized plugin, `signup` sends the converted `userData` and the `data` dictionary when it is one |
| IosProofs.SetUserDataRequest | ios/Classes/SwiftLinkrunnerPlugin.swift:43-49 | On an initialized plugin, `setUserData` sends the converted `userData` |
| IosProofs.SetAdditionalDataRequest | ios/Classes/SwiftLinkrunnerPlugin.swift:51-57 | On an initialized plugin, `setAdditionalData` sends the conversion of `integrationData` |
| IosProofs.TrackEventRequest | ios/Classes/SwiftLinkrunnerPlugin.swift:59-67 | On an initialized plugin, `trackEvent` sends the name, and the event data and id when they have their types |
| IosProofs.SetPushTokenRequest | ios/Classes/SwiftLinkrunnerPlugin.swift:101-107 | On an initialized plugin, `setPushToken` sends the token unchanged; a blank token is not rejected |
| IosProofs.SignupAndSetUserDataAgree | ios/Classes/SwiftLinkrunnerPlugin.swift:166-178 | `signup` and `setUserData` build the same `UserData` from the same user map |
| IosProofs.SessionIdNotMapped | ios/Classes/SwiftLinkrunnerPlugin.swift:203-215 | The `ga_session_id` entry never affects the iOS `UserData` |
| IosProofs.UserDataMatchesAndroid | ios/Classes/SwiftLinkrunnerPlugin.swift:166-178 | The iOS `UserData` equals Android's `UserDataRequest` for the same map, minus the GA session id: same keys, same types and the same `id` default |
| Ios.Respond | ios/Classes/SwiftLinkrunnerPlugin.swift:304-308 | Every response is a success or an error; enabling PII hashing always succeeds; a completed call answers nil, or the SDK's dictionary for `getAttributionData`; an error only comes from a native throw, and its code is the operation's `_FAILED` code and reads back to that operation |
| IosProofs.SuccessPayloads | ios/Classes/SwiftLinkrunnerPlugin.swift:137-158 | A completed native call answers the SDK's dictionary for `getAttributionData` and nil for every other operation |
| IosProofs.ThrowsBecomeFailed | ios/Classes/SwiftLinkrunnerPlugin.swift:186-190 | Every native throw becomes `<OP>_FAILED` with the error's description; no iOS code ends in `_EXCEPTION`; equal codes come from the same operation |

## Left out

- Threading and delivery. The model leaves out coroutine scopes,
  `withContext(Dispatchers.Main)`, Swift `Task` and `DispatchQueue.main.async`.
  Each call is one atomic step that yields one response. On Android the handle
  is written inside the coroutine, so an `isAvailable` that overtakes a pending
  `init` is not modelled.
- The native SDK. `getInstance`, `configureSDK`, `LinkrunnerSDK.shared` and
  `toDictionary()` are foreign code. Their outcomes are inputs (`NativeOutcome`).
  The iOS attribution dictionary is an opaque `Value`. The constants of the
  payment enumerations are a parameter.
- `configureSDK` failures. They are caught and only logged, so they change
  nothing the model can observe.
- Plugin registration and teardown (`onAttachedToEngine`, `register`,
  `onDetachedFromEngine`), `Context` and `android.util.Log`. These are
  boilerplate and I/O.
- What the channel transport answers when the Android handler throws. The model
  stops at `HandlerRaised`.
- `amount`. It is a `Double` that is only passed through, so it is modelled as
  an opaque `real`.
- The extra-data maps (`data`, `eventData`). They are forwarded untouched.
- Swift's `NSNumber` bridging. An integer number can satisfy `as? Double` or
  `as? Bool`. Here the iOS casts are exact type matches.
- `triggerDeeplink` and `getVersion`. Neither dispatcher has them, and both
  answer "not implemented".
- Maps with keys that are not strings. The codec's maps are modelled with
  string keys only. Such a map fails iOS's `as? [String: Any]` cast, giving
  `INVALID_ARGUMENT`, while Android's `Map` cast accepts it.
- `CampaignData` field types. They are not visible, so all nine fields are
  modelled as nullable strings.
- Android.Respond: it covers only the outcomes that a request's native signature
  admits (`Fits`). A `Result` failure for the inline operations is one such
  excluded outcome, since those operations return no `Result`.
- Ios.Respond: `enablePIIHashing` answers success whatever outcome is supplied,
  because the native call cannot throw.

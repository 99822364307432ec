/** The Android bridge (`LinkrunnerPlugin`): the `onMethodCall` dispatch table,
    the conversion of argument maps into native request objects, the
    translation of native outcomes into channel responses, and the one piece of
    state it keeps, the `nativeLinkRunner` handle. */
module Android {
  import opened Channel

  /** `nativeLinkRunner != null`. */
  datatype State = State(hasInstance: bool)

  const Initial := State(false)

  /** One `call.argument<T>(key)`, including the cast to `T` that Kotlin makes
      where the value is used. */
  datatype Read<+T> = Absent | Got(value: T) | Mismatch {
    function ToOption(): Option<T> {
      match this
      case Got(v) => Some(v)
      case _ => None
    }
  }

  /** Reading `key` of the call's arguments as a value of kind `kind`. Null
      arguments read as absent everywhere; a map yields its entry, a null or
      missing entry reading as absent; the cast of an entry of another kind
      throws, and so does reading from arguments that are not a map. */
  function Arg(args: Value, key: string, kind: Kind): (r: Read<Value>)
    ensures r.Got? <==> args.Dict? && key in args.entries && HasKind(args.entries[key], kind)
    ensures r.Got? ==> r.value == args.entries[key]
    ensures r.Absent? <==> args.Null? || (args.Dict? && (key !in args.entries || args.entries[key].Null?))
  {
    match args
    case Null => Absent
    case Dict(m) =>
      if key !in m || m[key].Null? then Absent
      else if HasKind(m[key], kind) then Got(m[key])
      else Mismatch
    case _ => Mismatch
  }

  function ArgStr(args: Value, key: string): Read<string> {
    match Arg(args, key, StrKind)
    case Absent => Absent
    case Mismatch => Mismatch
    case Got(v) => Got(v.s)
  }

  function ArgBool(args: Value, key: string): Read<bool> {
    match Arg(args, key, BoolKind)
    case Absent => Absent
    case Mismatch => Mismatch
    case Got(v) => Got(v.b)
  }

  function ArgDouble(args: Value, key: string): Read<Amount> {
    match Arg(args, key, DoubleKind)
    case Absent => Absent
    case Mismatch => Mismatch
    case Got(v) => Got(v.d)
  }

  function ArgDict(args: Value, key: string): Read<map<string, Value>> {
    match Arg(args, key, DictKind)
    case Absent => Absent
    case Mismatch => Mismatch
    case Got(v) => Got(v.entries)
  }

  // ---------------------------------------------------------------------------
  // Native request objects
  // ---------------------------------------------------------------------------

  /** What `initNativeSDK` hands to `configureSDK` and to `init`. */
  datatype InitRequest = InitRequest(
    token: string,
    credentials: Option<Credentials>,   // the secret-key variant of `init`
    debug: bool,
    platform: string,                   // first argument of `configureSDK`
    version: string)                    // second argument of `configureSDK`

  /** `UserDataRequest`. */
  datatype UserDataRequest = UserDataRequest(
    id: string,
    name: Option<string>,
    email: Option<string>,
    phone: Option<string>,
    mixpanelDistinctId: Option<string>,
    amplitudeDeviceId: Option<string>,
    posthogDistinctId: Option<string>,
    brazeDeviceId: Option<string>,
    gaAppInstanceId: Option<string>,
    gaSessionId: Option<string>,
    userCreatedAt: Option<string>,
    isFirstTimeUser: Option<bool>)

  /** `CapturePaymentRequest`; the enum constants are named by their names. */
  datatype CapturePaymentRequest = CapturePaymentRequest(
    paymentId: string,
    userId: string,
    amount: Amount,
    paymentType: string,
    status: string)

  datatype RemovePaymentRequest = RemovePaymentRequest(paymentId: Option<string>, userId: Option<string>)

  /** One call on the native SDK. */
  datatype Request =
    | InitSdk(init: InitRequest)
    | FetchAttribution
    | SignupUser(user: UserDataRequest, data: Option<map<string, Value>>)
    | UpdateUserData(user: UserDataRequest)
    | UpdateAdditionalData(integration: IntegrationData)
    | Track(eventName: string, eventData: Option<map<string, Value>>, eventId: Option<string>)
    | Capture(payment: CapturePaymentRequest)
    | Remove(removal: RemovePaymentRequest)
    | SetPIIHashing(enabled: bool)
    | RegisterPushToken(pushToken: string)
    | SetAaidCollectionDisabled(disabled: bool)
    | QueryAaidCollectionDisabled

  /** The method whose branch of `onMethodCall` builds a request. */
  function MethodOf(r: Request): Method {
    match r
    case InitSdk(_) => Init
    case FetchAttribution => GetAttributionData
    case SignupUser(_, _) => Signup
    case UpdateUserData(_) => SetUserData
    case UpdateAdditionalData(_) => SetAdditionalData
    case Track(_, _, _) => TrackEvent
    case Capture(_) => CapturePayment
    case Remove(_) => RemovePayment
    case SetPIIHashing(_) => EnablePIIHashing
    case RegisterPushToken(_) => SetPushToken
    case SetAaidCollectionDisabled(_) => SetDisableAaidCollection
    case QueryAaidCollectionDisabled => IsAaidCollectionDisabled
  }

  /** The native enumerations as Android sees them: `valueOf` matches constant
      names, and the fallbacks are the constants `DEFAULT` and
      `PAYMENT_COMPLETED`. */
  predicate AndroidEnums(enums: PaymentEnums) {
    && enums.Valid()
    && enums.types.fallback == "DEFAULT"
    && enums.statuses.fallback == "PAYMENT_COMPLETED"
  }

  // ---------------------------------------------------------------------------
  // Argument-map conversions
  // ---------------------------------------------------------------------------

  /** `convertToNativeUserData`: every field is a safe cast of its snake_case
      key; only `id` has a default. */
  function UserFromArgs(m: map<string, Value>): UserDataRequest {
    UserDataRequest(
      id := StrAt(m, "id").GetOr(""),
      name := StrAt(m, "name"),
      email := StrAt(m, "email"),
      phone := StrAt(m, "phone"),
      mixpanelDistinctId := StrAt(m, "mixpanel_distinct_id"),
      amplitudeDeviceId := StrAt(m, "amplitude_device_id"),
      posthogDistinctId := StrAt(m, "posthog_distinct_id"),
      brazeDeviceId := StrAt(m, "braze_device_id"),
      gaAppInstanceId := StrAt(m, "ga_app_instance_id"),
      gaSessionId := StrAt(m, "ga_session_id"),
      userCreatedAt := StrAt(m, "user_created_at"),
      isFirstTimeUser := BoolAt(m, "is_first_time_user"))
  }

  /** The request `capturePayment` builds from the values `onMethodCall` read. */
  function PaymentRequest(enums: PaymentEnums, userId: string, amount: Amount, paymentId: Option<string>,
                          paymentType: Option<string>, status: Option<string>): (r: CapturePaymentRequest)
    requires AndroidEnums(enums)
    ensures r.paymentType in enums.types.names && r.status in enums.statuses.names
  {
    CapturePaymentRequest(
      paymentId := paymentId.GetOr(""),
      userId := userId,
      amount := amount,
      paymentType := enums.types.Resolve(paymentType.GetOr("DEFAULT")),
      status := enums.statuses.Resolve(status.GetOr("PAYMENT_COMPLETED")))
  }

  /** Kotlin's `Char.isWhitespace()`: the Unicode space, line and paragraph
      separators and the control characters U+0009..U+000D, U+001C..U+001F. */
  predicate IsWhitespace(c: char) {
    || ('\U{9}' <= c <= '\U{D}')
    || ('\U{1C}' <= c <= '\U{20}')
    || c == '\U{A0}' || c == '\U{1680}'
    || ('\U{2000}' <= c <= '\U{200A}')
    || c == '\U{2028}' || c == '\U{2029}' || c == '\U{202F}' || c == '\U{205F}' || c == '\U{3000}'
  }

  /** `String.isBlank()`. */
  predicate IsBlank(s: string) {
    forall i :: 0 <= i < |s| ==> IsWhitespace(s[i])
  }

  // ---------------------------------------------------------------------------
  // Dispatch
  // ---------------------------------------------------------------------------

  /** `onMethodCall`. All reads of a branch happen before its null checks, so
      a cast that throws wins over a missing required argument. */
  function Dispatch(s: State, name: string, args: Value, enums: PaymentEnums): (d: Decision<Request>)
    requires AndroidEnums(enums)
    ensures d.NotImplemented? <==> MethodNamed(name).None?
    ensures !d.NotInitialized?
    ensures d.Immediate? <==> name == "isAvailable"
    ensures d.CallNative? ==> Name(MethodOf(d.request)) == name
  {
    match MethodNamed(name)
    case None => NotImplemented
    case Some(m) => Decide(s, m, args, enums)
  }

  function Decide(s: State, m: Method, args: Value, enums: PaymentEnums): (d: Decision<Request>)
    requires AndroidEnums(enums)
    ensures d.CallNative? ==> MethodOf(d.request) == m
    ensures !d.NotImplemented?
  {
    match m
    case Init =>
      var token := ArgStr(args, "token");
      var secretKey := ArgStr(args, "secretKey");
      var keyId := ArgStr(args, "keyId");
      var debug := ArgBool(args, "debug");
      var platform := ArgStr(args, "platform");
      var version := ArgStr(args, "packageVersion");
      if token.Mismatch? || secretKey.Mismatch? || keyId.Mismatch? || debug.Mismatch?
         || platform.Mismatch? || version.Mismatch? then Raises
      else if token.Absent? then InvalidArgument("Token is required")
      else
        var credentials :=
          if secretKey.Got? && keyId.Got? then Some(Credentials(secretKey.value, keyId.value)) else None;
        CallNative(InitSdk(InitRequest(
          token.value, credentials, debug.ToOption().GetOr(false),
          platform.ToOption().GetOr("FLUTTER"), version.ToOption().GetOr("unknown"))))
    case GetAttributionData =>
      CallNative(FetchAttribution)
    case Signup =>
      var userData := ArgDict(args, "userData");
      var data := ArgDict(args, "data");
      if userData.Mismatch? || data.Mismatch? then Raises
      else if userData.Absent? then InvalidArgument("User data is required")
      else CallNative(SignupUser(UserFromArgs(userData.value), data.ToOption()))
    case SetUserData =>
      var userData := ArgDict(args, "userData");
      if userData.Mismatch? then Raises
      else if userData.Absent? then InvalidArgument("User data is required")
      else CallNative(UpdateUserData(UserFromArgs(userData.value)))
    case SetAdditionalData =>
      var integration := ArgDict(args, "IntegrationData");
      if integration.Mismatch? then Raises
      else if integration.Absent? then InvalidArgument("Integration data is required")
      else CallNative(UpdateAdditionalData(IntegrationFromArgs(integration.value)))
    case TrackEvent =>
      var eventName := ArgStr(args, "eventName");
      var eventData := ArgDict(args, "eventData");
      var eventId := ArgStr(args, "eventId");
      if eventName.Mismatch? || eventData.Mismatch? || eventId.Mismatch? then Raises
      else if eventName.Absent? then InvalidArgument("Event name is required")
      else CallNative(Track(eventName.value, eventData.ToOption(), eventId.ToOption()))
    case CapturePayment =>
      var userId := ArgStr(args, "userId");
      var amount := ArgDouble(args, "amount");
      var paymentId := ArgStr(args, "paymentId");
      var paymentType := ArgStr(args, "type");
      var status := ArgStr(args, "status");
      if userId.Mismatch? || amount.Mismatch? || paymentId.Mismatch? || paymentType.Mismatch?
         || status.Mismatch? then Raises
      else if userId.Absent? || amount.Absent? then InvalidArgument("User ID and amount are required")
      else CallNative(Capture(PaymentRequest(enums, userId.value, amount.value, paymentId.ToOption(),
                                             paymentType.ToOption(), status.ToOption())))
    case RemovePayment =>
      var userId := ArgStr(args, "userId");
      var paymentId := ArgStr(args, "paymentId");
      if userId.Mismatch? || paymentId.Mismatch? then Raises
      else CallNative(Remove(RemovePaymentRequest(paymentId.ToOption(), userId.ToOption())))
    case IsAvailable =>
      Immediate(Bool(s.hasInstance))
    case EnablePIIHashing =>
      var enabled := ArgBool(args, "enabled");
      if enabled.Mismatch? then Raises
      else if enabled.Absent? then InvalidArgument("enabled parameter is required")
      else CallNative(SetPIIHashing(enabled.value))
    case SetPushToken =>
      var pushToken := ArgStr(args, "pushToken");
      if pushToken.Mismatch? then Raises
      else if pushToken.Absent? then InvalidArgument("pushToken parameter is required")
      else if IsBlank(pushToken.value) then InvalidArgument("Push token cannot be empty")
      else CallNative(RegisterPushToken(pushToken.value))
    case SetDisableAaidCollection =>
      var disabled := ArgBool(args, "disabled");
      if disabled.Mismatch? then Raises
      else if disabled.Absent? then InvalidArgument("disabled parameter is required")
      else CallNative(SetAaidCollectionDisabled(disabled.value))
    case IsAaidCollectionDisabled =>
      CallNative(QueryAaidCollectionDisabled)
  }

  // ---------------------------------------------------------------------------
  // Native outcomes and their translation
  // ---------------------------------------------------------------------------

  /** `CampaignData`; every field nullable. */
  datatype CampaignData = CampaignData(
    id: Option<string>,
    name: Option<string>,
    adNetwork: Option<string>,
    campaignType: Option<string>,
    installedAt: Option<string>,
    storeClickAt: Option<string>,
    groupName: Option<string>,
    assetName: Option<string>,
    assetGroupName: Option<string>)

  datatype AttributionData = AttributionData(deeplink: Option<string>, campaignData: CampaignData)

  /** What a native call returned when it did not fail. */
  datatype NativeValue =
    | Unit
    | Attribution(data: Option<AttributionData>)   // `getAttributionData`
    | Flag(flag: bool)                             // `isAaidCollectionDisabled`

  /** How a native call ended. */
  datatype NativeOutcome =
    | Returned(value: NativeValue)         // a successful `Result`, or a plain return
    | Failed(message: Option<string>)      // a failed `Result` and its exception's message
    | Threw(message: Option<string>)       // an exception inside the handler's `try`
    | NoInstance(message: Option<string>)  // `NativeLinkRunner.getInstance()` itself threw

  /** The operations answered inline, without a coroutine and without a `Result`. */
  predicate IsSync(r: Request) {
    r.SetPIIHashing? || r.SetAaidCollectionDisabled? || r.QueryAaidCollectionDisabled?
  }

  /** The outcomes the native signature of each request admits. */
  predicate Fits(r: Request, o: NativeOutcome) {
    match o
    case Returned(v) =>
      if r.FetchAttribution? then v.Attribution?
      else if r.QueryAaidCollectionDisabled? then v.Flag?
      else v.Unit?
    case Failed(_) => !IsSync(r)
    case _ => true
  }

  /** The operation name the error codes of a request start with. */
  function OpName(r: Request): (op: string)
    ensures OperationNamed(op) == Some(MethodOf(r))
  {
    match r
    case InitSdk(_) => "INIT"
    case FetchAttribution => "ATTRIBUTION_DATA"
    case SignupUser(_, _) => "SIGNUP"
    case UpdateUserData(_) => "SET_USER_DATA"
    case UpdateAdditionalData(_) => "SET_ADDITIONAL_DATA"
    case Track(_, _, _) => "TRACK_EVENT"
    case Capture(_) => "CAPTURE_PAYMENT"
    case Remove(_) => "REMOVE_PAYMENT"
    case SetPIIHashing(_) => "ENABLE_PII_HASHING"
    case RegisterPushToken(_) => "SET_PUSH_TOKEN"
    case SetAaidCollectionDisabled(_) => "SET_DISABLE_AAID"
    case QueryAaidCollectionDisabled => "IS_AAID_COLLECTION_DISABLED"
  }

  /** The message sent with `<OP>_FAILED` when the native error has none. */
  function FallbackMessage(r: Request): string {
    match r
    case InitSdk(_) => "Initialization failed"
    case FetchAttribution => "Failed to get attribution data"
    case SignupUser(_, _) => "Signup failed"
    case UpdateUserData(_) => "Set user data failed"
    case UpdateAdditionalData(_) => "Set additional data failed"
    case Track(_, _, _) => "Track event failed"
    case Capture(_) => "Capture payment failed"
    case Remove(_) => "Remove payment failed"
    case RegisterPushToken(_) => "Set push token failed"
    case _ => ""   // the inline operations have no `Result` to fail
  }

  const CampaignKeys: set<string> :=
    {"id", "name", "ad_network", "type", "installed_at", "store_click_at",
     "group_name", "asset_name", "asset_group_name"}

  function CampaignMap(c: CampaignData): map<string, Value> {
    map[
      "id" := Nullable(c.id),
      "name" := Nullable(c.name),
      "ad_network" := Nullable(c.adNetwork),
      "type" := Nullable(c.campaignType),
      "installed_at" := Nullable(c.installedAt),
      "store_click_at" := Nullable(c.storeClickAt),
      "group_name" := Nullable(c.groupName),
      "asset_name" := Nullable(c.assetName),
      "asset_group_name" := Nullable(c.assetGroupName)]
  }

  /** The map `getAttributionData` answers with. */
  function AttributionPayload(a: Option<AttributionData>): (r: Value)
    ensures r.Dict?
    ensures a.None? ==> r.entries == map[]
    ensures a.Some? ==>
      && r.entries.Keys == {"deeplink", "campaign_data"}
      && r.entries["deeplink"] == Nullable(a.value.deeplink)
      && r.entries["campaign_data"].Dict?
      && r.entries["campaign_data"].entries.Keys == CampaignKeys
  {
    match a
    case None => Dict(map[])
    case Some(data) =>
      Dict(map["deeplink" := Nullable(data.deeplink), "campaign_data" := Dict(CampaignMap(data.campaignData))])
  }

  /** The response for a request given how its native call ended. */
  function Respond(r: Request, o: NativeOutcome): (resp: Response)
    requires Fits(r, o)
    ensures resp.Success? || resp.Error?
    ensures resp.Success? <==> o.Returned?
    ensures o.Returned? && r.FetchAttribution? ==> resp == Success(AttributionPayload(o.value.data))
    ensures o.Returned? && r.QueryAaidCollectionDisabled? ==> resp == Success(Bool(o.value.flag))
    ensures o.Returned? && !r.FetchAttribution? && !r.QueryAaidCollectionDisabled? ==> resp == Success(Null)
    ensures resp.Error? ==> CodeOperation(resp.code) == Some(MethodOf(r))
    ensures resp.Error? && o.Failed? ==> resp.message.Some?
  {
    CodeOperationReadsSuffix(OpName(r), o.Failed? || IsSync(r));
    match o
    case Returned(v) =>
      (match v
       case Unit => Success(Null)
       case Attribution(a) => Success(AttributionPayload(a))
       case Flag(f) => Success(Bool(f)))
    case Failed(msg) =>
      Error(OpName(r) + FailedSuffix, Some(msg.GetOr(FallbackMessage(r))))
    case Threw(msg) =>
      Error(OpName(r) + (if IsSync(r) then FailedSuffix else ExceptionSuffix), msg)
    case NoInstance(msg) =>
      Error(OpName(r) + (if IsSync(r) then FailedSuffix else ExceptionSuffix), msg)
  }

  // ---------------------------------------------------------------------------
  // One call, start to finish
  // ---------------------------------------------------------------------------

  /** The handle after a call: `initNativeSDK` stores the instance as soon as
      `getInstance()` returns, before configuring or initialising it. */
  function Next(s: State, name: string, args: Value, o: NativeOutcome, enums: PaymentEnums): (t: State)
    requires AndroidEnums(enums)
    ensures s.hasInstance ==> t.hasInstance
    ensures t.hasInstance && !s.hasInstance ==> name == "init" && !o.NoInstance?
  {
    var d := Dispatch(s, name, args, enums);
    if d.CallNative? && d.request.InitSdk? && !o.NoInstance? then State(true) else s
  }

  /** The outcome `o` must be one the native call of the decision could produce. */
  predicate Admissible(s: State, name: string, args: Value, o: NativeOutcome, enums: PaymentEnums)
    requires AndroidEnums(enums)
  {
    var d := Dispatch(s, name, args, enums);
    d.CallNative? ==> Fits(d.request, o)
  }

  /** The one response a call produces. */
  function Handle(s: State, name: string, args: Value, o: NativeOutcome, enums: PaymentEnums): (resp: Response)
    requires AndroidEnums(enums)
    requires Admissible(s, name, args, o, enums)
    ensures resp.MethodNotImplemented? <==> MethodNamed(name).None?
    ensures name == "isAvailable" ==> resp == Success(Bool(s.hasInstance))
  {
    var d := Dispatch(s, name, args, enums);
    if d.CallNative? then Respond(d.request, o) else Answer(d)
  }
}

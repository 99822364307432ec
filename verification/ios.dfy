/** The iOS bridge (`SwiftLinkrunnerPlugin`): the `handle` dispatch table, the
    `isInitialized` guard in front of most operations, the construction of the
    native request objects, and the translation of native errors into channel
    errors. */
module Ios {
  import opened Channel

  /** The plugin's `isInitialized` flag. */
  datatype State = State(isInitialized: bool)

  const Initial := State(false)

  /** `call.arguments as? [String: Any]`: only a dictionary is a usable bag. */
  function Bag(args: Value): (r: Option<map<string, Value>>)
    ensures r.Some? <==> args.Dict?
  {
    match args
    case Dict(m) => Some(m)
    case _ => None
  }

  // ---------------------------------------------------------------------------
  // Native request objects
  // ---------------------------------------------------------------------------

  /** The arguments of `LinkrunnerSDK.shared.initialize`. */
  datatype InitRequest = InitRequest(
    token: string,
    credentials: Option<Credentials>,   // the secret-key variant of `initialize`
    disableIdfa: Option<bool>,
    debug: bool)

  /** `UserData`; it has no GA session id. */
  datatype UserData = UserData(
    id: string,
    name: Option<string>,
    phone: Option<string>,
    email: Option<string>,
    isFirstTimeUser: Option<bool>,
    userCreatedAt: Option<string>,
    mixPanelDistinctId: Option<string>,
    amplitudeDeviceId: Option<string>,
    posthogDistinctId: Option<string>,
    brazeDeviceId: Option<string>,
    gaAppInstanceId: Option<string>)

  /** One call on the native SDK; enum cases are named by their raw values. */
  datatype Request =
    | InitSdk(init: InitRequest)
    | FetchAttribution
    | SignupUser(user: UserData, additionalData: Option<map<string, Value>>)
    | UpdateUserData(user: UserData)
    | UpdateAdditionalData(integration: IntegrationData)
    | Track(eventName: string, eventData: Option<map<string, Value>>, eventId: Option<string>)
    | Capture(amount: Amount, userId: string, paymentId: Option<string>, paymentType: string, status: string)
    | Remove(removeUserId: string, removePaymentId: Option<string>)
    | SetPIIHashing(enabled: bool)
    | RegisterPushToken(pushToken: string)

  /** The method whose case of `handle` builds a request. */
  function MethodOf(r: Request): Method {
    match r
    case InitSdk(_) => Init
    case FetchAttribution => GetAttributionData
    case SignupUser(_, _) => Signup
    case UpdateUserData(_) => SetUserData
    case UpdateAdditionalData(_) => SetAdditionalData
    case Track(_, _, _) => TrackEvent
    case Capture(_, _, _, _, _) => CapturePayment
    case Remove(_, _) => RemovePayment
    case SetPIIHashing(_) => EnablePIIHashing
    case RegisterPushToken(_) => SetPushToken
  }

  // ---------------------------------------------------------------------------
  // Argument-map conversions
  // ---------------------------------------------------------------------------

  /** The `UserData` that `signup` and `setUserData` both build: every field a
      safe cast of its snake_case key, `id` defaulting to "". */
  function UserFromArgs(m: map<string, Value>): UserData {
    UserData(
      id := StrAt(m, "id").GetOr(""),
      name := StrAt(m, "name"),
      phone := StrAt(m, "phone"),
      email := StrAt(m, "email"),
      isFirstTimeUser := BoolAt(m, "is_first_time_user"),
      userCreatedAt := StrAt(m, "user_created_at"),
      mixPanelDistinctId := StrAt(m, "mixpanel_distinct_id"),
      amplitudeDeviceId := StrAt(m, "amplitude_device_id"),
      posthogDistinctId := StrAt(m, "posthog_distinct_id"),
      brazeDeviceId := StrAt(m, "braze_device_id"),
      gaAppInstanceId := StrAt(m, "ga_app_instance_id"))
  }

  // ---------------------------------------------------------------------------
  // Dispatch
  // ---------------------------------------------------------------------------

  /** The guard at the top of every gated operation. */
  function Gate(s: State, r: Request): (d: Decision<Request>)
    ensures d.CallNative? <==> s.isInitialized
    ensures d.CallNative? ==> d.request == r
    ensures !d.CallNative? ==> d.NotInitialized?
  {
    if s.isInitialized then CallNative(r) else NotInitialized
  }

  /** `handle`. The arguments are checked in `handle` itself, before the
      operation's own `isInitialized` guard runs. */
  function Dispatch(s: State, name: string, args: Value, enums: PaymentEnums): (d: Decision<Request>)
    requires enums.Valid()
    ensures !d.Raises?
    ensures d.NotImplemented? <==>
      name !in {"init", "getAttributionData", "signup", "setUserData", "setAdditionalData", "trackEvent",
                "capturePayment", "removePayment", "isAvailable", "enablePIIHashing", "setPushToken"}
    ensures d.Immediate? <==> name == "isAvailable"
    ensures d.CallNative? ==> Name(MethodOf(d.request)) == name
  {
    match MethodNamed(name)
    case None => NotImplemented
    case Some(m) => Decide(s, m, args, enums)
  }

  function Decide(s: State, m: Method, args: Value, enums: PaymentEnums): (d: Decision<Request>)
    requires enums.Valid()
    ensures d.CallNative? ==> MethodOf(d.request) == m
  {
    var bag := Bag(args);
    match m
    case Init =>
      if bag.Some? && StrAt(bag.value, "token").Some? then
        var a := bag.value;
        var secretKey := StrAt(a, "secretKey");
        var keyId := StrAt(a, "keyId");
        var credentials :=
          if secretKey.Some? && keyId.Some? then Some(Credentials(secretKey.value, keyId.value)) else None;
        CallNative(InitSdk(InitRequest(
          StrAt(a, "token").value, credentials, BoolAt(a, "disableIdfa"), BoolAt(a, "debug").GetOr(false))))
      else InvalidArgument("Token is required")
    case GetAttributionData =>
      Gate(s, FetchAttribution)
    case Signup =>
      if bag.Some? && DictAt(bag.value, "userData").Some? then
        Gate(s, SignupUser(UserFromArgs(DictAt(bag.value, "userData").value), DictAt(bag.value, "data")))
      else InvalidArgument("User data is required")
    case SetUserData =>
      if bag.Some? && DictAt(bag.value, "userData").Some? then
        Gate(s, UpdateUserData(UserFromArgs(DictAt(bag.value, "userData").value)))
      else InvalidArgument("User data is required")
    case SetAdditionalData =>
      if bag.Some? && DictAt(bag.value, "integrationData").Some? then
        Gate(s, UpdateAdditionalData(IntegrationFromArgs(DictAt(bag.value, "integrationData").value)))
      else InvalidArgument("Integration data is required")
    case TrackEvent =>
      if bag.Some? && StrAt(bag.value, "eventName").Some? then
        Gate(s, Track(StrAt(bag.value, "eventName").value, DictAt(bag.value, "eventData"),
                      StrAt(bag.value, "eventId")))
      else InvalidArgument("Event name is required")
    case CapturePayment =>
      if bag.Some? && StrAt(bag.value, "userId").Some? && DoubleAt(bag.value, "amount").Some? then
        var a := bag.value;
        var paymentType := StrAt(a, "type").GetOr("DEFAULT_PAYMENT");
        var status := StrAt(a, "status").GetOr("PAYMENT_COMPLETED");
        Gate(s, Capture(DoubleAt(a, "amount").value, StrAt(a, "userId").value, StrAt(a, "paymentId"),
                        enums.types.Resolve(paymentType), enums.statuses.Resolve(status)))
      else InvalidArgument("User ID and amount are required")
    case RemovePayment =>
      if bag.Some? then
        Gate(s, Remove(StrAt(bag.value, "userId").GetOr(""), StrAt(bag.value, "paymentId")))
      else InvalidArgument("User ID or payment ID is required")
    case IsAvailable =>
      Immediate(Bool(s.isInitialized))
    case EnablePIIHashing =>
      if bag.Some? && BoolAt(bag.value, "enabled").Some? then
        CallNative(SetPIIHashing(BoolAt(bag.value, "enabled").value))
      else InvalidArgument("enabled parameter is required")
    case SetPushToken =>
      if bag.Some? && StrAt(bag.value, "pushToken").Some? then
        Gate(s, RegisterPushToken(StrAt(bag.value, "pushToken").value))
      else InvalidArgument("pushToken parameter is required")
    case SetDisableAaidCollection => NotImplemented
    case IsAaidCollectionDisabled => NotImplemented
  }

  // ---------------------------------------------------------------------------
  // Native outcomes and their translation
  // ---------------------------------------------------------------------------

  /** How an awaited native call ended. */
  datatype NativeOutcome =
    | Completed(result: Value)       // for `getAttributionData`, `toDictionary()` of the data
    | Threw(description: string)     // the error's `localizedDescription`

  /** The operation name the error code of a request starts with; enabling PII
      hashing cannot fail and has none. */
  function OpName(r: Request): (op: string)
    requires !r.SetPIIHashing?
    ensures OperationNamed(op) == Some(MethodOf(r))
  {
    match r
    case InitSdk(_) => "INIT"
    case FetchAttribution => "ATTRIBUTION_DATA"
    case SignupUser(_, _) => "SIGNUP"
    case UpdateUserData(_) => "SET_USER_DATA"
    case UpdateAdditionalData(_) => "SET_ADDITIONAL_DATA"
    case Track(_, _, _) => "TRACK_EVENT"
    case Capture(_, _, _, _, _) => "CAPTURE_PAYMENT"
    case Remove(_, _) => "REMOVE_PAYMENT"
    case RegisterPushToken(_) => "SET_PUSH_TOKEN"
  }

  /** The response for a request given how its native call ended. */
  function Respond(r: Request, o: NativeOutcome): (resp: Response)
    ensures resp.Success? || resp.Error?
    ensures r.SetPIIHashing? ==> resp == Success(Null)
    ensures resp.Error? ==> o.Threw? && !r.SetPIIHashing? && resp.code == OpName(r) + FailedSuffix
    ensures o.Threw? && !r.SetPIIHashing? ==> resp.Error? && resp.message == Some(o.description)
    ensures o.Completed? && r.FetchAttribution? ==> resp == Success(o.result)
    ensures o.Completed? && !r.FetchAttribution? ==> resp == Success(Null)
    ensures resp.Error? ==> CodeOperation(resp.code) == Some(MethodOf(r))
  {
    if r.SetPIIHashing? then Success(Null)
    else
      match o
      case Completed(v) => Success(if r.FetchAttribution? then v else Null)
      case Threw(description) =>
        CodeOperationReadsSuffix(OpName(r), true);
        Error(OpName(r) + FailedSuffix, Some(description))
  }

  // ---------------------------------------------------------------------------
  // One call, start to finish
  // ---------------------------------------------------------------------------

  /** The flag after a call: set once `initialize` returns without throwing. */
  function Next(s: State, name: string, args: Value, o: NativeOutcome, enums: PaymentEnums): (t: State)
    requires enums.Valid()
    ensures s.isInitialized ==> t.isInitialized
    ensures t.isInitialized && !s.isInitialized ==> name == "init" && o.Completed?
  {
    var d := Dispatch(s, name, args, enums);
    if d.CallNative? && d.request.InitSdk? && o.Completed? then State(true) else s
  }

  /** The one response a call produces. */
  function Handle(s: State, name: string, args: Value, o: NativeOutcome, enums: PaymentEnums): (resp: Response)
    requires enums.Valid()
    ensures !resp.HandlerRaised?
    ensures resp.MethodNotImplemented? <==>
      name !in {"init", "getAttributionData", "signup", "setUserData", "setAdditionalData", "trackEvent",
                "capturePayment", "removePayment", "isAvailable", "enablePIIHashing", "setPushToken"}
    ensures name == "isAvailable" ==> resp == Success(Bool(s.isInitialized))
  {
    var d := Dispatch(s, name, args, enums);
    if d.CallNative? then Respond(d.request, o) else Answer(d)
  }
}

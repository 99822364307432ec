/** Values that cross the "linkrunner_native" method channel, the typed reads the
    two bridges make of an argument bag, the method table, and the shapes a call
    can end in. Shared by the Android and the iOS dispatcher. */
module Channel {

  datatype Option<+T> = None | Some(value: T) {
    /** The wrapped value, or `default` when there is none (Kotlin `?:`, Swift `??`). */
    function GetOr(default: T): T {
      match this
      case Some(v) => v
      case None => default
    }
  }

  /** A `Double` the bridges only pass through; no arithmetic is done on it. */
  type Amount = real

  /** A value of the channel's standard codec. */
  datatype Value =
    | Null
    | Bool(b: bool)
    | Int(i: int)
    | Double(d: Amount)
    | Str(s: string)
    | List(items: seq<Value>)
    | Dict(entries: map<string, Value>)

  /** The argument types the bridges ask for. */
  datatype Kind = StrKind | BoolKind | DoubleKind | DictKind

  predicate HasKind(v: Value, k: Kind) {
    match k
    case StrKind => v.Str?
    case BoolKind => v.Bool?
    case DoubleKind => v.Double?
    case DictKind => v.Dict?
  }

  /** A safe cast (`m[key] as? String`): a missing key, a null or a value of
      another type all read as absent. */
  function StrAt(m: map<string, Value>, key: string): (r: Option<string>)
    ensures r.Some? <==> key in m && m[key].Str?
    ensures r.Some? ==> m[key] == Str(r.value)
  {
    if key in m && m[key].Str? then Some(m[key].s) else None
  }

  function BoolAt(m: map<string, Value>, key: string): (r: Option<bool>)
    ensures r.Some? <==> key in m && m[key].Bool?
    ensures r.Some? ==> m[key] == Bool(r.value)
  {
    if key in m && m[key].Bool? then Some(m[key].b) else None
  }

  function DoubleAt(m: map<string, Value>, key: string): (r: Option<Amount>)
    ensures r.Some? <==> key in m && m[key].Double?
    ensures r.Some? ==> m[key] == Double(r.value)
  {
    if key in m && m[key].Double? then Some(m[key].d) else None
  }

  function DictAt(m: map<string, Value>, key: string): (r: Option<map<string, Value>>)
    ensures r.Some? <==> key in m && m[key].Dict?
    ensures r.Some? ==> m[key] == Dict(r.value)
  {
    if key in m && m[key].Dict? then Some(m[key].entries) else None
  }

  /** A nullable string as it is put into a result map. */
  function Nullable(o: Option<string>): Value {
    match o
    case None => Null
    case Some(s) => Str(s)
  }

  /** The secret-key pair of the authenticated `init` variant. */
  datatype Credentials = Credentials(secretKey: string, keyId: string)

  /** `IntegrationData`, which both bridges build the same way. */
  datatype IntegrationData = IntegrationData(clevertapId: Option<string>)

  /** The conversion `setAdditionalData` makes on both platforms: the CleverTap
      id is a safe cast of the `clevertap_id` entry, every other key ignored. */
  function IntegrationFromArgs(m: map<string, Value>): (r: IntegrationData)
    ensures r.clevertapId.Some? <==> "clevertap_id" in m && m["clevertap_id"].Str?
    ensures r.clevertapId.Some? ==> m["clevertap_id"] == Str(r.clevertapId.value)
  {
    IntegrationData(StrAt(m, "clevertap_id"))
  }

  /** The argument map that describes integration data. */
  function IntegrationArgs(i: IntegrationData): map<string, Value> {
    match i.clevertapId
    case None => map[]
    case Some(id) => map["clevertap_id" := Str(id)]
  }

  /** Writing integration data out and converting it back loses nothing, and
      converting a map only ever looks at its `clevertap_id` entry. */
  lemma IntegrationRoundTrip(i: IntegrationData, m: map<string, Value>, key: string, v: Value)
    requires key != "clevertap_id"
    ensures IntegrationFromArgs(IntegrationArgs(i)) == i
    ensures IntegrationFromArgs(m[key := v]) == IntegrationFromArgs(m)
  {
  }

  /** Every method name either bridge knows; each platform answers a subset. */
  datatype Method =
    | Init
    | GetAttributionData
    | Signup
    | SetUserData
    | SetAdditionalData
    | TrackEvent
    | CapturePayment
    | RemovePayment
    | IsAvailable
    | EnablePIIHashing
    | SetPushToken
    | SetDisableAaidCollection
    | IsAaidCollectionDisabled

  /** The name a method is called by over the channel. */
  function Name(m: Method): string {
    match m
    case Init => "init"
    case GetAttributionData => "getAttributionData"
    case Signup => "signup"
    case SetUserData => "setUserData"
    case SetAdditionalData => "setAdditionalData"
    case TrackEvent => "trackEvent"
    case CapturePayment => "capturePayment"
    case RemovePayment => "removePayment"
    case IsAvailable => "isAvailable"
    case EnablePIIHashing => "enablePIIHashing"
    case SetPushToken => "setPushToken"
    case SetDisableAaidCollection => "setDisableAaidCollection"
    case IsAaidCollectionDisabled => "isAaidCollectionDisabled"
  }

  /** Recognises a method name; `None` for a name neither bridge knows. */
  function MethodNamed(name: string): (r: Option<Method>)
    ensures r.Some? ==> Name(r.value) == name
    ensures r.None? <==> forall m: Method :: Name(m) != name
  {
    match name
    case "init" => Some(Init)
    case "getAttributionData" => Some(GetAttributionData)
    case "signup" => Some(Signup)
    case "setUserData" => Some(SetUserData)
    case "setAdditionalData" => Some(SetAdditionalData)
    case "trackEvent" => Some(TrackEvent)
    case "capturePayment" => Some(CapturePayment)
    case "removePayment" => Some(RemovePayment)
    case "isAvailable" => Some(IsAvailable)
    case "enablePIIHashing" => Some(EnablePIIHashing)
    case "setPushToken" => Some(SetPushToken)
    case "setDisableAaidCollection" => Some(SetDisableAaidCollection)
    case "isAaidCollectionDisabled" => Some(IsAaidCollectionDisabled)
    case _ => None
  }

  /** Names and methods correspond one to one. */
  lemma NameRoundTrip(m: Method)
    ensures MethodNamed(Name(m)) == Some(m)
  {
  }

  /** What a dispatcher decides from the method name, the argument bag and its
      own state, before any native code runs. */
  datatype Decision<+R> =
    | InvalidArgument(message: string)   // a required argument is missing or unusable
    | NotInitialized                     // the operation needs a prior successful init
    | NotImplemented                     // the method is not in the dispatch table
    | Raises                             // the handler throws before it answers
    | Immediate(payload: Value)          // answered from local state alone
    | CallNative(request: R)             // hand this request to the native SDK

  /** The one answer a call produces. */
  datatype Response =
    | Success(payload: Value)
    | Error(code: string, message: Option<string>)
    | MethodNotImplemented
    | HandlerRaised   // the handler threw; the plugin itself sends nothing

  const InvalidArgumentCode := "INVALID_ARGUMENT"
  const NotInitializedCode := "NOT_INITIALIZED"
  const NotInitializedMessage := "SDK not initialized"

  /** The answer to a decision that needs no native call. */
  function Answer<R>(d: Decision<R>): (r: Response)
    requires !d.CallNative?
    ensures d.InvalidArgument? <==> r.Error? && r.code == InvalidArgumentCode
    ensures d.NotImplemented? <==> r.MethodNotImplemented?
    ensures d.Raises? <==> r.HandlerRaised?
    ensures d.Immediate? <==> r.Success?
  {
    match d
    case InvalidArgument(msg) => Error(InvalidArgumentCode, Some(msg))
    case NotInitialized => Error(NotInitializedCode, Some(NotInitializedMessage))
    case NotImplemented => MethodNotImplemented
    case Raises => HandlerRaised
    case Immediate(p) => Success(p)
  }

  /** The constants of a native enumeration, by the string the bridge matches
      against, and the constant it falls back to when nothing matches. */
  datatype EnumCatalog = EnumCatalog(names: set<string>, fallback: string) {
    predicate Valid() {
      fallback in names
    }

    /** `valueOf(raw)` / `init(rawValue:)` with the fallback substituted on no match. */
    function Resolve(raw: string): (r: string)
      requires Valid()
      ensures r in names
      ensures r == raw || r == fallback
    {
      if raw in names then raw else fallback
    }
  }

  /** The payment type and payment status enumerations of a native SDK. */
  datatype PaymentEnums = PaymentEnums(types: EnumCatalog, statuses: EnumCatalog) {
    predicate Valid() {
      types.Valid() && statuses.Valid()
    }
  }

  /** Reads back the operation name an error code starts with. */
  function OperationNamed(op: string): Option<Method> {
    match op
    case "INIT" => Some(Init)
    case "ATTRIBUTION_DATA" => Some(GetAttributionData)
    case "SIGNUP" => Some(Signup)
    case "SET_USER_DATA" => Some(SetUserData)
    case "SET_ADDITIONAL_DATA" => Some(SetAdditionalData)
    case "TRACK_EVENT" => Some(TrackEvent)
    case "CAPTURE_PAYMENT" => Some(CapturePayment)
    case "REMOVE_PAYMENT" => Some(RemovePayment)
    case "ENABLE_PII_HASHING" => Some(EnablePIIHashing)
    case "SET_PUSH_TOKEN" => Some(SetPushToken)
    case "SET_DISABLE_AAID" => Some(SetDisableAaidCollection)
    case "IS_AAID_COLLECTION_DISABLED" => Some(IsAaidCollectionDisabled)
    case _ => None
  }

  /** Error codes are an operation name followed by a fixed suffix. */
  const FailedSuffix := "_FAILED"
  const ExceptionSuffix := "_EXCEPTION"

  /** Reads the operation back out of an error code: the code minus its
      `_FAILED` or `_EXCEPTION` suffix, looked up in the operation names. */
  function CodeOperation(code: string): Option<Method> {
    if |code| >= |FailedSuffix| && code[|code| - |FailedSuffix|..] == FailedSuffix then
      OperationNamed(code[..|code| - |FailedSuffix|])
    else if |code| >= |ExceptionSuffix| && code[|code| - |ExceptionSuffix|..] == ExceptionSuffix then
      OperationNamed(code[..|code| - |ExceptionSuffix|])
    else None
  }

  /** An operation name followed by either suffix reads back as that name. */
  lemma {:induction false} CodeOperationReadsSuffix(op: string, failed: bool)
    ensures CodeOperation(op + (if failed then FailedSuffix else ExceptionSuffix)) == OperationNamed(op)
  {
    var suffix := if failed then FailedSuffix else ExceptionSuffix;
    var code := op + suffix;
    assert code[..|op|] == op;
    assert code[|op|..] == suffix;
    if !failed {
      assert code[|code| - 1] == 'N';
      assert code[|code| - |FailedSuffix|..][|FailedSuffix| - 1] == 'N';
    }
  }

  /** A common suffix can be cancelled. */
  lemma {:induction false} SuffixCancels(a: string, b: string, suffix: string)
    requires a + suffix == b + suffix
    ensures a == b
  {
    assert |a| == |b|;
    assert a == (a + suffix)[..|a|];
    assert b == (b + suffix)[..|b|];
  }

  /** An "_EXCEPTION" code is never a "_FAILED" code. */
  lemma SuffixesDiffer(a: string, b: string)
    ensures a + FailedSuffix != b + ExceptionSuffix
  {
    var x := a + FailedSuffix;
    var y := b + ExceptionSuffix;
    assert x[|x| - 1] == 'D';
    assert y[|y| - 1] == 'N';
  }
}

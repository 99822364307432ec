/** Properties of the Android bridge: the dispatch table against an
    independent statement of each method's parameters, the conversions against
    their inverses, the error codes, and the life of the instance handle. */
module AndroidProofs {
  import opened Channel
  import opened Android

  // ---------------------------------------------------------------------------
  // The dispatch table, stated as data
  // ---------------------------------------------------------------------------

  /** One argument a branch of `onMethodCall` reads. */
  datatype Param = Param(key: string, kind: Kind, required: bool)

  /** Every argument each method reads, and which of them it insists on. */
  function Params(m: Method): set<Param> {
    match m
    case Init =>
      {Param("token", StrKind, true), Param("secretKey", StrKind, false), Param("keyId", StrKind, false),
       Param("debug", BoolKind, false), Param("platform", StrKind, false),
       Param("packageVersion", StrKind, false)}
    case Signup => {Param("userData", DictKind, true), Param("data", DictKind, false)}
    case SetUserData => {Param("userData", DictKind, true)}
    case SetAdditionalData => {Param("IntegrationData", DictKind, true)}
    case TrackEvent =>
      {Param("eventName", StrKind, true), Param("eventData", DictKind, false), Param("eventId", StrKind, false)}
    case CapturePayment =>
      {Param("userId", StrKind, true), Param("amount", DoubleKind, true), Param("paymentId", StrKind, false),
       Param("type", StrKind, false), Param("status", StrKind, false)}
    case RemovePayment => {Param("userId", StrKind, false), Param("paymentId", StrKind, false)}
    case EnablePIIHashing => {Param("enabled", BoolKind, true)}
    case SetPushToken => {Param("pushToken", StrKind, true)}
    case SetDisableAaidCollection => {Param("disabled", BoolKind, true)}
    case _ => {}
  }

  /** The `INVALID_ARGUMENT` message of a method whose required argument is missing. */
  function MissingMessage(m: Method): string {
    match m
    case Init => "Token is required"
    case Signup => "User data is required"
    case SetUserData => "User data is required"
    case SetAdditionalData => "Integration data is required"
    case TrackEvent => "Event name is required"
    case CapturePayment => "User ID and amount are required"
    case EnablePIIHashing => "enabled parameter is required"
    case SetPushToken => "pushToken parameter is required"
    case SetDisableAaidCollection => "disabled parameter is required"
    case _ => ""
  }

  /** Some argument the method reads is present with the wrong type. */
  predicate CastFails(args: Value, m: Method) {
    exists p :: p in Params(m) && Arg(args, p.key, p.kind).Mismatch?
  }

  /** Some argument the method insists on is missing or null. */
  predicate LacksRequired(args: Value, m: Method) {
    exists p :: p in Params(m) && p.required && Arg(args, p.key, p.kind).Absent?
  }

  /** The four facts `DispatchFollowsTable` states, for one branch. */
  predicate FollowsTable(d: Decision<Request>, m: Method, args: Value) {
    && (d.Raises? <==> CastFails(args, m))
    && (!CastFails(args, m) && LacksRequired(args, m) ==> d == InvalidArgument(MissingMessage(m)))
    && (d.CallNative? ==> !CastFails(args, m) && !LacksRequired(args, m))
    && (!CastFails(args, m) && !LacksRequired(args, m) ==>
          d.CallNative? || m == IsAvailable
          || (m == SetPushToken && d == InvalidArgument("Push token cannot be empty")))
  }

  /** `onMethodCall` follows the table: a failing cast throws; otherwise a
      missing required argument is `INVALID_ARGUMENT` with the method's message;
      otherwise the native SDK is called, except for `isAvailable`, answered
      from the handle, and a blank push token. In particular no native call
      is made unless every required argument is present with its type. */
  lemma {:induction false} DispatchFollowsTable(s: State, m: Method, args: Value, enums: PaymentEnums)
    requires AndroidEnums(enums)
    ensures FollowsTable(Dispatch(s, Name(m), args, enums), m, args)
  {
    NameRoundTrip(m);
    assert Dispatch(s, Name(m), args, enums) == Decide(s, m, args, enums);
    match m
    case Init => InitFollowsTable(s, args, enums);
    case CapturePayment => CaptureFollowsTable(s, args, enums);
    case Signup => SignupFollowsTable(s, args, enums);
    case TrackEvent => TrackFollowsTable(s, args, enums);
    case RemovePayment => RemoveFollowsTable(s, args, enums);
    case SetUserData => SetUserDataFollowsTable(s, args, enums);
    case SetAdditionalData => SetAdditionalDataFollowsTable(s, args, enums);
    case EnablePIIHashing => EnablePIIHashingFollowsTable(s, args, enums);
    case SetPushToken => SetPushTokenFollowsTable(s, args, enums);
    case SetDisableAaidCollection => SetDisableAaidCollectionFollowsTable(s, args, enums);
    case GetAttributionData =>
    case IsAvailable =>
    case IsAaidCollectionDisabled =>
  }

  /** A method that reads one argument, which it requires, fails its cast or
      lacks its argument exactly when that one read does. */
  lemma SingleParam(m: Method, key: string, kind: Kind, args: Value)
    requires Params(m) == {Param(key, kind, true)}
    ensures CastFails(args, m) <==> Arg(args, key, kind).Mismatch?
    ensures LacksRequired(args, m) <==> Arg(args, key, kind).Absent?
  {
    if Arg(args, key, kind).Mismatch? || Arg(args, key, kind).Absent? {
      assert Param(key, kind, true) in Params(m);
    }
  }

  lemma SetUserDataFollowsTable(s: State, args: Value, enums: PaymentEnums)
    requires AndroidEnums(enums)
    ensures FollowsTable(Decide(s, SetUserData, args, enums), SetUserData, args)
  {
    SingleParam(SetUserData, "userData", DictKind, args);
  }

  lemma SetAdditionalDataFollowsTable(s: State, args: Value, enums: PaymentEnums)
    requires AndroidEnums(enums)
    ensures FollowsTable(Decide(s, SetAdditionalData, args, enums), SetAdditionalData, args)
  {
    SingleParam(SetAdditionalData, "IntegrationData", DictKind, args);
  }

  lemma EnablePIIHashingFollowsTable(s: State, args: Value, enums: PaymentEnums)
    requires AndroidEnums(enums)
    ensures FollowsTable(Decide(s, EnablePIIHashing, args, enums), EnablePIIHashing, args)
  {
    SingleParam(EnablePIIHashing, "enabled", BoolKind, args);
  }

  lemma SetPushTokenFollowsTable(s: State, args: Value, enums: PaymentEnums)
    requires AndroidEnums(enums)
    ensures FollowsTable(Decide(s, SetPushToken, args, enums), SetPushToken, args)
  {
    SingleParam(SetPushToken, "pushToken", StrKind, args);
  }

  lemma SetDisableAaidCollectionFollowsTable(s: State, args: Value, enums: PaymentEnums)
    requires AndroidEnums(enums)
    ensures FollowsTable(Decide(s, SetDisableAaidCollection, args, enums), SetDisableAaidCollection, args)
  {
    SingleParam(SetDisableAaidCollection, "disabled", BoolKind, args);
  }

  lemma InitFollowsTable(s: State, args: Value, enums: PaymentEnums)
    requires AndroidEnums(enums)
    ensures FollowsTable(Decide(s, Init, args, enums), Init, args)
  {
    var ps := Params(Init);
    var token := Param("token", StrKind, true);
    var secretKey := Param("secretKey", StrKind, false);
    var keyId := Param("keyId", StrKind, false);
    var debug := Param("debug", BoolKind, false);
    var platform := Param("platform", StrKind, false);
    var version := Param("packageVersion", StrKind, false);
    assert ps == {token, secretKey, keyId, debug, platform, version};
    assert CastFails(args, Init) <==>
      Arg(args, token.key, token.kind).Mismatch? || Arg(args, secretKey.key, secretKey.kind).Mismatch?
      || Arg(args, keyId.key, keyId.kind).Mismatch? || Arg(args, debug.key, debug.kind).Mismatch?
      || Arg(args, platform.key, platform.kind).Mismatch? || Arg(args, version.key, version.kind).Mismatch?;
    assert LacksRequired(args, Init) <==> Arg(args, token.key, token.kind).Absent? by {
      if Arg(args, token.key, token.kind).Absent? { assert token in ps; }
    }
  }

  lemma CaptureFollowsTable(s: State, args: Value, enums: PaymentEnums)
    requires AndroidEnums(enums)
    ensures FollowsTable(Decide(s, CapturePayment, args, enums), CapturePayment, args)
  {
    var ps := Params(CapturePayment);
    var userId := Param("userId", StrKind, true);
    var amount := Param("amount", DoubleKind, true);
    var paymentId := Param("paymentId", StrKind, false);
    var paymentType := Param("type", StrKind, false);
    var status := Param("status", StrKind, false);
    assert ps == {userId, amount, paymentId, paymentType, status};
    assert CastFails(args, CapturePayment) <==>
      Arg(args, userId.key, userId.kind).Mismatch? || Arg(args, amount.key, amount.kind).Mismatch?
      || Arg(args, paymentId.key, paymentId.kind).Mismatch? || Arg(args, paymentType.key, paymentType.kind).Mismatch?
      || Arg(args, status.key, status.kind).Mismatch?;
    assert LacksRequired(args, CapturePayment) <==>
      Arg(args, userId.key, userId.kind).Absent? || Arg(args, amount.key, amount.kind).Absent?;
  }

  lemma SignupFollowsTable(s: State, args: Value, enums: PaymentEnums)
    requires AndroidEnums(enums)
    ensures FollowsTable(Decide(s, Signup, args, enums), Signup, args)
  {
    var userData := Param("userData", DictKind, true);
    var data := Param("data", DictKind, false);
    assert Params(Signup) == {userData, data};
    assert CastFails(args, Signup) <==>
      Arg(args, userData.key, userData.kind).Mismatch? || Arg(args, data.key, data.kind).Mismatch?;
    assert LacksRequired(args, Signup) <==> Arg(args, userData.key, userData.kind).Absent? by {
      if Arg(args, userData.key, userData.kind).Absent? { assert userData in Params(Signup); }
    }
  }

  lemma TrackFollowsTable(s: State, args: Value, enums: PaymentEnums)
    requires AndroidEnums(enums)
    ensures FollowsTable(Decide(s, TrackEvent, args, enums), TrackEvent, args)
  {
    var eventName := Param("eventName", StrKind, true);
    var eventData := Param("eventData", DictKind, false);
    var eventId := Param("eventId", StrKind, false);
    assert Params(TrackEvent) == {eventName, eventData, eventId};
    assert CastFails(args, TrackEvent) <==>
      Arg(args, eventName.key, eventName.kind).Mismatch? || Arg(args, eventData.key, eventData.kind).Mismatch?
      || Arg(args, eventId.key, eventId.kind).Mismatch?;
    assert LacksRequired(args, TrackEvent) <==> Arg(args, eventName.key, eventName.kind).Absent? by {
      if Arg(args, eventName.key, eventName.kind).Absent? { assert eventName in Params(TrackEvent); }
    }
  }

  lemma RemoveFollowsTable(s: State, args: Value, enums: PaymentEnums)
    requires AndroidEnums(enums)
    ensures FollowsTable(Decide(s, RemovePayment, args, enums), RemovePayment, args)
  {
    var userId := Param("userId", StrKind, false);
    var paymentId := Param("paymentId", StrKind, false);
    assert Params(RemovePayment) == {userId, paymentId};
    assert CastFails(args, RemovePayment) <==>
      Arg(args, userId.key, userId.kind).Mismatch? || Arg(args, paymentId.key, paymentId.kind).Mismatch?;
    assert !LacksRequired(args, RemovePayment);
  }

  /** Any name outside the table is answered "not implemented", never a
      success or an error, and leaves the handle alone. */
  lemma UnknownMethodNotImplemented(s: State, name: string, args: Value, o: NativeOutcome, enums: PaymentEnums)
    requires AndroidEnums(enums)
    requires forall m: Method :: Name(m) != name
    ensures Admissible(s, name, args, o, enums)
    ensures Handle(s, name, args, o, enums) == MethodNotImplemented
    ensures Next(s, name, args, o, enums) == s
  {
  }

  /** A push token that is present but blank is rejected before any native
      call; any other string token goes to the native SDK unchanged. */
  lemma PushTokenBlankCheck(s: State, entries: map<string, Value>, token: string, enums: PaymentEnums)
    requires AndroidEnums(enums)
    requires "pushToken" in entries && entries["pushToken"] == Str(token)
    ensures IsBlank(token) ==>
      Dispatch(s, "setPushToken", Dict(entries), enums) == InvalidArgument("Push token cannot be empty")
    ensures !IsBlank(token) ==>
      Dispatch(s, "setPushToken", Dict(entries), enums) == CallNative(RegisterPushToken(token))
  {
  }

  /** `capturePayment`: a missing payment id becomes "", and the type and
      status are the named constants when they name one and `DEFAULT` /
      `PAYMENT_COMPLETED` otherwise, whether absent or unrecognised. */
  lemma CapturePaymentDefaults(s: State, entries: map<string, Value>, enums: PaymentEnums)
    requires AndroidEnums(enums)
    requires !CastFails(Dict(entries), CapturePayment) && !LacksRequired(Dict(entries), CapturePayment)
    ensures var d := Dispatch(s, "capturePayment", Dict(entries), enums);
      && d.CallNative? && d.request.Capture?
      && var r := d.request.payment;
      && Some(r.userId) == StrAt(entries, "userId")
      && Some(r.amount) == DoubleAt(entries, "amount")
      && r.paymentId == StrAt(entries, "paymentId").GetOr("")
      && (var t := StrAt(entries, "type");
          r.paymentType == if t.Some? && t.value in enums.types.names then t.value else "DEFAULT")
      && (var st := StrAt(entries, "status");
          r.status == if st.Some? && st.value in enums.statuses.names then st.value else "PAYMENT_COMPLETED")
  {
    DispatchFollowsTable(s, CapturePayment, Dict(entries), enums);
    var ps := Params(CapturePayment);
    assert !Arg(Dict(entries), "userId", StrKind).Absent? by { assert Param("userId", StrKind, true) in ps; }
    assert !Arg(Dict(entries), "amount", DoubleKind).Absent? by { assert Param("amount", DoubleKind, true) in ps; }
    assert !Arg(Dict(entries), "type", StrKind).Mismatch? by { assert Param("type", StrKind, false) in ps; }
    assert !Arg(Dict(entries), "status", StrKind).Mismatch? by { assert Param("status", StrKind, false) in ps; }
    assert !Arg(Dict(entries), "paymentId", StrKind).Mismatch? by {
      assert Param("paymentId", StrKind, false) in ps;
    }
    assert !Arg(Dict(entries), "userId", StrKind).Mismatch? by { assert Param("userId", StrKind, true) in ps; }
    assert !Arg(Dict(entries), "amount", DoubleKind).Mismatch? by {
      assert Param("amount", DoubleKind, true) in ps;
    }
  }

  /** `init` picks the secret-key variant exactly when both `secretKey` and
      `keyId` are strings, and tags the SDK with "FLUTTER" and "unknown" when no
      platform or package version is given. */
  lemma InitRequestShape(s: State, entries: map<string, Value>, enums: PaymentEnums)
    requires AndroidEnums(enums)
    requires !CastFails(Dict(entries), Init) && !LacksRequired(Dict(entries), Init)
    ensures var d := Dispatch(s, "init", Dict(entries), enums);
      && d.CallNative? && d.request.InitSdk?
      && var r := d.request.init;
      && Some(r.token) == StrAt(entries, "token")
      && (r.credentials.Some? <==> StrAt(entries, "secretKey").Some? && StrAt(entries, "keyId").Some?)
      && (r.credentials.Some? ==>
            Some(r.credentials.value.secretKey) == StrAt(entries, "secretKey")
            && Some(r.credentials.value.keyId) == StrAt(entries, "keyId"))
      && r.debug == BoolAt(entries, "debug").GetOr(false)
      && r.platform == StrAt(entries, "platform").GetOr("FLUTTER")
      && r.version == StrAt(entries, "packageVersion").GetOr("unknown")
  {
    DispatchFollowsTable(s, Init, Dict(entries), enums);
    var ps := Params(Init);
    assert !Arg(Dict(entries), "token", StrKind).Absent? by { assert Param("token", StrKind, true) in ps; }
    assert !Arg(Dict(entries), "secretKey", StrKind).Mismatch? by { assert Param("secretKey", StrKind, false) in ps; }
    assert !Arg(Dict(entries), "keyId", StrKind).Mismatch? by { assert Param("keyId", StrKind, false) in ps; }
    assert !Arg(Dict(entries), "debug", BoolKind).Mismatch? by { assert Param("debug", BoolKind, false) in ps; }
    assert !Arg(Dict(entries), "platform", StrKind).Mismatch? by { assert Param("platform", StrKind, false) in ps; }
    assert !Arg(Dict(entries), "packageVersion", StrKind).Mismatch? by {
      assert Param("packageVersion", StrKind, false) in ps;
    }
  }

  // ---------------------------------------------------------------------------
  // What each request carries
  // ---------------------------------------------------------------------------

  /** An optional argument the branch reads: missing, null or of its type. */
  predicate Optional(entries: map<string, Value>, key: string, kind: Kind) {
    key !in entries || entries[key].Null? || HasKind(entries[key], kind)
  }

  /** `signup` hands the converted `userData` map and the `data` map, if any, to
      the native SDK. */
  lemma SignupRequest(s: State, entries: map<string, Value>, enums: PaymentEnums)
    requires AndroidEnums(enums)
    requires "userData" in entries && entries["userData"].Dict? && Optional(entries, "data", DictKind)
    ensures Dispatch(s, "signup", Dict(entries), enums)
      == CallNative(SignupUser(UserFromArgs(entries["userData"].entries), DictAt(entries, "data")))
  {
  }

  /** `setUserData` hands the converted `userData` map to the native SDK. */
  lemma SetUserDataRequest(s: State, entries: map<string, Value>, enums: PaymentEnums)
    requires AndroidEnums(enums)
    requires "userData" in entries && entries["userData"].Dict?
    ensures Dispatch(s, "setUserData", Dict(entries), enums)
      == CallNative(UpdateUserData(UserFromArgs(entries["userData"].entries)))
  {
  }

  /** `setAdditionalData` converts the `IntegrationData` map (capital I). */
  lemma SetAdditionalDataRequest(s: State, entries: map<string, Value>, enums: PaymentEnums)
    requires AndroidEnums(enums)
    requires "IntegrationData" in entries && entries["IntegrationData"].Dict?
    ensures Dispatch(s, "setAdditionalData", Dict(entries), enums)
      == CallNative(UpdateAdditionalData(IntegrationFromArgs(entries["IntegrationData"].entries)))
  {
  }

  /** `trackEvent` passes the name, the event data and the event id as read. */
  lemma TrackEventRequest(s: State, entries: map<string, Value>, enums: PaymentEnums)
    requires AndroidEnums(enums)
    requires "eventName" in entries && entries["eventName"].Str?
    requires Optional(entries, "eventData", DictKind) && Optional(entries, "eventId", StrKind)
    ensures Dispatch(s, "trackEvent", Dict(entries), enums)
      == CallNative(Track(entries["eventName"].s, DictAt(entries, "eventData"), StrAt(entries, "eventId")))
  {
  }

  /** `removePayment` checks neither id and passes both, each possibly null. */
  lemma RemovePaymentPassesIds(s: State, entries: map<string, Value>, enums: PaymentEnums)
    requires AndroidEnums(enums)
    requires Optional(entries, "userId", StrKind) && Optional(entries, "paymentId", StrKind)
    ensures var d := Dispatch(s, "removePayment", Dict(entries), enums);
      && d.CallNative? && d.request.Remove?
      && d.request.removal.userId == StrAt(entries, "userId")
      && d.request.removal.paymentId == StrAt(entries, "paymentId")
  {
  }

  /** The two flag setters pass their boolean unchanged. */
  lemma FlagRequests(s: State, entries: map<string, Value>, enums: PaymentEnums)
    requires AndroidEnums(enums)
    ensures "enabled" in entries && entries["enabled"].Bool? ==>
      Dispatch(s, "enablePIIHashing", Dict(entries), enums) == CallNative(SetPIIHashing(entries["enabled"].b))
    ensures "disabled" in entries && entries["disabled"].Bool? ==>
      Dispatch(s, "setDisableAaidCollection", Dict(entries), enums)
        == CallNative(SetAaidCollectionDisabled(entries["disabled"].b))
  {
  }

  /** `isBlank` holds of a concatenation iff it holds of both parts: a token
      is rejected exactly when every piece of it is whitespace. */
  lemma BlankConcat(a: string, b: string)
    ensures IsBlank(a + b) <==> IsBlank(a) && IsBlank(b)
  {
    if IsBlank(a + b) {
      forall i | 0 <= i < |a| ensures IsWhitespace(a[i]) {
        assert (a + b)[i] == a[i];
      }
      forall i | 0 <= i < |b| ensures IsWhitespace(b[i]) {
        assert (a + b)[|a| + i] == b[i];
      }
    }
  }

  // ---------------------------------------------------------------------------
  // User data: the conversion against its inverse
  // ---------------------------------------------------------------------------

  /** The snake_case keys `convertToNativeUserData` looks at. */
  const UserKeys: set<string> :=
    {"id", "name", "email", "phone", "mixpanel_distinct_id", "amplitude_device_id",
     "posthog_distinct_id", "braze_device_id", "ga_app_instance_id", "ga_session_id",
     "user_created_at", "is_first_time_user"}

  function UserKind(key: string): Kind {
    if key == "is_first_time_user" then BoolKind else StrKind
  }

  /** The value a user field holds, as it appears in an argument map; null
      when the field is unset or the key is not a user field. */
  function UserField(u: UserDataRequest, key: string): Value {
    match key
    case "id" => Str(u.id)
    case "name" => Nullable(u.name)
    case "email" => Nullable(u.email)
    case "phone" => Nullable(u.phone)
    case "mixpanel_distinct_id" => Nullable(u.mixpanelDistinctId)
    case "amplitude_device_id" => Nullable(u.amplitudeDeviceId)
    case "posthog_distinct_id" => Nullable(u.posthogDistinctId)
    case "braze_device_id" => Nullable(u.brazeDeviceId)
    case "ga_app_instance_id" => Nullable(u.gaAppInstanceId)
    case "ga_session_id" => Nullable(u.gaSessionId)
    case "user_created_at" => Nullable(u.userCreatedAt)
    case "is_first_time_user" =>
      (match u.isFirstTimeUser
       case None => Null
       case Some(b) => Bool(b))
    case _ => Null
  }

  /** The argument map that describes a user: the inverse of `UserFromArgs`. */
  function UserArgs(u: UserDataRequest): map<string, Value> {
    map k | k in UserKeys && !UserField(u, k).Null? :: UserField(u, k)
  }

  /** The part of an argument map the conversion can see: the known keys that
      carry a value of their type, with `id` always present. */
  function TypedUserArgs(m: map<string, Value>): map<string, Value> {
    (map k | k in m && k in UserKeys && HasKind(m[k], UserKind(k)) :: m[k])["id" := Str(StrAt(m, "id").GetOr(""))]
  }

  /** Converting a user to its argument map and back loses nothing. */
  lemma UserRoundTrip(u: UserDataRequest)
    ensures UserFromArgs(UserArgs(u)) == u
  {
  }

  /** Converting an argument map and writing it back yields exactly its typed
      part: every field is the value when it has the expected type and unset
      otherwise, `id` defaults to "", and every other key is dropped. */
  lemma {:induction false} UserConversionKeepsTypedPart(m: map<string, Value>)
    ensures UserArgs(UserFromArgs(m)) == TypedUserArgs(m)
  {
    var u := UserFromArgs(m);
    var l := UserArgs(u);
    var r := TypedUserArgs(m);
    forall k | k in UserKeys
      ensures k in l <==> k in r
      ensures k in l ==> l[k] == r[k]
    {
      ConvertedField(m, k);
    }
    assert l.Keys <= UserKeys;
    assert r.Keys <= UserKeys;
  }

  /** One field of a converted map: the entry when it has the field's type,
      "" for a missing or mistyped `id`, and null otherwise. */
  lemma ConvertedField(m: map<string, Value>, k: string)
    requires k in UserKeys
    ensures UserField(UserFromArgs(m), k) ==
      if k in m && HasKind(m[k], UserKind(k)) then m[k] else if k == "id" then Str("") else Null
  {
    if k in {"id", "name", "email", "phone", "mixpanel_distinct_id", "amplitude_device_id"} {
      ConvertedFieldFirst(m, k);
    } else {
      ConvertedFieldSecond(m, k);
    }
  }

  lemma ConvertedFieldFirst(m: map<string, Value>, k: string)
    requires k in {"id", "name", "email", "phone", "mixpanel_distinct_id", "amplitude_device_id"}
    ensures UserField(UserFromArgs(m), k) ==
      if k in m && HasKind(m[k], UserKind(k)) then m[k] else if k == "id" then Str("") else Null
  {
    if k == "id" {
    } else if k == "name" {
    } else if k == "email" {
    } else if k == "phone" {
    } else if k == "mixpanel_distinct_id" {
    } else if k == "amplitude_device_id" {
    } else {
      assert false;
    }
  }

  lemma ConvertedFieldSecond(m: map<string, Value>, k: string)
    requires k in {"posthog_distinct_id", "braze_device_id", "ga_app_instance_id", "ga_session_id", "user_created_at", "is_first_time_user"}
    ensures UserField(UserFromArgs(m), k) ==
      if k in m && HasKind(m[k], UserKind(k)) then m[k] else if k == "id" then Str("") else Null
  {
    if k == "posthog_distinct_id" {
    } else if k == "braze_device_id" {
    } else if k == "ga_app_instance_id" {
    } else if k == "ga_session_id" {
    } else if k == "user_created_at" {
    } else if k == "is_first_time_user" {
    } else {
      assert false;
    }
  }

  /** Keys outside the fixed set do not affect the conversion. */
  lemma UserConversionIgnoresOtherKeys(m: map<string, Value>, key: string, v: Value)
    requires key !in UserKeys
    ensures UserFromArgs(m[key := v]) == UserFromArgs(m)
  {
  }

  // ---------------------------------------------------------------------------
  // Error codes
  // ---------------------------------------------------------------------------


  /** A native failure is `<OP>_FAILED` with the native message, or the
      operation's fallback when there is none; a thrown exception is
      `<OP>_EXCEPTION` with the exception's message, except for the inline
      operations, which report it as `<OP>_FAILED`; a `getInstance()` that
      throws is reported like an exception; success answers null, the
      attribution map or the flag. */
  lemma ResultTranslation(r: Request, o: NativeOutcome)
    requires Fits(r, o)
    ensures o == Returned(Unit) ==> Respond(r, o) == Success(Null)
    ensures o.Returned? && o.value.Attribution? ==> Respond(r, o) == Success(AttributionPayload(o.value.data))
    ensures o.Returned? && o.value.Flag? ==> Respond(r, o) == Success(Bool(o.value.flag))
    ensures o.Failed? && o.message.Some? ==> Respond(r, o) == Error(OpName(r) + "_FAILED", o.message)
    ensures o.Failed? && o.message.None? ==> Respond(r, o) == Error(OpName(r) + "_FAILED", Some(FallbackMessage(r)))
    ensures o.Threw? && !IsSync(r) ==> Respond(r, o) == Error(OpName(r) + "_EXCEPTION", o.message)
    ensures o.Threw? && IsSync(r) ==> Respond(r, o) == Error(OpName(r) + "_FAILED", o.message)
    ensures o.NoInstance? ==> Respond(r, o) == Respond(r, Threw(o.message))
  {
  }

  /** An error code names the operation it came from, and for the
      asynchronous operations also whether the native SDK reported the failure
      or an exception escaped. */
  lemma {:induction false} ErrorCodeIdentifiesOperation(r1: Request, o1: NativeOutcome, r2: Request, o2: NativeOutcome)
    requires Fits(r1, o1) && Fits(r2, o2)
    requires Respond(r1, o1).Error? && Respond(r2, o2).Error?
    requires Respond(r1, o1).code == Respond(r2, o2).code
    ensures MethodOf(r1) == MethodOf(r2)
    ensures !IsSync(r1) ==> (o1.Failed? <==> o2.Failed?)
  {
    var c := Respond(r1, o1).code;
    var suffix1 := if o1.Failed? || IsSync(r1) then FailedSuffix else ExceptionSuffix;
    var suffix2 := if o2.Failed? || IsSync(r2) then FailedSuffix else ExceptionSuffix;
    assert c == OpName(r1) + suffix1;
    assert c == OpName(r2) + suffix2;
    if suffix1 != suffix2 {
      if suffix1 == FailedSuffix {
        SuffixesDiffer(OpName(r1), OpName(r2));
      } else {
        SuffixesDiffer(OpName(r2), OpName(r1));
      }
    }
    SuffixCancels(OpName(r1), OpName(r2), suffix1);
  }

  // ---------------------------------------------------------------------------
  // Attribution data
  // ---------------------------------------------------------------------------

  /** Reads the nine campaign entries back. */
  function ReadCampaign(c: map<string, Value>): CampaignData {
    CampaignData(
      StrAt(c, "id"), StrAt(c, "name"), StrAt(c, "ad_network"), StrAt(c, "type"),
      StrAt(c, "installed_at"), StrAt(c, "store_click_at"), StrAt(c, "group_name"),
      StrAt(c, "asset_name"), StrAt(c, "asset_group_name"))
  }

  /** Reads an attribution answer back; the empty map stands for no data. */
  function ReadAttribution(v: Value): Option<AttributionData> {
    if v.Dict? && "campaign_data" in v.entries && v.entries["campaign_data"].Dict? then
      Some(AttributionData(StrAt(v.entries, "deeplink"), ReadCampaign(v.entries["campaign_data"].entries)))
    else None
  }

  /** Every campaign field survives the snake_case map. */
  lemma CampaignRoundTrip(c: CampaignData)
    ensures ReadCampaign(CampaignMap(c)) == c
  {
  }

  /** The reshaped map carries every field of the native attribution data, and
      null data is the empty map. */
  lemma AttributionRoundTrip(a: Option<AttributionData>)
    ensures ReadAttribution(AttributionPayload(a)) == a
  {
    if a.Some? {
      CampaignRoundTrip(a.value.campaignData);
      var v := AttributionPayload(a);
      assert v.entries["campaign_data"] == Dict(CampaignMap(a.value.campaignData));
    }
  }

  /** `getAttributionData` answers with the reshaped native data, from which
      the data can be read back. */
  lemma AttributionAnswerCarriesData(s: State, args: Value, a: Option<AttributionData>, enums: PaymentEnums)
    requires AndroidEnums(enums)
    ensures Admissible(s, "getAttributionData", args, Returned(Attribution(a)), enums)
    ensures var resp := Handle(s, "getAttributionData", args, Returned(Attribution(a)), enums);
      resp.Success? && ReadAttribution(resp.payload) == a
  {
    AttributionRoundTrip(a);
  }

  /** `getAttributionData` answers the empty map, not an error, when the
      native data is null. */
  lemma NullAttributionIsEmptyMap(s: State, args: Value, enums: PaymentEnums)
    requires AndroidEnums(enums)
    ensures Admissible(s, "getAttributionData", args, Returned(Attribution(None)), enums)
    ensures Handle(s, "getAttributionData", args, Returned(Attribution(None)), enums) == Success(Dict(map[]))
  {
  }

  // ---------------------------------------------------------------------------
  // The instance handle
  // ---------------------------------------------------------------------------

  /** An init call carrying a usable token stores the handle whatever the init
      outcome, unless `getInstance()` itself threw; `isAvailable` then says true. */
  lemma InitSetsHandleWhateverTheOutcome(s: State, args: Value, o: NativeOutcome, other: Value, o2: NativeOutcome, enums: PaymentEnums)
    requires AndroidEnums(enums)
    requires !CastFails(args, Init) && !LacksRequired(args, Init)
    requires !o.NoInstance?
    ensures Next(s, "init", args, o, enums).hasInstance
    ensures Handle(Next(s, "init", args, o, enums), "isAvailable", other, o2, enums) == Success(Bool(true))
  {
    DispatchFollowsTable(s, Init, args, enums);
  }

  /** `isAvailable` reports the handle and changes nothing. */
  lemma IsAvailableReportsHandle(s: State, args: Value, o: NativeOutcome, enums: PaymentEnums)
    requires AndroidEnums(enums)
    ensures Handle(s, "isAvailable", args, o, enums) == Success(Bool(s.hasInstance))
    ensures Next(s, "isAvailable", args, o, enums) == s
  {
  }

  /** One call and how its native part ended. */
  datatype Event = Event(name: string, args: Value, outcome: NativeOutcome)

  function Run(s: State, events: seq<Event>, enums: PaymentEnums): State
    requires AndroidEnums(enums)
    decreases |events|
  {
    if |events| == 0 then s
    else Run(Next(s, events[0].name, events[0].args, events[0].outcome, enums), events[1..], enums)
  }

  /** An init call that gets as far as storing the instance. */
  predicate StoresInstance(e: Event) {
    e.name == "init" && !CastFails(e.args, Init) && !LacksRequired(e.args, Init) && !e.outcome.NoInstance?
  }

  /** A single call stores the handle exactly when it is such an init call,
      and never clears it. */
  lemma {:induction false} NextHandle(s: State, e: Event, enums: PaymentEnums)
    requires AndroidEnums(enums)
    ensures Next(s, e.name, e.args, e.outcome, enums).hasInstance <==> s.hasInstance || StoresInstance(e)
  {
    if e.name == "init" {
      DispatchFollowsTable(s, Init, e.args, enums);
    }
  }

  /** After any sequence of calls from a fresh plugin, `isAvailable` is true
      exactly when one of them was an init call that stored the instance. */
  lemma {:induction false} AvailableIffSomeInitStoredInstance(s: State, events: seq<Event>, enums: PaymentEnums)
    requires AndroidEnums(enums)
    ensures Run(s, events, enums).hasInstance <==>
      s.hasInstance || exists i :: 0 <= i < |events| && StoresInstance(events[i])
    decreases |events|
  {
    if |events| > 0 {
      var e := events[0];
      var s' := Next(s, e.name, e.args, e.outcome, enums);
      NextHandle(s, e, enums);
      AvailableIffSomeInitStoredInstance(s', events[1..], enums);
      if exists i :: 0 <= i < |events| && StoresInstance(events[i]) {
        var i :| 0 <= i < |events| && StoresInstance(events[i]);
        if i > 0 {
          assert events[1..][i - 1] == events[i];
        }
      }
      if exists j :: 0 <= j < |events[1..]| && StoresInstance(events[1..][j]) {
        var j :| 0 <= j < |events[1..]| && StoresInstance(events[1..][j]);
        assert events[j + 1] == events[1..][j];
      }
    }
  }
}

/** Properties of the iOS bridge: the dispatch table and the initialization
    gate against an independent statement of each method's requirements, the
    life of the `isInitialized` flag, the request objects, the error codes, and
    how the user data it builds relates to Android's. */
module IosProofs {
  import opened Channel
  import opened Ios
  import Android

  // ---------------------------------------------------------------------------
  // The dispatch table, stated as data
  // ---------------------------------------------------------------------------

  /** A required argument: its key and the type it must have. */
  datatype Param = Param(key: string, kind: Kind)

  /** The methods `handle` has a case for. */
  predicate InTable(m: Method) {
    m != SetDisableAaidCollection && m != IsAaidCollectionDisabled
  }

  /** The methods whose case casts the arguments to a dictionary. */
  predicate NeedsBag(m: Method) {
    InTable(m) && m != GetAttributionData && m != IsAvailable
  }

  /** The methods whose implementation starts with the `isInitialized` guard. */
  predicate Gated(m: Method) {
    InTable(m) && m != Init && m != IsAvailable && m != EnablePIIHashing
  }

  function Required(m: Method): set<Param> {
    match m
    case Init => {Param("token", StrKind)}
    case Signup => {Param("userData", DictKind)}
    case SetUserData => {Param("userData", DictKind)}
    case SetAdditionalData => {Param("integrationData", DictKind)}
    case TrackEvent => {Param("eventName", StrKind)}
    case CapturePayment => {Param("userId", StrKind), Param("amount", DoubleKind)}
    case EnablePIIHashing => {Param("enabled", BoolKind)}
    case SetPushToken => {Param("pushToken", StrKind)}
    case _ => {}
  }

  function MissingMessage(m: Method): string {
    match m
    case Init => "Token is required"
    case Signup => "User data is required"
    case SetUserData => "User data is required"
    case SetAdditionalData => "Integration data is required"
    case TrackEvent => "Event name is required"
    case CapturePayment => "User ID and amount are required"
    case RemovePayment => "User ID or payment ID is required"
    case EnablePIIHashing => "enabled parameter is required"
    case SetPushToken => "pushToken parameter is required"
    case _ => ""
  }

  /** The argument is in the bag with the type the case casts it to. */
  predicate Usable(args: Value, p: Param) {
    args.Dict? && p.key in args.entries && HasKind(args.entries[p.key], p.kind)
  }

  /** The arguments get past the method's `if let`. */
  predicate ArgumentsValid(args: Value, m: Method) {
    (NeedsBag(m) ==> args.Dict?) && forall p :: p in Required(m) ==> Usable(args, p)
  }

  predicate FollowsTable(s: State, m: Method, args: Value, d: Decision<Request>) {
    && (!InTable(m) ==> d.NotImplemented?)
    && (InTable(m) && !ArgumentsValid(args, m) ==> d == InvalidArgument(MissingMessage(m)))
    && (InTable(m) && ArgumentsValid(args, m) && Gated(m) && !s.isInitialized ==> d.NotInitialized?)
    && (InTable(m) && ArgumentsValid(args, m) && !(Gated(m) && !s.isInitialized) ==>
          d.CallNative? || m == IsAvailable)
    && (d.CallNative? ==> ArgumentsValid(args, m) && (Gated(m) ==> s.isInitialized))
  }

  /** `handle` follows the table: names without a case are not implemented;
      arguments that are not a dictionary or lack a required, well-typed entry
      are `INVALID_ARGUMENT` with the case's message, checked before the
      guard; then a gated operation on an uninitialized plugin is
      `NOT_INITIALIZED`; everything else reaches the native SDK, except
      `isAvailable`. */
  lemma {:induction false} DispatchFollowsTable(s: State, m: Method, args: Value, enums: PaymentEnums)
    requires enums.Valid()
    ensures FollowsTable(s, m, args, Dispatch(s, Name(m), args, enums))
  {
    NameRoundTrip(m);
    assert Dispatch(s, Name(m), args, enums) == Decide(s, m, args, enums);
    match m
    case CapturePayment => CaptureFollowsTable(s, args, enums);
    case RemovePayment => NoRequirementFollowsTable(s, m, args, enums);
    case GetAttributionData => NoRequirementFollowsTable(s, m, args, enums);
    case IsAvailable => NoRequirementFollowsTable(s, m, args, enums);
    case SetDisableAaidCollection => NoRequirementFollowsTable(s, m, args, enums);
    case IsAaidCollectionDisabled => NoRequirementFollowsTable(s, m, args, enums);
    case Init => InitFollowsTable(s, args, enums);
    case Signup => SignupFollowsTable(s, args, enums);
    case SetUserData => SetUserDataFollowsTable(s, args, enums);
    case SetAdditionalData => SetAdditionalDataFollowsTable(s, args, enums);
    case TrackEvent => TrackEventFollowsTable(s, args, enums);
    case EnablePIIHashing => EnablePIIHashingFollowsTable(s, args, enums);
    case SetPushToken => SetPushTokenFollowsTable(s, args, enums);
  }

  lemma CaptureFollowsTable(s: State, args: Value, enums: PaymentEnums)
    requires enums.Valid()
    ensures FollowsTable(s, CapturePayment, args, Decide(s, CapturePayment, args, enums))
  {
    var userId := Param("userId", StrKind);
    var amount := Param("amount", DoubleKind);
    assert Required(CapturePayment) == {userId, amount};
    assert ArgumentsValid(args, CapturePayment) <==> args.Dict? && Usable(args, userId) && Usable(args, amount);
  }

  lemma NoRequirementFollowsTable(s: State, m: Method, args: Value, enums: PaymentEnums)
    requires enums.Valid()
    requires m in {RemovePayment, GetAttributionData, IsAvailable, SetDisableAaidCollection, IsAaidCollectionDisabled}
    ensures FollowsTable(s, m, args, Decide(s, m, args, enums))
  {
    assert Required(m) == {};
  }

  lemma InitFollowsTable(s: State, args: Value, enums: PaymentEnums)
    requires enums.Valid()
    ensures FollowsTable(s, Init, args, Decide(s, Init, args, enums))
  {
    SingleRequired(Init, Param("token", StrKind), args);
  }

  lemma SignupFollowsTable(s: State, args: Value, enums: PaymentEnums)
    requires enums.Valid()
    ensures FollowsTable(s, Signup, args, Decide(s, Signup, args, enums))
  {
    SingleRequired(Signup, Param("userData", DictKind), args);
  }

  lemma SetUserDataFollowsTable(s: State, args: Value, enums: PaymentEnums)
    requires enums.Valid()
    ensures FollowsTable(s, SetUserData, args, Decide(s, SetUserData, args, enums))
  {
    SingleRequired(SetUserData, Param("userData", DictKind), args);
  }

  lemma SetAdditionalDataFollowsTable(s: State, args: Value, enums: PaymentEnums)
    requires enums.Valid()
    ensures FollowsTable(s, SetAdditionalData, args, Decide(s, SetAdditionalData, args, enums))
  {
    SingleRequired(SetAdditionalData, Param("integrationData", DictKind), args);
  }

  lemma TrackEventFollowsTable(s: State, args: Value, enums: PaymentEnums)
    requires enums.Valid()
    ensures FollowsTable(s, TrackEvent, args, Decide(s, TrackEvent, args, enums))
  {
    SingleRequired(TrackEvent, Param("eventName", StrKind), args);
  }

  lemma EnablePIIHashingFollowsTable(s: State, args: Value, enums: PaymentEnums)
    requires enums.Valid()
    ensures FollowsTable(s, EnablePIIHashing, args, Decide(s, EnablePIIHashing, args, enums))
  {
    SingleRequired(EnablePIIHashing, Param("enabled", BoolKind), args);
  }

  lemma SetPushTokenFollowsTable(s: State, args: Value, enums: PaymentEnums)
    requires enums.Valid()
    ensures FollowsTable(s, SetPushToken, args, Decide(s, SetPushToken, args, enums))
  {
    SingleRequired(SetPushToken, Param("pushToken", StrKind), args);
  }

  lemma SingleRequired(m: Method, p: Param, args: Value)
    requires NeedsBag(m) && Required(m) == {p}
    ensures ArgumentsValid(args, m) <==> Usable(args, p)
  {
  }

  /** Arguments that are not a dictionary are rejected by every case that
      reads them, `removePayment` included, whatever the flag says. */
  lemma NonDictionaryArgumentsRejected(s: State, m: Method, args: Value, o: NativeOutcome, enums: PaymentEnums)
    requires enums.Valid()
    requires NeedsBag(m) && !args.Dict?
    ensures Handle(s, Name(m), args, o, enums) == Error("INVALID_ARGUMENT", Some(MissingMessage(m)))
    ensures Next(s, Name(m), args, o, enums) == s
  {
    DispatchFollowsTable(s, m, args, enums);
  }

  /** Names without a case, `setDisableAaidCollection` and
      `isAaidCollectionDisabled` among them, are answered "not implemented". */
  lemma UnknownMethodNotImplemented(s: State, name: string, args: Value, o: NativeOutcome, enums: PaymentEnums)
    requires enums.Valid()
    requires forall m: Method :: InTable(m) ==> Name(m) != name
    ensures Handle(s, name, args, o, enums) == MethodNotImplemented
    ensures Next(s, name, args, o, enums) == s
  {
  }

  /** Before a successful init every gated operation with valid arguments
      answers `NOT_INITIALIZED` and makes no native call. */
  lemma GateBlocksUntilInitialized(s: State, m: Method, args: Value, o: NativeOutcome, enums: PaymentEnums)
    requires enums.Valid()
    requires !s.isInitialized && Gated(m) && ArgumentsValid(args, m)
    ensures !Dispatch(s, Name(m), args, enums).CallNative?
    ensures Handle(s, Name(m), args, o, enums) == Error("NOT_INITIALIZED", Some("SDK not initialized"))
    ensures Next(s, Name(m), args, o, enums) == s
  {
    DispatchFollowsTable(s, m, args, enums);
  }

  /** `enablePIIHashing` is not gated: with a boolean `enabled` it succeeds
      whether or not the plugin is initialized. */
  lemma PIIHashingNotGated(s: State, entries: map<string, Value>, enabled: bool, o: NativeOutcome, enums: PaymentEnums)
    requires enums.Valid()
    requires "enabled" in entries && entries["enabled"] == Bool(enabled)
    ensures Dispatch(s, "enablePIIHashing", Dict(entries), enums) == CallNative(SetPIIHashing(enabled))
    ensures Handle(s, "enablePIIHashing", Dict(entries), o, enums) == Success(Null)
  {
  }

  // ---------------------------------------------------------------------------
  // The isInitialized flag
  // ---------------------------------------------------------------------------

  /** An init call with a token sets the flag and answers null when
      `initialize` returns; when it throws the flag is left as it was and the
      answer is `INIT_FAILED` with the error's description. */
  lemma InitOutcomeDecidesFlag(s: State, args: Value, o: NativeOutcome, enums: PaymentEnums)
    requires enums.Valid()
    requires ArgumentsValid(args, Init)
    ensures o.Completed? ==> Next(s, "init", args, o, enums).isInitialized
    ensures o.Completed? ==> Handle(s, "init", args, o, enums) == Success(Null)
    ensures o.Threw? ==> Next(s, "init", args, o, enums) == s
    ensures o.Threw? ==> Handle(s, "init", args, o, enums) == Error("INIT_FAILED", Some(o.description))
  {
    DispatchFollowsTable(s, Init, args, enums);
  }

  /** `isAvailable` reports the flag and changes nothing. */
  lemma IsAvailableReportsFlag(s: State, args: Value, o: NativeOutcome, enums: PaymentEnums)
    requires enums.Valid()
    ensures Handle(s, "isAvailable", args, o, enums) == Success(Bool(s.isInitialized))
    ensures Next(s, "isAvailable", args, o, enums) == s
  {
  }

  /** One call and how its native part ended. */
  datatype Event = Event(name: string, args: Value, outcome: NativeOutcome)

  function Run(s: State, events: seq<Event>, enums: PaymentEnums): State
    requires enums.Valid()
    decreases |events|
  {
    if |events| == 0 then s
    else Run(Next(s, events[0].name, events[0].args, events[0].outcome, enums), events[1..], enums)
  }

  /** An init call whose native `initialize` returned. */
  predicate InitSucceeded(e: Event) {
    e.name == "init" && ArgumentsValid(e.args, Init) && e.outcome.Completed?
  }

  lemma {:induction false} NextFlag(s: State, e: Event, enums: PaymentEnums)
    requires enums.Valid()
    ensures Next(s, e.name, e.args, e.outcome, enums).isInitialized <==> s.isInitialized || InitSucceeded(e)
  {
    if e.name == "init" {
      DispatchFollowsTable(s, Init, e.args, enums);
    }
  }

  /** After any sequence of calls from a fresh plugin the flag, and so
      `isAvailable`, is true exactly when some init call succeeded. */
  lemma {:induction false} InitializedIffSomeInitSucceeded(s: State, events: seq<Event>, enums: PaymentEnums)
    requires enums.Valid()
    ensures Run(s, events, enums).isInitialized <==>
      s.isInitialized || exists i :: 0 <= i < |events| && InitSucceeded(events[i])
    decreases |events|
  {
    if |events| > 0 {
      var e := events[0];
      NextFlag(s, e, enums);
      InitializedIffSomeInitSucceeded(Next(s, e.name, e.args, e.outcome, enums), events[1..], enums);
      if exists i :: 0 <= i < |events| && InitSucceeded(events[i]) {
        var i :| 0 <= i < |events| && InitSucceeded(events[i]);
        if i > 0 {
          assert events[1..][i - 1] == events[i];
        }
      }
      if exists j :: 0 <= j < |events[1..]| && InitSucceeded(events[1..][j]) {
        var j :| 0 <= j < |events[1..]| && InitSucceeded(events[1..][j]);
        assert events[j + 1] == events[1..][j];
      }
    }
  }

  // ---------------------------------------------------------------------------
  // Request objects
  // ---------------------------------------------------------------------------

  /** `capturePayment` on an initialized plugin: an absent type or status is
      read as "DEFAULT_PAYMENT" / "PAYMENT_COMPLETED"; a raw value naming a case
      is that case, and any other falls back to `.default` / `.completed`. The
      payment id is passed as it came, possibly absent. */
  lemma CapturePaymentFallback(entries: map<string, Value>, enums: PaymentEnums)
    requires enums.Valid()
    requires ArgumentsValid(Dict(entries), CapturePayment)
    ensures var d := Dispatch(State(true), "capturePayment", Dict(entries), enums);
      && d.CallNative? && d.request.Capture?
      && Some(d.request.userId) == StrAt(entries, "userId")
      && Some(d.request.amount) == DoubleAt(entries, "amount")
      && d.request.paymentId == StrAt(entries, "paymentId")
      && (var t := StrAt(entries, "type").GetOr("DEFAULT_PAYMENT");
          && (t in enums.types.names ==> d.request.paymentType == t)
          && (t !in enums.types.names ==> d.request.paymentType == enums.types.fallback))
      && (var st := StrAt(entries, "status").GetOr("PAYMENT_COMPLETED");
          && (st in enums.statuses.names ==> d.request.status == st)
          && (st !in enums.statuses.names ==> d.request.status == enums.statuses.fallback))
  {
    DispatchFollowsTable(State(true), CapturePayment, Dict(entries), enums);
    assert Param("userId", StrKind) in Required(CapturePayment);
    assert Param("amount", DoubleKind) in Required(CapturePayment);
  }

  /** `init`: the token as sent; the secret-key variant iff both `secretKey`
      and `keyId` are strings; `disableIdfa` as read, possibly absent; `debug`
      only when it is the boolean true. Init is never gated. */
  lemma InitRequestShape(s: State, entries: map<string, Value>, enums: PaymentEnums)
    requires enums.Valid()
    requires "token" in entries && entries["token"].Str?
    ensures var d := Dispatch(s, "init", Dict(entries), enums);
      && d.CallNative? && d.request.InitSdk?
      && var r := d.request.init;
      && r.token == entries["token"].s
      && (r.credentials.Some? <==> StrAt(entries, "secretKey").Some? && StrAt(entries, "keyId").Some?)
      && (r.credentials.Some? ==>
            Some(r.credentials.value.secretKey) == StrAt(entries, "secretKey")
            && Some(r.credentials.value.keyId) == StrAt(entries, "keyId"))
      && r.disableIdfa == BoolAt(entries, "disableIdfa")
      && (r.debug <==> "debug" in entries && entries["debug"] == Bool(true))
  {
  }

  /** `signup` on an initialized plugin sends the converted `userData` and the
      `data` dictionary, if it is one. */
  lemma SignupRequest(entries: map<string, Value>, enums: PaymentEnums)
    requires enums.Valid()
    requires "userData" in entries && entries["userData"].Dict?
    ensures Dispatch(State(true), "signup", Dict(entries), enums)
      == CallNative(SignupUser(UserFromArgs(entries["userData"].entries), DictAt(entries, "data")))
  {
  }

  /** `setUserData` on an initialized plugin sends the converted `userData`. */
  lemma SetUserDataRequest(entries: map<string, Value>, enums: PaymentEnums)
    requires enums.Valid()
    requires "userData" in entries && entries["userData"].Dict?
    ensures Dispatch(State(true), "setUserData", Dict(entries), enums)
      == CallNative(UpdateUserData(UserFromArgs(entries["userData"].entries)))
  {
  }

  /** `setAdditionalData` on an initialized plugin converts `integrationData`. */
  lemma SetAdditionalDataRequest(entries: map<string, Value>, enums: PaymentEnums)
    requires enums.Valid()
    requires "integrationData" in entries && entries["integrationData"].Dict?
    ensures Dispatch(State(true), "setAdditionalData", Dict(entries), enums)
      == CallNative(UpdateAdditionalData(IntegrationFromArgs(entries["integrationData"].entries)))
  {
  }

  /** `trackEvent` on an initialized plugin sends the name, and the event data
      and id when they have their types. */
  lemma TrackEventRequest(entries: map<string, Value>, enums: PaymentEnums)
    requires enums.Valid()
    requires "eventName" in entries && entries["eventName"].Str?
    ensures Dispatch(State(true), "trackEvent", Dict(entries), enums)
      == CallNative(Track(entries["eventName"].s, DictAt(entries, "eventData"), StrAt(entries, "eventId")))
  {
  }

  /** `setPushToken` on an initialized plugin sends the token unchanged; unlike
      Android, iOS does not reject a blank token. */
  lemma SetPushTokenRequest(entries: map<string, Value>, enums: PaymentEnums)
    requires enums.Valid()
    requires "pushToken" in entries && entries["pushToken"].Str?
    ensures Dispatch(State(true), "setPushToken", Dict(entries), enums)
      == CallNative(RegisterPushToken(entries["pushToken"].s))
  {
  }

  /** A completed native call answers null, except `getAttributionData`, which
      answers the SDK's dictionary unchanged. */
  lemma SuccessPayloads(s: State, name: string, args: Value, v: Value, enums: PaymentEnums)
    requires enums.Valid()
    requires Dispatch(s, name, args, enums).CallNative?
    ensures name == "getAttributionData" ==> Handle(s, name, args, Completed(v), enums) == Success(v)
    ensures name != "getAttributionData" ==> Handle(s, name, args, Completed(v), enums) == Success(Null)
  {
  }

  /** `removePayment` on an initialized plugin checks neither id: a missing
      user id is sent as "" and the payment id as it came. */
  lemma RemovePaymentDefaults(entries: map<string, Value>, enums: PaymentEnums)
    requires enums.Valid()
    ensures Dispatch(State(true), "removePayment", Dict(entries), enums)
      == CallNative(Remove(StrAt(entries, "userId").GetOr(""), StrAt(entries, "paymentId")))
  {
  }

  /** `signup` and `setUserData` build the same `UserData` from the same map. */
  lemma SignupAndSetUserDataAgree(s: State, userData: map<string, Value>, data: Value, enums: PaymentEnums)
    requires enums.Valid() && s.isInitialized
    ensures var d1 := Dispatch(s, "signup", Dict(map["userData" := Dict(userData), "data" := data]), enums);
      var d2 := Dispatch(s, "setUserData", Dict(map["userData" := Dict(userData)]), enums);
      && d1.CallNative? && d1.request.SignupUser?
      && d2.CallNative? && d2.request.UpdateUserData?
      && d1.request.user == d2.request.user
  {
  }

  /** The GA session id is not mapped: it never changes the `UserData`. */
  lemma SessionIdNotMapped(m: map<string, Value>, v: Value)
    ensures UserFromArgs(m["ga_session_id" := v]) == UserFromArgs(m)
  {
    var m' := m["ga_session_id" := v];
    assert StrAt(m', "id") == StrAt(m, "id");
    assert StrAt(m', "name") == StrAt(m, "name");
    assert StrAt(m', "phone") == StrAt(m, "phone");
    assert StrAt(m', "email") == StrAt(m, "email");
    assert StrAt(m', "user_created_at") == StrAt(m, "user_created_at");
    assert StrAt(m', "mixpanel_distinct_id") == StrAt(m, "mixpanel_distinct_id");
    assert StrAt(m', "amplitude_device_id") == StrAt(m, "amplitude_device_id");
    assert StrAt(m', "posthog_distinct_id") == StrAt(m, "posthog_distinct_id");
    assert StrAt(m', "braze_device_id") == StrAt(m, "braze_device_id");
    assert StrAt(m', "ga_app_instance_id") == StrAt(m, "ga_app_instance_id");
    assert BoolAt(m', "is_first_time_user") == BoolAt(m, "is_first_time_user");
  }

  /** Android's `UserDataRequest` without the GA session id. */
  function WithoutSession(u: Android.UserDataRequest): UserData {
    UserData(u.id, u.name, u.phone, u.email, u.isFirstTimeUser, u.userCreatedAt, u.mixpanelDistinctId,
             u.amplitudeDeviceId, u.posthogDistinctId, u.brazeDeviceId, u.gaAppInstanceId)
  }

  /** Both platforms read user data from the same keys with the same defaults;
      iOS only drops the GA session id. */
  lemma UserDataMatchesAndroid(m: map<string, Value>)
    ensures UserFromArgs(m) == WithoutSession(Android.UserFromArgs(m))
  {
  }

  // ---------------------------------------------------------------------------
  // Error codes
  // ---------------------------------------------------------------------------


  /** Every native throw becomes `<OP>_FAILED` with the error's description;
      no code on this platform ends in "_EXCEPTION", and the code names the
      operation. */
  lemma {:induction false} ThrowsBecomeFailed(r1: Request, o1: NativeOutcome, r2: Request, o2: NativeOutcome)
    ensures o1.Threw? && !r1.SetPIIHashing? ==> Respond(r1, o1) == Error(OpName(r1) + "_FAILED", Some(o1.description))
    ensures Respond(r1, o1).Error? ==> forall op :: Respond(r1, o1).code != op + ExceptionSuffix
    ensures Respond(r1, o1).Error? && Respond(r2, o2).Error? && Respond(r1, o1).code == Respond(r2, o2).code
      ==> MethodOf(r1) == MethodOf(r2)
  {
    if Respond(r1, o1).Error? {
      forall op ensures Respond(r1, o1).code != op + ExceptionSuffix {
        SuffixesDiffer(OpName(r1), op);
      }
      if Respond(r2, o2).Error? && Respond(r1, o1).code == Respond(r2, o2).code {
        SuffixCancels(OpName(r1), OpName(r2), FailedSuffix);
      }
    }
  }
}

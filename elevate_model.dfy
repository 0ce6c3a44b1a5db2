/** The state of the Recurring Donation "Elevate information" component and the
    effect of each of its handlers and shared routines on it, as pure functions
    from the state before to the state after. */
module ElevateModel {
  import opened Js

  const NAME_FIELD := "Name"
  const COMMITMENT_ID_FIELD := "CommitmentId__c"
  const CLOSED_REASON_FIELD := "ClosedReason__c"

  /** A commitment id with this prefix has not yet been confirmed by Elevate. */
  const PENDING_PREFIX := "_PENDING_"

  /** Server errors raised by the component's own controller mention its name. */
  const CONTROLLER_MARKER := "RD2_ElevateInformation_CTRL"

  /** The custom labels the logic uses; their text is not part of this model. */
  datatype Labels = Labels(
    statusSuccess: string,
    statusElevatePending: string,
    textSuccess: string,
    textError: string,
    flsErrorHeader: string,
    flsErrorDetail: string,
    insufficientPermissions: string,
    elevateCreateRecordFailed: string)

  /** The error shown in the banner; `{}` (no error) has neither part. */
  datatype ErrorModel = ErrorModel(header: Text, detail: Text)

  const NO_ERROR := ErrorModel(Undefined, Undefined)

  /** A value given to `handleError`: an object with `header` and `detail`
      properties, or any other error value (a server or platform error object,
      a string, `undefined`), told apart only by an identity. */
  datatype ErrorArg = ErrorObject(model: ErrorModel) | OtherError(token: nat)

  /** What the component takes from outside: its labels and the helpers of the
      shared utility module (`isNull`/`isUndefined`, `constructErrorMessage`,
      `extractFieldInfo`), left uninterpreted. */
  datatype Env = Env(
    labels: Labels,
    checks: AbsenceChecks,
    constructErrorMessage: ErrorArg -> ErrorModel,
    extractFieldInfo: (map<string, Value>, string) -> Value)

  /** A record delivered by the record service: its `fields` map (which may be
      missing) from field name to that field's value. */
  datatype RecordData = RecordData(fields: Option<map<string, NullableString>>)

  /** `rdRecord`: unset until the record service first delivers data. */
  datatype RecordSlot = NoRecord | Record(data: RecordData) {
    function AsValue(): Value {
      if NoRecord? then Undefined else Obj
    }
  }

  /** `fields`: the describes of the Name and CommitmentId__c fields. */
  datatype FieldDescribes = FieldDescribes(name: Value, commitmentId: Value)

  datatype Status = Status(message: Text, isProgress: bool, value: string, icon: string, assistiveText: string)

  /** `permissions`; `isElevateCustomer` is read by `hasAccess()` but never assigned. */
  datatype Permissions = Permissions(hasAccess: Value, alert: Text, isElevateCustomer: Value)

  /** Every field of the component that its logic reads or writes. */
  datatype State = State(
    rdRecord: RecordSlot,
    fields: FieldDescribes,
    status: Status,
    isLoading: bool,
    isElevateCustomer: Value,
    isElevateRecord: bool,
    isElevateConnected: bool,
    permissions: Permissions,
    error: ErrorModel)

  /** The payload of the server's `getData` call. */
  datatype Response = Response(isElevateCustomer: Value, hasFieldPermissions: Value, alert: Text, errorMessage: Text)

  /** How the `getData` promise settles. */
  datatype DataOutcome = Resolved(response: Response) | Rejected(reason: ErrorArg)

  datatype ObjectInfo = ObjectInfo(fields: map<string, Value>, apiName: string)

  /** One delivery of a wire adapter: `data` and `error`, each truthy or not. */
  datatype WireResponse<T> = WireResponse(data: Option<T>, error: Option<ErrorArg>)

  /** The events the component reacts to, in whatever order they arrive. */
  datatype Event =
    | DataSettled(outcome: DataOutcome)
    | ObjectInfoWired(info: WireResponse<ObjectInfo>)
    | RecordWired(record: WireResponse<RecordData>)
    | ErrorDismissed

  /** The field values the component starts with. */
  function Init(labels: Labels): (s: State)
    ensures s.isLoading && !s.isElevateRecord && !s.isElevateConnected
    ensures s.isElevateCustomer == Undefined && s.permissions.hasAccess == Null
    ensures s.error == NO_ERROR && s.rdRecord == NoRecord
  {
    State(
      NoRecord,
      FieldDescribes(Undefined, Undefined),
      Status(Str(labels.statusSuccess), false, "success", "utility:success", labels.textSuccess),
      true,
      Undefined,
      false,
      false,
      Permissions(Null, Str(""), Undefined),
      NO_ERROR)
  }

  // ---------------------------------------------------------------------------
  // Three-valued predicates and record accessors

  /** `isSet`: neither absent value, whatever else the absence checks accept. */
  function IsSet(c: AbsenceChecks, v: Value): (r: bool)
    ensures r <==> !Absent(v)
  {
    !c.IsUndefined(v) && !c.IsNull(v)
  }

  /** `isTrue`: strictly `true`. */
  function IsTrue(c: AbsenceChecks, v: Value): (r: bool)
    ensures r <==> v == Bool(true)
  {
    IsSet(c, v) && v == Bool(true)
  }

  /** `isNot`: strictly `false`. */
  function IsNot(c: AbsenceChecks, v: Value): (r: bool)
    ensures r <==> v == Bool(false)
  {
    IsSet(c, v) && v == Bool(false)
  }

  /** `hasValue`: the record is loaded, has a fields map, that map has an entry
      for the field, and the entry's value is not null. */
  function HasValue(c: AbsenceChecks, rec: RecordSlot, fieldName: string): (r: bool)
    ensures r <==> rec.Record? && rec.data.fields.Some? && fieldName in rec.data.fields.value
                   && rec.data.fields.value[fieldName].Str?
  {
    rec.Record? && rec.data.fields.Some?
    && !c.IsUndefined(if fieldName in rec.data.fields.value then Obj else Undefined)
    && !c.IsNull(rec.data.fields.value[fieldName])
  }

  /** `getValue`: the field's value, or null when the record, its fields map or
      the field's entry is missing or the value is null. */
  function GetValue(c: AbsenceChecks, rec: RecordSlot, fieldName: string): (r: Value)
    ensures r.Null? || r.Str?
    ensures r.Str? <==> rec.Record? && rec.data.fields.Some? && fieldName in rec.data.fields.value
                        && rec.data.fields.value[fieldName].Str?
    ensures r.Str? ==> r == rec.data.fields.value[fieldName]
  {
    if HasValue(c, rec, fieldName) then rec.data.fields.value[fieldName] else Null
  }

  /** `hasAccess()`: both `permissions.isElevateCustomer` and
      `permissions.hasAccess` are strictly true. */
  function HasAccess(c: AbsenceChecks, p: Permissions): (r: bool)
    ensures r <==> p.isElevateCustomer == Bool(true) && p.hasAccess == Bool(true)
  {
    IsTrue(c, p.isElevateCustomer) && IsTrue(c, p.hasAccess)
  }

  // ---------------------------------------------------------------------------
  // Error handling

  /** The error `handleError` stores before it looks for the controller marker. */
  function StoredError(env: Env, arg: ErrorArg): ErrorModel {
    if arg.ErrorObject? && Truthy(arg.model.detail) then arg.model else env.constructErrorMessage(arg)
  }

  /** A stored error whose detail names the controller withdraws access. */
  predicate RevokesAccess(e: ErrorModel) {
    Truthy(e.detail) && Includes(e.detail.s, CONTROLLER_MARKER)
  }

  /** `handleError`. */
  function HandleError(env: Env, s: State, arg: ErrorArg): (r: State)
    ensures arg.ErrorObject? && Truthy(arg.model.detail) ==> r.error.detail == arg.model.detail
    ensures !(arg.ErrorObject? && Truthy(arg.model.detail)) ==> r.error.detail == env.constructErrorMessage(arg).detail
    ensures RevokesAccess(r.error) ==> r.permissions.hasAccess == Bool(false)
                                       && r.error.header == Str(env.labels.insufficientPermissions)
    ensures !RevokesAccess(r.error) ==> r.permissions == s.permissions && r.error == StoredError(env, arg)
    ensures r.permissions.(hasAccess := s.permissions.hasAccess) == s.permissions
    ensures r.(error := s.error, permissions := s.permissions) == s
  {
    var e := StoredError(env, arg);
    if RevokesAccess(e) then
      s.(error := e.(header := Str(env.labels.insufficientPermissions)),
         permissions := s.permissions.(hasAccess := Bool(false)))
    else
      s.(error := e)
  }

  /** `clearError`. */
  function ClearError(s: State): (r: State)
    ensures r.error == NO_ERROR && !Truthy(r.error.detail)
    ensures r.(error := s.error) == s
  {
    s.(error := NO_ERROR)
  }

  // ---------------------------------------------------------------------------
  // Derived flags

  /** The commitment id of the current record, null when there is none. */
  function CommitmentId(c: AbsenceChecks, s: State): Value {
    GetValue(c, s.rdRecord, COMMITMENT_ID_FIELD)
  }

  /** The error `checkElevateStatus` raises. */
  function CreateRecordFailedError(labels: Labels): ErrorArg {
    ErrorObject(ErrorModel(Undefined, Str(labels.elevateCreateRecordFailed)))
  }

  /** `checkElevateStatus`. */
  function CheckElevateStatus(env: Env, s: State): (r: State)
    ensures r.isElevateRecord <==> CommitmentId(env.checks, s).Str?
    ensures r.isElevateConnected <==> r.isElevateRecord && !StartsWith(CommitmentId(env.checks, s).s, PENDING_PREFIX)
    ensures s.isElevateCustomer == Bool(true) && r.isElevateRecord && !r.isElevateConnected
            ==> r.error == HandleError(env, s, CreateRecordFailedError(env.labels)).error
                && r.permissions == HandleError(env, s, CreateRecordFailedError(env.labels)).permissions
    ensures !(s.isElevateCustomer == Bool(true) && r.isElevateRecord && !r.isElevateConnected)
            ==> r.error == s.error && r.permissions == s.permissions
    ensures r.(isElevateRecord := s.isElevateRecord, isElevateConnected := s.isElevateConnected,
               error := s.error, permissions := s.permissions) == s
  {
    var commitmentId := GetValue(env.checks, s.rdRecord, COMMITMENT_ID_FIELD);
    var isRecord := !env.checks.IsNull(commitmentId);
    var isConnected := isRecord && !StartsWith(commitmentId.s, PENDING_PREFIX);
    var flagged := s.(isElevateRecord := isRecord, isElevateConnected := isConnected);
    if flagged.isElevateCustomer == Bool(true) && isRecord && !isConnected then
      HandleError(env, flagged, CreateRecordFailedError(env.labels))
    else
      flagged
  }

  /** The loading flag `checkLoading` computes: false once the user is known
      not to be an Elevate customer or known to lack access; otherwise true
      while the customer flag, the record or the Name describe is missing. */
  function LoadingRule(c: AbsenceChecks, s: State): (r: bool)
    ensures s.isElevateCustomer == Bool(false) || s.permissions.hasAccess == Bool(false) ==> !r
    ensures s.isElevateCustomer != Bool(false) && s.permissions.hasAccess != Bool(false)
            ==> (r <==> Absent(s.isElevateCustomer) || s.rdRecord.NoRecord? || Absent(s.fields.name))
  {
    if IsNot(c, s.isElevateCustomer) || IsNot(c, s.permissions.hasAccess) then false
    else !IsSet(c, s.isElevateCustomer) || !IsSet(c, s.rdRecord.AsValue()) || !IsSet(c, s.fields.name)
  }

  /** `checkLoading`: the loading flag, then always the connection flags. */
  function CheckLoading(env: Env, s: State): (r: State)
    ensures r.isLoading == LoadingRule(env.checks, s)
    ensures FlagsMatchRecord(env.checks, r)
    ensures r.rdRecord == s.rdRecord && r.fields == s.fields && r.status == s.status
            && r.isElevateCustomer == s.isElevateCustomer
  {
    CheckElevateStatus(env, s.(isLoading := LoadingRule(env.checks, s)))
  }

  // ---------------------------------------------------------------------------
  // Handlers

  /** `setFields`. */
  function SetFields(env: Env, s: State, fieldInfos: map<string, Value>): (r: State)
    ensures r.fields == FieldDescribes(env.extractFieldInfo(fieldInfos, NAME_FIELD),
                                       env.extractFieldInfo(fieldInfos, COMMITMENT_ID_FIELD))
    ensures r.(fields := s.fields) == s
  {
    s.(fields := s.fields.(name := env.extractFieldInfo(fieldInfos, NAME_FIELD),
                           commitmentId := env.extractFieldInfo(fieldInfos, COMMITMENT_ID_FIELD)))
  }

  /** The access `getData`'s success callback grants. */
  function GrantedAccess(c: AbsenceChecks, response: Response): bool {
    response.isElevateCustomer == Bool(true) && response.hasFieldPermissions == Bool(true) && c.IsNull(response.alert)
  }

  /** The body of `getData`'s success callback. */
  function ApplyResponse(env: Env, s: State, response: Response): (r: State)
    ensures r.isElevateCustomer == response.isElevateCustomer && r.permissions.alert == response.alert
    ensures r.permissions.isElevateCustomer == s.permissions.isElevateCustomer
    ensures r.(isElevateCustomer := s.isElevateCustomer, permissions := s.permissions,
               error := s.error, status := s.status) == s
  {
    var c := env.checks;
    var s1 := s.(isElevateCustomer := response.isElevateCustomer,
                 permissions := s.permissions.(alert := response.alert));
    var s2 := s1.(permissions := s1.permissions.(hasAccess := Bool(GrantedAccess(c, response))));
    if s2.isElevateCustomer == Bool(true) then
      if !c.IsNull(s2.permissions.alert) then
        HandleError(env, s2, ErrorObject(ErrorModel(Undefined, s2.permissions.alert)))
      else if response.hasFieldPermissions == Bool(false) then
        HandleError(env, s2, ErrorObject(ErrorModel(Str(env.labels.flsErrorHeader), Str(env.labels.flsErrorDetail))))
      else if !c.IsNull(response.errorMessage) then
        s2.(status := s2.status.(message := response.errorMessage, value := "error",
                                 icon := "utility:error", assistiveText := env.labels.textError))
      else
        s2
    else
      s2
  }

  /** `getData` settling: the success or failure callback, then `finally`. */
  function OnDataSettled(env: Env, s: State, outcome: DataOutcome): (r: State)
    ensures r.rdRecord == s.rdRecord && r.fields == s.fields
    ensures r.permissions.isElevateCustomer == s.permissions.isElevateCustomer
    ensures FlagsMatchRecord(env.checks, r)
  {
    var settled := match outcome
      case Resolved(response) => ApplyResponse(env, s, response)
      case Rejected(reason) => HandleError(env, s, reason);
    CheckLoading(env, settled)
  }

  /** `wiredRecurringDonationObjectInfo`. */
  function OnObjectInfo(env: Env, s: State, response: WireResponse<ObjectInfo>): (r: State)
    ensures r.rdRecord == s.rdRecord && r.status == s.status
    ensures r.permissions.isElevateCustomer == s.permissions.isElevateCustomer
    ensures response.data.Some? ==> r.fields == FieldDescribes(
              env.extractFieldInfo(response.data.value.fields, NAME_FIELD),
              env.extractFieldInfo(response.data.value.fields, COMMITMENT_ID_FIELD))
    ensures response.data.None? ==> r.fields == s.fields
  {
    var s1 := if response.data.Some? then CheckLoading(env, SetFields(env, s, response.data.value.fields)) else s;
    if response.error.Some? && HasAccess(env.checks, s1.permissions) then HandleError(env, s1, response.error.value) else s1
  }

  /** The record wire's data branch up to `checkLoading`. */
  function StoreRecord(env: Env, s: State, data: RecordData): (r: State)
    ensures r.rdRecord == Record(data)
    ensures GetValue(env.checks, Record(data), CLOSED_REASON_FIELD) == Str(env.labels.statusElevatePending)
            ==> r.status == s.status.(isProgress := true, message := Str(env.labels.statusElevatePending))
    ensures GetValue(env.checks, Record(data), CLOSED_REASON_FIELD) != Str(env.labels.statusElevatePending)
            ==> r.status == s.status
    ensures r.(rdRecord := s.rdRecord, status := s.status) == s
  {
    var s1 := s.(rdRecord := Record(data));
    if GetValue(env.checks, s1.rdRecord, CLOSED_REASON_FIELD) == Str(env.labels.statusElevatePending) then
      s1.(status := s1.status.(isProgress := true, message := Str(env.labels.statusElevatePending)))
    else
      s1
  }

  /** `wiredRecurringDonation`. */
  function OnRecord(env: Env, s: State, response: WireResponse<RecordData>): (r: State)
    ensures response.data.Some? ==> r.rdRecord == Record(response.data.value) && FlagsMatchRecord(env.checks, r)
    ensures response.data.None? ==> r.rdRecord == s.rdRecord
    ensures r.fields == s.fields
    ensures r.permissions.isElevateCustomer == s.permissions.isElevateCustomer
  {
    var s1 := if response.data.Some? then CheckLoading(env, StoreRecord(env, s, response.data.value)) else s;
    if response.error.Some? && HasAccess(env.checks, s1.permissions) then HandleError(env, s1, response.error.value) else s1
  }

  /** One event; none of them assigns `permissions.isElevateCustomer`. */
  function Step(env: Env, s: State, e: Event): (r: State)
    ensures r.permissions.isElevateCustomer == s.permissions.isElevateCustomer
  {
    match e
    case DataSettled(outcome) => OnDataSettled(env, s, outcome)
    case ObjectInfoWired(info) => OnObjectInfo(env, s, info)
    case RecordWired(record) => OnRecord(env, s, record)
    case ErrorDismissed => ClearError(s)
  }

  /** The state after the events arrive one after another, in the given order. */
  function Run(env: Env, s: State, events: seq<Event>): (r: State)
    ensures r.permissions.isElevateCustomer == s.permissions.isElevateCustomer
    decreases |events|
  {
    if events == [] then s else Run(env, Step(env, s, events[0]), events[1..])
  }

  // ---------------------------------------------------------------------------
  // What holds between events

  /** The connection flags agree with the current record's commitment id. */
  predicate FlagsMatchRecord(c: AbsenceChecks, s: State) {
    var id := CommitmentId(c, s);
    s.isElevateRecord == id.Str?
    && s.isElevateConnected == (id.Str? && !StartsWith(id.s, PENDING_PREFIX))
  }

  /** The create-record-failed label, once normalised, does not name the
      controller, so raising it leaves access alone. */
  predicate CreateRecordFailedKeepsAccess(env: Env) {
    !RevokesAccess(StoredError(env, CreateRecordFailedError(env.labels)))
  }

  /** The invariant of the component between events. */
  predicate Inv(env: Env, s: State) {
    s.permissions.isElevateCustomer == Undefined
    && FlagsMatchRecord(env.checks, s)
    && (CreateRecordFailedKeepsAccess(env) ==> s.isLoading == LoadingRule(env.checks, s))
  }
}

/** What the component's handlers promise, proved about ElevateModel. */
module ElevateProperties {
  import opened Js
  import opened ElevateModel

  // ---------------------------------------------------------------------------
  // The invariant between events, for every order of events

  /** `checkLoading` re-establishes the invariant from any state in which
      `permissions.isElevateCustomer` is still unassigned. */
  lemma CheckLoadingEstablishesInv(env: Env, s: State)
    requires s.permissions.isElevateCustomer == Undefined
    ensures Inv(env, CheckLoading(env, s))
  {
    var loaded := s.(isLoading := LoadingRule(env.checks, s));
    var r := CheckElevateStatus(env, loaded);
    assert CommitmentId(env.checks, r) == CommitmentId(env.checks, loaded);
    if CreateRecordFailedKeepsAccess(env) {
      assert r.permissions == loaded.permissions;
      assert LoadingRule(env.checks, r) == LoadingRule(env.checks, loaded);
    }
  }

  /** Every event keeps the invariant. */
  lemma StepKeepsInv(env: Env, s: State, e: Event)
    requires Inv(env, s)
    ensures Inv(env, Step(env, s, e))
  {
    match e
    case DataSettled(outcome) =>
      match outcome {
        case Resolved(response) => CheckLoadingEstablishesInv(env, ApplyResponse(env, s, response));
        case Rejected(reason) => CheckLoadingEstablishesInv(env, HandleError(env, s, reason));
      }
    case ObjectInfoWired(info) =>
      if info.data.Some? {
        CheckLoadingEstablishesInv(env, SetFields(env, s, info.data.value.fields));
      }
    case RecordWired(record) =>
      if record.data.Some? {
        CheckLoadingEstablishesInv(env, StoreRecord(env, s, record.data.value));
      }
    case ErrorDismissed =>
      assert CommitmentId(env.checks, ClearError(s)) == CommitmentId(env.checks, s);
  }

  /** Any sequence of events keeps the invariant. */
  lemma {:induction false} RunKeepsInv(env: Env, s: State, events: seq<Event>)
    requires Inv(env, s)
    ensures Inv(env, Run(env, s, events))
    decreases |events|
  {
    if events != [] {
      StepKeepsInv(env, s, events[0]);
      RunKeepsInv(env, Step(env, s, events[0]), events[1..]);
    }
  }

  /** The invariant holds in every state the component can reach. */
  lemma ReachableInv(env: Env, events: seq<Event>)
    ensures Inv(env, Run(env, Init(env.labels), events))
  {
    assert LoadingRule(env.checks, Init(env.labels));
    RunKeepsInv(env, Init(env.labels), events);
  }

  // ---------------------------------------------------------------------------
  // The access gate

  /** `hasAccess()` is false in every reachable state, because the
      `permissions.isElevateCustomer` it reads is never assigned. */
  lemma HasAccessNeverHolds(env: Env, events: seq<Event>)
    ensures !HasAccess(env.checks, Run(env, Init(env.labels), events).permissions)
  {
    ReachableInv(env, events);
  }

  /** So a wire adapter's error is never passed to `handleError`: in every
      reachable state a delivery has the same effect as one without its error. */
  lemma WireErrorsIgnored(env: Env, s: State, info: WireResponse<ObjectInfo>, record: WireResponse<RecordData>)
    requires Inv(env, s)
    ensures OnObjectInfo(env, s, info) == OnObjectInfo(env, s, info.(error := None))
    ensures OnRecord(env, s, record) == OnRecord(env, s, record.(error := None))
    ensures info.data.None? ==> OnObjectInfo(env, s, info) == s
    ensures record.data.None? ==> OnRecord(env, s, record) == s
  {
    if info.data.Some? {
      CheckLoadingEstablishesInv(env, SetFields(env, s, info.data.value.fields));
    }
    if record.data.Some? {
      CheckLoadingEstablishesInv(env, StoreRecord(env, s, record.data.value));
    }
  }

  // ---------------------------------------------------------------------------
  // Connection flags

  /** In every reachable state: connected implies an Elevate record, which
      implies a string commitment id; a missing record has neither flag. */
  lemma ConnectionFlagsReachable(env: Env, events: seq<Event>)
    ensures var s := Run(env, Init(env.labels), events);
            (s.isElevateConnected ==> s.isElevateRecord)
            && (s.isElevateRecord ==> CommitmentId(env.checks, s).Str?)
            && (s.rdRecord.NoRecord? ==> !s.isElevateRecord && !s.isElevateConnected)
  {
    ReachableInv(env, events);
  }

  /** A pending id is an Elevate record that is not connected; for a known
      customer it raises the create-record-failed error. */
  lemma PendingCommitmentId(env: Env, s: State, suffix: string)
    requires CommitmentId(env.checks, s) == Str(PENDING_PREFIX + suffix)
    ensures var r := CheckElevateStatus(env, s);
            r.isElevateRecord && !r.isElevateConnected
            && (s.isElevateCustomer == Bool(true)
                ==> r.error == HandleError(env, s, CreateRecordFailedError(env.labels)).error)
            && (s.isElevateCustomer != Bool(true) ==> r.error == s.error)
  {
    assert (PENDING_PREFIX + suffix)[..|PENDING_PREFIX|] == PENDING_PREFIX;
  }

  /** An id without the prefix is connected and raises nothing. */
  lemma PlainCommitmentId(env: Env, s: State)
    requires CommitmentId(env.checks, s) == Str("abc123")
    ensures var r := CheckElevateStatus(env, s);
            r.isElevateRecord && r.isElevateConnected && r.error == s.error && r.permissions == s.permissions
  {
  }

  /** Without a commitment id neither flag holds and nothing is raised,
      whatever the customer flag. */
  lemma MissingCommitmentId(env: Env, s: State)
    requires s.rdRecord.NoRecord? || s.rdRecord.data.fields.None?
             || COMMITMENT_ID_FIELD !in s.rdRecord.data.fields.value
             || s.rdRecord.data.fields.value[COMMITMENT_ID_FIELD] == Null
    ensures var r := CheckElevateStatus(env, s);
            !r.isElevateRecord && !r.isElevateConnected && r.error == s.error && r.permissions == s.permissions
  {
  }

  /** `checkElevateStatus` raises the create-record-failed error exactly for a
      known customer whose record has an unconfirmed commitment id. */
  lemma CreateRecordFailedExactly(env: Env, s: State)
    requires CreateRecordFailedKeepsAccess(env) && env.labels.elevateCreateRecordFailed != ""
    ensures var r := CheckElevateStatus(env, s);
            var id := CommitmentId(env.checks, s);
            s.isElevateCustomer == Bool(true) && id.Str? && StartsWith(id.s, PENDING_PREFIX)
            ==> r.error == ErrorModel(Undefined, Str(env.labels.elevateCreateRecordFailed))
                && r.permissions == s.permissions
  {
  }

  /** In every other case `checkElevateStatus` leaves error and permissions
      alone, whatever the labels say. */
  lemma CreateRecordFailedOnlyWhenPending(env: Env, s: State)
    ensures var r := CheckElevateStatus(env, s);
            var id := CommitmentId(env.checks, s);
            !(s.isElevateCustomer == Bool(true) && id.Str? && StartsWith(id.s, PENDING_PREFIX))
            ==> r.error == s.error && r.permissions == s.permissions
  {
  }

  // ---------------------------------------------------------------------------
  // The loading flag

  /** `checkLoading` sets the loading flag by the rule, whatever raising the
      create-record-failed error does afterwards, and always recomputes the
      connection flags. */
  lemma CheckLoadingRule(env: Env, s: State)
    ensures var r := CheckLoading(env, s);
            (s.isElevateCustomer == Bool(false) || s.permissions.hasAccess == Bool(false) ==> !r.isLoading)
            && (s.isElevateCustomer != Bool(false) && s.permissions.hasAccess != Bool(false)
                ==> (r.isLoading <==> Absent(s.isElevateCustomer) || s.rdRecord.NoRecord? || Absent(s.fields.name)))
            && FlagsMatchRecord(env.checks, r)
  {
    assert CommitmentId(env.checks, CheckLoading(env, s)) == CommitmentId(env.checks, s);
  }

  /** `finally` runs `checkLoading` after the success callback and after the
      failure callback alike. */
  lemma SettleRunsCheckLoading(env: Env, s: State, outcome: DataOutcome)
    ensures var settled := if outcome.Resolved? then ApplyResponse(env, s, outcome.response)
                           else HandleError(env, s, outcome.reason);
            var r := OnDataSettled(env, s, outcome);
            r.isLoading == LoadingRule(env.checks, settled) && FlagsMatchRecord(env.checks, r)
  {
    var settled := if outcome.Resolved? then ApplyResponse(env, s, outcome.response)
                   else HandleError(env, s, outcome.reason);
    CheckLoadingRule(env, settled);
  }

  /** A response saying the user is not an Elevate customer stops loading,
      denies access and raises nothing, whatever else has arrived. */
  lemma NonCustomerResponse(env: Env, s: State, response: Response)
    requires response.isElevateCustomer == Bool(false)
    ensures var r := OnDataSettled(env, s, Resolved(response));
            !r.isLoading && r.permissions.hasAccess == Bool(false)
            && r.error == s.error && r.status == s.status
  {
  }

  /** A rejection whose error names the controller denies access and stops
      loading; unless the create-record-failed error replaces it, the banner
      shows the insufficient-permissions header. */
  lemma ControllerRejection(env: Env, s: State, reason: ErrorArg)
    requires RevokesAccess(StoredError(env, reason))
    ensures var r := OnDataSettled(env, s, Rejected(reason));
            !r.isLoading && r.permissions.hasAccess == Bool(false)
            && (s.isElevateCustomer != Bool(true) ==> r.error.header == Str(env.labels.insufficientPermissions))
  {
    CheckLoadingRule(env, HandleError(env, s, reason));
  }

  // ---------------------------------------------------------------------------
  // The success callback of getData

  /** Access is granted exactly to a customer with field permissions and no
      alert, whichever branch runs afterwards. */
  lemma ResponseAccess(env: Env, s: State, response: Response)
    ensures var r := ApplyResponse(env, s, response);
            r.isElevateCustomer == response.isElevateCustomer
            && r.permissions.alert == response.alert
            && (r.permissions.hasAccess == Bool(true) <==>
                response.isElevateCustomer == Bool(true) && response.hasFieldPermissions == Bool(true)
                && env.checks.IsNull(response.alert))
            && (r.permissions.hasAccess == Bool(true) || r.permissions.hasAccess == Bool(false))
  {
  }

  /** After the whole handler access is granted only by that rule, and by it
      whenever the create-record-failed error keeps access. */
  lemma SettledAccess(env: Env, s: State, response: Response)
    ensures var r := OnDataSettled(env, s, Resolved(response));
            (r.permissions.hasAccess == Bool(true) ==> GrantedAccess(env.checks, response))
            && (GrantedAccess(env.checks, response) && CreateRecordFailedKeepsAccess(env)
                ==> r.permissions.hasAccess == Bool(true))
  {
    ResponseAccess(env, s, response);
  }

  /** For a customer, a non-null alert wins: it becomes the error and neither
      the field-permission branch nor the error-message branch runs. */
  lemma AlertBranch(env: Env, s: State, response: Response)
    requires response.isElevateCustomer == Bool(true) && !env.checks.IsNull(response.alert)
    ensures var r := ApplyResponse(env, s, response);
            r.status == s.status
            && (Truthy(response.alert) ==> r.error.detail == response.alert)
            && (!Truthy(response.alert) ==> r.error.detail == env.constructErrorMessage(ErrorObject(ErrorModel(Undefined, response.alert))).detail)
            && (Truthy(response.alert) && !Includes(response.alert.s, CONTROLLER_MARKER)
                ==> r.error == ErrorModel(Undefined, response.alert))
            && (Truthy(response.alert) && Includes(response.alert.s, CONTROLLER_MARKER)
                ==> r.error == ErrorModel(Str(env.labels.insufficientPermissions), response.alert))
            && r.permissions.hasAccess == Bool(false)
  {
  }

  /** The field-permission error is raised for a customer with a null alert
      and field permissions strictly false. */
  lemma FieldPermissionBranch(env: Env, s: State, response: Response)
    requires response.isElevateCustomer == Bool(true) && env.checks.IsNull(response.alert)
    requires response.hasFieldPermissions == Bool(false)
    ensures var r := ApplyResponse(env, s, response);
            r.status == s.status && r.permissions.hasAccess == Bool(false)
            && (env.labels.flsErrorDetail != "" ==> r.error.detail == Str(env.labels.flsErrorDetail))
            && (env.labels.flsErrorDetail != "" && !Includes(env.labels.flsErrorDetail, CONTROLLER_MARKER)
                ==> r.error.header == Str(env.labels.flsErrorHeader))
  {
  }

  /** A server error message for a customer with no alert and field permissions
      not denied only turns the status into an error status. */
  lemma ErrorMessageBranch(env: Env, s: State, response: Response)
    requires response.isElevateCustomer == Bool(true) && env.checks.IsNull(response.alert)
    requires response.hasFieldPermissions != Bool(false) && !env.checks.IsNull(response.errorMessage)
    ensures var r := ApplyResponse(env, s, response);
            r.error == s.error
            && r.status == s.status.(message := response.errorMessage, value := "error",
                                     icon := "utility:error", assistiveText := env.labels.textError)
  {
  }

  /** The error changes only in the alert and field-permission branches, and
      the status only in the error-message branch. */
  lemma ResponseRaisesOnlyInBranches(env: Env, s: State, response: Response)
    ensures ApplyResponse(env, s, response).error != s.error
            ==> response.isElevateCustomer == Bool(true)
                && (!env.checks.IsNull(response.alert) || response.hasFieldPermissions == Bool(false))
    ensures ApplyResponse(env, s, response).status != s.status
            ==> response.isElevateCustomer == Bool(true) && env.checks.IsNull(response.alert)
                && response.hasFieldPermissions != Bool(false) && !env.checks.IsNull(response.errorMessage)
    ensures response.isElevateCustomer != Bool(true)
            ==> ApplyResponse(env, s, response).error == s.error && ApplyResponse(env, s, response).status == s.status
  {
  }

  // ---------------------------------------------------------------------------
  // handleError and clearError

  /** Clearing the error leaves no error, touches nothing else, and clearing
      again changes nothing. */
  lemma ClearErrorIdempotent(env: Env, s: State, arg: ErrorArg)
    ensures ClearError(ClearError(s)) == ClearError(s)
    ensures ClearError(HandleError(env, s, arg)).permissions == HandleError(env, s, arg).permissions
    ensures ClearError(HandleError(env, s, arg)).error == NO_ERROR
  {
  }

  /** A detail naming the controller revokes access wherever it occurs in it. */
  lemma ControllerDetailRevokes(env: Env, s: State, pre: string, post: string)
    ensures var r := HandleError(env, s, ErrorObject(ErrorModel(Undefined, Str(pre + CONTROLLER_MARKER + post))));
            r.permissions.hasAccess == Bool(false)
            && r.error == ErrorModel(Str(env.labels.insufficientPermissions), Str(pre + CONTROLLER_MARKER + post))
  {
    var d := pre + CONTROLLER_MARKER + post;
    assert d[|pre|..|pre| + |CONTROLLER_MARKER|] == CONTROLLER_MARKER;
    IncludesAt(d, CONTROLLER_MARKER, |pre|);
  }

  // ---------------------------------------------------------------------------
  // The wire handlers

  /** A pending closed reason turns the status into a progress status with the
      pending label; any other leaves the status alone. The record is replaced
      and the connection flags follow it. */
  lemma RecordWireStatus(env: Env, s: State, data: RecordData, err: Option<ErrorArg>)
    ensures var r := OnRecord(env, s, WireResponse(Some(data), err));
            var pending := GetValue(env.checks, Record(data), CLOSED_REASON_FIELD) == Str(env.labels.statusElevatePending);
            r.rdRecord == Record(data)
            && (pending ==> r.status == s.status.(isProgress := true, message := Str(env.labels.statusElevatePending)))
            && (!pending ==> r.status == s.status)
  {
  }

  /** Object metadata stores the two describes and recomputes the flags. */
  lemma ObjectInfoWireFields(env: Env, s: State, info: ObjectInfo, err: Option<ErrorArg>)
    requires Inv(env, s)
    ensures var r := OnObjectInfo(env, s, WireResponse(Some(info), err));
            r.fields == FieldDescribes(env.extractFieldInfo(info.fields, NAME_FIELD),
                                       env.extractFieldInfo(info.fields, COMMITMENT_ID_FIELD))
            && Inv(env, r)
  {
    CheckLoadingEstablishesInv(env, SetFields(env, s, info.fields));
  }
}

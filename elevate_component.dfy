/** The component itself: its fields, updated in place by its event handlers
    and shared routines. Each method is proved to leave the fields as the
    matching function of ElevateModel says. */
module ElevateComponent {
  import opened Js
  import opened ElevateModel
  import ElevateProperties

  class Rd2ElevateInformation {
    /** The labels and the shared utility helpers the component imports. */
    const env: Env

    var rdRecord: RecordSlot
    var fields: FieldDescribes
    var status: Status
    var isLoading: bool
    var isElevateCustomer: Value
    var isElevateRecord: bool
    var isElevateConnected: bool
    var permissions: Permissions
    var error: ErrorModel

    /** The fields as one value. */
    function Snapshot(): State
      reads this
    {
      State(rdRecord, fields, status, isLoading, isElevateCustomer, isElevateRecord,
            isElevateConnected, permissions, error)
    }

    ghost predicate Valid()
      reads this
    {
      Inv(env, Snapshot())
    }

    /** The field initialisers. */
    constructor (env: Env)
      ensures this.env == env && Snapshot() == Init(env.labels) && Valid()
    {
      this.env := env;
      rdRecord := NoRecord;
      fields := FieldDescribes(Undefined, Undefined);
      status := Status(Str(env.labels.statusSuccess), false, "success", "utility:success", env.labels.textSuccess);
      isLoading := true;
      isElevateCustomer := Undefined;
      isElevateRecord := false;
      isElevateConnected := false;
      permissions := Permissions(Null, Str(""), Undefined);
      error := NO_ERROR;
    }

    /** The `then`, `catch` and `finally` callbacks of the `getData` call made
        by `connectedCallback`. */
    method ConnectedCallbackSettled(outcome: DataOutcome)
      requires Valid()
      modifies this
      ensures Valid()
      ensures Snapshot() == OnDataSettled(env, old(Snapshot()), outcome)
    {
      ghost var before := Snapshot();
      match outcome {
        case Resolved(response) => ApplyResponse(response);
        case Rejected(reason) => HandleError(reason);
      }
      CheckLoading();
      ElevateProperties.StepKeepsInv(env, before, DataSettled(outcome));
    }

    /** The success callback of `getData`. */
    method ApplyResponse(response: Response)
      modifies this
      ensures Snapshot() == ElevateModel.ApplyResponse(env, old(Snapshot()), response)
    {
      isElevateCustomer := response.isElevateCustomer;
      permissions := permissions.(alert := response.alert);
      permissions := permissions.(hasAccess := Bool(isElevateCustomer == Bool(true)
        && response.hasFieldPermissions == Bool(true) && env.checks.IsNull(permissions.alert)));
      if isElevateCustomer == Bool(true) {
        if !env.checks.IsNull(permissions.alert) {
          HandleError(ErrorObject(ErrorModel(Undefined, permissions.alert)));
        } else if response.hasFieldPermissions == Bool(false) {
          HandleError(ErrorObject(ErrorModel(Str(env.labels.flsErrorHeader), Str(env.labels.flsErrorDetail))));
        } else if !env.checks.IsNull(response.errorMessage) {
          status := status.(message := response.errorMessage, value := "error",
                            icon := "utility:error", assistiveText := env.labels.textError);
        }
      }
    }

    /** `wiredRecurringDonationObjectInfo`. Like the record handler it may be
        called in any state, not only a valid one: its error branch can run
        only where `hasAccess()` holds, which no valid state allows. */
    method WiredRecurringDonationObjectInfo(response: WireResponse<ObjectInfo>)
      modifies this
      ensures old(Valid()) ==> Valid()
      ensures Snapshot() == OnObjectInfo(env, old(Snapshot()), response)
    {
      ghost var before := Snapshot();
      if response.data.Some? {
        SetFields(response.data.value.fields);
        CheckLoading();
      }
      if response.error.Some? && HasAccess(env.checks, permissions) {
        HandleError(response.error.value);
      }
      if Inv(env, before) {
        ElevateProperties.StepKeepsInv(env, before, ObjectInfoWired(response));
      }
    }

    /** `wiredRecurringDonation`. */
    method WiredRecurringDonation(response: WireResponse<RecordData>)
      modifies this
      ensures old(Valid()) ==> Valid()
      ensures Snapshot() == OnRecord(env, old(Snapshot()), response)
    {
      ghost var before := Snapshot();
      if response.data.Some? {
        rdRecord := Record(response.data.value);
        if GetValue(env.checks, rdRecord, CLOSED_REASON_FIELD) == Str(env.labels.statusElevatePending) {
          status := status.(isProgress := true, message := Str(env.labels.statusElevatePending));
        }
        CheckLoading();
      }
      if response.error.Some? && HasAccess(env.checks, permissions) {
        HandleError(response.error.value);
      }
      if Inv(env, before) {
        ElevateProperties.StepKeepsInv(env, before, RecordWired(response));
      }
    }

    /** `checkLoading`. */
    method CheckLoading()
      modifies this
      ensures Snapshot() == ElevateModel.CheckLoading(env, old(Snapshot()))
    {
      if IsNot(env.checks, isElevateCustomer) || IsNot(env.checks, permissions.hasAccess) {
        isLoading := false;
      } else {
        isLoading := !IsSet(env.checks, isElevateCustomer)
          || !IsSet(env.checks, rdRecord.AsValue())
          || !IsSet(env.checks, fields.name);
      }
      CheckElevateStatus();
    }

    /** `checkElevateStatus`. */
    method CheckElevateStatus()
      modifies this
      ensures Snapshot() == ElevateModel.CheckElevateStatus(env, old(Snapshot()))
      ensures isElevateConnected ==> isElevateRecord
    {
      var commitmentId := GetValue(env.checks, rdRecord, COMMITMENT_ID_FIELD);
      isElevateRecord := !env.checks.IsNull(commitmentId);
      isElevateConnected := isElevateRecord && !StartsWith(commitmentId.s, PENDING_PREFIX);
      if isElevateCustomer == Bool(true) && isElevateRecord && !isElevateConnected {
        HandleError(CreateRecordFailedError(env.labels));
      }
    }

    /** `setFields`. */
    method SetFields(fieldInfos: map<string, Value>)
      modifies this
      ensures Snapshot() == ElevateModel.SetFields(env, old(Snapshot()), fieldInfos)
    {
      fields := fields.(name := env.extractFieldInfo(fieldInfos, NAME_FIELD));
      fields := fields.(commitmentId := env.extractFieldInfo(fieldInfos, COMMITMENT_ID_FIELD));
    }

    /** `clearError`, run when the error banner is dismissed. */
    method ClearError()
      requires Valid()
      modifies this
      ensures Valid()
      ensures Snapshot() == ElevateModel.ClearError(old(Snapshot()))
    {
      ghost var before := Snapshot();
      error := NO_ERROR;
      ElevateProperties.StepKeepsInv(env, before, ErrorDismissed);
    }

    /** `handleError`. */
    method HandleError(arg: ErrorArg)
      modifies this
      ensures Snapshot() == ElevateModel.HandleError(env, old(Snapshot()), arg)
    {
      error := if arg.ErrorObject? && Truthy(arg.model.detail) then arg.model else env.constructErrorMessage(arg);
      if Truthy(error.detail) && Includes(error.detail.s, CONTROLLER_MARKER) {
        permissions := permissions.(hasAccess := Bool(false));
        error := error.(header := Str(env.labels.insufficientPermissions));
      }
    }
  }
}

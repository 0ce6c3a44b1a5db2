# Elevate information panel of a Recurring Donation, in Dafny

This project models the logic of the `rd2ElevateInformation` Lightning web
component. The component shows, on a Recurring Donation record page, whether
that record is connected to the Elevate payment platform. Three sources feed
it, in any order:

- the `getData` server call, which says whether the user is an Elevate customer
  with field permissions and may carry an alert or an error message;
- the object-metadata wire, which delivers the describes of the Name and
  CommitmentId__c fields;
- the record wire, which delivers the record (Name, CommitmentId__c,
  Status__c, ClosedReason__c) and fires again whenever the record changes.

From these the component derives its fields: `isLoading`, `isElevateCustomer`,
`isElevateRecord`, `isElevateConnected`, `permissions`, `status`, `error`,
`rdRecord` and `fields`.

The project has four modules:

- `Js` (js.dfy): JavaScript values with `undefined` and `null` kept distinct,
  truthiness, `startsWith` and `includes`, and the utility module's
  `isNull`/`isUndefined` checks as opaque absence checks.
- `ElevateModel` (elevate_model.dfy): the component's fields as one `State`
  value. Each handler and shared routine is a function from the state before to
  the state after. The module also defines `Step` and `Run`, which deliver
  events in any order, and the invariant `Inv` that holds between events.
- `ElevateComponent` (elevate_component.dfy): the class
  `Rd2ElevateInformation`. It has the component's fields and one method per
  handler and routine, and each method updates the fields in place. Every
  method is proved to leave `Snapshot()` equal to its `ElevateModel` function
  applied to the old snapshot. Every event method also keeps `Valid()`, the
  invariant.
- `ElevateProperties` (elevate_properties.dfy): the lemmas. They show that the
  invariant holds for every sequence of events, and they state the rules the
  handlers follow: the access rule, branch precedence, the loading rule, the
  connection flags, the create-record-failed error and error handling.

The model proves a latent defect present in the code as written. `hasAccess()`
reads `permissions.isElevateCustomer`, and nothing ever assigns that property;
the assigned property is the top-level `isElevateCustomer`. So `hasAccess()`
is false in every reachable state, and neither wire handler ever reports its
error. The model keeps this behaviour as written (`HasAccessNeverHolds`,
`WireErrorsIgnored`) and does not correct it.

Modelling choices:

- `isNull` and `isUndefined` belong to a utility module whose bodies are not
  part of this model. The model assumes only that each accepts the absent value
  it is named for and rejects every present value. Whether `isNull` also
  accepts `undefined`, and whether `isUndefined` also accepts `null`, are two
  free parameters (`AbsenceChecks`). Every result holds for all four choices.
- `constructErrorMessage` and `extractFieldInfo` are uninterpreted functions,
  carried in `Env` together with the labels. Labels are opaque strings.
- A label's text is not known, so the create-record-failed label might itself
  name the controller. If it did, raising it would revoke access after the
  loading flag had been computed. The loading part of the invariant therefore
  carries the premise `CreateRecordFailedKeepsAccess(env)`; everything else in
  the invariant holds unconditionally.
- `clearError` has no caller in the component's JavaScript. It is modelled as an event
  (`ErrorDismissed`) that can arrive between any two other events.

## Model

| member | source | states |
|---|---|---|
| `ElevateModel.Init` | src/lwc/rd2ElevateInformation/rd2ElevateInformation.js:59-78 | the component starts loading, with no customer flag, `hasAccess` null, no record, both connection flags false and an empty error |
| `ElevateModel.IsSet` | src/lwc/rd2ElevateInformation/rd2ElevateInformation.js:230-232 | `isSet` holds exactly for values that are neither `undefined` nor `null`, whatever else the absence checks accept |
| `ElevateModel.IsTrue` | src/lwc/rd2ElevateInformation/rd2ElevateInformation.js:216-218 | `isTrue` holds exactly for the value `true` |
| `ElevateModel.IsNot` | src/lwc/rd2ElevateInformation/rd2ElevateInformation.js:223-225 | `isNot` holds exactly for the value `false` |
| `ElevateModel.HasValue` | src/lwc/rd2ElevateInformation/rd2ElevateInformation.js:247-252 | true exactly when the record is loaded, has a fields map with an entry for the field, and the entry's value is a string (not null) |
| `ElevateModel.GetValue` | src/lwc/rd2ElevateInformation/rd2ElevateInformation.js:237-241 | the result is null or a string; it is the field's string value exactly when the record, its fields map and the entry exist and the value is not null, and null otherwise |
| `ElevateModel.HasAccess` | src/lwc/rd2ElevateInformation/rd2ElevateInformation.js:172-175 | `hasAccess()` holds exactly when both `permissions.isElevateCustomer` and `permissions.hasAccess` are strictly true |
| `ElevateModel.HandleError` | src/lwc/rd2ElevateInformation/rd2ElevateInformation.js:280-289 | an argument with a truthy detail keeps that detail, any other gets the detail of `constructErrorMessage`; a stored detail naming the controller sets `hasAccess` to false and the header to the insufficient-permissions label, otherwise permissions are untouched and the stored error is kept whole; nothing but `error` and `permissions.hasAccess` changes |
| `ElevateModel.ClearError` | src/lwc/rd2ElevateInformation/rd2ElevateInformation.js:272-274 | the error becomes empty and nothing else changes |
| `ElevateModel.CheckElevateStatus` | src/lwc/rd2ElevateInformation/rd2ElevateInformation.js:197-211 | `isElevateRecord` holds exactly when the commitment id is a string; `isElevateConnected` holds exactly when it also lacks the `_PENDING_` prefix; a known customer with an unconnected record gets `handleError`'s result for the create-record-failed label, and otherwise error and permissions are unchanged; only the two flags, error and permissions change |
| `ElevateModel.LoadingRule` | src/lwc/rd2ElevateInformation/rd2ElevateInformation.js:181-188 | loading is false when the customer flag or `hasAccess` is false; otherwise it is true exactly when the customer flag is absent, the record is missing or the Name describe is absent |
| `ElevateModel.CheckLoading` | src/lwc/rd2ElevateInformation/rd2ElevateInformation.js:180-191 | the loading flag is `LoadingRule` of the starting state, the connection flags agree with the record afterwards, and record, describes, status and customer flag are untouched (`ElevateProperties.CheckLoadingRule` spells the rule out) |
| `ElevateModel.SetFields` | src/lwc/rd2ElevateInformation/rd2ElevateInformation.js:257-260 | the Name and CommitmentId__c describes become what `extractFieldInfo` gives for those field names, and nothing else changes |
| `ElevateModel.ApplyResponse` | src/lwc/rd2ElevateInformation/rd2ElevateInformation.js:86-113 | the customer flag and alert are the response's own, `permissions.isElevateCustomer` is untouched, and only the customer flag, permissions, error and status change (`ElevateProperties.ResponseAccess` and the branch lemmas give the rest) |
| `ElevateModel.OnDataSettled` | src/lwc/rd2ElevateInformation/rd2ElevateInformation.js:84-120 | record and describes are untouched, `permissions.isElevateCustomer` stays unassigned, and the connection flags agree with the record, because `finally` always runs `checkLoading` (`ElevateProperties.SettleRunsCheckLoading`) |
| `ElevateModel.OnObjectInfo` | src/lwc/rd2ElevateInformation/rd2ElevateInformation.js:126-142 | record and status are untouched and `permissions.isElevateCustomer` stays unassigned; with data the describes are the extractor's, without data they are unchanged (`ElevateProperties.ObjectInfoWireFields`, `ElevateProperties.WireErrorsIgnored`) |
| `ElevateModel.StoreRecord` | src/lwc/rd2ElevateInformation/rd2ElevateInformation.js:153-159 | the record becomes the delivered one; a pending closed reason sets `isProgress` and the pending message, any other reason leaves the status; nothing else changes |
| `ElevateModel.OnRecord` | src/lwc/rd2ElevateInformation/rd2ElevateInformation.js:152-167 | with data the record is replaced and the connection flags follow it; without data the record is unchanged; describes and `permissions.isElevateCustomer` are untouched (`ElevateProperties.RecordWireStatus`) |
| `ElevateModel.Step` | src/lwc/rd2ElevateInformation/rd2ElevateInformation.js:84-167 | no event assigns `permissions.isElevateCustomer` (`ElevateProperties.StepKeepsInv` gives the whole invariant) |
| `ElevateModel.Run` | src/lwc/rd2ElevateInformation/rd2ElevateInformation.js:84-167 | no sequence of events, in any order, assigns `permissions.isElevateCustomer` (`ElevateProperties.RunKeepsInv`) |
| `ElevateProperties.CheckLoadingRule` | src/lwc/rd2ElevateInformation/rd2ElevateInformation.js:180-191 | `checkLoading` sets the loading flag by that rule from the state it starts from, and the connection flags always agree with the record afterwards |
| `ElevateProperties.CheckLoadingEstablishesInv` | src/lwc/rd2ElevateInformation/rd2ElevateInformation.js:180-211 | after `checkLoading` the invariant holds, provided `permissions.isElevateCustomer` is still unassigned |
| `ElevateProperties.SettleRunsCheckLoading` | src/lwc/rd2ElevateInformation/rd2ElevateInformation.js:114-119 | after success and after failure of `getData` alike, the loading flag follows the rule for the state the callback left and the connection flags are recomputed |
| `ElevateProperties.NonCustomerResponse` | src/lwc/rd2ElevateInformation/rd2ElevateInformation.js:86-119 | a response with `isElevateCustomer` false stops loading, denies access, and leaves error and status unchanged |
| `ElevateProperties.ControllerRejection` | src/lwc/rd2ElevateInformation/rd2ElevateInformation.js:114-119 | a rejection whose error names the controller denies access and stops loading; unless the user was already a known customer, the header is the insufficient-permissions label |
| `ElevateProperties.ResponseAccess` | src/lwc/rd2ElevateInformation/rd2ElevateInformation.js:87-92 | after the success callback, the customer flag and the alert are the response's own, and `hasAccess` is a boolean that is true exactly when the response says customer, field permissions strictly true and a null alert |
| `ElevateProperties.SettledAccess` | src/lwc/rd2ElevateInformation/rd2ElevateInformation.js:87-119 | after the whole handler, access is granted only by that rule, and always by it unless the create-record-failed error revokes access |
| `ElevateProperties.AlertBranch` | src/lwc/rd2ElevateInformation/rd2ElevateInformation.js:94-99 | for a customer with a non-null alert, a truthy alert becomes the whole error (no header, or the insufficient-permissions header when it names the controller), so the field-security branch does not run; an empty alert goes through `constructErrorMessage`; the status is untouched and access is denied |
| `ElevateProperties.FieldPermissionBranch` | src/lwc/rd2ElevateInformation/rd2ElevateInformation.js:100-105 | for a customer with a null alert and field permissions strictly false, the field-security detail and header are raised, the status is untouched and access is denied |
| `ElevateProperties.ErrorMessageBranch` | src/lwc/rd2ElevateInformation/rd2ElevateInformation.js:106-111 | a server error message with no alert and field permissions not denied changes only the status message, value, icon and assistive text, and leaves the error untouched |
| `ElevateProperties.ResponseRaisesOnlyInBranches` | src/lwc/rd2ElevateInformation/rd2ElevateInformation.js:94-112 | the error changes only for a customer with an alert or denied field permissions; the status changes only in the error-message branch; a non-customer response changes neither |
| `ElevateProperties.ClearErrorIdempotent` | src/lwc/rd2ElevateInformation/rd2ElevateInformation.js:272-274 | clearing twice equals clearing once, and clearing after `handleError` leaves an empty error and the permissions `handleError` set |
| `ElevateProperties.ControllerDetailRevokes` | src/lwc/rd2ElevateInformation/rd2ElevateInformation.js:285-288 | a detail that contains the controller's name anywhere revokes access and gets the insufficient-permissions header |
| `Js.IncludesAt` | src/lwc/rd2ElevateInformation/rd2ElevateInformation.js:285 | an occurrence of the part at any index makes `includes` true |
| `Js.FirstAt` | src/lwc/rd2ElevateInformation/rd2ElevateInformation.js:285 | when `includes` is true, the result is an index where the part occurs, so `includes` holds exactly when an occurrence exists |
| `ElevateProperties.PendingCommitmentId` | src/lwc/rd2ElevateInformation/rd2ElevateInformation.js:197-210 | an id `_PENDING_` followed by anything is an Elevate record that is not connected; it raises the create-record-failed error for a known customer and nothing otherwise |
| `ElevateProperties.PlainCommitmentId` | src/lwc/rd2ElevateInformation/rd2ElevateInformation.js:197-210 | the id `abc123` is an Elevate record that is connected, and no error is raised |
| `ElevateProperties.MissingCommitmentId` | src/lwc/rd2ElevateInformation/rd2ElevateInformation.js:198-210 | with no record, no fields map, no commitment id entry or a null id, neither flag holds and nothing is raised, whatever the customer flag |
| `ElevateProperties.CreateRecordFailedExactly` | src/lwc/rd2ElevateInformation/rd2ElevateInformation.js:203-210 | if the label is non-empty and keeps access, a known customer with a `_PENDING_` id gets exactly the create-record-failed error and unchanged permissions |
| `ElevateProperties.CreateRecordFailedOnlyWhenPending` | src/lwc/rd2ElevateInformation/rd2ElevateInformation.js:203-210 | in every other case, whatever the labels, error and permissions are unchanged |
| `ElevateProperties.StepKeepsInv` | src/lwc/rd2ElevateInformation/rd2ElevateInformation.js:84-167 | every event keeps the invariant: `permissions.isElevateCustomer` unassigned, connection flags agreeing with the record, and the loading flag following its rule |
| `ElevateProperties.RunKeepsInv` | src/lwc/rd2ElevateInformation/rd2ElevateInformation.js:84-167 | any sequence of events, in any order, keeps the invariant |
| `ElevateProperties.ReachableInv` | src/lwc/rd2ElevateInformation/rd2ElevateInformation.js:59-167 | the invariant holds in the initial state and in every state reached from it |
| `ElevateProperties.HasAccessNeverHolds` | src/lwc/rd2ElevateInformation/rd2ElevateInformation.js:172-175 | `hasAccess()` is false in every reachable state |
| `ElevateProperties.WireErrorsIgnored` | src/lwc/rd2ElevateInformation/rd2ElevateInformation.js:126-167 | in every reachable state, a wire delivery has the same effect as one without its error, and a delivery with no data changes nothing |
| `ElevateProperties.ConnectionFlagsReachable` | src/lwc/rd2ElevateInformation/rd2ElevateInformation.js:197-201 | in every reachable state, connected implies an Elevate record, which implies a string commitment id; with no record, neither flag holds |
| `ElevateProperties.RecordWireStatus` | src/lwc/rd2ElevateInformation/rd2ElevateInformation.js:153-161 | record data replaces `rdRecord`; a closed reason equal to the pending label sets `isProgress` and the pending message and leaves the other status fields; any other reason leaves the status alone |
| `ElevateProperties.ObjectInfoWireFields` | src/lwc/rd2ElevateInformation/rd2ElevateInformation.js:127-137 | metadata stores the describes `extractFieldInfo` gives for Name and CommitmentId__c, and the invariant holds afterwards |
| `ElevateComponent.Rd2ElevateInformation.constructor` | src/lwc/rd2ElevateInformation/rd2ElevateInformation.js:59-78 | the fields start as the initial state, which satisfies the invariant |
| `ElevateComponent.Rd2ElevateInformation.ConnectedCallbackSettled` | src/lwc/rd2ElevateInformation/rd2ElevateInformation.js:84-120 | the success or failure callback and then `finally` update the fields as the model says, and keep the invariant |
| `ElevateComponent.Rd2ElevateInformation.ApplyResponse` | src/lwc/rd2ElevateInformation/rd2ElevateInformation.js:86-113 | the success callback updates the fields as the model's success callback says |
| `ElevateComponent.Rd2ElevateInformation.WiredRecurringDonationObjectInfo` | src/lwc/rd2ElevateInformation/rd2ElevateInformation.js:126-142 | the metadata handler updates the fields as the model says, from any state, and keeps the invariant when it held before |
| `ElevateComponent.Rd2ElevateInformation.WiredRecurringDonation` | src/lwc/rd2ElevateInformation/rd2ElevateInformation.js:152-167 | the record handler updates the fields as the model says, from any state, and keeps the invariant when it held before |
| `ElevateComponent.Rd2ElevateInformation.CheckLoading` | src/lwc/rd2ElevateInformation/rd2ElevateInformation.js:180-191 | updates the fields as the model's `checkLoading` says |
| `ElevateComponent.Rd2ElevateInformation.CheckElevateStatus` | src/lwc/rd2ElevateInformation/rd2ElevateInformation.js:197-211 | updates the fields as the model's `checkElevateStatus` says; connected implies an Elevate record |
| `ElevateComponent.Rd2ElevateInformation.SetFields` | src/lwc/rd2ElevateInformation/rd2ElevateInformation.js:257-260 | stores the two field describes the extractor gives |
| `ElevateComponent.Rd2ElevateInformation.ClearError` | src/lwc/rd2ElevateInformation/rd2ElevateInformation.js:272-274 | empties the error and keeps the invariant |
| `ElevateComponent.Rd2ElevateInformation.HandleError` | src/lwc/rd2ElevateInformation/rd2ElevateInformation.js:280-289 | updates the fields as the model's `handleError` says |

## Left out

- The `getData` server call, the `getObjectInfo` and `getRecord` wire adapters and the `'$recordId'` reactivity belong to the host platform. Each delivery becomes an argument of an event method: `DataOutcome`, or a `WireResponse` whose `data` and `error` are present when truthy.
- Asynchronous ordering and teardown belong to the host event loop. Interleaving is modelled only as arbitrary sequences of whole handler runs (`Run`). The model does not limit `getData` to settling once.
- `constructErrorMessage` and `extractFieldInfo` are uninterpreted. `buildFieldDescribes` and the `fieldInfos` it produces are not modelled, because nothing reads `fieldInfos`.
- `isNull` and `isUndefined`: their bodies are not part of this model. Each is assumed to accept its namesake absent value and to reject every present value. Without that assumption, `commitmentId.startsWith` could be called on `null`.
- Label text is not part of this model; labels are opaque strings. The frozen `labels` object, the labels the logic never reads (heading, loading message, warning, new-window, contact-admin, Elevate-disabled, view-error-log), `navigateToErrorLog` (empty), and all markup and rendering are presentational.
- JavaScript `TypeError` paths are left out. Inputs have the types the platform's contract gives them: record field values are a string or null; alerts, error messages and error parts are a string or absent. A non-string alert or commitment id, which would make `includes` or `startsWith` throw, cannot be expressed.
- Aliasing: `handleError` stores the object it was given and then sets that object's `header`. The model copies values, so it does not show the change to the caller's object. The component's own callers pass fresh literals, so this only matters for error objects that come from outside.
- `hasValue` returns JavaScript's falsy or truthy operand rather than a boolean. It is modelled as a boolean because its only use is as a condition.
- `ElevateModel.Inv`: its loading part is stated only under `CreateRecordFailedKeepsAccess`. If the create-record-failed label named the controller, `checkElevateStatus` would revoke access after `isLoading` had been computed, and the flag could stay true while access is known to be false.

# Salesforce list-and-editor components, modelled in Dafny

This project models the Lightning Web Components of a Salesforce org that show
business records and edit them. There are two kinds of component.

- **List views** hold a wired record list, a row selection, and Create and Edit
  buttons:
  - `accountsdatatablev2` and `contactdatatable` open the `createAccounts` and
    `createcontacts` modals and refresh the list when the modal closes with
    `'refresh'`;
  - `opportunitydatatable` is written against the same open-and-close contract
    with `createOpportunity`, which is not a modal (see Left out);
  - `accountdatatable` lists leads and toggles an embedded lead form.
- **Editors** load one record, keep a draft, validate it and create or update it:
  - `createAccounts`, `createcontacts`, `editleadmodal` are modals;
  - `createLead` is the embedded lead form;
  - `createOpportunity` is a stand-alone opportunity form;
  - `createBusinessProcess` builds a business-process metadata payload.

Each component is one module, and its component class is a Dafny `class` with
the component's fields. Every handler is a method with `modifies this` whose
`ensures` gives the whole new state. The asynchronous Apex calls, the wire
adapter, `refreshApex` and `LightningModal.open` are not executed. Each becomes
a parameter holding how the call settled. What a component shows or sends —
toasts, component events, `close(...)`, modal opens, refetches and Apex calls
with their arguments — is appended to an `effects` log.

The meaning of each handler sits in a pure function over the same inputs
(`SaveEffects`, `EditEffects`, `ValidationError`, `Normalise`, `ValuesFor`, ...).
The method's `ensures` ties the log and the new state to that function. The
function's own contract, and the lemmas beside it, state what the component
promises, for example:
- a save that fails validation makes no call;
- the modal closes with `'refresh'` only after a successful call;
- Edit opens the modal only for exactly one selected row;
- a business-process full name splits back into object and process name.

Shared vocabulary is in two modules:
- `Lwc`: JavaScript values and their truthiness, `||`, `String.prototype.trim`,
  the editors' draft normalisation, and picklist options;
- `ListView`: the decision logic the three selection-based list views repeat,
  each with its own toasts.

Behaviour worth noting:
- a list view's success or failure toast after a refresh depends on whether the
  refetch resolved or rejected;
- the account and contact editors toast success and then close with
  `'refresh'` unconditionally after a successful call;
- `editleadmodal` closes with `'error'` after a failed save;
- a cancelled modal closes with no result;
- there is no re-entrancy guard on save and no coalescing of refetches (see Left out).

## Model

| member | source | states |
|---|---|---|
| Lwc.ErrorMessage | force-app/main/default/lwc/createLead/createLead.js:69 | the toast text is `body.message` when that is truthy, otherwise `message` |
| Lwc.TrimStartEmptyIff | force-app/main/default/lwc/createOpportunity/createOpportunity.js:242 | stripping leading whitespace leaves nothing exactly when every character is whitespace, and otherwise leaves a non-whitespace first character |
| Lwc.TrimEndEmptyIff | force-app/main/default/lwc/createOpportunity/createOpportunity.js:242 | stripping trailing whitespace leaves nothing exactly when every character is whitespace |
| Lwc.TrimEmptyIffAllWhitespace | force-app/main/default/lwc/createOpportunity/createOpportunity.js:242 | `s.trim() === ''` holds exactly when every character of `s` is ECMAScript white space or a line terminator |
| Lwc.BlankDraft | force-app/main/default/lwc/createAccounts/createAccounts.js:16-24 | the initial draft has exactly the editor's fields, each `''` |
| Lwc.Normalise | force-app/main/default/lwc/createAccounts/createAccounts.js:37-44 | a loaded record becomes exactly the editor's fields; a truthy value is kept, a falsy or missing one becomes `''`, so no field is undefined |
| Lwc.NormaliseIdempotent | force-app/main/default/lwc/createAccounts/createAccounts.js:37-44 | normalising an already normalised draft changes nothing |
| Lwc.NormaliseBlank | force-app/main/default/lwc/createAccounts/createAccounts.js:16-44 | normalising the blank draft gives the blank draft |
| Lwc.Options | force-app/main/default/lwc/createLead/createLead.js:25 | one option per value, in order, with `label == value == the value` |
| Lwc.OptionsRoundTrip | force-app/main/default/lwc/createLead/createLead.js:25 | the option values read back are exactly the fetched values, in order |
| ListView.EditGateOf | force-app/main/default/lwc/opportunitydatatable/opportunitydatatable.js:53-65 | no selection and more than one selected row are refused; exactly one row goes to the modal with that row's `Id` |
| ListView.EditDisabledIffGateRefuses | force-app/main/default/lwc/opportunitydatatable/opportunitydatatable.js:83-85 | the Edit button is disabled exactly when pressing it would only warn |
| ListView.WireErrorText | force-app/main/default/lwc/opportunitydatatable/opportunitydatatable.js:37 | the list's error is `body.message` when truthy, else the fallback text; it is never falsy |
| ListView.RefreshEffects | force-app/main/default/lwc/opportunitydatatable/opportunitydatatable.js:72-77 | a refetch followed by exactly one toast: the success toast exactly when the refetch resolved, the failure toast exactly when it rejected |
| ListView.AfterModal | force-app/main/default/lwc/opportunitydatatable/opportunitydatatable.js:48-50 | after the modal closes there is a refetch exactly when it returned `'refresh'`, and no further modal |
| ListView.CreateEffects | force-app/main/default/lwc/opportunitydatatable/opportunitydatatable.js:45-51 | Create opens the modal without an id and refetches exactly when the modal returned `'refresh'` |
| ListView.EditEffects | force-app/main/default/lwc/opportunitydatatable/opportunitydatatable.js:53-70 | Edit with zero or several rows gives only the matching warning; the modal opens exactly when one row is selected, with its `Id`; a refetch happens exactly when one row was selected and the modal returned `'refresh'` |
| ListView.SelectionAfterModal | force-app/main/default/lwc/opportunitydatatable/opportunitydatatable.js:72-73 | the selection is emptied exactly when a refresh ran and is kept otherwise |
| OpportunityTable.Flatten | force-app/main/default/lwc/opportunitydatatable/opportunitydatatable.js:29-33 | a row keeps every field and gains `AccountName` and `FYGoalsName` from the parent records, undefined when a parent is missing |
| OpportunityTable.FlattenAll | force-app/main/default/lwc/opportunitydatatable/opportunitydatatable.js:27-34 | one flattened row per fetched record, in order |
| OpportunityTable.Opportunitydatatable.constructor | force-app/main/default/lwc/opportunitydatatable/opportunitydatatable.js:9-11 | empty rows and selection, no error |
| OpportunityTable.Opportunitydatatable.WiredOpportunities | force-app/main/default/lwc/opportunitydatatable/opportunitydatatable.js:24-39 | data gives the flattened rows and clears the error; an error empties the rows and sets the error text; the invariant "an error only over an empty table" is kept |
| OpportunityTable.Opportunitydatatable.HandleRowSelection | force-app/main/default/lwc/opportunitydatatable/opportunitydatatable.js:41-43 | the selection becomes the rows the table reports; nothing else changes |
| OpportunityTable.Opportunitydatatable.RefreshData | force-app/main/default/lwc/opportunitydatatable/opportunitydatatable.js:72-77 | the selection is cleared and the refresh effects are logged; rows and error are untouched |
| OpportunityTable.Opportunitydatatable.HandleCreateOpportunity | force-app/main/default/lwc/opportunitydatatable/opportunitydatatable.js:45-51 | logs `CreateEffects`; the selection is cleared exactly when a refresh ran |
| OpportunityTable.Opportunitydatatable.HandleEditOpportunity | force-app/main/default/lwc/opportunitydatatable/opportunitydatatable.js:53-70 | logs `EditEffects` for the selection the handler started with; a refused edit leaves the selection alone |
| OpportunityTable.Opportunitydatatable.IsEditDisabled | force-app/main/default/lwc/opportunitydatatable/opportunitydatatable.js:83-85 | disabled exactly when the selection does not hold exactly one row |
| AccountTableV2.Accountsdatatablev2.constructor | force-app/main/default/lwc/accountsdatatablev2/accountsdatatablev2.js:10-12 | empty rows and selection, no error |
| AccountTableV2.Accountsdatatablev2.WiredAccounts | force-app/main/default/lwc/accountsdatatablev2/accountsdatatablev2.js:28-37 | data is copied in order and clears the error; an error empties the rows and sets `body.message` or `'Unknown error'` |
| AccountTableV2.Accountsdatatablev2.HandleRowSelection | force-app/main/default/lwc/accountsdatatablev2/accountsdatatablev2.js:39-41 | the selection becomes the reported rows; nothing else changes |
| AccountTableV2.Accountsdatatablev2.HandleCreateAccount | force-app/main/default/lwc/accountsdatatablev2/accountsdatatablev2.js:42-45 | opens the account modal without an id and refreshes exactly on `'refresh'` |
| AccountTableV2.Accountsdatatablev2.HandleEditAccount | force-app/main/default/lwc/accountsdatatablev2/accountsdatatablev2.js:48-63 | the account-specific warnings for zero or several rows; the modal opens only for a single row, with its `Id` |
| AccountTableV2.Accountsdatatablev2.RefreshData | force-app/main/default/lwc/accountsdatatablev2/accountsdatatablev2.js:65-70 | the selection is cleared; `'Refreshed'` or `'Refresh failed'` follows the refetch |
| AccountTableV2.Accountsdatatablev2.IsEditDisabled | force-app/main/default/lwc/accountsdatatablev2/accountsdatatablev2.js:76-78 | disabled exactly when the selection does not hold exactly one row |
| ContactTable.ContactDatatable.constructor | force-app/main/default/lwc/contactdatatable/contactdatatable.js:9-11 | empty rows and selection, no error |
| ContactTable.ContactDatatable.WiredContacts | force-app/main/default/lwc/contactdatatable/contactdatatable.js:25-34 | data is copied in order and clears the error; an error empties the rows and sets `body.message` or `'Unknown error'` |
| ContactTable.ContactDatatable.HandleRowSelection | force-app/main/default/lwc/contactdatatable/contactdatatable.js:36-38 | the selection becomes the reported rows; nothing else changes |
| ContactTable.ContactDatatable.HandleCreateContact | force-app/main/default/lwc/contactdatatable/contactdatatable.js:39-42 | opens the contact modal without an id and refreshes exactly on `'refresh'` |
| ContactTable.ContactDatatable.HandleEditContact | force-app/main/default/lwc/contactdatatable/contactdatatable.js:45-60 | the contact-specific warnings for zero or several rows; the modal opens only for a single row, with its `Id` |
| ContactTable.ContactDatatable.RefreshData | force-app/main/default/lwc/contactdatatable/contactdatatable.js:62-67 | the selection is cleared; `'Refreshed'` or `'Refresh failed'` follows the refetch |
| ContactTable.ContactDatatable.IsEditDisabled | force-app/main/default/lwc/contactdatatable/contactdatatable.js:73-75 | disabled exactly when the selection does not hold exactly one row |
| LeadTable.NumberRows | force-app/main/default/lwc/accountdatatable/accountdatatable.js:18-21 | one row per lead, in order, each keeping its fields, with `rowNumber` equal to its position plus one |
| LeadTable.RowNumbersDistinct | force-app/main/default/lwc/accountdatatable/accountdatatable.js:18-21 | row numbers are distinct and lie between 1 and the number of rows |
| LeadTable.Accountdatatable.constructor | force-app/main/default/lwc/accountdatatable/accountdatatable.js:8-11 | no rows, form closed, no lead, not in view mode |
| LeadTable.Accountdatatable.WiredLeads | force-app/main/default/lwc/accountdatatable/accountdatatable.js:15-25 | data gives the numbered rows; an error keeps the previous rows and logs the load-failure toast |
| LeadTable.Accountdatatable.HandleEditClick | force-app/main/default/lwc/accountdatatable/accountdatatable.js:27-32 | opens the form in edit mode on the clicked lead; the invariant "closed form has no lead, view mode implies open" is kept |
| LeadTable.Accountdatatable.HandleViewClick | force-app/main/default/lwc/accountdatatable/accountdatatable.js:34-39 | opens the form in view mode on the clicked lead |
| LeadTable.Accountdatatable.HandleCreateLead | force-app/main/default/lwc/accountdatatable/accountdatatable.js:41-45 | opens the form in edit mode with no lead |
| LeadTable.Accountdatatable.HandleModalClose | force-app/main/default/lwc/accountdatatable/accountdatatable.js:47-51 | closes the form and forgets the lead and the mode |
| LeadTable.Accountdatatable.RefreshData | force-app/main/default/lwc/accountdatatable/accountdatatable.js:53-55 | one refetch and nothing else |
| AccountEditor.LoadEffects | force-app/main/default/lwc/createAccounts/createAccounts.js:32-51 | the fetch by id; the modal closes exactly when the fetch failed, after an error toast with the upstream text |
| AccountEditor.SaveCall | force-app/main/default/lwc/createAccounts/createAccounts.js:66-79 | update with the record id exactly when there is one, create otherwise; the draft is sent as it is |
| AccountEditor.SaveEffects | force-app/main/default/lwc/createAccounts/createAccounts.js:58-86 | a save call happens exactly when `Name` is truthy; the modal closes exactly when the call succeeded, with `'refresh'` as the last effect; a failure leaves one error toast and the modal open |
| AccountEditor.CreateAccounts.constructor | force-app/main/default/lwc/createAccounts/createAccounts.js:12-24 | the record id as given and the blank six-field draft |
| AccountEditor.CreateAccounts.ConnectedCallback | force-app/main/default/lwc/createAccounts/createAccounts.js:26-30 | loads only when there is a truthy record id |
| AccountEditor.CreateAccounts.LoadAccount | force-app/main/default/lwc/createAccounts/createAccounts.js:32-51 | a loaded record replaces the draft normalised; a failure keeps the draft; loading ends false either way |
| AccountEditor.CreateAccounts.HandleChange | force-app/main/default/lwc/createAccounts/createAccounts.js:53-56 | only the named draft field changes |
| AccountEditor.CreateAccounts.HandleSave | force-app/main/default/lwc/createAccounts/createAccounts.js:58-86 | logs `SaveEffects`; loading is false after a save that passed validation and untouched otherwise; the draft is not changed |
| AccountEditor.CreateAccounts.HandleCancel | force-app/main/default/lwc/createAccounts/createAccounts.js:88-90 | closes with no result |
| AccountEditor.CreateAccounts.ModalTitle | force-app/main/default/lwc/createAccounts/createAccounts.js:96-98 | `'Edit Account'` exactly when there is a truthy record id |
| ContactEditor.LoadEffects | force-app/main/default/lwc/createcontacts/createcontacts.js:28-47 | the fetch by id; the modal closes exactly when the fetch failed, after an error toast with the upstream text |
| ContactEditor.SaveCall | force-app/main/default/lwc/createcontacts/createcontacts.js:62-75 | update with the record id exactly when there is one, create otherwise |
| ContactEditor.SaveEffects | force-app/main/default/lwc/createcontacts/createcontacts.js:54-82 | a save call happens exactly when `LastName` is truthy; the modal closes with `'refresh'` exactly when the call succeeded |
| ContactEditor.CreateContacts.constructor | force-app/main/default/lwc/createcontacts/createcontacts.js:9-20 | the record id as given and the blank six-field draft |
| ContactEditor.CreateContacts.ConnectedCallback | force-app/main/default/lwc/createcontacts/createcontacts.js:22-26 | loads only when there is a truthy record id |
| ContactEditor.CreateContacts.LoadContact | force-app/main/default/lwc/createcontacts/createcontacts.js:28-47 | a loaded record replaces the draft normalised; a failure keeps the draft; loading ends false |
| ContactEditor.CreateContacts.HandleChange | force-app/main/default/lwc/createcontacts/createcontacts.js:49-52 | only the named draft field changes |
| ContactEditor.CreateContacts.HandleSave | force-app/main/default/lwc/createcontacts/createcontacts.js:54-82 | logs `SaveEffects`; loading is false after a save that passed validation |
| ContactEditor.CreateContacts.HandleCancel | force-app/main/default/lwc/createcontacts/createcontacts.js:84-86 | closes with no result |
| ContactEditor.CreateContacts.ModalTitle | force-app/main/default/lwc/createcontacts/createcontacts.js:92-94 | `'Edit Contact'` exactly when there is a truthy record id |
| LeadModal.SaveCall | force-app/main/default/lwc/editleadmodal/editleadmodal.js:24-29 | update exactly when the record id is truthy, create otherwise, both with `{leadId, leadData}` |
| LeadModal.SaveEffects | force-app/main/default/lwc/editleadmodal/editleadmodal.js:23-35 | one call and then exactly one close: `'refresh'` exactly on success, `'error'` exactly on failure |
| LeadModal.EditLeadModal.constructor | force-app/main/default/lwc/editleadmodal/editleadmodal.js:8-9 | the record id as given and an empty record |
| LeadModal.EditLeadModal.ConnectedCallback | force-app/main/default/lwc/editleadmodal/editleadmodal.js:11-17 | fetches only with a truthy id; a fetched record replaces the draft, a failed fetch changes nothing visible |
| LeadModal.EditLeadModal.HandleChange | force-app/main/default/lwc/editleadmodal/editleadmodal.js:19-21 | only the named field changes |
| LeadModal.EditLeadModal.HandleSave | force-app/main/default/lwc/editleadmodal/editleadmodal.js:23-35 | logs `SaveEffects`; the draft is not changed |
| LeadModal.EditLeadModal.HandleCancel | force-app/main/default/lwc/editleadmodal/editleadmodal.js:37-39 | closes with no result |
| LeadForm.CheckRequired | force-app/main/default/lwc/createLead/createLead.js:50-56 | the loop over the five required fields answers true exactly when every one is truthy |
| LeadForm.PicklistOptionsOf | force-app/main/default/lwc/createLead/createLead.js:23-26 | one option list per returned field, each with one `{label, value}` per value, in order |
| LeadForm.PicklistValuesKept | force-app/main/default/lwc/createLead/createLead.js:24-26 | every field offers exactly the values the server returned |
| LeadForm.SaveCall | force-app/main/default/lwc/createLead/createLead.js:59-65 | update with the record id exactly when there is one, create otherwise |
| LeadForm.SaveEffects | force-app/main/default/lwc/createLead/createLead.js:49-73 | a call happens exactly when all required fields are filled; events are sent exactly when the call succeeded, `refresh` then `close`; a failure gives the upstream error and no event |
| LeadForm.PicklistEffects | force-app/main/default/lwc/createLead/createLead.js:20-30 | the picklist fetch, with an error toast only when it fails |
| LeadForm.LoadEffects | force-app/main/default/lwc/createLead/createLead.js:32-42 | the fetch by id, with the upstream error toast only when it fails |
| LeadForm.CreateLeadForm.constructor | force-app/main/default/lwc/createLead/createLead.js:9-13 | the record id and mode as given, empty record and options, not loading |
| LeadForm.CreateLeadForm.ConnectedCallback | force-app/main/default/lwc/createLead/createLead.js:15-18 | picklists always, the lead only with a truthy record id |
| LeadForm.CreateLeadForm.LoadPicklistValues | force-app/main/default/lwc/createLead/createLead.js:20-30 | a successful fetch replaces the options; a failure keeps them and logs a toast |
| LeadForm.CreateLeadForm.LoadLead | force-app/main/default/lwc/createLead/createLead.js:32-42 | a fetched lead replaces the record; loading ends false either way |
| LeadForm.CreateLeadForm.HandleChange | force-app/main/default/lwc/createLead/createLead.js:44-47 | only the named field changes |
| LeadForm.CreateLeadForm.HandleSave | force-app/main/default/lwc/createLead/createLead.js:49-73 | logs `SaveEffects`; loading is false after a save that passed validation and untouched otherwise |
| LeadForm.CreateLeadForm.HandleCancel | force-app/main/default/lwc/createLead/createLead.js:75-77 | dispatches `close` and nothing else |
| LeadForm.CreateLeadForm.FormTitle | force-app/main/default/lwc/createLead/createLead.js:79-82 | `'View Lead'` exactly in view mode, else `'Edit Lead'` exactly with a truthy record id, else `'Create Lead'` |
| OpportunityEditor.Blank | force-app/main/default/lwc/createOpportunity/createOpportunity.js:242 | a value counts as missing exactly when it is falsy or a string of only whitespace |
| OpportunityEditor.BlankIffOnlyWhitespace | force-app/main/default/lwc/createOpportunity/createOpportunity.js:242 | a text input counts as missing exactly when it is unset or only whitespace |
| OpportunityEditor.ValidationError | force-app/main/default/lwc/createOpportunity/createOpportunity.js:239-254 | valid exactly when the name is not blank, the close date truthy and the stage not blank; otherwise only the first failing field's message, in that order |
| OpportunityEditor.OppData | force-app/main/default/lwc/createOpportunity/createOpportunity.js:125-136 | exactly ten fields taken from the form; the account name is not sent; an empty amount or probability is sent as null |
| OpportunityEditor.LoadedForm | force-app/main/default/lwc/createOpportunity/createOpportunity.js:43-52 | the ten loaded fields are copied as they come; the account name is kept |
| OpportunityEditor.SetField | force-app/main/default/lwc/createOpportunity/createOpportunity.js:108-111 | the named form property takes the value; a name that is not a form property changes nothing |
| OpportunityEditor.HandleErrorMessage | force-app/main/default/lwc/createOpportunity/createOpportunity.js:216-221 | `body.message` if truthy, else `message` if truthy, else `'Unknown error'`; never falsy |
| OpportunityEditor.ErrorEffects | force-app/main/default/lwc/createOpportunity/createOpportunity.js:225-236 | an error toast and an `opportunityerror` event, both with that message |
| OpportunityEditor.SubmitCall | force-app/main/default/lwc/createOpportunity/createOpportunity.js:138-142 | update exactly when `opportunityIdToUpdate != null`, with that id; create otherwise; same payload either way |
| OpportunityEditor.SubmitEffects | force-app/main/default/lwc/createOpportunity/createOpportunity.js:113-210 | no effect at all when validation fails; otherwise the call, then a success toast and `opportunitysaved` with the new id or `opportunityupdated` with the updated id, or the error toast and event |
| OpportunityEditor.SubmitErrorMessage | force-app/main/default/lwc/createOpportunity/createOpportunity.js:116-123 | after a submit `errorMessage` holds the validation message, else the call's error, else `''` |
| OpportunityEditor.BlankFormFailsOnName | force-app/main/default/lwc/createOpportunity/createOpportunity.js:239-244 | a freshly reset form is refused on the opportunity name |
| OpportunityEditor.CreateOpportunity.constructor | force-app/main/default/lwc/createOpportunity/createOpportunity.js:9-31 | the parent's properties as given; every tracked property at its default |
| OpportunityEditor.CreateOpportunity.IsUpdateMode | force-app/main/default/lwc/createOpportunity/createOpportunity.js:96-98 | update mode exactly when the id is not null or undefined |
| OpportunityEditor.CreateOpportunity.ButtonLabel | force-app/main/default/lwc/createOpportunity/createOpportunity.js:100-102 | `'Update Opportunity'` exactly in update mode, `'Create Opportunity'` exactly otherwise |
| OpportunityEditor.CreateOpportunity.PageTitle | force-app/main/default/lwc/createOpportunity/createOpportunity.js:104-106 | null exactly when `showTitle` is `false`, the custom title otherwise |
| OpportunityEditor.CreateOpportunity.ConnectedCallback | force-app/main/default/lwc/createOpportunity/createOpportunity.js:33-37 | loads only with a truthy id; without one nothing changes |
| OpportunityEditor.CreateOpportunity.LoadOpportunity | force-app/main/default/lwc/createOpportunity/createOpportunity.js:39-58 | the fetch by id; success fills the form, failure goes through `handleError`; loading ends false |
| OpportunityEditor.CreateOpportunity.HandleInputChange | force-app/main/default/lwc/createOpportunity/createOpportunity.js:108-111 | only the named form property changes |
| OpportunityEditor.CreateOpportunity.ValidateRequiredFields | force-app/main/default/lwc/createOpportunity/createOpportunity.js:239-254 | answers `ValidationError(form).None?`; sets `errorMessage` only on failure, to the first failing message |
| OpportunityEditor.CreateOpportunity.HandleSubmit | force-app/main/default/lwc/createOpportunity/createOpportunity.js:113-143 | logs `SubmitEffects`; a failed validation leaves `isLoading` untouched; `showSuccess` exactly when the call succeeded; the created id is recorded only on a successful create |
| OpportunityEditor.CreateOpportunity.CreateOpportunityRecord | force-app/main/default/lwc/createOpportunity/createOpportunity.js:145-179 | create call; success records the id, shows success and logs toast and `opportunitysaved`; failure goes through `handleError` |
| OpportunityEditor.CreateOpportunity.UpdateOpportunityRecord | force-app/main/default/lwc/createOpportunity/createOpportunity.js:181-210 | update call with the id; success toasts the server's message and logs `opportunityupdated`; failure goes through `handleError` |
| OpportunityEditor.CreateOpportunity.HandleError | force-app/main/default/lwc/createOpportunity/createOpportunity.js:212-237 | loading and success false, `errorMessage` the chosen message, toast and event logged |
| OpportunityEditor.CreateOpportunity.ResetForm | force-app/main/default/lwc/createOpportunity/createOpportunity.js:261-277 | every form field `''`; success, error message and created id cleared |
| OpportunityEditor.CreateOpportunity.HandleCancel | force-app/main/default/lwc/createOpportunity/createOpportunity.js:256-259 | reset, then a `cancel` event |
| OpportunityEditor.CreateOpportunity.ClearForm | force-app/main/default/lwc/createOpportunity/createOpportunity.js:298-301 | the same state as a reset, nothing logged |
| BusinessProcess.FullName | force-app/main/default/lwc/createBusinessProcess/createBusinessProcess.js:70 | the object name, a dot, then the process name |
| BusinessProcess.SplitAtDot | force-app/main/default/lwc/createBusinessProcess/createBusinessProcess.js:70 | splits at the first dot; the first part holds no dot and the parts rebuild the input |
| BusinessProcess.FullNameSplits | force-app/main/default/lwc/createBusinessProcess/createBusinessProcess.js:70 | for a dot-free object name, splitting the full name gives back the object and the process name |
| BusinessProcess.FieldFor | force-app/main/default/lwc/createBusinessProcess/createBusinessProcess.js:88-94 | Lead and Case map to `Status`, Opportunity to `StageName`; any other object keeps the current field |
| BusinessProcess.FullNames | force-app/main/default/lwc/createBusinessProcess/createBusinessProcess.js:108 | the `fullName` of each value, in order |
| BusinessProcess.ValuesFor | force-app/main/default/lwc/createBusinessProcess/createBusinessProcess.js:133-144 | Lead and Case: one value per selection, in order, `default_x` true exactly at index 0; Opportunity: names only; any other object: values unchanged |
| BusinessProcess.SelectionRoundTrip | force-app/main/default/lwc/createBusinessProcess/createBusinessProcess.js:108 | for the three objects, the selection read back from the payload is the selection stored |
| BusinessProcess.ReadyForValues | force-app/main/default/lwc/createBusinessProcess/createBusinessProcess.js:82 | step one is complete exactly when object name and process name are truthy and the process is active |
| BusinessProcess.NextEffects | force-app/main/default/lwc/createBusinessProcess/createBusinessProcess.js:79-124 | a fetch happens exactly when object, process name and active flag are all set; it asks for the mapped field; a failed fetch adds one error toast |
| BusinessProcess.SaveEffects | force-app/main/default/lwc/createBusinessProcess/createBusinessProcess.js:193-216 | a create call exactly when the selection is not empty, carrying the full name, flag and values; `saveprocess` exactly when it succeeded |
| BusinessProcess.ShowToast | force-app/main/default/lwc/createBusinessProcess/createBusinessProcess.js:231-241 | a missing title, message or variant becomes `'Info'`, `'Operation completed'` or `'info'`; a given one is kept |
| BusinessProcess.InputForm.constructor | force-app/main/default/lwc/createBusinessProcess/createBusinessProcess.js:7-24 | every tracked property at its declared default |
| BusinessProcess.InputForm.UpdateBaseJson | force-app/main/default/lwc/createBusinessProcess/createBusinessProcess.js:66-77 | the full name is rebuilt from object and process name, the flag mirrors `isActive`, the values are kept |
| BusinessProcess.InputForm.HandleProcessChange | force-app/main/default/lwc/createBusinessProcess/createBusinessProcess.js:30-40 | the process name is the input or `''`, and the payload header is rebuilt |
| BusinessProcess.InputForm.HandleChange | force-app/main/default/lwc/createBusinessProcess/createBusinessProcess.js:42-52 | the object name is the input or `''`, and the payload header is rebuilt |
| BusinessProcess.InputForm.HandleActiveChange | force-app/main/default/lwc/createBusinessProcess/createBusinessProcess.js:54-64 | the flag follows the checkbox, and the payload header is rebuilt |
| BusinessProcess.InputForm.HandelNext | force-app/main/default/lwc/createBusinessProcess/createBusinessProcess.js:79-124 | always marks the button clicked; step one incomplete: only a toast, loading and field untouched; otherwise the mapped field, a fetch, and on an array the options, the selection read back and the modal opened; loading ends false |
| BusinessProcess.InputForm.HandlePicklistChange | force-app/main/default/lwc/createBusinessProcess/createBusinessProcess.js:126-150 | the selection is stored and the payload values rebuilt by `ValuesFor` |
| BusinessProcess.InputForm.HandleSave | force-app/main/default/lwc/createBusinessProcess/createBusinessProcess.js:193-216 | logs `SaveEffects`; no property changes |
| BusinessProcess.InputForm.HandleBack | force-app/main/default/lwc/createBusinessProcess/createBusinessProcess.js:222-229 | closes the picker; nothing else changes |

## Left out

- Apex controllers, the wire service, `refreshApex` and `LightningModal.open` are not part of this model; their settled results are parameters.
- OpportunityTable.Opportunitydatatable.HandleCreateOpportunity: the component it opens, `createOpportunity`, extends `NavigationMixin(LightningElement)` rather than `LightningModal`, so it has no static `open` and never closes with a result; it reports through `opportunitysaved`, `opportunityupdated` and `cancel` events instead. The model assumes the open-and-close contract the handler is written against, with `modalResult` standing for the result such a modal would return; it does not capture that the call as written cannot open anything.
- OpportunityTable.Opportunitydatatable.HandleEditOpportunity: the same applies, and in addition the handler passes `recordId` while the opened component reads its id from `opportunityIdToUpdate`; the model keeps the `Id` the handler passes and does not connect it to the editor.
- Asynchronous interleaving is not modelled: each handler runs to completion with its calls already settled, so overlapping saves, a modal closed before its save resolves, and refetch coalescing are not modelled.
- Template and DOM access is not modelled: `createBusinessProcess.validateFields` and `createOpportunity.submitForm` query rendered elements and are left out.
- Navigation (`navigateToRecord`) and the `setTimeout` callbacks in `createOpportunity` (hiding the success banner after 5 s, the delayed reset) are not modelled; neither are `redirectAfterCreate` and `resetFormAfterCreate`, which only choose between them.
- Static catalogs are not modelled: the column lists of the list views and the `stageOptions`, `typeOptions` and `leadSourceOptions` getters return constants.
- Console logging is not modelled, and neither is the `try`/`catch` around each `createBusinessProcess` handler: its toasts fire only if a handler throws, and none of the modelled handlers can.
- OpportunityEditor.OppData: `parseFloat` is not modelled; a truthy amount or probability is sent as the raw input value.
- OpportunityEditor.CreateOpportunity.HandleError: the toast's `mode: 'sticky'` is not recorded in the effect log.
- OpportunityEditor.Blank: `trim()` on a truthy non-string value throws in JavaScript; the model treats such a value as present.
- OpportunityEditor.SetField: `handleInputChange` can assign any property named by an input; the model ignores a name that is not one of the eleven form properties.
- OpportunityEditor.CreateOpportunity.constructor: `showTitle` is `Option<bool>` with `None` for undefined, so a non-boolean `showTitle` cannot be expressed.
- BusinessProcess.InputForm: `selectedObjectName` is a string with `''` for undefined; every use in the component treats the two alike, and the value only reaches the console otherwise.
- BusinessProcess.InputForm.HandleSave: `JSON.stringify` is not modelled; the payload is recorded as a value. A rejected `CreateBusinessProcess` call is unhandled in the source and produces nothing here.
- BusinessProcess.InputForm.HandlePicklistChange: `event.detail.value` is assumed to be an array or undefined, so the `Array.isArray` guard in `handleSave` is always met for a non-empty selection.
- The `event && event.target` / `event.detail` guards of the handlers are not modelled; every handler receives the value it reads.
- Error objects are reduced to `body.message` and `message`.

/**
 * createcontacts: the modal that creates a contact, or edits the one whose
 * id it was opened with. It keeps a draft of six fields, requires `LastName`,
 * and closes with `'refresh'` only after the save call succeeded.
 */
module ContactEditor {
  import opened Lwc

  /** The Apex methods the modal calls, with their arguments. */
  datatype ContactCall =
    | GetContactById(contactId: JsValue)
    | CreateContact(contactData: Record)
    | UpdateContact(contactId: JsValue, contactData: Record)

  /** The fields of the local `contactRecord` shape. */
  const ContactFields: set<string> :=
    {"LastName", "Email", "Phone", "MobilePhone", "Contact_type__c", "AccountId"}

  const LastNameRequired: Effect<ContactCall> := Toast("Error", Str("Last Name is required"), "error")

  /**
   * `loadContact()`: fetch by id; on success nothing more is visible, on a
   * failure an error toast with the upstream text and a close with no result.
   */
  function LoadEffects(recordId: JsValue, response: Outcome<Record>): (effs: seq<Effect<ContactCall>>)
    ensures |effs| >= 1 && effs[0] == Call(GetContactById(recordId))
    ensures HasClose(effs) <==> response.Err?
    ensures response.Ok? ==> |effs| == 1
    ensures response.Err? ==> effs[1..] == [Toast("Error", ErrorMessage(response.error), "error"), Close(Absent)]
  {
    match response
    case Ok(_) =>
      var effs: seq<Effect<ContactCall>> := [Call(GetContactById(recordId))];
      assert !effs[0].Close?;
      effs
    case Err(e) =>
      var effs: seq<Effect<ContactCall>> := [Call(GetContactById(recordId)), Toast("Error", ErrorMessage(e), "error"), Close(Absent)];
      assert effs[2].Close?;
      effs
  }

  /** Update with the record id when the modal was opened with one, create otherwise. */
  function SaveCall(recordId: JsValue, draft: Record): (c: ContactCall)
    ensures c.UpdateContact? <==> Truthy(recordId)
    ensures c.CreateContact? <==> !Truthy(recordId)
    ensures c.UpdateContact? ==> c.contactId == recordId
    ensures !c.GetContactById? && c.contactData == draft
  {
    if Truthy(recordId) then UpdateContact(recordId, draft) else CreateContact(draft)
  }

  /**
   * `handleSave()`: without a `LastName` only an error toast and no call; with
   * one, the save call, then either the success toast and `close('refresh')`
   * or the upstream error in a toast with the modal left open.
   */
  function SaveEffects(recordId: JsValue, draft: Record, response: Outcome<JsValue>): (effs: seq<Effect<ContactCall>>)
    ensures !Truthy(Get(draft, "LastName")) ==> effs == [LastNameRequired]
    ensures HasCall(effs) <==> Truthy(Get(draft, "LastName"))
    ensures Truthy(Get(draft, "LastName")) ==> effs[0] == Call(SaveCall(recordId, draft))
    ensures HasClose(effs) <==> Truthy(Get(draft, "LastName")) && response.Ok?
    ensures HasClose(effs) ==> effs[|effs| - 1] == Close(Str("refresh"))
    ensures Truthy(Get(draft, "LastName")) && response.Err? ==>
              effs == [Call(SaveCall(recordId, draft)), Toast("Error", ErrorMessage(response.error), "error")]
  {
    if !Truthy(Get(draft, "LastName")) then
      assert !LastNameRequired.Call?;
      [LastNameRequired]
    else
      var call: Effect<ContactCall> := Call(SaveCall(recordId, draft));
      match response
      case Ok(_) =>
        var done := if Truthy(recordId) then "Contact updated" else "Contact created";
        var effs := [call, Toast("Success", Str(done), "success"), Close(Str("refresh"))];
        assert effs[0].Call? && effs[2].Close?;
        effs
      case Err(e) =>
        var effs := [call, Toast("Error", ErrorMessage(e), "error")];
        assert effs[0].Call? && !effs[0].Close? && !effs[1].Close?;
        effs
  }

  class CreateContacts {
    var recordId: JsValue
    var isLoading: bool
    var contactRecord: Record
    var effects: seq<Effect<ContactCall>>

    /** The modal as `open({recordId})` creates it: a blank draft, not loading. */
    constructor (recordId: JsValue)
      ensures this.recordId == recordId && !isLoading && effects == []
      ensures contactRecord == BlankDraft(ContactFields)
    {
      this.recordId := recordId;
      isLoading := false;
      contactRecord := BlankDraft(ContactFields);
      effects := [];
    }

    /** `connectedCallback()`: load only when opened with a record id. */
    method ConnectedCallback(response: Outcome<Record>)
      modifies this
      ensures recordId == old(recordId)
      ensures Truthy(recordId) ==> !isLoading && effects == old(effects) + LoadEffects(recordId, response)
      ensures Truthy(recordId) && response.Ok? ==> contactRecord == Normalise(ContactFields, response.value)
      ensures !(Truthy(recordId) && response.Ok?) ==> contactRecord == old(contactRecord)
      ensures !Truthy(recordId) ==> isLoading == old(isLoading) && effects == old(effects)
    {
      if Truthy(recordId) {
        LoadContact(response);
      }
    }

    /** `loadContact()`, with `response` the settlement of `getContactById`. */
    method LoadContact(response: Outcome<Record>)
      modifies this
      ensures recordId == old(recordId) && !isLoading
      ensures effects == old(effects) + LoadEffects(recordId, response)
      ensures response.Ok? ==> contactRecord == Normalise(ContactFields, response.value)
      ensures response.Err? ==> contactRecord == old(contactRecord)
    {
      isLoading := true;
      effects := effects + [Call(GetContactById(recordId))];
      match response {
        case Ok(rec) =>
          contactRecord := Normalise(ContactFields, rec);
        case Err(e) =>
          effects := effects + [Toast("Error", ErrorMessage(e), "error"), Close(Absent)];
      }
      isLoading := false;
    }

    /** `handleChange(event)`: the one field named by `data-field` takes the input's value. */
    method HandleChange(field: string, value: JsValue)
      modifies this
      ensures contactRecord == old(contactRecord)[field := value]
      ensures recordId == old(recordId) && isLoading == old(isLoading) && effects == old(effects)
    {
      contactRecord := contactRecord[field := value];
    }

    /** `handleSave()`, with `response` the settlement of the create or update call. */
    method HandleSave(response: Outcome<JsValue>)
      modifies this
      ensures effects == old(effects) + SaveEffects(recordId, contactRecord, response)
      ensures isLoading == if Truthy(Get(contactRecord, "LastName")) then false else old(isLoading)
      ensures recordId == old(recordId) && contactRecord == old(contactRecord)
    {
      if !Truthy(Get(contactRecord, "LastName")) {
        effects := effects + [LastNameRequired];
        return;
      }
      isLoading := true;
      if Truthy(recordId) {
        effects := effects + [Call(UpdateContact(recordId, contactRecord))];
      } else {
        effects := effects + [Call(CreateContact(contactRecord))];
      }
      match response {
        case Ok(_) =>
          var done := if Truthy(recordId) then "Contact updated" else "Contact created";
          effects := effects + [Toast("Success", Str(done), "success"), Close(Str("refresh"))];
        case Err(e) =>
          effects := effects + [Toast("Error", ErrorMessage(e), "error")];
      }
      isLoading := false;
    }

    /** `handleCancel()`: close with no result. */
    method HandleCancel()
      modifies this
      ensures effects == old(effects) + [Close(Absent)]
      ensures recordId == old(recordId) && isLoading == old(isLoading) && contactRecord == old(contactRecord)
    {
      effects := effects + [Close(Absent)];
    }

    /** `get modalTitle()` */
    function ModalTitle(): (title: string)
      reads this
      ensures title == "Edit Contact" <==> Truthy(recordId)
      ensures title == "Create New Contact" <==> !Truthy(recordId)
    {
      if Truthy(recordId) then "Edit Contact" else "Create New Contact"
    }
  }
}

/**
 * createAccounts: the modal that creates an account, or edits the one whose
 * id it was opened with. It keeps a draft of six fields, requires `Name`,
 * and closes with `'refresh'` only after the save call succeeded.
 */
module AccountEditor {
  import opened Lwc

  /** The Apex methods the modal calls, with their arguments. */
  datatype AccountCall =
    | GetAccountById(accountId: JsValue)
    | CreateAccount(accountData: Record)
    | UpdateAccount(accountId: JsValue, accountData: Record)

  /** The fields of the local `AccountRecord` shape. */
  const AccountFields: set<string> :=
    {"Overall_Rating__c", "Website", "Phone", "Fax", "Direct_Indirect__c", "Name"}

  const NameRequired: Effect<AccountCall> := Toast("Error", Str(" Name is required"), "error")

  /**
   * `loadAccount()`: fetch by id; on success nothing more is visible, on a
   * failure an error toast with the upstream text and a close with no result.
   */
  function LoadEffects(recordId: JsValue, response: Outcome<Record>): (effs: seq<Effect<AccountCall>>)
    ensures |effs| >= 1 && effs[0] == Call(GetAccountById(recordId))
    ensures HasClose(effs) <==> response.Err?
    ensures response.Ok? ==> |effs| == 1
    ensures response.Err? ==> effs[1..] == [Toast("Error", ErrorMessage(response.error), "error"), Close(Absent)]
  {
    match response
    case Ok(_) =>
      var effs: seq<Effect<AccountCall>> := [Call(GetAccountById(recordId))];
      assert !effs[0].Close?;
      effs
    case Err(e) =>
      var effs: seq<Effect<AccountCall>> := [Call(GetAccountById(recordId)), Toast("Error", ErrorMessage(e), "error"), Close(Absent)];
      assert effs[2].Close?;
      effs
  }

  /** Update with the record id when the modal was opened with one, create otherwise. */
  function SaveCall(recordId: JsValue, draft: Record): (c: AccountCall)
    ensures c.UpdateAccount? <==> Truthy(recordId)
    ensures c.CreateAccount? <==> !Truthy(recordId)
    ensures c.UpdateAccount? ==> c.accountId == recordId
    ensures !c.GetAccountById? && c.accountData == draft
  {
    if Truthy(recordId) then UpdateAccount(recordId, draft) else CreateAccount(draft)
  }

  /**
   * `handleSave()`: without a `Name` only an error toast and no call; with
   * one, the save call, then either the success toast and `close('refresh')`
   * or the upstream error in a toast with the modal left open.
   */
  function SaveEffects(recordId: JsValue, draft: Record, response: Outcome<JsValue>): (effs: seq<Effect<AccountCall>>)
    ensures !Truthy(Get(draft, "Name")) ==> effs == [NameRequired]
    ensures HasCall(effs) <==> Truthy(Get(draft, "Name"))
    ensures Truthy(Get(draft, "Name")) ==> effs[0] == Call(SaveCall(recordId, draft))
    ensures HasClose(effs) <==> Truthy(Get(draft, "Name")) && response.Ok?
    ensures HasClose(effs) ==> effs[|effs| - 1] == Close(Str("refresh"))
    ensures Truthy(Get(draft, "Name")) && response.Err? ==>
              effs == [Call(SaveCall(recordId, draft)), Toast("Error", ErrorMessage(response.error), "error")]
  {
    if !Truthy(Get(draft, "Name")) then
      assert !NameRequired.Call?;
      [NameRequired]
    else
      var call: Effect<AccountCall> := Call(SaveCall(recordId, draft));
      match response
      case Ok(_) =>
        var done := if Truthy(recordId) then "Account updated" else "Account created";
        var effs := [call, Toast("Success", Str(done), "success"), Close(Str("refresh"))];
        assert effs[0].Call? && effs[2].Close?;
        effs
      case Err(e) =>
        var effs := [call, Toast("Error", ErrorMessage(e), "error")];
        assert effs[0].Call? && !effs[0].Close? && !effs[1].Close?;
        effs
  }

  class CreateAccounts {
    var recordId: JsValue
    var isLoading: bool
    var AccountRecord: Record
    var effects: seq<Effect<AccountCall>>

    /** The modal as `open({recordId})` creates it: a blank draft, not loading. */
    constructor (recordId: JsValue)
      ensures this.recordId == recordId && !isLoading && effects == []
      ensures AccountRecord == BlankDraft(AccountFields)
    {
      this.recordId := recordId;
      isLoading := false;
      AccountRecord := BlankDraft(AccountFields);
      effects := [];
    }

    /** `connectedCallback()`: load only when opened with a record id. */
    method ConnectedCallback(response: Outcome<Record>)
      modifies this
      ensures recordId == old(recordId)
      ensures Truthy(recordId) ==> !isLoading && effects == old(effects) + LoadEffects(recordId, response)
      ensures Truthy(recordId) && response.Ok? ==> AccountRecord == Normalise(AccountFields, response.value)
      ensures !(Truthy(recordId) && response.Ok?) ==> AccountRecord == old(AccountRecord)
      ensures !Truthy(recordId) ==> isLoading == old(isLoading) && effects == old(effects)
    {
      if Truthy(recordId) {
        LoadAccount(response);
      }
    }

    /** `loadAccount()`, with `response` the settlement of `getAccountById`. */
    method LoadAccount(response: Outcome<Record>)
      modifies this
      ensures recordId == old(recordId) && !isLoading
      ensures effects == old(effects) + LoadEffects(recordId, response)
      ensures response.Ok? ==> AccountRecord == Normalise(AccountFields, response.value)
      ensures response.Err? ==> AccountRecord == old(AccountRecord)
    {
      isLoading := true;
      effects := effects + [Call(GetAccountById(recordId))];
      match response {
        case Ok(rec) =>
          AccountRecord := Normalise(AccountFields, rec);
        case Err(e) =>
          effects := effects + [Toast("Error", ErrorMessage(e), "error"), Close(Absent)];
      }
      isLoading := false;
    }

    /** `handleChange(event)`: the one field named by `data-field` takes the input's value. */
    method HandleChange(field: string, value: JsValue)
      modifies this
      ensures AccountRecord == old(AccountRecord)[field := value]
      ensures recordId == old(recordId) && isLoading == old(isLoading) && effects == old(effects)
    {
      AccountRecord := AccountRecord[field := value];
    }

    /** `handleSave()`, with `response` the settlement of the create or update call. */
    method HandleSave(response: Outcome<JsValue>)
      modifies this
      ensures effects == old(effects) + SaveEffects(recordId, AccountRecord, response)
      ensures isLoading == if Truthy(Get(AccountRecord, "Name")) then false else old(isLoading)
      ensures recordId == old(recordId) && AccountRecord == old(AccountRecord)
    {
      if !Truthy(Get(AccountRecord, "Name")) {
        effects := effects + [NameRequired];
        return;
      }
      isLoading := true;
      if Truthy(recordId) {
        effects := effects + [Call(UpdateAccount(recordId, AccountRecord))];
      } else {
        effects := effects + [Call(CreateAccount(AccountRecord))];
      }
      match response {
        case Ok(_) =>
          var done := if Truthy(recordId) then "Account updated" else "Account created";
          effects := effects + [Toast("Success", Str(done), "success"), Close(Str("refresh"))];
        case Err(e) =>
          effects := effects + [Toast("Error", ErrorMessage(e), "error")];
      }
      isLoading := false;
    }

    /** `handleCancel()`: close with no result. */
    method HandleCancel()
      modifies this
      ensures effects == old(effects) + [Close(Absent)]
      ensures recordId == old(recordId) && isLoading == old(isLoading) && AccountRecord == old(AccountRecord)
    {
      effects := effects + [Close(Absent)];
    }

    /** `get modalTitle()` */
    function ModalTitle(): (title: string)
      reads this
      ensures title == "Edit Account" <==> Truthy(recordId)
      ensures title == "Create New Account" <==> !Truthy(recordId)
    {
      if Truthy(recordId) then "Edit Account" else "Create New Account"
    }
  }
}

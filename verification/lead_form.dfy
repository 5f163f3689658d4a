/**
 * createLead: the lead form embedded in the lead list. It loads the picklist
 * options and, when given an id, the lead; it requires five fields before
 * saving, and after a successful save dispatches `refresh` then `close`.
 */
module LeadForm {
  import opened Lwc

  /** The Apex methods the form calls, with their arguments. */
  datatype LeadCall =
    | GetLeadPicklistValues
    | GetLeadById(leadId: JsValue)
    | CreateLead(leadData: Record)
    | UpdateLead(leadId: JsValue, leadData: Record)

  /** The `required` list of `handleSave`, in the order it is checked. */
  const RequiredFields: seq<string> := ["LastName", "Company", "Channel__c", "Geography__c", "Business_Type__c"]

  const FillRequired: Effect<LeadCall> := Toast("Error", Str("Please fill all required fields."), "error")
  const PicklistFailure: Effect<LeadCall> := Toast("Error", Str("Failed to load picklist values"), "error")

  /** Every required field holds a truthy value. */
  predicate RequiredFilled(rec: Record) {
    forall i :: 0 <= i < |RequiredFields| ==> Truthy(Get(rec, RequiredFields[i]))
  }

  /** The `for (const f of required)` loop of `handleSave`, which stops at the first falsy field. */
  method CheckRequired(rec: Record) returns (filled: bool)
    ensures filled <==> RequiredFilled(rec)
  {
    var i := 0;
    while i < |RequiredFields|
      invariant 0 <= i <= |RequiredFields|
      invariant forall j :: 0 <= j < i ==> Truthy(Get(rec, RequiredFields[j]))
    {
      if !Truthy(Get(rec, RequiredFields[i])) {
        return false;
      }
      i := i + 1;
    }
    return true;
  }

  /** `data[field].map(val => ({label: val, value: val}))` for every field of the response. */
  function PicklistOptionsOf(data: map<string, seq<string>>): (opts: map<string, seq<PicklistOption>>)
    ensures opts.Keys == data.Keys
    ensures forall f :: f in data ==> |opts[f]| == |data[f]|
    ensures forall f, i :: f in data && 0 <= i < |data[f]| ==>
              opts[f][i].labelText == data[f][i] && opts[f][i].value == data[f][i]
  {
    map f | f in data :: Options(data[f])
  }

  /** Each field offers exactly the values the server returned, in order. */
  lemma PicklistValuesKept(data: map<string, seq<string>>, field: string)
    requires field in data
    ensures OptionValues(PicklistOptionsOf(data)[field]) == data[field]
  {
    OptionsRoundTrip(data[field]);
  }

  /** Update with the record id when the form has one, create otherwise. */
  function SaveCall(recordId: JsValue, draft: Record): (c: LeadCall)
    ensures c.UpdateLead? <==> Truthy(recordId)
    ensures c.CreateLead? <==> !Truthy(recordId)
    ensures c.UpdateLead? ==> c.leadId == recordId
    ensures (c.CreateLead? || c.UpdateLead?) && c.leadData == draft
  {
    if Truthy(recordId) then UpdateLead(recordId, draft) else CreateLead(draft)
  }

  /**
   * `handleSave()`: a missing required field gives one error toast and no
   * call; otherwise the save call, then on success the success toast, the
   * `refresh` event and the `close` event in that order, and on failure the
   * upstream error in a toast and no event.
   */
  function SaveEffects(recordId: JsValue, draft: Record, response: Outcome<JsValue>): (effs: seq<Effect<LeadCall>>)
    ensures !RequiredFilled(draft) ==> effs == [FillRequired]
    ensures HasCall(effs) <==> RequiredFilled(draft)
    ensures RequiredFilled(draft) ==> effs[0] == Call(SaveCall(recordId, draft))
    ensures HasEvent(effs) <==> RequiredFilled(draft) && response.Ok?
    ensures RequiredFilled(draft) && response.Ok? ==>
              |effs| == 4 && effs[2] == Event("refresh", Absent) && effs[3] == Event("close", Absent)
    ensures RequiredFilled(draft) && response.Err? ==>
              effs == [Call(SaveCall(recordId, draft)), Toast("Error", ErrorMessage(response.error), "error")]
  {
    if !RequiredFilled(draft) then
      assert !FillRequired.Call? && !FillRequired.Event?;
      [FillRequired]
    else
      var call: Effect<LeadCall> := Call(SaveCall(recordId, draft));
      match response
      case Ok(_) =>
        var done := if Truthy(recordId) then "Lead updated successfully" else "Lead created successfully";
        var effs := [call, Toast("Success", Str(done), "success"), Event("refresh", Absent), Event("close", Absent)];
        assert effs[0].Call? && effs[2].Event?;
        effs
      case Err(e) =>
        var effs := [call, Toast("Error", ErrorMessage(e), "error")];
        assert effs[0].Call? && !effs[0].Event? && !effs[1].Event?;
        effs
  }

  class CreateLeadForm {
    var recordId: JsValue
    var isViewMode: bool
    var isLoading: bool
    var picklistOptions: map<string, seq<PicklistOption>>
    var leadRecord: Record
    var effects: seq<Effect<LeadCall>>

    /** The form as its parent renders it: `leadRecord = {}`, no options yet. */
    constructor (recordId: JsValue, isViewMode: bool)
      ensures this.recordId == recordId && this.isViewMode == isViewMode
      ensures !isLoading && picklistOptions == map[] && leadRecord == map[] && effects == []
    {
      this.recordId := recordId;
      this.isViewMode := isViewMode;
      isLoading := false;
      picklistOptions := map[];
      leadRecord := map[];
      effects := [];
    }

    /** `connectedCallback()`: the picklists always, the lead only when there is an id. */
    method ConnectedCallback(picklists: Outcome<map<string, seq<string>>>, lead: Outcome<Record>)
      modifies this
      ensures recordId == old(recordId) && isViewMode == old(isViewMode)
      ensures picklistOptions == if picklists.Ok? then PicklistOptionsOf(picklists.value) else old(picklistOptions)
      ensures leadRecord == if Truthy(recordId) && lead.Ok? then lead.value else old(leadRecord)
      ensures Truthy(recordId) ==> !isLoading
      ensures !Truthy(recordId) ==> isLoading == old(isLoading)
      ensures effects == old(effects) + PicklistEffects(picklists) + (if Truthy(recordId) then LoadEffects(recordId, lead) else [])
    {
      LoadPicklistValues(picklists);
      if Truthy(recordId) {
        LoadLead(lead);
      }
    }

    /** `loadPicklistValues()`, with `response` the settlement of `getLeadPicklistValues`. */
    method LoadPicklistValues(response: Outcome<map<string, seq<string>>>)
      modifies this
      ensures picklistOptions == if response.Ok? then PicklistOptionsOf(response.value) else old(picklistOptions)
      ensures effects == old(effects) + PicklistEffects(response)
      ensures recordId == old(recordId) && isViewMode == old(isViewMode)
      ensures isLoading == old(isLoading) && leadRecord == old(leadRecord)
    {
      effects := effects + [Call(GetLeadPicklistValues)];
      match response {
        case Ok(data) =>
          picklistOptions := PicklistOptionsOf(data);
        case Err(_) =>
          effects := effects + [PicklistFailure];
      }
    }

    /** `loadLead()`, with `response` the settlement of `getLeadById`. */
    method LoadLead(response: Outcome<Record>)
      modifies this
      ensures leadRecord == if response.Ok? then response.value else old(leadRecord)
      ensures effects == old(effects) + LoadEffects(recordId, response)
      ensures !isLoading
      ensures recordId == old(recordId) && isViewMode == old(isViewMode) && picklistOptions == old(picklistOptions)
    {
      isLoading := true;
      effects := effects + [Call(GetLeadById(recordId))];
      match response {
        case Ok(data) =>
          leadRecord := data;
        case Err(e) =>
          effects := effects + [Toast("Error", ErrorMessage(e), "error")];
      }
      isLoading := false;
    }

    /** `handleChange(event)`: the field named by `data-field` takes the new value. */
    method HandleChange(field: string, value: JsValue)
      modifies this
      ensures leadRecord == old(leadRecord)[field := value]
      ensures recordId == old(recordId) && isViewMode == old(isViewMode) && isLoading == old(isLoading)
      ensures picklistOptions == old(picklistOptions) && effects == old(effects)
    {
      leadRecord := leadRecord[field := value];
    }

    /** `handleSave()`, with `response` the settlement of the create or update call. */
    method HandleSave(response: Outcome<JsValue>)
      modifies this
      ensures effects == old(effects) + SaveEffects(recordId, leadRecord, response)
      ensures isLoading == if RequiredFilled(leadRecord) then false else old(isLoading)
      ensures recordId == old(recordId) && isViewMode == old(isViewMode)
      ensures leadRecord == old(leadRecord) && picklistOptions == old(picklistOptions)
    {
      var filled := CheckRequired(leadRecord);
      if !filled {
        effects := effects + [FillRequired];
        return;
      }
      isLoading := true;
      if Truthy(recordId) {
        effects := effects + [Call(UpdateLead(recordId, leadRecord))];
      } else {
        effects := effects + [Call(CreateLead(leadRecord))];
      }
      match response {
        case Ok(_) =>
          var done := if Truthy(recordId) then "Lead updated successfully" else "Lead created successfully";
          effects := effects + [Toast("Success", Str(done), "success"), Event("refresh", Absent)];
          HandleCancel();
        case Err(e) =>
          effects := effects + [Toast("Error", ErrorMessage(e), "error")];
      }
      isLoading := false;
    }

    /** `handleCancel()`: dispatch `close`. */
    method HandleCancel()
      modifies this
      ensures effects == old(effects) + [Event("close", Absent)]
      ensures recordId == old(recordId) && isViewMode == old(isViewMode) && isLoading == old(isLoading)
      ensures leadRecord == old(leadRecord) && picklistOptions == old(picklistOptions)
    {
      effects := effects + [Event("close", Absent)];
    }

    /** `get formTitle()`: view mode first, then whether there is a record id. */
    function FormTitle(): (title: string)
      reads this
      ensures title == "View Lead" <==> isViewMode
      ensures title == "Edit Lead" <==> !isViewMode && Truthy(recordId)
      ensures title == "Create Lead" <==> !isViewMode && !Truthy(recordId)
    {
      if isViewMode then "View Lead" else if Truthy(recordId) then "Edit Lead" else "Create Lead"
    }
  }

  /** `loadPicklistValues()`: the fetch, and a toast only when it fails. */
  function PicklistEffects(response: Outcome<map<string, seq<string>>>): (effs: seq<Effect<LeadCall>>)
    ensures |effs| >= 1 && effs[0] == Call(GetLeadPicklistValues)
    ensures response.Ok? ==> |effs| == 1
    ensures response.Err? ==> effs == [Call(GetLeadPicklistValues), PicklistFailure]
  {
    if response.Ok? then [Call(GetLeadPicklistValues)] else [Call(GetLeadPicklistValues), PicklistFailure]
  }

  /** `loadLead()`: the fetch by id, and the upstream error in a toast when it fails. */
  function LoadEffects(recordId: JsValue, response: Outcome<Record>): (effs: seq<Effect<LeadCall>>)
    ensures |effs| >= 1 && effs[0] == Call(GetLeadById(recordId))
    ensures response.Ok? ==> |effs| == 1
    ensures response.Err? ==> effs == [Call(GetLeadById(recordId)), Toast("Error", ErrorMessage(response.error), "error")]
  {
    match response
    case Ok(_) => [Call(GetLeadById(recordId))]
    case Err(e) => [Call(GetLeadById(recordId)), Toast("Error", ErrorMessage(e), "error")]
  }
}

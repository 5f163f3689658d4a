/**
 * editleadmodal: a modal over a free-form lead record. It loads the record
 * when opened with an id, saves without validating, and every save ends the
 * modal: `'refresh'` after a successful call, `'error'` after a failed one.
 */
module LeadModal {
  import opened Lwc

  /** The Apex methods the modal calls; both save calls receive `{leadId, leadData}`. */
  datatype LeadCall =
    | GetLeadById(leadId: JsValue)
    | UpdateLead(leadId: JsValue, leadData: Record)
    | CreateLead(leadId: JsValue, leadData: Record)

  /** `recordId ? updateLead : createLead`, called with the same arguments either way. */
  function SaveCall(recordId: JsValue, draft: Record): (c: LeadCall)
    ensures c.UpdateLead? <==> Truthy(recordId)
    ensures c.CreateLead? <==> !Truthy(recordId)
    ensures !c.GetLeadById? && c.leadId == recordId && c.leadData == draft
  {
    if Truthy(recordId) then UpdateLead(recordId, draft) else CreateLead(recordId, draft)
  }

  /** `handleSave()`: one call, then exactly one close, `'refresh'` on success and `'error'` on failure. */
  function SaveEffects(recordId: JsValue, draft: Record, response: Outcome<JsValue>): (effs: seq<Effect<LeadCall>>)
    ensures |effs| == 2 && effs[0] == Call(SaveCall(recordId, draft)) && effs[1].Close?
    ensures effs[1] == Close(Str("refresh")) <==> response.Ok?
    ensures effs[1] == Close(Str("error")) <==> response.Err?
  {
    [Call(SaveCall(recordId, draft)), Close(if response.Ok? then Str("refresh") else Str("error"))]
  }

  class EditLeadModal {
    var recordId: JsValue
    var leadRecord: Record
    var effects: seq<Effect<LeadCall>>

    /** The modal as `open({recordId})` creates it: `leadRecord = {}`. */
    constructor (recordId: JsValue)
      ensures this.recordId == recordId && leadRecord == map[] && effects == []
    {
      this.recordId := recordId;
      leadRecord := map[];
      effects := [];
    }

    /**
     * `connectedCallback()`: fetch only when opened with an id; a fetched
     * record is copied in, a failed fetch is only logged to the console.
     */
    method ConnectedCallback(response: Outcome<Record>)
      modifies this
      ensures recordId == old(recordId)
      ensures effects == old(effects) + if Truthy(recordId) then [Call(GetLeadById(recordId))] else []
      ensures leadRecord == if Truthy(recordId) && response.Ok? then response.value else old(leadRecord)
    {
      if Truthy(recordId) {
        effects := effects + [Call(GetLeadById(recordId))];
        if response.Ok? {
          leadRecord := response.value;
        }
      }
    }

    /** `handleChange(event)`: the field named by the input takes its value. */
    method HandleChange(name: string, value: JsValue)
      modifies this
      ensures leadRecord == old(leadRecord)[name := value]
      ensures recordId == old(recordId) && effects == old(effects)
    {
      leadRecord := leadRecord[name := value];
    }

    /** `handleSave()`, with `response` the settlement of the chosen call. */
    method HandleSave(response: Outcome<JsValue>)
      modifies this
      ensures effects == old(effects) + SaveEffects(recordId, leadRecord, response)
      ensures recordId == old(recordId) && leadRecord == old(leadRecord)
    {
      if Truthy(recordId) {
        effects := effects + [Call(UpdateLead(recordId, leadRecord))];
      } else {
        effects := effects + [Call(CreateLead(recordId, leadRecord))];
      }
      if response.Ok? {
        effects := effects + [Close(Str("refresh"))];
      } else {
        effects := effects + [Close(Str("error"))];
      }
    }

    /** `handleCancel()`: close with no result. */
    method HandleCancel()
      modifies this
      ensures effects == old(effects) + [Close(Absent)]
      ensures recordId == old(recordId) && leadRecord == old(leadRecord)
    {
      effects := effects + [Close(Absent)];
    }
  }
}

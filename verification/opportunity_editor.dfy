/**
 * createOpportunity: the opportunity form. It loads the opportunity whose id
 * it was given, checks three required fields in a fixed order, creates or
 * updates depending on whether it has an id, and reports the outcome in
 * `showSuccess`, `errorMessage`, a toast and a component event.
 */
module OpportunityEditor {
  import opened Lwc

  /** The Apex methods the form calls, with their arguments. */
  datatype OpportunityCall =
    | GetOpportunityById(oppId: JsValue)
    | CreateOpportunity(oppData: Record)
    | UpdateOpportunity(oppId: JsValue, oppData: Record)

  /** The eleven tracked input properties of the form. */
  datatype OpportunityForm = OpportunityForm(
    opportunityName: JsValue, accountId: JsValue, accountName: JsValue, amount: JsValue,
    closeDate: JsValue, stageName: JsValue, probability: JsValue, oppType: JsValue,
    leadSource: JsValue, nextStep: JsValue, description: JsValue)

  /** The form as declared and as `resetForm` leaves it: every property `''`. */
  const BlankForm := OpportunityForm(Str(""), Str(""), Str(""), Str(""), Str(""), Str(""),
                                     Str(""), Str(""), Str(""), Str(""), Str(""))

  /**
   * `!v || v.trim() === ''`: a text input counts as missing exactly when it
   * is falsy or holds only whitespace.
   */
  predicate Blank(v: JsValue): (missing: bool)
    ensures missing <==> !Truthy(v) || (v.Str? && AllWhitespace(v.s))
  {
    if v.Str? then
      TrimEmptyIffAllWhitespace(v.s);
      !Truthy(v) || Trim(v.s) == ""
    else
      !Truthy(v)
  }

  /** For a text input: missing exactly when it is unset or holds only whitespace. */
  lemma BlankIffOnlyWhitespace(v: JsValue)
    requires !v.Num?
    ensures Blank(v) <==> v.Absent? || AllWhitespace(v.s)
  {
  }

  /**
   * `validateRequiredFields()`: name, then close date, then stage; only the
   * first missing one is reported.
   */
  function ValidationError(form: OpportunityForm): (err: Option<string>)
    ensures err.None? <==> !Blank(form.opportunityName) && Truthy(form.closeDate) && !Blank(form.stageName)
    ensures Blank(form.opportunityName) ==> err == Some("Opportunity Name is required")
    ensures !Blank(form.opportunityName) && !Truthy(form.closeDate) ==> err == Some("Close Date is required")
    ensures !Blank(form.opportunityName) && Truthy(form.closeDate) && Blank(form.stageName) ==>
              err == Some("Stage is required")
  {
    if Blank(form.opportunityName) then Some("Opportunity Name is required")
    else if !Truthy(form.closeDate) then Some("Close Date is required")
    else if Blank(form.stageName) then Some("Stage is required")
    else None
  }

  const OppDataKeys: set<string> :=
    {"Name", "AccountId", "Amount", "CloseDate", "StageName", "Probability", "Type", "LeadSource", "NextStep", "Description"}

  /**
   * The `oppData` object sent on submit: ten fields taken from the form
   * (the account name is not sent); an empty amount or probability is sent
   * as `null`.
   */
  function OppData(form: OpportunityForm): (data: Record)
    ensures data.Keys == OppDataKeys
    ensures data["Name"] == form.opportunityName && data["AccountId"] == form.accountId
    ensures data["CloseDate"] == form.closeDate && data["StageName"] == form.stageName
    ensures data["Type"] == form.oppType && data["LeadSource"] == form.leadSource
    ensures data["NextStep"] == form.nextStep && data["Description"] == form.description
    ensures data["Amount"] == (if Truthy(form.amount) then form.amount else Absent)
    ensures data["Probability"] == (if Truthy(form.probability) then form.probability else Absent)
  {
    map["Name" := form.opportunityName, "AccountId" := form.accountId,
        "Amount" := (if Truthy(form.amount) then form.amount else Absent),
        "CloseDate" := form.closeDate, "StageName" := form.stageName,
        "Probability" := (if Truthy(form.probability) then form.probability else Absent),
        "Type" := form.oppType, "LeadSource" := form.leadSource,
        "NextStep" := form.nextStep, "Description" := form.description]
  }

  /** The loaded opportunity's fields copied into the form as they come; the account name is kept. */
  function LoadedForm(form: OpportunityForm, rec: Record): (loaded: OpportunityForm)
    ensures loaded.accountName == form.accountName
    ensures loaded.opportunityName == Get(rec, "Name") && loaded.accountId == Get(rec, "AccountId")
    ensures loaded.amount == Get(rec, "Amount") && loaded.closeDate == Get(rec, "CloseDate")
    ensures loaded.stageName == Get(rec, "StageName") && loaded.probability == Get(rec, "Probability")
    ensures loaded.oppType == Get(rec, "Type") && loaded.leadSource == Get(rec, "LeadSource")
    ensures loaded.nextStep == Get(rec, "NextStep") && loaded.description == Get(rec, "Description")
  {
    form.(opportunityName := Get(rec, "Name"), accountId := Get(rec, "AccountId"),
          amount := Get(rec, "Amount"), closeDate := Get(rec, "CloseDate"),
          stageName := Get(rec, "StageName"), probability := Get(rec, "Probability"),
          oppType := Get(rec, "Type"), leadSource := Get(rec, "LeadSource"),
          nextStep := Get(rec, "NextStep"), description := Get(rec, "Description"))
  }

  /** The property names an input's `name` attribute can carry. */
  const FormFieldNames: set<string> :=
    {"opportunityName", "accountId", "accountName", "amount", "closeDate", "stageName",
     "probability", "oppType", "leadSource", "nextStep", "description"}

  /** `handleInputChange(event)`: the property named by the input takes its value. */
  function SetField(form: OpportunityForm, name: string, value: JsValue): (changed: OpportunityForm)
    ensures name == "opportunityName" ==> changed == form.(opportunityName := value)
    ensures name == "accountId" ==> changed == form.(accountId := value)
    ensures name == "accountName" ==> changed == form.(accountName := value)
    ensures name == "amount" ==> changed == form.(amount := value)
    ensures name == "closeDate" ==> changed == form.(closeDate := value)
    ensures name == "stageName" ==> changed == form.(stageName := value)
    ensures name == "probability" ==> changed == form.(probability := value)
    ensures name == "oppType" ==> changed == form.(oppType := value)
    ensures name == "leadSource" ==> changed == form.(leadSource := value)
    ensures name == "nextStep" ==> changed == form.(nextStep := value)
    ensures name == "description" ==> changed == form.(description := value)
    ensures name !in FormFieldNames ==> changed == form
  {
    match name
    case "opportunityName" => form.(opportunityName := value)
    case "accountId" => form.(accountId := value)
    case "accountName" => form.(accountName := value)
    case "amount" => form.(amount := value)
    case "closeDate" => form.(closeDate := value)
    case "stageName" => form.(stageName := value)
    case "probability" => form.(probability := value)
    case "oppType" => form.(oppType := value)
    case "leadSource" => form.(leadSource := value)
    case "nextStep" => form.(nextStep := value)
    case "description" => form.(description := value)
    case _ => form
  }

  /**
   * `handleError(error)`: `error.body.message` when truthy, else
   * `error.message` when truthy, else `'Unknown error'`; never empty.
   */
  function HandleErrorMessage(e: ApexError): (m: JsValue)
    ensures Truthy(m)
    ensures Truthy(e.bodyMessage) ==> m == e.bodyMessage
    ensures !Truthy(e.bodyMessage) && Truthy(e.message) ==> m == e.message
    ensures !Truthy(e.bodyMessage) && !Truthy(e.message) ==> m == Str("Unknown error")
  {
    if Truthy(e.bodyMessage) then e.bodyMessage
    else if Truthy(e.message) then e.message
    else Str("Unknown error")
  }

  /** The toast and event `handleError` dispatches. */
  function ErrorEffects(e: ApexError): (effs: seq<Effect<OpportunityCall>>)
    ensures |effs| == 2 && effs[0].Toast? && effs[0].variant == "error"
    ensures effs[0].message == HandleErrorMessage(e) && effs[1] == Event("opportunityerror", HandleErrorMessage(e))
  {
    [Toast("Error", HandleErrorMessage(e), "error"), Event("opportunityerror", HandleErrorMessage(e))]
  }

  /** `isUpdateMode ? updateOpportunityRecord : createOpportunityRecord` */
  function SubmitCall(idToUpdate: JsValue, data: Record): (c: OpportunityCall)
    ensures c.UpdateOpportunity? <==> idToUpdate != Absent
    ensures c.CreateOpportunity? <==> idToUpdate == Absent
    ensures c.UpdateOpportunity? ==> c.oppId == idToUpdate
    ensures !c.GetOpportunityById? && c.oppData == data
  {
    if idToUpdate != Absent then UpdateOpportunity(idToUpdate, data) else CreateOpportunity(data)
  }

  /**
   * `handleSubmit(event)`: nothing when validation fails; otherwise the
   * create or update call followed by its success toast and event or by
   * `handleError`'s toast and event.
   */
  function SubmitEffects(idToUpdate: JsValue, form: OpportunityForm, response: Outcome<JsValue>): (effs: seq<Effect<OpportunityCall>>)
    ensures ValidationError(form).Some? ==> effs == []
    ensures ValidationError(form).None? ==> |effs| == 3 && effs[0] == Call(SubmitCall(idToUpdate, OppData(form)))
    ensures ValidationError(form).None? && response.Err? ==> effs[1..] == ErrorEffects(response.error)
    ensures ValidationError(form).None? && response.Ok? ==> effs[1].Toast? && effs[1].variant == "success"
    ensures ValidationError(form).None? && response.Ok? && idToUpdate == Absent ==>
              effs[2] == Event("opportunitysaved", response.value)
    ensures ValidationError(form).None? && response.Ok? && idToUpdate != Absent ==>
              effs[2] == Event("opportunityupdated", idToUpdate)
  {
    if ValidationError(form).Some? then []
    else
      var call := Call(SubmitCall(idToUpdate, OppData(form)));
      match response
      case Err(e) => [call] + ErrorEffects(e)
      case Ok(v) =>
        if idToUpdate == Absent then
          [call, Toast("Success", Str("Opportunity created successfully!"), "success"), Event("opportunitysaved", v)]
        else
          [call, Toast("Success", v, "success"), Event("opportunityupdated", idToUpdate)]
  }

  /** `errorMessage` after a submit: the validation message, else the call's error, else `''`. */
  function SubmitErrorMessage(form: OpportunityForm, response: Outcome<JsValue>): (m: JsValue)
    ensures ValidationError(form).Some? ==> m == Str(ValidationError(form).value)
    ensures ValidationError(form).None? && response.Err? ==> m == HandleErrorMessage(response.error)
    ensures ValidationError(form).None? && response.Ok? ==> m == Str("")
  {
    if ValidationError(form).Some? then Str(ValidationError(form).value)
    else if response.Err? then HandleErrorMessage(response.error)
    else Str("")
  }

  class CreateOpportunity {
    var opportunityIdToUpdate: JsValue
    var showTitle: Option<bool>
    var customTitle: string
    var showSuccess: bool
    var errorMessage: JsValue
    var isLoading: bool
    var createdOpportunityId: JsValue
    var form: OpportunityForm
    var effects: seq<Effect<OpportunityCall>>

    /** The form with its `@api` properties set by the parent and every tracked property at its default. */
    constructor (opportunityIdToUpdate: JsValue, showTitle: Option<bool>, customTitle: string)
      ensures this.opportunityIdToUpdate == opportunityIdToUpdate
      ensures this.showTitle == showTitle && this.customTitle == customTitle
      ensures !showSuccess && errorMessage == Str("") && !isLoading && createdOpportunityId == Str("")
      ensures form == BlankForm && effects == []
    {
      this.opportunityIdToUpdate := opportunityIdToUpdate;
      this.showTitle := showTitle;
      this.customTitle := customTitle;
      showSuccess := false;
      errorMessage := Str("");
      isLoading := false;
      createdOpportunityId := Str("");
      form := BlankForm;
      effects := [];
    }

    /** `get isUpdateMode()`: `opportunityIdToUpdate != null`. */
    function IsUpdateMode(): (update: bool)
      reads this
      ensures update <==> opportunityIdToUpdate != Absent
    {
      opportunityIdToUpdate != Absent
    }

    /** `get buttonLabel()` */
    function ButtonLabel(): (text: string)
      reads this
      ensures text == "Update Opportunity" <==> opportunityIdToUpdate != Absent
      ensures text == "Create Opportunity" <==> opportunityIdToUpdate == Absent
    {
      if IsUpdateMode() then "Update Opportunity" else "Create Opportunity"
    }

    /** `get pageTitle()`: the custom title unless `showTitle` is exactly `false`. */
    function PageTitle(): (title: JsValue)
      reads this
      ensures title == Absent <==> showTitle == Some(false)
      ensures title != Absent ==> title == Str(customTitle)
    {
      if showTitle != Some(false) then Str(customTitle) else Absent
    }

    /** `connectedCallback()`: load only when there is a truthy id. */
    method ConnectedCallback(response: Outcome<Record>)
      modifies this
      ensures opportunityIdToUpdate == old(opportunityIdToUpdate)
      ensures showTitle == old(showTitle) && customTitle == old(customTitle)
      ensures !Truthy(opportunityIdToUpdate) ==>
                && form == old(form) && showSuccess == old(showSuccess) && errorMessage == old(errorMessage)
                && isLoading == old(isLoading) && createdOpportunityId == old(createdOpportunityId)
                && effects == old(effects)
      ensures Truthy(opportunityIdToUpdate) ==> !isLoading && createdOpportunityId == old(createdOpportunityId)
      ensures Truthy(opportunityIdToUpdate) && response.Ok? ==>
                && form == LoadedForm(old(form), response.value)
                && errorMessage == old(errorMessage) && showSuccess == old(showSuccess)
                && effects == old(effects) + [Call(GetOpportunityById(opportunityIdToUpdate))]
      ensures Truthy(opportunityIdToUpdate) && response.Err? ==>
                && form == old(form) && !showSuccess
                && errorMessage == HandleErrorMessage(response.error)
                && effects == old(effects) + [Call(GetOpportunityById(opportunityIdToUpdate))] + ErrorEffects(response.error)
    {
      if Truthy(opportunityIdToUpdate) {
        LoadOpportunity(response);
      }
    }

    /** `loadOpportunity()`, with `response` the settlement of `getOpportunityById`. */
    method LoadOpportunity(response: Outcome<Record>)
      modifies this
      ensures !isLoading
      ensures response.Ok? ==> form == LoadedForm(old(form), response.value)
      ensures response.Ok? ==> effects == old(effects) + [Call(GetOpportunityById(opportunityIdToUpdate))]
      ensures response.Ok? ==> errorMessage == old(errorMessage) && showSuccess == old(showSuccess)
      ensures response.Err? ==> form == old(form) && !showSuccess
      ensures response.Err? ==> errorMessage == HandleErrorMessage(response.error)
      ensures response.Err? ==>
                effects == old(effects) + [Call(GetOpportunityById(opportunityIdToUpdate))] + ErrorEffects(response.error)
      ensures opportunityIdToUpdate == old(opportunityIdToUpdate) && createdOpportunityId == old(createdOpportunityId)
      ensures showTitle == old(showTitle) && customTitle == old(customTitle)
    {
      isLoading := true;
      effects := effects + [Call(GetOpportunityById(opportunityIdToUpdate))];
      match response {
        case Ok(rec) =>
          form := LoadedForm(form, rec);
          isLoading := false;
        case Err(e) =>
          HandleError(e);
      }
    }

    /** `handleInputChange(event)` */
    method HandleInputChange(name: string, value: JsValue)
      modifies this
      ensures form == SetField(old(form), name, value)
      ensures opportunityIdToUpdate == old(opportunityIdToUpdate) && showSuccess == old(showSuccess)
      ensures errorMessage == old(errorMessage) && isLoading == old(isLoading)
      ensures createdOpportunityId == old(createdOpportunityId) && effects == old(effects)
      ensures showTitle == old(showTitle) && customTitle == old(customTitle)
    {
      form := SetField(form, name, value);
    }

    /**
     * `validateRequiredFields()`: true when nothing is missing; otherwise
     * `errorMessage` names the first missing field.
     */
    method ValidateRequiredFields() returns (isValid: bool)
      modifies this
      ensures isValid <==> ValidationError(form).None?
      ensures !isValid ==> errorMessage == Str(ValidationError(form).value)
      ensures isValid ==> errorMessage == old(errorMessage)
      ensures opportunityIdToUpdate == old(opportunityIdToUpdate) && showSuccess == old(showSuccess)
      ensures isLoading == old(isLoading) && createdOpportunityId == old(createdOpportunityId)
      ensures form == old(form) && effects == old(effects)
      ensures showTitle == old(showTitle) && customTitle == old(customTitle)
    {
      isValid := true;
      if Blank(form.opportunityName) {
        errorMessage := Str("Opportunity Name is required");
        isValid := false;
      } else if !Truthy(form.closeDate) {
        errorMessage := Str("Close Date is required");
        isValid := false;
      } else if Blank(form.stageName) {
        errorMessage := Str("Stage is required");
        isValid := false;
      }
    }

    /** `handleSubmit(event)`, with `response` the settlement of the create or update call. */
    method HandleSubmit(response: Outcome<JsValue>)
      modifies this
      ensures effects == old(effects) + SubmitEffects(opportunityIdToUpdate, form, response)
      ensures errorMessage == SubmitErrorMessage(form, response)
      ensures showSuccess <==> ValidationError(form).None? && response.Ok?
      ensures isLoading == if ValidationError(form).None? then false else old(isLoading)
      ensures createdOpportunityId ==
                if ValidationError(form).None? && response.Ok? && opportunityIdToUpdate == Absent
                then response.value else old(createdOpportunityId)
      ensures opportunityIdToUpdate == old(opportunityIdToUpdate) && form == old(form)
      ensures showTitle == old(showTitle) && customTitle == old(customTitle)
    {
      showSuccess := false;
      errorMessage := Str("");
      var valid := ValidateRequiredFields();
      if !valid {
        return;
      }
      isLoading := true;
      var data := OppData(form);
      if IsUpdateMode() {
        UpdateOpportunityRecord(data, response);
      } else {
        CreateOpportunityRecord(data, response);
      }
    }

    /** `createOpportunityRecord(oppData)`; the timers and navigation after it are not modelled. */
    method CreateOpportunityRecord(data: Record, response: Outcome<JsValue>)
      modifies this
      ensures !isLoading
      ensures response.Ok? ==> createdOpportunityId == response.value && showSuccess
      ensures response.Ok? ==> errorMessage == old(errorMessage)
      ensures response.Ok? ==> effects == old(effects) + [Call(CreateOpportunity(data)),
                Toast("Success", Str("Opportunity created successfully!"), "success"),
                Event("opportunitysaved", response.value)]
      ensures response.Err? ==> createdOpportunityId == old(createdOpportunityId) && !showSuccess
      ensures response.Err? ==> errorMessage == HandleErrorMessage(response.error)
      ensures response.Err? ==> effects == old(effects) + [Call(CreateOpportunity(data))] + ErrorEffects(response.error)
      ensures opportunityIdToUpdate == old(opportunityIdToUpdate) && form == old(form)
      ensures showTitle == old(showTitle) && customTitle == old(customTitle)
    {
      effects := effects + [Call(CreateOpportunity(data))];
      match response {
        case Ok(id) =>
          isLoading := false;
          createdOpportunityId := id;
          showSuccess := true;
          effects := effects + [Toast("Success", Str("Opportunity created successfully!"), "success"),
                                Event("opportunitysaved", id)];
        case Err(e) =>
          HandleError(e);
      }
    }

    /** `updateOpportunityRecord(oppData)`; the timer and navigation after it are not modelled. */
    method UpdateOpportunityRecord(data: Record, response: Outcome<JsValue>)
      modifies this
      ensures !isLoading && createdOpportunityId == old(createdOpportunityId)
      ensures response.Ok? ==> showSuccess && errorMessage == old(errorMessage)
      ensures response.Ok? ==> effects == old(effects) + [Call(UpdateOpportunity(opportunityIdToUpdate, data)),
                Toast("Success", response.value, "success"),
                Event("opportunityupdated", opportunityIdToUpdate)]
      ensures response.Err? ==> !showSuccess && errorMessage == HandleErrorMessage(response.error)
      ensures response.Err? ==>
                effects == old(effects) + [Call(UpdateOpportunity(opportunityIdToUpdate, data))] + ErrorEffects(response.error)
      ensures opportunityIdToUpdate == old(opportunityIdToUpdate) && form == old(form)
      ensures showTitle == old(showTitle) && customTitle == old(customTitle)
    {
      effects := effects + [Call(UpdateOpportunity(opportunityIdToUpdate, data))];
      match response {
        case Ok(message) =>
          isLoading := false;
          showSuccess := true;
          effects := effects + [Toast("Success", message, "success"), Event("opportunityupdated", opportunityIdToUpdate)];
        case Err(e) =>
          HandleError(e);
      }
    }

    /** `handleError(error)`: stop loading, clear success, surface the message. */
    method HandleError(e: ApexError)
      modifies this
      ensures !isLoading && !showSuccess
      ensures errorMessage == HandleErrorMessage(e)
      ensures effects == old(effects) + ErrorEffects(e)
      ensures opportunityIdToUpdate == old(opportunityIdToUpdate) && createdOpportunityId == old(createdOpportunityId)
      ensures form == old(form) && showTitle == old(showTitle) && customTitle == old(customTitle)
    {
      isLoading := false;
      showSuccess := false;
      var message := HandleErrorMessage(e);
      errorMessage := message;
      effects := effects + [Toast("Error", message, "error"), Event("opportunityerror", message)];
    }

    /** `resetForm()`: every input `''`, and the success flag, error and created id cleared. */
    method ResetForm()
      modifies this
      ensures form == BlankForm
      ensures !showSuccess && errorMessage == Str("") && createdOpportunityId == Str("")
      ensures opportunityIdToUpdate == old(opportunityIdToUpdate) && isLoading == old(isLoading)
      ensures effects == old(effects) && showTitle == old(showTitle) && customTitle == old(customTitle)
    {
      form := BlankForm;
      showSuccess := false;
      errorMessage := Str("");
      createdOpportunityId := Str("");
    }

    /** `handleCancel()`: reset, then dispatch `cancel`. */
    method HandleCancel()
      modifies this
      ensures form == BlankForm
      ensures !showSuccess && errorMessage == Str("") && createdOpportunityId == Str("")
      ensures effects == old(effects) + [Event("cancel", Absent)]
      ensures opportunityIdToUpdate == old(opportunityIdToUpdate) && isLoading == old(isLoading)
      ensures showTitle == old(showTitle) && customTitle == old(customTitle)
    {
      ResetForm();
      effects := effects + [Event("cancel", Absent)];
    }

    /** `clearForm()`, the public entry to `resetForm`. */
    method ClearForm()
      modifies this
      ensures form == BlankForm
      ensures !showSuccess && errorMessage == Str("") && createdOpportunityId == Str("")
      ensures opportunityIdToUpdate == old(opportunityIdToUpdate) && isLoading == old(isLoading)
      ensures effects == old(effects) && showTitle == old(showTitle) && customTitle == old(customTitle)
    {
      ResetForm();
    }
  }

  /** A blank form never passes validation: the name is the first thing reported. */
  lemma BlankFormFailsOnName()
    ensures ValidationError(BlankForm) == Some("Opportunity Name is required")
  {
  }
}

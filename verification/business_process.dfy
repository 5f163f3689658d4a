/**
 * createBusinessProcess: a two-step form that builds the metadata payload of
 * a business process. Step one names the process, picks the object and the
 * active flag; step two fetches the object's status-like picklist and lets
 * the user pick the values the process exposes; saving sends the payload.
 */
module BusinessProcess {
  import opened Lwc

  /** One entry of the payload's `values`; Opportunity entries carry no `default_x`. */
  datatype PicklistValue = PicklistValue(fullName: string, defaultX: Option<bool>)

  /** `BusinessProcessJson`: the payload under construction. */
  datatype ProcessJson = ProcessJson(fullName: string, isActive: bool, values: seq<PicklistValue>)

  /** What `getPicklistFieldValues` settles with: an array of values, or anything else. */
  datatype PicklistResponse = ValueArray(values: seq<string>) | NotAnArray

  /** The Apex methods the form calls, with their arguments. */
  datatype ProcessCall =
    | GetPicklistFieldValues(objectApiName: string, fieldName: string)
    | CreateBusinessProcess(businessProcess: ProcessJson)

  const BlankJson := ProcessJson("", false, [])

  const FillRequired: Effect<ProcessCall> := ShowToast("Error", "Please fill in all required fields", "error")
  const FetchFailure: Effect<ProcessCall> := ShowToast("Error", "Failed to fetch picklist values", "error")
  const SelectOne: Effect<ProcessCall> := ShowToast("Error", "Please select at least one value", "error")

  /** `${object}.${name}`: the metadata full name of a business process. */
  function FullName(objectName: string, processName: string): (full: string)
    ensures |full| == |objectName| + 1 + |processName|
    ensures full[..|objectName|] == objectName && full[|objectName|] == '.'
    ensures full[|objectName| + 1..] == processName
  {
    objectName + "." + processName
  }

  /** Split a full name at its first dot into the object and the process name. */
  function SplitAtDot(full: string): (parts: (string, string))
    ensures '.' !in parts.0
    ensures '.' in full ==> full == parts.0 + "." + parts.1
    ensures '.' !in full ==> parts == (full, "")
  {
    if full == [] then ("", "")
    else if full[0] == '.' then ("", full[1..])
    else
      var rest := SplitAtDot(full[1..]);
      assert full == [full[0]] + full[1..];
      ([full[0]] + rest.0, rest.1)
  }

  /**
   * An object API name has no dot, so the object and the process name can be
   * read back from the full name, even when the process name has dots.
   */
  lemma {:induction false} FullNameSplits(objectName: string, processName: string)
    requires '.' !in objectName
    ensures SplitAtDot(FullName(objectName, processName)) == (objectName, processName)
    decreases |objectName|
  {
    var full := FullName(objectName, processName);
    if objectName == [] {
      assert full[0] == '.' && full[1..] == processName;
    } else {
      assert full[0] == objectName[0] && full[0] != '.';
      assert full[1..] == FullName(objectName[1..], processName);
      FullNameSplits(objectName[1..], processName);
      assert [objectName[0]] + objectName[1..] == objectName;
    }
  }

  /** The picklist field `handelNext` fetches for an object; other objects keep the current one. */
  function FieldFor(objectName: string, current: string): (field: string)
    ensures objectName == "Lead" ==> field == "Status"
    ensures objectName == "Opportunity" ==> field == "StageName"
    ensures objectName == "Case" ==> field == "Status"
    ensures objectName !in {"Lead", "Opportunity", "Case"} ==> field == current
  {
    if objectName == "Lead" then "Status"
    else if objectName == "Opportunity" then "StageName"
    else if objectName == "Case" then "Status"
    else current
  }

  /** `values.map(v => v.fullName)` */
  function FullNames(values: seq<PicklistValue>): (names: seq<string>)
    ensures |names| == |values|
    ensures forall i :: 0 <= i < |values| ==> names[i] == values[i].fullName
  {
    seq(|values|, i requires 0 <= i < |values| => values[i].fullName)
  }

  /**
   * The payload values after `handlePicklistChange`: for Lead and Case one
   * entry per selected value with `default_x` on the first only; for
   * Opportunity one entry per selected value with its name only; for any
   * other object the current values.
   */
  function ValuesFor(objectName: string, selected: seq<string>, current: seq<PicklistValue>): (values: seq<PicklistValue>)
    ensures objectName in {"Lead", "Case", "Opportunity"} ==> |values| == |selected|
    ensures objectName in {"Lead", "Case", "Opportunity"} ==>
              forall i :: 0 <= i < |selected| ==> values[i].fullName == selected[i]
    ensures objectName in {"Lead", "Case"} ==>
              forall i :: 0 <= i < |selected| ==> values[i].defaultX == Some(i == 0)
    ensures objectName == "Opportunity" ==> forall i :: 0 <= i < |selected| ==> values[i].defaultX == None
    ensures objectName !in {"Lead", "Case", "Opportunity"} ==> values == current
  {
    if objectName in {"Lead", "Case"} then
      seq(|selected|, i requires 0 <= i < |selected| => PicklistValue(selected[i], Some(i == 0)))
    else if objectName == "Opportunity" then
      seq(|selected|, i requires 0 <= i < |selected| => PicklistValue(selected[i], None))
    else current
  }

  /**
   * For the three supported objects the selection can be read back from the
   * payload, which is what `handelNext` does when the modal is reopened.
   */
  lemma SelectionRoundTrip(objectName: string, selected: seq<string>, current: seq<PicklistValue>)
    requires objectName in {"Lead", "Case", "Opportunity"}
    ensures FullNames(ValuesFor(objectName, selected, current)) == selected
  {
  }

  /**
   * Step one is complete: the guard `!selectedObjectName || !processname ||
   * !isActive` of `handelNext` does not fire.
   */
  predicate ReadyForValues(objectName: string, processName: string, isActive: bool): (ready: bool)
    ensures ready <==> Truthy(Str(objectName)) && Truthy(Str(processName)) && isActive
  {
    objectName != "" && processName != "" && isActive
  }

  /**
   * `handelNext()`: with step one incomplete a single error toast and no
   * fetch; otherwise the fetch for the mapped field and, if it fails, an
   * error toast.
   */
  function NextEffects(objectName: string, processName: string, isActive: bool, fieldName: string,
                       response: Outcome<PicklistResponse>): (effs: seq<Effect<ProcessCall>>)
    ensures !ReadyForValues(objectName, processName, isActive) ==> effs == [FillRequired]
    ensures HasCall(effs) <==> ReadyForValues(objectName, processName, isActive)
    ensures ReadyForValues(objectName, processName, isActive) ==>
              effs[0] == Call(GetPicklistFieldValues(objectName, FieldFor(objectName, fieldName)))
    ensures ReadyForValues(objectName, processName, isActive) && response.Ok? ==> |effs| == 1
    ensures ReadyForValues(objectName, processName, isActive) && response.Err? ==> effs[1..] == [FetchFailure]
  {
    if !ReadyForValues(objectName, processName, isActive) then
      assert !FillRequired.Call?;
      [FillRequired]
    else
      var call: Effect<ProcessCall> := Call(GetPicklistFieldValues(objectName, FieldFor(objectName, fieldName)));
      var effs := if response.Ok? then [call] else [call, FetchFailure];
      assert effs[0].Call?;
      effs
  }

  /**
   * `handleSave()`: an empty selection gives an error toast and no call;
   * otherwise the create call with the payload as it stands, and `saveprocess`
   * with `'True'` once it succeeds. A failed call dispatches nothing.
   */
  function SaveEffects(selected: seq<string>, json: ProcessJson, response: Outcome<JsValue>): (effs: seq<Effect<ProcessCall>>)
    ensures selected == [] ==> effs == [SelectOne]
    ensures HasCall(effs) <==> selected != []
    ensures selected != [] ==> effs[0] == Call(CreateBusinessProcess(ProcessJson(json.fullName, json.isActive, json.values)))
    ensures HasEvent(effs) <==> selected != [] && response.Ok?
    ensures HasEvent(effs) ==> effs == [effs[0], Event("saveprocess", Str("True"))]
  {
    if selected == [] then
      assert !SelectOne.Call? && !SelectOne.Event?;
      [SelectOne]
    else
      var call: Effect<ProcessCall> := Call(CreateBusinessProcess(ProcessJson(json.fullName, json.isActive, json.values)));
      if response.Ok? then
        var effs := [call, Event("saveprocess", Str("True"))];
        assert effs[0].Call? && effs[1].Event?;
        effs
      else
        var effs := [call];
        assert effs[0].Call? && !effs[0].Event?;
        effs
  }

  /** `showToast(title, message, variant)`: an empty argument falls back to its default. */
  function ShowToast(title: string, message: string, variant: string): (t: Effect<ProcessCall>)
    ensures t.Toast? && t.title != "" && t.message.Str? && t.message.s != "" && t.variant != ""
    ensures title != "" ==> t.title == title
    ensures title == "" ==> t.title == "Info"
    ensures message != "" ==> t.message == Str(message)
    ensures message == "" ==> t.message == Str("Operation completed")
    ensures variant != "" ==> t.variant == variant
    ensures variant == "" ==> t.variant == "info"
  {
    Toast(if title != "" then title else "Info",
          Str(if message != "" then message else "Operation completed"),
          if variant != "" then variant else "info")
  }

  class InputForm {
    var processname: string
    var isActive: bool
    var fieldName: string
    var isModalOpen: bool
    var availablePicklistOptions: seq<PicklistOption>
    var selectedPicklistValues: seq<string>
    var isLoading: bool
    var processButtonClicked: bool
    var businessProcessJson: ProcessJson
    /** The `@api` object name; the empty string stands for `undefined`. */
    var selectedObjectName: string
    var effects: seq<Effect<ProcessCall>>

    /** The form with every tracked property at its declared default. */
    constructor (selectedObjectName: string)
      ensures this.selectedObjectName == selectedObjectName
      ensures processname == "" && !isActive && fieldName == "" && !isModalOpen
      ensures availablePicklistOptions == [] && selectedPicklistValues == []
      ensures !isLoading && !processButtonClicked && businessProcessJson == BlankJson && effects == []
    {
      this.selectedObjectName := selectedObjectName;
      processname := "";
      isActive := false;
      fieldName := "";
      isModalOpen := false;
      availablePicklistOptions := [];
      selectedPicklistValues := [];
      isLoading := false;
      processButtonClicked := false;
      businessProcessJson := BlankJson;
      effects := [];
    }

    /** `updateBaseJson()`: full name and active flag from the inputs; the values are kept. */
    method UpdateBaseJson()
      modifies this
      ensures businessProcessJson == ProcessJson(FullName(selectedObjectName, processname), isActive,
                                                 old(businessProcessJson.values))
      ensures processname == old(processname) && isActive == old(isActive) && fieldName == old(fieldName)
      ensures isModalOpen == old(isModalOpen) && availablePicklistOptions == old(availablePicklistOptions)
      ensures selectedPicklistValues == old(selectedPicklistValues) && isLoading == old(isLoading)
      ensures processButtonClicked == old(processButtonClicked) && selectedObjectName == old(selectedObjectName)
      ensures effects == old(effects)
    {
      businessProcessJson := businessProcessJson.(fullName := FullName(selectedObjectName, processname),
                                                  isActive := isActive);
    }

    /** `handleProcessChange(event)`, with `value` the input's value (`None` for undefined). */
    method HandleProcessChange(value: Option<string>)
      modifies this
      ensures processname == (if value.Some? then value.value else "")
      ensures businessProcessJson == ProcessJson(FullName(selectedObjectName, processname), isActive,
                                                 old(businessProcessJson.values))
      ensures isActive == old(isActive) && fieldName == old(fieldName) && isModalOpen == old(isModalOpen)
      ensures availablePicklistOptions == old(availablePicklistOptions)
      ensures selectedPicklistValues == old(selectedPicklistValues) && isLoading == old(isLoading)
      ensures processButtonClicked == old(processButtonClicked) && selectedObjectName == old(selectedObjectName)
      ensures effects == old(effects)
    {
      processname := if value.Some? then value.value else "";
      UpdateBaseJson();
    }

    /** `handleChange(event)`: the object picked in step one. */
    method HandleChange(value: Option<string>)
      modifies this
      ensures selectedObjectName == (if value.Some? then value.value else "")
      ensures businessProcessJson == ProcessJson(FullName(selectedObjectName, processname), isActive,
                                                 old(businessProcessJson.values))
      ensures processname == old(processname) && isActive == old(isActive) && fieldName == old(fieldName)
      ensures isModalOpen == old(isModalOpen) && availablePicklistOptions == old(availablePicklistOptions)
      ensures selectedPicklistValues == old(selectedPicklistValues) && isLoading == old(isLoading)
      ensures processButtonClicked == old(processButtonClicked) && effects == old(effects)
    {
      selectedObjectName := if value.Some? then value.value else "";
      UpdateBaseJson();
    }

    /** `handleActiveChange(event)`, with `checked` the checkbox state. */
    method HandleActiveChange(checked: bool)
      modifies this
      ensures isActive == checked
      ensures businessProcessJson == ProcessJson(FullName(selectedObjectName, processname), checked,
                                                 old(businessProcessJson.values))
      ensures processname == old(processname) && fieldName == old(fieldName) && isModalOpen == old(isModalOpen)
      ensures availablePicklistOptions == old(availablePicklistOptions)
      ensures selectedPicklistValues == old(selectedPicklistValues) && isLoading == old(isLoading)
      ensures processButtonClicked == old(processButtonClicked) && selectedObjectName == old(selectedObjectName)
      ensures effects == old(effects)
    {
      isActive := checked;
      UpdateBaseJson();
    }

    /**
     * `handelNext()`, with `response` the settlement of `getPicklistFieldValues`.
     * With step one incomplete nothing but the click flag and a toast changes.
     */
    method HandelNext(response: Outcome<PicklistResponse>)
      modifies this
      ensures processButtonClicked
      ensures effects == old(effects) + NextEffects(selectedObjectName, processname, isActive, old(fieldName), response)
      ensures !ReadyForValues(selectedObjectName, processname, isActive) ==>
                isLoading == old(isLoading) && fieldName == old(fieldName)
      ensures ReadyForValues(selectedObjectName, processname, isActive) ==>
                !isLoading && fieldName == FieldFor(selectedObjectName, old(fieldName))
      ensures ReadyForValues(selectedObjectName, processname, isActive) && response.Ok? && response.value.ValueArray? ==>
                && availablePicklistOptions == Options(response.value.values)
                && selectedPicklistValues == FullNames(businessProcessJson.values)
                && isModalOpen
      ensures !(ReadyForValues(selectedObjectName, processname, isActive) && response.Ok? && response.value.ValueArray?) ==>
                && availablePicklistOptions == old(availablePicklistOptions)
                && selectedPicklistValues == old(selectedPicklistValues)
                && isModalOpen == old(isModalOpen)
      ensures processname == old(processname) && isActive == old(isActive)
      ensures businessProcessJson == old(businessProcessJson) && selectedObjectName == old(selectedObjectName)
    {
      processButtonClicked := true;
      if !ReadyForValues(selectedObjectName, processname, isActive) {
        effects := effects + [FillRequired];
        return;
      }
      isLoading := true;
      fieldName := FieldFor(selectedObjectName, fieldName);
      effects := effects + [Call(GetPicklistFieldValues(selectedObjectName, fieldName))];
      match response {
        case Ok(result) =>
          if result.ValueArray? {
            availablePicklistOptions := Options(result.values);
            selectedPicklistValues := FullNames(businessProcessJson.values);
            isModalOpen := true;
          }
        case Err(_) =>
          effects := effects + [FetchFailure];
      }
      isLoading := false;
    }

    /** `handlePicklistChange(event)`, with `value` the dual listbox's selection (`None` for undefined). */
    method HandlePicklistChange(value: Option<seq<string>>)
      modifies this
      ensures selectedPicklistValues == (if value.Some? then value.value else [])
      ensures businessProcessJson ==
                old(businessProcessJson).(values := ValuesFor(selectedObjectName, selectedPicklistValues,
                                                              old(businessProcessJson.values)))
      ensures processname == old(processname) && isActive == old(isActive) && fieldName == old(fieldName)
      ensures isModalOpen == old(isModalOpen) && availablePicklistOptions == old(availablePicklistOptions)
      ensures isLoading == old(isLoading) && processButtonClicked == old(processButtonClicked)
      ensures selectedObjectName == old(selectedObjectName) && effects == old(effects)
    {
      selectedPicklistValues := if value.Some? then value.value else [];
      businessProcessJson := businessProcessJson.(values := ValuesFor(selectedObjectName, selectedPicklistValues,
                                                                      businessProcessJson.values));
    }

    /** `handleSave()`, with `response` the settlement of `CreateBusinessProcess`. */
    method HandleSave(response: Outcome<JsValue>)
      modifies this
      ensures effects == old(effects) + SaveEffects(selectedPicklistValues, businessProcessJson, response)
      ensures processname == old(processname) && isActive == old(isActive) && fieldName == old(fieldName)
      ensures isModalOpen == old(isModalOpen) && availablePicklistOptions == old(availablePicklistOptions)
      ensures selectedPicklistValues == old(selectedPicklistValues) && isLoading == old(isLoading)
      ensures processButtonClicked == old(processButtonClicked) && businessProcessJson == old(businessProcessJson)
      ensures selectedObjectName == old(selectedObjectName)
    {
      if selectedPicklistValues == [] {
        effects := effects + [SelectOne];
        return;
      }
      var finalJson := ProcessJson(businessProcessJson.fullName, businessProcessJson.isActive, businessProcessJson.values);
      effects := effects + [Call(CreateBusinessProcess(finalJson))];
      if response.Ok? {
        effects := effects + [Event("saveprocess", Str("True"))];
      }
    }

    /** `handleBack()`: close the value picker; the selection is kept. */
    method HandleBack()
      modifies this
      ensures !isModalOpen
      ensures processname == old(processname) && isActive == old(isActive) && fieldName == old(fieldName)
      ensures availablePicklistOptions == old(availablePicklistOptions)
      ensures selectedPicklistValues == old(selectedPicklistValues) && isLoading == old(isLoading)
      ensures processButtonClicked == old(processButtonClicked) && businessProcessJson == old(businessProcessJson)
      ensures selectedObjectName == old(selectedObjectName) && effects == old(effects)
    {
      isModalOpen := false;
    }
  }
}

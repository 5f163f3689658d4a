/**
 * accountdatatable: a numbered list of leads with per-row Edit and View
 * buttons and a Create button, all of which open one embedded lead form; the
 * component only tracks whether that form is open, for which lead, and in
 * which mode.
 */
module LeadTable {
  import opened Lwc

  /**
   * `result.data.map((lead, index) => ({...lead, rowNumber: index + 1}))`:
   * one row per lead in order, each keeping its fields and numbered from 1.
   */
  function NumberRows(data: seq<Record>): (rows: seq<Record>)
    ensures |rows| == |data|
    ensures forall i :: 0 <= i < |data| ==> Get(rows[i], "rowNumber") == Num(i + 1)
    ensures forall i, k :: 0 <= i < |data| && k != "rowNumber" ==> Get(rows[i], k) == Get(data[i], k)
  {
    seq(|data|, i requires 0 <= i < |data| => data[i]["rowNumber" := Num(i + 1)])
  }

  /** Distinct rows carry distinct row numbers, all between 1 and the row count. */
  lemma RowNumbersDistinct(data: seq<Record>, i: int, j: int)
    requires 0 <= i < |data| && 0 <= j < |data| && i != j
    ensures Get(NumberRows(data)[i], "rowNumber") != Get(NumberRows(data)[j], "rowNumber")
    ensures Get(NumberRows(data)[i], "rowNumber").Num?
    ensures 1 <= Get(NumberRows(data)[i], "rowNumber").n <= |data|
  {
  }

  const LoadFailure: Effect<()> := Toast("Error", Str("Failed to load leads"), "error")

  class Accountdatatable {
    var leads: seq<Record>
    var isModalOpen: bool
    var selectedLeadId: JsValue
    var isViewMode: bool
    var effects: seq<Effect<()>>

    /** A closed form has no lead and is not in view mode; view mode implies an open form. */
    ghost predicate Valid()
      reads this
    {
      && (!isModalOpen ==> selectedLeadId == Absent && !isViewMode)
      && (isViewMode ==> isModalOpen)
    }

    constructor ()
      ensures Valid()
      ensures leads == [] && !isModalOpen && selectedLeadId == Absent && !isViewMode && effects == []
    {
      leads := [];
      isModalOpen := false;
      selectedLeadId := Absent;
      isViewMode := false;
      effects := [];
    }

    /** `wiredLeads(result)`: on an error the previous rows stay. */
    method WiredLeads(result: WireResult<Record>)
      requires Valid()
      modifies this
      ensures Valid()
      ensures result.WireData? ==> leads == NumberRows(result.data) && effects == old(effects)
      ensures result.WireError? ==> leads == old(leads) && effects == old(effects) + [LoadFailure]
      ensures result.WirePending? ==> leads == old(leads) && effects == old(effects)
      ensures isModalOpen == old(isModalOpen) && selectedLeadId == old(selectedLeadId)
      ensures isViewMode == old(isViewMode)
    {
      match result
      case WireData(data) =>
        leads := NumberRows(data);
      case WireError(_) =>
        effects := effects + [LoadFailure];
      case WirePending =>
    }

    /** `handleEditClick(event)`, with `leadId` the button's `data-id`. */
    method HandleEditClick(leadId: JsValue)
      requires Valid()
      modifies this
      ensures Valid()
      ensures selectedLeadId == leadId && !isViewMode && isModalOpen
      ensures leads == old(leads) && effects == old(effects)
    {
      selectedLeadId := leadId;
      isViewMode := false;
      isModalOpen := true;
    }

    /** `handleViewClick(event)`, with `leadId` the button's `data-id`. */
    method HandleViewClick(leadId: JsValue)
      requires Valid()
      modifies this
      ensures Valid()
      ensures selectedLeadId == leadId && isViewMode && isModalOpen
      ensures leads == old(leads) && effects == old(effects)
    {
      selectedLeadId := leadId;
      isViewMode := true;
      isModalOpen := true;
    }

    /** `handleCreateLead()` */
    method HandleCreateLead()
      requires Valid()
      modifies this
      ensures Valid()
      ensures selectedLeadId == Absent && !isViewMode && isModalOpen
      ensures leads == old(leads) && effects == old(effects)
    {
      selectedLeadId := Absent;
      isViewMode := false;
      isModalOpen := true;
    }

    /** `handleModalClose()` */
    method HandleModalClose()
      requires Valid()
      modifies this
      ensures Valid()
      ensures !isModalOpen && selectedLeadId == Absent && !isViewMode
      ensures leads == old(leads) && effects == old(effects)
    {
      isModalOpen := false;
      selectedLeadId := Absent;
      isViewMode := false;
    }

    /** `refreshData()`: a `refreshApex` whose settlement is not observed. */
    method RefreshData()
      requires Valid()
      modifies this
      ensures Valid()
      ensures effects == old(effects) + [Refetch]
      ensures leads == old(leads) && isModalOpen == old(isModalOpen)
      ensures selectedLeadId == old(selectedLeadId) && isViewMode == old(isViewMode)
    {
      effects := effects + [Refetch];
    }
  }
}

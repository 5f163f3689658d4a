/**
 * opportunitydatatable: the list of opportunities with a checkbox selection,
 * a Create button and an Edit button that open the createOpportunity modal,
 * and a refresh of the wired list when the modal reports a save.
 */
module OpportunityTable {
  import opened Lwc
  import opened ListView

  /** An opportunity as `getOpportunities` returns it, with its two parent records. */
  datatype Opportunity = Opportunity(fields: Record, account: Option<Record>, fyGoals: Option<Record>)

  /** `opp?.Account?.Name` and `opp?.FY_Goals__r?.Name` */
  function ParentName(parent: Option<Record>): JsValue {
    if parent.Some? then Get(parent.value, "Name") else Absent
  }

  /**
   * `{...opp, AccountName: ..., FYGoalsName: ...}`: the row keeps every field
   * and both parents and gains the two parent names as flat fields.
   */
  function Flatten(opp: Opportunity): (row: Opportunity)
    ensures row.account == opp.account && row.fyGoals == opp.fyGoals
    ensures Get(row.fields, "AccountName") == ParentName(opp.account)
    ensures Get(row.fields, "FYGoalsName") == ParentName(opp.fyGoals)
    ensures forall k :: k != "AccountName" && k != "FYGoalsName" ==> Get(row.fields, k) == Get(opp.fields, k)
  {
    opp.(fields := opp.fields["AccountName" := ParentName(opp.account)]["FYGoalsName" := ParentName(opp.fyGoals)])
  }

  /** `result.data.map(...)`: one flattened row per fetched record, in order. */
  function FlattenAll(data: seq<Opportunity>): (rows: seq<Opportunity>)
    ensures |rows| == |data|
    ensures forall i :: 0 <= i < |data| ==> rows[i] == Flatten(data[i])
  {
    seq(|data|, i requires 0 <= i < |data| => Flatten(data[i]))
  }

  const FetchFallback := "Unexpected issue encountered"
  const NoneWarning: Effect<()> := Toast("Notice", Str("Select one record to edit."), "warning")
  const MultipleWarning: Effect<()> := Toast("Warning", Str("Select only one record."), "warning")
  const RefreshSuccess: Effect<()> := Toast("Success", Str("Information updated."), "success")
  const RefreshFailure: Effect<()> := Toast("Error", Str("Could not refresh data."), "error")

  class Opportunitydatatable {
    var opportunities: seq<Opportunity>
    var error: JsValue
    var selectedRows: seq<Record>
    var effects: seq<Effect<()>>

    /** An error is only ever shown over an empty table. */
    ghost predicate Valid()
      reads this
    {
      error != Absent ==> opportunities == []
    }

    constructor ()
      ensures Valid()
      ensures opportunities == [] && error == Absent && selectedRows == [] && effects == []
    {
      opportunities := [];
      error := Absent;
      selectedRows := [];
      effects := [];
    }

    /** `wiredOpportunities(result)` */
    method WiredOpportunities(result: WireResult<Opportunity>)
      requires Valid()
      modifies this
      ensures Valid()
      ensures result.WireData? ==> opportunities == FlattenAll(result.data) && error == Absent
      ensures result.WireError? ==> opportunities == [] && error == WireErrorText(result.error, FetchFallback)
      ensures result.WirePending? ==> opportunities == old(opportunities) && error == old(error)
      ensures selectedRows == old(selectedRows) && effects == old(effects)
    {
      match result
      case WireData(data) =>
        opportunities := FlattenAll(data);
        error := Absent;
      case WireError(e) =>
        opportunities := [];
        error := WireErrorText(e, FetchFallback);
      case WirePending =>
    }

    /** `handleRowSelection(event)` */
    method HandleRowSelection(rows: seq<Record>)
      requires Valid()
      modifies this
      ensures Valid()
      ensures selectedRows == rows
      ensures opportunities == old(opportunities) && error == old(error) && effects == old(effects)
    {
      selectedRows := rows;
    }

    /** `refreshData()`, with `ok` the settlement of `refreshApex`. */
    method RefreshData(ok: bool)
      requires Valid()
      modifies this
      ensures Valid()
      ensures selectedRows == []
      ensures effects == old(effects) + RefreshEffects(ok, RefreshSuccess, RefreshFailure)
      ensures opportunities == old(opportunities) && error == old(error)
    {
      selectedRows := [];
      effects := effects + RefreshEffects(ok, RefreshSuccess, RefreshFailure);
    }

    /** `handleCreateOpportunity()`, with `modalResult` what the modal closed with. */
    method HandleCreateOpportunity(modalResult: JsValue, refreshOk: bool)
      requires Valid()
      modifies this
      ensures Valid()
      ensures effects == old(effects) + CreateEffects(modalResult, refreshOk, RefreshSuccess, RefreshFailure)
      ensures selectedRows == SelectionAfterModal(old(selectedRows), modalResult)
      ensures opportunities == old(opportunities) && error == old(error)
    {
      effects := effects + [OpenModal(Absent)];
      if modalResult == Str("refresh") {
        RefreshData(refreshOk);
      }
    }

    /** `handleEditOpportunity()`, with `modalResult` what the modal closed with. */
    method HandleEditOpportunity(modalResult: JsValue, refreshOk: bool)
      requires Valid()
      modifies this
      ensures Valid()
      ensures effects == old(effects) + EditEffects(old(selectedRows), NoneWarning, MultipleWarning,
                                                    modalResult, refreshOk, RefreshSuccess, RefreshFailure)
      ensures selectedRows == if |old(selectedRows)| == 1 then SelectionAfterModal(old(selectedRows), modalResult)
                              else old(selectedRows)
      ensures opportunities == old(opportunities) && error == old(error)
    {
      if |selectedRows| == 0 {
        effects := effects + [NoneWarning];
        return;
      }
      if |selectedRows| > 1 {
        effects := effects + [MultipleWarning];
        return;
      }
      effects := effects + [OpenModal(Get(selectedRows[0], "Id"))];
      if modalResult == Str("refresh") {
        RefreshData(refreshOk);
      }
    }

    /** `get isEditDisabled()` */
    function IsEditDisabled(): (disabled: bool)
      reads this
      ensures disabled <==> |selectedRows| != 1
    {
      EditDisabled(selectedRows)
    }
  }
}

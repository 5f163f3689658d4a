/**
 * contactdatatable: the list of contacts with a checkbox selection, a
 * Create button and an Edit button that open the createcontacts modal, and a
 * refresh of the wired list when the modal reports a save.
 */
module ContactTable {
  import opened Lwc
  import opened ListView

  const FetchFallback := "Unknown error"
  const NoneWarning: Effect<()> := Toast("Warning", Str("Select one contact"), "warning")
  const MultipleWarning: Effect<()> := Toast("Warning", Str("Select only one contact"), "warning")
  const RefreshSuccess: Effect<()> := Toast("Success", Str("Refreshed"), "success")
  const RefreshFailure: Effect<()> := Toast("Error", Str("Refresh failed"), "error")

  class ContactDatatable {
    var contacts: seq<Record>
    var error: JsValue
    var selectedRows: seq<Record>
    var effects: seq<Effect<()>>

    /** An error is only ever shown over an empty table. */
    ghost predicate Valid()
      reads this
    {
      error != Absent ==> contacts == []
    }

    constructor ()
      ensures Valid()
      ensures contacts == [] && error == Absent && selectedRows == [] && effects == []
    {
      contacts := [];
      error := Absent;
      selectedRows := [];
      effects := [];
    }

    /** `wiredContacts(result)`: `[...result.data]` copies the records in order. */
    method WiredContacts(result: WireResult<Record>)
      requires Valid()
      modifies this
      ensures Valid()
      ensures result.WireData? ==> contacts == result.data && error == Absent
      ensures result.WireError? ==> contacts == [] && error == WireErrorText(result.error, FetchFallback)
      ensures result.WirePending? ==> contacts == old(contacts) && error == old(error)
      ensures selectedRows == old(selectedRows) && effects == old(effects)
    {
      match result
      case WireData(data) =>
        contacts := data;
        error := Absent;
      case WireError(e) =>
        error := WireErrorText(e, FetchFallback);
        contacts := [];
      case WirePending =>
    }

    /** `handleRowSelection(event)` */
    method HandleRowSelection(rows: seq<Record>)
      requires Valid()
      modifies this
      ensures Valid()
      ensures selectedRows == rows
      ensures contacts == old(contacts) && error == old(error) && effects == old(effects)
    {
      selectedRows := rows;
    }

    /** `refreshData()`, with `ok` the settlement of `refreshApex`. */
    method RefreshData(ok: bool)
      requires Valid()
      modifies this
      ensures Valid()
      ensures selectedRows == []
      ensures effects == old(effects) + RefreshEffects(ok, RefreshSuccess, RefreshFailure)
      ensures contacts == old(contacts) && error == old(error)
    {
      selectedRows := [];
      effects := effects + RefreshEffects(ok, RefreshSuccess, RefreshFailure);
    }

    /** `handleCreateContact()`, with `modalResult` what the modal closed with. */
    method HandleCreateContact(modalResult: JsValue, refreshOk: bool)
      requires Valid()
      modifies this
      ensures Valid()
      ensures effects == old(effects) + CreateEffects(modalResult, refreshOk, RefreshSuccess, RefreshFailure)
      ensures selectedRows == SelectionAfterModal(old(selectedRows), modalResult)
      ensures contacts == old(contacts) && error == old(error)
    {
      effects := effects + [OpenModal(Absent)];
      if modalResult == Str("refresh") {
        RefreshData(refreshOk);
      }
    }

    /** `handleEditContact()`, with `modalResult` what the modal closed with. */
    method HandleEditContact(modalResult: JsValue, refreshOk: bool)
      requires Valid()
      modifies this
      ensures Valid()
      ensures effects == old(effects) + EditEffects(old(selectedRows), NoneWarning, MultipleWarning,
                                                    modalResult, refreshOk, RefreshSuccess, RefreshFailure)
      ensures selectedRows == if |old(selectedRows)| == 1 then SelectionAfterModal(old(selectedRows), modalResult)
                              else old(selectedRows)
      ensures contacts == old(contacts) && error == old(error)
    {
      if |selectedRows| == 0 {
        effects := effects + [NoneWarning];
        return;
      }
      if |selectedRows| > 1 {
        effects := effects + [MultipleWarning];
        return;
      }
      effects := effects + [OpenModal(Get(selectedRows[0], "Id"))];
      if modalResult == Str("refresh") {
        RefreshData(refreshOk);
      }
    }

    /** `get isEditDisabled()` */
    function IsEditDisabled(): (disabled: bool)
      reads this
      ensures disabled <==> |selectedRows| != 1
    {
      EditDisabled(selectedRows)
    }
  }
}

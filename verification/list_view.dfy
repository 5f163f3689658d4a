/**
 * The decision logic the selection-based list controllers
 * (opportunitydatatable, accountsdatatablev2, contactdatatable) repeat:
 * what the Edit button does with the selected rows, what the Create button
 * does with the modal's result, and what a refresh logs. Each controller
 * supplies its own toasts.
 */
module ListView {
  import opened Lwc

  /** What `handleEdit...` makes of the current selection. */
  datatype EditGate = NoneSelected | MultipleSelected | SingleSelected(recordId: JsValue)

  /**
   * `!selectedRows.length` is checked first, then `selectedRows.length > 1`;
   * only a single selected row reaches the modal, with that row's `Id`.
   */
  function EditGateOf(selected: seq<Record>): (g: EditGate)
    ensures g == NoneSelected <==> |selected| == 0
    ensures g == MultipleSelected <==> |selected| > 1
    ensures g.SingleSelected? <==> |selected| == 1
    ensures g.SingleSelected? ==> g.recordId == Get(selected[0], "Id")
  {
    if |selected| == 0 then NoneSelected
    else if |selected| > 1 then MultipleSelected
    else SingleSelected(Get(selected[0], "Id"))
  }

  /** The `isEditDisabled` getter the Edit button is bound to. */
  function EditDisabled(selected: seq<Record>): bool {
    |selected| != 1
  }

  /** The Edit button is disabled exactly when pressing it would only warn. */
  lemma EditDisabledIffGateRefuses(selected: seq<Record>)
    ensures EditDisabled(selected) <==> !EditGateOf(selected).SingleSelected?
  {
  }

  predicate OpensModal<C>(effs: seq<Effect<C>>) {
    exists i :: 0 <= i < |effs| && effs[i].OpenModal?
  }

  predicate Refetches<C>(effs: seq<Effect<C>>) {
    exists i :: 0 <= i < |effs| && effs[i].Refetch?
  }

  lemma FlagsOfConcat<C>(a: seq<Effect<C>>, b: seq<Effect<C>>)
    ensures OpensModal(a + b) <==> OpensModal(a) || OpensModal(b)
    ensures Refetches(a + b) <==> Refetches(a) || Refetches(b)
  {
    var ab := a + b;
    if OpensModal(ab) {
      var i :| 0 <= i < |ab| && ab[i].OpenModal?;
      if i < |a| { assert a[i] == ab[i]; } else { assert b[i - |a|] == ab[i]; }
    }
    if Refetches(ab) {
      var i :| 0 <= i < |ab| && ab[i].Refetch?;
      if i < |a| { assert a[i] == ab[i]; } else { assert b[i - |a|] == ab[i]; }
    }
    if OpensModal(a) {
      var i :| 0 <= i < |a| && a[i].OpenModal?;
      assert ab[i] == a[i];
    }
    if Refetches(a) {
      var i :| 0 <= i < |a| && a[i].Refetch?;
      assert ab[i] == a[i];
    }
    if OpensModal(b) {
      var i :| 0 <= i < |b| && b[i].OpenModal?;
      assert ab[|a| + i] == b[i];
    }
    if Refetches(b) {
      var i :| 0 <= i < |b| && b[i].Refetch?;
      assert ab[|a| + i] == b[i];
    }
  }

  /** `e.body?.message || fallback`, the text a list shows when its fetch fails. */
  function WireErrorText(e: ApexError, fallback: string): (m: JsValue)
    requires fallback != ""
    ensures Truthy(m)
    ensures Truthy(e.bodyMessage) ==> m == e.bodyMessage
    ensures !Truthy(e.bodyMessage) ==> m == Str(fallback)
  {
    Or(e.bodyMessage, Str(fallback))
  }

  /**
   * `refreshData()`: `refreshApex` on the wired result, then the success toast
   * if it resolved and the failure toast if it rejected.
   */
  function RefreshEffects<C>(ok: bool, success: Effect<C>, failure: Effect<C>): (effs: seq<Effect<C>>)
    requires success.Toast? && failure.Toast? && success != failure
    ensures |effs| == 2 && effs[0] == Refetch && effs[1].Toast?
    ensures effs[1] == success <==> ok
    ensures effs[1] == failure <==> !ok
  {
    [Refetch, if ok then success else failure]
  }

  /** What follows the modal's close: a refresh exactly when it returned `'refresh'`. */
  function AfterModal<C>(modalResult: JsValue, ok: bool, success: Effect<C>, failure: Effect<C>): (effs: seq<Effect<C>>)
    requires success.Toast? && failure.Toast? && success != failure
    ensures Refetches(effs) <==> modalResult == Str("refresh")
    ensures !OpensModal(effs)
  {
    if modalResult == Str("refresh") then RefreshEffects(ok, success, failure) else []
  }

  /** `handleCreate...`: open the modal without a record id, then refresh on `'refresh'`. */
  function CreateEffects<C>(modalResult: JsValue, ok: bool, success: Effect<C>, failure: Effect<C>): (effs: seq<Effect<C>>)
    requires success.Toast? && failure.Toast? && success != failure
    ensures |effs| >= 1 && effs[0] == OpenModal(Absent)
    ensures Refetches(effs) <==> modalResult == Str("refresh")
    ensures modalResult != Str("refresh") ==> effs == [OpenModal(Absent)]
  {
    var after := AfterModal(modalResult, ok, success, failure);
    var open: seq<Effect<C>> := [OpenModal(Absent)];
    FlagsOfConcat(open, after);
    assert !Refetches(open);
    open + after
  }

  /**
   * `handleEdit...`: a warning toast and nothing else unless exactly one row
   * is selected; otherwise the modal for that row, then a refresh exactly
   * when the modal returned `'refresh'`.
   */
  function EditEffects<C>(selected: seq<Record>, noneWarning: Effect<C>, multipleWarning: Effect<C>,
                          modalResult: JsValue, ok: bool, success: Effect<C>, failure: Effect<C>): (effs: seq<Effect<C>>)
    requires noneWarning.Toast? && multipleWarning.Toast?
    requires success.Toast? && failure.Toast? && success != failure
    ensures |selected| == 0 ==> effs == [noneWarning]
    ensures |selected| > 1 ==> effs == [multipleWarning]
    ensures OpensModal(effs) <==> |selected| == 1
    ensures |selected| == 1 ==> effs[0] == OpenModal(Get(selected[0], "Id"))
    ensures Refetches(effs) <==> |selected| == 1 && modalResult == Str("refresh")
  {
    match EditGateOf(selected)
    case NoneSelected => [noneWarning]
    case MultipleSelected => [multipleWarning]
    case SingleSelected(id) =>
      var after := AfterModal(modalResult, ok, success, failure);
      var open: seq<Effect<C>> := [OpenModal(id)];
      FlagsOfConcat(open, after);
      assert open[0].OpenModal?;
      assert OpensModal(open) && !Refetches(open);
      open + after
  }

  /** The selection a refresh leaves: emptied exactly when the modal asked for a refresh. */
  function SelectionAfterModal(selected: seq<Record>, modalResult: JsValue): (s: seq<Record>)
    ensures s == [] || s == selected
    ensures modalResult == Str("refresh") ==> s == []
    ensures modalResult != Str("refresh") ==> s == selected
  {
    if modalResult == Str("refresh") then [] else selected
  }
}

/** The on-ramp table page: the status shown for each row, the action cell, which form a
    selection opens, and the accept / submit-receipt handlers. */
module OnrampTable {
  import opened Base
  import opened FillHooks

  /** A row of the on-ramp query; nullable columns are `Option`s. */
  datatype OnRampRow = OnRampRow(
    id: string,
    status: string,
    seller: Option<string>,
    receiptId: Option<string>,
    onRampId: string,
    channelId: Option<string>,
    buyer: Option<string>,
    amount: string)

  datatype DerivedStatus = Pending | InProgress | Complete

  function StatusLabel(d: DerivedStatus): string {
    match d
    case Pending => "PENDING"
    case InProgress => "IN_PROGRESS"
    case Complete => "COMPLETE"
  }

  /** The status cell: PENDING while there is no seller, then COMPLETE once the receipt id is
      truthy, IN_PROGRESS otherwise. The stored `status` column is never read. */
  function DeriveStatus(row: OnRampRow): (d: DerivedStatus)
    ensures d == Pending <==> row.seller.None?
    ensures d == Complete <==> row.seller.Some? && Truthy(row.receiptId)
    ensures d == InProgress <==> row.seller.Some? && !Truthy(row.receiptId)
  {
    if row.seller.None? then Pending
    else if Truthy(row.receiptId) then Complete
    else InProgress
  }

  /** Two rows that agree on seller and receipt id show the same status, whatever else differs. */
  lemma StatusReadsOnlySellerAndReceipt(r1: OnRampRow, r2: OnRampRow)
    requires r1.seller == r2.seller && r1.receiptId == r2.receiptId
    ensures DeriveStatus(r1) == DeriveStatus(r2)
  {
  }

  /** The action cell offers "Take Action" unless both seller and receipt id are non-null. */
  predicate ActionShown(row: OnRampRow) {
    !(row.seller.Some? && row.receiptId.Some?)
  }

  function ActionCell(row: OnRampRow): (text: string)
    ensures text == "-" <==> !ActionShown(row)
    ensures text == "Take Action" <==> ActionShown(row)
  {
    if row.seller.Some? && row.receiptId.Some? then "-" else "Take Action"
  }

  /** How the status column and the action column relate: a PENDING row is always actionable,
      a COMPLETE row never is, and an IN_PROGRESS row is actionable exactly while its receipt id
      is null -- so a row with an empty receipt id shows IN_PROGRESS with no action. */
  lemma StatusVersusAction(row: OnRampRow)
    ensures DeriveStatus(row) == Pending ==> ActionShown(row)
    ensures DeriveStatus(row) == Complete ==> !ActionShown(row)
    ensures DeriveStatus(row) == InProgress ==> (ActionShown(row) <==> row.receiptId.None?)
    ensures row.seller.Some? && row.receiptId == Some("") ==>
              DeriveStatus(row) == InProgress && !ActionShown(row)
  {
  }

  // ---------------------------------------------------------------- forms

  predicate AcceptFormShown(selected: Option<OnRampRow>) {
    selected.Some? && selected.value.seller.None?
  }

  predicate ReceiptFormShown(selected: Option<OnRampRow>) {
    selected.Some? && selected.value.receiptId.None? && selected.value.seller.Some?
  }

  /** A selected row opens exactly one form when its action cell is offered and none
      otherwise; the two forms are never shown together. */
  lemma FormsFollowAction(row: OnRampRow)
    ensures !(AcceptFormShown(Some(row)) && ReceiptFormShown(Some(row)))
    ensures ActionShown(row) <==> AcceptFormShown(Some(row)) || ReceiptFormShown(Some(row))
  {
  }

  // ---------------------------------------------------------------- handlers

  /** Page state: the selected row and the two text inputs. */
  datatype PageState = PageState(selected: Option<OnRampRow>, channelId: string, receiptId: string)

  const InitialPage: PageState := PageState(None, "", "")

  datatype Call = AcceptOnRamp(requestId: string, channelId: string)
                | SubmitReceiptId(requestId: string, receiptId: string)

  /** The result of one click: the new page state, the contract call made (if any), the toasts
      shown in order and whether a refetch was requested. */
  datatype Step = Step(page: PageState, call: Option<Call>, toasts: seq<Toast>, refetched: bool)

  const ACCEPT_MISSING: string := "Please provide both Channel ID and Transaction ID."
  const RECEIPT_MISSING: string := "Please provide both Receipt ID and Transaction ID."
  const ACCEPT_SENT: string := "Accept On Ramp Successfully!"
  const RECEIPT_SENT: string := "Submit Recepint ID Successfully!"
  const ONRAMP_CONFIRMED: string := "Onramp filled successfully!"

  /** A click on "Take Action": only rendered, and so only possible, for an actionable row. */
  function ClickAction(page: PageState, row: OnRampRow): (page': PageState)
    ensures ActionShown(row) ==> page' == page.(selected := Some(row))
    ensures !ActionShown(row) ==> page' == page
  {
    if ActionShown(row) then page.(selected := Some(row)) else page
  }

  /** `handleAccept`: calls acceptOnRamp only with a selection and a non-empty channel id. The hook
      never rejects, so whatever the write's outcome the `.then` clears the selection and the
      channel input; the toasts are the hook's, then the page's own from the render's flags. */
  function HandleAccept(page: PageState, outcome: WriteOutcome, priorError: Option<string>,
                        flags: TxFlags): (r: Step)
    ensures r.call.Some? <==> page.selected.Some? && page.channelId != ""
    ensures r.call.Some? ==> r.call.value == AcceptOnRamp(page.selected.value.id, page.channelId)
    ensures r.call.None? ==> r.page == page && r.toasts == [ErrorToast(ACCEPT_MISSING)] && !r.refetched
    ensures r.call.Some? ==>
      && r.page == page.(selected := None, channelId := "")
      && r.toasts == HookToasts(outcome, ACCEPT_SENT, priorError) + AfterWrite(flags, ONRAMP_CONFIRMED)
      && (r.refetched <==> flags.isSwapConfirmed)
  {
    if page.selected.Some? && page.channelId != "" then
      var call := AcceptOnRamp(page.selected.value.id, page.channelId);
      Step(page.(selected := None, channelId := ""), Some(call),
           HookToasts(outcome, ACCEPT_SENT, priorError) + AfterWrite(flags, ONRAMP_CONFIRMED),
           flags.isSwapConfirmed)
    else
      Step(page, None, [ErrorToast(ACCEPT_MISSING)], false)
  }

  /** `handleSubmit`: calls submitReceiptId only with a selection and a non-empty receipt id; as for
      acceptance, the selection and the receipt input are cleared whatever the write's outcome. */
  function HandleSubmit(page: PageState, outcome: WriteOutcome, priorError: Option<string>,
                        flags: TxFlags): (r: Step)
    ensures r.call.Some? <==> page.selected.Some? && page.receiptId != ""
    ensures r.call.Some? ==> r.call.value == SubmitReceiptId(page.selected.value.id, page.receiptId)
    ensures r.call.None? ==> r.page == page && r.toasts == [ErrorToast(RECEIPT_MISSING)] && !r.refetched
    ensures r.call.Some? ==>
      && r.page == page.(selected := None, receiptId := "")
      && r.toasts == HookToasts(outcome, RECEIPT_SENT, priorError) + AfterWrite(flags, ONRAMP_CONFIRMED)
      && (r.refetched <==> flags.isSwapConfirmed)
  {
    if page.selected.Some? && page.receiptId != "" then
      var call := SubmitReceiptId(page.selected.value.id, page.receiptId);
      Step(page.(selected := None, receiptId := ""), Some(call),
           HookToasts(outcome, RECEIPT_SENT, priorError) + AfterWrite(flags, ONRAMP_CONFIRMED),
           flags.isSwapConfirmed)
    else
      Step(page, None, [ErrorToast(RECEIPT_MISSING)], false)
  }

  /** A failed write closes the form just as a sent one does: the page state and the call do not
      depend on the outcome, and afterwards no form is shown, so a retry needs a new selection. */
  lemma FailedWriteClosesForms(page: PageState, o1: WriteOutcome, o2: WriteOutcome,
                               priorError: Option<string>, flags: TxFlags)
    ensures var r1 := HandleAccept(page, o1, priorError, flags);
            var r2 := HandleAccept(page, o2, priorError, flags);
            && r1.page == r2.page && r1.call == r2.call
            && (r1.call.Some? ==> !AcceptFormShown(r1.page.selected) && !ReceiptFormShown(r1.page.selected))
    ensures var r1 := HandleSubmit(page, o1, priorError, flags);
            var r2 := HandleSubmit(page, o2, priorError, flags);
            && r1.page == r2.page && r1.call == r2.call
            && (r1.call.Some? ==> !AcceptFormShown(r1.page.selected) && !ReceiptFormShown(r1.page.selected))
  {
  }

  /** The page's success toast reads the render's flags, not the write: a write that failed after an
      earlier confirmed one still ends with "Onramp filled successfully!" and a refetch. */
  lemma FailedWriteCanReportFill(page: PageState, message: Option<string>)
    requires page.selected.Some? && page.channelId != ""
    ensures var r := HandleAccept(page, Failed(message), None, TxFlags(true, false));
            && r.toasts == [ErrorToast(message.GetOr(GENERIC_FAILURE)), SuccessToast(ONRAMP_CONFIRMED)]
            && r.refetched
  {
  }
}

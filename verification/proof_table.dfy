/** The operator's proof page: choosing a pending off-ramp, entering the channel and transaction
    ids, and submitting the fill. The awaited `handleSwap` call is split into its start (the submit
    click) and its return, so that the page's state while a fill is in flight is visible. */
module ProofTable {
  import opened Base
  import opened FillHooks

  const PENDING: string := "PENDING"
  const MISSING_INPUT: string := "Please provide both Channel ID and Transaction ID."
  const FILL_SENT: string := "Offramp successfully!"
  const FILL_CONFIRMED: string := "Offramp filled successfully!"

  /** An off-ramp row of the operator query; only the fields the page reads. */
  datatype Row = Row(id: string, status: string)

  /** The `handleSwap(selectedRow.id, channelId, transactionId)` call, with the row it was for. */
  datatype FillCall = FillCall(row: Row, channelId: string, transactionId: string)

  /** `selectedRow`, the two inputs, and the fill in flight (`isSubmitting` is `inFlight.Some?`). */
  datatype PageState = PageState(
    selected: Option<Row>,
    channelId: string,
    transactionId: string,
    inFlight: Option<FillCall>)
  {
    predicate IsSubmitting() { inFlight.Some? }
  }

  const INITIAL: PageState := PageState(None, "", "", None)

  datatype Action =
    | ClickRow(row: Row)
    | EditChannelId(channelId: string)
    | EditTransactionId(transactionId: string)
    | Submit
    | Settle(outcome: WriteOutcome, priorError: Option<string>, flags: TxFlags)

  datatype StepResult = StepResult(state: PageState, call: Option<FillCall>, toasts: seq<Toast>)

  /** The form (inputs and submit button) is rendered only for a selected PENDING row. */
  predicate FormShown(s: PageState) {
    s.selected.Some? && s.selected.value.status == PENDING
  }

  /** `handleRowActionClick`: only a PENDING row becomes the selection. */
  function SelectRow(s: PageState, row: Row): (s': PageState)
    ensures row.status == PENDING ==> s' == s.(selected := Some(row))
    ensures row.status != PENDING ==> s' == s
  {
    if row.status == PENDING then s.(selected := Some(row)) else s
  }

  /** `handleSubmit`'s synchronous part: with both inputs and a selection it starts the fill and
      marks the page submitting; otherwise it only shows an error toast. */
  function StartSubmit(s: PageState): (r: StepResult)
    requires !s.IsSubmitting()
    ensures r.call.Some? <==> s.channelId != "" && s.transactionId != "" && s.selected.Some?
    ensures r.call.Some? ==> && r.call.value == FillCall(s.selected.value, s.channelId, s.transactionId)
                             && r.state == s.(inFlight := r.call) && r.toasts == []
    ensures r.call.None? ==> r.state == s && r.toasts == [ErrorToast(MISSING_INPUT)]
  {
    if s.channelId != "" && s.transactionId != "" && s.selected.Some? then
      var call := FillCall(s.selected.value, s.channelId, s.transactionId);
      StepResult(s.(inFlight := Some(call)), Some(call), [])
    else
      StepResult(s, None, [ErrorToast(MISSING_INPUT)])
  }

  /** The rest of `handleSubmit` once `handleSwap` returns. The hook catches a failed write itself,
      so `handleSwap` never rejects and the page's own `catch` never runs: whatever the write's
      outcome, the inputs and the selection are cleared. The toasts are the hook's, then the page's
      own from the render's flags. */
  function SettleFill(s: PageState, outcome: WriteOutcome, priorError: Option<string>,
                      flags: TxFlags): (r: StepResult)
    requires s.IsSubmitting()
    ensures r.state == INITIAL && !r.state.IsSubmitting() && r.call.None?
    ensures r.toasts == HookToasts(outcome, FILL_SENT, priorError) + AfterWrite(flags, FILL_CONFIRMED)
  {
    StepResult(PageState(None, "", "", None), None,
               HookToasts(outcome, FILL_SENT, priorError) + AfterWrite(flags, FILL_CONFIRMED))
  }

  /** One user action or settlement. Inputs and the submit button exist only while the form is
      shown, and the button is disabled while submitting; actions on absent or disabled controls
      change nothing. */
  function Step(s: PageState, a: Action): (r: StepResult)
    ensures r.call.Some? ==> a == Submit && FormShown(s) && !s.IsSubmitting()
                             && r.call.value == FillCall(s.selected.value, s.channelId, s.transactionId)
  {
    match a
    case ClickRow(row) => StepResult(SelectRow(s, row), None, [])
    case EditChannelId(v) => StepResult(if FormShown(s) then s.(channelId := v) else s, None, [])
    case EditTransactionId(v) => StepResult(if FormShown(s) then s.(transactionId := v) else s, None, [])
    case Submit => if FormShown(s) && !s.IsSubmitting() then StartSubmit(s) else StepResult(s, None, [])
    case Settle(outcome, priorError, flags) =>
      if s.IsSubmitting() then SettleFill(s, outcome, priorError, flags) else StepResult(s, None, [])
  }

  /** What the page keeps true: the selection is absent or PENDING, and a fill in flight was
      started with both inputs filled in. */
  predicate Invariant(s: PageState) {
    && (s.selected.None? || s.selected.value.status == PENDING)
    && (s.inFlight.Some? ==> s.inFlight.value.channelId != "" && s.inFlight.value.transactionId != ""
                             && s.inFlight.value.row.status == PENDING)
  }

  lemma StepKeepsInvariant(s: PageState, a: Action)
    requires Invariant(s)
    ensures Invariant(Step(s, a).state)
  {
  }

  /** The page after a run of actions from the initial state, with every fill call issued. */
  function Run(actions: seq<Action>): (r: (PageState, seq<FillCall>))
    decreases |actions|
  {
    if actions == [] then (INITIAL, [])
    else
      var (s, calls) := Run(actions[..|actions| - 1]);
      var step := Step(s, actions[|actions| - 1]);
      (step.state, if step.call.Some? then calls + [step.call.value] else calls)
  }

  /** After any sequence of clicks, edits, submits and settlements the invariant holds, and every
      fill ever issued was for a PENDING row with both ids entered. */
  lemma {:induction false} RunKeepsInvariant(actions: seq<Action>)
    ensures Invariant(Run(actions).0)
    ensures forall c :: c in Run(actions).1 ==>
              c.row.status == PENDING && c.channelId != "" && c.transactionId != ""
    decreases |actions|
  {
    if actions != [] {
      var prefix := actions[..|actions| - 1];
      RunKeepsInvariant(prefix);
      StepKeepsInvariant(Run(prefix).0, actions[|actions| - 1]);
    }
  }

  /** Under the invariant the form is shown exactly when a row is selected. */
  lemma FormShownIffSelected(s: PageState)
    requires Invariant(s)
    ensures FormShown(s) <==> s.selected.Some?
  {
  }

  /** A click on a row that is not PENDING leaves the page as it was. */
  lemma NonPendingClickIgnored(s: PageState, row: Row)
    requires row.status != PENDING
    ensures Step(s, ClickRow(row)) == StepResult(s, None, [])
  {
  }

  /** A failed fill cannot be retried at once: once `handleSwap` returns the page is back to its
      initial state, with the error toast shown, and a second submit issues nothing until the
      operator selects the row and types both ids again. */
  lemma FailedFillMustBeReentered(s: PageState, message: Option<string>, priorError: Option<string>,
                                  flags: TxFlags)
    requires Invariant(s) && FormShown(s) && !s.IsSubmitting()
    requires s.channelId != "" && s.transactionId != ""
    ensures var started := Step(s, Submit);
            var failed := Step(started.state, Settle(Failed(message), priorError, flags));
            && started.call.Some?
            && failed.state == INITIAL
            && failed.toasts[0] == ErrorToast(message.GetOr(GENERIC_FAILURE))
            && Step(failed.state, Submit).call.None?
  {
  }
}

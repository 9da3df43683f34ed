/** The frontend's fill hooks (`useFillOnRamp`, `useFillOfframp`): each handler awaits one
    contract write inside a `try` whose `catch` only shows a toast, so the handler's own promise
    always resolves, whether the write went through or not. The pages that await these handlers
    therefore always take their resolved path. The write outcome, the toasts and the generic
    failure text are shared by every handler of the frontend that follows this pattern. */
module FillHooks {
  import opened Base

  datatype Toast = ErrorToast(text: string) | SuccessToast(text: string) | InfoToast(text: string)

  const GENERIC_FAILURE: string := "Transaction failed. Please try again."

  /** How `writeContractAsync` ends inside the hook: the transaction is sent, or the call throws
      (with an `Error`'s message or not). */
  datatype WriteOutcome = Sent | Failed(message: Option<string>)

  /** The toasts one hook call shows. The first reports the write: `success` when it was sent, the
      error's message (or the generic text) when it threw. A second one repeats `swapError`, the
      hook's error as captured by the render the handler belongs to, when that was set. */
  function HookToasts(outcome: WriteOutcome, success: string, priorError: Option<string>): (toasts: seq<Toast>)
    ensures |toasts| == if priorError.Some? then 2 else 1
    ensures toasts[0].SuccessToast? <==> outcome.Sent?
    ensures outcome.Sent? ==> toasts[0] == SuccessToast(success)
    ensures outcome.Failed? ==> toasts[0] == ErrorToast(outcome.message.GetOr(GENERIC_FAILURE))
    ensures priorError.Some? ==> toasts[1] == ErrorToast(priorError.value)
  {
    var first := match outcome
      case Sent => SuccessToast(success)
      case Failed(m) => ErrorToast(m.GetOr(GENERIC_FAILURE));
    if priorError.Some? then [first, ErrorToast(priorError.value)] else [first]
  }

  /** The transaction flags as the page's render saw them when the handler was created. */
  datatype TxFlags = TxFlags(isSwapConfirmed: bool, isSwapPending: bool)

  /** The page's own toast after the awaited hook returns, decided by those flags alone. */
  function AfterWrite(flags: TxFlags, confirmed: string): (toasts: seq<Toast>)
    ensures flags.isSwapConfirmed <==> toasts == [SuccessToast(confirmed)]
    ensures !flags.isSwapConfirmed && flags.isSwapPending <==> toasts == [InfoToast("Transaction is pending...")]
    ensures toasts == [] <==> !flags.isSwapConfirmed && !flags.isSwapPending
  {
    if flags.isSwapConfirmed then [SuccessToast(confirmed)]
    else if flags.isSwapPending then [InfoToast("Transaction is pending...")]
    else []
  }
}

/** The off-ramp (swap) form: the submit guards, the anti-money-laundering (AML) request and
    verdict, and the button's disabled state and label. */
module SwapForm {
  import opened Base
  import opened Text

  datatype Bank = Bank(name: string)

  /** The form's inputs and the flags it reads. `insufficientBalance` comes from a balance hook
      whose logic is not part of this model; `isAMLLoading` is the page's own flag for the delay
      before the AML request. */
  datatype Form = Form(
    address: Option<string>,
    amountUSD: string,
    selectedBank: Option<Bank>,
    channelAccount: string,
    insufficientBalance: bool,
    isSwapPending: bool,
    isSwapConfirming: bool,
    isAMLLoading: bool)

  const SOURCE_OF_FUNDS: string := "Binance"

  /** `${address}` in a template literal: an absent address renders as "undefined". */
  function AddressText(address: Option<string>): string {
    address.GetOr("undefined")
  }

  const MESSAGE_MIDDLE: string := " is requesting to offramp "
  const MESSAGE_END: string := " USD from "

  /** The message sent to the AML agent. */
  function AmlMessage(address: Option<string>, amountUSD: string): (m: string)
    ensures |m| == |AddressText(address)| + |MESSAGE_MIDDLE| + |amountUSD| + |MESSAGE_END| + |SOURCE_OF_FUNDS|
    ensures m[..|AddressText(address)|] == AddressText(address)
    ensures var k := |AddressText(address)|; m[k..k + |MESSAGE_MIDDLE|] == MESSAGE_MIDDLE
    ensures var k := |AddressText(address)| + |MESSAGE_MIDDLE|; m[k..k + |amountUSD|] == amountUSD
    ensures m[|m| - |MESSAGE_END + SOURCE_OF_FUNDS|..] == MESSAGE_END + SOURCE_OF_FUNDS
  {
    AddressText(address) + MESSAGE_MIDDLE + amountUSD + MESSAGE_END + SOURCE_OF_FUNDS
  }

  /** For a fixed address the message determines the amount: the agent is asked about exactly
      the amount that will be swapped. */
  lemma AmlMessageDeterminesAmount(address: Option<string>, x: string, y: string)
    ensures AmlMessage(address, x) == AmlMessage(address, y) ==> x == y
  {
    var mx, my := AmlMessage(address, x), AmlMessage(address, y);
    if mx == my {
      assert |x| == |y|;
    }
  }

  datatype Verdict = Approved | Rejected

  /** The verdict is a substring test on the agent's raw reply. */
  function AmlVerdict(reply: string): (v: Verdict)
    ensures v == Approved <==> exists i: nat :: OccursAt(reply, "SAFE", i)
  {
    if Includes(reply, "SAFE") then Approved else Rejected
  }

  /** A reply flagging the wallet NOT_SAFE still contains "SAFE", so it is approved. */
  lemma NotSafeIsApproved(reply: string)
    requires exists i: nat :: OccursAt(reply, "NOT_SAFE", i)
    ensures AmlVerdict(reply) == Approved
  {
    var i: nat :| OccursAt(reply, "NOT_SAFE", i);
    assert reply[i + 4..i + 8] == reply[i..i + 8][4..];
    assert OccursAt(reply, "SAFE", i + 4);
  }

  /** A reply without a capital S -- such as the agent's "Empty Text" -- is rejected. */
  lemma NoCapitalSIsRejected(reply: string)
    ensures (forall i :: 0 <= i < |reply| ==> reply[i] != 'S') ==> AmlVerdict(reply) == Rejected
  {
    forall i: nat | OccursAt(reply, "SAFE", i)
      ensures reply[i] == 'S'
    {
      assert reply[i] == reply[i..i + 4][0];
    }
  }

  lemma EmptyTextIsRejected()
    ensures AmlVerdict("Empty Text") == Rejected
  {
    NoCapitalSIsRejected("Empty Text");
  }

  // ---------------------------------------------------------------- submit

  datatype SubmitError = InsufficientBalance | NoBank | NoBankNumber

  /** The text of the error toast each guard shows. */
  function GuardMessage(e: SubmitError): string {
    match e
    case InsufficientBalance => "Invalid amount or not enough balance!"
    case NoBank => "Please select a bank!"
    case NoBankNumber => "Please enter a bank number!"
  }

  /** The first guard of `handleSubmit` that fails, checked in source order. */
  function SubmitGuard(f: Form): (g: Option<SubmitError>)
    ensures f.insufficientBalance ==> g == Some(InsufficientBalance)
    ensures !f.insufficientBalance && f.selectedBank.None? ==> g == Some(NoBank)
    ensures !f.insufficientBalance && f.selectedBank.Some? && IsBlank(f.channelAccount) ==>
              g == Some(NoBankNumber)
    ensures g.None? <==> !f.insufficientBalance && f.selectedBank.Some? && !IsBlank(f.channelAccount)
  {
    TrimEmptyIffBlank(f.channelAccount);
    if f.insufficientBalance then Some(InsufficientBalance)
    else if f.selectedBank.None? then Some(NoBank)
    else if Trim(f.channelAccount) == [] then Some(NoBankNumber)
    else None
  }

  datatype SwapCall = SwapCall(amountUSD: string, bankName: string, channelAccount: string)

  /** What one submit leads to: a guard's error toast, a failed AML request, an AML rejection, or
      the swap call. A failed request (the `fetch` or `response.text()` rejects) ends the delayed
      callback with an unhandled rejection: no verdict, no toast and no swap. */
  datatype SubmitResult =
    | Blocked(error: SubmitError)
    | RequestFailed(message: string)
    | AmlRejected(message: string)
    | Swapped(message: string, call: SwapCall)

  /** `handleSubmit`, with the AML request as a function from message to the raw reply body, `None`
      when the request rejects. The request is made only when every guard passes, and the swap only
      on an "Approved" verdict of a reply that arrived. */
  function HandleSubmit(f: Form, agent: string -> Option<string>): (r: SubmitResult)
    ensures r.Blocked? <==> SubmitGuard(f).Some?
    ensures r.Blocked? ==> r.error == SubmitGuard(f).value
    ensures !r.Blocked? ==> r.message == AmlMessage(f.address, f.amountUSD)
    ensures r.RequestFailed? <==> SubmitGuard(f).None? && agent(AmlMessage(f.address, f.amountUSD)).None?
    ensures r.Swapped? <==> && SubmitGuard(f).None?
                            && agent(AmlMessage(f.address, f.amountUSD)).Some?
                            && AmlVerdict(agent(AmlMessage(f.address, f.amountUSD)).value) == Approved
    ensures r.Swapped? ==> r.call == SwapCall(f.amountUSD, f.selectedBank.value.name, f.channelAccount)
  {
    match SubmitGuard(f)
    case Some(e) => Blocked(e)
    case None =>
      var message := AmlMessage(f.address, f.amountUSD);
      match agent(message)
      case None => RequestFailed(message)
      case Some(reply) =>
        if AmlVerdict(reply) == Rejected then AmlRejected(message)
        else Swapped(message, SwapCall(f.amountUSD, f.selectedBank.value.name, f.channelAccount))
  }

  /** The synchronous part of `handleSubmit`: when every guard passes it raises `isAMLLoading`
      before arming the timer; a failing guard returns before touching the form. */
  function BeginSubmit(f: Form): (f': Form)
    ensures f'.isAMLLoading <==> f.isAMLLoading || SubmitGuard(f).None?
    ensures f' == f.(isAMLLoading := f'.isAMLLoading)
  {
    if SubmitGuard(f).None? then f.(isAMLLoading := true) else f
  }

  /** The timer callback clears `isAMLLoading` first, before the AML request is even sent. */
  function TimerFires(f: Form): (f': Form)
    ensures !f'.isAMLLoading
    ensures f' == f.(isAMLLoading := f'.isAMLLoading)
  {
    f.(isAMLLoading := false)
  }

  // ---------------------------------------------------------------- button

  /** The `isSubmitDisabled` memo. It does not read `isAMLLoading`; the button adds that. */
  function IsSubmitDisabled(f: Form): (b: bool)
    ensures b <==> f.isSwapPending || f.isSwapConfirming || f.insufficientBalance
                   || f.amountUSD == "" || f.selectedBank.None? || IsBlank(f.channelAccount)
  {
    TrimEmptyIffBlank(f.channelAccount);
    f.isSwapPending || f.isSwapConfirming || f.insufficientBalance || f.amountUSD == ""
    || f.selectedBank.None? || Trim(f.channelAccount) == []
  }

  function ButtonText(f: Form): string {
    if f.isSwapPending || f.isSwapConfirming then "Offramping..."
    else if f.insufficientBalance then "Insufficient balance"
    else if f.selectedBank.None? then "Select a bank"
    else if Trim(f.channelAccount) == [] then "Enter bank number"
    else "Submit"
  }

  /** The rendered button: `disabled={isSubmitDisabled || isAMLLoading}`. */
  function ButtonDisabled(f: Form): (b: bool)
    ensures f.isAMLLoading ==> b
    ensures !f.isAMLLoading ==> (b <==> IsSubmitDisabled(f))
  {
    IsSubmitDisabled(f) || f.isAMLLoading
  }

  /** The label names the first reason, in the same order as the submit guards. The
      `isSubmitDisabled` memo holds exactly when the label is not "Submit" or the amount is empty;
      the button is disabled in those cases and also during the AML delay, whatever the label. */
  lemma ButtonTextAgreesWithGuards(f: Form)
    ensures IsSubmitDisabled(f) <==> ButtonText(f) != "Submit" || f.amountUSD == ""
    ensures ButtonDisabled(f) <==> ButtonText(f) != "Submit" || f.amountUSD == "" || f.isAMLLoading
    ensures ButtonText(f) == "Submit" ==> SubmitGuard(f).None?
    ensures SubmitGuard(f).None? ==> ButtonText(f) in {"Submit", "Offramping..."}
    ensures !(f.isSwapPending || f.isSwapConfirming) ==>
              && (SubmitGuard(f) == Some(InsufficientBalance) <==> ButtonText(f) == "Insufficient balance")
              && (SubmitGuard(f) == Some(NoBank) <==> ButtonText(f) == "Select a bank")
              && (SubmitGuard(f) == Some(NoBankNumber) <==> ButtonText(f) == "Enter bank number")
  {
    TrimEmptyIffBlank(f.channelAccount);
    if f.isSwapPending || f.isSwapConfirming {
    } else if f.insufficientBalance {
    } else if f.selectedBank.None? {
    } else if Trim(f.channelAccount) == [] {
    } else {
    }
  }

  /** A submit that passes the guards disables the button under the unchanged "Submit" label, but
      only until the timer fires: the button is enabled again while the AML request is still in
      flight, so a second submit can start a second check and a second swap. */
  lemma ButtonReenabledBeforeVerdict(f: Form)
    requires SubmitGuard(f).None? && f.amountUSD != ""
    requires !f.isSwapPending && !f.isSwapConfirming
    ensures ButtonText(BeginSubmit(f)) == "Submit" && ButtonDisabled(BeginSubmit(f))
    ensures !ButtonDisabled(TimerFires(BeginSubmit(f)))
    ensures SubmitGuard(TimerFires(BeginSubmit(f))).None?
  {
    ButtonTextAgreesWithGuards(BeginSubmit(f));
    ButtonTextAgreesWithGuards(TimerFires(BeginSubmit(f)));
  }
}

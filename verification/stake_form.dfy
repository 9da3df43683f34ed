/** The stake form: the balance check, the submit guard, the approve-then-stake sequence and the
    button's disabled state. Contract writes are abstract outcomes; the comparison of the balance
    with the typed amount (through `convertBigIntToNumber`, whose code is not part of this model)
    is a caller-supplied predicate. */
module StakeForm {
  import opened Base
  import opened FillHooks

  const INVALID_INPUT: string := "Invalid amount or not enough balance!"
  const STAKE_OK: string := "Stake successfully!"

  datatype Provider = Provider(img: string, value: string)

  /** The two staking providers; the first is selected initially. */
  const OPTIONS: seq<Provider> := [
    Provider("https://images.seeklogo.com/logo-png/47/2/manta-network-manta-logo-png_seeklogo-476308.png",
             "Manta CeDeFi"),
    Provider("https://resources.accumulated.finance/platforms/acfi.png", "Accumulated Finance")]

  /** The inputs and flags the form reads. `balance` is undefined until the balance hook loads. */
  datatype Form = Form(
    stakeAmount: string,
    selectedProvider: Option<Provider>,
    balance: Option<nat>,
    isStakePending: bool,
    isApprovalPending: bool)

  /** The form as first rendered, before the balance arrives. */
  const INITIAL: Form := Form("", Some(OPTIONS[0]), None, false, false)

  /** The configured token and protocol contract addresses. */
  datatype Addresses = Addresses(usdm: string, pacificRamp: string)

  /** `insufficientBalance`: never while the balance is unknown or the amount is empty; otherwise
      whether the balance is below the amount. */
  function InsufficientBalance(f: Form, below: (nat, string) -> bool): (b: bool)
    ensures f.balance.None? || f.stakeAmount == "" ==> !b
    ensures f.balance.Some? && f.stakeAmount != "" ==> (b <==> below(f.balance.value, f.stakeAmount))
  {
    if f.balance.None? || f.stakeAmount == "" then false
    else below(f.balance.value, f.stakeAmount)
  }

  /** `handleSubmit`'s guard: a provider, a non-empty amount, and enough balance. */
  predicate GuardPasses(f: Form, below: (nat, string) -> bool) {
    f.selectedProvider.Some? && f.stakeAmount != "" && !InsufficientBalance(f, below)
  }

  datatype Call =
    | Approve(token: string, spender: string, approveAmount: string)
    | Stake(stakeContract: string, stakeAmount: string, provider: string)

  datatype SubmitResult = SubmitResult(calls: seq<Call>, toasts: seq<Toast>, dialogOpen: bool)

  /** One submit: the guard, then the approval, then -- only once the approval resolves -- the
      stake, after which the success dialog opens whatever the stake's outcome. A rejected
      approval is not caught: nothing further happens. */
  function HandleSubmit(f: Form, addrs: Addresses, below: (nat, string) -> bool,
                        approvalResolves: bool, stake: WriteOutcome): (r: SubmitResult)
    ensures !GuardPasses(f, below) ==> r == SubmitResult([], [ErrorToast(INVALID_INPUT)], false)
    ensures GuardPasses(f, below) ==>
              && 1 <= |r.calls| <= 2
              && r.calls[0] == Approve(addrs.usdm, addrs.pacificRamp, f.stakeAmount)
              && (|r.calls| == 2 <==> approvalResolves)
              && (|r.calls| == 2 ==> r.calls[1] == Stake(addrs.pacificRamp, f.stakeAmount, f.selectedProvider.value.value))
              && (r.dialogOpen <==> approvalResolves)
    ensures GuardPasses(f, below) && approvalResolves ==>
              r.toasts == [if stake.Sent? then SuccessToast(STAKE_OK) else ErrorToast(stake.message.GetOr(GENERIC_FAILURE))]
    ensures GuardPasses(f, below) && !approvalResolves ==> r.toasts == []
  {
    if !GuardPasses(f, below) then SubmitResult([], [ErrorToast(INVALID_INPUT)], false)
    else
      var approve := Approve(addrs.usdm, addrs.pacificRamp, f.stakeAmount);
      if !approvalResolves then SubmitResult([approve], [], false)
      else
        SubmitResult([approve, Stake(addrs.pacificRamp, f.stakeAmount, f.selectedProvider.value.value)],
                     HookToasts(stake, STAKE_OK, None), true)
  }

  /** The approval and the stake always carry the same amount, and the stake is never sent
      without an approval before it. */
  lemma StakeFollowsApproval(f: Form, addrs: Addresses, below: (nat, string) -> bool,
                             approvalResolves: bool, stake: WriteOutcome)
    ensures var r := HandleSubmit(f, addrs, below, approvalResolves, stake);
            forall k :: 0 <= k < |r.calls| && r.calls[k].Stake? ==>
              k > 0 && r.calls[k - 1].Approve? && r.calls[k - 1].approveAmount == r.calls[k].stakeAmount
  {
  }

  /** The success dialog does not depend on whether the stake went through. */
  lemma DialogIgnoresStakeOutcome(f: Form, addrs: Addresses, below: (nat, string) -> bool,
                                  approvalResolves: bool, s1: WriteOutcome, s2: WriteOutcome)
    ensures HandleSubmit(f, addrs, below, approvalResolves, s1).dialogOpen
            == HandleSubmit(f, addrs, below, approvalResolves, s2).dialogOpen
    ensures HandleSubmit(f, addrs, below, approvalResolves, s1).calls
            == HandleSubmit(f, addrs, below, approvalResolves, s2).calls
  {
  }

  /** The Stake button's `disabled` expression. */
  function ButtonDisabled(f: Form, below: (nat, string) -> bool): (b: bool)
    ensures b <==> f.stakeAmount == "" || f.selectedProvider.None? || InsufficientBalance(f, below)
                   || f.isStakePending || f.isApprovalPending
  {
    f.stakeAmount == "" || f.selectedProvider.None? || InsufficientBalance(f, below)
    || f.isStakePending || f.isApprovalPending
  }

  /** The button is enabled exactly when the submit guard passes and no write is pending; so a
      click on the enabled button always sends the approval. */
  lemma ButtonEnabledIffGuardAndIdle(f: Form, below: (nat, string) -> bool)
    ensures !ButtonDisabled(f, below) <==> GuardPasses(f, below) && !f.isStakePending && !f.isApprovalPending
  {
  }

  /** The first render has an empty amount, so its button is disabled and its balance check quiet. */
  lemma InitialFormIsDisabled(below: (nat, string) -> bool)
    ensures ButtonDisabled(INITIAL, below) && !InsufficientBalance(INITIAL, below)
  {
  }
}

/** The withdraw page's two-step stepper: step 0 is the withdrawal, step 1 staking. */
module WithdrawStepper {

  datatype Button = Next | Previous

  /** `handleNextStep`: moves forward only from a step below 1. */
  function NextStep(step: int): (s: int)
    ensures step < 1 ==> s == step + 1
    ensures step >= 1 ==> s == step
  {
    if step < 1 then step + 1 else step
  }

  /** `handlePreviousStep`: moves back only from a step above 0. */
  function PreviousStep(step: int): (s: int)
    ensures step > 0 ==> s == step - 1
    ensures step <= 0 ==> s == step
  {
    if step > 0 then step - 1 else step
  }

  /** A button is disabled on the step it would not move from; a disabled button's handler would
      be a no-op anyway. */
  predicate Disabled(step: int, b: Button) {
    match b
    case Previous => step == 0
    case Next => step == 1
  }

  function Press(step: int, b: Button): int {
    match b
    case Next => NextStep(step)
    case Previous => PreviousStep(step)
  }

  lemma DisabledIsNoOp(step: int, b: Button)
    requires 0 <= step <= 1 && Disabled(step, b)
    ensures Press(step, b) == step
  {
  }

  /** `activeStep` after a sequence of presses, starting from 0. */
  function Run(presses: seq<Button>): int
    decreases |presses|
  {
    if presses == [] then 0 else Press(Run(presses[..|presses| - 1]), presses[|presses| - 1])
  }

  /** The step stays within 0..1, and it is set by the last press alone: 1 after Next, 0 after
      Previous, 0 before any press. */
  lemma {:induction false} RunStaysInRange(presses: seq<Button>)
    ensures 0 <= Run(presses) <= 1
    ensures Run(presses) == (if presses == [] then 0 else if presses[|presses| - 1] == Next then 1 else 0)
    decreases |presses|
  {
    if presses != [] {
      RunStaysInRange(presses[..|presses| - 1]);
    }
  }

  /** What the page body shows. */
  datatype View = WithdrawView | StakeView(withStakeTable: bool)

  function Render(step: int): (v: View)
    ensures v == WithdrawView <==> step == 0
    ensures v != WithdrawView ==> v == StakeView(true)
  {
    if step == 0 then WithdrawView else StakeView(true)
  }

  /** The staking form and its history table appear exactly after a Next press. */
  lemma StakeShownAfterNext(presses: seq<Button>)
    ensures Render(Run(presses)).StakeView? <==> presses != [] && presses[|presses| - 1] == Next
  {
    RunStaysInRange(presses);
  }
}

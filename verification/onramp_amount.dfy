/** The argument `handleOnramp` passes to `requestOnRamp`:
    `BigInt(amount.replace(/\D/g, "").padStart(18, "0"))`. */
module OnrampAmount {
  import opened Base
  import opened Text
  import opened FillHooks

  const PAD_WIDTH: nat := 18

  /** `amount.replace(/\D/g, "")`: the digits of the input, in order. */
  function StripNonDigits(amount: string): (digits: string)
    ensures IsDigitString(digits)
    ensures IsSubsequence(digits, amount)
    ensures forall i :: 0 <= i < |amount| && IsDigit(amount[i]) ==> amount[i] in digits
    ensures |digits| == Count(amount, IsDigit)
  {
    Filter(amount, IsDigit)
  }

  /** The padded digit string handed to `BigInt`. */
  function PaddedDigits(amount: string): (padded: string)
    ensures |padded| == Max(PAD_WIDTH, |StripNonDigits(amount)|)
    ensures IsDigitString(padded)
  {
    var digits := StripNonDigits(amount);
    var padded := PadStart(digits, PAD_WIDTH, '0');
    assert padded == Repeat('0', |padded| - |digits|) + digits;
    LeadingZerosValue(|padded| - |digits|, digits);
    padded
  }

  /** The on-ramp amount requested: padding never changes the value, so it is the integer the
      input's digits spell, separators dropped rather than scaled. */
  function RequestedAmount(amount: string): (value: nat)
    ensures value == DigitsValue(StripNonDigits(amount))
  {
    var digits := StripNonDigits(amount);
    var padded := PaddedDigits(amount);
    assert padded == Repeat('0', |padded| - |digits|) + digits;
    LeadingZerosValue(|padded| - |digits|, digits);
    DigitsValue(padded)
  }

  /** Padding only prepends: long inputs keep all their digits. */
  lemma PaddingKeepsDigits(amount: string)
    ensures var d := StripNonDigits(amount); var p := PaddedDigits(amount);
      p[|p| - |d|..] == d && (forall i :: 0 <= i < |p| - |d| ==> p[i] == '0')
    ensures |StripNonDigits(amount)| >= PAD_WIDTH ==> PaddedDigits(amount) == StripNonDigits(amount)
  {
  }

  /** "12.50" requests 1250: the decimal point is dropped, not interpreted. */
  lemma SeparatorDropped()
    ensures RequestedAmount("12.50") == 1250
  {
    DigitsOf1250();
    ValueOf1250();
  }

  lemma DigitsOf1250()
    ensures StripNonDigits("12.50") == "1250"
  {
    DigitsOf50();
    assert Filter("2.50", IsDigit) == "250" by { assert "2.50"[1..] == ".50"; }
    assert Filter("12.50", IsDigit) == "1250" by { assert "12.50"[1..] == "2.50"; }
  }

  lemma DigitsOf50()
    ensures Filter(".50", IsDigit) == "50"
  {
    assert Filter("0", IsDigit) == "0" by { assert "0"[1..] == ""; }
    assert Filter("50", IsDigit) == "50" by { assert "50"[1..] == "0"; }
    assert ".50"[1..] == "50";
  }

  lemma ValueOf1250()
    ensures DigitsValue("1250") == 1250
  {
    assert DigitsValue("1") == 1 by { assert "1"[..0] == ""; }
    assert DigitsValue("12") == 12 by { assert "12"[..1] == "1"; }
    assert DigitsValue("125") == 125 by { assert "125"[..2] == "12"; }
    assert DigitsValue("1250") == 1250 by { assert "1250"[..3] == "125"; }
  }

  /** An input without digits requests 0. */
  lemma NoDigitsRequestsZero(amount: string)
    requires forall i :: 0 <= i < |amount| ==> !IsDigit(amount[i])
    ensures RequestedAmount(amount) == 0
  {
    CountNone(amount, IsDigit);
    assert StripNonDigits(amount) == [];
  }

  datatype OnrampCall = RequestOnRamp(amount: nat)

  /** `handleOnramp`: one `requestOnRamp` write with the normalised amount; a failed write turns
      into an error toast and is not rethrown. A sent write shows nothing yet: its success toast
      comes after the wait for confirmation, which is not modelled. */
  function HandleOnramp(amount: string, outcome: WriteOutcome): (r: (OnrampCall, seq<Toast>))
    ensures r.0 == RequestOnRamp(DigitsValue(StripNonDigits(amount)))
    ensures outcome.Failed? ==> r.1 == [ErrorToast(outcome.message.GetOr(GENERIC_FAILURE))]
    ensures outcome.Sent? ==> r.1 == []
  {
    var call := RequestOnRamp(RequestedAmount(amount));
    match outcome
    case Sent => (call, [])
    case Failed(m) => (call, [ErrorToast(m.GetOr(GENERIC_FAILURE))])
  }
}

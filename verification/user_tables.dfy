/** The per-user history tables: off-ramps (swaps) and stakes are filtered to the connected
    wallet, comparing addresses case-insensitively; mints are shown unfiltered once a wallet is
    connected. Query results that have not arrived are `None`. */
module UserTables {
  import opened Base
  import opened Text

  datatype Swap = Swap(id: string, user: string, requestedAmount: string, transactionHash: string)
  datatype Stake = Stake(id: string, user: string, provider: string, amount: string, transactionHash: string)
  datatype Mint = Mint(id: string, user: string, amount: string, transactionHash: string)

  /** `user.toLocaleLowerCase() === address.toLocaleLowerCase()`. */
  predicate SameUser(user: string, address: string) {
    ToLower(user) == ToLower(address)
  }

  /** The filter callbacks: does this row belong to `address`? */
  function SwapOwnedBy(address: string): Swap -> bool {
    (s: Swap) => SameUser(s.user, address)
  }

  function StakeOwnedBy(address: string): Stake -> bool {
    (s: Stake) => SameUser(s.user, address)
  }

  /** `filteredSwaps`: nothing without a connected address or without data, otherwise the
      caller's off-ramps in query order. */
  function FilteredSwaps(offRamps: Option<seq<Swap>>, address: Option<string>): (r: seq<Swap>)
    ensures !Truthy(address) || offRamps.None? ==> r == []
    ensures Truthy(address) && offRamps.Some? ==>
              && IsSubsequence(r, offRamps.value)
              && (forall i :: 0 <= i < |r| ==> SameUser(r[i].user, address.value))
              && (forall i :: 0 <= i < |offRamps.value| && SameUser(offRamps.value[i].user, address.value)
                    ==> offRamps.value[i] in r)
              && |r| == Count(offRamps.value, SwapOwnedBy(address.value))
  {
    if Truthy(address) && offRamps.Some? then
      Filter(offRamps.value, SwapOwnedBy(address.value))
    else []
  }

  /** The stakes table's filter (named `filteredMints` in the source): the same rule as
      `FilteredSwaps`, over stakes. */
  function FilteredStakes(stakes: Option<seq<Stake>>, address: Option<string>): (r: seq<Stake>)
    ensures !Truthy(address) || stakes.None? ==> r == []
    ensures Truthy(address) && stakes.Some? ==>
              && IsSubsequence(r, stakes.value)
              && (forall i :: 0 <= i < |r| ==> SameUser(r[i].user, address.value))
              && (forall i :: 0 <= i < |stakes.value| && SameUser(stakes.value[i].user, address.value)
                    ==> stakes.value[i] in r)
              && |r| == Count(stakes.value, StakeOwnedBy(address.value))
  {
    if Truthy(address) && stakes.Some? then
      Filter(stakes.value, StakeOwnedBy(address.value))
    else []
  }

  /** The swap table's contents are determined: any order-preserving selection of the caller's
      off-ramps that keeps as many rows as they own is exactly the filtered table. */
  lemma OwnedSwapsDetermined(offRamps: seq<Swap>, address: string, r: seq<Swap>)
    requires address != ""
    requires IsSubsequence(r, offRamps)
    requires forall i :: 0 <= i < |r| ==> SameUser(r[i].user, address)
    requires |r| == Count(offRamps, SwapOwnedBy(address))
    ensures r == FilteredSwaps(Some(offRamps), Some(address))
  {
    FilterUnique(r, offRamps, SwapOwnedBy(address));
  }

  /** `(address && data?.mints) || []`: the whole list once an address is connected. */
  function FilteredMints(mints: Option<seq<Mint>>, address: Option<string>): (r: seq<Mint>)
    ensures Truthy(address) && mints.Some? ==> r == mints.value
    ensures !Truthy(address) || mints.None? ==> r == []
  {
    if Truthy(address) && mints.Some? then mints.value else []
  }

  /** Membership in a filtered list, both ways: a row is shown exactly when it is in the data
      and belongs to the connected user. */
  lemma SwapShownIffOwned(offRamps: seq<Swap>, address: string, x: Swap)
    requires address != ""
    ensures x in FilteredSwaps(Some(offRamps), Some(address)) <==> x in offRamps && SameUser(x.user, address)
  {
    var r := FilteredSwaps(Some(offRamps), Some(address));
    SubsequenceMembers(r, offRamps);
  }

  lemma StakeShownIffOwned(stakes: seq<Stake>, address: string, x: Stake)
    requires address != ""
    ensures x in FilteredStakes(Some(stakes), Some(address)) <==> x in stakes && SameUser(x.user, address)
  {
    var r := FilteredStakes(Some(stakes), Some(address));
    SubsequenceMembers(r, stakes);
  }

  /** The filter never lengthens the list. */
  lemma FilteredSwapsNoLonger(offRamps: Option<seq<Swap>>, address: Option<string>)
    ensures offRamps.Some? ==> |FilteredSwaps(offRamps, address)| <= |offRamps.value|
  {
    if offRamps.Some? {
      SubsequenceLength(FilteredSwaps(offRamps, address), offRamps.value);
    }
  }

  lemma {:induction false} ToLowerIdempotent(s: string)
    ensures ToLower(ToLower(s)) == ToLower(s)
  {
    assert forall i :: 0 <= i < |s| ==> LowerChar(LowerChar(s[i])) == LowerChar(s[i]);
  }

  /** Only the lower-cased address matters: a checksummed and a lower-case address select the
      same rows. */
  lemma FilterIgnoresAddressCase(offRamps: Option<seq<Swap>>, stakes: Option<seq<Stake>>, address: string)
    requires address != ""
    ensures FilteredSwaps(offRamps, Some(address)) == FilteredSwaps(offRamps, Some(ToLower(address)))
    ensures FilteredStakes(stakes, Some(address)) == FilteredStakes(stakes, Some(ToLower(address)))
  {
    ToLowerIdempotent(address);
    assert ToLower(address) != "" by { assert |ToLower(address)| == |address|; }
    if offRamps.Some? {
      FilterCongruent(offRamps.value, SwapOwnedBy(address), SwapOwnedBy(ToLower(address)));
    }
    if stakes.Some? {
      FilterCongruent(stakes.value, StakeOwnedBy(address), StakeOwnedBy(ToLower(address)));
    }
  }

  // ---------------------------------------------------------------- stake table cells

  /** What a cell shows: a dash, plain text, or a shortened address with a copy button. */
  datatype Cell = Dash | Plain(text: string) | Copyable(full: string)

  /** The provider and amount cells: `value || "-"`. */
  function TextCell(value: string): (c: Cell)
    ensures c == Dash <==> value == ""
    ensures c != Dash ==> c == Plain(value)
  {
    if value == "" then Dash else Plain(value)
  }

  /** The hash and user cells: a dash when the value is falsy, else a cell that displays the
      shortened `formatAddress(value)` (not modelled) and copies the full value. */
  function CopyCell(value: string): (c: Cell)
    ensures c == Dash <==> value == ""
    ensures c != Dash ==> c == Copyable(value)
  {
    if value == "" then Dash else Copyable(value)
  }

  datatype StakeCells = StakeCells(number: nat, provider: Cell, hash: Cell, amount: Cell, user: Cell)

  /** The columns of the stakes table for the row at `index`. */
  function StakeRow(index: nat, s: Stake): (cells: StakeCells)
    ensures cells.number == index + 1
    ensures cells.provider == TextCell(s.provider) && cells.amount == TextCell(s.amount)
    ensures cells.hash == CopyCell(s.transactionHash) && cells.user == CopyCell(s.user)
  {
    StakeCells(index + 1, TextCell(s.provider), CopyCell(s.transactionHash), TextCell(s.amount), CopyCell(s.user))
  }

  /** Every non-dash cell carries the row's own value -- the text of the provider and amount cells,
      the copied value of the hash and user cells: the table never invents data. */
  lemma StakeCellsShowRowValues(index: nat, s: Stake)
    ensures var cells := StakeRow(index, s);
            && (cells.provider == Dash || cells.provider.text == s.provider)
            && (cells.amount == Dash || cells.amount.text == s.amount)
            && (cells.hash == Dash || cells.hash.full == s.transactionHash)
            && (cells.user == Dash || cells.user.full == s.user)
  {
  }
}

# PacificRamp in Dafny

PacificRamp is a fiat on-ramp and off-ramp built on a stablecoin. A user locks tokens and asks to be paid out to a bank channel ("off-ramp request"). An operator fills the request and submits a proof. On-ramps run the other way round: a buyer requests tokens, a seller accepts and a receipt id closes the deal. Users can also stake.

This project models and proves the core of the system.

- **Subgraph event indexer.**
  - Each `handle*` function becomes a pure transition `Store x Event -> Store` over one map per entity table (off-ramps, tasks, operators, on-ramps, transfers, mints, withdraws, stakes).
  - `Entity.load` is a map lookup.
  - `save` merges the fields the handler set into the record under that id, creating it when absent.
- **Frontend logic:**
  - how on-ramp table rows derive their status and gate their actions;
  - the on-ramp amount normalisation;
  - the off-ramp form's guards and its AML (anti-money-laundering) verdict;
  - the per-user history filters;
  - the operator proof page's selection state machine;
  - the stake form's approve-then-stake sequence;
  - the withdraw page stepper.
- **Operator command-line tool:** the approve → mint → requestOfframp sequence, the random task data, and the fill it sends for each request.
- **AML agent:** the `/chat` endpoint's request guard.

Chain writes, HTTP calls and the language model become abstract outcomes or uninterpreted functions passed as parameters. These are:
- `hashIt` (keccak256);
- the model's reply;
- the AML agent's reply text;
- whether each wallet write is sent or throws;
- the balance comparison.

Files:

| file | module | models |
|---|---|---|
| `base.dfy` | `Base` | `Option` (nullable values), JavaScript string truthiness, order-preserving `filter` |
| `fill_hooks.dfy` | `FillHooks` | the toasts of the `useFillOnRamp` and `useFillOfframp` handlers, which never reject |
| `text.dfy` | `Text` | decimal rendering (`BigInt.toString`), `padStart`, ASCII lower-casing, `includes`, `trim` |
| `bytes.dfy` | `ByteStrings` | `Bytes.toHexString`, `concatI32` |
| `indexer.dfy` | `Indexer` | the entities and the twelve event handlers |
| `indexer_properties.dfy` | `IndexerProperties` | properties of single handlers and of event streams |
| `onramp_table.dfy` | `OnrampTable` | status cell, action cell, forms, accept / submit-receipt handlers |
| `onramp_amount.dfy` | `OnrampAmount` | the amount passed to `requestOnRamp` |
| `swap_form.dfy` | `SwapForm` | the off-ramp form: guards, AML message and verdict, button |
| `aml_agent.dfy` | `AmlAgent` | the agent's `/chat` handler |
| `operator_cli.dfy` | `OperatorCli` | `generateRandomData`, `createNewTask`, `responseToRequest`, `monitorNewOfframp` |
| `user_tables.dfy` | `UserTables` | swap, stake and mint history filters, stake table cells |
| `proof_table.dfy` | `ProofTable` | the operator proof page |
| `stake_form.dfy` | `StakeForm` | the stake form |
| `withdraw_stepper.dfy` | `WithdrawStepper` | the two-step stepper |
| `scenarios.dfy` | `Scenarios` | end-to-end runs through the indexer and the on-ramp table |

## Behaviour as the code has it

Several behaviours are modelled as the code has them, although one might expect a duplicate check, buffering of early fills, a fail-closed AML check, or a page that keeps its inputs after a failed write.

- **Off-ramp requests are not checked for duplicates.** `handleRequestOfframp` has no existence check. A redelivered request on a COMPLETED off-ramp sets it back to PENDING, and the earlier fill fields survive the merge (`IndexerProperties.RequestRedeliveryReopens`).
- **An early fill is dropped.** A fill for an unknown id is logged and dropped; it is not buffered and it does not create the record. A fill that arrives before its request is therefore lost for good (`IndexerProperties.EarlyFillIsDropped`).
- **Fills have no status guard.** A second fill overwrites the fill fields (`IndexerProperties.RefillOverwrites`).
- **On-ramp status is written only on creation.** The three load-or-create on-ramp handlers set `status` only when they create the record. `handleOnRampRequested` always writes it.
- **The AML verdict fails open.** It is `result.includes("SAFE")` on the raw HTTP body. A reply flagging a wallet `NOT_SAFE` contains "SAFE" and is approved (`SwapForm.NotSafeIsApproved`). The agent wraps the parsed model reply as `{"text": ...}`, so any reply in its documented `{"amlStatus": "SAFE" | "NOT_SAFE"}` format is approved. This is the source's behaviour and is modelled as such.
- **A failed fill or acceptance still clears the page.** The fill hooks catch a failed write themselves and return normally. The pages' own `catch` blocks therefore never run. A failed acceptOnRamp, submitReceiptId or fillOfframp write clears the selection and the inputs just as a sent one does, so a retry starts from scratch (`OnrampTable.FailedWriteClosesForms`, `ProofTable.FailedFillMustBeReentered`). The page's "filled successfully" toast reads flags from the render that created the handler, so it can follow a failed write (`OnrampTable.FailedWriteCanReportFill`).
- **A redelivered task creation reopens the task.** Like a redelivered off-ramp request, a redelivered `NewTaskCreated` puts a COMPLETED task back to PENDING, and its operator and response time survive the merge. A later response then counts the same task a second time (`IndexerProperties.TaskRedeliveryRecounts`).
- **A stake failure still opens the success dialog.** The stake form opens its success dialog even when the stake write fails, because `handleStake` swallows the error (`StakeForm.DialogIgnoresStakeOutcome`).

## Model

| member | source | states |
|---|---|---|
| `Base.Filter` | frontend/src/pages/SwapPage/_components/TableSwap.tsx:39-42 | `Array.prototype.filter`: the result is an order-preserving subsequence of the input. Every kept element satisfies the predicate, every satisfying element is kept, and the length is the number of satisfying elements. |
| `Base.SubsequenceLength` | frontend/src/pages/SwapPage/_components/TableSwap.tsx:39 | A filtered list is never longer than its input. |
| `Base.SubsequenceMembers` | frontend/src/pages/SwapPage/_components/TableSwap.tsx:39 | Every element of a filtered list comes from the input. |
| `Base.SubsequenceCountBound` | frontend/src/pages/SwapPage/_components/TableSwap.tsx:39-42 | A subsequence of matching elements has at most as many elements as the list has matches. |
| `Base.FilterUnique` | frontend/src/pages/SwapPage/_components/TableSwap.tsx:39-42 | The filter's contract determines its result: the only order-preserving selection of matching elements with the full match count is the filtered list. |
| `Base.FilterCongruent` | frontend/src/pages/SwapPage/_components/TableSwap.tsx:39-42 | A filter depends only on the predicate's answers for the list's own elements. |
| `Base.CountNone` | frontend/src/hooks/useOnramp.ts:25 | When no element matches, the match count is zero. |
| `Text.DecimalString` | subgraph/src/pacificramp.ts:76 | `BigInt.toString()`: a non-empty digit string without a leading zero whose value is the number. |
| `Text.DecimalStringInjective` | subgraph/src/pacificramp.ts:76 | Different task indexes get different task ids. |
| `Text.PadStart` | frontend/src/hooks/useOnramp.ts:25 | `padStart`: the length is max(width, input length), the input is the suffix, and the prefix is all fill characters. |
| `Text.LeadingZerosValue` | frontend/src/hooks/useOnramp.ts:25 | Leading zeros do not change a digit string's value. |
| `Text.ToLower` | frontend/src/pages/SwapPage/_components/TableSwap.tsx:41 | Lower-casing keeps the length and maps each character on its own. |
| `Text.Includes` | frontend/src/pages/SwapPage/_components/SwapForm.tsx:137 | `includes` holds exactly when the substring occurs at some position. |
| `Text.TrimStart` | frontend/src/pages/SwapPage/_components/SwapForm.tsx:110 | Removes exactly the leading whitespace. |
| `Text.TrimEnd` | frontend/src/pages/SwapPage/_components/SwapForm.tsx:110 | Removes exactly the trailing whitespace. |
| `Text.TrimEmptyIffBlank` | frontend/src/pages/SwapPage/_components/SwapForm.tsx:110 | `s.trim()` is empty exactly when `s` is all whitespace. |
| `Text.TrimIsInnerSlice` | frontend/src/pages/SwapPage/_components/SwapForm.tsx:110 | `s.trim()` is a slice of `s`, and a non-empty result starts and ends with a non-whitespace character. |
| `ByteStrings.HexBody` | subgraph/src/pacificramp.ts:85 | Two lower-case hex digits per byte, high nibble first, at positions 2i and 2i+1. |
| `ByteStrings.HexString` | subgraph/src/pacificramp.ts:85 | `toHexString`: "0x" followed by two lower-case hex digits per byte. Byte i sits at positions 2+2i and 3+2i, high nibble first. |
| `ByteStrings.HexStringInjective` | subgraph/src/pacificramp.ts:107 | Different addresses get different operator ids. |
| `ByteStrings.ConcatI32` | subgraph/src/pacificramp.ts:135 | `concatI32`: the hash followed by 4 little-endian bytes that encode the log index. |
| `ByteStrings.I32RoundTrip` | subgraph/src/pacificramp.ts:135 | Reading the 4 little-endian bytes back gives the log index. |
| `ByteStrings.ConcatI32Injective` | subgraph/src/pacificramp.ts:134-136 | Different (hash, log index) pairs give different ledger ids. |
| `Indexer.HandleRequestOfframp` | subgraph/src/pacificramp.ts:37-52 | Writes only the request id's record. It copies user, amounts, channel fields and block data, and sets PENDING. Earlier fill fields survive, and a new record has none. |
| `Indexer.HandleFillOfframp` | subgraph/src/pacificramp.ts:54-73 | An unknown id leaves the store unchanged. A known id gets every fill field and COMPLETED, whatever its status was. The request fields are untouched. |
| `Indexer.HandleNewTaskCreated` | subgraph/src/pacificramp.ts:75-91 | Writes only the task under the decimal string of its index. It copies the task fields, sets the off-ramp link to the request id's hex, and sets PENDING. |
| `Indexer.HandleTaskResponded` | subgraph/src/pacificramp.ts:93-131 | An unknown or non-PENDING task leaves the store unchanged. A PENDING task becomes COMPLETED with respondedAt and operator set, and the operator (created at 0 when absent) gains exactly one completed task. |
| `Indexer.HandleTransfer` | subgraph/src/pacificramp.ts:133-147 | Writes only the hash++logIndex record, with the recipient as a hex string. |
| `Indexer.HandleMint` | subgraph/src/pacificramp.ts:149-163 | Writes only the hash++logIndex record. |
| `Indexer.HandleWithdraw` | subgraph/src/pacificramp.ts:165-177 | Writes only the hash++logIndex record. |
| `Indexer.HandleStakeSettled` | subgraph/src/pacificramp.ts:230-241 | Writes only the record keyed by the transaction hash's hex. |
| `Indexer.HandleOnRampAccepted` | subgraph/src/pacificramp.ts:179-191 | Sets channelId and seller. An existing record keeps every other field, including status. A new one gets status "Accepted". |
| `Indexer.HandleOnRampCompleted` | subgraph/src/pacificramp.ts:193-205 | Sets buyer and amount. Everything else is kept, and status is "Completed" only on creation. |
| `Indexer.HandleReceiptIdSubmitted` | subgraph/src/pacificramp.ts:207-218 | Sets receiptId. Everything else is kept, and status is "Receipt Submitted" only on creation. |
| `Indexer.HandleOnRampRequested` | subgraph/src/pacificramp.ts:220-228 | Always sets status "Requested", buyer and amount. Seller, channelId and receiptId of an existing record survive. |
| `IndexerProperties.RequestRedeliveryReopens` | subgraph/src/pacificramp.ts:37-52 | A redelivered request puts a COMPLETED off-ramp back to PENDING and keeps its fill fields. |
| `IndexerProperties.RefillOverwrites` | subgraph/src/pacificramp.ts:64-72 | A second fill overwrites the fill fields with the later event's values. The status stays COMPLETED and the request fields are unchanged. |
| `IndexerProperties.EarlyFillIsDropped` | subgraph/src/pacificramp.ts:54-62 | A fill before its request is lost: after the request the off-ramp is PENDING with no fill. |
| `IndexerProperties.ApplyIdempotent` | subgraph/src/pacificramp.ts:37-241 | Delivering any event twice in a row equals delivering it once. |
| `IndexerProperties.RequestOfframpIdempotent` | subgraph/src/pacificramp.ts:37-52 | The request handler applied twice equals once. |
| `IndexerProperties.FillOfframpIdempotent` | subgraph/src/pacificramp.ts:54-73 | The fill handler applied twice equals once. |
| `IndexerProperties.NewTaskCreatedIdempotent` | subgraph/src/pacificramp.ts:75-91 | The task-creation handler applied twice equals once. |
| `IndexerProperties.TaskRespondedIdempotent` | subgraph/src/pacificramp.ts:93-131 | The response handler applied twice equals once, because the second delivery finds the task COMPLETED. |
| `IndexerProperties.TransferIdempotent` | subgraph/src/pacificramp.ts:133-147 | The transfer handler applied twice equals once. |
| `IndexerProperties.MintIdempotent` | subgraph/src/pacificramp.ts:149-163 | The mint handler applied twice equals once. |
| `IndexerProperties.WithdrawIdempotent` | subgraph/src/pacificramp.ts:165-177 | The withdraw handler applied twice equals once. |
| `IndexerProperties.OnRampAcceptedIdempotent` | subgraph/src/pacificramp.ts:179-191 | The acceptance handler applied twice equals once. |
| `IndexerProperties.OnRampCompletedIdempotent` | subgraph/src/pacificramp.ts:193-205 | The completion handler applied twice equals once. |
| `IndexerProperties.ReceiptIdSubmittedIdempotent` | subgraph/src/pacificramp.ts:207-218 | The receipt handler applied twice equals once. |
| `IndexerProperties.OnRampRequestedIdempotent` | subgraph/src/pacificramp.ts:220-228 | The on-ramp request handler applied twice equals once. |
| `IndexerProperties.StakeSettledIdempotent` | subgraph/src/pacificramp.ts:230-241 | The stake handler applied twice equals once. |
| `IndexerProperties.TaskResponseCountedOnce` | subgraph/src/pacificramp.ts:103-130 | The same response delivered twice raises the operator's counter by exactly one. |
| `IndexerProperties.ApplyKeeps` | subgraph/src/pacificramp.ts:37-241 | No handler deletes a record or lowers a counter. Ids stay derived from the records, and only a task response touches operators. |
| `IndexerProperties.RequestOfframpStep` | subgraph/src/pacificramp.ts:37-52 | The request handler keeps every key and counter, and operators are unchanged. |
| `IndexerProperties.FillOfframpStep` | subgraph/src/pacificramp.ts:54-73 | The fill handler keeps every key and counter, and operators are unchanged. |
| `IndexerProperties.NewTaskCreatedStep` | subgraph/src/pacificramp.ts:75-91 | The task-creation handler keeps every key and counter, and operators are unchanged. |
| `IndexerProperties.TaskRespondedStep` | subgraph/src/pacificramp.ts:93-131 | The response handler keeps every key and counter, and keeps ids well-formed. |
| `IndexerProperties.TransferStep` | subgraph/src/pacificramp.ts:133-147 | The transfer handler keeps every key and counter, and operators are unchanged. |
| `IndexerProperties.MintStep` | subgraph/src/pacificramp.ts:149-163 | The mint handler keeps every key and counter, and operators are unchanged. |
| `IndexerProperties.WithdrawStep` | subgraph/src/pacificramp.ts:165-177 | The withdraw handler keeps every key and counter, and operators are unchanged. |
| `IndexerProperties.OnRampAcceptedStep` | subgraph/src/pacificramp.ts:179-191 | The acceptance handler keeps every key and counter, and operators are unchanged. |
| `IndexerProperties.OnRampCompletedStep` | subgraph/src/pacificramp.ts:193-205 | The completion handler keeps every key and counter, and operators are unchanged. |
| `IndexerProperties.ReceiptIdSubmittedStep` | subgraph/src/pacificramp.ts:207-218 | The receipt handler keeps every key and counter, and operators are unchanged. |
| `IndexerProperties.OnRampRequestedStep` | subgraph/src/pacificramp.ts:220-228 | The on-ramp request handler keeps every key and counter, and operators are unchanged. |
| `IndexerProperties.StakeSettledStep` | subgraph/src/pacificramp.ts:230-241 | The stake handler keeps every key and counter, and operators are unchanged. |
| `IndexerProperties.TaskRespondedKeepsKeys` | subgraph/src/pacificramp.ts:93-131 | A response deletes no record. |
| `IndexerProperties.TaskRespondedKeepsCounters` | subgraph/src/pacificramp.ts:103-124 | A response lowers no operator's counter. |
| `IndexerProperties.TaskRespondedWellKeyed` | subgraph/src/pacificramp.ts:107-123 | A response stores the operator under the hex of its own address. |
| `IndexerProperties.ApplyAllKeeps` | subgraph/src/pacificramp.ts:37-241 | Over any event stream nothing is deleted and every completed-task counter only grows. |
| `IndexerProperties.CounterMovesOnlyOnCompletion` | subgraph/src/pacificramp.ts:103-120 | A counter changes only when a response completes a PENDING task of that operator, and then by exactly one. |
| `IndexerProperties.ApplyAllWellKeyed` | subgraph/src/pacificramp.ts:37-241 | Over any event stream every record stays under the id its handler derives. |
| `IndexerProperties.ResponderRecorded` | subgraph/src/pacificramp.ts:107-112 | The operator record a response updates is the responder's own address. |
| `IndexerProperties.TasksIndependent` | subgraph/src/pacificramp.ts:75-91 | Creating one task never touches another task's record. |
| `IndexerProperties.TransfersInOneTxBothKept` | subgraph/src/pacificramp.ts:134-136 | Two transfers in one transaction at different log indexes are both kept. |
| `IndexerProperties.TaskRedeliveryRecounts` | subgraph/src/pacificramp.ts:75-131 | A redelivered task creation after a response puts the task back to PENDING with the operator kept. A second response then raises the operator's counter by two in total. |
| `IndexerProperties.StakesInOneTxCollide` | subgraph/src/pacificramp.ts:231 | Two stake settlements in one transaction share a key, so only the later one survives. |
| `OnrampTable.DeriveStatus` | frontend/src/pages/OnrampPage/_components/TableOnramp.tsx:166-173 | The status is PENDING exactly when seller is null. It is COMPLETE exactly when there is a seller and a truthy receipt id, and IN_PROGRESS otherwise. |
| `OnrampTable.StatusReadsOnlySellerAndReceipt` | frontend/src/pages/OnrampPage/_components/TableOnramp.tsx:166-173 | Rows that agree on seller and receipt id show the same status; the stored status field is never read. |
| `OnrampTable.ActionCell` | frontend/src/pages/OnrampPage/_components/TableOnramp.tsx:201-215 | The cell shows "-" exactly when seller and receipt id are both non-null, and "Take Action" otherwise. |
| `OnrampTable.StatusVersusAction` | frontend/src/pages/OnrampPage/_components/TableOnramp.tsx:166-215 | PENDING rows are always actionable and COMPLETE rows never are. An empty receipt id shows IN_PROGRESS with no action. |
| `OnrampTable.FormsFollowAction` | frontend/src/pages/OnrampPage/_components/TableOnramp.tsx:254-306 | The two forms are never shown together, and one is shown exactly when the row is actionable. |
| `OnrampTable.ClickAction` | frontend/src/pages/OnrampPage/_components/TableOnramp.tsx:46-48 | Only an actionable row can become the selection. |
| `OnrampTable.HandleAccept` | frontend/src/pages/OnrampPage/_components/TableOnramp.tsx:50-76 | acceptOnRamp is called exactly with a selection and a non-empty channel id; otherwise the missing-input toast appears and the state is unchanged. After the call the selection and the channel input are cleared whatever the write's outcome. The hook's toasts come first, then the page's own toast from the render's flags, with a refetch exactly when that render saw the write confirmed. |
| `OnrampTable.HandleSubmit` | frontend/src/pages/OnrampPage/_components/TableOnramp.tsx:78-104 | submitReceiptId is called exactly with a selection and a non-empty receipt id. After the call the selection and the receipt input are cleared whatever the write's outcome. The toasts and the refetch follow the same rule as for acceptance. |
| `OnrampTable.FailedWriteClosesForms` | frontend/src/pages/OnrampPage/_components/TableOnramp.tsx:50-104 | The page state and the call do not depend on the write's outcome. After any write no form is shown. |
| `OnrampTable.FailedWriteCanReportFill` | frontend/src/pages/OnrampPage/_components/TableOnramp.tsx:59-61 | A failed write whose render saw an earlier write confirmed shows the hook's error, then "Onramp filled successfully!", and refetches. |
| `FillHooks.HookToasts` | frontend/src/hooks/useFillOnRamp.ts:20-78 | The hook shows its success text exactly when the write was sent; otherwise it shows the error's message or the generic text. It repeats the captured `swapError` when set, and never rejects. `handleSwap` in useFillOffRamp.ts (lines 20-49) follows the same rule. |
| `FillHooks.AfterWrite` | frontend/src/pages/OnrampPage/_components/TableOnramp.tsx:58-64 | The page's toast is the confirmed text when the render's flags say confirmed, the pending text when they say pending, and nothing otherwise. |
| `OnrampAmount.StripNonDigits` | frontend/src/hooks/useOnramp.ts:25 | `replace(/\D/g, "")` keeps exactly the digits, in order. |
| `OnrampAmount.PaddedDigits` | frontend/src/hooks/useOnramp.ts:25 | The padded string is all digits, of length max(18, digit count). |
| `OnrampAmount.RequestedAmount` | frontend/src/hooks/useOnramp.ts:25 | The requested value is the integer the extracted digits spell; padding never changes it. |
| `OnrampAmount.PaddingKeepsDigits` | frontend/src/hooks/useOnramp.ts:25 | Padding only prepends zeros. Inputs with 18 or more digits are passed unchanged, not truncated. |
| `OnrampAmount.SeparatorDropped` | frontend/src/hooks/useOnramp.ts:25 | "12.50" requests 1250. |
| `OnrampAmount.NoDigitsRequestsZero` | frontend/src/hooks/useOnramp.ts:25 | An input without digits requests 0. |
| `OnrampAmount.HandleOnramp` | frontend/src/hooks/useOnramp.ts:18-41 | One write with the normalised amount. A failed write becomes an error toast and is never rethrown. |
| `SwapForm.AmlMessage` | frontend/src/pages/SwapPage/_components/SwapForm.tsx:125-129 | The message is the address, then " is requesting to offramp ", then the amount, then " USD from Binance", with the exact total length. |
| `SwapForm.AmlMessageDeterminesAmount` | frontend/src/pages/SwapPage/_components/SwapForm.tsx:125-129 | For a fixed address the message determines the amount asked about. |
| `SwapForm.AmlVerdict` | frontend/src/pages/SwapPage/_components/SwapForm.tsx:137 | Approved exactly when "SAFE" occurs in the reply. |
| `SwapForm.NotSafeIsApproved` | frontend/src/pages/SwapPage/_components/SwapForm.tsx:137 | A reply containing "NOT_SAFE" is approved. |
| `SwapForm.NoCapitalSIsRejected` | frontend/src/pages/SwapPage/_components/SwapForm.tsx:137 | A reply without a capital S is rejected. |
| `SwapForm.EmptyTextIsRejected` | frontend/src/pages/SwapPage/_components/SwapForm.tsx:137 | "Empty Text" is rejected. |
| `SwapForm.SubmitGuard` | frontend/src/pages/SwapPage/_components/SwapForm.tsx:101-113 | The guards fire in order: insufficient balance, then no bank, then a whitespace-only account. No guard fires exactly when all three pass. |
| `SwapForm.HandleSubmit` | frontend/src/pages/SwapPage/_components/SwapForm.tsx:101-156 | The AML request is made exactly when the guards pass. A rejected request ends the submit with no verdict, no toast and no swap. The swap is called only on an approved verdict, with (amount, bank name, account). |
| `SwapForm.IsSubmitDisabled` | frontend/src/pages/SwapPage/_components/SwapForm.tsx:165-182 | The `isSubmitDisabled` memo holds exactly when pending, confirming, short of balance, with an empty amount, no bank, or a blank account. It does not read `isAMLLoading`. |
| `SwapForm.ButtonDisabled` | frontend/src/pages/SwapPage/_components/SwapForm.tsx:331 | The button is disabled whenever `isAMLLoading` is set, and otherwise exactly when the memo holds. |
| `SwapForm.BeginSubmit` | frontend/src/pages/SwapPage/_components/SwapForm.tsx:101-117 | A submit that passes the guards raises `isAMLLoading`; a failing guard leaves the form unchanged. Nothing else changes. |
| `SwapForm.TimerFires` | frontend/src/pages/SwapPage/_components/SwapForm.tsx:120-121 | The timer callback clears `isAMLLoading` before sending the request. Nothing else changes. |
| `SwapForm.ButtonReenabledBeforeVerdict` | frontend/src/pages/SwapPage/_components/SwapForm.tsx:114-135 | After a passing submit the button is disabled under the "Submit" label. Once the timer fires it is enabled again, with the guards still passing, while the AML request is in flight. |
| `SwapForm.ButtonTextAgreesWithGuards` | frontend/src/pages/SwapPage/_components/SwapForm.tsx:184-204 | The label names the first failing guard, in the same order as the submit guards. The memo holds exactly when the label is not "Submit" or the amount is empty. The button is disabled exactly then or during the AML delay. |
| `AmlAgent.MessageText` | agent/src/index.ts:12 | `message ?? "Empty"` replaces only a missing message. |
| `AmlAgent.ModelContent` | agent/src/index.ts:49 | Missing content is replaced by "{}". |
| `AmlAgent.HandleChat` | agent/src/index.ts:11-17 | "Empty Text" is returned exactly for a missing or "Empty" message. Otherwise the parsed model reply is returned, or the request fails when parsing fails. |
| `AmlAgent.EmptyRequestIgnoresModel` | agent/src/index.ts:12-13 | On a missing or "Empty" message the model is not consulted. |
| `AmlAgent.OtherRequestsConsultModel` | agent/src/index.ts:15-16 | Every other message is answered from the model's reply to it. |
| `AmlAgent.EmptyStringIsForwarded` | agent/src/index.ts:12-15 | The empty string is not nullish and goes to the model. |
| `AmlAgent.MissingContentParsesEmptyObject` | agent/src/index.ts:49 | A reply without content is parsed as "{}". |
| `OperatorCli.RandomIndex` | operator/src/createNewTasks.ts:122 | `Math.floor(Math.random() * 6)` lies in [0, 6). |
| `OperatorCli.GenerateRandomData` | operator/src/createNewTasks.ts:95-128 | All four components come from one common row of the parallel arrays, and the amount is positive. |
| `OperatorCli.GeneratedRowsAreConsistent` | operator/src/createNewTasks.ts:95-128 | The transaction id of generated data determines the whole tuple. |
| `OperatorCli.TaskPlan` | operator/src/createNewTasks.ts:157-204 | Approve to the service manager, then mint, then requestOfframp, all with the same amount. The request carries the user address and the hashed channel account and id. |
| `OperatorCli.CreateNewTask` | operator/src/createNewTasks.ts:132-215 | The calls made are a prefix of the plan ending at the first failing step, and every earlier step succeeded. The task completes exactly when all three succeed. The calls equal the reference `Attempted`. |
| `OperatorCli.Attempted` | operator/src/createNewTasks.ts:159-214 | A reference definition: the steps up to and including the first failure. |
| `OperatorCli.AttemptedIsFirstFailurePrefix` | operator/src/createNewTasks.ts:169-174 | Any prefix that stops at the first failure is the reference run. |
| `OperatorCli.FailedApprovalStopsTask` | operator/src/createNewTasks.ts:169-174 | A failed approval means nothing is minted and no off-ramp is requested. |
| `OperatorCli.ResponseToRequest` | operator/src/createNewTasks.ts:218-236 | A single fill for the id, with the current data's raw channel id and transaction id. |
| `OperatorCli.MonitorNewOfframp` | operator/src/createNewTasks.ts:242-250 | Exactly one fill per notification, in arrival order. |
| `OperatorCli.MonitorIsPerNotification` | operator/src/createNewTasks.ts:242-250 | The fills for two batches of notifications are the fills of their concatenation. |
| `UserTables.FilteredSwaps` | frontend/src/pages/SwapPage/_components/TableSwap.tsx:37-43 | Empty without an address or data. Otherwise an order-preserving subsequence of the caller's off-ramps, compared case-insensitively. It has as many rows as the caller owns, duplicates included. |
| `UserTables.FilteredStakes` | frontend/src/pages/WithdrawPage/_components/TableStake.tsx:113-119 | The same rule as for swaps, over stakes, with the length equal to the number of the caller's stakes. |
| `UserTables.OwnedSwapsDetermined` | frontend/src/pages/SwapPage/_components/TableSwap.tsx:37-43 | Any order-preserving selection of the caller's off-ramps with as many rows as they own is exactly the filtered table. |
| `UserTables.FilteredMints` | frontend/src/pages/MintPage/_components/TableMint.tsx:37 | The whole list, unfiltered, with a truthy address and data; otherwise empty. |
| `UserTables.SwapShownIffOwned` | frontend/src/pages/SwapPage/_components/TableSwap.tsx:39-42 | An off-ramp is listed exactly when it is in the data and belongs to the caller. |
| `UserTables.StakeShownIffOwned` | frontend/src/pages/WithdrawPage/_components/TableStake.tsx:115-118 | A stake is listed exactly when it is in the data and belongs to the caller. |
| `UserTables.FilteredSwapsNoLonger` | frontend/src/pages/SwapPage/_components/TableSwap.tsx:39 | The filtered list is never longer than the data. |
| `UserTables.ToLowerIdempotent` | frontend/src/pages/SwapPage/_components/TableSwap.tsx:41 | Lower-casing twice is lower-casing once. |
| `UserTables.FilterIgnoresAddressCase` | frontend/src/pages/SwapPage/_components/TableSwap.tsx:41 | A checksummed and a lower-case address select the same rows. |
| `UserTables.TextCell` | frontend/src/pages/WithdrawPage/_components/TableStake.tsx:35 | "-" exactly for an empty value, else the value. |
| `UserTables.CopyCell` | frontend/src/pages/WithdrawPage/_components/TableStake.tsx:43-44 | "-" exactly for a falsy value, else the copyable value. |
| `UserTables.StakeRow` | frontend/src/pages/WithdrawPage/_components/TableStake.tsx:20-89 | The row number is index + 1. Provider and amount use the text rule; hash and user use the copy rule. |
| `UserTables.StakeCellsShowRowValues` | frontend/src/pages/WithdrawPage/_components/TableStake.tsx:35-73 | Every non-dash cell carries the row's own value: the text of the provider and amount cells, and the copied value of the hash and user cells. |
| `ProofTable.SelectRow` | frontend/src/pages/ProofPage/_components/TableProof.tsx:48-52 | Only a PENDING row becomes the selection; any other click leaves the page unchanged. |
| `ProofTable.StartSubmit` | frontend/src/pages/ProofPage/_components/TableProof.tsx:54-59 | The fill is started exactly with both ids and a selection. Otherwise an error toast appears and nothing changes. |
| `ProofTable.SettleFill` | frontend/src/pages/ProofPage/_components/TableProof.tsx:59-71 | Once the fill hook returns, the page is back to its initial state whatever the write's outcome: not submitting, inputs empty, nothing selected. The toasts are the hook's, then the page's own from the render's flags. |
| `ProofTable.Step` | frontend/src/pages/ProofPage/_components/TableProof.tsx:48-153 | A fill call is issued only by a submit while the form is shown and not submitting, with the selected row and the typed ids. |
| `ProofTable.StepKeepsInvariant` | frontend/src/pages/ProofPage/_components/TableProof.tsx:48-84 | Every action keeps the selection null or PENDING, and an in-flight fill has both ids. |
| `ProofTable.RunKeepsInvariant` | frontend/src/pages/ProofPage/_components/TableProof.tsx:17-84 | From the initial page, after any actions, the invariant holds and every fill was for a PENDING row with both ids. |
| `ProofTable.FormShownIffSelected` | frontend/src/pages/ProofPage/_components/TableProof.tsx:95 | Under the invariant, the form is shown exactly when a row is selected. |
| `ProofTable.NonPendingClickIgnored` | frontend/src/pages/ProofPage/_components/TableProof.tsx:48-52 | A click on a non-PENDING row changes nothing. |
| `ProofTable.FailedFillMustBeReentered` | frontend/src/pages/ProofPage/_components/TableProof.tsx:54-80 | After a failed fill the page is initial and the error toast is shown. A second submit issues nothing until a row is selected again. |
| `StakeForm.InsufficientBalance` | frontend/src/pages/WithdrawPage/_components/StakeComponent.tsx:84-90 | False while the balance is unknown or the amount empty; otherwise the balance comparison. |
| `StakeForm.HandleSubmit` | frontend/src/pages/WithdrawPage/_components/StakeComponent.tsx:128-155 | A failed guard sends nothing and shows one error. Otherwise the approval (USDM, spender PacificRamp, amount) goes first. The stake (same amount, selected provider) follows exactly when the approval resolves. The dialog opens exactly then. The stake shows its success text, or the error's message or the generic failure text. |
| `StakeForm.StakeFollowsApproval` | frontend/src/pages/WithdrawPage/_components/StakeComponent.tsx:145-151 | Every stake call directly follows an approval of the same amount. |
| `StakeForm.DialogIgnoresStakeOutcome` | frontend/src/pages/WithdrawPage/_components/StakeComponent.tsx:102-120 | The dialog and the calls do not depend on whether the stake succeeded. |
| `StakeForm.ButtonDisabled` | frontend/src/pages/WithdrawPage/_components/StakeComponent.tsx:273-279 | Disabled exactly when the amount is empty, there is no provider, the balance is short, or a write is pending. |
| `StakeForm.ButtonEnabledIffGuardAndIdle` | frontend/src/pages/WithdrawPage/_components/StakeComponent.tsx:128-139 | The button is enabled exactly when the submit guard passes and no write is pending. |
| `StakeForm.InitialFormIsDisabled` | frontend/src/pages/WithdrawPage/_components/StakeComponent.tsx:66-69 | The first render is disabled and its balance check quiet. |
| `WithdrawStepper.NextStep` | frontend/src/pages/WithdrawPage/Index.tsx:13-17 | Next increments only below step 1. |
| `WithdrawStepper.PreviousStep` | frontend/src/pages/WithdrawPage/Index.tsx:19-23 | Previous decrements only above step 0. |
| `WithdrawStepper.DisabledIsNoOp` | frontend/src/pages/WithdrawPage/Index.tsx:28-31 | A disabled button's handler would change nothing. |
| `WithdrawStepper.RunStaysInRange` | frontend/src/pages/WithdrawPage/Index.tsx:11-23 | From step 0 the step stays in 0..1 and is fixed by the last press. |
| `WithdrawStepper.Render` | frontend/src/pages/WithdrawPage/Index.tsx:36-43 | Step 0 shows the withdrawal; any other step shows staking plus the stake table. |
| `WithdrawStepper.StakeShownAfterNext` | frontend/src/pages/WithdrawPage/Index.tsx:11-43 | Staking is shown exactly after a Next press. |
| `Scenarios.ToRow` | frontend/src/pages/OnrampPage/_components/TableOnramp.tsx:166-173 | The row the table receives keeps seller presence and the receipt id of the stored on-ramp. |
| `Scenarios.RequestThenFill` | subgraph/src/pacificramp.ts:37-73 | A request and then its fill give a COMPLETED off-ramp with the fill's receiver and the requested amount. |
| `Scenarios.FillWithoutRequest` | subgraph/src/pacificramp.ts:54-62 | A fill with no request creates nothing. |
| `Scenarios.TaskAnsweredTwice` | subgraph/src/pacificramp.ts:75-131 | A created task answered twice gives its operator one completed task. |
| `Scenarios.ReceiptBeforeAcceptance` | frontend/src/pages/OnrampPage/_components/TableOnramp.tsx:166-173 | A receipt indexed before any acceptance leaves the row PENDING and still open to acceptance. |
| `Scenarios.StatusIgnoresArrivalOrder` | subgraph/src/pacificramp.ts:179-218 | Acceptance and receipt in either order give the same displayed status, COMPLETE exactly for a non-empty receipt id. The stored `status` field does differ by order. |

## Left out

- **I/O in general.** HTTP, GraphQL queries (`query.ts`), ethers and wagmi plumbing, event subscriptions, file and ABI reads, dotenv, console output, spinners, toasts' timing and `setTimeout` delays are all left out. Writes are abstract outcomes, and the subscription is the sequence of notification ids.
- SwapForm.HandleSubmit: models one submit at a time. The button is enabled again once the timer fires, while the AML request is still in flight (`SwapForm.ButtonReenabledBeforeVerdict`). A second submit can then start a second AML check and a second `handleSwap`; the interleaving of two submits is not modelled. The `amlResult` and `showAMLResult` display states are not modelled either.
- **The busy-wait in `handleOnramp`.** The `while (!isSwapConfirmed)` loop polls a value captured at render time, which is React semantics rather than logic. `OnrampAmount.HandleOnramp` shows no toast after a successful write, since the success toast only follows that wait.
- **Hook flags read from an earlier render.** The pages' "filled successfully" and "pending" toasts read `isSwapConfirmed` and `isSwapPending` from the render that created the handler. The hooks' `swapError` is read the same way. The model takes these values as parameters and does not derive them from earlier writes.
- **The pages' `catch` blocks** in the on-ramp and proof tables are unreachable because the hooks never reject, so they are not modelled.
- **Floating-point currency conversion** (`parseFloat`, `* 16100`, `toFixed`) in the swap and on-ramp forms: floating point.
- **`convertBigIntToNumber` and `BigInt(stakeAmount)`.** Their code is not part of this model. The comparison is a predicate parameter, and a `BigInt` parse error on a non-integer amount is not modelled.
- **The swap form's `insufficientBalance` hook.** It is not part of this model; the form takes it as an input flag.
- **The stake form's provider selector.** `StakeForm.HandleSubmit` takes the selection as an input. In the source it starts at the first option and is never cleared.
- **Network failures of the model call.** The agent's JSON output is an uninterpreted parse function. A request that fails before parsing is not distinguished from a parse failure.
- **`OperatorCli.RandomIndex`** reasons over real numbers, not IEEE doubles. For every double `Math.random()` can return, the floor of the product is still at most 5.
- **`hashIt`** (keccak256 of UTF-8) is an uninterpreted function.
- **Locale-sensitive lower-casing** (`toLocaleLowerCase`) is modelled as ASCII lower-casing. Hex addresses are ASCII.
- **AssemblyScript integer widths.** `BigInt` values are unbounded, as in graph-ts. `logIndex.toI32()` is modelled only for indexes below 2^31, which is the range a log index takes.
- **Events of other contracts.** Events the subgraph file imports but has no handler for are outside the model, as are the subgraph manifest and schema.
- **UI components without logic:** MintForm, OnrampForm, the proof columns and modal, layout, routing and constants.

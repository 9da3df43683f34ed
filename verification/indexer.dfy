/** The subgraph's entity store and its event handlers. Each handler is a pure transition
    `Store x Event -> Store`. `Entity.load(id)` is a map lookup; `entity.save()` merges the
    fields the handler set into the record stored under that id (creating it if absent),
    which is how the graph node upserts. */
module Indexer {
  import opened Base
  import opened ByteStrings
  import opened Text

  const STATUS_PENDING: string := "PENDING"
  const STATUS_COMPLETED: string := "COMPLETED"

  /** Position of a log in the chain. */
  datatype Block = Block(number: nat, timestamp: nat)

  // ---------------------------------------------------------------- entities

  /** An off-ramp request; the fill fields stay absent until a fill is indexed. */
  datatype OffRamp = OffRamp(
    id: Bytes,
    user: Bytes,
    requestedAmount: nat,
    requestedAmountRealWorld: nat,
    channelAccount: Bytes,
    channelId: Bytes,
    blockNumber: nat,
    blockTimestamp: nat,
    transactionHash: Bytes,
    status: string,
    receiver: Option<Bytes>,
    proof: Option<Bytes>,
    reclaimProof: Option<Bytes>,
    fillBlockNumber: Option<nat>,
    fillBlockTimestamp: Option<nat>,
    fillTransactionHash: Option<Bytes>)

  /** An operator task; `operator` and `respondedAt` are set when it is answered. */
  datatype Task = Task(
    taskIndex: nat,
    channelId: string,
    transactionId: string,
    requestOfframpId: Bytes,
    receiver: Bytes,
    taskCreatedBlock: nat,
    offrampRequest: string,
    status: string,
    createdAt: nat,
    transactionHash: Bytes,
    respondedAt: Option<nat>,
    operator: Option<string>)

  /** Per-operator statistics, created on the operator's first answered task. */
  datatype Operator = Operator(address: Bytes, totalTasksCompleted: nat, lastActiveTimestamp: nat)

  /** An on-ramp request assembled from up to four event kinds. */
  datatype OnRamp = OnRamp(
    onRampId: Bytes,
    status: string,
    buyer: Option<Bytes>,
    amount: Option<nat>,
    channelId: Option<string>,
    seller: Option<Bytes>,
    receiptId: Option<string>)

  datatype Transfer = Transfer(from: Bytes, to: string, value: nat, blockNumber: nat, blockTimestamp: nat, transactionHash: Bytes)

  datatype Mint = Mint(user: Bytes, amount: nat, blockNumber: nat, blockTimestamp: nat, transactionHash: Bytes)

  datatype Withdraw = Withdraw(user: Bytes, amount: nat, blockNumber: nat, blockTimestamp: nat, transactionHash: Bytes)

  datatype Stake = Stake(user: Bytes, amount: nat, provider: string, blockNumber: nat, blockTimestamp: nat, transactionHash: Bytes)

  /** One table per entity type, keyed by entity id. */
  datatype Store = Store(
    offRamps: map<Bytes, OffRamp>,
    tasks: map<string, Task>,
    operators: map<string, Operator>,
    onRamps: map<Bytes, OnRamp>,
    transfers: map<Bytes, Transfer>,
    mints: map<Bytes, Mint>,
    withdraws: map<Bytes, Withdraw>,
    stakes: map<string, Stake>)

  const EmptyStore: Store := Store(map[], map[], map[], map[], map[], map[], map[], map[])

  // ---------------------------------------------------------------- events

  /** The decoded parameters of the events this file handles. */
  datatype Params =
    | RequestOfframpEvent(requestOfframpId: Bytes, user: Bytes, amount: nat, amountRealWorld: nat,
                          channelAccount: Bytes, channelId: Bytes)
    | FillOfframpEvent(requestOfframpId: Bytes, receiver: Bytes, proof: Bytes, reclaimProof: Bytes)
    | NewTaskCreatedEvent(taskIndex: nat, taskChannelId: string, transactionId: string,
                          taskRequestOfframpId: Bytes, taskReceiver: Bytes, taskCreatedBlock: nat)
    | TaskRespondedEvent(respondedTaskIndex: nat, operator: Bytes)
    | TransferEvent(from: Bytes, to: Bytes, value: nat)
    | MintEvent(mintUser: Bytes, mintAmount: nat)
    | WithdrawEvent(withdrawUser: Bytes, withdrawAmount: nat)
    | OnRampAccepted(acceptedId: Bytes, acceptedChannelId: string, seller: Bytes)
    | OnRampCompleted(completedId: Bytes, completedBuyer: Bytes, completedAmount: nat)
    | ReceiptIdSubmitted(receiptOnRampId: Bytes, receiptId: string)
    | OnRampRequested(requestedId: Bytes, requestedBuyer: Bytes, requestedAmount: nat)
    | StakeSettled(stakeUser: Bytes, stakeAmount: nat, provider: string)

  /** A log as delivered to a handler: its block, transaction hash, log index and parameters. */
  datatype Event = Event(block: Block, txHash: Bytes, logIndex: LogIndex, params: Params)

  // ---------------------------------------------------------------- shared predicates

  /** `m2` is `m1` with at most the entry at `k` written, and that entry is present. */
  predicate WritesOnly<K, V(==)>(m1: map<K, V>, m2: map<K, V>, k: K) {
    k in m2 && m2 == m1[k := m2[k]]
  }

  /** The fields fixed by the request: a fill never touches them. */
  predicate SameRequestFields(o1: OffRamp, o2: OffRamp) {
    && o1.id == o2.id && o1.user == o2.user
    && o1.requestedAmount == o2.requestedAmount && o1.requestedAmountRealWorld == o2.requestedAmountRealWorld
    && o1.channelAccount == o2.channelAccount && o1.channelId == o2.channelId
    && o1.blockNumber == o2.blockNumber && o1.blockTimestamp == o2.blockTimestamp
    && o1.transactionHash == o2.transactionHash
  }

  /** The fields fixed by a fill. */
  predicate SameFillFields(o1: OffRamp, o2: OffRamp) {
    && o1.receiver == o2.receiver && o1.proof == o2.proof && o1.reclaimProof == o2.reclaimProof
    && o1.fillBlockNumber == o2.fillBlockNumber && o1.fillBlockTimestamp == o2.fillBlockTimestamp
    && o1.fillTransactionHash == o2.fillTransactionHash
  }

  /** Entity ids derived from events. */
  function TaskId(taskIndex: nat): string { DecimalString(taskIndex) }

  function OperatorId(operator: Bytes): string { HexString(operator) }

  function LedgerId(e: Event): Bytes { ConcatI32(e.txHash, e.logIndex) }

  function StakeId(e: Event): string { HexString(e.txHash) }

  // ---------------------------------------------------------------- off-ramp handlers

  /** `handleRequestOfframp`: writes the request fields under the request id with status PENDING.
      There is no existence check, so a redelivered request on a completed off-ramp sets it back
      to PENDING while the fill fields of the earlier record survive the merge. */
  function HandleRequestOfframp(s: Store, e: Event): (s': Store)
    requires e.params.RequestOfframpEvent?
    ensures var p := e.params;
      && WritesOnly(s.offRamps, s'.offRamps, p.requestOfframpId)
      && s' == s.(offRamps := s'.offRamps)
    ensures var p := e.params; var o := s'.offRamps[p.requestOfframpId];
      && o.id == p.requestOfframpId && o.user == p.user
      && o.requestedAmount == p.amount && o.requestedAmountRealWorld == p.amountRealWorld
      && o.channelAccount == p.channelAccount && o.channelId == p.channelId
      && o.blockNumber == e.block.number && o.blockTimestamp == e.block.timestamp
      && o.transactionHash == e.txHash
      && o.status == STATUS_PENDING
    ensures var id := e.params.requestOfframpId;
      id in s.offRamps ==> SameFillFields(s.offRamps[id], s'.offRamps[id])
    ensures var o := s'.offRamps[e.params.requestOfframpId];
      e.params.requestOfframpId !in s.offRamps ==>
        o.receiver.None? && o.proof.None? && o.reclaimProof.None?
        && o.fillBlockNumber.None? && o.fillBlockTimestamp.None? && o.fillTransactionHash.None?
  {
    var p := e.params;
    var id := p.requestOfframpId;
    var base := if id in s.offRamps then s.offRamps[id]
                else OffRamp(id, [], 0, 0, [], [], 0, 0, [], "", None, None, None, None, None, None);
    var o := base.(id := id, user := p.user, requestedAmount := p.amount,
                   requestedAmountRealWorld := p.amountRealWorld,
                   channelAccount := p.channelAccount, channelId := p.channelId,
                   blockNumber := e.block.number, blockTimestamp := e.block.timestamp,
                   transactionHash := e.txHash, status := STATUS_PENDING);
    s.(offRamps := s.offRamps[id := o])
  }

  /** `handleFillOfframp`: an unknown id is logged and dropped (nothing is created and nothing is
      buffered); a known off-ramp gets the fill fields and status COMPLETED, whatever its status was. */
  function HandleFillOfframp(s: Store, e: Event): (s': Store)
    requires e.params.FillOfframpEvent?
    ensures e.params.requestOfframpId !in s.offRamps ==> s' == s
    ensures var id := e.params.requestOfframpId;
      id in s.offRamps ==>
        && WritesOnly(s.offRamps, s'.offRamps, id)
        && s' == s.(offRamps := s'.offRamps)
        && SameRequestFields(s.offRamps[id], s'.offRamps[id])
        && s'.offRamps[id].receiver == Some(e.params.receiver)
        && s'.offRamps[id].proof == Some(e.params.proof)
        && s'.offRamps[id].reclaimProof == Some(e.params.reclaimProof)
        && s'.offRamps[id].fillBlockNumber == Some(e.block.number)
        && s'.offRamps[id].fillBlockTimestamp == Some(e.block.timestamp)
        && s'.offRamps[id].fillTransactionHash == Some(e.txHash)
        && s'.offRamps[id].status == STATUS_COMPLETED
  {
    var p := e.params;
    var id := p.requestOfframpId;
    if id !in s.offRamps then s
    else
      var o := s.offRamps[id].(receiver := Some(p.receiver), proof := Some(p.proof),
                               reclaimProof := Some(p.reclaimProof),
                               fillBlockNumber := Some(e.block.number),
                               fillBlockTimestamp := Some(e.block.timestamp),
                               fillTransactionHash := Some(e.txHash),
                               status := STATUS_COMPLETED);
      s.(offRamps := s.offRamps[id := o])
  }

  // ---------------------------------------------------------------- task handlers

  /** `handleNewTaskCreated`: writes the task under the decimal string of its index with status
      PENDING, linked to the off-ramp by the hex string of the request id. */
  function HandleNewTaskCreated(s: Store, e: Event): (s': Store)
    requires e.params.NewTaskCreatedEvent?
    ensures var id := TaskId(e.params.taskIndex);
      && WritesOnly(s.tasks, s'.tasks, id)
      && s' == s.(tasks := s'.tasks)
    ensures var p := e.params; var t := s'.tasks[TaskId(p.taskIndex)];
      && t.taskIndex == p.taskIndex && t.channelId == p.taskChannelId
      && t.transactionId == p.transactionId && t.requestOfframpId == p.taskRequestOfframpId
      && t.receiver == p.taskReceiver && t.taskCreatedBlock == p.taskCreatedBlock
      && t.offrampRequest == HexString(p.taskRequestOfframpId)
      && t.status == STATUS_PENDING
      && t.createdAt == e.block.timestamp && t.transactionHash == e.txHash
  {
    var p := e.params;
    var id := TaskId(p.taskIndex);
    var base := if id in s.tasks then s.tasks[id]
                else Task(0, "", "", [], [], 0, "", "", 0, [], None, None);
    var t := base.(taskIndex := p.taskIndex, channelId := p.taskChannelId,
                   transactionId := p.transactionId, requestOfframpId := p.taskRequestOfframpId,
                   receiver := p.taskReceiver, taskCreatedBlock := p.taskCreatedBlock,
                   offrampRequest := HexString(p.taskRequestOfframpId),
                   status := STATUS_PENDING, createdAt := e.block.timestamp,
                   transactionHash := e.txHash);
    s.(tasks := s.tasks[id := t])
  }

  /** Completed-task count of an operator id, 0 when the operator does not exist yet. */
  function CompletedCount(s: Store, opId: string): nat {
    if opId in s.operators then s.operators[opId].totalTasksCompleted else 0
  }

  /** `handleTaskResponded`: an unknown task is logged and ignored; a PENDING task becomes
      COMPLETED and its operator (created at 0 when absent) gains exactly one completed task;
      a task in any other status is logged and left as it is, together with the operator. */
  function HandleTaskResponded(s: Store, e: Event): (s': Store)
    requires e.params.TaskRespondedEvent?
    ensures var id := TaskId(e.params.respondedTaskIndex);
      id !in s.tasks || s.tasks[id].status != STATUS_PENDING ==> s' == s
    ensures var id := TaskId(e.params.respondedTaskIndex); var opId := OperatorId(e.params.operator);
      id in s.tasks && s.tasks[id].status == STATUS_PENDING ==>
        && WritesOnly(s.tasks, s'.tasks, id)
        && WritesOnly(s.operators, s'.operators, opId)
        && s' == s.(tasks := s'.tasks, operators := s'.operators)
        && s'.tasks[id] == s.tasks[id].(status := STATUS_COMPLETED,
                                        respondedAt := Some(e.block.timestamp),
                                        operator := Some(opId))
        && s'.operators[opId].totalTasksCompleted == CompletedCount(s, opId) + 1
        && s'.operators[opId].lastActiveTimestamp == e.block.timestamp
        && s'.operators[opId].address ==
             (if opId in s.operators then s.operators[opId].address else e.params.operator)
  {
    var p := e.params;
    var id := TaskId(p.respondedTaskIndex);
    if id !in s.tasks then s
    else if s.tasks[id].status != STATUS_PENDING then s
    else
      var opId := OperatorId(p.operator);
      var op := if opId in s.operators then s.operators[opId] else Operator(p.operator, 0, 0);
      var op' := op.(totalTasksCompleted := op.totalTasksCompleted + 1,
                     lastActiveTimestamp := e.block.timestamp);
      var t := s.tasks[id].(status := STATUS_COMPLETED, respondedAt := Some(e.block.timestamp),
                            operator := Some(opId));
      s.(tasks := s.tasks[id := t], operators := s.operators[opId := op'])
  }

  // ---------------------------------------------------------------- ledger handlers

  /** `handleTransfer`: a new record keyed by transaction hash ++ log index. */
  function HandleTransfer(s: Store, e: Event): (s': Store)
    requires e.params.TransferEvent?
    ensures WritesOnly(s.transfers, s'.transfers, LedgerId(e)) && s' == s.(transfers := s'.transfers)
    ensures s'.transfers[LedgerId(e)] ==
      Transfer(e.params.from, HexString(e.params.to), e.params.value, e.block.number, e.block.timestamp, e.txHash)
  {
    var p := e.params;
    s.(transfers := s.transfers[LedgerId(e) :=
       Transfer(p.from, HexString(p.to), p.value, e.block.number, e.block.timestamp, e.txHash)])
  }

  /** `handleMint`: a new record keyed by transaction hash ++ log index. */
  function HandleMint(s: Store, e: Event): (s': Store)
    requires e.params.MintEvent?
    ensures WritesOnly(s.mints, s'.mints, LedgerId(e)) && s' == s.(mints := s'.mints)
    ensures s'.mints[LedgerId(e)] ==
      Mint(e.params.mintUser, e.params.mintAmount, e.block.number, e.block.timestamp, e.txHash)
  {
    var p := e.params;
    s.(mints := s.mints[LedgerId(e) := Mint(p.mintUser, p.mintAmount, e.block.number, e.block.timestamp, e.txHash)])
  }

  /** `handleWithdraw`: a new record keyed by transaction hash ++ log index. */
  function HandleWithdraw(s: Store, e: Event): (s': Store)
    requires e.params.WithdrawEvent?
    ensures WritesOnly(s.withdraws, s'.withdraws, LedgerId(e)) && s' == s.(withdraws := s'.withdraws)
    ensures s'.withdraws[LedgerId(e)] ==
      Withdraw(e.params.withdrawUser, e.params.withdrawAmount, e.block.number, e.block.timestamp, e.txHash)
  {
    var p := e.params;
    s.(withdraws := s.withdraws[LedgerId(e) :=
       Withdraw(p.withdrawUser, p.withdrawAmount, e.block.number, e.block.timestamp, e.txHash)])
  }

  /** `handleStakeSettled`: a record keyed by the transaction hash alone. */
  function HandleStakeSettled(s: Store, e: Event): (s': Store)
    requires e.params.StakeSettled?
    ensures WritesOnly(s.stakes, s'.stakes, StakeId(e)) && s' == s.(stakes := s'.stakes)
    ensures s'.stakes[StakeId(e)] ==
      Stake(e.params.stakeUser, e.params.stakeAmount, e.params.provider, e.block.number, e.block.timestamp, e.txHash)
  {
    var p := e.params;
    s.(stakes := s.stakes[StakeId(e) :=
       Stake(p.stakeUser, p.stakeAmount, p.provider, e.block.number, e.block.timestamp, e.txHash)])
  }

  // ---------------------------------------------------------------- on-ramp handlers

  /** `OnRamp.load(id)`, or a new record carrying `status` when there is none. */
  function LoadOrCreateOnRamp(s: Store, id: Bytes, status: string): OnRamp {
    if id in s.onRamps then s.onRamps[id] else OnRamp(id, status, None, None, None, None, None)
  }

  /** `handleOnRampAccepted`: sets channelId and seller; the status is written only on creation. */
  function HandleOnRampAccepted(s: Store, e: Event): (s': Store)
    requires e.params.OnRampAccepted?
    ensures var id := e.params.acceptedId;
      WritesOnly(s.onRamps, s'.onRamps, id) && s' == s.(onRamps := s'.onRamps)
    ensures var id := e.params.acceptedId; var o := s'.onRamps[id];
      && o.channelId == Some(e.params.acceptedChannelId) && o.seller == Some(e.params.seller)
      && (id in s.onRamps ==>
            o.onRampId == s.onRamps[id].onRampId && o.status == s.onRamps[id].status && o.buyer == s.onRamps[id].buyer
            && o.amount == s.onRamps[id].amount && o.receiptId == s.onRamps[id].receiptId)
      && (id !in s.onRamps ==>
            o.onRampId == id && o.status == "Accepted" && o.buyer.None? && o.amount.None? && o.receiptId.None?)
  {
    var id := e.params.acceptedId;
    var o := LoadOrCreateOnRamp(s, id, "Accepted");
    s.(onRamps := s.onRamps[id := o.(channelId := Some(e.params.acceptedChannelId),
                                     seller := Some(e.params.seller))])
  }

  /** `handleOnRampCompleted`: sets buyer and amount; the status is written only on creation. */
  function HandleOnRampCompleted(s: Store, e: Event): (s': Store)
    requires e.params.OnRampCompleted?
    ensures var id := e.params.completedId;
      WritesOnly(s.onRamps, s'.onRamps, id) && s' == s.(onRamps := s'.onRamps)
    ensures var id := e.params.completedId; var o := s'.onRamps[id];
      && o.buyer == Some(e.params.completedBuyer) && o.amount == Some(e.params.completedAmount)
      && (id in s.onRamps ==>
            o.onRampId == s.onRamps[id].onRampId && o.status == s.onRamps[id].status && o.channelId == s.onRamps[id].channelId
            && o.seller == s.onRamps[id].seller && o.receiptId == s.onRamps[id].receiptId)
      && (id !in s.onRamps ==>
            o.onRampId == id && o.status == "Completed" && o.channelId.None? && o.seller.None? && o.receiptId.None?)
  {
    var id := e.params.completedId;
    var o := LoadOrCreateOnRamp(s, id, "Completed");
    s.(onRamps := s.onRamps[id := o.(buyer := Some(e.params.completedBuyer),
                                     amount := Some(e.params.completedAmount))])
  }

  /** `handleReceiptIdSubmitted`: sets receiptId; the status is written only on creation. */
  function HandleReceiptIdSubmitted(s: Store, e: Event): (s': Store)
    requires e.params.ReceiptIdSubmitted?
    ensures var id := e.params.receiptOnRampId;
      WritesOnly(s.onRamps, s'.onRamps, id) && s' == s.(onRamps := s'.onRamps)
    ensures var id := e.params.receiptOnRampId; var o := s'.onRamps[id];
      && o.receiptId == Some(e.params.receiptId)
      && (id in s.onRamps ==>
            o.onRampId == s.onRamps[id].onRampId && o.status == s.onRamps[id].status && o.channelId == s.onRamps[id].channelId
            && o.seller == s.onRamps[id].seller && o.buyer == s.onRamps[id].buyer
            && o.amount == s.onRamps[id].amount)
      && (id !in s.onRamps ==>
            o.onRampId == id && o.status == "Receipt Submitted" && o.channelId.None? && o.seller.None?
            && o.buyer.None? && o.amount.None?)
  {
    var id := e.params.receiptOnRampId;
    var o := LoadOrCreateOnRamp(s, id, "Receipt Submitted");
    s.(onRamps := s.onRamps[id := o.(receiptId := Some(e.params.receiptId))])
  }

  /** `handleOnRampRequested`: always sets status "Requested", buyer and amount; seller, channelId
      and receiptId of an existing record survive the merge. */
  function HandleOnRampRequested(s: Store, e: Event): (s': Store)
    requires e.params.OnRampRequested?
    ensures var id := e.params.requestedId;
      WritesOnly(s.onRamps, s'.onRamps, id) && s' == s.(onRamps := s'.onRamps)
    ensures var id := e.params.requestedId; var o := s'.onRamps[id];
      && o.onRampId == id && o.status == "Requested"
      && o.buyer == Some(e.params.requestedBuyer) && o.amount == Some(e.params.requestedAmount)
      && (id in s.onRamps ==>
            o.channelId == s.onRamps[id].channelId && o.seller == s.onRamps[id].seller
            && o.receiptId == s.onRamps[id].receiptId)
      && (id !in s.onRamps ==> o.channelId.None? && o.seller.None? && o.receiptId.None?)
  {
    var id := e.params.requestedId;
    var o := LoadOrCreateOnRamp(s, id, "Requested");
    s.(onRamps := s.onRamps[id := o.(onRampId := id, status := "Requested", buyer := Some(e.params.requestedBuyer),
                                     amount := Some(e.params.requestedAmount))])
  }

  // ---------------------------------------------------------------- dispatch

  /** Routes an event to its handler, as the subgraph manifest does. */
  function Apply(s: Store, e: Event): Store {
    match e.params
    case RequestOfframpEvent(_, _, _, _, _, _) => HandleRequestOfframp(s, e)
    case FillOfframpEvent(_, _, _, _) => HandleFillOfframp(s, e)
    case NewTaskCreatedEvent(_, _, _, _, _, _) => HandleNewTaskCreated(s, e)
    case TaskRespondedEvent(_, _) => HandleTaskResponded(s, e)
    case TransferEvent(_, _, _) => HandleTransfer(s, e)
    case MintEvent(_, _) => HandleMint(s, e)
    case WithdrawEvent(_, _) => HandleWithdraw(s, e)
    case OnRampAccepted(_, _, _) => HandleOnRampAccepted(s, e)
    case OnRampCompleted(_, _, _) => HandleOnRampCompleted(s, e)
    case ReceiptIdSubmitted(_, _) => HandleReceiptIdSubmitted(s, e)
    case OnRampRequested(_, _, _) => HandleOnRampRequested(s, e)
    case StakeSettled(_, _, _) => HandleStakeSettled(s, e)
  }

  /** Applies a stream of events in delivery order. */
  function ApplyAll(s: Store, events: seq<Event>): Store
    decreases |events|
  {
    if events == [] then s else ApplyAll(Apply(s, events[0]), events[1..])
  }
}

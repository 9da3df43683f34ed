/** Properties of the subgraph handlers over single events and over event streams. */
module IndexerProperties {
  import opened Base
  import opened ByteStrings
  import opened Text
  import opened Indexer

  // ---------------------------------------------------------------- off-ramps

  /** Redelivering a request for an off-ramp that was already filled puts it back to PENDING;
      the fill fields written earlier are kept by the merge. */
  lemma RequestRedeliveryReopens(s: Store, e: Event)
    requires e.params.RequestOfframpEvent?
    requires e.params.requestOfframpId in s.offRamps
    requires s.offRamps[e.params.requestOfframpId].status == STATUS_COMPLETED
    ensures var o := Apply(s, e).offRamps[e.params.requestOfframpId];
      o.status == STATUS_PENDING && SameFillFields(s.offRamps[e.params.requestOfframpId], o)
  {
  }

  /** A second fill for the same off-ramp overwrites every fill field with the later event's
      values; the status stays COMPLETED and the request fields stay as they were. */
  lemma {:induction false} RefillOverwrites(s: Store, e1: Event, e2: Event)
    requires e1.params.FillOfframpEvent? && e2.params.FillOfframpEvent?
    requires e1.params.requestOfframpId == e2.params.requestOfframpId
    requires e1.params.requestOfframpId in s.offRamps
    ensures var id := e1.params.requestOfframpId; var o := Apply(Apply(s, e1), e2).offRamps[id];
      && o.status == STATUS_COMPLETED
      && SameRequestFields(s.offRamps[id], o)
      && o.receiver == Some(e2.params.receiver) && o.proof == Some(e2.params.proof)
      && o.reclaimProof == Some(e2.params.reclaimProof)
      && o.fillBlockNumber == Some(e2.block.number) && o.fillTransactionHash == Some(e2.txHash)
  {
  }

  /** A fill that arrives before its request is lost: applying the request afterwards yields an
      off-ramp that is PENDING with no fill fields. */
  lemma {:induction false} EarlyFillIsDropped(s: Store, fill: Event, req: Event)
    requires fill.params.FillOfframpEvent? && req.params.RequestOfframpEvent?
    requires fill.params.requestOfframpId == req.params.requestOfframpId
    requires fill.params.requestOfframpId !in s.offRamps
    ensures var o := Apply(Apply(s, fill), req).offRamps[req.params.requestOfframpId];
      o.status == STATUS_PENDING && o.receiver.None? && o.fillTransactionHash.None?
  {
  }

  // ---------------------------------------------------------------- idempotence

  /** Delivering the same event twice in a row leaves the store as one delivery does, for every
      event kind. */
  lemma ApplyIdempotent(s: Store, e: Event)
    ensures Apply(Apply(s, e), e) == Apply(s, e)
  {
    match e.params {
      case RequestOfframpEvent(_, _, _, _, _, _) => RequestOfframpIdempotent(s, e);
      case FillOfframpEvent(_, _, _, _) => FillOfframpIdempotent(s, e);
      case NewTaskCreatedEvent(_, _, _, _, _, _) => NewTaskCreatedIdempotent(s, e);
      case TaskRespondedEvent(_, _) => TaskRespondedIdempotent(s, e);
      case TransferEvent(_, _, _) => TransferIdempotent(s, e);
      case MintEvent(_, _) => MintIdempotent(s, e);
      case WithdrawEvent(_, _) => WithdrawIdempotent(s, e);
      case OnRampAccepted(_, _, _) => OnRampAcceptedIdempotent(s, e);
      case OnRampCompleted(_, _, _) => OnRampCompletedIdempotent(s, e);
      case ReceiptIdSubmitted(_, _) => ReceiptIdSubmittedIdempotent(s, e);
      case OnRampRequested(_, _, _) => OnRampRequestedIdempotent(s, e);
      case StakeSettled(_, _, _) => StakeSettledIdempotent(s, e);
    }
  }

  lemma RequestOfframpIdempotent(s: Store, e: Event)
    requires e.params.RequestOfframpEvent?
    ensures HandleRequestOfframp(HandleRequestOfframp(s, e), e) == HandleRequestOfframp(s, e)
  {
  }

  lemma FillOfframpIdempotent(s: Store, e: Event)
    requires e.params.FillOfframpEvent?
    ensures HandleFillOfframp(HandleFillOfframp(s, e), e) == HandleFillOfframp(s, e)
  {
  }

  lemma NewTaskCreatedIdempotent(s: Store, e: Event)
    requires e.params.NewTaskCreatedEvent?
    ensures HandleNewTaskCreated(HandleNewTaskCreated(s, e), e) == HandleNewTaskCreated(s, e)
  {
  }

  lemma TaskRespondedIdempotent(s: Store, e: Event)
    requires e.params.TaskRespondedEvent?
    ensures HandleTaskResponded(HandleTaskResponded(s, e), e) == HandleTaskResponded(s, e)
  {
  }

  lemma TransferIdempotent(s: Store, e: Event)
    requires e.params.TransferEvent?
    ensures HandleTransfer(HandleTransfer(s, e), e) == HandleTransfer(s, e)
  {
  }

  lemma MintIdempotent(s: Store, e: Event)
    requires e.params.MintEvent?
    ensures HandleMint(HandleMint(s, e), e) == HandleMint(s, e)
  {
  }

  lemma WithdrawIdempotent(s: Store, e: Event)
    requires e.params.WithdrawEvent?
    ensures HandleWithdraw(HandleWithdraw(s, e), e) == HandleWithdraw(s, e)
  {
  }

  lemma OnRampAcceptedIdempotent(s: Store, e: Event)
    requires e.params.OnRampAccepted?
    ensures HandleOnRampAccepted(HandleOnRampAccepted(s, e), e) == HandleOnRampAccepted(s, e)
  {
  }

  lemma OnRampCompletedIdempotent(s: Store, e: Event)
    requires e.params.OnRampCompleted?
    ensures HandleOnRampCompleted(HandleOnRampCompleted(s, e), e) == HandleOnRampCompleted(s, e)
  {
  }

  lemma ReceiptIdSubmittedIdempotent(s: Store, e: Event)
    requires e.params.ReceiptIdSubmitted?
    ensures HandleReceiptIdSubmitted(HandleReceiptIdSubmitted(s, e), e) == HandleReceiptIdSubmitted(s, e)
  {
  }

  lemma OnRampRequestedIdempotent(s: Store, e: Event)
    requires e.params.OnRampRequested?
    ensures HandleOnRampRequested(HandleOnRampRequested(s, e), e) == HandleOnRampRequested(s, e)
  {
  }

  lemma StakeSettledIdempotent(s: Store, e: Event)
    requires e.params.StakeSettled?
    ensures HandleStakeSettled(HandleStakeSettled(s, e), e) == HandleStakeSettled(s, e)
  {
  }

  /** The same task response delivered twice completes the task once and counts once. */
  lemma {:induction false} TaskResponseCountedOnce(s: Store, e: Event)
    requires e.params.TaskRespondedEvent?
    requires TaskId(e.params.respondedTaskIndex) in s.tasks
    requires s.tasks[TaskId(e.params.respondedTaskIndex)].status == STATUS_PENDING
    ensures var opId := OperatorId(e.params.operator);
      CompletedCount(Apply(Apply(s, e), e), opId) == CompletedCount(s, opId) + 1
  {
    ApplyIdempotent(s, e);
  }

  /** A task-creation event redelivered after the task was answered puts the task back to
      PENDING, keeping the recorded operator and response time; answering it again then counts the
      same task a second time for that operator. */
  lemma {:induction false} TaskRedeliveryRecounts(s: Store, created: Event, answer: Event)
    requires created.params.NewTaskCreatedEvent? && answer.params.TaskRespondedEvent?
    requires answer.params.respondedTaskIndex == created.params.taskIndex
    ensures var id := TaskId(created.params.taskIndex); var opId := OperatorId(answer.params.operator);
            var answered := Apply(Apply(s, created), answer);
            var reopened := Apply(answered, created);
            && answered.tasks[id].status == STATUS_COMPLETED
            && reopened.tasks[id].status == STATUS_PENDING
            && reopened.tasks[id].operator == Some(opId)
            && reopened.tasks[id].respondedAt == answered.tasks[id].respondedAt
            && CompletedCount(Apply(reopened, answer), opId) == CompletedCount(s, opId) + 2
  {
    var id := TaskId(created.params.taskIndex);
    var opId := OperatorId(answer.params.operator);
    var s1 := Apply(s, created);
    assert id in s1.tasks && s1.tasks[id].status == STATUS_PENDING;
    assert CompletedCount(s1, opId) == CompletedCount(s, opId);
    var answered := Apply(s1, answer);
    assert CompletedCount(answered, opId) == CompletedCount(s, opId) + 1;
    var reopened := Apply(answered, created);
    assert reopened.operators == answered.operators;
    assert id in reopened.tasks && reopened.tasks[id].status == STATUS_PENDING;
  }

  // ---------------------------------------------------------------- no entity is deleted

  /** Every table of `s2` contains every id of the same table of `s1`. */
  predicate KeysKept(s1: Store, s2: Store) {
    && s1.offRamps.Keys <= s2.offRamps.Keys
    && s1.tasks.Keys <= s2.tasks.Keys
    && s1.operators.Keys <= s2.operators.Keys
    && s1.onRamps.Keys <= s2.onRamps.Keys
    && s1.transfers.Keys <= s2.transfers.Keys
    && s1.mints.Keys <= s2.mints.Keys
    && s1.withdraws.Keys <= s2.withdraws.Keys
    && s1.stakes.Keys <= s2.stakes.Keys
  }

  /** No operator disappears and no completed-task counter goes down. */
  predicate CountersKept(s1: Store, s2: Store) {
    forall k :: k in s1.operators ==>
      k in s2.operators && s1.operators[k].totalTasksCompleted <= s2.operators[k].totalTasksCompleted
  }

  /** What every handler guarantees: no id disappears, no counter goes down, ids stay
      derived from the records they hold, and only a task response touches operators. */
  predicate StepFacts(s: Store, s': Store, isResponse: bool) {
    && KeysKept(s, s')
    && CountersKept(s, s')
    && (WellKeyed(s) ==> WellKeyed(s'))
    && (!isResponse ==> s'.operators == s.operators)
  }

  /** Which handler `Apply` routes each of the off-ramp and task events to. */
  lemma ApplyRoutesOffRamp(s: Store, e: Event)
    ensures e.params.RequestOfframpEvent? ==> Apply(s, e) == HandleRequestOfframp(s, e)
    ensures e.params.FillOfframpEvent? ==> Apply(s, e) == HandleFillOfframp(s, e)
    ensures e.params.NewTaskCreatedEvent? ==> Apply(s, e) == HandleNewTaskCreated(s, e)
    ensures e.params.TaskRespondedEvent? ==> Apply(s, e) == HandleTaskResponded(s, e)
  {
  }

  /** Which handler `Apply` routes each of the token and stake events to. */
  lemma ApplyRoutesLedger(s: Store, e: Event)
    ensures e.params.TransferEvent? ==> Apply(s, e) == HandleTransfer(s, e)
    ensures e.params.MintEvent? ==> Apply(s, e) == HandleMint(s, e)
    ensures e.params.WithdrawEvent? ==> Apply(s, e) == HandleWithdraw(s, e)
    ensures e.params.StakeSettled? ==> Apply(s, e) == HandleStakeSettled(s, e)
  {
  }

  /** Which handler `Apply` routes each of the on-ramp events to. */
  lemma ApplyRoutesOnRamp(s: Store, e: Event)
    ensures e.params.OnRampAccepted? ==> Apply(s, e) == HandleOnRampAccepted(s, e)
    ensures e.params.OnRampCompleted? ==> Apply(s, e) == HandleOnRampCompleted(s, e)
    ensures e.params.ReceiptIdSubmitted? ==> Apply(s, e) == HandleReceiptIdSubmitted(s, e)
    ensures e.params.OnRampRequested? ==> Apply(s, e) == HandleOnRampRequested(s, e)
  {
  }

  lemma ApplyKeeps(s: Store, e: Event)
    ensures StepFacts(s, Apply(s, e), e.params.TaskRespondedEvent?)
  {
    ApplyRoutesOffRamp(s, e);
    ApplyRoutesLedger(s, e);
    ApplyRoutesOnRamp(s, e);
    match e.params {
      case RequestOfframpEvent(_, _, _, _, _, _) => RequestOfframpStep(s, e);
      case FillOfframpEvent(_, _, _, _) => FillOfframpStep(s, e);
      case NewTaskCreatedEvent(_, _, _, _, _, _) => NewTaskCreatedStep(s, e);
      case TaskRespondedEvent(_, _) => TaskRespondedStep(s, e);
      case TransferEvent(_, _, _) => TransferStep(s, e);
      case MintEvent(_, _) => MintStep(s, e);
      case WithdrawEvent(_, _) => WithdrawStep(s, e);
      case OnRampAccepted(_, _, _) => OnRampAcceptedStep(s, e);
      case OnRampCompleted(_, _, _) => OnRampCompletedStep(s, e);
      case ReceiptIdSubmitted(_, _) => ReceiptIdSubmittedStep(s, e);
      case OnRampRequested(_, _, _) => OnRampRequestedStep(s, e);
      case StakeSettled(_, _, _) => StakeSettledStep(s, e);
    }
  }

  lemma RequestOfframpStep(s: Store, e: Event)
    requires e.params.RequestOfframpEvent?
    ensures StepFacts(s, HandleRequestOfframp(s, e), false)
  {
  }

  lemma FillOfframpStep(s: Store, e: Event)
    requires e.params.FillOfframpEvent?
    ensures StepFacts(s, HandleFillOfframp(s, e), false)
  {
  }

  lemma NewTaskCreatedStep(s: Store, e: Event)
    requires e.params.NewTaskCreatedEvent?
    ensures StepFacts(s, HandleNewTaskCreated(s, e), false)
  {
  }

  lemma TaskRespondedStep(s: Store, e: Event)
    requires e.params.TaskRespondedEvent?
    ensures StepFacts(s, HandleTaskResponded(s, e), true)
  {
    TaskRespondedKeepsKeys(s, e);
    TaskRespondedKeepsCounters(s, e);
    if WellKeyed(s) {
      TaskRespondedWellKeyed(s, e);
    }
  }

  lemma TransferStep(s: Store, e: Event)
    requires e.params.TransferEvent?
    ensures StepFacts(s, HandleTransfer(s, e), false)
  {
    var k := LedgerId(e);
    assert |k| >= 4 && k[..|k| - 4] == HandleTransfer(s, e).transfers[k].transactionHash;
  }

  lemma MintStep(s: Store, e: Event)
    requires e.params.MintEvent?
    ensures StepFacts(s, HandleMint(s, e), false)
  {
    var k := LedgerId(e);
    assert |k| >= 4 && k[..|k| - 4] == HandleMint(s, e).mints[k].transactionHash;
  }

  lemma WithdrawStep(s: Store, e: Event)
    requires e.params.WithdrawEvent?
    ensures StepFacts(s, HandleWithdraw(s, e), false)
  {
    var k := LedgerId(e);
    assert |k| >= 4 && k[..|k| - 4] == HandleWithdraw(s, e).withdraws[k].transactionHash;
  }

  lemma OnRampAcceptedStep(s: Store, e: Event)
    requires e.params.OnRampAccepted?
    ensures StepFacts(s, HandleOnRampAccepted(s, e), false)
  {
  }

  lemma OnRampCompletedStep(s: Store, e: Event)
    requires e.params.OnRampCompleted?
    ensures StepFacts(s, HandleOnRampCompleted(s, e), false)
  {
  }

  lemma ReceiptIdSubmittedStep(s: Store, e: Event)
    requires e.params.ReceiptIdSubmitted?
    ensures StepFacts(s, HandleReceiptIdSubmitted(s, e), false)
  {
  }

  lemma OnRampRequestedStep(s: Store, e: Event)
    requires e.params.OnRampRequested?
    ensures StepFacts(s, HandleOnRampRequested(s, e), false)
  {
  }

  lemma StakeSettledStep(s: Store, e: Event)
    requires e.params.StakeSettled?
    ensures StepFacts(s, HandleStakeSettled(s, e), false)
  {
  }

  lemma TaskRespondedKeepsKeys(s: Store, e: Event)
    requires e.params.TaskRespondedEvent?
    ensures KeysKept(s, HandleTaskResponded(s, e))
  {
  }

  lemma TaskRespondedKeepsCounters(s: Store, e: Event)
    requires e.params.TaskRespondedEvent?
    ensures CountersKept(s, HandleTaskResponded(s, e))
  {
  }

  lemma TaskRespondedWellKeyed(s: Store, e: Event)
    requires e.params.TaskRespondedEvent? && WellKeyed(s)
    ensures WellKeyed(HandleTaskResponded(s, e))
  {
    TaskRespondedTasksKeyed(s, e);
    TaskRespondedOperatorsKeyed(s, e);
  }

  lemma TaskRespondedTasksKeyed(s: Store, e: Event)
    requires e.params.TaskRespondedEvent?
    requires forall k :: k in s.tasks ==> k == TaskId(s.tasks[k].taskIndex)
    ensures var s' := HandleTaskResponded(s, e);
      forall k :: k in s'.tasks ==> k == TaskId(s'.tasks[k].taskIndex)
  {
    var s' := HandleTaskResponded(s, e);
    var id := TaskId(e.params.respondedTaskIndex);
    if id in s.tasks && s.tasks[id].status == STATUS_PENDING {
      assert s'.tasks[id].taskIndex == s.tasks[id].taskIndex;
    }
  }

  lemma TaskRespondedOperatorsKeyed(s: Store, e: Event)
    requires e.params.TaskRespondedEvent?
    requires forall k :: k in s.operators ==> k == OperatorId(s.operators[k].address)
    ensures var s' := HandleTaskResponded(s, e);
      forall k :: k in s'.operators ==> k == OperatorId(s'.operators[k].address)
  {
    var s' := HandleTaskResponded(s, e);
    var id := TaskId(e.params.respondedTaskIndex);
    if id in s.tasks && s.tasks[id].status == STATUS_PENDING {
      var opId := OperatorId(e.params.operator);
      assert opId == OperatorId(s'.operators[opId].address);
    }
  }

  /** Over any stream of events nothing is deleted and every operator's completed-task counter
      only grows. */
  lemma {:induction false} ApplyAllKeeps(s: Store, events: seq<Event>)
    ensures KeysKept(s, ApplyAll(s, events))
    ensures CountersKept(s, ApplyAll(s, events))
    decreases |events|
  {
    if events != [] {
      var s1 := Apply(s, events[0]);
      ApplyKeeps(s, events[0]);
      ApplyAllKeeps(s1, events[1..]);
    }
  }

  /** An operator's counter changes only when a response completes a PENDING task of theirs,
      and then by exactly one. */
  lemma CounterMovesOnlyOnCompletion(s: Store, e: Event, opId: string)
    requires CompletedCount(Apply(s, e), opId) != CompletedCount(s, opId)
    ensures e.params.TaskRespondedEvent?
    ensures OperatorId(e.params.operator) == opId
    ensures TaskId(e.params.respondedTaskIndex) in s.tasks
    ensures s.tasks[TaskId(e.params.respondedTaskIndex)].status == STATUS_PENDING
    ensures CompletedCount(Apply(s, e), opId) == CompletedCount(s, opId) + 1
  {
    if !e.params.TaskRespondedEvent? {
      ApplyKeeps(s, e);
      assert false;
    } else {
      var s' := HandleTaskResponded(s, e);
      assert Apply(s, e) == s';
      var id := TaskId(e.params.respondedTaskIndex);
      assert id in s.tasks && s.tasks[id].status == STATUS_PENDING;
    }
  }

  // ---------------------------------------------------------------- ids

  /** Every record sits under the id its handler derives from the event. */
  predicate WellKeyed(s: Store) {
    && (forall k :: k in s.offRamps ==> s.offRamps[k].id == k)
    && (forall k :: k in s.tasks ==> k == TaskId(s.tasks[k].taskIndex))
    && (forall k :: k in s.operators ==> k == OperatorId(s.operators[k].address))
    && (forall k :: k in s.onRamps ==> s.onRamps[k].onRampId == k)
    && (forall k :: k in s.stakes ==> k == HexString(s.stakes[k].transactionHash))
    && (forall k :: k in s.transfers ==> |k| >= 4 && k[..|k| - 4] == s.transfers[k].transactionHash)
    && (forall k :: k in s.mints ==> |k| >= 4 && k[..|k| - 4] == s.mints[k].transactionHash)
    && (forall k :: k in s.withdraws ==> |k| >= 4 && k[..|k| - 4] == s.withdraws[k].transactionHash)
  }

  lemma {:induction false} ApplyAllWellKeyed(s: Store, events: seq<Event>)
    requires WellKeyed(s)
    ensures WellKeyed(ApplyAll(s, events))
    decreases |events|
  {
    if events != [] {
      ApplyKeeps(s, events[0]);
      ApplyAllWellKeyed(Apply(s, events[0]), events[1..]);
    }
  }

  /** In a well-keyed store the operator record a response updates is the responder's own. */
  lemma {:induction false} ResponderRecorded(s: Store, e: Event)
    requires WellKeyed(s)
    requires e.params.TaskRespondedEvent?
    requires TaskId(e.params.respondedTaskIndex) in s.tasks
    requires s.tasks[TaskId(e.params.respondedTaskIndex)].status == STATUS_PENDING
    ensures Apply(s, e).operators[OperatorId(e.params.operator)].address == e.params.operator
  {
    var opId := OperatorId(e.params.operator);
    var s' := HandleTaskResponded(s, e);
    ApplyRoutesOffRamp(s, e);
    assert s'.operators[opId].address ==
           (if opId in s.operators then s.operators[opId].address else e.params.operator);
    if opId in s.operators {
      assert forall k :: k in s.operators ==> k == OperatorId(s.operators[k].address);
      KeyedOperatorAddress(s.operators, e.params.operator);
    }
  }

  lemma KeyedOperatorAddress(operators: map<string, Operator>, address: Bytes)
    requires forall k :: k in operators ==> k == OperatorId(operators[k].address)
    requires OperatorId(address) in operators
    ensures operators[OperatorId(address)].address == address
  {
    var stored := operators[OperatorId(address)].address;
    HexStringInjective(stored, address);
  }

  /** Creating task `i` never touches the record of another task index. */
  lemma {:induction false} TasksIndependent(s: Store, e: Event, j: nat)
    requires e.params.NewTaskCreatedEvent? && e.params.taskIndex != j
    ensures TaskId(j) in Apply(s, e).tasks <==> TaskId(j) in s.tasks
    ensures TaskId(j) in s.tasks ==> Apply(s, e).tasks[TaskId(j)] == s.tasks[TaskId(j)]
  {
    DecimalStringInjective(e.params.taskIndex, j);
  }

  // ---------------------------------------------------------------- ledger keys

  /** Two transfers logged in one transaction at different log indexes are both kept. */
  lemma {:induction false} TransfersInOneTxBothKept(s: Store, e1: Event, e2: Event)
    requires e1.params.TransferEvent? && e2.params.TransferEvent?
    requires e1.txHash == e2.txHash && e1.logIndex != e2.logIndex
    ensures var s2 := Apply(Apply(s, e1), e2);
      && LedgerId(e1) in s2.transfers && LedgerId(e2) in s2.transfers
      && s2.transfers[LedgerId(e1)].value == e1.params.value
      && s2.transfers[LedgerId(e2)].value == e2.params.value
  {
    ConcatI32Injective(e1.txHash, e1.logIndex, e2.txHash, e2.logIndex);
  }

  /** Two stake settlements in one transaction share one key: only the later one is kept. */
  lemma {:induction false} StakesInOneTxCollide(s: Store, e1: Event, e2: Event)
    requires e1.params.StakeSettled? && e2.params.StakeSettled?
    requires e1.txHash == e2.txHash
    ensures var s2 := Apply(Apply(s, e1), e2);
      && s2.stakes == s.stakes[StakeId(e1) := s2.stakes[StakeId(e1)]]
      && s2.stakes[StakeId(e1)].amount == e2.params.stakeAmount
      && s2.stakes[StakeId(e1)].provider == e2.params.provider
  {
  }
}

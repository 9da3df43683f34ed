/** The operator command-line tool: the random task data, the approve -> mint -> requestOfframp
    sequence that stops at the first failing step, and the fill sent for every RequestOfframp
    notification. Chain calls are abstract: each call either goes through (its receipt arrives) or
    throws, as a caller-supplied predicate says. `hashIt` (keccak256 of the UTF-8 bytes) is an
    uninterpreted function. */
module OperatorCli {

  /** The tuple `[amount, channelId, channelAccount, transactionId]`. */
  datatype TaskData = TaskData(amount: nat, channelId: string, channelAccount: string, transactionId: string)

  /** The four parallel arrays of `generateRandomData`. */
  const AMOUNTS: seq<nat> := [1000000, 2000000, 3000000, 1000000, 2000000, 1500000]
  const CHANNEL_IDS: seq<string> := ["bca", "mandiri", "bni", "bca", "bni", "mandiri"]
  const CHANNEL_ACCOUNTS: seq<string> := ["111111", "222222", "333333", "444444", "343434", "78989"]
  const TRANSACTION_IDS: seq<string> := ["121", "122", "123", "124", "125", "126"]

  /** `Math.floor(u * amounts.length)` for a draw `u` of `Math.random()` in [0, 1). */
  function RandomIndex(u: real): (i: nat)
    requires 0.0 <= u < 1.0
    ensures i < |AMOUNTS|
    ensures i as real <= u * |AMOUNTS| as real < (i + 1) as real
  {
    (u * |AMOUNTS| as real).Floor
  }

  /** The row of the parallel arrays at one index. */
  function Row(i: nat): TaskData
    requires i < |AMOUNTS|
  {
    TaskData(AMOUNTS[i], CHANNEL_IDS[i], CHANNEL_ACCOUNTS[i], TRANSACTION_IDS[i])
  }

  /** All four components come from the same index, so a channel is never paired with another
      row's account or transaction. */
  function GenerateRandomData(u: real): (d: TaskData)
    requires 0.0 <= u < 1.0
    ensures exists i :: 0 <= i < |AMOUNTS| && d == Row(i)
    ensures d.amount > 0
  {
    Row(RandomIndex(u))
  }

  /** A generated tuple is one of the six rows and nothing else: its channel and transaction id
      pin down its account. */
  lemma GeneratedRowsAreConsistent(u: real, v: real)
    requires 0.0 <= u < 1.0 && 0.0 <= v < 1.0
    requires GenerateRandomData(u).transactionId == GenerateRandomData(v).transactionId
    ensures GenerateRandomData(u) == GenerateRandomData(v)
  {
    var i, j := RandomIndex(u), RandomIndex(v);
    assert TRANSACTION_IDS[i] == TRANSACTION_IDS[j];
    assert TRANSACTION_IDS[i][2] == TRANSACTION_IDS[j][2];
  }

  // ---------------------------------------------------------------- the task steps

  datatype OfframpParams = OfframpParams(
    user: string,
    amount: nat,
    amountRealWorld: nat,
    channelAccount: string,
    channelId: string)

  /** The contract calls the tool makes. */
  datatype Call =
    | Approve(spender: string, approveAmount: nat)
    | MintPacific(mintAmount: nat)
    | RequestOfframp(params: OfframpParams)
    | FillOfframp(requestOfframpId: string, fillChannelId: string, fillTransactionId: string)

  /** The addresses read from the environment and the deployment file. */
  datatype Config = Config(serviceManager: string, userAddress: string)

  /** The three steps of `createNewTask`, in order. */
  function TaskPlan(cfg: Config, amount: nat, channelId: string, channelAccount: string,
                    hashIt: string -> string): (p: seq<Call>)
    ensures |p| == 3
    ensures p[0].Approve? && p[1].MintPacific? && p[2].RequestOfframp?
    ensures p[0].spender == cfg.serviceManager
    ensures p[0].approveAmount == p[1].mintAmount == p[2].params.amount
            == p[2].params.amountRealWorld == amount
    ensures p[2].params.user == cfg.userAddress
    ensures p[2].params.channelAccount == hashIt(channelAccount)
    ensures p[2].params.channelId == hashIt(channelId)
  {
    [ Approve(cfg.serviceManager, amount),
      MintPacific(amount),
      RequestOfframp(OfframpParams(cfg.userAddress, amount, amount, hashIt(channelAccount), hashIt(channelId))) ]
  }

  /** `createNewTask`: runs the steps in order, awaiting each, and returns at the first one that
      throws. `attempted` lists the calls made; `completed` says whether all went through. */
  method CreateNewTask(cfg: Config, amount: nat, channelId: string, channelAccount: string,
                       transactionId: string, hashIt: string -> string, succeeds: Call -> bool)
    returns (attempted: seq<Call>, completed: bool)
    ensures var plan := TaskPlan(cfg, amount, channelId, channelAccount, hashIt);
            && 1 <= |attempted| <= |plan|
            && attempted == plan[..|attempted|]
            && (forall k :: 0 <= k < |attempted| - 1 ==> succeeds(attempted[k]))
            && (completed <==> |attempted| == |plan| && succeeds(attempted[|plan| - 1]))
            && (!completed ==> !succeeds(attempted[|attempted| - 1]))
            && attempted == Attempted(plan, succeeds)
  {
    var plan := TaskPlan(cfg, amount, channelId, channelAccount, hashIt);
    attempted := [];
    completed := true;
    var i := 0;
    while i < |plan| && completed
      invariant 0 <= i <= |plan|
      invariant attempted == plan[..i]
      invariant completed ==> forall k :: 0 <= k < i ==> succeeds(plan[k])
      invariant !completed ==> 1 <= i && (forall k :: 0 <= k < i - 1 ==> succeeds(plan[k])) && !succeeds(plan[i - 1])
    {
      attempted := attempted + [plan[i]];
      completed := succeeds(plan[i]);
      i := i + 1;
    }
    AttemptedIsFirstFailurePrefix(plan, succeeds, attempted);
  }

  /** A reference definition of the same sequencing: the calls made are the steps up to and
      including the first failing one. */
  function Attempted(plan: seq<Call>, succeeds: Call -> bool): (a: seq<Call>)
    ensures |a| <= |plan| && a == plan[..|a|]
    ensures |plan| > 0 ==> |a| > 0
    ensures forall k :: 0 <= k < |a| - 1 ==> succeeds(a[k])
    ensures |a| < |plan| ==> !succeeds(a[|a| - 1])
  {
    if plan == [] then []
    else if succeeds(plan[0]) then [plan[0]] + Attempted(plan[1..], succeeds)
    else [plan[0]]
  }

  /** The loop of `createNewTask` makes exactly the calls of the reference definition. */
  lemma {:induction false} AttemptedIsFirstFailurePrefix(plan: seq<Call>, succeeds: Call -> bool, a: seq<Call>)
    requires |plan| > 0 && 1 <= |a| <= |plan| && a == plan[..|a|]
    requires forall k :: 0 <= k < |a| - 1 ==> succeeds(a[k])
    requires |a| < |plan| ==> !succeeds(a[|a| - 1])
    ensures a == Attempted(plan, succeeds)
    decreases |plan|
  {
    if |a| == 1 {
      if succeeds(plan[0]) {
        assert |plan| == 1;
        assert Attempted(plan[1..], succeeds) == [];
      }
    } else {
      assert succeeds(plan[0]);
      AttemptedIsFirstFailurePrefix(plan[1..], succeeds, a[1..]);
      assert a == [plan[0]] + a[1..];
    }
  }

  /** A failing approval stops everything: no pUSD is minted and no off-ramp is requested. */
  lemma FailedApprovalStopsTask(cfg: Config, amount: nat, channelId: string, channelAccount: string,
                                hashIt: string -> string, succeeds: Call -> bool)
    requires !succeeds(Approve(cfg.serviceManager, amount))
    ensures Attempted(TaskPlan(cfg, amount, channelId, channelAccount, hashIt), succeeds)
            == [Approve(cfg.serviceManager, amount)]
  {
  }

  // ---------------------------------------------------------------- answering requests

  /** `responseToRequest`: one fill with the current data's raw channel id and transaction id. */
  function ResponseToRequest(requestOfframpId: string, current: TaskData): (c: Call)
    ensures c.FillOfframp? && c.requestOfframpId == requestOfframpId
    ensures c.fillChannelId == current.channelId && c.fillTransactionId == current.transactionId
  {
    FillOfframp(requestOfframpId, current.channelId, current.transactionId)
  }

  /** The fills sent while monitoring: each RequestOfframp notification, in arrival order, gets
      exactly one fill for its id; a failed fill is logged and never retried. */
  function MonitorNewOfframp(ids: seq<string>, current: TaskData): (calls: seq<Call>)
    ensures |calls| == |ids|
    ensures forall k :: 0 <= k < |ids| ==> calls[k] == ResponseToRequest(ids[k], current)
  {
    if ids == [] then []
    else [ResponseToRequest(ids[0], current)] + MonitorNewOfframp(ids[1..], current)
  }

  /** Notifications are answered independently: the fills for two batches are the fills for
      the concatenated batch. */
  lemma {:induction false} MonitorIsPerNotification(a: seq<string>, b: seq<string>, current: TaskData)
    ensures MonitorNewOfframp(a + b, current) == MonitorNewOfframp(a, current) + MonitorNewOfframp(b, current)
  {
  }
}

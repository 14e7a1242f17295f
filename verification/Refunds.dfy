/** Refunding expired orders: the timeout worker looks at the destination chain through
    nodes that may lag behind, while the chain goes on and orders are filled on it. */
module Refunds {
  import opened Basics

  /** A block of the destination chain: its time and the orders filled in it. */
  datatype Block = Block(time: int, fills: set<OrderId>)

  datatype OrderStatus = Pending | Filled | ExpiredPendingRefund | Refunded | Abandoned

  /** Where the timeout worker is. */
  datatype Worker = Idle | Expired(order: OrderId) | Sent(order: OrderId)

  /** `statuses` and `recorded` are the orders table and the timeout rows of submitted_txs;
      `timeouts` is the history of timeout txs sent. */
  datatype State = State(
    blocks: seq<Block>,
    statuses: map<OrderId, OrderStatus>,
    recorded: seq<OrderId>,
    worker: Worker,
    timeouts: seq<OrderId>)

  /** When each order times out. */
  datatype Config = Config(timeout: OrderId -> int)

  // ----- The chain and a node's view of it -----

  predicate FilledBy(blocks: seq<Block>, o: OrderId, height: nat)
    requires height < |blocks|
  {
    exists i :: 0 <= i <= height && o in blocks[i].fills
  }

  ghost predicate IsFilled(blocks: seq<Block>, o: OrderId) {
    exists i :: 0 <= i < |blocks| && o in blocks[i].fills
  }

  /** What the handler makes of an order, asking a node that is at `height`: the time it
      compares with the timeout is that of the very block it was answered from. */
  function StatusSeen(cfg: Config, blocks: seq<Block>, o: OrderId, height: nat, refunded: bool): OrderStatus
    requires height < |blocks|
  {
    if FilledBy(blocks, o, height) then Filled
    else if blocks[height].time > cfg.timeout(o) then (if refunded then Refunded else ExpiredPendingRefund)
    else Pending
  }

  // ----- Steps -----

  datatype Step =
    | NewBlock(block: Block)
    | Observe(order: OrderId, height: nat, refunded: bool)
    | WorkerObserve(order: OrderId, height: nat)
    | Abandon(order: OrderId)
    | InitiateTimeout
    | Record
    | GiveUp

  /** Block times do not decrease, and the contract takes no fill after the timeout. */
  ghost predicate DoNewBlock(cfg: Config, s: State, block: Block, s': State) {
    && (s.blocks != [] ==> s.blocks[|s.blocks| - 1].time <= block.time)
    && (forall o :: o in block.fills ==> block.time <= cfg.timeout(o))
    && s' == s.(blocks := s.blocks + [block])
  }

  /** Any loop updates the status of an order; a pending one is left as it is. */
  ghost predicate DoObserve(cfg: Config, s: State, o: OrderId, height: nat, refunded: bool, s': State) {
    && height < |s.blocks|
    && var status := StatusSeen(cfg, s.blocks, o, height, refunded);
    && s' == s.(statuses := if status == Pending then s.statuses else s.statuses[o := status])
  }

  /** The timeout worker, for an order it read as expired, finds it still is. */
  ghost predicate DoWorkerObserve(cfg: Config, s: State, o: OrderId, height: nat, s': State) {
    && s.worker == Idle && height < |s.blocks|
    && StatusSeen(cfg, s.blocks, o, height, false) == ExpiredPendingRefund
    && s' == s.(statuses := s.statuses[o := ExpiredPendingRefund], worker := Expired(o))
  }

  /** A fill worker gives an order up. */
  ghost predicate DoAbandon(s: State, o: OrderId, s': State) {
    s' == s.(statuses := s.statuses[o := Abandoned])
  }

  /** A timeout that was recorded is not sent again. */
  ghost predicate DoInitiateTimeout(s: State, s': State) {
    && s.worker.Expired?
    && if s.worker.order in s.recorded
       then s' == s.(worker := Idle)
       else s' == s.(worker := Sent(s.worker.order), timeouts := s.timeouts + [s.worker.order])
  }

  ghost predicate DoRecord(s: State, s': State) {
    s.worker.Sent? && s' == s.(recorded := s.recorded + [s.worker.order], worker := Idle)
  }

  /** An error, or a restart of the process. */
  ghost predicate DoGiveUp(s: State, s': State) {
    s' == s.(worker := Idle)
  }

  ghost predicate Next(cfg: Config, s: State, step: Step, s': State) {
    match step
    case NewBlock(block) => DoNewBlock(cfg, s, block, s')
    case Observe(o, height, refunded) => DoObserve(cfg, s, o, height, refunded, s')
    case WorkerObserve(o, height) => DoWorkerObserve(cfg, s, o, height, s')
    case Abandon(o) => DoAbandon(s, o, s')
    case InitiateTimeout => DoInitiateTimeout(s, s')
    case Record => DoRecord(s, s')
    case GiveUp => DoGiveUp(s, s')
  }

  ghost predicate Init(s: State) {
    s.blocks == [] && s.statuses == map[] && s.recorded == [] && s.worker == Idle && s.timeouts == []
  }

  datatype Run = Run(states: seq<State>, steps: seq<Step>)

  ghost predicate IsRun(cfg: Config, run: Run) {
    && |run.states| == |run.steps| + 1 && Init(run.states[0])
    && forall i :: 0 <= i < |run.steps| ==> Next(cfg, run.states[i], run.steps[i], run.states[i + 1])
  }

  // ----- The invariant -----

  ghost predicate ChainOk(cfg: Config, blocks: seq<Block>) {
    && (forall i, j :: 0 <= i <= j < |blocks| ==> blocks[i].time <= blocks[j].time)
    && (forall i, o :: 0 <= i < |blocks| && o in blocks[i].fills ==> blocks[i].time <= cfg.timeout(o))
  }

  /** Some block is past the timeout and the order was not filled up to it. */
  ghost predicate TooLate(cfg: Config, blocks: seq<Block>, o: OrderId) {
    exists h :: 0 <= h < |blocks| && blocks[h].time > cfg.timeout(o) && !FilledBy(blocks, o, h)
  }

  /** Then it is not filled in any block at all. */
  lemma TooLateIsFinal(cfg: Config, blocks: seq<Block>, o: OrderId)
    requires ChainOk(cfg, blocks) && TooLate(cfg, blocks, o)
    ensures !IsFilled(blocks, o)
  {
    var h :| 0 <= h < |blocks| && blocks[h].time > cfg.timeout(o) && !FilledBy(blocks, o, h);
    forall i | 0 <= i < |blocks| ensures o !in blocks[i].fills {
      if i > h {
        assert blocks[h].time <= blocks[i].time;
      }
    }
  }

  lemma TooLateStays(cfg: Config, blocks: seq<Block>, block: Block, o: OrderId)
    requires TooLate(cfg, blocks, o)
    ensures TooLate(cfg, blocks + [block], o)
  {
    var h :| 0 <= h < |blocks| && blocks[h].time > cfg.timeout(o) && !FilledBy(blocks, o, h);
    var more := blocks + [block];
    assert more[h] == blocks[h];
    forall i | 0 <= i <= h ensures o !in more[i].fills {
      assert more[i] == blocks[i];
    }
    assert !FilledBy(more, o, h);
  }

  lemma FilledStays(blocks: seq<Block>, block: Block, o: OrderId)
    requires IsFilled(blocks, o)
    ensures IsFilled(blocks + [block], o)
  {
    var i :| 0 <= i < |blocks| && o in blocks[i].fills;
    assert o in (blocks + [block])[i].fills;
  }

  ghost predicate StatusOk(cfg: Config, blocks: seq<Block>, o: OrderId, status: OrderStatus) {
    match status
    case Pending => true
    case Filled => IsFilled(blocks, o)
    case ExpiredPendingRefund => TooLate(cfg, blocks, o)
    case Refunded => TooLate(cfg, blocks, o)
    case Abandoned => true
  }

  ghost predicate StatusesOk(cfg: Config, s: State) {
    forall o :: o in s.statuses ==> StatusOk(cfg, s.blocks, o, s.statuses[o])
  }

  ghost predicate TimeoutsOk(cfg: Config, s: State) {
    && (forall i :: 0 <= i < |s.timeouts| ==> TooLate(cfg, s.blocks, s.timeouts[i]))
    && (s.worker != Idle ==> TooLate(cfg, s.blocks, s.worker.order))
  }

  ghost predicate RowsOk(s: State) {
    && (forall i, j :: 0 <= i < j < |s.recorded| ==> s.recorded[i] != s.recorded[j])
    && (s.worker.Sent? ==> s.worker.order !in s.recorded)
  }

  ghost predicate Inv(cfg: Config, s: State) {
    ChainOk(cfg, s.blocks) && StatusesOk(cfg, s) && TimeoutsOk(cfg, s) && RowsOk(s)
  }

  lemma NewBlockKeeps(cfg: Config, s: State, block: Block, s': State)
    requires Inv(cfg, s) && DoNewBlock(cfg, s, block, s')
    ensures Inv(cfg, s')
  {
    forall o | TooLate(cfg, s.blocks, o) ensures TooLate(cfg, s'.blocks, o) {
      TooLateStays(cfg, s.blocks, block, o);
    }
    forall o | IsFilled(s.blocks, o) ensures IsFilled(s'.blocks, o) {
      FilledStays(s.blocks, block, o);
    }
  }

  lemma SeenIsTrue(cfg: Config, blocks: seq<Block>, o: OrderId, height: nat, refunded: bool)
    requires height < |blocks|
    ensures StatusOk(cfg, blocks, o, StatusSeen(cfg, blocks, o, height, refunded))
  {
  }

  lemma StepKeeps(cfg: Config, s: State, step: Step, s': State)
    requires Inv(cfg, s) && Next(cfg, s, step, s')
    ensures Inv(cfg, s')
  {
    match step
    case NewBlock(block) => NewBlockKeeps(cfg, s, block, s');
    case Observe(o, height, refunded) => SeenIsTrue(cfg, s.blocks, o, height, refunded);
    case WorkerObserve(o, height) => SeenIsTrue(cfg, s.blocks, o, height, false);
    case Abandon(_) =>
    case InitiateTimeout =>
    case Record =>
    case GiveUp =>
  }

  // ----- Theorems -----

  lemma {:induction false} Reachable(cfg: Config, run: Run, i: nat)
    requires IsRun(cfg, run) && i < |run.states|
    ensures Inv(cfg, run.states[i])
  {
    if i > 0 {
      Reachable(cfg, run, i - 1);
      var before := i - 1;
      assert Next(cfg, run.states[before], run.steps[before], run.states[before + 1]);
      StepKeeps(cfg, run.states[before], run.steps[before], run.states[i]);
    }
  }

  lemma {:induction false} TimeoutsStay(cfg: Config, run: Run, i: nat, j: nat, o: OrderId)
    requires IsRun(cfg, run) && i <= j < |run.states| && o in run.states[i].timeouts
    ensures o in run.states[j].timeouts
    decreases j
  {
    if i < j {
      TimeoutsStay(cfg, run, i, j - 1, o);
      var before := j - 1;
      assert Next(cfg, run.states[before], run.steps[before], run.states[before + 1]);
    }
  }

  /** An order for which a timeout was ever sent is not filled at any time, earlier or later,
      in any run and however far behind the nodes were that were asked. */
  lemma NoTimeoutForFilled(cfg: Config, run: Run, i: nat, j: nat, o: OrderId)
    requires IsRun(cfg, run) && i < |run.states| && j < |run.states| && o in run.states[i].timeouts
    ensures !IsFilled(run.states[j].blocks, o)
  {
    var last := |run.states| - 1;
    TimeoutsStay(cfg, run, i, last, o);
    Reachable(cfg, run, last);
    var k :| 0 <= k < |run.states[last].timeouts| && run.states[last].timeouts[k] == o;
    TooLateIsFinal(cfg, run.states[last].blocks, o);
    if IsFilled(run.states[j].blocks, o) {
      FilledForGood(cfg, run, j, last, o);
    }
  }

  lemma {:induction false} FilledForGood(cfg: Config, run: Run, i: nat, j: nat, o: OrderId)
    requires IsRun(cfg, run) && i <= j < |run.states| && IsFilled(run.states[i].blocks, o)
    ensures IsFilled(run.states[j].blocks, o)
    decreases j
  {
    if i < j {
      FilledForGood(cfg, run, i, j - 1, o);
      var before := j - 1;
      assert Next(cfg, run.states[before], run.steps[before], run.states[before + 1]);
      if run.steps[before].NewBlock? {
        FilledStays(run.states[before].blocks, run.steps[before].block, o);
      }
    }
  }

  /** The status in the table is true of the chain itself, not of some node's view of it: a
      filled order is filled, one that expired or was refunded is not and never will be. */
  lemma StatusIsTrue(cfg: Config, run: Run, i: nat, o: OrderId)
    requires IsRun(cfg, run) && i < |run.states| && o in run.states[i].statuses
    ensures run.states[i].statuses[o] == Filled ==> IsFilled(run.states[i].blocks, o)
    ensures run.states[i].statuses[o] == ExpiredPendingRefund || run.states[i].statuses[o] == Refunded ==>
              forall j :: i <= j < |run.states| ==> !IsFilled(run.states[j].blocks, o)
  {
    Reachable(cfg, run, i);
    if run.states[i].statuses[o] == ExpiredPendingRefund || run.states[i].statuses[o] == Refunded {
      forall j | i <= j < |run.states| ensures !IsFilled(run.states[j].blocks, o) {
        LateForGood(cfg, run, i, j, o);
        Reachable(cfg, run, j);
        TooLateIsFinal(cfg, run.states[j].blocks, o);
      }
    }
  }

  lemma {:induction false} LateForGood(cfg: Config, run: Run, i: nat, j: nat, o: OrderId)
    requires IsRun(cfg, run) && i <= j < |run.states| && TooLate(cfg, run.states[i].blocks, o)
    ensures TooLate(cfg, run.states[j].blocks, o)
    decreases j
  {
    if i < j {
      LateForGood(cfg, run, i, j - 1, o);
      var before := j - 1;
      assert Next(cfg, run.states[before], run.steps[before], run.states[before + 1]);
      if run.steps[before].NewBlock? {
        TooLateStays(cfg, run.states[before].blocks, run.steps[before].block, o);
      }
    }
  }

  /** No order has two timeout rows, so the branch for more than one is never taken. */
  lemma OneTimeoutRow(cfg: Config, run: Run, i: nat, j: nat, k: nat)
    requires IsRun(cfg, run) && i < |run.states| && j < k < |run.states[i].recorded|
    ensures run.states[i].recorded[j] != run.states[i].recorded[k]
  {
    Reachable(cfg, run, i);
  }
}

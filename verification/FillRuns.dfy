/** Filling orders over runs: the queue hands orders to workers, and each worker checks the
    order and the recorded fills, sends a fill and only then records it. A worker's job is
    named by its hand-off; the steps of all jobs and of the queue interleave. */
module FillRuns {
  import opened Basics
  import opened Fees
  import Q = QueueRuns

  datatype OrderRow = OrderRow(amountIn: int, amountOut: int)

  datatype Config = Config(queue: Q.Config, orders: OrderId -> OrderRow, minSize: int, maxSize: int, minFeeBps: int)

  /** How far a job has got; `Over` is the end of one that sent nothing or recorded nothing. */
  datatype Phase = Got | Accepted | Clear | Confirmed | Sent | Recorded | Over

  /** `checkedAt` is when the recorded fills were looked up, `recordedAt` when this one's was
      inserted. */
  datatype Job = Job(phase: Phase, checkedAt: Option<int>, recordedAt: Option<int>)

  /** `recorded` are the orders with a fill in submitted_txs, `lost` those a reorganisation
      took off their source chain. History: `abandoned` are the orders this process marked
      abandoned, `fills` the jobs that sent a fill. */
  datatype State = State(
    queue: Q.State,
    jobs: map<nat, Job>,
    recorded: set<OrderId>,
    abandoned: set<OrderId>,
    lost: set<OrderId>,
    fills: seq<nat>)

  datatype Action =
    | QueueStep(step: Q.Action)
    | Take(popper: nat)
    | CheckOrder(job: nat)
    | CheckFills(job: nat)
    | Confirm(job: nat)
    | SendFill(job: nat)
    | RecordFill(job: nat)
    | GiveUp(job: nat)
    | Reorganise(order: OrderId)

  predicate Init(s: State) {
    Q.Init(s.queue) && s.jobs == map[] && s.abandoned == {} && s.fills == []
  }

  // ----- One order -----

  predicate SizeOk(cfg: Config, o: OrderId) {
    cfg.minSize <= cfg.orders(o).amountIn <= cfg.maxSize
  }

  /** The fee gate; an amount in of zero never gets past it, the handler dies of it. */
  predicate FeeOk(cfg: Config, o: OrderId) {
    var order := cfg.orders(o);
    order.amountIn != 0 && IsWithinBpsRange(cfg.minFeeBps, order.amountIn, order.amountOut).value.accepted
  }

  predicate HasJob(s: State, j: nat, phase: Phase) {
    j in s.jobs && j < |s.queue.handoffs| && s.jobs[j].phase == phase
  }

  function OrderOf(s: State, j: nat): OrderId
    requires j < |s.queue.handoffs|
  {
    s.queue.handoffs[j].id
  }

  function HandedAt(s: State, j: nat): int
    requires j < |s.queue.handoffs|
  {
    s.queue.handoffs[j].at
  }

  function WithPhase(s: State, j: nat, phase: Phase): State
    requires j in s.jobs
  {
    s.(jobs := s.jobs[j := s.jobs[j].(phase := phase)])
  }

  // ----- Steps -----

  predicate Enabled(cfg: Config, s: State, a: Action) {
    match a
    case QueueStep(step) => !step.PopHand? && Q.Enabled(cfg.queue, s.queue, step)
    case Take(p) => Q.Enabled(cfg.queue, s.queue, Q.PopHand(p))
    case CheckOrder(j) => HasJob(s, j, Got)
    case CheckFills(j) => HasJob(s, j, Accepted)
    case Confirm(j) => HasJob(s, j, Clear)
    case SendFill(j) => HasJob(s, j, Confirmed)
    case RecordFill(j) => HasJob(s, j, Sent)
    case GiveUp(j) => j in s.jobs && s.jobs[j].phase != Recorded
    case Reorganise(_) => true
  }

  /** An order outside the limits is abandoned. One with a recorded fill is left alone. One
      that is confirmed but gone from its chain is abandoned, and goes on to be filled. */
  function Do(cfg: Config, s: State, a: Action): State
    requires Enabled(cfg, s, a)
  {
    match a
    case QueueStep(step) => s.(queue := Q.Do(cfg.queue, s.queue, step))
    case Take(p) => s.(queue := Q.Do(cfg.queue, s.queue, Q.PopHand(p)),
        jobs := s.jobs[|s.queue.handoffs| := Job(Got, None, None)])
    case CheckOrder(j) =>
      var o := OrderOf(s, j);
      if SizeOk(cfg, o) && FeeOk(cfg, o) then WithPhase(s, j, Accepted)
      else WithPhase(s, j, Over).(abandoned := s.abandoned + {o})
    case CheckFills(j) =>
      if OrderOf(s, j) in s.recorded then WithPhase(s, j, Over)
      else s.(jobs := s.jobs[j := Job(Clear, Some(s.queue.clock), None)])
    case Confirm(j) =>
      var o := OrderOf(s, j);
      WithPhase(s, j, Confirmed).(abandoned := if o in s.lost then s.abandoned + {o} else s.abandoned)
    case SendFill(j) => WithPhase(s, j, Sent).(fills := s.fills + [j])
    case RecordFill(j) =>
      s.(jobs := s.jobs[j := s.jobs[j].(phase := Recorded, recordedAt := Some(s.queue.clock))],
          recorded := s.recorded + {OrderOf(s, j)})
    case GiveUp(j) => WithPhase(s, j, Over)
    case Reorganise(o) => s.(lost := s.lost + {o})
  }

  predicate Next(cfg: Config, s: State, a: Action, s': State) {
    Enabled(cfg, s, a) && s' == Do(cfg, s, a)
  }

  datatype Run = Run(states: seq<State>, actions: seq<Action>)

  /** A run of one process: the queue is in memory and starts empty. */
  ghost predicate IsRun(cfg: Config, run: Run) {
    && |run.states| == |run.actions| + 1 && Init(run.states[0])
    && forall i :: 0 <= i < |run.actions| ==> Next(cfg, run.states[i], run.actions[i], run.states[i + 1])
  }

  // ----- The invariant -----

  predicate Looked(phase: Phase) {
    phase == Clear || phase == Confirmed || phase == Sent || phase == Recorded
  }

  ghost predicate JobOk(s: State, j: nat)
    requires j in s.jobs
  {
    && j < |s.queue.handoffs|
    && var job := s.jobs[j];
    && (Looked(job.phase) ==> job.checkedAt.Some?)
    && (job.checkedAt.Some? ==> HandedAt(s, j) <= job.checkedAt.value <= s.queue.clock)
    && (job.recordedAt.Some? ==>
          job.recordedAt.value <= s.queue.clock && OrderOf(s, j) in s.recorded && job.phase == Recorded)
  }

  ghost predicate JobsOk(s: State) {
    forall j :: j in s.jobs ==> JobOk(s, j)
  }

  /** No job's fill was recorded before another job for the same order looked. */
  ghost predicate Apart(s: State) {
    forall i, j :: (i in s.jobs && j in s.jobs && i != j && i < |s.queue.handoffs| && j < |s.queue.handoffs|
                    && OrderOf(s, i) == OrderOf(s, j) && s.jobs[i].recordedAt.Some? && s.jobs[j].checkedAt.Some?) ==>
      s.jobs[i].recordedAt.value >= s.jobs[j].checkedAt.value
  }

  ghost predicate AcceptedOk(cfg: Config, s: State) {
    && (forall j :: j in s.jobs ==> JobAccepted(cfg, s, j))
    && (forall i :: 0 <= i < |s.fills| ==> FillAccepted(cfg, s, s.fills[i]))
  }

  ghost predicate Inv(cfg: Config, s: State) {
    Q.Inv(cfg.queue, s.queue) && JobsOk(s) && Apart(s) && AcceptedOk(cfg, s) && |s.queue.handoffs| !in s.jobs
  }

  /** The queue's own steps keep the hand-offs and move the clock forward only. */
  lemma QueueFrame(cfg: Q.Config, s: Q.State, a: Q.Action)
    requires Q.Enabled(cfg, s, a)
    ensures var s' := Q.Do(cfg, s, a);
            && s.clock <= s'.clock
            && (!a.PopHand? ==> s'.handoffs == s.handoffs)
            && (a.PopHand? ==>
                  && s'.clock == s.clock && |s'.handoffs| == |s.handoffs| + 1
                  && s'.handoffs[..|s.handoffs|] == s.handoffs && s'.handoffs[|s.handoffs|].at == s.clock)
  {
  }

  lemma QueueStepKeeps(cfg: Config, s: State, step: Q.Action)
    requires Inv(cfg, s) && Enabled(cfg, s, QueueStep(step))
    ensures Inv(cfg, Do(cfg, s, QueueStep(step)))
  {
    var s' := Do(cfg, s, QueueStep(step));
    Q.StepKeeps(cfg.queue, s.queue, step);
    QueueFrame(cfg.queue, s.queue, step);
    forall j | j in s'.jobs ensures JobOk(s', j) {
      assert JobOk(s, j);
    }
  }

  /** Hand-offs were added, and a new job for the last of them. */
  ghost predicate Extends(s: State, s': State) {
    && s' == s.(queue := s'.queue, jobs := s.jobs[|s.queue.handoffs| := Job(Got, None, None)])
    && s'.queue.clock == s.queue.clock && |s'.queue.handoffs| == |s.queue.handoffs| + 1
    && forall j :: 0 <= j < |s.queue.handoffs| ==> s'.queue.handoffs[j] == s.queue.handoffs[j]
  }

  lemma ExtendKeeps(cfg: Config, s: State, s': State)
    requires Extends(s, s') && JobsOk(s) && Apart(s) && AcceptedOk(cfg, s)
    ensures JobsOk(s') && Apart(s') && AcceptedOk(cfg, s') && |s'.queue.handoffs| !in s'.jobs
  {
    forall j | j in s'.jobs ensures JobOk(s', j) {
      if j != |s.queue.handoffs| {
        assert JobOk(s, j);
      }
    }
    forall j | j in s.jobs ensures j < |s.queue.handoffs| {
      assert JobOk(s, j);
    }
  }

  lemma TakeKeeps(cfg: Config, s: State, p: nat)
    requires Inv(cfg, s) && Enabled(cfg, s, Take(p))
    ensures Inv(cfg, Do(cfg, s, Take(p)))
  {
    var s' := Do(cfg, s, Take(p));
    var n := |s.queue.handoffs|;
    Q.StepKeeps(cfg.queue, s.queue, Q.PopHand(p));
    QueueFrame(cfg.queue, s.queue, Q.PopHand(p));
    forall j | 0 <= j < n ensures s'.queue.handoffs[j] == s.queue.handoffs[j] {
      assert s'.queue.handoffs[j] == s'.queue.handoffs[..n][j];
    }
    ExtendKeeps(cfg, s, s');
  }

  ghost predicate HandedBefore(q: Q.State) {
    forall k :: 0 <= k < |q.handoffs| ==> q.handoffs[k].at <= q.clock
  }

  lemma HandoffsAreBefore(cfg: Q.Config, q: Q.State)
    requires Q.Inv(cfg, q)
    ensures HandedBefore(q)
  {
    forall k | 0 <= k < |q.handoffs| ensures q.handoffs[k].at <= q.clock {
      assert Q.HandoffOk(cfg, q, q.handoffs[k]);
    }
  }

  lemma JobStepKeepsJobs(cfg: Config, s: State, a: Action)
    requires JobsOk(s) && HandedBefore(s.queue) && Enabled(cfg, s, a) && !a.QueueStep? && !a.Take?
    ensures JobsOk(Do(cfg, s, a))
  {
    var s' := Do(cfg, s, a);
    forall j | j in s'.jobs ensures JobOk(s', j) {
      assert JobOk(s, j);
    }
  }

  lemma JobStepKeepsApart(cfg: Config, s: State, a: Action)
    requires JobsOk(s) && Apart(s) && Enabled(cfg, s, a) && !a.QueueStep? && !a.Take?
    ensures Apart(Do(cfg, s, a))
  {
    var s' := Do(cfg, s, a);
    forall i, j | i in s'.jobs && j in s'.jobs && i != j && i < |s.queue.handoffs| && j < |s.queue.handoffs|
                  && OrderOf(s, i) == OrderOf(s, j) && s'.jobs[i].recordedAt.Some? && s'.jobs[j].checkedAt.Some?
      ensures s'.jobs[i].recordedAt.value >= s'.jobs[j].checkedAt.value
    {
      PairStaysApart(cfg, s, a, i, j);
    }
  }

  lemma PairStaysApart(cfg: Config, s: State, a: Action, i: nat, j: nat)
    requires Enabled(cfg, s, a) && !a.QueueStep? && !a.Take?
    requires i in s.jobs && j in s.jobs && i != j && JobOk(s, i) && JobOk(s, j) && OrderOf(s, i) == OrderOf(s, j)
    requires s.jobs[i].recordedAt.Some? && s.jobs[j].checkedAt.Some? ==>
             s.jobs[i].recordedAt.value >= s.jobs[j].checkedAt.value
    ensures var s' := Do(cfg, s, a);
            && i in s'.jobs && j in s'.jobs
            && (s'.jobs[i].recordedAt.Some? && s'.jobs[j].checkedAt.Some? ==>
                s'.jobs[i].recordedAt.value >= s'.jobs[j].checkedAt.value)
  {
  }

  ghost predicate JobAccepted(cfg: Config, s: State, j: nat) {
    (j in s.jobs && j < |s.queue.handoffs| && (s.jobs[j].phase == Accepted || Looked(s.jobs[j].phase))) ==>
      SizeOk(cfg, OrderOf(s, j)) && FeeOk(cfg, OrderOf(s, j))
  }

  ghost predicate FillAccepted(cfg: Config, s: State, j: nat) {
    && j in s.jobs && j < |s.queue.handoffs| && s.jobs[j].checkedAt.Some?
    && SizeOk(cfg, OrderOf(s, j)) && FeeOk(cfg, OrderOf(s, j))
  }

  lemma JobStaysAccepted(cfg: Config, s: State, a: Action, j: nat)
    requires Enabled(cfg, s, a) && !a.QueueStep? && !a.Take? && JobAccepted(cfg, s, j)
    ensures JobAccepted(cfg, Do(cfg, s, a), j)
  {
  }

  lemma FillStaysAccepted(cfg: Config, s: State, a: Action, j: nat)
    requires Enabled(cfg, s, a) && !a.QueueStep? && !a.Take? && FillAccepted(cfg, s, j)
    ensures FillAccepted(cfg, Do(cfg, s, a), j)
  {
  }

  lemma JobStepKeepsAccepted(cfg: Config, s: State, a: Action)
    requires JobsOk(s) && AcceptedOk(cfg, s) && Enabled(cfg, s, a) && !a.QueueStep? && !a.Take?
    ensures AcceptedOk(cfg, Do(cfg, s, a))
  {
    var s' := Do(cfg, s, a);
    forall j | j in s'.jobs ensures JobAccepted(cfg, s', j) {
      JobStaysAccepted(cfg, s, a, j);
    }
    forall i | 0 <= i < |s'.fills| ensures FillAccepted(cfg, s', s'.fills[i]) {
      if i < |s.fills| {
        FillStaysAccepted(cfg, s, a, s.fills[i]);
      } else {
        assert JobOk(s, a.job) && JobAccepted(cfg, s, a.job);
      }
    }
  }

  lemma StepKeeps(cfg: Config, s: State, a: Action)
    requires Inv(cfg, s) && Enabled(cfg, s, a)
    ensures Inv(cfg, Do(cfg, s, a))
  {
    match a
    case QueueStep(step) => QueueStepKeeps(cfg, s, step);
    case Take(p) => TakeKeeps(cfg, s, p);
    case _ =>
      HandoffsAreBefore(cfg.queue, s.queue);
      JobStepKeepsJobs(cfg, s, a);
      JobStepKeepsApart(cfg, s, a);
      JobStepKeepsAccepted(cfg, s, a);
  }

  lemma {:induction false} Reachable(cfg: Config, run: Run, t: nat)
    requires IsRun(cfg, run) && t < |run.states|
    ensures Inv(cfg, run.states[t])
  {
    if t > 0 {
      Reachable(cfg, run, t - 1);
      var before := t - 1;
      assert Next(cfg, run.states[before], run.actions[before], run.states[before + 1]);
      StepKeeps(cfg, run.states[before], run.actions[before]);
    }
  }

  // ----- Theorems -----

  /** Two jobs that sent a fill for the same order. */
  ghost predicate FilledTwice(s: State, i: nat, j: nat) {
    i in s.fills && j in s.fills && i < j < |s.queue.handoffs| && OrderOf(s, i) == OrderOf(s, j)
  }

  /** An order is filled twice only if the later job was handed it at least the requeue delay
      after the earlier one, and the earlier one's fill was not recorded when the later one
      looked; so not until at least that delay after its own hand-off, if ever. */
  lemma DoubleFillsAreLate(cfg: Config, run: Run, t: nat, i: nat, j: nat)
    requires IsRun(cfg, run) && t < |run.states| && FilledTwice(run.states[t], i, j)
    ensures var s := run.states[t];
            && i in s.jobs && j in s.jobs && s.jobs[j].checkedAt.Some?
            && HandedAt(s, j) - HandedAt(s, i) >= cfg.queue.delay
            && (s.jobs[i].recordedAt.Some? ==>
                  s.jobs[i].recordedAt.value >= s.jobs[j].checkedAt.value >= HandedAt(s, i) + cfg.queue.delay)
  {
    Reachable(cfg, run, t);
    var s := run.states[t];
    assert JobOk(s, i) && JobOk(s, j);
  }

  /** So a job that records its fill within the delay is the last to fill its order. */
  lemma PromptRecordsFillOnce(cfg: Config, run: Run, t: nat, i: nat, j: nat)
    requires IsRun(cfg, run) && t < |run.states|
    requires i < |run.states[t].queue.handoffs| && i in run.states[t].jobs && run.states[t].jobs[i].recordedAt.Some?
    requires run.states[t].jobs[i].recordedAt.value < HandedAt(run.states[t], i) + cfg.queue.delay
    ensures !FilledTwice(run.states[t], i, j)
  {
    if FilledTwice(run.states[t], i, j) {
      DoubleFillsAreLate(cfg, run, t, i, j);
    }
  }

  function FillOf(cfg: Config, o: OrderId): Fill {
    Fill(cfg.orders(o).amountIn, cfg.orders(o).amountOut)
  }

  /** Every order a fill was sent for is within the size limits and pays the minimum fee. */
  lemma FillsPass(cfg: Config, run: Run, t: nat, n: nat)
    requires IsRun(cfg, run) && t < |run.states| && n < |run.states[t].fills| && cfg.minSize >= 0
    ensures var s := run.states[t];
            && s.fills[n] < |s.queue.handoffs|
            && var o := OrderOf(s, s.fills[n]);
               SizeOk(cfg, o) && Fees.Accepted(FillOf(cfg, o), cfg.minFeeBps)
  {
    Reachable(cfg, run, t);
  }

  /** So however they are batched later, orders the solver has filled leave a fee cap of at
      least zero for relaying their settlement. */
  lemma FilledOrdersCoverTheMargin(cfg: Config, run: Run, t: nat, batch: seq<nat>, fills: seq<Fill>, marginBps: int)
    requires IsRun(cfg, run) && t < |run.states| && cfg.minSize >= 0 && 0 <= marginBps <= cfg.minFeeBps
    requires |fills| == |batch| && forall i :: 0 <= i < |batch| ==>
               && batch[i] < |run.states[t].fills| && run.states[t].fills[batch[i]] < |run.states[t].queue.handoffs|
               && fills[i] == FillOf(cfg, OrderOf(run.states[t], run.states[t].fills[batch[i]]))
    requires marginBps * TotalIn(fills) <= TWO_51 * BPS
    ensures MaxBatchTxFee(TotalFee(fills), TotalIn(fills), marginBps) >= 0
  {
    forall i | 0 <= i < |fills| ensures Fees.Accepted(fills[i], cfg.minFeeBps) {
      FillsPass(cfg, run, t, batch[i]);
    }
    GatedBatchCap(fills, cfg.minFeeBps, marginBps);
  }

  // ----- Orders that are gone -----

  /** Step `i` confirms the block of an order that a reorganisation has taken off its chain. */
  ghost predicate ConfirmsLost(run: Run, i: int, o: OrderId)
    requires |run.states| == |run.actions| + 1
  {
    && 0 <= i < |run.actions| && run.actions[i].Confirm?
    && run.actions[i].job < |run.states[i].queue.handoffs| && OrderOf(run.states[i], run.actions[i].job) == o
    && o in run.states[i].lost
  }

  ghost predicate WasConfirmedLost(run: Run, t: nat, o: OrderId)
    requires |run.states| == |run.actions| + 1
  {
    exists i :: 0 <= i < t && ConfirmsLost(run, i, o)
  }

  lemma {:induction false} AbandonedExactly(cfg: Config, run: Run, t: nat, o: OrderId)
    requires IsRun(cfg, run) && t < |run.states| && SizeOk(cfg, o) && FeeOk(cfg, o)
    ensures o in run.states[t].abandoned <==> WasConfirmedLost(run, t, o)
  {
    if t > 0 {
      var before := t - 1;
      AbandonedExactly(cfg, run, before, o);
      AbandonStep(cfg, run, before, o);
      assert WasConfirmedLost(run, t, o) <==> WasConfirmedLost(run, before, o) || ConfirmsLost(run, before, o);
    }
  }

  lemma AbandonStep(cfg: Config, run: Run, i: nat, o: OrderId)
    requires IsRun(cfg, run) && i < |run.actions| && SizeOk(cfg, o) && FeeOk(cfg, o)
    ensures o in run.states[i + 1].abandoned <==> o in run.states[i].abandoned || ConfirmsLost(run, i, o)
  {
    assert Next(cfg, run.states[i], run.actions[i], run.states[i + 1]);
  }

  ghost predicate Reorganised(run: Run, t: nat, o: OrderId)
    requires |run.states| == |run.actions| + 1
  {
    o in run.states[0].lost || exists i :: 0 <= i < t <= |run.actions| && run.actions[i] == Reorganise(o)
  }

  lemma {:induction false} LostExactly(cfg: Config, run: Run, t: nat, o: OrderId)
    requires IsRun(cfg, run) && t < |run.states|
    ensures o in run.states[t].lost <==> Reorganised(run, t, o)
  {
    if t > 0 {
      var before := t - 1;
      LostExactly(cfg, run, before, o);
      assert Next(cfg, run.states[before], run.actions[before], run.states[before + 1]);
      assert Reorganised(run, t, o) <==> Reorganised(run, before, o) || run.actions[before] == Reorganise(o);
    }
  }

  ghost predicate WasConfirmed(run: Run, t: nat, j: nat) {
    exists i :: 0 <= i < t <= |run.actions| && run.actions[i] == Confirm(j)
  }

  ghost predicate PastConfirming(s: State, j: nat) {
    j in s.fills || (j in s.jobs && (s.jobs[j].phase == Confirmed || s.jobs[j].phase == Sent
        || s.jobs[j].phase == Recorded))
  }

  lemma {:induction false} FillsAreConfirmed(cfg: Config, run: Run, t: nat, j: nat)
    requires IsRun(cfg, run) && t < |run.states| && PastConfirming(run.states[t], j)
    ensures WasConfirmed(run, t, j)
  {
    if t > 0 {
      var before := t - 1;
      assert Next(cfg, run.states[before], run.actions[before], run.states[before + 1]);
      if run.actions[before] != Confirm(j) {
        StillPastConfirming(cfg, run.states[before], run.actions[before], j);
        FillsAreConfirmed(cfg, run, before, j);
        var i :| 0 <= i < before && run.actions[i] == Confirm(j);
      }
    }
  }

  lemma StillPastConfirming(cfg: Config, s: State, a: Action, j: nat)
    requires Enabled(cfg, s, a) && PastConfirming(Do(cfg, s, a), j) && a != Confirm(j)
    ensures PastConfirming(s, j)
  {
  }

  /** When exactly a filled order is one the solver itself has given up: every fill comes after
      a confirmation of its order, and the order is marked abandoned if and only if some
      confirmation came when it was gone, that is after a reorganisation. So the fills of an
      order are sound exactly when no reorganisation came before a confirmation of it. */
  lemma FilledThoughLostExactly(cfg: Config, run: Run, t: nat, n: nat)
    requires IsRun(cfg, run) && t < |run.states| && n < |run.states[t].fills|
    ensures var s := run.states[t];
            && s.fills[n] < |s.queue.handoffs|
            && WasConfirmed(run, t, s.fills[n])
            && var o := OrderOf(s, s.fills[n]);
               && (o in s.abandoned <==> WasConfirmedLost(run, t, o))
               && (forall i :: ConfirmsLost(run, i, o) ==> Reorganised(run, i, o))
               && (forall i :: (&& 0 <= i < t && run.actions[i].Confirm?
                                && run.actions[i].job < |run.states[i].queue.handoffs|
                                && OrderOf(run.states[i], run.actions[i].job) == o && Reorganised(run, i, o)) ==>
                     ConfirmsLost(run, i, o))
  {
    Reachable(cfg, run, t);
    var s := run.states[t];
    assert FillAccepted(cfg, s, s.fills[n]);
    var o := OrderOf(s, s.fills[n]);
    FillsAreConfirmed(cfg, run, t, s.fills[n]);
    AbandonedExactly(cfg, run, t, o);
    forall i | 0 <= i < |run.actions| ensures o in run.states[i].lost <==> Reorganised(run, i, o) {
      LostExactly(cfg, run, i, o);
    }
  }

  // ----- A run that fills a lost order twice -----

  ghost predicate EndsIn(cfg: Config, run: Run, s: State) {
    IsRun(cfg, run) && run.states[|run.states| - 1] == s
  }

  ghost predicate CanReach(cfg: Config, s: State) {
    exists run :: EndsIn(cfg, run, s)
  }

  lemma Reach(cfg: Config, s: State, a: Action, s': State)
    requires CanReach(cfg, s) && Next(cfg, s, a, s')
    ensures CanReach(cfg, s')
  {
    var run :| EndsIn(cfg, run, s);
    var more := Run(run.states + [s'], run.actions + [a]);
    forall i | 0 <= i < |more.actions| ensures Next(cfg, more.states[i], more.actions[i], more.states[i + 1]) {
      if i < |run.actions| {
        assert Next(cfg, run.states[i], run.actions[i], run.states[i + 1]);
      }
    }
    assert EndsIn(cfg, more, s');
  }

  /** What holds in a state holds after a step. */
  ghost predicate Kept(cfg: Config, p: State -> bool) {
    forall s, a, s' :: p(s) && Next(cfg, s, a, s') ==> p(s')
  }

  /** A queue for one order with a delay of ten, and orders of 100 that pay 10. */
  function Cfg(): Config {
    Config(Q.Config(1, 10), (o: OrderId) => OrderRow(100, 90), 0, 1000, 10)
  }

  const ORDER: OrderId := 7

  /** The order is gone from its source chain from the start. */
  function Start(): State {
    State(Q.State(map[], {}, [], Q.Free, map[], 0, [], []), map[], {}, {}, {ORDER}, [])
  }

  /** The order is queued and a pop `p` takes it out. */
  function Popped(s: State, p: nat): State {
    s.(queue := s.queue.(inQueue := {ORDER}, poppers := map[p := Q.Holding(ORDER)],
                         answers := s.queue.answers + [Q.Answer(ORDER, true)]))
  }

  ghost predicate MayQueue(q: Q.State) {
    && q.lock == Q.Free && q.channel == [] && q.inQueue == {} && q.poppers == map[]
    && (ORDER in q.requeueTime ==> q.clock >= q.requeueTime[ORDER])
  }

  function InQueue(q: Q.State): Q.State {
    q.(lock := Q.Queueing(ORDER, Q.Leaving(true)), channel := [ORDER], inQueue := {ORDER})
  }

  lemma Enqueue(p: State -> bool, s: State)
    requires Kept(Cfg(), p) && p(s) && MayQueue(s.queue)
    ensures p(s.(queue := InQueue(s.queue)))
  {
    var cfg, q := Cfg(), s.queue;
    var s1 := s.(queue := q.(lock := Q.Queueing(ORDER, Q.Checking)));
    var s2 := s.(queue := q.(lock := Q.Queueing(ORDER, Q.Sending)));
    var s3 := s.(queue := q.(lock := Q.Queueing(ORDER, Q.Marking), channel := [ORDER]));
    assert Next(cfg, s, QueueStep(Q.QueueLock(ORDER)), s1);
    assert Next(cfg, s1, QueueStep(Q.QueueCheck), s2);
    assert Next(cfg, s2, QueueStep(Q.QueueSend), s3);
    assert Next(cfg, s3, QueueStep(Q.QueueMark), s.(queue := InQueue(q)));
  }

  lemma PopOut(p: State -> bool, s: State, popper: nat)
    requires Kept(Cfg(), p) && p(s.(queue := InQueue(s.queue))) && MayQueue(s.queue)
    ensures p(Popped(s, popper))
  {
    var cfg, q := Cfg(), Popped(s, popper).queue.(channel := [ORDER], poppers := map[]);
    var s1 := s.(queue := q);
    var s2 := s.(queue := q.(poppers := map[popper := Q.Waiting]));
    assert Next(cfg, s.(queue := InQueue(s.queue)), QueueStep(Q.QueueUnlock), s1);
    assert Next(cfg, s1, QueueStep(Q.PopStart(popper)), s2);
    assert s2.queue.channel[1..] == [];
    assert Next(cfg, s2, QueueStep(Q.PopReceive(popper)), Popped(s, popper));
  }

  /** The order is handed to a worker, who finds it acceptable and no fill recorded. */
  function Looking(s: State, p: nat, j: nat): State {
    var q := Popped(s, p).queue;
    s.(queue := q.(poppers := map[p := Q.Handed(ORDER)], handoffs := q.handoffs + [Q.Handoff(ORDER, q.clock)]),
       jobs := s.jobs[j := Job(Clear, Some(q.clock), None)])
  }

  lemma HandAndLook(p: State -> bool, s: State, popper: nat, j: nat)
    requires Kept(Cfg(), p) && p(Popped(s, popper)) && j == |s.queue.handoffs| && s.recorded == {}
    ensures p(Looking(s, popper, j))
  {
    var cfg, s3 := Cfg(), Looking(s, popper, j);
    var s1 := s3.(jobs := s.jobs[j := Job(Got, None, None)]);
    var s2 := s3.(jobs := s.jobs[j := Job(Accepted, None, None)]);
    assert Next(cfg, Popped(s, popper), Take(popper), s1);
    assert Next(cfg, s1, CheckOrder(j), s2);
    assert Next(cfg, s2, CheckFills(j), s3);
  }

  /** The pop leaves the queue, and ten units later the order may be queued again. */
  function Waited(): State {
    var s := Looking(Start(), 0, 0);
    s.(queue := s.queue.(poppers := map[], requeueTime := map[ORDER := 10], inQueue := {}, clock := 10))
  }

  lemma Leave(p: State -> bool)
    requires Kept(Cfg(), p) && p(Looking(Start(), 0, 0))
    ensures p(Waited().(queue := Waited().queue.(clock := 0, lock := Q.Popping(0, Q.Done))))
  {
    var cfg, s := Cfg(), Looking(Start(), 0, 0);
    var s1 := s.(queue := s.queue.(lock := Q.Popping(0, Q.Stamping)));
    var s2 := s.(queue := s.queue.(lock := Q.Popping(0, Q.Deleting), requeueTime := map[ORDER := 10]));
    assert Next(cfg, s, QueueStep(Q.PopLock(0)), s1);
    assert Next(cfg, s1, QueueStep(Q.PopStamp), s2);
    assert s2.queue.poppers - {0} == map[];
    assert Next(cfg, s2, QueueStep(Q.PopDelete),
           Waited().(queue := Waited().queue.(clock := 0, lock := Q.Popping(0, Q.Done))));
  }

  lemma Wait(p: State -> bool)
    requires Kept(Cfg(), p) && p(Waited().(queue := Waited().queue.(clock := 0, lock := Q.Popping(0, Q.Done))))
    ensures p(Waited())
  {
    var cfg, s := Cfg(), Waited().(queue := Waited().queue.(clock := 0));
    assert Next(cfg, s.(queue := s.queue.(lock := Q.Popping(0, Q.Done))), QueueStep(Q.PopUnlock), s);
    assert Next(cfg, s, QueueStep(Q.Tick(10)), Waited());
  }

  /** Both workers confirm the order, find it gone, mark it so and fill it. */
  function BothSent(): State {
    Looking(Waited(), 1, 1).(jobs := map[0 := Job(Sent, Some(0), None), 1 := Job(Sent, Some(10), None)],
                             abandoned := {ORDER}, fills := [0, 1])
  }

  lemma SendBoth(p: State -> bool)
    requires Kept(Cfg(), p) && p(Looking(Waited(), 1, 1))
    ensures p(BothSent())
  {
    var cfg, s := Cfg(), Looking(Waited(), 1, 1);
    var first, second := Job(Clear, Some(0), None), Job(Clear, Some(10), None);
    var gone := s.(abandoned := {ORDER});
    var s1 := gone.(jobs := map[0 := first.(phase := Confirmed), 1 := second]);
    var s2 := gone.(jobs := map[0 := first.(phase := Sent), 1 := second], fills := [0]);
    var s3 := gone.(jobs := map[0 := first.(phase := Sent), 1 := second.(phase := Confirmed)], fills := [0]);
    assert s.jobs == map[0 := first, 1 := second];
    assert Next(cfg, s, Confirm(0), s1);
    assert Next(cfg, s1, SendFill(0), s2);
    assert Next(cfg, s2, Confirm(1), s3);
    assert Next(cfg, s3, SendFill(1), BothSent());
  }

  /** A run in which an order that no longer exists, and is marked abandoned for it, is filled
      all the same, and twice: the first worker was slow, and the second got the order as
      soon as the delay had passed. */
  lemma LostOrderIsFilledTwice() returns (run: Run)
    ensures IsRun(Cfg(), run)
    ensures var s := run.states[|run.states| - 1];
            && FilledTwice(s, 0, 1) && OrderOf(s, 0) == ORDER
            && ORDER in s.lost && ORDER in s.abandoned
            && HandedAt(s, 1) - HandedAt(s, 0) == Cfg().queue.delay
  {
    var p := s => CanReach(Cfg(), s);
    forall s, a, s' | p(s) && Next(Cfg(), s, a, s') ensures p(s') {
      Reach(Cfg(), s, a, s');
    }
    assert EndsIn(Cfg(), Run([Start()], []), Start());
    Enqueue(p, Start());
    PopOut(p, Start(), 0);
    HandAndLook(p, Start(), 0, 0);
    Leave(p);
    Wait(p);
    Enqueue(p, Waited());
    PopOut(p, Waited(), 1);
    HandAndLook(p, Waited(), 1, 1);
    SendBoth(p);
    run :| EndsIn(Cfg(), run, BothSent());
  }
}

/** What the protocol guarantees over every run: any number of steps of the settler, the
    relayer, the timeout worker, the verifier and the chains, in any order. */
module Theorems {
  import opened Basics
  import opened Fees
  import opened Tables
  import opened Protocol
  import opened Invariant
  import opened Preservation

  /** A run: states, and between any two of them the step that was taken. */
  datatype Run = Run(states: seq<State>, steps: seq<Action>)

  ghost predicate Follows(run: Run, step: (State, Action, State) -> bool) {
    && |run.states| == |run.steps| + 1
    && forall i :: 0 <= i < |run.steps| ==> step(run.states[i], run.steps[i], run.states[i + 1])
  }

  ghost function Steps(cfg: Config): (State, Action, State) -> bool {
    (s, a, s') => Next(cfg, s, a, s')
  }

  ghost predicate IsRun(cfg: Config, run: Run) {
    Follows(run, Steps(cfg)) && Init(run.states[0])
  }

  /** What every step keeps, a run keeps. */
  lemma {:induction false} RunKeeps(run: Run, step: (State, Action, State) -> bool, p: State -> bool, i: nat, j: nat)
    requires Follows(run, step) && i <= j < |run.states| && p(run.states[i])
    requires forall s, a, s' :: p(s) && step(s, a, s') ==> p(s')
    ensures p(run.states[j])
    decreases j
  {
    if i < j {
      RunKeeps(run, step, p, i, j - 1);
    }
  }

  /** The invariant holds in every state of every run. */
  lemma Reachable(cfg: Config, run: Run, i: nat)
    requires IsRun(cfg, run) && i < |run.states|
    ensures Inv(cfg, run.states[i])
  {
    var p := s => Inv(cfg, s);
    forall s, a, s' | p(s) && Steps(cfg)(s, a, s') ensures p(s') {
      StepKeeps(cfg, s, a, s');
    }
    InitOk(cfg, run.states[0]);
    RunKeeps(run, Steps(cfg), p, 0, i);
  }

  // ----- What a single step does to the tables -----

  /** Transfer rows stay, keep everything but their status, and change that at most from
      pending to something else. */
  ghost predicate StatusOnlyLeavesPending(ts: Transfers, ts': Transfers) {
    forall id :: id in ts ==>
      && id in ts' && SameTransfer(ts'[id], ts[id])
      && (ts'[id] != ts[id] ==> ts[id].status == TransferPending && ts'[id].status != TransferPending)
  }

  /** Rows stay with their destination and tx, and a new row carries none. */
  ghost predicate SameTxs(rows: Settlements, rows': Settlements) {
    && (forall k :: k in rows ==>
          k in rows' && rows'[k].destination == rows[k].destination && rows'[k].initiateTx == rows[k].initiateTx)
    && (forall k :: k in rows' && rows'[k].initiateTx.Some? ==> k in rows)
  }

  predicate ChangesTxs(a: Action) {
    a == CancelStep(ClearRows) || (a.SettleStep? && a.settle.RecordBatch?)
  }

  lemma WriteLeavesPending(s: State, thread: Thread, s': State)
    requires DoUpdateWrite(s, thread, s') && UpdateOk(UpdateOf(s, thread), s.transfers)
    requires TransfersOk(s.transfers, s.nextId, s.dispatched) && UpdateOf(s, thread).status != TransferPending
    ensures StatusOnlyLeavesPending(s.transfers, s'.transfers)
  {
    WriteChangesOneRow(s, thread, UpdateOf(s, thread).phase.id, s');
  }

  lemma NextIdIsFresh(s: State)
    requires TransfersOk(s.transfers, s.nextId, s.dispatched)
    ensures s.nextId !in s.transfers
  {
  }

  lemma InsertLeavesRows(s: State, tx: TxKey, maxFee: int)
    requires s.nextId !in s.transfers && tx in s.dispatched
    ensures StatusOnlyLeavesPending(s.transfers, Inserted(s, tx, maxFee).transfers)
  {
  }

  lemma SubmitInsertFrame(cfg: Config, s: State, lag: nat, s': State)
    requires DoSubmitInsert(cfg, s, lag, s') && TransfersOk(s.transfers, s.nextId, s.dispatched)
    ensures StatusOnlyLeavesPending(s.transfers, s'.transfers)
    ensures s'.settlements == s.settlements && s'.cancelled == s.cancelled && s'.relays == s.relays
  {
    var tx := BatchTx(s.settler.batch);
    NextIdIsFresh(s);
    InsertLeavesRows(s, tx, StoredCap(cfg, s'.terms[tx], s.dispatched[tx].destination));
  }

  lemma SubmitFrame(cfg: Config, s: State, a: SubmitAction, s': State)
    requires SubmitNext(cfg, s, a, s') && !a.SubmitInsert?
    ensures s'.transfers == s.transfers && s'.cancelled == s.cancelled && s'.terms == s.terms && s'.relays == s.relays
    ensures a.LinkRow? || s'.settlements == s.settlements
    ensures SameTxs(s.settlements, s'.settlements)
  {
    if a.LinkRow? {
      LinkFrame(s, s');
    }
  }

  lemma LinkFrame(s: State, s': State)
    requires DoLinkRow(s, s')
    ensures SameTxs(s.settlements, s'.settlements)
  {
  }

  lemma UpdateFrame(s: State, thread: Thread, a: UpdateAction, s': State)
    requires UpdateNext(s, thread, a, s')
    ensures s'.settlements == s.settlements && s.cancelled.Keys <= s'.cancelled.Keys
    ensures s'.terms == s.terms && s'.relays == s.relays
    ensures !a.UpdateWrite? ==> s'.transfers == s.transfers
  {
    if a.UpdateUnlock? {
      UnlockFrame(s, thread, s');
    }
  }

  lemma UnlockFrame(s: State, thread: Thread, s': State)
    requires DoUpdateUnlock(s, thread, s')
    ensures s'.settlements == s.settlements && s.cancelled.Keys <= s'.cancelled.Keys
    ensures s'.terms == s.terms && s'.transfers == s.transfers && s'.relays == s.relays
  {
  }

  lemma WorldFrame(cfg: Config, s: State, a: WorldAction, s': State)
    requires WorldNext(cfg, s, a, s') && TransfersOk(s.transfers, s.nextId, s.dispatched)
    ensures StatusOnlyLeavesPending(s.transfers, s'.transfers)
    ensures s'.settlements == s.settlements && s'.cancelled == s.cancelled && s'.terms == s.terms
            && s'.relays == s.relays
  {
    if a.TimeoutInsert? {
      InsertLeavesRows(s, s.worker.tx, cfg.relayCap(s.dispatched[s.worker.tx].destination));
    }
  }

  lemma CancelFrame(s: State, a: CancelAction, s': State)
    requires CancelNext(s, a, s')
    ensures s'.transfers == s.transfers && s'.cancelled == s.cancelled && s'.terms == s.terms && s'.relays == s.relays
    ensures !a.ClearRows? ==> s'.settlements == s.settlements
  {
  }

  lemma SettleFrame(cfg: Config, s: State, a: SettleAction, s': State)
    requires SettleNext(cfg, s, a, s')
    ensures s'.transfers == s.transfers && s'.cancelled == s.cancelled && s'.terms == s.terms && s'.relays == s.relays
    ensures !a.RecordBatch? ==> SameTxs(s.settlements, s'.settlements)
  {
  }

  lemma VerifyFrame(s: State, a: VerifyAction, s': State)
    requires VerifyNext(s, a, s')
    ensures s'.transfers == s.transfers && s'.cancelled == s.cancelled && s'.terms == s.terms && s'.relays == s.relays
    ensures SameTxs(s.settlements, s'.settlements)
  {
  }

  lemma ScanFrame(cfg: Config, s: State, a: ScanAction, s': State)
    requires ScanNext(cfg, s, a, s')
    ensures s'.transfers == s.transfers && s'.cancelled == s.cancelled && s'.terms == s.terms && s'.relays == s.relays
    ensures s'.settlements == s.settlements
  {
  }

  lemma SendFrame(s: State, a: SendAction, s': State)
    requires SendNext(s, a, s')
    ensures s'.transfers == s.transfers && s'.cancelled == s.cancelled && s'.terms == s.terms
    ensures s'.settlements == s.settlements
    ensures !a.RelaySend? ==> s'.relays == s.relays
  {
  }

  lemma VerifierFrame(s: State, a: VerifierAction, s': State)
    requires VerifierNext(s, a, s')
    ensures s'.transfers == s.transfers && s'.cancelled == s.cancelled && s'.terms == s.terms && s'.relays == s.relays
    ensures s'.settlements == s.settlements
  {
  }

  lemma WriteFrame(cfg: Config, s: State, thread: Thread, s': State)
    requires DoUpdateWrite(s, thread, s') && TransfersOk(s.transfers, s.nextId, s.dispatched)
    requires SettlerOk(s.settler, s.settlements, s.transfers, s.sent, s.cancelled)
    requires RelayerOk(cfg, s.relayer, s.transfers, s.attempts)
    ensures StatusOnlyLeavesPending(s.transfers, s'.transfers)
  {
    WriteLeavesPending(s, thread, s');
  }

  /** Every step: transfers only leave pending, cancelled txs stay cancelled, and rows keep
      their tx unless the step clears or records one. */
  lemma StepFrame(cfg: Config, s: State, a: Action, s': State)
    requires Next(cfg, s, a, s') && TransfersOk(s.transfers, s.nextId, s.dispatched)
    requires SettlerOk(s.settler, s.settlements, s.transfers, s.sent, s.cancelled)
    requires RelayerOk(cfg, s.relayer, s.transfers, s.attempts)
    ensures StatusOnlyLeavesPending(s.transfers, s'.transfers)
    ensures s.cancelled.Keys <= s'.cancelled.Keys
    ensures !ChangesTxs(a) ==> SameTxs(s.settlements, s'.settlements)
    ensures !(a.SubmitStep? && a.submit.SubmitInsert?) ==> s'.terms == s.terms
    ensures !(a.SendStep? && a.send.RelaySend?) ==> s'.relays == s.relays
  {
    match a
    case SubmitStep(SubmitInsert(lag)) => SubmitInsertFrame(cfg, s, lag, s');
    case SubmitStep(x) => SubmitFrame(cfg, s, x, s');
    case CancelStep(x) => CancelFrame(s, x, s');
    case SettleStep(x) => SettleFrame(cfg, s, x, s');
    case VerifyStep(x) => VerifyFrame(s, x, s');
    case UpdateStep(thread, x) =>
      UpdateFrame(s, thread, x, s');
      if x.UpdateWrite? {
        WriteFrame(cfg, s, thread, s');
      }
    case ScanStep(x) => ScanFrame(cfg, s, x, s');
    case SendStep(x) => SendFrame(s, x, s');
    case VerifierStep(x) => VerifierFrame(s, x, s');
    case WorldStep(x) => WorldFrame(cfg, s, x, s');
  }

  lemma StillCancelled(cfg: Config, run: Run, i: nat, j: nat, tx: TxKey)
    requires IsRun(cfg, run) && i <= j < |run.states| && tx in run.states[i].cancelled
    ensures tx in run.states[j].cancelled
  {
    var p := s => Inv(cfg, s) && tx in s.cancelled;
    forall s, a, s' | p(s) && Steps(cfg)(s, a, s') ensures p(s') {
      StepKeeps(cfg, s, a, s');
      StepFrame(cfg, s, a, s');
    }
    Reachable(cfg, run, i);
    RunKeeps(run, Steps(cfg), p, i, j);
  }

  // ----- Cancelling and relaying -----

  /** The row as it was at some time, with at most a pending status moved on. */
  ghost predicate CameFrom(s: State, id: nat, t: Transfer) {
    && id in s.transfers && SameTransfer(s.transfers[id], t)
    && (t.status != TransferPending ==> s.transfers[id] == t)
  }

  lemma StepCameFrom(cfg: Config, s: State, a: Action, s': State, id: nat, t: Transfer)
    requires Next(cfg, s, a, s') && CameFrom(s, id, t) && TransfersOk(s.transfers, s.nextId, s.dispatched)
    requires SettlerOk(s.settler, s.settlements, s.transfers, s.sent, s.cancelled)
    requires RelayerOk(cfg, s.relayer, s.transfers, s.attempts)
    ensures CameFrom(s', id, t)
  {
    StepFrame(cfg, s, a, s');
  }

  lemma RunCameFrom(cfg: Config, run: Run, i: nat, j: nat, id: nat, t: Transfer)
    requires IsRun(cfg, run) && i <= j < |run.states| && CameFrom(run.states[i], id, t)
    ensures CameFrom(run.states[j], id, t)
  {
    var p := s => Inv(cfg, s) && CameFrom(s, id, t);
    forall s, a, s' | p(s) && Steps(cfg)(s, a, s') ensures p(s') {
      StepKeeps(cfg, s, a, s');
      StepCameFrom(cfg, s, a, s', id, t);
    }
    Reachable(cfg, run, i);
    RunKeeps(run, Steps(cfg), p, i, j);
  }

  /** A transfer's status leaves pending at most once: after that its row never changes. */
  lemma StatusIsFinal(cfg: Config, run: Run, i: nat, j: nat, id: nat)
    requires IsRun(cfg, run) && i <= j < |run.states| && id in run.states[i].transfers
    ensures id in run.states[j].transfers
    ensures SameTransfer(run.states[j].transfers[id], run.states[i].transfers[id])
    ensures run.states[i].transfers[id].status != TransferPending ==>
            run.states[j].transfers[id] == run.states[i].transfers[id]
  {
    RunCameFrom(cfg, run, i, j, id, run.states[i].transfers[id]);
  }

  /** Once CancelRelay has returned true for a tx, no later step relays it. */
  lemma CancelIsFinal(cfg: Config, run: Run, i: nat, j: nat, tx: TxKey)
    requires IsRun(cfg, run) && i <= j < |run.steps| && tx in run.states[i].cancelled
    requires run.steps[j].SendStep? && run.steps[j].send.RelaySend? && run.states[j].relayer.RSend?
    ensures var t := run.states[j].relayer.head.transfer; TxKey(t.source, t.sentTx) != tx
  {
    var s := run.states[j];
    StillCancelled(cfg, run, i, j, tx);
    Reachable(cfg, run, j);
    SentIsNotCancelled(cfg, s, tx);
  }

  lemma SentIsNotCancelled(cfg: Config, s: State, tx: TxKey)
    requires s.relayer.RSend? && RelayerOk(cfg, s.relayer, s.transfers, s.attempts)
    requires TransfersOk(s.transfers, s.nextId, s.dispatched) && CancelledOk(s.cancelled, s.transfers)
             && tx in s.cancelled
    ensures TxKey(s.relayer.head.transfer.source, s.relayer.head.transfer.sentTx) != tx
  {
    var id := s.relayer.head.id;
    if SentBy(s.transfers[id], tx.chain, tx.hash) {
      OneRowPerTx(s, id, s.cancelled[tx]);
    }
  }

  ghost predicate Live(s: State, tx: TxKey) {
    exists id :: id in s.transfers && SentBy(s.transfers[id], tx.chain, tx.hash)
        && s.transfers[id].status != TransferCancelled
  }

  /** Of all the initiate txs a row has ever carried, only the one it carries now can have a
      transfer that is not cancelled. */
  lemma OneLiveTransfer(cfg: Config, run: Run, i: nat, k: OrderKey, h: Name)
    requires IsRun(cfg, run) && i < |run.states|
    requires k in run.states[i].carried && h in run.states[i].carried[k]
    ensures k in run.states[i].settlements
    ensures var row := run.states[i].settlements[k];
            row.initiateTx != Some(h) ==> !Live(run.states[i], TxKey(row.destination, h))
    ensures forall h' ::
              (h' in run.states[i].carried[k]
               && Live(run.states[i], TxKey(run.states[i].settlements[k].destination, h))
               && Live(run.states[i], TxKey(run.states[i].settlements[k].destination, h'))) ==> h == h'
  {
    var s := run.states[i];
    Reachable(cfg, run, i);
    assert OnlyOneLive(s.carried[k], s.settlements[k], s.cancelled);
    forall h' | h' in s.carried[k] && s.settlements[k].initiateTx != Some(h')
      ensures !Live(s, TxKey(s.settlements[k].destination, h'))
    {
      CancelledIsNotLive(s, TxKey(s.settlements[k].destination, h'));
    }
  }

  lemma CancelledIsNotLive(s: State, tx: TxKey)
    requires TransfersOk(s.transfers, s.nextId, s.dispatched) && CancelledOk(s.cancelled, s.transfers)
             && tx in s.cancelled
    ensures !Live(s, tx)
  {
    forall id | id in s.transfers && SentBy(s.transfers[id], tx.chain, tx.hash)
      ensures s.transfers[id].status == TransferCancelled
    {
      OneRowPerTx(s, id, s.cancelled[tx]);
    }
  }

  // ----- Relaying twice -----

  /** Some delivery of the tx was sent. */
  ghost predicate HasRelay(s: State, tx: TxKey) {
    exists n :: 0 <= n < |s.relays| && RelayOf(s, n, tx)
  }

  ghost predicate RelayOf(s: State, n: nat, tx: TxKey)
    requires n < |s.relays|
  {
    s.relays[n].id in s.transfers && SentBy(s.transfers[s.relays[n].id], tx.chain, tx.hash)
  }

  /** A step of the run made CancelRelay return true for the tx for the first time. */
  ghost predicate CancelledAt(run: Run, i: nat, tx: TxKey) {
    i + 1 < |run.states| && tx !in run.states[i].cancelled && tx in run.states[i + 1].cancelled
  }

  lemma {:induction false} WasCancelled(run: Run, j: nat, tx: TxKey) returns (i: nat)
    requires run.states != [] && Init(run.states[0]) && j < |run.states| && tx in run.states[j].cancelled
    ensures i < j && CancelledAt(run, i, tx)
  {
    if tx in run.states[j - 1].cancelled {
      i := WasCancelled(run, j - 1, tx);
    } else {
      i := j - 1;
    }
  }

  /** The relays are kept, and so is what they were for. */
  lemma RelaysKept(s: State, s': State, tx: TxKey)
    requires StatusOnlyLeavesPending(s.transfers, s'.transfers) && s.relays <= s'.relays
    requires forall n :: 0 <= n < |s.relays| ==> s.relays[n].id in s.transfers
    ensures HasRelay(s, tx) ==> HasRelay(s', tx)
    ensures HasRelay(s', tx) ==> HasRelay(s, tx) || exists n :: |s.relays| <= n < |s'.relays| && RelayOf(s', n, tx)
  {
    forall n | 0 <= n < |s.relays| ensures RelayOf(s', n, tx) <==> RelayOf(s, n, tx) {
      assert s'.relays[n] == s.relays[n];
    }
  }

  lemma SendIsForTheHead(s: State, fee: int, s': State, tx: TxKey)
    requires DoRelaySend(s, fee, s') && HasRelay(s', tx) && !HasRelay(s, tx)
    ensures s.relayer.head.id in s.transfers && SentBy(s.transfers[s.relayer.head.id], tx.chain, tx.hash)
  {
    var n :| 0 <= n < |s'.relays| && RelayOf(s', n, tx);
    if n < |s.relays| {
      assert RelayOf(s, n, tx);
    }
  }

  lemma StepAddsNoRelay(cfg: Config, s: State, a: Action, s': State, tx: TxKey)
    requires Next(cfg, s, a, s') && tx in s.cancelled && RelaysOk(cfg, s.relays, s.transfers)
    requires TransfersOk(s.transfers, s.nextId, s.dispatched) && CancelledOk(s.cancelled, s.transfers)
    requires SettlerOk(s.settler, s.settlements, s.transfers, s.sent, s.cancelled)
    requires RelayerOk(cfg, s.relayer, s.transfers, s.attempts)
    ensures HasRelay(s', tx) <==> HasRelay(s, tx)
  {
    StepFrame(cfg, s, a, s');
    forall n | 0 <= n < |s.relays| ensures s.relays[n].id in s.transfers {
      assert RelayOk(cfg, s.relays[n], s.transfers);
    }
    if a.SendStep? && a.send.RelaySend? {
      SendAddsNoRelay(cfg, s, a.send.fee, s', tx);
    } else {
      RelaysKept(s, s', tx);
    }
  }

  lemma SendAddsNoRelay(cfg: Config, s: State, fee: int, s': State, tx: TxKey)
    requires DoRelaySend(s, fee, s') && tx in s.cancelled
    requires TransfersOk(s.transfers, s.nextId, s.dispatched) && CancelledOk(s.cancelled, s.transfers)
    requires RelayerOk(cfg, s.relayer, s.transfers, s.attempts)
    requires forall n :: 0 <= n < |s.relays| ==> s.relays[n].id in s.transfers
    ensures HasRelay(s', tx) <==> HasRelay(s, tx)
  {
    RelaysKept(s, s', tx);
    SentIsNotCancelled(cfg, s, tx);
    if HasRelay(s', tx) && !HasRelay(s, tx) {
      SendIsForTheHead(s, fee, s', tx);
    }
  }

  /** After CancelRelay has returned true for a tx, whether it was relayed is settled. */
  lemma RelaysEndWithCancel(cfg: Config, run: Run, i: nat, j: nat, tx: TxKey)
    requires IsRun(cfg, run) && i <= j < |run.states| && tx in run.states[i].cancelled
    ensures HasRelay(run.states[j], tx) <==> HasRelay(run.states[i], tx)
  {
    var relayed := HasRelay(run.states[i], tx);
    var p := s => Inv(cfg, s) && tx in s.cancelled && (HasRelay(s, tx) <==> relayed);
    forall s, a, s' | p(s) && Steps(cfg)(s, a, s') ensures p(s') {
      StepKeeps(cfg, s, a, s');
      StepFrame(cfg, s, a, s');
      StepAddsNoRelay(cfg, s, a, s', tx);
    }
    Reachable(cfg, run, i);
    RunKeeps(run, Steps(cfg), p, i, j);
  }

  /** A cancel is no proof that nothing was delivered: when exactly a settlement's earlier tx
      was relayed, so that two of its txs can be. A tx the row has lost was cancelled in some
      step of the run, and it was ever relayed if and only if it had been before that. */
  lemma RelayedBeforeCancelExactly(cfg: Config, run: Run, j: nat, k: OrderKey, h: Name) returns (i: nat)
    requires IsRun(cfg, run) && j < |run.states| && k in run.states[j].carried && h in run.states[j].carried[k]
    requires k in run.states[j].settlements && run.states[j].settlements[k].initiateTx != Some(h)
    ensures var tx := TxKey(run.states[j].settlements[k].destination, h);
            i < j && CancelledAt(run, i, tx) && (HasRelay(run.states[j], tx) <==> HasRelay(run.states[i], tx))
  {
    var s := run.states[j];
    var tx := TxKey(s.settlements[k].destination, h);
    LostTxIsCancelled(cfg, run, j, k, h);
    i := WasCancelled(run, j, tx);
    RelaysEndWithCancel(cfg, run, i + 1, j, tx);
    CancelStepSendsNothing(cfg, run, i, tx);
  }

  lemma LostTxIsCancelled(cfg: Config, run: Run, j: nat, k: OrderKey, h: Name)
    requires IsRun(cfg, run) && j < |run.states| && k in run.states[j].carried && h in run.states[j].carried[k]
    ensures k in run.states[j].settlements
    ensures var row := run.states[j].settlements[k];
            row.initiateTx != Some(h) ==> TxKey(row.destination, h) in run.states[j].cancelled
  {
    Reachable(cfg, run, j);
    assert OnlyOneLive(run.states[j].carried[k], run.states[j].settlements[k], run.states[j].cancelled);
  }

  lemma CancelStepSendsNothing(cfg: Config, run: Run, i: nat, tx: TxKey)
    requires IsRun(cfg, run) && CancelledAt(run, i, tx)
    ensures HasRelay(run.states[i + 1], tx) <==> HasRelay(run.states[i], tx)
  {
    var s, s' := run.states[i], run.states[i + 1];
    assert Steps(cfg)(s, run.steps[i], s');
    Reachable(cfg, run, i);
    CancelIsNoSend(cfg, s, run.steps[i], s', tx);
  }

  lemma CancelIsNoSend(cfg: Config, s: State, a: Action, s': State, tx: TxKey)
    requires Next(cfg, s, a, s') && tx !in s.cancelled && tx in s'.cancelled
    requires TransfersOk(s.transfers, s.nextId, s.dispatched) && RelaysOk(cfg, s.relays, s.transfers)
    requires SettlerOk(s.settler, s.settlements, s.transfers, s.sent, s.cancelled)
    requires RelayerOk(cfg, s.relayer, s.transfers, s.attempts)
    ensures HasRelay(s', tx) <==> HasRelay(s, tx)
  {
    StepFrame(cfg, s, a, s');
    if a.SendStep? {
      SendFrame(s, a.send, s');
    }
    forall n | 0 <= n < |s.relays| ensures s.relays[n].id in s.transfers {
      assert RelayOk(cfg, s.relays[n], s.transfers);
    }
    RelaysKept(s, s', tx);
  }

  // ----- Settlement rows -----

  /** A row is never deleted, and loses a tx only to none, after CancelRelay returned true
      for that very tx. */
  lemma TxIsReplacedOnlyAfterCancel(cfg: Config, run: Run, i: nat, k: OrderKey)
    requires IsRun(cfg, run) && i < |run.steps|
    requires k in run.states[i].settlements && run.states[i].settlements[k].initiateTx.Some?
    ensures k in run.states[i + 1].settlements
    ensures var row, row' := run.states[i].settlements[k], run.states[i + 1].settlements[k];
            var tx := TxKey(row.destination, row.initiateTx.value);
            && row'.destination == row.destination
            && (row'.initiateTx == row.initiateTx
                || (row'.initiateTx == None && tx in run.states[i].cancelled && !Live(run.states[i], tx)))
  {
    Reachable(cfg, run, i);
    StepTakesOnlyCancelled(cfg, run.states[i], run.steps[i], run.states[i + 1], k);
  }

  lemma StepTakesOnlyCancelled(cfg: Config, s: State, a: Action, s': State, k: OrderKey)
    requires Next(cfg, s, a, s') && k in s.settlements && s.settlements[k].initiateTx.Some?
    requires TransfersOk(s.transfers, s.nextId, s.dispatched) && CancelledOk(s.cancelled, s.transfers)
    requires SettlerOk(s.settler, s.settlements, s.transfers, s.sent, s.cancelled)
    requires RelayerOk(cfg, s.relayer, s.transfers, s.attempts)
    ensures k in s'.settlements && s'.settlements[k].destination == s.settlements[k].destination
    ensures var tx := TxKey(s.settlements[k].destination, s.settlements[k].initiateTx.value);
            s'.settlements[k].initiateTx == s.settlements[k].initiateTx
            || (s'.settlements[k].initiateTx == None && tx in s.cancelled && !Live(s, tx))
  {
    if a == CancelStep(ClearRows) {
      ClearTakesCancelled(s, s', k);
    } else if a.SettleStep? && a.settle.RecordBatch? {
      RecordLeavesTaken(s, a.settle.batch, s', k);
    } else {
      StepFrame(cfg, s, a, s');
    }
  }

  lemma ClearTakesCancelled(s: State, s': State, k: OrderKey)
    requires DoClearRows(s, s') && k in s.settlements && s.settlements[k].initiateTx.Some?
    requires SettlerOk(s.settler, s.settlements, s.transfers, s.sent, s.cancelled)
    requires TransfersOk(s.transfers, s.nextId, s.dispatched) && CancelledOk(s.cancelled, s.transfers)
    ensures k in s'.settlements && s'.settlements[k].destination == s.settlements[k].destination
    ensures var tx := TxKey(s.settlements[k].destination, s.settlements[k].initiateTx.value);
            s'.settlements[k].initiateTx == s.settlements[k].initiateTx
            || (s'.settlements[k].initiateTx == None && tx in s.cancelled && !Live(s, tx))
  {
    var tx := TxKey(s.settlements[k].destination, s.settlements[k].initiateTx.value);
    if tx in s.cancelled {
      CancelledIsNotLive(s, tx);
    }
  }

  lemma RecordLeavesTaken(s: State, batch: nat, s': State, k: OrderKey)
    requires DoRecordBatch(s, batch, s') && k in s.settlements && s.settlements[k].initiateTx.Some?
    requires SettlePlan(s.settlements, s.settler.plan)
    ensures k in s'.settlements && s'.settlements[k] == s.settlements[k]
  {
  }

  /** Recording a batch never overwrites a tx: every row of it carried none. */
  lemma RecordNeverOverwrites(cfg: Config, run: Run, i: nat, batch: nat, k: OrderKey)
    requires IsRun(cfg, run) && i < |run.steps| && run.steps[i] == SettleStep(RecordBatch(batch))
    requires run.states[i].settler.SSettle? && batch in run.states[i].settler.flying
    requires k in BatchKeys(run.states[i].settler.plan, batch)
    ensures k in run.states[i].settlements && run.states[i].settlements[k].initiateTx == None
    ensures run.states[i + 1].settlements[k].initiateTx == Some(run.states[i].settler.flying[batch])
  {
    assert Steps(cfg)(run.states[i], run.steps[i], run.states[i + 1]);
    Reachable(cfg, run, i);
    RecordFillsFreeRows(cfg, run.states[i], batch, run.states[i + 1], k);
  }

  lemma RecordFillsFreeRows(cfg: Config, s: State, batch: nat, s': State, k: OrderKey)
    requires Next(cfg, s, SettleStep(RecordBatch(batch)), s')
    requires SettlerOk(s.settler, s.settlements, s.transfers, s.sent, s.cancelled)
    requires s.settler.SSettle? && batch in s.settler.flying && k in BatchKeys(s.settler.plan, batch)
    ensures k in s.settlements && s.settlements[k].initiateTx == None
    ensures s'.settlements[k].initiateTx == Some(s.settler.flying[batch])
  {
  }

  /** The shape of every settlement row in every reachable state. */
  lemma RowShape(cfg: Config, run: Run, i: nat, k: OrderKey)
    requires IsRun(cfg, run) && i < |run.states| && k in run.states[i].settlements
    ensures var s := run.states[i]; var row := s.settlements[k];
            && (row.status != Pending ==> row.initiateTx.Some?)
            && (row.transferId.Some? ==>
                  && (row.status == Initiated || row.status == Complete)
                  && row.transferId.value in s.transfers
                  && SentBy(s.transfers[row.transferId.value], row.destination, row.initiateTx.value))
  {
    Reachable(cfg, run, i);
    assert RowOk(k, run.states[i].settlements[k], run.states[i].transfers, run.states[i].sent);
  }

  /** Rows with one initiate tx share both chains, so a batch grouped by tx hash may read
      its chains from its first row. */
  lemma SharedTxSharesChains(cfg: Config, run: Run, i: nat, k: OrderKey, k': OrderKey)
    requires IsRun(cfg, run) && i < |run.states|
    requires k in run.states[i].settlements && k' in run.states[i].settlements
    requires run.states[i].settlements[k].initiateTx.Some?
    requires run.states[i].settlements[k].initiateTx == run.states[i].settlements[k'].initiateTx
    ensures k.source == k'.source
    ensures run.states[i].settlements[k].destination == run.states[i].settlements[k'].destination
  {
    Reachable(cfg, run, i);
    var s := run.states[i];
    assert RowOk(k, s.settlements[k], s.transfers, s.sent);
    assert RowOk(k', s.settlements[k'], s.transfers, s.sent);
  }

  // ----- Clearing twice -----

  ghost predicate NoRowCarries(rows: Settlements, hash: Name) {
    forall k :: k in rows ==> rows[k].initiateTx != Some(hash)
  }

  lemma StaysCleared(cfg: Config, s: State, a: Action, s': State, tx: TxKey)
    requires Next(cfg, s, a, s') && tx in s.cancelled && NoRowCarries(s.settlements, tx.hash)
    requires ChainsOk(cfg, s.sent, s.dispatched)
    requires TransfersOk(s.transfers, s.nextId, s.dispatched) && CancelledOk(s.cancelled, s.transfers)
    requires SettlerOk(s.settler, s.settlements, s.transfers, s.sent, s.cancelled)
    requires RelayerOk(cfg, s.relayer, s.transfers, s.attempts)
    ensures NoRowCarries(s'.settlements, tx.hash)
  {
    if a == CancelStep(ClearRows) {
      ClearAddsNoTx(s, s', tx.hash);
    } else if a.SettleStep? && a.settle.RecordBatch? {
      RecordStaysCleared(cfg, s, a.settle.batch, s', tx);
    } else {
      StepFrame(cfg, s, a, s');
      SameTxsStayCleared(s.settlements, s'.settlements, tx.hash);
    }
  }

  lemma SameTxsStayCleared(rows: Settlements, rows': Settlements, hash: Name)
    requires SameTxs(rows, rows') && NoRowCarries(rows, hash)
    ensures NoRowCarries(rows', hash)
  {
  }

  lemma RecordStaysCleared(cfg: Config, s: State, batch: nat, s': State, tx: TxKey)
    requires DoRecordBatch(s, batch, s') && tx in s.cancelled && NoRowCarries(s.settlements, tx.hash)
    requires ChainsOk(cfg, s.sent, s.dispatched)
    requires TransfersOk(s.transfers, s.nextId, s.dispatched) && CancelledOk(s.cancelled, s.transfers)
    requires SettlerOk(s.settler, s.settlements, s.transfers, s.sent, s.cancelled)
    ensures NoRowCarries(s'.settlements, tx.hash)
  {
    FlightIsNotCancelled(cfg, s, batch, tx);
    RecordAddsOneTx(s, batch, s', tx.hash);
  }

  lemma ClearAddsNoTx(s: State, s': State, hash: Name)
    requires DoClearRows(s, s') && NoRowCarries(s.settlements, hash)
    ensures NoRowCarries(s'.settlements, hash)
  {
  }

  lemma RecordAddsOneTx(s: State, batch: nat, s': State, hash: Name)
    requires DoRecordBatch(s, batch, s') && NoRowCarries(s.settlements, hash) && s.settler.flying[batch] != hash
    ensures NoRowCarries(s'.settlements, hash)
  {
  }

  lemma FlightIsNotCancelled(cfg: Config, s: State, batch: nat, tx: TxKey)
    requires s.settler.SSettle? && batch in s.settler.flying && tx in s.cancelled
    requires SettlerOk(s.settler, s.settlements, s.transfers, s.sent, s.cancelled)
    requires TransfersOk(s.transfers, s.nextId, s.dispatched) && ChainsOk(cfg, s.sent, s.dispatched)
    requires CancelledOk(s.cancelled, s.transfers)
    ensures s.settler.flying[batch] != tx.hash
  {
    var hash := s.settler.flying[batch];
    assert FlightOk(batch, hash, s.settler.plan, s.settlements, s.transfers, s.sent);
    assert TransferOk(s.transfers[s.cancelled[tx]], s.dispatched);
  }

  /** The tx was cancelled and no row carries it any more. */
  ghost predicate Gone(s: State, tx: TxKey) {
    tx in s.cancelled && NoRowCarries(s.settlements, tx.hash)
  }

  lemma StepStaysGone(cfg: Config, s: State, a: Action, s': State, tx: TxKey)
    requires Next(cfg, s, a, s') && Gone(s, tx) && ChainsOk(cfg, s.sent, s.dispatched)
    requires TransfersOk(s.transfers, s.nextId, s.dispatched) && CancelledOk(s.cancelled, s.transfers)
    requires SettlerOk(s.settler, s.settlements, s.transfers, s.sent, s.cancelled)
    requires RelayerOk(cfg, s.relayer, s.transfers, s.attempts)
    ensures Gone(s', tx)
  {
    StaysCleared(cfg, s, a, s', tx);
    StepFrame(cfg, s, a, s');
  }

  lemma StaysGone(cfg: Config, run: Run, i: nat, j: nat, tx: TxKey)
    requires IsRun(cfg, run) && i <= j < |run.states| && Gone(run.states[i], tx)
    ensures Gone(run.states[j], tx)
  {
    var p := s => Inv(cfg, s) && Gone(s, tx);
    forall s, a, s' | p(s) && Steps(cfg)(s, a, s') ensures p(s') {
      StepKeeps(cfg, s, a, s');
      StepStaysGone(cfg, s, a, s', tx);
    }
    Reachable(cfg, run, i);
    RunKeeps(run, Steps(cfg), p, i, j);
  }

  /** Once a cancelled tx has been cleared from every row it never comes back, so repeating
      the clear for the other rows of the batch changes nothing. */
  lemma ClearingAgainChangesNothing(cfg: Config, run: Run, i: nat, j: nat, tx: TxKey)
    requires IsRun(cfg, run) && i <= j < |run.states|
    requires Gone(run.states[i], tx)
    ensures Gone(run.states[j], tx)
    ensures ClearInitiate(run.states[j].settlements, tx.chain, Some(tx.hash)) == run.states[j].settlements
  {
    StaysGone(cfg, run, i, j, tx);
    NothingToClear(run.states[j].settlements, tx);
  }

  lemma NothingToClear(rows: Settlements, tx: TxKey)
    requires NoRowCarries(rows, tx.hash)
    ensures ClearInitiate(rows, tx.chain, Some(tx.hash)) == rows
  {
  }

  /** The clear that follows a true answer empties every row of the batch at once, whatever
      its status: a complete row goes back to pending exactly when it carries that tx. */
  lemma ClearEmptiesTheBatch(cfg: Config, run: Run, i: nat)
    requires IsRun(cfg, run) && i < |run.steps| && run.steps[i] == CancelStep(ClearRows)
    requires run.states[i].settler.SClear?
    ensures var head := run.states[i].settler.head;
            head.row.initiateTx.Some? ==> NoRowCarries(run.states[i + 1].settlements, head.row.initiateTx.value)
    ensures forall k :: k in run.states[i].settlements && run.states[i].settlements[k].status == Complete ==>
              (run.states[i + 1].settlements[k].status == Pending <==>
               run.states[i].settlements[k].initiateTx == run.states[i].settler.head.row.initiateTx)
  {
    assert Steps(cfg)(run.states[i], run.steps[i], run.states[i + 1]);
    Reachable(cfg, run, i);
    ClearEmptiesRows(cfg, run.states[i], run.states[i + 1]);
  }

  lemma ClearEmptiesRows(cfg: Config, s: State, s': State)
    requires DoClearRows(s, s')
    requires SettlerOk(s.settler, s.settlements, s.transfers, s.sent, s.cancelled)
             && CancelledOk(s.cancelled, s.transfers)
    requires SettlementsOk(cfg, s.settlements, s.transfers, s.sent)
    requires TransfersOk(s.transfers, s.nextId, s.dispatched) && ChainsOk(cfg, s.sent, s.dispatched)
    ensures s.settler.head.row.initiateTx.Some? ==> NoRowCarries(s'.settlements, s.settler.head.row.initiateTx.value)
    ensures forall k :: k in s.settlements && s.settlements[k].status == Complete ==>
              (s'.settlements[k].status == Pending <==> s.settlements[k].initiateTx == s.settler.head.row.initiateTx)
  {
    var head := s.settler.head;
    forall k | k in s.settlements && head.row.initiateTx.Some? && s.settlements[k].initiateTx == head.row.initiateTx
      ensures s.settlements[k].destination == head.row.destination
    {
      assert RowOk(k, s.settlements[k], s.transfers, s.sent);
      CancelledChain(cfg, s, TxKey(head.row.destination, head.row.initiateTx.value));
    }
    forall k | k in s.settlements && s.settlements[k].status == Complete ensures s.settlements[k].initiateTx.Some? {
      assert RowOk(k, s.settlements[k], s.transfers, s.sent);
    }
  }

  ghost predicate IsComplete(rows: Settlements, k: OrderKey) {
    k in rows && rows[k].status == Complete
  }

  lemma VerifyKeepsComplete(s: State, a: VerifyAction, s': State, k: OrderKey)
    requires VerifyNext(s, a, s') && IsComplete(s.settlements, k)
    requires SettlerOk(s.settler, s.settlements, s.transfers, s.sent, s.cancelled)
    ensures IsComplete(s'.settlements, k)
  {
  }

  lemma SettleKeepsComplete(cfg: Config, s: State, a: SettleAction, s': State, k: OrderKey)
    requires SettleNext(cfg, s, a, s') && IsComplete(s.settlements, k)
    ensures IsComplete(s'.settlements, k)
  {
  }

  lemma LinkKeepsComplete(s: State, s': State, k: OrderKey)
    requires DoLinkRow(s, s') && IsComplete(s.settlements, k)
    ensures IsComplete(s'.settlements, k)
  {
  }

  lemma OthersKeepComplete(cfg: Config, s: State, a: Action, s': State, k: OrderKey)
    requires Next(cfg, s, a, s') && IsComplete(s.settlements, k) && a != CancelStep(ClearRows)
    requires TransfersOk(s.transfers, s.nextId, s.dispatched)
    requires SettlerOk(s.settler, s.settlements, s.transfers, s.sent, s.cancelled)
    ensures IsComplete(s'.settlements, k)
  {
    match a
    case SubmitStep(SubmitInsert(lag)) => SubmitInsertFrame(cfg, s, lag, s');
    case SubmitStep(LinkRow) => LinkKeepsComplete(s, s', k);
    case SubmitStep(x) => SubmitFrame(cfg, s, x, s');
    case CancelStep(x) => CancelFrame(s, x, s');
    case SettleStep(x) => SettleKeepsComplete(cfg, s, x, s', k);
    case VerifyStep(x) => VerifyKeepsComplete(s, x, s', k);
    case UpdateStep(thread, x) => UpdateFrame(s, thread, x, s');
    case ScanStep(x) => ScanFrame(cfg, s, x, s');
    case SendStep(x) => SendFrame(s, x, s');
    case VerifierStep(x) => VerifierFrame(s, x, s');
    case WorldStep(x) => WorldFrame(cfg, s, x, s');
  }

  /** Complete is not final, and this is exactly when it ends: a step of a run takes a
      complete row out of complete if and only if it is a clear for the tx of that row. */
  lemma CompleteEndsExactly(cfg: Config, run: Run, i: nat, k: OrderKey)
    requires IsRun(cfg, run) && i < |run.steps| && IsComplete(run.states[i].settlements, k)
    ensures k in run.states[i + 1].settlements
    ensures !IsComplete(run.states[i + 1].settlements, k) <==>
            && run.steps[i] == CancelStep(ClearRows) && run.states[i].settler.SClear?
            && run.states[i].settler.head.row.initiateTx == run.states[i].settlements[k].initiateTx
  {
    var s, s' := run.states[i], run.states[i + 1];
    assert Steps(cfg)(s, run.steps[i], s');
    Reachable(cfg, run, i);
    if run.steps[i] == CancelStep(ClearRows) {
      ClearEmptiesRows(cfg, s, s');
    } else {
      OthersKeepComplete(cfg, s, run.steps[i], s', k);
    }
  }

  lemma CancelledChain(cfg: Config, s: State, tx: TxKey)
    requires tx in s.cancelled && CancelledOk(s.cancelled, s.transfers)
    requires TransfersOk(s.transfers, s.nextId, s.dispatched) && ChainsOk(cfg, s.sent, s.dispatched)
    ensures tx.hash in s.sent && s.sent[tx.hash].chain == tx.chain
  {
    assert TransferOk(s.transfers[s.cancelled[tx]], s.dispatched);
  }

  // ----- Abandoning -----

  /** With its two arguments swapped the abandon call finds nothing, as long as no chain id
      is also a tx hash: no transfer is ever abandoned, in any run. */
  lemma NeverAbandoned(cfg: Config, run: Run, i: nat, id: nat)
    requires IsRun(cfg, run) && i < |run.states| && id in run.states[i].transfers
    ensures run.states[i].transfers[id].status != TransferAbandoned
  {
    Reachable(cfg, run, i);
    assert TransferOk(run.states[i].transfers[id], run.states[i].dispatched);
  }

  /** The lookup made with the swapped arguments for any row the relayer may hold finds
      no row of the table at all. */
  lemma SwappedFindsNothing(cfg: Config, run: Run, i: nat, id: nat, other: nat)
    requires IsRun(cfg, run) && i < |run.states| && id in run.states[i].transfers && other in run.states[i].transfers
    ensures var t := run.states[i].transfers[id]; !SentBy(run.states[i].transfers[other], t.sentTx, t.source)
  {
    Reachable(cfg, run, i);
    SentNamesAreNoChains(cfg, run.states[i], id, other);
  }

  /** It could only if a tx hash were also the name of a chain. */
  lemma SentNamesAreNoChains(cfg: Config, s: State, id: nat, other: nat)
    requires TransfersOk(s.transfers, s.nextId, s.dispatched) && ChainsOk(cfg, s.sent, s.dispatched)
    requires id in s.transfers && other in s.transfers
    ensures s.transfers[other].source in cfg.chains && s.transfers[id].sentTx !in cfg.chains
  {
    assert TransferOk(s.transfers[id], s.dispatched) && TransferOk(s.transfers[other], s.dispatched);
  }

  // ----- Deliveries -----

  lemma AttemptsReachable(cfg: Config, run: Run, i: nat, id: nat)
    requires IsRun(cfg, run) && i < |run.states|
    ensures id in run.states[i].attempts ==> AttemptsInOrder(run.states[i].attempts[id], run.states[i].clock)
  {
    Reachable(cfg, run, i);
  }

  /** In every reachable state all delivery attempts of a transfer but the last are
      abandoned, they were recorded at least ten minutes apart, and so the most recent one
      is the last one and has no tie. */
  lemma DeliveriesInOrder(cfg: Config, run: Run, i: nat, id: nat)
    requires IsRun(cfg, run) && i < |run.states| && id in run.states[i].attempts
    ensures var txs := run.states[i].attempts[id];
            && (forall p :: 0 <= p < |txs| - 1 ==> txs[p].status == TxAbandoned)
            && (forall p, q :: 0 <= p < q < |txs| ==> txs[q].createdAt - txs[p].createdAt >= TEN_MINUTES)
            && (txs != [] ==> MostRecent(txs) == txs[|txs| - 1])
  {
    var s := run.states[i];
    AttemptsReachable(cfg, run, i, id);
    if s.attempts[id] != [] {
      MostRecentIsLast(s.attempts[id], s.clock);
    }
  }

  /** Ten minutes is the exact bound. Timestamps have whole seconds, so an attempt recorded
      after more than ten minutes is stamped more than ten minutes after the one before it
      exactly when at least a second more than that has passed, and otherwise exactly ten
      minutes after it. */
  lemma TenMinutesExactly(cfg: Config, run: Run, i: nat, id: nat)
    requires IsRun(cfg, run) && i < |run.steps| && run.steps[i] == ScanStep(RelayRecord)
    requires run.states[i].relayer.RRecord? && run.states[i].relayer.head.id == id
    requires id in run.states[i].attempts && run.states[i].attempts[id] != []
    ensures var txs := run.states[i].attempts[id];
            var last, clock := txs[|txs| - 1].createdAt, run.states[i].clock;
            && id in run.states[i + 1].attempts && |run.states[i + 1].attempts[id]| == |txs| + 1
            && var gap := run.states[i + 1].attempts[id][|txs|].createdAt - last;
               (gap > TEN_MINUTES <==> clock - last >= TEN_MINUTES + SECOND) && gap >= TEN_MINUTES
  {
    var s, s' := run.states[i], run.states[i + 1];
    assert Steps(cfg)(s, run.steps[i], s');
    AttemptsReachable(cfg, run, i, id);
    AttemptsReachable(cfg, run, i + 1, id);
    RecordedGap(s, s', id);
  }

  lemma RecordedGap(s: State, s': State, id: nat)
    requires DoRelayRecord(s, s') && s.relayer.head.id == id && s.attempts[id] != []
    requires AttemptsInOrder(s.attempts[id], s.clock) && AttemptsInOrder(s'.attempts[id], s'.clock)
    ensures var n := |s.attempts[id]|;
            var last := s.attempts[id][n - 1].createdAt;
            && |s'.attempts[id]| == n + 1
            && var gap := s'.attempts[id][n].createdAt - last;
               (gap > TEN_MINUTES <==> s.clock - last >= TEN_MINUTES + SECOND) && gap >= TEN_MINUTES
  {
    var n := |s.attempts[id]|;
    StampGap(s.attempts[id][n - 1].createdAt, s.clock);
    assert s'.attempts[id][n - 1] == s.attempts[id][n - 1];
  }

  lemma StampGap(last: int, clock: int)
    requires last % SECOND == 0
    ensures Stamp(clock) - last > TEN_MINUTES <==> clock - last >= TEN_MINUTES + SECOND
  {
  }

  // ----- Money -----

  /** Every relay was within the cap: a positive fee of at most the larger of the stored cap
      and the relay cost cap. */
  lemma RelayWithinCap(cfg: Config, run: Run, i: nat, n: nat)
    requires IsRun(cfg, run) && i < |run.states| && n < |run.states[i].relays|
    ensures var s := run.states[i]; var r := s.relays[n];
            && r.id in s.transfers && s.transfers[r.id].maxFee.Some?
            && 0 < r.fee <= Max(s.transfers[r.id].maxFee.value, cfg.relayCap(s.transfers[r.id].destination))
  {
    Reachable(cfg, run, i);
    var s := run.states[i];
    assert RelayOk(cfg, s.relays[n], s.transfers);
    assert TransferOk(s.transfers[s.relays[n].id], s.dispatched);
  }

  /** The end-to-end margin: a settlement relay sent before its timeout leaves, of the
      profit of the batch as it was submitted, at least the margin on its value, unless the
      clock readings for its cap were further apart than that timeout. */
  lemma MarginKept(cfg: Config, run: Run, i: nat, n: nat)
    requires IsRun(cfg, run) && i < |run.states| && n < |run.states[i].relays|
    ensures var s := run.states[i]; var r := s.relays[n];
            && r.id in s.transfers
            && var t := s.transfers[r.id]; var tx := TxKey(t.source, t.sentTx);
            && tx.hash in s.sent
            && (s.sent[tx.hash].SettlementTx? ==>
                  && tx in s.terms
                  && (CapInTime(cfg, s.terms[tx], t.destination)
                      && !TimedOut(cfg.relayTimeout(t.destination), t.createdAt, r.sentAt) ==>
                        && s.terms[tx].profit - r.fee >= FloatMargin(cfg.marginBps(s.sent[tx.hash].payout),
                           s.terms[tx].value)
                        && MaxBatchTxFee(s.terms[tx].profit, s.terms[tx].value,
                           cfg.marginBps(s.sent[tx.hash].payout)) > 0))
  {
    Reachable(cfg, run, i);
    RelayKeepsMargin(cfg, run.states[i], run.states[i].relays[n]);
  }

  lemma RelayKeepsMargin(cfg: Config, s: State, r: Relay)
    requires RelayOk(cfg, r, s.transfers) && CapsOk(cfg, s.transfers, s.sent, s.terms)
    requires TransfersOk(s.transfers, s.nextId, s.dispatched) && ChainsOk(cfg, s.sent, s.dispatched)
    ensures var t := s.transfers[r.id]; var tx := TxKey(t.source, t.sentTx);
            && tx.hash in s.sent
            && (s.sent[tx.hash].SettlementTx? ==>
                  && tx in s.terms
                  && (CapInTime(cfg, s.terms[tx], t.destination)
                      && !TimedOut(cfg.relayTimeout(t.destination), t.createdAt, r.sentAt) ==>
                        && s.terms[tx].profit - r.fee >= FloatMargin(cfg.marginBps(s.sent[tx.hash].payout),
                           s.terms[tx].value)
                        && MaxBatchTxFee(s.terms[tx].profit, s.terms[tx].value,
                           cfg.marginBps(s.sent[tx.hash].payout)) > 0))
  {
    var t := s.transfers[r.id];
    assert TransferOk(t, s.dispatched);
    assert CapStored(cfg, t, s.sent, s.terms);
  }

  /** The cap stored for a batch is the one that keeps its margin exactly when it was computed
      in time, or the relay cost cap would not raise it anyway. */
  lemma StoredCapExactly(cfg: Config, t: Terms, destination: Name)
    ensures var fee := MaxBatchTxFee(t.profit, t.value, cfg.marginBps(t.payout));
            StoredCap(cfg, t, destination) == fee <==>
                CapInTime(cfg, t, destination) || cfg.relayCap(destination) <= fee
  {
  }

  /** The terms are those of the batch handed over; the row linked to it is a real one. */
  lemma TermsAreTheBatch(cfg: Config, run: Run, i: nat, lag: nat)
    requires IsRun(cfg, run) && i < |run.steps| && run.steps[i] == SubmitStep(SubmitInsert(lag))
    requires run.states[i].settler.SInsert? && run.states[i].settler.batch != []
    ensures var batch := run.states[i].settler.batch; var s' := run.states[i + 1];
            && BatchTx(batch) in s'.terms && s'.settler.SLink?
            && s'.terms[BatchTx(batch)].value == TotalValue(batch)
            && s'.terms[BatchTx(batch)].profit == TotalProfit(batch)
            && s'.terms[BatchTx(batch)].lag == lag
            && Submitted(s', s'.settler.id, BatchTx(batch), s'.terms[BatchTx(batch)])
  {
    assert Steps(cfg)(run.states[i], run.steps[i], run.states[i + 1]);
    Reachable(cfg, run, i + 1);
    InsertSubmits(cfg, run.states[i], lag, run.states[i + 1]);
  }

  lemma InsertSubmits(cfg: Config, s: State, lag: nat, s': State)
    requires DoSubmitInsert(cfg, s, lag, s')
    requires SettlerOk(s'.settler, s'.settlements, s'.transfers, s'.sent, s'.cancelled)
    ensures var tx := BatchTx(s.settler.batch);
            && tx in s'.terms && s'.settler.SLink?
            && s'.terms[tx].value == TotalValue(s.settler.batch) && s'.terms[tx].profit == TotalProfit(s.settler.batch)
            && s'.terms[tx].lag == lag
            && Submitted(s', s'.settler.id, tx, s'.terms[tx])
  {
  }

  /** The transfer was submitted for the tx on these terms. */
  ghost predicate Submitted(s: State, id: nat, tx: TxKey, t: Terms) {
    id in s.transfers && SentBy(s.transfers[id], tx.chain, tx.hash) && tx in s.terms && s.terms[tx] == t
  }

  lemma InsertKeepsTerms(cfg: Config, s: State, lag: nat, s': State, id: nat, tx: TxKey, t: Terms)
    requires DoSubmitInsert(cfg, s, lag, s') && Submitted(s, id, tx, t)
    requires NoTransfer(s.transfers, BatchTx(s.settler.batch)) && TransfersOk(s.transfers, s.nextId, s.dispatched)
    ensures Submitted(s', id, tx, t)
  {
    SubmitInsertFrame(cfg, s, lag, s');
    assert !SentBy(s.transfers[id], BatchTx(s.settler.batch).chain, BatchTx(s.settler.batch).hash);
  }

  lemma StepKeepsTerms(cfg: Config, s: State, a: Action, s': State, id: nat, tx: TxKey, t: Terms)
    requires Next(cfg, s, a, s') && Submitted(s, id, tx, t) && TransfersOk(s.transfers, s.nextId, s.dispatched)
    requires SettlerOk(s.settler, s.settlements, s.transfers, s.sent, s.cancelled)
    requires RelayerOk(cfg, s.relayer, s.transfers, s.attempts)
    ensures Submitted(s', id, tx, t)
  {
    if a.SubmitStep? && a.submit.SubmitInsert? {
      InsertKeepsTerms(cfg, s, a.submit.lag, s', id, tx, t);
    } else {
      StepFrame(cfg, s, a, s');
    }
  }

  /** Later steps never change the terms of a submitted transfer. */
  lemma TermsAreKept(cfg: Config, run: Run, i: nat, j: nat, id: nat, tx: TxKey, t: Terms)
    requires IsRun(cfg, run) && i <= j < |run.states| && Submitted(run.states[i], id, tx, t)
    ensures Submitted(run.states[j], id, tx, t)
  {
    var p := s => Inv(cfg, s) && Submitted(s, id, tx, t);
    forall s, a, s' | p(s) && Steps(cfg)(s, a, s') ensures p(s') {
      StepKeeps(cfg, s, a, s');
      StepKeepsTerms(cfg, s, a, s', id, tx, t);
    }
    Reachable(cfg, run, i);
    RunKeeps(run, Steps(cfg), p, i, j);
  }
}

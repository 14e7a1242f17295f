/** Stretches of runs, each a whole piece of work of one loop, to build runs from. */
module Stretches {
  import opened Basics
  import opened Fees
  import opened Tables
  import opened Protocol
  import opened Theorems

  // ----- Building a run -----

  ghost predicate EndsIn(cfg: Config, run: Run, s: State) {
    IsRun(cfg, run) && run.states[|run.states| - 1] == s
  }

  ghost predicate CanReach(cfg: Config, s: State) {
    exists run :: EndsIn(cfg, run, s)
  }

  function Then(run: Run, a: Action, s: State): Run {
    Run(run.states + [s], run.steps + [a])
  }

  lemma ThenIsRun(cfg: Config, run: Run, s: State, a: Action, s': State)
    requires EndsIn(cfg, run, s) && Next(cfg, s, a, s')
    ensures EndsIn(cfg, Then(run, a, s'), s')
  {
    var more := Then(run, a, s');
    forall i | 0 <= i < |more.steps| ensures Steps(cfg)(more.states[i], more.steps[i], more.states[i + 1]) {
      if i < |run.steps| {
        assert Steps(cfg)(run.states[i], run.steps[i], run.states[i + 1]);
      }
    }
  }

  lemma Reach(cfg: Config, s: State, a: Action, s': State)
    requires CanReach(cfg, s) && Next(cfg, s, a, s')
    ensures CanReach(cfg, s')
  {
    var run :| EndsIn(cfg, run, s);
    ThenIsRun(cfg, run, s, a, s');
  }

  lemma LastStep(cfg: Config, s: State, a: Action, s': State) returns (run: Run, i: nat)
    requires CanReach(cfg, s) && Next(cfg, s, a, s')
    ensures IsRun(cfg, run) && i + 1 == |run.steps| && run.states[i] == s && run.states[i + 1] == s'
  {
    var before :| EndsIn(cfg, before, s);
    ThenIsRun(cfg, before, s, a, s');
    run, i := Then(before, a, s'), |before.steps|;
  }

  lemma RunTo(cfg: Config, s: State) returns (run: Run)
    requires CanReach(cfg, s)
    ensures IsRun(cfg, run) && run.states[|run.states| - 1] == s
  {
    run :| EndsIn(cfg, run, s);
  }

  /** What holds in a state holds after a step. The stretches below are about any such `p`. */
  ghost predicate Kept(cfg: Config, p: State -> bool) {
    forall s, a, s' :: p(s) && Next(cfg, s, a, s') ==> p(s')
  }

  lemma Go(cfg: Config, p: State -> bool, s: State, a: Action, s': State)
    requires Kept(cfg, p) && p(s) && Next(cfg, s, a, s')
    ensures p(s')
  {
  }

  ghost function Reaches(cfg: Config): (p: State -> bool)
    ensures Kept(cfg, p)
    ensures forall s :: Init(s) ==> p(s)
    ensures forall s :: p(s) ==> CanReach(cfg, s)
  {
    var p := s => CanReach(cfg, s);
    assert Kept(cfg, p) by {
      forall s, a, s' | p(s) && Next(cfg, s, a, s') ensures p(s') {
        Reach(cfg, s, a, s');
      }
    }
    assert forall s :: Init(s) ==> p(s) by {
      forall s | Init(s) ensures p(s) {
        assert EndsIn(cfg, Run([s], []), s);
      }
    }
    p
  }

  // ----- Stretches of a run -----

  /** All rows of the plan are settled by one tx. */
  function Settled(s: State, plan: map<OrderKey, nat>, hash: Name, destination: Name, payout: Name): State {
    s.(settlements := SetInitiateTx(s.settlements, plan.Keys, hash),
       sent := s.sent[hash := SettlementTx(destination, payout)],
       carried := map k | k in s.carried.Keys + plan.Keys ::
                    (if k in s.carried then s.carried[k] else {}) + (if k in plan.Keys then {hash} else {}))
  }

  lemma Settle(cfg: Config, p: State -> bool, s: State, plan: map<OrderKey, nat>, hash: Name, k: OrderKey)
    requires Kept(cfg, p) && p(s) && s.settler == SReady && SettlePlan(s.settlements, plan) && k in plan
    requires (forall j :: j in plan ==> plan[j] == 0) && hash !in s.sent && hash !in cfg.chains
    ensures p(Settled(s, plan, hash, s.settlements[k].destination, k.source))
  {
    var after := Settled(s, plan, hash, s.settlements[k].destination, k.source);
    var s1 := s.(sent := after.sent, settler := SSettle(plan, map[0 := hash]));
    var s2 := after.(settler := SSettle(map[], map[]));
    SendPlan(cfg, p, s, plan, hash, k, s1);
    RecordPlan(s1, hash, s2);
    Go(cfg, p, s1, SettleStep(RecordBatch(0)), s2);
    Rest(cfg, p, s2, after);
  }

  lemma SendPlan(cfg: Config, p: State -> bool, s: State, plan: map<OrderKey, nat>, hash: Name, k: OrderKey, s': State)
    requires Kept(cfg, p) && p(s) && s.settler == SReady && SettlePlan(s.settlements, plan) && k in plan
    requires plan[k] == 0 && hash !in s.sent && hash !in cfg.chains
    requires s' == s.(sent := s.sent[hash := SettlementTx(s.settlements[k].destination, k.source)],
                      settler := SSettle(plan, map[0 := hash]))
    ensures p(s')
  {
    var s1 := s.(settler := SSettle(plan, map[]));
    Go(cfg, p, s, SettleStep(SettleRead(plan)), s1);
    BroadcastPlan(cfg, s1, hash, k, s');
    Go(cfg, p, s1, SettleStep(Broadcast(0, hash)), s');
  }

  /** The settler is done with what it was at. */
  lemma Rest(cfg: Config, p: State -> bool, s: State, s': State)
    requires Kept(cfg, p) && p(s) && !s.settler.SCancelling? && s' == s.(settler := SReady)
    ensures p(s')
  {
    Go(cfg, p, s, SettleStep(SettlerAbort), s');
  }

  lemma BroadcastPlan(cfg: Config, s: State, hash: Name, k: OrderKey, s': State)
    requires s.settler.SSettle? && s.settler.flying == map[] && hash !in s.sent && hash !in cfg.chains
    requires k in s.settler.plan && s.settler.plan[k] == 0 && k in s.settlements
    requires s' == s.(sent := s.sent[hash := SettlementTx(s.settlements[k].destination, k.source)],
                      settler := s.settler.(flying := map[0 := hash]))
    ensures DoBroadcast(cfg, s, 0, hash, s')
  {
  }

  lemma RecordPlan(s: State, hash: Name, s': State)
    requires s.settler.SSettle? && s.settler.flying == map[0 := hash]
    requires forall j :: j in s.settler.plan ==> s.settler.plan[j] == 0
    requires var keys := s.settler.plan.Keys;
             s' == s.(settlements := SetInitiateTx(s.settlements, keys, hash),
                      carried := map k | k in s.carried.Keys + keys ::
                                   (if k in s.carried then s.carried[k] else {}) + (if k in keys then {hash} else {}),
                      settler := SSettle(map[], map[]))
    ensures DoRecordBatch(s, 0, s')
  {
    var plan := s.settler.plan;
    assert BatchKeys(plan, 0) == plan.Keys;
    assert plan - plan.Keys == map[] && map[0 := hash] - {0} == map[];
  }

  /** The first row of a verify pass has succeeded, and may be complete. */
  function Checked(rows: Settlements, head: Snap, complete: bool): Settlements {
    var rows1 := if head.row.status == Pending then SetStatus(rows, head.key, Initiated) else rows;
    if complete then SetStatus(rows1, head.key, Complete) else rows1
  }

  lemma Check(cfg: Config, p: State -> bool, s: State, todo: seq<Snap>, complete: bool)
    requires Kept(cfg, p) && p(s.(settler := SVerify(todo))) && todo != []
    ensures p(s.(settlements := Checked(s.settlements, todo[0], complete), settler := SVerify(todo[1..])))
  {
    var rows1 := Checked(s.settlements, todo[0], false);
    var s1 := s.(settlements := rows1, settler := SCheck(todo[0], todo[1..]));
    Go(cfg, p, s.(settler := SVerify(todo)), VerifyStep(VerifyInitiated), s1);
    Go(cfg, p, s1, VerifyStep(CheckComplete(complete)),
                s.(settlements := Checked(s.settlements, todo[0], complete), settler := SVerify(todo[1..])));
  }

  function BatchTerms(batch: seq<Snap>): Terms
    requires batch != []
  {
    Terms(TotalValue(batch), TotalProfit(batch), batch[0].key.source, 0)
  }

  /** A batch is handed to the relayer at once and gets its transfer. */
  ghost function HandedOver(cfg: Config, s: State, batch: seq<Snap>): State
    requires batch != [] && BatchTx(batch) in s.dispatched
  {
    var tx := BatchTx(batch);
    Inserted(s, tx, StoredCap(cfg, BatchTerms(batch), s.dispatched[tx].destination)).(
      settler := SLink(InsertedId(s, tx), batch, []), terms := s.terms[tx := BatchTerms(batch)])
  }

  lemma HandOver(cfg: Config, p: State -> bool, s: State, batch: seq<Snap>)
    requires Kept(cfg, p) && p(s) && s.settler == SReady && SubmitBatch(s.settlements, batch)
    requires BatchTx(batch) in s.dispatched
    requires forall id :: id in s.transfers ==> !SentBy(s.transfers[id], BatchTx(batch).chain, BatchTx(batch).hash)
    ensures p(HandedOver(cfg, s, batch))
  {
    var s1 := s.(settler := SSubmit([batch]));
    var s2 := s.(settler := SInsert(batch, []));
    Go(cfg, p, s, SubmitStep(SubmitRead([batch])), s1);
    assert s1.settler.batches[1..] == [];
    Go(cfg, p, s1, SubmitStep(SubmitMissing), s2);
    InsertBatch(cfg, s, batch);
    Go(cfg, p, s2, SubmitStep(SubmitInsert(0)), HandedOver(cfg, s, batch));
  }

  lemma InsertBatch(cfg: Config, s: State, batch: seq<Snap>)
    requires batch != [] && BatchTx(batch) in s.dispatched
    ensures DoSubmitInsert(cfg, s.(settler := SInsert(batch, [])), 0, HandedOver(cfg, s, batch))
  {
  }

  function LinkedRows(rows: Settlements, batch: seq<Snap>, id: nat): Settlements {
    if batch == [] then rows else LinkedRows(SetTransferId(rows, batch[0].key, id), batch[1..], id)
  }

  lemma {:induction false} Link(cfg: Config, p: State -> bool, s: State, batch: seq<Snap>, id: nat)
    requires Kept(cfg, p) && p(s.(settler := SLink(id, batch, [])))
    ensures p(s.(settlements := LinkedRows(s.settlements, batch, id), settler := SReady))
    decreases |batch|
  {
    if batch == [] {
      var s1 := s.(settler := SSubmit([]));
      Go(cfg, p, s.(settler := SLink(id, batch, [])), SubmitStep(LinkDone), s1);
      Go(cfg, p, s1, SettleStep(SettlerAbort), s.(settler := SReady));
    } else {
      var s1 := s.(settlements := SetTransferId(s.settlements, batch[0].key, id));
      Go(cfg, p, s.(settler := SLink(id, batch, [])), SubmitStep(LinkRow), s1.(settler := SLink(id, batch[1..], [])));
      Link(cfg, p, s1, batch[1..], id);
    }
  }

  /** A pending transfer is relayed for this fee; the relayer still holds the mutex. */
  function Relaying(s: State, id: nat, fee: int): State
    requires id in s.transfers
  {
    s.(lock := Some(RelayerThread), relayer := RUnlock(Row(id, s.transfers[id]), [], Sent),
       relays := s.relays + [Relay(id, fee, s.clock, s.clock)])
  }

  lemma SendRelay(cfg: Config, p: State -> bool, s: State, id: nat, fee: int)
    requires Kept(cfg, p) && p(s) && s.relayer == RReady && s.lock == None && id in s.transfers
    requires s.transfers[id].status == TransferPending && ShouldRelay(s, id)
    requires var t := s.transfers[id];
             FeeAllowed(fee, RelayCostCap(cfg.relayCap(t.destination), t.maxFee, cfg.relayTimeout(t.destination),
                 t.createdAt, s.clock))
    ensures p(Relaying(s, id, fee))
  {
    var t := s.transfers[id];
    var head := Row(id, t);
    var cap := RelayCostCap(cfg.relayCap(t.destination), t.maxFee, cfg.relayTimeout(t.destination), t.createdAt,
        s.clock);
    var s1 := s.(relayer := RScan([head]));
    var s2 := s.(relayer := RLock(head, [], cap, s.clock));
    var s3 := s.(lock := Some(RelayerThread), relayer := RLookup(head, [], cap, s.clock));
    var s4 := s.(lock := Some(RelayerThread), relayer := RSend(head, [], cap, s.clock));
    Go(cfg, p, s, ScanStep(RelayRead([head])), s1);
    assert s1.relayer.todo[1..] == [];
    Go(cfg, p, s1, ScanStep(RelayDecide), s2);
    Go(cfg, p, s2, SendStep(RelayLock), s3);
    Go(cfg, p, s3, SendStep(RelayPending(id)), s4);
    Go(cfg, p, s4, SendStep(RelaySend(fee)), Relaying(s, id, fee));
  }

  /** And its attempt is recorded. */
  function Relayed(s: State, id: nat, fee: int): State
    requires id in s.transfers && id in s.attempts
  {
    s.(relays := s.relays + [Relay(id, fee, s.clock, s.clock)],
       attempts := s.attempts[id := s.attempts[id] + [Attempt(Stamp(s.clock), TxPending)]])
  }

  lemma RecordRelay(cfg: Config, p: State -> bool, s: State, id: nat, fee: int)
    requires Kept(cfg, p) && id in s.transfers && id in s.attempts && p(Relaying(s, id, fee))
    requires s.relayer == RReady && s.lock == None
    ensures p(Relayed(s, id, fee))
  {
    var s0, s3 := Relaying(s, id, fee), Relayed(s, id, fee);
    var s1 := s0.(lock := None, relayer := RRecord(Row(id, s.transfers[id]), []));
    var s2 := s3.(relayer := RScan([]));
    Go(cfg, p, s0, SendStep(RelayUnlock), s1);
    Go(cfg, p, s1, ScanStep(RelayRecord), s2);
    Go(cfg, p, s2, ScanStep(RelaySkip), s3);
  }

  /** CancelRelay returns true for the pending transfer of a row, which is to be cleared. */
  function Cancelled(s: State, head: Snap, id: nat): State
    requires id in s.transfers
  {
    var t := s.transfers[id];
    s.(transfers := SetMessageStatus(s.transfers, t.source, t.destination, t.message, TransferCancelled),
       cancelled := s.cancelled[TxKey(head.row.destination, Text(head.row.initiateTx)) := id],
       settler := SClear(head, []))
  }

  function Cancelling(s: State, head: Snap, phase: Phase): State {
    s.(settler := SCancelling(head, [], Update(head.row.destination, Text(head.row.initiateTx), TransferCancelled,
        phase)))
  }

  lemma StartCancel(cfg: Config, p: State -> bool, s: State, head: Snap)
    requires Kept(cfg, p) && p(s) && s.settler == SReady && s.lock == None
    requires head.key in s.settlements && s.settlements[head.key] == head.row && CancelCandidate(head.row)
    ensures p(Cancelling(s, head, Locked).(lock := Some(SettlerThread)))
  {
    var s1 := s.(settler := SCancel([head]));
    var s2 := Cancelling(s, head, AtLock);
    Go(cfg, p, s, CancelStep(CancelRead([head])), s1);
    assert s1.settler.todo[1..] == [];
    Go(cfg, p, s1, CancelStep(CancelCall), s2);
    Go(cfg, p, s2, UpdateStep(SettlerThread, UpdateLock), Cancelling(s, head, Locked).(lock := Some(SettlerThread)));
  }

  lemma FinishCancel(cfg: Config, p: State -> bool, s: State, head: Snap, id: nat)
    requires Kept(cfg, p) && p(Cancelling(s, head, Locked).(lock := Some(SettlerThread))) && s.lock == None
    requires id in s.transfers && SentBy(s.transfers[id], head.row.destination, Text(head.row.initiateTx))
    requires s.transfers[id].status == TransferPending
    ensures p(Cancelled(s, head, id))
  {
    var after, held := Cancelled(s, head, id), s.(lock := Some(SettlerThread));
    var s1 := Cancelling(held, head, Found(id));
    var s2 := Cancelling(held, head, Finished(Some(Outcome(id, TransferCancelled)))).(transfers := after.transfers);
    Go(cfg, p, Cancelling(held, head, Locked), UpdateStep(SettlerThread, UpdateFind(id)), s1);
    Go(cfg, p, s1, UpdateStep(SettlerThread, UpdateWrite), s2);
    Go(cfg, p, s2, UpdateStep(SettlerThread, UpdateUnlock), after);
  }

  lemma Cancel(cfg: Config, p: State -> bool, s: State, head: Snap, id: nat)
    requires Kept(cfg, p) && p(s) && s.settler == SReady && s.lock == None
    requires head.key in s.settlements && s.settlements[head.key] == head.row && CancelCandidate(head.row)
    requires id in s.transfers && SentBy(s.transfers[id], head.row.destination, Text(head.row.initiateTx))
    requires s.transfers[id].status == TransferPending
    ensures p(Cancelled(s, head, id))
  {
    StartCancel(cfg, p, s, head);
    FinishCancel(cfg, p, s, head, id);
  }

  /** A verify pass starts on these rows. */
  lemma StartVerify(cfg: Config, p: State -> bool, s: State, todo: seq<Snap>)
    requires Kept(cfg, p) && p(s) && DoVerifyRead(s, todo, s.(settler := SVerify(todo)))
    ensures p(s.(settler := SVerify(todo)))
  {
    Go(cfg, p, s, VerifyStep(VerifyRead(todo)), s.(settler := SVerify(todo)));
  }

  lemma SkipVerify(cfg: Config, p: State -> bool, s: State, todo: seq<Snap>)
    requires Kept(cfg, p) && todo != [] && p(s.(settler := SVerify(todo)))
    ensures p(s.(settler := SVerify(todo[1..])))
  {
    Go(cfg, p, s.(settler := SVerify(todo)), VerifyStep(VerifySkip), s.(settler := SVerify(todo[1..])));
  }

  lemma DispatchTx(cfg: Config, p: State -> bool, s: State, tx: TxKey, dispatch: Dispatch)
    requires Kept(cfg, p) && p(s) && DoChainDispatch(s, tx, dispatch, s.(dispatched := s.dispatched[tx := dispatch]))
    ensures p(s.(dispatched := s.dispatched[tx := dispatch]))
  {
    Go(cfg, p, s, WorldStep(ChainDispatch(tx, dispatch)), s.(dispatched := s.dispatched[tx := dispatch]));
  }
}

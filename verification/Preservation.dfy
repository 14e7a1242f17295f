/** Every step keeps the invariant: a lemma for each step, with lemmas about the tables it
    writes where a step writes one, and a lemma that puts them together. */
module Preservation {
  import opened Basics
  import opened Tables
  import opened Protocol
  import opened Invariant

  // ----- Steps that write no table -----

  lemma SubmitReadKeeps(cfg: Config, s: State, batches: seq<seq<Snap>>, s': State)
    requires Inv(cfg, s) && DoSubmitRead(s, batches, s')
    ensures Inv(cfg, s')
  {
  }

  lemma SubmitFoundKeeps(cfg: Config, s: State, id: nat, s': State)
    requires Inv(cfg, s) && DoSubmitFound(s, id, s')
    ensures Inv(cfg, s')
  {
  }

  lemma SubmitMissingKeeps(cfg: Config, s: State, s': State)
    requires Inv(cfg, s) && DoSubmitMissing(s, s')
    ensures Inv(cfg, s')
  {
  }

  lemma SubmitShrinks(s: State, s': State)
    requires DoSubmitSkip(s, s')
    requires SettlerOk(s.settler, s.settlements, s.transfers, s.sent, s.cancelled)
    ensures SettlerOk(s'.settler, s.settlements, s.transfers, s.sent, s.cancelled)
    ensures !SettlerHolds(s.settler) && !SettlerHolds(s'.settler)
    ensures s' == s.(settler := s'.settler)
  {
  }

  lemma SubmitSkipKeeps(cfg: Config, s: State, s': State)
    requires Inv(cfg, s) && DoSubmitSkip(s, s')
    ensures Inv(cfg, s')
  {
    SubmitShrinks(s, s');
  }

  lemma LinkDoneKeeps(cfg: Config, s: State, s': State)
    requires Inv(cfg, s) && DoLinkDone(s, s')
    ensures Inv(cfg, s')
  {
  }

  lemma CancelReadKeeps(cfg: Config, s: State, todo: seq<Snap>, s': State)
    requires Inv(cfg, s) && DoCancelRead(s, todo, s')
    ensures Inv(cfg, s')
  {
  }

  lemma CancelSkipKeeps(cfg: Config, s: State, s': State)
    requires Inv(cfg, s) && DoCancelSkip(s, s')
    ensures Inv(cfg, s')
  {
  }

  lemma CancelCallKeeps(cfg: Config, s: State, s': State)
    requires Inv(cfg, s) && DoCancelCall(s, s')
    ensures Inv(cfg, s')
  {
  }

  lemma SettleReadKeeps(cfg: Config, s: State, plan: map<OrderKey, nat>, s': State)
    requires Inv(cfg, s) && DoSettleRead(s, plan, s')
    ensures Inv(cfg, s')
  {
  }

  lemma VerifyReadKeeps(cfg: Config, s: State, todo: seq<Snap>, s': State)
    requires Inv(cfg, s) && DoVerifyRead(s, todo, s')
    ensures Inv(cfg, s')
  {
  }

  lemma VerifySkipKeeps(cfg: Config, s: State, s': State)
    requires Inv(cfg, s) && DoVerifySkip(s, s')
    ensures Inv(cfg, s')
  {
  }

  lemma SettlerAbortKeeps(cfg: Config, s: State, s': State)
    requires Inv(cfg, s) && DoSettlerAbort(s, s')
    ensures Inv(cfg, s')
  {
  }

  lemma DropBatchKeeps(cfg: Config, s: State, batch: nat, s': State)
    requires Inv(cfg, s) && DoDropBatch(s, batch, s')
    ensures Inv(cfg, s')
  {
    SettleShrinks(s, batch, s');
  }

  lemma SettleShrinks(s: State, batch: nat, s': State)
    requires DoDropBatch(s, batch, s')
    requires SettlerOk(s.settler, s.settlements, s.transfers, s.sent, s.cancelled)
    ensures SettlerOk(s'.settler, s.settlements, s.transfers, s.sent, s.cancelled)
  {
  }

  lemma RelayReadKeeps(cfg: Config, s: State, rows: seq<Row>, s': State)
    requires Inv(cfg, s) && DoRelayRead(s, rows, s')
    ensures Inv(cfg, s')
  {
  }

  lemma RelaySkipKeeps(cfg: Config, s: State, s': State)
    requires Inv(cfg, s) && DoRelaySkip(s, s')
    ensures Inv(cfg, s')
  {
  }

  lemma RelayDeliveredKeeps(cfg: Config, s: State, s': State)
    requires Inv(cfg, s) && DoRelayDelivered(s, s')
    ensures Inv(cfg, s')
  {
  }

  lemma RelayRecordFailsKeeps(cfg: Config, s: State, s': State)
    requires Inv(cfg, s) && DoRelayRecordFails(s, s')
    ensures Inv(cfg, s')
  {
  }

  lemma RelayLockKeeps(cfg: Config, s: State, s': State)
    requires Inv(cfg, s) && DoRelayLock(s, s')
    ensures Inv(cfg, s')
  {
  }

  lemma RelayNotPendingKeeps(cfg: Config, s: State, s': State)
    requires Inv(cfg, s) && DoRelayNotPending(s, s')
    ensures Inv(cfg, s')
  {
  }

  lemma RelayFailKeeps(cfg: Config, s: State, sending: Sending, s': State)
    requires Inv(cfg, s) && DoRelayFail(s, sending, s')
    ensures Inv(cfg, s')
  {
  }

  lemma RelayPendingKeeps(cfg: Config, s: State, id: nat, s': State)
    requires Inv(cfg, s) && DoRelayPending(s, id, s')
    ensures Inv(cfg, s')
  {
    OneRowPerTx(s, id, s.relayer.head.id);
  }

  /** The swapped arguments make the abandon call look for a tx named like a chain. */
  lemma RelayUnlockKeeps(cfg: Config, s: State, s': State)
    requires Inv(cfg, s) && DoRelayUnlock(s, s')
    ensures Inv(cfg, s')
  {
    SourceIsChain(cfg, s, s.relayer.head);
  }

  lemma SourceIsChain(cfg: Config, s: State, row: Row)
    requires ReadRow(row, s.transfers)
    requires TransfersOk(s.transfers, s.nextId, s.dispatched) && ChainsOk(cfg, s.sent, s.dispatched)
    ensures row.transfer.source in cfg.chains
  {
    var t := s.transfers[row.id];
    assert TransferOk(t, s.dispatched);
    assert TxKey(t.source, t.sentTx) in s.dispatched;
  }

  /** Under the invariant the most recent attempt is the last one. */
  lemma {:induction false} MostRecentIsLast(txs: seq<Attempt>, now: int)
    requires txs != [] && AttemptsInOrder(txs, now)
    ensures MostRecent(txs) == txs[|txs| - 1]
  {
    if |txs| > 1 {
      var init := txs[..|txs| - 1];
      assert AttemptsInOrder(init, now);
      MostRecentIsLast(init, now);
      assert init[|init| - 1] == txs[|txs| - 2];
    }
  }

  lemma RelayDecideKeeps(cfg: Config, s: State, s': State)
    requires Inv(cfg, s) && DoRelayDecide(cfg, s, s')
    ensures Inv(cfg, s')
  {
    OnlyAbandoned(s, s.relayer.todo[0].id);
  }

  lemma OnlyAbandoned(s: State, id: nat)
    requires ShouldRelay(s, id) && AttemptsOk(s.attempts, s.clock)
    ensures AllAbandoned(s.attempts[id])
  {
    var txs := s.attempts[id];
    assert AttemptsInOrder(txs, s.clock);
    if txs != [] {
      MostRecentIsLast(txs, s.clock);
    }
  }

  lemma TimeoutLookupKeeps(cfg: Config, s: State, tx: TxKey, s': State)
    requires Inv(cfg, s) && DoTimeoutLookup(s, tx, s')
    ensures Inv(cfg, s')
  {
  }

  lemma VerifierReadKeeps(cfg: Config, s: State, s': State)
    requires Inv(cfg, s) && DoVerifierRead(s, s')
    ensures Inv(cfg, s')
  {
  }

  lemma VerifierLeaveKeeps(cfg: Config, s: State, id: nat, index: nat, s': State)
    requires Inv(cfg, s) && DoVerifierLeave(s, id, index, s')
    ensures Inv(cfg, s')
  {
  }

  lemma RestartKeeps(cfg: Config, s: State, s': State)
    requires Inv(cfg, s) && DoRestart(s, s')
    ensures Inv(cfg, s')
  {
  }

  // ----- The mutex-protected update -----

  lemma UpdateLockBySettlerKeeps(cfg: Config, s: State, s': State)
    requires Inv(cfg, s) && DoUpdateLock(s, SettlerThread, s')
    ensures Inv(cfg, s')
  {
  }

  lemma UpdateLockByRelayerKeeps(cfg: Config, s: State, s': State)
    requires Inv(cfg, s) && DoUpdateLock(s, RelayerThread, s')
    ensures Inv(cfg, s')
  {
  }

  lemma FindBySettler(s: State, id: nat, s': State)
    requires DoUpdateFind(s, SettlerThread, id, s') && LockOk(s.lock, s.settler, s.relayer)
    requires SettlerOk(s.settler, s.settlements, s.transfers, s.sent, s.cancelled)
    ensures SettlerOk(s'.settler, s.settlements, s.transfers, s.sent, s.cancelled)
    ensures LockOk(s'.lock, s'.settler, s'.relayer)
    ensures s' == s.(settler := s'.settler)
  {
  }

  lemma UpdateFindBySettlerKeeps(cfg: Config, s: State, id: nat, s': State)
    requires Inv(cfg, s) && DoUpdateFind(s, SettlerThread, id, s')
    ensures Inv(cfg, s')
  {
    FindBySettler(s, id, s');
  }

  lemma FindByRelayer(cfg: Config, s: State, id: nat, s': State)
    requires DoUpdateFind(s, RelayerThread, id, s') && LockOk(s.lock, s.settler, s.relayer)
    requires RelayerOk(cfg, s.relayer, s.transfers, s.attempts)
    ensures RelayerOk(cfg, s'.relayer, s.transfers, s.attempts)
    ensures LockOk(s'.lock, s'.settler, s'.relayer) && CapTimeOk(s'.relayer, s.clock)
    ensures s' == s.(relayer := s'.relayer)
  {
  }

  lemma UpdateFindByRelayerKeeps(cfg: Config, s: State, id: nat, s': State)
    requires Inv(cfg, s) && DoUpdateFind(s, RelayerThread, id, s')
    ensures Inv(cfg, s')
  {
    FindByRelayer(cfg, s, id, s');
  }

  lemma UpdateMissBySettlerKeeps(cfg: Config, s: State, s': State)
    requires Inv(cfg, s) && DoUpdateMiss(s, SettlerThread, s')
    ensures Inv(cfg, s')
  {
  }

  lemma UpdateMissByRelayerKeeps(cfg: Config, s: State, s': State)
    requires Inv(cfg, s) && DoUpdateMiss(s, RelayerThread, s')
    ensures Inv(cfg, s')
  {
  }

  lemma UpdateUnlockByRelayerKeeps(cfg: Config, s: State, s': State)
    requires Inv(cfg, s) && DoUpdateUnlock(s, RelayerThread, s')
    ensures Inv(cfg, s')
  {
  }

  lemma MoreCancelled(
    carried: map<OrderKey, set<Name>>, rows: Settlements, cancelled: map<TxKey, nat>, tx: TxKey, id: nat)
    requires CarriedOk(carried, rows, cancelled)
    ensures CarriedOk(carried, rows, cancelled[tx := id])
  {
    forall k | k in carried ensures OnlyOneLive(carried[k], rows[k], cancelled[tx := id]) {
      assert OnlyOneLive(carried[k], rows[k], cancelled);
    }
  }

  /** CancelRelay returns; a true answer goes down in history with the row it found. */
  lemma UpdateUnlockBySettler(s: State, s': State)
    requires DoUpdateUnlock(s, SettlerThread, s')
    requires LockOk(s.lock, s.settler, s.relayer)
    requires SettlerOk(s.settler, s.settlements, s.transfers, s.sent, s.cancelled)
    requires CancelledOk(s.cancelled, s.transfers)
    ensures LockOk(s'.lock, s'.settler, s'.relayer)
    ensures SettlerOk(s'.settler, s.settlements, s.transfers, s.sent, s'.cancelled)
    ensures CancelledOk(s'.cancelled, s.transfers)
    ensures s'.cancelled == s.cancelled ||
            (var u := s.settler.update;
             u.phase.outcome.Some? && s'.cancelled == s.cancelled[TxKey(u.chain, u.tx) := u.phase.outcome.value.id])
    ensures s' == s.(lock := s'.lock, settler := s'.settler, cancelled := s'.cancelled)
  {
  }

  lemma UpdateUnlockBySettlerKeeps(cfg: Config, s: State, s': State)
    requires Inv(cfg, s) && DoUpdateUnlock(s, SettlerThread, s')
    ensures Inv(cfg, s')
  {
    UpdateUnlockBySettler(s, s');
    var u := s.settler.update;
    if s'.cancelled != s.cancelled {
      MoreCancelled(s.carried, s.settlements, s.cancelled, TxKey(u.chain, u.tx), u.phase.outcome.value.id);
    }
  }

  // ----- Transfer rows are only added, and only their status changes -----

  ghost predicate Grows(ts: Transfers, ts': Transfers) {
    forall id :: id in ts ==> id in ts' && SameTransfer(ts'[id], ts[id])
  }

  lemma GrowthKeepsRows(cfg: Config, rows: Settlements, ts: Transfers, ts': Transfers, sent: map<Name, TxKind>)
    requires Grows(ts, ts') && SettlementsOk(cfg, rows, ts, sent)
    ensures SettlementsOk(cfg, rows, ts', sent)
  {
    forall k | k in rows ensures RowOk(k, rows[k], ts', sent) {
      assert RowOk(k, rows[k], ts, sent);
    }
  }

  lemma GrowthKeepsRelays(cfg: Config, relays: seq<Relay>, ts: Transfers, ts': Transfers)
    requires Grows(ts, ts') && RelaysOk(cfg, relays, ts)
    ensures RelaysOk(cfg, relays, ts')
  {
    forall i | 0 <= i < |relays| ensures RelayOk(cfg, relays[i], ts') {
      assert RelayOk(cfg, relays[i], ts);
    }
  }

  lemma GrowthKeepsRead(rows: seq<Row>, ts: Transfers, ts': Transfers)
    requires Grows(ts, ts') && ReadRows(rows, ts)
    ensures ReadRows(rows, ts')
  {
    forall i | 0 <= i < |rows| ensures ReadRow(rows[i], ts') {
      assert ReadRow(rows[i], ts);
    }
  }

  lemma GrowthKeepsDelivery(row: Row, ts: Transfers, ts': Transfers, attempts: map<nat, seq<Attempt>>)
    requires Grows(ts, ts') && MayDeliver(row, ts, attempts)
    ensures MayDeliver(row, ts', attempts)
  {
    assert ReadRow(row, ts);
  }

  // ----- Writing a status -----

  /** SetMessageStatus changes the one row that was found pending. */
  lemma WriteChangesOneRow(s: State, thread: Thread, id: nat, s': State)
    requires DoUpdateWrite(s, thread, s') && id == UpdateOf(s, thread).phase.id
    requires TransfersOk(s.transfers, s.nextId, s.dispatched)
    ensures s'.transfers == s.transfers[id := s.transfers[id].(status := UpdateOf(s, thread).status)]
    ensures Grows(s.transfers, s'.transfers)
  {
  }

  lemma WriteKeepsTransfers(
    ts: Transfers, nextId: nat, dispatched: map<TxKey, Dispatch>, id: nat, status: TransferStatus)
    requires TransfersOk(ts, nextId, dispatched) && id in ts && status != TransferAbandoned
    ensures TransfersOk(ts[id := ts[id].(status := status)], nextId, dispatched)
  {
    var ts' := ts[id := ts[id].(status := status)];
    forall i | i in ts' ensures 0 < i < nextId && TransferOk(ts'[i], dispatched) {
      assert TransferOk(ts[i], dispatched);
    }
  }

  lemma WriteKeepsHistory(cfg: Config, s: State, ts': Transfers, id: nat, status: TransferStatus)
    requires CancelledOk(s.cancelled, s.transfers) && WorkerOk(s.worker, s.transfers, s.sent)
    requires CapsOk(cfg, s.transfers, s.sent, s.terms)
    requires id in s.transfers && s.transfers[id].status == TransferPending
    requires ts' == s.transfers[id := s.transfers[id].(status := status)]
    ensures CancelledOk(s.cancelled, ts') && WorkerOk(s.worker, ts', s.sent)
    ensures CapsOk(cfg, ts', s.sent, s.terms)
  {
    forall i | i in ts' ensures CapStored(cfg, ts'[i], s.sent, s.terms) {
      assert CapStored(cfg, s.transfers[i], s.sent, s.terms);
    }
  }

  /** The relayer keeps what it knows while the settler writes a status. */
  lemma SettlerWriteKeepsRelayer(cfg: Config, s: State, s': State)
    requires DoUpdateWrite(s, SettlerThread, s') && Grows(s.transfers, s'.transfers)
    requires LockOk(s.lock, s.settler, s.relayer) && RelayerOk(cfg, s.relayer, s.transfers, s.attempts)
             && SettlerHolds(s.settler)
    ensures RelayerOk(cfg, s'.relayer, s'.transfers, s'.attempts)
  {
    match s.relayer
    case RReady =>
    case RScan(todo) => GrowthKeepsRead(todo, s.transfers, s'.transfers);
    case RMark(u, rest) => GrowthKeepsRead(rest, s.transfers, s'.transfers);
    case RLock(head, rest, cap, at) =>
      GrowthKeepsRead(rest, s.transfers, s'.transfers);
      GrowthKeepsDelivery(head, s.transfers, s'.transfers, s.attempts);
    case RRecord(head, rest) =>
      GrowthKeepsRead(rest, s.transfers, s'.transfers);
      GrowthKeepsDelivery(head, s.transfers, s'.transfers, s.attempts);
    case _ =>
  }

  lemma SettlerWriteKeepsSettler(s: State, s': State)
    requires DoUpdateWrite(s, SettlerThread, s')
    requires TransfersOk(s.transfers, s.nextId, s.dispatched)
    requires SettlerOk(s.settler, s.settlements, s.transfers, s.sent, s.cancelled)
    requires LockOk(s.lock, s.settler, s.relayer)
    ensures SettlerOk(s'.settler, s'.settlements, s'.transfers, s'.sent, s'.cancelled)
    ensures LockOk(s'.lock, s'.settler, s'.relayer)
  {
  }

  lemma RelayerWriteKeepsRelayer(cfg: Config, s: State, s': State)
    requires DoUpdateWrite(s, RelayerThread, s') && Grows(s.transfers, s'.transfers)
    requires TransfersOk(s.transfers, s.nextId, s.dispatched)
    requires LockOk(s.lock, s.settler, s.relayer) && RelayerOk(cfg, s.relayer, s.transfers, s.attempts)
    ensures RelayerOk(cfg, s'.relayer, s'.transfers, s'.attempts)
    ensures LockOk(s'.lock, s'.settler, s'.relayer)
  {
    GrowthKeepsRead(s.relayer.rest, s.transfers, s'.transfers);
  }

  /** No status is ever written over a row of a batch in flight, which has none. */
  lemma WriteKeepsFlights(
    plan: map<OrderKey, nat>, flying: map<nat, Name>, rows: Settlements, ts: Transfers, sent: map<Name, TxKind>,
    id: nat, status: TransferStatus)
    requires SettleOk(plan, flying, rows, ts, sent) && id in ts
    ensures SettleOk(plan, flying, rows, ts[id := ts[id].(status := status)], sent)
  {
    var ts' := ts[id := ts[id].(status := status)];
    forall b | b in flying ensures FlightOk(b, flying[b], plan, rows, ts', sent) {
      assert FlightOk(b, flying[b], plan, rows, ts, sent);
    }
  }

  lemma RelayerWriteKeepsSettler(s: State, s': State, id: nat)
    requires DoUpdateWrite(s, RelayerThread, s') && id == s.relayer.update.phase.id
    requires Grows(s.transfers, s'.transfers)
    requires s'.transfers == s.transfers[id := s.transfers[id].(status := s.relayer.update.status)]
    requires SettlerOk(s.settler, s.settlements, s.transfers, s.sent, s.cancelled) && !SettlerHolds(s.settler)
    ensures SettlerOk(s'.settler, s'.settlements, s'.transfers, s'.sent, s'.cancelled)
  {
    if s.settler.SSettle? {
      WriteKeepsFlights(s.settler.plan, s.settler.flying, s.settlements, s.transfers, s.sent, id,
          s.relayer.update.status);
    }
  }

  /** The relayer never finds a row to abandon: it looks for a tx named like a chain. */
  lemma NothingToAbandon(cfg: Config, s: State)
    requires s.relayer.RMark? && s.relayer.update.phase.Found?
    requires TransfersOk(s.transfers, s.nextId, s.dispatched) && ChainsOk(cfg, s.sent, s.dispatched)
    requires RelayerOk(cfg, s.relayer, s.transfers, s.attempts)
    ensures s.relayer.update.status != TransferAbandoned
  {
    var t := s.transfers[s.relayer.update.phase.id];
    assert TransferOk(t, s.dispatched);
    assert TxKey(t.source, t.sentTx) in s.dispatched;
  }

  /** Everything a status write keeps that does not depend on who writes. */
  lemma WriteKeepsTables(cfg: Config, s: State, thread: Thread, s': State)
    requires DoUpdateWrite(s, thread, s') && UpdateOk(UpdateOf(s, thread), s.transfers)
    requires UpdateOf(s, thread).status != TransferAbandoned
    requires TransfersOk(s.transfers, s.nextId, s.dispatched) && CancelledOk(s.cancelled, s.transfers)
    requires SettlementsOk(cfg, s.settlements, s.transfers, s.sent) && WorkerOk(s.worker, s.transfers, s.sent)
    requires CapsOk(cfg, s.transfers, s.sent, s.terms) && RelaysOk(cfg, s.relays, s.transfers)
    ensures s'.transfers.Keys == s.transfers.Keys && Grows(s.transfers, s'.transfers)
    ensures TransfersOk(s'.transfers, s'.nextId, s'.dispatched) && CancelledOk(s'.cancelled, s'.transfers)
    ensures SettlementsOk(cfg, s'.settlements, s'.transfers, s'.sent) && WorkerOk(s'.worker, s'.transfers, s'.sent)
    ensures CapsOk(cfg, s'.transfers, s'.sent, s'.terms) && RelaysOk(cfg, s'.relays, s'.transfers)
  {
    var u := UpdateOf(s, thread);
    WriteChangesOneRow(s, thread, u.phase.id, s');
    WriteKeepsTransfers(s.transfers, s.nextId, s.dispatched, u.phase.id, u.status);
    WriteKeepsHistory(cfg, s, s'.transfers, u.phase.id, u.status);
    GrowthKeepsRows(cfg, s.settlements, s.transfers, s'.transfers, s.sent);
    GrowthKeepsRelays(cfg, s.relays, s.transfers, s'.transfers);
  }

  lemma UpdateWriteBySettlerKeeps(cfg: Config, s: State, s': State)
    requires Inv(cfg, s) && DoUpdateWrite(s, SettlerThread, s')
    ensures Inv(cfg, s')
  {
    WriteKeepsTables(cfg, s, SettlerThread, s');
    SettlerWriteKeepsRelayer(cfg, s, s');
    SettlerWriteKeepsSettler(s, s');
  }

  lemma UpdateWriteByRelayerKeeps(cfg: Config, s: State, s': State)
    requires Inv(cfg, s) && DoUpdateWrite(s, RelayerThread, s')
    ensures Inv(cfg, s')
  {
    NothingToAbandon(cfg, s);
    WriteKeepsTables(cfg, s, RelayerThread, s');
    WriteChangesOneRow(s, RelayerThread, s.relayer.update.phase.id, s');
    RelayerWriteKeepsRelayer(cfg, s, s');
    RelayerWriteKeepsSettler(s, s', s.relayer.update.phase.id);
  }

  // ----- Inserting a transfer -----

  /** What an insert needs: the tx has dispatched, and no row is there for it. */
  ghost predicate MayInsert(s: State, tx: TxKey) {
    tx in s.dispatched && NoTransfer(s.transfers, tx)
  }

  /** The insert never hits the unique key, so the id handed back is always a real row. */
  lemma InsertNeverConflicts(cfg: Config, s: State, tx: TxKey)
    requires MayInsert(s, tx)
    requires TransfersOk(s.transfers, s.nextId, s.dispatched) && ChainsOk(cfg, s.sent, s.dispatched)
    ensures !Conflicts(s, tx)
  {
    var d := s.dispatched[tx];
    forall id | id in s.transfers ensures !SameMessage(s.transfers[id], tx.chain, d.destination, d.message) {
      assert TransferOk(s.transfers[id], s.dispatched);
      assert !SentBy(s.transfers[id], tx.chain, tx.hash);
    }
  }

  lemma InsertKeepsTransfers(cfg: Config, s: State, tx: TxKey, maxFee: int, s': State)
    requires MayInsert(s, tx) && !Conflicts(s, tx) && s' == Inserted(s, tx, maxFee)
    requires TransfersOk(s.transfers, s.nextId, s.dispatched)
    ensures TransfersOk(s'.transfers, s'.nextId, s'.dispatched)
    ensures Grows(s.transfers, s'.transfers) && s.nextId !in s.transfers
  {
    var t := s'.transfers[s.nextId];
    forall i | i in s'.transfers ensures 0 < i < s'.nextId && TransferOk(s'.transfers[i], s.dispatched) {
      if i != s.nextId {
        assert TransferOk(s.transfers[i], s.dispatched);
      }
    }
    forall i | i in s.transfers ensures !SameMessage(s.transfers[i], t.source, t.destination, t.message) {
    }
  }

  lemma InsertKeepsHistory(cfg: Config, s: State, tx: TxKey, maxFee: int, s': State)
    requires MayInsert(s, tx) && !Conflicts(s, tx) && s' == Inserted(s, tx, maxFee) && s.nextId !in s.transfers
    requires CancelledOk(s.cancelled, s.transfers)
    requires s.attempts.Keys == s.transfers.Keys && AttemptsOk(s.attempts, s.clock)
             && VerifyingOk(s.verifying, s.attempts)
    ensures CancelledOk(s'.cancelled, s'.transfers)
    ensures s'.attempts.Keys == s'.transfers.Keys && AttemptsOk(s'.attempts, s'.clock)
            && VerifyingOk(s'.verifying, s'.attempts)
  {
  }

  lemma InsertKeepsCaps(
    cfg: Config, ts: Transfers, sent: map<Name, TxKind>, terms: map<TxKey, Terms>, id: nat, t: Transfer, v: Terms,
    terms': map<TxKey, Terms>)
    requires CapsOk(cfg, ts, sent, terms) && CapStored(cfg, t, sent, terms')
    requires NoTransfer(ts, TxKey(t.source, t.sentTx))
    requires terms' == terms || terms' == terms[TxKey(t.source, t.sentTx) := v]
    ensures CapsOk(cfg, ts[id := t], sent, terms')
  {
    var ts' := ts[id := t];
    forall i | i in ts' ensures CapStored(cfg, ts'[i], sent, terms') {
      if i != id {
        assert CapStored(cfg, ts[i], sent, terms);
        assert !SentBy(ts[i], t.source, t.sentTx);
      }
    }
  }

  lemma InsertKeepsRelayer(cfg: Config, s: State, s': State)
    requires Grows(s.transfers, s'.transfers)
    requires s'.relayer == s.relayer && s.nextId !in s.attempts
    requires forall id :: id in s.transfers ==> s'.transfers[id] == s.transfers[id]
    requires s'.attempts == s.attempts[s.nextId := []]
    requires RelayerOk(cfg, s.relayer, s.transfers, s.attempts)
    ensures RelayerOk(cfg, s'.relayer, s'.transfers, s'.attempts)
  {
    match s.relayer
    case RReady =>
    case RScan(todo) => GrowthKeepsRead(todo, s.transfers, s'.transfers);
    case RMark(u, rest) => GrowthKeepsRead(rest, s.transfers, s'.transfers);
    case RLock(head, rest, cap, at) => GrowthKeepsRead(rest, s.transfers, s'.transfers);
    case RLookup(head, rest, cap, at) => GrowthKeepsRead(rest, s.transfers, s'.transfers);
    case RSend(head, rest, cap, at) => GrowthKeepsRead(rest, s.transfers, s'.transfers);
    case RUnlock(head, rest, sending) => GrowthKeepsRead(rest, s.transfers, s'.transfers);
    case RRecord(head, rest) => GrowthKeepsRead(rest, s.transfers, s'.transfers);
  }

  /** Everything an insert keeps that does not depend on who inserts. */
  lemma InsertKeepsTables(cfg: Config, s: State, tx: TxKey, maxFee: int, s': State)
    requires MayInsert(s, tx) && s' == Inserted(s, tx, maxFee)
    requires TransfersOk(s.transfers, s.nextId, s.dispatched) && ChainsOk(cfg, s.sent, s.dispatched)
    requires CancelledOk(s.cancelled, s.transfers)
    requires SettlementsOk(cfg, s.settlements, s.transfers, s.sent)
    requires s.attempts.Keys == s.transfers.Keys && AttemptsOk(s.attempts, s.clock)
             && VerifyingOk(s.verifying, s.attempts)
    requires RelayerOk(cfg, s.relayer, s.transfers, s.attempts)
    requires RelaysOk(cfg, s.relays, s.transfers)
    ensures !Conflicts(s, tx) && s.nextId !in s.transfers
    ensures TransfersOk(s'.transfers, s'.nextId, s'.dispatched)
    ensures CancelledOk(s'.cancelled, s'.transfers)
    ensures SettlementsOk(cfg, s'.settlements, s'.transfers, s'.sent)
    ensures s'.attempts.Keys == s'.transfers.Keys && AttemptsOk(s'.attempts, s'.clock)
            && VerifyingOk(s'.verifying, s'.attempts)
    ensures RelayerOk(cfg, s'.relayer, s'.transfers, s'.attempts)
    ensures RelaysOk(cfg, s'.relays, s'.transfers)
  {
    InsertNeverConflicts(cfg, s, tx);
    InsertKeepsTransfers(cfg, s, tx, maxFee, s');
    InsertKeepsHistory(cfg, s, tx, maxFee, s');
    InsertKeepsRelayer(cfg, s, s');
    GrowthKeepsRows(cfg, s.settlements, s.transfers, s'.transfers, s.sent);
    GrowthKeepsRelays(cfg, s.relays, s.transfers, s'.transfers);
  }

  lemma SubmitInsertKeepsThreads(cfg: Config, s: State, lag: nat, s': State)
    requires DoSubmitInsert(cfg, s, lag, s') && !Conflicts(s, BatchTx(s.settler.batch)) && s.nextId !in s.transfers
    requires SettlerOk(s.settler, s.settlements, s.transfers, s.sent, s.cancelled)
    requires SettlementsOk(cfg, s.settlements, s.transfers, s.sent)
    requires LockOk(s.lock, s.settler, s.relayer) && WorkerOk(s.worker, s.transfers, s.sent)
    requires CapsOk(cfg, s.transfers, s.sent, s.terms)
    ensures SettlerOk(s'.settler, s'.settlements, s'.transfers, s'.sent, s'.cancelled)
    ensures LockOk(s'.lock, s'.settler, s'.relayer) && WorkerOk(s'.worker, s'.transfers, s'.sent)
    ensures CapsOk(cfg, s'.transfers, s'.sent, s'.terms)
  {
    var tx := BatchTx(s.settler.batch);
    BatchKind(cfg, s, s.settler.batch);
    InsertKeepsCaps(cfg, s.transfers, s.sent, s.terms, s.nextId, s'.transfers[s.nextId], s'.terms[tx], s'.terms);
  }

  /** The settler hands its batch over: the new row is the batch's, on the batch's terms. */
  lemma SubmitInsertKeeps(cfg: Config, s: State, lag: nat, s': State)
    requires Inv(cfg, s) && DoSubmitInsert(cfg, s, lag, s')
    ensures Inv(cfg, s')
  {
    var tx := BatchTx(s.settler.batch);
    var destination := s.dispatched[tx].destination;
    var maxFee := StoredCap(cfg, s'.terms[tx], destination);
    InsertKeepsTables(cfg, s, tx, maxFee, Inserted(s, tx, maxFee));
    SubmitInsertKeepsThreads(cfg, s, lag, s');
  }

  /** The tx of a batch is a settlement tx on the batch's chains. */
  lemma BatchKind(cfg: Config, s: State, batch: seq<Snap>)
    requires batch != [] && BatchOk(batch, s.settlements) && SettlementsOk(cfg, s.settlements, s.transfers, s.sent)
    ensures BatchTx(batch).hash in s.sent
    ensures s.sent[BatchTx(batch).hash] == SettlementTx(BatchTx(batch).chain, batch[0].key.source)
  {
    assert StillCarries(batch[0], s.settlements);
    assert RowOk(batch[0].key, s.settlements[batch[0].key], s.transfers, s.sent);
  }

  lemma TimeoutInsertKeepsSettler(s: State, tx: TxKey, t: Transfer, ts': Transfers)
    requires tx.hash in s.sent && s.sent[tx.hash].TimeoutTx? && SentBy(t, tx.chain, tx.hash)
    requires s.nextId !in s.transfers && ts' == s.transfers[s.nextId := t]
    requires SettlerOk(s.settler, s.settlements, s.transfers, s.sent, s.cancelled)
    requires s.settler.SInsert? ==>
               && s.settler.batch != [] && BatchTx(s.settler.batch).hash in s.sent
               && s.sent[BatchTx(s.settler.batch).hash].SettlementTx?
    ensures SettlerOk(s.settler, s.settlements, ts', s.sent, s.cancelled)
  {
    if s.settler.SSettle? {
      forall b | b in s.settler.flying
          ensures FlightOk(b, s.settler.flying[b], s.settler.plan, s.settlements, ts', s.sent) {
        assert FlightOk(b, s.settler.flying[b], s.settler.plan, s.settlements, s.transfers, s.sent);
      }
    }
  }

  lemma TimeoutInsertKeeps(cfg: Config, s: State, s': State)
    requires Inv(cfg, s) && DoTimeoutInsert(cfg, s, s')
    ensures Inv(cfg, s')
  {
    var tx := s.worker.tx;
    var maxFee := cfg.relayCap(s.dispatched[tx].destination);
    var i := Inserted(s, tx, maxFee);
    InsertKeepsTables(cfg, s, tx, maxFee, i);
    if s.settler.SInsert? {
      BatchKind(cfg, s, s.settler.batch);
    }
    TimeoutInsertKeepsSettler(s, tx, i.transfers[s.nextId], i.transfers);
    var t := i.transfers[s.nextId];
    InsertKeepsCaps(cfg, s.transfers, s.sent, s.terms, s.nextId, t, Terms(0, 0, 0, 0), s.terms);
  }

  // ----- Writing settlement rows -----

  /** A step of the settler that writes settlement rows. */
  lemma RowsWrittenKeep(cfg: Config, s: State, s': State)
    requires Inv(cfg, s) && s' == s.(settlements := s'.settlements, carried := s'.carried, settler := s'.settler)
    requires !SettlerHolds(s.settler) && !SettlerHolds(s'.settler)
    requires SettlementsOk(cfg, s'.settlements, s'.transfers, s'.sent)
    requires SettlerOk(s'.settler, s'.settlements, s'.transfers, s'.sent, s'.cancelled)
    requires CarriedOk(s'.carried, s'.settlements, s'.cancelled)
    ensures Inv(cfg, s')
  {
  }

  lemma LinkRowKeepsRows(cfg: Config, s: State, s': State)
    requires DoLinkRow(s, s')
    requires SettlementsOk(cfg, s.settlements, s.transfers, s.sent)
    requires SettlerOk(s.settler, s.settlements, s.transfers, s.sent, s.cancelled)
    ensures SettlementsOk(cfg, s'.settlements, s'.transfers, s'.sent)
    ensures SettlerOk(s'.settler, s'.settlements, s'.transfers, s'.sent, s'.cancelled)
  {
    var key := s.settler.rows[0].key;
    assert StillCarries(s.settler.rows[0], s.settlements);
    forall k | k in s'.settlements ensures RowOk(k, s'.settlements[k], s.transfers, s.sent) {
      assert RowOk(k, s.settlements[k], s.transfers, s.sent);
    }
    StillLinked(s.settler.rows[1..], s.settlements, key, s.settler.id);
    forall i | 0 <= i < |s.settler.later| ensures BatchOk(s.settler.later[i], s'.settlements) {
      StillLinked(s.settler.later[i], s.settlements, key, s.settler.id);
    }
  }

  lemma StillLinked(batch: seq<Snap>, rows: Settlements, key: OrderKey, id: nat)
    requires forall i :: 0 <= i < |batch| ==> StillCarries(batch[i], rows)
    ensures forall i :: 0 <= i < |batch| ==> StillCarries(batch[i], SetTransferId(rows, key, id))
  {
  }

  lemma CarriedKeptByStatus(
    carried: map<OrderKey, set<Name>>, rows: Settlements, rows': Settlements, cancelled: map<TxKey, nat>)
    requires CarriedOk(carried, rows, cancelled)
    requires forall k :: k in rows' && rows'[k].initiateTx.Some? ==>
             k in rows && rows[k].initiateTx == rows'[k].initiateTx
    requires forall k :: k in rows ==>
               k in rows' && rows'[k].initiateTx == rows[k].initiateTx && rows'[k].destination == rows[k].destination
    ensures CarriedOk(carried, rows', cancelled)
  {
    forall k | k in carried ensures OnlyOneLive(carried[k], rows'[k], cancelled) {
      assert OnlyOneLive(carried[k], rows[k], cancelled);
    }
  }

  lemma CreateRowKeepsRows(cfg: Config, s: State, key: OrderKey, row: Settlement, s': State)
    requires DoCreateRow(cfg, s, key, row, s')
    requires SettlementsOk(cfg, s.settlements, s.transfers, s.sent)
    ensures SettlementsOk(cfg, s'.settlements, s'.transfers, s'.sent)
  {
    forall k | k in s'.settlements ensures RowOk(k, s'.settlements[k], s.transfers, s.sent) {
      if k in s.settlements {
        assert RowOk(k, s.settlements[k], s.transfers, s.sent);
      }
    }
  }

  /** Rows lose their tx only after its transfer was cancelled. */
  lemma ClearRowsKeepsRows(cfg: Config, s: State, s': State)
    requires DoClearRows(s, s')
    requires SettlementsOk(cfg, s.settlements, s.transfers, s.sent)
    requires SettlerOk(s.settler, s.settlements, s.transfers, s.sent, s.cancelled)
    requires CarriedOk(s.carried, s.settlements, s.cancelled)
    ensures SettlementsOk(cfg, s'.settlements, s'.transfers, s'.sent)
    ensures CarriedOk(s'.carried, s'.settlements, s'.cancelled)
  {
    forall k | k in s'.settlements ensures RowOk(k, s'.settlements[k], s.transfers, s.sent) {
      assert RowOk(k, s.settlements[k], s.transfers, s.sent);
    }
    forall k | k in s.carried ensures OnlyOneLive(s.carried[k], s'.settlements[k], s.cancelled) {
      assert OnlyOneLive(s.carried[k], s.settlements[k], s.cancelled);
    }
  }

  lemma RecordBatchKeepsRows(cfg: Config, s: State, batch: nat, s': State)
    requires DoRecordBatch(s, batch, s')
    requires SettlementsOk(cfg, s.settlements, s.transfers, s.sent)
    requires SettlerOk(s.settler, s.settlements, s.transfers, s.sent, s.cancelled)
    ensures SettlementsOk(cfg, s'.settlements, s'.transfers, s'.sent)
  {
    assert FlightOk(batch, s.settler.flying[batch], s.settler.plan, s.settlements, s.transfers, s.sent);
    forall k | k in s'.settlements ensures RowOk(k, s'.settlements[k], s.transfers, s.sent) {
      assert RowOk(k, s.settlements[k], s.transfers, s.sent);
    }
  }

  lemma RecordBatchKeepsCarried(s: State, batch: nat, s': State)
    requires DoRecordBatch(s, batch, s')
    requires SettlePlan(s.settlements, s.settler.plan)
    requires CarriedOk(s.carried, s.settlements, s.cancelled)
    ensures CarriedOk(s'.carried, s'.settlements, s'.cancelled)
  {
    var keys := BatchKeys(s.settler.plan, batch);
    forall k | k in s'.carried
        ensures k in s'.settlements && OnlyOneLive(s'.carried[k], s'.settlements[k], s.cancelled) {
      if k in s.carried {
        assert OnlyOneLive(s.carried[k], s.settlements[k], s.cancelled);
      }
    }
    forall k | k in s'.settlements && s'.settlements[k].initiateTx.Some?
      ensures k in s'.carried && s'.settlements[k].initiateTx.value in s'.carried[k]
    {
      assert k in keys || (k in s.carried && s.settlements[k].initiateTx.value in s.carried[k]);
    }
  }

  lemma RecordBatchKeepsFlights(s: State, batch: nat, s': State)
    requires DoRecordBatch(s, batch, s')
    requires SettlerOk(s.settler, s.settlements, s.transfers, s.sent, s.cancelled)
    ensures SettlerOk(s'.settler, s'.settlements, s'.transfers, s'.sent, s'.cancelled)
  {
    var plan, flying := s'.settler.plan, s'.settler.flying;
    forall b | b in flying ensures FlightOk(b, flying[b], plan, s'.settlements, s.transfers, s.sent) {
      assert FlightOk(b, flying[b], s.settler.plan, s.settlements, s.transfers, s.sent);
      assert flying[b] != s.settler.flying[batch];
    }
  }

  /** A verify step moves the status of one row and nothing else. */
  lemma StatusKeepsRows(
    cfg: Config, rows: Settlements, ts: Transfers, sent: map<Name, TxKind>, key: OrderKey, status: SettlementStatus)
    requires SettlementsOk(cfg, rows, ts, sent) && key in rows && rows[key].initiateTx.Some?
    requires status == Initiated || status == Complete || (status == Failed && rows[key].status == Pending)
    ensures SettlementsOk(cfg, SetStatus(rows, key, status), ts, sent)
  {
    var rows' := SetStatus(rows, key, status);
    forall k | k in rows' ensures RowOk(k, rows'[k], ts, sent) {
      assert RowOk(k, rows[k], ts, sent);
    }
  }

  lemma VerifyInitiatedKeepsRows(cfg: Config, s: State, s': State)
    requires DoVerifyInitiated(s, s')
    requires SettlementsOk(cfg, s.settlements, s.transfers, s.sent)
    requires SettlerOk(s.settler, s.settlements, s.transfers, s.sent, s.cancelled)
    requires CarriedOk(s.carried, s.settlements, s.cancelled)
    ensures SettlementsOk(cfg, s'.settlements, s'.transfers, s'.sent)
    ensures SettlerOk(s'.settler, s'.settlements, s'.transfers, s'.sent, s'.cancelled)
    ensures CarriedOk(s'.carried, s'.settlements, s'.cancelled)
  {
    StatusKeepsRows(cfg, s.settlements, s.transfers, s.sent, s.settler.todo[0].key, Initiated);
    CarriedKeptByStatus(s.carried, s.settlements, s'.settlements, s.cancelled);
  }

  lemma VerifyFailedKeepsRows(cfg: Config, s: State, s': State)
    requires DoVerifyFailed(s, s')
    requires SettlementsOk(cfg, s.settlements, s.transfers, s.sent)
    requires SettlerOk(s.settler, s.settlements, s.transfers, s.sent, s.cancelled)
    requires CarriedOk(s.carried, s.settlements, s.cancelled)
    ensures SettlementsOk(cfg, s'.settlements, s'.transfers, s'.sent)
    ensures SettlerOk(s'.settler, s'.settlements, s'.transfers, s'.sent, s'.cancelled)
    ensures CarriedOk(s'.carried, s'.settlements, s'.cancelled)
  {
    StatusKeepsRows(cfg, s.settlements, s.transfers, s.sent, s.settler.todo[0].key, Failed);
    CarriedKeptByStatus(s.carried, s.settlements, s'.settlements, s.cancelled);
  }

  lemma CheckCompleteKeepsRows(cfg: Config, s: State, complete: bool, s': State)
    requires DoCheckComplete(s, complete, s')
    requires SettlementsOk(cfg, s.settlements, s.transfers, s.sent)
    requires SettlerOk(s.settler, s.settlements, s.transfers, s.sent, s.cancelled)
    requires CarriedOk(s.carried, s.settlements, s.cancelled)
    ensures SettlementsOk(cfg, s'.settlements, s'.transfers, s'.sent)
    ensures SettlerOk(s'.settler, s'.settlements, s'.transfers, s'.sent, s'.cancelled)
    ensures CarriedOk(s'.carried, s'.settlements, s'.cancelled)
  {
    assert RowOk(s.settler.head.key, s.settlements[s.settler.head.key], s.transfers, s.sent);
    StatusKeepsRows(cfg, s.settlements, s.transfers, s.sent, s.settler.head.key, Complete);
    CarriedKeptByStatus(s.carried, s.settlements, s'.settlements, s.cancelled);
  }

  lemma LinkRowKeepsCarried(s: State, s': State)
    requires DoLinkRow(s, s') && CarriedOk(s.carried, s.settlements, s.cancelled)
    ensures CarriedOk(s'.carried, s'.settlements, s'.cancelled)
  {
    CarriedKeptByStatus(s.carried, s.settlements, s'.settlements, s.cancelled);
  }

  lemma LinkRowKeeps(cfg: Config, s: State, s': State)
    requires Inv(cfg, s) && DoLinkRow(s, s')
    ensures Inv(cfg, s')
  {
    LinkRowKeepsRows(cfg, s, s');
    LinkRowKeepsCarried(s, s');
    RowsWrittenKeep(cfg, s, s');
  }

  lemma CreateRowKeeps(cfg: Config, s: State, key: OrderKey, row: Settlement, s': State)
    requires Inv(cfg, s) && DoCreateRow(cfg, s, key, row, s')
    ensures Inv(cfg, s')
  {
    CreateRowKeepsRows(cfg, s, key, row, s');
    CarriedKeptByStatus(s.carried, s.settlements, s'.settlements, s.cancelled);
    RowsWrittenKeep(cfg, s, s');
  }

  lemma ClearRowsKeeps(cfg: Config, s: State, s': State)
    requires Inv(cfg, s) && DoClearRows(s, s')
    ensures Inv(cfg, s')
  {
    ClearRowsKeepsRows(cfg, s, s');
    RowsWrittenKeep(cfg, s, s');
  }

  lemma RecordBatchKeeps(cfg: Config, s: State, batch: nat, s': State)
    requires Inv(cfg, s) && DoRecordBatch(s, batch, s')
    ensures Inv(cfg, s')
  {
    RecordBatchKeepsRows(cfg, s, batch, s');
    RecordBatchKeepsCarried(s, batch, s');
    RecordBatchKeepsFlights(s, batch, s');
    RowsWrittenKeep(cfg, s, s');
  }

  lemma VerifyInitiatedKeeps(cfg: Config, s: State, s': State)
    requires Inv(cfg, s) && DoVerifyInitiated(s, s')
    ensures Inv(cfg, s')
  {
    VerifyInitiatedKeepsRows(cfg, s, s');
    RowsWrittenKeep(cfg, s, s');
  }

  lemma VerifyFailedKeeps(cfg: Config, s: State, s': State)
    requires Inv(cfg, s) && DoVerifyFailed(s, s')
    ensures Inv(cfg, s')
  {
    VerifyFailedKeepsRows(cfg, s, s');
    RowsWrittenKeep(cfg, s, s');
  }

  lemma CheckCompleteKeeps(cfg: Config, s: State, complete: bool, s': State)
    requires Inv(cfg, s) && DoCheckComplete(s, complete, s')
    ensures Inv(cfg, s')
  {
    CheckCompleteKeepsRows(cfg, s, complete, s');
    RowsWrittenKeep(cfg, s, s');
  }

  // ----- New transactions on the chains -----

  /** A broadcast hash is new, so no table mentions it. */
  lemma BroadcastIsNew(cfg: Config, s: State, hash: Name)
    requires hash !in s.sent
    requires TransfersOk(s.transfers, s.nextId, s.dispatched) && ChainsOk(cfg, s.sent, s.dispatched)
    requires SettlementsOk(cfg, s.settlements, s.transfers, s.sent)
    ensures forall id :: id in s.transfers ==> s.transfers[id].sentTx != hash
    ensures forall k :: k in s.settlements ==> s.settlements[k].initiateTx != Some(hash)
  {
    forall id | id in s.transfers ensures s.transfers[id].sentTx != hash {
      assert TransferOk(s.transfers[id], s.dispatched);
    }
    forall k | k in s.settlements ensures s.settlements[k].initiateTx != Some(hash) {
      assert RowOk(k, s.settlements[k], s.transfers, s.sent);
    }
  }

  lemma BroadcastKeepsRows(
    cfg: Config, rows: Settlements, ts: Transfers, sent: map<Name, TxKind>, hash: Name, kind: TxKind)
    requires SettlementsOk(cfg, rows, ts, sent) && hash !in sent
    ensures SettlementsOk(cfg, rows, ts, sent[hash := kind])
  {
    forall k | k in rows ensures RowOk(k, rows[k], ts, sent[hash := kind]) {
      assert RowOk(k, rows[k], ts, sent);
    }
  }

  lemma BroadcastKeepsCaps(
    cfg: Config, ts: Transfers, sent: map<Name, TxKind>, terms: map<TxKey, Terms>, hash: Name, kind: TxKind)
    requires CapsOk(cfg, ts, sent, terms) && hash !in sent
    requires forall id :: id in ts ==> ts[id].sentTx != hash
    ensures CapsOk(cfg, ts, sent[hash := kind], terms)
  {
    forall id | id in ts ensures CapStored(cfg, ts[id], sent[hash := kind], terms) {
      assert CapStored(cfg, ts[id], sent, terms);
    }
  }

  lemma BroadcastKeepsFlights(
    plan: map<OrderKey, nat>, flying: map<nat, Name>, rows: Settlements, ts: Transfers, sent: map<Name, TxKind>,
    hash: Name, kind: TxKind)
    requires SettleOk(plan, flying, rows, ts, sent) && hash !in sent
    ensures SettleOk(plan, flying, rows, ts, sent[hash := kind])
    ensures forall b :: b in flying ==> flying[b] != hash
  {
    forall b | b in flying ensures FlightOk(b, flying[b], plan, rows, ts, sent[hash := kind]) && flying[b] != hash {
      assert FlightOk(b, flying[b], plan, rows, ts, sent);
    }
  }

  lemma NewFlight(
    plan: map<OrderKey, nat>, flying: map<nat, Name>, rows: Settlements, ts: Transfers, sent: map<Name, TxKind>,
    batch: nat, hash: Name, key: OrderKey)
    requires SettleOk(plan, flying, rows, ts, sent) && batch !in flying
             && (forall b :: b in flying ==> flying[b] != hash)
    requires key in plan && plan[key] == batch && hash in sent
             && sent[hash] == SettlementTx(rows[key].destination, key.source)
    requires forall id :: id in ts ==> ts[id].sentTx != hash
    requires forall k :: k in rows ==> rows[k].initiateTx != Some(hash)
    ensures SettleOk(plan, flying[batch := hash], rows, ts, sent)
  {
    var flying' := flying[batch := hash];
    forall b | b in flying' ensures FlightOk(b, flying'[b], plan, rows, ts, sent) {
      if b != batch {
        assert FlightOk(b, flying[b], plan, rows, ts, sent);
      }
    }
  }

  lemma BroadcastKeepsTables(cfg: Config, s: State, hash: Name, kind: TxKind)
    requires hash !in s.sent && hash !in cfg.chains && kind.chain in cfg.chains
    requires TransfersOk(s.transfers, s.nextId, s.dispatched) && ChainsOk(cfg, s.sent, s.dispatched)
    requires SettlementsOk(cfg, s.settlements, s.transfers, s.sent)
    requires CapsOk(cfg, s.transfers, s.sent, s.terms) && WorkerOk(s.worker, s.transfers, s.sent)
    ensures ChainsOk(cfg, s.sent[hash := kind], s.dispatched)
    ensures SettlementsOk(cfg, s.settlements, s.transfers, s.sent[hash := kind])
    ensures CapsOk(cfg, s.transfers, s.sent[hash := kind], s.terms)
            && WorkerOk(s.worker, s.transfers, s.sent[hash := kind])
  {
    BroadcastIsNew(cfg, s, hash);
    BroadcastKeepsRows(cfg, s.settlements, s.transfers, s.sent, hash, kind);
    BroadcastKeepsCaps(cfg, s.transfers, s.sent, s.terms, hash, kind);
  }

  lemma BroadcastKeepsSettler(cfg: Config, s: State, batch: nat, hash: Name, key: OrderKey, s': State)
    requires DoBroadcast(cfg, s, batch, hash, s')
    requires key in s.settler.plan && s.settler.plan[key] == batch && key in s.settlements
    requires s'.sent[hash] == SettlementTx(s.settlements[key].destination, key.source)
    requires TransfersOk(s.transfers, s.nextId, s.dispatched) && ChainsOk(cfg, s.sent, s.dispatched)
    requires SettlementsOk(cfg, s.settlements, s.transfers, s.sent)
    requires SettlerOk(s.settler, s.settlements, s.transfers, s.sent, s.cancelled)
    ensures SettlerOk(s'.settler, s'.settlements, s'.transfers, s'.sent, s'.cancelled)
  {
    BroadcastIsNew(cfg, s, hash);
    BroadcastKeepsFlights(s.settler.plan, s.settler.flying, s.settlements, s.transfers, s.sent, hash, s'.sent[hash]);
    NewFlight(s.settler.plan, s.settler.flying, s.settlements, s.transfers, s'.sent, batch, hash, key);
  }

  lemma BroadcastKeeps(cfg: Config, s: State, batch: nat, hash: Name, s': State)
    requires Inv(cfg, s) && DoBroadcast(cfg, s, batch, hash, s')
    ensures Inv(cfg, s')
  {
    var kind := s'.sent[hash];
    var key :| && key in s.settler.plan && s.settler.plan[key] == batch && key in s.settlements
               && kind == SettlementTx(s.settlements[key].destination, key.source);
    BroadcastKeepsTables(cfg, s, hash, kind);
    BroadcastKeepsSettler(cfg, s, batch, hash, key, s');
  }

  lemma TimeoutBroadcastKeeps(cfg: Config, s: State, chain: Name, hash: Name, s': State)
    requires Inv(cfg, s) && DoTimeoutBroadcast(cfg, s, chain, hash, s')
    ensures Inv(cfg, s')
  {
    BroadcastKeepsTables(cfg, s, hash, TimeoutTx(chain));
    if s.settler.SSettle? {
      BroadcastKeepsFlights(s.settler.plan, s.settler.flying, s.settlements, s.transfers, s.sent, hash,
          TimeoutTx(chain));
    }
  }

  lemma ChainDispatchKeepsChains(cfg: Config, s: State, tx: TxKey, dispatch: Dispatch, s': State)
    requires DoChainDispatch(s, tx, dispatch, s')
    requires TransfersOk(s.transfers, s.nextId, s.dispatched) && ChainsOk(cfg, s.sent, s.dispatched)
    ensures TransfersOk(s'.transfers, s'.nextId, s'.dispatched) && ChainsOk(cfg, s'.sent, s'.dispatched)
  {
    forall id | id in s.transfers ensures TransferOk(s.transfers[id], s'.dispatched) {
      assert TransferOk(s.transfers[id], s.dispatched);
    }
  }

  // ----- Delivery attempts -----

  /** A new attempt comes at least ten minutes after the last one, in whole seconds too. */
  lemma RelayRecordKeepsAttempts(cfg: Config, s: State, s': State)
    requires DoRelayRecord(s, s')
    requires RelayerOk(cfg, s.relayer, s.transfers, s.attempts)
    requires AttemptsOk(s.attempts, s.clock) && VerifyingOk(s.verifying, s.attempts)
    ensures RelayerOk(cfg, s'.relayer, s'.transfers, s'.attempts)
    ensures AttemptsOk(s'.attempts, s'.clock) && VerifyingOk(s'.verifying, s'.attempts)
  {
    var id := s.relayer.head.id;
    var txs, txs' := s.attempts[id], s'.attempts[id];
    assert AttemptsInOrder(txs, s.clock);
    assert AllAbandoned(txs);
    forall i | 0 <= i < |txs| ensures Stamp(s.clock) - txs[i].createdAt >= TEN_MINUTES {
      StampIsLate(s.clock, txs[i].createdAt);
    }
    assert AttemptsInOrder(txs', s.clock);
  }

  lemma StampIsLate(now: int, created: int)
    requires created % SECOND == 0 && now - created > TEN_MINUTES
    ensures Stamp(now) - created >= TEN_MINUTES
  {
  }

  lemma VerifierSetKeepsAttempts(cfg: Config, s: State, id: nat, index: nat, status: TxStatus, s': State)
    requires DoVerifierSet(s, id, index, status, s')
    requires AttemptsOk(s.attempts, s.clock) && VerifyingOk(s.verifying, s.attempts)
    ensures AttemptsOk(s'.attempts, s'.clock) && VerifyingOk(s'.verifying, s'.attempts)
    ensures s.attempts[id][index].status == TxPending
  {
    assert AttemptsInOrder(s.attempts[id], s.clock);
    assert s.attempts[id][index].status == TxPending;
    assert AttemptsInOrder(s'.attempts[id], s.clock);
  }

  /** A pending attempt is never one the relayer already counts as abandoned. */
  lemma VerifierKeepsRelayer(cfg: Config, s: State, id: nat, index: nat, status: TxStatus, s': State)
    requires DoVerifierSet(s, id, index, status, s') && s.attempts[id][index].status == TxPending
    requires RelayerOk(cfg, s.relayer, s.transfers, s.attempts)
    ensures RelayerOk(cfg, s'.relayer, s'.transfers, s'.attempts)
  {
    assert !AllAbandoned(s.attempts[id]);
  }

  lemma TickKeepsAttempts(attempts: map<nat, seq<Attempt>>, now: int, later: int)
    requires now <= later && AttemptsOk(attempts, now)
    ensures AttemptsOk(attempts, later)
  {
    forall id | id in attempts ensures AttemptsInOrder(attempts[id], later) {
      assert AttemptsInOrder(attempts[id], now);
    }
  }

  lemma RelaySendKeepsRelays(cfg: Config, s: State, fee: int, s': State)
    requires DoRelaySend(s, fee, s')
    requires LockOk(s.lock, s.settler, s.relayer) && CapTimeOk(s.relayer, s.clock)
    requires RelayerOk(cfg, s.relayer, s.transfers, s.attempts) && RelaysOk(cfg, s.relays, s.transfers)
    ensures RelayerOk(cfg, s'.relayer, s'.transfers, s'.attempts) && CapTimeOk(s'.relayer, s'.clock)
    ensures LockOk(s'.lock, s'.settler, s'.relayer)
    ensures RelaysOk(cfg, s'.relays, s'.transfers)
  {
    assert ReadRow(s.relayer.head, s.transfers);
    forall i | 0 <= i < |s'.relays| ensures RelayOk(cfg, s'.relays[i], s.transfers) {
      if i < |s.relays| {
        assert RelayOk(cfg, s.relays[i], s.transfers);
      }
    }
  }

  lemma ChainDispatchKeeps(cfg: Config, s: State, tx: TxKey, dispatch: Dispatch, s': State)
    requires Inv(cfg, s) && DoChainDispatch(s, tx, dispatch, s')
    ensures Inv(cfg, s')
  {
    ChainDispatchKeepsChains(cfg, s, tx, dispatch, s');
  }

  lemma RelayRecordKeeps(cfg: Config, s: State, s': State)
    requires Inv(cfg, s) && DoRelayRecord(s, s')
    ensures Inv(cfg, s')
  {
    RelayRecordKeepsAttempts(cfg, s, s');
  }

  lemma VerifierSetKeeps(cfg: Config, s: State, id: nat, index: nat, status: TxStatus, s': State)
    requires Inv(cfg, s) && DoVerifierSet(s, id, index, status, s')
    ensures Inv(cfg, s')
  {
    VerifierSetKeepsAttempts(cfg, s, id, index, status, s');
    VerifierKeepsRelayer(cfg, s, id, index, status, s');
  }

  lemma TickKeeps(cfg: Config, s: State, now: int, s': State)
    requires Inv(cfg, s) && DoTick(s, now, s')
    ensures Inv(cfg, s')
  {
    TickKeepsAttempts(s.attempts, s.clock, now);
  }

  lemma RelaySendKeeps(cfg: Config, s: State, fee: int, s': State)
    requires Inv(cfg, s) && DoRelaySend(s, fee, s')
    ensures Inv(cfg, s')
  {
    RelaySendKeepsRelays(cfg, s, fee, s');
  }

  // ----- Every step -----

  lemma SubmitStepKeeps(cfg: Config, s: State, a: SubmitAction, s': State)
    requires Inv(cfg, s) && SubmitNext(cfg, s, a, s')
    ensures Inv(cfg, s')
  {
    match a
    case SubmitRead(batches) => SubmitReadKeeps(cfg, s, batches, s');
    case SubmitFound(id) => SubmitFoundKeeps(cfg, s, id, s');
    case SubmitMissing => SubmitMissingKeeps(cfg, s, s');
    case SubmitInsert(lag) => SubmitInsertKeeps(cfg, s, lag, s');
    case SubmitSkip => SubmitSkipKeeps(cfg, s, s');
    case LinkRow => LinkRowKeeps(cfg, s, s');
    case LinkDone => LinkDoneKeeps(cfg, s, s');
  }

  lemma CancelStepKeeps(cfg: Config, s: State, a: CancelAction, s': State)
    requires Inv(cfg, s) && CancelNext(s, a, s')
    ensures Inv(cfg, s')
  {
    match a
    case CancelRead(todo) => CancelReadKeeps(cfg, s, todo, s');
    case CancelSkip => CancelSkipKeeps(cfg, s, s');
    case CancelCall => CancelCallKeeps(cfg, s, s');
    case ClearRows => ClearRowsKeeps(cfg, s, s');
  }

  lemma SettleStepKeeps(cfg: Config, s: State, a: SettleAction, s': State)
    requires Inv(cfg, s) && SettleNext(cfg, s, a, s')
    ensures Inv(cfg, s')
  {
    match a
    case CreateRow(key, row) => CreateRowKeeps(cfg, s, key, row, s');
    case SettleRead(plan) => SettleReadKeeps(cfg, s, plan, s');
    case Broadcast(batch, hash) => BroadcastKeeps(cfg, s, batch, hash, s');
    case RecordBatch(batch) => RecordBatchKeeps(cfg, s, batch, s');
    case DropBatch(batch) => DropBatchKeeps(cfg, s, batch, s');
    case SettlerAbort => SettlerAbortKeeps(cfg, s, s');
  }

  lemma VerifyStepKeeps(cfg: Config, s: State, a: VerifyAction, s': State)
    requires Inv(cfg, s) && VerifyNext(s, a, s')
    ensures Inv(cfg, s')
  {
    match a
    case VerifyRead(todo) => VerifyReadKeeps(cfg, s, todo, s');
    case VerifySkip => VerifySkipKeeps(cfg, s, s');
    case VerifyInitiated => VerifyInitiatedKeeps(cfg, s, s');
    case VerifyFailed => VerifyFailedKeeps(cfg, s, s');
    case CheckComplete(complete) => CheckCompleteKeeps(cfg, s, complete, s');
  }

  lemma UpdateStepKeeps(cfg: Config, s: State, thread: Thread, a: UpdateAction, s': State)
    requires Inv(cfg, s) && UpdateNext(s, thread, a, s')
    ensures Inv(cfg, s')
  {
    if thread == SettlerThread {
      match a
      case UpdateLock => UpdateLockBySettlerKeeps(cfg, s, s');
      case UpdateFind(id) => UpdateFindBySettlerKeeps(cfg, s, id, s');
      case UpdateMiss => UpdateMissBySettlerKeeps(cfg, s, s');
      case UpdateWrite => UpdateWriteBySettlerKeeps(cfg, s, s');
      case UpdateUnlock => UpdateUnlockBySettlerKeeps(cfg, s, s');
    } else {
      match a
      case UpdateLock => UpdateLockByRelayerKeeps(cfg, s, s');
      case UpdateFind(id) => UpdateFindByRelayerKeeps(cfg, s, id, s');
      case UpdateMiss => UpdateMissByRelayerKeeps(cfg, s, s');
      case UpdateWrite => UpdateWriteByRelayerKeeps(cfg, s, s');
      case UpdateUnlock => UpdateUnlockByRelayerKeeps(cfg, s, s');
    }
  }

  lemma ScanStepKeeps(cfg: Config, s: State, a: ScanAction, s': State)
    requires Inv(cfg, s) && ScanNext(cfg, s, a, s')
    ensures Inv(cfg, s')
  {
    match a
    case RelayRead(rows) => RelayReadKeeps(cfg, s, rows, s');
    case RelaySkip => RelaySkipKeeps(cfg, s, s');
    case RelayDelivered => RelayDeliveredKeeps(cfg, s, s');
    case RelayDecide => RelayDecideKeeps(cfg, s, s');
    case RelayRecord => RelayRecordKeeps(cfg, s, s');
    case RelayRecordFails => RelayRecordFailsKeeps(cfg, s, s');
  }

  lemma SendStepKeeps(cfg: Config, s: State, a: SendAction, s': State)
    requires Inv(cfg, s) && SendNext(s, a, s')
    ensures Inv(cfg, s')
  {
    match a
    case RelayLock => RelayLockKeeps(cfg, s, s');
    case RelayPending(id) => RelayPendingKeeps(cfg, s, id, s');
    case RelayNotPending => RelayNotPendingKeeps(cfg, s, s');
    case RelaySend(fee) => RelaySendKeeps(cfg, s, fee, s');
    case RelayFail(sending) => RelayFailKeeps(cfg, s, sending, s');
    case RelayUnlock => RelayUnlockKeeps(cfg, s, s');
  }

  lemma VerifierStepKeeps(cfg: Config, s: State, a: VerifierAction, s': State)
    requires Inv(cfg, s) && VerifierNext(s, a, s')
    ensures Inv(cfg, s')
  {
    match a
    case VerifierRead => VerifierReadKeeps(cfg, s, s');
    case VerifierSet(id, index, status) => VerifierSetKeeps(cfg, s, id, index, status, s');
    case VerifierLeave(id, index) => VerifierLeaveKeeps(cfg, s, id, index, s');
  }

  lemma WorldStepKeeps(cfg: Config, s: State, a: WorldAction, s': State)
    requires Inv(cfg, s) && WorldNext(cfg, s, a, s')
    ensures Inv(cfg, s')
  {
    match a
    case TimeoutBroadcast(chain, hash) => TimeoutBroadcastKeeps(cfg, s, chain, hash, s');
    case TimeoutLookup(tx) => TimeoutLookupKeeps(cfg, s, tx, s');
    case TimeoutInsert => TimeoutInsertKeeps(cfg, s, s');
    case ChainDispatch(tx, dispatch) => ChainDispatchKeeps(cfg, s, tx, dispatch, s');
    case Tick(now) => TickKeeps(cfg, s, now, s');
    case Restart => RestartKeeps(cfg, s, s');
  }

  /** Every step of every thread keeps the invariant. */
  lemma StepKeeps(cfg: Config, s: State, a: Action, s': State)
    requires Inv(cfg, s) && Next(cfg, s, a, s')
    ensures Inv(cfg, s')
  {
    match a
    case SubmitStep(x) => SubmitStepKeeps(cfg, s, x, s');
    case CancelStep(x) => CancelStepKeeps(cfg, s, x, s');
    case SettleStep(x) => SettleStepKeeps(cfg, s, x, s');
    case VerifyStep(x) => VerifyStepKeeps(cfg, s, x, s');
    case UpdateStep(thread, x) => UpdateStepKeeps(cfg, s, thread, x, s');
    case ScanStep(x) => ScanStepKeeps(cfg, s, x, s');
    case SendStep(x) => SendStepKeeps(cfg, s, x, s');
    case VerifierStep(x) => VerifierStepKeeps(cfg, s, x, s');
    case WorldStep(x) => WorldStepKeeps(cfg, s, x, s');
  }
}

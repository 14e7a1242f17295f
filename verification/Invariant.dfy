/** What every step of the protocol keeps. Each part names the tables it is about, so a
    step that leaves those alone keeps it by itself. */
module Invariant {
  import opened Basics
  import opened Fees
  import opened Tables
  import opened Protocol

  // ----- Tables and chains -----

  ghost predicate TransferOk(t: Transfer, dispatched: map<TxKey, Dispatch>) {
    && t.status != TransferAbandoned
    && t.maxFee.Some?
    && TxKey(t.source, t.sentTx) in dispatched
    && dispatched[TxKey(t.source, t.sentTx)] == Dispatch(t.destination, t.message)
  }

  /** Transfer rows mirror the message their tx dispatched, and no two share it. */
  ghost predicate TransfersOk(ts: Transfers, nextId: nat, dispatched: map<TxKey, Dispatch>) {
    && nextId > 0
    && (forall id :: id in ts ==> 0 < id < nextId && TransferOk(ts[id], dispatched))
    && (forall i, j ::
          (i in ts && j in ts && SameMessage(ts[i], ts[j].source, ts[j].destination, ts[j].message)) ==> i == j)
  }

  ghost predicate ChainsOk(cfg: Config, sent: map<Name, TxKind>, dispatched: map<TxKey, Dispatch>) {
    && (forall h :: h in sent ==> h !in cfg.chains && sent[h].chain in cfg.chains)
    && (forall tx :: tx in dispatched ==> tx.hash in sent && sent[tx.hash].chain == tx.chain)
    && (forall tx, tx' ::
          (tx in dispatched && tx' in dispatched && dispatched[tx].message == dispatched[tx'].message) ==> tx == tx')
  }

  /** A tx CancelRelay returned true for keeps its cancelled row. */
  ghost predicate CancelledOk(cancelled: map<TxKey, nat>, ts: Transfers) {
    forall tx :: tx in cancelled ==>
      && cancelled[tx] in ts
      && SentBy(ts[cancelled[tx]], tx.chain, tx.hash)
      && ts[cancelled[tx]].status == TransferCancelled
  }

  /** The row shape: past pending there is a tx; a transfer id belongs to a row whose tx
      that transfer relays; the tx itself fixes both chains of the row. */
  ghost predicate RowOk(key: OrderKey, row: Settlement, ts: Transfers, sent: map<Name, TxKind>) {
    && (row.status != Pending ==> row.initiateTx.Some?)
    && (row.transferId.Some? ==>
          && (row.status == Initiated || row.status == Complete)
          && row.transferId.value in ts
          && SentBy(ts[row.transferId.value], row.destination, row.initiateTx.value))
    && (row.initiateTx.Some? ==>
          row.initiateTx.value in sent && sent[row.initiateTx.value] == SettlementTx(row.destination, key.source))
  }

  ghost predicate SettlementsOk(cfg: Config, rows: Settlements, ts: Transfers, sent: map<Name, TxKind>) {
    forall k :: k in rows ==> RowOk(k, rows[k], ts, sent) && rows[k].destination in cfg.chains
  }

  /** Every tx a row ever carried is the one it carries now or was cancelled. */
  ghost predicate CarriedOk(carried: map<OrderKey, set<Name>>, rows: Settlements, cancelled: map<TxKey, nat>) {
    && (forall k :: k in carried ==> k in rows && OnlyOneLive(carried[k], rows[k], cancelled))
    && (forall k :: k in rows && rows[k].initiateTx.Some? ==> k in carried && rows[k].initiateTx.value in carried[k])
  }

  ghost predicate OnlyOneLive(hashes: set<Name>, row: Settlement, cancelled: map<TxKey, nat>) {
    forall h :: h in hashes ==> row.initiateTx == Some(h) || TxKey(row.destination, h) in cancelled
  }

  // ----- The mutex -----

  ghost predicate SettlerHolds(settler: Settler) {
    settler.SCancelling? && settler.update.phase != AtLock
  }

  ghost predicate RelayerHolds(relayer: Relayer) {
    || (relayer.RMark? && relayer.update.phase != AtLock)
    || relayer.RLookup? || relayer.RSend? || relayer.RUnlock?
  }

  ghost predicate LockOk(lock: Option<Thread>, settler: Settler, relayer: Relayer) {
    && (lock == Some(SettlerThread) <==> SettlerHolds(settler))
    && (lock == Some(RelayerThread) <==> RelayerHolds(relayer))
  }

  ghost predicate UpdateOk(u: Update, ts: Transfers) {
    match u.phase
    case AtLock => true
    case Locked => true
    case Found(id) => id in ts && SentBy(ts[id], u.chain, u.tx) && ts[id].status == TransferPending
    case Finished(None) => true
    case Finished(Some(o)) =>
      o.id in ts && SentBy(ts[o.id], u.chain, u.tx) && ts[o.id].status == o.status && o.status != TransferPending
  }

  // ----- The settler -----

  /** A row still carries the tx it was read with. */
  ghost predicate StillCarries(snap: Snap, rows: Settlements) {
    && snap.key in rows
    && snap.row.initiateTx.Some?
    && rows[snap.key].initiateTx == snap.row.initiateTx
    && rows[snap.key].destination == snap.row.destination
    && rows[snap.key].status == Initiated
  }

  ghost predicate BatchOk(batch: seq<Snap>, rows: Settlements) {
    forall i :: 0 <= i < |batch| ==> StillCarries(batch[i], rows) && batch[i].row.initiateTx == batch[0].row.initiateTx
  }

  ghost predicate BatchesOk(batches: seq<seq<Snap>>, rows: Settlements) {
    forall i :: 0 <= i < |batches| ==> batches[i] != [] && BatchOk(batches[i], rows)
  }

  ghost predicate NoTransfer(ts: Transfers, tx: TxKey) {
    forall id :: id in ts ==> !SentBy(ts[id], tx.chain, tx.hash)
  }

  /** A batch on its way to the chain: its tx is not in any table yet. */
  ghost predicate FlightOk(
    batch: nat, hash: Name, plan: map<OrderKey, nat>, rows: Settlements, ts: Transfers, sent: map<Name, TxKind>)
  {
    && hash in sent && sent[hash].SettlementTx?
    && NoTransfer(ts, TxKey(sent[hash].chain, hash))
    && (forall k :: k in rows ==> rows[k].initiateTx != Some(hash))
    && (forall k :: k in plan && plan[k] == batch && k in rows ==>
        sent[hash] == SettlementTx(rows[k].destination, k.source))
  }

  ghost predicate SettleOk(
    plan: map<OrderKey, nat>, flying: map<nat, Name>, rows: Settlements, ts: Transfers, sent: map<Name, TxKind>)
  {
    && SettlePlan(rows, plan)
    && (forall b :: b in flying ==> FlightOk(b, flying[b], plan, rows, ts, sent))
    && (forall b, c :: b in flying && c in flying && flying[b] == flying[c] ==> b == c)
  }

  ghost predicate VerifyOk(todo: seq<Snap>, rows: Settlements) {
    && (forall i :: 0 <= i < |todo| ==>
          && todo[i].key in rows
          && rows[todo[i].key].initiateTx.Some?
          && rows[todo[i].key].status == (if todo[i].row.status == Pending then Pending else Initiated))
    && (forall i, j :: 0 <= i < j < |todo| ==> todo[i].key != todo[j].key)
  }

  ghost predicate SettlerOk(
    settler: Settler, rows: Settlements, ts: Transfers, sent: map<Name, TxKind>, cancelled: map<TxKey, nat>)
  {
    match settler
    case SReady => true
    case SSubmit(batches) => BatchesOk(batches, rows)
    case SInsert(batch, later) => batch != [] && BatchOk(batch, rows) && BatchesOk(later, rows)
        && NoTransfer(ts, BatchTx(batch))
    case SLink(id, batch, later) =>
      && BatchOk(batch, rows) && BatchesOk(later, rows)
      && id in ts
      && (batch != [] ==> SentBy(ts[id], BatchTx(batch).chain, BatchTx(batch).hash))
    case SCancel(todo) => true
    case SCancelling(head, rest, u) =>
      && u.chain == head.row.destination && u.tx == Text(head.row.initiateTx) && u.status == TransferCancelled
      && UpdateOk(u, ts)
    case SClear(head, rest) => TxKey(head.row.destination, Text(head.row.initiateTx)) in cancelled
    case SSettle(plan, flying) => SettleOk(plan, flying, rows, ts, sent)
    case SVerify(todo) => VerifyOk(todo, rows)
    case SCheck(head, rest) =>
      && VerifyOk(rest, rows) && head.key in rows && rows[head.key].status == Initiated
      && (forall i :: 0 <= i < |rest| ==> rest[i].key != head.key)
  }

  // ----- The relayer and the timeout worker -----

  ghost predicate ReadRow(row: Row, ts: Transfers) {
    row.id in ts && SameTransfer(row.transfer, ts[row.id])
  }

  ghost predicate ReadRows(rows: seq<Row>, ts: Transfers) {
    forall i :: 0 <= i < |rows| ==> ReadRow(rows[i], ts)
  }

  ghost predicate AllAbandoned(txs: seq<Attempt>) {
    forall i :: 0 <= i < |txs| ==> txs[i].status == TxAbandoned
  }

  /** The relayer is about to deliver this row: all earlier attempts are abandoned. */
  ghost predicate MayDeliver(row: Row, ts: Transfers, attempts: map<nat, seq<Attempt>>) {
    ReadRow(row, ts) && row.id in attempts && AllAbandoned(attempts[row.id])
  }

  ghost function CapOf(cfg: Config, t: Transfer, at: int): int {
    RelayCostCap(cfg.relayCap(t.destination), t.maxFee, cfg.relayTimeout(t.destination), t.createdAt, at)
  }

  ghost predicate RelayerOk(cfg: Config, relayer: Relayer, ts: Transfers, attempts: map<nat, seq<Attempt>>) {
    match relayer
    case RReady => true
    case RScan(todo) => ReadRows(todo, ts)
    case RMark(u, rest) =>
      && ReadRows(rest, ts) && UpdateOk(u, ts)
      && u.status != TransferPending && u.status != TransferCancelled
      && (u.status == TransferAbandoned ==> u.tx in cfg.chains)
    case RLock(head, rest, cap, at) => MayDeliver(head, ts, attempts) && ReadRows(rest, ts)
        && cap == CapOf(cfg, head.transfer, at)
    case RLookup(head, rest, cap, at) => MayDeliver(head, ts, attempts) && ReadRows(rest, ts)
        && cap == CapOf(cfg, head.transfer, at)
    case RSend(head, rest, cap, at) =>
      && MayDeliver(head, ts, attempts) && ReadRows(rest, ts) && cap == CapOf(cfg, head.transfer, at)
      && ts[head.id].status == TransferPending
    case RUnlock(head, rest, sending) => MayDeliver(head, ts, attempts) && ReadRows(rest, ts)
    case RRecord(head, rest) => MayDeliver(head, ts, attempts) && ReadRows(rest, ts)
  }

  ghost predicate CapTimeOk(relayer: Relayer, clock: int) {
    (relayer.RLock? || relayer.RLookup? || relayer.RSend?) ==> relayer.capAt <= clock
  }

  ghost predicate WorkerOk(worker: Worker, ts: Transfers, sent: map<Name, TxKind>) {
    worker.WInsert? ==>
      worker.tx.hash in sent && sent[worker.tx.hash] == TimeoutTx(worker.tx.chain) && NoTransfer(ts, worker.tx)
  }

  // ----- Deliveries and money -----

  /** All attempts but the last are abandoned, each at least ten minutes after the one
      before it. */
  ghost predicate AttemptsInOrder(txs: seq<Attempt>, now: int) {
    && (forall i :: 0 <= i < |txs| ==>
          && txs[i].createdAt % SECOND == 0 && txs[i].createdAt <= now
          && (txs[i].status == TxAbandoned ==> now - txs[i].createdAt > TEN_MINUTES))
    && (forall i :: 0 <= i < |txs| - 1 ==> txs[i].status == TxAbandoned)
    && (forall i, j :: 0 <= i < j < |txs| ==> txs[j].createdAt - txs[i].createdAt >= TEN_MINUTES)
  }

  ghost predicate AttemptsOk(attempts: map<nat, seq<Attempt>>, clock: int) {
    forall id :: id in attempts ==> AttemptsInOrder(attempts[id], clock)
  }

  ghost predicate VerifyingOk(verifying: set<(nat, nat)>, attempts: map<nat, seq<Attempt>>) {
    forall id, i :: (id, i) in verifying ==> id in attempts && i < |attempts[id]| && attempts[id][i].status == TxPending
  }

  ghost predicate CapStored(cfg: Config, t: Transfer, sent: map<Name, TxKind>, terms: map<TxKey, Terms>) {
    t.sentTx in sent && sent[t.sentTx].SettlementTx? ==>
      && TxKey(t.source, t.sentTx) in terms
      && terms[TxKey(t.source, t.sentTx)].payout == sent[t.sentTx].payout
      && t.maxFee == Some(StoredCap(cfg, terms[TxKey(t.source, t.sentTx)], t.destination))
  }

  ghost predicate CapsOk(cfg: Config, ts: Transfers, sent: map<Name, TxKind>, terms: map<TxKey, Terms>) {
    forall id :: id in ts ==> CapStored(cfg, ts[id], sent, terms)
  }

  ghost predicate RelayOk(cfg: Config, r: Relay, ts: Transfers) {
    r.id in ts && r.capAt <= r.sentAt && FeeAllowed(r.fee, CapOf(cfg, ts[r.id], r.capAt))
  }

  ghost predicate RelaysOk(cfg: Config, relays: seq<Relay>, ts: Transfers) {
    forall i :: 0 <= i < |relays| ==> RelayOk(cfg, relays[i], ts)
  }

  ghost predicate Inv(cfg: Config, s: State) {
    && TransfersOk(s.transfers, s.nextId, s.dispatched)
    && ChainsOk(cfg, s.sent, s.dispatched)
    && CancelledOk(s.cancelled, s.transfers)
    && SettlementsOk(cfg, s.settlements, s.transfers, s.sent)
    && CarriedOk(s.carried, s.settlements, s.cancelled)
    && LockOk(s.lock, s.settler, s.relayer)
    && SettlerOk(s.settler, s.settlements, s.transfers, s.sent, s.cancelled)
    && RelayerOk(cfg, s.relayer, s.transfers, s.attempts)
    && CapTimeOk(s.relayer, s.clock)
    && WorkerOk(s.worker, s.transfers, s.sent)
    && s.attempts.Keys == s.transfers.Keys
    && AttemptsOk(s.attempts, s.clock)
    && VerifyingOk(s.verifying, s.attempts)
    && CapsOk(cfg, s.transfers, s.sent, s.terms)
    && RelaysOk(cfg, s.relays, s.transfers)
  }

  lemma InitOk(cfg: Config, s: State)
    requires Init(s)
    ensures Inv(cfg, s)
  {
  }

  /** One tx has at most one transfer row. */
  lemma OneRowPerTx(s: State, i: nat, j: nat)
    requires TransfersOk(s.transfers, s.nextId, s.dispatched) && i in s.transfers && j in s.transfers
    requires SentBy(s.transfers[i], s.transfers[j].source, s.transfers[j].sentTx)
    ensures i == j
  {
    var t, u := s.transfers[i], s.transfers[j];
    assert TransferOk(t, s.dispatched) && TransferOk(u, s.dispatched);
    assert SameMessage(t, u.source, u.destination, u.message);
  }
}

/** The solver's loops as one state machine. Every database call, every mutex operation and
    every call to a chain is one step, and the steps of the order settler, the relayer, the
    timeout worker and the tx verifier interleave in any order. A call that fails, or that
    a loop decides not to make, is a step that changes no table. */
module Protocol {
  import opened Basics
  import opened Fees
  import opened Tables

  const SECOND := 1_000_000_000
  const TEN_MINUTES := 600 * SECOND

  /** A transaction on a chain. */
  datatype TxKey = TxKey(chain: Name, hash: Name)

  /** What a transaction the solver broadcast is for. */
  datatype TxKind =
    | SettlementTx(chain: Name, payout: Name)
    | TimeoutTx(chain: Name)

  /** The one message a transaction dispatches. */
  datatype Dispatch = Dispatch(destination: Name, message: Name)

  datatype TxStatus = TxPending | TxSuccess | TxFailed | TxAbandoned

  /** A row of submitted_txs that delivers a hyperlane message. */
  datatype Attempt = Attempt(createdAt: int, status: TxStatus)

  datatype Config = Config(
    chains: set<Name>,
    marginBps: Name -> int,
    relayCap: Name -> int,
    relayTimeout: Name -> Option<int>)

  /** What a settlement batch was worth when its tx was handed to the relayer, and the time
      between the two readings of the clock its cap was computed with. */
  datatype Terms = Terms(value: int, profit: int, payout: Name, lag: nat)

  /** A delivery passed to the destination chain: its quoted fee, when the cap was
      computed and when it was sent. */
  datatype Relay = Relay(id: nat, fee: int, capAt: int, sentAt: int)

  // ----- Threads -----

  datatype Thread = SettlerThread | RelayerThread

  datatype Outcome = Outcome(id: nat, status: TransferStatus)

  /** Where a call of updateTransferStatusIfPending has got to. */
  datatype Phase =
    | AtLock
    | Locked
    | Found(id: nat)
    | Finished(outcome: Option<Outcome>)

  datatype Update = Update(chain: Name, tx: Name, status: TransferStatus, phase: Phase)

  datatype Settler =
    | SReady
    | SSubmit(batches: seq<seq<Snap>>)
    | SInsert(batch: seq<Snap>, later: seq<seq<Snap>>)
    | SLink(id: nat, rows: seq<Snap>, later: seq<seq<Snap>>)
    | SCancel(todo: seq<Snap>)
    | SCancelling(head: Snap, rest: seq<Snap>, update: Update)
    | SClear(head: Snap, rest: seq<Snap>)
    | SSettle(plan: map<OrderKey, nat>, flying: map<nat, Name>)
    | SVerify(todo: seq<Snap>)
    | SCheck(head: Snap, rest: seq<Snap>)

  /** A transfer row as the relayer's query returned it. */
  datatype Row = Row(id: nat, transfer: Transfer)

  datatype Sending = NotSent | Reverted | Sent

  datatype Relayer =
    | RReady
    | RScan(todo: seq<Row>)
    | RMark(update: Update, rest: seq<Row>)
    | RLock(head: Row, rest: seq<Row>, cap: int, capAt: int)
    | RLookup(head: Row, rest: seq<Row>, cap: int, capAt: int)
    | RSend(head: Row, rest: seq<Row>, cap: int, capAt: int)
    | RUnlock(head: Row, rest: seq<Row>, sending: Sending)
    | RRecord(head: Row, rest: seq<Row>)

  /** The timeout worker between looking a tx up and inserting its transfer. */
  datatype Worker = WReady | WInsert(tx: TxKey)

  datatype State = State(
    // tables
    settlements: Settlements,
    transfers: Transfers,
    nextId: nat,
    attempts: map<nat, seq<Attempt>>,
    // chains
    sent: map<Name, TxKind>,
    dispatched: map<TxKey, Dispatch>,
    clock: int,
    // threads
    lock: Option<Thread>,
    settler: Settler,
    relayer: Relayer,
    worker: Worker,
    verifying: set<(nat, nat)>,
    // history: every initiate tx a row has carried, the txs CancelRelay returned true for
    // with the row it found, the terms each settlement tx was submitted on, and all relays
    carried: map<OrderKey, set<Name>>,
    cancelled: map<TxKey, nat>,
    terms: map<TxKey, Terms>,
    relays: seq<Relay>)

  ghost predicate Init(s: State) {
    && s.settlements == map[] && s.transfers == map[] && s.nextId == 1 && s.attempts == map[]
    && s.sent == map[] && s.dispatched == map[]
    && s.lock == None && s.settler == SReady && s.relayer == RReady && s.worker == WReady
    && s.verifying == {} && s.carried == map[] && s.cancelled == map[] && s.terms == map[]
    && s.relays == []
  }

  // ----- Sums over a batch -----

  function TotalValue(batch: seq<Snap>): int {
    if batch == [] then 0 else TotalValue(batch[..|batch| - 1]) + batch[|batch| - 1].row.amount
  }

  function TotalProfit(batch: seq<Snap>): int {
    if batch == [] then 0 else TotalProfit(batch[..|batch| - 1]) + batch[|batch| - 1].row.profit
  }

  function BatchTx(batch: seq<Snap>): TxKey
    requires batch != []
  {
    TxKey(batch[0].row.destination, Text(batch[0].row.initiateTx))
  }

  /** The latest of the attempts, the earliest inserted one on a tie. */
  function MostRecent(txs: seq<Attempt>): Attempt
    requires txs != []
  {
    if |txs| == 1 then txs[0] else
    var best := MostRecent(txs[..|txs| - 1]);
    if txs[|txs| - 1].createdAt > best.createdAt then txs[|txs| - 1] else best
  }

  /** CURRENT_TIMESTAMP has whole seconds. */
  function Stamp(now: int): int {
    now - now % SECOND
  }

  // ----- Inserting a transfer (the second half of SubmitTxToRelay) -----

  ghost predicate Conflicts(s: State, tx: TxKey)
    requires tx in s.dispatched
  {
    HasMessage(s.transfers, tx.chain, s.dispatched[tx].destination, s.dispatched[tx].message)
  }

  /** The row id handed back: 0, the zero value, when the insert hit a conflict. */
  ghost function InsertedId(s: State, tx: TxKey): nat
    requires tx in s.dispatched
  {
    if Conflicts(s, tx) then 0 else s.nextId
  }

  ghost function Inserted(s: State, tx: TxKey, maxFee: int): State
    requires tx in s.dispatched
  {
    if Conflicts(s, tx) then s else
    var d := s.dispatched[tx];
    s.(transfers := s.transfers[s.nextId := Transfer(tx.chain, d.destination, d.message, tx.hash, TransferPending,
        Some(maxFee), Stamp(s.clock))],
       attempts := s.attempts[s.nextId := []],
       nextId := s.nextId + 1)
  }

  /** The cap stored for a batch. The timeout is measured here too: the caller reads the clock
      for the start, and the computation reads it again `lag` later. */
  function StoredCap(cfg: Config, t: Terms, destination: Name): int {
    RelayCostCap(cfg.relayCap(destination), Some(MaxBatchTxFee(t.profit, t.value, cfg.marginBps(t.payout))),
                 cfg.relayTimeout(destination), 0, t.lag)
  }

  /** The two readings are no further apart than the relay's timeout. */
  predicate CapInTime(cfg: Config, t: Terms, destination: Name) {
    cfg.relayTimeout(destination).None? || t.lag <= cfg.relayTimeout(destination).value
  }

  // ----- Steps -----

  /** The settler submits initiated settlements for relay. */
  datatype SubmitAction =
    | SubmitRead(batches: seq<seq<Snap>>)
    | SubmitFound(id: nat)
    | SubmitMissing
    | SubmitInsert(lag: nat)
    | SubmitSkip
    | LinkRow
    | LinkDone

  /** The settler cancels relays in order to rebatch. */
  datatype CancelAction =
    | CancelRead(todo: seq<Snap>)
    | CancelSkip
    | CancelCall
    | ClearRows

  /** The settler creates rows for newly filled orders and settles pending ones; an error
      ends the loop body it is in. */
  datatype SettleAction =
    | CreateRow(key: OrderKey, row: Settlement)
    | SettleRead(plan: map<OrderKey, nat>)
    | Broadcast(batch: nat, hash: Name)
    | RecordBatch(batch: nat)
    | DropBatch(batch: nat)
    | SettlerAbort

  /** The settler checks on initiated settlements. */
  datatype VerifyAction =
    | VerifyRead(todo: seq<Snap>)
    | VerifySkip
    | VerifyInitiated
    | VerifyFailed
    | CheckComplete(complete: bool)

  /** updateTransferStatusIfPending, called by either thread. */
  datatype UpdateAction =
    | UpdateLock
    | UpdateFind(id: nat)
    | UpdateMiss
    | UpdateWrite
    | UpdateUnlock

  /** The relayer walks the pending transfers and records deliveries. */
  datatype ScanAction =
    | RelayRead(rows: seq<Row>)
    | RelaySkip
    | RelayDelivered
    | RelayDecide
    | RelayRecord
    | RelayRecordFails

  /** The relayer relays one transfer under the mutex. */
  datatype SendAction =
    | RelayLock
    | RelayPending(id: nat)
    | RelayNotPending
    | RelaySend(fee: int)
    | RelayFail(sending: Sending)
    | RelayUnlock

  /** The tx verifier. */
  datatype VerifierAction =
    | VerifierRead
    | VerifierSet(id: nat, index: nat, status: TxStatus)
    | VerifierLeave(id: nat, index: nat)

  /** The timeout worker, the chains, time, and a restart of the process. */
  datatype WorldAction =
    | TimeoutBroadcast(chain: Name, hash: Name)
    | TimeoutLookup(tx: TxKey)
    | TimeoutInsert
    | ChainDispatch(tx: TxKey, dispatch: Dispatch)
    | Tick(now: int)
    | Restart

  datatype Action =
    | SubmitStep(submit: SubmitAction)
    | CancelStep(cancel: CancelAction)
    | SettleStep(settle: SettleAction)
    | VerifyStep(verify: VerifyAction)
    | UpdateStep(thread: Thread, update: UpdateAction)
    | ScanStep(scan: ScanAction)
    | SendStep(send: SendAction)
    | VerifierStep(verifier: VerifierAction)
    | WorldStep(world: WorldAction)

  // ----- Settler: submit -----

  /** Rows with one initiate tx, as the by-hash grouping of the initiated rows gives them. */
  predicate SubmitBatch(rows: Settlements, batch: seq<Snap>) {
    && batch != []
    && forall i :: 0 <= i < |batch| ==>
         && batch[i].key in rows && rows[batch[i].key] == batch[i].row
         && batch[i].row.status == Initiated
         && batch[i].row.initiateTx.Some?
         && batch[i].row.initiateTx == batch[0].row.initiateTx
  }

  ghost predicate DoSubmitRead(s: State, batches: seq<seq<Snap>>, s': State) {
    && s.settler == SReady
    && (forall i :: 0 <= i < |batches| ==> SubmitBatch(s.settlements, batches[i]))
    && s' == s.(settler := SSubmit(batches))
  }

  ghost predicate AtBatch(s: State) {
    s.settler.SSubmit? && s.settler.batches != [] && s.settler.batches[0] != []
  }

  ghost predicate DoSubmitFound(s: State, id: nat, s': State) {
    && AtBatch(s)
    && var batch := s.settler.batches[0];
    && id in s.transfers && SentBy(s.transfers[id], BatchTx(batch).chain, BatchTx(batch).hash)
    && s' == s.(settler := SLink(id, batch, s.settler.batches[1..]))
  }

  ghost predicate DoSubmitMissing(s: State, s': State) {
    && AtBatch(s)
    && var batch := s.settler.batches[0];
    && (forall id :: id in s.transfers ==> !SentBy(s.transfers[id], BatchTx(batch).chain, BatchTx(batch).hash))
    && s' == s.(settler := SInsert(batch, s.settler.batches[1..]))
  }

  ghost predicate DoSubmitInsert(cfg: Config, s: State, lag: nat, s': State) {
    && s.settler.SInsert? && s.settler.batch != []
    && var batch := s.settler.batch;
    && var tx := BatchTx(batch);
    && tx in s.dispatched
    && var destination := s.dispatched[tx].destination;
    && var t := Terms(TotalValue(batch), TotalProfit(batch), batch[0].key.source, lag);
    && s' == Inserted(s, tx, StoredCap(cfg, t, destination)).(
               settler := SLink(InsertedId(s, tx), batch, s.settler.later),
               terms := s.terms[tx := t])
  }

  ghost predicate DoSubmitSkip(s: State, s': State) {
    || (AtBatch(s) && s' == s.(settler := SSubmit(s.settler.batches[1..])))
    || (s.settler.SInsert? && s' == s.(settler := SSubmit(s.settler.later)))
  }

  ghost predicate DoLinkRow(s: State, s': State) {
    && s.settler.SLink? && s.settler.rows != []
    && s' == s.(settlements := SetTransferId(s.settlements, s.settler.rows[0].key, s.settler.id),
                settler := s.settler.(rows := s.settler.rows[1..]))
  }

  ghost predicate DoLinkDone(s: State, s': State) {
    && s.settler.SLink? && s.settler.rows == []
    && s' == s.(settler := SSubmit(s.settler.later))
  }

  // ----- Settler: create -----

  ghost predicate DoCreateRow(cfg: Config, s: State, key: OrderKey, row: Settlement, s': State) {
    && s.settler == SReady
    && row.destination in cfg.chains && key.source in cfg.chains
    && row.status == Pending && row.initiateTx == None && row.transferId == None
    && s' == s.(settlements := InsertSettlement(s.settlements, key, row))
  }

  // ----- Settler: cancel -----

  /** The rows a cancel pass may look at: a transfer id, and a tx unless already initiated. */
  predicate CancelCandidate(row: Settlement) {
    && row.transferId.Some?
    && ((row.status == Pending && row.initiateTx.Some?) || row.status == Initiated)
  }

  ghost predicate DoCancelRead(s: State, todo: seq<Snap>, s': State) {
    && s.settler == SReady
    && (forall i :: 0 <= i < |todo| ==>
          todo[i].key in s.settlements && s.settlements[todo[i].key] == todo[i].row && CancelCandidate(todo[i].row))
    && s' == s.(settler := SCancel(todo))
  }

  ghost predicate DoCancelSkip(s: State, s': State) {
    && s.settler.SCancel? && s.settler.todo != []
    && s' == s.(settler := SCancel(s.settler.todo[1..]))
  }

  ghost predicate DoCancelCall(s: State, s': State) {
    && s.settler.SCancel? && s.settler.todo != []
    && var head := s.settler.todo[0];
    && s' == s.(settler := SCancelling(head, s.settler.todo[1..],
                  Update(head.row.destination, Text(head.row.initiateTx), TransferCancelled, AtLock)))
  }

  ghost predicate DoClearRows(s: State, s': State) {
    && s.settler.SClear?
    && var head := s.settler.head;
    && s' == s.(settlements := ClearInitiate(s.settlements, head.row.destination, head.row.initiateTx),
                settler := SCancel(s.settler.rest))
  }

  // ----- Settler: settle -----

  /** The pending rows without a tx, split into batches by source and destination. */
  predicate SettlePlan(rows: Settlements, plan: map<OrderKey, nat>) {
    && (forall k :: k in plan ==> k in rows && rows[k].status == Pending && rows[k].initiateTx == None)
    && (forall k, k' :: k in plan && k' in plan && plan[k] == plan[k'] ==>
          k.source == k'.source && rows[k].destination == rows[k'].destination)
  }

  function BatchKeys(plan: map<OrderKey, nat>, batch: nat): set<OrderKey> {
    set k | k in plan && plan[k] == batch
  }

  ghost predicate DoSettleRead(s: State, plan: map<OrderKey, nat>, s': State) {
    && s.settler == SReady && SettlePlan(s.settlements, plan)
    && s' == s.(settler := SSettle(plan, map[]))
  }

  ghost predicate DoBroadcast(cfg: Config, s: State, batch: nat, hash: Name, s': State) {
    && s.settler.SSettle? && batch !in s.settler.flying
    && hash !in s.sent && hash !in cfg.chains
    && exists k :: && k in s.settler.plan && s.settler.plan[k] == batch && k in s.settlements
                   && s' == s.(sent := s.sent[hash := SettlementTx(s.settlements[k].destination, k.source)],
                               settler := s.settler.(flying := s.settler.flying[batch := hash]))
  }

  ghost predicate DoRecordBatch(s: State, batch: nat, s': State) {
    && s.settler.SSettle? && batch in s.settler.flying
    && var keys := BatchKeys(s.settler.plan, batch);
    && var hash := s.settler.flying[batch];
    && s' == s.(settlements := SetInitiateTx(s.settlements, keys, hash),
                carried := map k | k in s.carried.Keys + keys ::
                             (if k in s.carried then s.carried[k] else {}) + (if k in keys then {hash} else {}),
                settler := SSettle(s.settler.plan - keys, s.settler.flying - {batch}))
  }

  ghost predicate DoDropBatch(s: State, batch: nat, s': State) {
    && s.settler.SSettle?
    && s' == s.(settler := SSettle(s.settler.plan - BatchKeys(s.settler.plan, batch), s.settler.flying - {batch}))
  }

  // ----- Settler: verify -----

  ghost predicate DoVerifyRead(s: State, todo: seq<Snap>, s': State) {
    && s.settler == SReady
    && (forall i :: 0 <= i < |todo| ==>
          && todo[i].key in s.settlements && s.settlements[todo[i].key] == todo[i].row
          && todo[i].row.initiateTx.Some? && (todo[i].row.status == Pending || todo[i].row.status == Initiated))
    && (forall i, j :: 0 <= i < j < |todo| ==> todo[i].key != todo[j].key)
    && s' == s.(settler := SVerify(todo))
  }

  ghost predicate DoVerifySkip(s: State, s': State) {
    && s.settler.SVerify? && s.settler.todo != []
    && s' == s.(settler := SVerify(s.settler.todo[1..]))
  }

  /** The tx was found to have succeeded; only a row read as pending is updated. */
  ghost predicate DoVerifyInitiated(s: State, s': State) {
    && s.settler.SVerify? && s.settler.todo != []
    && var head := s.settler.todo[0];
    && s' == s.(settlements := if head.row.status == Pending then SetStatus(s.settlements, head.key, Initiated)
       else s.settlements,
                settler := SCheck(head, s.settler.todo[1..]))
  }

  ghost predicate DoVerifyFailed(s: State, s': State) {
    && s.settler.SVerify? && s.settler.todo != []
    && var head := s.settler.todo[0];
    && head.row.status == Pending
    && s' == s.(settlements := SetStatus(s.settlements, head.key, Failed),
                settler := SVerify(s.settler.todo[1..]))
  }

  ghost predicate DoCheckComplete(s: State, complete: bool, s': State) {
    && s.settler.SCheck?
    && s' == s.(settlements := if complete then SetStatus(s.settlements, s.settler.head.key, Complete)
       else s.settlements,
                settler := SVerify(s.settler.rest))
  }

  ghost predicate DoSettlerAbort(s: State, s': State) {
    && !s.settler.SCancelling?
    && s' == s.(settler := SReady)
  }

  // ----- updateTransferStatusIfPending -----

  ghost predicate Updating(s: State, thread: Thread) {
    match thread
    case SettlerThread => s.settler.SCancelling?
    case RelayerThread => s.relayer.RMark?
  }

  ghost function UpdateOf(s: State, thread: Thread): Update
    requires Updating(s, thread)
  {
    match thread
    case SettlerThread => s.settler.update
    case RelayerThread => s.relayer.update
  }

  ghost function WithPhase(s: State, thread: Thread, phase: Phase): State
    requires Updating(s, thread)
  {
    match thread
    case SettlerThread => s.(settler := s.settler.(update := s.settler.update.(phase := phase)))
    case RelayerThread => s.(relayer := s.relayer.(update := s.relayer.update.(phase := phase)))
  }

  ghost predicate DoUpdateLock(s: State, thread: Thread, s': State) {
    && Updating(s, thread) && UpdateOf(s, thread).phase == AtLock && s.lock == None
    && s' == WithPhase(s, thread, Locked).(lock := Some(thread))
  }

  ghost predicate DoUpdateFind(s: State, thread: Thread, id: nat, s': State) {
    && Updating(s, thread) && UpdateOf(s, thread).phase == Locked
    && id in s.transfers && SentBy(s.transfers[id], UpdateOf(s, thread).chain, UpdateOf(s, thread).tx)
    && var status := s.transfers[id].status;
    && s' == WithPhase(s, thread, if status == TransferPending then Found(id) else Finished(Some(Outcome(id, status))))
  }

  /** No such row, or the database call failed. */
  ghost predicate DoUpdateMiss(s: State, thread: Thread, s': State) {
    && Updating(s, thread) && (UpdateOf(s, thread).phase == Locked || UpdateOf(s, thread).phase.Found?)
    && s' == WithPhase(s, thread, Finished(None))
  }

  ghost predicate DoUpdateWrite(s: State, thread: Thread, s': State) {
    && Updating(s, thread) && UpdateOf(s, thread).phase.Found?
    && var u := UpdateOf(s, thread);
    && u.phase.id in s.transfers
    && var t := s.transfers[u.phase.id];
    && s' == WithPhase(s, thread, Finished(Some(Outcome(u.phase.id, u.status)))).(
               transfers := SetMessageStatus(s.transfers, t.source, t.destination, t.message, u.status))
  }

  /** The mutex is released and the caller goes on; CancelRelay returns true exactly when
      the status it read back is cancelled. */
  ghost predicate DoUpdateUnlock(s: State, thread: Thread, s': State) {
    && Updating(s, thread) && UpdateOf(s, thread).phase.Finished?
    && var u := UpdateOf(s, thread);
    match thread
    case RelayerThread => s' == s.(lock := None, relayer := RScan(s.relayer.rest))
    case SettlerThread =>
      match u.phase.outcome
      case None => s' == s.(lock := None, settler := SReady)
      case Some(o) =>
        if o.status == TransferCancelled
        then s' == s.(lock := None, settler := SClear(s.settler.head, s.settler.rest),
                      cancelled := s.cancelled[TxKey(u.chain, u.tx) := o.id])
        else s' == s.(lock := None, settler := SCancel(s.settler.rest))
  }

  // ----- Relayer -----

  ghost predicate DoRelayRead(s: State, todo: seq<Row>, s': State) {
    && s.relayer == RReady
    && (forall i :: 0 <= i < |todo| ==>
          todo[i].id in s.transfers && s.transfers[todo[i].id] == todo[i].transfer
              && todo[i].transfer.status == TransferPending)
    && s' == s.(relayer := RScan(todo))
  }

  /** The head needs no relay, or checking it failed; with no rows left the pass ends. */
  ghost predicate DoRelaySkip(s: State, s': State) {
    && s.relayer.RScan?
    && s' == s.(relayer := if s.relayer.todo == [] then RReady else RScan(s.relayer.todo[1..]))
  }

  ghost predicate DoRelayDelivered(s: State, s': State) {
    && s.relayer.RScan? && s.relayer.todo != []
    && var t := s.relayer.todo[0].transfer;
    && s' == s.(relayer := RMark(Update(t.source, t.sentTx, TransferSuccess, AtLock), s.relayer.todo[1..]))
  }

  /** No attempt yet, or the most recent one was abandoned. */
  ghost predicate ShouldRelay(s: State, id: nat) {
    id in s.attempts && (s.attempts[id] == [] || MostRecent(s.attempts[id]).status == TxAbandoned)
  }

  ghost predicate DoRelayDecide(cfg: Config, s: State, s': State) {
    && s.relayer.RScan? && s.relayer.todo != [] && ShouldRelay(s, s.relayer.todo[0].id)
    && var t := s.relayer.todo[0].transfer;
    && var cap := RelayCostCap(cfg.relayCap(t.destination), t.maxFee, cfg.relayTimeout(t.destination), t.createdAt,
       s.clock);
    && s' == s.(relayer := RLock(s.relayer.todo[0], s.relayer.todo[1..], cap, s.clock))
  }

  ghost predicate DoRelayLock(s: State, s': State) {
    && s.relayer.RLock? && s.lock == None
    && s' == s.(lock := Some(RelayerThread),
       relayer := RLookup(s.relayer.head, s.relayer.rest, s.relayer.cap, s.relayer.capAt))
  }

  ghost predicate DoRelayPending(s: State, id: nat, s': State) {
    && s.relayer.RLookup?
    && var t := s.relayer.head.transfer;
    && id in s.transfers && SentBy(s.transfers[id], t.source, t.sentTx) && s.transfers[id].status == TransferPending
    && s' == s.(relayer := RSend(s.relayer.head, s.relayer.rest, s.relayer.cap, s.relayer.capAt))
  }

  ghost predicate DoRelayNotPending(s: State, s': State) {
    && s.relayer.RLookup?
    && s' == s.(relayer := RUnlock(s.relayer.head, s.relayer.rest, NotSent))
  }

  ghost predicate DoRelaySend(s: State, fee: int, s': State) {
    && s.relayer.RSend? && FeeAllowed(fee, s.relayer.cap)
    && s' == s.(relayer := RUnlock(s.relayer.head, s.relayer.rest, Sent),
                relays := s.relays + [Relay(s.relayer.head.id, fee, s.relayer.capAt, s.clock)])
  }

  ghost predicate DoRelayFail(s: State, sending: Sending, s': State) {
    && s.relayer.RSend? && sending != Sent
    && s' == s.(relayer := RUnlock(s.relayer.head, s.relayer.rest, sending))
  }

  /** After a reverted delivery the transfer is to be abandoned, but the call passes the tx
      hash as the chain and the chain as the tx hash. */
  ghost predicate DoRelayUnlock(s: State, s': State) {
    && s.relayer.RUnlock?
    && var head := s.relayer.head;
    && s' == s.(lock := None,
                relayer := match s.relayer.sending
                           case Sent => RRecord(head, s.relayer.rest)
                           case NotSent => RScan(s.relayer.rest)
                           case Reverted =>
                             RMark(Update(head.transfer.sentTx, head.transfer.source, TransferAbandoned, AtLock),
                                 s.relayer.rest))
  }

  ghost predicate DoRelayRecord(s: State, s': State) {
    && s.relayer.RRecord? && s.relayer.head.id in s.attempts
    && var id := s.relayer.head.id;
    && s' == s.(attempts := s.attempts[id := s.attempts[id] + [Attempt(Stamp(s.clock), TxPending)]],
                relayer := RScan(s.relayer.rest))
  }

  ghost predicate DoRelayRecordFails(s: State, s': State) {
    && s.relayer.RRecord?
    && s' == s.(relayer := RScan(s.relayer.rest))
  }

  // ----- Timeout worker -----

  ghost predicate DoTimeoutBroadcast(cfg: Config, s: State, chain: Name, hash: Name, s': State) {
    && chain in cfg.chains && hash !in s.sent && hash !in cfg.chains
    && s' == s.(sent := s.sent[hash := TimeoutTx(chain)])
  }

  ghost predicate DoTimeoutLookup(s: State, tx: TxKey, s': State) {
    && s.worker == WReady
    && tx.hash in s.sent && s.sent[tx.hash] == TimeoutTx(tx.chain)
    && (forall id :: id in s.transfers ==> !SentBy(s.transfers[id], tx.chain, tx.hash))
    && s' == s.(worker := WInsert(tx))
  }

  /** A timeout is submitted with no fee of its own, so the relay cost cap is stored. */
  ghost predicate DoTimeoutInsert(cfg: Config, s: State, s': State) {
    && s.worker.WInsert? && s.worker.tx in s.dispatched
    && s' == Inserted(s, s.worker.tx, cfg.relayCap(s.dispatched[s.worker.tx].destination)).(worker := WReady)
  }

  // ----- Tx verifier -----

  ghost predicate DoVerifierRead(s: State, s': State) {
    && s.verifying == {}
    && s' == s.(verifying := set id, i | id in s.attempts && 0 <= i < |s.attempts[id]|
       && s.attempts[id][i].status == TxPending :: (id, i))
  }

  /** A result was found, or none was and the attempt is older than ten minutes. */
  ghost predicate DoVerifierSet(s: State, id: nat, index: nat, status: TxStatus, s': State) {
    && (id, index) in s.verifying && id in s.attempts && index < |s.attempts[id]|
    && var a := s.attempts[id][index];
    && status != TxPending
    && (status == TxAbandoned ==> s.clock - a.createdAt > TEN_MINUTES)
    && s' == s.(attempts := s.attempts[id := s.attempts[id][index := a.(status := status)]],
                verifying := s.verifying - {(id, index)})
  }

  ghost predicate DoVerifierLeave(s: State, id: nat, index: nat, s': State) {
    && (id, index) in s.verifying
    && s' == s.(verifying := s.verifying - {(id, index)})
  }

  // ----- Chains and time -----

  /** A broadcast tx is included and dispatches its message; message ids are never reused. */
  ghost predicate DoChainDispatch(s: State, tx: TxKey, dispatch: Dispatch, s': State) {
    && tx.hash in s.sent && s.sent[tx.hash].chain == tx.chain && tx !in s.dispatched
    && (forall other :: other in s.dispatched ==> s.dispatched[other].message != dispatch.message)
    && s' == s.(dispatched := s.dispatched[tx := dispatch])
  }

  ghost predicate DoTick(s: State, now: int, s': State) {
    && s.clock <= now
    && s' == s.(clock := now)
  }

  /** The process dies at any point and starts again on the same database. */
  ghost predicate DoRestart(s: State, s': State) {
    s' == s.(lock := None, settler := SReady, relayer := RReady, worker := WReady, verifying := {})
  }

  ghost predicate SubmitNext(cfg: Config, s: State, a: SubmitAction, s': State) {
    match a
    case SubmitRead(batches) => DoSubmitRead(s, batches, s')
    case SubmitFound(id) => DoSubmitFound(s, id, s')
    case SubmitMissing => DoSubmitMissing(s, s')
    case SubmitInsert(lag) => DoSubmitInsert(cfg, s, lag, s')
    case SubmitSkip => DoSubmitSkip(s, s')
    case LinkRow => DoLinkRow(s, s')
    case LinkDone => DoLinkDone(s, s')
  }

  ghost predicate CancelNext(s: State, a: CancelAction, s': State) {
    match a
    case CancelRead(todo) => DoCancelRead(s, todo, s')
    case CancelSkip => DoCancelSkip(s, s')
    case CancelCall => DoCancelCall(s, s')
    case ClearRows => DoClearRows(s, s')
  }

  ghost predicate SettleNext(cfg: Config, s: State, a: SettleAction, s': State) {
    match a
    case CreateRow(key, row) => DoCreateRow(cfg, s, key, row, s')
    case SettleRead(plan) => DoSettleRead(s, plan, s')
    case Broadcast(batch, hash) => DoBroadcast(cfg, s, batch, hash, s')
    case RecordBatch(batch) => DoRecordBatch(s, batch, s')
    case DropBatch(batch) => DoDropBatch(s, batch, s')
    case SettlerAbort => DoSettlerAbort(s, s')
  }

  ghost predicate VerifyNext(s: State, a: VerifyAction, s': State) {
    match a
    case VerifyRead(todo) => DoVerifyRead(s, todo, s')
    case VerifySkip => DoVerifySkip(s, s')
    case VerifyInitiated => DoVerifyInitiated(s, s')
    case VerifyFailed => DoVerifyFailed(s, s')
    case CheckComplete(complete) => DoCheckComplete(s, complete, s')
  }

  ghost predicate UpdateNext(s: State, thread: Thread, a: UpdateAction, s': State) {
    match a
    case UpdateLock => DoUpdateLock(s, thread, s')
    case UpdateFind(id) => DoUpdateFind(s, thread, id, s')
    case UpdateMiss => DoUpdateMiss(s, thread, s')
    case UpdateWrite => DoUpdateWrite(s, thread, s')
    case UpdateUnlock => DoUpdateUnlock(s, thread, s')
  }

  ghost predicate ScanNext(cfg: Config, s: State, a: ScanAction, s': State) {
    match a
    case RelayRead(rows) => DoRelayRead(s, rows, s')
    case RelaySkip => DoRelaySkip(s, s')
    case RelayDelivered => DoRelayDelivered(s, s')
    case RelayDecide => DoRelayDecide(cfg, s, s')
    case RelayRecord => DoRelayRecord(s, s')
    case RelayRecordFails => DoRelayRecordFails(s, s')
  }

  ghost predicate SendNext(s: State, a: SendAction, s': State) {
    match a
    case RelayLock => DoRelayLock(s, s')
    case RelayPending(id) => DoRelayPending(s, id, s')
    case RelayNotPending => DoRelayNotPending(s, s')
    case RelaySend(fee) => DoRelaySend(s, fee, s')
    case RelayFail(sending) => DoRelayFail(s, sending, s')
    case RelayUnlock => DoRelayUnlock(s, s')
  }

  ghost predicate VerifierNext(s: State, a: VerifierAction, s': State) {
    match a
    case VerifierRead => DoVerifierRead(s, s')
    case VerifierSet(id, index, status) => DoVerifierSet(s, id, index, status, s')
    case VerifierLeave(id, index) => DoVerifierLeave(s, id, index, s')
  }

  ghost predicate WorldNext(cfg: Config, s: State, a: WorldAction, s': State) {
    match a
    case TimeoutBroadcast(chain, hash) => DoTimeoutBroadcast(cfg, s, chain, hash, s')
    case TimeoutLookup(tx) => DoTimeoutLookup(s, tx, s')
    case TimeoutInsert => DoTimeoutInsert(cfg, s, s')
    case ChainDispatch(tx, dispatch) => DoChainDispatch(s, tx, dispatch, s')
    case Tick(now) => DoTick(s, now, s')
    case Restart => DoRestart(s, s')
  }

  ghost predicate Next(cfg: Config, s: State, a: Action, s': State) {
    match a
    case SubmitStep(x) => SubmitNext(cfg, s, x, s')
    case CancelStep(x) => CancelNext(s, x, s')
    case SettleStep(x) => SettleNext(cfg, s, x, s')
    case VerifyStep(x) => VerifyNext(s, x, s')
    case UpdateStep(thread, u) => UpdateNext(s, thread, u, s')
    case ScanStep(x) => ScanNext(cfg, s, x, s')
    case SendStep(x) => SendNext(s, x, s')
    case VerifierStep(x) => VerifierNext(s, x, s')
    case WorldStep(x) => WorldNext(cfg, s, x, s')
  }
}

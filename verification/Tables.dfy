/** The order_settlements and hyperlane_transfers tables and the SQL statements on them, as
    functions from table to table. */
module Tables {
  import opened Basics

  /** A text column: chain id, transaction hash, contract address, order or message id.
      The solver only ever compares these for equality. */
  type Name = nat

  /** What a null text column reads as. */
  const EMPTY_NAME: Name := 0

  function Text(column: Option<Name>): Name {
    if column.Some? then column.value else EMPTY_NAME
  }

  // ----- order_settlements -----

  /** The unique key of a settlement row. */
  datatype OrderKey = OrderKey(source: Name, gateway: Name, orderId: Name)

  datatype SettlementStatus = Pending | Initiated | Complete | Failed

  datatype Settlement = Settlement(
    destination: Name,
    amount: int,
    profit: int,
    status: SettlementStatus,
    initiateTx: Option<Name>,
    transferId: Option<nat>)

  type Settlements = map<OrderKey, Settlement>

  /** A row as some query returned it. */
  datatype Snap = Snap(key: OrderKey, row: Settlement)

  /** INSERT ... ON CONFLICT DO NOTHING */
  function InsertSettlement(rows: Settlements, key: OrderKey, row: Settlement): Settlements {
    if key in rows then rows else rows[key := row]
  }

  function SetStatus(rows: Settlements, key: OrderKey, status: SettlementStatus): Settlements {
    if key in rows then rows[key := rows[key].(status := status)] else rows
  }

  function SetTransferId(rows: Settlements, key: OrderKey, id: nat): Settlements {
    if key in rows then rows[key := rows[key].(transferId := Some(id))] else rows
  }

  /** One transaction that sets the initiate tx of every row of a batch. */
  function SetInitiateTx(rows: Settlements, keys: set<OrderKey>, tx: Name): Settlements {
    map k | k in rows :: if k in keys then rows[k].(initiateTx := Some(tx)) else rows[k]
  }

  /** The clear statement matches by destination and tx, whatever the status. */
  predicate Clears(row: Settlement, destination: Name, tx: Option<Name>) {
    tx.Some? && row.destination == destination && row.initiateTx == tx
  }

  function ClearInitiate(rows: Settlements, destination: Name, tx: Option<Name>): Settlements {
    map k | k in rows ::
      if Clears(rows[k], destination, tx)
      then rows[k].(initiateTx := None, transferId := None, status := Pending)
      else rows[k]
  }

  // ----- hyperlane_transfers -----

  datatype TransferStatus = TransferPending | TransferSuccess | TransferAbandoned | TransferCancelled

  datatype Transfer = Transfer(
    source: Name,
    destination: Name,
    message: Name,
    sentTx: Name,
    status: TransferStatus,
    maxFee: Option<int>,
    createdAt: int)

  type Transfers = map<nat, Transfer>

  /** WHERE message_sent_tx = ? AND source_chain_id = ? */
  predicate SentBy(t: Transfer, chain: Name, tx: Name) {
    t.source == chain && t.sentTx == tx
  }

  /** The unique key of a transfer row. */
  predicate SameMessage(t: Transfer, source: Name, destination: Name, message: Name) {
    t.source == source && t.destination == destination && t.message == message
  }

  ghost predicate HasMessage(ts: Transfers, source: Name, destination: Name, message: Name) {
    exists id :: id in ts && SameMessage(ts[id], source, destination, message)
  }

  function SetMessageStatus(
    ts: Transfers, source: Name, destination: Name, message: Name, status: TransferStatus): Transfers
  {
    map id | id in ts :: if SameMessage(ts[id], source, destination, message) then ts[id].(status := status) else ts[id]
  }

  /** Everything but the status is fixed when the row is inserted. */
  predicate SameTransfer(t: Transfer, u: Transfer) {
    t == u.(status := t.status)
  }
}

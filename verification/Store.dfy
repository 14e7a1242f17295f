/** The database as the object the solver's loops update in place, and the calls that change
    several rows: recording a batch in one transaction, cancelling relays, handing a
    transaction to the relayer. */
module Store {
  import opened Basics
  import opened Tables
  import opened Protocol
  import opened SettlementBatches

  /** UNIQUE (source_chain_id, destination_chain_id, message_id) */
  ghost predicate UniqueMessages(ts: Transfers) {
    forall i, j :: (i in ts && j in ts && SameMessage(ts[i], ts[j].source, ts[j].destination, ts[j].message)) ==> i == j
  }

  ghost predicate NoneSentBy(ts: Transfers, chain: Name, tx: Name) {
    forall id :: id in ts ==> !SentBy(ts[id], chain, tx)
  }

  class Database {
    var settlements: Settlements
    var transfers: Transfers
    var nextId: nat

    ghost predicate Valid()
      reads this
    {
      nextId > 0 && (forall id :: id in transfers ==> 0 < id < nextId) && UniqueMessages(transfers)
    }

    constructor ()
      ensures Valid() && settlements == map[] && transfers == map[]
    {
      settlements, transfers, nextId := map[], map[], 1;
    }

    // ----- order_settlements -----

    /** Returns false, the driver's no-rows error, on a conflict. */
    method InsertOrderSettlement(key: OrderKey, row: Settlement) returns (inserted: bool)
      modifies this`settlements
      ensures inserted <==> key !in old(settlements)
      ensures settlements.Keys == old(settlements).Keys + {key}
      ensures forall k :: k in old(settlements) ==> settlements[k] == old(settlements)[k]
      ensures inserted ==> settlements[key] == row
    {
      inserted := key !in settlements;
      if inserted {
        settlements := settlements[key := row];
      }
    }

    method SetInitiateSettlementTx(key: OrderKey, tx: Name) returns (found: bool)
      modifies this`settlements
      ensures settlements == SetInitiateTx(old(settlements), {key}, tx)
      ensures found <==> key in old(settlements)
    {
      found := key in settlements;
      if found {
        settlements := settlements[key := settlements[key].(initiateTx := Some(tx))];
      }
    }

    method SetSettlementStatus(key: OrderKey, status: SettlementStatus) returns (found: bool)
      modifies this`settlements
      ensures found <==> key in old(settlements)
      ensures settlements.Keys == old(settlements).Keys
      ensures forall k :: k in settlements ==>
                settlements[k] == if k == key then old(settlements)[k].(status := status) else old(settlements)[k]
    {
      found := key in settlements;
      if found {
        settlements := settlements[key := settlements[key].(status := status)];
      }
    }

    method SetHyperlaneTransferId(key: OrderKey, id: nat) returns (found: bool)
      modifies this`settlements
      ensures found <==> key in old(settlements)
      ensures settlements.Keys == old(settlements).Keys
      ensures forall k :: k in settlements ==>
                settlements[k] == if k == key then old(settlements)[k].(transferId := Some(id)) else old(settlements)[k]
    {
      found := key in settlements;
      if found {
        settlements := settlements[key := settlements[key].(transferId := Some(id))];
      }
    }

    /** Every row of the destination with this tx becomes an unsettled one again: a null tx
        matches no row, and the status is not looked at. */
    method ClearInitiateSettlement(destination: Name, tx: Option<Name>)
      modifies this`settlements
      ensures settlements == ClearInitiate(old(settlements), destination, tx)
      ensures forall k :: k in settlements && tx.Some? ==>
              !(settlements[k].destination == destination && settlements[k].initiateTx == tx)
    {
      settlements := ClearInitiate(settlements, destination, tx);
    }

    // ----- hyperlane_transfers -----

    /** Some row sent by this tx on this chain. */
    method GetHyperlaneTransferByMessageSentTx(chain: Name, tx: Name) returns (row: Option<nat>)
      ensures row.Some? ==> row.value in transfers && SentBy(transfers[row.value], chain, tx)
      ensures row.None? ==> NoneSentBy(transfers, chain, tx)
    {
      var matching := set id | id in transfers && SentBy(transfers[id], chain, tx);
      if matching == {} {
        assert forall id :: id in transfers && SentBy(transfers[id], chain, tx) ==> id in matching;
        return None;
      }
      var id :| id in matching;
      row := Some(id);
    }

    /** Returns the id of the new row, or none when the message has a row already. */
    method InsertHyperlaneTransfer(t: Transfer) returns (row: Option<nat>)
      requires Valid()
      modifies this
      ensures Valid() && settlements == old(settlements)
      ensures row.None? <==> HasMessage(old(transfers), t.source, t.destination, t.message)
      ensures row.None? ==> transfers == old(transfers) && nextId == old(nextId)
      ensures row.Some? ==> row.value !in old(transfers) && transfers == old(transfers)[row.value := t]
    {
      var same := set id | id in transfers && SameMessage(transfers[id], t.source, t.destination, t.message);
      if same != {} {
        var id :| id in same;
        return None;
      }
      forall id | id in transfers ensures !SameMessage(transfers[id], t.source, t.destination, t.message) {
        assert id !in same;
      }
      row := Some(nextId);
      transfers := transfers[nextId := t];
      nextId := nextId + 1;
    }

    method SetMessageStatus(source: Name, destination: Name, message: Name, status: TransferStatus)
      requires Valid()
      modifies this`transfers
      ensures Valid()
      ensures transfers == Tables.SetMessageStatus(old(transfers), source, destination, message, status)
    {
      transfers := Tables.SetMessageStatus(transfers, source, destination, message, status);
    }
  }

  /** One row of the table gets a new status. */
  function WithStatus(ts: Transfers, id: nat, status: TransferStatus): Transfers
    requires id in ts
  {
    ts[id := ts[id].(status := status)]
  }

  lemma OneMessageOneRow(ts: Transfers, id: nat, status: TransferStatus)
    requires UniqueMessages(ts) && id in ts
    ensures SetMessageStatus(ts, ts[id].source, ts[id].destination, ts[id].message, status) ==
            WithStatus(ts, id, status)
  {
  }

  /** The row a status update settled on, and what it did to the table. */
  ghost predicate Updated(ts: Transfers, id: nat, status: TransferStatus, ts': Transfers) {
    && id in ts
    && ts' == (if ts[id].status == TransferPending then WithStatus(ts, id, status) else ts)
  }

  /** The update both the relayer and CancelRelay make with the mutex held: the row found
      gets the status if it is pending, and is returned as it then is. */
  method UpdateTransferStatusIfPending(
    db: Database, chain: Name, tx: Name, status: TransferStatus) returns (row: Option<nat>)
    requires db.Valid()
    modifies db`transfers
    ensures db.Valid()
    ensures row.None? ==> NoneSentBy(old(db.transfers), chain, tx) && db.transfers == old(db.transfers)
    ensures row.Some? ==>
              && Updated(old(db.transfers), row.value, status, db.transfers)
              && SentBy(old(db.transfers)[row.value], chain, tx)
  {
    row := db.GetHyperlaneTransferByMessageSentTx(chain, tx);
    if row.Some? && db.transfers[row.value].status == TransferPending {
      var t := db.transfers[row.value];
      OneMessageOneRow(db.transfers, row.value, status);
      db.SetMessageStatus(t.source, t.destination, t.message, status);
    }
  }

  /** Cancelling answers true exactly when the row was still pending, and is now cancelled,
      or had been cancelled before; no other row changes. */
  method CancelRelay(db: Database, chain: Name, tx: Name) returns (result: Option<bool>)
    requires db.Valid()
    modifies db`transfers
    ensures db.Valid()
    ensures result.None? <==> NoneSentBy(old(db.transfers), chain, tx)
    ensures result.None? ==> db.transfers == old(db.transfers)
    ensures result.Some? ==>
              exists id ::
                && Updated(old(db.transfers), id, TransferCancelled, db.transfers)
                && SentBy(old(db.transfers)[id], chain, tx)
                && (result.value <==>
                      || old(db.transfers)[id].status == TransferPending
                      || old(db.transfers)[id].status == TransferCancelled)
                && (result.value <==> db.transfers[id].status == TransferCancelled)
  {
    var row := UpdateTransferStatusIfPending(db, chain, tx, TransferCancelled);
    if row.None? {
      return None;
    }
    result := Some(db.transfers[row.value].status == TransferCancelled);
  }

  /** Handing a tx to the relayer twice changes nothing the second time and returns the
      same row. `dispatch` is what the chain says the tx dispatched, none on an error. */
  method SubmitTxToRelay(
    db: Database, chain: Name, tx: Name, dispatch: Option<Dispatch>, cap: int, now: int) returns (row: Option<nat>)
    requires db.Valid()
    modifies db
    ensures db.Valid() && db.settlements == old(db.settlements)
    ensures !NoneSentBy(old(db.transfers), chain, tx) ==>
              && row.Some? && row.value in old(db.transfers) && SentBy(old(db.transfers)[row.value], chain, tx)
              && db.transfers == old(db.transfers)
    ensures NoneSentBy(old(db.transfers), chain, tx) && dispatch.None? ==>
            row.None? && db.transfers == old(db.transfers)
    ensures NoneSentBy(old(db.transfers), chain, tx) && dispatch.Some? ==>
              && row.Some?
              && if HasMessage(old(db.transfers), chain, dispatch.value.destination, dispatch.value.message)
                 then row.value == 0 && db.transfers == old(db.transfers)
                 else && row.value !in old(db.transfers)
                      && db.transfers == old(db.transfers)[row.value :=
                           Transfer(chain, dispatch.value.destination, dispatch.value.message, tx, TransferPending,
                               Some(cap), Stamp(now))]
  {
    row := db.GetHyperlaneTransferByMessageSentTx(chain, tx);
    if row.Some? || dispatch.None? {
      return;
    }
    var inserted := db.InsertHyperlaneTransfer(
      Transfer(chain, dispatch.value.destination, dispatch.value.message, tx, TransferPending, Some(cap), Stamp(now)));
    row := if inserted.Some? then inserted else Some(0);
  }

  // ----- Creating rows -----

  /** The first of the found settlements with this key. */
  ghost predicate FirstWith(found: seq<Snap>, n: nat, k: OrderKey, i: int)
    requires n <= |found|
  {
    0 <= i < n && found[i].key == k && forall j :: 0 <= j < i ==> found[j].key != k
  }

  /** No row that was there has changed, the keys of the first `n` found settlements all have
      a row now, and every new row is the first one found for its key. */
  ghost predicate CreatedFrom(rows: Settlements, rows': Settlements, found: seq<Snap>, n: nat)
    requires n <= |found|
  {
    && (forall k :: k in rows ==> k in rows' && rows'[k] == rows[k])
    && (forall i :: 0 <= i < n ==> found[i].key in rows')
    && (forall k :: k in rows' && k !in rows ==> exists i :: FirstWith(found, n, k, i) && rows'[k] == found[i].row)
  }

  /** The loop over newly found fills; a conflict is not an error. `fails` says which insert
      the database refuses, if any, and the rows inserted before that one stay. */
  method CreatePendingSettlements(db: Database, found: seq<Snap>, fails: Option<nat>) returns (ok: bool, ghost n: nat)
    modifies db`settlements
    ensures n <= |found| && (ok <==> n == |found|) && (ok <==> fails.None? || fails.value >= |found|)
    ensures CreatedFrom(old(db.settlements), db.settlements, found, n)
  {
    n := 0;
    for i := 0 to |found|
      invariant n == i && (fails.None? || fails.value >= i)
      invariant CreatedFrom(old(db.settlements), db.settlements, found, i)
    {
      if fails == Some(i) {
        return false, n;
      }
      ghost var rows := db.settlements;
      var inserted := db.InsertOrderSettlement(found[i].key, found[i].row);
      CreateOneMore(old(db.settlements), rows, db.settlements, found, i, inserted);
      n := i + 1;
    }
    ok := true;
  }

  lemma CreateOneMore(
    rows: Settlements, rows1: Settlements, rows2: Settlements, found: seq<Snap>, n: nat, inserted: bool)
    requires n < |found| && CreatedFrom(rows, rows1, found, n)
    requires inserted <==> found[n].key !in rows1
    requires rows2.Keys == rows1.Keys + {found[n].key} && forall k :: k in rows1 ==> rows2[k] == rows1[k]
    requires inserted ==> rows2[found[n].key] == found[n].row
    ensures CreatedFrom(rows, rows2, found, n + 1)
  {
    forall k | k in rows2 && k !in rows ensures exists i :: FirstWith(found, n + 1, k, i) && rows2[k] == found[i].row {
      if k in rows1 {
        var i :| FirstWith(found, n, k, i) && rows1[k] == found[i].row;
        assert FirstWith(found, n + 1, k, i);
      } else {
        assert FirstWith(found, n + 1, k, n);
      }
    }
  }

  /** Finding the same fills again, as after every restart, changes nothing. */
  lemma CreatingAgainChangesNothing(rows: Settlements, rows1: Settlements, rows2: Settlements, found: seq<Snap>)
    requires CreatedFrom(rows, rows1, found, |found|) && CreatedFrom(rows1, rows2, found, |found|)
    ensures rows2 == rows1
  {
    assert rows2.Keys == rows1.Keys;
  }

  // ----- Linking a batch -----

  /** The rows of these keys have the transfer id, and nothing else is different. */
  ghost predicate LinkedTo(rows: Settlements, rows': Settlements, keys: set<OrderKey>, id: nat) {
    && rows'.Keys == rows.Keys
    && forall k :: k in rows ==> rows'[k] == if k in keys then rows[k].(transferId := Some(id)) else rows[k]
  }

  /** The loop that links the rows of a batch to the transfer it was submitted as. It is not
      one transaction: at a row that is missing it stops, with the ones before it linked. */
  method LinkBatch(db: Database, batch: seq<Snap>, id: nat) returns (ok: bool, ghost n: nat)
    modifies db`settlements
    ensures n <= |batch| && LinkedTo(old(db.settlements), db.settlements, KeysOf(batch[..n]), id)
    ensures ok ==> n == |batch| && forall i :: 0 <= i < |batch| ==>
            batch[i].key in db.settlements && db.settlements[batch[i].key].transferId == Some(id)
    ensures !ok ==> n < |batch| && batch[n].key !in old(db.settlements)
  {
    n := 0;
    for i := 0 to |batch|
      invariant n == i && LinkedTo(old(db.settlements), db.settlements, KeysOf(batch[..i]), id)
      invariant forall j :: 0 <= j < i ==> batch[j].key in db.settlements && batch[j].key in KeysOf(batch[..i])
    {
      KeysOfOneMore(batch, i);
      var found := db.SetHyperlaneTransferId(batch[i].key, id);
      if !found {
        return false, n;
      }
      n := i + 1;
    }
    ok := true;
  }

  // ----- Verifying a settlement -----

  datatype TxResult = NotFound | TxReverted | Succeeded

  /** The status a row ends with is the furthest the chains vouch for: complete if its tx is
      known to have succeeded and the payout chain says so, initiated if only the former,
      failed if the tx reverted, and otherwise what it was. Only the row's status changes.
      `read` is the row as it was read and still is; a tx found to have succeeded is not
      looked up again, and `complete` is none when the payout chain does not answer. */
  method VerifyOrderSettlement(db: Database, key: OrderKey, read: Settlement, result: TxResult, complete: Option<bool>)
    requires key in db.settlements && db.settlements[key] == read
             && (read.status == Pending || read.status == Initiated)
    modifies db`settlements
    ensures db.settlements.Keys == old(db.settlements).Keys
    ensures forall k :: k in db.settlements && k != key ==> db.settlements[k] == old(db.settlements)[k]
    ensures db.settlements[key] == read.(status := db.settlements[key].status)
    ensures var succeeded := read.status == Initiated || (read.initiateTx.Some? && result == Succeeded);
            var status := db.settlements[key].status;
            && (status == Complete <==> succeeded && complete == Some(true) && read.initiateTx.Some?)
            && (status == Failed <==> read.status == Pending && read.initiateTx.Some? && result == TxReverted)
            && (status == Pending ==> !succeeded)
  {
    if read.initiateTx.None? {
      return;
    }
    var found;
    if read.status == Pending {
      if result == NotFound {
        return;
      }
      if result == TxReverted {
        found := db.SetSettlementStatus(key, Failed);
        return;
      }
      found := db.SetSettlementStatus(key, Initiated);
    }
    if complete == Some(true) {
      found := db.SetSettlementStatus(key, Complete);
    }
  }

  // ----- Recording a batch -----

  /** One transaction: the tx is set on all rows of the batch or, when an update fails, on
      none. `fails` says which update the database refuses, if any. */
  method RecordBatch(db: Database, batch: seq<Snap>, tx: Name, fails: Option<nat>) returns (ok: bool)
    modifies db`settlements
    ensures ok <==> (fails.None? || fails.value >= |batch|) && forall i :: 0 <= i < |batch| ==>
            batch[i].key in old(db.settlements)
    ensures db.settlements == if ok then SetInitiateTx(old(db.settlements), KeysOf(batch), tx) else old(db.settlements)
  {
    var before := db.settlements;
    assert SetInitiateTx(before, KeysOf(batch[..0]), tx) == before;
    for i := 0 to |batch|
      invariant db.settlements == SetInitiateTx(before, KeysOf(batch[..i]), tx)
      invariant fails.None? || fails.value >= i
      invariant forall j :: 0 <= j < i ==> batch[j].key in before
    {
      var found := db.SetInitiateSettlementTx(batch[i].key, tx);
      if !found || fails == Some(i) {
        db.settlements := before;
        return false;
      }
      KeysOfOneMore(batch, i);
    }
    assert batch[..|batch|] == batch;
    ok := true;
  }

  lemma KeysOfOneMore(batch: seq<Snap>, i: nat)
    requires i < |batch|
    ensures KeysOf(batch[..i + 1]) == KeysOf(batch[..i]) + {batch[i].key}
  {
    assert batch[..i + 1][i] == batch[i];
    forall k | k in KeysOf(batch[..i]) ensures k in KeysOf(batch[..i + 1]) {
      var j :| 0 <= j < i && batch[..i][j].key == k;
      assert batch[..i + 1][j].key == k;
    }
  }

  // ----- Rebatching -----

  /** No two rows were sent by one tx, as the protocol keeps it. */
  ghost predicate UniqueSenders(ts: Transfers) {
    forall i, j :: (i in ts && j in ts && SentBy(ts[i], ts[j].source, ts[j].sentTx)) ==> i == j
  }

  /** A row of the pass is due and relayed by this transfer. */
  ghost predicate DueFor(todo: seq<Snap>, due: Snap -> bool, n: nat, t: Transfer)
    requires n <= |todo|
  {
    exists i :: 0 <= i < n && due(todo[i]) && SentBy(t, todo[i].row.destination, Text(todo[i].row.initiateTx))
  }

  /** A row of the pass is due and carries the same tx on the same chain. */
  ghost predicate DueWith(todo: seq<Snap>, due: Snap -> bool, n: nat, row: Settlement)
    requires n <= |todo|
  {
    exists i :: 0 <= i < n && due(todo[i]) && Clears(row, todo[i].row.destination, todo[i].row.initiateTx)
  }

  ghost predicate SentAndCancelled(ts: Transfers, chain: Name, tx: Name) {
    exists id :: id in ts && SentBy(ts[id], chain, tx) && ts[id].status == TransferCancelled
  }

  function Reopened(row: Settlement): Settlement {
    row.(initiateTx := None, transferId := None, status := Pending)
  }

  /** After the first `n` rows: a transfer is cancelled exactly if it was pending and one of
      them was due for it, and no other changed. */
  ghost predicate CancelledFor(ts: Transfers, ts': Transfers, todo: seq<Snap>, due: Snap -> bool, n: nat)
    requires n <= |todo|
  {
    && ts.Keys == ts'.Keys
    && forall id :: id in ts ==>
         ts'[id] == if ts[id].status == TransferPending && DueFor(todo, due, n, ts[id])
             then ts[id].(status := TransferCancelled) else ts[id]
  }

  /** After the first `n` rows: a settlement is unsettled again exactly if one of them was
      due with its tx and the transfer of that tx is cancelled, and no other changed. */
  ghost predicate ReopenedFor(
    rows: Settlements, rows': Settlements, ts': Transfers, todo: seq<Snap>, due: Snap -> bool, n: nat)
    requires n <= |todo|
  {
    && rows.Keys == rows'.Keys
    && forall k :: k in rows ==>
         rows'[k] == if DueWith(todo, due, n, rows[k])
             && SentAndCancelled(ts', rows[k].destination, Text(rows[k].initiateTx))
                     then Reopened(rows[k]) else rows[k]
  }

  /** What one row of the pass does: its transfer is cancelled if it was pending, and all
      settlements with its tx are opened again exactly if the transfer is cancelled now. */
  ghost predicate CancelledOne(
    ts: Transfers, ts': Transfers, rows: Settlements, rows': Settlements, chain: Name, tx: Option<Name>, id: nat)
  {
    && Updated(ts, id, TransferCancelled, ts') && SentBy(ts[id], chain, Text(tx))
    && rows' == if ts'[id].status == TransferCancelled then ClearInitiate(rows, chain, tx) else rows
  }

  /** Rows only go from pending to cancelled. */
  ghost predicate OnlyCancels(ts: Transfers, ts': Transfers) {
    && ts.Keys == ts'.Keys
    && forall id :: id in ts ==>
         || ts'[id] == ts[id]
         || (ts[id].status == TransferPending && ts'[id] == ts[id].(status := TransferCancelled))
  }

  /** Rows are as they were or unsettled again, the latter only after a transfer of their tx
      was cancelled. */
  ghost predicate OnlyReopens(rows: Settlements, rows': Settlements, ts': Transfers) {
    && rows.Keys == rows'.Keys
    && forall k :: k in rows ==>
         || rows'[k] == rows[k]
         || (&& rows'[k] == Reopened(rows[k]) && rows[k].initiateTx.Some?
             && SentAndCancelled(ts', rows[k].destination, rows[k].initiateTx.value))
  }

  lemma CancelledStays(ts: Transfers, ts': Transfers, chain: Name, tx: Name)
    requires OnlyCancels(ts, ts') && SentAndCancelled(ts, chain, tx)
    ensures SentAndCancelled(ts', chain, tx)
  {
    var id :| id in ts && SentBy(ts[id], chain, tx) && ts[id].status == TransferCancelled;
    assert SentBy(ts'[id], chain, tx);
  }

  lemma SameSenders(ts: Transfers, ts': Transfers, chain: Name, tx: Name)
    requires OnlyCancels(ts, ts')
    ensures NoneSentBy(ts, chain, tx) <==> NoneSentBy(ts', chain, tx)
  {
    if !NoneSentBy(ts, chain, tx) {
      var id :| id in ts && SentBy(ts[id], chain, tx);
      assert SentBy(ts'[id], chain, tx);
    }
  }

  /** One row of the pass, on top of what the pass did before. */
  lemma StaysSafe(
    ts: Transfers, ts1: Transfers, ts2: Transfers, rows: Settlements, rows1: Settlements, rows2: Settlements,
                  chain: Name, tx: Option<Name>, id: nat)
    requires OnlyCancels(ts, ts1) && OnlyReopens(rows, rows1, ts1)
             && CancelledOne(ts1, ts2, rows1, rows2, chain, tx, id)
    ensures OnlyCancels(ts, ts2) && OnlyReopens(rows, rows2, ts2)
  {
    assert OnlyCancels(ts1, ts2);
    forall k | k in rows && rows1[k] != rows[k]
        ensures SentAndCancelled(ts2, rows[k].destination, rows[k].initiateTx.value) {
      CancelledStays(ts1, ts2, rows[k].destination, rows[k].initiateTx.value);
    }
    if ts2[id].status == TransferCancelled {
      assert SentBy(ts2[id], chain, Text(tx));
    }
  }

  /** Cancel one row's relay and, on a true answer, reopen all rows of its tx. */
  method CancelOne(db: Database, head: Snap) returns (found: bool)
    requires db.Valid()
    modifies db`settlements, db`transfers
    ensures db.Valid()
    ensures found <==> !NoneSentBy(old(db.transfers), head.row.destination, Text(head.row.initiateTx))
    ensures found ==>
              exists id :: CancelledOne(old(db.transfers), db.transfers, old(db.settlements), db.settlements,
                                        head.row.destination, head.row.initiateTx, id)
    ensures !found ==> db.transfers == old(db.transfers) && db.settlements == old(db.settlements)
  {
    var chain, tx := head.row.destination, Text(head.row.initiateTx);
    var answer := CancelRelay(db, chain, tx);
    if answer.None? {
      return false;
    }
    ghost var id :| && Updated(old(db.transfers), id, TransferCancelled, db.transfers)
        && SentBy(old(db.transfers)[id], chain, tx)
                    && (answer.value <==> db.transfers[id].status == TransferCancelled);
    if answer.value {
      db.ClearInitiateSettlement(chain, head.row.initiateTx);
    }
    assert CancelledOne(old(db.transfers), db.transfers, old(db.settlements), db.settlements, chain,
           head.row.initiateTx, id);
    found := true;
  }

  lemma SendersStay(ts: Transfers, ts': Transfers, todo: seq<Snap>, due: Snap -> bool, n: nat)
    requires n <= |todo| && CancelledFor(ts, ts', todo, due, n) && UniqueSenders(ts)
    ensures UniqueSenders(ts')
    ensures forall chain, tx :: NoneSentBy(ts, chain, tx) <==> NoneSentBy(ts', chain, tx)
  {
    forall id, chain, tx | id in ts ensures SentBy(ts[id], chain, tx) <==> SentBy(ts'[id], chain, tx) {}
    forall chain, tx ensures NoneSentBy(ts, chain, tx) <==> NoneSentBy(ts', chain, tx) {}
    forall i, j | i in ts' && j in ts' && SentBy(ts'[i], ts'[j].source, ts'[j].sentTx) ensures i == j {
      assert SentBy(ts[i], ts[j].source, ts[j].sentTx);
    }
  }

  lemma CancelOneMore(
    ts: Transfers, ts1: Transfers, ts2: Transfers, todo: seq<Snap>, due: Snap -> bool, n: nat, id: nat)
    requires n < |todo| && CancelledFor(ts, ts1, todo, due, n) && UniqueSenders(ts) && due(todo[n])
    requires Updated(ts1, id, TransferCancelled, ts2)
             && SentBy(ts1[id], todo[n].row.destination, Text(todo[n].row.initiateTx))
    ensures CancelledFor(ts, ts2, todo, due, n + 1)
  {
    forall other | other in ts
      ensures DueFor(todo, due, n + 1, ts[other]) <==> DueFor(todo, due, n, ts[other]) || other == id
    {
      if SentBy(ts[other], todo[n].row.destination, Text(todo[n].row.initiateTx)) {
        assert SentBy(ts[other], ts[id].source, ts[id].sentTx);
      }
      assert SentBy(ts[id], todo[n].row.destination, Text(todo[n].row.initiateTx));
    }
  }

  lemma SkipOne(
    ts: Transfers, ts': Transfers, rows: Settlements, rows': Settlements, todo: seq<Snap>, due: Snap -> bool, n: nat)
    requires n < |todo| && !due(todo[n]) && CancelledFor(ts, ts', todo, due, n)
             && ReopenedFor(rows, rows', ts', todo, due, n)
    ensures CancelledFor(ts, ts', todo, due, n + 1) && ReopenedFor(rows, rows', ts', todo, due, n + 1)
  {
    forall t ensures DueFor(todo, due, n + 1, t) <==> DueFor(todo, due, n, t) {}
    forall row ensures DueWith(todo, due, n + 1, row) <==> DueWith(todo, due, n, row) {}
  }

  /** A due row's transfer is no longer pending. */
  lemma DueIsDecided(
    ts: Transfers, ts': Transfers, todo: seq<Snap>, due: Snap -> bool, n: nat, row: Settlement, id: nat)
    requires n <= |todo| && CancelledFor(ts, ts', todo, due, n) && DueWith(todo, due, n, row)
    requires id in ts' && SentBy(ts'[id], row.destination, Text(row.initiateTx))
    ensures ts'[id].status != TransferPending
  {
    var i :| 0 <= i < n && due(todo[i]) && Clears(row, todo[i].row.destination, todo[i].row.initiateTx);
    assert SentBy(ts[id], todo[i].row.destination, Text(todo[i].row.initiateTx));
    assert DueFor(todo, due, n, ts[id]);
  }

  /** The tx of a row cancelled before stays so, and no row due before becomes so now. */
  lemma CancelledAgrees(
    ts: Transfers, ts1: Transfers, ts2: Transfers, todo: seq<Snap>, due: Snap -> bool, n: nat, row: Settlement, id: nat)
    requires n <= |todo| && CancelledFor(ts, ts1, todo, due, n) && Updated(ts1, id, TransferCancelled, ts2)
    requires DueWith(todo, due, n, row)
    ensures SentAndCancelled(ts1, row.destination, Text(row.initiateTx)) <==>
            SentAndCancelled(ts2, row.destination, Text(row.initiateTx))
  {
    var chain, tx := row.destination, Text(row.initiateTx);
    if SentAndCancelled(ts1, chain, tx) {
      var j :| j in ts1 && SentBy(ts1[j], chain, tx) && ts1[j].status == TransferCancelled;
      assert SentBy(ts2[j], chain, tx);
    }
    if SentAndCancelled(ts2, chain, tx) {
      var j :| j in ts2 && SentBy(ts2[j], chain, tx) && ts2[j].status == TransferCancelled;
      assert SentBy(ts1[j], chain, tx);
      DueIsDecided(ts, ts1, todo, due, n, row, j);
    }
  }

  lemma OwnTxDecides(ts2: Transfers, id: nat, chain: Name, tx: Name)
    requires UniqueSenders(ts2) && id in ts2 && SentBy(ts2[id], chain, tx)
    ensures SentAndCancelled(ts2, chain, tx) <==> ts2[id].status == TransferCancelled
  {
    if SentAndCancelled(ts2, chain, tx) {
      var j :| j in ts2 && SentBy(ts2[j], chain, tx) && ts2[j].status == TransferCancelled;
      assert SentBy(ts2[j], ts2[id].source, ts2[id].sentTx);
    }
  }

  lemma ReopenRow(
    ts: Transfers, ts1: Transfers, ts2: Transfers, rows: Settlements, rows1: Settlements, rows2: Settlements,
                  todo: seq<Snap>, due: Snap -> bool, n: nat, id: nat, k: OrderKey)
    requires n < |todo| && due(todo[n]) && k in rows && UniqueSenders(ts2)
    requires CancelledFor(ts, ts1, todo, due, n) && ReopenedFor(rows, rows1, ts1, todo, due, n)
    requires CancelledOne(ts1, ts2, rows1, rows2, todo[n].row.destination, todo[n].row.initiateTx, id)
    ensures k in rows2
    ensures rows2[k] == if DueWith(todo, due, n + 1, rows[k])
            && SentAndCancelled(ts2, rows[k].destination, Text(rows[k].initiateTx))
                        then Reopened(rows[k]) else rows[k]
  {
    var row, chain, tx := rows[k], todo[n].row.destination, todo[n].row.initiateTx;
    assert DueWith(todo, due, n + 1, row) <==> DueWith(todo, due, n, row) || Clears(row, chain, tx);
    if DueWith(todo, due, n, row) {
      CancelledAgrees(ts, ts1, ts2, todo, due, n, row, id);
    }
    if Clears(row, chain, tx) {
      assert SentBy(ts2[id], row.destination, Text(row.initiateTx));
      OwnTxDecides(ts2, id, row.destination, Text(row.initiateTx));
    }
  }

  /** The cancel loop. It stops at the first due row whose tx has no transfer; `n` is how far
      it got. Transfers are only cancelled, and a settlement is unsettled again only with a
      cancelled transfer. As long as one tx has one transfer it is exactly the pending
      transfers of due rows that are cancelled, and exactly the settlements that share the tx
      of a due row and whose transfer is cancelled by then that are unsettled. */
  method CancelSettlementRelays(db: Database, todo: seq<Snap>, due: Snap -> bool) returns (ok: bool, ghost n: nat)
    requires db.Valid()
    modifies db`settlements, db`transfers
    ensures db.Valid() && n <= |todo|
    ensures OnlyCancels(old(db.transfers), db.transfers)
    ensures OnlyReopens(old(db.settlements), db.settlements, db.transfers)
    ensures UniqueSenders(old(db.transfers)) ==>
              && CancelledFor(old(db.transfers), db.transfers, todo, due, n)
              && ReopenedFor(old(db.settlements), db.settlements, db.transfers, todo, due, n)
    ensures ok ==> n == |todo|
    ensures !ok ==>
              && n < |todo| && due(todo[n])
              && NoneSentBy(old(db.transfers), todo[n].row.destination, Text(todo[n].row.initiateTx))
    ensures forall i :: 0 <= i < n && due(todo[i]) ==>
              !NoneSentBy(old(db.transfers), todo[i].row.destination, Text(todo[i].row.initiateTx))
  {
    n := 0;
    for i := 0 to |todo|
      invariant db.Valid() && n == i
      invariant OnlyCancels(old(db.transfers), db.transfers)
      invariant OnlyReopens(old(db.settlements), db.settlements, db.transfers)
      invariant UniqueSenders(old(db.transfers)) ==>
                  && CancelledFor(old(db.transfers), db.transfers, todo, due, i)
                  && ReopenedFor(old(db.settlements), db.settlements, db.transfers, todo, due, i)
      invariant forall j :: 0 <= j < i && due(todo[j]) ==>
                  !NoneSentBy(old(db.transfers), todo[j].row.destination, Text(todo[j].row.initiateTx))
    {
      ghost var rows, ts := db.settlements, db.transfers;
      SameSenders(old(db.transfers), ts, todo[i].row.destination, Text(todo[i].row.initiateTx));
      if due(todo[i]) {
        var found := CancelOne(db, todo[i]);
        if !found {
          return false, n;
        }
        PassGoesOn(old(db.transfers), ts, db.transfers, old(db.settlements), rows, db.settlements, todo, due, i);
      } else if UniqueSenders(old(db.transfers)) {
        SkipOne(old(db.transfers), ts, old(db.settlements), rows, todo, due, i);
      }
      n := i + 1;
    }
    ok := true;
  }

  lemma PassGoesOn(
    ts: Transfers, ts1: Transfers, ts2: Transfers, rows: Settlements, rows1: Settlements, rows2: Settlements,
                   todo: seq<Snap>, due: Snap -> bool, n: nat)
    requires n < |todo| && due(todo[n])
    requires OnlyCancels(ts, ts1) && OnlyReopens(rows, rows1, ts1)
    requires UniqueSenders(ts) ==> CancelledFor(ts, ts1, todo, due, n) && ReopenedFor(rows, rows1, ts1, todo, due, n)
    requires exists id :: CancelledOne(ts1, ts2, rows1, rows2, todo[n].row.destination, todo[n].row.initiateTx, id)
    ensures OnlyCancels(ts, ts2) && OnlyReopens(rows, rows2, ts2)
    ensures UniqueSenders(ts) ==>
              CancelledFor(ts, ts2, todo, due, n + 1) && ReopenedFor(rows, rows2, ts2, todo, due, n + 1)
  {
    var id :| CancelledOne(ts1, ts2, rows1, rows2, todo[n].row.destination, todo[n].row.initiateTx, id);
    StaysSafe(ts, ts1, ts2, rows, rows1, rows2, todo[n].row.destination, todo[n].row.initiateTx, id);
    if UniqueSenders(ts) {
      CancelledMore(ts, ts1, ts2, rows, rows1, rows2, todo, due, n);
    }
  }

  lemma CancelledMore(
    ts: Transfers, ts1: Transfers, ts2: Transfers, rows: Settlements, rows1: Settlements, rows2: Settlements,
                      todo: seq<Snap>, due: Snap -> bool, n: nat)
    requires n < |todo| && due(todo[n]) && UniqueSenders(ts)
    requires CancelledFor(ts, ts1, todo, due, n) && ReopenedFor(rows, rows1, ts1, todo, due, n)
    requires exists id :: CancelledOne(ts1, ts2, rows1, rows2, todo[n].row.destination, todo[n].row.initiateTx, id)
    ensures CancelledFor(ts, ts2, todo, due, n + 1) && ReopenedFor(rows, rows2, ts2, todo, due, n + 1)
  {
    var id :| CancelledOne(ts1, ts2, rows1, rows2, todo[n].row.destination, todo[n].row.initiateTx, id);
    CancelOneMore(ts, ts1, ts2, todo, due, n, id);
    SendersStay(ts, ts2, todo, due, n + 1);
    forall k | k in rows
      ensures k in rows2
      ensures rows2[k] == if DueWith(todo, due, n + 1, rows[k])
              && SentAndCancelled(ts2, rows[k].destination, Text(rows[k].initiateTx))
                          then Reopened(rows[k]) else rows[k]
    {
      ReopenRow(ts, ts1, ts2, rows, rows1, rows2, todo, due, n, id, k);
    }
  }

  /** What that means for one transfer and for one settlement of a pass that ran through:
      a due row's pending transfer is cancelled, no settlement carries a due tx whose
      transfer is cancelled, and a due row whose transfer succeeded is as it was. */
  lemma CancelPassEffect(
    ts: Transfers, ts': Transfers, rows: Settlements, rows': Settlements, todo: seq<Snap>, due: Snap -> bool, i: nat)
    requires i < |todo| && due(todo[i]) && UniqueSenders(ts)
    requires CancelledFor(ts, ts', todo, due, |todo|) && ReopenedFor(rows, rows', ts', todo, due, |todo|)
    ensures forall id :: id in ts && SentBy(ts[id], todo[i].row.destination, Text(todo[i].row.initiateTx)) ==>
              ts'[id].status == (if ts[id].status == TransferPending then TransferCancelled else ts[id].status)
    ensures SentAndCancelled(ts', todo[i].row.destination, Text(todo[i].row.initiateTx)) ==>
              forall k :: k in rows' ==> !Clears(rows'[k], todo[i].row.destination, todo[i].row.initiateTx)
    ensures forall id, k :: (&& id in ts && SentBy(ts[id], todo[i].row.destination, Text(todo[i].row.initiateTx))
                             && ts[id].status == TransferSuccess
                             && k in rows && Clears(rows[k], todo[i].row.destination, todo[i].row.initiateTx)) ==>
                                rows'[k] == rows[k]
  {
    forall id | id in ts && SentBy(ts[id], todo[i].row.destination, Text(todo[i].row.initiateTx))
        ensures DueFor(todo, due, |todo|, ts[id]) {}
    forall k | k in rows && Clears(rows[k], todo[i].row.destination, todo[i].row.initiateTx)
        ensures DueWith(todo, due, |todo|, rows[k]) {}
    SendersStay(ts, ts', todo, due, |todo|);
    forall id | id in ts && SentBy(ts[id], todo[i].row.destination, Text(todo[i].row.initiateTx))
        && ts[id].status == TransferSuccess
      ensures !SentAndCancelled(ts', todo[i].row.destination, Text(todo[i].row.initiateTx))
    {
      OwnTxDecides(ts', id, todo[i].row.destination, Text(todo[i].row.initiateTx));
    }
  }

  // ----- The latest delivery attempt -----

  method MostRecentTx(txs: seq<Attempt>) returns (recent: Attempt)
    requires txs != []
    ensures recent == MostRecent(txs)
    ensures recent in txs && forall i :: 0 <= i < |txs| ==> txs[i].createdAt <= recent.createdAt
  {
    recent := txs[0];
    for i := 0 to |txs|
      invariant i == 0 ==> recent == txs[0]
      invariant i > 0 ==> recent == MostRecent(txs[..i])
      invariant recent in txs && forall j :: 0 <= j < i ==> txs[j].createdAt <= recent.createdAt
    {
      assert txs[..i + 1][..i] == txs[..i];
      if txs[i].createdAt > recent.createdAt {
        recent := txs[i];
      }
    }
    assert txs[..|txs|] == txs;
  }
}

/** The fulfilment handler on the orders table: the status of an order, and its timeout. */
module Fulfillment {
  import opened Basics
  import opened Refunds

  type TxHash = nat

  /** The orders table and the order's rows of submitted_txs, by order. */
  class Orders {
    var statuses: map<OrderId, OrderStatus>
    var timeoutTxs: map<OrderId, seq<TxHash>>

    constructor ()
      ensures statuses == map[] && timeoutTxs == map[]
    {
      statuses, timeoutTxs := map[], map[];
    }

    method SetOrderStatus(o: OrderId, status: OrderStatus)
      modifies this`statuses
      ensures statuses == old(statuses)[o := status]
    {
      statuses := statuses[o := status];
    }
  }

  function RowsOf(txs: map<OrderId, seq<TxHash>>, o: OrderId): seq<TxHash> {
    if o in txs then txs[o] else []
  }

  // ----- Updating the status -----

  /** The status returned and stored is the one the chain's own block at that height says.
      `height` is none when the fill query fails, `refunded` none when that query does. */
  method UpdateFulfillmentStatus(
    orders: Orders, cfg: Config, blocks: seq<Block>, o: OrderId, height: Option<nat>, refunded: Option<bool>)
    returns (status: Option<OrderStatus>)
    requires height.Some? ==> height.value < |blocks|
    modifies orders`statuses
    ensures height.Some? && refunded.Some? ==> status == Some(StatusSeen(cfg, blocks, o, height.value, refunded.value))
    ensures status.None? <==>
              || height.None?
              || (refunded.None? && StatusSeen(cfg, blocks, o, height.value, false) == ExpiredPendingRefund)
    ensures orders.statuses ==
              if status.None? || status == Some(Pending) then old(orders.statuses)
                  else old(orders.statuses)[o := status.value]
  {
    if height.None? {
      return None;
    }
    if FilledBy(blocks, o, height.value) {
      orders.SetOrderStatus(o, Filled);
      return Some(Filled);
    }
    if blocks[height.value].time > cfg.timeout(o) {
      if refunded.None? {
        return None;
      }
      if refunded.value {
        orders.SetOrderStatus(o, Refunded);
        return Some(Refunded);
      }
      orders.SetOrderStatus(o, ExpiredPendingRefund);
      return Some(ExpiredPendingRefund);
    }
    status := Some(Pending);
  }

  /** Initiating a timeout again returns the tx recorded before and sends nothing; `tx` is
      what the chain returns for a new one, none on an error, and `kept` whether its row
      could be inserted. */
  method InitiateTimeout(
    orders: Orders, o: OrderId, tx: Option<TxHash>, kept: bool) returns (hash: Option<TxHash>, sent: bool)
    modifies orders`timeoutTxs
    ensures sent <==> RowsOf(old(orders.timeoutTxs), o) == [] && tx.Some?
    ensures sent && kept ==> hash == tx
    ensures |RowsOf(old(orders.timeoutTxs), o)| <= 1 ==> |RowsOf(orders.timeoutTxs, o)| <= 1
    ensures |RowsOf(old(orders.timeoutTxs), o)| == 1 ==>
            hash == Some(RowsOf(old(orders.timeoutTxs), o)[0]) && orders.timeoutTxs == old(orders.timeoutTxs)
    ensures hash.Some? ==> RowsOf(orders.timeoutTxs, o) == [hash.value]
    ensures forall p :: p != o ==> RowsOf(orders.timeoutTxs, p) == RowsOf(old(orders.timeoutTxs), p)
  {
    var rows := RowsOf(orders.timeoutTxs, o);
    if |rows| > 1 {
      return None, false;
    }
    if |rows| == 1 {
      return Some(rows[0]), false;
    }
    if tx.None? {
      return None, false;
    }
    if !kept {
      return None, true;
    }
    orders.timeoutTxs := orders.timeoutTxs[o := [tx.value]];
    hash, sent := tx, true;
  }
}

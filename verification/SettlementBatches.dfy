/** Settlement batches: how rows are grouped for settling, for relaying and for rebatching,
    what the groups conserve, and that they are what the protocol's steps start from. */
module SettlementBatches {
  import opened Basics
  import opened Tables
  import opened Protocol
  import opened Batching

  function Chains(s: Snap): (Name, Name) {
    (s.key.source, s.row.destination)
  }

  function InitiateTx(s: Snap): Option<Name> {
    s.row.initiateTx
  }

  function Destination(s: Snap): Name {
    s.row.destination
  }

  predicate HasTx(s: Snap) {
    s.row.initiateTx.Some?
  }

  predicate HasNoTx(s: Snap) {
    s.row.initiateTx.None?
  }

  // ----- Totals -----

  lemma {:induction false} TotalsAreSums(batch: seq<Snap>)
    ensures TotalValue(batch) == Sum(batch, (s: Snap) => s.row.amount)
    ensures TotalProfit(batch) == Sum(batch, (s: Snap) => s.row.profit)
  {
    if batch != [] {
      TotalsAreSums(batch[..|batch| - 1]);
    }
  }

  method SumValue(batch: seq<Snap>) returns (sum: int)
    ensures sum == TotalValue(batch)
  {
    sum := 0;
    for i := 0 to |batch|
      invariant sum == TotalValue(batch[..i])
    {
      sum := sum + batch[i].row.amount;
      assert batch[..i + 1][..i] == batch[..i];
    }
    assert batch[..|batch|] == batch;
  }

  method SumProfit(batch: seq<Snap>) returns (sum: int)
    ensures sum == TotalProfit(batch)
  {
    sum := 0;
    for i := 0 to |batch|
      invariant sum == TotalProfit(batch[..i])
    {
      sum := sum + batch[i].row.profit;
      assert batch[..i + 1][..i] == batch[..i];
    }
    assert batch[..|batch|] == batch;
  }

  function ValueOfAll(batches: seq<seq<Snap>>): int {
    if batches == [] then 0 else ValueOfAll(batches[..|batches| - 1]) + TotalValue(batches[|batches| - 1])
  }

  function ProfitOfAll(batches: seq<seq<Snap>>): int {
    if batches == [] then 0 else ProfitOfAll(batches[..|batches| - 1]) + TotalProfit(batches[|batches| - 1])
  }

  lemma {:induction false} TotalsOfAll(batches: seq<seq<Snap>>)
    ensures ValueOfAll(batches) == Sum(Flat(batches), (s: Snap) => s.row.amount)
    ensures ProfitOfAll(batches) == Sum(Flat(batches), (s: Snap) => s.row.profit)
  {
    if batches != [] {
      var front, last := batches[..|batches| - 1], batches[|batches| - 1];
      TotalsOfAll(front);
      TotalsAreSums(last);
      SumAppend(Flat(front), last, (s: Snap) => s.row.amount);
      SumAppend(Flat(front), last, (s: Snap) => s.row.profit);
    }
  }

  /** The batches of any grouping are worth together what the rows are. */
  lemma BatchTotalsConserved<K(!new)>(batches: seq<seq<Snap>>, settlements: seq<Snap>, key: Snap -> K)
    requires IsGrouping(batches, settlements, key)
    ensures ValueOfAll(batches) == TotalValue(settlements)
    ensures ProfitOfAll(batches) == TotalProfit(settlements)
  {
    TotalsOfAll(batches);
    TotalsAreSums(settlements);
    GroupingConserves(batches, settlements, key, (s: Snap) => s.row.amount);
    GroupingConserves(batches, settlements, key, (s: Snap) => s.row.profit);
  }

  // ----- The two groupings -----

  method IntoBatchesByChains(settlements: seq<Snap>) returns (batches: seq<seq<Snap>>)
    ensures IsGrouping(batches, settlements, Chains)
    ensures multiset(Flat(batches)) == multiset(settlements)
    ensures ValueOfAll(batches) == TotalValue(settlements) && ProfitOfAll(batches) == TotalProfit(settlements)
  {
    var groups := GroupInto(map[], [], settlements, (s: Snap) => true, Chains);
    KeepAll(settlements, (s: Snap) => true);
    assert [] + settlements == settlements;
    batches := Collect(groups, settlements, Chains);
    GroupingIsAPermutation(batches, settlements, Chains);
    BatchTotalsConserved(batches, settlements, Chains);
  }

  method IntoBatchesByHash(settlements: seq<Snap>) returns (batches: seq<seq<Snap>>)
    ensures IsGrouping(batches, Keep(settlements, HasTx), InitiateTx)
    ensures multiset(Flat(batches)) == multiset(Keep(settlements, HasTx))
    ensures ValueOfAll(batches) == TotalValue(Keep(settlements, HasTx))
    ensures ProfitOfAll(batches) == TotalProfit(Keep(settlements, HasTx))
  {
    var groups := GroupInto(map[], [], settlements, HasTx, InitiateTx);
    assert [] + Keep(settlements, HasTx) == Keep(settlements, HasTx);
    batches := Collect(groups, Keep(settlements, HasTx), InitiateTx);
    GroupingIsAPermutation(batches, Keep(settlements, HasTx), InitiateTx);
    BatchTotalsConserved(batches, Keep(settlements, HasTx), InitiateTx);
  }

  method PendingSettlementBatches(pending: seq<Snap>) returns (batches: seq<seq<Snap>>)
    ensures IsGrouping(batches, Keep(pending, HasNoTx), Chains)
  {
    var uninitiated := [];
    assert Keep(pending[..0], HasNoTx) == [];
    for i := 0 to |pending|
      invariant uninitiated == Keep(pending[..i], HasNoTx)
    {
      assert pending[..i + 1][..i] == pending[..i];
      if HasNoTx(pending[i]) {
        uninitiated := uninitiated + [pending[i]];
      }
    }
    assert pending[..|pending|] == pending;
    batches := IntoBatchesByChains(uninitiated);
  }

  // ----- What the protocol's steps start from -----

  /** The rows a query by status returned: each once, as they are in the table. */
  ghost predicate Read(settlements: seq<Snap>, rows: Settlements, status: SettlementStatus) {
    && (forall i :: 0 <= i < |settlements| ==>
          settlements[i].key in rows && rows[settlements[i].key] == settlements[i].row
              && settlements[i].row.status == status)
    && DistinctKeys(settlements)
  }

  ghost predicate DistinctKeys(settlements: seq<Snap>) {
    forall i, j :: 0 <= i < j < |settlements| ==> settlements[i].key != settlements[j].key
  }

  /** The by-hash batches of the initiated rows are the ones the submit step may read: one
      tx each, so their chains may be taken from their first row. */
  lemma HashBatchesCanBeSubmitted(batches: seq<seq<Snap>>, initiated: seq<Snap>, rows: Settlements, b: nat)
    requires Read(initiated, rows, Initiated) && b < |batches|
    requires IsGrouping(batches, Keep(initiated, HasTx), InitiateTx)
    ensures SubmitBatch(rows, batches[b])
  {
    forall i | 0 <= i < |batches[b]|
      ensures batches[b][i] in initiated && HasTx(batches[b][i])
              && InitiateTx(batches[b][i]) == InitiateTx(batches[b][0])
    {
      Grouped(batches, Keep(initiated, HasTx), InitiateTx, b, i);
      KeepIn(initiated, HasTx, batches[b][i]);
    }
  }

  function KeysOf(batch: seq<Snap>): set<OrderKey> {
    set i | 0 <= i < |batch| :: batch[i].key
  }

  /** The batches of a settle pass, as a map from row to batch number. */
  function PlanOf(batches: seq<seq<Snap>>): map<OrderKey, nat> {
    if batches == [] then map[] else
    var n := |batches| - 1;
    PlanOf(batches[..n]) + map k | k in KeysOf(batches[n]) :: n
  }

  /** One row is in no two batches. */
  ghost predicate KeysDistinct(batches: seq<seq<Snap>>) {
    forall b, c, i, j :: (0 <= b < c < |batches| && 0 <= i < |batches[b]| && 0 <= j < |batches[c]|) ==>
      batches[b][i].key != batches[c][j].key
  }

  lemma {:induction false} PlanHas(batches: seq<seq<Snap>>, k: OrderKey)
    requires KeysDistinct(batches)
    ensures k in PlanOf(batches) <==> exists b :: 0 <= b < |batches| && k in KeysOf(batches[b])
    ensures forall b :: 0 <= b < |batches| && k in KeysOf(batches[b]) ==> PlanOf(batches)[k] == b
  {
    if batches != [] {
      var n := |batches| - 1;
      PlanHas(batches[..n], k);
      forall b | 0 <= b < |batches| && k in KeysOf(batches[b]) ensures k in PlanOf(batches) && PlanOf(batches)[k] == b {
        if b < n {
          assert batches[..n][b] == batches[b];
          assert k !in KeysOf(batches[n]);
        }
      }
    }
  }

  lemma GroupedKeysDistinct(batches: seq<seq<Snap>>, settlements: seq<Snap>)
    requires IsGrouping(batches, settlements, Chains)
    requires DistinctKeys(settlements)
    ensures KeysDistinct(batches)
  {
    forall b, c, i, j | 0 <= b < c < |batches| && 0 <= i < |batches[b]| && 0 <= j < |batches[c]|
      ensures batches[b][i].key != batches[c][j].key
    {
      Grouped(batches, settlements, Chains, b, i);
      Grouped(batches, settlements, Chains, c, j);
      assert batches[b][i] != batches[c][j];
    }
  }

  /** The by-chains batches of the pending rows without a tx are a plan the settle step may
      start from, and recording batch `b` of the plan is recording exactly its rows. */
  lemma ChainBatchesArePlan(batches: seq<seq<Snap>>, pending: seq<Snap>, rows: Settlements)
    requires Read(pending, rows, Pending) && IsGrouping(batches, Keep(pending, HasNoTx), Chains)
    ensures SettlePlan(rows, PlanOf(batches))
    ensures forall b :: 0 <= b < |batches| ==> BatchKeys(PlanOf(batches), b) == KeysOf(batches[b])
  {
    KeptKeysDistinct(pending);
    GroupedKeysDistinct(batches, Keep(pending, HasNoTx));
    PlanSettles(batches, pending, rows);
    forall b | 0 <= b < |batches| ensures BatchKeys(PlanOf(batches), b) == KeysOf(batches[b]) {
      PlannedKeys(batches, b);
    }
  }

  lemma PlanSettles(batches: seq<seq<Snap>>, pending: seq<Snap>, rows: Settlements)
    requires Read(pending, rows, Pending) && IsGrouping(batches, Keep(pending, HasNoTx), Chains)
    requires KeysDistinct(batches)
    ensures SettlePlan(rows, PlanOf(batches))
  {
    var plan := PlanOf(batches);
    forall k | k in plan ensures k in rows && rows[k].status == Pending && rows[k].initiateTx == None {
      PlannedRow(batches, pending, rows, k);
    }
    forall k, k' | k in plan && k' in plan && plan[k] == plan[k']
      ensures k.source == k'.source && rows[k].destination == rows[k'].destination
    {
      PlannedRow(batches, pending, rows, k);
      PlannedRow(batches, pending, rows, k');
    }
  }

  lemma PlannedRow(batches: seq<seq<Snap>>, pending: seq<Snap>, rows: Settlements, k: OrderKey)
    requires Read(pending, rows, Pending) && IsGrouping(batches, Keep(pending, HasNoTx), Chains)
    requires KeysDistinct(batches) && k in PlanOf(batches)
    ensures k in rows && rows[k].status == Pending && rows[k].initiateTx == None && 0 <= PlanOf(batches)[k] < |batches|
    ensures (k.source, rows[k].destination) == Chains(batches[PlanOf(batches)[k]][0])
  {
    PlanHas(batches, k);
    var b :| 0 <= b < |batches| && k in KeysOf(batches[b]);
    var i :| 0 <= i < |batches[b]| && batches[b][i].key == k;
    Grouped(batches, Keep(pending, HasNoTx), Chains, b, i);
    KeepIn(pending, HasNoTx, batches[b][i]);
  }

  lemma PlannedKeys(batches: seq<seq<Snap>>, b: nat)
    requires KeysDistinct(batches) && b < |batches|
    ensures BatchKeys(PlanOf(batches), b) == KeysOf(batches[b])
  {
    forall k ensures k in BatchKeys(PlanOf(batches), b) <==> k in KeysOf(batches[b]) {
      PlanHas(batches, k);
    }
  }

  lemma {:induction false} KeptKeysDistinct(items: seq<Snap>)
    requires DistinctKeys(items)
    ensures DistinctKeys(Keep(items, HasNoTx))
  {
    if items != [] {
      var front := items[..|items| - 1];
      KeptKeysDistinct(front);
      forall i | 0 <= i < |Keep(front, HasNoTx)| ensures Keep(front, HasNoTx)[i].key != items[|items| - 1].key {
        KeepIn(front, HasNoTx, Keep(front, HasNoTx)[i]);
      }
    }
  }

  // ----- Rebatching -----

  predicate PendingWithTransfer(s: Snap) {
    s.row.initiateTx.Some? && s.row.transferId.Some?
  }

  predicate WithTransfer(s: Snap) {
    s.row.transferId.Some?
  }

  /** The rows that have a transfer, and so might be rebatched. */
  function Relayed(pending: seq<Snap>, initiated: seq<Snap>): seq<Snap> {
    Keep(pending, PendingWithTransfer) + Keep(initiated, WithTransfer)
  }

  /** There is a row to the same destination that has no tx yet. */
  ghost predicate CanRebatch(pending: seq<Snap>, destination: Name) {
    exists i :: 0 <= i < |pending| && HasNoTx(pending[i]) && pending[i].row.destination == destination
  }

  lemma CanRebatchKeys(pending: seq<Snap>, destination: Name)
    ensures destination in Keys(Keep(pending, HasNoTx), Destination) <==> CanRebatch(pending, destination)
  {
    var kept := Keep(pending, HasNoTx);
    if destination in Keys(kept, Destination) {
      var i :| 0 <= i < |kept| && Destination(kept[i]) == destination;
      KeepIn(pending, HasNoTx, kept[i]);
    }
    if CanRebatch(pending, destination) {
      var i :| 0 <= i < |pending| && HasNoTx(pending[i]) && pending[i].row.destination == destination;
      KeepIn(pending, HasNoTx, pending[i]);
      var j :| 0 <= j < |kept| && kept[j] == pending[i];
      assert Destination(kept[j]) in Keys(kept, Destination);
    }
  }

  /** The last loop: the groups for whose destination some row waits, in any order. */
  method TakeWaiting(
    relayed: map<Name, seq<Snap>>, waiting: map<Name, seq<Snap>>, ghost all: seq<Snap>, ghost wait: seq<Snap>)
    returns (todo: seq<Snap>)
    requires Groups(relayed, all, Destination) && Groups(waiting, wait, Destination)
    ensures multiset(todo) == multiset(Among(all, Destination, Keys(all, Destination) * Keys(wait, Destination)))
  {
    var order := AnyOrder(relayed.Keys);
    todo := [];
    AmongNone(all, Destination);
    ghost var ws := Keys(wait, Destination);
    assert Prefix(order, 0) * ws == {};
    for i := 0 to |order|
      invariant multiset(todo) == multiset(Among(all, Destination, Prefix(order, i) * ws))
    {
      var d := order[i];
      assert d in order;
      TakeOne(all, Prefix(order, i), ws, d);
      assert Prefix(order, i + 1) == Prefix(order, i) + {d};
      if d in waiting && |waiting[d]| > 0 {
        todo := todo + relayed[d];
      } else if d in waiting {
        SomeWith(wait, Destination, d);
      }
    }
    assert Prefix(order, |order|) == Keys(all, Destination);
  }

  function Prefix(order: seq<Name>, n: nat): set<Name>
    requires n <= |order|
  {
    set i | 0 <= i < n :: order[i]
  }

  lemma TakeOne(all: seq<Snap>, done: set<Name>, waiting: set<Name>, d: Name)
    requires d !in done
    ensures multiset(Among(all, Destination, (done + {d}) * waiting)) ==
            multiset(Among(all, Destination, done * waiting))
                + (if d in waiting then multiset(With(all, Destination, d)) else multiset{})
  {
    if d in waiting {
      assert (done + {d}) * waiting == done * waiting + {d};
      CountAmong(all, Destination, done * waiting, d);
    } else {
      assert (done + {d}) * waiting == done * waiting;
    }
  }

  lemma TakenCount(pending: seq<Snap>, all: seq<Snap>, s: Snap)
    ensures var taken := Keys(all, Destination) * Keys(Keep(pending, HasNoTx), Destination);
            multiset(Among(all, Destination, taken))[s] == if CanRebatch(pending, s.row.destination)
                then multiset(all)[s] else 0
  {
    var taken := Keys(all, Destination) * Keys(Keep(pending, HasNoTx), Destination);
    CanRebatchKeys(pending, s.row.destination);
    AmongCount(all, Destination, taken, s);
    if s in all {
      var i :| 0 <= i < |all| && all[i] == s;
      assert Destination(all[i]) in Keys(all, Destination);
    }
  }

  /** The rows whose relay is to be cancelled: all rows with a transfer for whose
      destination a new settlement waits, and no others. */
  method SettlementsToCancel(pending: seq<Snap>, initiated: seq<Snap>) returns (todo: seq<Snap>)
    ensures forall s :: multiset(todo)[s] ==
              if CanRebatch(pending, s.row.destination) then multiset(Relayed(pending, initiated))[s] else 0
  {
    var waiting := GroupInto(map[], [], pending, HasNoTx, Destination);
    assert [] + Keep(pending, HasNoTx) == Keep(pending, HasNoTx);
    var relayed := GroupInto(map[], [], pending, PendingWithTransfer, Destination);
    assert [] + Keep(pending, PendingWithTransfer) == Keep(pending, PendingWithTransfer);
    relayed := GroupInto(relayed, Keep(pending, PendingWithTransfer), initiated, WithTransfer, Destination);
    todo := TakeWaiting(relayed, waiting, Relayed(pending, initiated), Keep(pending, HasNoTx));
    forall s ensures multiset(todo)[s] == if CanRebatch(pending, s.row.destination)
        then multiset(Relayed(pending, initiated))[s] else 0 {
      TakenCount(pending, Relayed(pending, initiated), s);
    }
  }
}

/** Moving funds to a chain that needs them: how much it needs, which chains give how much,
    and when the transfer tracker takes a transfer out of the pending ones. */
module Rebalancing {
  import opened Basics
  import opened Tables
  import opened Batching

  // ----- How much is needed and how much can be spared -----

  function Needed(balance: int, pending: int, minAllowed: int, target: int): int {
    if balance + pending >= minAllowed then 0 else target - (balance + pending)
  }

  function Spare(balance: int, target: int): int {
    if balance <= target then 0 else balance - target
  }

  /** A rebalance_transfers row. */
  datatype TransferRow = TransferRow(source: Name, destination: Name, amount: int, pending: bool)

  function PendingTo(row: TransferRow, chain: Name): int {
    if row.pending && row.destination == chain then row.amount else 0
  }

  /** The rows are those the query returned: pending and to this chain. */
  method PendingBalance(rows: seq<TransferRow>, chain: Name) returns (balance: int)
    ensures balance == Sum(rows, (row: TransferRow) => PendingTo(row, chain))
  {
    balance := 0;
    for i := 0 to |rows|
      invariant balance == Sum(rows[..i], (row: TransferRow) => PendingTo(row, chain))
    {
      assert rows[..i + 1][..i] == rows[..i];
      if rows[i].pending && rows[i].destination == chain {
        balance := balance + rows[i].amount;
      }
    }
    assert rows[..|rows|] == rows;
  }

  // ----- Moving funds -----

  /** What becomes of the attempt to send from a chain: the gas gate refuses it, it is sent
      and recorded, or a call fails, and then before the tx was submitted, after it but
      before its row was inserted, or after both. */
  datatype Attempt = Refused | Sent | FailsUnsent | FailsUnrecorded | FailsRecorded

  /** A tx submitted to move funds. */
  datatype Move = Move(source: Name, amount: int)

  /** The other chains, their funds, and what happens to each attempt. */
  datatype Pool = Pool(balance: Name -> int, target: Name -> int, attempt: Name -> Attempt)

  /** What a chain adds to the total that can be moved to `to`. */
  function Offer(pool: Pool, to: Name, chain: Name): int {
    if chain == to || pool.attempt(chain) == Refused then 0 else Spare(pool.balance(chain), pool.target(chain))
  }

  function Offers(pool: Pool, to: Name, chains: seq<Name>): int {
    Sum(chains, (chain: Name) => Offer(pool, to, chain))
  }

  ghost predicate NoFailure(pool: Pool) {
    forall chain :: pool.attempt(chain) == Refused || pool.attempt(chain) == Sent
  }

  /** Every move is from another chain, which keeps its target, and no chain gives twice. */
  ghost predicate FairMoves(pool: Pool, to: Name, moves: seq<Move>) {
    && (forall i :: 0 <= i < |moves| ==>
          && moves[i].source != to && pool.attempt(moves[i].source) != Refused
          && 0 < moves[i].amount <= pool.balance(moves[i].source) - pool.target(moves[i].source))
    && (forall i, j :: 0 <= i < j < |moves| ==> moves[i].source != moves[j].source)
  }

  function Moved(moves: seq<Move>): int {
    Sum(moves, (m: Move) => m.amount)
  }

  lemma MovedAppend(moves: seq<Move>, m: Move)
    ensures Moved(moves + [m]) == Moved(moves) + m.amount
  {
    assert (moves + [m])[..|moves|] == moves;
  }

  lemma OffersAppend(pool: Pool, to: Name, chains: seq<Name>, i: nat)
    requires i < |chains|
    ensures Offers(pool, to, chains[..i + 1]) == Offers(pool, to, chains[..i]) + Offer(pool, to, chains[i])
  {
    assert chains[..i + 1][..i] == chains[..i];
  }

  lemma {:induction false} OffersGrow(pool: Pool, to: Name, chains: seq<Name>, i: nat)
    requires i <= |chains|
    ensures Offers(pool, to, chains[..i]) <= Offers(pool, to, chains)
    decreases |chains| - i
  {
    if i < |chains| {
      OffersAppend(pool, to, chains, i);
      OffersGrow(pool, to, chains, i + 1);
    } else {
      assert chains[..i] == chains;
    }
  }

  /** The loop over the configured chains, in any order. Without a failure it moves as much
      as is needed or, if that is less, all that the other chains not refused can spare, and
      the rows recorded are the txs sent. A failure ends it: then at most the last tx sent
      has no row, and never more than needed has been sent. */
  method MoveFundsToChain(pool: Pool, chains: seq<Name>, to: Name, need: int)
    returns (total: Option<int>, sent: seq<Move>, recorded: seq<Move>)
    requires need > 0
    requires forall i, j :: 0 <= i < j < |chains| ==> chains[i] != chains[j]
    ensures FairMoves(pool, to, sent) && Moved(sent) <= need
    ensures recorded == sent || (sent != [] && recorded == sent[..|sent| - 1])
    ensures total.Some? ==> recorded == sent && total.value == Moved(sent) == Min(need, Offers(pool, to, chains))
    ensures NoFailure(pool) ==> total.Some?
  {
    sent, recorded := [], [];
    var moved, remaining := 0, need;
    for i := 0 to |chains|
      invariant remaining == need - moved > 0
      invariant recorded == sent && moved == Moved(sent) == Offers(pool, to, chains[..i])
      invariant FairMoves(pool, to, sent)
      invariant forall k :: 0 <= k < |sent| ==> sent[k].source in chains[..i]
    {
      var chain := chains[i];
      OffersAppend(pool, to, chains, i);
      if chain == to {
        continue;
      }
      var spare := Spare(pool.balance(chain), pool.target(chain));
      if spare == 0 {
        continue;
      }
      var amount := if remaining - spare <= 0 then remaining else spare;
      var attempt := pool.attempt(chain);
      if attempt == FailsUnsent {
        return None, sent, recorded;
      }
      if attempt == Refused {
        continue;
      }
      MovedAppend(sent, Move(chain, amount));
      sent := sent + [Move(chain, amount)];
      if attempt == FailsUnrecorded {
        return None, sent, recorded;
      }
      recorded := recorded + [Move(chain, amount)];
      if attempt == FailsRecorded {
        return None, sent, recorded;
      }
      moved := moved + amount;
      remaining := remaining - amount;
      if remaining <= 0 {
        OffersGrow(pool, to, chains, i + 1);
        return Some(moved), sent, recorded;
      }
    }
    assert chains[..|chains|] == chains;
    total := Some(moved);
  }

  lemma {:induction false} SumRemove<T>(items: seq<T>, i: nat, f: T -> int)
    requires i < |items|
    ensures Sum(items, f) == Sum(items[..i] + items[i + 1..], f) + f(items[i])
  {
    var rest := items[..i] + items[i + 1..];
    assert items == items[..i] + ([items[i]] + items[i + 1..]);
    SumAppend(items[..i], [items[i]] + items[i + 1..], f);
    SumAppend([items[i]], items[i + 1..], f);
    SumAppend(items[..i], items[i + 1..], f);
  }

  lemma RemoveOne<T>(items: seq<T>, i: nat)
    requires i < |items|
    ensures multiset(items[..i] + items[i + 1..]) == multiset(items) - multiset{items[i]}
  {
    assert items == items[..i] + [items[i]] + items[i + 1..];
  }

  lemma {:induction false} SumOfPermutation<T>(a: seq<T>, b: seq<T>, f: T -> int)
    requires multiset(a) == multiset(b)
    ensures Sum(a, f) == Sum(b, f)
    decreases |a|
  {
    if a == [] {
      assert |multiset(b)| == 0;
    } else {
      var last := |a| - 1;
      assert a[last] in multiset(b);
      var i :| 0 <= i < |b| && b[i] == a[last];
      RemoveOne(a, last);
      RemoveOne(b, i);
      SumOfPermutation(a[..last] + a[last + 1..], b[..i] + b[i + 1..], f);
      SumRemove(a, last, f);
      SumRemove(b, i, f);
    }
  }

  /** The total does not depend on the order in which the map yields the chains. */
  lemma AnyOrderMovesTheSame(pool: Pool, to: Name, chains: seq<Name>, chains': seq<Name>)
    requires multiset(chains) == multiset(chains')
    ensures Offers(pool, to, chains) == Offers(pool, to, chains')
  {
    SumOfPermutation(chains, chains', (chain: Name) => Offer(pool, to, chain));
  }

  // ----- The transfer tracker -----

  const TRANSFER_TIMEOUT := 600_000_000_000

  datatype TransferState = Submitted | Pending | CompletedSuccess | CompletedError | Abandoned | PendingError

  predicate IsCompleted(state: TransferState) {
    state == CompletedSuccess || state == CompletedError || state == Abandoned || state == PendingError
  }

  predicate IsCompletedError(state: TransferState) {
    state == CompletedError || state == Abandoned || state == PendingError
  }

  /** One hop of a transfer as reported; `error` is its text, empty when there is none. */
  datatype Hop = Hop(state: TransferState, error: Option<string>)

  datatype RowStatus = RowPending | RowSuccess | RowFailed | RowAbandoned

  /** The text kept for a hop that failed. */
  function Reason(hop: Hop): string {
    match hop.error
    case Some(text) => text
    case None => "error occurred during transfer but reason could not be found"
  }

  /** The text kept for a whole transfer: that of the last hop that failed. */
  function LastReason(hops: seq<Hop>): string {
    if hops == [] then "" else
    var last := hops[|hops| - 1];
    if IsCompletedError(last.state) then Reason(last) else LastReason(hops[..|hops| - 1])
  }

  predicate AllCompleted(hops: seq<Hop>) {
    forall i :: 0 <= i < |hops| ==> IsCompleted(hops[i].state)
  }

  /** A pending row stays pending exactly while it is at most ten minutes old and its status
      is unknown or shows a hop under way. After ten minutes it is abandoned whatever
      happened to it; before, a completed one failed exactly when the last failing hop gives
      a reason, so an empty list of hops, or an empty reason, counts as success. */
  method UpdateTransferStatus(now: int, createdAt: int, status: Option<seq<Hop>>) returns (row: RowStatus)
    ensures row == RowAbandoned <==> now - createdAt > TRANSFER_TIMEOUT
    ensures row == RowPending <==> now - createdAt <= TRANSFER_TIMEOUT && (status.None? || !AllCompleted(status.value))
    ensures row == RowFailed ==> status.Some? && LastReason(status.value) != ""
    ensures row == RowSuccess ==> status.Some? && LastReason(status.value) == ""
  {
    if now - createdAt > TRANSFER_TIMEOUT {
      return RowAbandoned;
    }
    if status.None? {
      return RowPending;
    }
    var hops := status.value;
    for i := 0 to |hops|
      invariant forall j :: 0 <= j < i ==> IsCompleted(hops[j].state)
    {
      if !IsCompleted(hops[i].state) {
        return RowPending;
      }
    }
    var reason := "";
    for i := 0 to |hops|
      invariant reason == LastReason(hops[..i])
    {
      assert hops[..i + 1][..i] == hops[..i];
      if IsCompletedError(hops[i].state) {
        reason := Reason(hops[i]);
      }
    }
    assert hops[..|hops|] == hops;
    row := if reason != "" then RowFailed else RowSuccess;
  }

  ghost predicate LastError(hops: seq<Hop>, i: int) {
    0 <= i < |hops| && IsCompletedError(hops[i].state) && forall j :: i < j < |hops| ==>
        !IsCompletedError(hops[j].state)
  }

  /** A completed transfer with a failed hop is taken for a success exactly when the last
      failed hop reports an empty error text. */
  lemma {:induction false} FailureTakenForSuccess(hops: seq<Hop>, i: int)
    requires LastError(hops, i)
    ensures LastReason(hops) == "" <==> hops[i].error == Some("")
  {
    if i < |hops| - 1 {
      FailureTakenForSuccess(hops[..|hops| - 1], i);
    }
  }
}

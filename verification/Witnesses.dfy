/** Runs of the protocol that show what it does not promise: a complete settlement is opened
    again, two settlement txs of one order are both relayed, a relay with a negative timeout
    gives the margin away, and two attempts are exactly ten minutes apart. */
module Witnesses {
  import opened Basics
  import opened Fees
  import opened Tables
  import opened Protocol
  import opened Theorems
  import opened Stretches

  // ----- An order settled twice -----

  /** Chain 1 pays out, chain 2 is where orders are filled and settlements start. */
  const PAYOUT: Name := 1
  const FILLED: Name := 2
  const TX: Name := 10
  const NEW_TX: Name := 11
  const FIRST := OrderKey(PAYOUT, 3, 4)
  const OTHER := OrderKey(PAYOUT, 3, 5)
  const THIRD := OrderKey(PAYOUT, 3, 6)
  const NOW := 5 * SECOND
  const LATER := 3605 * SECOND

  /** No margin, a relay cost cap of 5 and this timeout. */
  function Cfg(timeout: int): Config {
    Config({PAYOUT, FILLED}, (chain: Name) => 0, (chain: Name) => 5, (chain: Name) => Some(timeout))
  }

  function Row0(status: SettlementStatus, tx: Option<Name>, id: Option<nat>): Settlement {
    Settlement(FILLED, 100, 1, status, tx, id)
  }

  function TwoRows(first: Settlement, other: Settlement): Settlements {
    map[FIRST := first, OTHER := other]
  }

  function ThreeRows(first: Settlement, other: Settlement, third: Settlement): Settlements {
    map[FIRST := first, OTHER := other, THIRD := third]
  }

  function Empty(): State {
    State(map[], map[], 1, map[], map[], map[], NOW, None, SReady, RReady, WReady, {}, map[], map[], map[], [])
  }

  /** Two orders were filled, settled in one batch, and their tx went through. */
  function Dispatched(): State {
    var open := Row0(Pending, None, None);
    Settled(Empty().(settlements := TwoRows(open, open)), map[FIRST := 0, OTHER := 0], TX, FILLED, PAYOUT).(
      settlements := TwoRows(Row0(Pending, Some(TX), None), Row0(Pending, Some(TX), None)),
      dispatched := map[TxKey(FILLED, TX) := Dispatch(PAYOUT, 20)])
  }

  lemma ToBroadcast(timeout: int, p: State -> bool)
    requires Kept(Cfg(timeout), p) && p(Empty())
    ensures p(Dispatched().(dispatched := map[]))
  {
    var cfg, open, plan := Cfg(timeout), Row0(Pending, None, None), map[FIRST := 0, OTHER := 0];
    var s1 := Empty().(settlements := map[FIRST := open]);
    var s2 := Empty().(settlements := TwoRows(open, open));
    Go(cfg, p, Empty(), SettleStep(CreateRow(FIRST, open)), s1);
    Go(cfg, p, s1, SettleStep(CreateRow(OTHER, open)), s2);
    Settle(cfg, p, s2, plan, TX, FIRST);
    BothSettled();
  }

  lemma BothSettled()
    ensures var open := Row0(Pending, None, None);
            SetInitiateTx(TwoRows(open, open), (map[FIRST := 0, OTHER := 0]).Keys, TX) == Dispatched().settlements
  {
  }

  lemma ToDispatched(timeout: int, p: State -> bool)
    requires Kept(Cfg(timeout), p) && p(Dispatched().(dispatched := map[]))
    ensures p(Dispatched())
  {
    var dispatch := ChainDispatch(TxKey(FILLED, TX), Dispatch(PAYOUT, 20));
    Go(Cfg(timeout), p, Dispatched().(dispatched := map[]), WorldStep(dispatch), Dispatched());
  }

  /** Both rows are verified to be initiated. */
  function Verified(): State {
    Dispatched().(settlements := TwoRows(Row0(Initiated, Some(TX), None), Row0(Initiated, Some(TX), None)))
  }

  /** The first of two rows is checked and then the other. */
  lemma RowsAfterCheck(first: Settlement, other: Settlement, complete: bool)
    ensures Checked(TwoRows(first, other), Snap(FIRST, first), complete) == TwoRows(AfterCheck(first, complete), other)
    ensures Checked(TwoRows(first, other), Snap(OTHER, other), complete) == TwoRows(first, AfterCheck(other, complete))
  {
  }

  function AfterCheck(row: Settlement, complete: bool): Settlement {
    row.(status := if complete then Complete else if row.status == Pending then Initiated else row.status)
  }

  lemma ToVerified(cfg: Config, p: State -> bool, s: State)
    requires Kept(cfg, p) && p(s) && s.settler == SReady
    requires s.settlements == TwoRows(Row0(Pending, Some(TX), None), Row0(Pending, Some(TX), None))
    ensures p(s.(settlements := TwoRows(Row0(Initiated, Some(TX), None), Row0(Initiated, Some(TX), None))))
  {
    var row, done := Row0(Pending, Some(TX), None), Row0(Initiated, Some(TX), None);
    var first, last := Snap(FIRST, row), Snap(OTHER, row);
    var s1, s2 := s.(settlements := TwoRows(done, row)), s.(settlements := TwoRows(done, done));
    StartVerify(cfg, p, s, [first, last]);
    Check(cfg, p, s, [first, last], false);
    RowsAfterCheck(row, row, false);
    assert [first, last][1..] == [last] && [last][1..] == [];
    Check(cfg, p, s1, [last], false);
    RowsAfterCheck(done, row, false);
    Rest(cfg, p, s2.(settler := SVerify([])), s2);
  }

  lemma NoMargin(value: nat)
    ensures FloatMargin(0, value) == 0
  {
    assert 0.0 / 10000.0 == 0.0;
    assert Times(0.0, value as real) == 0.0;
  }

  function Batch(): seq<Snap> {
    [Snap(FIRST, Row0(Initiated, Some(TX), None)), Snap(OTHER, Row0(Initiated, Some(TX), None))]
  }

  /** The cap stored for the batch: its profit of 2 or, with a negative timeout, 5. */
  function Cap(timeout: int): int {
    if timeout < 0 then 5 else 2
  }

  lemma BatchCap(timeout: int)
    ensures BatchTerms(Batch()) == Terms(200, 2, PAYOUT, 0)
    ensures StoredCap(Cfg(timeout), BatchTerms(Batch()), PAYOUT) == Cap(timeout)
  {
    assert Batch()[..1] == [Batch()[0]] && Batch()[..1][..0] == [];
    assert TotalValue(Batch()[..1]) == 100 && TotalProfit(Batch()[..1]) == 1;
    NoMargin(200);
  }

  function FirstTransfer(timeout: int): Transfer {
    Transfer(FILLED, PAYOUT, 20, TX, TransferPending, Some(Cap(timeout)), NOW)
  }

  /** The batch is handed to the relayer and both rows are linked to its transfer. */
  function Linked(timeout: int): State {
    Verified().(settlements := TwoRows(Row0(Initiated, Some(TX), Some(1)), Row0(Initiated, Some(TX), Some(1))),
                transfers := map[1 := FirstTransfer(timeout)], attempts := map[1 := []], nextId := 2,
                terms := map[TxKey(FILLED, TX) := Terms(200, 2, PAYOUT, 0)])
  }

  lemma ToLinked(timeout: int, p: State -> bool)
    requires Kept(Cfg(timeout), p) && p(Verified())
    ensures p(Linked(timeout))
  {
    var s := Linked(timeout).(settlements := Verified().settlements);
    BatchIsSubmitted();
    HandOver(Cfg(timeout), p, Verified(), Batch());
    BatchIsHandedOver(timeout);
    Link(Cfg(timeout), p, s, Batch(), 1);
    BatchIsLinked();
  }

  lemma BatchIsSubmitted()
    ensures SubmitBatch(Verified().settlements, Batch()) && Verified().settler == SReady
            && Verified().transfers == map[]
    ensures BatchTx(Batch()) in Verified().dispatched
  {
  }

  lemma BatchIsHandedOver(timeout: int)
    ensures HandedOver(Cfg(timeout), Verified(), Batch()) ==
            Linked(timeout).(settlements := Verified().settlements, settler := SLink(1, Batch(), []))
  {
    BatchCap(timeout);
    assert Stamp(NOW) == NOW;
    assert !Conflicts(Verified(), TxKey(FILLED, TX));
  }

  lemma BatchIsLinked()
    ensures LinkedRows(Verified().settlements, Batch(), 1) == Linked(0).settlements
  {
    var last := Batch()[1..];
    assert last == [Batch()[1]] && last[1..] == [];
    var rows := SetTransferId(Verified().settlements, FIRST, 1);
    assert LinkedRows(rows, last, 1) == LinkedRows(SetTransferId(rows, OTHER, 1), [], 1);
    assert SetTransferId(rows, OTHER, 1) == Linked(0).settlements;
  }

  lemma FirstRelay(timeout: int, fee: int, p: State -> bool)
    requires Kept(Cfg(timeout), p) && p(Linked(timeout)) && 0 < fee <= Cap(timeout)
    ensures p(Relaying(Linked(timeout), 1, fee))
  {
    SendRelay(Cfg(timeout), p, Linked(timeout), 1, fee);
  }

  lemma ToRelaying(timeout: int, fee: int, p: State -> bool)
    requires Kept(Cfg(timeout), p) && p(Empty()) && 0 < fee <= Cap(timeout)
    ensures p(Relaying(Linked(timeout), 1, fee))
  {
    ToBroadcast(timeout, p);
    ToDispatched(timeout, p);
    ToVerified(Cfg(timeout), p, Dispatched());
    ToLinked(timeout, p);
    FirstRelay(timeout, fee, p);
  }

  /** The first relay cost more than the margin allows, though it was sent at once. */
  ghost predicate RelayedAtALoss(cfg: Config, s: State, tx: TxKey) {
    && |s.relays| == 1 && s.relays[0].id in s.transfers && SentBy(s.transfers[s.relays[0].id], tx.chain, tx.hash)
    && s.relays[0].sentAt == s.transfers[s.relays[0].id].createdAt
    && tx in s.terms && s.terms[tx].lag == 0
    && s.terms[tx].profit - s.relays[0].fee < FloatMargin(cfg.marginBps(s.terms[tx].payout), s.terms[tx].value)
  }

  lemma FeeIsALoss()
    ensures RelayedAtALoss(Cfg(-1), Relaying(Linked(-1), 1, 5), TxKey(FILLED, TX))
  {
    NoMargin(200);
  }

  /** With a timeout of -1 a batch with a profit of 2 is relayed for a fee of 5 at the very
      time its transfer was created, which no timeout of zero or more allows. */
  lemma NegativeTimeoutLosesMargin() returns (run: Run)
    ensures IsRun(Cfg(-1), run) && RelayedAtALoss(Cfg(-1), run.states[|run.states| - 1], TxKey(FILLED, TX))
  {
    ToRelaying(-1, 5, Reaches(Cfg(-1)));
    FeeIsALoss();
    run := RunTo(Cfg(-1), Relaying(Linked(-1), 1, 5));
  }

  // ----- A complete settlement is opened again -----

  const HOUR := 3600 * SECOND

  /** The payout chain reports the first order as settled, the query for the other fails. */
  lemma CompleteFirst(cfg: Config, p: State -> bool, s: State)
    requires Kept(cfg, p) && p(s) && s.settler == SReady
    requires s.settlements == TwoRows(Row0(Initiated, Some(TX), Some(1)), Row0(Initiated, Some(TX), Some(1)))
    ensures p(s.(settlements := TwoRows(Row0(Complete, Some(TX), Some(1)), Row0(Initiated, Some(TX), Some(1)))))
  {
    var row := Row0(Initiated, Some(TX), Some(1));
    var first, last := Snap(FIRST, row), Snap(OTHER, row);
    var after := s.(settlements := TwoRows(Row0(Complete, Some(TX), Some(1)), row));
    StartVerify(cfg, p, s, [first, last]);
    Check(cfg, p, s, [first, last], true);
    RowsAfterCheck(row, row, true);
    assert [first, last][1..] == [last] && [last][1..] == [];
    SkipVerify(cfg, p, after, [last]);
    Rest(cfg, p, after.(settler := SVerify([])), after);
  }

  /** A third order to the same chain was filled, and the rebatch timeout passes. */
  lemma ThirdArrives(cfg: Config, p: State -> bool, s: State)
    requires Kept(cfg, p) && p(s) && s.settler == SReady && s.clock <= LATER && {PAYOUT, FILLED} <= cfg.chains
    requires s.settlements == TwoRows(Row0(Complete, Some(TX), Some(1)), Row0(Initiated, Some(TX), Some(1)))
    ensures p(s.(settlements := HalfDone(), clock := LATER))
  {
    var s1 := s.(settlements := HalfDone());
    assert InsertSettlement(s.settlements, THIRD, Row0(Pending, None, None)) == HalfDone();
    Go(cfg, p, s, SettleStep(CreateRow(THIRD, Row0(Pending, None, None))), s1);
    Go(cfg, p, s1, WorldStep(Tick(LATER)), s1.(clock := LATER));
  }

  /** One row is complete, one still initiated, and a new one waits to be settled. */
  function HalfDone(): Settlements {
    ThreeRows(Row0(Complete, Some(TX), Some(1)), LEFT.row, Row0(Pending, None, None))
  }

  const LEFT := Snap(OTHER, Settlement(FILLED, 100, 1, Initiated, Some(TX), Some(1)))

  function AllOpen(): Settlements {
    ThreeRows(Row0(Pending, None, None), Row0(Pending, None, None), Row0(Pending, None, None))
  }

  lemma ClearOpensAll(cfg: Config, s: State)
    requires s.settlements == HalfDone() && s.settler == SClear(LEFT, [])
    ensures Next(cfg, s, CancelStep(ClearRows), s.(settlements := AllOpen(), settler := SCancel([])))
  {
    assert ClearInitiate(HalfDone(), FILLED, Some(TX)) == AllOpen();
  }

  /** The delivery was sent and recorded, the transfer is still pending. */
  function Waiting(): State {
    Relayed(Linked(HOUR), 1, 1).(settlements := HalfDone(), clock := LATER)
  }

  lemma ToWaiting(p: State -> bool)
    requires Kept(Cfg(HOUR), p) && p(Empty())
    ensures p(Waiting())
  {
    var cfg, s := Cfg(HOUR), Relayed(Linked(HOUR), 1, 1);
    ToRelaying(HOUR, 1, p);
    RecordRelay(cfg, p, Linked(HOUR), 1, 1);
    CompleteFirst(cfg, p, s);
    ThirdArrives(cfg, p, s.(settlements := TwoRows(Row0(Complete, Some(TX), Some(1)), LEFT.row)));
  }

  /** A run in which a complete settlement goes back to pending: another row of its batch was
      still waiting for its answer when a new order came up to rebatch it with, and cancelling
      that one's relay clears them both. */
  lemma CompleteIsReopened() returns (run: Run, i: nat)
    ensures IsRun(Cfg(HOUR), run) && i < |run.steps|
    ensures IsComplete(run.states[i].settlements, FIRST) && FIRST in run.states[i + 1].settlements
    ensures run.states[i + 1].settlements[FIRST].status == Pending && RebatchIsDue(run.states[i])
  {
    ToClearing(Reaches(Cfg(HOUR)));
    WaitingIsCancelled();
    WaitingIsDue();
    run, i := ClearRun(Cfg(HOUR), Cancelled(Waiting(), LEFT, 1));
  }

  /** An order waits for the same destination, and the tx being cleared went through, was
      handed over an hour ago, and was sent for delivery. */
  ghost predicate RebatchIsDue(s: State) {
    && THIRD in s.settlements && s.settlements[THIRD] == Row0(Pending, None, None)
    && TxKey(FILLED, TX) in s.dispatched && HasRelay(s, TxKey(FILLED, TX))
    && 1 in s.transfers && SentBy(s.transfers[1], FILLED, TX) && s.clock - s.transfers[1].createdAt == HOUR
  }

  lemma WaitingIsDue()
    ensures RebatchIsDue(Cancelled(Waiting(), LEFT, 1))
  {
    var s := Cancelled(Waiting(), LEFT, 1);
    assert RelayOf(s, 0, TxKey(FILLED, TX));
  }

  lemma WaitingIsCancelled()
    ensures Cancelled(Waiting(), LEFT, 1).settlements == HalfDone()
            && Cancelled(Waiting(), LEFT, 1).settler == SClear(LEFT, [])
  {
  }

  lemma ToClearing(p: State -> bool)
    requires Kept(Cfg(HOUR), p) && p(Empty())
    ensures p(Cancelled(Waiting(), LEFT, 1))
  {
    ToWaiting(p);
    Cancel(Cfg(HOUR), p, Waiting(), LEFT, 1);
  }

  lemma ClearRun(cfg: Config, s: State) returns (run: Run, i: nat)
    requires CanReach(cfg, s) && s.settlements == HalfDone() && s.settler == SClear(LEFT, [])
    ensures IsRun(cfg, run) && i < |run.steps| && run.states[i] == s
    ensures IsComplete(run.states[i].settlements, FIRST) && FIRST in run.states[i + 1].settlements
    ensures run.states[i + 1].settlements[FIRST].status == Pending
  {
    ClearOpensAll(cfg, s);
    run, i := LastStep(cfg, s, CancelStep(ClearRows), s.(settlements := AllOpen(), settler := SCancel([])));
  }

  // ----- Two txs of one order are both relayed -----

  /** The three rows are open again, the first tx is cancelled though it was relayed. */
  function Again(): State {
    Cancelled(Waiting(), LEFT, 1).(settlements := AllOpen(), settler := SReady)
  }

  lemma ToAgain(p: State -> bool)
    requires Kept(Cfg(HOUR), p) && p(Cancelled(Waiting(), LEFT, 1))
    ensures p(Again())
  {
    var s := Cancelled(Waiting(), LEFT, 1);
    ClearOpensAll(Cfg(HOUR), s);
    Go(Cfg(HOUR), p, s, CancelStep(ClearRows), s.(settlements := AllOpen(), settler := SCancel([])));
    Rest(Cfg(HOUR), p, s.(settlements := AllOpen(), settler := SCancel([])), Again());
  }

  function NewPlan(): map<OrderKey, nat> {
    map[FIRST := 0, OTHER := 0, THIRD := 0]
  }

  function Renewed(other: Settlement): Settlements {
    ThreeRows(Row0(Pending, Some(NEW_TX), None), other, Row0(Pending, Some(NEW_TX), None))
  }

  lemma NewPlanSettles()
    ensures SettlePlan(AllOpen(), NewPlan())
    ensures SetInitiateTx(AllOpen(), NewPlan().Keys, NEW_TX) == Renewed(Row0(Pending, Some(NEW_TX), None))
  {
  }

  /** They are settled by a new tx, which goes through. */
  function SettledAgain(s: State): State {
    Settled(s, NewPlan(), NEW_TX, FILLED, PAYOUT)
      .(dispatched := s.dispatched[TxKey(FILLED, NEW_TX) := Dispatch(PAYOUT, 21)])
  }

  lemma SettleAgain(cfg: Config, p: State -> bool, s: State)
    requires Kept(cfg, p) && p(s) && s.settler == SReady && s.settlements == AllOpen()
    requires NEW_TX !in s.sent && NEW_TX !in cfg.chains
    requires forall tx :: tx in s.dispatched ==> tx.hash != NEW_TX && s.dispatched[tx].message != 21
    ensures p(SettledAgain(s))
  {
    NewPlanSettles();
    Settle(cfg, p, s, NewPlan(), NEW_TX, FIRST);
    DispatchTx(cfg, p, Settled(s, NewPlan(), NEW_TX, FILLED, PAYOUT), TxKey(FILLED, NEW_TX), Dispatch(PAYOUT, 21));
  }

  lemma RenewedIsRead(s: State)
    requires s.settler == SReady && s.settlements == Renewed(Row0(Pending, Some(NEW_TX), None))
    ensures var row := Row0(Pending, Some(NEW_TX), None);
            var todo := [Snap(FIRST, row), Snap(OTHER, row), Snap(THIRD, row)];
            DoVerifyRead(s, todo, s.(settler := SVerify(todo)))
    ensures Checked(s.settlements, Snap(OTHER, Row0(Pending, Some(NEW_TX), None)), false) ==
            Renewed(Row0(Initiated, Some(NEW_TX), None))
  {
  }

  /** Of the three only the other row's tx is found yet. */
  lemma InitiateOther(cfg: Config, p: State -> bool, s: State)
    requires Kept(cfg, p) && p(s) && s.settler == SReady
    requires s.settlements == Renewed(Row0(Pending, Some(NEW_TX), None))
    ensures p(s.(settlements := Renewed(Row0(Initiated, Some(NEW_TX), None))))
  {
    var row := Row0(Pending, Some(NEW_TX), None);
    var first, other, third := Snap(FIRST, row), Snap(OTHER, row), Snap(THIRD, row);
    RenewedIsRead(s);
    StartVerify(cfg, p, s, [first, other, third]);
    SkipCheckSkip(cfg, p, s, first, other, third, s.(settlements := Renewed(Row0(Initiated, Some(NEW_TX), None))));
  }

  lemma SkipCheckSkip(cfg: Config, p: State -> bool, s: State, first: Snap, other: Snap, third: Snap, after: State)
    requires Kept(cfg, p) && p(s.(settler := SVerify([first, other, third])))
    requires after == s.(settlements := Checked(s.settlements, other, false)) && s.settler == SReady
    ensures p(after)
  {
    assert [first, other, third][1..] == [other, third] && [other, third][1..] == [third] && [third][1..] == [];
    SkipVerify(cfg, p, s, [first, other, third]);
    Check(cfg, p, s, [other, third], false);
    SkipVerify(cfg, p, after, [third]);
    Rest(cfg, p, after.(settler := SVerify([])), after);
  }

  function NewBatch(): seq<Snap> {
    [Snap(OTHER, Row0(Initiated, Some(NEW_TX), None))]
  }

  lemma NewBatchCap()
    ensures BatchTerms(NewBatch()) == Terms(100, 1, PAYOUT, 0)
    ensures StoredCap(Cfg(HOUR), BatchTerms(NewBatch()), PAYOUT) == 1
  {
    assert NewBatch()[..0] == [];
    NoMargin(100);
  }

  /** The other row's new batch is handed over, linked and relayed. */
  lemma RelayAgain(p: State -> bool, s: State) returns (s': State)
    requires Kept(Cfg(HOUR), p) && p(s) && s.settler == SReady && s.relayer == RReady && s.lock == None
    requires s.settlements == Renewed(Row0(Initiated, Some(NEW_TX), None)) && s.nextId == 2 && s.transfers.Keys == {1}
    requires s.transfers[1].sentTx == TX && s.transfers[1].message == 20
    requires TxKey(FILLED, NEW_TX) in s.dispatched && s.dispatched[TxKey(FILLED, NEW_TX)] == Dispatch(PAYOUT, 21)
    ensures p(s') && s'.carried == s.carried && s'.transfers.Keys == {1, 2} && s'.transfers[1] == s.transfers[1]
    ensures s'.transfers[2].source == FILLED && s'.transfers[2].sentTx == NEW_TX
    ensures |s'.relays| == |s.relays| + 1 && s.relays <= s'.relays && s'.relays[|s.relays|].id == 2
    ensures OTHER in s'.settlements && s'.settlements[OTHER].destination == FILLED
  {
    var s1 := LinkAgain(p, s);
    SendRelay(Cfg(HOUR), p, s1, 2, 1);
    s' := Relaying(s1, 2, 1);
  }

  lemma LinkAgain(p: State -> bool, s: State) returns (s': State)
    requires Kept(Cfg(HOUR), p) && p(s) && s.settler == SReady && s.relayer == RReady && s.lock == None
    requires s.settlements == Renewed(Row0(Initiated, Some(NEW_TX), None)) && s.nextId == 2 && s.transfers.Keys == {1}
    requires s.transfers[1].sentTx == TX && s.transfers[1].message == 20
    requires TxKey(FILLED, NEW_TX) in s.dispatched && s.dispatched[TxKey(FILLED, NEW_TX)] == Dispatch(PAYOUT, 21)
    ensures p(s') && s'.relayer == RReady && s'.lock == None && s'.carried == s.carried && s'.relays == s.relays
    ensures s'.transfers == s.transfers[2 := Transfer(FILLED, PAYOUT, 21, NEW_TX, TransferPending, Some(1),
            Stamp(s.clock))]
    ensures s'.attempts == s.attempts[2 := []] && s'.clock == s.clock
    ensures OTHER in s'.settlements && s'.settlements[OTHER].destination == FILLED
  {
    var cfg := Cfg(HOUR);
    HandOver(cfg, p, s, NewBatch());
    NewBatchCap();
    var s1 := HandedOver(cfg, s, NewBatch());
    Link(cfg, p, s1, NewBatch(), 2);
    assert NewBatch()[1..] == [];
    s' := s1.(settlements := LinkedRows(s1.settlements, NewBatch(), 2), settler := SReady);
  }

  lemma ToSettledAgain(p: State -> bool)
    requires Kept(Cfg(HOUR), p) && p(Again())
    ensures p(SettledAgain(Again()).(settlements := Renewed(Row0(Initiated, Some(NEW_TX), None))))
  {
    SettleAgain(Cfg(HOUR), p, Again());
    NewPlanSettles();
    InitiateOther(Cfg(HOUR), p, SettledAgain(Again()));
  }

  /** What the state before the second relay comes to. */
  ghost predicate RelayedOnce(s: State) {
    && s.settler == SReady && s.relayer == RReady && s.lock == None && s.nextId == 2
    && s.settlements == Renewed(Row0(Initiated, Some(NEW_TX), None))
    && s.transfers.Keys == {1} && s.transfers[1].source == FILLED && s.transfers[1].sentTx == TX
       && s.transfers[1].message == 20
    && TxKey(FILLED, NEW_TX) in s.dispatched && s.dispatched[TxKey(FILLED, NEW_TX)] == Dispatch(PAYOUT, 21)
    && |s.relays| == 1 && s.relays[0].id == 1
    && OTHER in s.carried && s.carried[OTHER] == {TX, NEW_TX}
  }

  lemma AgainIsRelayedOnce()
    ensures RelayedOnce(SettledAgain(Again()).(settlements := Renewed(Row0(Initiated, Some(NEW_TX), None))))
  {
    DispatchedCarries();
    OneTransfer();
    CarriesBoth(Again());
  }

  lemma OneTransfer()
    ensures Again().transfers.Keys == {1} && Again().transfers[1] == FirstTransfer(HOUR).(status := TransferCancelled)
    ensures Again().carried == Dispatched().carried && Again().relays == [Relay(1, 1, NOW, NOW)]
  {
    var none: seq<Relay> := [];
    assert none + [Relay(1, 1, NOW, NOW)] == [Relay(1, 1, NOW, NOW)];
  }

  lemma DispatchedCarries()
    ensures OTHER in Dispatched().carried && Dispatched().carried[OTHER] == {TX}
  {
    var none: set<Name> := {};
    assert none + {TX} == {TX};
  }

  lemma CarriesBoth(s: State)
    requires OTHER in s.carried && s.carried[OTHER] == {TX}
    ensures OTHER in SettledAgain(s).carried && SettledAgain(s).carried[OTHER] == {TX, NEW_TX}
  {
    assert {TX} + {NEW_TX} == {TX, NEW_TX};
  }

  /** Both txs of the row were relayed. */
  ghost predicate BothRelayed(s: State) {
    && OTHER in s.carried && s.carried[OTHER] == {TX, NEW_TX} && OTHER in s.settlements
    && HasRelay(s, TxKey(s.settlements[OTHER].destination, TX))
    && HasRelay(s, TxKey(s.settlements[OTHER].destination, NEW_TX))
  }

  lemma RelayTheOther(p: State -> bool, s: State) returns (s': State)
    requires Kept(Cfg(HOUR), p) && p(s) && RelayedOnce(s)
    ensures p(s') && BothRelayed(s')
  {
    s' := RelayAgain(p, s);
    assert s'.relays[0] == s.relays[0];
    assert RelayOf(s', 0, TxKey(FILLED, TX)) && RelayOf(s', 1, TxKey(FILLED, NEW_TX));
  }

  /** A run in which two initiate txs of one settlement are both relayed: CancelRelay returned
      true for the first, whose delivery had been sent but not been seen yet. */
  lemma BothTxsAreRelayed() returns (run: Run)
    ensures IsRun(Cfg(HOUR), run) && BothRelayed(run.states[|run.states| - 1])
  {
    var p := Reaches(Cfg(HOUR));
    ToClearing(p);
    ToAgain(p);
    ToSettledAgain(p);
    AgainIsRelayedOnce();
    var s := RelayTheOther(p, SettledAgain(Again()).(settlements := Renewed(Row0(Initiated, Some(NEW_TX), None))));
    run := RunTo(Cfg(HOUR), s);
  }

  // ----- Exactly ten minutes -----

  /** A refund's transfer is submitted for the relay cost cap. */
  function Refunding(): State {
    Empty().(transfers := map[1 := Transfer(FILLED, PAYOUT, 20, TX, TransferPending, Some(5), NOW)], nextId := 2,
             attempts := map[1 := []], sent := map[TX := TimeoutTx(FILLED)],
             dispatched := map[TxKey(FILLED, TX) := Dispatch(PAYOUT, 20)])
  }

  lemma ToRefunding(p: State -> bool)
    requires Kept(Cfg(HOUR), p) && p(Empty())
    ensures p(Refunding())
  {
    var cfg, tx, dispatch := Cfg(HOUR), TxKey(FILLED, TX), Dispatch(PAYOUT, 20);
    var s1 := Empty().(sent := map[TX := TimeoutTx(FILLED)]);
    var s2 := s1.(dispatched := map[tx := dispatch]);
    Go(cfg, p, Empty(), WorldStep(TimeoutBroadcast(FILLED, TX)), s1);
    DispatchTx(cfg, p, s1, tx, dispatch);
    Go(cfg, p, s2, WorldStep(TimeoutLookup(tx)), s2.(worker := WInsert(tx)));
    assert Stamp(NOW) == NOW && !Conflicts(s2.(worker := WInsert(tx)), tx);
    Go(cfg, p, s2.(worker := WInsert(tx)), WorldStep(TimeoutInsert), Refunding());
  }

  lemma ReadPending(s: State)
    requires s.attempts == map[1 := [Attempt(NOW, TxPending)]] && s.verifying == {}
    ensures DoVerifierRead(s, s.(verifying := {(1, 0)}))
  {
    assert s.attempts[1][0].status == TxPending;
  }

  /** A delivery attempt of the only transfer is not found for more than ten minutes. */
  lemma GiveUp(cfg: Config, p: State -> bool, s: State, later: int)
    requires Kept(cfg, p) && p(s) && s.attempts == map[1 := [Attempt(NOW, TxPending)]] && s.verifying == {}
    requires s.clock <= later && later - NOW > TEN_MINUTES
    ensures p(s.(attempts := map[1 := [Attempt(NOW, TxAbandoned)]], clock := later))
  {
    var s1 := s.(verifying := {(1, 0)});
    ReadPending(s);
    Go(cfg, p, s, VerifierStep(VerifierRead), s1);
    Go(cfg, p, s1, WorldStep(Tick(later)), s1.(clock := later));
    assert s1.attempts[1][0 := Attempt(NOW, TxAbandoned)] == [Attempt(NOW, TxAbandoned)];
    Go(cfg, p, s1.(clock := later), VerifierStep(VerifierSet(1, 0, TxAbandoned)),
       s.(attempts := map[1 := [Attempt(NOW, TxAbandoned)]], clock := later));
  }

  /** The first attempt was given up a moment after ten minutes. */
  function Retrying(): State {
    Refunding().(relays := [Relay(1, 5, NOW, NOW)], attempts := map[1 := [Attempt(NOW, TxAbandoned)]],
        clock := NOW + TEN_MINUTES + 1)
  }

  lemma ToRetrying(p: State -> bool)
    requires Kept(Cfg(HOUR), p) && p(Empty())
    ensures p(Retrying())
  {
    ToRefunding(p);
    SendRelay(Cfg(HOUR), p, Refunding(), 1, 5);
    RecordRelay(Cfg(HOUR), p, Refunding(), 1, 5);
    var s := Refunding().(relays := [Relay(1, 5, NOW, NOW)], attempts := map[1 := [Attempt(NOW, TxPending)]]);
    var none: seq<Attempt> := [];
    assert Stamp(NOW) == NOW && none + [Attempt(NOW, TxPending)] == [Attempt(NOW, TxPending)];
    assert Refunding().relays + [Relay(1, 5, NOW, NOW)] == s.relays;
    assert Refunding().attempts[1 := [Attempt(NOW, TxPending)]] == s.attempts;
    assert s == Relayed(Refunding(), 1, 5);
    GiveUp(Cfg(HOUR), p, s, NOW + TEN_MINUTES + 1);
  }

  /** A run in which two attempts of one transfer are stamped exactly ten minutes apart. */
  lemma TenMinutesIsReached() returns (run: Run)
    ensures IsRun(Cfg(HOUR), run)
    ensures var s := run.states[|run.states| - 1];
            && 1 in s.attempts && |s.attempts[1]| == 2
            && s.attempts[1][1].createdAt - s.attempts[1][0].createdAt == TEN_MINUTES
  {
    var p := Reaches(Cfg(HOUR));
    ToRetrying(p);
    SendRelay(Cfg(HOUR), p, Retrying(), 1, 5);
    RecordRelay(Cfg(HOUR), p, Retrying(), 1, 5);
    assert Stamp(NOW + TEN_MINUTES + 1) == NOW + TEN_MINUTES;
    run := RunTo(Cfg(HOUR), Relayed(Retrying(), 1, 5));
  }
}

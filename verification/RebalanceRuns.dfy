/** Runs of the rebalancer for one destination chain. A pass reads the chain's balance, then
    the pending transfers to it, and then submits and records transfers one by one; between
    any two of these steps transfers land or are lost, the tracker takes transfers out of
    the pending ones, and the solver's balance is spent or topped up. */
module RebalanceRuns {
  import opened Basics
  import opened Rebalancing

  datatype Place = InFlight | Landed(at: nat) | Lost

  /** A transfer to the chain. History: `early` if it was in flight and not among the
      pending ones outside the pass that sent it, `raced` if it landed after a pass read the
      balance and left the pending ones before that pass read them. */
  datatype Flow = Flow(amount: nat, place: Place, pending: bool, early: bool, raced: bool)

  /** Where the rebalancer is in its pass; `seen` was the balance at landing count `at`. */
  datatype Pass =
    | Idle
    | GotBalance(seen: int, at: nat, before: nat)
    | Moving(remaining: nat)
    | Recording(index: nat, remaining: nat)

  /** `landings` counts landings, `deposited` sums what else came in. */
  datatype State = State(balance: int, flows: seq<Flow>, pass: Pass, landings: nat, deposited: nat)

  datatype Config = Config(minAllowed: int, target: int)

  // ----- Totals -----

  datatype Kind = Flying | StillPending | Early | Raced | LostPending | Since(at: nat) | Late(at: nat) | Unseen(at: nat)

  predicate Is(t: Flow, kind: Kind) {
    match kind
    case Flying => t.place.InFlight?
    case StillPending => t.pending
    case Early => t.early
    case Raced => t.raced
    case Since(at) => t.place.Landed? && t.place.at >= at
    case Late(at) => t.place.Landed? && t.place.at < at && t.pending
    case LostPending => t.place.Lost? && t.pending
    case Unseen(at) => !t.pending && (t.place.InFlight? || (t.place.Landed? && t.place.at >= at))
  }

  function Part(t: Flow, kind: Kind): nat {
    if Is(t, kind) then t.amount else 0
  }

  function Total(flows: seq<Flow>, kind: Kind): nat {
    if flows == [] then 0 else Total(flows[..|flows| - 1], kind) + Part(flows[|flows| - 1], kind)
  }

  /** What the chain has and what is on its way to it. */
  function Value(s: State): int {
    s.balance + Total(s.flows, Flying)
  }

  lemma {:induction false} TotalUpdate(flows: seq<Flow>, i: nat, t: Flow, kind: Kind)
    requires i < |flows|
    ensures Total(flows[i := t], kind) == Total(flows, kind) - Part(flows[i], kind) + Part(t, kind)
  {
    var last := |flows| - 1;
    if i < last {
      TotalUpdate(flows[..last], i, t, kind);
      assert flows[i := t][..last] == flows[..last][i := t];
    } else {
      assert flows[i := t][..last] == flows[..last];
    }
  }

  lemma TotalAppend(flows: seq<Flow>, t: Flow, kind: Kind)
    ensures Total(flows + [t], kind) == Total(flows, kind) + Part(t, kind)
  {
    assert (flows + [t])[..|flows|] == flows;
  }

  // ----- Steps -----

  datatype Step =
    | ReadBalance
    | ReadPending
    | Submit(amount: nat)
    | Record
    | Stop
    | Land(flow: nat)
    | Lose(flow: nat)
    | TakeOut(flow: nat)
    | Spend(amount: nat)
    | Deposit(amount: nat)

  function PendingNeed(cfg: Config, s: State): int
    requires s.pass.GotBalance?
  {
    Needed(s.pass.seen, Total(s.flows, StillPending), cfg.minAllowed, cfg.target)
  }

  predicate DoReadBalance(s: State, s': State) {
    s.pass.Idle? && s' == s.(pass := GotBalance(s.balance, s.landings, s.deposited))
  }

  predicate DoReadPending(cfg: Config, s: State, s': State) {
    && s.pass.GotBalance?
    && var need := PendingNeed(cfg, s);
    && s' == s.(pass := if need <= 0 then Idle else Moving(need))
  }

  predicate DoSubmit(s: State, amount: nat, s': State) {
    && s.pass.Moving? && 0 < amount <= s.pass.remaining
    && s' == s.(flows := s.flows + [Flow(amount, InFlight, false, false, false)],
                pass := Recording(|s.flows|, s.pass.remaining - amount))
  }

  predicate DoRecord(s: State, s': State) {
    && s.pass.Recording? && s.pass.index < |s.flows|
    && var t := s.flows[s.pass.index];
    && s' == s.(flows := s.flows[s.pass.index := t.(pending := true)], pass := Moving(s.pass.remaining))
  }

  /** The pass ends, fails or the process dies; a submitted transfer may stay unrecorded. */
  predicate DoStop(s: State, s': State) {
    if s.pass.Recording? && s.pass.index < |s.flows|
    then s' == s.(flows := s.flows[s.pass.index := s.flows[s.pass.index].(early := true)], pass := Idle)
    else s' == s.(pass := Idle)
  }

  predicate DoLand(s: State, i: nat, s': State) {
    && i < |s.flows| && s.flows[i].place.InFlight?
    && s' == s.(balance := s.balance + s.flows[i].amount,
                flows := s.flows[i := s.flows[i].(place := Landed(s.landings))],
                landings := s.landings + 1)
  }

  predicate DoLose(s: State, i: nat, s': State) {
    && i < |s.flows| && s.flows[i].place.InFlight?
    && s' == s.(flows := s.flows[i := s.flows[i].(place := Lost)])
  }

  predicate DoTakeOut(s: State, i: nat, s': State) {
    && i < |s.flows| && s.flows[i].pending
    && var t := s.flows[i];
    && s' == s.(flows := s.flows[i := t.(pending := false,
                                         early := t.early || t.place.InFlight?,
                                         raced := t.raced || (s.pass.GotBalance? && Is(t, Since(s.pass.at))))])
  }

  predicate DoSpend(s: State, amount: nat, s': State) {
    s' == s.(balance := s.balance - amount)
  }

  predicate DoDeposit(s: State, amount: nat, s': State) {
    s' == s.(balance := s.balance + amount, deposited := s.deposited + amount)
  }

  predicate Next(cfg: Config, s: State, step: Step, s': State) {
    match step
    case ReadBalance => DoReadBalance(s, s')
    case ReadPending => DoReadPending(cfg, s, s')
    case Submit(amount) => DoSubmit(s, amount, s')
    case Record => DoRecord(s, s')
    case Stop => DoStop(s, s')
    case Land(i) => DoLand(s, i, s')
    case Lose(i) => DoLose(s, i, s')
    case TakeOut(i) => DoTakeOut(s, i, s')
    case Spend(amount) => DoSpend(s, amount, s')
    case Deposit(amount) => DoDeposit(s, amount, s')
  }

  /** A run may start with transfers under way, as long as those in flight are pending. */
  predicate Init(s: State) {
    && s.pass.Idle? && s.deposited == 0
    && forall i :: 0 <= i < |s.flows| ==>
         && !s.flows[i].early && !s.flows[i].raced
         && (s.flows[i].place.InFlight? ==> s.flows[i].pending)
         && (s.flows[i].place.Landed? ==> s.flows[i].place.at < s.landings)
  }

  datatype Run = Run(states: seq<State>, steps: seq<Step>)

  predicate IsRun(cfg: Config, run: Run) {
    && |run.states| == |run.steps| + 1 && Init(run.states[0])
    && forall i :: 0 <= i < |run.steps| ==> Next(cfg, run.states[i], run.steps[i], run.states[i + 1])
  }

  // ----- The invariant -----

  predicate FlowOk(s: State, i: nat)
    requires i < |s.flows|
  {
    var t := s.flows[i];
    && (t.place.Landed? ==> t.place.at < s.landings)
    && (t.place.InFlight? && !t.pending ==> t.early || (s.pass.Recording? && s.pass.index == i))
    && (s.pass.GotBalance? && Is(t, Since(s.pass.at)) ==> t.pending || t.early || t.raced)
  }

  predicate FlowsOk(s: State) {
    forall i :: 0 <= i < |s.flows| ==> FlowOk(s, i)
  }

  predicate PassOk(s: State) {
    match s.pass
    case Idle => true
    case GotBalance(seen, at, before) =>
      at <= s.landings && before <= s.deposited && s.balance <= seen + Total(s.flows, Since(at)) + s.deposited - before
    case Moving(_) => true
    case Recording(index, _) => index < |s.flows|
  }

  function Remaining(pass: Pass): nat {
    if pass.Moving? || pass.Recording? then pass.remaining else 0
  }

  /** What may be exceeded through deposits, early and raced transfers only. */
  function Ceiling(base: int, s: State): int {
    base + s.deposited + Total(s.flows, Early) + Total(s.flows, Raced)
  }

  predicate Inv(base: int, s: State) {
    FlowsOk(s) && PassOk(s) && Value(s) + Remaining(s.pass) <= Ceiling(base, s)
  }

  lemma {:induction false} NoneEarly(flows: seq<Flow>, kind: Kind)
    requires forall i :: 0 <= i < |flows| ==> !Is(flows[i], kind)
    ensures Total(flows, kind) == 0
  {
    if flows != [] {
      NoneEarly(flows[..|flows| - 1], kind);
    }
  }

  /** Every transfer that is in flight, has landed since the balance was read, or landed
      before that and is still pending, is pending, early or raced. */
  lemma {:induction false} Covered(flows: seq<Flow>, at: nat)
    requires forall i :: 0 <= i < |flows| ==> flows[i].place.InFlight? ==> flows[i].pending || flows[i].early
    requires forall i :: 0 <= i < |flows| ==> Is(flows[i], Since(at)) ==>
             flows[i].pending || flows[i].early || flows[i].raced
    ensures Total(flows, Flying) + Total(flows, Since(at)) + Total(flows, Late(at)) <=
            Total(flows, StillPending) + Total(flows, Early) + Total(flows, Raced)
  {
    if flows != [] {
      Covered(flows[..|flows| - 1], at);
    }
  }

  /** The need a pass computes, on top of what the chain has and what is on its way, stays
      within the target but for deposits, early and raced transfers; a transfer that landed
      before the balance was read and is still pending only lowers it. */
  lemma NeedIsLow(cfg: Config, s: State)
    requires FlowsOk(s) && PassOk(s) && s.pass.GotBalance? && PendingNeed(cfg, s) > 0
    ensures Value(s) + PendingNeed(cfg, s) + Total(s.flows, Late(s.pass.at)) <=
            cfg.target + (s.deposited - s.pass.before) + Total(s.flows, Early) + Total(s.flows, Raced)
  {
    forall i | 0 <= i < |s.flows|
      ensures s.flows[i].place.InFlight? ==> s.flows[i].pending || s.flows[i].early
      ensures Is(s.flows[i], Since(s.pass.at)) ==> s.flows[i].pending || s.flows[i].early || s.flows[i].raced
    {
      assert FlowOk(s, i);
    }
    Covered(s.flows, s.pass.at);
  }

  lemma {:induction false} NoneSince(flows: seq<Flow>, at: nat)
    requires forall i :: 0 <= i < |flows| ==> flows[i].place.Landed? ==> flows[i].place.at < at
    ensures Total(flows, Since(at)) == 0
  {
    if flows != [] {
      NoneSince(flows[..|flows| - 1], at);
    }
  }

  lemma ReadBalanceKeeps(base: int, s: State, s': State)
    requires Inv(base, s) && DoReadBalance(s, s')
    ensures Inv(base, s')
  {
    forall i | 0 <= i < |s.flows|
      ensures FlowOk(s', i)
      ensures s.flows[i].place.Landed? ==> s.flows[i].place.at < s.landings
    {
      assert FlowOk(s, i);
    }
    NoneSince(s.flows, s.landings);
  }

  lemma SameFlowsKeep(s: State, s': State)
    requires FlowsOk(s) && s'.flows == s.flows && s'.landings == s.landings && !s.pass.Recording?
             && !s'.pass.GotBalance?
    ensures FlowsOk(s')
  {
    forall i | 0 <= i < |s.flows| ensures FlowOk(s', i) {
      assert FlowOk(s, i);
    }
  }

  lemma ReadPendingKeeps(cfg: Config, base: int, s: State, s': State)
    requires Inv(base, s) && DoReadPending(cfg, s, s') && base >= cfg.target
    ensures Inv(base, s')
  {
    SameFlowsKeep(s, s');
    if PendingNeed(cfg, s) > 0 {
      NeedIsLow(cfg, s);
    }
  }

  lemma SubmitKeeps(base: int, s: State, amount: nat, s': State)
    requires Inv(base, s) && DoSubmit(s, amount, s')
    ensures Inv(base, s')
  {
    var t := Flow(amount, InFlight, false, false, false);
    TotalAppend(s.flows, t, Flying);
    TotalAppend(s.flows, t, Early);
    TotalAppend(s.flows, t, Raced);
    forall i | 0 <= i < |s'.flows| ensures FlowOk(s', i) {
      if i < |s.flows| {
        assert FlowOk(s, i);
      }
    }
  }

  /** A step that changes one flow. */
  lemma OneFlow(s: State, i: nat, t: Flow)
    requires i < |s.flows|
    ensures var flows := s.flows[i := t];
            forall kind :: Total(flows, kind) == Total(s.flows, kind) - Part(s.flows[i], kind) + Part(t, kind)
  {
    forall kind ensures Total(s.flows[i := t], kind) == Total(s.flows, kind) - Part(s.flows[i], kind) + Part(t, kind) {
      TotalUpdate(s.flows, i, t, kind);
    }
  }

  lemma RecordKeeps(base: int, s: State, s': State)
    requires Inv(base, s) && DoRecord(s, s')
    ensures Inv(base, s')
  {
    OneFlow(s, s.pass.index, s'.flows[s.pass.index]);
    forall i | 0 <= i < |s'.flows| ensures FlowOk(s', i) {
      assert FlowOk(s, i);
    }
  }

  lemma StopKeeps(base: int, s: State, s': State)
    requires Inv(base, s) && DoStop(s, s')
    ensures Inv(base, s')
  {
    if s.pass.Recording? {
      OneFlow(s, s.pass.index, s'.flows[s.pass.index]);
    }
    forall i | 0 <= i < |s'.flows| ensures FlowOk(s', i) {
      assert FlowOk(s, i);
    }
  }

  lemma LandKeeps(base: int, s: State, i: nat, s': State)
    requires Inv(base, s) && DoLand(s, i, s')
    ensures Inv(base, s')
  {
    OneFlow(s, i, s'.flows[i]);
    forall j | 0 <= j < |s'.flows| ensures FlowOk(s', j) {
      assert FlowOk(s, j);
    }
  }

  lemma LoseKeeps(base: int, s: State, i: nat, s': State)
    requires Inv(base, s) && DoLose(s, i, s')
    ensures Inv(base, s')
  {
    OneFlow(s, i, s'.flows[i]);
    forall j | 0 <= j < |s'.flows| ensures FlowOk(s', j) {
      assert FlowOk(s, j);
    }
  }

  lemma TakeOutKeeps(base: int, s: State, i: nat, s': State)
    requires Inv(base, s) && DoTakeOut(s, i, s')
    ensures Inv(base, s')
  {
    OneFlow(s, i, s'.flows[i]);
    forall j | 0 <= j < |s'.flows| ensures FlowOk(s', j) {
      assert FlowOk(s, j);
    }
  }

  lemma MoneyKeeps(base: int, s: State, s': State)
    requires Inv(base, s) && s' == s.(balance := s'.balance, deposited := s'.deposited)
    requires s'.deposited >= s.deposited && s'.balance - s.balance <= s'.deposited - s.deposited
    ensures Inv(base, s')
  {
    forall i | 0 <= i < |s'.flows| ensures FlowOk(s', i) {
      assert FlowOk(s, i);
    }
  }

  lemma StepKeeps(cfg: Config, base: int, s: State, step: Step, s': State)
    requires Inv(base, s) && Next(cfg, s, step, s') && base >= cfg.target
    ensures Inv(base, s')
  {
    match step
    case ReadBalance => ReadBalanceKeeps(base, s, s');
    case ReadPending => ReadPendingKeeps(cfg, base, s, s');
    case Submit(amount) => SubmitKeeps(base, s, amount, s');
    case Record => RecordKeeps(base, s, s');
    case Stop => StopKeeps(base, s, s');
    case Land(i) => LandKeeps(base, s, i, s');
    case Lose(i) => LoseKeeps(base, s, i, s');
    case TakeOut(i) => TakeOutKeeps(base, s, i, s');
    case Spend(_) => MoneyKeeps(base, s, s');
    case Deposit(_) => MoneyKeeps(base, s, s');
  }

  // ----- Theorems -----

  lemma {:induction false} Reachable(cfg: Config, run: Run, i: nat)
    requires IsRun(cfg, run) && i < |run.states|
    ensures Inv(Max(Value(run.states[0]), cfg.target), run.states[i])
  {
    if i == 0 {
      forall j | 0 <= j < |run.states[0].flows| ensures FlowOk(run.states[0], j) {}
      NoneEarly(run.states[0].flows, Early);
      NoneEarly(run.states[0].flows, Raced);
    } else {
      Reachable(cfg, run, i - 1);
      StepKeeps(cfg, Max(Value(run.states[0]), cfg.target), run.states[i - 1], run.steps[i - 1], run.states[i]);
    }
  }

  /** In every run, what the chain has and what is on its way exceeds the larger of its
      starting value and its target by no more than what was deposited, what left the
      pending transfers (or never joined them) before it landed, and what landed and left
      them between the two reads of a pass. */
  lemma NoOvershoot(cfg: Config, run: Run, i: nat)
    requires IsRun(cfg, run) && i < |run.states|
    ensures var s := run.states[i];
            Value(s) <= Max(Value(run.states[0]), cfg.target) + s.deposited + Total(s.flows, Early)
                + Total(s.flows, Raced)
  {
    Reachable(cfg, run, i);
  }

  /** Without any of these it never does. */
  lemma NeverAboveTarget(cfg: Config, run: Run, i: nat)
    requires IsRun(cfg, run) && i < |run.states| && run.states[i].deposited == 0
    requires forall j :: 0 <= j < |run.states[i].flows| ==>
             !run.states[i].flows[j].early && !run.states[i].flows[j].raced
    ensures Value(run.states[i]) <= Max(Value(run.states[0]), cfg.target)
  {
    Reachable(cfg, run, i);
    NoneEarly(run.states[i].flows, Early);
    NoneEarly(run.states[i].flows, Raced);
  }

  /** Late status updates only under-fund: when a pass of any run decides to move funds, it
      moves less by all that has landed and is still pending. */
  lemma LateUpdatesUnderfund(cfg: Config, run: Run, i: nat)
    requires IsRun(cfg, run) && i < |run.states| && run.states[i].pass.GotBalance?
             && PendingNeed(cfg, run.states[i]) > 0
    ensures var s := run.states[i];
            PendingNeed(cfg, s) <= cfg.target - Value(s) - Total(s.flows, Late(s.pass.at))
                                   + s.deposited + Total(s.flows, Early) + Total(s.flows, Raced)
  {
    Reachable(cfg, run, i);
    NeedIsLow(cfg, run.states[i]);
  }

  // ----- The bound is reached -----

  lemma {:induction false} Accounted(flows: seq<Flow>, at: nat)
    ensures Total(flows, Flying) + Total(flows, Since(at)) + Total(flows, Late(at)) + Total(flows, LostPending) ==
            Total(flows, StillPending) + Total(flows, Unseen(at))
  {
    if flows != [] {
      Accounted(flows[..|flows| - 1], at);
    }
  }

  /** When exactly a pass overshoots, in any state: when what came in otherwise since its
      balance read, plus the transfers neither of its reads has seen, is more than what it
      saw twice, because it landed before the read and is still pending, or is waiting for
      although it was lost. */
  lemma PassOvershootsExactly(cfg: Config, s: State)
    requires s.pass.GotBalance? && PendingNeed(cfg, s) > 0
    ensures var otherwise := s.balance - s.pass.seen - Total(s.flows, Since(s.pass.at));
            Value(s) + PendingNeed(cfg, s) > cfg.target <==>
            otherwise + Total(s.flows, Unseen(s.pass.at)) > Total(s.flows, Late(s.pass.at))
                + Total(s.flows, LostPending)
  {
    Accounted(s.flows, s.pass.at);
  }

  /** The chain has 50 and a recorded transfer of 50 is on its way. A pass reads the balance
      of 50; the transfer lands and is marked as done; the pass now finds nothing pending
      and sends another 50. */
  function RaceRun(): Run {
    var due := Flow(50, InFlight, true, false, false);
    var landed := due.(place := Landed(0));
    var raced := landed.(pending := false, raced := true);
    Run([State(50, [due], Idle, 0, 0),
         State(50, [due], GotBalance(50, 0, 0), 0, 0),
         State(100, [landed], GotBalance(50, 0, 0), 1, 0),
         State(100, [raced], GotBalance(50, 0, 0), 1, 0),
         State(100, [raced], Moving(50), 1, 0),
         State(100, [raced, Flow(50, InFlight, false, false, false)], Recording(1, 0), 1, 0)],
        [ReadBalance, Land(0), TakeOut(0), ReadPending, Submit(50)])
  }

  lemma TotalOfOne(t: Flow, kind: Kind)
    ensures Total([t], kind) == Part(t, kind)
  {
    assert [t][..0] == [];
  }

  lemma TotalOfTwo(t: Flow, u: Flow, kind: Kind)
    ensures Total([t, u], kind) == Part(t, kind) + Part(u, kind)
  {
    assert [t, u][..1] == [t];
    TotalOfOne(t, kind);
  }

  lemma RaceIsRun()
    ensures IsRun(Config(100, 100), RaceRun())
  {
    var run := RaceRun();
    TotalOfOne(run.states[3].flows[0], StillPending);
    forall i | 0 <= i < |run.steps| ensures Next(Config(100, 100), run.states[i], run.steps[i], run.states[i + 1]) {
      if i == 0 {
      } else if i == 1 {
      } else if i == 2 {
      } else if i == 3 {
      } else {
        assert i == 4;
      }
    }
  }

  /** So the two reads of a pass can overshoot the target although every transfer was
      recorded and none left the pending ones before it landed; the bound is reached. */
  lemma RaceOvershoots()
    ensures var cfg, run := Config(100, 100), RaceRun();
            var s := run.states[5];
            && IsRun(cfg, run)
            && Total(s.flows, Early) == 0 && s.deposited == 0
            && Value(s) == 150 == Max(Value(run.states[0]), cfg.target) + Total(s.flows, Raced)
  {
    RaceIsRun();
    var first, last := RaceRun().states[0].flows, RaceRun().states[5].flows;
    TotalOfOne(first[0], Flying);
    TotalOfTwo(last[0], last[1], Flying);
    TotalOfTwo(last[0], last[1], Early);
    TotalOfTwo(last[0], last[1], Raced);
  }
}

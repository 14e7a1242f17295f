/** The group of log queries of one scan. The queries run side by side and all write their
    error to one shared variable, and a query that has failed looks at that variable to
    decide what to do next. */
module LogScan {

  const ATTEMPTS := 5

  /** How a query ends: with its events, with an error that ends the group, or with neither. */
  datatype Outcome = Answered | Swallowed | Reported

  datatype Query = Asking(attempt: nat) | Asked(attempt: nat, got: bool) | Leaving | Ended(outcome: Outcome)

  /** `err` is set while the shared error variable holds an error, `closed` once the loop that
      hands the queries out has ended by itself. */
  datatype State = State(queries: seq<Query>, err: bool, cancelled: bool, closed: bool)

  datatype Step =
    | Dispatch
    | Close
    | Ask(query: nat, got: bool)
    | Look(query: nat, read: bool)
    | Leave(query: nat)
    | Cancel

  predicate Init(s: State) {
    s == State([], false, false, false)
  }

  /** The group's context is done: an error was returned, or the process is shutting down. */
  predicate Done(s: State) {
    s.cancelled || SomeReported(s)
  }

  predicate SomeReported(s: State) {
    exists k :: 0 <= k < |s.queries| && s.queries[k] == Ended(Reported)
  }

  /** The loop looks at the group before every query it hands out. */
  predicate DoDispatch(n: nat, s: State, s': State) {
    && !s.closed && !Done(s) && |s.queries| < n
    && s' == s.(queries := s.queries + [Asking(0)])
  }

  /** And once more after the last one, before it sees that there is none left. */
  predicate DoClose(n: nat, s: State, s': State) {
    && !s.closed && !Done(s) && |s.queries| == n
    && s' == s.(closed := true)
  }

  predicate DoAsk(s: State, k: nat, got: bool, s': State) {
    && k < |s.queries| && s.queries[k].Asking?
    && s' == s.(queries := s.queries[k := Asked(s.queries[k].attempt, got)], err := !got)
  }

  /** After an attempt: seeing an error the last one is about to return it and an earlier one
      tries again; seeing none, the query reads its events, which may fail too, or has
      nothing to read. */
  function AfterLook(s: State, attempt: nat, got: bool, read: bool): Query {
    if s.err then (if attempt >= ATTEMPTS - 1 then Leaving else Asking(attempt + 1))
    else if !got then Ended(Swallowed)
    else if read then Ended(Answered)
    else Ended(Reported)
  }

  predicate DoLook(s: State, k: nat, read: bool, s': State) {
    && k < |s.queries| && s.queries[k].Asked?
    && s' == s.(queries := s.queries[k := AfterLook(s, s.queries[k].attempt, s.queries[k].got, read)])
  }

  /** What is returned is the shared variable as it is by then. */
  predicate DoLeave(s: State, k: nat, s': State) {
    && k < |s.queries| && s.queries[k].Leaving?
    && s' == s.(queries := s.queries[k := Ended(if s.err then Reported else Swallowed)])
  }

  predicate Next(n: nat, s: State, step: Step, s': State) {
    match step
    case Dispatch => DoDispatch(n, s, s')
    case Close => DoClose(n, s, s')
    case Ask(k, got) => DoAsk(s, k, got, s')
    case Look(k, read) => DoLook(s, k, read, s')
    case Leave(k) => DoLeave(s, k, s')
    case Cancel => s' == s.(cancelled := true)
  }

  datatype Run = Run(states: seq<State>, steps: seq<Step>)

  /** A scan of `n` chunks. */
  ghost predicate IsRun(n: nat, run: Run) {
    && |run.states| == |run.steps| + 1 && Init(run.states[0])
    && forall i :: 0 <= i < |run.steps| ==> Next(n, run.states[i], run.steps[i], run.states[i + 1])
  }

  // ----- How a scan ends -----

  predicate AllEnded(s: State) {
    forall k :: 0 <= k < |s.queries| ==> s.queries[k].Ended?
  }

  /** The loop that hands out queries finds the group done: no orders and no error, even if
      every query was handed out. */
  predicate IsCutShort(s: State) {
    !s.closed && Done(s)
  }

  predicate IsFailed(s: State) {
    s.closed && AllEnded(s) && SomeReported(s)
  }

  /** All queries ended without an error: the orders of those that were answered. */
  predicate IsFound(s: State) {
    s.closed && AllEnded(s) && !SomeReported(s)
  }

  /** A query reported its error before the loop had ended. */
  predicate ReportedEarly(s: State) {
    !s.closed && SomeReported(s)
  }

  function Last(run: Run): State
    requires run.states != []
  {
    run.states[|run.states| - 1]
  }

  lemma {:induction false} QueriesHandedOut(n: nat, run: Run, i: nat)
    requires IsRun(n, run) && i < |run.states|
    ensures |run.states[i].queries| <= n && (run.states[i].closed ==> |run.states[i].queries| == n)
  {
    if i > 0 {
      QueriesHandedOut(n, run, i - 1);
      var before := i - 1;
      assert Next(n, run.states[before], run.steps[before], run.states[before + 1]);
    }
  }

  // ----- Nothing fails -----

  /** No query fails, its events can be read, and the process is not shut down. */
  predicate Succeeds(step: Step) {
    (step.Ask? ==> step.got) && (step.Look? ==> step.read) && !step.Cancel?
  }

  predicate Fine(q: Query) {
    q == Asking(0) || q == Asked(0, true) || q == Ended(Answered)
  }

  ghost predicate AllFine(s: State) {
    !s.err && !s.cancelled && forall k :: 0 <= k < |s.queries| ==> Fine(s.queries[k])
  }

  lemma {:induction false} FineStays(n: nat, run: Run, i: nat)
    requires IsRun(n, run) && i < |run.states| && forall j :: 0 <= j < |run.steps| ==> Succeeds(run.steps[j])
    ensures AllFine(run.states[i])
  {
    if i > 0 {
      FineStays(n, run, i - 1);
      var before := i - 1;
      assert Next(n, run.states[before], run.steps[before], run.states[before + 1]) && Succeeds(run.steps[before]);
    }
  }

  /** Then the scan is neither cut short nor failed, and ends with every query answered. */
  lemma NoFailureFindsAll(n: nat, run: Run)
    requires IsRun(n, run) && forall j :: 0 <= j < |run.steps| ==> Succeeds(run.steps[j])
    ensures !IsCutShort(Last(run)) && !IsFailed(Last(run))
    ensures IsFound(Last(run)) ==>
              |Last(run).queries| == n && forall k :: 0 <= k < n ==> Last(run).queries[k] == Ended(Answered)
  {
    FineStays(n, run, |run.states| - 1);
    QueriesHandedOut(n, run, |run.states| - 1);
    forall k | 0 <= k < |Last(run).queries| ensures Fine(Last(run).queries[k]) {}
  }

  // ----- One query alone -----

  /** A query that runs alone sees its own error. */
  ghost predicate AloneOk(s: State) {
    && |s.queries| <= 1
    && (|s.queries| == 1 && s.queries[0].Asked? ==> s.err == !s.queries[0].got)
    && (|s.queries| == 1 && s.queries[0].Leaving? ==> s.err)
    && (|s.queries| == 1 ==> s.queries[0] != Ended(Swallowed))
  }

  lemma {:induction false} AloneStays(run: Run, i: nat)
    requires IsRun(1, run) && i < |run.states|
    ensures AloneOk(run.states[i])
  {
    if i > 0 {
      AloneStays(run, i - 1);
      var before := i - 1;
      assert Next(1, run.states[before], run.steps[before], run.states[before + 1]);
    }
  }

  lemma ThreeOutcomes(o: Outcome)
    ensures o == Answered || o == Swallowed || o == Reported
  {
  }

  /** The scan of a single chunk ended without its events and without an error. */
  predicate LosesTheChunk(s: State) {
    IsCutShort(s) || (IsFound(s) && |s.queries| == 1 && s.queries[0] != Ended(Answered))
  }

  /** With one query at a time no failure is wiped: a scan of a single chunk that is not shut
      down loses its events exactly when its query reported before the loop had ended. */
  lemma OneChunkExactly(run: Run)
    requires IsRun(1, run) && !Last(run).cancelled
    ensures LosesTheChunk(Last(run)) <==> ReportedEarly(Last(run))
    ensures IsFound(Last(run)) ==> |Last(run).queries| == 1 && Last(run).queries[0] == Ended(Answered)
  {
    AloneStays(run, |run.states| - 1);
    QueriesHandedOut(1, run, |run.states| - 1);
    if IsFound(Last(run)) {
      var query := Last(run).queries[0];
      assert query.Ended? && query == Ended(query.outcome);
      ThreeOutcomes(query.outcome);
    }
  }

  // ----- Three scans -----

  /** Two queries side by side: the first one fails; before it looks, the second one's
      success wipes the error. */
  function SwallowingRun(): Run {
    Run([State([], false, false, false),
         State([Asking(0)], false, false, false),
         State([Asking(0), Asking(0)], false, false, false),
         State([Asking(0), Asking(0)], false, false, true),
         State([Asked(0, false), Asking(0)], true, false, true),
         State([Asked(0, false), Asked(0, true)], false, false, true),
         State([Ended(Swallowed), Asked(0, true)], false, false, true),
         State([Ended(Swallowed), Ended(Answered)], false, false, true)],
        [Dispatch, Dispatch, Close, Ask(0, false), Ask(1, true), Look(0, true), Look(1, true)])
  }

  lemma SwallowingIsRun()
    ensures IsRun(2, SwallowingRun()) && IsFound(Last(SwallowingRun()))
  {
    var run := SwallowingRun();
    forall i | 0 <= i < |run.steps| ensures Next(2, run.states[i], run.steps[i], run.states[i + 1]) {
      if i == 0 {} else if i == 1 {} else if i == 2 {} else if i == 3 {}
      else if i == 4 {} else if i == 5 {} else { assert i == 6; }
    }
  }

  /** The first query's events cannot be read, and the loop sees that when it looks next. */
  function CuttingRun(): Run {
    Run([State([], false, false, false),
         State([Asking(0)], false, false, false),
         State([Asked(0, true)], false, false, false),
         State([Ended(Reported)], false, false, false)],
        [Dispatch, Ask(0, true), Look(0, false)])
  }

  /** It need not be followed by another: with one chunk the last look is enough. */
  lemma CuttingIsRun(n: nat)
    requires n >= 1
    ensures IsRun(n, CuttingRun()) && IsCutShort(Last(CuttingRun())) && !Last(CuttingRun()).cancelled
  {
    var run := CuttingRun();
    forall i | 0 <= i < |run.steps| ensures Next(n, run.states[i], run.steps[i], run.states[i + 1]) {
      if i == 0 {} else if i == 1 {} else { assert i == 2; }
    }
    assert Last(run).queries[0] == Ended(Reported);
  }

  /** The one query of a scan of one chunk is answered. */
  function AnsweringRun(): Run {
    Run([State([], false, false, false),
         State([Asking(0)], false, false, false),
         State([Asking(0)], false, false, true),
         State([Asked(0, true)], false, false, true),
         State([Ended(Answered)], false, false, true)],
        [Dispatch, Close, Ask(0, true), Look(0, true)])
  }

  lemma AnsweringIsRun()
    ensures IsRun(1, AnsweringRun()) && IsFound(Last(AnsweringRun()))
  {
    var run := AnsweringRun();
    forall i | 0 <= i < |run.steps| ensures Next(1, run.states[i], run.steps[i], run.states[i + 1]) {
      if i == 0 {} else if i == 1 {} else if i == 2 {} else { assert i == 3; }
    }
  }
}

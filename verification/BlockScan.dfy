/** The transfer monitor: scanning a range of blocks in chunks, and the stored cursor over
    a run of polling passes. */
module BlockScan {
  import opened Basics
  import LogScan

  const LIMIT := 1000
  const MAX_BLOCKS := 100_000

  type Uint64 = x: int | 0 <= x < UINT64

  function Add64(x: int, y: int): Uint64 {
    (x + y) % UINT64
  }

  function Sub64(x: int, y: int): Uint64 {
    (x - y) % UINT64
  }

  lemma NoWrap(x: int, y: int)
    requires 0 <= x + y < UINT64
    ensures Add64(x, y) == x + y
  {
  }

  // ----- Chunks -----

  /** An inclusive range of blocks. */
  datatype Chunk = Chunk(first: int, last: int)

  predicate In(b: int, c: Chunk) {
    c.first <= b <= c.last
  }

  function ChunkCount(start: int, end: int): nat {
    if start > end then 0 else (end - start) / LIMIT + 1
  }

  function ChunkAt(start: int, end: int, k: int): Chunk {
    Chunk(start + k * LIMIT, Min(start + (k + 1) * LIMIT, end))
  }

  ghost predicate AreChunks(chunks: seq<Chunk>, start: int, end: int) {
    |chunks| == ChunkCount(start, end) && forall k :: 0 <= k < |chunks| ==> chunks[k] == ChunkAt(start, end, k)
  }

  /** The loop that splits the blocks into log queries, in 64-bit arithmetic. */
  method Chunks(startBlock: Uint64, endBlock: Uint64) returns (chunks: seq<Chunk>)
    requires endBlock < UINT64 - LIMIT
    ensures AreChunks(chunks, startBlock, endBlock)
  {
    chunks := [];
    var offset: Uint64 := 0;
    while Add64(startBlock, offset) <= endBlock
      invariant offset == |chunks| * LIMIT
      invariant startBlock + offset <= endBlock + LIMIT || offset == 0
      invariant Add64(startBlock, offset) == startBlock + offset
      invariant forall k :: 0 <= k < |chunks| ==>
                  chunks[k] == ChunkAt(startBlock, endBlock, k) && startBlock + k * LIMIT <= endBlock
      decreases endBlock - startBlock - offset
    {
      var start := Add64(startBlock, offset);
      NoWrap(startBlock + offset, LIMIT);
      NoWrap(offset, LIMIT);
      NoWrap(startBlock, offset + LIMIT);
      var end := Add64(Add64(startBlock, offset), LIMIT);
      if end > endBlock {
        end := endBlock;
      }
      chunks := chunks + [Chunk(start, end)];
      offset := Add64(offset, LIMIT);
    }
  }

  /** The numbers of the chunks a block is in. */
  function Holding(start: int, end: int, b: int): set<int> {
    set k | 0 <= k < ChunkCount(start, end) && In(b, ChunkAt(start, end, k))
  }

  /** Every block of the range is in one chunk, or in exactly two when it is a positive
      multiple of the limit past the start; no other block is in any. */
  lemma ChunksCover(start: int, end: int, b: int)
    ensures !(start <= b <= end) ==> Holding(start, end, b) == {}
    ensures start < b <= end && (b - start) % LIMIT == 0 ==>
              var k := (b - start) / LIMIT; Holding(start, end, b) == {k - 1, k}
    ensures start <= b <= end && (b == start || (b - start) % LIMIT != 0) ==>
            Holding(start, end, b) == {(b - start) / LIMIT}
  {
    if start <= b <= end {
      var q, r := (b - start) / LIMIT, (b - start) % LIMIT;
      assert b == start + q * LIMIT + r && 0 <= q < ChunkCount(start, end);
      forall k ensures k in Holding(start, end, b) <==> k == q || (r == 0 && q > 0 && k == q - 1) {}
    }
  }

  // ----- Scanning -----

  /** An order that was submitted in some block. */
  datatype Event = Event(block: nat, order: OrderId)

  datatype Config = Config(quickStart: bool, back: Uint64, events: nat -> set<OrderId>)

  predicate Happened(cfg: Config, e: Event) {
    e.order in cfg.events(e.block)
  }

  /** The block is in a chunk whose query was answered. */
  ghost predicate AnsweredBlock(start: int, end: int, outcomes: seq<LogScan.Outcome>, b: int) {
    exists k :: 0 <= k < |outcomes| && outcomes[k] == LogScan.Answered && In(b, ChunkAt(start, end, k))
  }

  /** How a scan ends: cut short, without orders and without an error; with an error; or with
      the orders of all queries that were answered. */
  datatype ScanEnd = CutShort | Failed | Found(outcomes: seq<LogScan.Outcome>)

  /** The loop that hands the chunks out, in 64-bit arithmetic. `done` is how many queries had
      been handed out when the loop found the group done, none if it never did; `outcome` is
      how each query ends and `logs` the log query. Orders come out for exactly the blocks in
      an answered chunk, and only if the loop ended by itself and no query reported an error;
      being found done after the last query cuts the scan short like any other time. */
  method FindTransferIntents(
    cfg: Config, startBlock: Uint64, endBlock: Uint64,
    done: Option<nat>, outcome: nat -> LogScan.Outcome, logs: (int, int) -> set<Event>)
    returns (end: ScanEnd, orders: set<Event>)
    requires endBlock < UINT64 - LIMIT
    requires forall lo, hi, e :: e in logs(lo, hi) <==> lo <= e.block <= hi && Happened(cfg, e)
    ensures var n := ChunkCount(startBlock, endBlock);
            && (end == CutShort <==> done.Some? && done.value <= n)
            && (end == Failed <==> end != CutShort && exists k :: 0 <= k < n && outcome(k) == LogScan.Reported)
            && (end.Found? ==> |end.outcomes| == n && forall k :: 0 <= k < n ==> end.outcomes[k] == outcome(k))
    ensures forall e :: e in orders <==>
              end.Found? && Happened(cfg, e) && AnsweredBlock(startBlock, endBlock, end.outcomes, e.block)
  {
    var chunks := Chunks(startBlock, endBlock);
    orders := {};
    var failed := false;
    var outcomes := [];
    for k := 0 to |chunks|
      invariant |outcomes| == k && forall j :: 0 <= j < k ==> outcomes[j] == outcome(j)
      invariant done.Some? ==> done.value >= k
      invariant failed <==> exists j :: 0 <= j < k && outcome(j) == LogScan.Reported
      invariant forall e :: e in orders <==> Happened(cfg, e) && AnsweredBlock(startBlock, endBlock, outcomes, e.block)
    {
      if done == Some(k) {
        return CutShort, {};
      }
      match outcome(k) {
        case Answered => orders := orders + logs(chunks[k].first, chunks[k].last);
        case Swallowed =>
        case Reported => failed := true;
      }
      AnsweredOneMore(startBlock, endBlock, outcomes, outcome(k));
      outcomes := outcomes + [outcome(k)];
    }
    if done == Some(|chunks|) {
      return CutShort, {};
    }
    if failed {
      return Failed, {};
    }
    end := Found(outcomes);
  }

  lemma AnsweredOneMore(start: int, end: int, outcomes: seq<LogScan.Outcome>, o: LogScan.Outcome)
    ensures forall b :: AnsweredBlock(start, end, outcomes + [o], b) <==>
              || AnsweredBlock(start, end, outcomes, b)
              || (o == LogScan.Answered && In(b, ChunkAt(start, end, |outcomes|)))
  {
    var more, n := outcomes + [o], |outcomes|;
    forall b | AnsweredBlock(start, end, outcomes, b) ensures AnsweredBlock(start, end, more, b) {
      var j :| 0 <= j < n && outcomes[j] == LogScan.Answered && In(b, ChunkAt(start, end, j));
      assert more[j] == LogScan.Answered;
    }
    assert more[n] == o;
  }

  // ----- Which scans miss nothing -----

  ghost predicate AllAnswered(start: int, end: int, outcomes: seq<LogScan.Outcome>) {
    forall b :: start <= b <= end ==> AnsweredBlock(start, end, outcomes, b)
  }

  /** The last chunk is a single block, and the chunk before it, which holds it too, was
      answered. */
  predicate Spared(start: int, end: int, outcomes: seq<LogScan.Outcome>, k: int)
    requires 0 <= k < |outcomes|
  {
    0 < k == |outcomes| - 1 && (end - start) % LIMIT == 0 && outcomes[k - 1] == LogScan.Answered
  }

  /** A block only this chunk holds, if it was not answered and is not spared. */
  lemma LostBlock(start: int, end: int, outcomes: seq<LogScan.Outcome>, k: int) returns (b: int)
    requires |outcomes| == ChunkCount(start, end) && 0 <= k < |outcomes|
    requires outcomes[k] != LogScan.Answered && !Spared(start, end, outcomes, k)
    ensures start <= b <= end && !AnsweredBlock(start, end, outcomes, b)
  {
    var first := start + k * LIMIT;
    b := if first + 1 <= end then first + 1 else first;
    ChunksCover(start, end, b);
    forall j | 0 <= j < |outcomes| && In(b, ChunkAt(start, end, j)) ensures outcomes[j] != LogScan.Answered {
      assert j in Holding(start, end, b);
    }
  }

  /** A scan in which every query was handed out covers every block exactly when each query
      was answered, but for a last one that asks for a block the one before asked for too. */
  lemma AllAnsweredExactly(start: int, end: int, outcomes: seq<LogScan.Outcome>)
    requires |outcomes| == ChunkCount(start, end)
    ensures AllAnswered(start, end, outcomes) <==>
            forall k :: 0 <= k < |outcomes| ==> outcomes[k] == LogScan.Answered || Spared(start, end, outcomes, k)
  {
    if k :| 0 <= k < |outcomes| && outcomes[k] != LogScan.Answered && !Spared(start, end, outcomes, k) {
      var b := LostBlock(start, end, outcomes, k);
    } else {
      forall b | start <= b <= end ensures AnsweredBlock(start, end, outcomes, b) {
        var k := (b - start) / LIMIT;
        ChunksCover(start, end, b);
        assert k in Holding(start, end, b);
        if outcomes[k] != LogScan.Answered {
          assert Spared(start, end, outcomes, k);
          assert In(b, ChunkAt(start, end, k - 1));
        }
      }
    }
  }

  // ----- Polling -----

  /** `first` is the block the first pass that moved the cursor started from, counting from
      the last quick start. */
  datatype State = State(cursor: Option<nat>, table: set<Event>, quickStarted: bool, first: Option<nat>)

  /** Whether the database takes all orders and the cursor, refuses an order, or takes the
      orders and refuses the cursor. */
  datatype Storing = AllStored | OrderRefused | CursorRefused

  datatype Step = Pass(latest: Uint64, head: Uint64, scan: LogScan.Run, storing: Storing) | Restart

  function StartBlock(cfg: Config, s: State, latest: Uint64): nat {
    var stored := if s.cursor.Some? then s.cursor.value else 0;
    if cfg.quickStart && !s.quickStarted && Sub64(latest, cfg.back) > stored then Sub64(latest, cfg.back) else stored
  }

  function EndBlock(start: nat, head: Uint64): nat {
    Min(head, Add64(start, MAX_BLOCKS))
  }

  /** The outcomes of a scan in which every query was handed out and ended. */
  function OutcomesOf(s: LogScan.State): (outcomes: seq<LogScan.Outcome>)
    requires LogScan.AllEnded(s)
    ensures |outcomes| == |s.queries| && forall k :: 0 <= k < |outcomes| ==> s.queries[k] == LogScan.Ended(outcomes[k])
  {
    seq(|s.queries|, k requires 0 <= k < |s.queries| => s.queries[k].outcome)
  }

  /** The run of a scan over `n` chunks ended this way. */
  ghost predicate EndsAs(n: nat, scan: LogScan.Run, end: ScanEnd) {
    && LogScan.IsRun(n, scan)
    && var s := LogScan.Last(scan);
       match end
       case CutShort => LogScan.IsCutShort(s)
       case Failed => LogScan.IsFailed(s)
       case Found(outcomes) => LogScan.IsFound(s) && outcomes == OutcomesOf(s)
  }

  lemma FoundOutcomes(n: nat, scan: LogScan.Run, end: ScanEnd)
    requires EndsAs(n, scan, end) && end.Found?
    ensures |end.outcomes| == n
  {
    LogScan.QueriesHandedOut(n, scan, |scan.states| - 1);
  }

  /** The table grows by the orders of the answered blocks. */
  ghost predicate Grows(
    cfg: Config, table: set<Event>, table': set<Event>, start: int, end: int, outcomes: seq<LogScan.Outcome>, all: bool)
  {
    && table <= table'
    && (forall e :: e in table' && e !in table ==> Happened(cfg, e) && AnsweredBlock(start, end, outcomes, e.block))
    && (all ==> forall e: Event :: Happened(cfg, e) && AnsweredBlock(start, end, outcomes, e.block) ==> e in table')
  }

  predicate MovesCursor(end: ScanEnd, storing: Storing) {
    end != Failed && storing == AllStored
  }

  ghost predicate DoPass(cfg: Config, s: State, step: Step, end: ScanEnd, s': State)
    requires step.Pass?
  {
    var start := StartBlock(cfg, s, step.latest);
    var last := EndBlock(start, step.head);
    && EndsAs(ChunkCount(start, last), step.scan, end)
    && s'.quickStarted == (s.quickStarted || cfg.quickStart)
    && (if end.Found? then Grows(cfg, s.table, s'.table, start, last, end.outcomes, step.storing != OrderRefused)
        else s'.table == s.table)
    && (if MovesCursor(end, step.storing)
        then s'.cursor == Some(last) && s'.first == (if s.first.None? then Some(start) else s.first)
        else s'.cursor == s.cursor && s'.first == s.first)
  }

  ghost predicate Next(cfg: Config, s: State, step: Step, s': State) {
    match step
    case Pass(_, _, _, _) => exists end :: DoPass(cfg, s, step, end, s')
    case Restart => s' == s.(quickStarted := false, first := if cfg.quickStart then None else s.first)
  }

  datatype Run = Run(states: seq<State>, steps: seq<Step>)

  ghost predicate IsRun(cfg: Config, run: Run) {
    && |run.states| == |run.steps| + 1 && run.states[0].first == None
    && forall i :: 0 <= i < |run.steps| ==> Next(cfg, run.states[i], run.steps[i], run.states[i + 1])
  }

  /** All orders of these blocks are in the table. */
  ghost predicate Stored(cfg: Config, table: set<Event>, first: int, last: int) {
    forall e: Event :: first <= e.block <= last && Happened(cfg, e) ==> e in table
  }

  ghost predicate BlockStored(cfg: Config, table: set<Event>, b: int) {
    Stored(cfg, table, b, b)
  }

  /** A query whose chunk holds the block was answered. */
  ghost predicate AnsweredIn(start: int, end: int, s: LogScan.State, b: int) {
    exists k :: 0 <= k < |s.queries| && s.queries[k] == LogScan.Ended(LogScan.Answered) && In(b, ChunkAt(start, end, k))
  }

  /** When exactly a pass that moves the cursor loses orders: those of a block are in the
      table afterwards if and only if they were before, or the loop that hands the queries
      out ended by itself and a query that holds the block was answered. */
  lemma LostExactly(cfg: Config, s: State, step: Step, end: ScanEnd, s': State, b: nat)
    requires step.Pass? && DoPass(cfg, s, step, end, s') && MovesCursor(end, step.storing)
    ensures var start := StartBlock(cfg, s, step.latest);
            var scan := LogScan.Last(step.scan);
            BlockStored(cfg, s'.table, b) <==>
            BlockStored(cfg, s.table, b) || (scan.closed && AnsweredIn(start, s'.cursor.value, scan, b))
  {
    var start := StartBlock(cfg, s, step.latest);
    if end.Found? {
      var scan := LogScan.Last(step.scan);
      forall k | 0 <= k < |scan.queries|
        ensures scan.queries[k] == LogScan.Ended(LogScan.Answered) <==> end.outcomes[k] == LogScan.Answered {}
      assert AnsweredIn(start, s'.cursor.value, scan, b) <==> AnsweredBlock(start, s'.cursor.value, end.outcomes, b);
      if BlockStored(cfg, s'.table, b) && !BlockStored(cfg, s.table, b) {
        var e: Event :| b <= e.block <= b && Happened(cfg, e) && e !in s.table;
        assert e in s'.table;
      }
    }
  }

  /** The pass missed nothing: it kept the cursor, or every block of its range is in a chunk
      that was answered. */
  ghost predicate Complete(cfg: Config, s: State, step: Step, end: ScanEnd)
    requires step.Pass?
  {
    var start := StartBlock(cfg, s, step.latest);
    MovesCursor(end, step.storing) ==> end.Found? && AllAnswered(start, EndBlock(start, step.head), end.outcomes)
  }

  ghost predicate CompleteRun(cfg: Config, run: Run)
    requires |run.states| == |run.steps| + 1
  {
    forall i :: 0 <= i < |run.steps| && run.steps[i].Pass? ==>
        CompleteStep(cfg, run.states[i], run.steps[i], run.states[i + 1])
  }

  ghost predicate CompleteStep(cfg: Config, s: State, step: Step, s': State)
    requires step.Pass?
  {
    exists end :: DoPass(cfg, s, step, end, s') && Complete(cfg, s, step, end)
  }

  ghost predicate Covered(cfg: Config, s: State) {
    s.first.Some? ==>
      && s.cursor.Some? && Stored(cfg, s.table, s.first.value, s.cursor.value)
      && (cfg.quickStart ==> s.quickStarted)
  }

  lemma PassCovers(cfg: Config, s: State, step: Step, end: ScanEnd, s': State)
    requires step.Pass? && Covered(cfg, s) && DoPass(cfg, s, step, end, s') && Complete(cfg, s, step, end)
    ensures Covered(cfg, s')
  {
    var start := StartBlock(cfg, s, step.latest);
    if MovesCursor(end, step.storing) {
      forall e: Event | s'.first.value <= e.block <= s'.cursor.value && Happened(cfg, e) ensures e in s'.table {
        if s.first.Some? && e.block <= s.cursor.value {
          assert e in s.table;
        } else {
          assert AnsweredBlock(start, s'.cursor.value, end.outcomes, e.block);
        }
      }
    }
  }

  /** In every run whose passes each answered every block they moved the cursor over, all
      orders from the block the first such pass started from up to the stored cursor are in
      the table, however the head of the chain moved between passes. */
  lemma {:induction false} NothingMissed(cfg: Config, run: Run, i: nat)
    requires IsRun(cfg, run) && i < |run.states| && CompleteRun(cfg, run)
    ensures Covered(cfg, run.states[i])
  {
    if i > 0 {
      NothingMissed(cfg, run, i - 1);
      var before := i - 1;
      var s, step, s' := run.states[before], run.steps[before], run.states[before + 1];
      assert Next(cfg, s, step, s');
      if step.Pass? {
        assert CompleteStep(cfg, s, step, s');
        var end :| DoPass(cfg, s, step, end, s') && Complete(cfg, s, step, end);
        PassCovers(cfg, s, step, end, s');
      }
    }
  }

  /** No log query of the pass failed and the process was not shut down during it. */
  ghost predicate NothingFails(step: Step) {
    step.Pass? ==> forall j :: 0 <= j < |step.scan.steps| ==> LogScan.Succeeds(step.scan.steps[j])
  }

  lemma NothingFailsIsComplete(cfg: Config, s: State, step: Step, end: ScanEnd, s': State)
    requires step.Pass? && DoPass(cfg, s, step, end, s') && NothingFails(step)
    ensures Complete(cfg, s, step, end)
  {
    var start := StartBlock(cfg, s, step.latest);
    var last := EndBlock(start, step.head);
    var n := ChunkCount(start, last);
    LogScan.NoFailureFindsAll(n, step.scan);
    if end.Found? {
      FoundOutcomes(n, step.scan, end);
      forall k | 0 <= k < n ensures end.outcomes[k] == LogScan.Answered {
        assert LogScan.Last(step.scan).queries[k] == LogScan.Ended(end.outcomes[k]);
      }
      AllAnsweredExactly(start, last, end.outcomes);
    }
  }

  /** So a run without a failed log query misses nothing. */
  lemma NoFailedQueryMissesNothing(cfg: Config, run: Run, i: nat)
    requires IsRun(cfg, run) && i < |run.states| && forall j :: 0 <= j < |run.steps| ==> NothingFails(run.steps[j])
    ensures Covered(cfg, run.states[i])
  {
    forall j | 0 <= j < |run.steps| && run.steps[j].Pass?
      ensures CompleteStep(cfg, run.states[j], run.steps[j], run.states[j + 1])
    {
      assert Next(cfg, run.states[j], run.steps[j], run.states[j + 1]) && NothingFails(run.steps[j]);
      var end :| DoPass(cfg, run.states[j], run.steps[j], end, run.states[j + 1]);
      NothingFailsIsComplete(cfg, run.states[j], run.steps[j], end, run.states[j + 1]);
    }
    NothingMissed(cfg, run, i);
  }

  /** A pass over at most a thousand blocks, so of one query at most, that is not shut down in
      the middle and whose query does not report an error before the loop has ended. */
  ghost predicate ShortAndQuiet(cfg: Config, s: State, step: Step) {
    step.Pass? ==>
      && step.scan.states != []
      && !LogScan.Last(step.scan).cancelled && !LogScan.ReportedEarly(LogScan.Last(step.scan))
      && var start := StartBlock(cfg, s, step.latest);
         EndBlock(start, step.head) - start < LIMIT
  }

  lemma ShortPassIsComplete(cfg: Config, s: State, step: Step, end: ScanEnd, s': State)
    requires step.Pass? && DoPass(cfg, s, step, end, s') && ShortAndQuiet(cfg, s, step)
    ensures Complete(cfg, s, step, end)
  {
    var start := StartBlock(cfg, s, step.latest);
    var last := EndBlock(start, step.head);
    var n := ChunkCount(start, last);
    LogScan.QueriesHandedOut(n, step.scan, |step.scan.states| - 1);
    if end.Found? {
      FoundOutcomes(n, step.scan, end);
      if n == 1 {
        LogScan.OneChunkExactly(step.scan);
        assert end.outcomes[0] == LogScan.Answered;
      }
      AllAnsweredExactly(start, last, end.outcomes);
    }
  }

  /** A run of such passes misses nothing, however often its queries fail otherwise. */
  lemma ShortPassesMissNothing(cfg: Config, run: Run, i: nat)
    requires IsRun(cfg, run) && i < |run.states|
    requires forall j :: 0 <= j < |run.steps| ==> ShortAndQuiet(cfg, run.states[j], run.steps[j])
    ensures Covered(cfg, run.states[i])
  {
    forall j | 0 <= j < |run.steps| && run.steps[j].Pass?
      ensures CompleteStep(cfg, run.states[j], run.steps[j], run.states[j + 1])
    {
      assert Next(cfg, run.states[j], run.steps[j], run.states[j + 1])
             && ShortAndQuiet(cfg, run.states[j], run.steps[j]);
      var end :| DoPass(cfg, run.states[j], run.steps[j], end, run.states[j + 1]);
      ShortPassIsComplete(cfg, run.states[j], run.steps[j], end, run.states[j + 1]);
    }
    NothingMissed(cfg, run, i);
  }

  // ----- Orders that are lost -----

  /** One order, in block 5. */
  function OneOrder(): Config {
    Config(false, 0, (b: nat) => if b == 5 then {7} else {})
  }

  /** The first pass covers the order and ends in this way; the second starts after it. */
  function LosingRun(scan: LogScan.Run, head: nat): Run
    requires head <= MAX_BLOCKS
  {
    Run([State(None, {}, false, None), State(Some(head), {}, false, Some(0)),
        State(Some(head + 100), {}, false, Some(0))],
        [Pass(head, head, scan, AllStored), Pass(head + 100, head + 100, LogScan.AnsweringRun(), AllStored)])
  }

  lemma SecondPass(scan: LogScan.Run, head: nat)
    requires 5 < head <= MAX_BLOCKS
    ensures Next(OneOrder(), LosingRun(scan, head).states[1], LosingRun(scan, head).steps[1],
            LosingRun(scan, head).states[2])
  {
    var run := LosingRun(scan, head);
    var outcomes := [LogScan.Answered];
    LogScan.AnsweringIsRun();
    assert OutcomesOf(LogScan.Last(LogScan.AnsweringRun())) == outcomes;
    forall e | Happened(OneOrder(), e) ensures !AnsweredBlock(head, head + 100, outcomes, e.block) {}
    assert DoPass(OneOrder(), run.states[1], run.steps[1], Found(outcomes), run.states[2]);
  }

  ghost predicate LosesTheOrder(run: Run) {
    && IsRun(OneOrder(), run)
    && var s := run.states[|run.states| - 1];
       && Happened(OneOrder(), Event(5, 7)) && Event(5, 7) !in s.table
       && s.first == Some(0) && s.cursor.Some? && s.cursor.value > 5
  }

  /** A failed query whose error another one's success wiped: every query was handed out, no
      error was reported, and an order is lost for good. */
  lemma SwallowedIsLost()
    ensures LosesTheOrder(LosingRun(LogScan.SwallowingRun(), 1500))
  {
    var run := LosingRun(LogScan.SwallowingRun(), 1500);
    var outcomes := [LogScan.Swallowed, LogScan.Answered];
    LogScan.SwallowingIsRun();
    assert OutcomesOf(LogScan.Last(LogScan.SwallowingRun())) == outcomes;
    forall e | Happened(OneOrder(), e) ensures !AnsweredBlock(0, 1500, outcomes, e.block) {}
    assert DoPass(OneOrder(), run.states[0], run.steps[0], Found(outcomes), run.states[1]);
    SecondPass(LogScan.SwallowingRun(), 1500);
  }

  /** A query whose error is reported before the loop has ended: the scan ends without orders
      and without an error, for a range of any length, a single chunk included. */
  lemma CutShortIsLost(head: nat)
    requires 5 < head <= MAX_BLOCKS
    ensures LosesTheOrder(LosingRun(LogScan.CuttingRun(), head))
  {
    var run := LosingRun(LogScan.CuttingRun(), head);
    LogScan.CuttingIsRun(ChunkCount(0, head));
    assert DoPass(OneOrder(), run.states[0], run.steps[0], CutShort, run.states[1]);
    SecondPass(LogScan.CuttingRun(), head);
  }

  // ----- Quick start -----

  /** Where a quick start begins, exactly: the distance back from the latest block when the
      chain is that long, and otherwise, the subtraction wrapping around, far beyond it;
      never before the stored cursor. It begins at most at the latest block or the cursor
      exactly in the first case, or when the cursor itself is beyond the wrapped value. */
  lemma QuickStartExactly(cfg: Config, s: State, latest: Uint64)
    requires cfg.quickStart && !s.quickStarted
    ensures var stored := if s.cursor.Some? then s.cursor.value else 0;
            var wrapped := UINT64 - (cfg.back - latest);
            && (cfg.back <= latest ==> StartBlock(cfg, s, latest) == Max(latest - cfg.back, stored))
            && (cfg.back > latest ==> StartBlock(cfg, s, latest) == Max(wrapped, stored) && wrapped > latest)
            && (StartBlock(cfg, s, latest) <= Max(latest, stored) <==> cfg.back <= latest || wrapped <= stored)
  {
  }

  /** After such a wrap-around on a fresh database the pass scans no block at all exactly
      when the head is not up there too, or the range's end wraps around as well; it stores
      a cursor all the same, and every order up to that is skipped. */
  lemma QuickStartSkips(cfg: Config, s: State, step: Step, end: ScanEnd, s': State)
    requires cfg.quickStart && !s.quickStarted && s.cursor.None?
    requires step.Pass? && step.latest < cfg.back && DoPass(cfg, s, step, end, s')
    ensures var start := UINT64 - (cfg.back - step.latest);
            var short := cfg.back - step.latest;
            && StartBlock(cfg, s, step.latest) == start
            && (EndBlock(start, step.head) < start <==> step.head < start || short <= MAX_BLOCKS)
            && (EndBlock(start, step.head) < start && step.storing == AllStored ==>
                  s'.table == s.table && s'.cursor ==
                      Some(if short <= MAX_BLOCKS then Min(step.head, MAX_BLOCKS - short) else step.head))
  {
    var start := UINT64 - (cfg.back - step.latest);
    QuickStartExactly(cfg, s, step.latest);
    var last := EndBlock(start, step.head);
    if last < start {
      LogScan.QueriesHandedOut(0, step.scan, |step.scan.states| - 1);
    }
  }
}

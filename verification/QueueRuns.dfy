/** The order queue under concurrency. The mutex covers a whole QueueOrder, the last part of
    a pop and a cleanup, but not the receive and the hand-off of a pop; every access to the
    maps, the channel or the clock is one step. */
module QueueRuns {
  import opened Basics

  /** A goroutine started by PopOrder, until it leaves the mutex. */
  datatype Popper = Waiting | Holding(id: OrderId) | Handed(id: OrderId)

  datatype QueuePhase = Checking | Sending | Marking | Leaving(answer: bool)

  datatype PopPhase = Stamping | Deleting | Done

  /** Who holds the mutex, and how far they have got. */
  datatype Lock =
    | Free
    | Queueing(id: OrderId, phase: QueuePhase)
    | Popping(popper: nat, step: PopPhase)
    | Cleaning

  datatype Handoff = Handoff(id: OrderId, at: int)

  datatype Answer = Answer(id: OrderId, queued: bool)

  /** History: the hand-offs to workers and the answers of QueueOrder. */
  datatype State = State(
    requeueTime: map<OrderId, int>,
    inQueue: set<OrderId>,
    channel: seq<OrderId>,
    lock: Lock,
    poppers: map<nat, Popper>,
    clock: int,
    handoffs: seq<Handoff>,
    answers: seq<Answer>)

  datatype Config = Config(capacity: nat, delay: int)

  datatype Action =
    | Tick(now: int)
    | QueueLock(id: OrderId)
    | QueueCheck
    | QueueSend
    | QueueHand(popper: nat)
    | QueueFull
    | QueueMark
    | QueueUnlock
    | PopStart(popper: nat)
    | PopReceive(popper: nat)
    | PopHand(popper: nat)
    | PopLock(popper: nat)
    | PopStamp
    | PopDelete
    | PopUnlock
    | CleanLock
    | CleanOne(id: OrderId)
    | CleanUnlock

  predicate Init(s: State) {
    && s.requeueTime == map[] && s.inQueue == {} && s.channel == [] && s.lock == Free
    && s.poppers == map[] && s.handoffs == [] && s.answers == []
  }

  predicate Refuses(s: State, id: OrderId) {
    id in s.inQueue || (id in s.requeueTime && s.clock < s.requeueTime[id])
  }

  predicate Enabled(cfg: Config, s: State, a: Action) {
    match a
    case Tick(now) => s.clock <= now
    case QueueLock(_) => s.lock == Free
    case QueueCheck => s.lock.Queueing? && s.lock.phase == Checking
    case QueueSend => s.lock.Queueing? && s.lock.phase == Sending && |s.channel| < cfg.capacity
    case QueueHand(p) =>
      s.lock.Queueing? && s.lock.phase == Sending && s.channel == [] && p in s.poppers && s.poppers[p] == Waiting
    case QueueFull => s.lock.Queueing? && s.lock.phase == Sending && |s.channel| >= cfg.capacity
    case QueueMark => s.lock.Queueing? && s.lock.phase == Marking
    case QueueUnlock => s.lock.Queueing? && s.lock.phase.Leaving?
    case PopStart(p) => p !in s.poppers
    case PopReceive(p) => p in s.poppers && s.poppers[p] == Waiting && s.channel != []
    case PopHand(p) => p in s.poppers && s.poppers[p].Holding?
    case PopLock(p) => s.lock == Free && p in s.poppers && s.poppers[p].Handed?
    case PopStamp => s.lock.Popping? && s.lock.step == Stamping && s.lock.popper in s.poppers
        && s.poppers[s.lock.popper].Handed?
    case PopDelete => s.lock.Popping? && s.lock.step == Deleting && s.lock.popper in s.poppers
        && s.poppers[s.lock.popper].Handed?
    case PopUnlock => s.lock.Popping? && s.lock.step == Done
    case CleanLock => s.lock == Free
    case CleanOne(id) => s.lock == Cleaning && id in s.requeueTime && s.clock > s.requeueTime[id]
    case CleanUnlock => s.lock == Cleaning
  }

  function Do(cfg: Config, s: State, a: Action): State
    requires Enabled(cfg, s, a)
  {
    match a
    case Tick(now) => s.(clock := now)
    case QueueLock(id) => s.(lock := Queueing(id, Checking))
    case QueueCheck => s.(lock := Queueing(s.lock.id, if Refuses(s, s.lock.id) then Leaving(false) else Sending))
    case QueueSend => s.(channel := s.channel + [s.lock.id], lock := Queueing(s.lock.id, Marking))
    case QueueHand(p) => s.(poppers := s.poppers[p := Holding(s.lock.id)], lock := Queueing(s.lock.id, Marking))
    case QueueFull => s.(lock := Queueing(s.lock.id, Leaving(false)))
    case QueueMark => s.(inQueue := s.inQueue + {s.lock.id}, lock := Queueing(s.lock.id, Leaving(true)))
    case QueueUnlock => s.(lock := Free, answers := s.answers + [Answer(s.lock.id, s.lock.phase.answer)])
    case PopStart(p) => s.(poppers := s.poppers[p := Waiting])
    case PopReceive(p) => s.(channel := s.channel[1..], poppers := s.poppers[p := Holding(s.channel[0])])
    case PopHand(p) => s.(poppers := s.poppers[p := Handed(s.poppers[p].id)],
        handoffs := s.handoffs + [Handoff(s.poppers[p].id, s.clock)])
    case PopLock(p) => s.(lock := Popping(p, Stamping))
    case PopStamp =>
      s.(requeueTime := s.requeueTime[s.poppers[s.lock.popper].id := s.clock + cfg.delay],
          lock := Popping(s.lock.popper, Deleting))
    case PopDelete =>
      s.(inQueue := s.inQueue - {s.poppers[s.lock.popper].id}, poppers := s.poppers - {s.lock.popper},
          lock := Popping(s.lock.popper, Done))
    case PopUnlock => s.(lock := Free)
    case CleanLock => s.(lock := Cleaning)
    case CleanOne(id) => s.(requeueTime := s.requeueTime - {id})
    case CleanUnlock => s.(lock := Free)
  }

  predicate Next(cfg: Config, s: State, a: Action, s': State) {
    Enabled(cfg, s, a) && s' == Do(cfg, s, a)
  }

  datatype Run = Run(states: seq<State>, actions: seq<Action>)

  predicate IsRun(cfg: Config, run: Run) {
    && |run.states| == |run.actions| + 1 && Init(run.states[0])
    && forall i :: 0 <= i < |run.actions| ==> Next(cfg, run.states[i], run.actions[i], run.states[i + 1])
  }

  // ----- The in-queue map -----

  predicate Has(p: Popper, id: OrderId) {
    p != Waiting && p.id == id
  }

  /** The order is in the channel or in the hands of a pop. */
  ghost predicate Present(channel: seq<OrderId>, poppers: map<nat, Popper>, id: OrderId) {
    id in channel || exists p :: p in poppers && Has(poppers[p], id)
  }

  ghost predicate NoDuplicates(channel: seq<OrderId>, poppers: map<nat, Popper>) {
    && (forall i, j :: 0 <= i < j < |channel| ==> channel[i] != channel[j])
    && (forall p, q :: p in poppers && q in poppers && p != q && poppers[p] != Waiting ==>
        !Has(poppers[q], poppers[p].id))
    && (forall p :: p in poppers && poppers[p] != Waiting ==> poppers[p].id !in channel)
  }

  /** The order whose mark is missing: it was sent but not yet entered in the map. */
  ghost predicate Unmarked(lock: Lock, id: OrderId) {
    lock.Queueing? && lock.phase == Marking && lock.id == id
  }

  ghost predicate MapOk(s: State) {
    forall id :: id in s.inQueue <==> Present(s.channel, s.poppers, id) && !Unmarked(s.lock, id)
  }

  ghost predicate LockOk(lock: Lock, poppers: map<nat, Popper>, channel: seq<OrderId>) {
    match lock
    case Free => true
    case Queueing(id, phase) => (phase == Sending ==> !Present(channel, poppers, id))
        && (phase == Marking ==> Present(channel, poppers, id))
    case Popping(p, step) => step != Done ==> p in poppers && poppers[p].Handed?
    case Cleaning => true
  }

  ghost predicate QueueOk(cfg: Config, s: State) {
    && |s.channel| <= cfg.capacity
    && NoDuplicates(s.channel, s.poppers)
    && MapOk(s)
    && LockOk(s.lock, s.poppers, s.channel)
  }

  // ----- The requeue delay -----

  /** The order is on its way to a hand-off. */
  ghost predicate OnItsWay(s: State, id: OrderId) {
    || id in s.channel
    || (exists p :: p in s.poppers && s.poppers[p] == Holding(id))
    || (s.lock.Queueing? && s.lock.phase == Sending && s.lock.id == id)
  }

  ghost predicate JustHanded(poppers: map<nat, Popper>, id: OrderId) {
    exists p :: p in poppers && poppers[p] == Handed(id)
  }

  /** The delay after this hand-off has passed, is in the table, or is about to be. */
  ghost predicate HandoffOk(cfg: Config, s: State, h: Handoff) {
    && h.at <= s.clock
    && (OnItsWay(s, h.id) ==> h.at + cfg.delay <= s.clock)
    && (|| h.at + cfg.delay <= s.clock
        || (h.id in s.requeueTime && s.requeueTime[h.id] >= h.at + cfg.delay)
        || JustHanded(s.poppers, h.id))
  }

  ghost predicate Apart(cfg: Config, handoffs: seq<Handoff>) {
    forall i, j :: 0 <= i < j < |handoffs| && handoffs[i].id == handoffs[j].id ==>
        handoffs[j].at - handoffs[i].at >= cfg.delay
  }

  ghost predicate DelayOk(cfg: Config, s: State) {
    Apart(cfg, s.handoffs) && forall i :: 0 <= i < |s.handoffs| ==> HandoffOk(cfg, s, s.handoffs[i])
  }

  /** Between the stamp and the delete the table has the delay of every hand-off so far. */
  ghost predicate Stamped(cfg: Config, s: State) {
    s.lock.Popping? && s.lock.step == Deleting && s.lock.popper in s.poppers && s.poppers[s.lock.popper].Handed? ==>
      forall i :: 0 <= i < |s.handoffs| && s.handoffs[i].id == s.poppers[s.lock.popper].id ==>
        s.handoffs[i].id in s.requeueTime && s.requeueTime[s.handoffs[i].id] >= s.handoffs[i].at + cfg.delay
  }

  ghost predicate Inv(cfg: Config, s: State) {
    QueueOk(cfg, s) && DelayOk(cfg, s) && Stamped(cfg, s)
  }

  // ----- Every step keeps the queue -----

  lemma SendKeepsQueue(cfg: Config, s: State)
    requires QueueOk(cfg, s) && Enabled(cfg, s, QueueSend)
    ensures QueueOk(cfg, Do(cfg, s, QueueSend))
  {
    var s' := Do(cfg, s, QueueSend);
    forall id ensures Present(s'.channel, s'.poppers, id) <==> Present(s.channel, s.poppers, id) || id == s.lock.id {
      assert id in s'.channel <==> id in s.channel || id == s.lock.id;
    }
  }

  lemma HandKeepsQueue(cfg: Config, s: State, p: nat)
    requires QueueOk(cfg, s) && Enabled(cfg, s, QueueHand(p))
    ensures QueueOk(cfg, Do(cfg, s, QueueHand(p)))
  {
    var s' := Do(cfg, s, QueueHand(p));
    forall id ensures Present(s'.channel, s'.poppers, id) <==> Present(s.channel, s.poppers, id) || id == s.lock.id {
      PopperChange(s.channel, s.poppers, p, Holding(s.lock.id), id);
    }
  }

  /** What a popper's change does to the orders present. */
  lemma PopperChange(channel: seq<OrderId>, poppers: map<nat, Popper>, p: nat, next: Popper, id: OrderId)
    requires p in poppers ==> poppers[p] == Waiting || (next != Waiting && next.id == poppers[p].id)
    ensures Present(channel, poppers[p := next], id) <==> Present(channel, poppers, id) || Has(next, id)
  {
    var poppers' := poppers[p := next];
    if Has(next, id) {
      assert Has(poppers'[p], id);
    }
    if q :| q in poppers && Has(poppers[q], id) {
      assert Has(poppers'[q], id);
    }
  }

  lemma ReceiveKeepsQueue(cfg: Config, s: State, p: nat)
    requires QueueOk(cfg, s) && Enabled(cfg, s, PopReceive(p))
    ensures QueueOk(cfg, Do(cfg, s, PopReceive(p)))
  {
    var s' := Do(cfg, s, PopReceive(p));
    var first, rest := s.channel[0], s.channel[1..];
    assert s.channel == [first] + rest;
    forall id ensures Present(s'.channel, s'.poppers, id) <==> Present(s.channel, s.poppers, id) {
      PopperChange(rest, s.poppers, p, Holding(first), id);
      assert id in s.channel <==> id == first || id in rest;
    }
  }

  lemma HandoffKeepsQueue(cfg: Config, s: State, p: nat)
    requires QueueOk(cfg, s) && Enabled(cfg, s, PopHand(p))
    ensures QueueOk(cfg, Do(cfg, s, PopHand(p)))
  {
    var s' := Do(cfg, s, PopHand(p));
    forall id ensures Present(s'.channel, s'.poppers, id) <==> Present(s.channel, s.poppers, id) {
      PopperChange(s.channel, s.poppers, p, Handed(s.poppers[p].id), id);
      assert Has(s.poppers[p], s.poppers[p].id);
    }
  }

  lemma DeleteKeepsQueue(cfg: Config, s: State)
    requires QueueOk(cfg, s) && Enabled(cfg, s, PopDelete)
    ensures QueueOk(cfg, Do(cfg, s, PopDelete))
  {
    var p := s.lock.popper;
    var s' := Do(cfg, s, PopDelete);
    forall id
        ensures Present(s'.channel, s'.poppers, id) <==> Present(s.channel, s.poppers, id) && id != s.poppers[p].id {
      if q :| q in s.poppers && Has(s.poppers[q], id) && id != s.poppers[p].id {
        assert q in s'.poppers && Has(s'.poppers[q], id);
      }
    }
  }

  lemma StartKeepsQueue(cfg: Config, s: State, p: nat)
    requires QueueOk(cfg, s) && Enabled(cfg, s, PopStart(p))
    ensures QueueOk(cfg, Do(cfg, s, PopStart(p)))
  {
    var s' := Do(cfg, s, PopStart(p));
    forall id ensures Present(s'.channel, s'.poppers, id) <==> Present(s.channel, s.poppers, id) {
      PopperChange(s.channel, s.poppers, p, Waiting, id);
    }
  }

  /** Steps that leave the channel and the poppers alone. */
  predicate Quiet(a: Action) {
    !a.QueueSend? && !a.QueueHand? && !a.PopReceive? && !a.PopHand? && !a.PopDelete? && !a.PopStart?
  }

  lemma QuietKeepsQueue(cfg: Config, s: State, a: Action)
    requires QueueOk(cfg, s) && Enabled(cfg, s, a) && Quiet(a)
    ensures QueueOk(cfg, Do(cfg, s, a))
  {
  }

  lemma StepKeepsQueue(cfg: Config, s: State, a: Action)
    requires QueueOk(cfg, s) && Enabled(cfg, s, a)
    ensures QueueOk(cfg, Do(cfg, s, a))
  {
    if Quiet(a) {
      QuietKeepsQueue(cfg, s, a);
    } else {
      match a
      case QueueSend => SendKeepsQueue(cfg, s);
      case QueueHand(p) => HandKeepsQueue(cfg, s, p);
      case PopReceive(p) => ReceiveKeepsQueue(cfg, s, p);
      case PopHand(p) => HandoffKeepsQueue(cfg, s, p);
      case PopDelete => DeleteKeepsQueue(cfg, s);
      case PopStart(p) => StartKeepsQueue(cfg, s, p);
    }
  }

  // ----- Every step keeps the delay -----

  /** No step but a successful check puts an order on its way, and none but a delete after
      the stamp ends its being just handed. */
  lemma CheckKeepsDelay(cfg: Config, s: State)
    requires QueueOk(cfg, s) && DelayOk(cfg, s) && Enabled(cfg, s, QueueCheck)
    ensures DelayOk(cfg, Do(cfg, s, QueueCheck))
  {
    var s' := Do(cfg, s, QueueCheck);
    forall i | 0 <= i < |s.handoffs| ensures HandoffOk(cfg, s', s.handoffs[i]) {
      var h := s.handoffs[i];
      assert HandoffOk(cfg, s, h);
      if h.id == s.lock.id && !Refuses(s, h.id) {
        if p :| p in s.poppers && s.poppers[p] == Handed(h.id) {
          assert Has(s.poppers[p], h.id);
        }
      }
    }
  }

  lemma HandoffKeepsDelay(cfg: Config, s: State, p: nat)
    requires QueueOk(cfg, s) && DelayOk(cfg, s) && Enabled(cfg, s, PopHand(p))
    ensures DelayOk(cfg, Do(cfg, s, PopHand(p)))
  {
    var s' := Do(cfg, s, PopHand(p));
    var id := s.poppers[p].id;
    assert OnItsWay(s, id);
    assert s'.poppers[p] == Handed(id);
    forall i | 0 <= i < |s.handoffs| ensures HandoffOk(cfg, s', s.handoffs[i]) {
      var h := s.handoffs[i];
      assert HandoffOk(cfg, s, h);
      if q :| q in s.poppers && s.poppers[q] == Handed(h.id) {
        assert s'.poppers[q] == Handed(h.id);
      }
    }
    NotOnItsWay(cfg, s, p);
  }

  lemma NotOnItsWay(cfg: Config, s: State, p: nat)
    requires QueueOk(cfg, s) && Enabled(cfg, s, PopHand(p))
    ensures !OnItsWay(Do(cfg, s, PopHand(p)), s.poppers[p].id)
  {
    assert Has(s.poppers[p], s.poppers[p].id);
  }

  lemma StampKeepsDelay(cfg: Config, s: State)
    requires QueueOk(cfg, s) && DelayOk(cfg, s) && Enabled(cfg, s, PopStamp)
    ensures DelayOk(cfg, Do(cfg, s, PopStamp))
  {
    var s' := Do(cfg, s, PopStamp);
    forall i | 0 <= i < |s.handoffs| ensures HandoffOk(cfg, s', s.handoffs[i]) {
      assert HandoffOk(cfg, s, s.handoffs[i]);
    }
  }

  lemma DeleteKeepsDelay(cfg: Config, s: State)
    requires QueueOk(cfg, s) && DelayOk(cfg, s) && Enabled(cfg, s, PopDelete) && Stamped(cfg, s)
    ensures DelayOk(cfg, Do(cfg, s, PopDelete))
  {
    var s' := Do(cfg, s, PopDelete);
    forall i | 0 <= i < |s.handoffs| ensures HandoffOk(cfg, s', s.handoffs[i]) {
      var h := s.handoffs[i];
      assert HandoffOk(cfg, s, h);
      if q :| q in s.poppers && s.poppers[q] == Handed(h.id) && h.id != s.poppers[s.lock.popper].id {
        assert s'.poppers[q] == Handed(h.id);
      }
    }
  }

  /** Steps that put no order on its way and forget no hand-off. */
  lemma StillApart(cfg: Config, s: State, s': State)
    requires DelayOk(cfg, s) && s'.handoffs == s.handoffs && s.clock <= s'.clock
    requires forall id :: OnItsWay(s', id) ==> OnItsWay(s, id)
    requires forall id :: JustHanded(s.poppers, id) ==> JustHanded(s'.poppers, id)
    requires forall id :: id in s.requeueTime ==>
               (id in s'.requeueTime && s'.requeueTime[id] == s.requeueTime[id]) || s.requeueTime[id] <= s.clock
    ensures DelayOk(cfg, s')
  {
    forall i | 0 <= i < |s.handoffs| ensures HandoffOk(cfg, s', s.handoffs[i]) {
      assert HandoffOk(cfg, s, s.handoffs[i]);
    }
  }

  predicate Watched(a: Action) {
    a == QueueCheck || a.PopHand? || a == PopStamp || a == PopDelete
  }

  /** Only these steps change who holds which order. */
  predicate Passes(a: Action) {
    a == QueueSend || a.QueueHand? || a.PopReceive? || a.PopStart?
  }

  lemma PassKeepsDelay(cfg: Config, s: State, a: Action)
    requires QueueOk(cfg, s) && DelayOk(cfg, s) && Enabled(cfg, s, a) && Passes(a)
    ensures DelayOk(cfg, Do(cfg, s, a))
  {
    var s' := Do(cfg, s, a);
    forall id | JustHanded(s.poppers, id) ensures JustHanded(s'.poppers, id) {
      var p :| p in s.poppers && s.poppers[p] == Handed(id);
      assert s'.poppers[p] == Handed(id);
    }
    StillApart(cfg, s, s');
  }

  lemma RestKeepsDelay(cfg: Config, s: State, a: Action)
    requires QueueOk(cfg, s) && DelayOk(cfg, s) && Enabled(cfg, s, a) && !Watched(a) && !Passes(a)
    ensures DelayOk(cfg, Do(cfg, s, a))
  {
    StillApart(cfg, s, Do(cfg, s, a));
  }

  lemma StepKeepsStamped(cfg: Config, s: State, a: Action)
    requires Inv(cfg, s) && Enabled(cfg, s, a)
    ensures Stamped(cfg, Do(cfg, s, a))
  {
    if a == PopStamp {
      forall i | 0 <= i < |s.handoffs| ensures HandoffOk(cfg, s, s.handoffs[i]) {}
    }
  }

  lemma StepKeeps(cfg: Config, s: State, a: Action)
    requires Inv(cfg, s) && Enabled(cfg, s, a)
    ensures Inv(cfg, Do(cfg, s, a))
  {
    StepKeepsQueue(cfg, s, a);
    StepKeepsStamped(cfg, s, a);
    if Passes(a) {
      PassKeepsDelay(cfg, s, a);
    } else if !Watched(a) {
      RestKeepsDelay(cfg, s, a);
    } else {
      match a
      case QueueCheck => CheckKeepsDelay(cfg, s);
      case PopHand(p) => HandoffKeepsDelay(cfg, s, p);
      case PopStamp => StampKeepsDelay(cfg, s);
      case PopDelete => DeleteKeepsDelay(cfg, s);
    }
  }

  // ----- Theorems -----

  lemma {:induction false} Reachable(cfg: Config, run: Run, i: nat)
    requires IsRun(cfg, run) && i < |run.states|
    ensures Inv(cfg, run.states[i])
  {
    if i > 0 {
      Reachable(cfg, run, i - 1);
      var before := i - 1;
      assert Next(cfg, run.states[before], run.actions[before], run.states[before + 1]);
      StepKeeps(cfg, run.states[before], run.actions[before]);
    }
  }

  /** Whenever the mutex is free, the map holds exactly the orders in the channel or in the
      hands of a pop; no order is there twice, and the channel is within its capacity. */
  lemma MapIsExact(cfg: Config, run: Run, i: nat)
    requires IsRun(cfg, run) && i < |run.states|
    ensures var s := run.states[i];
            && |s.channel| <= cfg.capacity && NoDuplicates(s.channel, s.poppers)
            && (s.lock == Free ==> forall id :: id in s.inQueue <==> Present(s.channel, s.poppers, id))
  {
    Reachable(cfg, run, i);
  }

  /** Two hand-offs of one order are at least the requeue delay apart, in every run. */
  lemma HandoffsApart(cfg: Config, run: Run, i: nat, j: nat, k: nat)
    requires IsRun(cfg, run) && i < |run.states| && j < k < |run.states[i].handoffs|
    requires run.states[i].handoffs[j].id == run.states[i].handoffs[k].id
    ensures run.states[i].handoffs[k].at - run.states[i].handoffs[j].at >= cfg.delay
  {
    Reachable(cfg, run, i);
  }

  // ----- Cleanup is invisible -----

  /** The entry says nothing any more. */
  predicate Over(requeueTime: map<OrderId, int>, id: OrderId, clock: int) {
    id !in requeueTime || requeueTime[id] <= clock
  }

  ghost predicate SameUntilOver(r: map<OrderId, int>, t: map<OrderId, int>, clock: int) {
    forall id :: (id in r && id in t && r[id] == t[id]) || (Over(r, id, clock) && Over(t, id, clock))
  }

  /** The states differ at most in entries that have run out. */
  ghost predicate Alike(s: State, t: State) {
    s == t.(requeueTime := s.requeueTime) && SameUntilOver(s.requeueTime, t.requeueTime, s.clock)
  }

  lemma AlikeStep(cfg: Config, s: State, t: State, a: Action)
    requires Alike(s, t) && Enabled(cfg, s, a) && !a.CleanOne?
    ensures Enabled(cfg, t, a) && Alike(Do(cfg, s, a), Do(cfg, t, a))
  {
  }

  lemma AlikeClean(cfg: Config, s: State, t: State, id: OrderId)
    requires Alike(s, t) && Enabled(cfg, s, CleanOne(id))
    ensures Alike(Do(cfg, s, CleanOne(id)), t)
  {
  }

  /** The actions of a run without the deletions cleanup makes. */
  function Uncleaned(actions: seq<Action>): seq<Action> {
    if actions == [] then [] else
    var last := |actions| - 1;
    if actions[last].CleanOne? then Uncleaned(actions[..last]) else Uncleaned(actions[..last]) + [actions[last]]
  }

  predicate CanDo(cfg: Config, s: State, actions: seq<Action>)
    decreases |actions|, 0
  {
    actions == [] ||
    (CanDo(cfg, s, actions[..|actions| - 1])
        && Enabled(cfg, DoAll(cfg, s, actions[..|actions| - 1]), actions[|actions| - 1]))
  }

  function DoAll(cfg: Config, s: State, actions: seq<Action>): State
    requires CanDo(cfg, s, actions)
    decreases |actions|, 1
  {
    if actions == [] then s
    else Do(cfg, DoAll(cfg, s, actions[..|actions| - 1]), actions[|actions| - 1])
  }

  lemma {:induction false} CleanupIsInvisible(cfg: Config, s: State, actions: seq<Action>)
    requires CanDo(cfg, s, actions)
    ensures CanDo(cfg, s, Uncleaned(actions))
    ensures Alike(DoAll(cfg, s, actions), DoAll(cfg, s, Uncleaned(actions)))
    ensures DoAll(cfg, s, actions).answers == DoAll(cfg, s, Uncleaned(actions)).answers
    decreases |actions|
  {
    if actions != [] {
      var front, last := actions[..|actions| - 1], actions[|actions| - 1];
      CleanupIsInvisible(cfg, s, front);
      var t := DoAll(cfg, s, Uncleaned(front));
      if last.CleanOne? {
        AlikeClean(cfg, DoAll(cfg, s, front), t, last.id);
      } else {
        AlikeStep(cfg, DoAll(cfg, s, front), t, last);
        assert (Uncleaned(front) + [last])[..|Uncleaned(front)|] == Uncleaned(front);
      }
    }
  }
}

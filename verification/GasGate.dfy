/** The gas gate of the rebalancer: a transfer whose gas is over the limit is refused until
    the gate has been refusing its chain for longer than a timeout, and then accepted up to
    a higher cap. */
module GasGate {
  import opened Basics
  import opened Tables

  /** The setting that switches the timeout off. */
  const NO_TIMEOUT := -1

  datatype Limits = Limits(maxCost: int, timeout: int, cap: int)

  datatype Check = Check(chain: Name, cost: int, now: int)

  predicate Over(limits: Name -> Limits, c: Check, chain: Name) {
    c.chain == chain && c.cost > limits(chain).maxCost
  }

  predicate Within(limits: Name -> Limits, c: Check, chain: Name) {
    c.chain == chain && c.cost <= limits(chain).maxCost
  }

  /** Check `i` is the earliest of its chain over the limit since the last one within it. */
  ghost predicate IsFirstFailure(limits: Name -> Limits, checks: seq<Check>, chain: Name, i: int) {
    && 0 <= i < |checks| && Over(limits, checks[i], chain)
    && (forall j :: i < j < |checks| ==> !Within(limits, checks[j], chain))
    && (forall j :: 0 <= j < i && Over(limits, checks[j], chain) ==>
        exists k :: j < k < i && Within(limits, checks[k], chain))
  }

  /** The time the gate remembers for a chain, check by check. */
  function Memory(limits: Name -> Limits, checks: seq<Check>, chain: Name): Option<int> {
    if checks == [] then None else
    var c := checks[|checks| - 1];
    var before := Memory(limits, checks[..|checks| - 1], chain);
    if Within(limits, c, chain) then None
    else if Over(limits, c, chain) && limits(chain).timeout != NO_TIMEOUT && before.None? then Some(c.now)
    else before
  }

  lemma {:induction false} NoMemory(limits: Name -> Limits, checks: seq<Check>, chain: Name)
    requires limits(chain).timeout != NO_TIMEOUT
    ensures Memory(limits, checks, chain).None? ==>
              forall j :: 0 <= j < |checks| && Over(limits, checks[j], chain) ==>
                  exists k :: j < k < |checks| && Within(limits, checks[k], chain)
  {
    if checks != [] && Memory(limits, checks, chain).None? {
      var last := |checks| - 1;
      NoMemory(limits, checks[..last], chain);
      forall j | 0 <= j < |checks| && Over(limits, checks[j], chain)
        ensures exists k :: j < k < |checks| && Within(limits, checks[k], chain)
      {
        if !Within(limits, checks[last], chain) {
          var k :| j < k < last && Within(limits, checks[..last][k], chain);
          assert Within(limits, checks[k], chain);
        }
      }
    }
  }

  /** What the gate remembers is the time of the first failure. */
  lemma {:induction false} MemoryIsFirstFailure(
    limits: Name -> Limits, checks: seq<Check>, chain: Name) returns (i: int)
    requires limits(chain).timeout != NO_TIMEOUT
    ensures Memory(limits, checks, chain).Some? ==>
              IsFirstFailure(limits, checks, chain, i) && Memory(limits, checks, chain).value == checks[i].now
    ensures Memory(limits, checks, chain).None? ==> forall j :: !IsFirstFailure(limits, checks, chain, j)
  {
    i := 0;
    if Memory(limits, checks, chain).None? {
      NoMemory(limits, checks, chain);
    } else {
      var last := |checks| - 1;
      i := MemoryIsFirstFailure(limits, checks[..last], chain);
      NoMemory(limits, checks[..last], chain);
      if Memory(limits, checks[..last], chain).None? {
        i := last;
      }
      forall j | 0 <= j < i && Over(limits, checks[j], chain)
          ensures exists k :: j < k < i && Within(limits, checks[k], chain) {
        assert checks[..last][j] == checks[j];
        var k :| j < k < i && Within(limits, checks[..last][k], chain);
        assert Within(limits, checks[k], chain);
      }
    }
  }

  lemma FirstFailureIsUnique(limits: Name -> Limits, checks: seq<Check>, chain: Name, i: int, j: int)
    requires IsFirstFailure(limits, checks, chain, i) && IsFirstFailure(limits, checks, chain, j)
    ensures i == j
  {
  }

  class GasGate {
    const limits: Name -> Limits
    var failures: map<Name, int>
    ghost var checks: seq<Check>

    ghost predicate Valid()
      reads this
    {
      forall chain :: (if chain in failures then Some(failures[chain]) else None) == Memory(limits, checks, chain)
    }

    constructor (limits: Name -> Limits)
      ensures Valid() && checks == [] && this.limits == limits
    {
      this.limits := limits;
      failures := map[];
      checks := [];
    }

    /** A check is accepted exactly when its cost is within the limit, or there is a first
        failure more than the timeout ago and the cost is within the cap. */
    method IsGasAcceptable(chain: Name, cost: int, now: int) returns (ok: bool)
      requires Valid()
      modifies this
      ensures Valid() && checks == old(checks) + [Check(chain, cost, now)]
      ensures ok <==>
                || cost <= limits(chain).maxCost
                || (&& limits(chain).timeout != NO_TIMEOUT
                    && cost <= limits(chain).cap
                    && exists i ::
                         && IsFirstFailure(limits, old(checks), chain, i)
                         && now - old(checks)[i].now > limits(chain).timeout)
    {
      ghost var before := checks;
      checks := checks + [Check(chain, cost, now)];
      assert checks[..|before|] == before;
      var limit := limits(chain);
      if cost <= limit.maxCost {
        failures := failures - {chain};
        return true;
      }
      if limit.timeout == NO_TIMEOUT {
        return false;
      }
      ghost var i := MemoryIsFirstFailure(limits, before, chain);
      assert Memory(limits, before, chain) == if chain in failures then Some(failures[chain]) else None;
      if chain !in failures {
        failures := failures[chain := now];
        return false;
      }
      forall j | IsFirstFailure(limits, before, chain, j) ensures i == j {
        FirstFailureIsUnique(limits, before, chain, i, j);
      }
      if now - failures[chain] > limit.timeout {
        return cost <= limit.cap;
      }
      ok := false;
    }
  }
}

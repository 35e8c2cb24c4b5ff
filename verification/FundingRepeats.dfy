/** How often each spend of the funding plan can run at all: the greatest number over all runs,
    funder by funder down the tree. */
module FundingRepeats {
  import opened Arithmetic
  import opened FundingPlan
  import opened FundingProtocol
  import opened FundingProgress
  import opened FundingLimits

  /** The most node n can ever be given: its start, and its own funder's spend as often as
      that can run. */
  ghost function MostGiven(c: Setup, n: nat): nat
    requires Keyed(c) && n < Nodes(c.depth)
    decreases n, 0
  {
    Get(c.start, At(c, n)) + if n > 0 then Paid(MaxRuns(c, (n - 1) / 4), Amount(c, (n - 1) / 4)) else 0
  }

  ghost function MaxRuns(c: Setup, n: nat): nat
    requires Keyed(c) && n < Nodes(c.depth)
    decreases n, 1
  {
    if Cost(c, n) == 0 then 0 else MostGiven(c, n) / Cost(c, n)
  }

  lemma CostIsShared(runs: nat, amount: nat, fee: nat)
    ensures Paid(runs, 4 * amount + fee) == 4 * Paid(runs, amount) + Paid(runs, fee)
  {
  }

  lemma PaidMore(a: nat, b: nat, amount: nat)
    requires a <= b
    ensures Paid(a, amount) <= Paid(b, amount)
  {
    Scale(a, b, amount);
  }

  lemma RunsFit(runs: nat, given: nat, cost: nat)
    requires cost > 0
    ensures Paid(runs, cost) <= given <==> runs <= given / cost
  {
    var q := given / cost;
    assert given == q * cost + given % cost;
    if runs <= q {
      Scale(runs, q, cost);
    } else {
      Scale(q, runs, cost);
    }
  }

  /** A funder's own funder costs at least as much to run. */
  lemma ParentCosts(c: Setup, n: nat)
    requires 0 < n < Nodes(c.depth)
    ensures Cost(c, (n - 1) / 4) >= Cost(c, n) && (n - 1) / 4 < Nodes(c.depth)
  {
    AmountOfParent(c, n);
  }

  lemma {:induction false} RunsBounded(c: Setup, s: State, n: nat)
    requires Keyed(c) && LedgerOk(c, s) && n < Nodes(c.depth) && Cost(c, n) > 0
    ensures RunsAt(c, s, n) <= MaxRuns(c, n)
    decreases n
  {
    var runs := RunsAt(c, s, n);
    assert BalanceOk(c, s, n) && FeesOk(c, s, n);
    if n > 0 {
      var m := (n - 1) / 4;
      ParentCosts(c, n);
      RunsBounded(c, s, m);
      PaidMore(RunsAt(c, s, m), MaxRuns(c, m), Amount(c, m));
    }
    CostIsShared(runs, Amount(c, n), c.minFee);
    RunsFit(runs, MostGiven(c, n), Cost(c, n));
    hide At, Amount, Paid, LedgerOk, MaxRuns;
    assert Paid(runs, Cost(c, n)) <= MostGiven(c, n);
    MaxRunsIs(c, n);
  }

  lemma MaxRunsIs(c: Setup, n: nat)
    requires Keyed(c) && n < Nodes(c.depth) && Cost(c, n) > 0
    ensures MaxRuns(c, n) == MostGiven(c, n) / Cost(c, n)
  {
  }

  // ----- Reaching the bound

  /** The batch of n has just begun, and its funder was given all it can be given. */
  ghost predicate FullyGiven(c: Setup, s: State, n: nat)
    requires Planned(c) && n < Nodes(c.depth)
  {
    && Orderly(c, s, {}) && s.passes == 0 && s.verified == {}
    && s.batch < |c.ends| && Lo(c, s.batch) <= n < Hi(c, s.batch)
    && c.plan[n] in s.pending && RunsAt(c, s, n) == 0 && Get(s.bank, At(c, n)) >= MostGiven(c, n)
  }

  lemma {:induction false} Reach(c: Setup, n: nat) returns (events: seq<Event>)
    requires Planned(c) && HoldsTotal(c) && n < Nodes(c.depth) && Cost(c, n) > 0
    ensures Possible(c, Initial(c), events) && FullyGiven(c, RunFrom(c, Initial(c), events), n)
    decreases n, 0
  {
    var b := FindBatch(c, n, |c.ends|);
    if n == 0 {
      events := ReachBatch(c, b);
      hide RunFrom, Possible;
      AtStartGiven(c, RunFrom(c, Initial(c), events), n);
    } else {
      var m := (n - 1) / 4;
      ParentCosts(c, n);
      var first := ReachMost(c, m);
      var s := RunFrom(c, Initial(c), first);
      assert m < Lo(c, b);
      if b <= s.batch {
        LaterStarts(c, b, s.batch);
      }
      NoneExcused(c, Lo(c, b));
      InitialLedger(c);
      hide RunFrom, Possible, HoldsTotal, Excusable, Cost, MaxRuns, LedgerOk, QueueOk, Prompt;
      var rest := ReachFrom(c, s, b, {});
      RunsCompose(c, Initial(c), first, rest);
      events := first + rest;
      var t := RunFrom(c, Initial(c), events);
      RunsGrow(c, s, rest, m);
      EveryRunKeepsLedger(c, Initial(c), events);
      RunsBounded(c, t, m);
      AtStartGiven(c, t, n);
    }
  }

  lemma AtStartGiven(c: Setup, s: State, n: nat)
    requires Planned(c) && Orderly(c, s, {}) && AtStart(c, s) && s.batch < |c.ends|
    requires n < |c.plan| && Lo(c, s.batch) <= n < Hi(c, s.batch)
    requires n > 0 ==> RunsAt(c, s, (n - 1) / 4) == MaxRuns(c, (n - 1) / 4)
    ensures FullyGiven(c, s, n)
  {
    InBatch(c, s.batch, n);
    assert BalanceOk(c, s, n);
    PaidStep(0, Amount(c, n));
    hide At, Amount, Paid, LedgerOk, Prompt, MaxRuns, BatchAt;
  }

  /** In some run spend n runs as often as it ever can. */
  lemma {:induction false} ReachMost(c: Setup, n: nat) returns (events: seq<Event>)
    requires Planned(c) && HoldsTotal(c) && n < Nodes(c.depth) && Cost(c, n) > 0
    ensures Possible(c, Initial(c), events)
    ensures var t := RunFrom(c, Initial(c), events);
            && Orderly(c, t, {}) && t.passes == 0 && t.batch < |c.ends| && Lo(c, t.batch) <= n
            && RunsAt(c, t, n) == MaxRuns(c, n)
    decreases n, 1
  {
    var first := Reach(c, n);
    var s := RunFrom(c, Initial(c), first);
    MaxRunsIs(c, n);
    RunsFit(MaxRuns(c, n), MostGiven(c, n), Cost(c, n));
    NoneExcused(c, Hi(c, s.batch));
    hide RunFrom, Possible, HoldsTotal, Excusable, Cost, MaxRuns, MostGiven, Orderly, At;
    var rest := RunTimes(c, s, n, MaxRuns(c, n));
    NoLooksKeepOrderly(c, s, rest, {});
    RunsCompose(c, Initial(c), first, rest);
    events := first + rest;
  }

  /** Some run has spend n run exactly k times. */
  ghost predicate CanRun(c: Setup, n: nat, k: nat)
    requires Planned(c) && n < Nodes(c.depth)
  {
    exists events :: Possible(c, Initial(c), events) && RunsAt(c, RunFrom(c, Initial(c), events), n) == k
  }

  lemma RunsFree(c: Setup, n: nat, k: nat)
    requires Planned(c) && HoldsTotal(c) && n < Nodes(c.depth) && Cost(c, n) == 0
    ensures CanRun(c, n, k)
  {
    var first := ReachSpend(c, n);
    var s := RunFrom(c, Initial(c), first);
    assert Paid(k, Cost(c, n)) == 0;
    hide RunFrom, Possible, Planned, HoldsTotal, Cost, Orderly, At;
    var rest := RunTimes(c, s, n, k);
    RunsCompose(c, Initial(c), first, rest);
  }

  /** The greatest number of times spend n runs in any run is what it was most given divided
      by what one run costs, and some run reaches it; a spend that costs nothing can run any
      number of times. */
  lemma MostRuns(c: Setup, n: nat)
    requires Planned(c) && HoldsTotal(c) && n < Nodes(c.depth)
    ensures Cost(c, n) > 0 ==> CanRun(c, n, MaxRuns(c, n)) && forall k: nat :: CanRun(c, n, k) ==> k <= MaxRuns(c, n)
    ensures Cost(c, n) == 0 ==> forall k: nat :: CanRun(c, n, k)
  {
    hide MaxRuns, Cost;
    if Cost(c, n) > 0 {
      var most := ReachMost(c, n);
      forall k: nat | CanRun(c, n, k)
        ensures k <= MaxRuns(c, n)
      {
        var events :| Possible(c, Initial(c), events) && RunsAt(c, RunFrom(c, Initial(c), events), n) == k;
        InitialLedger(c);
        EveryRunKeepsLedger(c, Initial(c), events);
        RunsBounded(c, RunFrom(c, Initial(c), events), n);
      }
    } else {
      forall k: nat
        ensures CanRun(c, n, k)
      {
        RunsFree(c, n, k);
      }
    }
  }
}

/** When the balances that `fund_keys` leaves behind are exact: with a fixed fee and new keys,
    the precise condition under which every destination ends with exactly `lamports`. */
module FundingExact {
  import opened FundingPlan
  import opened FundingProtocol
  import opened FundingProgress
  import opened FundingLimits

  // ----- Destinations that are done

  /** A destination that is done: it has run its spend, or, funding nobody, has been paid. */
  ghost predicate Settled(c: Setup, s: State, p: nat)
    requires Keyed(c) && 0 < p <= |c.dests|
  {
    if p < Nodes(c.depth) then RunsAt(c, s, p) > 0 else RunsAt(c, s, (p - 1) / 4) > 0
  }

  /** Every destination that is done holds exactly `lamports`. */
  ghost predicate HoldsExact(c: Setup, s: State)
    requires Keyed(c)
  {
    forall p :: 0 < p <= |c.dests| && Settled(c, s, p) ==> Get(s.bank, At(c, p)) == c.lamports
  }

  ghost predicate OneFeeAt(c: Setup, s: State, p: nat)
    requires Keyed(c) && p < Nodes(c.depth)
  {
    p > 0 ==> FeesAt(c, s, p) == if RunsAt(c, s, p) > 0 then c.maxFee else 0
  }

  /** Every funder past the source was charged exactly when it ran. */
  ghost predicate OneFee(c: Setup, s: State)
    requires Keyed(c)
  {
    forall p :: 0 <= p < Nodes(c.depth) ==> OneFeeAt(c, s, p)
  }

  /** A funder past the source holds nothing before it is paid, the whole allotment before
      its spend runs, and exactly `lamports` after. */
  lemma OneFeeBalance(c: Setup, s: State, p: nat)
    requires Keyed(c) && NewKeys(c) && LedgerOk(c, s) && Once(c, s) && OneFee(c, s) && 0 < p < Nodes(c.depth)
    requires c.lamports > 0 || c.maxFee > 0
    ensures var b := Get(s.bank, At(c, p));
            && (RunsAt(c, s, p) == 1 ==> b == c.lamports)
            && (RunsAt(c, s, p) == 0 ==> b == 0 || b == 4 * Amount(c, p) + c.lamports + c.maxFee)
  {
    var m := (p - 1) / 4;
    assert BalanceOk(c, s, p) && OneFeeAt(c, s, p) && RunsAt(c, s, p) <= 1 && RunsAt(c, s, m) <= 1;
    AmountOfParent(c, p);
    AmountAtLeast(c, p);
    PaidStep(0, Amount(c, p));
    PaidStep(0, Amount(c, m));
    hide At, Amount, Paid, Level, LedgerOk, OneFee, Once;
  }

  lemma LandKeepsOneFee(c: Setup, s: State, n: nat)
    requires Planned(c) && NewKeys(c) && LedgerOk(c, s) && Once(c, s) && OneFee(c, s)
    requires n == 0 || c.maxFee == 0 || c.lamports < c.maxFee
    requires c.lamports > 0 || c.maxFee > 0
    requires Enabled(c, s, Land(n, c.maxFee))
    ensures OneFee(c, Apply(c, s, Land(n, c.maxFee)))
  {
    var s' := Execute(s, c.plan[n], c.maxFee);
    assert PaysChildren(c, n, c.plan[n]) && OneFeeAt(c, s, n) && RunsAt(c, s, n) <= 1;
    AmountAtLeast(c, n);
    if n > 0 {
      OneFeeBalance(c, s, n);
    }
    hide Execute, At, Amount, PaysChildren, LedgerOk, NewKeys, Once;
    forall p | 0 <= p < Nodes(c.depth)
      ensures OneFeeAt(c, s', p)
    {
      assert OneFeeAt(c, s, p);
      ExecuteAt(c, s, n, c.plan[n], c.maxFee, p);
    }
  }

  lemma SameOneFee(c: Setup, s: State, s': State)
    requires Keyed(c) && OneFee(c, s) && s'.fees == s.fees && s'.runs == s.runs
    ensures OneFee(c, s')
  {
    forall p | 0 <= p < Nodes(c.depth)
      ensures OneFeeAt(c, s', p)
    {
      assert OneFeeAt(c, s, p);
    }
  }

  lemma StepKeepsOneFee(c: Setup, s: State, e: Event)
    requires Planned(c) && NewKeys(c) && LedgerOk(c, s) && Once(c, s) && OneFee(c, s) && Enabled(c, s, e)
    requires c.minFee == c.maxFee && (Nodes(c.depth) == 1 || c.maxFee == 0 || c.lamports < c.maxFee)
    requires c.lamports > 0 || c.maxFee > 0
    ensures OneFee(c, Apply(c, s, e))
  {
    var s' := Apply(c, s, e);
    assert e.Land? ==> e.n < Nodes(c.depth) && e.fee == c.maxFee;
    assert !e.Land? ==> s'.runs == s.runs && s'.fees == s.fees;
    hide LedgerOk, Once, OneFee, Planned, NewKeys, Apply;
    if e.Land? {
      LandKeepsOneFee(c, s, e.n);
    } else {
      SameOneFee(c, s, s');
    }
  }

  lemma {:induction false} EveryRunKeepsOneFee(c: Setup, s: State, events: seq<Event>)
    requires Planned(c) && NewKeys(c) && ReplaySafe(c) && LedgerOk(c, s) && Once(c, s) && OneFee(c, s)
    requires c.minFee == c.maxFee && (Nodes(c.depth) == 1 || c.maxFee == 0 || c.lamports < c.maxFee)
    requires (c.lamports > 0 || c.maxFee > 0) && Possible(c, s, events)
    ensures OneFee(c, RunFrom(c, s, events))
    decreases |events|
  {
    hide LedgerOk, Once, OneFee, Planned, NewKeys, ReplaySafe, Enabled, Apply;
    if |events| > 0 {
      StepKeepsOneFee(c, s, events[0]);
      StepKeepsLedger(c, s, events[0]);
      StepKeepsOnce(c, s, events[0]);
      EveryRunKeepsOneFee(c, Apply(c, s, events[0]), events[1..]);
    }
  }

  lemma {:induction false} FreeLevel(below: nat)
    ensures Level(below, 0, 0) == 0
  {
    if below > 0 {
      FreeLevel(below - 1);
    }
  }

  lemma {:induction false} FirstPaysMost(c: Setup, n: nat)
    requires n < Nodes(c.depth)
    ensures Amount(c, n) <= Amount(c, 0)
  {
    if n > 0 {
      AmountOfParent(c, n);
      FirstPaysMost(c, (n - 1) / 4);
    }
  }

  /** When the source's spend moves nothing, nothing ever moves. */
  lemma NothingMoves(c: Setup, s: State, p: nat)
    requires Keyed(c) && NewKeys(c) && LedgerOk(c, s) && 0 < p <= |c.dests| && Amount(c, 0) == 0
    ensures Get(s.bank, At(c, p)) == 0 == c.lamports
  {
    var m := (p - 1) / 4;
    assert BalanceOk(c, s, p);
    AmountAtLeast(c, 0);
    FirstPaysMost(c, m);
    hide At, LedgerOk, Amount;
    assert Paid(RunsAt(c, s, m), Amount(c, m)) == 0;
  }

  lemma PaidLeaf(c: Setup, s: State, p: nat)
    requires Keyed(c) && NewKeys(c) && LedgerOk(c, s) && 0 < p <= |c.dests| && p >= Nodes(c.depth)
    ensures Get(s.bank, At(c, p)) == Paid(RunsAt(c, s, (p - 1) / 4), c.lamports)
  {
    assert BalanceOk(c, s, p) && FeesOk(c, s, p);
    AmountOfParent(c, p);
    PaidStep(0, Amount(c, p));
    hide At, Amount, Paid, LedgerOk;
  }

  lemma SettledIsExact(c: Setup, s: State, p: nat)
    requires Keyed(c) && NewKeys(c) && LedgerOk(c, s) && Once(c, s) && OneFee(c, s)
    requires (c.lamports > 0 || c.maxFee > 0) && 0 < p <= |c.dests| && Settled(c, s, p)
    ensures Get(s.bank, At(c, p)) == c.lamports
  {
    if p < Nodes(c.depth) {
      assert RunsAt(c, s, p) <= 1;
      OneFeeBalance(c, s, p);
    } else {
      assert RunsAt(c, s, (p - 1) / 4) <= 1;
      PaidLeaf(c, s, p);
      PaidStep(1, c.lamports);
    }
  }

  lemma FixedFeeIsExact(c: Setup, events: seq<Event>)
    requires Planned(c) && NewKeys(c) && c.minFee == c.maxFee && Amount(c, 0) > 0 && c.depth > 0
    requires Get(c.start, c.source) < 8 * Amount(c, 0) + 2 * c.maxFee
    requires c.depth == 1 || c.maxFee == 0 || c.lamports < c.maxFee
    requires Possible(c, Initial(c), events)
    ensures HoldsExact(c, RunFrom(c, Initial(c), events))
  {
    var s := RunFrom(c, Initial(c), events);
    FeeOrLamports(c);
    NewKeysSafeIff(c);
    InitialLedger(c);
    EveryRunKeepsLedger(c, Initial(c), events);
    assert Once(c, Initial(c));
    assert forall p :: 0 <= p < Nodes(c.depth) ==> OneFeeAt(c, Initial(c), p);
    hide LedgerOk, RunFrom, Possible, At, NewKeys, Planned, ReplaySafe, Amount;
    EveryRunKeepsOnce(c, Initial(c), events);
    EveryRunKeepsOneFee(c, Initial(c), events);
    forall p | 0 < p <= |c.dests| && Settled(c, s, p)
      ensures Get(s.bank, At(c, p)) == c.lamports
    {
      SettledIsExact(c, s, p);
    }
  }

  lemma FeeOrLamports(c: Setup)
    requires Amount(c, 0) > 0
    ensures c.lamports > 0 || c.maxFee > 0
  {
    FreeLevel(c.depth - 1);
  }

  // ----- What `fund_keys` leaves behind

  /** Every destination holds exactly `lamports`. */
  ghost predicate AllExact(c: Setup, s: State)
    requires Keyed(c)
  {
    forall p :: 0 < p <= |c.dests| ==> Get(s.bank, At(c, p)) == c.lamports
  }

  lemma NotFoolable(c: Setup)
    requires Planned(c) && NewKeys(c) && c.programBalance < c.lamports
    ensures Foolable(c) == {}
  {
    forall n | 0 <= n < Nodes(c.depth)
      ensures !CanFool(c, n)
    {
      AmountAtLeast(c, n);
      hide Amount, At;
    }
  }

  lemma ReturnedIsExact(c: Setup, events: seq<Event>)
    requires Planned(c) && NewKeys(c) && c.minFee == c.maxFee && c.depth > 0 && c.programBalance < c.lamports
    requires Get(c.start, c.source) < 8 * Amount(c, 0) + 2 * c.maxFee
    requires c.depth == 1 || c.maxFee == 0 || c.lamports < c.maxFee
    requires Possible(c, Initial(c), events) && Finished(c, RunFrom(c, Initial(c), events))
    ensures AllExact(c, RunFrom(c, Initial(c), events))
  {
    var s := RunFrom(c, Initial(c), events);
    AmountAtLeast(c, 0);
    FixedFeeIsExact(c, events);
    NotFoolable(c);
    NewKeysSafeIff(c);
    hide RunFrom, Possible, Planned, NewKeys, ReplaySafe, At, Amount, Finished;
    forall p | 0 < p <= |c.dests|
      ensures Get(s.bank, At(c, p)) == c.lamports
    {
      FinishedOnce(c, events, if p < Nodes(c.depth) then p else (p - 1) / 4);
    }
  }

  lemma LastBatch(c: Setup, b: nat)
    requires Planned(c) && b <= |c.ends| && Lo(c, b) >= |c.plan|
    ensures b == |c.ends|
  {
  }

  lemma LastSpend(c: Setup)
    requires c.depth > 0
    ensures Amount(c, Nodes(c.depth) - 1) == c.lamports
  {
    LastFunder(c);
    RoundOfNode(Nodes(c.depth) - 1, c.depth - 1);
  }

  /** The last spend is taken for done though it never ran: what it should have paid is
      missing, and what it should have spent is still there. */
  lemma SpoiledByFooling(c: Setup) returns (events: seq<Event>)
    requires Planned(c) && HoldsTotal(c) && NewKeys(c) && c.depth > 0 && Amount(c, 0) > 0
    requires c.programBalance >= c.lamports
    ensures Possible(c, Initial(c), events) && Finished(c, RunFrom(c, Initial(c), events))
    ensures !AllExact(c, RunFrom(c, Initial(c), events))
  {
    var n := Nodes(c.depth) - 1;
    LastSpend(c);
    events := PassedByFooling(c, n);
    var s := RunFrom(c, Initial(c), events);
    hide RunFrom, Possible, Prompt;
    LastBatch(c, s.batch);
    if c.lamports > 0 {
      PaidLeaf(c, s, 4 * n + 1);
      PaidStep(0, c.lamports);
    } else {
      UnspentFunder(c, s, n);
    }
  }

  lemma UnspentFunder(c: Setup, s: State, n: nat)
    requires Planned(c) && NewKeys(c) && LedgerOk(c, s) && Amount(c, 0) > 0 && c.lamports == 0
    requires n < Nodes(c.depth) && Amount(c, n) == 0 && RunsAt(c, s, n) == 0 && FeesAt(c, s, n) == 0
    requires n > 0 ==> RunsAt(c, s, (n - 1) / 4) > 0
    ensures n > 0 && Get(s.bank, At(c, n)) > 0
  {
    assert n > 0;
    FeeOrLamports(c);
    AmountOfParent(c, n);
    assert BalanceOk(c, s, n);
    PaidStep(0, Amount(c, n));
    PaidStep(RunsAt(c, s, (n - 1) / 4), Amount(c, (n - 1) / 4));
    hide At, Amount, Paid, LedgerOk;
  }

  /** A funder past the source runs, a second signed copy of its spend is charged, and the
      rest is carried out as usual. */
  lemma SpoiledByCharge(c: Setup) returns (events: seq<Event>)
    requires Planned(c) && HoldsTotal(c) && NewKeys(c) && c.depth > 1 && c.minFee == c.maxFee
    requires Get(c.start, c.source) < 8 * Amount(c, 0) + 2 * c.maxFee && 0 < c.maxFee <= c.lamports
    ensures Possible(c, Initial(c), events) && Finished(c, RunFrom(c, Initial(c), events))
    ensures !AllExact(c, RunFrom(c, Initial(c), events))
  {
    var first := ReachCharged(c);
    var s := RunFrom(c, Initial(c), first);
    NoneExcused(c, Nodes(c.depth));
    InitialLedger(c);
    hide RunFrom, Possible, Planned, HoldsTotal, NewKeys, Orderly, Excusable, Careful, Finished;
    var rest := CanAlwaysFinish(c, s, {});
    RunsCompose(c, Initial(c), first, rest);
    events := first + rest;
    KeptByCare(c, s, rest, 0);
    KeptByCare(c, s, rest, 1);
    EveryRunKeepsLedger(c, Initial(c), events);
    ChargedBalance(c, RunFrom(c, Initial(c), events));
  }

  lemma KeptByCare(c: Setup, s: State, events: seq<Event>, p: nat)
    requires Planned(c) && Possible(c, s, events) && Careful(c, s, events)
    requires p < Nodes(c.depth) && RunsAt(c, s, p) > 0
    ensures var t := RunFrom(c, s, events);
            && RunsAt(c, t, p) == RunsAt(c, s, p) && FeesAt(c, t, p) == FeesAt(c, s, p)
            && Get(t.sent, At(c, p)) >= Get(s.sent, At(c, p))
  {
    hide RunFrom, Possible, Planned, At;
    SparedRun(c, s, events, p);
  }

  lemma ChargedBalance(c: Setup, s: State)
    requires Planned(c) && NewKeys(c) && LedgerOk(c, s) && c.depth > 1 && 0 < c.maxFee <= c.lamports
    requires RunsAt(c, s, 0) == 1 && RunsAt(c, s, 1) == 1 && FeesAt(c, s, 1) == 2 * c.maxFee
    ensures !AllExact(c, s)
  {
    assert BalanceOk(c, s, 1);
    AmountOfParent(c, 1);
    PaidStep(1, Amount(c, 0));
    PaidStep(1, Amount(c, 1));
    hide At, Amount, Paid, LedgerOk;
    assert Get(s.bank, At(c, 1)) < c.lamports;
  }

  /** Past the source the batches start with spend 1. */
  lemma SecondBatch(c: Setup)
    requires Planned(c) && c.depth > 1
    ensures 1 < |c.ends| && Lo(c, 1) == 1 < Hi(c, 1) <= |c.plan| && c.plan[1] == BatchAt(c, 1)[0]
    ensures Nodes(c.depth) > 1
  {
    assert Nodes(c.depth) > 1;
    assert |c.ends| > 0;
    assert Lo(c, 0) < Hi(c, 0) <= 4 * Lo(c, 0) + 1;
    assert |c.ends| > 1;
    assert Lo(c, 1) < Hi(c, 1) <= |c.plan|;
  }

  lemma ReachCharged(c: Setup) returns (events: seq<Event>)
    requires Planned(c) && HoldsTotal(c) && NewKeys(c) && c.depth > 1 && c.minFee == c.maxFee
    requires Get(c.start, c.source) < 8 * Amount(c, 0) + 2 * c.maxFee && 0 < c.maxFee <= c.lamports
    ensures Nodes(c.depth) > 1 && Possible(c, Initial(c), events)
    ensures var s := RunFrom(c, Initial(c), events);
            Orderly(c, s, {}) && RunsAt(c, s, 0) == 1 && RunsAt(c, s, 1) == 1 && FeesAt(c, s, 1) == 2 * c.maxFee
  {
    SecondBatch(c);
    NewKeysSafeIff(c);
    var first := ReachBatch(c, 1);
    ReplaySafety(c, first, 0);
    var s := RunFrom(c, Initial(c), first);
    NoneExcused(c, Hi(c, s.batch));
    ParentHasRun(c, s, 1, {});
    hide RunFrom, Possible, ReplaySafe, NewKeys, HoldsTotal, Excusable, AtStart;
    var twice := ChargedTwice(c, s);
    NoLooksKeepOrderly(c, s, twice, {});
    RunsCompose(c, Initial(c), first, twice);
    events := first + twice;
  }

  lemma ChargedTwice(c: Setup, s: State) returns (events: seq<Event>)
    requires Planned(c) && NewKeys(c) && c.depth > 1 && c.minFee == c.maxFee && 0 < c.maxFee <= c.lamports
    requires Orderly(c, s, {}) && s.batch == 1 && AtStart(c, s) && RunsAt(c, s, 0) == 1
    ensures Nodes(c.depth) > 1 && Possible(c, s, events) && NoLooks(events)
    ensures var t := RunFrom(c, s, events);
            RunsAt(c, t, 0) == 1 && RunsAt(c, t, 1) == 1 && FeesAt(c, t, 1) == 2 * c.maxFee
  {
    SecondBatch(c);
    var f, tx := c.maxFee, c.plan[1];
    assert PaysChildren(c, 1, tx) && BalanceOk(c, s, 1) && RunsAt(c, s, 1) == 0 && FeesAt(c, s, 1) == 0;
    AmountOfParent(c, 1);
    AmountAtLeast(c, 1);
    PaidStep(0, Amount(c, 1));
    PaidStep(1, Amount(c, 0));
    assert s.verified == {} && s.passes == 0 && c.plan[1] in s.pending;
    hide RunFrom, Possible, Paid, At, Amount, Execute, Copies, PaysChildren, Orderly, AtStart, LedgerOk, QueueOk;
    assert Get(s.bank, At(c, 1)) == 4 * Amount(c, 1) + c.lamports + f;
    var first := RunOnce(c, s, 1);
    SparedRun(c, s, first, 0);
    var t := RunFrom(c, s, first);
    ResendRun(c, t, 1, f);
    RunsCompose(c, s, first, Resend(1, f));
    events := first + Resend(1, f);
    ExecuteAt(c, Apply(c, t, Send), 1, tx, f, 1);
    ExecuteAt(c, Apply(c, t, Send), 1, tx, f, 0);
  }

  // ----- A second copy that lands late

  /** The source's spend ran, was not seen, and a second copy of it is out. */
  lemma SecondCopy(c: Setup) returns (events: seq<Event>)
    requires Planned(c) && HoldsTotal(c) && c.depth > 0 && c.minFee == c.maxFee
    ensures Possible(c, Initial(c), events)
    ensures var s := RunFrom(c, Initial(c), events);
            && Orderly(c, s, {}) && RunsAt(c, s, 0) == 1 && FeesAt(c, s, 0) == c.maxFee
            && Get(s.sent, At(c, 0)) > 0
  {
    FirstSpendIsPending(c);
    var s, f := Initial(c), c.maxFee;
    InitialOrderly(c, {});
    NoneExcused(c, Hi(c, 0));
    assert PaysChildren(c, 0, c.plan[0]);
    AmountAtLeast(c, 0);
    assert Get(s.bank, At(c, 0)) >= Cost(c, 0) && RunsAt(c, s, 0) == 0 && FeesAt(c, s, 0) == 0;
    hide RunFrom, Possible, Copies, At, Cost, Level, Orderly, Excusable, HoldsTotal, BatchAt, PaysChildren;
    var first := RunOnce(c, s, 0);
    var once := RunFrom(c, s, first);
    ResendRun(c, once, 0, f);
    ThenOne(c, s, first, Send);
    events := first + [Send];
    hide Planned;
    NoLooksKeepOrderly(c, s, events, {});
  }

  /** Everything else is carried out as usual; then the second copy lands, and whatever the
      first child held before, it now holds more. */
  lemma SpoiledByRepeat(c: Setup) returns (events: seq<Event>)
    requires Planned(c) && HoldsTotal(c) && c.depth > 0 && c.minFee == c.maxFee && Amount(c, 0) > 0
    requires Get(c.start, c.source) >= 8 * Amount(c, 0) + 2 * c.maxFee
    ensures Possible(c, Initial(c), events) && Finished(c, RunFrom(c, Initial(c), events))
    ensures !AllExact(c, RunFrom(c, Initial(c), events))
  {
    var first := SecondCopy(c);
    var s := RunFrom(c, Initial(c), first);
    FirstSpendIsPending(c);
    NoneExcused(c, Nodes(c.depth));
    InitialLedger(c);
    hide RunFrom, Possible, Planned, HoldsTotal, Orderly, Excusable, Careful, Finished, Amount, At;
    var rest := CanAlwaysFinish(c, s, {});
    RunsCompose(c, Initial(c), first, rest);
    KeptByCare(c, s, rest, 0);
    events := first + rest;
    var t := RunFrom(c, Initial(c), events);
    EveryRunKeepsLedger(c, Initial(c), events);
    LateLanding(c, t);
    if AllExact(c, t) {
      ThenOne(c, Initial(c), events, Land(0, c.maxFee));
      events := events + [Land(0, c.maxFee)];
    }
  }

  lemma LateLanding(c: Setup, s: State)
    requires Planned(c) && c.depth > 0 && c.minFee == c.maxFee && Amount(c, 0) > 0 && LedgerOk(c, s)
    requires Get(c.start, c.source) >= 8 * Amount(c, 0) + 2 * c.maxFee
    requires RunsAt(c, s, 0) == 1 && FeesAt(c, s, 0) == c.maxFee && Get(s.sent, At(c, 0)) > 0
    requires Finished(c, s)
    ensures Enabled(c, s, Land(0, c.maxFee))
    ensures var t := Apply(c, s, Land(0, c.maxFee)); Finished(c, t) && (AllExact(c, s) ==> !AllExact(c, t))
  {
    FirstSpendIsPending(c);
    assert PaysChildren(c, 0, c.plan[0]) && BalanceOk(c, s, 0);
    PaidStep(1, Amount(c, 0));
    var t := Apply(c, s, Land(0, c.maxFee));
    assert t.batch == s.batch;
    ExecuteAt(c, s, 0, c.plan[0], c.maxFee, 1);
    hide At, Amount, Paid, LedgerOk, Execute, PaysChildren;
    assert Get(t.bank, At(c, 1)) == Get(s.bank, At(c, 1)) + Amount(c, 0);
  }

  /** With a fixed fee and new keys, every run in which `fund_keys` has returned leaves every
      destination with exactly `lamports` if and only if verification cannot be fooled, the
      source cannot pay twice, and no replay can be charged: nobody past the source spends,
      there is no fee, or `lamports` does not cover one. (Or nothing is paid at all.) */
  lemma ExactUnderFixedFeeIff(c: Setup)
    requires Planned(c) && HoldsTotal(c) && NewKeys(c) && c.depth > 0 && c.minFee == c.maxFee
    ensures (forall events :: Possible(c, Initial(c), events) && Finished(c, RunFrom(c, Initial(c), events))
               ==> AllExact(c, RunFrom(c, Initial(c), events)))
            <==> || Amount(c, 0) == 0
                 || (&& c.programBalance < c.lamports
                     && Get(c.start, c.source) < 8 * Amount(c, 0) + 2 * c.maxFee
                     && (c.depth == 1 || c.maxFee == 0 || c.lamports < c.maxFee))
  {
    if Amount(c, 0) == 0 {
      FreeIsExact(c);
    } else if c.programBalance >= c.lamports {
      var events := SpoiledByFooling(c);
    } else if Get(c.start, c.source) >= 8 * Amount(c, 0) + 2 * c.maxFee {
      var events := SpoiledByRepeat(c);
    } else if c.depth > 1 && 0 < c.maxFee <= c.lamports {
      var events := SpoiledByCharge(c);
    } else {
      forall events | Possible(c, Initial(c), events) && Finished(c, RunFrom(c, Initial(c), events))
        ensures AllExact(c, RunFrom(c, Initial(c), events))
      {
        ReturnedIsExact(c, events);
      }
    }
  }

  lemma FreeIsExact(c: Setup)
    requires Planned(c) && NewKeys(c) && Amount(c, 0) == 0
    ensures forall events :: Possible(c, Initial(c), events) ==> AllExact(c, RunFrom(c, Initial(c), events))
  {
    forall events | Possible(c, Initial(c), events)
      ensures AllExact(c, RunFrom(c, Initial(c), events))
    {
      InitialLedger(c);
      EveryRunKeepsLedger(c, Initial(c), events);
      forall p | 0 < p <= |c.dests|
        ensures Get(RunFrom(c, Initial(c), events).bank, At(c, p)) == c.lamports
      {
        NothingMoves(c, RunFrom(c, Initial(c), events), p);
      }
    }
  }
}

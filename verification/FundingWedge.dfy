/** When the funding protocol can wedge: keys may already hold money from an earlier, interrupted
    funding, and the precise condition on what they hold under which `fund_keys` can always
    still return. */
module FundingWedge {
  import opened Options
  import opened FundingPlan
  import opened FundingProtocol
  import opened FundingProgress
  import opened FundingLimits

  /** Every funder whose own funder can be passed over unrun can be passed over itself, or
      holds enough for its spend at any fee from the start. */
  ghost predicate Rescuable(c: Setup)
    requires Keyed(c)
  {
    forall n :: 0 <= n < Nodes(c.depth) ==> CanProceed(c, n, Foolable(c))
  }

  /** `fund_keys` can still return. */
  ghost predicate CanReturn(c: Setup, s: State) {
    exists more :: Possible(c, s, more) && Finished(c, RunFrom(c, s, more))
  }

  lemma NeverWedged(c: Setup, sofar: seq<Event>)
    requires Planned(c) && HoldsTotal(c) && Rescuable(c) && Possible(c, Initial(c), sofar)
    ensures CanReturn(c, RunFrom(c, Initial(c), sofar))
  {
    InitialOrderly(c, Foolable(c));
    assert Excusable(c, Foolable(c), Nodes(c.depth));
    hide Orderly, Planned, HoldsTotal, Excusable, Foolable, Rescuable, RunFrom, Possible;
    EveryRunIsOrderly(c, Initial(c), sofar);
    var more := CanAlwaysFinish(c, RunFrom(c, Initial(c), sofar), Foolable(c));
  }

  // ----- Lost spends

  /** Spend g never ran, `fund` is past it, and no copy of it is left. */
  ghost predicate Lost(c: Setup, s: State, g: nat)
    requires Keyed(c) && g < Nodes(c.depth)
  {
    g < Lo(c, s.batch) && Get(s.sent, At(c, g)) == 0 && RunsAt(c, s, g) == 0
  }

  lemma StepKeepsLost(c: Setup, s: State, e: Event, g: nat, excused: set<nat>)
    requires Planned(c) && QueueOk(c, s, excused) && Enabled(c, s, e) && g < Nodes(c.depth) && Lost(c, s, g)
    ensures Lost(c, Apply(c, s, e), g)
  {
    if e.Send? {
      NoOtherCopy(c, s, g);
    } else if e.Land? || e.Expire? {
      assert PaysChildren(c, e.n, c.plan[e.n]);
      AtInjective(c, e.n, g);
      if e.Land? {
        ExecuteAt(c, s, e.n, c.plan[e.n], e.fee, g);
        assert Execute(s, c.plan[e.n], e.fee).batch == s.batch;
      }
    }
    hide Execute, At, Amount, PaysChildren, Copies;
  }

  lemma {:induction false} EveryRunKeepsLost(c: Setup, s: State, events: seq<Event>, g: nat)
    requires Planned(c) && Inv(c, s, Foolable(c)) && Possible(c, s, events)
    requires g < Nodes(c.depth) && Lost(c, s, g)
    ensures Lost(c, RunFrom(c, s, events), g)
    decreases |events|
  {
    assert Keyed(c);
    hide LedgerOk, QueueOk, Planned, Foolable, Enabled, Apply, Lost;
    if |events| > 0 {
      StepKeepsLost(c, s, events[0], g, Foolable(c));
      StepKeepsQueue(c, s, events[0]);
      StepKeepsLedger(c, s, events[0]);
      EveryRunKeepsLost(c, Apply(c, s, events[0]), events[1..], g);
    }
  }

  /** The blockhashes of all copies of spend g can become too old. */
  lemma {:induction false} ExpireAll(c: Setup, s: State, g: nat, excused: set<nat>) returns (events: seq<Event>)
    requires Planned(c) && Orderly(c, s, excused) && g < |c.plan|
    ensures Possible(c, s, events)
    ensures var t := RunFrom(c, s, events);
            t == s.(sent := t.sent) && Orderly(c, t, excused) && Get(t.sent, At(c, g)) == 0
    decreases Get(s.sent, At(c, g))
  {
    assert PaysChildren(c, g, c.plan[g]);
    if Get(s.sent, At(c, g)) == 0 {
      events := [];
    } else {
      ExpireKeepsQueue(c, s, g, excused);
      var t := Apply(c, s, Expire(g));
      SameLedger(c, s, t);
      SamePrompt(c, s, t, excused);
      OneEvent(c, s, Expire(g));
      hide LedgerOk, QueueOk, Prompt, Planned, At, PaysChildren;
      var rest := ExpireAll(c, t, g, excused);
      RunsCompose(c, s, [Expire(g)], rest);
      events := [Expire(g)] + rest;
    }
  }

  // ----- Stuck spends

  ghost predicate Listed(c: Setup, s: State, n: nat)
    requires Keyed(c) && n < |c.plan| == Nodes(c.depth)
  {
    c.plan[n] in s.pending && At(c, n) !in s.verified
  }

  ghost predicate Poor(c: Setup, s: State, n: nat)
    requires Keyed(c) && n < Nodes(c.depth)
  {
    RunsAt(c, s, n) == 0 && Get(s.bank, At(c, n)) < 4 * Amount(c, n) + c.minFee
  }

  /** Spend n is pending and cannot be faked, its funder cannot pay for it, and the spend that
      should have paid its funder is lost. */
  ghost predicate Stuck(c: Setup, s: State, n: nat)
    requires Keyed(c) && 0 < n < |c.plan| == Nodes(c.depth)
  {
    !CanFool(c, n) && Listed(c, s, n) && Poor(c, s, n) && Lost(c, s, (n - 1) / 4)
  }

  lemma LandKeepsStuck(c: Setup, s: State, m: nat, fee: nat, n: nat)
    requires Planned(c) && 0 < n < |c.plan| && Stuck(c, s, n) && Enabled(c, s, Land(m, fee))
    ensures Poor(c, Apply(c, s, Land(m, fee)), n)
  {
    assert PaysChildren(c, m, c.plan[m]) && m != (n - 1) / 4;
    ExecuteAt(c, s, m, c.plan[m], fee, n);
    hide Execute, At, Amount, PaysChildren, CanFool, Planned;
  }

  lemma ObserveKeepsStuck(c: Setup, s: State, i: nat, answers: seq<Option<nat>>, n: nat)
    requires Planned(c) && Inv(c, s, Foolable(c)) && 0 < n < |c.plan| && Stuck(c, s, n)
    requires Enabled(c, s, Observe(i, answers))
    ensures At(c, n) !in Apply(c, s, Observe(i, answers)).verified
  {
    var tx := s.pending[i];
    var m := PendingIndex(c, s, tx);
    assert PaysChildren(c, m, tx);
    AtInjective(c, m, n);
    if Arrived(answers, tx.lamports) && m == n {
      ObservedIsDone(c, s, n, tx, answers);
      assert false;
    }
  }

  lemma RetainKeepsStuck(c: Setup, s: State, n: nat)
    requires Planned(c) && 0 < n < |c.plan| && Stuck(c, s, n)
    ensures c.plan[n] in Unverified(s.pending, s.verified)
  {
    assert PaysChildren(c, n, c.plan[n]);
    UnverifiedHolds(s.pending, s.verified, c.plan[n]);
  }

  lemma StepKeepsListed(c: Setup, s: State, e: Event, n: nat)
    requires Planned(c) && Inv(c, s, Foolable(c)) && 0 < n < |c.plan| && Stuck(c, s, n) && Enabled(c, s, e)
    ensures Listed(c, Apply(c, s, e), n)
  {
    assert Listed(c, s, n) && Keyed(c) && |c.plan| == Nodes(c.depth);
    assert e.Land? ==> Apply(c, s, e).pending == s.pending && Apply(c, s, e).verified == s.verified;
    hide Execute, At, Inv, Unverified, Stuck, Planned, Keyed, Arrived, Truthful, Copies, Foolable, BatchAt;
    if e.Observe? {
      ObserveKeepsStuck(c, s, e.i, e.answers, n);
    } else if e.Retain? {
      RetainKeepsStuck(c, s, n);
    }
  }

  lemma StepKeepsPoor(c: Setup, s: State, e: Event, n: nat)
    requires Planned(c) && 0 < n < |c.plan| && Stuck(c, s, n) && Enabled(c, s, e)
    ensures Poor(c, Apply(c, s, e), n)
  {
    if e.Land? {
      LandKeepsStuck(c, s, e.n, e.fee, n);
    } else {
      assert Apply(c, s, e).runs == s.runs && Apply(c, s, e).bank == s.bank;
      hide Apply, At, Amount, CanFool, Listed, Lost, Planned;
    }
  }

  lemma StepKeepsStuck(c: Setup, s: State, e: Event, n: nat)
    requires Planned(c) && Inv(c, s, Foolable(c)) && 0 < n < |c.plan| && Stuck(c, s, n) && Enabled(c, s, e)
    ensures Stuck(c, Apply(c, s, e), n)
  {
    assert Keyed(c) && |c.plan| == Nodes(c.depth) && QueueOk(c, s, Foolable(c));
    hide Apply, Enabled, Keyed, CanFool, Foolable, Inv, QueueOk, Listed, Poor, Lost, Planned;
    StepKeepsListed(c, s, e, n);
    StepKeepsPoor(c, s, e, n);
    StepKeepsLost(c, s, e, (n - 1) / 4, Foolable(c));
  }

  lemma {:induction false} NeverReturns(c: Setup, s: State, more: seq<Event>, n: nat)
    requires Planned(c) && Inv(c, s, Foolable(c)) && 0 < n < |c.plan| && Stuck(c, s, n) && Possible(c, s, more)
    ensures !Finished(c, RunFrom(c, s, more))
    decreases |more|
  {
    if |more| == 0 {
      assert PendingOk(c, s, n, Foolable(c));
    } else {
      hide LedgerOk, QueueOk, Planned, Foolable, Enabled, Apply, Stuck, Finished;
      StepKeepsStuck(c, s, more[0], n);
      StepKeepsQueue(c, s, more[0]);
      StepKeepsLedger(c, s, more[0]);
      NeverReturns(c, Apply(c, s, more[0]), more[1..], n);
    }
  }

  // ----- Getting stuck

  /** The first funder that is neither faked nor paid for. */
  lemma FirstBlocked(c: Setup) returns (n: nat)
    requires Keyed(c) && !Rescuable(c)
    ensures 0 < n < Nodes(c.depth) && !CanProceed(c, n, Foolable(c))
    ensures Excusable(c, Foolable(c), n)
  {
    n := 0;
    while CanProceed(c, n, Foolable(c))
      invariant n < Nodes(c.depth)
      invariant forall m :: 0 <= m < n ==> CanProceed(c, m, Foolable(c))
      decreases Nodes(c.depth) - n
    {
      n := n + 1;
    }
  }

  /** The batch of a funder begins although the spend that should have paid it is lost. */
  lemma LoseFunder(c: Setup, n: nat) returns (events: seq<Event>)
    requires Planned(c) && HoldsTotal(c) && 0 < n < |c.plan| && Excusable(c, Foolable(c), n)
    requires CanFool(c, (n - 1) / 4)
    ensures Possible(c, Initial(c), events)
    ensures var s := RunFrom(c, Initial(c), events);
            && Orderly(c, s, Foolable(c)) && AtStart(c, s) && Lost(c, s, (n - 1) / 4)
            && s.batch < |c.ends| && Lo(c, s.batch) <= n < Hi(c, s.batch)
  {
    var g := (n - 1) / 4;
    var first := PassedByFooling(c, g);
    var s := RunFrom(c, Initial(c), first);
    var b := ChildBatch(c, n, s.batch);
    hide RunFrom, Possible, HoldsTotal, CanFool, CanProceed, Foolable, Planned, Orderly, AtStart, JustPassed;
    var rest := MoveOn(c, s, n, b);
    RunsCompose(c, Initial(c), first, rest);
    events := first + rest;
  }

  lemma ChildBatch(c: Setup, n: nat, past: nat) returns (b: nat)
    requires Planned(c) && 0 < n < |c.plan| && 0 < past <= |c.ends| && Lo(c, past - 1) <= (n - 1) / 4
    ensures past <= b < |c.ends| && Lo(c, b) <= n < Hi(c, b)
  {
    b := FindBatch(c, n, |c.ends|);
    if b < past {
      LaterStarts(c, b, past - 1);
    }
  }

  lemma SameStart(c: Setup, s: State, s': State)
    requires Planned(c) && AtStart(c, s) && s' == s.(sent := s'.sent)
    ensures AtStart(c, s')
  {
    forall n | Lo(c, s'.batch) <= n < |c.plan|
      ensures RunsAt(c, s', n) == 0 && FeesAt(c, s', n) == 0
    {
      assert RunsAt(c, s, n) == 0 && FeesAt(c, s, n) == 0;
    }
  }

  /** All copies of the spend that was passed over expire, and the protocol moves on. */
  lemma MoveOn(c: Setup, s: State, n: nat, b: nat) returns (events: seq<Event>)
    requires Planned(c) && HoldsTotal(c) && 0 < n < |c.plan| && Excusable(c, Foolable(c), n)
    requires JustPassed(c, s, (n - 1) / 4) && s.batch <= b < |c.ends| && Lo(c, b) <= n < Hi(c, b)
    ensures Possible(c, s, events)
    ensures var t := RunFrom(c, s, events);
            Orderly(c, t, Foolable(c)) && AtStart(c, t) && Lost(c, t, (n - 1) / 4) && t.batch == b
  {
    var g := (n - 1) / 4;
    var first := ExpireAll(c, s, g, Foolable(c));
    var s1 := RunFrom(c, s, first);
    SameStart(c, s, s1);
    assert Lost(c, s1, g);
    assert Excusable(c, Foolable(c), Lo(c, b));
    hide RunFrom, Possible, HoldsTotal, Foolable, Planned, Excusable, AtStart, Lost, LedgerOk, QueueOk, Prompt;
    var rest := ReachFrom(c, s1, b, Foolable(c));
    EveryRunKeepsLost(c, s1, rest, g);
    RunsCompose(c, s, first, rest);
    events := first + rest;
  }

  /** An unpaid funder that holds too little, or can be charged until it does, is stuck. */
  lemma GetStuck(c: Setup, s: State, n: nat) returns (events: seq<Event>)
    requires Planned(c) && Orderly(c, s, Foolable(c)) && AtStart(c, s) && s.batch < |c.ends|
    requires 0 < n < |c.plan| && Lo(c, s.batch) <= n < Hi(c, s.batch) && Lost(c, s, (n - 1) / 4)
    requires !CanFool(c, n) && Get(c.start, At(c, n)) < 4 * Amount(c, n) + c.maxFee
    ensures Possible(c, s, events) && Stuck(c, RunFrom(c, s, events), n)
  {
    InBatch(c, s.batch, n);
    assert BalanceOk(c, s, n) && RunsAt(c, s, n) == 0 && FeesAt(c, s, n) == 0 && s.verified == {};
    PaidStep(0, Amount(c, n));
    PaidStep(0, Amount(c, (n - 1) / 4));
    assert Amount(c, n) > 0;
    var start := Get(c.start, At(c, n));
    hide LedgerOk, QueueOk, Prompt, Amount, Paid, CanFool, At;
    assert Get(s.bank, At(c, n)) == start;
    if start < 4 * Amount(c, n) + c.minFee {
      events := [];
    } else {
      var fee := start - 4 * Amount(c, n) + 1;
      ResendRun(c, s, n, fee);
      events := Resend(n, fee);
      ChargedDown(c, s, n, fee);
    }
  }

  lemma ChargedDown(c: Setup, s: State, n: nat, fee: nat)
    requires Planned(c) && QueueOk(c, s, Foolable(c)) && 0 < n < |c.plan| && c.plan[n] in s.pending
    requires Lost(c, s, (n - 1) / 4) && !CanFool(c, n) && At(c, n) !in s.verified && RunsAt(c, s, n) == 0
    requires Enabled(c, s, Send) && Get(Apply(c, s, Send).sent, c.plan[n].funder) > 0
    requires c.minFee <= fee <= c.maxFee && fee <= Get(s.bank, At(c, n)) == fee + 4 * Amount(c, n) - 1
    ensures Stuck(c, Execute(Apply(c, s, Send), c.plan[n], fee), n)
  {
    var s' := Apply(c, s, Send);
    assert PaysChildren(c, n, c.plan[n]);
    StepKeepsLost(c, s, Send, (n - 1) / 4, Foolable(c));
    SendKeepsQueue(c, s, Foolable(c));
    StepKeepsLost(c, s', Land(n, fee), (n - 1) / 4, Foolable(c));
    ExecuteAt(c, s', n, c.plan[n], fee, n);
    var t := Execute(s', c.plan[n], fee);
    assert t.pending == s.pending && t.verified == s.verified;
    hide Execute, At, Amount, CanFool, Foolable, QueueOk, Lost, Planned, PaysChildren, Copies;
  }

  lemma Wedge(c: Setup) returns (events: seq<Event>)
    requires Planned(c) && HoldsTotal(c) && !Rescuable(c)
    ensures Possible(c, Initial(c), events) && !CanReturn(c, RunFrom(c, Initial(c), events))
  {
    var n := FirstBlocked(c);
    assert !CanFool(c, n) && CanFool(c, (n - 1) / 4) && Get(c.start, At(c, n)) < 4 * Amount(c, n) + c.maxFee;
    InitialInv(c, Foolable(c));
    hide RunFrom, Possible, Planned, HoldsTotal, CanFool, Foolable, Orderly, Stuck, Amount, At;
    hide Excusable, Rescuable, Inv;
    var first := LoseFunder(c, n);
    var second := GetStuck(c, RunFrom(c, Initial(c), first), n);
    RunsCompose(c, Initial(c), first, second);
    events := first + second;
    var s := RunFrom(c, Initial(c), events);
    EveryRunKeepsInv(c, Initial(c), events);
    forall more | Possible(c, s, more)
      ensures !Finished(c, RunFrom(c, s, more))
    {
      NeverReturns(c, s, more, n);
    }
  }

  /** However a run has gone, `fund_keys` can still return, if and only if every funder whose
      own funder can be passed over unrun can be passed over itself or already holds enough
      for its spend at any fee. New keys always meet that. */
  lemma NeverWedgedIff(c: Setup)
    requires Planned(c) && HoldsTotal(c)
    ensures (forall sofar :: Possible(c, Initial(c), sofar) ==> CanReturn(c, RunFrom(c, Initial(c), sofar)))
            <==> Rescuable(c)
    ensures NewKeys(c) || Wanting(c) ==> Rescuable(c)
  {
    if Rescuable(c) {
      forall sofar | Possible(c, Initial(c), sofar)
        ensures CanReturn(c, RunFrom(c, Initial(c), sofar))
      {
        NeverWedged(c, sofar);
      }
    } else {
      var events := Wedge(c);
    }
    if NewKeys(c) || Wanting(c) {
      LittleIsRescuable(c);
    }
  }

  lemma LittleIsRescuable(c: Setup)
    requires Planned(c) && (NewKeys(c) || Wanting(c))
    ensures Rescuable(c)
  {
    forall n | 0 <= n < Nodes(c.depth)
      ensures CanProceed(c, n, Foolable(c))
    {
      if n > 0 {
        var m := (n - 1) / 4;
        AmountOfParent(c, n);
        forall p: nat | IsChild(m, p)
          ensures Get(c.start, At(c, p)) >= Amount(c, m) ==> Amount(c, m) == 0
        {
          assert (p - 1) / 4 == m && 0 < p <= |c.dests|;
        }
        hide Amount, At;
      }
    }
  }
}

/** Where the funding protocol stops being exact: the precise conditions under which a
    spend can run twice, a spend can be taken for done that never ran, and a replay can eat
    into a balance. */
module FundingLimits {
  import opened Options
  import opened FundingPlan
  import opened FundingProtocol
  import opened FundingProgress

  // ----- Running a spend twice

  /** The least one run of spend n costs its funder. */
  function Cost(c: Setup, n: nat): nat {
    4 * Amount(c, n) + c.minFee
  }

  lemma LandingSpends(c: Setup, s: State, n: nat)
    requires Planned(c) && n < |c.plan| && Get(s.sent, c.plan[n].funder) > 0
    requires Get(s.bank, At(c, n)) >= Cost(c, n)
    ensures var t := Execute(s, c.plan[n], c.minFee);
            && RunsAt(c, t, n) == RunsAt(c, s, n) + 1 && FeesAt(c, t, n) == FeesAt(c, s, n) + c.minFee
            && Get(t.bank, At(c, n)) == Get(s.bank, At(c, n)) - Cost(c, n)
  {
    assert PaysChildren(c, n, c.plan[n]);
    ExecuteAt(c, s, n, c.plan[n], c.minFee, n);
    hide Planned, Execute, At, Amount, PaysChildren;
  }

  /** Only copies of spend n execute. */
  ghost predicate Touches(events: seq<Event>, n: nat) {
    forall i :: 0 <= i < |events| ==> events[i].Send? || events[i].Retain? || (events[i].Land? && events[i].n == n)
  }

  /** A copy is signed, sent and executed, and no verify pass sees it. */
  lemma RunOnce(c: Setup, s: State, n: nat) returns (events: seq<Event>)
    requires Planned(c) && n < |c.plan| && c.plan[n] in s.pending && s.passes == 0 && s.verified == {}
    requires Get(s.bank, At(c, n)) >= Cost(c, n)
    ensures Possible(c, s, events) && Touches(events, n)
    ensures var t := RunFrom(c, s, events);
            && t.batch == s.batch && t.pending == s.pending && t.passes == 0 && t.verified == {}
            && RunsAt(c, t, n) == RunsAt(c, s, n) + 1 && FeesAt(c, t, n) == FeesAt(c, s, n) + c.minFee
            && Get(t.bank, At(c, n)) == Get(s.bank, At(c, n)) - Cost(c, n)
  {
    ResendRun(c, s, n, c.minFee);
    var once := RunFrom(c, s, Resend(n, c.minFee));
    assert once.batch == s.batch && once.pending == s.pending && once.verified == {};
    hide RunFrom, Possible, Execute, Copies, Planned, At, Cost;
    LandingSpends(c, Apply(c, s, Send), n);
    IdleRun(c, once);
    IdleIsRetain(once.passes);
    RunsCompose(c, s, Resend(n, c.minFee), IdlePasses(once.passes));
    events := Resend(n, c.minFee) + IdlePasses(once.passes);
  }

  lemma {:induction false} RunTimes(c: Setup, s: State, n: nat, k: nat) returns (events: seq<Event>)
    requires Planned(c) && n < |c.plan| && c.plan[n] in s.pending && s.passes == 0 && s.verified == {}
    requires Get(s.bank, At(c, n)) >= Paid(k, Cost(c, n))
    ensures Possible(c, s, events) && Touches(events, n)
    ensures var t := RunFrom(c, s, events);
            t.batch == s.batch && t.passes == 0 && RunsAt(c, t, n) == RunsAt(c, s, n) + k
    decreases k
  {
    if k == 0 {
      events := [];
    } else {
      PaidStep(k - 1, Cost(c, n));
      hide RunFrom, Possible, Planned, At, Cost, Paid;
      var first := RunOnce(c, s, n);
      var rest := RunTimes(c, RunFrom(c, s, first), n, k - 1);
      RunsCompose(c, s, first, rest);
      events := first + rest;
    }
  }

  /** Signed and sent a second time although the first copy already ran: both copies spend. */
  lemma RunsTwice(c: Setup, s: State, n: nat) returns (events: seq<Event>)
    requires Planned(c) && n < |c.plan| && c.plan[n] in s.pending && s.passes == 0 && s.verified == {}
    requires Get(s.bank, At(c, n)) >= 8 * Amount(c, n) + 2 * c.minFee
    ensures Possible(c, s, events) && RunsAt(c, RunFrom(c, s, events), n) >= 2
  {
    PaidStep(1, Cost(c, n));
    hide RunFrom, Possible, At, Amount, Paid, Planned;
    events := RunTimes(c, s, n, 2);
  }

  lemma {:induction false} FindBatch(c: Setup, n: nat, upTo: nat) returns (b: nat)
    requires Batched(c) && upTo <= |c.ends| && n < Lo(c, upTo)
    ensures b < |c.ends| && Lo(c, b) <= n < Hi(c, b)
    decreases upTo
  {
    if n < Lo(c, upTo - 1) {
      b := FindBatch(c, n, upTo - 1);
    } else {
      b := upTo - 1;
    }
  }

  lemma {:induction false} LaterStarts(c: Setup, a: nat, b: nat)
    requires Batched(c) && a <= b <= |c.ends|
    ensures Lo(c, a) <= Lo(c, b)
    decreases b
  {
    if a < b {
      LaterStarts(c, a, b - 1);
    }
  }

  /** Every spend becomes pending in some run, not yet run, with its funder paid. */
  lemma ReachSpend(c: Setup, n: nat) returns (events: seq<Event>)
    requires Planned(c) && HoldsTotal(c) && n < |c.plan|
    ensures Possible(c, Initial(c), events)
    ensures var t := RunFrom(c, Initial(c), events);
            && Orderly(c, t, {}) && t.passes == 0 && t.verified == {} && t.batch < |c.ends|
            && Lo(c, t.batch) <= n < Hi(c, t.batch) && c.plan[n] in t.pending && RunsAt(c, t, n) == 0
            && Get(t.bank, At(c, n)) >= Allotted(c, n)
  {
    var b := FindBatch(c, n, |c.ends|);
    events := ReachBatch(c, b);
    var t := RunFrom(c, Initial(c), events);
    hide RunFrom, Possible;
    InBatch(c, b, n);
    assert BalanceOk(c, t, n);
    PaidStep(0, Amount(c, n));
    if n > 0 {
      ParentHasRun(c, t, n, {});
      PaidStep(RunsAt(c, t, (n - 1) / 4), Amount(c, (n - 1) / 4));
    }
    hide At, Amount, Paid, LedgerOk, QueueOk, Prompt, BatchAt;
  }

  lemma RepeatedNeedsFunds(c: Setup, events: seq<Event>, p: nat)
    requires Planned(c) && Possible(c, Initial(c), events) && p <= |c.dests|
    requires RunsAt(c, RunFrom(c, Initial(c), events), p) >= 2
    ensures !ReplaySafe(c)
  {
    if ReplaySafe(c) {
      ReplaySafety(c, events, p);
    }
  }

  lemma RepeatedWithFunds(c: Setup, n: nat) returns (events: seq<Event>)
    requires Planned(c) && HoldsTotal(c) && n < |c.plan|
    requires Allotted(c, n) >= 8 * Amount(c, n) + 2 * c.minFee
    ensures Possible(c, Initial(c), events) && RunsAt(c, RunFrom(c, Initial(c), events), n) >= 2
  {
    var first := ReachSpend(c, n);
    hide RunFrom, Possible, Planned, HoldsTotal, At, Amount, Allotted;
    var twice := RunsTwice(c, RunFrom(c, Initial(c), first), n);
    RunsCompose(c, Initial(c), first, twice);
    events := first + twice;
  }

  /** Some spend can run twice in some run if and only if some funder is allotted two of its
      spends and two fees: the source by its start, any other funder by its start and what
      its own funder pays it. */
  lemma RepeatsIff(c: Setup)
    requires Planned(c) && HoldsTotal(c)
    ensures (exists events, p: nat :: p <= |c.dests| && Possible(c, Initial(c), events)
                                      && RunsAt(c, RunFrom(c, Initial(c), events), p) >= 2)
            <==> !ReplaySafe(c)
  {
    if !ReplaySafe(c) {
      var n :| 0 <= n < Nodes(c.depth) && Allotted(c, n) >= 8 * Amount(c, n) + 2 * c.minFee;
      var events := RepeatedWithFunds(c, n);
    }
    forall events, p: nat | p <= |c.dests| && Possible(c, Initial(c), events)
                            && RunsAt(c, RunFrom(c, Initial(c), events), p) >= 2
      ensures !ReplaySafe(c)
    {
      RepeatedNeedsFunds(c, events, p);
    }
  }

  lemma SourceTwiceCosts(c: Setup, events: seq<Event>)
    requires Planned(c) && Possible(c, Initial(c), events)
    requires RunsAt(c, RunFrom(c, Initial(c), events), 0) >= 2
    ensures Get(c.start, c.source) >= 8 * Amount(c, 0) + 2 * c.minFee
  {
    var s := RunFrom(c, Initial(c), events);
    InitialLedger(c);
    EveryRunKeepsLedger(c, Initial(c), events);
    assert BalanceOk(c, s, 0) && FeesOk(c, s, 0) && At(c, 0) == c.source;
    PaidStep(RunsAt(c, s, 0), Amount(c, 0));
    PaidStep(RunsAt(c, s, 0), c.minFee);
    hide Planned, LedgerOk, At, Amount, RunFrom, Possible, Paid;
  }

  /** The source's spend can run twice in some run if and only if the source holds enough
      for two of them; the comment on `fund_keys` that it is "either empty, or full" needs this. */
  lemma SourceReplayedIff(c: Setup)
    requires Planned(c) && c.depth > 0
    ensures (exists events :: Possible(c, Initial(c), events) && RunsAt(c, RunFrom(c, Initial(c), events), 0) >= 2)
            <==> Get(c.start, c.source) >= 8 * Amount(c, 0) + 2 * c.minFee
  {
    if Get(c.start, c.source) >= 8 * Amount(c, 0) + 2 * c.minFee {
      FirstSpendIsPending(c);
      var events := RunsTwice(c, Initial(c), 0);
    }
    forall events | Possible(c, Initial(c), events) && RunsAt(c, RunFrom(c, Initial(c), events), 0) >= 2
      ensures Get(c.start, c.source) >= 8 * Amount(c, 0) + 2 * c.minFee
    {
      SourceTwiceCosts(c, events);
    }
  }

  lemma FirstSpendIsPending(c: Setup)
    requires Planned(c) && c.depth > 0
    ensures |c.plan| > 0 && c.plan[0] in Initial(c).pending && At(c, 0) == c.source
  {
    assert |c.ends| > 0;
    assert Lo(c, 0) == 0 < Hi(c, 0) <= |c.plan|;
    assert BatchAt(c, 0)[0] == c.plan[0];
  }

  /** Every destination starts empty, as generated keys do. */
  ghost predicate NewKeys(c: Setup)
    requires Keyed(c)
  {
    forall p :: 0 < p <= |c.dests| ==> Get(c.start, At(c, p)) == 0
  }

  lemma NewAllotment(c: Setup, n: nat)
    requires Keyed(c) && NewKeys(c) && n < Nodes(c.depth)
    ensures n == 0 ==> Allotted(c, n) == Get(c.start, c.source)
    ensures n > 0 ==> Allotted(c, n) == 4 * Amount(c, n) + c.lamports + c.maxFee
    ensures Amount(c, n) >= c.lamports
  {
    AmountAtLeast(c, n);
    if n > 0 {
      AmountOfParent(c, n);
    }
    hide Amount, Level;
  }

  /** From new keys, some spend can run twice in some run if and only if the source holds two
      of its spends and two fees, or the fee range reaches from a minimum up to twice that
      minimum and three times `lamports` and there are funders past the source. */
  lemma NewKeysRepeatIff(c: Setup)
    requires Planned(c) && HoldsTotal(c) && NewKeys(c) && c.depth > 0
    ensures (exists events, p: nat :: p <= |c.dests| && Possible(c, Initial(c), events)
                                      && RunsAt(c, RunFrom(c, Initial(c), events), p) >= 2)
            <==> || Get(c.start, c.source) >= 8 * Amount(c, 0) + 2 * c.minFee
                 || (c.depth > 1 && c.maxFee >= 3 * c.lamports + 2 * c.minFee)
  {
    RepeatsIff(c);
    NewKeysSafeIff(c);
  }

  lemma NewKeysSafeIff(c: Setup)
    requires Planned(c) && NewKeys(c) && c.depth > 0
    ensures ReplaySafe(c) <==> && Get(c.start, c.source) < 8 * Amount(c, 0) + 2 * c.minFee
                               && (c.depth > 1 ==> c.maxFee < 3 * c.lamports + 2 * c.minFee)
  {
    LastFunder(c);
    forall n | 0 <= n < Nodes(c.depth)
      ensures n == 0 ==> Allotted(c, n) == Get(c.start, c.source)
      ensures n > 0 ==> Allotted(c, n) == 4 * Amount(c, n) + c.lamports + c.maxFee && c.depth > 1
      ensures Amount(c, n) >= c.lamports
    {
      NewAllotment(c, n);
    }
    hide Amount, Allotted, Planned, NewKeys;
    if ReplaySafe(c) {
      assert Allotted(c, 0) < 8 * Amount(c, 0) + 2 * c.minFee;
      var n := Nodes(c.depth - 1);
      assert Allotted(c, n) < 8 * Amount(c, n) + 2 * c.minFee;
    }
  }

  /** A funder of the last round pays `lamports` to each of its destinations. */
  lemma LastFunder(c: Setup)
    requires c.depth > 0
    ensures Nodes(c.depth - 1) < Nodes(c.depth) && Amount(c, Nodes(c.depth - 1)) == c.lamports
    ensures c.depth > 1 <==> Nodes(c.depth - 1) > 0
    ensures Nodes(c.depth) > 1 ==> c.depth > 1
  {
    RoundOfNode(Nodes(c.depth - 1), c.depth - 1);
  }

  // ----- Taking a spend for done that never ran

  /** A call of `fund` returned although its spend n never ran. */
  ghost predicate PassedUnrun(c: Setup, s: State, n: nat)
    requires Keyed(c) && n < Nodes(c.depth)
  {
    n < Lo(c, s.batch) && RunsAt(c, s, n) == 0
  }

  lemma OtherStays(c: Setup, s: State, n: nat, i: nat)
    requires Planned(c) && QueueOk(c, s, {}) && n < |c.plan| && c.plan[n] in s.pending
    requires i < |s.pending| && s.pending[i] != c.plan[n]
    ensures c.plan[n] in Unverified(s.pending, {s.pending[i].funder})
  {
    var m := PendingIndex(c, s, s.pending[i]);
    assert PaysChildren(c, n, c.plan[n]) && PaysChildren(c, m, c.plan[m]);
    hide At, AreChildren, Amount, QueueOk;
    AtInjective(c, m, n);
    UnverifiedHolds(s.pending, {s.pending[i].funder}, c.plan[n]);
  }

  /** Everything in the list but spend n can be carried out and dropped. */
  lemma {:induction false} DropOthers(c: Setup, s: State, n: nat) returns (events: seq<Event>)
    requires Planned(c) && HoldsTotal(c) && Orderly(c, s, {}) && s.passes == 0
    requires n < |c.plan| && c.plan[n] in s.pending && RunsAt(c, s, n) == 0
    ensures Possible(c, s, events)
    ensures var t := RunFrom(c, s, events);
            && Orderly(c, t, {}) && t.batch == s.batch && t.passes == 0 && RunsAt(c, t, n) == 0
            && c.plan[n] in t.pending && forall tx :: tx in t.pending ==> tx == c.plan[n]
    decreases |s.pending|
  {
    if i :| 0 <= i < |s.pending| && s.pending[i] != c.plan[n] {
      NoneExcused(c, Hi(c, s.batch));
      OtherStays(c, s, n, i);
      hide Orderly, Planned, HoldsTotal, Excusable, RunFrom, Possible, RunsAt;
      var first := Drop(c, s, i, {});
      var rest := DropOthers(c, RunFrom(c, s, first), n);
      RunsCompose(c, s, first, rest);
      events := first + rest;
    } else {
      events := [];
    }
  }

  /** The last pending spend is sent, seen as done, dropped and left behind. */
  function PassOn(answers: seq<Option<nat>>): seq<Event> {
    [Send] + [Observe(0, answers)] + [Retain] + [NextBatch]
  }

  lemma PassOnRun(c: Setup, s: State, n: nat, answers: seq<Option<nat>>)
    requires s.batch < |c.ends| && s.passes == 0 && n < |c.plan| && c.plan[n] in s.pending
    requires forall tx :: tx in s.pending ==> tx == c.plan[n]
    requires Truthful(c, s, c.plan[n], answers) && Arrived(answers, c.plan[n].lamports)
    ensures Possible(c, s, PassOn(answers))
    ensures var t := RunFrom(c, s, PassOn(answers));
            && t.batch == s.batch + 1 && t.pending == BatchAt(c, t.batch) && t.passes == 0
            && t.runs == s.runs && t.fees == s.fees
  {
    assert s.pending[0] in s.pending;
    var s1 := Apply(c, s, Send);
    var look := Observe(0, answers);
    assert Truthful(c, s1, c.plan[n], answers);
    var s2 := Apply(c, s1, look);
    hide Arrived, Truthful, RunFrom, Possible, Unverified, Copies;
    OneEvent(c, s, Send);
    ThenOne(c, s, [Send], look);
    ThenOne(c, s, [Send] + [look], Retain);
    var s3 := Apply(c, s2, Retain);
    if s3.pending != [] {
      var tx := s3.pending[0];
      UnverifiedHolds(s2.pending, s2.verified, tx);
      assert false;
    }
    ThenOne(c, s, [Send] + [look] + [Retain], NextBatch);
  }

  /** Every destination starts with less than it is to be given. */
  ghost predicate Wanting(c: Setup)
    requires Keyed(c)
  {
    forall p :: 0 < p <= |c.dests| ==> Get(c.start, At(c, p)) < Amount(c, (p - 1) / 4)
  }

  /** Every spend before the batch of n has run, n has not and was not charged, and its call
      of `fund` has just returned. */
  ghost predicate JustPassed(c: Setup, s: State, n: nat)
    requires Planned(c) && n < Nodes(c.depth)
  {
    && Orderly(c, s, Foolable(c)) && AtStart(c, s) && s.batch > 0
    && Lo(c, s.batch - 1) <= n < Lo(c, s.batch)
    && RunsAt(c, s, n) == 0 && FeesAt(c, s, n) == 0 && (n > 0 ==> RunsAt(c, s, (n - 1) / 4) > 0)
  }

  lemma PassedByFooling(c: Setup, n: nat) returns (events: seq<Event>)
    requires Planned(c) && HoldsTotal(c) && n < Nodes(c.depth) && CanFool(c, n)
    ensures Possible(c, Initial(c), events) && JustPassed(c, RunFrom(c, Initial(c), events), n)
  {
    var first := ReachSpend(c, n);
    var s := RunFrom(c, Initial(c), first);
    hide RunFrom, Possible, Prompt, LedgerOk, QueueOk, At, CanFool, Foolable;
    var second := DropOthers(c, s, n);
    var t := RunFrom(c, s, second);
    var answers := FoolingAnswers(c, t, n, {});
    PassOnRun(c, t, n, answers);
    var third := PassOn(answers);
    RunsCompose(c, s, second, third);
    RunsCompose(c, Initial(c), first, second + third);
    events := first + (second + third);
    var u := RunFrom(c, Initial(c), events);
    ExcusesMore(c, t, Foolable(c));
    SamePrompt(c, t, u, Foolable(c));
    InitialInv(c, Foolable(c));
    EveryRunKeepsInv(c, Initial(c), events);
    UnrunUncharged(c, t, n);
    assert AtStart(c, u) by {
      forall m | Lo(c, u.batch) <= m < |c.plan|
        ensures RunsAt(c, u, m) == 0 && FeesAt(c, u, m) == 0
      {
        LaterIsUntouched(c, t, m);
      }
    }
  }

  lemma LaterIsUntouched(c: Setup, s: State, m: nat)
    requires Planned(c) && QueueOk(c, s, {}) && m < |c.plan| && m >= Hi(c, s.batch)
    ensures RunsAt(c, s, m) == 0 && FeesAt(c, s, m) == 0
  {
    assert PendingOk(c, s, m, {});
  }

  lemma UnrunUncharged(c: Setup, s: State, n: nat)
    requires Planned(c) && Orderly(c, s, {}) && n < |c.plan| && n < Hi(c, s.batch) && RunsAt(c, s, n) == 0
    ensures FeesAt(c, s, n) == 0 && (n > 0 ==> RunsAt(c, s, (n - 1) / 4) > 0)
  {
    assert PromptAt(c, s, n, {});
    if n > 0 {
      ParentHasRun(c, s, n, {});
    }
  }

  lemma PassedOnlyByFooling(c: Setup, n: nat, events: seq<Event>)
    requires Planned(c) && n < Nodes(c.depth) && Possible(c, Initial(c), events)
    requires PassedUnrun(c, RunFrom(c, Initial(c), events), n)
    ensures CanFool(c, n)
  {
    var s := RunFrom(c, Initial(c), events);
    InitialInv(c, Foolable(c));
    EveryRunKeepsInv(c, Initial(c), events);
    assert PendingOk(c, s, n, Foolable(c));
  }

  /** Some run lets `fund` return with spend n never run if and only if truthful answers can
      fake it; when no destination held the amount beforehand, if and only if the balance of
      the system program reaches the amount. */
  lemma UnrunPassedIff(c: Setup, n: nat)
    requires Planned(c) && HoldsTotal(c) && n < Nodes(c.depth)
    ensures (exists events :: Possible(c, Initial(c), events) && PassedUnrun(c, RunFrom(c, Initial(c), events), n))
            <==> CanFool(c, n)
    ensures Wanting(c) ==> (CanFool(c, n) <==> c.programBalance >= Amount(c, n))
  {
    if CanFool(c, n) {
      var events := PassedByFooling(c, n);
    }
    forall events | Possible(c, Initial(c), events) && PassedUnrun(c, RunFrom(c, Initial(c), events), n)
      ensures CanFool(c, n)
    {
      PassedOnlyByFooling(c, n, events);
    }
    if Wanting(c) {
      forall p: nat | IsChild(n, p)
        ensures Get(c.start, At(c, p)) < Amount(c, n)
      {
        assert (p - 1) / 4 == n;
      }
    }
  }
}

/** Runs of the funding protocol that get somewhere: every batch can be carried out from
    every orderly state, so any batch can be reached and `fund_keys` cannot wedge. */
module FundingProgress {
  import opened Options
  import opened FundingPlan
  import opened FundingProtocol

  // ----- Putting runs together

  lemma {:induction false} RunsCompose(c: Setup, s: State, a: seq<Event>, b: seq<Event>)
    requires Possible(c, s, a) && Possible(c, RunFrom(c, s, a), b)
    ensures Possible(c, s, a + b) && RunFrom(c, s, a + b) == RunFrom(c, RunFrom(c, s, a), b)
    decreases |a|
  {
    if |a| == 0 {
      assert a + b == b;
    } else {
      RunsCompose(c, Apply(c, s, a[0]), a[1..], b);
      assert (a + b)[0] == a[0] && (a + b)[1..] == a[1..] + b;
    }
  }

  lemma OneEvent(c: Setup, s: State, e: Event)
    requires Enabled(c, s, e)
    ensures Possible(c, s, [e]) && RunFrom(c, s, [e]) == Apply(c, s, e)
  {
    assert [e][1..] == [];
    assert Possible(c, Apply(c, s, e), []);
  }

  lemma ThenOne(c: Setup, s: State, events: seq<Event>, e: Event)
    requires Possible(c, s, events) && Enabled(c, RunFrom(c, s, events), e)
    ensures Possible(c, s, events + [e])
    ensures RunFrom(c, s, events + [e]) == Apply(c, RunFrom(c, s, events), e)
  {
    OneEvent(c, RunFrom(c, s, events), e);
    RunsCompose(c, s, events, [e]);
  }

  /** Signed afresh and executed. */
  function Resend(n: nat, fee: nat): seq<Event> {
    [Send] + [Land(n, fee)]
  }

  lemma ResendRun(c: Setup, s: State, n: nat, fee: nat)
    requires Planned(c) && n < |c.plan| && c.plan[n] in s.pending && c.minFee <= fee <= c.maxFee && s.passes == 0
    ensures Enabled(c, s, Send)
    ensures var s' := Apply(c, s, Send);
            && Get(s'.sent, c.plan[n].funder) > 0
            && Possible(c, s, Resend(n, fee))
            && RunFrom(c, s, Resend(n, fee)) == Execute(s', c.plan[n], fee)
  {
    var i :| 0 <= i < |s.pending| && s.pending[i] == c.plan[n];
    CopyAdded(s.sent, s.pending, i);
    hide Copies, RunFrom, Possible, Execute, Planned;
    OneEvent(c, s, Send);
    ThenOne(c, s, [Send], Land(n, fee));
  }

  lemma {:induction false} NoneVerified(pending: seq<Transfer>)
    ensures Unverified(pending, {}) == pending
    decreases |pending|
  {
    if |pending| > 0 {
      NoneVerified(pending[..|pending| - 1]);
      assert pending == pending[..|pending| - 1] + [pending[|pending| - 1]];
    }
  }

  /** Verify passes in which no query is answered. */
  function IdlePasses(passes: nat): seq<Event> {
    if passes == 0 then [] else [Retain] + IdlePasses(passes - 1)
  }

  lemma {:induction false} IdleRun(c: Setup, s: State)
    requires s.verified == {} && s.pending != []
    ensures Possible(c, s, IdlePasses(s.passes)) && RunFrom(c, s, IdlePasses(s.passes)) == s.(passes := 0)
    decreases s.passes
  {
    if s.passes > 0 {
      NoneVerified(s.pending);
      OneEvent(c, s, Retain);
      IdleRun(c, Apply(c, s, Retain));
      RunsCompose(c, s, [Retain], IdlePasses(s.passes - 1));
    }
  }

  /** No balance is asked for, so nothing is seen. */
  ghost predicate NoLooks(events: seq<Event>) {
    forall i :: 0 <= i < |events| ==> events[i].Send? || events[i].Land? || events[i].Retain?
  }

  lemma {:induction false} IdleIsRetain(passes: nat)
    ensures forall i :: 0 <= i < |IdlePasses(passes)| ==> IdlePasses(passes)[i].Retain?
  {
    if passes > 0 {
      IdleIsRetain(passes - 1);
    }
  }

  lemma {:induction false} StaysInBatch(c: Setup, s: State, events: seq<Event>)
    requires Possible(c, s, events) && NoLooks(events)
    ensures RunFrom(c, s, events).batch == s.batch
    decreases |events|
  {
    if |events| > 0 {
      StaysInBatch(c, Apply(c, s, events[0]), events[1..]);
    }
  }

  /** What has run has run. */
  lemma {:induction false} RunsGrow(c: Setup, s: State, events: seq<Event>, p: nat)
    requires Planned(c) && Possible(c, s, events) && p <= |c.dests|
    ensures RunsAt(c, RunFrom(c, s, events), p) >= RunsAt(c, s, p)
    decreases |events|
  {
    if |events| > 0 {
      var e := events[0];
      if e.Land? {
        assert PaysChildren(c, e.n, c.plan[e.n]);
        ExecuteAt(c, s, e.n, c.plan[e.n], e.fee, p);
      }
      assert RunsAt(c, Apply(c, s, e), p) >= RunsAt(c, s, p);
      hide Planned, Enabled, Apply, At;
      RunsGrow(c, Apply(c, s, e), events[1..], p);
    }
  }

  /** No copy of spend p executes or expires. */
  ghost predicate Spares(events: seq<Event>, p: nat) {
    forall i :: 0 <= i < |events| && (events[i].Land? || events[i].Expire?) ==> events[i].n != p
  }

  lemma SparedStep(c: Setup, s: State, e: Event, p: nat)
    requires Planned(c) && Enabled(c, s, e) && p < Nodes(c.depth)
    requires e.Land? || e.Expire? ==> e.n != p
    ensures var t := Apply(c, s, e);
            && RunsAt(c, t, p) == RunsAt(c, s, p) && FeesAt(c, t, p) == FeesAt(c, s, p)
            && Get(t.sent, At(c, p)) >= Get(s.sent, At(c, p))
  {
    if e.Send? {
      CopiesCounted(s.sent, s.pending, At(c, p));
    } else if e.Land? {
      assert PaysChildren(c, e.n, c.plan[e.n]);
      ExecuteAt(c, s, e.n, c.plan[e.n], e.fee, p);
    } else if e.Expire? {
      assert PaysChildren(c, e.n, c.plan[e.n]);
      AtInjective(c, e.n, p);
    }
    hide Planned, Execute, At, Copies, PaysChildren;
  }

  /** A spend that is spared runs no more, is charged no more and loses no copy. */
  lemma {:induction false} SparedRun(c: Setup, s: State, events: seq<Event>, p: nat)
    requires Planned(c) && Possible(c, s, events) && p < Nodes(c.depth) && Spares(events, p)
    ensures var t := RunFrom(c, s, events);
            && RunsAt(c, t, p) == RunsAt(c, s, p) && FeesAt(c, t, p) == FeesAt(c, s, p)
            && Get(t.sent, At(c, p)) >= Get(s.sent, At(c, p))
    decreases |events|
  {
    if |events| > 0 {
      SparedStep(c, s, events[0], p);
      hide Planned, Enabled, Apply, At;
      SparedRun(c, Apply(c, s, events[0]), events[1..], p);
    }
  }

  /** Spends that have run are left alone. */
  ghost predicate Careful(c: Setup, s: State, events: seq<Event>)
    requires Planned(c)
  {
    forall p :: 0 <= p < Nodes(c.depth) && RunsAt(c, s, p) > 0 ==> Spares(events, p)
  }

  lemma CarefulJoin(c: Setup, s: State, a: seq<Event>, b: seq<Event>)
    requires Planned(c) && Possible(c, s, a) && Careful(c, s, a) && Careful(c, RunFrom(c, s, a), b)
    ensures Careful(c, s, a + b)
  {
    hide RunFrom, Possible, RunsAt;
    forall p | 0 <= p < Nodes(c.depth) && RunsAt(c, s, p) > 0
      ensures Spares(a + b, p)
    {
      RunsGrow(c, s, a, p);
    }
  }

  lemma HarmlessJoin(c: Setup, s: State, a: seq<Event>, b: seq<Event>)
    requires Planned(c) && Careful(c, s, a) && forall i :: 0 <= i < |b| ==> b[i].Observe? || b[i].Retain?
    ensures Careful(c, s, a + b)
  {
    hide RunsAt;
    forall p | 0 <= p < Nodes(c.depth) && RunsAt(c, s, p) > 0
      ensures Spares(a + b, p)
    {
      assert Spares(a, p);
    }
  }

  // ----- Orderly states

  /** The source holds the total that `generate_keypairs` asks for. */
  ghost predicate HoldsTotal(c: Setup) {
    Get(c.start, c.source) >= Level(c.depth, c.lamports, c.maxFee)
  }

  /** Node n is done with, was paid by a spend that is not excused, or can pay for itself. */
  ghost predicate CanProceed(c: Setup, n: nat, excused: set<nat>)
    requires Keyed(c) && n < Nodes(c.depth)
  {
    || n in excused || n == 0 || (n - 1) / 4 !in excused
    || Get(c.start, At(c, n)) >= 4 * Amount(c, n) + c.maxFee
  }

  /** The spends in `excused` can be faked, and up to `bound` every other one can proceed. */
  ghost predicate Excusable(c: Setup, excused: set<nat>, bound: nat)
    requires Keyed(c)
  {
    && (forall n :: n in excused ==> n < Nodes(c.depth) && CanFool(c, n))
    && (forall n :: 0 <= n < bound && n < Nodes(c.depth) ==> CanProceed(c, n, excused))
  }

  ghost predicate PromptAt(c: Setup, s: State, n: nat, excused: set<nat>)
    requires Keyed(c) && n < Nodes(c.depth)
  {
    n !in excused && RunsAt(c, s, n) == 0 ==> FeesAt(c, s, n) == 0
  }

  /** No funder was charged before its spend ran. */
  ghost predicate Prompt(c: Setup, s: State, excused: set<nat>)
    requires Keyed(c)
  {
    forall n :: 0 <= n < Nodes(c.depth) ==> PromptAt(c, s, n, excused)
  }

  ghost predicate Orderly(c: Setup, s: State, excused: set<nat>)
    requires Planned(c)
  {
    Inv(c, s, excused) && Prompt(c, s, excused)
  }

  /** The spend that pays node n ran before n's batch began. */
  lemma ParentHasRun(c: Setup, s: State, n: nat, excused: set<nat>)
    requires Planned(c) && QueueOk(c, s, excused)
    requires 0 < n < |c.plan| && n < Hi(c, s.batch) && (n - 1) / 4 !in excused
    ensures RunsAt(c, s, (n - 1) / 4) > 0
  {
    assert (n - 1) / 4 < Lo(c, s.batch);
    assert PendingOk(c, s, (n - 1) / 4, excused);
  }

  /** A spend that has not run goes through when it lands. */
  lemma FirstLanding(c: Setup, s: State, n: nat, fee: nat, excused: set<nat>)
    requires Planned(c) && HoldsTotal(c) && Orderly(c, s, excused)
    requires n < |c.plan| && n !in excused && CanProceed(c, n, excused)
    requires n < Hi(c, s.batch) && fee <= c.maxFee && RunsAt(c, s, n) == 0
    ensures Get(s.bank, At(c, n)) >= fee + 4 * Amount(c, n)
  {
    assert PromptAt(c, s, n, excused) && BalanceOk(c, s, n);
    PaidStep(0, Amount(c, n));
    if n == 0 {
      AmountAtLeast(c, 0);
    } else if (n - 1) / 4 !in excused {
      ParentHasRun(c, s, n, excused);
      AmountOfParent(c, n);
      PaidStep(RunsAt(c, s, (n - 1) / 4), Amount(c, (n - 1) / 4));
    }
    hide At, Amount, Level, Paid, Orderly;
  }

  lemma LandKeepsPrompt(c: Setup, s: State, n: nat, fee: nat, excused: set<nat>)
    requires Planned(c) && HoldsTotal(c) && Excusable(c, excused, Hi(c, s.batch)) && Orderly(c, s, excused)
    requires Enabled(c, s, Land(n, fee))
    ensures Prompt(c, Apply(c, s, Land(n, fee)), excused)
  {
    var s' := Execute(s, c.plan[n], fee);
    assert PaysChildren(c, n, c.plan[n]) && PendingOk(c, s, n, excused);
    if n !in excused && RunsAt(c, s, n) == 0 {
      assert CanProceed(c, n, excused);
      FirstLanding(c, s, n, fee, excused);
    }
    hide Execute, At, Amount, PaysChildren, Inv;
    forall m | 0 <= m < Nodes(c.depth)
      ensures PromptAt(c, s', m, excused)
    {
      assert PromptAt(c, s, m, excused);
      ExecuteAt(c, s, n, c.plan[n], fee, m);
    }
  }

  lemma SamePrompt(c: Setup, s: State, s': State, excused: set<nat>)
    requires Keyed(c) && Prompt(c, s, excused) && s'.fees == s.fees && s'.runs == s.runs
    ensures Prompt(c, s', excused)
  {
    forall m | 0 <= m < Nodes(c.depth)
      ensures PromptAt(c, s', m, excused)
    {
      assert PromptAt(c, s, m, excused);
    }
  }

  lemma ExcusesMore(c: Setup, s: State, excused: set<nat>)
    requires Planned(c) && Prompt(c, s, {})
    ensures Prompt(c, s, excused)
  {
    forall m | 0 <= m < Nodes(c.depth)
      ensures PromptAt(c, s, m, excused)
    {
      assert PromptAt(c, s, m, {});
    }
  }

  lemma BoundedByPlan(c: Setup, s: State, excused: set<nat>)
    requires Planned(c) && s.batch <= |c.ends| && Excusable(c, excused, Nodes(c.depth))
    ensures Excusable(c, excused, Hi(c, s.batch))
  {
  }

  lemma StepKeepsOrderly(c: Setup, s: State, e: Event)
    requires Planned(c) && HoldsTotal(c) && Excusable(c, Foolable(c), Nodes(c.depth)) && Orderly(c, s, Foolable(c))
    requires Enabled(c, s, e)
    ensures Orderly(c, Apply(c, s, e), Foolable(c))
  {
    BoundedByPlan(c, s, Foolable(c));
    assert !e.Land? ==> Apply(c, s, e).fees == s.fees && Apply(c, s, e).runs == s.runs;
    hide LedgerOk, QueueOk, Prompt, Planned, HoldsTotal, Excusable, Foolable, Enabled, Apply;
    StepKeepsQueue(c, s, e);
    StepKeepsLedger(c, s, e);
    if e.Land? {
      LandKeepsPrompt(c, s, e.n, e.fee, Foolable(c));
    } else {
      SamePrompt(c, s, Apply(c, s, e), Foolable(c));
    }
  }

  lemma {:induction false} EveryRunIsOrderly(c: Setup, s: State, events: seq<Event>)
    requires Planned(c) && HoldsTotal(c) && Excusable(c, Foolable(c), Nodes(c.depth)) && Orderly(c, s, Foolable(c))
    requires Possible(c, s, events)
    ensures Orderly(c, RunFrom(c, s, events), Foolable(c))
    decreases |events|
  {
    hide Orderly, Planned, HoldsTotal, Excusable, Foolable, Enabled, Apply;
    if |events| > 0 {
      StepKeepsOrderly(c, s, events[0]);
      EveryRunIsOrderly(c, Apply(c, s, events[0]), events[1..]);
    }
  }

  lemma InitialOrderly(c: Setup, excused: set<nat>)
    requires Planned(c)
    ensures Orderly(c, Initial(c), excused)
  {
    InitialInv(c, excused);
    assert forall n :: 0 <= n < Nodes(c.depth) ==> PromptAt(c, Initial(c), n, excused);
  }

  // ----- Carrying out a batch

  /** The list is signed and sent, and spend n runs unless it is done already; nothing else
      runs. */
  lemma Settle(c: Setup, s: State, n: nat, excused: set<nat>) returns (events: seq<Event>)
    requires Planned(c) && HoldsTotal(c) && Excusable(c, excused, Hi(c, s.batch)) && Orderly(c, s, excused)
    requires s.passes == 0 && n < |c.plan| && c.plan[n] in s.pending
    ensures Possible(c, s, events) && Careful(c, s, events)
    ensures var t := RunFrom(c, s, events);
            && Orderly(c, t, excused) && t.batch == s.batch && t.pending == s.pending
            && t.verified == {} && t.passes > 0 && Done(c, t, n, excused)
            && forall m :: 0 <= m < Nodes(c.depth) && m != n ==> RunsAt(c, t, m) == RunsAt(c, s, m)
  {
    assert s.verified == {};
    SendOrderly(c, s, excused);
    hide LedgerOk, QueueOk, Prompt, RunFrom, Possible, HoldsTotal, Excusable, Copies, At, Execute;
    if Done(c, s, n, excused) {
      events := [Send];
      OneEvent(c, s, Send);
    } else {
      events := Resend(n, c.minFee);
      ResendRun(c, s, n, c.minFee);
      SettleRuns(c, Apply(c, s, Send), n, excused);
    }
  }

  lemma SendOrderly(c: Setup, s: State, excused: set<nat>)
    requires Planned(c) && Orderly(c, s, excused) && s.passes == 0 && s.pending != []
    ensures Enabled(c, s, Send) && Orderly(c, Apply(c, s, Send), excused)
  {
    var s' := Apply(c, s, Send);
    SendKeepsQueue(c, s, excused);
    SameLedger(c, s, s');
    SamePrompt(c, s, s', excused);
  }

  lemma SettleRuns(c: Setup, s: State, n: nat, excused: set<nat>)
    requires Planned(c) && HoldsTotal(c) && Excusable(c, excused, Hi(c, s.batch)) && Orderly(c, s, excused)
    requires n < |c.plan| && c.plan[n] in s.pending && !Done(c, s, n, excused)
    requires Get(s.sent, c.plan[n].funder) > 0
    ensures var t := Execute(s, c.plan[n], c.minFee);
            && Orderly(c, t, excused) && Done(c, t, n, excused)
            && t == s.(sent := t.sent, bank := t.bank, fees := t.fees, runs := t.runs)
            && forall m :: 0 <= m < Nodes(c.depth) && m != n ==> RunsAt(c, t, m) == RunsAt(c, s, m)
  {
    assert PendingOk(c, s, n, excused) && PaysChildren(c, n, c.plan[n]) && CanProceed(c, n, excused);
    var t := Apply(c, s, Land(n, c.minFee));
    assert t == s.(sent := t.sent, bank := t.bank, fees := t.fees, runs := t.runs);
    hide LedgerOk, QueueOk, Prompt, PaysChildren, At, Execute, Amount;
    FirstLanding(c, s, n, c.minFee, excused);
    LandKeepsQueue(c, s, n, c.minFee, excused);
    StepKeepsLedger(c, s, Land(n, c.minFee));
    LandKeepsPrompt(c, s, n, c.minFee, excused);
    forall m | 0 <= m < Nodes(c.depth)
      ensures RunsAt(c, t, m) == RunsAt(c, s, m) + if m == n then 1 else 0
    {
      ExecuteAt(c, s, n, c.plan[n], c.minFee, m);
    }
  }

  /** A query that is answered: every destination's true balance. */
  ghost function Answers(s: State, tx: Transfer): (answers: seq<Option<nat>>)
    ensures |answers| == |tx.dests| + 1
  {
    seq(|tx.dests|, i requires 0 <= i < |tx.dests| => Some(Get(s.bank, tx.dests[i]))) + [None]
  }

  /** A query to which only the system program answers. */
  function ProgramAnswers(c: Setup, tx: Transfer): (answers: seq<Option<nat>>)
    ensures |answers| == |tx.dests| + 1
  {
    seq(|tx.dests|, i => None) + [Some(c.programBalance)]
  }

  /** A spend that has run shows in its first child's balance. */
  lemma RunIsVisible(c: Setup, s: State, n: nat, excused: set<nat>)
    requires Planned(c) && Inv(c, s, excused) && n < |c.plan| && Lo(c, s.batch) <= n && RunsAt(c, s, n) > 0
    ensures Arrived(Answers(s, c.plan[n]), c.plan[n].lamports)
  {
    var tx, p := c.plan[n], 4 * n + 1;
    assert PaysChildren(c, n, tx) && tx.dests[0] == At(c, p);
    assert (p - 1) / 4 == n && p >= Hi(c, s.batch);
    assert BalanceOk(c, s, p) && FeesOk(c, s, p) && (p < |c.plan| ==> PendingOk(c, s, p, excused));
    PaidStep(0, Amount(c, p));
    PaidStep(RunsAt(c, s, n), Amount(c, n));
    hide At, Amount, LedgerOk, QueueOk, Paid;
    assert Get(s.bank, tx.dests[0]) >= tx.lamports;
    assert Answers(s, tx)[0] == Some(Get(s.bank, tx.dests[0]));
  }

  lemma ProgramIsVisible(c: Setup, tx: Transfer)
    requires c.programBalance >= tx.lamports
    ensures Arrived(ProgramAnswers(c, tx), tx.lamports)
  {
    assert ProgramAnswers(c, tx)[|tx.dests|] == Some(c.programBalance);
  }

  /** A query to which only destination o answers. */
  ghost function OneAnswer(s: State, tx: Transfer, o: nat): (answers: seq<Option<nat>>)
    requires o < |tx.dests|
    ensures |answers| == |tx.dests| + 1
  {
    seq(|tx.dests|, i => if i == o then Some(Get(s.bank, tx.dests[o])) else None) + [None]
  }

  lemma OneAnswerIsVisible(c: Setup, s: State, tx: Transfer, o: nat)
    requires o < |tx.dests| && Get(s.bank, tx.dests[o]) >= tx.lamports
    ensures Truthful(c, s, tx, OneAnswer(s, tx, o)) && Arrived(OneAnswer(s, tx, o), tx.lamports)
  {
    var answers := OneAnswer(s, tx, o);
    assert answers[o] == Some(Get(s.bank, tx.dests[o]));
  }

  /** Until its own batch a child holds its start and what it has been paid. */
  lemma UntouchedChild(c: Setup, s: State, n: nat, p: nat, excused: set<nat>)
    requires Planned(c) && Inv(c, s, excused) && n < |c.plan| && Lo(c, s.batch) <= n && IsChild(n, p)
    ensures Get(s.bank, At(c, p)) == Get(c.start, At(c, p)) + Paid(RunsAt(c, s, n), Amount(c, n))
  {
    assert (p - 1) / 4 == n && p >= Hi(c, s.batch);
    assert BalanceOk(c, s, p) && FeesOk(c, s, p) && (p < |c.plan| ==> PendingOk(c, s, p, excused));
    PaidStep(0, Amount(c, p));
    hide At, Amount, Paid, LedgerOk, QueueOk;
  }

  /** Truthful answers that show a spend as done. */
  lemma FoolingAnswers(c: Setup, s: State, n: nat, excused: set<nat>) returns (answers: seq<Option<nat>>)
    requires Planned(c) && Inv(c, s, excused) && n < |c.plan| && Lo(c, s.batch) <= n && CanFool(c, n)
    ensures Truthful(c, s, c.plan[n], answers) && Arrived(answers, c.plan[n].lamports)
  {
    var tx := c.plan[n];
    assert PaysChildren(c, n, tx);
    hide At, Amount, Inv, Arrived, Paid;
    if c.programBalance >= Amount(c, n) {
      answers := ProgramAnswers(c, tx);
      ProgramIsVisible(c, tx);
    } else {
      var p: nat :| IsChild(n, p) && Get(c.start, At(c, p)) >= Amount(c, n);
      UntouchedChild(c, s, n, p, excused);
      var o := p - 4 * n - 1;
      assert tx.dests[o] == At(c, p);
      answers := OneAnswer(s, tx, o);
      OneAnswerIsVisible(c, s, tx, o);
    }
  }

  /** A spend that is done, or can be faked, can be seen as done. */
  lemma See(c: Setup, s: State, i: nat, n: nat, excused: set<nat>) returns (look: Event)
    requires Planned(c) && Inv(c, s, excused) && s.passes > 0
    requires i < |s.pending| && n < |c.plan| && c.plan[n] == s.pending[i]
    requires Done(c, s, n, excused) && (n in excused ==> CanFool(c, n))
    ensures look.Observe? && Enabled(c, s, look)
    ensures Apply(c, s, look) == s.(verified := s.verified + {c.plan[n].funder})
    ensures Inv(c, Apply(c, s, look), excused)
  {
    var tx := c.plan[n];
    assert PendingOk(c, s, n, excused) && PaysChildren(c, n, tx);
    if RunsAt(c, s, n) > 0 {
      look := Observe(i, Answers(s, tx));
      RunIsVisible(c, s, n, excused);
    } else {
      var answers := FoolingAnswers(c, s, n, excused);
      look := Observe(i, answers);
    }
    hide Arrived, At, AreChildren, LedgerOk, QueueOk, Amount;
    assert Truthful(c, s, tx, look.answers);
    SameLedger(c, s, Apply(c, s, look));
    VerifiedKeepsQueue(c, s, n, excused);
  }

  lemma {:induction false} UnverifiedShrinks(pending: seq<Transfer>, verified: set<Key>, i: nat)
    requires i < |pending|
    ensures |Unverified(pending, verified)| <= |pending|
    ensures pending[i].funder in verified ==> |Unverified(pending, verified)| < |pending|
    decreases |pending|
  {
    var n := |pending| - 1;
    if n > 0 {
      UnverifiedShrinks(pending[..n], verified, if i < n then i else 0);
    } else {
      assert Unverified(pending[..0], verified) == [];
    }
  }

  lemma RetainOrderly(c: Setup, s: State, excused: set<nat>)
    requires Planned(c) && Orderly(c, s, excused) && s.passes > 0
    ensures Orderly(c, Apply(c, s, Retain), excused)
  {
    RetainKeepsQueue(c, s, excused);
    SameLedger(c, s, Apply(c, s, Retain));
    SamePrompt(c, s, Apply(c, s, Retain), excused);
  }

  lemma WaitOrderly(c: Setup, s: State, excused: set<nat>)
    requires Planned(c) && Orderly(c, s, excused) && s.verified == {}
    ensures Orderly(c, s.(passes := 0), excused)
  {
    var s' := s.(passes := 0);
    SameLedger(c, s, s');
    SamePrompt(c, s, s', excused);
    forall n | 0 <= n < |c.plan|
      ensures PendingOk(c, s', n, excused)
    {
      assert PendingOk(c, s, n, excused);
    }
  }

  /** The verify passes that are left can go by, dropping what has been seen already. */
  lemma Wait(c: Setup, s: State, excused: set<nat>) returns (events: seq<Event>)
    requires Planned(c) && Orderly(c, s, excused)
    ensures Possible(c, s, events) && forall i :: 0 <= i < |events| ==> events[i].Retain?
    ensures var t := RunFrom(c, s, events);
            && Orderly(c, t, excused) && t.passes == 0
            && t.batch == s.batch && t.runs == s.runs && t.pending == Unverified(s.pending, s.verified)
  {
    if s.passes == 0 {
      NoneVerified(s.pending);
      events := [];
    } else {
      RetainOrderly(c, s, excused);
      OneEvent(c, s, Retain);
      var s1 := Apply(c, s, Retain);
      hide RunFrom, Possible, LedgerOk, QueueOk, Prompt, Planned, Unverified;
      WaitOrderly(c, s1, excused);
      if s1.pending == [] {
        events := [Retain];
      } else {
        IdleRun(c, s1);
        IdleIsRetain(s1.passes);
        RunsCompose(c, s, [Retain], IdlePasses(s1.passes));
        events := [Retain] + IdlePasses(s1.passes);
      }
    }
  }

  /** Sent, executed, seen and dropped: the pending transaction at i leaves the list, and no
      other spend runs. */
  lemma Drop(c: Setup, s: State, i: nat, excused: set<nat>) returns (events: seq<Event>)
    requires Planned(c) && HoldsTotal(c) && Excusable(c, excused, Hi(c, s.batch)) && Orderly(c, s, excused)
    requires s.passes == 0 && i < |s.pending|
    ensures Possible(c, s, events) && Careful(c, s, events)
    ensures var t := RunFrom(c, s, events);
            && Orderly(c, t, excused) && t.batch == s.batch && t.passes == 0
            && t.pending == Unverified(s.pending, {s.pending[i].funder}) && |t.pending| < |s.pending|
            && forall m :: 0 <= m < |c.plan| == Nodes(c.depth) && c.plan[m] != s.pending[i]
                 ==> RunsAt(c, t, m) == RunsAt(c, s, m)
  {
    var n := PendingIndex(c, s, s.pending[i]);
    assert n in excused ==> CanFool(c, n);
    hide CanFool, RunFrom, Possible, LedgerOk, QueueOk, Prompt, HoldsTotal, Excusable, Careful;
    hide Batched, PaysChildren, Done, Unverified;
    var first := Settle(c, s, n, excused);
    var s1 := RunFrom(c, s, first);
    var look := See(c, s1, i, n, excused);
    ThenOne(c, s, first, look);
    var s2 := Apply(c, s1, look);
    SamePrompt(c, s1, s2, excused);
    assert s2.verified == {s.pending[i].funder};
    var rest := Wait(c, s2, excused);
    RunsCompose(c, s, first + [look], rest);
    HarmlessJoin(c, s, first, [look]);
    HarmlessJoin(c, s, first + [look], rest);
    UnverifiedShrinks(s.pending, s2.verified, i);
    events := first + [look] + rest;
    forall m | 0 <= m < |c.plan| == Nodes(c.depth) && c.plan[m] != s.pending[i]
      ensures RunsAt(c, RunFrom(c, s, events), m) == RunsAt(c, s, m)
    {
      assert RunsAt(c, s1, m) == RunsAt(c, s, m);
    }
  }

  lemma {:induction false} NoLooksKeepOrderly(c: Setup, s: State, events: seq<Event>, excused: set<nat>)
    requires Planned(c) && HoldsTotal(c) && Excusable(c, excused, Hi(c, s.batch)) && Orderly(c, s, excused)
    requires Possible(c, s, events) && NoLooks(events)
    ensures Orderly(c, RunFrom(c, s, events), excused)
    decreases |events|
  {
    if |events| > 0 {
      var e := events[0];
      if e.Land? {
        LandKeepsQueue(c, s, e.n, e.fee, excused);
        StepKeepsLedger(c, s, e);
        LandKeepsPrompt(c, s, e.n, e.fee, excused);
      } else if e.Send? {
        SendOrderly(c, s, excused);
      } else {
        RetainOrderly(c, s, excused);
      }
      assert Apply(c, s, e).batch == s.batch;
      hide LedgerOk, QueueOk, Prompt, Planned, HoldsTotal, Excusable, Enabled, Apply;
      NoLooksKeepOrderly(c, Apply(c, s, e), events[1..], excused);
    }
  }

  /** A batch that has just begun: all of it is pending and none of it has been touched. */
  ghost predicate AtStart(c: Setup, s: State)
    requires Planned(c)
  {
    && s.pending == BatchAt(c, s.batch) && s.passes == 0
    && forall n :: Lo(c, s.batch) <= n < |c.plan| ==> RunsAt(c, s, n) == 0 && FeesAt(c, s, n) == 0
  }

  lemma NextBatchStarts(c: Setup, s: State, excused: set<nat>)
    requires Planned(c) && Orderly(c, s, excused) && Enabled(c, s, NextBatch)
    ensures var t := Apply(c, s, NextBatch); Orderly(c, t, excused) && AtStart(c, t)
  {
    var t := Apply(c, s, NextBatch);
    NextBatchKeepsQueue(c, s, excused);
    SameLedger(c, s, t);
    SamePrompt(c, s, t, excused);
    forall n | Lo(c, t.batch) <= n < |c.plan|
      ensures RunsAt(c, t, n) == 0 && FeesAt(c, t, n) == 0
    {
      assert PendingOk(c, s, n, excused);
    }
  }

  /** A call of `fund` that is about to send again can return. */
  lemma {:induction false} FinishBatch(c: Setup, s: State, excused: set<nat>) returns (events: seq<Event>)
    requires Planned(c) && HoldsTotal(c) && Excusable(c, excused, Hi(c, s.batch)) && Orderly(c, s, excused)
    requires s.passes == 0 && s.batch < |c.ends|
    ensures Possible(c, s, events) && Careful(c, s, events)
    ensures var t := RunFrom(c, s, events); Orderly(c, t, excused) && t.batch == s.batch + 1 && AtStart(c, t)
    decreases |s.pending|
  {
    if s.pending == [] {
      OneEvent(c, s, NextBatch);
      NextBatchStarts(c, s, excused);
      events := [NextBatch];
    } else {
      var first := Drop(c, s, 0, excused);
      hide Orderly, AtStart, Planned, HoldsTotal, Excusable, Careful;
      var rest := FinishBatch(c, RunFrom(c, s, first), excused);
      RunsCompose(c, s, first, rest);
      CarefulJoin(c, s, first, rest);
      events := first + rest;
    }
  }

  /** Every later batch can be reached, if all before it can proceed. */
  lemma {:induction false} ReachFrom(c: Setup, s: State, b: nat, excused: set<nat>) returns (events: seq<Event>)
    requires Planned(c) && HoldsTotal(c) && Excusable(c, excused, Lo(c, b)) && Orderly(c, s, excused)
    requires s.passes == 0 && s.batch <= b <= |c.ends|
    ensures Possible(c, s, events) && Careful(c, s, events)
    ensures var t := RunFrom(c, s, events);
            && Orderly(c, t, excused) && t.batch == b && t.passes == 0
            && (s.batch < b ==> AtStart(c, t)) && (s.batch == b ==> t == s)
    decreases b
  {
    if s.batch == b {
      events := [];
    } else {
      assert Lo(c, b - 1) < Hi(c, b - 1) == Lo(c, b);
      assert Excusable(c, excused, Lo(c, b - 1));
      var first := ReachFrom(c, s, b - 1, excused);
      hide Orderly, Planned, HoldsTotal, Excusable, Careful, RunFrom, Possible;
      var rest := FinishBatch(c, RunFrom(c, s, first), excused);
      RunsCompose(c, s, first, rest);
      CarefulJoin(c, s, first, rest);
      events := first + rest;
    }
  }

  /** From every orderly state some continuation reaches the end. */
  lemma CanAlwaysFinish(c: Setup, s: State, excused: set<nat>) returns (events: seq<Event>)
    requires Planned(c) && HoldsTotal(c) && Excusable(c, excused, Nodes(c.depth)) && Orderly(c, s, excused)
    ensures Possible(c, s, events) && Careful(c, s, events)
    ensures Finished(c, RunFrom(c, s, events)) && Orderly(c, RunFrom(c, s, events), excused)
  {
    var first := Wait(c, s, excused);
    assert Careful(c, s, first);
    assert s.batch <= |c.ends| && Lo(c, |c.ends|) == Nodes(c.depth);
    hide Orderly, Planned, HoldsTotal, Excusable, Careful, RunFrom, Possible;
    var rest := ReachFrom(c, RunFrom(c, s, first), |c.ends|, excused);
    RunsCompose(c, s, first, rest);
    CarefulJoin(c, s, first, rest);
    events := first + rest;
  }

  lemma NoneExcused(c: Setup, bound: nat)
    requires Keyed(c)
    ensures Excusable(c, {}, bound)
  {
  }

  /** Every batch begins in some run, with all earlier spends run. */
  lemma ReachBatch(c: Setup, b: nat) returns (events: seq<Event>)
    requires Planned(c) && HoldsTotal(c) && b <= |c.ends|
    ensures Possible(c, Initial(c), events)
    ensures var t := RunFrom(c, Initial(c), events); Orderly(c, t, {}) && t.batch == b && AtStart(c, t)
  {
    InitialOrderly(c, {});
    if b == 0 {
      events := [];
    } else {
      NoneExcused(c, Lo(c, b));
      events := ReachFrom(c, Initial(c), b, {});
    }
  }
}

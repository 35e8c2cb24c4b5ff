/** The retry protocol that carries out a funding plan: `fund` signs and sends every
    pending transaction, queries balances, drops what it saw arrive and tries again,
    while the cluster executes any signed copy it was ever sent, at any time until the copy's
    blockhash is too old, but each copy only once. The cluster charges a fee for a
    transaction that fails, as the runtime does. */
module FundingProtocol {
  import opened Options
  import opened Slices
  import opened Arithmetic
  import opened FundingPlan

  datatype Setup = Setup(
    source: Key, dests: seq<Key>, depth: nat, lamports: nat,
    minFee: nat, maxFee: nat,   // the range of the fee rate
    plan: seq<Transfer>,    // all spends, in the order `fund_keys` lays them out
    ends: seq<nat>,         // where each call of `fund` stops in the plan
    start: map<Key, nat>,   // balances before funding
    programBalance: nat)    // balance of the system program, the last key of every transaction

  datatype State = State(
    batch: nat,               // which call of `fund` is in progress
    pending: seq<Transfer>,   // its list of transactions
    verified: set<Key>,       // funders seen to have paid in the current verify pass
    passes: nat,              // verify passes left before the list is signed and sent again
    sent: map<Key, nat>,      // signed copies of each funder's spend the cluster may still execute
    bank: map<Key, nat>,
    fees: map<Key, nat>,      // fees charged to each key so far
    runs: map<Key, nat>)      // how often each funder's spend has been executed

  datatype Event =
    | Send
    | Land(n: nat, fee: nat)
    | Expire(n: nat)
    | Observe(i: nat, answers: seq<Option<nat>>)
    | Retain
    | NextBatch

  function Get(m: map<Key, nat>, k: Key): nat {
    if k in m then m[k] else 0
  }

  // ----- Observing a transfer

  /** `verify_funding_transfer`: the first answered balance decides. */
  method VerifyFundingTransfer(answers: seq<Option<nat>>, amount: nat) returns (ok: bool)
    ensures ok <==> Arrived(answers, amount)
  {
    for i := 0 to |answers|
      invariant forall j :: 0 <= j < i ==> answers[j].None?
    {
      if answers[i].Some? {
        return answers[i].value >= amount;
      }
    }
    return false;
  }

  ghost predicate Arrived(answers: seq<Option<nat>>, amount: nat) {
    exists i :: 0 <= i < |answers| && answers[i].Some? && answers[i].value >= amount
                && forall j :: 0 <= j < i ==> answers[j].None?
  }

  /** The answers to a query over the destinations and then the system program. */
  ghost predicate Truthful(c: Setup, s: State, tx: Transfer, answers: seq<Option<nat>>) {
    && |answers| == |tx.dests| + 1
    && (forall i :: 0 <= i < |tx.dests| && answers[i].Some? ==> answers[i].value == Get(s.bank, tx.dests[i]))
    && (answers[|tx.dests|].Some? ==> answers[|tx.dests|].value == c.programBalance)
  }

  // ----- The steps

  function Credit(bank: map<Key, nat>, dests: seq<Key>, amount: nat): map<Key, nat>
    decreases |dests|
  {
    if |dests| == 0 then bank
    else Credit(bank[dests[0] := Get(bank, dests[0]) + amount], dests[1..], amount)
  }

  /** `send` signs every pending transaction afresh: one more copy of each. */
  function Copies(sent: map<Key, nat>, pending: seq<Transfer>): map<Key, nat> {
    if |pending| == 0 then sent
    else
      var n := |pending| - 1;
      var before := Copies(sent, pending[..n]);
      before[pending[n].funder := Get(before, pending[n].funder) + 1]
  }

  function Funders(pending: seq<Transfer>): (funders: seq<Key>)
    ensures |funders| == |pending| && forall i :: 0 <= i < |pending| ==> funders[i] == pending[i].funder
  {
    seq(|pending|, i requires 0 <= i < |pending| => pending[i].funder)
  }

  /** A key gets as many new copies as it has pending transactions. */
  lemma {:induction false} CopiesCounted(sent: map<Key, nat>, pending: seq<Transfer>, k: Key)
    ensures Get(Copies(sent, pending), k) == Get(sent, k) + Count(Funders(pending), k)
    decreases |pending|
  {
    if |pending| > 0 {
      var n := |pending| - 1;
      CopiesCounted(sent, pending[..n], k);
      assert Funders(pending)[..n] == Funders(pending[..n]);
    }
  }

  lemma CopyAdded(sent: map<Key, nat>, pending: seq<Transfer>, i: nat)
    requires i < |pending|
    ensures Get(Copies(sent, pending), pending[i].funder) > 0
  {
    CopiesCounted(sent, pending, pending[i].funder);
    assert Funders(pending)[i] in Funders(pending);
    CountAbsent(Funders(pending), pending[i].funder);
  }

  lemma NoCopyAdded(sent: map<Key, nat>, pending: seq<Transfer>, k: Key)
    requires forall tx :: tx in pending ==> tx.funder != k
    ensures Get(Copies(sent, pending), k) == Get(sent, k)
  {
    CopiesCounted(sent, pending, k);
    CountAbsent(Funders(pending), k);
  }

  /** The cluster executes a copy: nothing without the fee, the fee alone when the funder
      cannot pay all transfers, otherwise the fee and all of them. A copy that was charged is
      recorded as processed and never executes again. */
  function Execute(s: State, tx: Transfer, fee: nat): State
    requires Get(s.sent, tx.funder) > 0
  {
    var balance := Get(s.bank, tx.funder);
    var spent := |tx.dests| * tx.lamports;
    if balance < fee then s
    else
      var charged := s.(
        fees := s.fees[tx.funder := Get(s.fees, tx.funder) + fee],
        sent := s.sent[tx.funder := Get(s.sent, tx.funder) - 1]);
      if balance - fee < spent then charged.(bank := s.bank[tx.funder := balance - fee])
      else charged.(
        bank := Credit(s.bank[tx.funder := balance - fee - spent], tx.dests, tx.lamports),
        runs := s.runs[tx.funder := Get(s.runs, tx.funder) + 1])
  }

  /** The `retain` of `verify`: only transactions of unverified funders stay. */
  function Unverified(pending: seq<Transfer>, verified: set<Key>): seq<Transfer> {
    if |pending| == 0 then []
    else
      var n := |pending| - 1;
      Unverified(pending[..n], verified) + if pending[n].funder in verified then [] else [pending[n]]
  }

  lemma {:induction false} UnverifiedHolds(pending: seq<Transfer>, verified: set<Key>, tx: Transfer)
    ensures tx in Unverified(pending, verified) <==> tx in pending && tx.funder !in verified
    decreases |pending|
  {
    if |pending| > 0 {
      var n := |pending| - 1;
      UnverifiedHolds(pending[..n], verified, tx);
      assert pending == pending[..n] + [pending[n]];
    }
  }

  /** Small batches are verified three times before they are sent again. */
  function VerifyPasses(txs: nat): (passes: nat)
    ensures passes > 0 && (passes > 1 <==> txs < 1000)
  {
    if txs < 1000 then 3 else 1
  }

  /** Call b of `fund` is given spends Lo(c, b) .. Hi(c, b). */
  function Lo(c: Setup, b: nat): nat {
    if 0 < b <= |c.ends| then c.ends[b - 1] else 0
  }

  function Hi(c: Setup, b: nat): nat {
    if b < |c.ends| then c.ends[b] else Lo(c, b)
  }

  function BatchAt(c: Setup, b: nat): seq<Transfer> {
    if Lo(c, b) <= Hi(c, b) <= |c.plan| then c.plan[Lo(c, b)..Hi(c, b)] else []
  }

  ghost predicate Enabled(c: Setup, s: State, e: Event) {
    match e
    case Send => s.passes == 0 && s.pending != []
    case Land(n, fee) => n < |c.plan| && Get(s.sent, c.plan[n].funder) > 0 && c.minFee <= fee <= c.maxFee
    case Expire(n) => n < |c.plan| && Get(s.sent, c.plan[n].funder) > 0
    case Observe(i, answers) => s.passes > 0 && i < |s.pending| && Truthful(c, s, s.pending[i], answers)
    case Retain => s.passes > 0
    case NextBatch => s.batch < |c.ends| && s.pending == []
  }

  ghost function Apply(c: Setup, s: State, e: Event): State
    requires Enabled(c, s, e)
  {
    match e
    case Send => s.(sent := Copies(s.sent, s.pending), passes := VerifyPasses(|s.pending|))
    case Land(n, fee) => Execute(s, c.plan[n], fee)
    case Expire(n) => s.(sent := s.sent[c.plan[n].funder := Get(s.sent, c.plan[n].funder) - 1])
    case Observe(i, answers) =>
      if Arrived(answers, s.pending[i].lamports) then s.(verified := s.verified + {s.pending[i].funder}) else s
    case Retain =>
      var kept := Unverified(s.pending, s.verified);
      s.(pending := kept, verified := {}, passes := if kept == [] then 0 else s.passes - 1)
    case NextBatch => s.(batch := s.batch + 1, pending := BatchAt(c, s.batch + 1), verified := {}, passes := 0)
  }

  ghost function Initial(c: Setup): State {
    State(0, BatchAt(c, 0), {}, 0, map[], c.start, map[], map[])
  }

  /** The events can happen one after the other from s. */
  ghost predicate Possible(c: Setup, s: State, events: seq<Event>)
    decreases |events|
  {
    |events| == 0 || (Enabled(c, s, events[0]) && Possible(c, Apply(c, s, events[0]), events[1..]))
  }

  ghost function RunFrom(c: Setup, s: State, events: seq<Event>): State
    requires Possible(c, s, events)
    decreases |events|
  {
    if |events| == 0 then s else RunFrom(c, Apply(c, s, events[0]), events[1..])
  }

  /** `fund_keys` has returned. */
  ghost predicate Finished(c: Setup, s: State) {
    s.batch == |c.ends|
  }

  // ----- The plan being carried out

  /** Distinct keys, as many as a complete tree needs. */
  ghost predicate Keyed(c: Setup) {
    && c.source !in c.dests
    && Distinct(c.dests)
    && |c.dests| == 4 * Nodes(c.depth)
  }

  ghost function At(c: Setup, p: nat): Key
    requires Keyed(c) && p <= |c.dests|
  {
    MultipleOfFour(|c.dests|, Nodes(c.depth));
    Node(c.source, c.dests, p)
  }

  /** What spend n pays each of its four destinations. */
  function Amount(c: Setup, n: nat): nat {
    if Round(n) < c.depth then Level(c.depth - 1 - Round(n), c.lamports, c.maxFee) else 0
  }

  /** The keys at the children of n. */
  ghost predicate AreChildren(c: Setup, n: nat, dests: seq<Key>)
    requires Keyed(c) && n < Nodes(c.depth)
  {
    |dests| == 4 && forall o: nat :: o < 4 ==> dests[o] == At(c, 4 * n + 1 + o)
  }

  /** Node n pays its four children what their subtrees need. */
  ghost predicate PaysChildren(c: Setup, n: nat, tx: Transfer)
    requires Keyed(c) && n < Nodes(c.depth)
  {
    tx.funder == At(c, n) && tx.lamports == Amount(c, n) && AreChildren(c, n, tx.dests)
  }

  /** No batch holds both a funder and the spend that pays it: spends Lo..Hi were all paid
      for by spends before Lo. */
  ghost predicate Batched(c: Setup) {
    && (forall b :: 0 <= b < |c.ends| ==> Lo(c, b) < Hi(c, b) <= |c.plan| && Hi(c, b) <= 4 * Lo(c, b) + 1)
    && Lo(c, |c.ends|) == |c.plan|
  }

  ghost predicate Planned(c: Setup) {
    && Keyed(c) && Batched(c)
    && c.minFee <= c.maxFee
    && |c.plan| == Nodes(c.depth)
    && forall n :: 0 <= n < |c.plan| ==> PaysChildren(c, n, c.plan[n])
  }

  // ----- Every generated plan is one

  function EndsOf(batches: seq<seq<Transfer>>): (ends: seq<nat>)
    ensures |ends| == |batches|
  {
    seq(|batches|, b requires 0 <= b < |batches| => |Concat(batches[..b + 1])|)
  }

  lemma {:induction false} ConcatPrefix(batches: seq<seq<Transfer>>, b: nat)
    requires b < |batches|
    ensures Concat(batches[..b + 1]) == Concat(batches[..b]) + batches[b]
    ensures Concat(batches[..b + 1]) <= Concat(batches)
  {
    assert batches[..b + 1] == batches[..b] + [batches[b]];
    ConcatAppend(batches[..b], [batches[b]]);
    assert Concat([batches[b]]) == batches[b] by { assert [batches[b]][1..] == []; }
    assert batches == batches[..b + 1] + batches[b + 1..];
    ConcatAppend(batches[..b + 1], batches[b + 1..]);
  }

  lemma BoundsAgree(c: Setup, batches: seq<seq<Transfer>>, b: nat)
    requires c.ends == EndsOf(batches) && b <= |batches|
    ensures Lo(c, b) == |Concat(batches[..b])|
    ensures b < |batches| ==> Hi(c, b) == |Concat(batches[..b + 1])|
  {
    assert b == 0 ==> batches[..b] == [];
  }

  lemma OneBatchAgrees(c: Setup, batches: seq<seq<Transfer>>, b: nat)
    requires c.plan == Concat(batches) && c.ends == EndsOf(batches) && b < |batches|
    ensures Hi(c, b) == Lo(c, b) + |batches[b]| <= |c.plan| && BatchAt(c, b) == batches[b]
  {
    BoundsAgree(c, batches, b);
    ConcatPrefix(batches, b);
    hide Concat, EndsOf, Lo, Hi;
    var before, upTo := Concat(batches[..b]), Concat(batches[..b + 1]);
    assert c.plan[..|upTo|] == upTo;
    assert c.plan[|before|..|upTo|] == upTo[|before|..] == batches[b];
  }

  /** The batches of the plan are the batches `fund_keys` made. */
  lemma BatchesAgree(c: Setup, batches: seq<seq<Transfer>>)
    requires RespectsRounds(batches) && c.plan == Concat(batches) && c.ends == EndsOf(batches)
    ensures Batched(c)
    ensures forall b :: 0 <= b < |batches| ==> BatchAt(c, b) == batches[b]
  {
    hide Concat, EndsOf, Lo, Hi, BatchAt;
    forall b | 0 <= b < |batches|
      ensures Lo(c, b) < Hi(c, b) <= |c.plan| && Hi(c, b) <= 4 * Lo(c, b) + 1
      ensures BatchAt(c, b) == batches[b]
    {
      BoundsAgree(c, batches, b);
      OneBatchAgrees(c, batches, b);
    }
    BoundsAgree(c, batches, |batches|);
    assert batches[..|batches|] == batches;
  }

  lemma {:induction false} RoundInTree(n: nat, depth: nat)
    requires n < Nodes(depth)
    ensures Round(n) < depth
    decreases depth
  {
    if n > 0 {
      RoundInTree((n - 1) / 4, depth - 1);
    }
  }

  lemma SpendAmount(c: Setup, n: nat)
    requires n < Nodes(c.depth)
    ensures FundsAt(Level(c.depth, c.lamports, c.maxFee), c.lamports, c.maxFee, Round(n) + 1) == Amount(c, n)
  {
    RoundInTree(n, c.depth);
    hide FundsAt, Level, Round;
    FundingIsExact(c.depth, c.lamports, c.maxFee, Round(n) + 1);
  }

  lemma SpendPaysChildren(c: Setup, n: nat, tx: Transfer)
    requires Keyed(c) && n < Nodes(c.depth)
    requires IsSpend(tx, n, c.source, c.dests, Level(c.depth, c.lamports, c.maxFee), c.lamports, c.maxFee)
    ensures PaysChildren(c, n, tx)
  {
    hide FundsAt, Level, Round, Amount, Distinct, DestIndex;
    SpendAmount(c, n);
    forall o: nat | o < 4
      ensures tx.dests[o] == At(c, 4 * n + 1 + o)
    {
      GroupIsChildren(c.source, c.dests, n, o);
    }
  }

  lemma HeapIsPlanned(c: Setup, batches: seq<seq<Transfer>>)
    requires Keyed(c) && c.minFee <= c.maxFee && c.plan == Concat(batches) && c.ends == EndsOf(batches)
    requires PlanTo(c.depth, batches, c.source, c.dests, Level(c.depth, c.lamports, c.maxFee), c.lamports, c.maxFee)
    ensures Planned(c)
  {
    BatchesAgree(c, batches);
    forall n | 0 <= n < |c.plan|
      ensures PaysChildren(c, n, c.plan[n])
    {
      SpendPaysChildren(c, n, c.plan[n]);
    }
  }

  /** `generate_and_fund_keypairs`, given a supply of keys: the generated count, its total
      and `fund_keys` fit together, for every count, amount and fee, so that nothing
      underflows and the batches are a complete plan over the generated keys. */
  method GenerateAndFund(source: Key, supply: seq<Key>, count: nat, lamports: nat, maxFee: nat)
    returns (keys: seq<Key>, r: FundResult)
    requires |supply| >= 4 * count && source !in supply
    requires Distinct(supply)
    ensures count <= |keys| <= 4 * count && keys == supply[..|keys|]
    ensures r.Funded?
    ensures forall minFee: nat, start, program :: minFee <= maxFee ==>
              Planned(Setup(source, keys, Depth(count), lamports, minFee, maxFee,
                            Concat(r.batches), EndsOf(r.batches), start, program))
  {
    var totalKeys, extra := GenerateKeypairs(count);
    keys := supply[..totalKeys];
    var total := lamports * (totalKeys + 1) + extra * maxFee;
    TotalIsTopLevel(Depth(count), lamports, maxFee);
    GeneratedTotalIsAffordable(Depth(count), lamports, maxFee);
    Finish(Depth(count), totalKeys);
    r := FundKeys(source, keys, total, maxFee, lamports);
    forall minFee: nat, start, program | minFee <= maxFee
      ensures Planned(Setup(source, keys, Depth(count), lamports, minFee, maxFee,
                            Concat(r.batches), EndsOf(r.batches), start, program))
    {
      HeapIsPlanned(
        Setup(source, keys, Depth(count), lamports, minFee, maxFee,
              Concat(r.batches), EndsOf(r.batches), start, program),
        r.batches);
    }
  }

  // ----- Amounts and keys of a plan

  lemma AtInjective(c: Setup, p: nat, q: nat)
    requires Keyed(c) && p <= |c.dests| && q <= |c.dests|
    ensures At(c, p) == At(c, q) <==> p == q
  {
    MultipleOfFour(|c.dests|, Nodes(c.depth));
    hide DestIndex, Nodes;
    if p > 0 && q > 0 {
      DestIndexInjective(|c.dests|, p, q);
      SamePlace(c.dests, DestIndex(|c.dests|, p), DestIndex(|c.dests|, q));
    } else if p > 0 {
      assert At(c, p) in c.dests;
    } else if q > 0 {
      assert At(c, q) in c.dests;
    }
  }

  /** A funder past the source was given four times what it pays on, plus what it keeps
      and one fee; a key that funds nobody was given exactly what it keeps. */
  lemma AmountOfParent(c: Setup, p: nat)
    requires 0 < p <= 4 * Nodes(c.depth)
    ensures p < Nodes(c.depth) ==> Amount(c, (p - 1) / 4) == 4 * Amount(c, p) + c.lamports + c.maxFee
    ensures p >= Nodes(c.depth) ==> Amount(c, (p - 1) / 4) == c.lamports
    ensures (p - 1) / 4 < Nodes(c.depth)
  {
    RoundInTree((p - 1) / 4, c.depth);
    if p < Nodes(c.depth) {
      RoundInTree(p, c.depth);
    } else {
      RoundOfNode(p, c.depth);
    }
  }

  lemma AmountAtLeast(c: Setup, n: nat)
    requires n < Nodes(c.depth)
    ensures Amount(c, n) >= c.lamports
    ensures n == 0 ==> Level(c.depth, c.lamports, c.maxFee) == 4 * Amount(c, 0) + c.lamports + c.maxFee
  {
    RoundInTree(n, c.depth);
  }

  // ----- What one execution does to each key

  lemma {:induction false} CreditAt(bank: map<Key, nat>, dests: seq<Key>, amount: nat, k: Key)
    requires Distinct(dests)
    ensures Get(Credit(bank, dests, amount), k) == Get(bank, k) + if k in dests then amount else 0
    decreases |dests|
  {
    if |dests| > 0 {
      CreditAt(bank[dests[0] := Get(bank, dests[0]) + amount], dests[1..], amount, k);
    }
  }

  predicate IsChild(n: nat, p: nat) {
    4 * n + 1 <= p <= 4 * n + 4
  }

  lemma ChildrenDistinct(c: Setup, n: nat, dests: seq<Key>)
    requires Keyed(c) && n < Nodes(c.depth) && AreChildren(c, n, dests)
    ensures Distinct(dests)
  {
    hide At;
    forall i, j | 0 <= i < j < |dests|
      ensures dests[i] != dests[j]
    {
      AtInjective(c, 4 * n + 1 + i, 4 * n + 1 + j);
    }
  }

  lemma InChildren(c: Setup, n: nat, dests: seq<Key>, p: nat)
    requires Keyed(c) && n < Nodes(c.depth) && AreChildren(c, n, dests) && p <= |c.dests|
    ensures At(c, p) in dests <==> IsChild(n, p)
  {
    hide At;
    if At(c, p) in dests {
      var o: nat :| o < |dests| && dests[o] == At(c, p);
      AtInjective(c, p, 4 * n + 1 + o);
    }
    if IsChild(n, p) {
      assert dests[p - 4 * n - 1] == At(c, p);
    }
  }

  lemma ExecuteKey(s: State, tx: Transfer, fee: nat, k: Key)
    requires |tx.dests| == 4 && Distinct(tx.dests) && Get(s.sent, tx.funder) > 0
    ensures var s', b := Execute(s, tx, fee), Get(s.bank, tx.funder);
            var pays, spends := b >= fee, b >= fee + 4 * tx.lamports;
            && Get(s'.sent, k) == Get(s.sent, k) - (if k == tx.funder && pays then 1 else 0)
            && Get(s'.fees, k) == Get(s.fees, k) + (if k == tx.funder && pays then fee else 0)
            && Get(s'.runs, k) == Get(s.runs, k) + (if k == tx.funder && spends then 1 else 0)
            && Get(s'.bank, k) == Get(s.bank, k)
                 - (if k == tx.funder && pays then fee else 0)
                 - (if k == tx.funder && spends then 4 * tx.lamports else 0)
                 + (if k in tx.dests && spends then tx.lamports else 0)
  {
    var b := Get(s.bank, tx.funder);
    if b >= fee + 4 * tx.lamports {
      CreditAt(s.bank[tx.funder := b - fee - 4 * tx.lamports], tx.dests, tx.lamports, k);
    }
  }

  /** A landing seen at node p: whether the spend goes through, and who gains or loses. */
  lemma ExecuteAt(c: Setup, s: State, n: nat, tx: Transfer, fee: nat, p: nat)
    requires Keyed(c) && n < Nodes(c.depth) && p <= |c.dests| && PaysChildren(c, n, tx)
    requires Get(s.sent, tx.funder) > 0
    ensures var s' := Execute(s, tx, fee);
            var k, b := At(c, p), Get(s.bank, At(c, n));
            var pays, spends := b >= fee, b >= fee + 4 * Amount(c, n);
            && Get(s'.sent, k) == Get(s.sent, k) - (if p == n && pays then 1 else 0)
            && Get(s'.fees, k) == Get(s.fees, k) + (if p == n && pays then fee else 0)
            && Get(s'.runs, k) == Get(s.runs, k) + (if p == n && spends then 1 else 0)
            && Get(s'.bank, k) == Get(s.bank, k)
                 - (if p == n && pays then fee else 0)
                 - (if p == n && spends then 4 * Amount(c, n) else 0)
                 + (if IsChild(n, p) && spends then Amount(c, n) else 0)
  {
    AtInjective(c, p, n);
    ChildrenDistinct(c, n, tx.dests);
    InChildren(c, n, tx.dests, p);
    hide Execute, At;
    ExecuteKey(s, tx, fee, At(c, p));
  }

  // ----- The ledger of every run

  ghost function RunsAt(c: Setup, s: State, p: nat): nat
    requires Keyed(c) && p <= |c.dests|
  {
    Get(s.runs, At(c, p))
  }

  ghost function FeesAt(c: Setup, s: State, p: nat): nat
    requires Keyed(c) && p <= |c.dests|
  {
    Get(s.fees, At(c, p))
  }

  function Paid(runs: nat, amount: nat): nat {
    runs * amount
  }

  lemma PaidStep(runs: nat, amount: nat)
    ensures Paid(0, amount) == 0 && Paid(1, amount) == amount
    ensures Paid(runs + 1, amount) == Paid(runs, amount) + amount
    ensures runs >= 1 ==> Paid(runs, amount) >= amount
    ensures runs >= 2 ==> Paid(runs, amount) >= 2 * amount
  {
    MulStep(runs, amount);
    Scale(1, runs, amount);
    Scale(2, runs, amount);
  }

  /** What node p has been given so far: its start and one amount for each run of the spend
      that pays it. */
  ghost function Received(c: Setup, s: State, p: nat): nat
    requires Keyed(c) && p <= |c.dests|
  {
    Get(c.start, At(c, p)) + if p > 0 then Paid(RunsAt(c, s, (p - 1) / 4), Amount(c, (p - 1) / 4)) else 0
  }

  ghost predicate BalanceOk(c: Setup, s: State, p: nat)
    requires Keyed(c) && p <= |c.dests|
  {
    Get(s.bank, At(c, p)) + FeesAt(c, s, p) + 4 * Paid(RunsAt(c, s, p), Amount(c, p)) == Received(c, s, p)
  }

  ghost predicate FeesOk(c: Setup, s: State, p: nat)
    requires Keyed(c) && p <= |c.dests|
  {
    && FeesAt(c, s, p) >= Paid(RunsAt(c, s, p), c.minFee)
    && (p >= Nodes(c.depth) ==> RunsAt(c, s, p) == 0 && FeesAt(c, s, p) == 0)
  }

  /** Node by node, however often anything ran: a balance is what was received less what was
      spent and charged, every run was charged for, and only funders run and pay. */
  ghost predicate LedgerOk(c: Setup, s: State)
    requires Keyed(c)
  {
    && (forall p :: 0 <= p <= |c.dests| ==> BalanceOk(c, s, p))
    && (forall p :: 0 <= p <= |c.dests| ==> FeesOk(c, s, p))
  }

  lemma LandKeepsFees(c: Setup, s: State, n: nat, tx: Transfer, fee: nat, p: nat)
    requires Keyed(c) && n < Nodes(c.depth) && p <= |c.dests| && PaysChildren(c, n, tx)
    requires Get(s.sent, tx.funder) > 0 && fee >= c.minFee && FeesOk(c, s, p)
    ensures FeesOk(c, Execute(s, tx, fee), p)
  {
    ExecuteAt(c, s, n, tx, fee, p);
    PaidStep(RunsAt(c, s, p), c.minFee);
    hide Execute, At, Amount, Paid, PaysChildren;
  }

  lemma LandKeepsBalance(c: Setup, s: State, n: nat, tx: Transfer, fee: nat, p: nat)
    requires Keyed(c) && n < Nodes(c.depth) && p <= |c.dests| && PaysChildren(c, n, tx)
    requires Get(s.sent, tx.funder) > 0 && BalanceOk(c, s, p)
    ensures BalanceOk(c, Execute(s, tx, fee), p)
  {
    hide Execute, At, Amount, PaysChildren, Paid;
    ExecuteAt(c, s, n, tx, fee, p);
    PaidStep(RunsAt(c, s, p), Amount(c, p));
    if p > 0 {
      var m := (p - 1) / 4;
      ExecuteAt(c, s, n, tx, fee, m);
      PaidStep(RunsAt(c, s, m), Amount(c, m));
      assert IsChild(n, p) <==> m == n;
    }
  }

  lemma LandKeepsLedger(c: Setup, s: State, n: nat, fee: nat)
    requires Planned(c) && LedgerOk(c, s) && Enabled(c, s, Land(n, fee))
    ensures LedgerOk(c, Apply(c, s, Land(n, fee)))
  {
    var s' := Execute(s, c.plan[n], fee);
    assert PaysChildren(c, n, c.plan[n]);
    hide Execute, At, PaysChildren, BalanceOk, FeesOk;
    forall p | 0 <= p <= |c.dests|
      ensures BalanceOk(c, s', p) && FeesOk(c, s', p)
    {
      LandKeepsFees(c, s, n, c.plan[n], fee, p);
      LandKeepsBalance(c, s, n, c.plan[n], fee, p);
    }
  }

  /** Steps that move no money keep the ledger. */
  lemma SameLedger(c: Setup, s: State, s': State)
    requires Keyed(c) && LedgerOk(c, s)
    requires s'.bank == s.bank && s'.fees == s.fees && s'.runs == s.runs
    ensures LedgerOk(c, s')
  {
    forall p | 0 <= p <= |c.dests|
      ensures BalanceOk(c, s', p) && FeesOk(c, s', p)
    {
      assert BalanceOk(c, s, p) && FeesOk(c, s, p);
      hide At, Amount, Paid;
    }
  }

  lemma NothingPaid(c: Setup, s: State, p: nat)
    requires Keyed(c) && p <= |c.dests| && s.bank == c.start && s.fees == map[] && s.runs == map[]
    ensures BalanceOk(c, s, p) && FeesOk(c, s, p)
  {
    hide Paid, Amount, At, Keyed;
    PaidStep(0, Amount(c, p));
    PaidStep(0, c.minFee);
    if p > 0 {
      PaidStep(0, Amount(c, (p - 1) / 4));
    }
  }

  lemma InitialLedger(c: Setup)
    requires Planned(c)
    ensures LedgerOk(c, Initial(c))
  {
    hide BalanceOk, FeesOk;
    forall p | 0 <= p <= |c.dests|
      ensures BalanceOk(c, Initial(c), p) && FeesOk(c, Initial(c), p)
    {
      NothingPaid(c, Initial(c), p);
    }
  }

  lemma StepKeepsLedger(c: Setup, s: State, e: Event)
    requires Planned(c) && LedgerOk(c, s) && Enabled(c, s, e)
    ensures LedgerOk(c, Apply(c, s, e))
  {
    if e.Land? {
      LandKeepsLedger(c, s, e.n, e.fee);
    } else {
      SameLedger(c, s, Apply(c, s, e));
    }
  }

  /** Conservation over every run of every plan: nothing is assumed about balances, fees,
      replays or what verification saw. */
  lemma {:induction false} EveryRunKeepsLedger(c: Setup, s: State, events: seq<Event>)
    requires Planned(c) && LedgerOk(c, s) && Possible(c, s, events)
    ensures LedgerOk(c, RunFrom(c, s, events))
    decreases |events|
  {
    if |events| > 0 {
      StepKeepsLedger(c, s, events[0]);
      hide LedgerOk, Planned, Enabled, Apply;
      EveryRunKeepsLedger(c, Apply(c, s, events[0]), events[1..]);
    }
  }

  // ----- The queue of every run

  /** Truthful answers can pass spend n off as done though it never ran: the system program
      holds its amount, or one of its destinations held that much from the start. */
  ghost predicate CanFool(c: Setup, n: nat)
    requires Keyed(c) && n < Nodes(c.depth)
  {
    c.programBalance >= Amount(c, n) || exists p: nat :: IsChild(n, p) && Get(c.start, At(c, p)) >= Amount(c, n)
  }

  ghost function Foolable(c: Setup): set<nat>
    requires Keyed(c)
  {
    set n | 0 <= n < Nodes(c.depth) && CanFool(c, n)
  }

  ghost predicate Done(c: Setup, s: State, n: nat, excused: set<nat>)
    requires Keyed(c) && n < Nodes(c.depth)
  {
    RunsAt(c, s, n) > 0 || n in excused
  }

  /** Spend n: pending only in its own batch, done once it is past or dropped or verified
      (unless it is excused), and untouched before its batch. */
  ghost predicate PendingOk(c: Setup, s: State, n: nat, excused: set<nat>)
    requires Keyed(c) && n < |c.plan| == Nodes(c.depth)
  {
    && (c.plan[n] in s.pending ==> Lo(c, s.batch) <= n < Hi(c, s.batch))
    && (n < Hi(c, s.batch) && c.plan[n] !in s.pending ==> Done(c, s, n, excused))
    && (At(c, n) in s.verified ==> Done(c, s, n, excused))
    && (n >= Hi(c, s.batch) ==> Get(s.sent, At(c, n)) == 0 && RunsAt(c, s, n) == 0 && FeesAt(c, s, n) == 0)
  }

  ghost predicate QueueOk(c: Setup, s: State, excused: set<nat>)
    requires Keyed(c) && |c.plan| == Nodes(c.depth)
  {
    && s.batch <= |c.ends|
    && (s.passes == 0 ==> s.verified == {})
    && (forall tx :: tx in s.pending ==> tx in BatchAt(c, s.batch))
    && (forall n :: 0 <= n < |c.plan| ==> PendingOk(c, s, n, excused))
  }

  ghost predicate Inv(c: Setup, s: State, excused: set<nat>)
    requires Planned(c)
  {
    LedgerOk(c, s) && QueueOk(c, s, excused)
  }

  lemma LandKeepsQueue(c: Setup, s: State, n: nat, fee: nat, excused: set<nat>)
    requires Planned(c) && QueueOk(c, s, excused) && Enabled(c, s, Land(n, fee))
    ensures QueueOk(c, Apply(c, s, Land(n, fee)), excused)
  {
    var s' := Execute(s, c.plan[n], fee);
    assert s' == s.(bank := s'.bank, fees := s'.fees, runs := s'.runs, sent := s'.sent);
    assert PaysChildren(c, n, c.plan[n]) && PendingOk(c, s, n, excused);
    hide Execute, At, PaysChildren, Amount;
    forall m | 0 <= m < |c.plan|
      ensures PendingOk(c, s', m, excused)
    {
      assert PendingOk(c, s, m, excused);
      ExecuteAt(c, s, n, c.plan[n], fee, m);
    }
  }

  lemma ExpireKeepsQueue(c: Setup, s: State, n: nat, excused: set<nat>)
    requires Planned(c) && QueueOk(c, s, excused) && Enabled(c, s, Expire(n))
    ensures QueueOk(c, Apply(c, s, Expire(n)), excused)
  {
    var s' := Apply(c, s, Expire(n));
    hide At, AreChildren;
    forall m | 0 <= m < |c.plan|
      ensures PendingOk(c, s', m, excused)
    {
      assert PendingOk(c, s, m, excused);
    }
  }

  lemma PendingIndex(c: Setup, s: State, tx: Transfer) returns (n: nat)
    requires Batched(c) && s.batch <= |c.ends| && tx in BatchAt(c, s.batch)
    ensures Lo(c, s.batch) <= n < Hi(c, s.batch) <= |c.plan| && tx == c.plan[n]
  {
    var j :| 0 <= j < |BatchAt(c, s.batch)| && BatchAt(c, s.batch)[j] == tx;
    n := Lo(c, s.batch) + j;
  }

  /** A child of a spend that never ran holds no more than it started with. */
  lemma ChildUnpaid(c: Setup, s: State, n: nat, p: nat)
    requires Keyed(c) && LedgerOk(c, s)
    requires n < Nodes(c.depth) && IsChild(n, p) && RunsAt(c, s, n) == 0
    ensures Get(s.bank, At(c, p)) <= Get(c.start, At(c, p))
  {
    assert (p - 1) / 4 == n && BalanceOk(c, s, p);
    PaidStep(0, Amount(c, n));
    hide LedgerOk, At, Amount, Paid;
  }

  /** A true answer at or above the amount means that the spend has run or can be faked. */
  lemma ObservedIsDone(c: Setup, s: State, n: nat, tx: Transfer, answers: seq<Option<nat>>)
    requires Keyed(c) && LedgerOk(c, s) && n < Nodes(c.depth) && PaysChildren(c, n, tx)
    requires Truthful(c, s, tx, answers) && Arrived(answers, tx.lamports)
    ensures Done(c, s, n, Foolable(c))
  {
    hide LedgerOk, At, Amount, Distinct;
    var i: nat :| i < |answers| && answers[i].Some? && answers[i].value >= tx.lamports;
    if RunsAt(c, s, n) == 0 {
      if i < 4 {
        var p := 4 * n + 1 + i;
        assert tx.dests[i] == At(c, p) && IsChild(n, p);
        ChildUnpaid(c, s, n, p);
      }
      assert CanFool(c, n);
    }
  }

  lemma VerifiedKeepsQueue(c: Setup, s: State, n: nat, excused: set<nat>)
    requires Keyed(c) && s.passes > 0 && n < |c.plan| == Nodes(c.depth) && QueueOk(c, s, excused) && Done(c, s, n, excused)
    ensures QueueOk(c, s.(verified := s.verified + {At(c, n)}), excused)
  {
    var s' := s.(verified := s.verified + {At(c, n)});
    hide At;
    forall m | 0 <= m < |c.plan|
      ensures PendingOk(c, s', m, excused)
    {
      assert PendingOk(c, s, m, excused);
      AtInjective(c, m, n);
    }
  }

  lemma ObserveKeepsQueue(c: Setup, s: State, i: nat, answers: seq<Option<nat>>)
    requires Planned(c) && Inv(c, s, Foolable(c)) && Enabled(c, s, Observe(i, answers))
    ensures QueueOk(c, Apply(c, s, Observe(i, answers)), Foolable(c))
  {
    var tx := s.pending[i];
    if Arrived(answers, tx.lamports) {
      var n := PendingIndex(c, s, tx);
      assert PaysChildren(c, n, tx);
      hide LedgerOk, QueueOk, Arrived, Truthful, At, AreChildren, Foolable, Done;
      ObservedIsDone(c, s, n, tx, answers);
      VerifiedKeepsQueue(c, s, n, Foolable(c));
    }
  }

  /** Sending makes copies of nothing outside the batch. */
  lemma NoOtherCopy(c: Setup, s: State, n: nat)
    requires Planned(c) && s.batch <= |c.ends| && n < |c.plan| && !(Lo(c, s.batch) <= n < Hi(c, s.batch))
    requires forall tx :: tx in s.pending ==> tx in BatchAt(c, s.batch)
    ensures Get(Copies(s.sent, s.pending), At(c, n)) == Get(s.sent, At(c, n))
  {
    forall tx | tx in s.pending
      ensures tx.funder != At(c, n)
    {
      var m := PendingIndex(c, s, tx);
      assert PaysChildren(c, m, tx);
      hide At, AreChildren, Amount;
      AtInjective(c, m, n);
    }
    NoCopyAdded(s.sent, s.pending, At(c, n));
  }

  lemma SendKeepsQueue(c: Setup, s: State, excused: set<nat>)
    requires Planned(c) && QueueOk(c, s, excused) && Enabled(c, s, Send)
    ensures QueueOk(c, Apply(c, s, Send), excused)
  {
    var s' := Apply(c, s, Send);
    forall n | 0 <= n < |c.plan|
      ensures PendingOk(c, s', n, excused)
    {
      assert PendingOk(c, s, n, excused);
      if n >= Hi(c, s.batch) {
        NoOtherCopy(c, s, n);
      }
      hide At, AreChildren, Copies;
    }
  }

  lemma RetainKeepsQueue(c: Setup, s: State, excused: set<nat>)
    requires Planned(c) && QueueOk(c, s, excused) && Enabled(c, s, Retain)
    ensures QueueOk(c, Apply(c, s, Retain), excused)
  {
    var s' := Apply(c, s, Retain);
    hide At, AreChildren, Unverified;
    forall tx | tx in s'.pending
      ensures tx in BatchAt(c, s'.batch)
    {
      UnverifiedHolds(s.pending, s.verified, tx);
    }
    forall n | 0 <= n < |c.plan|
      ensures PendingOk(c, s', n, excused)
    {
      assert PendingOk(c, s, n, excused) && PaysChildren(c, n, c.plan[n]);
      UnverifiedHolds(s.pending, s.verified, c.plan[n]);
    }
  }

  lemma PlanDistinct(c: Setup)
    requires Planned(c)
    ensures Distinct(c.plan)
  {
    forall i, j | 0 <= i < j < |c.plan|
      ensures c.plan[i] != c.plan[j]
    {
      assert PaysChildren(c, i, c.plan[i]) && PaysChildren(c, j, c.plan[j]);
      hide At, AreChildren, Amount;
      AtInjective(c, i, j);
    }
  }

  lemma InSlice<T>(s: seq<T>, lo: nat, hi: nat, n: nat)
    requires Distinct(s) && lo <= hi <= |s| && n < |s|
    ensures s[n] in s[lo..hi] <==> lo <= n < hi
  {
    if lo <= n < hi {
      assert s[lo..hi][n - lo] == s[n];
    }
  }

  /** A spend is in the batch exactly when its number is. */
  lemma InBatch(c: Setup, b: nat, n: nat)
    requires Planned(c) && b <= |c.ends| && n < |c.plan|
    ensures c.plan[n] in BatchAt(c, b) <==> Lo(c, b) <= n < Hi(c, b)
  {
    PlanDistinct(c);
    assert Lo(c, b) <= Hi(c, b) <= |c.plan|;
    hide Planned, Lo, Hi, Distinct;
    InSlice(c.plan, Lo(c, b), Hi(c, b), n);
  }

  lemma NextBatchKeepsQueue(c: Setup, s: State, excused: set<nat>)
    requires Planned(c) && QueueOk(c, s, excused) && Enabled(c, s, NextBatch)
    ensures QueueOk(c, Apply(c, s, NextBatch), excused)
  {
    var s' := Apply(c, s, NextBatch);
    assert Lo(c, s'.batch) == Hi(c, s.batch) <= Hi(c, s'.batch) <= |c.plan|;
    forall n | 0 <= n < |c.plan|
      ensures PendingOk(c, s', n, excused)
    {
      assert PendingOk(c, s, n, excused);
      InBatch(c, s'.batch, n);
      hide At;
    }
  }

  lemma InitialQueue(c: Setup, excused: set<nat>)
    requires Planned(c)
    ensures QueueOk(c, Initial(c), excused)
  {
    forall n | 0 <= n < |c.plan|
      ensures PendingOk(c, Initial(c), n, excused)
    {
      InBatch(c, 0, n);
    }
  }

  lemma StepKeepsQueue(c: Setup, s: State, e: Event)
    requires Planned(c) && Inv(c, s, Foolable(c)) && Enabled(c, s, e)
    ensures QueueOk(c, Apply(c, s, e), Foolable(c))
  {
    assert QueueOk(c, s, Foolable(c));
    hide Inv, QueueOk, Planned, Foolable;
    match e {
      case Land(n, fee) => LandKeepsQueue(c, s, n, fee, Foolable(c));
      case Expire(n) => ExpireKeepsQueue(c, s, n, Foolable(c));
      case Observe(i, answers) => ObserveKeepsQueue(c, s, i, answers);
      case NextBatch => NextBatchKeepsQueue(c, s, Foolable(c));
      case Send => SendKeepsQueue(c, s, Foolable(c));
      case Retain => RetainKeepsQueue(c, s, Foolable(c));
    }
  }

  /** Over every run of every plan: the ledger balances, spends stay in their batch, and
      whatever `fund` dropped has run, unless truthful answers can fake it. */
  lemma {:induction false} EveryRunKeepsInv(c: Setup, s: State, events: seq<Event>)
    requires Planned(c) && Inv(c, s, Foolable(c)) && Possible(c, s, events)
    ensures Inv(c, RunFrom(c, s, events), Foolable(c))
    decreases |events|
  {
    if |events| > 0 {
      StepKeepsQueue(c, s, events[0]);
      StepKeepsLedger(c, s, events[0]);
      hide LedgerOk, QueueOk, Planned, Foolable, Enabled, Apply;
      EveryRunKeepsInv(c, Apply(c, s, events[0]), events[1..]);
    }
  }

  lemma InitialInv(c: Setup, excused: set<nat>)
    requires Planned(c)
    ensures Inv(c, Initial(c), excused)
  {
    InitialLedger(c);
    InitialQueue(c, excused);
  }

  // ----- At most once

  /** All that node n can have received when no spend ran twice. */
  ghost function Allotted(c: Setup, n: nat): nat
    requires Keyed(c) && n <= |c.dests|
  {
    Get(c.start, At(c, n)) + if n > 0 then Amount(c, (n - 1) / 4) else 0
  }

  /** No funder is allotted enough for two spends and two fees. */
  ghost predicate ReplaySafe(c: Setup)
    requires Keyed(c)
  {
    forall n :: 0 <= n < Nodes(c.depth) ==> Allotted(c, n) < 8 * Amount(c, n) + 2 * c.minFee
  }

  ghost predicate Once(c: Setup, s: State)
    requires Keyed(c)
  {
    forall p :: 0 <= p <= |c.dests| ==> RunsAt(c, s, p) <= 1
  }

  lemma LeftAfterOne(c: Setup, s: State, n: nat)
    requires Keyed(c) && n < Nodes(c.depth) && BalanceOk(c, s, n) && FeesOk(c, s, n)
    requires RunsAt(c, s, n) == 1 && (n > 0 ==> RunsAt(c, s, (n - 1) / 4) <= 1)
    ensures Get(s.bank, At(c, n)) + c.minFee + 4 * Amount(c, n) <= Allotted(c, n)
  {
    assert n <= |c.dests|;
    hide Amount, At, Paid, Keyed;
    PaidStep(1, Amount(c, n));
    PaidStep(1, c.minFee);
    if n > 0 {
      PaidStep(RunsAt(c, s, (n - 1) / 4), Amount(c, (n - 1) / 4));
    }
  }

  /** A spend that has run cannot be afforded again. */
  lemma NoSecondLanding(c: Setup, s: State, n: nat, fee: nat)
    requires Keyed(c) && ReplaySafe(c) && LedgerOk(c, s) && Once(c, s)
    requires n < Nodes(c.depth) && RunsAt(c, s, n) == 1 && fee >= c.minFee
    ensures Get(s.bank, At(c, n)) < fee + 4 * Amount(c, n)
  {
    assert n <= |c.dests|;
    hide Amount, At, Paid, Keyed, BalanceOk, FeesOk, Allotted;
    assert BalanceOk(c, s, n) && FeesOk(c, s, n);
    assert Allotted(c, n) < 8 * Amount(c, n) + 2 * c.minFee;
    assert n > 0 ==> RunsAt(c, s, (n - 1) / 4) <= 1;
    LeftAfterOne(c, s, n);
  }

  lemma LandKeepsOnce(c: Setup, s: State, n: nat, fee: nat)
    requires Planned(c) && ReplaySafe(c) && LedgerOk(c, s) && Once(c, s) && Enabled(c, s, Land(n, fee))
    ensures Once(c, Apply(c, s, Land(n, fee)))
  {
    var s' := Execute(s, c.plan[n], fee);
    assert PaysChildren(c, n, c.plan[n]) && RunsAt(c, s, n) <= 1;
    if RunsAt(c, s, n) == 1 {
      NoSecondLanding(c, s, n, fee);
    }
    hide Execute, At, Amount, PaysChildren, ReplaySafe, LedgerOk;
    forall p | 0 <= p <= |c.dests|
      ensures RunsAt(c, s', p) <= 1
    {
      assert RunsAt(c, s, p) <= 1;
      ExecuteAt(c, s, n, c.plan[n], fee, p);
    }
  }

  lemma StepKeepsOnce(c: Setup, s: State, e: Event)
    requires Planned(c) && ReplaySafe(c) && LedgerOk(c, s) && Once(c, s) && Enabled(c, s, e)
    ensures Once(c, Apply(c, s, e))
  {
    if e.Land? {
      LandKeepsOnce(c, s, e.n, e.fee);
    } else {
      assert Apply(c, s, e).runs == s.runs;
      assert forall p :: 0 <= p <= |c.dests| ==> RunsAt(c, Apply(c, s, e), p) == RunsAt(c, s, p);
    }
  }

  lemma {:induction false} EveryRunKeepsOnce(c: Setup, s: State, events: seq<Event>)
    requires Planned(c) && ReplaySafe(c) && LedgerOk(c, s) && Once(c, s) && Possible(c, s, events)
    ensures Once(c, RunFrom(c, s, events))
    decreases |events|
  {
    if |events| > 0 {
      StepKeepsLedger(c, s, events[0]);
      StepKeepsOnce(c, s, events[0]);
      hide LedgerOk, Once, ReplaySafe, Planned, Enabled, Apply;
      EveryRunKeepsOnce(c, Apply(c, s, events[0]), events[1..]);
    }
  }

  /** In every run of the protocol, whatever the cluster does, however often a transaction is
      signed and sent again and whatever verification is told: no spend runs twice. */
  lemma ReplaySafety(c: Setup, events: seq<Event>, p: nat)
    requires Planned(c) && ReplaySafe(c) && Possible(c, Initial(c), events) && p <= |c.dests|
    ensures RunsAt(c, RunFrom(c, Initial(c), events), p) <= 1
  {
    InitialLedger(c);
    assert Once(c, Initial(c));
    EveryRunKeepsOnce(c, Initial(c), events);
  }

  // ----- What `fund_keys` leaves behind

  lemma FinishedOnce(c: Setup, events: seq<Event>, n: nat)
    requires Planned(c) && ReplaySafe(c) && Foolable(c) == {} && Possible(c, Initial(c), events)
    requires Finished(c, RunFrom(c, Initial(c), events)) && n < Nodes(c.depth)
    ensures RunsAt(c, RunFrom(c, Initial(c), events), n) == 1
  {
    var s := RunFrom(c, Initial(c), events);
    InitialInv(c, {});
    EveryRunKeepsInv(c, Initial(c), events);
    ReplaySafety(c, events, n);
    assert PendingOk(c, s, n, {}) && Lo(c, s.batch) == Hi(c, s.batch) == |c.plan|;
  }

  /** When `fund_keys` returns and verification could not be fooled, every spend has run
      exactly once: a key that funds nobody has gained exactly `lamports`, and every other
      key holds `lamports` on top of what it started with, plus the fee it was given, less
      the fees it was charged. */
  lemma FinalBalances(c: Setup, events: seq<Event>, p: nat)
    requires Planned(c) && ReplaySafe(c) && Foolable(c) == {} && Possible(c, Initial(c), events)
    requires Finished(c, RunFrom(c, Initial(c), events)) && p <= |c.dests|
    ensures var s := RunFrom(c, Initial(c), events);
            var balance, was := Get(s.bank, At(c, p)), Get(c.start, At(c, p));
            && (p >= Nodes(c.depth) && p > 0 ==> balance == was + c.lamports)
            && (0 < p < Nodes(c.depth) ==> balance + FeesAt(c, s, p) == was + c.lamports + c.maxFee)
            && (p == 0 && c.depth > 0 ==>
                  balance + FeesAt(c, s, p) + Level(c.depth, c.lamports, c.maxFee) == was + c.lamports + c.maxFee)
  {
    var s := RunFrom(c, Initial(c), events);
    InitialInv(c, {});
    EveryRunKeepsInv(c, Initial(c), events);
    assert BalanceOk(c, s, p) && FeesOk(c, s, p);
    if p < Nodes(c.depth) {
      FinishedOnce(c, events, p);
    }
    if p > 0 {
      AmountOfParent(c, p);
      FinishedOnce(c, events, (p - 1) / 4);
      PaidStep(1, Amount(c, (p - 1) / 4));
    } else if c.depth > 0 {
      AmountAtLeast(c, 0);
    }
    PaidStep(0, Amount(c, p));
    hide At, Amount, Level, RunFrom, Paid, LedgerOk, QueueOk;
  }
}

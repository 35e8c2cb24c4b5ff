/** The funding tree of bench-tps: how many keys are generated, what total they need,
    and how `fund_keys` spreads that total over them four at a time. */
module FundingPlan {
  import opened Slices

  const MAX_SPENDS_PER_TX: nat := 4
  /** 4 MB of network buffers in 512 byte packets. */
  const FUND_CHUNK_LEN: nat := 8192

  datatype Key = Key(id: nat)
  datatype Transfer = Transfer(funder: Key, dests: seq<Key>, lamports: nat)

  /** Outcome of `fund_keys`: one batch per call of `fund`, or the unsigned subtraction
      that would go below zero. */
  datatype FundResult =
    | Funded(batches: seq<seq<Transfer>>)
    | FundsUnderflow
    | KeysUnderflow

  // ----- Sizes of complete 4-ary trees

  /** Nodes of a complete 4-ary tree with `levels` levels: 1 + 4 + 16 + ... */
  function Nodes(levels: nat): (n: nat)
    ensures n >= levels
  {
    if levels == 0 then 0 else 4 * Nodes(levels - 1) + 1
  }

  function Pow4(r: nat): nat {
    if r == 0 then 1 else 4 * Pow4(r - 1)
  }

  /** The bottom level of a tree with r + 1 levels has 4^r nodes. */
  lemma {:induction false} BottomLevel(r: nat)
    ensures Nodes(r + 1) == Nodes(r) + Pow4(r)
  {
    if r > 0 {
      BottomLevel(r - 1);
    }
  }

  lemma {:induction false} NodesMonotone(a: nat, b: nat)
    requires a <= b
    ensures Nodes(a) <= Nodes(b)
    ensures a < b ==> Nodes(a) < Nodes(b)
    decreases b
  {
    if a < b {
      NodesMonotone(a, b - 1);
    }
  }

  /** The first r, counting up from `r`, whose tree has at least `count` nodes below its root. */
  function DepthFrom(count: nat, r: nat): (d: nat)
    requires r == 0 || 4 * Nodes(r - 1) < count
    ensures d >= r && 4 * Nodes(d) >= count
    ensures d == 0 || 4 * Nodes(d - 1) < count
    decreases count - 4 * Nodes(r)
  {
    if 4 * Nodes(r) >= count then r else DepthFrom(count, r + 1)
  }

  /** The least depth of a tree with at least `count` nodes below its root. */
  function Depth(count: nat): (d: nat)
    ensures 4 * Nodes(d) >= count
    ensures d == 0 || 4 * Nodes(d - 1) < count
  {
    DepthFrom(count, 0)
  }

  lemma DepthIsUnique(count: nat, d: nat)
    requires 4 * Nodes(d) >= count
    requires d == 0 || 4 * Nodes(d - 1) < count
    ensures d == Depth(count)
  {
    var e := Depth(count);
    if d < e {
      NodesMonotone(d, e - 1);
    } else if e < d {
      NodesMonotone(e, d - 1);
    }
  }

  /** The key counting of `generate_keypairs`: the least complete tree that covers `count`,
      and never more than four times the keys asked for. */
  method GenerateKeypairs(count: nat) returns (totalKeys: nat, extra: nat)
    ensures extra == Nodes(Depth(count))
    ensures totalKeys == 4 * extra
    ensures count <= totalKeys <= 4 * count
  {
    totalKeys, extra := 0, 0;
    var delta := 1;
    ghost var r := 0;
    while totalKeys < count
      invariant extra == Nodes(r) && totalKeys == 4 * extra && delta == Pow4(r)
      invariant r == 0 || 4 * Nodes(r - 1) < count
      decreases count - totalKeys
    {
      BottomLevel(r);
      extra := extra + delta;
      delta := delta * MAX_SPENDS_PER_TX;
      totalKeys := totalKeys + delta;
      r := r + 1;
    }
    DepthIsUnique(count, r);
  }

  // ----- Amounts

  /** What a subtree with `below` levels of spending under its root must hold: four
      subtrees, the amount the root keeps, and the fee of one spend. */
  function Level(below: nat, lamports: nat, fee: nat): (n: nat)
    ensures n >= lamports
  {
    if below == 0 then lamports else 4 * Level(below - 1, lamports, fee) + lamports + fee
  }

  /** The total computed by `generate_and_fund_keypairs` for `totalKeys` keys. */
  function TotalToFund(totalKeys: nat, extra: nat, lamports: nat, maxFee: nat): nat {
    lamports * (totalKeys + 1) + extra * maxFee
  }

  /** That total is what the whole tree must hold: a geometric series in closed form. */
  lemma {:induction false} TotalIsTopLevel(depth: nat, lamports: nat, maxFee: nat)
    ensures TotalToFund(4 * Nodes(depth), Nodes(depth), lamports, maxFee) == Level(depth, lamports, maxFee)
  {
    if depth > 0 {
      var k := Nodes(depth - 1);
      TotalIsTopLevel(depth - 1, lamports, maxFee);
      Distribute(lamports, 4 * k + 1);
      Distribute(maxFee, k);
    }
  }

  lemma Distribute(x: nat, y: nat)
    ensures x * (4 * y + 1) == 4 * (x * y) + x
    ensures (4 * y + 1) * x == 4 * (y * x) + x
  {
  }

  /** `funded_funds` at the start of round i; below zero once a subtraction has underflowed. */
  function FundsAt(total: nat, lamports: nat, maxFee: nat, i: nat): int {
    if i == 0 then total else (FundsAt(total, lamports, maxFee, i - 1) - lamports - maxFee) / 4
  }

  /** Every subtraction of the first `rounds` rounds stays at or above zero. */
  predicate Affordable(total: nat, lamports: nat, maxFee: nat, rounds: nat) {
    forall i :: 0 <= i < rounds ==> FundsAt(total, lamports, maxFee, i) >= lamports + maxFee
  }

  lemma {:induction false} FundsAreLevels(depth: nat, total: nat, lamports: nat, maxFee: nat, i: nat)
    requires i <= depth && total == Level(depth, lamports, maxFee)
    ensures FundsAt(total, lamports, maxFee, i) == Level(depth - i, lamports, maxFee)
    decreases i
  {
    if i > 0 {
      FundsAreLevels(depth, total, lamports, maxFee, i - 1);
    }
  }

  /** Exact funding. With the generated total every division by four is exact, nothing
      underflows, and the last round pays out exactly `lamports`. */
  lemma FundingIsExact(depth: nat, lamports: nat, maxFee: nat, i: nat)
    requires i <= depth
    ensures var total := Level(depth, lamports, maxFee);
            && FundsAt(total, lamports, maxFee, i) == Level(depth - i, lamports, maxFee)
            && (i < depth ==>
                  FundsAt(total, lamports, maxFee, i)
                  == 4 * FundsAt(total, lamports, maxFee, i + 1) + lamports + maxFee)
            && (i == depth ==> FundsAt(total, lamports, maxFee, i) == lamports)
  {
    var total := Level(depth, lamports, maxFee);
    FundsAreLevels(depth, total, lamports, maxFee, i);
    if i < depth {
      FundsAreLevels(depth, total, lamports, maxFee, i + 1);
    }
  }

  lemma GeneratedTotalIsAffordable(depth: nat, lamports: nat, maxFee: nat)
    ensures Affordable(Level(depth, lamports, maxFee), lamports, maxFee, depth)
  {
    forall i | 0 <= i < depth
      ensures FundsAt(Level(depth, lamports, maxFee), lamports, maxFee, i) >= lamports + maxFee
    {
      FundingIsExact(depth, lamports, maxFee, i);
      FundingIsExact(depth, lamports, maxFee, i + 1);
    }
  }

  // ----- Shape

  /** The level of node n when the tree is numbered row by row from 0. */
  function Round(n: nat): nat {
    if n == 0 then 0 else 1 + Round((n - 1) / 4)
  }

  lemma {:induction false} RoundOfNode(n: nat, i: nat)
    requires Nodes(i) <= n < Nodes(i + 1)
    ensures Round(n) == i
    decreases i
  {
    if i > 0 {
      RoundOfNode((n - 1) / 4, i - 1);
    }
  }

  /** Node p of the funding tree: the source, then the destinations taken in groups of
      four from the end of the list. */
  function Node(source: Key, dests: seq<Key>, p: nat): Key
    requires p <= 4 * (|dests| / 4)
  {
    if p == 0 then source else dests[DestIndex(|dests|, p)]
  }

  lemma MultipleOfFour(size: nat, k: nat)
    requires size == 4 * k
    ensures 4 * (size / 4) == size
  {
  }

  /** Where node p > 0 sits in a destination list of the given size. */
  function DestIndex(size: nat, p: nat): (i: nat)
    requires 0 < p <= 4 * (size / 4)
    ensures i < size
  {
    size - 4 * ((p - 1) / 4) - 4 + (p - 1) % 4
  }

  lemma DestIndexInjective(size: nat, p: nat, q: nat)
    requires 0 < p <= 4 * (size / 4) && 0 < q <= 4 * (size / 4)
    ensures DestIndex(size, p) == DestIndex(size, q) ==> p == q
  {
  }

  /** Spend number n: node n pays the n-th group of four from the end. */
  function HeapTransfer(source: Key, dests: seq<Key>, n: nat, lamports: nat): Transfer
    requires 4 * n + 4 <= |dests|
  {
    Transfer(Node(source, dests, n), dests[|dests| - 4 * n - 4..|dests| - 4 * n], lamports)
  }

  /** That group is the children 4n+1 .. 4n+4 of node n. */
  lemma GroupIsChildren(source: Key, dests: seq<Key>, n: nat, o: nat)
    requires 4 * n + 4 <= |dests| && o < 4
    ensures dests[|dests| - 4 * n - 4 + o] == Node(source, dests, 4 * n + 1 + o)
  {
    assert (4 * n + o) / 4 == n && (4 * n + o) % 4 == o;
  }

  /** `row` is the nodes first, first + 1, ... */
  ghost predicate IsRow(row: seq<Key>, source: Key, dests: seq<Key>, first: nat) {
    && first + |row| <= 4 * (|dests| / 4) + 1
    && forall j :: 0 <= j < |row| ==> row[j] == Node(source, dests, first + j)
  }

  /** `spends` is the spends first, first + 1, ... at one amount. */
  ghost predicate AreSpends(spends: seq<Transfer>, source: Key, dests: seq<Key>, first: nat, lamports: nat) {
    && 4 * (first + |spends|) <= |dests|
    && forall j :: 0 <= j < |spends| ==> spends[j] == HeapTransfer(source, dests, first + j, lamports)
  }

  lemma WholeGroups(groups: nat, size: nat)
    requires 4 * groups <= size
    ensures 4 * groups <= 4 * (size / 4)
  {
  }

  lemma NextGroup(row: seq<Key>, source: Key, dests: seq<Key>, base: nat, j: nat, group: seq<Key>)
    requires IsRow(row, source, dests, 4 * base + 1) && |row| == 4 * j
    requires 4 * (base + j) + 4 <= |dests|
    requires group == dests[|dests| - 4 * (base + j) - 4..|dests| - 4 * (base + j)]
    ensures IsRow(row + group, source, dests, 4 * base + 1)
  {
    var longer := row + group;
    WholeGroups(base + j + 1, |dests|);
    hide DestIndex;
    forall k | 0 <= k < |longer|
      ensures longer[k] == Node(source, dests, 4 * base + 1 + k)
    {
      if k >= |row| {
        GroupIsChildren(source, dests, base + j, k - |row|);
      }
    }
  }

  lemma NextSpend(spends: seq<Transfer>, source: Key, dests: seq<Key>, first: nat, lamports: nat, tx: Transfer)
    requires AreSpends(spends, source, dests, first, lamports)
    requires 4 * (first + |spends|) + 4 <= |dests|
    requires tx == HeapTransfer(source, dests, first + |spends|, lamports)
    ensures AreSpends(spends + [tx], source, dests, first, lamports)
  {
    hide HeapTransfer;
  }

  /** tx is spend n of the tree, at the amount its round has to give. */
  ghost predicate IsSpend(tx: Transfer, n: nat, source: Key, dests: seq<Key>,
                          total: nat, lamports: nat, maxFee: nat)
  {
    && 4 * n + 4 <= |dests|
    && FundsAt(total, lamports, maxFee, Round(n) + 1) >= 0
    && tx == HeapTransfer(source, dests, n, FundsAt(total, lamports, maxFee, Round(n) + 1))
  }

  /** All spends have been laid out as a complete 4-ary heap, round after round. */
  ghost predicate IsHeapPlan(plan: seq<Transfer>, source: Key, dests: seq<Key>,
                             total: nat, lamports: nat, maxFee: nat)
  {
    && 4 * |plan| <= |dests|
    && forall n :: 0 <= n < |plan| ==> IsSpend(plan[n], n, source, dests, total, lamports, maxFee)
  }

  /** No batch holds both a funder and the spend that funds it: spends lo..hi reach back
      only to spends before lo. */
  ghost predicate RespectsRounds(batches: seq<seq<Transfer>>) {
    forall b :: 0 <= b < |batches| ==>
      0 < |batches[b]| &&
      |Concat(batches[..b])| + |batches[b]| <= 4 * |Concat(batches[..b])| + 1
  }

  lemma {:induction false} ChunksRespectRounds(batches: seq<seq<Transfer>>, pieces: seq<seq<Transfer>>, start: nat)
    requires RespectsRounds(batches)
    requires start <= |Concat(batches)|
    requires forall i :: 0 <= i < |pieces| ==> 0 < |pieces[i]|
    requires |Concat(batches)| + |Concat(pieces)| <= 4 * start + 1
    ensures RespectsRounds(batches + pieces)
    ensures Concat(batches + pieces) == Concat(batches) + Concat(pieces)
    decreases |pieces|
  {
    if |pieces| == 0 {
      assert batches + pieces == batches;
    } else {
      var more := batches + [pieces[0]];
      ConcatAppend(batches, [pieces[0]]);
      assert Concat([pieces[0]]) == pieces[0] by { assert [pieces[0]][1..] == []; }
      forall b | 0 <= b < |more|
        ensures 0 < |more[b]| && |Concat(more[..b])| + |more[b]| <= 4 * |Concat(more[..b])| + 1
      {
        assert more[..b] == if b < |batches| then batches[..b] else batches;
      }
      ChunksRespectRounds(more, pieces[1..], start);
      assert batches + pieces == more + pieces[1..];
    }
  }

  /** Batches of at most 8192 spends, as many as there are in the round but for its last. */
  ghost predicate FullUpTo(batches: seq<seq<Transfer>>, b: nat)
    requires b < |batches|
  {
    && 0 < |batches[b]| <= 8192
    && (|batches[b]| == 8192 || exists i :: Nodes(i) == |Concat(batches[..b + 1])|)
  }

  ghost predicate WellSized(batches: seq<seq<Transfer>>) {
    forall b :: 0 <= b < |batches| ==> FullUpTo(batches, b)
  }

  lemma ChunksWellSized(batches: seq<seq<Transfer>>, toFund: seq<Transfer>, pieces: seq<seq<Transfer>>, i: nat)
    requires WellSized(batches) && pieces == Chunks(toFund, FUND_CHUNK_LEN)
    requires |Concat(batches)| + |toFund| == Nodes(i)
    ensures WellSized(batches + pieces)
  {
    ChunkSizes(toFund, FUND_CHUNK_LEN);
    ConcatChunks(toFund, FUND_CHUNK_LEN);
    ConcatAppend(batches, pieces);
    var all := batches + pieces;
    forall b | 0 <= b < |all|
      ensures FullUpTo(all, b)
    {
      if b < |batches| {
        assert FullUpTo(batches, b) && all[..b + 1] == batches[..b + 1];
      } else if b == |all| - 1 {
        assert all[..b + 1] == all;
      }
      hide Chunks, Concat;
    }
  }

  /** The batches so far are the spends of the first i rounds. */
  ghost predicate PlanTo(i: nat, batches: seq<seq<Transfer>>, source: Key, dests: seq<Key>,
                         total: nat, lamports: nat, maxFee: nat)
  {
    && |Concat(batches)| == Nodes(i)
    && IsHeapPlan(Concat(batches), source, dests, total, lamports, maxFee)
    && RespectsRounds(batches) && WellSized(batches)
  }

  lemma ExtendHeap(plan: seq<Transfer>, toFund: seq<Transfer>, source: Key, dests: seq<Key>,
                   total: nat, lamports: nat, maxFee: nat, i: nat)
    requires IsHeapPlan(plan, source, dests, total, lamports, maxFee)
    requires |plan| == Nodes(i) && |toFund| == Pow4(i)
    requires FundsAt(total, lamports, maxFee, i + 1) >= 0
    requires AreSpends(toFund, source, dests, Nodes(i), FundsAt(total, lamports, maxFee, i + 1))
    ensures IsHeapPlan(plan + toFund, source, dests, total, lamports, maxFee)
  {
    BottomLevel(i);
    var all := plan + toFund;
    forall n | 0 <= n < |all|
      ensures IsSpend(all[n], n, source, dests, total, lamports, maxFee)
    {
      if n < Nodes(i) {
        assert all[n] == plan[n];
      } else {
        RoundOfNode(n, i);
        assert all[n] == toFund[n - Nodes(i)];
      }
    }
  }

  lemma ExtendPlan(i: nat, batches: seq<seq<Transfer>>, toFund: seq<Transfer>, pieces: seq<seq<Transfer>>,
                   source: Key, dests: seq<Key>, total: nat, lamports: nat, maxFee: nat)
    requires PlanTo(i, batches, source, dests, total, lamports, maxFee)
    requires |toFund| == Pow4(i) && pieces == Chunks(toFund, FUND_CHUNK_LEN)
    requires FundsAt(total, lamports, maxFee, i + 1) >= 0
    requires AreSpends(toFund, source, dests, Nodes(i), FundsAt(total, lamports, maxFee, i + 1))
    ensures PlanTo(i + 1, batches + pieces, source, dests, total, lamports, maxFee)
  {
    BottomLevel(i);
    ConcatChunks(toFund, FUND_CHUNK_LEN);
    ChunksRespectRounds(batches, pieces, Nodes(i));
    ChunksWellSized(batches, toFund, pieces, i + 1);
    ExtendHeap(Concat(batches), toFund, source, dests, total, lamports, maxFee, i);
  }

  lemma NoSpendYet(source: Key, dests: seq<Key>, base: nat, lamports: nat)
    requires 4 * base <= |dests|
    ensures IsRow([], source, dests, 4 * base + 1) && AreSpends([], source, dests, base, lamports)
  {
    WholeGroups(base, |dests|);
  }

  lemma IsNextSpend(funded: seq<Key>, source: Key, dests: seq<Key>, base: nat, j: nat, group: seq<Key>, lamports: nat)
    requires IsRow(funded, source, dests, base) && j < |funded| && 4 * (base + j) + 4 <= |dests|
    requires group == dests[|dests| - 4 * (base + j) - 4..|dests| - 4 * (base + j)]
    ensures Transfer(funded[j], group, lamports) == HeapTransfer(source, dests, base + j, lamports)
  {
    hide DestIndex;
  }

  /** The spends of the first funders, each paying the next four keys from the end. */
  ghost predicate TakesFromEnd(toFund: seq<Transfer>, funded: seq<Key>, notFunded: seq<Key>, lamports: nat) {
    && |toFund| <= |funded| && 4 * |toFund| <= |notFunded|
    && forall j :: 0 <= j < |toFund| ==>
         toFund[j] == Transfer(funded[j], notFunded[|notFunded| - 4 * j - 4..|notFunded| - 4 * j], lamports)
  }

  lemma TakeNext(toFund: seq<Transfer>, funded: seq<Key>, notFunded: seq<Key>, lamports: nat, group: seq<Key>)
    requires TakesFromEnd(toFund, funded, notFunded, lamports)
    requires |toFund| < |funded| && 4 * |toFund| + 4 <= |notFunded|
    requires group == notFunded[|notFunded| - 4 * |toFund| - 4..|notFunded| - 4 * |toFund|]
    ensures TakesFromEnd(toFund + [Transfer(funded[|toFund|], group, lamports)], funded, notFunded, lamports)
  {
  }

  /** One pass of the inner loop of `fund_keys`: each funder drains the last four keys. */
  method SpendRound(source: Key, dests: seq<Key>, ghost base: nat, funded: seq<Key>, notFunded: seq<Key>, toLamports: nat)
    returns (ok: bool, newFunded: seq<Key>, toFund: seq<Transfer>, rest: seq<Key>)
    requires 4 * base <= |dests| && notFunded == dests[..|dests| - 4 * base]
    requires IsRow(funded, source, dests, base)
    ensures ok <==> 4 * |funded| <= |notFunded|
    ensures ok ==>
              && rest == notFunded[..|notFunded| - 4 * |funded|]
              && |toFund| == |funded| && AreSpends(toFund, source, dests, base, toLamports)
              && TakesFromEnd(toFund, funded, notFunded, toLamports)
              && |newFunded| == 4 * |funded| && IsRow(newFunded, source, dests, 4 * base + 1)
  {
    newFunded, toFund, rest := [], [], notFunded;
    NoSpendYet(source, dests, base, toLamports);
    assert TakesFromEnd(toFund, funded, notFunded, toLamports);
    hide IsRow, AreSpends, HeapTransfer, TakesFromEnd;
    var j := 0;
    while j < |funded|
      invariant 0 <= j <= |funded| && 4 * j <= |notFunded|
      invariant rest == notFunded[..|notFunded| - 4 * j]
      invariant |toFund| == j && AreSpends(toFund, source, dests, base, toLamports)
      invariant TakesFromEnd(toFund, funded, notFunded, toLamports)
      invariant |newFunded| == 4 * j && IsRow(newFunded, source, dests, 4 * base + 1)
    {
      if |rest| < MAX_SPENDS_PER_TX {
        return false, newFunded, toFund, rest;
      }
      var start := |rest| - MAX_SPENDS_PER_TX;
      var group := rest[start..];
      assert group == dests[|dests| - 4 * (base + j) - 4..|dests| - 4 * (base + j)];
      NextGroup(newFunded, source, dests, base, j, group);
      IsNextSpend(funded, source, dests, base, j, group, toLamports);
      TakeNext(toFund, funded, notFunded, toLamports, group);
      NextSpend(toFund, source, dests, base, toLamports, Transfer(funded[j], group, toLamports));
      rest := rest[..start];
      toFund := toFund + [Transfer(funded[j], group, toLamports)];
      newFunded := newFunded + group;
      j := j + 1;
    }
    ok := true;
  }

  /** The keys `fund_keys` holds when i rounds are behind it. */
  ghost predicate KeysAt(i: nat, funded: seq<Key>, notFunded: seq<Key>, source: Key, dests: seq<Key>) {
    && 4 * Nodes(i) <= |dests| && notFunded == dests[..|dests| - 4 * Nodes(i)]
    && |funded| == Pow4(i) && IsRow(funded, source, dests, Nodes(i))
  }

  lemma NextKeys(i: nat, funded: seq<Key>, notFunded: seq<Key>, source: Key, dests: seq<Key>,
                 newFunded: seq<Key>, rest: seq<Key>)
    requires KeysAt(i, funded, notFunded, source, dests)
    requires 4 * |funded| <= |notFunded| && rest == notFunded[..|notFunded| - 4 * |funded|]
    requires |newFunded| == 4 * |funded| && IsRow(newFunded, source, dests, 4 * Nodes(i) + 1)
    ensures KeysAt(i + 1, newFunded, rest, source, dests)
  {
    BottomLevel(i);
  }

  /** A round runs out of keys exactly in the last row of a tree that is not complete. */
  lemma OutOfKeys(i: nat, size: nat)
    requires 4 * Nodes(i) < size
    ensures i < Depth(size)
    ensures 4 * Pow4(i) > size - 4 * Nodes(i) ==> size != 4 * Nodes(Depth(size))
  {
    var d := Depth(size);
    NodesMonotone(if d <= i then d else i, i);
    BottomLevel(i);
    if i + 1 < d {
      NodesMonotone(i + 1, d - 1);
    }
  }

  /** One iteration of the outer loop of `fund_keys`. */
  method FundRound(ghost i: nat, source: Key, dests: seq<Key>, funded: seq<Key>, notFunded: seq<Key>,
                   batches: seq<seq<Transfer>>, toLamports: nat,
                   ghost total: nat, ghost lamports: nat, ghost maxFee: nat)
    returns (ok: bool, newFunded: seq<Key>, rest: seq<Key>, newBatches: seq<seq<Transfer>>)
    requires KeysAt(i, funded, notFunded, source, dests)
    requires PlanTo(i, batches, source, dests, total, lamports, maxFee)
    requires toLamports == FundsAt(total, lamports, maxFee, i + 1)
    ensures ok <==> 4 * Pow4(i) <= |dests| - 4 * Nodes(i)
    ensures ok ==>
              && KeysAt(i + 1, newFunded, rest, source, dests)
              && PlanTo(i + 1, newBatches, source, dests, total, lamports, maxFee)
  {
    var toFund;
    ok, newFunded, toFund, rest := SpendRound(source, dests, Nodes(i), funded, notFunded, toLamports);
    newBatches := batches;
    if ok {
      NextKeys(i, funded, notFunded, source, dests, newFunded, rest);
      var pieces := Chunks(toFund, FUND_CHUNK_LEN);
      ExtendPlan(i, batches, toFund, pieces, source, dests, total, lamports, maxFee);
      newBatches := batches + pieces;
    }
  }

  lemma KeysLeft(i: nat, funded: seq<Key>, notFunded: seq<Key>, source: Key, dests: seq<Key>)
    requires KeysAt(i, funded, notFunded, source, dests)
    ensures |notFunded| == |dests| - 4 * Nodes(i)
  {
  }

  /** `fund_keys` up to the transfers it asks `fund` for. It gets through exactly when the
      destinations fill a complete tree and the total affords every round, and then its
      batches, one after another, are the heap over the source and the destinations. */
  method FundKeys(source: Key, dests: seq<Key>, total: nat, maxFee: nat, lamports: nat)
    returns (r: FundResult)
    ensures r.Funded? <==>
              |dests| == 4 * Nodes(Depth(|dests|)) && Affordable(total, lamports, maxFee, Depth(|dests|))
    ensures r.FundsUnderflow? <==> !Affordable(total, lamports, maxFee, Depth(|dests|))
    ensures r.Funded? ==> PlanTo(Depth(|dests|), r.batches, source, dests, total, lamports, maxFee)
  {
    Start(source, dests, total, lamports, maxFee);
    hide KeysAt, PlanTo;
    var funded, fundedFunds, notFunded, batches := [source], total, dests, [];
    ghost var i := 0;
    while |notFunded| > 0
      invariant |notFunded| == |dests| - 4 * Nodes(i)
      invariant i == 0 || i <= Depth(|dests|)
      invariant KeysAt(i, funded, notFunded, source, dests)
      invariant fundedFunds == FundsAt(total, lamports, maxFee, i)
      invariant PlanTo(i, batches, source, dests, total, lamports, maxFee)
      invariant Affordable(total, lamports, maxFee, i)
      decreases |notFunded|
    {
      OutOfKeys(i, |dests|);
      if fundedFunds < lamports + maxFee {
        return FundsUnderflow;
      }
      var toLamports := (fundedFunds - lamports - maxFee) / MAX_SPENDS_PER_TX;
      var ok;
      ok, funded, notFunded, batches :=
        FundRound(i, source, dests, funded, notFunded, batches, toLamports, total, lamports, maxFee);
      if !ok {
        AffordableNext(total, lamports, maxFee, i, |dests|);
        return KeysUnderflow;
      }
      KeysLeft(i + 1, funded, notFunded, source, dests);
      fundedFunds := toLamports;
      i := i + 1;
    }
    Finish(i, |dests|);
    r := Funded(batches);
  }

  lemma AffordableNext(total: nat, lamports: nat, maxFee: nat, i: nat, size: nat)
    requires Affordable(total, lamports, maxFee, i) && FundsAt(total, lamports, maxFee, i) >= lamports + maxFee
    requires 4 * Nodes(i) < size && 4 * Pow4(i) > size - 4 * Nodes(i)
    ensures Affordable(total, lamports, maxFee, Depth(size))
  {
    hide FundsAt;
    BottomLevel(i);
    DepthIsUnique(size, i + 1);
  }

  lemma Start(source: Key, dests: seq<Key>, total: nat, lamports: nat, maxFee: nat)
    ensures KeysAt(0, [source], dests, source, dests)
    ensures PlanTo(0, [], source, dests, total, lamports, maxFee)
  {
  }

  lemma Finish(i: nat, size: nat)
    requires size == 4 * Nodes(i)
    ensures i == Depth(size)
  {
    if i > 0 {
      NodesMonotone(i - 1, i);
    }
    DepthIsUnique(size, i);
  }

  // ----- What the plan says about the keys

  function DestsOf(plan: seq<Transfer>): seq<Key> {
    if |plan| == 0 then [] else DestsOf(plan[..|plan| - 1]) + plan[|plan| - 1].dests
  }

  lemma HeapPrefix(plan: seq<Transfer>, source: Key, dests: seq<Key>, total: nat, lamports: nat, maxFee: nat, m: nat)
    requires IsHeapPlan(plan, source, dests, total, lamports, maxFee) && m <= |plan|
    ensures 4 * |plan| <= |dests| && IsHeapPlan(plan[..m], source, dests, total, lamports, maxFee)
  {
    hide IsSpend;
  }

  lemma OneGroupMore(dests: seq<Key>, m: nat)
    requires 4 * m + 4 <= |dests|
    ensures dests[|dests| - 4 * (m + 1)..] == dests[|dests| - 4 * m - 4..|dests| - 4 * m] + dests[|dests| - 4 * m..]
  {
  }

  /** Over all rounds every key is paid exactly as often as it is among the destinations:
      once each when they are distinct. */
  lemma {:induction false} EveryKeyFundedOnce(plan: seq<Transfer>, source: Key, dests: seq<Key>,
                                              total: nat, lamports: nat, maxFee: nat, k: Key)
    requires IsHeapPlan(plan, source, dests, total, lamports, maxFee)
    ensures Count(DestsOf(plan), k) == Count(dests[|dests| - 4 * |plan|..], k)
    decreases |plan|
  {
    HeapPrefix(plan, source, dests, total, lamports, maxFee, if |plan| > 0 then |plan| - 1 else 0);
    hide IsHeapPlan, IsSpend, Count;
    if |plan| > 0 {
      var m := |plan| - 1;
      SpendOf(plan, source, dests, total, lamports, maxFee, m);
      EveryKeyFundedOnce(plan[..m], source, dests, total, lamports, maxFee, k);
      var group, later := plan[m].dests, dests[|dests| - 4 * m..];
      OneGroupMore(dests, m);
      CountSum(group, later, k);
      CountSum(DestsOf(plan[..m]), group, k);
    } else {
      assert dests[|dests|..] == [];
    }
  }

  lemma ParentPays(m: nat, o: nat, parent: Transfer, child: Transfer, source: Key, dests: seq<Key>,
                   total: nat, lamports: nat, maxFee: nat)
    requires o < 4 && IsSpend(parent, m, source, dests, total, lamports, maxFee)
    requires IsSpend(child, 4 * m + 1 + o, source, dests, total, lamports, maxFee)
    ensures |parent.dests| == 4 && child.funder == parent.dests[o]
  {
    hide FundsAt, Round;
    GroupIsChildren(source, dests, m, o);
  }

  /** Spend 0 is the source's; every later funder was paid by an earlier spend, as one of
      its four destinations and one round before. */
  lemma FundersWereFunded(plan: seq<Transfer>, source: Key, dests: seq<Key>,
                          total: nat, lamports: nat, maxFee: nat, m: nat, o: nat)
    requires IsHeapPlan(plan, source, dests, total, lamports, maxFee)
    requires o < 4 && 4 * m + 1 + o < |plan|
    ensures plan[0].funder == source
    ensures |plan[m].dests| == 4 && plan[4 * m + 1 + o].funder == plan[m].dests[o]
    ensures Round(4 * m + 1 + o) == Round(m) + 1
  {
    SpendOf(plan, source, dests, total, lamports, maxFee, 0);
    SpendOf(plan, source, dests, total, lamports, maxFee, m);
    SpendOf(plan, source, dests, total, lamports, maxFee, 4 * m + 1 + o);
    hide IsHeapPlan, FundsAt;
    ParentPays(m, o, plan[m], plan[4 * m + 1 + o], source, dests, total, lamports, maxFee);
    assert (4 * m + o) / 4 == m;
  }

  lemma SpendOf(plan: seq<Transfer>, source: Key, dests: seq<Key>, total: nat, lamports: nat, maxFee: nat, n: nat)
    requires IsHeapPlan(plan, source, dests, total, lamports, maxFee) && n < |plan|
    ensures IsSpend(plan[n], n, source, dests, total, lamports, maxFee)
    ensures 4 * n + 4 <= |dests| && plan[n].dests == dests[|dests| - 4 * n - 4..|dests| - 4 * n]
  {
    hide FundsAt, Round, Node;
  }

  /** Round i holds the 4^i spends numbered from Nodes(i). */
  lemma RoundsArePowers(n: nat, i: nat)
    ensures Round(n) == i <==> Nodes(i) <= n < Nodes(i) + Pow4(i)
  {
    BottomLevel(i);
    if Nodes(i) <= n < Nodes(i) + Pow4(i) {
      RoundOfNode(n, i);
    } else if Round(n) == i {
      RoundBounds(n);
    }
  }

  lemma {:induction false} RoundBounds(n: nat)
    ensures Nodes(Round(n)) <= n < Nodes(Round(n) + 1)
  {
    if n > 0 {
      RoundBounds((n - 1) / 4);
    }
  }
}

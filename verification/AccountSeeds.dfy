/** The create/close loop of accounts-cluster-bench: which account seeds get a create message
    and which a close message, over any number of iterations. */
module AccountSeeds {
  import opened Arithmetic

  /** One instruction of a message that was built. */
  datatype Message = Create(seed: nat) | Close(seed: nat)

  // ----- Reading the log of messages

  function Creates(log: seq<Message>): (n: nat)
    ensures n <= |log|
  {
    if |log| == 0 then 0 else Creates(log[..|log| - 1]) + if log[|log| - 1].Create? then 1 else 0
  }

  function Closes(log: seq<Message>): (n: nat)
    ensures n + Creates(log) == |log|
  {
    if |log| == 0 then 0 else Closes(log[..|log| - 1]) + if log[|log| - 1].Create? then 0 else 1
  }

  /** Message i uses the next unused seed, and a close leaves `closeNth` times as many
      accounts created as closed. */
  ghost predicate InTurn(log: seq<Message>, i: nat, closeNth: nat)
    requires i < |log|
  {
    match log[i]
    case Create(seed) => seed == Creates(log[..i])
    case Close(seed) => closeNth > 0 && seed == Closes(log[..i]) && closeNth * (seed + 1) <= Creates(log[..i])
  }

  ghost predicate LogOk(log: seq<Message>, closeNth: nat) {
    forall i :: 0 <= i < |log| ==> InTurn(log, i, closeNth)
  }

  lemma LogNext(log: seq<Message>, m: Message, closeNth: nat)
    requires LogOk(log, closeNth)
    requires match m
             case Create(seed) => seed == Creates(log)
             case Close(seed) => closeNth > 0 && seed == Closes(log) && closeNth * (seed + 1) <= Creates(log)
    ensures LogOk(log + [m], closeNth)
    ensures Creates(log + [m]) == Creates(log) + (if m.Create? then 1 else 0)
    ensures Closes(log + [m]) == Closes(log) + (if m.Create? then 0 else 1)
  {
    var longer := log + [m];
    assert longer[..|log|] == log;
    forall i | 0 <= i < |longer|
      ensures InTurn(longer, i, closeNth)
    {
      if i < |log| {
        assert InTurn(log, i, closeNth) && longer[..i] == log[..i] && longer[i] == log[i];
      }
    }
  }

  lemma {:induction false} CountsScale(log: seq<Message>, i: nat)
    requires i <= |log|
    ensures Creates(log[..i]) <= Creates(log) && Closes(log[..i]) <= Closes(log)
    decreases |log|
  {
    if i < |log| {
      CountsScale(log[..|log| - 1], i);
      assert log[..|log| - 1][..i] == log[..i];
    } else {
      assert log[..i] == log;
    }
  }

  lemma PrefixOk(log: seq<Message>, closeNth: nat, n: nat)
    requires LogOk(log, closeNth) && n <= |log|
    ensures LogOk(log[..n], closeNth)
  {
    forall i | 0 <= i < n
      ensures InTurn(log[..n], i, closeNth)
    {
      assert InTurn(log, i, closeNth) && log[..n][..i] == log[..i];
    }
  }

  /** Every seed below the number of creates was created. */
  lemma {:induction false} WasCreated(log: seq<Message>, closeNth: nat, seed: nat)
    requires LogOk(log, closeNth) && seed < Creates(log)
    ensures Create(seed) in log
    decreases |log|
  {
    var n := |log| - 1;
    assert InTurn(log, n, closeNth);
    if seed < Creates(log[..n]) {
      PrefixOk(log, closeNth, n);
      WasCreated(log[..n], closeNth, seed);
    }
  }

  /** Close never overtakes create: a close message is for a seed whose create message was
      built before it, and when it is built the accounts created are at least `closeNth`
      times those closed with it. */
  lemma ClosedAfterCreated(log: seq<Message>, closeNth: nat, i: nat)
    requires LogOk(log, closeNth) && i < |log| && log[i].Close?
    ensures Create(log[i].seed) in log[..i]
    ensures closeNth * Closes(log[..i + 1]) <= Creates(log[..i + 1])
  {
    var seed := log[i].seed;
    assert InTurn(log, i, closeNth);
    assert seed < Creates(log[..i]) by { ScaleUp(closeNth, seed + 1); }
    PrefixOk(log, closeNth, i);
    hide LogOk;
    WasCreated(log[..i], closeNth, seed);
    assert log[..i + 1][..i] == log[..i];
  }

  /** In every state of the run, not only between iterations. */
  lemma {:induction false} CloseNeverOvertakes(log: seq<Message>, closeNth: nat, i: nat)
    requires LogOk(log, closeNth) && i <= |log|
    ensures closeNth * Closes(log[..i]) <= Creates(log[..i])
    decreases i
  {
    if i > 0 {
      if log[i - 1].Close? {
        ClosedAfterCreated(log, closeNth, i - 1);
      } else {
        CloseNeverOvertakes(log, closeNth, i - 1);
        assert log[..i][..i - 1] == log[..i - 1];
      }
    }
  }

  /** No seed is created twice or closed twice. */
  lemma EachSeedOnce(log: seq<Message>, closeNth: nat, i: nat, j: nat)
    requires LogOk(log, closeNth) && i < j < |log|
    ensures log[i] != log[j]
  {
    assert InTurn(log, i, closeNth) && InTurn(log, j, closeNth);
    CountsScale(log[..j], i + 1);
    assert log[..j][..i + 1] == log[..i + 1] && log[..i + 1][..i] == log[..i];
  }

  // ----- How many accounts are to be closed

  /** `expected_closed`: whole batches, one for every `closeNth` batches created; none when
      closing is switched off. */
  function Expected(created: nat, closeNth: nat, batchSize: nat): nat {
    if closeNth == 0 || batchSize == 0 then 0
    else
      ScaleUp(closeNth, batchSize);
      created / (closeNth * batchSize) * batchSize
  }

  lemma ExpectedBound(created: nat, closeNth: nat, batchSize: nat)
    ensures closeNth * Expected(created, closeNth, batchSize) <= created
  {
    if closeNth > 0 && batchSize > 0 {
      ScaleUp(closeNth, batchSize);
      var unit := closeNth * batchSize;
      assert created == created / unit * unit + created % unit;
      Regroup(closeNth, created / unit, batchSize);
    }
  }

  /** The closed accounts are the whole batches owed: a multiple of the batch size, of which
      one more batch would be too much for the accounts created; none when closing is
      switched off. */
  ghost predicate WholeBatchesOwed(created: nat, closed: nat, closeNth: nat, batchSize: nat) {
    if closeNth == 0 || batchSize == 0 then closed == 0
    else closed % batchSize == 0 && closeNth * closed <= created < closeNth * (closed + batchSize)
  }

  lemma ExpectedIsOwed(created: nat, closeNth: nat, batchSize: nat)
    ensures WholeBatchesOwed(created, Expected(created, closeNth, batchSize), closeNth, batchSize)
  {
    if closeNth > 0 && batchSize > 0 {
      ScaleUp(closeNth, batchSize);
      var unit := closeNth * batchSize;
      var q := created / unit;
      assert created == q * unit + created % unit;
      Regroup(closeNth, q, batchSize);
      DivUnique(q * batchSize, batchSize, q, 0);
      assert closeNth * (q * batchSize + batchSize) == closeNth * (q * batchSize) + unit;
    }
  }

  lemma Regroup(a: nat, q: nat, b: nat)
    ensures a * (q * b) == q * (a * b)
  {
  }

  lemma ExpectedMonotone(before: nat, after: nat, closeNth: nat, batchSize: nat)
    requires before <= after
    ensures Expected(before, closeNth, batchSize) <= Expected(after, closeNth, batchSize)
  {
    if closeNth > 0 && batchSize > 0 {
      ScaleUp(closeNth, batchSize);
      var unit := closeNth * batchSize;
      QuotientMonotone(before, after, unit);
      Scale(before / unit, after / unit, batchSize);
    }
  }

  lemma QuotientMonotone(a: nat, b: nat, unit: nat)
    requires unit > 0 && a <= b
    ensures a / unit <= b / unit
  {
    var p, q := a / unit, b / unit;
    assert a == p * unit + a % unit && b == q * unit + b % unit;
    Scale(q + 1, p, unit);
    assert (q + 1) * unit == q * unit + unit;
  }

  // ----- Building messages

  /** `make_create_message`, over all the transactions of a chunk: one seed per instruction. */
  method MakeCreateMessages(log: seq<Message>, maxCreated: nat, txs: nat, numInstructions: nat, ghost closeNth: nat)
    returns (newLog: seq<Message>, newMax: nat)
    requires LogOk(log, closeNth) && Creates(log) == maxCreated
    ensures LogOk(newLog, closeNth) && Creates(newLog) == newMax == maxCreated + numInstructions * txs
    ensures Closes(newLog) == Closes(log)
  {
    newLog, newMax := log, maxCreated;
    for t := 0 to txs
      invariant LogOk(newLog, closeNth) && Creates(newLog) == newMax == maxCreated + numInstructions * t
      invariant Closes(newLog) == Closes(log)
    {
      ghost var before := newMax;
      for k := 0 to numInstructions
        invariant LogOk(newLog, closeNth) && Creates(newLog) == newMax == before + k
        invariant Closes(newLog) == Closes(log)
      {
        LogNext(newLog, Create(newMax), closeNth);
        hide LogOk;
        newLog, newMax := newLog + [Create(newMax)], newMax + 1;
      }
      assert numInstructions * (t + 1) == numInstructions * t + numInstructions;
    }
  }

  method MakeCloseMessages(log: seq<Message>, maxClosed: nat, expected: nat, ghost closeNth: nat)
    returns (newLog: seq<Message>, newMax: nat)
    requires LogOk(log, closeNth) && Closes(log) == maxClosed <= expected
    requires closeNth > 0 && closeNth * expected <= Creates(log)
    ensures LogOk(newLog, closeNth) && Closes(newLog) == newMax == expected
    ensures Creates(newLog) == Creates(log)
  {
    newLog, newMax := log, maxClosed;
    for k := maxClosed to expected
      invariant LogOk(newLog, closeNth) && Closes(newLog) == newMax == k
      invariant Creates(newLog) == Creates(log)
    {
      assert closeNth * (newMax + 1) <= Creates(newLog) by { Scale(k + 1, expected, closeNth); }
      LogNext(newLog, Close(newMax), closeNth);
      hide LogOk;
      newLog, newMax := newLog + [Close(newMax)], newMax + 1;
    }
  }

  // ----- The loop

  /** What holds between iterations: the counters agree with each other and with the
      messages, and exactly the expected accounts have been closed. */
  ghost predicate BetweenIterations(log: seq<Message>, maxCreated: nat, maxClosed: nat,
                                    totalCreated: nat, totalClosed: nat, closeNth: nat, batchSize: nat)
  {
    && LogOk(log, closeNth)
    && maxCreated == totalCreated == Creates(log)
    && maxClosed == totalClosed == Closes(log)
    && maxClosed == Expected(maxCreated, closeNth, batchSize)
  }

  /** The close part: catch up with what is owed for the accounts created so far. */
  method CloseOwed(log: seq<Message>, maxClosed: nat, totalCreated: nat, totalClosed: nat, batchSize: nat, closeNth: nat)
    returns (log': seq<Message>, maxClosed': nat, totalClosed': nat)
    requires LogOk(log, closeNth) && Creates(log) == totalCreated
    requires maxClosed == totalClosed == Closes(log) <= Expected(totalCreated, closeNth, batchSize)
    requires closeNth > 0 && batchSize > 0
    ensures LogOk(log', closeNth) && Creates(log') == totalCreated
    ensures maxClosed' == totalClosed' == Closes(log') == Expected(totalCreated, closeNth, batchSize)
  {
    log', maxClosed', totalClosed' := log, maxClosed, totalClosed;
    ScaleUp(closeNth, batchSize);
    var numBatchesToClose := totalCreated / (closeNth * batchSize);
    var expectedClosed := numBatchesToClose * batchSize;
    assert expectedClosed == Expected(totalCreated, closeNth, batchSize);
    ExpectedBound(totalCreated, closeNth, batchSize);
    hide Expected, LogOk;
    if maxClosed < expectedClosed {
      var toClose := expectedClosed - maxClosed;
      log', maxClosed' := MakeCloseMessages(log', maxClosed, expectedClosed, closeNth);
      totalClosed' := totalClosed + toClose;
    }
  }

  /** An iteration tops the outstanding signatures up to a batch, in equal chunks for the
      payers: the largest chunk that does not exceed the batch. */
  ghost predicate ToppedUp(chunk: nat, sigsLen: nat, payers: nat, batchSize: nat) {
    if sigsLen < batchSize then chunk * payers <= batchSize - sigsLen < chunk * payers + payers else chunk == 0
  }

  function NewAccounts(sigsLen: nat, payers: nat, batchSize: nat, numInstructions: nat): nat
    requires payers > 0
  {
    if sigsLen < batchSize && batchSize - sigsLen >= payers
    then numInstructions * ((batchSize - sigsLen) / payers * payers) else 0
  }

  lemma NewAccountsTopUp(sigsLen: nat, payers: nat, batchSize: nat, numInstructions: nat)
    requires payers > 0
    ensures exists chunk: nat :: ToppedUp(chunk, sigsLen, payers, batchSize)
              && NewAccounts(sigsLen, payers, batchSize, numInstructions) == numInstructions * (chunk * payers)
  {
    if sigsLen < batchSize && batchSize - sigsLen >= payers {
      var missing := batchSize - sigsLen;
      assert missing == missing / payers * payers + missing % payers;
      assert ToppedUp(missing / payers, sigsLen, payers, batchSize);
    } else {
      assert ToppedUp(0, sigsLen, payers, batchSize);
    }
  }

  lemma ExpectedOff(batchSize: nat)
    ensures forall c :: Expected(c, 0, batchSize) == 0
  {
  }

  /** The create and close part of one iteration of `run_accounts_bench`, given how many
      signatures were outstanding when it looked. */
  method RunIteration(log: seq<Message>, maxCreated: nat, maxClosed: nat, totalCreated: nat, totalClosed: nat,
                      sigsLen: nat, payers: nat, batchSize: nat, closeNth: nat, numInstructions: nat)
    returns (log': seq<Message>, maxCreated': nat, maxClosed': nat, totalCreated': nat, totalClosed': nat)
    requires payers > 0
    requires BetweenIterations(log, maxCreated, maxClosed, totalCreated, totalClosed, closeNth, batchSize)
    ensures BetweenIterations(log', maxCreated', maxClosed', totalCreated', totalClosed', closeNth, batchSize)
    ensures maxCreated' == maxCreated + NewAccounts(sigsLen, payers, batchSize, numInstructions)
    ensures exists chunk: nat :: ToppedUp(chunk, sigsLen, payers, batchSize)
              && maxCreated' == maxCreated + numInstructions * (chunk * payers)
    ensures WholeBatchesOwed(totalCreated', totalClosed', closeNth, batchSize)
  {
    NewAccountsTopUp(sigsLen, payers, batchSize, numInstructions);
    ExpectedOff(batchSize);
    hide Expected, LogOk, Creates, Closes, ToppedUp, WholeBatchesOwed;
    log', maxCreated', maxClosed', totalCreated', totalClosed' := log, maxCreated, maxClosed, totalCreated, totalClosed;
    if sigsLen < batchSize {
      var numToCreate := batchSize - sigsLen;
      if numToCreate >= payers {
        var chunkSize := numToCreate / payers;
        log', maxCreated', totalCreated' := CreateAll(log, maxCreated, totalCreated, payers, chunkSize, numInstructions, closeNth);
      }
      ExpectedMonotone(maxCreated, totalCreated', closeNth, batchSize);
      if closeNth > 0 {
        log', maxClosed', totalClosed' := CloseOwed(log', maxClosed, totalCreated', totalClosed, batchSize, closeNth);
      }
    }
    ExpectedIsOwed(totalCreated', closeNth, batchSize);
  }

  /** Each payer gets one chunk of create transactions; `push_transactions` returns an id
      for each of them, so the total counts what was built. */
  method CreateAll(log: seq<Message>, maxCreated: nat, totalCreated: nat, payers: nat, chunkSize: nat,
                   numInstructions: nat, ghost closeNth: nat)
    returns (log': seq<Message>, maxCreated': nat, totalCreated': nat)
    requires LogOk(log, closeNth) && Creates(log) == maxCreated == totalCreated
    ensures LogOk(log', closeNth) && Creates(log') == maxCreated' == totalCreated'
    ensures maxCreated' == maxCreated + numInstructions * (chunkSize * payers)
    ensures Closes(log') == Closes(log)
  {
    log', maxCreated', totalCreated' := log, maxCreated, totalCreated;
    for p := 0 to payers
      invariant LogOk(log', closeNth) && Creates(log') == maxCreated' == totalCreated'
      invariant maxCreated' == maxCreated + numInstructions * (chunkSize * p)
      invariant Closes(log') == Closes(log)
    {
      hide LogOk;
      log', maxCreated' := MakeCreateMessages(log', maxCreated', chunkSize, numInstructions, closeNth);
      totalCreated' := totalCreated' + numInstructions * chunkSize;
      OnePayerMore(numInstructions, chunkSize, p);
    }
  }

  lemma OnePayerMore(a: nat, b: nat, p: nat)
    ensures a * (b * (p + 1)) == a * (b * p) + a * b
  {
    assert b * (p + 1) == b * p + b;
  }

  /** The loop of `run_accounts_bench` over any sequence of observed queue lengths: after
      every iteration the two counters are the two totals, and the accounts closed are
      exactly the whole batches owed for those created. */
  method RunAccountsBench(observed: seq<nat>, payers: nat, batchSize: nat, closeNth: nat, numInstructions: nat)
    returns (log: seq<Message>, totalCreated: nat, totalClosed: nat)
    requires payers > 0
    ensures LogOk(log, closeNth) && totalCreated == Creates(log) && totalClosed == Closes(log)
    ensures totalClosed == Expected(totalCreated, closeNth, batchSize)
    ensures WholeBatchesOwed(totalCreated, totalClosed, closeNth, batchSize)
    ensures closeNth * totalClosed <= totalCreated
  {
    var maxCreated, maxClosed := 0, 0;
    log, totalCreated, totalClosed := [], 0, 0;
    for i := 0 to |observed|
      invariant BetweenIterations(log, maxCreated, maxClosed, totalCreated, totalClosed, closeNth, batchSize)
    {
      hide BetweenIterations;
      log, maxCreated, maxClosed, totalCreated, totalClosed :=
        RunIteration(log, maxCreated, maxClosed, totalCreated, totalClosed, observed[i], payers, batchSize, closeNth, numInstructions);
    }
    ExpectedBound(totalCreated, closeNth, batchSize);
    ExpectedIsOwed(totalCreated, closeNth, batchSize);
  }
}

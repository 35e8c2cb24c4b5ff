/** The transfer generator and the sender threads of bench-tps, sharing a queue of batches
    and a count of active senders, as steps at the grain of one lock or one atomic access. */
module SenderQueue {
  import opened Arithmetic
  import opened Options
  import opened Slices

  type Tx = nat

  /** Where a sender thread stands in `do_tx_transfers`. */
  datatype Sender =
    | Idle
    | Popped(batch: seq<Tx>)                              // before the active count goes up
    | Sending(rest: seq<Tx>, len: nat, sawOld: bool)      // inside the loop over the batch
    | Leaving(len: nat)                                   // before the active count goes down
    | Tallying(len: nat)                                  // before the sent total goes up
    | Exited

  /** Where the generator stands in `generate_chunked_transfers`. */
  datatype Generator = Ready | Waiting | SawEmpty

  datatype State = State(
    queue: seq<seq<Tx>>, senders: seq<Sender>, active: int, totalSent: nat, generator: Generator,
    generated: seq<Tx>, sent: seq<Tx>, skipped: seq<Tx>, discarded: seq<Tx>)   // what became of them, in order

  datatype Event =
    | Generate(txs: seq<Tx>)
    | QueueShort            // sustained mode: the queue was read and found short enough
    | QueueEmpty            // otherwise: the queue was read and found empty ...
    | NoneActive            // ... and then the active count was read and found zero
    | SomeActive
    | Pop(i: nat)
    | CountUp(i: nat)
    | SendOne(i: nat)
    | SkipOne(i: nat)       // too old to send
    | ClearQueue(i: nat)
    | EndBatch(i: nat)
    | CountDown(i: nat)
    | Tally(i: nat)
    | Exit(i: nat)

  // ----- Cutting one round of transactions into batches

  /** The batching at the end of `generate_txs`. It fails, dividing into chunks of size
      zero, exactly when there are fewer transactions than threads. Otherwise every batch it
      pushes is a thread's equal share, but for the last, which is what is left over. */
  method GenerateTxs(queue: seq<seq<Tx>>, txs: seq<Tx>, threads: nat) returns (r: Option<seq<seq<Tx>>>)
    requires threads > 0
    ensures r.None? <==> |txs| < threads
    ensures r.Some? ==>
              && r.value == queue + Batches(txs, threads)
              && queue <= r.value && Concat(r.value) == Concat(queue) + txs
              && |queue| + threads <= |r.value| <= |queue| + 2 * threads - 1
              && (forall i :: |queue| <= i < |r.value| - 1 ==> |r.value[i]| == |txs| / threads)
              && 0 < |r.value[|r.value| - 1]| <= |txs| / threads
  {
    var size := |txs| / threads;
    QuotientIsZero(|txs|, threads);
    if size == 0 {
      return None;
    }
    var chunks := Chunks(txs, size);
    var pushed := queue;
    for k := 0 to |chunks|
      invariant pushed == queue + chunks[..k]
    {
      pushed := pushed + [chunks[k]];
    }
    assert chunks[..|chunks|] == chunks;
    BatchesCover(txs, threads);
    BatchCount(txs, threads);
    BatchShares(txs, threads);
    ConcatAppend(queue, chunks);
    hide Batches, Chunks, Concat;
    r := Some(pushed);
  }

  lemma QuotientIsZero(n: nat, threads: nat)
    requires threads > 0
    ensures n / threads == 0 <==> n < threads
  {
    assert n == (n / threads) * threads + n % threads;
    assert n / threads > 0 ==> (n / threads) * threads >= threads;
  }

  function Batches(txs: seq<Tx>, threads: nat): seq<seq<Tx>>
    requires threads > 0
  {
    if |txs| / threads == 0 then [] else Chunks(txs, |txs| / threads)
  }

  lemma BatchesCover(txs: seq<Tx>, threads: nat)
    requires 0 < threads <= |txs|
    ensures Concat(Batches(txs, threads)) == txs
  {
    QuotientIsZero(|txs|, threads);
    ConcatChunks(txs, |txs| / threads);
  }

  lemma CountBound(threads: nat, size: nat, r: nat, k: nat)
    requires r < threads && size >= 1
    requires size * k < size * threads + r + size
    ensures k <= 2 * threads - 1
  {
    assert size * (2 * threads) == size * threads + size + (threads - 1) * size;
    Scale(1, size, threads - 1);
    if k >= 2 * threads {
      Scale(2 * threads, k, size);
    }
  }

  lemma CountAtLeast(threads: nat, size: nat, r: nat, k: nat)
    requires size * threads + r <= size * k && size >= 1
    ensures k >= threads
  {
    if k < threads {
      Scale(k, threads, size);
    }
  }

  /** One round makes a batch for every thread and never more than 2 * threads - 1. */
  lemma BatchCount(txs: seq<Tx>, threads: nat)
    requires 0 < threads <= |txs|
    ensures threads <= |Batches(txs, threads)| <= 2 * threads - 1
  {
    QuotientIsZero(|txs|, threads);
    var size := |txs| / threads;
    ChunkCount(txs, size);
    assert |txs| == size * threads + |txs| % threads;
    CountBound(threads, size, |txs| % threads, |Chunks(txs, size)|);
    CountAtLeast(threads, size, |txs| % threads, |Chunks(txs, size)|);
  }

  lemma BatchShares(txs: seq<Tx>, threads: nat)
    requires 0 < threads <= |txs|
    ensures var batches := Batches(txs, threads);
            && |batches| > 0 && 0 < |batches[|batches| - 1]| <= |txs| / threads
            && forall i :: 0 <= i < |batches| - 1 ==> |batches[i]| == |txs| / threads
  {
    QuotientIsZero(|txs|, threads);
    ChunkSizes(txs, |txs| / threads);
  }

  // ----- The steps

  predicate At(s: State, i: nat) {
    i < |s.senders|
  }

  ghost predicate Fresh(s: State, txs: seq<Tx>) {
    && Distinct(txs)
    && forall tx :: tx in txs ==> tx !in s.generated
  }

  ghost predicate Enabled(s: State, sustained: bool, e: Event) {
    match e
    case Generate(txs) => s.generator == Ready && |s.senders| <= |txs| && Fresh(s, txs)
    case QueueShort => sustained && s.generator == Waiting && |s.queue| <= 2 * |s.senders|
    case QueueEmpty => !sustained && s.generator == Waiting && s.queue == []
    case NoneActive => s.generator == SawEmpty && s.active <= 0
    case SomeActive => s.generator == SawEmpty && s.active > 0
    case Pop(i) => At(s, i) && s.senders[i] == Idle && s.queue != []
    case CountUp(i) => At(s, i) && s.senders[i].Popped?
    case SendOne(i) => At(s, i) && s.senders[i].Sending? && s.senders[i].rest != []
    case SkipOne(i) => At(s, i) && s.senders[i].Sending? && s.senders[i].rest != []
    case ClearQueue(i) => At(s, i) && s.senders[i].Sending? && s.senders[i].rest == [] && s.senders[i].sawOld
    case EndBatch(i) => At(s, i) && s.senders[i].Sending? && s.senders[i].rest == [] && !s.senders[i].sawOld
    case CountDown(i) => At(s, i) && s.senders[i].Leaving?
    case Tally(i) => At(s, i) && s.senders[i].Tallying?
    case Exit(i) => At(s, i) && s.senders[i] == Idle
  }

  function Move(s: State, i: nat, to: Sender): State
    requires i < |s.senders|
  {
    s.(senders := s.senders[i := to])
  }

  ghost function Apply(s: State, sustained: bool, e: Event): State
    requires |s.senders| > 0 && Enabled(s, sustained, e)
  {
    match e
    case Generate(txs) =>
      s.(queue := s.queue + Batches(txs, |s.senders|), generator := Waiting, generated := s.generated + txs)
    case QueueShort => s.(generator := Ready)
    case QueueEmpty => s.(generator := SawEmpty)
    case NoneActive => s.(generator := Ready)
    case SomeActive => s.(generator := Waiting)
    case Pop(i) => Move(s, i, Popped(s.queue[0])).(queue := s.queue[1..])
    case CountUp(i) =>
      var batch := s.senders[i].batch;
      Move(s, i, Sending(batch, |batch|, false)).(active := s.active + 1)
    case SendOne(i) =>
      var t := s.senders[i];
      Move(s, i, t.(rest := t.rest[1..])).(sent := s.sent + [t.rest[0]])
    case SkipOne(i) =>
      var t := s.senders[i];
      Move(s, i, t.(rest := t.rest[1..], sawOld := true)).(skipped := s.skipped + [t.rest[0]])
    case ClearQueue(i) =>
      Move(s, i, Leaving(s.senders[i].len)).(queue := [], discarded := s.discarded + Concat(s.queue))
    case EndBatch(i) => Move(s, i, Leaving(s.senders[i].len))
    case CountDown(i) => Move(s, i, Tallying(s.senders[i].len)).(active := s.active - 1)
    case Tally(i) => Move(s, i, Idle).(totalSent := s.totalSent + s.senders[i].len)
    case Exit(i) => Move(s, i, Exited)
  }

  function Initial(threads: nat): State {
    State([], seq(threads, _ => Idle), 0, 0, Ready, [], [], [], [])
  }

  ghost predicate Possible(s: State, sustained: bool, events: seq<Event>)
    decreases |events|
  {
    |events| == 0 ||
    (|s.senders| > 0 && Enabled(s, sustained, events[0]) && Possible(Apply(s, sustained, events[0]), sustained, events[1..]))
  }

  ghost function RunFrom(s: State, sustained: bool, events: seq<Event>): State
    requires Possible(s, sustained, events)
    decreases |events|
  {
    if |events| == 0 then s else RunFrom(Apply(s, sustained, events[0]), sustained, events[1..])
  }

  // ----- Sums over the senders

  /** The transactions a sender holds. */
  function Holds(t: Sender): seq<Tx> {
    match t
    case Popped(batch) => batch
    case Sending(rest, _, _) => rest
    case _ => []
  }

  /** How many copies of tx the senders hold. */
  function Held(senders: seq<Sender>, tx: Tx): nat {
    if |senders| == 0 then 0 else Held(senders[..|senders| - 1], tx) + Count(Holds(senders[|senders| - 1]), tx)
  }

  /** 1 between the two updates of the active count. */
  function Inside(t: Sender): nat {
    if t.Sending? || t.Leaving? then 1 else 0
  }

  function CountInside(senders: seq<Sender>): nat {
    if |senders| == 0 then 0 else CountInside(senders[..|senders| - 1]) + Inside(senders[|senders| - 1])
  }

  /** Transactions dealt with but not yet added to the total. */
  function Untallied(t: Sender): int {
    match t
    case Sending(rest, len, _) => len - |rest|
    case Leaving(len) => len
    case Tallying(len) => len
    case _ => 0
  }

  function AllUntallied(senders: seq<Sender>): int {
    if |senders| == 0 then 0 else AllUntallied(senders[..|senders| - 1]) + Untallied(senders[|senders| - 1])
  }

  /** Moving one sender changes each sum by that sender's own part. */
  lemma {:induction false} MoveHeld(senders: seq<Sender>, i: nat, to: Sender, tx: Tx)
    requires i < |senders|
    ensures Held(senders[i := to], tx) + Count(Holds(senders[i]), tx) == Held(senders, tx) + Count(Holds(to), tx)
    decreases |senders|
  {
    hide Holds, Count;
    var n := |senders| - 1;
    if i < n {
      MoveHeld(senders[..n], i, to, tx);
      assert senders[i := to][..n] == senders[..n][i := to];
    } else {
      assert senders[i := to][..n] == senders[..n];
    }
  }

  lemma {:induction false} MoveCounts(senders: seq<Sender>, i: nat, to: Sender)
    requires i < |senders|
    ensures CountInside(senders[i := to]) + Inside(senders[i]) == CountInside(senders) + Inside(to)
    ensures AllUntallied(senders[i := to]) + Untallied(senders[i]) == AllUntallied(senders) + Untallied(to)
    decreases |senders|
  {
    var n := |senders| - 1;
    if i < n {
      MoveCounts(senders[..n], i, to);
      assert senders[i := to][..n] == senders[..n][i := to];
    } else {
      assert senders[i := to][..n] == senders[..n];
    }
  }

  // ----- The invariant of every interleaving

  /** How many copies of tx have not been dealt with. */
  function Outstanding(s: State, tx: Tx): nat {
    Count(Concat(s.queue), tx) + Held(s.senders, tx)
  }

  /** How many places transaction tx is in. */
  function Places(s: State, tx: Tx): nat {
    Outstanding(s, tx) + Count(s.sent, tx) + Count(s.skipped, tx) + Count(s.discarded, tx)
  }

  /** Every generated transaction is in exactly one place, and no other is anywhere. */
  ghost predicate OnePlace(s: State, tx: Tx) {
    Places(s, tx) == Count(s.generated, tx) <= 1
  }

  ghost predicate Counted(s: State) {
    && s.active == CountInside(s.senders)
    && |s.sent| + |s.skipped| == s.totalSent + AllUntallied(s.senders)
  }

  ghost predicate Bounded(s: State, sustained: bool) {
    && |s.senders| > 0
    && (sustained ==> |s.queue| <= 4 * |s.senders| - 1 && (s.generator == Ready ==> |s.queue| <= 2 * |s.senders|))
    && (!sustained ==> |s.queue| <= 2 * |s.senders| - 1 && (s.generator == Ready ==> s.queue == []))
    && (sustained ==> s.generator != SawEmpty)
    && (s.generator == SawEmpty ==> s.queue == [])
  }

  ghost predicate Inv(s: State, sustained: bool) {
    (forall tx :: OnePlace(s, tx)) && Counted(s) && Bounded(s, sustained)
  }

  lemma PopConcat(queue: seq<seq<Tx>>, tx: Tx)
    requires queue != []
    ensures Count(Concat(queue), tx) == Count(queue[0], tx) + Count(Concat(queue[1..]), tx)
  {
    CountSum(queue[0], Concat(queue[1..]), tx);
  }

  lemma FirstRest(s: seq<Tx>, tx: Tx)
    requires s != []
    ensures Count(s, tx) == Count([s[0]], tx) + Count(s[1..], tx)
  {
    assert s == [s[0]] + s[1..];
    CountSum([s[0]], s[1..], tx);
  }

  lemma GeneratePlaces(s: State, sustained: bool, txs: seq<Tx>, tx: Tx)
    requires |s.senders| > 0 && OnePlace(s, tx) && Enabled(s, sustained, Generate(txs))
    ensures OnePlace(Apply(s, sustained, Generate(txs)), tx)
  {
    var s' := Apply(s, sustained, Generate(txs));
    BatchesCover(txs, |s.senders|);
    ConcatAppend(s.queue, Batches(txs, |s.senders|));
    assert Concat(s'.queue) == Concat(s.queue) + txs;
    CountSum(Concat(s.queue), txs, tx);
    CountSum(s.generated, txs, tx);
    DistinctOnce(txs, tx);
    CountAbsent(s.generated, tx);
    hide Batches, Concat, Held, Count;
  }

  lemma PopPlaces(s: State, sustained: bool, i: nat, tx: Tx)
    requires |s.senders| > 0 && OnePlace(s, tx) && Enabled(s, sustained, Pop(i))
    ensures OnePlace(Apply(s, sustained, Pop(i)), tx)
  {
    MoveHeld(s.senders, i, Popped(s.queue[0]), tx);
    PopConcat(s.queue, tx);
    assert Count([], tx) == 0;
    hide Held, Concat, Count;
  }

  /** A sender passes the first transaction it holds on to `sent` or `skipped`. */
  lemma DealPlaces(s: State, s': State, i: nat, to: Sender, tx: Tx)
    requires i < |s.senders| && OnePlace(s, tx) && s'.senders == s.senders[i := to]
    requires s'.queue == s.queue && s'.generated == s.generated && s'.discarded == s.discarded
    requires Holds(s.senders[i]) != [] && Holds(to) == Holds(s.senders[i])[1..]
    requires var first := [Holds(s.senders[i])[0]];
             || (s'.sent == s.sent + first && s'.skipped == s.skipped)
             || (s'.sent == s.sent && s'.skipped == s.skipped + first)
    ensures OnePlace(s', tx)
  {
    var rest := Holds(s.senders[i]);
    MoveHeld(s.senders, i, to, tx);
    FirstRest(rest, tx);
    CountSum(s.sent, [rest[0]], tx);
    CountSum(s.skipped, [rest[0]], tx);
    hide Held, Concat, Count, Holds;
  }

  /** A sender moves on holding what it held. */
  lemma MovePlaces(s: State, s': State, i: nat, to: Sender, tx: Tx)
    requires i < |s.senders| && OnePlace(s, tx)
    requires s' == s.(senders := s.senders[i := to], active := s'.active, totalSent := s'.totalSent)
    requires Holds(to) == Holds(s.senders[i])
    ensures OnePlace(s', tx)
  {
    MoveHeld(s.senders, i, to, tx);
    hide Held, Concat, Count, Holds;
  }

  lemma EmptyQueue(tx: Tx)
    ensures Concat<Tx>([]) == [] && Count<Tx>([], tx) == 0
  {
  }

  lemma ClearPlaces(s: State, sustained: bool, i: nat, tx: Tx)
    requires |s.senders| > 0 && OnePlace(s, tx) && Enabled(s, sustained, ClearQueue(i))
    ensures OnePlace(Apply(s, sustained, ClearQueue(i)), tx)
  {
    EmptyQueue(tx);
    hide Held, Concat, Count;
    var s' := Apply(s, sustained, ClearQueue(i));
    MoveHeld(s.senders, i, Leaving(s.senders[i].len), tx);
    assert s'.discarded == s.discarded + Concat(s.queue);
    CountSum(s.discarded, Concat(s.queue), tx);
  }

  lemma WaitPlaces(s: State, s': State, tx: Tx)
    requires OnePlace(s, tx) && s' == s.(generator := s'.generator)
    ensures OnePlace(s', tx)
  {
  }

  lemma SendPlaces(s: State, sustained: bool, i: nat, tx: Tx)
    requires |s.senders| > 0 && OnePlace(s, tx) && Enabled(s, sustained, SendOne(i))
    ensures OnePlace(Apply(s, sustained, SendOne(i)), tx) && OnePlace(Apply(s, sustained, SkipOne(i)), tx)
  {
    hide OnePlace;
    var sent, skipped := Apply(s, sustained, SendOne(i)), Apply(s, sustained, SkipOne(i));
    DealPlaces(s, sent, i, sent.senders[i], tx);
    DealPlaces(s, skipped, i, skipped.senders[i], tx);
  }

  lemma PassPlaces(s: State, sustained: bool, e: Event, tx: Tx)
    requires |s.senders| > 0 && OnePlace(s, tx) && Enabled(s, sustained, e)
    requires e.CountUp? || e.EndBatch? || e.CountDown? || e.Tally? || e.Exit?
    ensures OnePlace(Apply(s, sustained, e), tx)
  {
    hide OnePlace;
    var s' := Apply(s, sustained, e);
    MovePlaces(s, s', e.i, s'.senders[e.i], tx);
  }

  lemma StepPlaces(s: State, sustained: bool, e: Event, tx: Tx)
    requires |s.senders| > 0 && OnePlace(s, tx) && Enabled(s, sustained, e)
    ensures OnePlace(Apply(s, sustained, e), tx)
  {
    hide OnePlace;
    match e {
      case Generate(txs) => GeneratePlaces(s, sustained, txs, tx);
      case Pop(i) => PopPlaces(s, sustained, i, tx);
      case ClearQueue(i) => ClearPlaces(s, sustained, i, tx);
      case SendOne(i) => SendPlaces(s, sustained, i, tx);
      case SkipOne(i) => SendPlaces(s, sustained, i, tx);
      case QueueShort => WaitPlaces(s, Apply(s, sustained, e), tx);
      case QueueEmpty => WaitPlaces(s, Apply(s, sustained, e), tx);
      case NoneActive => WaitPlaces(s, Apply(s, sustained, e), tx);
      case SomeActive => WaitPlaces(s, Apply(s, sustained, e), tx);
      case _ => PassPlaces(s, sustained, e, tx);
    }
  }

  lemma StepCounts(s: State, sustained: bool, e: Event)
    requires |s.senders| > 0 && Counted(s) && Enabled(s, sustained, e)
    ensures Counted(Apply(s, sustained, e))
  {
    var s' := Apply(s, sustained, e);
    if e.Pop? || e.CountUp? || e.SendOne? || e.SkipOne? || e.ClearQueue? || e.EndBatch? || e.CountDown? || e.Tally? || e.Exit? {
      MoveCounts(s.senders, e.i, s'.senders[e.i]);
    }
    hide CountInside, AllUntallied, Batches;
  }

  lemma StepBounded(s: State, sustained: bool, e: Event)
    requires Bounded(s, sustained) && Enabled(s, sustained, e)
    ensures Bounded(Apply(s, sustained, e), sustained)
  {
    if e.Generate? {
      BatchCount(e.txs, |s.senders|);
    }
    hide Batches, Concat;
  }

  lemma StepKeepsInv(s: State, sustained: bool, e: Event)
    requires Inv(s, sustained) && Enabled(s, sustained, e)
    ensures Inv(Apply(s, sustained, e), sustained)
  {
    StepCounts(s, sustained, e);
    StepBounded(s, sustained, e);
    forall tx
      ensures OnePlace(Apply(s, sustained, e), tx)
    {
      assert OnePlace(s, tx);
      StepPlaces(s, sustained, e, tx);
    }
  }

  lemma {:induction false} IdleSums(threads: nat, tx: Tx)
    ensures var senders := seq(threads, _ => Idle);
            Held(senders, tx) == 0 && CountInside(senders) == 0 && AllUntallied(senders) == 0
  {
    if threads > 0 {
      IdleSums(threads - 1, tx);
      assert seq(threads, _ => Idle)[..threads - 1] == seq(threads - 1, _ => Idle);
    }
  }

  lemma {:induction false} EveryRunKeepsInv(s: State, sustained: bool, events: seq<Event>)
    requires Inv(s, sustained) && Possible(s, sustained, events)
    ensures Inv(RunFrom(s, sustained, events), sustained)
    decreases |events|
  {
    if |events| > 0 {
      StepKeepsInv(s, sustained, events[0]);
      hide Inv;
      EveryRunKeepsInv(Apply(s, sustained, events[0]), sustained, events[1..]);
    }
  }

  lemma InitialInv(threads: nat, sustained: bool)
    requires threads > 0
    ensures Inv(Initial(threads), sustained)
  {
    IdleSums(threads, 0);
    forall tx
      ensures OnePlace(Initial(threads), tx)
    {
      IdleSums(threads, tx);
    }
  }

  // ----- The main results

  /** At-most-once sending, in every interleaving of generator and senders: each generated
      transaction is in exactly one of queued, held, sent, skipped or discarded; the active
      count is the number of senders between its two updates; and the sent total trails what
      was dealt with by exactly what is still to be tallied. */
  lemma AtMostOnce(threads: nat, sustained: bool, events: seq<Event>, tx: Tx)
    requires threads > 0 && Possible(Initial(threads), sustained, events)
    ensures var s := RunFrom(Initial(threads), sustained, events);
            && Places(s, tx) == Count(s.generated, tx) <= 1
            && s.active == CountInside(s.senders)
            && |s.sent| + |s.skipped| == s.totalSent + AllUntallied(s.senders)
  {
    InitialInv(threads, sustained);
    EveryRunKeepsInv(Initial(threads), sustained, events);
    assert OnePlace(RunFrom(Initial(threads), sustained, events), tx);
    hide *;
  }

  lemma {:induction false} SendersKept(s: State, sustained: bool, events: seq<Event>)
    requires Possible(s, sustained, events)
    ensures |RunFrom(s, sustained, events).senders| == |s.senders|
    decreases |events|
  {
    if |events| > 0 {
      SendersKept(Apply(s, sustained, events[0]), sustained, events[1..]);
    }
  }

  /** The queue never holds more than one round's batches, 2 * threads - 1, and in sustained
      mode never more than 4 * threads - 1. Without it, a round starts on an empty queue. */
  lemma QueueBounded(threads: nat, sustained: bool, events: seq<Event>)
    requires threads > 0 && Possible(Initial(threads), sustained, events)
    ensures var s := RunFrom(Initial(threads), sustained, events);
            && |s.queue| <= (if sustained then 4 * threads - 1 else 2 * threads - 1)
            && (s.generator == Ready ==> |s.queue| <= if sustained then 2 * threads else 0)
  {
    InitialInv(threads, sustained);
    EveryRunKeepsInv(Initial(threads), sustained, events);
    SendersKept(Initial(threads), sustained, events);
  }

  /** The transactions numbered from `first` on. */
  function Numbered(first: nat, n: nat): (txs: seq<Tx>)
    ensures |txs| == n && forall i :: 0 <= i < n ==> txs[i] == first + i
  {
    seq(n, i => first + i)
  }

  /** Fewer than two transactions per thread make batches of one. */
  lemma SingleBatches(txs: seq<Tx>, threads: nat)
    requires 0 < threads <= |txs| < 2 * threads
    ensures |Batches(txs, threads)| == |txs|
  {
    DivUnique(|txs|, threads, 1, |txs| - threads);
    ChunkCount(txs, 1);
  }

  /** A round of n new transactions, each in a batch of its own. */
  lemma GenerateSingles(s: State, sustained: bool, n: nat)
    requires s.generator == Ready && 0 < |s.senders| <= n < 2 * |s.senders|
    requires s.generated == Numbered(0, |s.generated|)
    ensures var e := Generate(Numbered(|s.generated|, n));
            && Enabled(s, sustained, e)
            && var t := Apply(s, sustained, e);
               && |t.queue| == |s.queue| + n && t.generator == Waiting && |t.senders| == |s.senders|
               && t.generated == Numbered(0, |t.generated|)
  {
    var txs := Numbered(|s.generated|, n);
    SingleBatches(txs, |s.senders|);
    assert Distinct(txs);
    forall tx | tx in txs
      ensures tx !in s.generated
    {
    }
    hide Batches;
  }

  lemma ShortEnough(s: State)
    requires |s.senders| > 0 && s.generator == Waiting && |s.queue| <= 2 * |s.senders|
    ensures Enabled(s, true, QueueShort) && Apply(s, true, QueueShort) == s.(generator := Ready)
  {
  }

  lemma NoEvents(s: State, sustained: bool)
    ensures Possible(s, sustained, []) && RunFrom(s, sustained, []) == s
  {
  }

  /** The bounds are reached: one round fills the queue to 2 * threads - 1 batches, and in
      sustained mode a third round, begun on 2 * threads, to 4 * threads - 1. */
  lemma QueueBoundReached(threads: nat, sustained: bool) returns (events: seq<Event>)
    requires threads > 0
    ensures Possible(Initial(threads), sustained, events)
    ensures |RunFrom(Initial(threads), sustained, events).queue|
            == if sustained then 4 * threads - 1 else 2 * threads - 1
  {
    var s0 := Initial(threads);
    assert s0.generated == Numbered(0, 0);
    hide Batches, Numbered, Fresh, Apply, Enabled, RunFrom, Possible;
    if !sustained {
      GenerateSingles(s0, sustained, 2 * threads - 1);
      var g := Generate(Numbered(0, 2 * threads - 1));
      NoEvents(Apply(s0, sustained, g), sustained);
      events := Then(s0, sustained, g, []);
    } else {
      GenerateSingles(s0, true, threads);
      var g0 := Generate(Numbered(0, threads));
      var s1 := Apply(s0, true, g0);
      ShortEnough(s1);
      var s2 := Apply(s1, true, QueueShort);
      GenerateSingles(s2, true, threads);
      var g1 := Generate(Numbered(|s2.generated|, threads));
      var s3 := Apply(s2, true, g1);
      ShortEnough(s3);
      var s4 := Apply(s3, true, QueueShort);
      GenerateSingles(s4, true, 2 * threads - 1);
      var g2 := Generate(Numbered(|s4.generated|, 2 * threads - 1));
      NoEvents(Apply(s4, true, g2), true);
      events := Then(s4, true, g2, []);
      events := Then(s3, true, QueueShort, events);
      events := Then(s2, true, g1, events);
      events := Then(s1, true, QueueShort, events);
      events := Then(s0, true, g0, events);
    }
  }

  lemma Then(s: State, sustained: bool, e: Event, rest: seq<Event>) returns (events: seq<Event>)
    requires |s.senders| > 0 && Enabled(s, sustained, e) && Possible(Apply(s, sustained, e), sustained, rest)
    ensures Possible(s, sustained, events)
    ensures RunFrom(s, sustained, events) == RunFrom(Apply(s, sustained, e), sustained, rest)
  {
    events := [e] + rest;
    assert events[1..] == rest;
  }

  // ----- First in, first out

  /** The batches one event pushes. */
  ghost function PushedBy(s: State, e: Event, next: State): seq<seq<Tx>> {
    if e.Generate? && |s.queue| <= |next.queue| then next.queue[|s.queue|..] else []
  }

  /** The batches one event takes out of the queue: what the sender holds right after its
      pop, or what it clears. */
  ghost function TakenBy(s: State, e: Event, next: State): seq<seq<Tx>> {
    match e
    case Pop(i) => if i < |next.senders| then [Holds(next.senders[i])] else []
    case ClearQueue(_) => s.queue
    case _ => []
  }

  ghost function Pushed(s: State, sustained: bool, events: seq<Event>): seq<seq<Tx>>
    requires Possible(s, sustained, events)
    decreases |events|
  {
    if |events| == 0 then []
    else
      var next := Apply(s, sustained, events[0]);
      PushedBy(s, events[0], next) + Pushed(next, sustained, events[1..])
  }

  ghost function Departed(s: State, sustained: bool, events: seq<Event>): seq<seq<Tx>>
    requires Possible(s, sustained, events)
    decreases |events|
  {
    if |events| == 0 then []
    else
      var next := Apply(s, sustained, events[0]);
      TakenBy(s, events[0], next) + Departed(next, sustained, events[1..])
  }

  lemma StepInOrder(s: State, sustained: bool, e: Event)
    requires |s.senders| > 0 && Enabled(s, sustained, e)
    ensures var next := Apply(s, sustained, e);
            s.queue + PushedBy(s, e, next) == TakenBy(s, e, next) + next.queue
  {
    hide Batches, Concat;
    var next := Apply(s, sustained, e);
    if e.Pop? {
      assert s.queue == [s.queue[0]] + next.queue;
    }
  }

  lemma Rejoin<T>(q0: seq<T>, p0: seq<T>, d0: seq<T>, q1: seq<T>, p1: seq<T>, d1: seq<T>, q2: seq<T>)
    requires q0 + p0 == d0 + q1 && q1 + p1 == d1 + q2
    ensures q0 + (p0 + p1) == (d0 + d1) + q2
  {
    assert q0 + (p0 + p1) == (q0 + p0) + p1;
    assert (d0 + q1) + p1 == d0 + (q1 + p1);
    assert d0 + (d1 + q2) == (d0 + d1) + q2;
  }

  /** In every run the batches leave the queue in the order in which they were pushed: those
      that left, followed by those still queued, are all that were pushed. */
  lemma {:induction false} FirstInFirstOut(s: State, sustained: bool, events: seq<Event>)
    requires Possible(s, sustained, events)
    ensures s.queue + Pushed(s, sustained, events)
            == Departed(s, sustained, events) + RunFrom(s, sustained, events).queue
    decreases |events|
  {
    if |events| > 0 {
      hide Apply, Enabled, PushedBy, TakenBy;
      var e := events[0];
      var next := Apply(s, sustained, e);
      StepInOrder(s, sustained, e);
      FirstInFirstOut(next, sustained, events[1..]);
      Rejoin(s.queue, PushedBy(s, e, next), TakenBy(s, e, next), next.queue,
             Pushed(next, sustained, events[1..]), Departed(next, sustained, events[1..]),
             RunFrom(next, sustained, events[1..]).queue);
    }
  }

  lemma {:induction false} OneHolds(senders: seq<Sender>, i: nat, tx: Tx)
    requires i < |senders|
    ensures Held(senders, tx) >= Count(Holds(senders[i]), tx)
    decreases |senders|
  {
    hide Count, Holds;
    if i < |senders| - 1 {
      OneHolds(senders[..|senders| - 1], i, tx);
    }
  }

  /** No sender is between taking a non-empty batch and announcing itself. */
  predicate NoneUnannounced(senders: seq<Sender>) {
    forall i :: 0 <= i < |senders| ==> !(senders[i].Popped? && senders[i].batch != [])
  }

  lemma {:induction false} NothingHeld(senders: seq<Sender>, tx: Tx)
    requires CountInside(senders) == 0 && NoneUnannounced(senders)
    ensures Held(senders, tx) == 0
    decreases |senders|
  {
    if |senders| > 0 {
      var n := |senders| - 1;
      NothingHeld(senders[..n], tx);
      assert !(senders[n].Popped? && senders[n].batch != []);
    }
  }

  /** Without sustained mode the generator waits for an empty queue and no active sender
      before the next round. That leaves nothing behind that is still to be sent if and only
      if no sender is between taking a batch and announcing itself. */
  lemma BarrierIff(threads: nat, events: seq<Event>)
    requires threads > 0 && Possible(Initial(threads), false, events)
    requires Enabled(RunFrom(Initial(threads), false, events), false, NoneActive)
    ensures var s := RunFrom(Initial(threads), false, events);
            (forall tx :: Outstanding(s, tx) == 0) <==> NoneUnannounced(s.senders)
  {
    var s := RunFrom(Initial(threads), false, events);
    InitialInv(threads, false);
    EveryRunKeepsInv(Initial(threads), false, events);
    hide RunFrom, Possible;
    if NoneUnannounced(s.senders) {
      forall tx
        ensures Outstanding(s, tx) == 0
      {
        NothingHeld(s.senders, tx);
      }
    } else {
      var i :| 0 <= i < |s.senders| && s.senders[i].Popped? && s.senders[i].batch != [];
      var tx := s.senders[i].batch[0];
      OneHolds(s.senders, i, tx);
      CountAbsent(s.senders[i].batch, tx);
      assert Outstanding(s, tx) > 0;
    }
  }

  /** It does happen: one thread takes a batch, and the generator moves on before the
      thread has counted itself in. */
  lemma BarrierLeaks()
    ensures var events := [Generate([7]), Pop(0), QueueEmpty];
            && Possible(Initial(1), false, events)
            && Enabled(RunFrom(Initial(1), false, events), false, NoneActive)
            && RunFrom(Initial(1), false, events).senders[0] == Popped([7])
  {
    var s0 := Initial(1);
    assert s0.senders == [Idle];
    assert Batches([7], 1) == [[7]];
    var s1 := Apply(s0, false, Generate([7]));
    assert s1.queue == [[7]];
    var s2 := Apply(s1, false, Pop(0));
    assert s2.queue == [] && s2.senders == [Popped([7])];
    var s3 := Apply(s2, false, QueueEmpty);
    var events := [Generate([7]), Pop(0), QueueEmpty];
    assert events[1..] == [Pop(0), QueueEmpty] && events[1..][1..] == [QueueEmpty] && events[1..][1..][1..] == [];
    assert Possible(s3, false, []);
    assert Possible(s2, false, [QueueEmpty]) && RunFrom(s2, false, [QueueEmpty]) == s3;
    assert Possible(s1, false, [Pop(0), QueueEmpty]) && RunFrom(s1, false, [Pop(0), QueueEmpty]) == s3;
  }

  // ----- Too old to send

  lemma SenderStays(s: State, sustained: bool, e: Event, i: nat)
    requires |s.senders| > 0 && Enabled(s, sustained, e) && i < |s.senders|
    requires s.senders[i].Sending? && s.senders[i].sawOld && e != ClearQueue(i)
    ensures var t := Apply(s, sustained, e); i < |t.senders| && t.senders[i].Sending? && t.senders[i].sawOld
  {
    hide Batches, Concat;
  }

  lemma {:induction false} StillSending(s: State, sustained: bool, events: seq<Event>, i: nat)
    requires i < |s.senders| && s.senders[i].Sending? && s.senders[i].sawOld
    requires Possible(s, sustained, events) && ClearQueue(i) !in events
    ensures var t := RunFrom(s, sustained, events); i < |t.senders| && t.senders[i].Sending?
    decreases |events|
  {
    if |events| > 0 {
      assert ClearQueue(i) !in events[1..];
      SenderStays(s, sustained, events[0], i);
      StillSending(Apply(s, sustained, events[0]), sustained, events[1..], i);
    }
  }

  /** A sender that finds one transaction too old cannot leave its batch without clearing
      the shared queue. */
  lemma SkipForcesClear(s: State, sustained: bool, i: nat, events: seq<Event>)
    requires |s.senders| > 0 && Enabled(s, sustained, SkipOne(i))
    requires Possible(Apply(s, sustained, SkipOne(i)), sustained, events) && ClearQueue(i) !in events
    ensures var t := RunFrom(Apply(s, sustained, SkipOne(i)), sustained, events); i < |t.senders| && t.senders[i].Sending?
  {
    StillSending(Apply(s, sustained, SkipOne(i)), sustained, events, i);
  }

  /** Every sender that would clear the queue has seen something too old. */
  ghost predicate OldSkipped(s: State, past: seq<Event>) {
    forall i :: 0 <= i < |s.senders| && s.senders[i].Sending? && s.senders[i].sawOld ==> SkipOne(i) in past
  }

  lemma OldSkippedNext(s: State, sustained: bool, past: seq<Event>, e: Event)
    requires |s.senders| > 0 && OldSkipped(s, past) && Enabled(s, sustained, e)
    ensures OldSkipped(Apply(s, sustained, e), past + [e])
  {
    var s' := Apply(s, sustained, e);
    hide Batches, Concat;
    forall i | 0 <= i < |s'.senders| && s'.senders[i].Sending? && s'.senders[i].sawOld
      ensures SkipOne(i) in past + [e]
    {
      if e != SkipOne(i) {
        assert s.senders[i].Sending? && s.senders[i].sawOld;
      }
    }
  }

  lemma {:induction false} OldSkippedRun(s: State, sustained: bool, past: seq<Event>, events: seq<Event>)
    requires OldSkipped(s, past) && Possible(s, sustained, events)
    ensures OldSkipped(RunFrom(s, sustained, events), past + events)
    decreases |events|
  {
    if |events| == 0 {
      assert past + events == past;
    } else {
      OldSkippedNext(s, sustained, past, events[0]);
      OldSkippedRun(Apply(s, sustained, events[0]), sustained, past + [events[0]], events[1..]);
      assert past + [events[0]] + events[1..] == past + events;
    }
  }

  /** The queue is never cleared by a sender that has skipped nothing. */
  lemma ClearNeedsSkip(threads: nat, sustained: bool, events: seq<Event>, i: nat)
    requires threads > 0 && Possible(Initial(threads), sustained, events)
    requires Enabled(RunFrom(Initial(threads), sustained, events), sustained, ClearQueue(i))
    ensures SkipOne(i) in events
  {
    OldSkippedRun(Initial(threads), sustained, [], events);
    assert [] + events == events;
  }
}

/** The send-transaction service of the banks server: a bounded queue of transactions that
    are sent again on every status pass until they are rooted, fail or expire. */
module RetryService {

  type Signature = nat
  const MAX_TRANSACTION_QUEUE_SIZE: nat := 10_000

  datatype Info = Info(signature: Signature, wire: seq<nat>, lastValidSlot: nat)
  type Queue = map<Signature, Info>

  /** What a status pass sees: the root bank's slot and signatures, and the working bank's
      statuses, true for success. */
  datatype Banks = Banks(rootSlot: nat, rooted: set<Signature>, statuses: map<Signature, bool>)

  datatype Result = Result(rooted: nat, expired: nat, retried: nat, failed: nat, retained: nat)

  datatype Fate = Rooted | Expired | Retried | Failed | Retained

  function FateOf(signature: Signature, info: Info, banks: Banks): Fate {
    if signature in banks.rooted then Rooted
    else if info.lastValidSlot < banks.rootSlot then Expired
    else if signature !in banks.statuses then Retried
    else if !banks.statuses[signature] then Failed
    else Retained
  }

  predicate Stays(fate: Fate) {
    fate == Retried || fate == Retained
  }

  // ----- What a pass and a receipt do to the queue

  function AfterPass(queue: Queue, banks: Banks): (after: Queue)
    ensures after.Keys <= queue.Keys
  {
    map sig | sig in queue && Stays(FateOf(sig, queue[sig], banks)) :: queue[sig]
  }

  /** The signatures that meet a given fate. */
  function WithFate(queue: Queue, banks: Banks, fate: Fate): set<Signature> {
    set sig | sig in queue && FateOf(sig, queue[sig], banks) == fate
  }

  function AfterReceive(queue: Queue, info: Info): Queue {
    if |queue| < MAX_TRANSACTION_QUEUE_SIZE then queue[info.signature := info] else queue
  }

  // ----- The service

  class SendTransactionService {
    var transactions: Queue

    constructor ()
      ensures transactions == map[]
    {
      transactions := map[];
    }

    ghost predicate Valid()
      reads this
    {
      WellKept(transactions)
    }

    /** A transaction arrives: it is sent at once and kept for retries if there is room. */
    method Receive(info: Info) returns (sent: seq<seq<nat>>)
      requires Valid()
      modifies this
      ensures Valid() && transactions == AfterReceive(old(transactions), info)
      ensures sent == [info.wire]
      ensures |old(transactions)| < 10_000 ==> info.signature in transactions && transactions[info.signature] == info
      ensures |old(transactions)| >= 10_000 ==> transactions == old(transactions)
      ensures forall sig :: sig != info.signature ==>
                && (sig in transactions <==> sig in old(transactions))
                && (sig in transactions ==> transactions[sig] == old(transactions)[sig])
    {
      ReceiveKeeps(transactions, info);
      sent := [info.wire];
      if |transactions| < MAX_TRANSACTION_QUEUE_SIZE {
        transactions := transactions[info.signature := info];
      }
    }

    /** `process_transactions`: visits every entry, in no particular order. Each counter is
        the number of entries that met its fate, so the five add up to the old size and the
        two that stay to the new size; exactly the retried ones are sent again. */
    method ProcessTransactions(banks: Banks) returns (result: Result, resent: set<Signature>)
      requires Valid()
      modifies this
      ensures Valid() && transactions == AfterPass(old(transactions), banks)
      ensures resent == WithFate(old(transactions), banks, Retried)
      ensures Tallies(old(transactions), banks, result)
      ensures forall sig :: sig in transactions <==>
                && sig in old(transactions) && sig !in banks.rooted
                && banks.rootSlot <= old(transactions)[sig].lastValidSlot
                && (sig in banks.statuses ==> banks.statuses[sig])
      ensures forall sig :: sig in transactions ==> transactions[sig] == old(transactions)[sig]
      ensures forall sig :: sig in resent <==> sig in transactions && sig !in banks.statuses
      ensures CountersMean(old(transactions), banks, result)
      ensures result.rooted + result.expired + result.retried + result.failed + result.retained == |old(transactions)|
      ensures result.retried + result.retained == |transactions|
    {
      ghost var queue := transactions;
      PassKeeps(queue, banks);
      Nothing(queue, banks);
      hide Partial, WithFate, Tallies, AfterPass, WellKept, CountersMean, FateOf, Bump;
      var kept: Queue := map[];
      var todo := transactions.Keys;
      resent := {};
      result := Result(0, 0, 0, 0, 0);
      while todo != {}
        invariant todo <= queue.Keys && transactions == queue
        invariant Partial(queue, banks, queue.Keys - todo, result, resent, kept)
        decreases |todo|
      {
        var sig :| sig in todo;
        Visit(queue, banks, queue.Keys - todo, sig, result, resent, kept);
        MoreSeen(queue.Keys, todo, sig);
        result, resent, kept := Retain(sig, transactions[sig], banks, result, resent, kept);
        todo := todo - {sig};
      }
      Everything(queue, banks, result, resent, kept);
      PassMeans(queue, banks);
      TalliesMean(queue, banks, result);
      transactions := kept;
    }

    /** The closure that decides about one entry. */
    method Retain(sig: Signature, info: Info, banks: Banks, result: Result, resent: set<Signature>, kept: Queue)
      returns (result': Result, resent': set<Signature>, kept': Queue)
      ensures var fate := FateOf(sig, info, banks);
              && result' == Bump(result, fate)
              && resent' == (if fate == Retried then resent + {sig} else resent)
              && kept' == (if Stays(fate) then kept[sig := info] else kept)
    {
      result', resent', kept' := result, resent, kept;
      if sig in banks.rooted {
        result' := result.(rooted := result.rooted + 1);
      } else if info.lastValidSlot < banks.rootSlot {
        result' := result.(expired := result.expired + 1);
      } else if sig !in banks.statuses {
        result' := result.(retried := result.retried + 1);
        resent' := resent + {sig};
        kept' := kept[sig := info];
      } else if !banks.statuses[sig] {
        result' := result.(failed := result.failed + 1);
      } else {
        result' := result.(retained := result.retained + 1);
        kept' := kept[sig := info];
      }
    }
  }

  lemma MoreSeen(keys: set<Signature>, todo: set<Signature>, sig: Signature)
    requires todo <= keys && sig in todo
    ensures keys - (todo - {sig}) == (keys - todo) + {sig}
  {
  }

  // ----- Counting a pass

  ghost function Among(queue: Queue, banks: Banks, seen: set<Signature>, fate: Fate): set<Signature> {
    set sig | sig in queue && sig in seen && FateOf(sig, queue[sig], banks) == fate
  }

  ghost predicate Tallies(queue: Queue, banks: Banks, r: Result) {
    && r.rooted == |WithFate(queue, banks, Rooted)|
    && r.expired == |WithFate(queue, banks, Expired)|
    && r.retried == |WithFate(queue, banks, Retried)|
    && r.failed == |WithFate(queue, banks, Failed)|
    && r.retained == |WithFate(queue, banks, Retained)|
  }

  function Counter(r: Result, fate: Fate): nat {
    match fate
    case Rooted => r.rooted
    case Expired => r.expired
    case Retried => r.retried
    case Failed => r.failed
    case Retained => r.retained
  }

  ghost function KeptAmong(queue: Queue, banks: Banks, seen: set<Signature>): Queue {
    map sig | sig in queue && sig in seen && Stays(FateOf(sig, queue[sig], banks)) :: queue[sig]
  }

  ghost predicate CountsSoFar(queue: Queue, banks: Banks, seen: set<Signature>, r: Result) {
    forall fate :: Counter(r, fate) == |Among(queue, banks, seen, fate)|
  }

  ghost predicate SizesSoFar(seen: set<Signature>, r: Result, kept: Queue) {
    r.rooted + r.expired + r.retried + r.failed + r.retained == |seen| && r.retried + r.retained == |kept|
  }

  /** How far a pass has come when it has visited `seen`. */
  ghost predicate Partial(queue: Queue, banks: Banks, seen: set<Signature>, r: Result, resent: set<Signature>, kept: Queue) {
    && CountsSoFar(queue, banks, seen, r)
    && resent == Among(queue, banks, seen, Retried)
    && kept == KeptAmong(queue, banks, seen)
    && SizesSoFar(seen, r, kept)
  }

  lemma Nothing(queue: Queue, banks: Banks)
    ensures queue.Keys - queue.Keys == {}
    ensures Partial(queue, banks, {}, Result(0, 0, 0, 0, 0), {}, map[])
  {
    forall fate
      ensures Among(queue, banks, {}, fate) == {}
    {
    }
  }

  lemma AmongMore(queue: Queue, banks: Banks, seen: set<Signature>, sig: Signature, fate: Fate)
    requires sig in queue && sig !in seen
    ensures Among(queue, banks, seen + {sig}, fate)
            == Among(queue, banks, seen, fate) + (if FateOf(sig, queue[sig], banks) == fate then {sig} else {})
    ensures |Among(queue, banks, seen + {sig}, fate)|
            == |Among(queue, banks, seen, fate)| + (if FateOf(sig, queue[sig], banks) == fate then 1 else 0)
  {
    assert Among(queue, banks, seen + {sig}, fate)
           == Among(queue, banks, seen, fate) + (if FateOf(sig, queue[sig], banks) == fate then {sig} else {});
  }

  function Bump(r: Result, fate: Fate): Result {
    match fate
    case Rooted => r.(rooted := r.rooted + 1)
    case Expired => r.(expired := r.expired + 1)
    case Retried => r.(retried := r.retried + 1)
    case Failed => r.(failed := r.failed + 1)
    case Retained => r.(retained := r.retained + 1)
  }

  lemma KeptMore(queue: Queue, banks: Banks, seen: set<Signature>, sig: Signature)
    requires sig in queue && sig !in seen
    ensures var kept := KeptAmong(queue, banks, seen);
            var stays := Stays(FateOf(sig, queue[sig], banks));
            && KeptAmong(queue, banks, seen + {sig}) == (if stays then kept[sig := queue[sig]] else kept)
            && |KeptAmong(queue, banks, seen + {sig})| == |kept| + (if stays then 1 else 0)
  {
    var kept := KeptAmong(queue, banks, seen);
    var stays := Stays(FateOf(sig, queue[sig], banks));
    assert sig !in kept;
    assert KeptAmong(queue, banks, seen + {sig}) == (if stays then kept[sig := queue[sig]] else kept);
  }

  lemma Visit(queue: Queue, banks: Banks, seen: set<Signature>, sig: Signature, r: Result, resent: set<Signature>, kept: Queue)
    requires Partial(queue, banks, seen, r, resent, kept) && sig in queue && sig !in seen
    ensures var fate := FateOf(sig, queue[sig], banks);
            Partial(queue, banks, seen + {sig}, Bump(r, fate),
                    if fate == Retried then resent + {sig} else resent,
                    if Stays(fate) then kept[sig := queue[sig]] else kept)
  {
    var fate := FateOf(sig, queue[sig], banks);
    VisitCounts(queue, banks, seen, sig, r);
    AmongMore(queue, banks, seen, sig, Retried);
    KeptMore(queue, banks, seen, sig);
    VisitSizes(seen, sig, r, fate, kept, KeptAmong(queue, banks, seen + {sig}));
    hide CountsSoFar, SizesSoFar, Among, FateOf, KeptAmong, Bump;
  }

  lemma VisitSizes(seen: set<Signature>, sig: Signature, r: Result, fate: Fate, kept: Queue, kept': Queue)
    requires SizesSoFar(seen, r, kept) && sig !in seen
    requires |kept'| == |kept| + (if Stays(fate) then 1 else 0)
    ensures SizesSoFar(seen + {sig}, Bump(r, fate), kept')
  {
  }

  lemma VisitCounts(queue: Queue, banks: Banks, seen: set<Signature>, sig: Signature, r: Result)
    requires CountsSoFar(queue, banks, seen, r)
    requires sig in queue && sig !in seen
    ensures CountsSoFar(queue, banks, seen + {sig}, Bump(r, FateOf(sig, queue[sig], banks)))
  {
    forall f
      ensures Counter(Bump(r, FateOf(sig, queue[sig], banks)), f) == |Among(queue, banks, seen + {sig}, f)|
    {
      AmongMore(queue, banks, seen, sig, f);
      hide Among, FateOf;
    }
  }

  lemma Everything(queue: Queue, banks: Banks, r: Result, resent: set<Signature>, kept: Queue)
    requires Partial(queue, banks, queue.Keys - {}, r, resent, kept)
    ensures kept == AfterPass(queue, banks) && resent == WithFate(queue, banks, Retried) && Tallies(queue, banks, r)
    ensures r.rooted + r.expired + r.retried + r.failed + r.retained == |queue|
    ensures r.retried + r.retained == |kept|
  {
    assert queue.Keys - {} == queue.Keys;
    forall fate
      ensures Among(queue, banks, queue.Keys, fate) == WithFate(queue, banks, fate)
    {
    }
    assert Counter(r, Rooted) == |WithFate(queue, banks, Rooted)|;
    assert Counter(r, Expired) == |WithFate(queue, banks, Expired)|;
    assert Counter(r, Retried) == |WithFate(queue, banks, Retried)|;
    assert Counter(r, Failed) == |WithFate(queue, banks, Failed)|;
    assert Counter(r, Retained) == |WithFate(queue, banks, Retained)|;
    assert |queue.Keys| == |queue|;
  }

  // ----- What a pass means

  /** Still waiting: not rooted, and the root is not past the last valid slot. */
  predicate Waiting(queue: Queue, banks: Banks, sig: Signature) {
    sig in queue && sig !in banks.rooted && banks.rootSlot <= queue[sig].lastValidSlot
  }

  /** Each counter is the number of entries of its kind. */
  ghost predicate CountersMean(queue: Queue, banks: Banks, r: Result) {
    && r.rooted == |set sig | sig in queue && sig in banks.rooted|
    && r.expired == |set sig | sig in queue && sig !in banks.rooted && queue[sig].lastValidSlot < banks.rootSlot|
    && r.retried == |set sig | sig in queue && Waiting(queue, banks, sig) && sig !in banks.statuses|
    && r.failed == |set sig | sig in queue && Waiting(queue, banks, sig) && sig in banks.statuses && !banks.statuses[sig]|
    && r.retained == |set sig | sig in queue && Waiting(queue, banks, sig) && sig in banks.statuses && banks.statuses[sig]|
  }

  lemma TalliesMean(queue: Queue, banks: Banks, r: Result)
    requires Tallies(queue, banks, r)
    ensures CountersMean(queue, banks, r)
  {
    assert WithFate(queue, banks, Rooted) == set sig | sig in queue && sig in banks.rooted;
    assert WithFate(queue, banks, Expired)
           == set sig | sig in queue && sig !in banks.rooted && queue[sig].lastValidSlot < banks.rootSlot;
    assert WithFate(queue, banks, Retried)
           == set sig | sig in queue && Waiting(queue, banks, sig) && sig !in banks.statuses;
    assert WithFate(queue, banks, Failed)
           == set sig | sig in queue && Waiting(queue, banks, sig) && sig in banks.statuses && !banks.statuses[sig];
    assert WithFate(queue, banks, Retained)
           == set sig | sig in queue && Waiting(queue, banks, sig) && sig in banks.statuses && banks.statuses[sig];
  }

  /** An entry stays if and only if it is waiting and is not known to have failed, and is
      sent again if and only if moreover nothing is known of it. */
  lemma PassMeans(queue: Queue, banks: Banks)
    ensures forall sig :: sig in AfterPass(queue, banks) <==>
              Waiting(queue, banks, sig) && (sig in banks.statuses ==> banks.statuses[sig])
    ensures forall sig :: sig in AfterPass(queue, banks) ==> AfterPass(queue, banks)[sig] == queue[sig]
    ensures forall sig :: sig in WithFate(queue, banks, Retried) <==>
              sig in AfterPass(queue, banks) && sig !in banks.statuses
  {
  }

  // ----- Whole runs of the service

  datatype Event = Receipt(info: Info) | Pass(banks: Banks)

  ghost function Apply(queue: Queue, e: Event): Queue {
    match e
    case Receipt(info) => AfterReceive(queue, info)
    case Pass(banks) => AfterPass(queue, banks)
  }

  ghost function RunFrom(queue: Queue, events: seq<Event>): Queue
    decreases |events|
  {
    if |events| == 0 then queue else RunFrom(Apply(queue, events[0]), events[1..])
  }

  /** Bounded, and every entry stored under its own signature. */
  ghost predicate WellKept(queue: Queue) {
    |queue| <= MAX_TRANSACTION_QUEUE_SIZE && forall sig :: sig in queue ==> queue[sig].signature == sig
  }

  lemma ReceiveKeeps(queue: Queue, info: Info)
    requires WellKept(queue)
    ensures WellKept(AfterReceive(queue, info))
  {
  }

  lemma Smaller(a: set<Signature>, b: set<Signature>)
    requires a <= b
    ensures |a| <= |b|
  {
    assert b == a + (b - a);
  }

  lemma PassKeeps(queue: Queue, banks: Banks)
    requires WellKept(queue)
    ensures WellKept(AfterPass(queue, banks))
  {
    Smaller(AfterPass(queue, banks).Keys, queue.Keys);
    assert |AfterPass(queue, banks).Keys| == |AfterPass(queue, banks)|;
  }

  /** Over every sequence of receipts and passes the queue stays bounded and well keyed. */
  lemma {:induction false} EveryRunIsWellKept(queue: Queue, events: seq<Event>)
    requires WellKept(queue)
    ensures WellKept(RunFrom(queue, events)) && |RunFrom(queue, events)| <= 10_000
    decreases |events|
  {
    if |events| > 0 {
      match events[0] {
        case Receipt(info) => ReceiveKeeps(queue, info);
        case Pass(banks) => PassKeeps(queue, banks);
      }
      hide Apply;
      EveryRunIsWellKept(Apply(queue, events[0]), events[1..]);
    }
  }

  // ----- How long an entry lives

  /** The signature is not received again. */
  ghost predicate NotReceived(events: seq<Event>, sig: Signature) {
    forall i :: 0 <= i < |events| && events[i].Receipt? ==> events[i].info.signature != sig
  }

  /** Roots advance from pass to pass, starting at `from`. */
  ghost predicate RootsAdvance(events: seq<Event>, from: nat)
    decreases |events|
  {
    |events| == 0 ||
    match events[0]
    case Receipt(_) => RootsAdvance(events[1..], from)
    case Pass(banks) => banks.rootSlot >= from && RootsAdvance(events[1..], banks.rootSlot + 1)
  }

  function Passes(events: seq<Event>): nat {
    if |events| == 0 then 0 else Passes(events[1..]) + if events[0].Pass? then 1 else 0
  }

  /** How often sig is sent again during the run. */
  ghost function Resends(queue: Queue, events: seq<Event>, sig: Signature): nat
    decreases |events|
  {
    if |events| == 0 then 0
    else (if events[0].Pass? && sig in WithFate(queue, events[0].banks, Retried) then 1 else 0)
         + Resends(Apply(queue, events[0]), events[1..], sig)
  }

  /** The entry of sig after an event that does not receive it: unchanged or gone. */
  lemma EntryAfter(queue: Queue, e: Event, sig: Signature)
    requires e.Receipt? ==> e.info.signature != sig
    ensures sig in Apply(queue, e) ==> sig in queue && Apply(queue, e)[sig] == queue[sig]
    ensures e.Pass? ==> (sig in Apply(queue, e) <==> sig in queue && Stays(FateOf(sig, queue[sig], e.banks)))
    ensures e.Receipt? ==> (sig in Apply(queue, e) <==> sig in queue)
  {
  }

  /** An entry that is still there after a run was there before it, unchanged, and no pass
      of the run had rooted it or a root beyond its last valid slot. */
  lemma {:induction false} Survivor(queue: Queue, events: seq<Event>, sig: Signature)
    requires NotReceived(events, sig) && sig in RunFrom(queue, events)
    ensures sig in queue && RunFrom(queue, events)[sig] == queue[sig]
    ensures forall i :: 0 <= i < |events| && events[i].Pass? ==>
              sig !in events[i].banks.rooted && events[i].banks.rootSlot <= queue[sig].lastValidSlot
    decreases |events|
  {
    if |events| > 0 {
      var next := Apply(queue, events[0]);
      assert NotReceived(events[1..], sig);
      Survivor(next, events[1..], sig);
      EntryAfter(queue, events[0], sig);
      hide Apply;
      forall i | 0 <= i < |events| && events[i].Pass?
        ensures sig !in events[i].banks.rooted && events[i].banks.rootSlot <= queue[sig].lastValidSlot
      {
        if i > 0 {
          assert events[i] == events[1..][i - 1];
        }
      }
    }
  }

  /** Bounded lifetime: while roots advance, a transaction that is not received again sits
      through at most as many passes as there are slots left to it ... */
  lemma {:induction false} LifetimeBounded(queue: Queue, events: seq<Event>, sig: Signature, from: nat)
    requires NotReceived(events, sig) && RootsAdvance(events, from) && sig in RunFrom(queue, events)
    ensures sig in queue && (Passes(events) == 0 || from + Passes(events) <= queue[sig].lastValidSlot + 1)
    decreases |events|
  {
    if |events| > 0 {
      var next := Apply(queue, events[0]);
      assert NotReceived(events[1..], sig);
      EntryAfter(queue, events[0], sig);
      LifetimeBounded(next, events[1..], sig, if events[0].Pass? then events[0].banks.rootSlot + 1 else from);
      EntryAfter(queue, events[0], sig);
      hide Apply;
    }
  }

  lemma {:induction false} AbsentStaysAbsent(queue: Queue, events: seq<Event>, sig: Signature)
    requires NotReceived(events, sig) && sig !in queue
    ensures Resends(queue, events, sig) == 0
    decreases |events|
  {
    if |events| > 0 {
      EntryAfter(queue, events[0], sig);
      assert NotReceived(events[1..], sig);
      AbsentStaysAbsent(Apply(queue, events[0]), events[1..], sig);
    }
  }

  /** ... and is sent again at most that often, whether or not it survives the run. */
  lemma {:induction false} ResendsBounded(queue: Queue, events: seq<Event>, sig: Signature, from: nat)
    requires NotReceived(events, sig) && RootsAdvance(events, from) && sig in queue
    ensures Resends(queue, events, sig) == 0 || from + Resends(queue, events, sig) <= queue[sig].lastValidSlot + 1
    decreases |events|
  {
    if |events| > 0 {
      var next := Apply(queue, events[0]);
      assert NotReceived(events[1..], sig);
      EntryAfter(queue, events[0], sig);
      if sig in next {
        ResendsBounded(next, events[1..], sig, if events[0].Pass? then events[0].banks.rootSlot + 1 else from);
      } else {
        AbsentStaysAbsent(next, events[1..], sig);
      }
      hide Apply;
    }
  }

  /** Every entry of a run was received in it or there before. */
  lemma {:induction false} EntryOrigin(queue: Queue, events: seq<Event>, sig: Signature)
    requires sig in RunFrom(queue, events)
    ensures (sig in queue && queue[sig] == RunFrom(queue, events)[sig]) || Receipt(RunFrom(queue, events)[sig]) in events
    decreases |events|
  {
    if |events| > 0 {
      var next := Apply(queue, events[0]);
      EntryOrigin(next, events[1..], sig);
      if Receipt(RunFrom(queue, events)[sig]) !in events[1..] && events[0].Pass? {
        EntryAfter(queue, events[0], sig);
      }
    }
  }

  /** Nothing is ever sent again but what was received, and never past its last valid slot:
      in every run of the service, at every pass. */
  lemma NoLateResend(events: seq<Event>, banks: Banks, sig: Signature)
    requires sig in WithFate(RunFrom(map[], events), banks, Retried)
    ensures var info := RunFrom(map[], events)[sig];
            Receipt(info) in events && info.signature == sig && banks.rootSlot <= info.lastValidSlot
  {
    EntryOrigin(map[], events, sig);
    EveryRunIsWellKept(map[], events);
  }
}

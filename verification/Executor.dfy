/** The transaction executor of accounts-cluster-bench: ids are issued by one thread, and a
    second thread removes settled signatures from the pending list in place and passes their
    ids on. */
module Executor {
  import opened Options
  import opened Slices

  type Signature = nat
  const STATUS_CHUNK: nat := 200
  const TIMEOUT_MS: nat := 30_000

  datatype Entry = Entry(signature: Signature, sentAt: nat, id: nat)
  datatype SendResult = Sent(signature: Signature, at: nat) | Failed
  /** A known status: the transaction landed, well or with an error. */
  type Status = Option<bool>

  // ----- Where every id is

  datatype View = View(
    counter: nat,            // ids issued so far are 0 .. counter
    failed: seq<nat>,        // never entered the list: the send failed
    outstanding: seq<nat>,   // in the pending list
    transit: seq<nat>,       // removed from it, not yet published by the clearing thread
    cleared: seq<nat>,
    drained: seq<nat>)

  datatype Event =
    | Push(sent: seq<bool>)
    | Scan(gone: seq<bool>)
    | Publish
    | Drain

  /** The ids, starting at first, of the transactions whose flag is `want`. */
  function Issue(first: nat, flags: seq<bool>, want: bool): seq<nat> {
    if |flags| == 0 then []
    else
      var n := |flags| - 1;
      Issue(first, flags[..n], want) + if flags[n] == want then [first + n] else []
  }

  /** The elements whose flag is `want`, in order. */
  function Select<T>(s: seq<T>, flags: seq<bool>, want: bool): (r: seq<T>)
    requires |s| == |flags|
    ensures |r| <= |s|
  {
    if |s| == 0 then []
    else
      var n := |s| - 1;
      Select(s[..n], flags[..n], want) + if flags[n] == want then [s[n]] else []
  }

  ghost predicate Enabled(v: View, e: Event) {
    match e
    case Push(sent) => true
    case Scan(gone) => v.transit == [] && |gone| == |v.outstanding|
    case Publish => true
    case Drain => true
  }

  ghost function Apply(v: View, e: Event): View
    requires Enabled(v, e)
  {
    match e
    case Push(sent) =>
      v.(counter := v.counter + |sent|,
         failed := v.failed + Issue(v.counter, sent, false),
         outstanding := v.outstanding + Issue(v.counter, sent, true))
    case Scan(gone) =>
      v.(outstanding := Select(v.outstanding, gone, false), transit := Select(v.outstanding, gone, true))
    case Publish => v.(cleared := v.cleared + v.transit, transit := [])
    case Drain => v.(drained := v.drained + v.cleared, cleared := [])
  }

  ghost predicate Possible(v: View, events: seq<Event>)
    decreases |events|
  {
    |events| == 0 || (Enabled(v, events[0]) && Possible(Apply(v, events[0]), events[1..]))
  }

  ghost function RunFrom(v: View, events: seq<Event>): View
    requires Possible(v, events)
    decreases |events|
  {
    if |events| == 0 then v else RunFrom(Apply(v, events[0]), events[1..])
  }

  const INITIAL := View(0, [], [], [], [], [])

  function Places(v: View, id: nat): nat {
    Count(v.failed, id) + Count(v.outstanding, id) + Count(v.transit, id) + Count(v.cleared, id) + Count(v.drained, id)
  }

  /** Each issued id is in exactly one place, no other id is anywhere, and the pending list
      keeps the order in which ids were issued. */
  ghost predicate Inv(v: View) {
    && (forall id: nat :: Places(v, id) == if id < v.counter then 1 else 0)
    && Ascending(v.outstanding)
    && forall id :: id in v.outstanding ==> id < v.counter
  }

  lemma CountLast(s: seq<nat>, last: nat, x: nat)
    ensures Count(s + [last], x) == Count(s, x) + if last == x then 1 else 0
  {
    assert (s + [last])[..|s|] == s;
  }

  lemma {:induction false} IssueCount(first: nat, flags: seq<bool>, id: nat)
    ensures Count(Issue(first, flags, true), id) + Count(Issue(first, flags, false), id)
            == if first <= id < first + |flags| then 1 else 0
    decreases |flags|
  {
    if |flags| > 0 {
      var n := |flags| - 1;
      IssueCount(first, flags[..n], id);
      CountLast(Issue(first, flags[..n], flags[n]), first + n, id);
      hide Count;
      assert Issue(first, flags, flags[n]) == Issue(first, flags[..n], flags[n]) + [first + n];
      assert Issue(first, flags, !flags[n]) == Issue(first, flags[..n], !flags[n]);
    }
  }

  lemma AscendingJoin(a: seq<nat>, b: seq<nat>, bound: nat)
    requires Ascending(a) && Ascending(b)
    requires forall x :: x in a ==> x < bound
    requires forall x :: x in b ==> x >= bound
    ensures Ascending(a + b)
  {
    var s := a + b;
    forall i, j | 0 <= i < j < |s|
      ensures s[i] < s[j]
    {
      if i < |a| <= j {
        assert a[i] in a && b[j - |a|] in b;
      }
    }
  }

  lemma {:induction false} IssueRange(first: nat, flags: seq<bool>, want: bool)
    ensures Ascending(Issue(first, flags, want))
    ensures forall id :: id in Issue(first, flags, want) ==> first <= id < first + |flags|
    decreases |flags|
  {
    if |flags| > 0 {
      var n := |flags| - 1;
      IssueRange(first, flags[..n], want);
      AscendingJoin(Issue(first, flags[..n], want), if flags[n] == want then [first + n] else [], first + n);
    }
  }

  lemma {:induction false} SelectCount<T>(s: seq<T>, flags: seq<bool>, x: T)
    requires |s| == |flags|
    ensures Count(Select(s, flags, true), x) + Count(Select(s, flags, false), x) == Count(s, x)
    decreases |s|
  {
    if |s| > 0 {
      var n := |s| - 1;
      SelectCount(s[..n], flags[..n], x);
      CountSum(Select(s[..n], flags[..n], true), [s[n]], x);
      CountSum(Select(s[..n], flags[..n], false), [s[n]], x);
      assert Count([s[n]], x) == if s[n] == x then 1 else 0 by { assert [s[n]][..0] == []; }
      assert Select(s[..n], flags[..n], !flags[n]) + [] == Select(s[..n], flags[..n], !flags[n]);
    }
  }

  lemma {:induction false} SelectKeepsOrder(s: seq<nat>, flags: seq<bool>, want: bool)
    requires |s| == |flags| && Ascending(s)
    ensures Ascending(Select(s, flags, want))
    ensures forall x :: x in Select(s, flags, want) ==> x in s
    decreases |s|
  {
    if |s| > 0 {
      var n := |s| - 1;
      SelectKeepsOrder(s[..n], flags[..n], want);
      assert s == s[..n] + [s[n]];
      AscendingJoin(Select(s[..n], flags[..n], want), if flags[n] == want then [s[n]] else [], s[n]);
    }
  }

  lemma StepPlaces(v: View, e: Event, id: nat)
    requires Enabled(v, e) && Places(v, id) == if id < v.counter then 1 else 0
    ensures var v' := Apply(v, e); Places(v', id) == if id < v'.counter then 1 else 0
  {
    assert Count<nat>([], id) == 0;
    match e {
      case Push(sent) =>
        IssueCount(v.counter, sent, id);
        CountSum(v.failed, Issue(v.counter, sent, false), id);
        CountSum(v.outstanding, Issue(v.counter, sent, true), id);
      case Scan(gone) => SelectCount(v.outstanding, gone, id);
      case Publish => CountSum(v.cleared, v.transit, id);
      case Drain => CountSum(v.drained, v.cleared, id);
    }
    hide Count, Issue, Select;
  }

  lemma StepKeepsInv(v: View, e: Event)
    requires Inv(v) && Enabled(v, e)
    ensures Inv(Apply(v, e))
  {
    forall id: nat
      ensures var v' := Apply(v, e); Places(v', id) == if id < v'.counter then 1 else 0
    {
      StepPlaces(v, e, id);
    }
    match e {
      case Push(sent) =>
        IssueRange(v.counter, sent, true);
        AscendingJoin(v.outstanding, Issue(v.counter, sent, true), v.counter);
      case Scan(gone) => SelectKeepsOrder(v.outstanding, gone, false);
      case _ =>
    }
    hide Places, Issue, Select;
  }

  /** Id conservation: in every interleaving of pushing, clearing and draining each issued id
      is in exactly one of send-failed, outstanding, in transit, cleared or drained, and the
      pending list stays in the order of issue. */
  lemma {:induction false} EveryRunKeepsInv(v: View, events: seq<Event>)
    requires Inv(v) && Possible(v, events)
    ensures Inv(RunFrom(v, events))
    decreases |events|
  {
    if |events| > 0 {
      StepKeepsInv(v, events[0]);
      hide Inv;
      EveryRunKeepsInv(Apply(v, events[0]), events[1..]);
    }
  }

  lemma IdsConserved(events: seq<Event>, id: nat)
    requires Possible(INITIAL, events)
    ensures var v := RunFrom(INITIAL, events);
            Places(v, id) == (if id < v.counter then 1 else 0) && Ascending(v.outstanding)
  {
    StartOk();
    EveryRunKeepsInv(INITIAL, events);
  }

  lemma StartOk()
    ensures Inv(INITIAL)
  {
  }

  // ----- Clearing settled signatures

  /** The unsigned difference of two timestamps, which wraps around below zero. */
  function Age(now: nat, sentAt: nat): int {
    if now >= sentAt then now - sentAt else now - sentAt + 0x1_0000_0000_0000_0000
  }

  /** The entry leaves the list: its status is known, or it was sent more than 30 seconds
      ago. One sent at a later time than now counts as sent 2^64 milliseconds earlier. */
  predicate IsGone(e: Entry, status: Status, now: nat): (gone: bool)
    ensures status.Some? ==> gone
    ensures status.None? && e.sentAt <= now ==> (gone <==> now > e.sentAt + 30_000)
    ensures status.None? && e.sentAt > now ==> (gone <==> now + 0x1_0000_0000_0000_0000 > e.sentAt + 30_000)
  {
    status.Some? || Age(now, e.sentAt) > TIMEOUT_MS
  }

  function Gone(sigs: seq<Entry>, statuses: seq<Status>, now: nat): (gone: seq<bool>)
    requires |sigs| == |statuses|
    ensures |gone| == |sigs|
    ensures forall j :: 0 <= j < |sigs| ==> gone[j] == IsGone(sigs[j], statuses[j], now)
  {
    seq(|sigs|, j requires 0 <= j < |sigs| => IsGone(sigs[j], statuses[j], now))
  }

  /** Which entries leave because they had no status for too long. */
  function Expired(sigs: seq<Entry>, statuses: seq<Status>, now: nat): (expired: seq<bool>)
    requires |sigs| == |statuses|
    ensures |expired| == |sigs|
    ensures forall j :: 0 <= j < |sigs| ==>
              expired[j] == (IsGone(sigs[j], statuses[j], now) && statuses[j].None?)
  {
    seq(|sigs|, j requires 0 <= j < |sigs| => IsGone(sigs[j], statuses[j], now) && statuses[j].None?)
  }

  function Ids(sigs: seq<Entry>): (ids: seq<nat>)
    ensures |ids| == |sigs| && forall j :: 0 <= j < |sigs| ==> ids[j] == sigs[j].id
  {
    seq(|sigs|, j requires 0 <= j < |sigs| => sigs[j].id)
  }

  lemma {:induction false} SelectIds(sigs: seq<Entry>, flags: seq<bool>, want: bool)
    requires |sigs| == |flags|
    ensures Ids(Select(sigs, flags, want)) == Select(Ids(sigs), flags, want)
    decreases |sigs|
  {
    if |sigs| > 0 {
      var n := |sigs| - 1;
      SelectIds(sigs[..n], flags[..n], want);
      assert Ids(sigs)[..n] == Ids(sigs[..n]);
    }
  }

  function Entries(first: nat, results: seq<SendResult>): (r: seq<Entry>) {
    if |results| == 0 then []
    else
      var n := |results| - 1;
      Entries(first, results[..n])
      + match results[n] { case Sent(signature, at) => [Entry(signature, at, first + n)] case Failed => [] }
  }

  function WasSent(results: seq<SendResult>): (sent: seq<bool>)
    ensures |sent| == |results| && forall i :: 0 <= i < |sent| ==> sent[i] == results[i].Sent?
  {
    seq(|results|, i requires 0 <= i < |results| => results[i].Sent?)
  }

  /** The entry of a transaction whose send was accepted: its own signature, when it was
      sent, and its id. */
  ghost predicate IsEntry(e: Entry, first: nat, results: seq<SendResult>, i: nat) {
    && i < |results| && results[i].Sent?
    && e.signature == results[i].signature && e.sentAt == results[i].at && e.id == first + i
  }

  lemma {:induction false} EntriesHold(first: nat, results: seq<SendResult>)
    ensures forall e :: e in Entries(first, results) ==> exists i :: IsEntry(e, first, results, i)
    ensures forall i :: 0 <= i < |results| && results[i].Sent? ==>
              exists e :: e in Entries(first, results) && IsEntry(e, first, results, i)
    decreases |results|
  {
    if |results| > 0 {
      var n := |results| - 1;
      var before, all := Entries(first, results[..n]), Entries(first, results);
      EntriesHold(first, results[..n]);
      forall e | e in all
        ensures exists i :: IsEntry(e, first, results, i)
      {
        if e in before {
          var i :| IsEntry(e, first, results[..n], i);
          assert IsEntry(e, first, results, i);
        } else {
          assert IsEntry(e, first, results, n);
        }
      }
      forall i | 0 <= i < |results| && results[i].Sent?
        ensures exists e :: e in all && IsEntry(e, first, results, i)
      {
        if i < n {
          var e :| e in before && IsEntry(e, first, results[..n], i);
          assert e in all && IsEntry(e, first, results, i);
        } else {
          var e := Entry(results[n].signature, results[n].at, first + n);
          assert all[|before|] == e && IsEntry(e, first, results, n);
        }
      }
    }
  }

  lemma {:induction false} EntryIds(first: nat, results: seq<SendResult>)
    ensures Ids(Entries(first, results)) == Issue(first, WasSent(results), true)
    decreases |results|
  {
    if |results| > 0 {
      var n := |results| - 1;
      EntryIds(first, results[..n]);
      assert WasSent(results)[..n] == WasSent(results[..n]);
    }
  }

  /** The statuses of all pending signatures, asked for 200 at a time; `answer(k, sig)` is
      what request k says about sig. Each status stands at its own signature's index. */
  method FetchStatuses(sigs: seq<Entry>, answer: (nat, Signature) -> Status) returns (statuses: seq<Status>)
    ensures |statuses| == |sigs|
    ensures forall j :: 0 <= j < |sigs| ==> statuses[j] == answer(j / 200, sigs[j].signature)
  {
    statuses := [];
    var chunks := Chunks(sigs, STATUS_CHUNK);
    assert |chunks| == 0 ==> |sigs| == 0;
    for k := 0 to |chunks|
      invariant |statuses| == if k < |chunks| then STATUS_CHUNK * k else |sigs|
      invariant |statuses| <= |sigs|
      invariant forall j :: 0 <= j < |statuses| ==> statuses[j] == answer(j / STATUS_CHUNK, sigs[j].signature)
    {
      ChunkAt(sigs, k);
      hide Chunks;
      var chunk := chunks[k];
      if k + 1 < |chunks| {
        ChunkAt(sigs, k + 1);
      }
      statuses := statuses + seq(|chunk|, m requires 0 <= m < |chunk| => answer(k, chunk[m].signature));
    }
  }

  /** Chunk k of the list is its stretch from 200 * k on. */
  lemma {:induction false} ChunkAt(sigs: seq<Entry>, k: nat)
    requires k < |Chunks(sigs, STATUS_CHUNK)|
    ensures var chunk := Chunks(sigs, STATUS_CHUNK)[k];
            && STATUS_CHUNK * k + |chunk| <= |sigs|
            && chunk == sigs[STATUS_CHUNK * k..STATUS_CHUNK * k + |chunk|]
            && |chunk| == if k < |Chunks(sigs, STATUS_CHUNK)| - 1 then STATUS_CHUNK else |sigs| - STATUS_CHUNK * k
    decreases k
  {
    if |sigs| > STATUS_CHUNK {
      var rest := sigs[STATUS_CHUNK..];
      assert Chunks(sigs, STATUS_CHUNK) == [sigs[..STATUS_CHUNK]] + Chunks(rest, STATUS_CHUNK);
      assert |Chunks(rest, STATUS_CHUNK)| > 0;
      if k > 0 {
        ChunkAt(rest, k - 1);
      }
    }
  }

  lemma Decision(pending: seq<Entry>, statuses: seq<Status>, now: nat, j: nat)
    requires |pending| == |statuses| && j < |pending|
    ensures Gone(pending, statuses, now)[j] == (statuses[j].Some? || Age(now, pending[j].sentAt) > TIMEOUT_MS)
    ensures Expired(pending, statuses, now)[j] == (statuses[j].None? && Age(now, pending[j].sentAt) > TIMEOUT_MS)
  {
  }

  /** Removal while scanning: index i walks the shrinking list, index j the statuses. The
      loop stays in bounds, pairs every entry with its own status, and splits the list into
      the retained entries and the cleared ids, both in their original order. */
  method ClearSettled(pending: seq<Entry>, statuses: seq<Status>, now: nat)
    returns (sigs: seq<Entry>, newIds: seq<nat>, success: nat, errors: nat, timedOut: nat)
    requires |statuses| == |pending|
    ensures sigs == Select(pending, Gone(pending, statuses, now), false)
    ensures newIds == Ids(Select(pending, Gone(pending, statuses, now), true))
    ensures success == Count(statuses, Some(true)) && errors == Count(statuses, Some(false))
    ensures timedOut == Count(Expired(pending, statuses, now), true)
    ensures success + errors + timedOut == |newIds|
    ensures |newIds| + |sigs| == |pending|
  {
    sigs, newIds, success, errors, timedOut := pending, [], 0, 0, 0;
    ghost var gone, expired := Gone(pending, statuses, now), Expired(pending, statuses, now);
    var i, j := 0, 0;
    assert Scanned(pending, gone, sigs, newIds, i, j);
    while i != |sigs|
      invariant Scanned(pending, gone, sigs, newIds, i, j)
      invariant success + errors + timedOut == |newIds|
      invariant success == Count(statuses[..j], Some(true)) && errors == Count(statuses[..j], Some(false))
      invariant timedOut == Count(expired[..j], true)
      decreases |sigs| - i
    {
      ScanStep(pending, gone, sigs, newIds, i, j);
      CountNext(statuses, j, Some(true));
      CountNext(statuses, j, Some(false));
      CountNext(expired, j, true);
      Decision(pending, statuses, now, j);
      hide Scanned, Select, Count, IsGone, Gone, Expired, Age, Ids;
      var retain := true;
      if statuses[j].Some? {
        if statuses[j].value {
          success := success + 1;
        } else {
          errors := errors + 1;
        }
        retain := false;
      } else if Age(now, sigs[i].sentAt) > TIMEOUT_MS {
        retain := false;
        timedOut := timedOut + 1;
      }
      if !retain {
        newIds := newIds + [sigs[i].id];
        sigs := sigs[..i] + sigs[i + 1..];
      } else {
        i := i + 1;
      }
      j := j + 1;
    }
    assert pending[..j] == pending && gone[..j] == gone && sigs[..i] == sigs;
    assert statuses[..j] == statuses && expired[..j] == expired;
  }

  /** The first j entries have been split; the rest stands untouched from index i on. */
  ghost predicate Scanned(pending: seq<Entry>, gone: seq<bool>, sigs: seq<Entry>, newIds: seq<nat>, i: nat, j: nat)
    requires |pending| == |gone|
  {
    && i <= |sigs| && j <= |pending|
    && |sigs| - i == |pending| - j && i + |newIds| == j
    && sigs[..i] == Select(pending[..j], gone[..j], false)
    && sigs[i..] == pending[j..]
    && newIds == Ids(Select(pending[..j], gone[..j], true))
  }

  lemma ScanStep(pending: seq<Entry>, gone: seq<bool>, sigs: seq<Entry>, newIds: seq<nat>, i: nat, j: nat)
    requires |pending| == |gone| && Scanned(pending, gone, sigs, newIds, i, j) && i != |sigs|
    ensures i < |sigs| && j < |pending| && sigs[i] == pending[j]
    ensures gone[j] ==> Scanned(pending, gone, sigs[..i] + sigs[i + 1..], newIds + [sigs[i].id], i, j + 1)
    ensures !gone[j] ==> Scanned(pending, gone, sigs, newIds, i + 1, j + 1)
  {
    assert sigs[i] == sigs[i..][0] == pending[j..][0];
    SelectNext(pending, gone, j);
    assert sigs[i + 1..] == sigs[i..][1..] == pending[j..][1..] == pending[j + 1..];
    hide Select;
    if gone[j] {
      var shorter := sigs[..i] + sigs[i + 1..];
      assert shorter[..i] == sigs[..i] && shorter[i..] == sigs[i + 1..];
    } else {
      assert sigs[..i + 1] == sigs[..i] + [sigs[i]];
    }
  }

  lemma SelectNext(pending: seq<Entry>, gone: seq<bool>, j: nat)
    requires |pending| == |gone| && j < |pending|
    ensures Select(pending[..j + 1], gone[..j + 1], gone[j]) == Select(pending[..j], gone[..j], gone[j]) + [pending[j]]
    ensures Select(pending[..j + 1], gone[..j + 1], !gone[j]) == Select(pending[..j], gone[..j], !gone[j])
  {
    assert pending[..j + 1][..j] == pending[..j] && gone[..j + 1][..j] == gone[..j];
  }

  // ----- The executor

  /** Draws one id per transaction, and lists those whose send was accepted. */
  method SendAll(counter: nat, results: seq<SendResult>) returns (ids: seq<nat>, newSigs: seq<Entry>)
    ensures |ids| == |results| && forall i :: 0 <= i < |ids| ==> ids[i] == counter + i
    ensures newSigs == Entries(counter, results)
  {
    ids, newSigs := [], [];
    for i := 0 to |results|
      invariant |ids| == i && forall k :: 0 <= k < i ==> ids[k] == counter + k
      invariant newSigs == Entries(counter, results[..i])
    {
      assert results[..i + 1][..i] == results[..i];
      var id := counter + i;
      ids := ids + [id];
      match results[i] {
        case Sent(signature, at) => newSigs := newSigs + [Entry(signature, at, id)];
        case Failed =>
      }
    }
    assert results[..|results|] == results;
  }

  class TransactionExecutor {
    var sigs: seq<Entry>
    var cleared: seq<nat>
    var counter: nat
    // What the fields alone do not show: failed sends, ids the clearing thread still holds
    // and ids handed out by drain_cleared.
    ghost var failed: seq<nat>
    ghost var transit: seq<nat>
    ghost var drained: seq<nat>

    ghost function Now(): View
      reads this
    {
      View(counter, failed, Ids(sigs), transit, cleared, drained)
    }

    ghost predicate Valid()
      reads this
    {
      Inv(Now())
    }

    constructor ()
      ensures Valid() && Now() == INITIAL
    {
      sigs, cleared, counter := [], [], 0;
      failed, transit, drained := [], [], [];
      new;
      StartOk();
      assert Now() == INITIAL;
    }

    /** `push_transactions`: the ids are drawn and the transactions sent while the list is
        locked, so the call is one step. One id per transaction comes back, sent or not. */
    method PushTransactions(results: seq<SendResult>) returns (ids: seq<nat>)
      requires Valid()
      modifies this
      ensures Valid() && Now() == Apply(old(Now()), Push(WasSent(results)))
      ensures |ids| == |results| && forall i :: 0 <= i < |ids| ==> ids[i] == old(counter) + i
      ensures sigs == old(sigs) + Entries(old(counter), results)
      ensures forall e :: e in sigs[|old(sigs)|..] ==> exists i :: IsEntry(e, old(counter), results, i)
      ensures forall i :: 0 <= i < |results| && results[i].Sent? ==>
                exists e :: e in sigs[|old(sigs)|..] && IsEntry(e, old(counter), results, i)
    {
      ghost var before := Now();
      ghost var sent := WasSent(results);
      StepKeepsInv(before, Push(sent));
      EntryIds(counter, results);
      EntriesHold(counter, results);
      hide Inv, Issue, IsEntry;
      var newSigs;
      ids, newSigs := SendAll(counter, results);
      assert Ids(sigs + newSigs) == Ids(sigs) + Ids(newSigs);
      counter := counter + |results|;
      sigs := sigs + newSigs;
      failed := failed + Issue(before.counter, sent, false);
      assert Now() == Apply(before, Push(sent));
      assert sigs[|old(sigs)|..] == newSigs;
    }

    method DrainCleared() returns (ids: seq<nat>)
      requires Valid()
      modifies this
      ensures Valid() && Now() == Apply(old(Now()), Drain) && ids == old(cleared)
    {
      StepKeepsInv(Now(), Drain);
      ids := cleared;
      drained := drained + cleared;
      cleared := [];
    }

    /** One pass of the clearing thread under the list's lock. */
    method ScanSignatures(answer: (nat, Signature) -> Status, now: nat) returns (newIds: seq<nat>)
      requires Valid() && transit == []
      modifies this
      ensures Valid() && transit == newIds
      ensures exists gone :: && |gone| == |old(sigs)| && Now() == Apply(old(Now()), Scan(gone))
                             && forall j :: 0 <= j < |gone| ==>
                                  gone[j] == IsGone(old(sigs)[j], answer(j / 200, old(sigs)[j].signature), now)
    {
      ghost var before := Now();
      var statuses := FetchStatuses(sigs, answer);
      ghost var gone := Gone(sigs, statuses, now);
      SelectIds(sigs, gone, false);
      SelectIds(sigs, gone, true);
      StepKeepsInv(before, Scan(gone));
      var success, errors, timedOut;
      sigs, newIds, success, errors, timedOut := ClearSettled(sigs, statuses, now);
      transit := newIds;
      assert Now() == Apply(before, Scan(gone));
    }

    /** The clearing thread hands over what it removed. */
    method PublishCleared(newIds: seq<nat>)
      requires Valid() && newIds == transit
      modifies this
      ensures Valid() && Now() == Apply(old(Now()), Publish) && cleared == old(cleared) + newIds
    {
      StepKeepsInv(Now(), Publish);
      cleared := cleared + newIds;
      transit := [];
    }
  }
}

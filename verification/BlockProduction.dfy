/** Block-production accounting of the CLI: the slot window, the leader of each slot, the
    merge of slots with confirmed blocks, and the totals per leader. */
module BlockProduction {
  import opened Options
  import opened Slices

  /** How a leader is shown: its labelled address, or "?" where none is known. */
  datatype Label = Unknown | Named(text: string)

  datatype SlotStatus = SlotStatus(slot: nat, leader: Label, skipped: bool)
  datatype Entry = Entry(leaderSlots: nat, blocksProduced: nat, skippedSlots: nat)
  /** A leader's label and the slot indices it leads, as the RPC service lists them. */
  datatype Turn = Turn(leader: Label, slots: seq<nat>)

  // ----- The window

  function Min(a: nat, b: nat): (m: nat)
    ensures m <= a && m <= b && (m == a || m == b)
  {
    if a <= b then a else b
  }

  function Max(a: nat, b: nat): (m: nat)
    ensures m >= a && m >= b && (m == a || m == b)
  {
    if a >= b then a else b
  }

  /** First slot shown, before the ledger is consulted: as early as the epoch and the limit
      allow. */
  function StartSlot(first: nat, end: nat, slotLimit: Option<nat>): (start: nat)
    ensures first <= start && (first <= end ==> start <= end)
    ensures slotLimit.None? ==> start == first
    ensures slotLimit.Some? && first <= end ==> end - start <= slotLimit.value
    ensures slotLimit.Some? ==> start == first || end - start == slotLimit.value
  {
    match slotLimit
    case Some(limit) => Max(if end >= limit then end - limit else 0, first)
    case None => first
  }

  ghost predicate Within(s: seq<nat>, start: nat, end: nat) {
    forall x :: x in s ==> start <= x <= end
  }

  /** The slots of a window that the slot history has seen, as the sysvar path collects them. */
  method CollectFound(start: nat, end: nat, found: nat -> bool) returns (blocks: seq<nat>)
    requires start <= end + 1
    ensures Ascending(blocks) && Within(blocks, start, end)
    ensures forall slot :: slot in blocks <==> start <= slot <= end && found(slot)
  {
    blocks := [];
    for slot := start to end + 1
      invariant Ascending(blocks)
      invariant forall x :: x in blocks <==> start <= x < slot && found(x)
    {
      if found(slot) {
        assert forall k :: 0 <= k < |blocks| ==> blocks[k] in blocks;
        blocks := blocks + [slot];
      }
    }
  }

  // ----- Who leads which slot

  /** The leader listed last for a slot index, or Unknown when nobody is. */
  function Owner(schedule: seq<Turn>, index: nat): Label {
    if |schedule| == 0 then Unknown
    else
      var last := schedule[|schedule| - 1];
      if index in last.slots then last.leader else Owner(schedule[..|schedule| - 1], index)
  }

  /** No slot index is listed under two entries. */
  ghost predicate Disjoint(schedule: seq<Turn>) {
    forall i, j, x :: 0 <= i < j < |schedule| && x in schedule[i].slots ==> x !in schedule[j].slots
  }

  /** Over a disjoint schedule the owner is the one leader listed, in whatever order the
      schedule is walked. */
  lemma {:induction false} OwnerIsTheLeader(schedule: seq<Turn>, k: nat, index: nat)
    requires Disjoint(schedule) && k < |schedule| && index in schedule[k].slots
    ensures Owner(schedule, index) == schedule[k].leader
    decreases |schedule|
  {
    if k < |schedule| - 1 {
      OwnerIsTheLeader(schedule[..|schedule| - 1], k, index);
    }
  }

  lemma {:induction false} OwnerUnknown(schedule: seq<Turn>, index: nat)
    requires forall k :: 0 <= k < |schedule| ==> index !in schedule[k].slots
    ensures Owner(schedule, index) == Unknown
    decreases |schedule|
  {
    if |schedule| > 0 {
      OwnerUnknown(schedule[..|schedule| - 1], index);
    }
  }

  /** The leaders of consecutive slot indices. */
  ghost predicate LedBy(leaders: seq<Label>, schedule: seq<Turn>, startIndex: nat) {
    forall i :: 0 <= i < |leaders| ==> leaders[i] == Owner(schedule, startIndex + i)
  }

  /** Fills in the leaders of the window; every index outside it is passed over. */
  method LeaderPerSlot(schedule: seq<Turn>, startIndex: nat, endIndex: nat) returns (leaders: seq<Label>)
    requires startIndex <= endIndex
    ensures |leaders| == endIndex - startIndex + 1 && LedBy(leaders, schedule, startIndex)
  {
    leaders := seq(endIndex - startIndex + 1, _ => Unknown);
    for k := 0 to |schedule|
      invariant |leaders| == endIndex - startIndex + 1
      invariant forall i :: 0 <= i < |leaders| ==> leaders[i] == Owner(schedule[..k], startIndex + i)
    {
      var turn := schedule[k];
      assert schedule[..k + 1][..k] == schedule[..k];
      for m := 0 to |turn.slots|
        invariant |leaders| == endIndex - startIndex + 1
        invariant forall i :: 0 <= i < |leaders| ==>
                    leaders[i] == if startIndex + i in turn.slots[..m] then turn.leader else Owner(schedule[..k], startIndex + i)
      {
        var index := turn.slots[m];
        assert turn.slots[..m + 1] == turn.slots[..m] + [index];
        if startIndex <= index <= endIndex {
          leaders := leaders[index - startIndex := turn.leader];
        }
      }
      assert turn.slots[..|turn.slots|] == turn.slots;
    }
    assert schedule[..|schedule|] == schedule;
  }

  /** `process_leader_schedule`: the schedule turned round, as long as its highest index. */
  method InvertSchedule(schedule: seq<Turn>) returns (leaders: seq<Label>)
    ensures forall i :: 0 <= i < |leaders| ==> leaders[i] == Owner(schedule, i)
    ensures forall k, x :: 0 <= k < |schedule| && x in schedule[k].slots ==> x < |leaders|
    ensures |leaders| > 0 ==> exists k :: 0 <= k < |schedule| && |leaders| - 1 in schedule[k].slots
  {
    leaders := [];
    for k := 0 to |schedule|
      invariant forall i :: 0 <= i < |leaders| ==> leaders[i] == Owner(schedule[..k], i)
      invariant forall l, x :: 0 <= l < k && x in schedule[l].slots ==> x < |leaders|
      invariant |leaders| > 0 ==> exists l :: 0 <= l < |schedule| && |leaders| - 1 in schedule[l].slots
    {
      var turn := schedule[k];
      assert schedule[..k + 1][..k] == schedule[..k];
      for m := 0 to |turn.slots|
        invariant forall i :: 0 <= i < |leaders| ==>
                    leaders[i] == if i in turn.slots[..m] then turn.leader else Owner(schedule[..k], i)
        invariant forall l, x :: 0 <= l < k && x in schedule[l].slots ==> x < |leaders|
        invariant forall x :: x in turn.slots[..m] ==> x < |leaders|
        invariant |leaders| > 0 ==> exists l :: 0 <= l < |schedule| && |leaders| - 1 in schedule[l].slots
      {
        var index := turn.slots[m];
        assert turn.slots[..m + 1] == turn.slots[..m] + [index];
        assert index in schedule[k].slots;
        if index >= |leaders| {
          forall i | |leaders| <= i <= index
            ensures Owner(schedule[..k], i) == Unknown
          {
            OwnerUnknown(schedule[..k], i);
          }
          leaders := leaders + seq(index + 1 - |leaders|, _ => Unknown);
        }
        leaders := leaders[index := turn.leader];
      }
      assert turn.slots[..|turn.slots|] == turn.slots;
    }
    assert schedule[..|schedule|] == schedule;
  }

  // ----- Sums over a table

  ghost function Sum(keys: set<Label>, m: map<Label, nat>): nat
    requires keys <= m.Keys
  {
    if keys == {} then 0
    else
      var k :| k in keys;
      m[k] + Sum(keys - {k}, m)
  }

  lemma {:induction false} SumTakeOut(keys: set<Label>, m: map<Label, nat>, k: Label)
    requires keys <= m.Keys && k in keys
    ensures Sum(keys, m) == m[k] + Sum(keys - {k}, m)
    decreases |keys|
  {
    var first :| first in keys && Sum(keys, m) == m[first] + Sum(keys - {first}, m);
    if first != k {
      SumTakeOut(keys - {first}, m, k);
      SumTakeOut(keys - {k}, m, first);
      assert keys - {first} - {k} == keys - {k} - {first};
    }
  }

  lemma {:induction false} SumSame(keys: set<Label>, m: map<Label, nat>, m': map<Label, nat>)
    requires keys <= m.Keys && keys <= m'.Keys && forall k :: k in keys ==> m[k] == m'[k]
    ensures Sum(keys, m) == Sum(keys, m')
    decreases |keys|
  {
    if keys != {} {
      var k :| k in keys;
      SumTakeOut(keys, m, k);
      SumTakeOut(keys, m', k);
      SumSame(keys - {k}, m, m');
    }
  }

  function At(m: map<Label, nat>, k: Label): nat {
    if k in m then m[k] else 0
  }

  /** `entry(k).or_insert(0)` followed by adding n. */
  function Add(m: map<Label, nat>, k: Label, n: nat): map<Label, nat> {
    m[k := At(m, k) + n]
  }

  lemma SumAdd(m: map<Label, nat>, k: Label, n: nat)
    ensures Sum(Add(m, k, n).Keys, Add(m, k, n)) == Sum(m.Keys, m) + n
  {
    var m' := Add(m, k, n);
    SumTakeOut(m'.Keys, m', k);
    assert m'.Keys - {k} == m.Keys - {k};
    SumSame(m.Keys - {k}, m, m');
    if k in m {
      SumTakeOut(m.Keys, m, k);
    } else {
      assert m.Keys - {k} == m.Keys;
    }
  }

  // ----- The merge

  function LeadersOf(statuses: seq<SlotStatus>): (r: seq<Label>)
    ensures |r| == |statuses| && forall i :: 0 <= i < |r| ==> r[i] == statuses[i].leader
  {
    seq(|statuses|, i requires 0 <= i < |statuses| => statuses[i].leader)
  }

  /** How many of a leader's slots were skipped. */
  function Skips(statuses: seq<SlotStatus>, leader: Label): (n: nat)
    ensures n <= |statuses|
  {
    if |statuses| == 0 then 0
    else
      var last := statuses[|statuses| - 1];
      Skips(statuses[..|statuses| - 1], leader) + if last.leader == leader && last.skipped then 1 else 0
  }

  /** One status per slot from `start` on, in order, skipped exactly when no block is there. */
  ghost predicate Reports(statuses: seq<SlotStatus>, start: nat, leaders: seq<Label>, confirmed: seq<nat>) {
    && |statuses| <= |leaders|
    && forall i :: 0 <= i < |statuses| ==>
         statuses[i] == SlotStatus(start + i, leaders[i], start + i !in confirmed)
  }

  /** The tables hold, for every leader, its slots and its skipped slots so far. */
  ghost predicate Tables(statuses: seq<SlotStatus>, slots: map<Label, nat>, skips: map<Label, nat>) {
    && slots.Keys == skips.Keys
    && (forall l :: l in slots <==> l in LeadersOf(statuses))
    && (forall l :: At(slots, l) == Count(LeadersOf(statuses), l))
    && (forall l :: At(skips, l) == Skips(statuses, l))
  }

  lemma TableAt(statuses: seq<SlotStatus>, status: SlotStatus, l: Label)
    ensures Count(LeadersOf(statuses + [status]), l) == Count(LeadersOf(statuses), l) + (if status.leader == l then 1 else 0)
    ensures Skips(statuses + [status], l) == Skips(statuses, l) + (if status.leader == l && status.skipped then 1 else 0)
    ensures l in LeadersOf(statuses + [status]) <==> l in LeadersOf(statuses) || l == status.leader
  {
    var more := statuses + [status];
    assert LeadersOf(more) == LeadersOf(statuses) + [status.leader];
    assert more[..|statuses|] == statuses && LeadersOf(more)[..|statuses|] == LeadersOf(statuses);
  }

  lemma TablesNext(statuses: seq<SlotStatus>, status: SlotStatus, slots: map<Label, nat>, skips: map<Label, nat>)
    requires Tables(statuses, slots, skips)
    ensures Tables(statuses + [status], Add(slots, status.leader, 1),
                   Add(skips, status.leader, if status.skipped then 1 else 0))
  {
    var slots', skips' := Add(slots, status.leader, 1), Add(skips, status.leader, if status.skipped then 1 else 0);
    forall l
      ensures l in slots' <==> l in LeadersOf(statuses + [status])
      ensures At(slots', l) == Count(LeadersOf(statuses + [status]), l)
      ensures At(skips', l) == Skips(statuses + [status], l)
    {
      assert At(slots, l) == Count(LeadersOf(statuses), l) && At(skips, l) == Skips(statuses, l);
      TableAt(statuses, status, l);
      hide Count, Skips, LeadersOf;
    }
  }

  /** The pointer has passed exactly the blocks before `slot`. */
  ghost predicate PointerAt(confirmed: seq<nat>, index: nat, slot: nat) {
    && index <= |confirmed|
    && (forall k :: 0 <= k < index ==> confirmed[k] < slot)
  }

  method AdvancePointer(confirmed: seq<nat>, from: nat, slot: nat) returns (index: nat, present: bool)
    requires Ascending(confirmed) && PointerAt(confirmed, from, slot)
    ensures PointerAt(confirmed, index, slot) && from <= index
    ensures index < |confirmed| ==> confirmed[index] >= slot
    ensures present <==> slot in confirmed
    ensures present <==> index < |confirmed| && confirmed[index] == slot
  {
    index := from;
    while index < |confirmed|
      invariant from <= index && PointerAt(confirmed, index, slot)
      decreases |confirmed| - index
    {
      var next := confirmed[index];
      if next < slot {
        index := index + 1;
        continue;
      }
      if next == slot {
        return index, true;
      }
      assert forall k :: index <= k < |confirmed| ==> confirmed[k] > slot;
      return index, false;
    }
    return index, false;
  }

  /** How many blocks have been met: those behind the pointer, and the one under it when
      the slot just handled is its slot. */
  ghost function Met(confirmed: seq<nat>, index: nat, slot: nat): nat
    requires index <= |confirmed|
  {
    index + if index < |confirmed| && confirmed[index] < slot then 1 else 0
  }

  /** The two-pointer merge of `process_show_block_production`. It agrees with membership
      slot by slot, and its tables account for every slot and every block. */
  method MergeSlots(start: nat, leaders: seq<Label>, confirmed: seq<nat>)
    returns (statuses: seq<SlotStatus>, slots: map<Label, nat>, skips: map<Label, nat>)
    requires Ascending(confirmed) && |leaders| > 0 && Within(confirmed, start, start + |leaders| - 1)
    ensures |statuses| == |leaders| && Reports(statuses, start, leaders, confirmed)
    ensures Tables(statuses, slots, skips)
    ensures Sum(slots.Keys, slots) == |leaders|
    ensures Sum(skips.Keys, skips) + |confirmed| == |leaders|
  {
    statuses, slots, skips := [], map[], map[];
    var index := 0;
    NothingBefore(start, leaders, confirmed);
    hide Merged;
    for i := 0 to |leaders|
      invariant Merged(i, start, leaders, confirmed, index, statuses, slots, skips)
    {
      hide Ascending;
      index, statuses, slots, skips := HandleSlot(i, start, leaders, confirmed, index, statuses, slots, skips);
    }
    AllMet(confirmed, index, start, leaders, statuses, slots, skips);
  }

  /** What the merge has established before slot number i. */
  ghost predicate Merged(i: nat, start: nat, leaders: seq<Label>, confirmed: seq<nat>, index: nat,
                         statuses: seq<SlotStatus>, slots: map<Label, nat>, skips: map<Label, nat>)
  {
    && |statuses| == i && Reports(statuses, start, leaders, confirmed)
    && Tables(statuses, slots, skips)
    && Counted(confirmed, index, start + i, i, slots, skips)
  }

  /** One iteration of the merge. */
  method HandleSlot(i: nat, start: nat, leaders: seq<Label>, confirmed: seq<nat>, from: nat,
                    statuses: seq<SlotStatus>, slots: map<Label, nat>, skips: map<Label, nat>)
    returns (index: nat, statuses': seq<SlotStatus>, slots': map<Label, nat>, skips': map<Label, nat>)
    requires Ascending(confirmed) && i < |leaders|
    requires Merged(i, start, leaders, confirmed, from, statuses, slots, skips)
    ensures Merged(i + 1, start, leaders, confirmed, index, statuses', slots', skips')
  {
    hide Counted, Tables, Reports, Sum, PointerAt, Ascending, Add;
    var slot := start + i;
    var leader := leaders[i];
    CountedPointer(confirmed, from, slot, i, slots, skips);
    var present;
    index, present := AdvancePointer(confirmed, from, slot);
    CountedNext(confirmed, from, index, slot, i, leader, slots, skips);
    var status := SlotStatus(slot, leader, !present);
    TablesNext(statuses, status, slots, skips);
    ReportsNext(statuses, start, leaders, confirmed, status);
    slots' := Add(slots, leader, 1);
    skips' := Add(skips, leader, if present then 0 else 1);
    statuses' := statuses + [status];
  }

  /** Before slot `slot`, the i-th: the sums over the tables and the pointer agree. */
  ghost predicate Counted(confirmed: seq<nat>, index: nat, slot: nat, i: nat, slots: map<Label, nat>, skips: map<Label, nat>) {
    && PointerAt(confirmed, index, slot)
    && (forall k :: index < k < |confirmed| ==> confirmed[k] >= slot)
    && Sum(slots.Keys, slots) == i
    && Sum(skips.Keys, skips) + Met(confirmed, index, slot) == i
  }

  lemma CountedPointer(confirmed: seq<nat>, index: nat, slot: nat, i: nat, slots: map<Label, nat>, skips: map<Label, nat>)
    requires Counted(confirmed, index, slot, i, slots, skips)
    ensures PointerAt(confirmed, index, slot)
  {
  }

  lemma CountedNext(confirmed: seq<nat>, from: nat, index: nat, slot: nat, i: nat, leader: Label,
                    slots: map<Label, nat>, skips: map<Label, nat>)
    requires Counted(confirmed, from, slot, i, slots, skips) && Ascending(confirmed)
    requires from <= index && PointerAt(confirmed, index, slot)
    requires index < |confirmed| ==> confirmed[index] >= slot
    ensures var present := index < |confirmed| && confirmed[index] == slot;
            Counted(confirmed, index, slot + 1, i + 1, Add(slots, leader, 1), Add(skips, leader, if present then 0 else 1))
  {
    MetAdvances(confirmed, from, index, slot);
    SumAdd(slots, leader, 1);
    SumAdd(skips, leader, if index < |confirmed| && confirmed[index] == slot then 0 else 1);
    hide Sum, Add, Met;
  }

  lemma ReportsNext(statuses: seq<SlotStatus>, start: nat, leaders: seq<Label>, confirmed: seq<nat>, status: SlotStatus)
    requires Reports(statuses, start, leaders, confirmed) && |statuses| < |leaders|
    requires status == SlotStatus(start + |statuses|, leaders[|statuses|], start + |statuses| !in confirmed)
    ensures Reports(statuses + [status], start, leaders, confirmed)
  {
  }

  lemma NothingBefore(start: nat, leaders: seq<Label>, confirmed: seq<nat>)
    requires |leaders| > 0 && Within(confirmed, start, start + |leaders| - 1)
    ensures Merged(0, start, leaders, confirmed, 0, [], map[], map[])
  {
    assert forall k :: 0 <= k < |confirmed| ==> confirmed[k] in confirmed;
  }

  lemma Look(s: seq<nat>, k: nat, slot: nat)
    ensures k < |s| ==> s[k] in s && (s[k] < slot || s[k] >= slot)
  {
  }

  lemma MetAdvances(confirmed: seq<nat>, from: nat, index: nat, slot: nat)
    requires Ascending(confirmed) && from <= index <= |confirmed|
    requires PointerAt(confirmed, from, slot) && PointerAt(confirmed, index, slot)
    requires forall k :: from < k < |confirmed| ==> confirmed[k] >= slot
    requires index < |confirmed| ==> confirmed[index] >= slot
    ensures Met(confirmed, index, slot + 1)
            == Met(confirmed, from, slot) + if index < |confirmed| && confirmed[index] == slot then 1 else 0
    ensures forall k :: index < k < |confirmed| ==> confirmed[k] >= slot + 1
  {
    Look(confirmed, from + 1, slot);
  }

  lemma AllMet(confirmed: seq<nat>, index: nat, start: nat, leaders: seq<Label>,
               statuses: seq<SlotStatus>, slots: map<Label, nat>, skips: map<Label, nat>)
    requires |leaders| > 0 && Within(confirmed, start, start + |leaders| - 1)
    requires Merged(|leaders|, start, leaders, confirmed, index, statuses, slots, skips)
    ensures |statuses| == |leaders| && Reports(statuses, start, leaders, confirmed) && Tables(statuses, slots, skips)
    ensures Sum(slots.Keys, slots) == |leaders| && Sum(skips.Keys, skips) + |confirmed| == |leaders|
  {
    Look(confirmed, index, start + |leaders|);
    Look(confirmed, index + 1, start + |leaders|);
    hide Tables, Reports, Sum;
  }

  // ----- Per leader

  lemma {:induction false} SkipsAtMostSlots(statuses: seq<SlotStatus>, leader: Label)
    ensures Skips(statuses, leader) <= Count(LeadersOf(statuses), leader)
    decreases |statuses|
  {
    if |statuses| > 0 {
      var n := |statuses| - 1;
      SkipsAtMostSlots(statuses[..n], leader);
      assert LeadersOf(statuses)[..n] == LeadersOf(statuses[..n]);
    }
  }

  /** Each entry shows its leader's slots, its skipped slots, and the rest as blocks. */
  /** The positions of a leader's skipped slots. */
  ghost function SkippedBy(statuses: seq<SlotStatus>, leader: Label): set<nat> {
    set i | 0 <= i < |statuses| && statuses[i].leader == leader && statuses[i].skipped
  }

  lemma {:induction false} SkipsAreSkipped(statuses: seq<SlotStatus>, leader: Label)
    ensures Skips(statuses, leader) == |SkippedBy(statuses, leader)|
    decreases |statuses|
  {
    if |statuses| > 0 {
      var n := |statuses| - 1;
      SkipsAreSkipped(statuses[..n], leader);
      SkippedNext(statuses, n, leader);
      hide SkippedBy;
    }
  }

  lemma SkippedNext(statuses: seq<SlotStatus>, n: nat, leader: Label)
    requires |statuses| == n + 1
    ensures n !in SkippedBy(statuses[..n], leader)
    ensures SkippedBy(statuses, leader)
            == SkippedBy(statuses[..n], leader)
               + if statuses[n].leader == leader && statuses[n].skipped then {n} else {}
  {
    forall i: nat
      ensures i in SkippedBy(statuses, leader) <==>
                i in SkippedBy(statuses[..n], leader)
                || (i == n && statuses[n].leader == leader && statuses[n].skipped)
    {
    }
  }

  ghost predicate EntriesOk(statuses: seq<SlotStatus>, entries: map<Label, Entry>) {
    forall l :: l in entries ==>
      && entries[l].leaderSlots == Count(LeadersOf(statuses), l)
      && entries[l].skippedSlots == Skips(statuses, l) == |SkippedBy(statuses, l)|
      && entries[l].blocksProduced + entries[l].skippedSlots == entries[l].leaderSlots
  }

  /** The entry of each leader. No subtraction underflows, since a leader cannot skip more
      slots than it had. */
  method LeaderEntries(statuses: seq<SlotStatus>, slots: map<Label, nat>, skips: map<Label, nat>)
    returns (entries: map<Label, Entry>)
    requires Tables(statuses, slots, skips)
    ensures entries.Keys == slots.Keys
    ensures EntriesOk(statuses, entries)
  {
    forall l | l in slots
      ensures skips[l] <= slots[l]
    {
      SkipsAtMostSlots(statuses, l);
      assert At(slots, l) == Count(LeadersOf(statuses), l) && At(skips, l) == Skips(statuses, l);
    }
    entries := map l | l in slots :: Entry(slots[l], slots[l] - skips[l], skips[l]);
    forall l | l in entries
      ensures slots[l] == Count(LeadersOf(statuses), l) && skips[l] == Skips(statuses, l) == |SkippedBy(statuses, l)|
    {
      SkipsAreSkipped(statuses, l);
      assert At(slots, l) == Count(LeadersOf(statuses), l) && At(skips, l) == Skips(statuses, l);
    }
  }

  /** The blocks of all leaders together are the confirmed blocks. */
  lemma {:induction false} BlocksAddUp(entries: map<Label, Entry>, slots: map<Label, nat>, skips: map<Label, nat>, blocks: map<Label, nat>, keys: set<Label>)
    requires entries.Keys == slots.Keys == skips.Keys == blocks.Keys && keys <= entries.Keys
    requires forall l :: l in entries ==>
               blocks[l] == entries[l].blocksProduced && blocks[l] + skips[l] == slots[l]
    ensures Sum(keys, blocks) + Sum(keys, skips) == Sum(keys, slots)
    decreases |keys|
  {
    if keys != {} {
      var k :| k in keys;
      SumTakeOut(keys, blocks, k);
      SumTakeOut(keys, skips, k);
      SumTakeOut(keys, slots, k);
      BlocksAddUp(entries, slots, skips, blocks, keys - {k});
    }
  }

  /** A strictly increasing list inside a window is no longer than the window, so the
      assertion on the number of blocks cannot fail. */
  lemma {:induction false} FitsWindow(blocks: seq<nat>, start: nat, end: nat)
    requires Ascending(blocks) && Within(blocks, start, end)
    ensures |blocks| <= if end + 1 >= start then end + 1 - start else 0
    decreases |blocks|
  {
    if |blocks| > 0 {
      var n := |blocks| - 1;
      var last := blocks[n];
      assert last in blocks;
      forall x | x in blocks[..n]
        ensures start <= x <= last - 1
      {
        assert x in blocks;
      }
      if n > 0 {
        assert blocks[0] in blocks[..n];
        FitsWindow(blocks[..n], start, last - 1);
      }
    }
  }

  datatype Report = Report(startSlot: nat, endSlot: nat, totalSlots: nat, totalBlocks: nat, totalSkipped: nat,
                           leaders: map<Label, Entry>, statuses: seq<SlotStatus>)

  datatype Outcome = Shown(report: Report) | LedgerUnavailable

  /** What the node answers: its epoch, its slot history, its ledger and its schedule. */
  datatype Node = Node(first: nat, last: nat, absolute: nat, oldest: nat, newest: nat,
                       found: nat -> bool, minimumLedgerSlot: nat, blocks: (nat, nat) -> seq<nat>, schedule: seq<Turn>)

  /** The node is in or past the epoch, and lists blocks in order within the range asked for. */
  ghost predicate Sound(node: Node) {
    && node.first <= node.last && node.first <= node.absolute
    && forall a, b :: Ascending(node.blocks(a, b)) && Within(node.blocks(a, b), a, b)
  }

  ghost predicate Consistent(node: Node, r: Report) {
    && node.first <= r.startSlot <= r.endSlot <= node.last
    && r.totalSlots == r.endSlot - r.startSlot + 1 == |r.statuses|
    && r.totalSkipped + r.totalBlocks == r.totalSlots
    && (forall i :: 0 <= i < |r.statuses| ==> r.statuses[i].slot == r.startSlot + i)
    && LedBy(LeadersOf(r.statuses), node.schedule, r.startSlot - node.first)
    && (forall l :: l in r.leaders <==> l in LeadersOf(r.statuses))
    && EntriesOk(r.statuses, r.leaders)
  }

  /** The figures of the leaders add up to the totals. */
  ghost predicate AddsUp(r: Report) {
    exists slots, skips, blocks ::
      && IsColumn(r.leaders, slots, skips, blocks)
      && Sum(r.leaders.Keys, slots) == r.totalSlots
      && Sum(r.leaders.Keys, skips) == r.totalSkipped
      && Sum(r.leaders.Keys, blocks) == r.totalBlocks
  }

  ghost predicate IsColumn(entries: map<Label, Entry>, slots: map<Label, nat>, skips: map<Label, nat>, blocks: map<Label, nat>) {
    && slots.Keys == skips.Keys == blocks.Keys == entries.Keys
    && forall l :: l in entries ==> entries[l] == Entry(slots[l], blocks[l], skips[l])
  }

  /** The slot history reaches from the first to the last slot of the window. */
  predicate HistoryCovers(node: Node, start: nat, end: nat) {
    node.oldest <= start && end <= node.newest
  }

  /** The first slot reported and the blocks the report is based on: those of the slot
      history when it covers the window, otherwise those the ledger lists, from the start of
      the window or of the ledger, whichever is later. */
  ghost predicate BasedOn(node: Node, slotLimit: Option<nat>, startSlot: nat, endSlot: nat, confirmed: seq<nat>) {
    var start := StartSlot(node.first, endSlot, slotLimit);
    if node.oldest <= start && endSlot <= node.newest then
      && startSlot == start
      && forall slot :: slot in confirmed <==> start <= slot <= endSlot && node.found(slot)
    else
      && startSlot >= start && startSlot >= node.minimumLedgerSlot
      && (startSlot == start || startSlot == node.minimumLedgerSlot)
      && confirmed == node.blocks(startSlot, endSlot)
  }

  /** Neither the slot history nor the ledger reaches the window. */
  ghost predicate OutOfReach(node: Node, slotLimit: Option<nat>, endSlot: nat) {
    && (StartSlot(node.first, endSlot, slotLimit) < node.oldest || node.newest < endSlot)
    && endSlot < node.minimumLedgerSlot
  }

  /** The last slot of the epoch, or the one the node is at if that is earlier. */
  ghost predicate IsEnd(node: Node, endSlot: nat) {
    && endSlot <= node.absolute && endSlot <= node.last
    && (endSlot == node.absolute || endSlot == node.last)
  }

  ghost predicate SkipsMissing(r: Report, confirmed: seq<nat>) {
    forall i :: 0 <= i < |r.statuses| ==> r.statuses[i].skipped == (r.statuses[i].slot !in confirmed)
  }

  method ChooseBlocks(node: Node, slotLimit: Option<nat>, end: nat) returns (ok: bool, start: nat, blocks: seq<nat>)
    requires Sound(node) && node.first <= end
    ensures ok ==>
              && BasedOn(node, slotLimit, start, end, blocks) && node.first <= start <= end
              && Ascending(blocks) && Within(blocks, start, end)
    ensures !ok <==> OutOfReach(node, slotLimit, end)
  {
    start, blocks := StartSlot(node.first, end, slotLimit), [];
    if HistoryCovers(node, start, end) {
      blocks := CollectFound(start, end, node.found);
    } else {
      if node.minimumLedgerSlot > end {
        return false, start, blocks;
      }
      start := Max(start, node.minimumLedgerSlot);
      blocks := node.blocks(start, end);
    }
    ok := true;
  }

  lemma EndInEpoch(node: Node, end: nat)
    requires Sound(node) && IsEnd(node, end)
    ensures node.first <= end
  {
  }

  /** `process_show_block_production` from the node's answers to the report: one status per
      slot of the window, skipped exactly when no block is there, and totals that every
      leader's figures add up to. */
  method ShowBlockProduction(node: Node, slotLimit: Option<nat>) returns (r: Outcome, ghost confirmed: seq<nat>)
    requires Sound(node)
    ensures r.Shown? ==>
              && IsEnd(node, r.report.endSlot)
              && BasedOn(node, slotLimit, r.report.startSlot, r.report.endSlot, confirmed)
              && SkipsMissing(r.report, confirmed)
              && Consistent(node, r.report) && AddsUp(r.report) && r.report.totalBlocks == |confirmed|
    ensures r.LedgerUnavailable? <==> exists end :: IsEnd(node, end) && OutOfReach(node, slotLimit, end)
  {
    hide BasedOn, Ascending, Within, Sum, LedBy, Reports, Tables, EntriesOk, Sound, Consistent, AddsUp, SkipsMissing;
    var end := Min(node.absolute, node.last);
    assert IsEnd(node, end) && forall other :: IsEnd(node, other) ==> other == end;
    assert node.first <= end by { EndInEpoch(node, end); }
    var ok, start, blocks := ChooseBlocks(node, slotLimit, end);
    if !ok {
      return LedgerUnavailable, [];
    }
    confirmed := blocks;
    var startIndex, endIndex := start - node.first, end - node.first;
    var totalSlots := endIndex - startIndex + 1;
    FitsWindow(blocks, start, end);
    var leaders := LeaderPerSlot(node.schedule, startIndex, endIndex);
    var statuses, slots, skips := MergeSlots(start, leaders, blocks);
    var entries := LeaderEntries(statuses, slots, skips);
    var report := Report(start, end, totalSlots, |blocks|, totalSlots - |blocks|, entries, statuses);
    Columns(report, slots, skips);
    IsConsistent(node, report, leaders, blocks, slots, skips);
    r := Shown(report);
  }

  lemma IsConsistent(node: Node, r: Report, leaders: seq<Label>, confirmed: seq<nat>, slots: map<Label, nat>, skips: map<Label, nat>)
    requires node.first <= r.startSlot <= r.endSlot <= node.last
    requires |r.statuses| == |leaders| == r.totalSlots == r.endSlot - r.startSlot + 1
    requires r.totalSkipped + r.totalBlocks == r.totalSlots
    requires Reports(r.statuses, r.startSlot, leaders, confirmed)
    requires LedBy(leaders, node.schedule, r.startSlot - node.first)
    requires Tables(r.statuses, slots, skips) && r.leaders.Keys == slots.Keys && EntriesOk(r.statuses, r.leaders)
    ensures Consistent(node, r) && SkipsMissing(r, confirmed)
  {
    forall l
      ensures l in r.leaders <==> l in LeadersOf(r.statuses)
    {
      assert l in r.leaders <==> l in slots;
    }
    assert LeadersOf(r.statuses) == leaders;
    hide Owner, Count, Skips;
  }

  lemma Columns(r: Report, slots: map<Label, nat>, skips: map<Label, nat>)
    requires Tables(r.statuses, slots, skips) && r.leaders.Keys == slots.Keys
    requires EntriesOk(r.statuses, r.leaders)
    requires Sum(slots.Keys, slots) == r.totalSlots
    requires Sum(skips.Keys, skips) == r.totalSkipped && r.totalSkipped + r.totalBlocks == r.totalSlots
    ensures AddsUp(r)
  {
    var blocks := map l | l in r.leaders :: r.leaders[l].blocksProduced;
    forall l | l in r.leaders
      ensures r.leaders[l] == Entry(slots[l], blocks[l], skips[l])
    {
      assert At(slots, l) == Count(LeadersOf(r.statuses), l) && At(skips, l) == Skips(r.statuses, l);
    }
    BlocksAddUp(r.leaders, slots, skips, blocks, r.leaders.Keys);
    assert IsColumn(r.leaders, slots, skips, blocks);
  }
}

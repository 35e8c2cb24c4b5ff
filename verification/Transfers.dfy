/** The transfer generator of bench-tps: key chunks, rotating destinations and alternating
    directions, over any number of rounds. */
module Transfers {
  import opened Arithmetic
  import opened Slices
  import opened FundingPlan

  /** A transfer of one lamport. */
  datatype Payment = Payment(from: Key, to: Key)

  // ----- Building the chunks

  ghost predicate Sized(sources: seq<seq<Key>>, dests: seq<seq<Key>>, txCount: nat) {
    && txCount > 0 && |sources| == |dests| > 0
    && forall c :: 0 <= c < |sources| ==> |sources[c]| == |dests[c]| == txCount
  }

  /** Position i of chunk c and position j of chunk d hold different keys, or are the same. */
  ghost predicate Apart(sources: seq<seq<Key>>, dests: seq<seq<Key>>, txCount: nat, c: nat, i: nat, d: nat, j: nat)
    requires Sized(sources, dests, txCount) && c < |sources| && d < |sources| && i < txCount && j < txCount
  {
    && (sources[c][i] == sources[d][j] ==> c == d && i == j)
    && (dests[c][i] == dests[d][j] ==> c == d && i == j)
    && sources[c][i] != dests[d][j]
  }

  /** Chunks of equal size whose keys are all different. */
  ghost predicate Chunked(sources: seq<seq<Key>>, dests: seq<seq<Key>>, txCount: nat) {
    && Sized(sources, dests, txCount)
    && forall c, i, d, j :: 0 <= c < |sources| && 0 <= i < txCount && 0 <= d < |sources| && 0 <= j < txCount
         ==> Apart(sources, dests, txCount, c, i, d, j)
  }

  /** Where chunk c starts in the key list. */
  function Offset(txCount: nat, c: nat): nat {
    if c == 0 then 0 else Offset(txCount, c - 1) + 2 * txCount
  }

  lemma {:induction false} OffsetsApart(txCount: nat, c: nat, d: nat)
    requires c < d
    ensures Offset(txCount, c) + 2 * txCount <= Offset(txCount, d)
    decreases d
  {
    if c < d - 1 {
      OffsetsApart(txCount, c, d - 1);
    }
  }

  /** The two halves of the keys from `at` on. */
  ghost predicate IsChunk(keys: seq<Key>, txCount: nat, at: nat, source: seq<Key>, dest: seq<Key>) {
    && at + 2 * txCount <= |keys|
    && source == keys[at..at + txCount]
    && dest == keys[at + txCount..at + 2 * txCount]
  }

  /** Chunk c's sources and destinations are the two halves of its stretch of the keys. */
  ghost predicate FromKeys(keys: seq<Key>, txCount: nat, sources: seq<seq<Key>>, dests: seq<seq<Key>>) {
    && |sources| == |dests|
    && forall c :: 0 <= c < |sources| ==> IsChunk(keys, txCount, Offset(txCount, c), sources[c], dests[c])
  }

  lemma PositionsApart(txCount: nat, c: nat, x: nat, d: nat, y: nat)
    requires x < 2 * txCount && y < 2 * txCount
    ensures Offset(txCount, c) + x == Offset(txCount, d) + y ==> c == d && x == y
  {
    if c < d {
      OffsetsApart(txCount, c, d);
    } else if d < c {
      OffsetsApart(txCount, d, c);
    }
  }

  lemma KeyAt(keys: seq<Key>, txCount: nat, sources: seq<seq<Key>>, dests: seq<seq<Key>>, c: nat, i: nat)
    requires FromKeys(keys, txCount, sources, dests) && c < |sources| && i < txCount
    ensures |sources[c]| == |dests[c]| == txCount && Offset(txCount, c) + txCount + i < |keys|
    ensures sources[c][i] == keys[Offset(txCount, c) + i]
    ensures dests[c][i] == keys[Offset(txCount, c) + txCount + i]
  {
  }

  lemma PairApart(keys: seq<Key>, txCount: nat, sources: seq<seq<Key>>, dests: seq<seq<Key>>,
                  c: nat, i: nat, d: nat, j: nat)
    requires Sized(sources, dests, txCount) && FromKeys(keys, txCount, sources, dests) && Distinct(keys)
    requires c < |sources| && d < |sources| && i < txCount && j < txCount
    ensures Apart(sources, dests, txCount, c, i, d, j)
  {
    KeyAt(keys, txCount, sources, dests, c, i);
    KeyAt(keys, txCount, sources, dests, d, j);
    var x, y := Offset(txCount, c), Offset(txCount, d);
    hide FromKeys, Offset;
    SamePlace(keys, x + i, y + j);
    SamePlace(keys, x + txCount + i, y + txCount + j);
    SamePlace(keys, x + i, y + txCount + j);
    PositionsApart(txCount, c, i, d, j);
    PositionsApart(txCount, c, txCount + i, d, txCount + j);
    PositionsApart(txCount, c, i, d, txCount + j);
  }

  lemma KeyPositions(keys: seq<Key>, txCount: nat, sources: seq<seq<Key>>, dests: seq<seq<Key>>)
    requires txCount > 0 && |sources| > 0 && FromKeys(keys, txCount, sources, dests)
    requires Distinct(keys)
    ensures Chunked(sources, dests, txCount)
  {
    assert Sized(sources, dests, txCount) by {
      forall c | 0 <= c < |sources|
        ensures |sources[c]| == |dests[c]| == txCount
      {
        KeyAt(keys, txCount, sources, dests, c, 0);
      }
    }
    hide FromKeys, Sized, Apart, Distinct;
    forall c, i, d, j | 0 <= c < |sources| && 0 <= i < txCount && 0 <= d < |sources| && 0 <= j < txCount
      ensures Apart(sources, dests, txCount, c, i, d, j)
    {
      PairApart(keys, txCount, sources, dests, c, i, d, j);
    }
  }

  lemma NextChunk(keys: seq<Key>, txCount: nat, sources: seq<seq<Key>>, dests: seq<seq<Key>>, chunk: seq<Key>)
    requires FromKeys(keys, txCount, sources, dests)
    requires Offset(txCount, |sources|) + 2 * txCount <= |keys|
    requires chunk == keys[Offset(txCount, |sources|)..Offset(txCount, |sources|) + 2 * txCount]
    ensures FromKeys(keys, txCount, sources + [chunk[..txCount]], dests + [chunk[txCount..]])
  {
    assert IsChunk(keys, txCount, Offset(txCount, |sources|), chunk[..txCount], chunk[txCount..]);
    hide IsChunk, Offset;
  }

  /** The chunk construction of `do_bench_tps`; a tail shorter than a chunk is dropped. */
  method MakeChunks(keys: seq<Key>, txCount: nat) returns (sources: seq<seq<Key>>, dests: seq<seq<Key>>)
    requires txCount > 0 && |keys| >= 2 * txCount && Distinct(keys)
    ensures FromKeys(keys, txCount, sources, dests) && Chunked(sources, dests, txCount)
    ensures |keys| - 2 * txCount < Offset(txCount, |sources|) <= |keys|
  {
    sources, dests := [], [];
    var at := 0;
    assert FromKeys(keys, txCount, sources, dests);
    hide FromKeys, Chunked;
    while at + 2 * txCount <= |keys|
      invariant at == Offset(txCount, |sources|) <= |keys|
      invariant |sources| == |dests| && (at == 0 ==> |sources| == 0)
      invariant FromKeys(keys, txCount, sources, dests)
      decreases |keys| - at
    {
      var chunk := keys[at..at + 2 * txCount];
      NextChunk(keys, txCount, sources, dests, chunk);
      sources := sources + [chunk[..txCount]];
      dests := dests + [chunk[txCount..]];
      at := at + 2 * txCount;
    }
    KeyPositions(keys, txCount, sources, dests);
  }

  // ----- One round

  /** `generate_system_txs`: the sources zipped with the destinations, either way round. */
  function SystemTxs(source: seq<Key>, dest: seq<Key>, reclaim: bool): (txs: seq<Payment>)
    requires |source| == |dest|
    ensures |txs| == |source|
    ensures forall i :: 0 <= i < |txs| ==>
              txs[i] == if reclaim then Payment(dest[i], source[i]) else Payment(source[i], dest[i])
  {
    seq(|source|, i requires 0 <= i < |source| =>
      if reclaim then Payment(dest[i], source[i]) else Payment(source[i], dest[i]))
  }

  /** A list rotated left w times. */
  function Rotated(s: seq<Key>, w: nat): (r: seq<Key>)
    requires |s| > 0
    ensures |r| == |s|
  {
    s[w % |s|..] + s[..w % |s|]
  }

  lemma ModShift(i: nat, w: nat, t: nat)
    requires t > 0 && i <= t
    ensures (i + w) % t == if i + w % t < t then i + w % t else i + w % t - t
  {
    var q, m := w / t, w % t;
    assert w == q * t + m;
    if i + m < t {
      DivUnique(i + w, t, q, i + m);
    } else {
      assert (q + 1) * t == q * t + t;
      DivUnique(i + w, t, q + 1, i + m - t);
    }
  }

  /** `rotate_left(1)` on a list already rotated w times. */
  lemma RotateOnce(s: seq<Key>, w: nat)
    requires |s| > 0
    ensures var r := Rotated(s, w); r[1..] + [r[0]] == Rotated(s, w + 1)
  {
    ModShift(1, w, |s|);
  }

  // ----- The whole run

  /** The transfers of one round: chunk `chunk` in sweep `sweep` over all the chunks. A
      sweep rotates every destination list once and turns the direction round. */
  function RoundTxs(sources: seq<seq<Key>>, dests: seq<seq<Key>>, chunk: nat, sweep: nat): seq<Payment>
    requires chunk < |sources| == |dests| && 0 < |sources[chunk]| == |dests[chunk]|
  {
    SystemTxs(sources[chunk], Rotated(dests[chunk], sweep), sweep % 2 == 1)
  }

  /** Round r works on this chunk ... */
  function ChunkOf(r: nat, chunks: nat): (c: nat)
    requires chunks > 0
    ensures c < chunks
  {
    r % chunks
  }

  /** ... in this sweep. */
  function SweepOf(r: nat, chunks: nat): nat
    requires chunks > 0
  {
    r / chunks
  }

  /** The log holds every chunk of the sweeps so far, in order. */
  ghost predicate Logged(log: seq<seq<Payment>>, sources: seq<seq<Key>>, dests: seq<seq<Key>>)
    requires |sources| == |dests| > 0
    requires forall c :: 0 <= c < |sources| ==> 0 < |sources[c]| == |dests[c]|
  {
    forall r :: 0 <= r < |log| ==> log[r] == RoundTxs(sources, dests, ChunkOf(r, |sources|), SweepOf(r, |sources|))
  }

  /** Round r, transfer by transfer: chunk r modulo the chunks; source i and the destination
      as many places on as there were complete sweeps; the destination pays in every other
      sweep. */
  ghost predicate IsRound(txs: seq<Payment>, sources: seq<seq<Key>>, dests: seq<seq<Key>>, r: nat)
    requires |sources| == |dests| > 0
    requires forall c :: 0 <= c < |sources| ==> 0 < |sources[c]| == |dests[c]|
  {
    var c, sweep := r % |sources|, r / |sources|;
    && |txs| == |sources[c]|
    && forall i :: 0 <= i < |txs| ==>
         var dest := dests[c][(i + sweep) % |dests[c]|];
         txs[i] == if sweep % 2 == 0 then Payment(sources[c][i], dest) else Payment(dest, sources[c][i])
  }

  lemma LoggedRound(log: seq<seq<Payment>>, sources: seq<seq<Key>>, dests: seq<seq<Key>>, r: nat)
    requires |sources| == |dests| > 0
    requires forall c :: 0 <= c < |sources| ==> 0 < |sources[c]| == |dests[c]|
    requires Logged(log, sources, dests) && r < |log|
    ensures IsRound(log[r], sources, dests, r)
  {
    var c, sweep := ChunkOf(r, |sources|), SweepOf(r, |sources|);
    assert log[r] == RoundTxs(sources, dests, c, sweep);
    hide Rotated, Logged;
    forall i | 0 <= i < |sources[c]|
      ensures var dest := dests[c][(i + sweep) % |dests[c]|];
              log[r][i] == if sweep % 2 == 0 then Payment(sources[c][i], dest) else Payment(dest, sources[c][i])
    {
      RotatedAt(dests[c], sweep, i);
    }
  }

  /** The destination lists part way through a sweep. */
  ghost predicate MidSweep(now: seq<seq<Key>>, dests: seq<seq<Key>>, chunk: nat, sweep: nat)
    requires forall c :: 0 <= c < |dests| ==> 0 < |dests[c]|
  {
    && |now| == |dests|
    && forall c :: 0 <= c < |now| ==> now[c] == Rotated(dests[c], if c < chunk then sweep + 1 else sweep)
  }

  lemma LogNext(log: seq<seq<Payment>>, sources: seq<seq<Key>>, dests: seq<seq<Key>>, now: seq<seq<Key>>,
                chunk: nat, sweep: nat, reclaim: bool)
    requires |sources| == |dests| > 0
    requires forall c :: 0 <= c < |sources| ==> 0 < |sources[c]| == |dests[c]|
    requires Logged(log, sources, dests) && MidSweep(now, dests, chunk, sweep)
    requires chunk < |sources| && |log| == sweep * |sources| + chunk && reclaim == (sweep % 2 == 1)
    ensures |now| == |sources| && |now[chunk]| == |sources[chunk]|
    ensures Logged(log + [SystemTxs(sources[chunk], now[chunk], reclaim)], sources, dests)
  {
    DivUnique(|log|, |sources|, sweep, chunk);
  }

  lemma RotateChunk(now: seq<seq<Key>>, dests: seq<seq<Key>>, chunk: nat, sweep: nat)
    requires forall c :: 0 <= c < |dests| ==> 0 < |dests[c]|
    requires MidSweep(now, dests, chunk, sweep) && chunk < |now| && |now[chunk]| > 0
    ensures MidSweep(now[chunk := now[chunk][1..] + [now[chunk][0]]], dests, chunk + 1, sweep)
  {
    RotateOnce(dests[chunk], sweep);
    hide Rotated;
  }

  /** `generate_chunked_transfers` for a given number of rounds, with its rotating
      destination lists, its chunk index and its direction flag. */
  method GenerateChunkedTransfers(sources: seq<seq<Key>>, destChunks: seq<seq<Key>>, rounds: nat)
    returns (log: seq<seq<Payment>>)
    requires |sources| == |destChunks| > 0
    requires forall c :: 0 <= c < |sources| ==> 0 < |sources[c]| == |destChunks[c]|
    ensures |log| == rounds && Logged(log, sources, destChunks)
    ensures forall r :: 0 <= r < rounds ==> IsRound(log[r], sources, destChunks, r)
  {
    hide Logged, RoundTxs, SystemTxs, Rotated, MidSweep, IsRound;
    log := [];
    var dests := destChunks;
    var reclaim, chunkIndex := false, 0;
    ghost var sweep := 0;
    NoSweepYet(sources, destChunks);
    while |log| < rounds
      invariant |log| <= rounds && 0 <= chunkIndex < |sources|
      invariant |log| == sweep * |sources| + chunkIndex
      invariant reclaim == (sweep % 2 == 1)
      invariant MidSweep(dests, destChunks, chunkIndex, sweep)
      invariant Logged(log, sources, destChunks)
    {
      LogNext(log, sources, destChunks, dests, chunkIndex, sweep, reclaim);
      log := log + [SystemTxs(sources[chunkIndex], dests[chunkIndex], reclaim)];
      RotateChunk(dests, destChunks, chunkIndex, sweep);
      dests := dests[chunkIndex := dests[chunkIndex][1..] + [dests[chunkIndex][0]]];
      EndOfSweep(dests, destChunks, chunkIndex, sweep, |sources|);
      chunkIndex := (chunkIndex + 1) % |sources|;
      if chunkIndex == 0 {
        reclaim := !reclaim;
        sweep := sweep + 1;
      }
    }
    forall r | 0 <= r < rounds
      ensures IsRound(log[r], sources, destChunks, r)
    {
      LoggedRound(log, sources, destChunks, r);
    }
  }

  lemma NoSweepYet(sources: seq<seq<Key>>, dests: seq<seq<Key>>)
    requires |sources| == |dests| > 0
    requires forall c :: 0 <= c < |sources| ==> 0 < |sources[c]| == |dests[c]|
    ensures Logged([], sources, dests) && MidSweep(dests, dests, 0, 0)
  {
  }

  lemma EndOfSweep(now: seq<seq<Key>>, dests: seq<seq<Key>>, chunk: nat, sweep: nat, chunks: nat)
    requires chunk < chunks == |dests|
    requires forall c :: 0 <= c < |dests| ==> 0 < |dests[c]|
    requires MidSweep(now, dests, chunk + 1, sweep)
    ensures (chunk + 1) % chunks == if chunk + 1 == chunks then 0 else chunk + 1
    ensures chunk + 1 == chunks ==> MidSweep(now, dests, 0, sweep + 1)
    ensures (sweep + 1) * chunks == sweep * chunks + chunks
  {
    if chunk + 1 < chunks {
      DivUnique(chunk + 1, chunks, 0, chunk + 1);
    } else {
      DivUnique(chunk + 1, chunks, 1, 0);
    }
  }

  // ----- No repeated transfer

  predicate SamePair(a: Payment, b: Payment) {
    a == b || a == Payment(b.to, b.from)
  }

  /** The i-th transfer of a round joins source i to destination i + sweep, modulo the chunk. */
  lemma RotatedAt(s: seq<Key>, w: nat, i: nat)
    requires i < |s|
    ensures Rotated(s, w)[i] == s[(i + w) % |s|]
  {
    ModShift(i, w, |s|);
  }

  lemma ShiftsAgree(i: nat, v: nat, w: nat, t: nat)
    requires i < t
    ensures (i + v) % t == (i + w) % t <==> v % t == w % t
  {
    ModShift(i, v, t);
    ModShift(i, w, t);
  }

  lemma KeysApart(sources: seq<seq<Key>>, dests: seq<seq<Key>>, txCount: nat,
                  c: nat, i: nat, x: nat, d: nat, j: nat, y: nat)
    requires Chunked(sources, dests, txCount) && c < |sources| && d < |sources|
    requires i < txCount && x < txCount && j < txCount && y < txCount
    ensures sources[c][i] == sources[d][j] <==> c == d && i == j
    ensures dests[c][x] == dests[d][y] <==> c == d && x == y
    ensures sources[c][i] != dests[d][y] && sources[d][j] != dests[c][x]
  {
    assert Apart(sources, dests, txCount, c, i, d, j) && Apart(sources, dests, txCount, c, x, d, y);
    assert Apart(sources, dests, txCount, c, i, d, y) && Apart(sources, dests, txCount, d, j, c, x);
  }

  lemma ChunkDistinct(sources: seq<seq<Key>>, dests: seq<seq<Key>>, txCount: nat, c: nat)
    requires Chunked(sources, dests, txCount) && c < |sources|
    ensures Distinct(sources[c]) && Distinct(dests[c])
  {
    forall i, j | 0 <= i < j < txCount
      ensures sources[c][i] != sources[c][j] && dests[c][i] != dests[c][j]
    {
      assert Apart(sources, dests, txCount, c, i, c, j);
    }
  }

  lemma InWhichChunk(sources: seq<seq<Key>>, dests: seq<seq<Key>>, txCount: nat, c: nat, i: nat, chunk: nat)
    requires Chunked(sources, dests, txCount) && c < |sources| && chunk < |sources| && i < txCount
    ensures dests[c][i] in dests[chunk] <==> c == chunk
    ensures sources[c][i] in sources[chunk] <==> c == chunk
    ensures dests[c][i] !in sources[chunk] && sources[c][i] !in dests[chunk]
  {
    forall j | 0 <= j < txCount
      ensures dests[c][i] == dests[chunk][j] ==> c == chunk
      ensures sources[c][i] == sources[chunk][j] ==> c == chunk
      ensures dests[c][i] != sources[chunk][j] && sources[c][i] != dests[chunk][j]
    {
      assert Apart(sources, dests, txCount, c, i, chunk, j) && Apart(sources, dests, txCount, chunk, j, c, i);
    }
  }

  /** Two transfers of any two rounds join the same two accounts exactly when they are the
      same position of the same chunk and the sweeps agree modulo the chunk size; they are
      the same transfer exactly when the sweeps also have the same parity. */
  lemma TransfersAgreeIff(sources: seq<seq<Key>>, dests: seq<seq<Key>>, txCount: nat,
                          c: nat, v: nat, i: nat, d: nat, w: nat, j: nat)
    requires Chunked(sources, dests, txCount) && c < |sources| && d < |sources|
    requires i < txCount && j < txCount
    ensures var a, b := RoundTxs(sources, dests, c, v)[i], RoundTxs(sources, dests, d, w)[j];
            var same := c == d && i == j && v % txCount == w % txCount;
            && (SamePair(a, b) <==> same)
            && (a == b <==> same && v % 2 == w % 2)
  {
    RotatedAt(dests[c], v, i);
    RotatedAt(dests[d], w, j);
    ShiftsAgree(i, v, w, txCount);
    KeysApart(sources, dests, txCount, c, i, (i + v) % txCount, d, j, (j + w) % txCount);
  }

  /** No repeated transfer: two different rounds fewer than `txCount` sweeps apart share no
      pair of accounts, in either direction. */
  lemma NoRepeatedTransfer(sources: seq<seq<Key>>, dests: seq<seq<Key>>, txCount: nat,
                           c: nat, v: nat, i: nat, d: nat, w: nat, j: nat)
    requires Chunked(sources, dests, txCount) && c < |sources| && d < |sources|
    requires i < txCount && j < txCount
    requires (c, v) != (d, w) && v < w + txCount && w < v + txCount
    ensures !SamePair(RoundTxs(sources, dests, c, v)[i], RoundTxs(sources, dests, d, w)[j])
  {
    TransfersAgreeIff(sources, dests, txCount, c, v, i, d, w, j);
    CloseAndCongruent(v, w, txCount);
  }

  lemma CloseAndCongruent(v: nat, w: nat, t: nat)
    requires t > 0 && v < w + t && w < v + t
    ensures v % t == w % t ==> v == w
  {
    if v % t == w % t {
      SameQuotient(v / t, w / t, v % t, t);
    }
  }

  lemma SameQuotient(a: nat, b: nat, m: nat, t: nat)
    requires a * t + m < b * t + m + t && b * t + m < a * t + m + t
    ensures a == b
  {
    Scale(a, b, t);
    Scale(b, a, t);
  }

  // ----- Conservation

  /** What account k gains, less what it pays, over a list of transfers. */
  function Net(txs: seq<Payment>, k: Key): int {
    if |txs| == 0 then 0
    else
      var last := txs[|txs| - 1];
      Net(txs[..|txs| - 1], k) + (if last.to == k then 1 else 0) - (if last.from == k then 1 else 0)
  }

  function NetOfRun(log: seq<seq<Payment>>, k: Key): int {
    if |log| == 0 then 0 else NetOfRun(log[..|log| - 1], k) + Net(log[|log| - 1], k)
  }

  function One(b: bool): int {
    if b then 1 else 0
  }

  /** In one round each paid account gains one and each payer loses one. */
  lemma {:induction false} NetOfRound(source: seq<Key>, dest: seq<Key>, reclaim: bool, k: Key)
    requires |source| == |dest| && Distinct(source) && Distinct(dest)
    ensures Net(SystemTxs(source, dest, reclaim), k)
            == if reclaim then One(k in source) - One(k in dest) else One(k in dest) - One(k in source)
    decreases |source|
  {
    var n := |source| - 1;
    if n >= 0 {
      NetOfRound(source[..n], dest[..n], reclaim, k);
      assert SystemTxs(source, dest, reclaim)[..n] == SystemTxs(source[..n], dest[..n], reclaim);
      assert source == source[..n] + [source[n]] && dest == dest[..n] + [dest[n]];
      assert source[n] !in source[..n] && dest[n] !in dest[..n];
    }
  }

  lemma RotatedIsPermutation(s: seq<Key>, w: nat)
    requires |s| > 0 && Distinct(s)
    ensures Distinct(Rotated(s, w))
    ensures forall k :: k in Rotated(s, w) <==> k in s
  {
    assert s == s[..w % |s|] + s[w % |s|..];
  }

  /** How often chunk c has been used after `rounds` rounds over `chunks` chunks. */
  function Uses(c: nat, chunks: nat, rounds: nat): nat
    requires chunks > 0
  {
    SweepOf(rounds, chunks) + if c < ChunkOf(rounds, chunks) then 1 else 0
  }

  lemma UsesNext(c: nat, chunks: nat, rounds: nat)
    requires c < chunks
    ensures Uses(c, chunks, rounds + 1) == Uses(c, chunks, rounds) + if c == ChunkOf(rounds, chunks) then 1 else 0
    ensures c == ChunkOf(rounds, chunks) ==> Uses(c, chunks, rounds) == SweepOf(rounds, chunks)
  {
    var q, m := rounds / chunks, rounds % chunks;
    assert rounds == q * chunks + m;
    if m + 1 < chunks {
      DivUnique(rounds + 1, chunks, q, m + 1);
    } else {
      assert (q + 1) * chunks == q * chunks + chunks;
      DivUnique(rounds + 1, chunks, q + 1, 0);
    }
  }

  lemma NetOfChunk(sources: seq<seq<Key>>, dests: seq<seq<Key>>, txCount: nat,
                   chunk: nat, sweep: nat, c: nat, i: nat)
    requires Chunked(sources, dests, txCount) && chunk < |sources| && c < |sources| && i < txCount
    ensures var txs := RoundTxs(sources, dests, chunk, sweep);
            var gain := if c != chunk then 0 else if sweep % 2 == 0 then 1 else -1;
            Net(txs, dests[c][i]) == gain && Net(txs, sources[c][i]) == -gain
  {
    ChunkDistinct(sources, dests, txCount, chunk);
    RotatedIsPermutation(dests[chunk], sweep);
    InWhichChunk(sources, dests, txCount, c, i, chunk);
    hide Rotated, Net;
    NetOfRound(sources[chunk], Rotated(dests[chunk], sweep), sweep % 2 == 1, dests[c][i]);
    NetOfRound(sources[chunk], Rotated(dests[chunk], sweep), sweep % 2 == 1, sources[c][i]);
  }

  lemma ParityStep(uses: nat, sweep: nat, hit: bool)
    requires hit ==> uses == sweep
    ensures (uses + if hit then 1 else 0) % 2
            == uses % 2 + if !hit then 0 else if sweep % 2 == 0 then 1 else -1
  {
  }

  /** Whole-run conservation: after any number of rounds a source is out by at most one
      lamport and its chunk's destinations are up by the same, exactly when the chunk has
      been used an odd number of times. */
  lemma {:induction false} RunConserves(log: seq<seq<Payment>>, sources: seq<seq<Key>>, dests: seq<seq<Key>>,
                                        txCount: nat, c: nat, i: nat)
    requires Chunked(sources, dests, txCount) && Logged(log, sources, dests)
    requires c < |sources| && i < txCount
    ensures NetOfRun(log, dests[c][i]) == Uses(c, |sources|, |log|) % 2
    ensures NetOfRun(log, sources[c][i]) == -(Uses(c, |sources|, |log|) % 2)
    decreases |log|
  {
    var n := |log| - 1;
    if n >= 0 {
      var chunk, sweep := ChunkOf(n, |sources|), SweepOf(n, |sources|);
      assert log[n] == RoundTxs(sources, dests, chunk, sweep);
      assert Logged(log[..n], sources, dests);
      RunConserves(log[..n], sources, dests, txCount, c, i);
      UsesNext(c, |sources|, n);
      NetOfChunk(sources, dests, txCount, chunk, sweep, c, i);
      ParityStep(Uses(c, |sources|, n), sweep, c == chunk);
      assert NetOfRun(log, dests[c][i]) == NetOfRun(log[..n], dests[c][i]) + Net(log[n], dests[c][i]);
      assert NetOfRun(log, sources[c][i]) == NetOfRun(log[..n], sources[c][i]) + Net(log[n], sources[c][i]);
      hide *;
    } else {
      DivUnique(0, |sources|, 0, 0);
    }
  }

  lemma NetOfOutsider(sources: seq<seq<Key>>, dests: seq<seq<Key>>, txCount: nat, chunk: nat, sweep: nat, k: Key)
    requires Chunked(sources, dests, txCount) && chunk < |sources|
    requires k !in sources[chunk] && k !in dests[chunk]
    ensures Net(RoundTxs(sources, dests, chunk, sweep), k) == 0
  {
    ChunkDistinct(sources, dests, txCount, chunk);
    RotatedIsPermutation(dests[chunk], sweep);
    hide Rotated, Net;
    NetOfRound(sources[chunk], Rotated(dests[chunk], sweep), sweep % 2 == 1, k);
  }

  /** Keys of the dropped tail, and everyone else, are left alone. */
  lemma {:induction false} OutsidersUntouched(log: seq<seq<Payment>>, sources: seq<seq<Key>>, dests: seq<seq<Key>>, txCount: nat, k: Key)
    requires Chunked(sources, dests, txCount) && Logged(log, sources, dests)
    requires forall c :: 0 <= c < |sources| ==> k !in sources[c] && k !in dests[c]
    ensures NetOfRun(log, k) == 0
    decreases |log|
  {
    var n := |log| - 1;
    if n >= 0 {
      assert log[n] == RoundTxs(sources, dests, ChunkOf(n, |sources|), SweepOf(n, |sources|));
      assert Logged(log[..n], sources, dests);
      hide Net, RoundTxs, Chunked, Logged;
      OutsidersUntouched(log[..n], sources, dests, txCount, k);
      NetOfOutsider(sources, dests, txCount, ChunkOf(n, |sources|), SweepOf(n, |sources|), k);
    }
  }

  /** After an even number of complete sweeps everyone is back where they began. */
  lemma EvenSweepsRestore(log: seq<seq<Payment>>, sources: seq<seq<Key>>, dests: seq<seq<Key>>,
                          txCount: nat, sweeps: nat, c: nat, i: nat)
    requires Chunked(sources, dests, txCount) && Logged(log, sources, dests)
    requires |log| == 2 * sweeps * |sources| && c < |sources| && i < txCount
    ensures NetOfRun(log, dests[c][i]) == 0 && NetOfRun(log, sources[c][i]) == 0
  {
    RunConserves(log, sources, dests, txCount, c, i);
    DivUnique(|log|, |sources|, 2 * sweeps, 0);
  }
}

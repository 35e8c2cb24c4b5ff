/** Collecting the signers of a command: de-duplication by public key, the default signer
    where one was not named, and the indices commands keep into the list. */
module Signers {
  import opened Options
  import opened Slices

  type Pubkey = nat
  /** A signer; two are equal to the source when their public keys are. */
  datatype Signer = Signer(pubkey: Pubkey, handle: nat)

  function Keys(signers: seq<Signer>): (keys: seq<Pubkey>)
    ensures |keys| == |signers| && forall i :: 0 <= i < |keys| ==> keys[i] == signers[i].pubkey
  {
    seq(|signers|, i requires 0 <= i < |signers| => signers[i].pubkey)
  }

  /** The signers that were named, in order. */
  function Named(bulk: seq<Option<Signer>>): seq<Signer> {
    if |bulk| == 0 then []
    else
      var n := |bulk| - 1;
      Named(bulk[..n]) + if bulk[n].Some? then [bulk[n].value] else []
  }

  /** Where the named signers stand in the list that was given: every named entry, in order. */
  lemma {:induction false} NamedInOrder(bulk: seq<Option<Signer>>) returns (at: seq<nat>)
    ensures Ascending(at) && |at| == |Named(bulk)|
    ensures forall k :: 0 <= k < |at| ==> at[k] < |bulk| && bulk[at[k]] == Some(Named(bulk)[k])
    ensures forall i :: 0 <= i < |bulk| && bulk[i].Some? ==> i in at
    decreases |bulk|
  {
    at := [];
    if |bulk| > 0 {
      var n := |bulk| - 1;
      at := NamedInOrder(bulk[..n]);
      if bulk[n].Some? {
        at := at + [n];
      }
    }
  }

  predicate NeedsDefault(bulk: seq<Option<Signer>>) {
    None in bulk
  }

  /** Each key once, where it first appears. */
  function FirstAppearances(signers: seq<Signer>): (r: seq<Signer>) {
    if |signers| == 0 then []
    else
      var n := |signers| - 1;
      var r := FirstAppearances(signers[..n]);
      if signers[n].pubkey in Keys(signers[..n]) then r else r + [signers[n]]
  }

  /** Each key of `signers` once, held by the signer that had it first, in the order in which
      the keys first appear. */
  ghost predicate ListsFirsts(list: seq<Signer>, signers: seq<Signer>) {
    && Distinct(Keys(list))
    && (forall k :: k in Keys(list) <==> k in Keys(signers))
    && (forall i :: 0 <= i < |list| ==> IsFirst(list[i], signers))
    && (forall i, j :: 0 <= i < j < |list| ==> FirstBefore(list[i], list[j], signers))
  }

  ghost predicate IsFirst(signer: Signer, signers: seq<Signer>) {
    var at := Position(signers, signer.pubkey, 0);
    at.Some? && signers[at.value] == signer
  }

  ghost predicate FirstBefore(a: Signer, b: Signer, signers: seq<Signer>) {
    var x, y := Position(signers, a.pubkey, 0), Position(signers, b.pubkey, 0);
    x.Some? && y.Some? && x.value < y.value
  }

  lemma PositionKept(signers: seq<Signer>, n: nat, pubkey: Pubkey)
    requires n <= |signers| && Position(signers[..n], pubkey, 0).Some?
    ensures Position(signers, pubkey, 0) == Position(signers[..n], pubkey, 0)
  {
    var x, y := Position(signers, pubkey, 0), Position(signers[..n], pubkey, 0);
    assert signers[y.value].pubkey == pubkey && x.Some?;
    assert forall i :: 0 <= i < y.value ==> signers[i] == signers[..n][i];
  }

  lemma PositionOfNew(signers: seq<Signer>, n: nat)
    requires n < |signers| && signers[n].pubkey !in Keys(signers[..n])
    ensures Position(signers, signers[n].pubkey, 0) == Some(n)
  {
    forall i | 0 <= i < n
      ensures signers[i].pubkey != signers[n].pubkey
    {
      assert Keys(signers[..n])[i] == signers[i].pubkey;
    }
  }

  lemma {:induction false} FirstAppearancesInOrder(signers: seq<Signer>)
    ensures ListsFirsts(FirstAppearances(signers), signers)
    decreases |signers|
  {
    FirstAppearancesOk(signers);
    if |signers| > 0 {
      var n := |signers| - 1;
      FirstAppearancesInOrder(signers[..n]);
      var before, list := FirstAppearances(signers[..n]), FirstAppearances(signers);
      forall i | 0 <= i < |before|
        ensures IsFirst(before[i], signers) && Position(signers, before[i].pubkey, 0).value < n
        ensures Position(signers, before[i].pubkey, 0) == Position(signers[..n], before[i].pubkey, 0)
      {
        assert IsFirst(before[i], signers[..n]);
        PositionKept(signers, n, before[i].pubkey);
      }
      if signers[n].pubkey !in Keys(signers[..n]) {
        PositionOfNew(signers, n);
      }
      forall i, j | 0 <= i < j < |list|
        ensures FirstBefore(list[i], list[j], signers)
      {
        if j < |before| {
          assert FirstBefore(before[i], before[j], signers[..n]);
        }
      }
    }
  }

  lemma {:induction false} FirstAppearancesOk(signers: seq<Signer>)
    ensures Distinct(Keys(FirstAppearances(signers)))
    ensures forall k :: k in Keys(FirstAppearances(signers)) <==> k in Keys(signers)
    ensures |signers| > 0 ==> |FirstAppearances(signers)| > 0 && FirstAppearances(signers)[0] == signers[0]
    decreases |signers|
  {
    if |signers| > 0 {
      var n := |signers| - 1;
      FirstAppearancesOk(signers[..n]);
      assert Keys(signers) == Keys(signers[..n]) + [signers[n].pubkey];
      var r := FirstAppearances(signers[..n]);
      assert Keys(r + [signers[n]]) == Keys(r) + [signers[n].pubkey];
    }
  }

  /** `generate_unique_signers`; nothing comes back exactly when the default signer is
      needed and cannot be had. */
  method GenerateUniqueSigners(bulk: seq<Option<Signer>>, default: Option<Signer>) returns (r: Option<seq<Signer>>)
    ensures r.None? <==> NeedsDefault(bulk) && default.None?
    ensures r.Some? ==> r.value == UniqueSigners(bulk, default)
    ensures r.Some? ==> ListsFirsts(r.value, Supplied(bulk, default))
  {
    var unique := [];
    if None in bulk {
      if default.None? {
        return None;
      }
      unique := [default.value];
    }
    ghost var before := unique;
    assert FirstAppearances(before) == before by { assert before[..0] == []; }
    for i := 0 to |bulk|
      invariant unique == FirstAppearances(before + Named(bulk[..i]))
    {
      assert bulk[..i + 1][..i] == bulk[..i];
      if bulk[i].Some? {
        NextSigner(before + Named(bulk[..i]), bulk[i].value);
        assert before + Named(bulk[..i + 1]) == before + Named(bulk[..i]) + [bulk[i].value];
        hide FirstAppearances, Contains;
        if !Contains(unique, bulk[i].value.pubkey) {
          unique := unique + [bulk[i].value];
        }
      } else {
        assert Named(bulk[..i + 1]) == Named(bulk[..i]);
      }
    }
    assert bulk[..|bulk|] == bulk;
    FirstAppearancesInOrder(before + Named(bulk));
    r := Some(unique);
  }

  lemma NextSigner(signers: seq<Signer>, signer: Signer)
    ensures FirstAppearances(signers + [signer])
            == FirstAppearances(signers) + if Contains(FirstAppearances(signers), signer.pubkey) then [] else [signer]
  {
    assert (signers + [signer])[..|signers|] == signers;
    FirstAppearancesOk(signers);
  }

  predicate Contains(signers: seq<Signer>, pubkey: Pubkey)
    ensures Contains(signers, pubkey) <==> pubkey in Keys(signers)
  {
    assert pubkey in Keys(signers) ==> exists i :: 0 <= i < |signers| && signers[i].pubkey == pubkey;
    assert forall i :: 0 <= i < |signers| ==> Keys(signers)[i] == signers[i].pubkey;
    exists i :: 0 <= i < |signers| && signers[i].pubkey == pubkey
  }

  /** The default signer if some entry stands for it, then the named ones. */
  function Supplied(bulk: seq<Option<Signer>>, default: Option<Signer>): seq<Signer> {
    (if NeedsDefault(bulk) && default.Some? then [default.value] else []) + Named(bulk)
  }

  function UniqueSigners(bulk: seq<Option<Signer>>, default: Option<Signer>): seq<Signer> {
    FirstAppearances(Supplied(bulk, default))
  }

  /** `index_of`: the first position of a key, or 0 when none is asked for. */
  function IndexOf(signers: seq<Signer>, pubkey: Option<Pubkey>): (r: Option<nat>)
    ensures pubkey.None? ==> r == Some(0)
    ensures pubkey.Some? && r.Some? ==> r.value < |signers| && signers[r.value].pubkey == pubkey.value
    ensures pubkey.Some? && r.Some? ==> forall i :: 0 <= i < r.value ==> signers[i].pubkey != pubkey.value
    ensures pubkey.Some? ==> (r.Some? <==> pubkey.value in Keys(signers))
  {
    if pubkey.None? then Some(0) else Position(signers, pubkey.value, 0)
  }

  function Position(signers: seq<Signer>, pubkey: Pubkey, from: nat): (r: Option<nat>)
    requires from <= |signers|
    ensures r.Some? ==> from <= r.value < |signers| && signers[r.value].pubkey == pubkey
    ensures r.Some? ==> forall i :: from <= i < r.value ==> signers[i].pubkey != pubkey
    ensures r.None? ==> forall i :: from <= i < |signers| ==> signers[i].pubkey != pubkey
    decreases |signers| - from
  {
    if from == |signers| then None
    else if signers[from].pubkey == pubkey then Some(from)
    else Position(signers, pubkey, from + 1)
  }

  function PubkeyOf(signer: Option<Signer>): Option<Pubkey> {
    if signer.Some? then Some(signer.value.pubkey) else None
  }

  lemma {:induction false} NamedKeys(bulk: seq<Option<Signer>>, entry: Option<Signer>)
    requires entry in bulk && entry.Some?
    ensures entry.value in Named(bulk)
    decreases |bulk|
  {
    var n := |bulk| - 1;
    if bulk[n] != entry {
      assert bulk == bulk[..n] + [bulk[n]];
      NamedKeys(bulk[..n], entry);
    }
  }

  lemma {:induction false} NamedIsSupplied(bulk: seq<Option<Signer>>, signer: Signer)
    requires signer in Named(bulk)
    ensures Some(signer) in bulk
    decreases |bulk|
  {
    var n := |bulk| - 1;
    assert bulk == bulk[..n] + [bulk[n]];
    if bulk[n] != Some(signer) {
      NamedIsSupplied(bulk[..n], signer);
    }
  }

  /** Indexing is total and faithful: the list has distinct keys; every supplied entry's
      index is found and holds a signer with its key; and index 0, which stands for an
      unnamed signer, is the default whenever some entry was unnamed. */
  lemma IndexingFaithful(bulk: seq<Option<Signer>>, default: Option<Signer>, entry: Option<Signer>)
    requires entry in bulk && (NeedsDefault(bulk) ==> default.Some?)
    ensures var signers := UniqueSigners(bulk, default);
            && Distinct(Keys(signers))
            && IndexOf(signers, PubkeyOf(entry)).Some?
            && IndexOf(signers, PubkeyOf(entry)).value < |signers|
            && signers[IndexOf(signers, PubkeyOf(entry)).value].pubkey
               == (if entry.Some? then entry.value.pubkey else default.value.pubkey)
  {
    var all := Supplied(bulk, default);
    FirstAppearancesOk(all);
    if entry.Some? {
      NamedKeys(bulk, entry);
      assert entry.value in all;
      var i :| 0 <= i < |all| && all[i] == entry.value;
      assert Keys(all)[i] == entry.value.pubkey;
    }
  }

  /** The unwraps of the transfer command. Its list holds the fee payer and the sender, and
      the nonce authority only along with a nonce account, so looking up the authority can
      fail; it does not fail if and only if the authority is unnamed, a nonce account is
      given, or the authority's key is in the list for another reason. */
  lemma TransferIndicesIff(feePayer: Option<Signer>, from: Option<Signer>, authority: Option<Signer>,
                           hasNonce: bool, default: Option<Signer>)
    requires var bulk := if hasNonce then [feePayer, from, authority] else [feePayer, from];
             NeedsDefault(bulk) ==> default.Some?
    ensures var bulk := if hasNonce then [feePayer, from, authority] else [feePayer, from];
            var signers := UniqueSigners(bulk, default);
            && IndexOf(signers, PubkeyOf(feePayer)).Some? && IndexOf(signers, PubkeyOf(from)).Some?
            && (IndexOf(signers, PubkeyOf(authority)).Some? <==>
                  || authority.None? || hasNonce
                  || PubkeyOf(authority) == PubkeyOf(feePayer) || PubkeyOf(authority) == PubkeyOf(from)
                  || (NeedsDefault(bulk) && PubkeyOf(authority) == PubkeyOf(default)))
  {
    var bulk := if hasNonce then [feePayer, from, authority] else [feePayer, from];
    var signers := UniqueSigners(bulk, default);
    assert bulk[0] == feePayer && bulk[1] == from && (hasNonce ==> bulk[2] == authority);
    IndexingFaithful(bulk, default, feePayer);
    IndexingFaithful(bulk, default, from);
    if hasNonce {
      IndexingFaithful(bulk, default, authority);
    } else if authority.Some? {
      var all := Supplied(bulk, default);
      FirstAppearancesOk(all);
      if authority.value.pubkey in Keys(signers) {
        var i :| 0 <= i < |all| && Keys(all)[i] == authority.value.pubkey;
        if all[i] in Named(bulk) {
          NamedIsSupplied(bulk, all[i]);
        }
      } else if NeedsDefault(bulk) {
        assert all[0] == default.value && Keys(all)[0] == default.value.pubkey;
      }
    }
  }
}

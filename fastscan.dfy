/** The fast seed scanner (modules/wallet/fastscan.go): the address gap
    limit of BIP 44. Its key window ends (exclusively) at the highest index
    seen in use plus addressGapLimit, and grows as usage appears. */
module FastScan {
  import opened Consensus
  import opened KeyRing
  import opened Ledger
  import opened Collect

  /** Go's uint64 subtraction a - b, which wraps around below zero. */
  function Sub64(a: nat, b: nat): (r: nat) {
    (a - b) % U64
  }

  /** The fields of a seedScanner that scanning changes. */
  datatype FastState = FastState(
    keys: KeyMap,
    keysArray: seq<Address>,
    minimumIndex: nat,
    maximumInternalIndex: nat,
    maximumExternalIndex: nat,
    siacoinOutputs: Outputs)

  /** The key window: keys and keysArray in lock-step over the indices
      [minimumIndex, maximumInternalIndex). */
  ghost predicate WindowValid(st: FastState, derive: Derivation) {
    && Ring(st.keys, st.keysArray, st.minimumIndex, derive)
    && st.maximumInternalIndex == st.minimumIndex + |st.keysArray|
  }

  /** The gap limit holds: the window ends (exclusively) at the highest index
      seen in use plus addressGapLimit, so addressGapLimit - 1 derived keys
      lie beyond that index. */
  predicate GapRestored(st: FastState, limit: nat) {
    st.maximumInternalIndex == st.maximumExternalIndex + limit
  }

  /** generateKeys(n) (fastscan.go:74-83): derive n keys from index
      numKeys() + minimumIndex on. */
  function GrowWindow(st: FastState, derive: Derivation, n: nat): (r: FastState) {
    var start := |st.keys| + st.minimumIndex;
    st.(keys := Extend(st.keys, derive, start, n),
        keysArray := st.keysArray + Window(derive, start, n),
        maximumInternalIndex := st.maximumInternalIndex + n)
  }

  /** ProcessHeaderConsensusChange (fastscan.go:97-167): collect the diffs,
      update the ledger, raise maximumExternalIndex, then restore the gap. */
  function ProcessChange(st: FastState, derive: Derivation, limit: Uint64, dust: nat,
                         hcc: HeaderConsensusChange, fetch: Fetcher, matcher: FilterMatcher): (r: FastState)
  {
    var diffs := CollectDiffs(hcc, st.keysArray, fetch, matcher);
    var maxExternal := MaxTracked(st.keys, st.maximumExternalIndex, diffs);
    var updated := st.(siacoinOutputs := ApplyDiffs(st.keys, dust, st.siacoinOutputs, diffs),
                       maximumExternalIndex := maxExternal);
    var gap := Sub64(st.maximumInternalIndex, maxExternal);
    if gap > 0 then GrowWindow(updated, derive, Sub64(limit, gap)) else updated
  }

  /** The changes a subscription delivers, processed one after another. */
  function ProcessChanges(st: FastState, derive: Derivation, limit: Uint64, dust: nat,
                          changes: seq<HeaderConsensusChange>, fetch: Fetcher, matcher: FilterMatcher): (r: FastState)
    decreases |changes|
  {
    if changes == [] then st
    else ProcessChanges(ProcessChange(st, derive, limit, dust, changes[0], fetch, matcher),
                        derive, limit, dust, changes[1..], fetch, matcher)
  }

  /** generateKeys(n) keeps the key window valid: it appends to keysArray
      the n addresses derived from index maximumInternalIndex on, in order,
      and raises maximumInternalIndex by exactly n. */
  lemma GrowWindowKeepsWindow(st: FastState, derive: Derivation, n: nat)
    requires Injective(derive) && WindowValid(st, derive)
    ensures var r := GrowWindow(st, derive, n);
      && WindowValid(r, derive)
      && r.minimumIndex == st.minimumIndex
      && r.maximumInternalIndex == st.maximumInternalIndex + n
      && r.keysArray == st.keysArray + Window(derive, st.maximumInternalIndex, n)
  {
    var start := |st.keys| + st.minimumIndex;
    var keys, keysArray := Extend(st.keys, derive, start, n), st.keysArray + Window(derive, start, n);
    ExtendKeepsRing(st.keys, st.keysArray, st.minimumIndex, derive, start, n);
    assert Ring(keys, keysArray, st.minimumIndex, derive);
    var r := GrowWindow(st, derive, n);
    assert r.keys == keys && r.keysArray == keysArray && r.minimumIndex == st.minimumIndex;
    assert start == st.maximumInternalIndex;
  }

  /** generateKeys(n) adds exactly n keys, mapping each new index i to the
      address derived from i, and keeps every earlier key with its index. */
  lemma GrowWindowAddsKeys(st: FastState, derive: Derivation, n: nat)
    requires Injective(derive) && WindowValid(st, derive)
    ensures var r := GrowWindow(st, derive, n);
      && |r.keys| == |st.keys| + n
      && (forall i :: st.maximumInternalIndex <= i < st.maximumInternalIndex + n
            ==> derive(i) in r.keys && r.keys[derive(i)] == i)
      && (forall a :: a in st.keys ==> a in r.keys && r.keys[a] == st.keys[a])
  {
    var r := GrowWindow(st, derive, n);
    GrowWindowKeepsWindow(st, derive, n);
    RingIndices(r.keys, r.keysArray, r.minimumIndex, derive);
  }

  /** A batch keeps the key window valid and leaves minimumIndex alone. */
  lemma ProcessChangeKeepsWindow(st: FastState, derive: Derivation, limit: Uint64, dust: nat,
                                 hcc: HeaderConsensusChange, fetch: Fetcher, matcher: FilterMatcher)
    requires Injective(derive) && WindowValid(st, derive)
    ensures var r := ProcessChange(st, derive, limit, dust, hcc, fetch, matcher);
      WindowValid(r, derive) && r.minimumIndex == st.minimumIndex
  {
    var diffs := CollectDiffs(hcc, st.keysArray, fetch, matcher);
    var maxExternal := MaxTracked(st.keys, st.maximumExternalIndex, diffs);
    var updated := st.(siacoinOutputs := ApplyDiffs(st.keys, dust, st.siacoinOutputs, diffs),
                       maximumExternalIndex := maxExternal);
    GrowWindowKeepsWindow(updated, derive, Sub64(limit, Sub64(st.maximumInternalIndex, maxExternal)));
  }

  /** After a batch, maximumExternalIndex is the largest of its old value and
      the seed indices of all tracked addresses in the collected diffs
      (matured, applied and reverted alike); it never decreases. */
  lemma ProcessChangeRaisesExternal(st: FastState, derive: Derivation, limit: Uint64, dust: nat,
                                    hcc: HeaderConsensusChange, fetch: Fetcher, matcher: FilterMatcher)
    ensures var r := ProcessChange(st, derive, limit, dust, hcc, fetch, matcher);
      var diffs := CollectDiffs(hcc, st.keysArray, fetch, matcher);
      && st.maximumExternalIndex <= r.maximumExternalIndex
      && (forall d :: d in diffs && d.unlockHash in st.keys ==> st.keys[d.unlockHash] <= r.maximumExternalIndex)
      && (r.maximumExternalIndex == st.maximumExternalIndex
          || exists d :: d in diffs && d.unlockHash in st.keys && r.maximumExternalIndex == st.keys[d.unlockHash])
  {
    var diffs := CollectDiffs(hcc, st.keysArray, fetch, matcher);
    var m := MaxTracked(st.keys, st.maximumExternalIndex, diffs);
    MaxTrackedBounds(st.keys, st.maximumExternalIndex, diffs);
    forall d | d in diffs && d.unlockHash in st.keys
      ensures st.keys[d.unlockHash] <= m
    {
      var j :| 0 <= j < |diffs| && diffs[j] == d;
    }
    if m != st.maximumExternalIndex {
      var j :| 0 <= j < |diffs| && diffs[j].unlockHash in st.keys && m == st.keys[diffs[j].unlockHash];
      assert diffs[j] in diffs;
    }
  }

  /** What the gap limit looks ahead: with the window valid and the gap
      restored, the indices strictly between the highest used index and
      that index plus addressGapLimit are tracked (addressGapLimit - 1 of
      them), and the index addressGapLimit past the used one is not. */
  lemma GapLookahead(st: FastState, derive: Derivation, limit: nat)
    requires Injective(derive) && WindowValid(st, derive) && GapRestored(st, limit)
    requires st.minimumIndex <= st.maximumExternalIndex
    ensures forall i :: st.maximumExternalIndex < i < st.maximumExternalIndex + limit ==> derive(i) in st.keys
    ensures derive(st.maximumExternalIndex + limit) !in st.keys
  {
    RingIndices(st.keys, st.keysArray, st.minimumIndex, derive);
    var a := derive(st.maximumExternalIndex + limit);
    if a in st.keys {
      assert Collide(derive, st.keys[a], st.maximumExternalIndex + limit);
    }
  }

  /** Gap restoration (fastscan.go:162-166): when, after the usage update,
      0 < maximumInternalIndex - maximumExternalIndex <= addressGapLimit, the
      batch ends with maximumInternalIndex = maximumExternalIndex +
      addressGapLimit. */
  lemma ProcessChangeRestoresGap(st: FastState, derive: Derivation, limit: Uint64, dust: nat,
                                 hcc: HeaderConsensusChange, fetch: Fetcher, matcher: FilterMatcher)
    requires var m := MaxTracked(st.keys, st.maximumExternalIndex, CollectDiffs(hcc, st.keysArray, fetch, matcher));
      0 < st.maximumInternalIndex - m <= limit
    ensures GapRestored(ProcessChange(st, derive, limit, dust, hcc, fetch, matcher), limit)
  {
    var m := MaxTracked(st.keys, st.maximumExternalIndex, CollectDiffs(hcc, st.keysArray, fetch, matcher));
    assert Sub64(st.maximumInternalIndex, m) == st.maximumInternalIndex - m;
    assert Sub64(limit, st.maximumInternalIndex - m) == limit - (st.maximumInternalIndex - m);
  }

  /** Once the gap limit holds, every batch keeps it, and neither uint64
      subtraction at fastscan.go:162 and 164 wraps around: the usage update
      never lifts maximumExternalIndex past maximumInternalIndex, and the gap
      it leaves is at most addressGapLimit. */
  lemma ProcessChangeKeepsGap(st: FastState, derive: Derivation, limit: Uint64, dust: nat,
                              hcc: HeaderConsensusChange, fetch: Fetcher, matcher: FilterMatcher)
    requires Injective(derive) && WindowValid(st, derive) && GapRestored(st, limit)
    ensures var r := ProcessChange(st, derive, limit, dust, hcc, fetch, matcher);
      && st.maximumExternalIndex <= r.maximumExternalIndex <= st.maximumInternalIndex
      && st.maximumInternalIndex - r.maximumExternalIndex <= limit
      && GapRestored(r, limit)
  {
    var diffs := CollectDiffs(hcc, st.keysArray, fetch, matcher);
    var m := MaxTracked(st.keys, st.maximumExternalIndex, diffs);
    MaxTrackedBounds(st.keys, st.maximumExternalIndex, diffs);
    if m != st.maximumExternalIndex {
      var j :| 0 <= j < |diffs| && diffs[j].unlockHash in st.keys && m == st.keys[diffs[j].unlockHash];
      assert m < st.maximumInternalIndex;
    }
    if st.maximumInternalIndex - m > 0 {
      ProcessChangeRestoresGap(st, derive, limit, dust, hcc, fetch, matcher);
    } else {
      assert Sub64(st.maximumInternalIndex, m) == 0;
    }
  }

  /** Over a whole subscription the gap limit, the key window and
      minimumIndex are kept, and maximumExternalIndex never decreases. */
  lemma {:induction false} ProcessChangesKeepsGap(st: FastState, derive: Derivation, limit: Uint64, dust: nat,
                                                  changes: seq<HeaderConsensusChange>, fetch: Fetcher, matcher: FilterMatcher)
    requires Injective(derive) && WindowValid(st, derive) && GapRestored(st, limit)
    ensures var r := ProcessChanges(st, derive, limit, dust, changes, fetch, matcher);
      && WindowValid(r, derive) && GapRestored(r, limit)
      && r.minimumIndex == st.minimumIndex
      && st.maximumExternalIndex <= r.maximumExternalIndex
    decreases |changes|
  {
    if changes != [] {
      var next := ProcessChange(st, derive, limit, dust, changes[0], fetch, matcher);
      ProcessChangeKeepsWindow(st, derive, limit, dust, changes[0], fetch, matcher);
      ProcessChangeKeepsGap(st, derive, limit, dust, changes[0], fetch, matcher);
      ProcessChangesKeepsGap(next, derive, limit, dust, changes[1..], fetch, matcher);
    }
  }

  /** Over a whole subscription the key window stays valid and
      minimumIndex stays put. */
  lemma {:induction false} ProcessChangesKeepWindow(st: FastState, derive: Derivation, limit: Uint64, dust: nat,
                                                    changes: seq<HeaderConsensusChange>, fetch: Fetcher, matcher: FilterMatcher)
    requires Injective(derive) && WindowValid(st, derive)
    ensures var r := ProcessChanges(st, derive, limit, dust, changes, fetch, matcher);
      WindowValid(r, derive) && r.minimumIndex == st.minimumIndex
    decreases |changes|
  {
    if changes != [] {
      ProcessChangeKeepsWindow(st, derive, limit, dust, changes[0], fetch, matcher);
      ProcessChangesKeepWindow(ProcessChange(st, derive, limit, dust, changes[0], fetch, matcher),
                               derive, limit, dust, changes[1..], fetch, matcher);
    }
  }

  /** Every ledger entry a batch records carries a tracked seed index: with
      entries in [minimumIndex, maximumInternalIndex) before, they stay in
      the (grown) range after. */
  lemma ProcessChangeKeepsIndices(st: FastState, derive: Derivation, limit: Uint64, dust: nat,
                                  hcc: HeaderConsensusChange, fetch: Fetcher, matcher: FilterMatcher)
    requires Injective(derive) && WindowValid(st, derive)
    requires IndicesWithin(st.siacoinOutputs, st.minimumIndex, st.maximumInternalIndex)
    ensures var r := ProcessChange(st, derive, limit, dust, hcc, fetch, matcher);
      IndicesWithin(r.siacoinOutputs, r.minimumIndex, r.maximumInternalIndex)
  {
    var diffs := CollectDiffs(hcc, st.keysArray, fetch, matcher);
    forall a | a in st.keys
      ensures st.minimumIndex <= st.keys[a] < st.maximumInternalIndex
    {
      RingTracks(st.keys, st.keysArray, st.minimumIndex, derive, a);
    }
    ApplyDiffsKeepsIndicesWithin(st.keys, dust, st.siacoinOutputs, diffs, st.minimumIndex, st.maximumInternalIndex);
  }

  /** The state a fast scanner starts from when it resumes at index e with a
      given ledger (slowscan.go:196-199). */
  function Resumed(e: nat, outputs: Outputs): (r: FastState) {
    FastState(map[], [], e, e, e, outputs)
  }

  /** The warm-up of a fast scanner that resumes at index e (slowscan.go:200
      with fastscan.go:74-83): afterwards it tracks exactly the indices
      e .. e+addressGapLimit-1, maximumInternalIndex is e + addressGapLimit,
      and the gap limit holds. */
  lemma ResumedWarmUp(derive: Derivation, e: nat, outputs: Outputs, limit: Uint64)
    requires Injective(derive)
    ensures var r := GrowWindow(Resumed(e, outputs), derive, limit);
      && WindowValid(r, derive)
      && r.maximumInternalIndex == e + limit
      && GapRestored(r, limit)
      && r.siacoinOutputs == outputs
      && (forall i :: e <= i < e + limit ==> derive(i) in r.keys && r.keys[derive(i)] == i)
      && (forall a :: a in r.keys ==> e <= r.keys[a] < e + limit)
  {
    var empty: KeyMap := map[];
    var none: seq<Address> := [];
    WindowFromEmpty(derive, e, limit);
    assert |empty| + e == e;
    assert none + Window(derive, e, limit) == Window(derive, e, limit);
  }

  /** The batch of the scenario below, after the warm-up of a scanner at 0
      with gap limit 20: the one collected diff is usage of index 5 and
      records the output at seed index 5. */
  lemma ScenarioApplyBatch(derive: Derivation, fetch: Fetcher, matcher: FilterMatcher,
                           h: ProcessedBlockHeader, o: OutputId, id: ConsensusChangeId)
    requires Injective(derive)
    requires fetch(h.id, DiffApply) == [OutputDiff(DiffApply, o, 100, derive(5))]
    requires matcher(h.filter, h.id, Window(derive, 0, 20))
    ensures var st := GrowWindow(Resumed(0, map[]), derive, 20);
      var diffs := CollectDiffs(HeaderConsensusChange(id, [], [h], []), st.keysArray, fetch, matcher);
      && WindowValid(st, derive) && st.keysArray == Window(derive, 0, 20)
      && st.maximumInternalIndex == 20 && st.maximumExternalIndex == 0 && st.minimumIndex == 0
      && MaxTracked(st.keys, 0, diffs) == 5
      && ApplyDiffs(st.keys, 0, map[], diffs) == map[o := ScannedOutput(o, 100, 5)]
  {
    var st := GrowWindow(Resumed(0, map[]), derive, 20);
    ResumedWarmUp(derive, 0, map[], 20);
    assert st.keysArray == Window(derive, 0, 20);
    assert derive(5) in st.keys && st.keys[derive(5)] == 5;
    var d := OutputDiff(DiffApply, o, 100, derive(5));
    FetchedOne(h, DiffApply, st.keysArray, fetch, matcher);
    var diffs := CollectDiffs(HeaderConsensusChange(id, [], [h], []), st.keysArray, fetch, matcher);
    assert diffs == [d];
    assert ApplyDiffs(st.keys, 0, map[], [d]) == ApplyDiff(st.keys, 0, map[], d);
  }

  /** Gap limit 20, dust threshold 0, starting from index 0: one applied
      block pays 100 to the address at index 5. The ledger then holds exactly
      that output, at seed index 5; maximumExternalIndex is 5 and the window
      has grown to maximumInternalIndex 25. */
  lemma ScenarioApply(derive: Derivation, fetch: Fetcher, matcher: FilterMatcher,
                      h: ProcessedBlockHeader, o: OutputId, id: ConsensusChangeId)
    requires Injective(derive)
    requires fetch(h.id, DiffApply) == [OutputDiff(DiffApply, o, 100, derive(5))]
    requires matcher(h.filter, h.id, Window(derive, 0, 20))
    ensures var a := ProcessChange(GrowWindow(Resumed(0, map[]), derive, 20), derive, 20, 0,
                                   HeaderConsensusChange(id, [], [h], []), fetch, matcher);
      && a.siacoinOutputs == map[o := ScannedOutput(o, 100, 5)]
      && a.maximumExternalIndex == 5 && a.maximumInternalIndex == 25
      && WindowValid(a, derive) && a.minimumIndex == 0 && a.keysArray == Window(derive, 0, 25)
  {
    var st := GrowWindow(Resumed(0, map[]), derive, 20);
    ScenarioApplyBatch(derive, fetch, matcher, h, o, id);
    var updated := st.(siacoinOutputs := map[o := ScannedOutput(o, 100, 5)], maximumExternalIndex := 5);
    assert Sub64(20, 5) == 15 && Sub64(20, 15) == 5;
    assert ProcessChange(st, derive, 20, 0, HeaderConsensusChange(id, [], [h], []), fetch, matcher)
        == GrowWindow(updated, derive, 5);
    GrowWindowKeepsWindow(updated, derive, 5);
    WindowConcat(derive, 0, 20, 5);
  }

  /** Continuing that scenario: when the block is reverted, the ledger is
      empty again, while maximumExternalIndex stays 5 (a revert is usage
      too) and the window stays at 25. */
  lemma ScenarioRevert(derive: Derivation, fetch: Fetcher, matcher: FilterMatcher,
                       h: ProcessedBlockHeader, o: OutputId, id: ConsensusChangeId, st: FastState)
    requires Injective(derive) && WindowValid(st, derive)
    requires st.minimumIndex == 0 && st.keysArray == Window(derive, 0, 25)
    requires st.maximumExternalIndex == 5 && st.siacoinOutputs == map[o := ScannedOutput(o, 100, 5)]
    requires fetch(h.id, DiffRevert) == [OutputDiff(DiffRevert, o, 100, derive(5))]
    requires matcher(h.filter, h.id, Window(derive, 0, 25))
    ensures var b := ProcessChange(st, derive, 20, 0, HeaderConsensusChange(id, [h], [], []), fetch, matcher);
      && b.siacoinOutputs == map[]
      && b.maximumExternalIndex == 5 && b.maximumInternalIndex == 25
  {
    RingIndices(st.keys, st.keysArray, st.minimumIndex, derive);
    assert st.keys[derive(5)] == 5;
    var hcc := HeaderConsensusChange(id, [h], [], []);
    var d := OutputDiff(DiffRevert, o, 100, derive(5));
    FetchedOne(h, DiffRevert, st.keysArray, fetch, matcher);
    var diffs := CollectDiffs(hcc, st.keysArray, fetch, matcher);
    assert diffs == [d];
    assert MaxTracked(st.keys, 5, diffs) == 5;
    assert ApplyDiffs(st.keys, 0, st.siacoinOutputs, diffs) == map[];
    assert Sub64(25, 5) == 20 && Sub64(20, 20) == 0;
  }

  /** seedScanner. The seed is folded into `derive`; the consensus set and
      the logger are parameters of the operations that use them. */
  class SeedScanner {
    var dustThreshold: nat
    var keys: KeyMap
    var keysArray: seq<Address>
    var minimumIndex: nat
    var maximumInternalIndex: nat
    var maximumExternalIndex: nat
    const derive: Derivation
    const addressGapLimit: Uint64
    var siacoinOutputs: OutputLedger

    ghost function State(): (r: FastState)
      reads this, siacoinOutputs
    {
      FastState(keys, keysArray, minimumIndex, maximumInternalIndex, maximumExternalIndex, siacoinOutputs.outputs)
    }

    ghost predicate Valid()
      reads this, siacoinOutputs
    {
      Injective(derive) && WindowValid(State(), derive)
    }

    /** newFastSeedScanner (fastscan.go:190-201). */
    constructor (derive: Derivation, addressGapLimit: Uint64)
      requires Injective(derive)
      ensures Valid() && fresh(siacoinOutputs)
      ensures this.derive == derive && this.addressGapLimit == addressGapLimit && dustThreshold == 0
      ensures State() == Resumed(0, map[])
    {
      this.derive := derive;
      this.addressGapLimit := addressGapLimit;
      dustThreshold := 0;
      minimumIndex := 0;
      maximumInternalIndex := 0;
      maximumExternalIndex := 0;
      keys := map[];
      keysArray := [];
      siacoinOutputs := new OutputLedger();
    }

    function NumKeys(): (r: nat)
      reads this
    {
      |keys|
    }

    /** setDustThreshold (fastscan.go:61-63). The ledger is left alone: a
        higher threshold does not remove outputs already recorded. */
    method SetDustThreshold(d: nat)
      modifies this`dustThreshold
      ensures dustThreshold == d
      ensures siacoinOutputs == old(siacoinOutputs) && siacoinOutputs.outputs == old(siacoinOutputs.outputs)
    {
      dustThreshold := d;
    }

    /** generateKeys (fastscan.go:74-83). */
    method GenerateKeys(n: nat)
      modifies this
      ensures siacoinOutputs == old(siacoinOutputs) && dustThreshold == old(dustThreshold)
      ensures State() == GrowWindow(old(State()), derive, n)
      ensures old(Valid()) ==> Valid()
    {
      var initialProgress := NumKeys();
      var start := initialProgress + minimumIndex;
      for i := 0 to n
        invariant keys == Extend(old(keys), derive, start, i)
        invariant keysArray == old(keysArray) + Window(derive, start, i)
        modifies this`keys, this`keysArray
      {
        var u := derive(start + i);
        keys := keys[u := start + i];
        keysArray := keysArray + [u];
        WindowSnoc(derive, start, i);
        ExtendSnoc(old(keys), derive, start, i);
      }
      maximumInternalIndex := maximumInternalIndex + n;
      if old(Valid()) {
        GrowWindowKeepsWindow(old(State()), derive, n);
      }
    }

    /** The usage loop of ProcessHeaderConsensusChange (fastscan.go:153-161):
        raise maximumExternalIndex to the highest tracked index among the
        diffs. */
    method RaiseMaximumExternalIndex(siacoinOutputDiffs: seq<OutputDiff>)
      modifies this`maximumExternalIndex
      ensures maximumExternalIndex == MaxTracked(keys, old(maximumExternalIndex), siacoinOutputDiffs)
    {
      for i := 0 to |siacoinOutputDiffs|
        invariant maximumExternalIndex == MaxTracked(keys, old(maximumExternalIndex), siacoinOutputDiffs[..i])
      {
        var diff := siacoinOutputDiffs[i];
        if diff.unlockHash in keys {
          var index := keys[diff.unlockHash];
          if index > maximumExternalIndex {
            maximumExternalIndex := index;
          }
        }
        MaxTrackedStep(keys, old(maximumExternalIndex), siacoinOutputDiffs, i);
      }
      assert siacoinOutputDiffs[..|siacoinOutputDiffs|] == siacoinOutputDiffs;
    }

    /** ProcessHeaderConsensusChange (fastscan.go:97-167). */
    method ProcessHeaderConsensusChange(hcc: HeaderConsensusChange, fetch: Fetcher, matcher: FilterMatcher)
      modifies this, siacoinOutputs
      ensures siacoinOutputs == old(siacoinOutputs) && dustThreshold == old(dustThreshold)
      ensures State() == ProcessChange(old(State()), derive, addressGapLimit, dustThreshold, hcc, fetch, matcher)
      ensures old(Valid()) ==> Valid()
    {
      var siacoinOutputDiffs: seq<OutputDiff> := [];

      // matured outputs
      siacoinOutputDiffs := siacoinOutputDiffs + hcc.maturedSiacoinOutputDiffs;

      // applied outputs from full blocks whose filter matches
      var appliedDiffs := FetchMatching(hcc.appliedBlockHeaders, DiffApply, keysArray, fetch, matcher);
      siacoinOutputDiffs := siacoinOutputDiffs + appliedDiffs;

      // reverted outputs from full blocks whose filter matches
      var revertedDiffs := FetchMatching(hcc.revertedBlockHeaders, DiffRevert, keysArray, fetch, matcher);
      siacoinOutputDiffs := siacoinOutputDiffs + revertedDiffs;
      assert siacoinOutputDiffs == CollectDiffs(hcc, keysArray, fetch, matcher);

      // apply the aggregated output diffs
      siacoinOutputs.ProcessDiffs(keys, dustThreshold, siacoinOutputDiffs);

      // usage signal
      RaiseMaximumExternalIndex(siacoinOutputDiffs);
      ghost var st0 := old(State());
      ghost var maxExternal := MaxTracked(st0.keys, st0.maximumExternalIndex, CollectDiffs(hcc, st0.keysArray, fetch, matcher));
      assert State() == st0.(siacoinOutputs := ApplyDiffs(st0.keys, dustThreshold, st0.siacoinOutputs, siacoinOutputDiffs),
                             maximumExternalIndex := maxExternal);

      // restore the gap
      var gap := Sub64(maximumInternalIndex, maximumExternalIndex);
      if gap > 0 {
        var toGrow := Sub64(addressGapLimit, gap);
        GenerateKeys(toGrow);
      }
      if old(Valid()) {
        ProcessChangeKeepsWindow(old(State()), derive, addressGapLimit, dustThreshold, hcc, fetch, matcher);
      }
    }

    /** HeaderConsensusSetSubscribe delivering to this scanner: each change
        the subscription delivers is processed in order, then its error is
        returned. */
    method Subscribe(cs: ConsensusSet, start: ConsensusChangeId, cancel: CancelSignal, matcher: FilterMatcher)
      returns (err: SubscribeResult)
      modifies this, siacoinOutputs
      ensures siacoinOutputs == old(siacoinOutputs) && dustThreshold == old(dustThreshold)
      ensures var sub := cs.subscribe(start, cancel);
        && err == sub.result
        && State() == ProcessChanges(old(State()), derive, addressGapLimit, dustThreshold, sub.changes, cs.fetch, matcher)
      ensures old(Valid()) ==> Valid()
    {
      var sub := cs.subscribe(start, cancel);
      var changes := sub.changes;
      for i := 0 to |changes|
        invariant siacoinOutputs == old(siacoinOutputs) && dustThreshold == old(dustThreshold)
        invariant ProcessChanges(old(State()), derive, addressGapLimit, dustThreshold, changes, cs.fetch, matcher)
               == ProcessChanges(State(), derive, addressGapLimit, dustThreshold, changes[i..], cs.fetch, matcher)
      {
        ProcessHeaderConsensusChange(changes[i], cs.fetch, matcher);
        assert changes[i..][1..] == changes[i + 1..];
      }
      err := sub.result;
      if old(Valid()) {
        ProcessChangesKeepWindow(old(State()), derive, addressGapLimit, dustThreshold, changes, cs.fetch, matcher);
      }
    }

    /** scan (fastscan.go:172-187): generate addressGapLimit keys, then
        subscribe from the beginning of the chain and return the
        subscription's error unchanged. A scanner that starts with no gap
        (as a fresh one, or one resumed at an index, does) ends with the gap
        limit restored. */
    method Scan(cs: ConsensusSet, matcher: FilterMatcher, cancel: CancelSignal) returns (err: SubscribeResult)
      requires Valid()
      modifies this, siacoinOutputs
      ensures Valid()
      ensures siacoinOutputs == old(siacoinOutputs) && dustThreshold == old(dustThreshold)
      ensures var sub := cs.subscribe(ConsensusChangeBeginning, cancel);
        && err == sub.result
        && State() == ProcessChanges(GrowWindow(old(State()), derive, addressGapLimit),
                                     derive, addressGapLimit, dustThreshold, sub.changes, cs.fetch, matcher)
      ensures old(maximumInternalIndex) == old(maximumExternalIndex) ==> GapRestored(State(), addressGapLimit)
    {
      ghost var st0 := State();
      var numKeys := addressGapLimit;
      GenerateKeys(numKeys);
      ghost var warm := State();
      GrowWindowKeepsWindow(st0, derive, numKeys);
      err := Subscribe(cs, ConsensusChangeBeginning, cancel, matcher);
      ghost var changes := cs.subscribe(ConsensusChangeBeginning, cancel).changes;
      ProcessChangesKeepWindow(warm, derive, addressGapLimit, dustThreshold, changes, cs.fetch, matcher);
      if st0.maximumInternalIndex == st0.maximumExternalIndex {
        ProcessChangesKeepsGap(warm, derive, addressGapLimit, dustThreshold, changes, cs.fetch, matcher);
      }
    }
  }
}

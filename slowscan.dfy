/** The legacy seed scanner (modules/wallet/slowscan.go). It derives one large
    batch of keys from index 0, scans the airdrop era (block heights up to 7)
    from the beginning of the chain, stops itself at the first later block,
    and hands the rest of the chain to an embedded fast scanner that resumes
    at the highest index it saw in use. */
module SlowScan {
  import opened Consensus
  import opened KeyRing
  import opened Ledger
  import opened Collect
  import opened FastScan

  /** isAirdrop (slowscan.go:82-84). */
  predicate IsAirdrop(height: nat) {
    height <= 7
  }

  /** The position of the first applied header past the airdrop era, or the
      number of headers when there is none. */
  function AirdropPrefix(headers: seq<ProcessedBlockHeader>): (k: nat)
    ensures k <= |headers|
    ensures forall j :: 0 <= j < k ==> IsAirdrop(headers[j].height)
    ensures k < |headers| ==> !IsAirdrop(headers[k].height)
    decreases |headers|
  {
    if headers == [] then 0
    else if !IsAirdrop(headers[0].height) then 0
    else 1 + AirdropPrefix(headers[1..])
  }

  /** The fields of a slowSeedScanner that scanning changes. */
  datatype LegacyState = LegacyState(
    keys: KeyMap,
    keysArray: seq<Address>,
    maximumExternalIndex: nat,
    siacoinOutputs: Outputs,
    lastConsensusChange: ConsensusChangeId)

  /** A processed batch, and whether the scanner closed its own cancel
      signal while processing it. */
  datatype LegacyOutcome = LegacyOutcome(state: LegacyState, stopped: bool)

  /** generateKeys(n) (slowscan.go:73-80): derive n keys from index numKeys()
      on; there is no index offset and no internal-index counter. */
  function LegacyGenerate(st: LegacyState, derive: Derivation, n: nat): (r: LegacyState) {
    st.(keys := Extend(st.keys, derive, |st.keys|, n),
        keysArray := st.keysArray + Window(derive, |st.keys|, n))
  }

  /** ProcessHeaderConsensusChange (slowscan.go:110-172). Usage is raised by
      the fetched block diffs only. At the first applied header past the
      airdrop era the batch stops: the ledger and lastConsensusChange stay as
      they were, but the usage raised by the earlier matching headers of the
      batch is kept. */
  function ProcessLegacyChange(st: LegacyState, dust: nat, hcc: HeaderConsensusChange,
                               fetch: Fetcher, matcher: FilterMatcher): (r: LegacyOutcome)
  {
    var applied := hcc.appliedBlockHeaders;
    var k := AirdropPrefix(applied);
    var appliedDiffs := Fetched(applied[..k], DiffApply, st.keysArray, fetch, matcher);
    if k < |applied| then
      LegacyOutcome(st.(maximumExternalIndex := MaxTracked(st.keys, st.maximumExternalIndex, appliedDiffs)), true)
    else
      var revertedDiffs := Fetched(hcc.revertedBlockHeaders, DiffRevert, st.keysArray, fetch, matcher);
      LegacyOutcome(
        st.(maximumExternalIndex := MaxTracked(st.keys, st.maximumExternalIndex, appliedDiffs + revertedDiffs),
            siacoinOutputs := ApplyDiffs(st.keys, dust, st.siacoinOutputs, CollectDiffs(hcc, st.keysArray, fetch, matcher)),
            lastConsensusChange := hcc.id),
        false)
  }

  /** The changes the legacy subscription delivers, processed in order until
      a batch stops the scanner; no change is delivered after that. */
  function ProcessLegacyChanges(st: LegacyState, dust: nat, changes: seq<HeaderConsensusChange>,
                                fetch: Fetcher, matcher: FilterMatcher): (r: LegacyOutcome)
    decreases |changes|
  {
    if changes == [] then LegacyOutcome(st, false)
    else
      var o := ProcessLegacyChange(st, dust, changes[0], fetch, matcher);
      if o.stopped then o else ProcessLegacyChanges(o.state, dust, changes[1..], fetch, matcher)
  }

  /** generateKeys(n) keeps the lock-step invariant from index 0: it appends
      the n addresses derived from numKeys() on, maps the i-th of them to
      numKeys() + i, and keeps every earlier key. */
  lemma LegacyGenerateKeepsRing(st: LegacyState, derive: Derivation, n: nat)
    requires Injective(derive) && Ring(st.keys, st.keysArray, 0, derive)
    ensures var r := LegacyGenerate(st, derive, n);
      && Ring(r.keys, r.keysArray, 0, derive)
      && r.keysArray == st.keysArray + Window(derive, |st.keys|, n)
      && |r.keys| == |st.keys| + n
      && (forall i :: |st.keys| <= i < |st.keys| + n ==> derive(i) in r.keys && r.keys[derive(i)] == i)
      && (forall a :: a in st.keys ==> a in r.keys && r.keys[a] == st.keys[a])
  {
    var r := LegacyGenerate(st, derive, n);
    ExtendKeepsRing(st.keys, st.keysArray, 0, derive, |st.keys|, n);
    RingIndices(r.keys, r.keysArray, 0, derive);
    forall a | a in st.keys
      ensures a in r.keys && r.keys[a] == st.keys[a]
    {
      RingTracks(st.keys, st.keysArray, 0, derive, a);
    }
  }

  /** The cutoff (slowscan.go:118-122): a batch stops the scanner exactly
      when one of its applied headers lies past the airdrop era, that is,
      above height 7. */
  lemma LegacyCutoff(st: LegacyState, dust: nat, hcc: HeaderConsensusChange, fetch: Fetcher, matcher: FilterMatcher)
    ensures ProcessLegacyChange(st, dust, hcc, fetch, matcher).stopped
        <==> exists j :: 0 <= j < |hcc.appliedBlockHeaders| && hcc.appliedBlockHeaders[j].height > 7
  {
    var k := AirdropPrefix(hcc.appliedBlockHeaders);
    if k < |hcc.appliedBlockHeaders| {
      assert hcc.appliedBlockHeaders[k].height > 7;
    }
  }

  /** A batch that stops the scanner leaves the ledger, the keys and
      lastConsensusChange unchanged; maximumExternalIndex holds only the usage
      of the matching applied headers before the first one past the airdrop
      era. */
  lemma LegacyStoppedBatch(st: LegacyState, dust: nat, hcc: HeaderConsensusChange, fetch: Fetcher, matcher: FilterMatcher)
    requires ProcessLegacyChange(st, dust, hcc, fetch, matcher).stopped
    ensures var r := ProcessLegacyChange(st, dust, hcc, fetch, matcher).state;
      && r.siacoinOutputs == st.siacoinOutputs
      && r.lastConsensusChange == st.lastConsensusChange
      && r.keys == st.keys && r.keysArray == st.keysArray
      && exists k :: 0 <= k < |hcc.appliedBlockHeaders|
           && hcc.appliedBlockHeaders[k].height > 7
           && (forall j :: 0 <= j < k ==> hcc.appliedBlockHeaders[j].height <= 7)
           && r.maximumExternalIndex
              == MaxTracked(st.keys, st.maximumExternalIndex,
                            Fetched(hcc.appliedBlockHeaders[..k], DiffApply, st.keysArray, fetch, matcher))
  {
    var k := AirdropPrefix(hcc.appliedBlockHeaders);
    assert hcc.appliedBlockHeaders[k].height > 7;
  }

  /** A batch that completes applies the same ledger rule as the fast
      scanner to the same collected diffs (matured, applied, reverted), and
      records its ID in lastConsensusChange. */
  lemma LegacyCompletedBatch(st: LegacyState, dust: nat, hcc: HeaderConsensusChange, fetch: Fetcher, matcher: FilterMatcher)
    requires !ProcessLegacyChange(st, dust, hcc, fetch, matcher).stopped
    ensures var r := ProcessLegacyChange(st, dust, hcc, fetch, matcher).state;
      && (forall j :: 0 <= j < |hcc.appliedBlockHeaders| ==> hcc.appliedBlockHeaders[j].height <= 7)
      && r.siacoinOutputs == ApplyDiffs(st.keys, dust, st.siacoinOutputs, CollectDiffs(hcc, st.keysArray, fetch, matcher))
      && r.lastConsensusChange == hcc.id
      && r.keys == st.keys && r.keysArray == st.keysArray
  {
  }

  /** The usage signal of a completed batch (slowscan.go:86-96, 131, 145):
      maximumExternalIndex never decreases, bounds the index of every tracked
      address in a fetched block diff, and is its old value or one of those
      indices; a matured diff never raises it. */
  lemma LegacyUsage(st: LegacyState, dust: nat, hcc: HeaderConsensusChange, fetch: Fetcher, matcher: FilterMatcher)
    requires !ProcessLegacyChange(st, dust, hcc, fetch, matcher).stopped
    ensures var r := ProcessLegacyChange(st, dust, hcc, fetch, matcher).state;
      var fetched := Fetched(hcc.appliedBlockHeaders, DiffApply, st.keysArray, fetch, matcher)
                     + Fetched(hcc.revertedBlockHeaders, DiffRevert, st.keysArray, fetch, matcher);
      && st.maximumExternalIndex <= r.maximumExternalIndex
      && (forall d :: d in fetched && d.unlockHash in st.keys ==> st.keys[d.unlockHash] <= r.maximumExternalIndex)
      && (r.maximumExternalIndex == st.maximumExternalIndex
          || exists d :: d in fetched && d.unlockHash in st.keys && r.maximumExternalIndex == st.keys[d.unlockHash])
  {
    var applied := hcc.appliedBlockHeaders;
    assert applied[..|applied|] == applied;
    var fetched := Fetched(applied, DiffApply, st.keysArray, fetch, matcher)
                   + Fetched(hcc.revertedBlockHeaders, DiffRevert, st.keysArray, fetch, matcher);
    MaxTrackedBounds(st.keys, st.maximumExternalIndex, fetched);
    var m := MaxTracked(st.keys, st.maximumExternalIndex, fetched);
    forall d | d in fetched && d.unlockHash in st.keys
      ensures st.keys[d.unlockHash] <= m
    {
      var j :| 0 <= j < |fetched| && fetched[j] == d;
    }
    if m != st.maximumExternalIndex {
      var j :| 0 <= j < |fetched| && fetched[j].unlockHash in st.keys && m == st.keys[fetched[j].unlockHash];
      assert fetched[j] in fetched;
    }
  }

  /** Matured diffs are no usage signal: a batch that only matures outputs
      updates the ledger but leaves maximumExternalIndex where it was, even
      when a matured output pays a tracked address beyond it. */
  lemma LegacyMaturedNotUsage(st: LegacyState, dust: nat, hcc: HeaderConsensusChange, fetch: Fetcher, matcher: FilterMatcher)
    requires hcc.appliedBlockHeaders == [] && hcc.revertedBlockHeaders == []
    ensures var o := ProcessLegacyChange(st, dust, hcc, fetch, matcher);
      && !o.stopped
      && o.state.maximumExternalIndex == st.maximumExternalIndex
      && o.state.siacoinOutputs == ApplyDiffs(st.keys, dust, st.siacoinOutputs, hcc.maturedSiacoinOutputDiffs)
  {
    var empty: seq<ProcessedBlockHeader> := [];
    assert hcc.appliedBlockHeaders[..0] == empty;
    assert CollectDiffs(hcc, st.keysArray, fetch, matcher) == hcc.maturedSiacoinOutputDiffs;
    var nothing: seq<OutputDiff> := [];
    assert Fetched(empty, DiffApply, st.keysArray, fetch, matcher) + Fetched(empty, DiffRevert, st.keysArray, fetch, matcher) == nothing;
  }

  /** Over a whole legacy subscription the keys stay as generated,
      maximumExternalIndex never decreases, and the bookmark is the starting
      one or the ID of a delivered change. */
  lemma {:induction false} LegacyRunMonotone(st: LegacyState, dust: nat, changes: seq<HeaderConsensusChange>,
                                             fetch: Fetcher, matcher: FilterMatcher)
    ensures var r := ProcessLegacyChanges(st, dust, changes, fetch, matcher).state;
      && r.keys == st.keys && r.keysArray == st.keysArray
      && st.maximumExternalIndex <= r.maximumExternalIndex
      && (r.lastConsensusChange == st.lastConsensusChange
          || exists j :: 0 <= j < |changes| && r.lastConsensusChange == changes[j].id)
    decreases |changes|
  {
    if changes != [] {
      var o := ProcessLegacyChange(st, dust, changes[0], fetch, matcher);
      var diffs := Fetched(changes[0].appliedBlockHeaders[..AirdropPrefix(changes[0].appliedBlockHeaders)],
                           DiffApply, st.keysArray, fetch, matcher);
      MaxTrackedBounds(st.keys, st.maximumExternalIndex, diffs);
      MaxTrackedBounds(st.keys, st.maximumExternalIndex,
                       diffs + Fetched(changes[0].revertedBlockHeaders, DiffRevert, st.keysArray, fetch, matcher));
      if !o.stopped {
        LegacyRunMonotone(o.state, dust, changes[1..], fetch, matcher);
        var r := ProcessLegacyChanges(o.state, dust, changes[1..], fetch, matcher).state;
        if r.lastConsensusChange != o.state.lastConsensusChange {
          var j :| 0 <= j < |changes[1..]| && r.lastConsensusChange == changes[1..][j].id;
          assert r.lastConsensusChange == changes[j + 1].id;
        }
      }
    }
  }

  /** A batch whose only applied block is at height 8 stops the scanner
      before fetching anything: nothing about the scanner changes. */
  lemma ScenarioCutoff(st: LegacyState, dust: nat, id: ConsensusChangeId, h: ProcessedBlockHeader,
                       reverted: seq<ProcessedBlockHeader>, matured: seq<OutputDiff>, fetch: Fetcher, matcher: FilterMatcher)
    requires h.height == 8
    ensures ProcessLegacyChange(st, dust, HeaderConsensusChange(id, reverted, [h], matured), fetch, matcher)
         == LegacyOutcome(st, true)
  {
    assert AirdropPrefix([h]) == 0;
    assert [h][..0] == [];
  }

  /** The handoff of scan (slowscan.go:195-210): the embedded scanner,
      resumed at E with addressGapLimit fresh keys, keeps its window anchored
      at E and, whatever the fast phase delivers, ends with its window
      closing at the highest used index plus addressGapLimit. */
  lemma HandoffKeepsGap(derive: Derivation, e: nat, outputs: Outputs, limit: Uint64,
                        changes: seq<HeaderConsensusChange>, fetch: Fetcher, matcher: FilterMatcher)
    requires Injective(derive)
    ensures var f := ProcessChanges(GrowWindow(Resumed(e, outputs), derive, limit), derive, limit, 0, changes, fetch, matcher);
      && WindowValid(f, derive) && GapRestored(f, limit)
      && f.minimumIndex == e && e <= f.maximumExternalIndex
  {
    ResumedWarmUp(derive, e, outputs, limit);
    ProcessChangesKeepsGap(GrowWindow(Resumed(e, outputs), derive, limit), derive, limit, 0, changes, fetch, matcher);
  }

  /** slowSeedScanner. The seed is folded into `derive`; the consensus set and
      the logger are parameters of the operations that use them. */
  class SlowSeedScanner {
    var dustThreshold: nat
    var keys: KeyMap
    var keysArray: seq<Address>
    var maximumExternalIndex: nat
    const derive: Derivation
    const addressGapLimit: Uint64
    var siacoinOutputs: OutputLedger
    var gapScanner: SeedScanner?
    var lastConsensusChange: ConsensusChangeId

    ghost function State(): (r: LegacyState)
      reads this, siacoinOutputs
    {
      LegacyState(keys, keysArray, maximumExternalIndex, siacoinOutputs.outputs, lastConsensusChange)
    }

    ghost predicate Valid()
      reads this
    {
      Injective(derive) && Ring(keys, keysArray, 0, derive)
    }

    /** newSlowSeedScanner (slowscan.go:218-229). */
    constructor (derive: Derivation, addressGapLimit: Uint64)
      requires Injective(derive)
      ensures Valid() && fresh(siacoinOutputs) && gapScanner == null
      ensures this.derive == derive && this.addressGapLimit == addressGapLimit && dustThreshold == 0
      ensures State() == LegacyState(map[], [], 0, map[], ConsensusChangeBeginning)
    {
      this.derive := derive;
      this.addressGapLimit := addressGapLimit;
      dustThreshold := 0;
      maximumExternalIndex := 0;
      keys := map[];
      keysArray := [];
      siacoinOutputs := new OutputLedger();
      gapScanner := null;
      lastConsensusChange := ConsensusChangeBeginning;
    }

    /** getMaximumInternalIndex (slowscan.go:55-57): only meaningful once scan
        has created the embedded scanner. */
    function MaximumInternalIndex(): (r: nat)
      requires gapScanner != null
      reads this, gapScanner
    {
      gapScanner.maximumInternalIndex
    }

    function NumKeys(): (r: nat)
      reads this
    {
      |keys|
    }

    /** setDustThreshold (slowscan.go:59-62): sets the threshold here and on
        the embedded scanner, which must exist already. */
    method SetDustThreshold(d: nat)
      requires gapScanner != null
      modifies this`dustThreshold, gapScanner`dustThreshold
      ensures dustThreshold == d && gapScanner.dustThreshold == d
      ensures siacoinOutputs == old(siacoinOutputs) && siacoinOutputs.outputs == old(siacoinOutputs.outputs)
    {
      dustThreshold := d;
      gapScanner.dustThreshold := d;
    }

    /** generateKeys (slowscan.go:73-80). */
    method GenerateKeys(n: nat)
      modifies this`keys, this`keysArray
      ensures State() == LegacyGenerate(old(State()), derive, n)
      ensures old(Valid()) ==> Valid()
    {
      var initialProgress := NumKeys();
      for i := 0 to n
        invariant keys == Extend(old(keys), derive, initialProgress, i)
        invariant keysArray == old(keysArray) + Window(derive, initialProgress, i)
      {
        var u := derive(initialProgress + i);
        keys := keys[u := initialProgress + i];
        keysArray := keysArray + [u];
        WindowSnoc(derive, initialProgress, i);
        ExtendSnoc(old(keys), derive, initialProgress, i);
      }
      if old(Valid()) {
        LegacyGenerateKeepsRing(old(State()), derive, n);
      }
    }

    /** adjustMinimumIndex (slowscan.go:86-96). */
    method AdjustMinimumIndex(siacoinOutputDiffs: seq<OutputDiff>)
      modifies this`maximumExternalIndex
      ensures maximumExternalIndex == MaxTracked(keys, old(maximumExternalIndex), siacoinOutputDiffs)
    {
      for i := 0 to |siacoinOutputDiffs|
        invariant maximumExternalIndex == MaxTracked(keys, old(maximumExternalIndex), siacoinOutputDiffs[..i])
      {
        var diff := siacoinOutputDiffs[i];
        if diff.unlockHash in keys {
          var index := keys[diff.unlockHash];
          if index > maximumExternalIndex {
            maximumExternalIndex := index;
          }
        }
        MaxTrackedStep(keys, old(maximumExternalIndex), siacoinOutputDiffs, i);
      }
      assert siacoinOutputDiffs[..|siacoinOutputDiffs|] == siacoinOutputDiffs;
    }

    /** The loop over reverted headers of ProcessHeaderConsensusChange
        (slowscan.go:137-148): fetch the DiffRevert diffs of each header whose
        filter matches, count them as usage, and collect them in order. */
    method FetchRevertedAndAdjust(reverted: seq<ProcessedBlockHeader>, fetch: Fetcher, matcher: FilterMatcher)
      returns (diffs: seq<OutputDiff>)
      modifies this`maximumExternalIndex
      ensures diffs == Fetched(reverted, DiffRevert, keysArray, fetch, matcher)
      ensures maximumExternalIndex == MaxTracked(keys, old(maximumExternalIndex), diffs)
    {
      diffs := [];
      for i := 0 to |reverted|
        invariant diffs == Fetched(reverted[..i], DiffRevert, keysArray, fetch, matcher)
        invariant maximumExternalIndex == MaxTracked(keys, old(maximumExternalIndex), diffs)
      {
        var pbh := reverted[i];
        var blockSiacoinOutputDiffs: seq<OutputDiff> := [];
        if matcher(pbh.filter, pbh.id, keysArray) {
          blockSiacoinOutputDiffs := fetch(pbh.id, DiffRevert);
          AdjustMinimumIndex(blockSiacoinOutputDiffs);
        }
        MaxTrackedAppend(keys, old(maximumExternalIndex), diffs, blockSiacoinOutputDiffs);
        diffs := diffs + blockSiacoinOutputDiffs;
        FetchedStep(reverted, i, DiffRevert, keysArray, fetch, matcher);
      }
      assert reverted[..|reverted|] == reverted;
    }

    /** ProcessHeaderConsensusChange (slowscan.go:110-172). Closing the
        scanner's own cancel signal is the returned `stopped`. */
    method ProcessHeaderConsensusChange(hcc: HeaderConsensusChange, fetch: Fetcher, matcher: FilterMatcher)
      returns (stopped: bool)
      modifies this`maximumExternalIndex, this`lastConsensusChange, siacoinOutputs
      ensures LegacyOutcome(State(), stopped) == ProcessLegacyChange(old(State()), dustThreshold, hcc, fetch, matcher)
    {
      var siacoinOutputDiffs: seq<OutputDiff> := [];

      // matured outputs
      siacoinOutputDiffs := siacoinOutputDiffs + hcc.maturedSiacoinOutputDiffs;

      // applied outputs from full blocks, up to the end of the airdrop era
      var applied := hcc.appliedBlockHeaders;
      for i := 0 to |applied|
        invariant forall j :: 0 <= j < i ==> IsAirdrop(applied[j].height)
        invariant siacoinOutputDiffs
               == hcc.maturedSiacoinOutputDiffs + Fetched(applied[..i], DiffApply, keysArray, fetch, matcher)
        invariant maximumExternalIndex
               == MaxTracked(keys, old(maximumExternalIndex), Fetched(applied[..i], DiffApply, keysArray, fetch, matcher))
        modifies this`maximumExternalIndex
      {
        var pbh := applied[i];
        if !IsAirdrop(pbh.height) {
          // the scanner closes its own cancel signal
          stopped := true;
          assert AirdropPrefix(applied) == i;
          return;
        }
        var blockSiacoinOutputDiffs: seq<OutputDiff> := [];
        if matcher(pbh.filter, pbh.id, keysArray) {
          blockSiacoinOutputDiffs := fetch(pbh.id, DiffApply);
          AdjustMinimumIndex(blockSiacoinOutputDiffs);
          siacoinOutputDiffs := siacoinOutputDiffs + blockSiacoinOutputDiffs;
        }
        ghost var before := Fetched(applied[..i], DiffApply, keysArray, fetch, matcher);
        assert hcc.maturedSiacoinOutputDiffs + before + blockSiacoinOutputDiffs
            == hcc.maturedSiacoinOutputDiffs + (before + blockSiacoinOutputDiffs);
        FetchedStep(applied, i, DiffApply, keysArray, fetch, matcher);
        MaxTrackedAppend(keys, old(maximumExternalIndex),
                         Fetched(applied[..i], DiffApply, keysArray, fetch, matcher), blockSiacoinOutputDiffs);
      }
      assert applied[..|applied|] == applied;
      ghost var appliedDiffs := Fetched(applied, DiffApply, keysArray, fetch, matcher);

      // reverted outputs from full blocks
      var revertedDiffs := FetchRevertedAndAdjust(hcc.revertedBlockHeaders, fetch, matcher);
      siacoinOutputDiffs := siacoinOutputDiffs + revertedDiffs;
      MaxTrackedAppend(keys, old(maximumExternalIndex), appliedDiffs, revertedDiffs);
      assert siacoinOutputDiffs == CollectDiffs(hcc, keysArray, fetch, matcher);

      // apply the aggregated output diffs
      siacoinOutputs.ProcessDiffs(keys, dustThreshold, siacoinOutputDiffs);

      lastConsensusChange := hcc.id;
      stopped := false;
    }

    /** HeaderConsensusSetSubscribe delivering to the legacy scanner with its
        own cancel signal: changes are processed in order until one stops the
        scanner, and the subscription then returns ErrStopped. */
    method Subscribe(cs: ConsensusSet, start: ConsensusChangeId, matcher: FilterMatcher)
      returns (err: SubscribeResult)
      modifies this`maximumExternalIndex, this`lastConsensusChange, siacoinOutputs
      ensures var sub := cs.subscribe(start, ScannerCancel);
        var o := ProcessLegacyChanges(old(State()), dustThreshold, sub.changes, cs.fetch, matcher);
        && State() == o.state
        && err == if o.stopped then ErrStopped else sub.result
    {
      var sub := cs.subscribe(start, ScannerCancel);
      var changes := sub.changes;
      var stopped := false;
      var i := 0;
      while i < |changes| && !stopped
        invariant 0 <= i <= |changes|
        invariant ProcessLegacyChanges(old(State()), dustThreshold, changes, cs.fetch, matcher)
               == if stopped then LegacyOutcome(State(), true)
                  else ProcessLegacyChanges(State(), dustThreshold, changes[i..], cs.fetch, matcher)
        decreases |changes| - i
      {
        assert changes[i..][1..] == changes[i + 1..];
        stopped := ProcessHeaderConsensusChange(changes[i], cs.fetch, matcher);
        i := i + 1;
      }
      err := if stopped then ErrStopped else sub.result;
    }

    /** The second phase of scan (slowscan.go:195-213): the embedded scanner
        resumes at E, the legacy maximumExternalIndex, with the legacy ledger
        object itself, derives addressGapLimit keys and subscribes from the
        legacy bookmark with the caller's cancel signal. On success
        maximumExternalIndex becomes the embedded scanner's. */
    method ResumeGapScan(cs: ConsensusSet, matcher: FilterMatcher, cancel: CancelSignal)
      returns (err: SubscribeResult)
      requires gapScanner != null && gapScanner.derive == derive && gapScanner.addressGapLimit == addressGapLimit
      requires gapScanner.keys == map[] && gapScanner.keysArray == [] && gapScanner.dustThreshold == 0
      modifies this`maximumExternalIndex, gapScanner, siacoinOutputs
      ensures gapScanner.siacoinOutputs == siacoinOutputs
      ensures var e := old(maximumExternalIndex);
        var fast := cs.subscribe(lastConsensusChange, cancel);
        var f := ProcessChanges(GrowWindow(Resumed(e, old(siacoinOutputs.outputs)), derive, addressGapLimit),
                                derive, addressGapLimit, 0, fast.changes, cs.fetch, matcher);
        && err == fast.result
        && gapScanner.State() == f
        && State() == old(State()).(maximumExternalIndex := if err == Ok then f.maximumExternalIndex else e,
                                    siacoinOutputs := f.siacoinOutputs)
    {
      var gs := gapScanner;
      gs.minimumIndex := maximumExternalIndex;
      gs.maximumInternalIndex := maximumExternalIndex;
      gs.maximumExternalIndex := maximumExternalIndex;
      gs.siacoinOutputs := siacoinOutputs;
      gs.GenerateKeys(addressGapLimit);

      err := gs.Subscribe(cs, lastConsensusChange, cancel, matcher);
      if err != Ok {
        return;
      }
      // HeaderUnsubscribe has no effect on the scanner's state

      maximumExternalIndex := gs.maximumExternalIndex;
    }

    /** scan (slowscan.go:177-215). The legacy phase scans from the beginning
        of the chain with the scanner's own cancel signal. Unless it ends with
        ErrStopped, its result is returned as is and there is no fast phase;
        otherwise the embedded scanner takes over as in ResumeGapScan. */
    method Scan(cs: ConsensusSet, matcher: FilterMatcher, numInitialKeys: nat, cancel: CancelSignal)
      returns (err: SubscribeResult)
      requires Valid()
      modifies this, siacoinOutputs
      ensures Valid()
      ensures gapScanner != null && fresh(gapScanner)
      ensures keys == Extend(old(keys), derive, old(|keys|), numInitialKeys)
      ensures dustThreshold == old(dustThreshold) && siacoinOutputs == old(siacoinOutputs)
      ensures var legacy := cs.subscribe(ConsensusChangeBeginning, ScannerCancel);
        var o := ProcessLegacyChanges(LegacyGenerate(old(State()), derive, numInitialKeys),
                                      dustThreshold, legacy.changes, cs.fetch, matcher);
        var legacyErr := if o.stopped then ErrStopped else legacy.result;
        if legacyErr != ErrStopped then
          && err == legacyErr && State() == o.state
          && gapScanner.State() == Resumed(0, map[]) && gapScanner.dustThreshold == 0
        else
          var e := o.state.maximumExternalIndex;
          var fast := cs.subscribe(o.state.lastConsensusChange, cancel);
          var f := ProcessChanges(GrowWindow(Resumed(e, o.state.siacoinOutputs), derive, addressGapLimit),
                                  derive, addressGapLimit, 0, fast.changes, cs.fetch, matcher);
          && err == fast.result
          && gapScanner.siacoinOutputs == siacoinOutputs
          && gapScanner.State() == f
          && State() == o.state.(maximumExternalIndex := if err == Ok then f.maximumExternalIndex else e,
                                 siacoinOutputs := f.siacoinOutputs)
    {
      gapScanner := new SeedScanner(derive, addressGapLimit);

      GenerateKeys(numInitialKeys);
      // the legacy phase observes a fresh cancel signal of the scanner's own
      err := Subscribe(cs, ConsensusChangeBeginning, matcher);
      if err != ErrStopped {
        return;
      }
      // HeaderUnsubscribe has no effect on the scanner's state

      err := ResumeGapScan(cs, matcher, cancel);
    }
  }
}

# Seed-recovery scanning engine of the Hyperspace wallet, in Dafny

This project models the two seed scanners of `modules/wallet`. It proves what
they do to their state.

- **`seedScanner`** (`fastscan.go`) is the fast scanner. It follows the
  address gap limit of BIP 44. It derives a window of `addressGapLimit` keys
  from the wallet seed and subscribes to header-level consensus changes.
  For each change it:
  - collects the matured output diffs;
  - collects the full diffs of every applied or reverted block whose filter
    matches its address list;
  - applies or reverts those diffs against its ledger of scanned outputs;
  - raises `maximumExternalIndex` to the highest seed index seen in use;
  - grows the key window until it ends (exclusively) at that index plus
    `addressGapLimit`, so `addressGapLimit` − 1 keys lie beyond it.
- **`slowSeedScanner`** (`slowscan.go`) is the legacy scanner.
  - It derives one large batch of keys from index 0.
  - It scans the airdrop era (heights up to 7) from the beginning of the
    chain, using the same ledger rule.
  - It counts usage only from fetched block diffs.
  - At the first applied block above height 7 it stops its own
    subscription.
  - It then hands the rest of the chain to an embedded fast scanner, which
    resumes at the legacy phase's `maximumExternalIndex` (call it E). The
    embedded scanner uses the legacy ledger and starts from the legacy
    bookmark.

## Layout

- **Key derivation.** It is foreign cryptography, so a scanner holds it as
  a function `derive: nat -> Address`, assumed injective.
- **Filter and fetch.** The GCS filter test and `getSiacoinOutputDiff` are
  opaque function parameters.
- **Subscription.** A blocking `HeaderConsensusSetSubscribe` is a
  `ConsensusSet` value. For a start cursor and a cancel signal it gives the
  changes delivered, in order, and the error returned.
- **Modules:**
  - `Consensus` (`consensus.dfy`): the consensus-set values.
  - `KeyRing` (`keyring.dfy`): the `keys` / `keysArray` lock-step.
  - `Ledger` (`ledger.dfy`): the shared apply/revert rule and the usage
    maximum.
  - `Collect` (`collect.dfy`): diff collection and the filter.
  - `FastScan` (`fastscan.dfy`): the `SeedScanner` class.
  - `SlowScan` (`slowscan.dfy`): the `SlowSeedScanner` class.
- **How the classes are proved.** Each class method updates its fields in
  place. It is proved equal to a pure step function: `GrowWindow`,
  `ProcessChange` and `ProcessChanges` for the fast scanner;
  `LegacyGenerate`, `ProcessLegacyChange` and `ProcessLegacyChanges` for
  the legacy one. The invariants are lemmas about those functions.
- **The ledger.** The ledger map is an `OutputLedger` object, because the
  code shares the map between the legacy scanner and its embedded scanner.
  `slowscan.go:199` assigns the map itself, so the embedded scanner's
  updates are the legacy scanner's.

## Model

| member | source | states |
|---|---|---|
| KeyRing.RingTracks | modules/wallet/fastscan.go:74-83 | under the lock-step invariant, an address is in `keys` exactly when it is in `keysArray`, and its index is in [base, base + \|keysArray\|) at the matching position |
| KeyRing.RingIndices | modules/wallet/fastscan.go:74-83 | under the lock-step invariant, every index of the window maps back from its derived address to itself |
| KeyRing.RingPush | modules/wallet/fastscan.go:77-79 | with an injective derivation, inserting the next derived address adds a new key and keeps the lock-step invariant |
| KeyRing.ExtendKeepsRing | modules/wallet/fastscan.go:74-83 | deriving n more keys keeps `keys` and `keysArray` in lock-step; the new addresses are appended to `keysArray` in index order |
| KeyRing.WindowFromEmpty | modules/wallet/fastscan.go:74-83 | derivation round trip: from an empty ring at index b, after n keys each address derived from i in b..b+n-1 maps back to i, and no other index is tracked |
| Ledger.ApplyDiffs | modules/wallet/fastscan.go:133-151 | the ledger after a batch of diffs, taken in order: an Apply for a tracked address above the dust threshold records the output with the address's seed index, a Revert for a tracked address deletes it, and any other diff leaves the ledger alone; its properties are the lemmas below |
| Ledger.ApplyDiffsPointwise | modules/wallet/fastscan.go:133-151 | per output ID, the last diff that acts on it decides the entry: an Apply for a tracked, above-dust output records value and seed index, a Revert for a tracked address deletes it; an output no diff acts on keeps its old entry |
| Ledger.ApplyDiffsIdempotent | modules/wallet/fastscan.go:134-150 | applying the same batch twice gives the same ledger as applying it once |
| Ledger.UntrackedDiffsIgnored | modules/wallet/fastscan.go:133-151 | diffs for addresses outside `keys` never change the ledger |
| Ledger.EntriesHaveProvenance | modules/wallet/fastscan.go:135-141 | every entry after a batch is an old, unchanged entry, or was recorded by an Apply diff of the batch for a tracked address above the dust threshold, with that address's seed index |
| Ledger.ApplyDiffsKeepsIndicesWithin | modules/wallet/fastscan.go:135-141 | when every tracked index is in [lo, hi), every ledger entry's seed index stays in [lo, hi) and is filed under its own ID |
| Ledger.ApplyThenRevertRestores | modules/wallet/fastscan.go:133-151 | applying a batch of new outputs and then its revert batch (same diffs, reverse order, DiffRevert) restores the ledger exactly |
| Ledger.RevertDropsEarlierEntry | modules/wallet/fastscan.go:137-148 | the round trip above needs fresh output IDs: re-applying a recorded output and reverting it leaves no entry |
| Ledger.MaxTracked | modules/wallet/fastscan.go:153-161 | the usage signal: the largest of a start value and the seed indices of the tracked addresses that a batch of diffs touches, in either direction (the same loop is adjustMinimumIndex, slowscan.go:86-96); MaxTrackedBounds states its meaning |
| Ledger.MaxTrackedBounds | modules/wallet/fastscan.go:153-161 | the usage maximum is at least its start value, bounds the index of every tracked address in the diffs, and equals the start value or one of those indices |
| Ledger.MaxTrackedAppend | modules/wallet/slowscan.go:131-146 | raising the maximum block by block equals raising it over the concatenated diffs |
| Ledger.OutputLedger.constructor | modules/wallet/fastscan.go:198 | a new ledger is empty |
| Ledger.OutputLedger.ProcessDiffs | modules/wallet/fastscan.go:133-151 | the in-place apply/revert loop leaves the ledger equal to the batch applied to the old ledger |
| Collect.Fetched | modules/wallet/fastscan.go:105-130 | the full diffs, in one direction, of the headers whose filter matches `keysArray`, concatenated in header order |
| Collect.CollectDiffs | modules/wallet/fastscan.go:100-130 | the diffs of one change in processing order: matured diffs, then the DiffApply diffs of matching applied headers, then the DiffRevert diffs of matching reverted headers |
| Collect.FetchMatching | modules/wallet/fastscan.go:105-130 | the collecting loop returns the full diffs, in the given direction, of exactly the headers whose filter matches `keysArray`, in header order |
| Collect.FetchedMembership | modules/wallet/fastscan.go:105-130 | a diff is collected if and only if it belongs to the full diffs of some header whose filter matches |
| Collect.FilterSafety | modules/wallet/fastscan.go:100-130 | with a filter that has no false negatives, every matured diff and every block diff for a tracked address reaches the ledger update |
| FastScan.GrowWindow | modules/wallet/fastscan.go:74-83 | the state after generateKeys(n): the n addresses derived from index numKeys() + minimumIndex on are inserted into `keys` with their indices and appended to `keysArray`, and maximumInternalIndex rises by n; nothing else changes |
| FastScan.ProcessChange | modules/wallet/fastscan.go:97-167 | the state after one change: the collected diffs are applied to the ledger, maximumExternalIndex becomes the usage maximum over them, and when the uint64 gap maximumInternalIndex − maximumExternalIndex is non-zero the window grows by addressGapLimit − gap (uint64) |
| FastScan.ProcessChanges | modules/wallet/fastscan.go:175 | the state after the changes a subscription delivers, each processed in turn |
| FastScan.GrowWindowKeepsWindow | modules/wallet/fastscan.go:74-83 | generateKeys(n) keeps the window valid (lock-step over [minimumIndex, maximumInternalIndex)), appends the n addresses derived from maximumInternalIndex on, and raises maximumInternalIndex by exactly n |
| FastScan.GrowWindowAddsKeys | modules/wallet/fastscan.go:74-83 | generateKeys(n) adds exactly n keys, maps each new index `numKeys() + minimumIndex + i` to the address derived from it, and keeps every earlier key |
| FastScan.ProcessChangeKeepsWindow | modules/wallet/fastscan.go:97-167 | a batch keeps the key window valid and leaves minimumIndex alone |
| FastScan.ProcessChangeRaisesExternal | modules/wallet/fastscan.go:153-161 | maximumExternalIndex never decreases; after a batch it is the largest of its old value and the indices of the tracked addresses in all collected diffs (matured, applied and reverted) |
| FastScan.ProcessChangeRestoresGap | modules/wallet/fastscan.go:162-166 | when 0 < maximumInternalIndex − maximumExternalIndex ≤ addressGapLimit after the usage update, the batch ends with maximumInternalIndex = maximumExternalIndex + addressGapLimit, the exclusive end of the window |
| FastScan.GapLookahead | modules/wallet/fastscan.go:157-165 | with a valid window and the gap restored, the addressGapLimit − 1 indices strictly after the highest used index are tracked and the index addressGapLimit past it is not |
| FastScan.ProcessChangeKeepsGap | modules/wallet/fastscan.go:153-166 | once the gap limit holds, a batch keeps it, and neither uint64 subtraction at lines 162 and 164 wraps around |
| FastScan.ProcessChangesKeepsGap | modules/wallet/fastscan.go:172-178 | over a whole subscription the gap limit, the window and minimumIndex are kept, and maximumExternalIndex never decreases |
| FastScan.ProcessChangesKeepWindow | modules/wallet/fastscan.go:172-178 | over a whole subscription the key window stays valid and minimumIndex stays put |
| FastScan.ProcessChangeKeepsIndices | modules/wallet/fastscan.go:133-151 | every ledger entry's seed index stays a tracked index in [minimumIndex, maximumInternalIndex) |
| FastScan.ResumedWarmUp | modules/wallet/slowscan.go:196-200 | a scanner resumed at E tracks exactly E..E+addressGapLimit−1 after its warm-up, with maximumInternalIndex E + addressGapLimit and the gap limit holding |
| FastScan.ScenarioApply | modules/wallet/fastscan.go:97-167 | limit 20, dust 0, one applied block paying 100 to index 5: the ledger holds exactly that output at seed index 5, maximumExternalIndex is 5, maximumInternalIndex is 25 |
| FastScan.ScenarioRevert | modules/wallet/fastscan.go:143-166 | reverting that block empties the ledger; maximumExternalIndex stays 5 and maximumInternalIndex 25 |
| FastScan.SeedScanner.constructor | modules/wallet/fastscan.go:190-201 | a new scanner has a valid, empty window at index 0, dust threshold 0 and a fresh empty ledger |
| FastScan.SeedScanner.SetDustThreshold | modules/wallet/fastscan.go:61-63 | sets the threshold and leaves the ledger as it is (non-retroactive) |
| FastScan.SeedScanner.GenerateKeys | modules/wallet/fastscan.go:74-83 | the derive-and-insert loop leaves the scanner in the state GrowWindow gives, and keeps the key window valid |
| FastScan.SeedScanner.RaiseMaximumExternalIndex | modules/wallet/fastscan.go:153-161 | the usage loop sets maximumExternalIndex to the usage maximum over the diffs |
| FastScan.SeedScanner.ProcessHeaderConsensusChange | modules/wallet/fastscan.go:97-167 | collect, apply, raise usage and regrow the window, in place, ending in the state ProcessChange gives with the key window still valid |
| FastScan.SeedScanner.Subscribe | modules/wallet/fastscan.go:175-177 | processes each delivered change in order, keeps the key window valid, and returns the subscription's error unchanged |
| FastScan.SeedScanner.Scan | modules/wallet/fastscan.go:172-187 | derives addressGapLimit keys before subscribing from the beginning, returns the subscription error unchanged, keeps the window valid and, starting with no gap, ends with the gap limit restored |
| SlowScan.IsAirdrop | modules/wallet/slowscan.go:82-84 | a block height lies in the airdrop era exactly when it is at most 7 |
| SlowScan.AirdropPrefix | modules/wallet/slowscan.go:118-122 | the number of leading applied headers in the airdrop era (height ≤ 7); the next header, if any, is past it |
| SlowScan.LegacyGenerate | modules/wallet/slowscan.go:73-80 | the state after generateKeys(n): the n addresses derived from index numKeys() on (no offset) are inserted into `keys` with their indices and appended to `keysArray`; there is no internal-index counter |
| SlowScan.ProcessLegacyChange | modules/wallet/slowscan.go:110-172 | the state and stop flag after one change: at the first applied header above height 7 the change stops, keeping only the usage raised by the earlier matching applied headers; otherwise usage is raised over the fetched block diffs, the collected diffs are applied to the ledger and the change's ID becomes the bookmark |
| SlowScan.ProcessLegacyChanges | modules/wallet/slowscan.go:189 | the changes a legacy subscription delivers, processed in turn until one stops the scanner |
| SlowScan.LegacyGenerateKeepsRing | modules/wallet/slowscan.go:73-80 | generateKeys(n) maps the i-th new address to numKeys() + i (no offset), appends it to keysArray in lock-step, and keeps every earlier key |
| SlowScan.LegacyCutoff | modules/wallet/slowscan.go:118-122 | a batch stops the scanner if and only if one of its applied headers is above height 7 |
| SlowScan.LegacyStoppedBatch | modules/wallet/slowscan.go:118-134 | a stopping batch leaves the ledger, keys and lastConsensusChange unchanged, but keeps the usage raised by matching headers before the cutoff header |
| SlowScan.LegacyCompletedBatch | modules/wallet/slowscan.go:150-171 | a completed batch applies the shared ledger rule to matured, applied and reverted diffs and records lastConsensusChange = hcc.ID |
| SlowScan.LegacyUsage | modules/wallet/slowscan.go:86-147 | in a completed batch maximumExternalIndex never decreases and is the maximum over the fetched block diffs only |
| SlowScan.LegacyMaturedNotUsage | modules/wallet/slowscan.go:114-115 | a batch with only matured diffs updates the ledger but never raises maximumExternalIndex |
| SlowScan.LegacyRunMonotone | modules/wallet/slowscan.go:189 | over a legacy subscription the keys are untouched, maximumExternalIndex never decreases, and the bookmark is the starting one or the ID of a delivered change |
| SlowScan.ScenarioCutoff | modules/wallet/slowscan.go:118-122 | a batch whose only applied block is at height 8 stops the scanner before fetching anything, with its state unchanged |
| SlowScan.HandoffKeepsGap | modules/wallet/slowscan.go:196-204 | the embedded scanner resumed at E keeps a valid window anchored at E, never lowers usage below E, and ends every fast phase with the gap limit holding |
| SlowScan.SlowSeedScanner.constructor | modules/wallet/slowscan.go:218-229 | a new legacy scanner has no keys, index 0, an empty fresh ledger, the beginning bookmark and no embedded scanner |
| SlowScan.SlowSeedScanner.SetDustThreshold | modules/wallet/slowscan.go:59-62 | sets the threshold on both scanners, which requires the embedded one to exist; leaves the ledger as it is |
| SlowScan.SlowSeedScanner.GenerateKeys | modules/wallet/slowscan.go:73-80 | the derive-and-insert loop leaves the scanner in the state LegacyGenerate gives, and keeps `keys` and `keysArray` in lock-step from index 0 |
| SlowScan.SlowSeedScanner.AdjustMinimumIndex | modules/wallet/slowscan.go:86-96 | raises maximumExternalIndex to the usage maximum over the given diffs |
| SlowScan.SlowSeedScanner.FetchRevertedAndAdjust | modules/wallet/slowscan.go:137-148 | returns the DiffRevert diffs of the matching reverted headers in order, and raises usage over them |
| SlowScan.SlowSeedScanner.ProcessHeaderConsensusChange | modules/wallet/slowscan.go:110-172 | the in-place batch, including the early return at the cutoff, ends in the state and stop flag ProcessLegacyChange gives |
| SlowScan.SlowSeedScanner.Subscribe | modules/wallet/slowscan.go:188-192 | processes delivered changes in order until one stops the scanner; the result is ErrStopped after a stop, else the subscription's own |
| SlowScan.SlowSeedScanner.ResumeGapScan | modules/wallet/slowscan.go:196-207 | seeds the embedded scanner at E with the legacy ledger object, warms it up, subscribes from lastConsensusChange, returns its error unchanged, and on success copies its maximumExternalIndex back |
| SlowScan.SlowSeedScanner.Scan | modules/wallet/slowscan.go:177-215 | keeps the lock-step of `keys` and `keysArray` from index 0 (Valid); the legacy phase (own cancel signal, from the beginning) proceeds to the handoff only on ErrStopped and returns any other result unchanged, leaving the embedded scanner as freshly built (empty window at 0, dust 0); otherwise the final state is the embedded scanner's run from E, sharing the ledger |

## Behaviour to note

- **The ledger is shared at the handoff.** `slowscan.go:199` gives the
  embedded scanner the legacy ledger map itself rather than a copy, so
  every update of the fast phase is an update of the legacy scanner's
  ledger. `ResumeGapScan` makes both scanners reference one `OutputLedger`.
- **Apply-then-revert is not a round trip for every ledger.** Reverting a
  batch deletes each tracked output the batch applied. The ledger comes back
  exactly only when none of those outputs was recorded before the batch
  (`ApplyThenRevertRestores`). `RevertDropsEarlierEntry` shows an entry
  that a re-apply and its revert lose.
- **The gap limit looks ahead addressGapLimit − 1 keys.**
  - `maximumExternalIndex` holds the highest index seen in use itself
    (`fastscan.go:157-158`).
  - The window is grown to end, exclusively, at that index plus
    `addressGapLimit` (`fastscan.go:162-165`).
  - So only `addressGapLimit` − 1 derived keys lie beyond the used index
    (`GapLookahead`). BIP 44 looks `addressGapLimit` unused addresses
    ahead, one more.
- **The fast phase cannot revert legacy entries below E.**
  - The embedded scanner tracks only the indices E .. E + addressGapLimit
    − 1 (`slowscan.go:196-200`, `ResumedWarmUp`).
  - The shared ledger can still hold legacy entries with seed indices
    below E.
  - A DiffRevert for such an entry's address is ignored
    (`fastscan.go:146`, `UntrackedDiffsIgnored`). A spent legacy output
    therefore stays in the ledger.
  - For the same reason the seed indices of the ledger need not lie in the
    embedded scanner's window, which `ProcessChangeKeepsIndices` assumes.
- **The fast phase's dust threshold is always 0.**
  - `scan` creates a new embedded scanner (`slowscan.go:185`), whose
    threshold is 0.
  - So a threshold set earlier with `setDustThreshold` does not reach the
    fast phase.
  - `setDustThreshold` before the first `scan` dereferences a nil
    embedded scanner, so the model requires the embedded scanner to exist.

## Left out

- **Key derivation and hashing** (`generateKeys(seed, …)`,
  `UnlockHash()`, `BlockHeader.ID()`): foreign cryptography. Derivation is
  an injective function parameter, and a header carries its ID.
- **GCS filter internals** (`MatchUnlockHash`): an opaque predicate.
  `FilterSafety` states what the scanner relies on.
- **Fetch errors.** `getSiacoinOutputDiff` failures panic in the code, so
  fetch is a total function.
- **Consensus-set transport, channels and concurrency.**
  - `HeaderConsensusSetSubscribe` is the finite sequence of changes it
    delivers plus its returned error.
  - `close(s.cancel)` is the stop flag returned by a batch.
  - No change is delivered after the scanner stops itself.
  - `HeaderUnsubscribe` does nothing to a scanner's state and is not
    modelled.
- **Build-release constants.** `numInitialKeys` is a parameter of `Scan`.
  `maxScanKeys` and `errMaxKeys` are never used by the two scanners, so
  they are not modelled.
- **Unused code and logging.** The constant `scanMultiplier` is unused.
  `Debugln` and the commented-out logging are not modelled.
- **Getters.** `getMaximumExternalIndex`, `getMaximumInternalIndex` and
  `getSiacoinOutputs` are plain field reads, and `numKeys` is `|keys|`.
  They need no contract. `SlowSeedScanner.MaximumInternalIndex` requires
  the embedded scanner to exist, as the nil dereference at `slowscan.go:56`
  demands.
- **Integer widths.**
  - `types.Currency` is `nat`, compared with `>`.
  - The uint64 subtractions at `fastscan.go:162` and `164` wrap around
    (`Sub64`).
  - `addressGapLimit` is a uint64.
  - The other index counters are unbounded: the code would wrap only past
    2^64 keys.
- FastScan.SeedScanner.Scan: states the gap limit only for a scanner that starts with
  no gap (maximumInternalIndex = maximumExternalIndex), as every scanner the
  code builds does; for any other start only the window invariant is stated.
- SlowScan.SlowSeedScanner.Scan: does not repeat the gap facts of the fast phase;
  `HandoffKeepsGap` states them for the exact state that `Scan`'s contract
  gives the embedded scanner.

/** How a scanner gathers the output diffs of one header-level consensus
    change (fastscan.go:100-130): matured diffs always, and the full diffs of
    a block only when the block's filter matches the scanner's address list. */
module Collect {
  import opened Consensus

  /** The full diffs, in direction `dir`, of the headers whose filter matches
      keysArray, in header order. */
  function Fetched(headers: seq<ProcessedBlockHeader>, dir: Direction, keysArray: seq<Address>,
                   fetch: Fetcher, matcher: FilterMatcher): (r: seq<OutputDiff>)
    decreases |headers|
  {
    if headers == [] then []
    else
      var h := headers[|headers| - 1];
      Fetched(headers[..|headers| - 1], dir, keysArray, fetch, matcher)
        + (if matcher(h.filter, h.id, keysArray) then fetch(h.id, dir) else [])
  }

  /** One more header: the step of a collecting loop. */
  lemma FetchedStep(headers: seq<ProcessedBlockHeader>, i: nat, dir: Direction, keysArray: seq<Address>,
                    fetch: Fetcher, matcher: FilterMatcher)
    requires i < |headers|
    ensures Fetched(headers[..i + 1], dir, keysArray, fetch, matcher)
         == Fetched(headers[..i], dir, keysArray, fetch, matcher)
            + (if matcher(headers[i].filter, headers[i].id, keysArray) then fetch(headers[i].id, dir) else [])
  {
    assert headers[..i + 1][..i] == headers[..i];
  }

  /** A single header contributes its full diffs exactly when its filter matches. */
  lemma FetchedOne(h: ProcessedBlockHeader, dir: Direction, keysArray: seq<Address>, fetch: Fetcher, matcher: FilterMatcher)
    ensures Fetched([h], dir, keysArray, fetch, matcher)
         == if matcher(h.filter, h.id, keysArray) then fetch(h.id, dir) else []
  {
    assert [h][..0] == [];
  }

  /** The collecting loop over the headers of one direction
      (fastscan.go:103-114 and 117-128): fetch the full diffs of each header
      whose filter matches keysArray and append them, in header order. */
  method FetchMatching(headers: seq<ProcessedBlockHeader>, dir: Direction, keysArray: seq<Address>,
                       fetch: Fetcher, matcher: FilterMatcher) returns (diffs: seq<OutputDiff>)
    ensures diffs == Fetched(headers, dir, keysArray, fetch, matcher)
  {
    diffs := [];
    for i := 0 to |headers|
      invariant diffs == Fetched(headers[..i], dir, keysArray, fetch, matcher)
    {
      var pbh := headers[i];
      if matcher(pbh.filter, pbh.id, keysArray) {
        var blockSiacoinOutputDiffs := fetch(pbh.id, dir);
        diffs := diffs + blockSiacoinOutputDiffs;
      }
      FetchedStep(headers, i, dir, keysArray, fetch, matcher);
    }
    assert headers[..|headers|] == headers;
  }

  /** The diffs of a change in the order the scanner processes them: matured
      outputs, then applied blocks (DiffApply), then reverted blocks
      (DiffRevert). */
  function CollectDiffs(hcc: HeaderConsensusChange, keysArray: seq<Address>,
                        fetch: Fetcher, matcher: FilterMatcher): (r: seq<OutputDiff>)
  {
    hcc.maturedSiacoinOutputDiffs
      + Fetched(hcc.appliedBlockHeaders, DiffApply, keysArray, fetch, matcher)
      + Fetched(hcc.revertedBlockHeaders, DiffRevert, keysArray, fetch, matcher)
  }

  /** A diff is fetched exactly when it is one of the full diffs of a header
      whose filter matches. */
  lemma {:induction false} FetchedMembership(headers: seq<ProcessedBlockHeader>, dir: Direction, keysArray: seq<Address>,
                                             fetch: Fetcher, matcher: FilterMatcher, d: OutputDiff)
    ensures d in Fetched(headers, dir, keysArray, fetch, matcher)
        <==> exists j :: 0 <= j < |headers| && matcher(headers[j].filter, headers[j].id, keysArray)
                         && d in fetch(headers[j].id, dir)
    decreases |headers|
  {
    if headers != [] {
      var init := headers[..|headers| - 1];
      FetchedMembership(init, dir, keysArray, fetch, matcher, d);
      assert forall j :: 0 <= j < |init| ==> init[j] == headers[j];
    }
  }

  /** The filter never misses a block that holds a diff for one of the listed
      addresses (false positives only cost a fetch). */
  ghost predicate NoFalseNegatives(headers: seq<ProcessedBlockHeader>, dir: Direction, keysArray: seq<Address>,
                                   fetch: Fetcher, matcher: FilterMatcher)
  {
    forall j, d :: 0 <= j < |headers| && d in fetch(headers[j].id, dir) && d.unlockHash in keysArray
      ==> matcher(headers[j].filter, headers[j].id, keysArray)
  }

  /** With a filter that has no false negatives, every diff of an applied or
      reverted block for a tracked address reaches the ledger update, and so
      does every matured diff. */
  lemma FilterSafety(hcc: HeaderConsensusChange, keysArray: seq<Address>, fetch: Fetcher, matcher: FilterMatcher, d: OutputDiff)
    requires NoFalseNegatives(hcc.appliedBlockHeaders, DiffApply, keysArray, fetch, matcher)
    requires NoFalseNegatives(hcc.revertedBlockHeaders, DiffRevert, keysArray, fetch, matcher)
    requires d.unlockHash in keysArray
    requires || d in hcc.maturedSiacoinOutputDiffs
             || (exists j :: 0 <= j < |hcc.appliedBlockHeaders| && d in fetch(hcc.appliedBlockHeaders[j].id, DiffApply))
             || (exists j :: 0 <= j < |hcc.revertedBlockHeaders| && d in fetch(hcc.revertedBlockHeaders[j].id, DiffRevert))
    ensures d in CollectDiffs(hcc, keysArray, fetch, matcher)
  {
    FetchedMembership(hcc.appliedBlockHeaders, DiffApply, keysArray, fetch, matcher, d);
    FetchedMembership(hcc.revertedBlockHeaders, DiffRevert, keysArray, fetch, matcher, d);
  }
}

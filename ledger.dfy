/** The ledger-update rule both scanners share (fastscan.go:133-151 and
    slowscan.go:151-169) and the usage signal that raises
    maximumExternalIndex (fastscan.go:153-161, slowscan.go:86-96). */
module Ledger {
  import opened Consensus
  import opened KeyRing

  /** scannedOutput: an output found on chain that belongs to the seed. */
  datatype ScannedOutput = ScannedOutput(id: OutputId, value: nat, seedIndex: nat)

  type Outputs = map<OutputId, ScannedOutput>

  /** A diff the rule acts on: its address is tracked and, when it applies an
      output, the output's value is strictly above the dust threshold. Every
      other diff leaves the ledger as it is. */
  predicate Effective(keys: KeyMap, dust: nat, d: OutputDiff) {
    d.unlockHash in keys && (d.direction == DiffRevert || d.value > dust)
  }

  /** One diff against the ledger. DiffApply records a tracked, above-dust
      output under its ID; DiffRevert (the output was spent, or its block was
      reverted) drops a tracked output whatever its value. */
  function ApplyDiff(keys: KeyMap, dust: nat, ledger: Outputs, d: OutputDiff): (r: Outputs) {
    match d.direction
    case DiffApply =>
      if d.unlockHash in keys && d.value > dust
      then ledger[d.id := ScannedOutput(d.id, d.value, keys[d.unlockHash])]
      else ledger
    case DiffRevert =>
      if d.unlockHash in keys then ledger - {d.id} else ledger
  }

  /** A batch of diffs, in order. */
  function ApplyDiffs(keys: KeyMap, dust: nat, ledger: Outputs, ds: seq<OutputDiff>): (r: Outputs)
    decreases |ds|
  {
    if ds == [] then ledger
    else ApplyDiff(keys, dust, ApplyDiffs(keys, dust, ledger, ds[..|ds| - 1]), ds[|ds| - 1])
  }

  /** The last diff of the batch that the rule acts on for output `id`, if any. */
  function LastEffect(keys: KeyMap, dust: nat, ds: seq<OutputDiff>, id: OutputId): (r: Option<OutputDiff>)
    ensures r.None? <==> forall j :: 0 <= j < |ds| ==> !(ds[j].id == id && Effective(keys, dust, ds[j]))
    ensures r.Some? ==> r.value in ds && r.value.id == id && Effective(keys, dust, r.value)
    decreases |ds|
  {
    if ds == [] then None
    else
      var d := ds[|ds| - 1];
      if d.id == id && Effective(keys, dust, d) then Some(d)
      else
        var r := LastEffect(keys, dust, ds[..|ds| - 1], id);
        assert forall j :: 0 <= j < |ds| - 1 ==> ds[..|ds| - 1][j] == ds[j];
        r
  }

  /** The ledger after a batch, output by output: the last diff that acts on
      an output decides it (recorded with the value and seed index of that
      diff, or absent), and an output no diff acts on keeps its old entry. */
  lemma {:induction false} ApplyDiffsPointwise(keys: KeyMap, dust: nat, ledger: Outputs, ds: seq<OutputDiff>, id: OutputId)
    ensures var r := ApplyDiffs(keys, dust, ledger, ds);
      match LastEffect(keys, dust, ds, id)
      case None => (id in r <==> id in ledger) && (id in ledger ==> r[id] == ledger[id])
      case Some(d) =>
        if d.direction == DiffApply
        then id in r && r[id] == ScannedOutput(id, d.value, keys[d.unlockHash])
        else id !in r
    decreases |ds|
  {
    if ds != [] {
      ApplyDiffsPointwise(keys, dust, ledger, ds[..|ds| - 1], id);
    }
  }

  /** Re-processing a batch is harmless: applying the same diffs twice gives
      the ledger that applying them once gives. */
  lemma ApplyDiffsIdempotent(keys: KeyMap, dust: nat, ledger: Outputs, ds: seq<OutputDiff>)
    ensures ApplyDiffs(keys, dust, ApplyDiffs(keys, dust, ledger, ds), ds) == ApplyDiffs(keys, dust, ledger, ds)
  {
    var r1 := ApplyDiffs(keys, dust, ledger, ds);
    var r2 := ApplyDiffs(keys, dust, r1, ds);
    forall id
      ensures (id in r2 <==> id in r1) && (id in r1 ==> r2[id] == r1[id])
    {
      ApplyDiffsPointwise(keys, dust, ledger, ds, id);
      ApplyDiffsPointwise(keys, dust, r1, ds, id);
    }
    assert r2.Keys == r1.Keys;
  }

  /** A diff for an address the scanner does not track never changes the ledger. */
  lemma UntrackedDiffsIgnored(keys: KeyMap, dust: nat, ledger: Outputs, ds: seq<OutputDiff>)
    requires forall j :: 0 <= j < |ds| ==> ds[j].unlockHash !in keys
    ensures ApplyDiffs(keys, dust, ledger, ds) == ledger
  {
    var r := ApplyDiffs(keys, dust, ledger, ds);
    forall id
      ensures (id in r <==> id in ledger) && (id in ledger ==> r[id] == ledger[id])
    {
      ApplyDiffsPointwise(keys, dust, ledger, ds, id);
    }
    assert r.Keys == ledger.Keys;
  }

  /** Every entry of the ledger after a batch either was there before,
      unchanged, or was recorded by an applied diff of the batch for a
      tracked address with a value above the dust threshold, under that
      address's seed index. */
  lemma EntriesHaveProvenance(keys: KeyMap, dust: nat, ledger: Outputs, ds: seq<OutputDiff>, id: OutputId)
    requires id in ApplyDiffs(keys, dust, ledger, ds)
    ensures var e := ApplyDiffs(keys, dust, ledger, ds)[id];
      || (id in ledger && e == ledger[id])
      || exists d :: d in ds && d.direction == DiffApply && d.id == id && d.unlockHash in keys
           && d.value > dust && e == ScannedOutput(id, d.value, keys[d.unlockHash])
  {
    ApplyDiffsPointwise(keys, dust, ledger, ds, id);
  }

  /** The seed index of every recorded output lies in [lo, hi). */
  ghost predicate IndicesWithin(ledger: Outputs, lo: nat, hi: nat) {
    forall id :: id in ledger ==> ledger[id].id == id && lo <= ledger[id].seedIndex < hi
  }

  /** When every tracked index lies in [lo, hi), a batch keeps every ledger
      entry's seed index in [lo, hi). */
  lemma ApplyDiffsKeepsIndicesWithin(keys: KeyMap, dust: nat, ledger: Outputs, ds: seq<OutputDiff>, lo: nat, hi: nat)
    requires forall a :: a in keys ==> lo <= keys[a] < hi
    requires IndicesWithin(ledger, lo, hi)
    ensures IndicesWithin(ApplyDiffs(keys, dust, ledger, ds), lo, hi)
  {
    var r := ApplyDiffs(keys, dust, ledger, ds);
    forall id | id in r
      ensures r[id].id == id && lo <= r[id].seedIndex < hi
    {
      ApplyDiffsPointwise(keys, dust, ledger, ds, id);
    }
  }

  /** The revert batch the consensus set gives for a batch of DiffApply
      diffs: the same diffs in reverse order, each with direction
      DiffRevert. */
  function Reverted(ds: seq<OutputDiff>): (r: seq<OutputDiff>) {
    seq(|ds|, j requires 0 <= j < |ds| => ds[|ds| - 1 - j].(direction := DiffRevert))
  }

  /** Applying a batch of new outputs and then reverting the same batch gives
      back the ledger as it was, provided none of the batch's tracked outputs
      was recorded already. */
  lemma ApplyThenRevertRestores(keys: KeyMap, dust: nat, ledger: Outputs, ds: seq<OutputDiff>)
    requires forall j :: 0 <= j < |ds| ==> ds[j].direction == DiffApply
    requires forall j :: 0 <= j < |ds| && ds[j].unlockHash in keys ==> ds[j].id !in ledger
    ensures ApplyDiffs(keys, dust, ApplyDiffs(keys, dust, ledger, ds), Reverted(ds)) == ledger
  {
    var r1 := ApplyDiffs(keys, dust, ledger, ds);
    var rs := Reverted(ds);
    var r2 := ApplyDiffs(keys, dust, r1, rs);
    forall id
      ensures (id in r2 <==> id in ledger) && (id in ledger ==> r2[id] == ledger[id])
    {
      ApplyDiffsPointwise(keys, dust, ledger, ds, id);
      ApplyDiffsPointwise(keys, dust, r1, rs, id);
      if j :| 0 <= j < |ds| && ds[j].id == id && ds[j].unlockHash in keys {
        assert rs[|ds| - 1 - j].id == id && Effective(keys, dust, rs[|ds| - 1 - j]);
      } else {
        forall j' | 0 <= j' < |rs|
          ensures !(rs[j'].id == id && Effective(keys, dust, rs[j']))
        {
          assert rs[j'] == ds[|ds| - 1 - j'].(direction := DiffRevert);
        }
      }
    }
    assert r2.Keys == ledger.Keys;
  }

  /** The freshness premise above cannot be dropped: when the ledger already
      records an output that the batch applies again, reverting the batch
      deletes the entry instead of restoring the earlier one. */
  lemma RevertDropsEarlierEntry(a: Address, id: OutputId)
    ensures var keys: KeyMap := map[a := 0];
      var ledger := map[id := ScannedOutput(id, 7, 0)];
      var ds := [OutputDiff(DiffApply, id, 5, a)];
      && ApplyDiffs(keys, 0, ApplyDiffs(keys, 0, ledger, ds), Reverted(ds)) == map[]
      && ledger != map[]
  {
    var keys: KeyMap := map[a := 0];
    var ledger := map[id := ScannedOutput(id, 7, 0)];
    var ds := [OutputDiff(DiffApply, id, 5, a)];
    assert ds[..0] == [];
    assert Reverted(ds) == [OutputDiff(DiffRevert, id, 5, a)];
    assert Reverted(ds)[..0] == [];
    assert id in ledger;
  }

  /** The usage signal: the largest of m and the seed indices of the tracked
      addresses that the diffs touch, in either direction. */
  function MaxTracked(keys: KeyMap, m: nat, ds: seq<OutputDiff>): (r: nat)
    decreases |ds|
  {
    if ds == [] then m
    else
      var r0 := MaxTracked(keys, m, ds[..|ds| - 1]);
      var d := ds[|ds| - 1];
      if d.unlockHash in keys && keys[d.unlockHash] > r0 then keys[d.unlockHash] else r0
  }

  /** MaxTracked is an upper bound of m and of every tracked index the diffs
      touch, and it is attained: it is m itself or one of those indices. */
  lemma {:induction false} MaxTrackedBounds(keys: KeyMap, m: nat, ds: seq<OutputDiff>)
    ensures var r := MaxTracked(keys, m, ds);
      && m <= r
      && (forall j :: 0 <= j < |ds| && ds[j].unlockHash in keys ==> keys[ds[j].unlockHash] <= r)
      && (r == m || exists j :: 0 <= j < |ds| && ds[j].unlockHash in keys && r == keys[ds[j].unlockHash])
    decreases |ds|
  {
    if ds != [] {
      var init := ds[..|ds| - 1];
      MaxTrackedBounds(keys, m, init);
      assert forall j :: 0 <= j < |init| ==> init[j] == ds[j];
    }
  }

  /** One more diff: the step of the usage loop. */
  lemma MaxTrackedStep(keys: KeyMap, m: nat, ds: seq<OutputDiff>, i: nat)
    requires i < |ds|
    ensures MaxTracked(keys, m, ds[..i + 1])
         == var r0 := MaxTracked(keys, m, ds[..i]);
            if ds[i].unlockHash in keys && keys[ds[i].unlockHash] > r0 then keys[ds[i].unlockHash] else r0
  {
    assert ds[..i + 1][..i] == ds[..i];
  }

  /** Raising the maximum over two batches one after the other is raising it
      over their concatenation. */
  lemma {:induction false} MaxTrackedAppend(keys: KeyMap, m: nat, a: seq<OutputDiff>, b: seq<OutputDiff>)
    ensures MaxTracked(keys, m, a + b) == MaxTracked(keys, MaxTracked(keys, m, a), b)
    decreases |b|
  {
    if b == [] {
      assert a + b == a;
    } else {
      MaxTrackedAppend(keys, m, a, b[..|b| - 1]);
      assert (a + b)[..|a + b| - 1] == a + b[..|b| - 1];
    }
  }

  /** The siacoinOutputs map of a scanner. It is an object because the legacy
      scanner hands this very map to its embedded fast scanner, which then
      updates it for both. */
  class OutputLedger {
    var outputs: Outputs

    constructor ()
      ensures outputs == map[]
    {
      outputs := map[];
    }

    /** The apply/revert loop of ProcessHeaderConsensusChange. */
    method ProcessDiffs(keys: KeyMap, dust: nat, diffs: seq<OutputDiff>)
      modifies this
      ensures outputs == ApplyDiffs(keys, dust, old(outputs), diffs)
    {
      for i := 0 to |diffs|
        invariant outputs == ApplyDiffs(keys, dust, old(outputs), diffs[..i])
      {
        var diff := diffs[i];
        if diff.direction == DiffApply {
          if diff.unlockHash in keys && diff.value > dust {
            outputs := outputs[diff.id := ScannedOutput(diff.id, diff.value, keys[diff.unlockHash])];
          }
        } else if diff.direction == DiffRevert {
          if diff.unlockHash in keys {
            outputs := outputs - {diff.id};
          }
        }
        assert diffs[..i + 1][..i] == diffs[..i];
      }
      assert diffs[..|diffs|] == diffs;
    }
  }
}

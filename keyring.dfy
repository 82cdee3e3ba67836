/** The key ring of a scanner: the `keys` map from address to seed index and
    the `keysArray` list that is kept in lock-step with it. Key derivation
    (seed, index) -> address is foreign cryptography; a scanner holds it as a
    function of the index, assumed injective (no two indices of one seed
    derive the same address). */
module KeyRing {
  import opened Consensus

  type KeyMap = map<Address, nat>

  /** i |-> the unlock hash of the i-th key derived from the scanner's seed. */
  type Derivation = nat -> Address

  /** Indices i and j derive the same address. */
  predicate Collide(derive: Derivation, i: nat, j: nat) {
    derive(i) == derive(j)
  }

  /** No two indices of one seed derive the same address. */
  ghost predicate Injective(derive: Derivation) {
    forall i, j :: Collide(derive, i, j) ==> i == j
  }

  /** The n addresses derived from index `start` on, in order. */
  function Window(derive: Derivation, start: nat, n: nat): (r: seq<Address>) {
    seq(n, i requires 0 <= i < n => derive(start + i))
  }

  /** `keys` after the n addresses from index `start` on are inserted, each
      mapped to its own index. */
  function Extend(keys: KeyMap, derive: Derivation, start: nat, n: nat): (r: KeyMap)
    decreases n
  {
    if n == 0 then keys
    else Extend(keys, derive, start, n - 1)[derive(start + n - 1) := start + n - 1]
  }

  /** The lock-step invariant: keysArray lists the addresses derived from
      index `base` on, and `keys` maps exactly those addresses, each to its
      own index. */
  ghost predicate Ring(keys: KeyMap, keysArray: seq<Address>, base: nat, derive: Derivation) {
    && |keys| == |keysArray|
    && (forall j :: 0 <= j < |keysArray| ==> keysArray[j] == derive(base + j))
    && (forall j :: 0 <= j < |keysArray| ==> keysArray[j] in keys && keys[keysArray[j]] == base + j)
    && (forall a :: a in keys ==> base <= keys[a] < base + |keysArray| && derive(keys[a]) == a)
  }

  /** An address is tracked by `keys` exactly when it is in `keysArray`, and
      the tracked indices are exactly [base, base + |keysArray|). */
  lemma RingTracks(keys: KeyMap, keysArray: seq<Address>, base: nat, derive: Derivation, a: Address)
    requires Ring(keys, keysArray, base, derive)
    ensures a in keys <==> a in keysArray
    ensures a in keys ==> base <= keys[a] < base + |keysArray| && keysArray[keys[a] - base] == a
  {
    if a in keys {
      assert keysArray[keys[a] - base] == derive(keys[a]) == a;
    }
  }

  /** Under the lock-step invariant every index of the window is tracked,
      under its own derived address. */
  lemma RingIndices(keys: KeyMap, keysArray: seq<Address>, base: nat, derive: Derivation)
    requires Ring(keys, keysArray, base, derive)
    ensures forall i :: base <= i < base + |keysArray| ==> derive(i) in keys && keys[derive(i)] == i
  {
    forall i | base <= i < base + |keysArray|
      ensures derive(i) in keys && keys[derive(i)] == i
    {
      assert keysArray[i - base] == derive(i);
    }
  }

  /** Inserting the next derived address keeps the lock-step invariant and
      grows both structures by exactly one. */
  lemma RingPush(keys: KeyMap, keysArray: seq<Address>, base: nat, derive: Derivation)
    requires Injective(derive) && Ring(keys, keysArray, base, derive)
    ensures var i := base + |keysArray|;
      derive(i) !in keys && Ring(keys[derive(i) := i], keysArray + [derive(i)], base, derive)
  {
    var i := base + |keysArray|;
    var a := derive(i);
    if a in keys {
      assert Collide(derive, keys[a], i);
    }
    var keys', keysArray' := keys[a := i], keysArray + [a];
    assert |keys'| == |keys| + 1;
    forall b | b in keys'
      ensures base <= keys'[b] < base + |keysArray'| && derive(keys'[b]) == b
    {
    }
  }

  lemma WindowSnoc(derive: Derivation, start: nat, n: nat)
    ensures Window(derive, start, n + 1) == Window(derive, start, n) + [derive(start + n)]
  {
  }

  lemma ExtendSnoc(keys: KeyMap, derive: Derivation, start: nat, n: nat)
    ensures Extend(keys, derive, start, n + 1) == Extend(keys, derive, start, n)[derive(start + n) := start + n]
  {
  }

  lemma WindowConcat(derive: Derivation, start: nat, m: nat, n: nat)
    ensures Window(derive, start, m) + Window(derive, start + m, n) == Window(derive, start, m + n)
  {
  }

  /** One more derived key: the step of the loop in generateKeys. */
  lemma ExtendStep(keys: KeyMap, keysArray: seq<Address>, base: nat, derive: Derivation, start: nat, n: nat)
    requires Injective(derive) && n > 0 && start == base + |keysArray|
    requires Ring(Extend(keys, derive, start, n - 1), keysArray + Window(derive, start, n - 1), base, derive)
    ensures Ring(Extend(keys, derive, start, n), keysArray + Window(derive, start, n), base, derive)
  {
    var k, ka := Extend(keys, derive, start, n - 1), keysArray + Window(derive, start, n - 1);
    var i := start + n - 1;
    assert base + |ka| == i;
    RingPush(k, ka, base, derive);
    WindowSnoc(derive, start, n - 1);
    assert ka + [derive(i)] == keysArray + Window(derive, start, n);
    assert k[derive(i) := i] == Extend(keys, derive, start, n);
  }

  /** generateKeys(n) keeps the lock-step invariant: after it, keysArray is
      the old list followed by the next n derived addresses (from index
      start = base + |keysArray| on), and `keys` maps each of them to its
      index. */
  lemma {:induction false} ExtendKeepsRing(keys: KeyMap, keysArray: seq<Address>, base: nat, derive: Derivation, start: nat, n: nat)
    requires Injective(derive) && Ring(keys, keysArray, base, derive) && start == base + |keysArray|
    ensures Ring(Extend(keys, derive, start, n), keysArray + Window(derive, start, n), base, derive)
    decreases n
  {
    if n == 0 {
      assert keysArray + Window(derive, start, 0) == keysArray;
    } else {
      ExtendKeepsRing(keys, keysArray, base, derive, start, n - 1);
      ExtendStep(keys, keysArray, base, derive, start, n);
    }
  }

  /** A fresh window: starting from an empty ring at index `base`, deriving n
      keys tracks exactly the indices base .. base+n-1. */
  lemma WindowFromEmpty(derive: Derivation, base: nat, n: nat)
    requires Injective(derive)
    ensures var keys := Extend(map[], derive, base, n);
      && Ring(keys, Window(derive, base, n), base, derive)
      && (forall i :: base <= i < base + n ==> derive(i) in keys && keys[derive(i)] == i)
      && (forall a :: a in keys ==> base <= keys[a] < base + n)
  {
    var empty: seq<Address> := [];
    assert Ring(map[], empty, base, derive);
    ExtendKeepsRing(map[], empty, base, derive, base, n);
    assert empty + Window(derive, base, n) == Window(derive, base, n);
    var keys := Extend(map[], derive, base, n);
    forall i | base <= i < base + n
      ensures derive(i) in keys && keys[derive(i)] == i
    {
      assert Window(derive, base, n)[i - base] == derive(i);
    }
  }
}

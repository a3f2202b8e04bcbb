/** Keeping the first entry of each key while walking a list of indices:
    the deduplication `search_laws` applies to its ranked chunks, stated
    for any key type. `keys[c]` is the key of item `c`, `idxs` the order in
    which items are examined, and a "position" is an index into `idxs`. */
module Dedup {

  /** The first `p` examined entries index existing items. */
  predicate PrefixInRange(idxs: seq<nat>, p: nat, n: nat)
    requires p <= |idxs|
  {
    forall b :: 0 <= b < p ==> idxs[b] < n
  }

  lemma PrefixGrow(idxs: seq<nat>, p: nat, n: nat)
    requires p < |idxs| && PrefixInRange(idxs, p, n) && idxs[p] < n
    ensures PrefixInRange(idxs, p + 1, n)
  {
  }

  /** `pos` lists positions into `idxs` whose entries index one of `n` items. */
  predicate Positions(n: nat, idxs: seq<nat>, pos: seq<nat>)
  {
    forall i :: 0 <= i < |pos| ==> pos[i] < |idxs| && idxs[pos[i]] < n
  }

  /** The keys of the items at the positions `pos`. */
  function KeysAt<K>(keys: seq<K>, idxs: seq<nat>, pos: seq<nat>): set<K>
    requires Positions(|keys|, idxs, pos)
  {
    set i | 0 <= i < |pos| :: keys[idxs[pos[i]]]
  }

  /** A key is among the keys at `pos` only through one of them; the lemma
      names the position. */
  lemma KeysAtWitness<K>(keys: seq<K>, idxs: seq<nat>, pos: seq<nat>, k: K) returns (i: nat)
    requires Positions(|keys|, idxs, pos) && k in KeysAt(keys, idxs, pos)
    ensures i < |pos| && keys[idxs[pos[i]]] == k
  {
    i :| 0 <= i < |pos| && keys[idxs[pos[i]]] == k;
  }

  /** Every key at `pos` is among the keys at `pos`. */
  lemma KeysAtMember<K>(keys: seq<K>, idxs: seq<nat>, pos: seq<nat>, i: nat)
    requires Positions(|keys|, idxs, pos) && i < |pos|
    ensures keys[idxs[pos[i]]] in KeysAt(keys, idxs, pos)
  {
  }

  /** Keeping one more position adds its key. */
  lemma KeysAtSnoc<K>(keys: seq<K>, idxs: seq<nat>, pos: seq<nat>, k: nat)
    requires Positions(|keys|, idxs, pos) && k < |idxs| && idxs[k] < |keys|
    ensures Positions(|keys|, idxs, pos + [k])
    ensures KeysAt(keys, idxs, pos + [k]) == KeysAt(keys, idxs, pos) + {keys[idxs[k]]}
  {
    var q := pos + [k];
    forall x | x in KeysAt(keys, idxs, q) ensures x in KeysAt(keys, idxs, pos) + {keys[idxs[k]]} {
      var i :| 0 <= i < |q| && keys[idxs[q[i]]] == x;
      if i < |pos| {
        assert q[i] == pos[i];
      }
    }
    forall x | x in KeysAt(keys, idxs, pos) + {keys[idxs[k]]} ensures x in KeysAt(keys, idxs, q) {
      if x in KeysAt(keys, idxs, pos) {
        var i :| 0 <= i < |pos| && keys[idxs[pos[i]]] == x;
        assert q[i] == pos[i];
      } else {
        assert q[|pos|] == k;
      }
    }
  }

  /** Reference definition of the deduplication: the positions, among the
      first `p` examined entries, of the first item with each key, in
      examination order. */
  function FirstPositions<K(==)>(keys: seq<K>, idxs: seq<nat>, p: nat): (pos: seq<nat>)
    requires p <= |idxs| && PrefixInRange(idxs, p, |keys|)
    ensures |pos| <= p && Positions(|keys|, idxs, pos)
  {
    if p == 0 then []
    else
      var prev := FirstPositions(keys, idxs, p - 1);
      if keys[idxs[p - 1]] in KeysAt(keys, idxs, prev) then prev else prev + [p - 1]
  }

  /** One more examined entry is kept exactly when its key is new. */
  lemma FirstPositionsStep<K>(keys: seq<K>, idxs: seq<nat>, p: nat)
    requires 0 < p <= |idxs| && PrefixInRange(idxs, p, |keys|)
    ensures PrefixInRange(idxs, p - 1, |keys|)
    ensures keys[idxs[p - 1]] in KeysAt(keys, idxs, FirstPositions(keys, idxs, p - 1)) ==>
      FirstPositions(keys, idxs, p) == FirstPositions(keys, idxs, p - 1)
    ensures keys[idxs[p - 1]] !in KeysAt(keys, idxs, FirstPositions(keys, idxs, p - 1)) ==>
      FirstPositions(keys, idxs, p) == FirstPositions(keys, idxs, p - 1) + [p - 1]
  {
  }

  /** The kept positions lie among the first `p` and come in examination
      order. */
  lemma {:induction false} FirstPositionsIncreasing<K>(keys: seq<K>, idxs: seq<nat>, p: nat)
    requires p <= |idxs| && PrefixInRange(idxs, p, |keys|)
    ensures forall i :: 0 <= i < |FirstPositions(keys, idxs, p)| ==> FirstPositions(keys, idxs, p)[i] < p
    ensures forall i, j :: 0 <= i < j < |FirstPositions(keys, idxs, p)| ==>
      FirstPositions(keys, idxs, p)[i] < FirstPositions(keys, idxs, p)[j]
    decreases p
  {
    if p > 0 {
      FirstPositionsIncreasing(keys, idxs, p - 1);
    }
  }

  /** No two kept positions carry the same key. */
  predicate DistinctKeys<K(==)>(keys: seq<K>, idxs: seq<nat>, pos: seq<nat>)
    requires Positions(|keys|, idxs, pos)
  {
    forall i, j :: 0 <= i < j < |pos| ==> keys[idxs[pos[i]]] != keys[idxs[pos[j]]]
  }

  lemma {:induction false} FirstPositionsDistinct<K>(keys: seq<K>, idxs: seq<nat>, p: nat)
    requires p <= |idxs| && PrefixInRange(idxs, p, |keys|)
    ensures DistinctKeys(keys, idxs, FirstPositions(keys, idxs, p))
    decreases p
  {
    if p > 0 {
      FirstPositionsStep(keys, idxs, p);
      var prev := FirstPositions(keys, idxs, p - 1);
      FirstPositionsDistinct(keys, idxs, p - 1);
      var k := keys[idxs[p - 1]];
      if k !in KeysAt(keys, idxs, prev) {
        var pos := prev + [p - 1];
        assert FirstPositions(keys, idxs, p) == pos;
        forall i, j | 0 <= i < j < |pos| ensures keys[idxs[pos[i]]] != keys[idxs[pos[j]]] {
          assert pos[i] == prev[i];
          if j == |prev| {
            KeysAtMember(keys, idxs, prev, i);
            assert keys[idxs[pos[j]]] == k;
          } else {
            assert pos[j] == prev[j];
          }
        }
      }
    }
  }

  /** Every examined key is kept, through an entry examined no later: kept
      entry `i` sits at a position `<= a` and has the key of entry `a`. */
  lemma {:induction false} FirstPositionsCover<K>(keys: seq<K>, idxs: seq<nat>, p: nat, a: nat) returns (i: nat)
    requires p <= |idxs| && PrefixInRange(idxs, p, |keys|) && a < p
    ensures i < |FirstPositions(keys, idxs, p)|
    ensures FirstPositions(keys, idxs, p)[i] <= a
    ensures keys[idxs[FirstPositions(keys, idxs, p)[i]]] == keys[idxs[a]]
    decreases p
  {
    var prev := FirstPositions(keys, idxs, p - 1);
    assert PrefixInRange(idxs, p - 1, |keys|);
    var k := keys[idxs[p - 1]];
    if a < p - 1 {
      i := FirstPositionsCover(keys, idxs, p - 1, a);
      KeepsPrefix(keys, idxs, p, i);
      assert prev[i] <= a;
    } else if k in KeysAt(keys, idxs, prev) {
      i := KeysAtWitness(keys, idxs, prev, k);
      FirstPositionsIncreasing(keys, idxs, p - 1);
      KeepsPrefix(keys, idxs, p, i);
      assert prev[i] < p - 1 == a;
    } else {
      i := |prev|;
      assert FirstPositions(keys, idxs, p) == prev + [p - 1];
      assert (prev + [p - 1])[i] == a;
    }
  }

  /** A later step never changes the positions kept so far. */
  lemma KeepsPrefix<K>(keys: seq<K>, idxs: seq<nat>, p: nat, i: nat)
    requires 0 < p <= |idxs| && PrefixInRange(idxs, p, |keys|)
    requires i < |FirstPositions(keys, idxs, p - 1)|
    ensures i < |FirstPositions(keys, idxs, p)|
    ensures FirstPositions(keys, idxs, p)[i] == FirstPositions(keys, idxs, p - 1)[i]
  {
    FirstPositionsStep(keys, idxs, p);
  }
}

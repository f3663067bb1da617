/**
 * Object spread `{ ...a, ...b, ... }` and React Native's flattening of a
 * style array `[a, b, ...]` both build one record from parts in order, a
 * key defined by a later part replacing the same key from an earlier part.
 */
module Objects {
  /** Does some part at index `i` or later define `k`? */
  predicate DefinedFrom<K, V>(parts: seq<map<K, V>>, k: K, i: nat) {
    exists j :: i <= j < |parts| && k in parts[j]
  }

  /** Merge the parts from left to right; later parts win. */
  function Merge<K, V>(parts: seq<map<K, V>>): map<K, V>
    decreases |parts|
  {
    if |parts| == 0 then map[] else Merge(parts[..|parts| - 1]) + parts[|parts| - 1]
  }

  /**
   * What a merged record holds at key `k`: the key is present exactly when
   * some part defines it, and its value is the one of the last part that does.
   */
  lemma {:induction false} MergeAt<K, V>(parts: seq<map<K, V>>, k: K)
    ensures k in Merge(parts) <==> DefinedFrom(parts, k, 0)
    ensures forall i :: 0 <= i < |parts| && k in parts[i] && !DefinedFrom(parts, k, i + 1) ==>
              k in Merge(parts) && Merge(parts)[k] == parts[i][k]
    decreases |parts|
  {
    if |parts| > 0 {
      var init := parts[..|parts| - 1];
      var last := parts[|parts| - 1];
      MergeAt(init, k);
      if DefinedFrom(init, k, 0) {
        var j :| 0 <= j < |init| && k in init[j];
        assert k in parts[j];
      }
      if DefinedFrom(parts, k, 0) && k !in last {
        var j :| 0 <= j < |parts| && k in parts[j];
        assert k in init[j];
      }
      forall i | 0 <= i < |parts| && k in parts[i] && !DefinedFrom(parts, k, i + 1)
        ensures k in Merge(parts) && Merge(parts)[k] == parts[i][k]
      {
        if i < |init| {
          assert last == parts[|parts| - 1];
          assert forall j :: i + 1 <= j < |init| ==> init[j] == parts[j];
        }
      }
    }
  }

  /** A key the last part defines takes that part's value. */
  lemma LastPartWins<K, V>(parts: seq<map<K, V>>, k: K)
    requires |parts| > 0 && k in parts[|parts| - 1]
    ensures k in Merge(parts) && Merge(parts)[k] == parts[|parts| - 1][k]
  {
    MergeAt(parts, k);
  }

  /**
   * Three parts, as in `[style, { ... }, fallbackStyle]` or
   * `{ ...fields, ...brand, ...palette }`: the third wins over the second,
   * the second over the first.
   */
  lemma ThreeLayers<K, V>(a: map<K, V>, b: map<K, V>, c: map<K, V>)
    ensures var r := Merge([a, b, c]);
      && (forall k :: k in r <==> k in a || k in b || k in c)
      && (forall k :: k in c ==> r[k] == c[k])
      && (forall k :: k !in c && k in b ==> r[k] == b[k])
      && (forall k :: k !in c && k !in b && k in a ==> r[k] == a[k])
  {
    var parts := [a, b, c];
    forall k ensures (k in Merge(parts) <==> k in a || k in b || k in c)
      && (k in c ==> Merge(parts)[k] == c[k])
      && (k !in c && k in b ==> Merge(parts)[k] == b[k])
      && (k !in c && k !in b && k in a ==> Merge(parts)[k] == a[k])
    {
      MergeAt(parts, k);
      assert parts[0] == a && parts[1] == b && parts[2] == c;
      assert DefinedFrom(parts, k, 0) <==> k in a || k in b || k in c;
      assert !DefinedFrom(parts, k, 3);
      assert k !in c ==> !DefinedFrom(parts, k, 2);
      assert k !in c && k !in b ==> !DefinedFrom(parts, k, 1);
    }
  }
}

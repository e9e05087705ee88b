/**
 * Sums over the values of a party-keyed map. A Java HashMap is summed in an unspecified
 * iteration order; these sums pick an arbitrary key at each step and the Remove lemmas
 * show that the choice does not matter.
 */
module MapSums {
  import opened Parties

  /** The sum of all integer values of `m`. */
  ghost function SumInt(m: map<Party, int>): int
    decreases |m|
  {
    if m == map[] then 0
    else
      var p :| p in m;
      m[p] + SumInt(m - {p})
  }

  /** The sum of all real values of `m`. */
  ghost function SumReal(m: map<Party, real>): real
    decreases |m|
  {
    if m == map[] then 0.0
    else
      var p :| p in m;
      m[p] + SumReal(m - {p})
  }

  /** Any key may be taken out first: the integer sum does not depend on the summation order. */
  lemma {:induction false} SumIntRemove(m: map<Party, int>, k: Party)
    requires k in m
    ensures SumInt(m) == m[k] + SumInt(m - {k})
    decreases m.Keys
  {
    var p :| p in m && SumInt(m) == m[p] + SumInt(m - {p});
    if p != k {
      SumIntRemove(m - {p}, k);
      SumIntRemove(m - {k}, p);
      assert m - {p} - {k} == m - {k} - {p};
    }
  }

  /** Any key may be taken out first: the real sum does not depend on the summation order. */
  lemma {:induction false} SumRealRemove(m: map<Party, real>, k: Party)
    requires k in m
    ensures SumReal(m) == m[k] + SumReal(m - {k})
    decreases m.Keys
  {
    var p :| p in m && SumReal(m) == m[p] + SumReal(m - {p});
    if p != k {
      SumRealRemove(m - {p}, k);
      SumRealRemove(m - {k}, p);
      assert m - {p} - {k} == m - {k} - {p};
    }
  }

  /** Setting the entry of `k` to `x` makes the sum `x` plus the sum of the other entries. */
  lemma SumIntUpdate(m: map<Party, int>, k: Party, x: int)
    ensures SumInt(m[k := x]) == x + SumInt(m - {k})
  {
    SumIntRemove(m[k := x], k);
    assert m[k := x] - {k} == m - {k};
  }

  /** A map of non-negative counts has a non-negative sum that bounds each of its entries. */
  lemma {:induction false} SumIntBoundsEntries(m: map<Party, int>)
    requires forall p :: p in m ==> m[p] >= 0
    ensures SumInt(m) >= 0
    ensures forall p :: p in m ==> m[p] <= SumInt(m)
    decreases m.Keys
  {
    if m != map[] {
      forall k | k in m
        ensures m[k] <= SumInt(m)
      {
        SumIntRemove(m, k);
        SumIntBoundsEntries(m - {k});
      }
      var k :| k in m;
      SumIntRemove(m, k);
      SumIntBoundsEntries(m - {k});
    }
  }

  /** A map of non-negative reals has a non-negative sum. */
  lemma {:induction false} SumRealNonNegative(m: map<Party, real>)
    requires forall p :: p in m ==> m[p] >= 0.0
    ensures SumReal(m) >= 0.0
    decreases m.Keys
  {
    if m != map[] {
      var k :| k in m;
      SumRealRemove(m, k);
      SumRealNonNegative(m - {k});
    }
  }

  /** A map of zero reals sums to zero. */
  lemma {:induction false} SumRealZero(m: map<Party, real>)
    requires forall p :: p in m ==> m[p] == 0.0
    ensures SumReal(m) == 0.0
    decreases m.Keys
  {
    if m != map[] {
      var k :| k in m;
      SumRealRemove(m, k);
      SumRealZero(m - {k});
    }
  }

}

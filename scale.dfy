/** Colours along a colour scale, and evenly spaced positions on [0, 1]: sample `ii` of `n` sits at `ii / (n - 1)`.
    Used by `ColorMap._sample`, `ColorMap.toPGF` and `genCustomColormap`. */
module Scale {

  /** A colour as the three channels matplotlib reports for it, each nominally in [0, 1]. */
  datatype Rgb = Rgb(red: real, green: real, blue: real)

  /** Python's `float(ii) / (n - 1)`; defined when the division is. */
  function Position(ii: nat, n: nat): real
    requires n >= 2
  {
    ii as real / (n - 1) as real
  }

  lemma PositionEnds(n: nat)
    requires n >= 2
    ensures Position(0, n) == 0.0
    ensures Position(n - 1, n) == 1.0
  {
  }

  /** Positions of the samples lie in [0, 1]. */
  lemma PositionInUnit(ii: nat, n: nat)
    requires n >= 2 && ii < n
    ensures 0.0 <= Position(ii, n) <= 1.0
  {
    var d := (n - 1) as real;
    assert ii as real <= d;
    assert Position(ii, n) * d == ii as real;
  }

  /** Later samples sit strictly further along the scale. */
  lemma PositionIncreasing(ii: nat, jj: nat, n: nat)
    requires n >= 2 && ii < jj
    ensures Position(ii, n) < Position(jj, n)
  {
    var d := (n - 1) as real;
    assert Position(ii, n) * d == ii as real;
    assert Position(jj, n) * d == jj as real;
  }

  /** Consecutive samples are exactly `1 / (n - 1)` apart. */
  lemma PositionSpacing(ii: nat, n: nat)
    requires n >= 2 && ii + 1 < n
    ensures Position(ii + 1, n) - Position(ii, n) == 1.0 / (n - 1) as real
  {
  }
}

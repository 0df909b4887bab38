/** Zeeman splitting of a spectral line in a weak static magnetic field.

    A line is given by its spin multiplicity 2S+1, its orbital angular
    momentum L and its total angular momentum J. From these it derives the
    spin S, the projections MJ of J and ML of L, the Landé g-factor, and the
    table of projection differences between two lines.

    Arithmetic is exact: the source's floats stand for the half-integers of
    angular momentum, so they are modelled as `real`.
 */
module ZeemanSplitting {

  /** A spectral line. No range checks are made on construction. */
  datatype Zeeman = Zeeman(
    spinMultiplicity: int,
    orbitalAngularMomentum: int,
    totalAngularMomentum: real)

  /** The outcome of the g-factor computation: the value, or the division
      fault raised when the denominator 2J(J+1) is zero. */
  datatype GOutcome = Ok(g: real) | ZeroDivisionError

  /** x has no fractional part. */
  predicate IsIntegral(x: real) {
    x.Floor as real == x
  }

  /** x is a non-negative integer or half-integer, the values an angular
      momentum quantum number takes. */
  predicate IsAngularMomentum(x: real) {
    x >= 0.0 && IsIntegral(2.0 * x)
  }

  function Max0(n: int): (r: nat)
    ensures r >= n && (n > 0 ==> r == n)
  {
    if n > 0 then n else 0
  }

  /** Conversion of a real to an integer by truncation toward zero, as the
      source's integer conversion of a float does. */
  function Trunc(x: real): (n: int)
    ensures x >= 0.0 ==> n as real <= x < n as real + 1.0
    ensures x < 0.0 ==> n as real - 1.0 < x <= n as real
  {
    if x >= 0.0 then x.Floor else -((-x).Floor)
  }

  /** The spin S: the multiplicity is 2S+1. */
  function Spin(z: Zeeman): (s: real)
    ensures 2.0 * s + 1.0 == z.spinMultiplicity as real
  {
    (z.spinMultiplicity - 1) as real / 2.0
  }

  /** The projections of the total angular momentum: J, J-1, ..., with as
      many entries as 2J+1 truncated toward zero (none when that is not
      positive). */
  function MJ(z: Zeeman): (mj: seq<real>)
    ensures |mj| == Max0(Trunc(2.0 * z.totalAngularMomentum + 1.0))
    ensures |mj| > 0 ==> mj[0] == z.totalAngularMomentum
    ensures forall i :: 0 <= i < |mj| - 1 ==> mj[i + 1] == mj[i] - 1.0
  {
    var j := z.totalAngularMomentum;
    var n := Trunc(2.0 * j + 1.0);
    if n <= 0 then [] else seq(n, i => j - i as real)
  }

  /** The projections of the orbital angular momentum: L, L-1, ..., with
      2L+1 entries (none when L is negative). L is an integer, so the
      source's integer conversion of 2L+1 changes nothing. */
  function ML(z: Zeeman): (ml: seq<int>)
    ensures |ml| == Max0(2 * z.orbitalAngularMomentum + 1)
    ensures |ml| > 0 ==> ml[0] == z.orbitalAngularMomentum
    ensures forall i :: 0 <= i < |ml| - 1 ==> ml[i + 1] == ml[i] - 1
  {
    var l := z.orbitalAngularMomentum;
    var n := 2 * l + 1;
    if n <= 0 then [] else seq(n, i => l - i)
  }

  /** The numerator J(J+1) + S(S+1) - L(L+1) of the Landé formula. */
  function LandeNumerator(z: Zeeman): real {
    var j, s, l := z.totalAngularMomentum, Spin(z), z.orbitalAngularMomentum as real;
    j * (j + 1.0) + s * (s + 1.0) - l * (l + 1.0)
  }

  /** The denominator 2J(J+1) of the Landé formula. */
  function LandeDenominator(z: Zeeman): real {
    var j := z.totalAngularMomentum;
    2.0 * j * (j + 1.0)
  }

  /** The Landé factor g = 1 + [J(J+1) + S(S+1) - L(L+1)] / [2J(J+1)].
      The division faults exactly when J is 0 or -1; otherwise g is the
      value that solves the formula with the division multiplied out. */
  function GFactor(z: Zeeman): (r: GOutcome)
    ensures r.ZeroDivisionError? <==>
      (z.totalAngularMomentum == 0.0 || z.totalAngularMomentum == -1.0)
    ensures r.Ok? ==>
      var j, s, l := z.totalAngularMomentum, Spin(z), z.orbitalAngularMomentum as real;
      2.0 * j * (j + 1.0) * (r.g - 1.0) == j * (j + 1.0) + s * (s + 1.0) - l * (l + 1.0)
  {
    var j := z.totalAngularMomentum;
    assert j * (j + 1.0) == 0.0 ==> j == 0.0 || j + 1.0 == 0.0 by {
      if j > 0.0 {
        assert j * (j + 1.0) > 0.0;
      } else if j < -1.0 {
        assert (-j) * (-(j + 1.0)) > 0.0;
      } else if -1.0 < j < 0.0 {
        assert (-j) * (j + 1.0) > 0.0;
      }
    }
    if LandeDenominator(z) == 0.0 then ZeroDivisionError
    else Ok(1.0 + LandeNumerator(z) / LandeDenominator(z))
  }

  /** The table of differences between the MJ of `other` and those of
      `self`: one row per projection of `self`, one column per projection
      of `other`. */
  function DeltaMJ(self: Zeeman, other: Zeeman): (d: seq<seq<real>>)
    ensures IsTable(d, |MJ(self)|, |MJ(other)|)
    ensures forall i, k :: 0 <= i < |MJ(self)| && 0 <= k < |MJ(other)| ==>
      d[i][k] == MJ(other)[k] - MJ(self)[i]
  {
    var mj1, mj2 := MJ(self), MJ(other);
    seq(|mj1|, i requires 0 <= i < |mj1| => seq(|mj2|, k requires 0 <= k < |mj2| => mj2[k] - mj1[i]))
  }

  /** t has `rows` rows of `cols` entries each. */
  predicate IsTable(t: seq<seq<real>>, rows: nat, cols: nat) {
    |t| == rows && forall i :: 0 <= i < rows ==> |t[i]| == cols
  }

  /** The transpose of a rows-by-cols table with every entry negated. */
  function NegatedTranspose(t: seq<seq<real>>, rows: nat, cols: nat): (u: seq<seq<real>>)
    requires IsTable(t, rows, cols)
    ensures IsTable(u, cols, rows)
    ensures forall k, i :: 0 <= k < cols && 0 <= i < rows ==> u[k][i] == -t[i][k]
  {
    seq(cols, k requires 0 <= k < cols => seq(rows, i requires 0 <= i < rows => -t[i][k]))
  }

  // ---------------------------------------------------------------------
  // Properties of the projections

  /** Entry i of MJ is J - i: the list descends from J in unit steps. */
  lemma MJAt(z: Zeeman, i: int)
    requires 0 <= i < |MJ(z)|
    ensures MJ(z)[i] == z.totalAngularMomentum - i as real
  {
  }

  /** The projections strictly decrease, so no value appears twice. */
  lemma MJStrictlyDescending(z: Zeeman, i: int, k: int)
    requires 0 <= i < k < |MJ(z)|
    ensures MJ(z)[i] - MJ(z)[k] == (k - i) as real
    ensures MJ(z)[i] > MJ(z)[k]
  {
    MJAt(z, i);
    MJAt(z, k);
  }

  /** The length of MJ is the same whether 2J+1 is truncated toward zero or
      floored: the two differ only on negative values, where the list is
      empty either way. */
  lemma MJLengthByFloor(z: Zeeman)
    ensures |MJ(z)| == Max0((2.0 * z.totalAngularMomentum + 1.0).Floor)
  {
  }

  /** For an integer or half-integer J >= 0 there are exactly 2J+1
      projections, the last of which is -J. */
  lemma MJLengthAndLast(z: Zeeman)
    requires IsAngularMomentum(z.totalAngularMomentum)
    ensures |MJ(z)| as real == 2.0 * z.totalAngularMomentum + 1.0
    ensures MJ(z)[|MJ(z)| - 1] == -z.totalAngularMomentum
  {
    var j := z.totalAngularMomentum;
    assert Trunc(2.0 * j + 1.0) == (2.0 * j).Floor + 1;
    MJAt(z, |MJ(z)| - 1);
  }

  /** For an integer or half-integer J >= 0 the projections are symmetric
      about zero: the k-th from the front is minus the k-th from the back. */
  lemma MJSymmetric(z: Zeeman, k: int)
    requires IsAngularMomentum(z.totalAngularMomentum)
    requires 0 <= k < |MJ(z)|
    ensures MJ(z)[k] == -MJ(z)[|MJ(z)| - 1 - k]
  {
    MJLengthAndLast(z);
    MJAt(z, k);
    MJAt(z, |MJ(z)| - 1 - k);
  }

  /** For an integer or half-integer J >= 0, MJ holds exactly the values
      between -J and J that differ from J by an integer. */
  lemma MJMembers(z: Zeeman, x: real)
    requires IsAngularMomentum(z.totalAngularMomentum)
    ensures x in MJ(z) <==>
      -z.totalAngularMomentum <= x <= z.totalAngularMomentum
      && IsIntegral(z.totalAngularMomentum - x)
  {
    var j := z.totalAngularMomentum;
    MJLengthAndLast(z);
    if x in MJ(z) {
      var i :| 0 <= i < |MJ(z)| && MJ(z)[i] == x;
      MJAt(z, i);
    }
    if -j <= x <= j && IsIntegral(j - x) {
      var i := (j - x).Floor;
      MJAt(z, i);
      assert MJ(z)[i] == x;
    }
  }

  /** Entry i of ML is L - i. */
  lemma MLAt(z: Zeeman, i: int)
    requires 0 <= i < |ML(z)|
    ensures ML(z)[i] == z.orbitalAngularMomentum - i
  {
  }

  /** For L >= 0, ML ends at -L and is symmetric about zero. */
  lemma MLSymmetric(z: Zeeman, k: int)
    requires z.orbitalAngularMomentum >= 0
    requires 0 <= k < |ML(z)|
    ensures ML(z)[|ML(z)| - 1] == -z.orbitalAngularMomentum
    ensures ML(z)[k] == -ML(z)[|ML(z)| - 1 - k]
  {
    MLAt(z, |ML(z)| - 1);
    MLAt(z, k);
    MLAt(z, |ML(z)| - 1 - k);
  }

  /** For L >= 0, ML holds every integer from -L to L and nothing else. */
  lemma MLMembers(z: Zeeman, x: int)
    requires z.orbitalAngularMomentum >= 0
    ensures x in ML(z) <==> -z.orbitalAngularMomentum <= x <= z.orbitalAngularMomentum
  {
    var l := z.orbitalAngularMomentum;
    if x in ML(z) {
      var i :| 0 <= i < |ML(z)| && ML(z)[i] == x;
      MLAt(z, i);
    }
    if -l <= x <= l {
      MLAt(z, l - x);
    }
  }

  /** MJ and ML are the same construction: when J equals L, MJ is ML read
      as reals. */
  lemma MJMatchesML(z: Zeeman)
    requires z.totalAngularMomentum == z.orbitalAngularMomentum as real
    ensures |MJ(z)| == |ML(z)|
    ensures forall i :: 0 <= i < |MJ(z)| ==> MJ(z)[i] == ML(z)[i] as real
  {
    assert Trunc(2.0 * z.totalAngularMomentum + 1.0) == 2 * z.orbitalAngularMomentum + 1;
    forall i | 0 <= i < |MJ(z)|
      ensures MJ(z)[i] == ML(z)[i] as real
    {
      MJAt(z, i);
      MLAt(z, i);
    }
  }

  // ---------------------------------------------------------------------
  // Properties of the g-factor

  /** A singlet line (multiplicity 1, so S = 0) with J = L has g = 1. */
  lemma GFactorSinglet(z: Zeeman)
    requires z.spinMultiplicity == 1
    requires z.totalAngularMomentum == z.orbitalAngularMomentum as real
    requires z.orbitalAngularMomentum != 0 && z.orbitalAngularMomentum != -1
    ensures GFactor(z) == Ok(1.0)
  {
    assert Spin(z) == 0.0;
    assert LandeNumerator(z) == 0.0;
    assert LandeDenominator(z) != 0.0 by {
      assert GFactor(z).Ok?;
    }
  }

  /** With no orbital momentum (L = 0) and J = S, g takes the spin-only
      value 2. */
  lemma GFactorSpinOnly(z: Zeeman)
    requires z.orbitalAngularMomentum == 0
    requires z.totalAngularMomentum == Spin(z)
    requires z.totalAngularMomentum != 0.0 && z.totalAngularMomentum != -1.0
    ensures GFactor(z) == Ok(2.0)
  {
    var j := z.totalAngularMomentum;
    var p := j * (j + 1.0);
    assert LandeNumerator(z) == 2.0 * p;
    assert LandeDenominator(z) == 2.0 * p;
    assert LandeDenominator(z) != 0.0 by {
      assert GFactor(z).Ok?;
    }
    assert LandeNumerator(z) / LandeDenominator(z) == 1.0;
  }

  // ---------------------------------------------------------------------
  // Properties of the difference table

  /** Entry (i, k) of the table is the difference of the two J's shifted by
      the difference of the indices. */
  lemma DeltaMJAt(a: Zeeman, b: Zeeman, i: int, k: int)
    requires 0 <= i < |MJ(a)| && 0 <= k < |MJ(b)|
    ensures DeltaMJ(a, b)[i][k] == MJ(b)[k] - MJ(a)[i]
    ensures DeltaMJ(a, b)[i][k] ==
      (b.totalAngularMomentum - a.totalAngularMomentum) + (i - k) as real
  {
    MJAt(a, i);
    MJAt(b, k);
  }

  /** Swapping the two lines negates and transposes the table, whatever the
      lengths of their projection lists. */
  lemma DeltaMJMirror(a: Zeeman, b: Zeeman)
    ensures DeltaMJ(a, b) == NegatedTranspose(DeltaMJ(b, a), |MJ(b)|, |MJ(a)|)
  {
    var d, e := DeltaMJ(a, b), NegatedTranspose(DeltaMJ(b, a), |MJ(b)|, |MJ(a)|);
    forall i | 0 <= i < |MJ(a)|
      ensures d[i] == e[i]
    {
      forall k | 0 <= k < |MJ(b)|
        ensures d[i][k] == e[i][k]
      {
        DeltaMJAt(a, b, i, k);
        DeltaMJAt(b, a, k, i);
      }
    }
  }

  /** The table of a line with itself is zero on the diagonal and
      antisymmetric. */
  lemma DeltaMJSelf(a: Zeeman, i: int, k: int)
    requires 0 <= i < |MJ(a)| && 0 <= k < |MJ(a)|
    ensures DeltaMJ(a, a)[i][i] == 0.0
    ensures DeltaMJ(a, a)[i][k] == -DeltaMJ(a, a)[k][i]
  {
    DeltaMJAt(a, a, i, i);
    DeltaMJAt(a, a, i, k);
    DeltaMJAt(a, a, k, i);
  }
}

/** The two singlet lines of the source's demonstration, (1, 2, 2) and
    (1, 3, 3), and a few further lines that show edge cases of the
    projection lists, with their derived values worked out. */
module ZeemanDemo {
  import opened ZeemanSplitting

  const A1 := Zeeman(1, 2, 2.0)
  const A2 := Zeeman(1, 3, 3.0)

  /** Both demonstration lines are singlets: S = 0, and g = 1. */
  lemma DemoSpinAndGFactor()
    ensures Spin(A1) == 0.0 && Spin(A2) == 0.0
    ensures GFactor(A1) == Ok(1.0) && GFactor(A2) == Ok(1.0)
  {
    GFactorSinglet(A1);
    GFactorSinglet(A2);
  }

  /** The projection lists of the demonstration lines. */
  lemma DemoProjections()
    ensures ML(A1) == [2, 1, 0, -1, -2]
    ensures ML(A2) == [3, 2, 1, 0, -1, -2, -3]
    ensures MJ(A1) == [2.0, 1.0, 0.0, -1.0, -2.0]
    ensures MJ(A2) == [3.0, 2.0, 1.0, 0.0, -1.0, -2.0, -3.0]
  {
    forall i | 0 <= i < 5 ensures ML(A1)[i] == 2 - i && MJ(A1)[i] == 2.0 - i as real {
      MLAt(A1, i);
      MJAt(A1, i);
    }
    forall i | 0 <= i < 7 ensures ML(A2)[i] == 3 - i && MJ(A2)[i] == 3.0 - i as real {
      MLAt(A2, i);
      MJAt(A2, i);
    }
  }

  /** The difference tables of the demonstration: 5 rows of 7 one way,
      7 rows of 5 the other. */
  lemma DemoDeltaMJ()
    ensures IsTable(DeltaMJ(A1, A2), 5, 7)
    ensures DeltaMJ(A1, A2)[0] == [1.0, 0.0, -1.0, -2.0, -3.0, -4.0, -5.0]
    ensures IsTable(DeltaMJ(A2, A1), 7, 5)
    ensures DeltaMJ(A2, A1)[0] == [-1.0, -2.0, -3.0, -4.0, -5.0]
  {
    DemoProjections();
  }

  /** A doublet S line (multiplicity 2, L = 0, J = 1/2) has the two
      projections 1/2 and -1/2 and the spin-only g-factor 2. */
  lemma DemoDoublet()
    ensures MJ(Zeeman(2, 0, 0.5)) == [0.5, -0.5]
    ensures GFactor(Zeeman(2, 0, 0.5)) == Ok(2.0)
  {
    var z := Zeeman(2, 0, 0.5);
    MJAt(z, 1);
    GFactorSpinOnly(z);
  }

  /** A J that is not a multiple of 1/2 still gives J, J-1, ... with
      2J+1 truncated entries, and the list is not symmetric; a J whose
      2J+1 is negative gives no projections, although truncation and
      flooring disagree on it. */
  lemma DemoTruncation()
    ensures MJ(Zeeman(1, 0, 0.7)) == [0.7, -0.3]
    ensures Trunc(-0.5) == 0 && (-0.5).Floor == -1
    ensures MJ(Zeeman(1, 0, -0.75)) == []
  {
    MJAt(Zeeman(1, 0, 0.7), 1);
  }

  /** J = 0 and J = -1 make the g-factor's denominator vanish. */
  lemma DemoGFactorFaults()
    ensures GFactor(Zeeman(1, 0, 0.0)) == ZeroDivisionError
    ensures GFactor(Zeeman(3, 1, -1.0)) == ZeroDivisionError
  {
  }
}

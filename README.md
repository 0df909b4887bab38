# Zeeman splitting of a spectral line

A model of the `Zeeman` class of the atomic-physics repository. A
spectral line is given by three numbers: its spin multiplicity 2S+1, its
orbital angular momentum L (an integer) and its total angular momentum J. The
class derives five things from them:

- the spin S = (multiplicity − 1)/2;
- the projections `mj` of J: J, J−1, …, with as many entries as 2J+1
  truncated toward zero;
- the projections `ml` of L, built the same way;
- the Landé g-factor g = 1 + [J(J+1) + S(S+1) − L(L+1)] / [2J(J+1)];
- `delta_mj(other)`, the table whose entry (i, k) is `other.mj[k] − self.mj[i]`.

The class is a value: its fields are set once and never changed. The model is
therefore the immutable datatype `ZeemanSplitting.Zeeman`, with one function
per property and lemmas that state what the lists and the g-factor mean
(`zeeman.dfy`). The module `ZeemanDemo` (`zeeman_demo.dfy`) works out the two
lines of the source's demonstration, (1, 2, 2) and (1, 3, 3), and a few edge
cases.

Modelling decisions:

- Floats become exact `real`s. Angular momenta are integers or half-integers,
  so exact rationals are what the formulas mean.
- The conversion of 2J+1 to an integer truncates toward zero. It is the
  function `Trunc`. A count of zero or less gives an empty list, as an empty
  `range` does. `MJLengthByFloor` shows that flooring would give the same
  length.
- The g-factor's division faults when 2J(J+1) is zero. That happens for
  J = 0 and also for J = −1. `GFactor` returns `ZeroDivisionError` in exactly
  those cases and does not require them away.
- No range checks are added. The class accepts any multiplicity, L and J, and
  so does the model. Facts that hold only for physical values carry that as a
  precondition: J ≥ 0 with 2J an integer, or L ≥ 0.
- `a.delta_mj(b)` is the negated transpose of `b.delta_mj(a)` for every pair
  of lines, whatever the lengths of their projection lists (`DeltaMJMirror`).

## Model

| member | source | states |
|---|---|---|
| ZeemanSplitting.Trunc | Zeeman.py:30 | the integer conversion truncates toward zero: for x ≥ 0 the result is the largest integer ≤ x, for x < 0 the smallest integer ≥ x |
| ZeemanSplitting.Spin | Zeeman.py:22-25 | the spin S satisfies 2S + 1 = multiplicity, exactly |
| ZeemanSplitting.MJ | Zeeman.py:27-31 | `mj` has max(0, int(2J+1)) entries, starts at J and each entry is one less than the one before |
| ZeemanSplitting.ML | Zeeman.py:33-37 | `ml` has max(0, 2L+1) entries, starts at L and each entry is one less than the one before |
| ZeemanSplitting.GFactor | Zeeman.py:39-53 | the division faults if and only if J = 0 or J = −1; otherwise g satisfies 2J(J+1)(g − 1) = J(J+1) + S(S+1) − L(L+1) |
| ZeemanSplitting.DeltaMJ | Zeeman.py:55-58 | the table has one row per entry of `self.mj` and one column per entry of `other.mj`, and entry (i, k) is `other.mj[k] - self.mj[i]` |
| ZeemanSplitting.MJAt | Zeeman.py:30 | entry i of `mj` is J − i |
| ZeemanSplitting.MJStrictlyDescending | Zeeman.py:30 | an earlier entry of `mj` exceeds a later one by the difference of their indices, so the entries are distinct |
| ZeemanSplitting.MJLengthByFloor | Zeeman.py:30 | the length of `mj` is the same whether 2J+1 is truncated or floored |
| ZeemanSplitting.MJLengthAndLast | Zeeman.py:27-31 | for J ≥ 0 with 2J an integer, `mj` has exactly 2J+1 entries and ends at −J |
| ZeemanSplitting.MJSymmetric | Zeeman.py:27-31 | for J ≥ 0 with 2J an integer, `mj[k] == -mj[|mj|-1-k]` |
| ZeemanSplitting.MJMembers | Zeeman.py:27-31 | for J ≥ 0 with 2J an integer, x is in `mj` if and only if −J ≤ x ≤ J and J − x is an integer |
| ZeemanSplitting.MLAt | Zeeman.py:36 | entry i of `ml` is L − i |
| ZeemanSplitting.MLSymmetric | Zeeman.py:33-37 | for L ≥ 0, `ml` ends at −L and `ml[k] == -ml[|ml|-1-k]` |
| ZeemanSplitting.MLMembers | Zeeman.py:33-37 | for L ≥ 0, x is in `ml` if and only if −L ≤ x ≤ L |
| ZeemanSplitting.MJMatchesML | Zeeman.py:30-36 | `mj` and `ml` are the same construction: when J = L they have the same length and equal entries |
| ZeemanSplitting.GFactorSinglet | Zeeman.py:45-52 | multiplicity 1 (S = 0) and J = L, with J not 0 or −1, give g = 1 |
| ZeemanSplitting.GFactorSpinOnly | Zeeman.py:45-52 | L = 0 and J = S, with J not 0 or −1, give g = 2 |
| ZeemanSplitting.DeltaMJAt | Zeeman.py:57 | entry (i, k) of `delta_mj` is `other.mj[k] - self.mj[i]`, which equals (J_other − J_self) + (i − k) |
| ZeemanSplitting.DeltaMJMirror | Zeeman.py:57 | `a.delta_mj(b)` is the negated transpose of `b.delta_mj(a)`, for every pair of lines |
| ZeemanSplitting.DeltaMJSelf | Zeeman.py:57 | `a.delta_mj(a)` is zero on the diagonal and antisymmetric |
| ZeemanDemo.DemoSpinAndGFactor | Zeeman.py:62-67 | the lines (1, 2, 2) and (1, 3, 3) have S = 0 and g = 1 |
| ZeemanDemo.DemoProjections | Zeeman.py:62-71 | for those lines `ml` and `mj` are [2, 1, 0, −1, −2] and [3, 2, 1, 0, −1, −2, −3] |
| ZeemanDemo.DemoDeltaMJ | Zeeman.py:72-73 | their difference tables are 5 × 7 and 7 × 5, and their first rows are [1, 0, −1, −2, −3, −4, −5] and [−1, −2, −3, −4, −5] |
| ZeemanDemo.DemoDoublet | Zeeman.py:27-53 | a line with multiplicity 2, L = 0 and J = 1/2 has `mj` = [1/2, −1/2] and g = 2 |
| ZeemanDemo.DemoTruncation | Zeeman.py:30 | J = 0.7 gives `mj` = [0.7, −0.3], and J = −0.75 gives an empty `mj` |
| ZeemanDemo.DemoGFactorFaults | Zeeman.py:45-52 | J = 0 and J = −1 make the g-factor fault |

## Left out

- The printing in the demonstration block (Zeeman.py:61-73) is left out. Its
  two lines are used only as inputs to the `ZeemanDemo` lemmas.
- IEEE-754 behaviour is left out: rounding in `2*J+1` and in the g-factor
  division, overflow to inf, `OverflowError` when a large integer is converted
  to a float (in `spin` or in `L*(L+1)`), and nan. The model uses exact reals,
  which is what the formulas mean.
- Python's dynamic typing is left out. The model fixes the field types the
  class annotates: an integer multiplicity, an integer L and a real J.
- The Python exception is modelled as the value `ZeroDivisionError` of the
  result datatype. The model does not capture unwinding to a caller.

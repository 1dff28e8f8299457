# Child maintenance calculator — Dafny model

This project models `calculate_child_maintenance`, the function behind a small
child-maintenance calculator. From the father's and mother's monthly incomes and the
number of eligible children it computes a monthly minimum and maximum amount:

- a missing income counts as 0;
- the two incomes are added into the total income;
- 6% and 8% of the total form the low and high pools;
- each pool is discounted by `0.95 ** (n - 1)` for `n` children;
- each pool is split per child, each share is floored at 350 (low) or 450 (high);
- the shares are multiplied back by `n` and rounded to two decimals.

The function also returns the total income and its four constants (0.06, 0.08, 350, 450).

Files:

- `wrappers.dfy` — `Option` (a possibly missing income) and `Result` (a call that raises).
- `python_numeric.dfy` — module `PythonNumeric`: the Python built-ins the formula uses
  (`max`, `**` with an integer exponent, `round(x, 2)`), over exact reals, with their laws.
- `child_maintenance_calculator.dfy` — module `ChildMaintenanceCalculator`: the formula
  (`Calculate`) and the properties it guarantees.

Facts about the code that the model keeps:

- With zero income the floors still apply, so the result is exactly `(350·n, 450·n)`
  (`ZeroIncome`), not zero.
- The function does not reject negative incomes; only the input form
  (child_maintenance_calculator.py:33-35, minimum 0 for incomes, minimum 1 for children)
  keeps them out. So `Calculate` accepts any income, and the lemmas that need `n ≥ 1` state
  it as a precondition.
- The function takes a child count, not a list of ages: there is no age weighting and no
  eligibility ceiling.
- Zero children make the code divide by zero, which `Calculate` returns as a failure. A
  negative child count, which the form never passes, is computed with `0.95 ** (n - 1)` as
  the reciprocal of a positive power (`IntPow`); see "## Left out" for where Python's float
  power differs there.

## Model

| member | source | states |
|---|---|---|
| `PythonNumeric.Max` | child_maintenance_calculator.py:21-22 | `max(a, b)` is at least both arguments and equal to one of them |
| `PythonNumeric.Pow` | child_maintenance_calculator.py:20 | a power of a positive base is positive; a base in (0, 1] gives at most 1; a base in (0, 1) with a positive exponent gives less than 1 |
| `PythonNumeric.PowAntitone` | child_maintenance_calculator.py:20 | for a base in (0, 1], a larger exponent never gives a larger power |
| `PythonNumeric.IntPow` | child_maintenance_calculator.py:20 | `r ** e` for any integer `e` is non-zero and positive for a positive base; for a base in (0, 1) it is 1 exactly at `e = 0` and below 1 exactly for `e > 0` |
| `PythonNumeric.IntPowStep` | child_maintenance_calculator.py:20 | `r ** (e + 1) == r * r ** e` for every integer exponent, negative ones included |
| `PythonNumeric.RoundHalfEven` | child_maintenance_calculator.py:27 | the chosen integer lies within 0.5 of the input, is the input itself when that is whole, and is even when the input lies exactly halfway between two integers |
| `PythonNumeric.Round2` | child_maintenance_calculator.py:27 | `round(x, 2)` is a whole number of hundredths within 0.005 of `x`; when `x` lies exactly halfway between two hundredths, the even one is chosen |
| `PythonNumeric.RoundHalfEvenMonotone` | child_maintenance_calculator.py:27 | rounding to the nearest integer (ties to even) preserves order |
| `PythonNumeric.Round2Monotone` | child_maintenance_calculator.py:27 | `round(·, 2)` preserves order |
| `PythonNumeric.Round2Fixes` | child_maintenance_calculator.py:27 | `round(·, 2)` leaves an amount that already has two decimals unchanged |
| `ChildMaintenanceCalculator.DiminishingFactor` | child_maintenance_calculator.py:20 | `0.95 ** (n - 1)` is positive, equals 1 exactly for one child and is below 1 exactly for more than one |
| `ChildMaintenanceCalculator.DiminishingFactorStep` | child_maintenance_calculator.py:20 | each additional child multiplies the factor by 0.95 |
| `ChildMaintenanceCalculator.DiminishingFactorAntitone` | child_maintenance_calculator.py:20 | more children never give a larger factor |
| `ChildMaintenanceCalculator.Calculate` | child_maintenance_calculator.py:5-27 | fails exactly when there are zero children; otherwise returns the sum of the normalised incomes as the total income, the constants 0.06, 0.08, 350 and 450, and the two figures with two decimals each, within 0.005 of their unrounded values |
| `ChildMaintenanceCalculator.MissingIncomeIsZero` | child_maintenance_calculator.py:6-7 | a missing income of either parent gives the same result as an income of 0 |
| `ChildMaintenanceCalculator.UnroundedTotals` | child_maintenance_calculator.py:16-25 | before rounding, each figure equals the larger of the family floor (350·n or 450·n) and the discounted pool: the per-child split and the multiplication back cancel |
| `ChildMaintenanceCalculator.UnroundedMinAtMostMax` | child_maintenance_calculator.py:10-25 | before rounding, the minimum is no greater than the maximum for any total income, non-negative factor and positive child count |
| `ChildMaintenanceCalculator.UnroundedMonotone` | child_maintenance_calculator.py:16-25 | before rounding, a larger income never gives a smaller minimum or maximum |
| `ChildMaintenanceCalculator.MaintenanceFloors` | child_maintenance_calculator.py:13-25 | for every `n ≥ 1` each child's low share is at least 350 and high share at least 450, and the returned minimum is at least 350·n and the maximum at least 450·n |
| `ChildMaintenanceCalculator.MinAtMostMax` | child_maintenance_calculator.py:10-27 | for any incomes (missing, negative or positive) and `n ≥ 1`, the returned minimum never exceeds the returned maximum |
| `ChildMaintenanceCalculator.ZeroIncome` | child_maintenance_calculator.py:16-27 | with a total income of 0 the result is exactly `(350·n, 450·n, 0, 0.06, 0.08, 350, 450)` |
| `ChildMaintenanceCalculator.MonotoneInIncome` | child_maintenance_calculator.py:9-27 | with `n` fixed, raising either parent's income never lowers the minimum or the maximum |
| `ChildMaintenanceCalculator.SingleChild` | child_maintenance_calculator.py:20-27 | for one child the figures are `round(max(350, 0.06·total), 2)` and `round(max(450, 0.08·total), 2)` |

## Left out

- The Streamlit page (child_maintenance_calculator.py:29-46): title, sidebar inputs, the
  Calculate button and the display of the results. Only its minimum of one child appears,
  as a lemma precondition; no lemma needs its minimum of 0 for incomes.
- The download button and its text export (child_maintenance_calculator.py:48-56): browser I/O.
- The CSS block (child_maintenance_calculator.py:58-75): markup only.
- Binary floating point: every amount is an exact real. `0.95 ** (n - 1)`, the products and
  the division are exact, so for the inputs the form allows results can differ from
  Python's in the last bits.
- `ChildMaintenanceCalculator.Calculate`: Python's float `**` raises `OverflowError` once
  `0.95 ** (n - 1)` exceeds the largest float, that is for child counts below about
  −13 800; the exact-real model returns a result there. The form never passes such a count.
- `PythonNumeric.Round2`: rounds the exact real, ties to even. Python rounds the binary
  float, so a decimal tie such as 2.675 (stored slightly below) may round the other way.
- `ChildMaintenanceCalculator.OrZero`: models `income or 0` for a missing income and for 0.
  Python's other falsy values (such as `False`) cannot come from the form and are not modelled.
- Python's `int`/`float` distinction (`max(350, x)` may return the integer 350): the values
  are equal, so the model uses reals throughout.

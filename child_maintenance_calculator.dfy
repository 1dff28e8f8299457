/**
 The monthly child-maintenance range: from the two parents' incomes and the number of
 eligible children, a minimum and a maximum amount. Each figure is a percentage of the
 combined income (6% and 8%), discounted by 5% per additional child, split per child with
 a per-child floor (350 and 450), multiplied back up by the number of children and
 rounded to cents.
 */
module ChildMaintenanceCalculator {
  import opened Wrappers
  import opened PythonNumeric

  const LowPercentage: real := 0.06
  const HighPercentage: real := 0.08
  /** Floor of each child's share in the minimum figure. */
  const BasePerChild: real := 350.0
  /** Floor of each child's share in the maximum figure. */
  const MaxPerChild: real := 450.0
  /** Each child after the first scales the pool by this factor. */
  const DiminishingRate: real := 0.95

  /** Python raises `ZeroDivisionError` when the share is divided by zero children. */
  datatype CalcError = ZeroDivision

  /** The seven values the calculator returns, in the order it returns them. */
  datatype Maintenance = Maintenance(
    minMaintenance: real,
    maxMaintenance: real,
    totalIncome: real,
    lowPercentage: real,
    highPercentage: real,
    basePerChild: real,
    maxPerChild: real)

  /** `income or 0`: a missing income (and a zero one) counts as 0. */
  function OrZero(income: Option<real>): real {
    match income
    case None => 0.0
    case Some(v) => v
  }

  /** `0.95 ** (n - 1)`: exactly 1 for one child, below 1 for more, above 1 for n <= 0. */
  function DiminishingFactor(n: int): (f: real)
    ensures 0.0 < f
    ensures f == 1.0 <==> n == 1
    ensures f < 1.0 <==> n > 1
  {
    IntPow(DiminishingRate, n - 1)
  }

  /** `low_amount`: each of `count` children's share of the discounted low pool, at least `BasePerChild`. */
  function LowAmount(total: real, factor: real, count: real): real
    requires count != 0.0
  {
    Max(BasePerChild, total * LowPercentage * factor / count)
  }

  /** `high_amount`: each of `count` children's share of the discounted high pool, at least `MaxPerChild`. */
  function HighAmount(total: real, factor: real, count: real): real
    requires count != 0.0
  {
    Max(MaxPerChild, total * HighPercentage * factor / count)
  }

  /** `min_maintenance` before rounding: the low share times the number of children. */
  function MinMaintenance(total: real, factor: real, count: real): real
    requires count != 0.0
  {
    LowAmount(total, factor, count) * count
  }

  /** `max_maintenance` before rounding: the high share times the number of children. */
  function MaxMaintenance(total: real, factor: real, count: real): real
    requires count != 0.0
  {
    HighAmount(total, factor, count) * count
  }

  /**
   `calculate_child_maintenance(father_income, mother_income, num_children)`.
   Zero children make Python divide by zero; every other child count yields a result.
   */
  function Calculate(father: Option<real>, mother: Option<real>, numChildren: int)
    : (res: Result<Maintenance, CalcError>)
    ensures res.Failure? <==> numChildren == 0
    ensures res.Success? ==>
      && res.value.totalIncome == OrZero(father) + OrZero(mother)
      && res.value.lowPercentage == 0.06 && res.value.highPercentage == 0.08
      && res.value.basePerChild == 350.0 && res.value.maxPerChild == 450.0
    ensures res.Success? ==>
      var exactMin := MinMaintenance(res.value.totalIncome, DiminishingFactor(numChildren), numChildren as real);
      var exactMax := MaxMaintenance(res.value.totalIncome, DiminishingFactor(numChildren), numChildren as real);
      && HasTwoDecimals(res.value.minMaintenance)
      && HasTwoDecimals(res.value.maxMaintenance)
      && -0.005 <= res.value.minMaintenance - exactMin <= 0.005
      && -0.005 <= res.value.maxMaintenance - exactMax <= 0.005
  {
    var total := OrZero(father) + OrZero(mother);
    if numChildren == 0 then Failure(ZeroDivision)
    else
      var factor := DiminishingFactor(numChildren);
      Success(Maintenance(
        Round2(MinMaintenance(total, factor, numChildren as real)),
        Round2(MaxMaintenance(total, factor, numChildren as real)),
        total, LowPercentage, HighPercentage, BasePerChild, MaxPerChild))
  }

  // ---------------------------------------------------------------------------
  // Properties

  /** A missing income gives the same result as an income of 0, for either parent. */
  lemma MissingIncomeIsZero(father: Option<real>, mother: Option<real>, n: int)
    ensures Calculate(None, mother, n) == Calculate(Some(0.0), mother, n)
    ensures Calculate(father, None, n) == Calculate(father, Some(0.0), n)
  {
  }

  /** Each additional child scales the diminishing factor by 0.95. */
  lemma DiminishingFactorStep(n: int)
    ensures DiminishingFactor(n + 1) == DiminishingRate * DiminishingFactor(n)
  {
    IntPowStep(DiminishingRate, n - 1);
  }

  /** More children never give a larger diminishing factor. */
  lemma DiminishingFactorAntitone(n1: int, n2: int)
    requires 1 <= n1 <= n2
    ensures DiminishingFactor(n2) <= DiminishingFactor(n1)
  {
    PowAntitone(DiminishingRate, n1 - 1, n2 - 1);
  }

  /**
   Splitting per child and multiplying back cancel out: before rounding, each figure is
   the larger of the whole family's floor and the discounted pool.
   */
  lemma UnroundedTotals(total: real, factor: real, count: real)
    requires count > 0.0
    ensures MinMaintenance(total, factor, count) == Max(BasePerChild * count, total * LowPercentage * factor)
    ensures MaxMaintenance(total, factor, count) == Max(MaxPerChild * count, total * HighPercentage * factor)
  {
    SplitAndRejoin(BasePerChild, total * LowPercentage * factor, count);
    SplitAndRejoin(MaxPerChild, total * HighPercentage * factor, count);
  }

  /** A floored equal split over `c` parts, multiplied back by `c`, is the larger of the total floor and the whole. */
  lemma SplitAndRejoin(floor: real, whole: real, c: real)
    requires c > 0.0
    ensures Max(floor, whole / c) * c == Max(floor * c, whole)
  {
    var share := whole / c;
    assert share * c == whole;
    if share > floor {
      assert share * c - floor * c == (share - floor) * c;
    } else {
      assert floor * c - share * c == (floor - share) * c;
    }
  }

  /** Scaling by a non-negative factor keeps the order of two amounts. */
  lemma ScaleMonotone(x: real, y: real, c: real)
    requires x <= y && 0.0 <= c
    ensures x * c <= y * c
  {
    assert y * c - x * c == (y - x) * c;
  }

  /**
   Before rounding, the low figure never exceeds the high one, whatever the income: a
   non-negative pool is smaller at 6% than at 8%, and a negative one leaves both figures at
   their floors.
   */
  lemma UnroundedMinAtMostMax(total: real, factor: real, count: real)
    requires factor >= 0.0 && count > 0.0
    ensures MinMaintenance(total, factor, count) <= MaxMaintenance(total, factor, count)
  {
    UnroundedTotals(total, factor, count);
    ScaleMonotone(BasePerChild, MaxPerChild, count);
    if total >= 0.0 {
      ScaleMonotone(LowPercentage, HighPercentage, total);
      ScaleMonotone(total * LowPercentage, total * HighPercentage, factor);
    } else {
      PoolMonotone(total, 0.0, LowPercentage, factor);
      assert total * LowPercentage * factor <= 0.0;
      assert 0.0 < BasePerChild * count;
    }
  }

  /** Before rounding, a larger income never gives a smaller figure. */
  lemma UnroundedMonotone(total1: real, total2: real, factor: real, count: real)
    requires total1 <= total2 && factor >= 0.0 && count > 0.0
    ensures MinMaintenance(total1, factor, count) <= MinMaintenance(total2, factor, count)
    ensures MaxMaintenance(total1, factor, count) <= MaxMaintenance(total2, factor, count)
  {
    UnroundedTotals(total1, factor, count);
    UnroundedTotals(total2, factor, count);
    PoolMonotone(total1, total2, LowPercentage, factor);
    PoolMonotone(total1, total2, HighPercentage, factor);
  }

  /** The discounted pool grows with the income it is taken from. */
  lemma PoolMonotone(total1: real, total2: real, rate: real, factor: real)
    requires total1 <= total2 && rate >= 0.0 && factor >= 0.0
    ensures total1 * rate * factor <= total2 * rate * factor
  {
    ScaleMonotone(total1, total2, rate);
    ScaleMonotone(total1 * rate, total2 * rate, factor);
  }

  /**
   The per-child floors hold for every number of children: each child's low share is at
   least 350 and its high share at least 450, so the minimum is at least 350 per child and
   the maximum at least 450 per child.
   */
  lemma MaintenanceFloors(father: Option<real>, mother: Option<real>, n: int)
    requires n >= 1
    ensures var total := OrZero(father) + OrZero(mother);
      var factor := DiminishingFactor(n);
      LowAmount(total, factor, n as real) >= 350.0 && HighAmount(total, factor, n as real) >= 450.0
    ensures Calculate(father, mother, n).Success?
    ensures Calculate(father, mother, n).value.minMaintenance >= 350.0 * n as real
    ensures Calculate(father, mother, n).value.maxMaintenance >= 450.0 * n as real
  {
    var total, factor, count := OrZero(father) + OrZero(mother), DiminishingFactor(n), n as real;
    UnroundedTotals(total, factor, count);
    WholeHasTwoDecimals(350 * n);
    WholeHasTwoDecimals(450 * n);
    Round2Monotone(350.0 * count, MinMaintenance(total, factor, count));
    Round2Monotone(450.0 * count, MaxMaintenance(total, factor, count));
    Round2Fixes(350.0 * count);
    Round2Fixes(450.0 * count);
  }

  /** For every income and at least one child, the minimum never exceeds the maximum. */
  lemma MinAtMostMax(father: Option<real>, mother: Option<real>, n: int)
    requires n >= 1
    ensures Calculate(father, mother, n).Success?
    ensures Calculate(father, mother, n).value.minMaintenance <= Calculate(father, mother, n).value.maxMaintenance
  {
    var total, factor, count := OrZero(father) + OrZero(mother), DiminishingFactor(n), n as real;
    UnroundedMinAtMostMax(total, factor, count);
    Round2Monotone(MinMaintenance(total, factor, count), MaxMaintenance(total, factor, count));
  }

  /** With no income at all, each figure is exactly its floor for the whole family. */
  lemma ZeroIncome(father: Option<real>, mother: Option<real>, n: int)
    requires n >= 1
    requires OrZero(father) + OrZero(mother) == 0.0
    ensures Calculate(father, mother, n)
      == Success(Maintenance(350.0 * n as real, 450.0 * n as real, 0.0, 0.06, 0.08, 350.0, 450.0))
  {
    var factor, count := DiminishingFactor(n), n as real;
    UnroundedTotals(0.0, factor, count);
    WholeHasTwoDecimals(350 * n);
    WholeHasTwoDecimals(450 * n);
    Round2Fixes(350.0 * count);
    Round2Fixes(450.0 * count);
  }

  /** With the number of children fixed, a higher income for either parent never lowers either figure. */
  lemma MonotoneInIncome(father1: Option<real>, mother1: Option<real>,
                         father2: Option<real>, mother2: Option<real>, n: int)
    requires n >= 1
    requires OrZero(father1) <= OrZero(father2) && OrZero(mother1) <= OrZero(mother2)
    ensures Calculate(father1, mother1, n).Success? && Calculate(father2, mother2, n).Success?
    ensures Calculate(father1, mother1, n).value.minMaintenance <= Calculate(father2, mother2, n).value.minMaintenance
    ensures Calculate(father1, mother1, n).value.maxMaintenance <= Calculate(father2, mother2, n).value.maxMaintenance
  {
    var t1, t2 := OrZero(father1) + OrZero(mother1), OrZero(father2) + OrZero(mother2);
    var factor, count := DiminishingFactor(n), n as real;
    UnroundedMonotone(t1, t2, factor, count);
    Round2Monotone(MinMaintenance(t1, factor, count), MinMaintenance(t2, factor, count));
    Round2Monotone(MaxMaintenance(t1, factor, count), MaxMaintenance(t2, factor, count));
  }

  /** For a single child there is no discount: the figures are the floors or the plain percentages. */
  lemma SingleChild(father: Option<real>, mother: Option<real>)
    ensures var total := OrZero(father) + OrZero(mother);
      Calculate(father, mother, 1) == Success(Maintenance(
        Round2(Max(350.0, 0.06 * total)), Round2(Max(450.0, 0.08 * total)),
        total, 0.06, 0.08, 350.0, 450.0))
  {
    var total := OrZero(father) + OrZero(mother);
    assert DiminishingFactor(1) == 1.0;
    UnroundedTotals(total, 1.0, 1.0);
  }
}

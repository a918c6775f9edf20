/** Kärber's method for estimating the median lethal dose (LD50) from grouped
    dose–mortality data with arbitrary dose spacing.

    Doses and the estimate are `real`; death counts and the group size are
    `int`. Python's float rounding is not modelled. */
module Karber {

  /** Why an estimate could not be produced. The first three are the
      `ValueError`s the function raises on purpose; the last two are the
      `ZeroDivisionError` and `IndexError` Python raises on its own. */
  datatype KarberError =
    | LengthMismatch      // the dose list and the death list differ in length
    | DosesNotDescending  // some dose is smaller than the dose after it
    | DeathsExceedGroup   // some death count is larger than the group size
    | ZeroGroupSize       // group size 0 with at least one dose: division by zero
    | NoDoses             // no doses at all: the highest dose does not exist

  datatype Result = Ok(ld50: real) | Err(error: KarberError)

  /** Doses run from the highest to the lowest; equal neighbours are allowed. */
  predicate NonIncreasing(doses: seq<real>)
  {
    forall i :: 0 <= i < |doses| - 1 ==> doses[i] >= doses[i + 1]
  }

  /** No group reports more deaths than it has animals (there is no lower bound). */
  predicate WithinGroup(died: seq<int>, maxAnimals: int)
  {
    forall j :: 0 <= j < |died| ==> died[j] <= maxAnimals
  }

  /** The input passes all three explicit checks. */
  predicate Validated(doses: seq<real>, maxAnimals: int, died: seq<int>)
  {
    |doses| == |died| && NonIncreasing(doses) && WithinGroup(died, maxAnimals)
  }

  /** The trapezoid between dose levels `i` and `i + 1`: the dose interval
      times the mean proportion of deaths at its two ends. */
  function Term(doses: seq<real>, died: seq<int>, maxAnimals: int, i: nat): real
    requires i + 1 < |doses| == |died|
    requires maxAnimals != 0
  {
    (doses[i] - doses[i + 1]) * ((died[i] + died[i + 1]) as real / (2 * maxAnimals) as real)
  }

  /** Sum of the first `k` trapezoids. */
  function KarberSum(doses: seq<real>, died: seq<int>, maxAnimals: int, k: nat): real
    requires k < |doses| == |died|
    requires maxAnimals != 0
  {
    if k == 0 then 0.0
    else KarberSum(doses, died, maxAnimals, k - 1) + Term(doses, died, maxAnimals, k - 1)
  }

  /** Kärber's estimate: the highest dose minus the area under the
      proportion-of-deaths curve over the whole dose range. */
  function Estimate(doses: seq<real>, died: seq<int>, maxAnimals: int): real
    requires 0 < |doses| == |died|
    requires maxAnimals != 0
  {
    doses[0] - KarberSum(doses, died, maxAnimals, |doses| - 1)
  }

  /** One step of the accumulation loop adds, from the two proportions,
      exactly the trapezoid `Term` describes. */
  lemma StepIsTerm(doses: seq<real>, died: seq<int>, maxAnimals: int, i: nat, p: real, q: real)
    requires i + 1 < |doses| == |died|
    requires maxAnimals != 0
    requires p == died[i] as real / maxAnimals as real
    requires q == died[i + 1] as real / maxAnimals as real
    ensures (doses[i] - doses[i + 1]) * ((p + q) / 2.0) == Term(doses, died, maxAnimals, i)
  {
  }

  /** The estimator as the source runs it: the three checks in order, each
      leaving at the first violation, then the proportions, then the
      trapezoid accumulation, then the subtraction from the highest dose. */
  method KarberLd50(doses: seq<real>, maxAnimals: int, died: seq<int>) returns (r: Result)
    ensures |doses| != |died| ==> r == Err(LengthMismatch)
    ensures |doses| == |died| && !NonIncreasing(doses) ==> r == Err(DosesNotDescending)
    ensures |doses| == |died| && NonIncreasing(doses) && !WithinGroup(died, maxAnimals) ==>
      r == Err(DeathsExceedGroup)
    ensures Validated(doses, maxAnimals, died) && |doses| > 0 && maxAnimals == 0 ==>
      r == Err(ZeroGroupSize)
    ensures Validated(doses, maxAnimals, died) && |doses| == 0 ==> r == Err(NoDoses)
    ensures Validated(doses, maxAnimals, died) && |doses| > 0 && maxAnimals != 0 ==>
      r == Ok(Estimate(doses, died, maxAnimals))
    ensures Validated(doses, maxAnimals, died) && |doses| == 1 && maxAnimals != 0 ==>
      r == Ok(doses[0])
  {
    if |doses| != |died| {
      return Err(LengthMismatch);
    }
    var n := |doses|;

    var i := 0;
    while i + 1 < n
      invariant 0 <= i && (n == 0 ==> i == 0) && (n > 0 ==> i < n)
      invariant forall k :: 0 <= k < i ==> doses[k] >= doses[k + 1]
    {
      if doses[i] < doses[i + 1] {
        return Err(DosesNotDescending);
      }
      i := i + 1;
    }

    var j := 0;
    while j < n
      invariant 0 <= j <= n
      invariant forall k :: 0 <= k < j ==> died[k] <= maxAnimals
    {
      if died[j] > maxAnimals {
        return Err(DeathsExceedGroup);
      }
      j := j + 1;
    }

    if n > 0 && maxAnimals == 0 {
      return Err(ZeroGroupSize);
    }
    var proportionDied := seq(n, k requires 0 <= k < n => died[k] as real / maxAnimals as real);

    var sumTerm := 0.0;
    i := 0;
    while i + 1 < n
      invariant n == 0 ==> i == 0
      invariant n > 0 ==> i <= n - 1 && sumTerm == KarberSum(doses, died, maxAnimals, i)
    {
      var diff := doses[i] - doses[i + 1];
      var avg := (proportionDied[i] + proportionDied[i + 1]) / 2.0;
      StepIsTerm(doses, died, maxAnimals, i, proportionDied[i], proportionDied[i + 1]);
      sumTerm := sumTerm + diff * avg;
      i := i + 1;
    }

    if n == 0 {
      return Err(NoDoses);
    }
    r := Ok(doses[0] - sumTerm);
  }
}

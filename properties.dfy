/** What Kärber's estimate promises about valid trial data: it stays inside
    the tested dose range, reaches either end when no animal or every animal
    dies, and never rises when more animals die. */
module KarberProperties {
  import opened Karber

  /** Every group's death count lies between 0 and the group size. */
  predicate DeathsInRange(died: seq<int>, maxAnimals: int)
  {
    forall j :: 0 <= j < |died| ==> 0 <= died[j] <= maxAnimals
  }

  /** Doses strictly fall from one level to the next. */
  predicate StrictlyDecreasing(doses: seq<real>)
  {
    forall i :: 0 <= i < |doses| - 1 ==> doses[i] > doses[i + 1]
  }

  /** `more` has at least as many deaths as `fewer` at every dose level. */
  predicate AtLeastAsMany(fewer: seq<int>, more: seq<int>)
  {
    |fewer| == |more| && forall j :: 0 <= j < |fewer| ==> fewer[j] <= more[j]
  }

  /** A trapezoid is no wider than its dose interval and never negative. */
  lemma TermBounds(doses: seq<real>, died: seq<int>, maxAnimals: int, i: nat)
    requires i + 1 < |doses| == |died|
    requires NonIncreasing(doses) && maxAnimals > 0 && DeathsInRange(died, maxAnimals)
    ensures 0.0 <= Term(doses, died, maxAnimals, i) <= doses[i] - doses[i + 1]
  {
    var a := doses[i] - doses[i + 1];
    var s := (died[i] + died[i + 1]) as real;
    var m := (2 * maxAnimals) as real;
    var w := s / m;
    assert 0.0 <= s <= m && m > 0.0;
    assert w * m == s;
    assert 0.0 <= w <= 1.0;
    assert a >= 0.0;
    assert a * w >= 0.0 && a * (1.0 - w) >= 0.0;
    assert Term(doses, died, maxAnimals, i) == a * w;
  }

  /** The first `k` trapezoids cover at most the dose range they span. */
  lemma {:induction false} SumBounds(doses: seq<real>, died: seq<int>, maxAnimals: int, k: nat)
    requires k < |doses| == |died|
    requires NonIncreasing(doses) && maxAnimals > 0 && DeathsInRange(died, maxAnimals)
    ensures 0.0 <= KarberSum(doses, died, maxAnimals, k) <= doses[0] - doses[k]
  {
    if k > 0 {
      SumBounds(doses, died, maxAnimals, k - 1);
      TermBounds(doses, died, maxAnimals, k - 1);
    }
  }

  /** The estimate lies between the lowest and the highest tested dose. */
  lemma EstimateWithinDoseRange(doses: seq<real>, died: seq<int>, maxAnimals: int)
    requires 0 < |doses| == |died|
    requires NonIncreasing(doses) && maxAnimals > 0 && DeathsInRange(died, maxAnimals)
    ensures doses[|doses| - 1] <= Estimate(doses, died, maxAnimals) <= doses[0]
  {
    SumBounds(doses, died, maxAnimals, |doses| - 1);
  }

  /** With no deaths anywhere, every prefix of the accumulation is zero. */
  lemma {:induction false} SumNoDeaths(doses: seq<real>, died: seq<int>, maxAnimals: int, k: nat)
    requires k < |doses| == |died| && maxAnimals != 0
    requires forall j :: 0 <= j < |died| ==> died[j] == 0
    ensures KarberSum(doses, died, maxAnimals, k) == 0.0
  {
    if k > 0 {
      SumNoDeaths(doses, died, maxAnimals, k - 1);
    }
  }

  /** When no animal dies, the estimate is the highest dose. */
  lemma NoDeathsGivesHighestDose(doses: seq<real>, died: seq<int>, maxAnimals: int)
    requires 0 < |doses| == |died| && maxAnimals != 0
    requires forall j :: 0 <= j < |died| ==> died[j] == 0
    ensures Estimate(doses, died, maxAnimals) == doses[0]
  {
    SumNoDeaths(doses, died, maxAnimals, |doses| - 1);
  }

  /** A trapezoid whose two ends both lost the whole group is its full dose interval. */
  lemma FullTerm(doses: seq<real>, died: seq<int>, maxAnimals: int, i: nat)
    requires i + 1 < |doses| == |died| && maxAnimals != 0
    requires died[i] == maxAnimals && died[i + 1] == maxAnimals
    ensures Term(doses, died, maxAnimals, i) == doses[i] - doses[i + 1]
  {
  }

  /** With every group dead, the first `k` trapezoids telescope to `doses[0] - doses[k]`. */
  lemma {:induction false} SumAllDeaths(doses: seq<real>, died: seq<int>, maxAnimals: int, k: nat)
    requires k < |doses| == |died| && maxAnimals != 0
    requires forall j :: 0 <= j < |died| ==> died[j] == maxAnimals
    ensures KarberSum(doses, died, maxAnimals, k) == doses[0] - doses[k]
  {
    if k > 0 {
      SumAllDeaths(doses, died, maxAnimals, k - 1);
      FullTerm(doses, died, maxAnimals, k - 1);
    }
  }

  /** When every animal dies, the estimate is the lowest dose: the
      trapezoids telescope to the whole dose range. */
  lemma AllDeathsGivesLowestDose(doses: seq<real>, died: seq<int>, maxAnimals: int)
    requires 0 < |doses| == |died| && maxAnimals != 0
    requires forall j :: 0 <= j < |died| ==> died[j] == maxAnimals
    ensures Estimate(doses, died, maxAnimals) == doses[|doses| - 1]
  {
    SumAllDeaths(doses, died, maxAnimals, |doses| - 1);
  }

  /** More deaths at the two ends of an interval never shrink its trapezoid;
      with a strictly positive interval, strictly more deaths strictly grow it. */
  lemma TermMonotone(doses: seq<real>, fewer: seq<int>, more: seq<int>, maxAnimals: int, i: nat)
    requires i + 1 < |doses| == |fewer|
    requires NonIncreasing(doses) && maxAnimals > 0 && AtLeastAsMany(fewer, more)
    ensures Term(doses, fewer, maxAnimals, i) <= Term(doses, more, maxAnimals, i)
    ensures doses[i] > doses[i + 1] && fewer[i] + fewer[i + 1] < more[i] + more[i + 1] ==>
      Term(doses, fewer, maxAnimals, i) < Term(doses, more, maxAnimals, i)
  {
    var a := doses[i] - doses[i + 1];
    var m := (2 * maxAnimals) as real;
    var w := (fewer[i] + fewer[i + 1]) as real / m;
    var w' := (more[i] + more[i + 1]) as real / m;
    assert w <= w';
    assert a * w <= a * w';
    if a > 0.0 && fewer[i] + fewer[i + 1] < more[i] + more[i + 1] {
      assert w < w';
      assert a * w < a * w';
    }
  }

  /** At least as many deaths in every group never shrink a prefix of the sum. */
  lemma {:induction false} SumMonotone(doses: seq<real>, fewer: seq<int>, more: seq<int>, maxAnimals: int, k: nat)
    requires k < |doses| == |fewer|
    requires NonIncreasing(doses) && maxAnimals > 0 && AtLeastAsMany(fewer, more)
    ensures KarberSum(doses, fewer, maxAnimals, k) <= KarberSum(doses, more, maxAnimals, k)
  {
    if k > 0 {
      SumMonotone(doses, fewer, more, maxAnimals, k - 1);
      TermMonotone(doses, fewer, more, maxAnimals, k - 1);
    }
  }

  /** More deaths anywhere never raise the estimate. */
  lemma EstimateAntitone(doses: seq<real>, fewer: seq<int>, more: seq<int>, maxAnimals: int)
    requires 0 < |doses| == |fewer|
    requires NonIncreasing(doses) && maxAnimals > 0 && AtLeastAsMany(fewer, more)
    ensures Estimate(doses, more, maxAnimals) <= Estimate(doses, fewer, maxAnimals)
  {
    SumMonotone(doses, fewer, more, maxAnimals, |doses| - 1);
  }

  /** Raising the death count of one group, everything else fixed, never
      raises the estimate. */
  lemma RaiseOneGroup(doses: seq<real>, died: seq<int>, maxAnimals: int, j: nat, v: int)
    requires 0 < |doses| == |died| && j < |died|
    requires NonIncreasing(doses) && maxAnimals > 0 && died[j] <= v
    ensures Estimate(doses, died[j := v], maxAnimals) <= Estimate(doses, died, maxAnimals)
  {
    EstimateAntitone(doses, died, died[j := v], maxAnimals);
  }

  /** One strictly larger trapezoid, with none smaller, makes the prefix strictly larger. */
  lemma {:induction false} SumStrictlyMonotone(doses: seq<real>, fewer: seq<int>, more: seq<int>,
                                               maxAnimals: int, k: nat, i: nat)
    requires k < |doses| == |fewer| && i < k
    requires NonIncreasing(doses) && maxAnimals > 0 && AtLeastAsMany(fewer, more)
    requires Term(doses, fewer, maxAnimals, i) < Term(doses, more, maxAnimals, i)
    ensures KarberSum(doses, fewer, maxAnimals, k) < KarberSum(doses, more, maxAnimals, k)
  {
    TermMonotone(doses, fewer, more, maxAnimals, k - 1);
    if i == k - 1 {
      SumMonotone(doses, fewer, more, maxAnimals, k - 1);
    } else {
      SumStrictlyMonotone(doses, fewer, more, maxAnimals, k - 1, i);
    }
  }

  /** Group `j` sits at one end of a dose interval of positive width. */
  predicate BordersFall(doses: seq<real>, j: nat)
  {
    (j + 1 < |doses| && doses[j] > doses[j + 1]) || (0 < j < |doses| && doses[j - 1] > doses[j])
  }

  /** One more death in a group that borders a positive dose interval
      strictly lowers the estimate; doses may repeat elsewhere. */
  lemma RaiseOneGroupStrictly(doses: seq<real>, died: seq<int>, maxAnimals: int, j: nat, v: int)
    requires 0 < |doses| == |died| && j < |died|
    requires NonIncreasing(doses) && maxAnimals > 0 && died[j] < v
    requires BordersFall(doses, j)
    ensures Estimate(doses, died[j := v], maxAnimals) < Estimate(doses, died, maxAnimals)
  {
    var more := died[j := v];
    var i := if j + 1 < |doses| && doses[j] > doses[j + 1] then j else j - 1;
    TermMonotone(doses, died, more, maxAnimals, i);
    SumStrictlyMonotone(doses, died, more, maxAnimals, |doses| - 1, i);
  }

  /** With strictly falling doses and at least two of them, one more death
      in any group strictly lowers the estimate. */
  lemma RaiseOneGroupStrictlyFalling(doses: seq<real>, died: seq<int>, maxAnimals: int, j: nat, v: int)
    requires 2 <= |doses| == |died| && j < |died|
    requires StrictlyDecreasing(doses) && maxAnimals > 0 && died[j] < v
    ensures Estimate(doses, died[j := v], maxAnimals) < Estimate(doses, died, maxAnimals)
  {
    assert BordersFall(doses, j) by {
      if j + 1 < |doses| {
        assert doses[j] > doses[j + 1];
      } else {
        assert doses[j - 1] > doses[j];
      }
    }
    RaiseOneGroupStrictly(doses, died, maxAnimals, j, v);
  }

  /** A single dose level leaves no interval: its death count has no
      influence on the estimate, which is that dose. */
  lemma SingleDoseIgnoresDeaths(dose: real, died: int, maxAnimals: int)
    requires maxAnimals != 0
    ensures Estimate([dose], [died], maxAnimals) == dose
  {
  }

  /** The data set the module runs on itself: eight tenfold dilutions from
      1,000,000 down to 0.1, groups of eight, deaths 0, 0, 0, 5, 8, 8, 8, 8. */
  lemma RegressionFixture()
    ensures Estimate([1000000.0, 100000.0, 10000.0, 1000.0, 100.0, 10.0, 1.0, 0.1], [0, 0, 0, 5, 8, 8, 8, 8], 8)
            == 996356.35
  {
    var d := [1000000.0, 100000.0, 10000.0, 1000.0, 100.0, 10.0, 1.0, 0.1];
    var died := [0, 0, 0, 5, 8, 8, 8, 8];
    assert KarberSum(d, died, 8, 3) == 2812.5;
    assert KarberSum(d, died, 8, 4) == 3543.75;
    assert KarberSum(d, died, 8, 7) == 3643.65;
  }
}

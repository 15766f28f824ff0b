/** The calculation engine: credits for one usage type, the per-frequency
    buckets an item's credits are spread into, and the estimated cost. */
module Engine {
  import opened Catalog

  /** A volume as the calculator may receive it: absent, not a number, or a
      number. */
  datatype Volume = Missing | NaN | Num(value: real)

  /** True of a volume that is a number greater than zero. */
  predicate IsPositive(v: Volume) {
    v.Num? && v.value > 0.0
  }

  /** The quantity a volume stands for once `|| 0` has replaced a missing or
      not-a-number value. */
  function Quantity(v: Volume): (q: real)
    ensures IsPositive(v) <==> q > 0.0
    ensures v.Num? ==> q == v.value
    ensures !v.Num? ==> q == 0.0
  {
    if v.Num? then v.value else 0.0
  }

  /** `calculateCredits`: the credits one usage type costs per year at the
      given volume, multiplier and frequency. */
  function CalculateCredits(qty: Volume, multiplier: real, freq: Frequency): (r: real)
    ensures !IsPositive(qty) ==> r == 0.0
    ensures multiplier > 0.0 ==> (r > 0.0 <==> IsPositive(qty))
    ensures multiplier >= 0.0 ==> r >= 0.0
  {
    if !IsPositive(qty) then 0.0
    else
      var perOccurrence := qty.value * multiplier;
      assert multiplier > 0.0 ==> perOccurrence > 0.0;
      assert multiplier >= 0.0 ==> perOccurrence >= 0.0;
      perOccurrence * Factor(freq)
  }

  /** A missing, not-a-number, zero or negative volume costs nothing, for
      every multiplier and frequency. */
  lemma NonPositiveVolumeCostsNothing(qty: Volume, multiplier: real, freq: Frequency)
    requires qty.Missing? || qty.NaN? || (qty.Num? && qty.value <= 0.0)
    ensures CalculateCredits(qty, multiplier, freq) == 0.0
  {
  }

  /** A positive volume costs the per-occurrence amount (volume times
      multiplier) times the annualisation factor of its frequency. */
  lemma PositiveVolumeCredits(q: real, multiplier: real, freq: Frequency)
    requires q > 0.0
    ensures CalculateCredits(Num(q), multiplier, freq) == q * multiplier * Factor(freq)
    ensures freq.OneTime? || freq.Other? ==> CalculateCredits(Num(q), multiplier, freq) == q * multiplier
    ensures freq.Daily? ==> CalculateCredits(Num(q), multiplier, freq) == q * multiplier * 365.0
    ensures freq.Weekly? ==> CalculateCredits(Num(q), multiplier, freq) == q * multiplier * 52.0
    ensures freq.Monthly? ==> CalculateCredits(Num(q), multiplier, freq) == q * multiplier * 12.0
  {
  }

  /** Replacing a volume by its `|| 0` quantity, as both callers do before
      calling `calculateCredits`, does not change the credits. */
  lemma QuantityKeepsCredits(v: Volume, multiplier: real, freq: Frequency)
    ensures CalculateCredits(Num(Quantity(v)), multiplier, freq) == CalculateCredits(v, multiplier, freq)
  {
  }

  /** The annual, monthly and daily credit totals of a summary. */
  datatype Totals = Totals(annual: real, monthly: real, daily: real)

  const Zero := Totals(0.0, 0.0, 0.0)

  function Add(t: Totals, u: Totals): Totals {
    Totals(t.annual + u.annual, t.monthly + u.monthly, t.daily + u.daily)
  }

  /** True when no total is negative. */
  predicate NonNegative(t: Totals) {
    t.annual >= 0.0 && t.monthly >= 0.0 && t.daily >= 0.0
  }

  /** What one item's credits add to the summary totals, by frequency: the
      if-chain of `collectExportData` and `updateTotals`. A key that matches
      no branch adds nothing. */
  function Bucket(freq: Frequency, credits: real): (b: Totals)
    ensures b == Zero <==> freq.Other? || credits == 0.0
    ensures !freq.Other? ==> b.annual == credits
    ensures freq.OneTime? ==> b.monthly == 0.0 && b.daily == 0.0
    ensures credits >= 0.0 ==> NonNegative(b)
  {
    match freq
    case OneTime => Totals(credits, 0.0, 0.0)
    case Daily => Totals(credits, credits / 12.0, credits / 365.0)
    case Weekly => Totals(credits, credits / 12.0, credits / 365.0)
    case Monthly => Totals(credits, credits, credits / 30.0)
    case Other(_) => Zero
  }

  /** Daily and weekly items are spread alike: a twelfth of the annual credits
      per month and a 365th per day. */
  lemma DailyAndWeeklySpreadAlike(credits: real)
    ensures Bucket(Daily, credits) == Bucket(Weekly, credits)
    ensures Bucket(Daily, credits).monthly * 12.0 == credits
    ensures Bucket(Daily, credits).daily * 365.0 == credits
  {
  }

  /** A monthly item adds its annualised credits, twelve occurrences' worth,
      to the monthly total, and a thirtieth of them to the daily total. */
  lemma MonthlyAddsAnnualisedCredits(q: real, multiplier: real)
    requires q > 0.0
    ensures var credits := CalculateCredits(Num(q), multiplier, Monthly);
      && Bucket(Monthly, credits).monthly == 12.0 * (q * multiplier)
      && Bucket(Monthly, credits).monthly == Bucket(Monthly, credits).annual
      && Bucket(Monthly, credits).daily * 30.0 == credits
  {
  }

  /** The estimated cost in currency units of a number of annual credits. */
  function Cost(totalAnnual: real): (c: real)
    ensures c == totalAnnual / 100.0
    ensures totalAnnual >= 0.0 ==> c >= 0.0
  {
    totalAnnual / CreditsPerPackage * CostPerPackage
  }

  /** The cost is linear in the annual credits. */
  lemma CostIsLinear(a: real, b: real, k: real)
    ensures Cost(a + b) == Cost(a) + Cost(b)
    ensures Cost(k * a) == k * Cost(a)
    ensures Cost(0.0) == 0.0
  {
  }
}

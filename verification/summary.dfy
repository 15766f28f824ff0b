/** The live dashboard summary (`updateTotals`): every usage type's credits
    folded into annual, monthly and daily totals, the plain sum of all
    credits, the per-item details and the estimated cost. */
module Summary {
  import opened Catalog
  import opened Engine

  /** The form values of one usage type: the parsed volume and the selected
      frequency. A form holds one per usage type, in catalog order. */
  datatype Input = Input(volume: Volume, freq: SelectorFrequency)

  /** The credits of one usage type under its form values, as both loops
      compute them: the volume first goes through `|| 0`. */
  function ItemCredits(item: UsageType, input: Input): (r: real)
    ensures Quantity(input.volume) <= 0.0 ==> r == 0.0
    ensures item.multiplier > 0.0 ==> (r > 0.0 <==> Quantity(input.volume) > 0.0)
    ensures r == CalculateCredits(input.volume, item.multiplier, input.freq)
  {
    QuantityKeepsCredits(input.volume, item.multiplier, input.freq);
    CalculateCredits(Num(Quantity(input.volume)), item.multiplier, input.freq)
  }

  /** What the first `n` usage types add to the summary totals. */
  function DashboardTotals(items: seq<UsageType>, form: seq<Input>, n: nat): Totals
    requires n <= |items| && |form| == |items|
  {
    if n == 0 then Zero
    else Add(DashboardTotals(items, form, n - 1),
             Bucket(form[n - 1].freq, ItemCredits(items[n - 1], form[n - 1])))
  }

  /** The plain sum of the credits of the first `n` usage types. */
  function CreditSum(items: seq<UsageType>, form: seq<Input>, n: nat): real
    requires n <= |items| && |form| == |items|
  {
    if n == 0 then 0.0
    else CreditSum(items, form, n - 1) + ItemCredits(items[n - 1], form[n - 1])
  }

  /** The sum of the credits of those of the first `n` usage types whose
      frequency is one of the four known ones. */
  function RecognisedCreditSum(items: seq<UsageType>, form: seq<Input>, n: nat): real
    requires n <= |items| && |form| == |items|
  {
    if n == 0 then 0.0
    else if form[n - 1].freq.Other? then RecognisedCreditSum(items, form, n - 1)
    else RecognisedCreditSum(items, form, n - 1) + ItemCredits(items[n - 1], form[n - 1])
  }

  /** The per-item line of the dashboard (`{ label, credits }`): a usage
      type's name and its credits. */
  datatype Detail = Detail(name: string, credits: real)

  /** The details of the first `n` usage types, in catalog order. */
  function DetailsOf(items: seq<UsageType>, form: seq<Input>, n: nat): (ds: seq<Detail>)
    requires n <= |items| && |form| == |items|
    ensures |ds| == n
  {
    if n == 0 then []
    else DetailsOf(items, form, n - 1) + [Detail(items[n - 1].name, ItemCredits(items[n - 1], form[n - 1]))]
  }

  /** The `k`th detail is the name and credits of the `k`th usage type. */
  lemma {:induction false} DetailsOfAt(items: seq<UsageType>, form: seq<Input>, n: nat)
    requires n <= |items| && |form| == |items|
    ensures forall k :: 0 <= k < n ==>
      DetailsOf(items, form, n)[k] == Detail(items[k].name, ItemCredits(items[k], form[k]))
  {
    if n > 0 {
      DetailsOfAt(items, form, n - 1);
    }
  }

  /** Everything `updateTotals` computes. */
  datatype Dashboard = Dashboard(totals: Totals, totalCredits: real, details: seq<Detail>, cost: real)

  /** `updateTotals`: walks the usage types in order, computes each one's
      credits and adds them to the totals by the frequency if-chain. */
  method UpdateTotals(items: seq<UsageType>, form: seq<Input>) returns (d: Dashboard)
    requires |form| == |items|
    ensures d.totals == DashboardTotals(items, form, |items|)
    ensures d.totalCredits == CreditSum(items, form, |items|)
    ensures |d.details| == |items|
    ensures forall i :: 0 <= i < |items| ==>
      d.details[i] == Detail(items[i].name, ItemCredits(items[i], form[i]))
    ensures d.cost == Cost(d.totals.annual)
  {
    var totalDaily, totalMonthly, totalAnnual := 0.0, 0.0, 0.0;
    var totalCredits := 0.0;
    var details: seq<Detail> := [];
    var i := 0;
    while i < |items|
      invariant 0 <= i <= |items|
      invariant Totals(totalAnnual, totalMonthly, totalDaily) == DashboardTotals(items, form, i)
      invariant totalCredits == CreditSum(items, form, i)
      invariant details == DetailsOf(items, form, i)
    {
      var item := items[i];
      var qty := Quantity(form[i].volume);
      var freq := form[i].freq;
      var credits := CalculateCredits(Num(qty), item.multiplier, freq);
      assert credits == ItemCredits(items[i], form[i]);
      ghost var before := Totals(totalAnnual, totalMonthly, totalDaily);
      if freq.OneTime? {
        totalAnnual := totalAnnual + credits;
      } else if freq.Daily? {
        totalAnnual := totalAnnual + credits;
        totalDaily := totalDaily + credits / 365.0;
        totalMonthly := totalMonthly + credits / 12.0;
      } else if freq.Weekly? {
        totalAnnual := totalAnnual + credits;
        totalDaily := totalDaily + credits / 365.0;
        totalMonthly := totalMonthly + credits / 12.0;
      } else if freq.Monthly? {
        totalAnnual := totalAnnual + credits;
        totalMonthly := totalMonthly + credits;
        totalDaily := totalDaily + credits / 30.0;
      }
      assert Totals(totalAnnual, totalMonthly, totalDaily) == Add(before, Bucket(freq, credits));
      details := details + [Detail(item.name, credits)];
      totalCredits := totalCredits + credits;
      i := i + 1;
    }
    DetailsOfAt(items, form, |items|);
    var totalUSD := (totalAnnual / CreditsPerPackage) * CostPerPackage;
    d := Dashboard(Totals(totalAnnual, totalMonthly, totalDaily), totalCredits, details, totalUSD);
  }

  /** The annual total is the sum of the credits of the items whose frequency
      is known; an item with an unknown frequency is charged by
      `calculateCredits` but left out of every total. */
  lemma {:induction false} AnnualIsRecognisedCreditSum(items: seq<UsageType>, form: seq<Input>, n: nat)
    requires n <= |items| && |form| == |items|
    ensures DashboardTotals(items, form, n).annual == RecognisedCreditSum(items, form, n)
  {
    if n > 0 {
      AnnualIsRecognisedCreditSum(items, form, n - 1);
    }
  }

  /** When every frequency is known, the annual total equals the plain sum of
      all credits (the `totalCredits` accumulator). */
  lemma {:induction false} AnnualIsCreditSum(items: seq<UsageType>, form: seq<Input>, n: nat)
    requires n <= |items| && |form| == |items|
    requires forall i :: 0 <= i < n ==> !form[i].freq.Other?
    ensures DashboardTotals(items, form, n).annual == CreditSum(items, form, n)
  {
    if n > 0 {
      AnnualIsCreditSum(items, form, n - 1);
    }
  }

  /** With non-negative multipliers, as in a valid catalog, no total goes
      below zero. */
  lemma {:induction false} TotalsNonNegative(items: seq<UsageType>, form: seq<Input>, n: nat)
    requires n <= |items| && |form| == |items|
    requires forall i :: 0 <= i < n ==> items[i].multiplier >= 0.0
    ensures NonNegative(DashboardTotals(items, form, n))
    ensures CreditSum(items, form, n) >= 0.0
  {
    if n > 0 {
      TotalsNonNegative(items, form, n - 1);
    }
  }

  /** When no usage type has a positive volume, all totals and the credit sum
      are zero, and so is the estimated cost of the annual total. */
  lemma {:induction false} NoPositiveInputCostsNothing(items: seq<UsageType>, form: seq<Input>, n: nat)
    requires n <= |items| && |form| == |items|
    requires forall i :: 0 <= i < n ==> Quantity(form[i].volume) <= 0.0
    ensures DashboardTotals(items, form, n) == Zero
    ensures CreditSum(items, form, n) == 0.0
    ensures Cost(DashboardTotals(items, form, n).annual) == 0.0
  {
    if n > 0 {
      NoPositiveInputCostsNothing(items, form, n - 1);
    }
  }

  /** The totals of the first `n` items depend on nothing after them. */
  lemma {:induction false} TotalsOfPrefix(items: seq<UsageType>, form: seq<Input>,
                                          items': seq<UsageType>, form': seq<Input>, n: nat)
    requires n <= |items| && |form| == |items|
    requires n <= |items'| && |form'| == |items'|
    requires items[..n] == items'[..n] && form[..n] == form'[..n]
    ensures DashboardTotals(items, form, n) == DashboardTotals(items', form', n)
  {
    if n > 0 {
      assert items[n - 1] == items[..n][n - 1] == items'[n - 1];
      assert form[n - 1] == form[..n][n - 1] == form'[n - 1];
      assert items[..n - 1] == items[..n][..n - 1];
      assert items'[..n - 1] == items'[..n][..n - 1];
      assert form[..n - 1] == form[..n][..n - 1];
      assert form'[..n - 1] == form'[..n][..n - 1];
      TotalsOfPrefix(items, form, items', form', n - 1);
    }
  }

  /** Exchanging two neighbouring usage types, with their form values, does
      not change the totals of any prefix that holds both or neither. */
  lemma {:induction false} TotalsIgnoreOrder(items: seq<UsageType>, form: seq<Input>, j: nat, n: nat)
    requires |form| == |items| && j + 1 < |items| && n <= |items| && n != j + 1
    ensures var items' := items[j := items[j + 1]][j + 1 := items[j]];
            var form' := form[j := form[j + 1]][j + 1 := form[j]];
            DashboardTotals(items', form', n) == DashboardTotals(items, form, n)
  {
    var items' := items[j := items[j + 1]][j + 1 := items[j]];
    var form' := form[j := form[j + 1]][j + 1 := form[j]];
    if n <= j {
      assert items[..n] == items'[..n] && form[..n] == form'[..n];
      TotalsOfPrefix(items, form, items', form', n);
    } else if n == j + 2 {
      assert items[..j] == items'[..j] && form[..j] == form'[..j];
      TotalsOfPrefix(items, form, items', form', j);
      var p := DashboardTotals(items, form, j);
      var x := Bucket(form[j].freq, ItemCredits(items[j], form[j]));
      var y := Bucket(form[j + 1].freq, ItemCredits(items[j + 1], form[j + 1]));
      assert DashboardTotals(items, form, n) == Add(Add(p, x), y);
      assert DashboardTotals(items', form', n) == Add(Add(p, y), x);
    } else {
      TotalsIgnoreOrder(items, form, j, n - 1);
    }
  }

  /** One row of the form: a usage type beside its form values. */
  type Row = (UsageType, Input)

  /** The rows of a form, pairing each usage type with its form values. */
  function Rows(items: seq<UsageType>, form: seq<Input>): (rs: seq<Row>)
    requires |form| == |items|
    ensures |rs| == |items|
    ensures forall i :: 0 <= i < |rs| ==> rs[i] == (items[i], form[i])
  {
    seq(|items|, i requires 0 <= i < |items| => (items[i], form[i]))
  }

  /** What one row adds to the summary totals. */
  function Contribution(r: Row): Totals {
    Bucket(r.1.freq, ItemCredits(r.0, r.1))
  }

  /** The sum of what `f` gives for each element, added from first to last. */
  function SumTotals<T>(xs: seq<T>, f: T -> Totals): Totals {
    if xs == [] then Zero
    else Add(SumTotals(xs[..|xs| - 1], f), f(xs[|xs| - 1]))
  }

  /** The dashboard fold is the sum of the contributions of the first `n`
      rows. */
  lemma {:induction false} DashboardIsSumOfRows(items: seq<UsageType>, form: seq<Input>, n: nat)
    requires n <= |items| && |form| == |items|
    ensures DashboardTotals(items, form, n) == SumTotals(Rows(items, form)[..n], Contribution)
  {
    if n > 0 {
      DashboardIsSumOfRows(items, form, n - 1);
      assert Rows(items, form)[..n][..n - 1] == Rows(items, form)[..n - 1];
    }
  }

  /** Taking one element out of the sum and adding it last gives the same
      totals. */
  lemma {:induction false} SumTotalsRemove<T>(xs: seq<T>, j: nat, f: T -> Totals)
    requires j < |xs|
    ensures SumTotals(xs, f) == Add(SumTotals(xs[..j] + xs[j + 1..], f), f(xs[j]))
  {
    var n := |xs|;
    if j == n - 1 {
      assert xs[..j] + xs[j + 1..] == xs[..n - 1];
    } else {
      var u := xs[..n - 1];
      SumTotalsRemove(u, j, f);
      var v := u[..j] + u[j + 1..];
      var w := v + [xs[n - 1]];
      assert xs[..j] + xs[j + 1..] == w;
      assert w[..|w| - 1] == v;
    }
  }

  /** Two sequences with the same elements, in any order, have the same sum. */
  lemma {:induction false} SumTotalsPermutation<T>(xs: seq<T>, ys: seq<T>, f: T -> Totals)
    requires multiset(xs) == multiset(ys)
    ensures SumTotals(xs, f) == SumTotals(ys, f)
    decreases |xs|
  {
    if xs == [] {
      assert |ys| == |multiset(ys)| == 0;
    } else {
      var n := |xs|;
      var x := xs[n - 1];
      assert xs == xs[..n - 1] + [x];
      assert x in multiset(ys);
      var j :| 0 <= j < |ys| && ys[j] == x;
      SumTotalsRemove(ys, j, f);
      var ys' := ys[..j] + ys[j + 1..];
      assert ys == ys[..j] + [x] + ys[j + 1..];
      assert multiset(ys') == multiset(ys) - multiset{x};
      assert multiset(xs[..n - 1]) == multiset(xs) - multiset{x};
      SumTotalsPermutation(xs[..n - 1], ys', f);
    }
  }

  /** The totals do not depend on the order of the usage types: any form
      whose rows are a permutation of another's has the same totals. */
  lemma TotalsIgnorePermutation(items: seq<UsageType>, form: seq<Input>,
                                items': seq<UsageType>, form': seq<Input>)
    requires |form| == |items| && |form'| == |items'|
    requires multiset(Rows(items', form')) == multiset(Rows(items, form))
    ensures DashboardTotals(items', form', |items'|) == DashboardTotals(items, form, |items|)
  {
    DashboardIsSumOfRows(items, form, |items|);
    DashboardIsSumOfRows(items', form', |items'|);
    assert Rows(items, form)[..|items|] == Rows(items, form);
    assert Rows(items', form')[..|items'|] == Rows(items', form');
    SumTotalsPermutation(Rows(items', form'), Rows(items, form), Contribution);
  }

  /** A monthly batch pipeline of volume 3 on its own: 72000 annual credits,
      the same 72000 on the monthly total and 2400 on the daily total. */
  lemma MonthlyPipelineScenario()
    ensures AllItems[0].id == "batch-pipeline"
    ensures DashboardTotals([AllItems[0]], [Input(Num(3.0), Monthly)], 1)
         == Totals(72000.0, 72000.0, 2400.0)
  {
  }

  /** A daily item of volume 2 and multiplier 10 beside a weekly item of
      volume 1 and multiplier 5: 7560 annual credits, 630 monthly and
      7560/365 daily. */
  lemma DailyWeeklyScenario(a: UsageType, b: UsageType)
    requires a.multiplier == 10.0 && b.multiplier == 5.0
    ensures DashboardTotals([a, b], [Input(Num(2.0), Daily), Input(Num(1.0), Weekly)], 2)
         == Totals(7560.0, 630.0, 7560.0 / 365.0)
  {
    var form := [Input(Num(2.0), Daily), Input(Num(1.0), Weekly)];
    assert ItemCredits(a, form[0]) == 7300.0;
    assert ItemCredits(b, form[1]) == 260.0;
    assert DashboardTotals([a, b], form, 1) == Totals(7300.0, 7300.0 / 12.0, 20.0);
  }
}

/** The export snapshot (`collectExportData`): the usage types with a positive
    volume, in catalog order, each with its credits, and the summary totals of
    those usage types. */
module Export {
  import opened Catalog
  import opened Engine
  import opened Summary

  /** One line of the export: a usage type with a positive volume. */
  datatype ServiceRecord = ServiceRecord(
    name: string,
    description: string,
    volume: real,
    unit: string,
    frequency: SelectorFrequency,
    multiplier: real,
    totalCredits: real)

  /** The export snapshot. The generation time is given by the caller. */
  datatype ExportData = ExportData(
    timestamp: string,
    calculator: string,
    summary: Totals,
    services: seq<ServiceRecord>)

  const CalculatorName: string := "Salesforce Data Cloud Credit Calculator"

  /** True of a usage type whose form volume, after `|| 0`, is positive. */
  predicate IsSelected(input: Input) {
    Quantity(input.volume) > 0.0
  }

  /** The export line of a usage type under its form values. */
  function RecordOf(item: UsageType, input: Input): ServiceRecord {
    var credits := ItemCredits(item, input);
    ServiceRecord(item.name, item.description, Quantity(input.volume), item.unit,
                  input.freq, item.multiplier, credits)
  }

  /** The export lines of the selected usage types among the first `n`. */
  function Services(items: seq<UsageType>, form: seq<Input>, n: nat): seq<ServiceRecord>
    requires n <= |items| && |form| == |items|
  {
    if n == 0 then []
    else if IsSelected(form[n - 1]) then Services(items, form, n - 1) + [RecordOf(items[n - 1], form[n - 1])]
    else Services(items, form, n - 1)
  }

  /** What the selected usage types among the first `n` add to the summary. */
  function ExportTotals(items: seq<UsageType>, form: seq<Input>, n: nat): Totals
    requires n <= |items| && |form| == |items|
  {
    if n == 0 then Zero
    else if IsSelected(form[n - 1])
    then Add(ExportTotals(items, form, n - 1), Bucket(form[n - 1].freq, ItemCredits(items[n - 1], form[n - 1])))
    else ExportTotals(items, form, n - 1)
  }

  /** The positions, in increasing order, of the selected usage types among
      the first `n`. */
  function Selected(form: seq<Input>, n: nat): (s: seq<nat>)
    requires n <= |form|
    ensures forall k :: 0 <= k < |s| ==> s[k] < n
  {
    if n == 0 then []
    else if IsSelected(form[n - 1]) then Selected(form, n - 1) + [n - 1]
    else Selected(form, n - 1)
  }

  /** `collectExportData`: walks the usage types in order, keeps those with a
      positive volume and adds their credits to the summary by the frequency
      if-chain. */
  method CollectExportData(timestamp: string, items: seq<UsageType>, form: seq<Input>)
    returns (data: ExportData)
    requires |form| == |items|
    ensures data.timestamp == timestamp && data.calculator == CalculatorName
    ensures data.summary == ExportTotals(items, form, |items|)
    ensures data.services == Services(items, form, |items|)
  {
    var services: seq<ServiceRecord> := [];
    var totalAnnual, totalMonthly, totalDaily := 0.0, 0.0, 0.0;
    var i := 0;
    while i < |items|
      invariant 0 <= i <= |items|
      invariant Totals(totalAnnual, totalMonthly, totalDaily) == ExportTotals(items, form, i)
      invariant services == Services(items, form, i)
    {
      var item := items[i];
      var qty := Quantity(form[i].volume);
      var freq := form[i].freq;
      var credits := CalculateCredits(Num(qty), item.multiplier, freq);
      assert credits == ItemCredits(items[i], form[i]);
      if qty > 0.0 {
        var serviceData := ServiceRecord(item.name, item.description, qty, item.unit,
                                         freq, item.multiplier, credits);
        ghost var before := Totals(totalAnnual, totalMonthly, totalDaily);
        if freq.OneTime? {
          totalAnnual := totalAnnual + credits;
        } else if freq.Daily? {
          totalAnnual := totalAnnual + credits;
          totalDaily := totalDaily + credits / 365.0;
          totalMonthly := totalMonthly + credits / 12.0;
        } else if freq.Weekly? {
          totalAnnual := totalAnnual + credits;
          totalDaily := totalDaily + credits / 365.0;
          totalMonthly := totalMonthly + credits / 12.0;
        } else if freq.Monthly? {
          totalAnnual := totalAnnual + credits;
          totalMonthly := totalMonthly + credits;
          totalDaily := totalDaily + credits / 30.0;
        }
        assert Totals(totalAnnual, totalMonthly, totalDaily) == Add(before, Bucket(freq, credits));
        services := services + [serviceData];
      }
      i := i + 1;
    }
    data := ExportData(timestamp, CalculatorName, Totals(totalAnnual, totalMonthly, totalDaily), services);
  }

  /** A position is selected exactly when its volume is positive, and the
      selected positions come in increasing (catalog) order. */
  lemma {:induction false} SelectedIsFilter(form: seq<Input>, n: nat)
    requires n <= |form|
    ensures forall i :: 0 <= i < n ==> (i in Selected(form, n) <==> IsSelected(form[i]))
    ensures forall k :: 0 <= k < |Selected(form, n)| ==> IsSelected(form[Selected(form, n)[k]])
    ensures forall a, b :: 0 <= a < b < |Selected(form, n)| ==> Selected(form, n)[a] < Selected(form, n)[b]
  {
    if n > 0 {
      SelectedIsFilter(form, n - 1);
    }
  }

  /** The export lines are the lines of the selected positions, in order:
      the `k`th line describes the usage type at the `k`th selected position,
      with its volume and its credits as `calculateCredits` computes them. */
  lemma {:induction false} ServicesFollowSelected(items: seq<UsageType>, form: seq<Input>, n: nat)
    requires n <= |items| && |form| == |items|
    ensures |Services(items, form, n)| == |Selected(form, n)|
    ensures forall k :: 0 <= k < |Selected(form, n)| ==>
      Services(items, form, n)[k] == RecordOf(items[Selected(form, n)[k]], form[Selected(form, n)[k]])
  {
    if n > 0 {
      ServicesFollowSelected(items, form, n - 1);
      var prev, sel := Services(items, form, n - 1), Selected(form, n - 1);
      if IsSelected(form[n - 1]) {
        var r := RecordOf(items[n - 1], form[n - 1]);
        assert Services(items, form, n) == prev + [r];
        assert Selected(form, n) == sel + [n - 1];
        forall k | 0 <= k < |sel|
          ensures Services(items, form, n)[k] == RecordOf(items[sel[k]], form[sel[k]])
        {
          assert (prev + [r])[k] == prev[k];
        }
      }
    }
  }

  /** Every export line has a positive volume and carries the credits
      `calculateCredits` gives for its own volume, multiplier and frequency. */
  lemma {:induction false} ServiceRecordsAreConsistent(items: seq<UsageType>, form: seq<Input>, n: nat)
    requires n <= |items| && |form| == |items|
    ensures forall k :: 0 <= k < |Services(items, form, n)| ==>
      var r := Services(items, form, n)[k];
      r.volume > 0.0 && r.totalCredits == CalculateCredits(Num(r.volume), r.multiplier, r.frequency)
  {
    ServicesFollowSelected(items, form, n);
    SelectedIsFilter(form, n);
  }

  /** The export summary equals the live dashboard totals for the same form:
      leaving out the usage types without a positive volume leaves out only
      zero credits. */
  lemma {:induction false} ExportTotalsMatchDashboard(items: seq<UsageType>, form: seq<Input>, n: nat)
    requires n <= |items| && |form| == |items|
    ensures ExportTotals(items, form, n) == DashboardTotals(items, form, n)
  {
    if n > 0 {
      ExportTotalsMatchDashboard(items, form, n - 1);
    }
  }

  /** With no positive volume the export has no lines and zero totals. */
  lemma {:induction false} EmptyFormExportsNothing(items: seq<UsageType>, form: seq<Input>, n: nat)
    requires n <= |items| && |form| == |items|
    requires forall i :: 0 <= i < n ==> !IsSelected(form[i])
    ensures Services(items, form, n) == []
    ensures ExportTotals(items, form, n) == Zero
  {
    if n > 0 {
      EmptyFormExportsNothing(items, form, n - 1);
    }
  }

  /** Over the shipped catalog, no export line of a segmentation or
      activation type comes before an export line of a data service. */
  lemma ServicesInCatalogOrder(form: seq<Input>)
    requires |form| == |AllItems|
    ensures var s := Selected(form, |form|);
      forall a, b :: 0 <= a < b < |s| && AllItems[s[b]] in DataServices ==> AllItems[s[a]] in DataServices
  {
    SelectedIsFilter(form, |form|);
    DataServicesComeFirst();
  }
}

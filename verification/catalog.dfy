/** The static configuration of the credit calculator: the catalog of usage
    types in its two ordered groups, the frequency table and the pricing
    constants. All of it is immutable. */
module Catalog {

  /** One billable usage type: `multiplier` credits are charged per `unit`
      of measured volume. */
  datatype UsageType = UsageType(
    id: string,
    name: string,
    description: string,
    multiplier: real,
    unit: string)

  /** The value of a frequency selector. The four options of the selector
      have their own cases; `Other` stands for any other key. */
  datatype Frequency = OneTime | Daily | Weekly | Monthly | Other(key: string)

  /** The selector value that stands for a frequency. */
  function Key(f: Frequency): string {
    match f
    case OneTime => "onetime"
    case Daily => "daily"
    case Weekly => "weekly"
    case Monthly => "monthly"
    case Other(k) => k
  }

  /** True of the keys that the frequency table knows. */
  predicate IsKnownKey(key: string) {
    key == "onetime" || key == "daily" || key == "weekly" || key == "monthly"
  }

  /** A frequency in its one canonical form: `Other` never carries a known key. */
  predicate Canonical(f: Frequency) {
    f.Other? ==> !IsKnownKey(f.key)
  }

  /** The frequencies a selector can produce: the canonical ones. */
  type SelectorFrequency = f: Frequency | Canonical(f) witness OneTime

  /** Reads a selector value: the comparisons `freq === 'onetime'`, ... of the
      calculator, with every unmatched key kept as `Other`. */
  function FrequencyOf(key: string): (f: Frequency)
    ensures Key(f) == key
    ensures Canonical(f)
    ensures f.Other? <==> !IsKnownKey(key)
  {
    if key == "onetime" then OneTime
    else if key == "daily" then Daily
    else if key == "weekly" then Weekly
    else if key == "monthly" then Monthly
    else Other(key)
  }

  /** Reading back the key of a canonical frequency gives that frequency. */
  lemma FrequencyKeyRoundTrip(f: Frequency)
    requires Canonical(f)
    ensures FrequencyOf(Key(f)) == f
  {
    match f
    case OneTime =>
    case Daily =>
    case Weekly =>
    case Monthly =>
    case Other(k) =>
  }

  /** The annualisation factor: the frequency table, with the fallback `|| 1`
      for a key the table does not have. */
  function Factor(f: Frequency): (r: real)
    ensures r >= 1.0
    ensures r == 1.0 <==> f.OneTime? || f.Other?
  {
    match f
    case OneTime => 1.0
    case Daily => 365.0
    case Weekly => 52.0
    case Monthly => 12.0
    case Other(_) => 1.0
  }

  /** An unrecognised key is charged as a one-time occurrence. */
  lemma OtherActsAsOneTime(key: string)
    ensures Factor(Other(key)) == Factor(OneTime)
  {
  }

  /** The table entries for the four known keys. */
  lemma FactorTable()
    ensures Factor(FrequencyOf("onetime")) == 1.0
    ensures Factor(FrequencyOf("daily")) == 365.0
    ensures Factor(FrequencyOf("weekly")) == 52.0
    ensures Factor(FrequencyOf("monthly")) == 12.0
    ensures forall key :: !IsKnownKey(key) ==> Factor(FrequencyOf(key)) == 1.0
  {
  }

  /** Pricing: credits are sold in packages of 100000 for 1000 each. */
  const CreditsPerPackage: real := 100000.0
  const CostPerPackage: real := 1000.0

  /** The first group of the catalog, in display order. */
  const DataServices: seq<UsageType> := [
    UsageType("batch-pipeline", "Batch Data Pipeline",
      "Ingesting data through Data Streams to Data Cloud", 2000.0, "1M rows"),
    UsageType("streaming-pipeline", "Streaming Data Pipeline",
      "Real-time data ingestion from web, mobile, APIs", 5000.0, "1M rows"),
    UsageType("batch-transforms", "Batch Data Transforms",
      "Data transformation during batch processing", 400.0, "1M rows"),
    UsageType("streaming-transforms", "Streaming Data Transforms",
      "Real-time data transformation", 5000.0, "1M rows"),
    UsageType("profile-unification", "Batch Profile Unification",
      "Identity resolution and profile merging", 100000.0, "1M profiles"),
    UsageType("data-federation", "Data Federation (Zero-Copy)",
      "Querying external data without copying", 70.0, "1M rows accessed"),
    UsageType("data-queries", "Data Queries",
      "Standard data queries and reports", 2.0, "1M rows processed"),
    UsageType("accelerated-queries", "Accelerated Data Queries",
      "High-performance data queries", 2.0, "1M rows processed"),
    UsageType("batch-insights", "Batch Calculated Insights",
      "Batch calculation of derived metrics", 15.0, "1M rows processed"),
    UsageType("streaming-insights", "Streaming Calculated Insights",
      "Real-time calculated insights", 800.0, "1M rows processed"),
    UsageType("realtime-events", "Sub-Second Real-Time Events",
      "High-frequency real-time event processing", 70000.0, "1M events"),
    UsageType("unstructured-data", "Unstructured Data",
      "Processing PDFs, images, documents", 60.0, "1MB processed"),
    UsageType("profile-api", "Real-Time Profile API",
      "Real-time profile API requests", 900.0, "1M API calls"),
    UsageType("ai-inferences", "Inferences (AI/ML)",
      "Einstein predictions and AI processing", 3500.0, "1M inferences")
  ]

  /** The second group of the catalog, in display order. */
  const SegmentationActivation: seq<UsageType> := [
    UsageType("segment-processing", "Segment Processing",
      "Creating and updating audience segments", 20.0, "1M rows processed"),
    UsageType("batch-activation", "Batch Activation",
      "Batch activation to target systems", 10.0, "1M rows activated"),
    UsageType("streaming-activation", "Streaming Activation",
      "Real-time activation and personalization", 1600.0, "1M rows activated")
  ]

  /** Every usage type, data services first: the order in which the
      calculator walks the catalog. */
  const AllItems: seq<UsageType> := DataServices + SegmentationActivation

  /** The catalog invariant: multipliers are positive and ids identify items. */
  predicate ValidCatalog(items: seq<UsageType>) {
    && (forall i :: 0 <= i < |items| ==> items[i].multiplier > 0.0)
    && (forall i, j :: 0 <= i < j < |items| ==> items[i].id != items[j].id)
  }

  /** No two data services share an id. */
  lemma DataServiceIdsDistinct()
    ensures forall i, j :: 0 <= i < j < |DataServices| ==> DataServices[i].id != DataServices[j].id
  {
    forall i, j | 0 <= i < j < |DataServices|
      ensures DataServices[i].id != DataServices[j].id
    {
      if j < 7 {
      } else if i < 7 {
      } else {
      }
    }
  }

  /** No two segmentation and activation types share an id, and none shares
      an id with a data service. */
  lemma SegmentationIdsDistinct()
    ensures forall i, j :: 0 <= i < j < |SegmentationActivation| ==>
      SegmentationActivation[i].id != SegmentationActivation[j].id
    ensures forall i, j :: 0 <= i < |DataServices| && 0 <= j < |SegmentationActivation| ==>
      DataServices[i].id != SegmentationActivation[j].id
  {
  }

  /** A usage type of the catalog is a data service exactly when it stands
      in the first group. */
  lemma DataServicesComeFirst()
    ensures forall i :: 0 <= i < |AllItems| ==> (AllItems[i] in DataServices <==> i < |DataServices|)
  {
    SegmentationIdsDistinct();
    forall i | |DataServices| <= i < |AllItems|
      ensures AllItems[i] !in DataServices
    {
      var t := SegmentationActivation[i - |DataServices|];
      assert AllItems[i] == t;
      assert forall k :: 0 <= k < |DataServices| ==> DataServices[k].id != t.id;
    }
  }

  /** The shipped catalog has 17 usage types (14 data services and 3
      segmentation/activation types) and satisfies the catalog invariant. */
  lemma CatalogIsValid()
    ensures |DataServices| == 14 && |SegmentationActivation| == 3
    ensures |AllItems| == 17
    ensures ValidCatalog(AllItems)
  {
    DataServiceIdsDistinct();
    SegmentationIdsDistinct();
    forall i, j | 0 <= i < j < |AllItems|
      ensures AllItems[i].id != AllItems[j].id
    {
      if j < |DataServices| {
        assert AllItems[i] == DataServices[i] && AllItems[j] == DataServices[j];
      } else if i < |DataServices| {
        assert AllItems[i] == DataServices[i] && AllItems[j] == SegmentationActivation[j - |DataServices|];
      } else {
        assert AllItems[i] == SegmentationActivation[i - |DataServices|];
        assert AllItems[j] == SegmentationActivation[j - |DataServices|];
      }
    }
  }
}

/** The A/B test stage of the synthetic marketing data generator
    (scripts/generate_marketing_data.py, generate_ab_tests): each sampled
    campaign gets a control row and two variant rows, with the test window
    clipped to the campaign and a placeholder significance flag. */
module AbTests {
  import opened Common
  import opened Campaigns

  datatype Variant = Control | VariantA | VariantB

  /** The variants in the order the rows are written. */
  const Variants: seq<Variant> := [Control, VariantA, VariantB]

  function VariantKey(v: Variant): string
  {
    match v
    case Control => "control"
    case VariantA => "variant_a"
    case VariantB => "variant_b"
  }

  /** The draws of one tested campaign: `randint(14, 30)` test days and
      `randint(50000, 200000)` base impressions. */
  datatype TestDraw = TestDraw(testDuration: nat, baseImpressions: nat)

  /** The draws of one row: the ctr and cvr factors (used by the two variants
      only), the `uniform(0.9, 1.1)` impression factor, and the `random()`
      behind the p-value's `uniform`. */
  datatype VariantDraw = VariantDraw(ctrFactor: real, cvrFactor: real, impressionFactor: real, pUnit: real)

  datatype AbTest = AbTest(
    testId: nat,
    campaignId: nat,
    testName: string,
    variant: Variant,
    startDate: int,
    endDate: int,
    impressions: int,
    clicks: int,
    conversions: int,
    significant: bool,
    pValue: real)

  /** Python's int() on a float: truncation toward zero. */
  function Trunc(x: real): int
  {
    if x >= 0.0 then x.Floor else -((-x).Floor)
  }

  /** Truncation drops the fractional part toward zero. */
  lemma TruncTowardZero(x: real)
    ensures 0.0 <= x ==> Trunc(x) as real <= x < Trunc(x) as real + 1.0
    ensures x < 0.0 ==> Trunc(x) as real - 1.0 < x <= Trunc(x) as real
  {
  }

  function Abs(x: real): real { if x < 0.0 then -x else x }

  /** The ctr and cvr of a row: the channel's base rates for the control, the
      base rates scaled by the row's factors for a variant. */
  function Rates(v: Variant, baseCtr: real, baseCvr: real, d: VariantDraw): (real, real)
  {
    match v
    case Control => (baseCtr, baseCvr)
    case VariantA => (baseCtr * d.ctrFactor, baseCvr * d.cvrFactor)
    case VariantB => (baseCtr * d.ctrFactor, baseCvr * d.cvrFactor)
  }

  /** The rates the if-chain over the variant picks are Rates: the base rates
      for the control, the base rates scaled by the drawn factors otherwise. */
  lemma RatesChosen(v: Variant, baseCtr: real, baseCvr: real, d: VariantDraw, ctr: real, cvr: real)
    requires v == Control ==> ctr == baseCtr && cvr == baseCvr
    requires v != Control ==> ctr == baseCtr * d.ctrFactor && cvr == baseCvr * d.cvrFactor
    ensures ctr == Rates(v, baseCtr, baseCvr, d).0 && cvr == Rates(v, baseCtr, baseCvr, d).1
  {
    match v
    case Control =>
    case VariantA =>
    case VariantB =>
  }

  /** The placeholder test: more than 100 conversions and a cvr more than 10%
      away from the base cvr. */
  predicate Significant(conversions: int, cvr: real, baseCvr: real)
    requires baseCvr != 0.0
  {
    conversions > 100 && Abs(cvr - baseCvr) / baseCvr > 0.1
  }

  /** `uniform(0.01, 0.15)` for a significant row, `uniform(0.15, 0.90)` otherwise,
      from the underlying `random()` draw u. */
  function PValue(significant: bool, u: real): real
  {
    if significant then 0.01 + (0.15 - 0.01) * u else 0.15 + (0.90 - 0.15) * u
  }

  lemma AvgCvrPositive(ch: Channel)
    ensures AvgCvr(ch) > 0.0
  {
  }

  /** The test window: from the campaign start for the drawn number of days,
      but never past the campaign end. */
  function TestEnd(c: Campaign, td: TestDraw): (e: int)
    ensures e <= c.endDate
    ensures e <= c.startDate + td.testDuration
    ensures e == c.endDate || e == c.startDate + td.testDuration
  {
    Min(c.startDate + td.testDuration, c.endDate)
  }

  predicate SampleInRange(cs: seq<Campaign>, sample: seq<nat>)
  {
    forall k :: 0 <= k < |sample| ==> sample[k] < |cs|
  }

  /** The measured part of a row. */
  datatype Metrics = Metrics(impressions: int, clicks: int, conversions: int, significant: bool, pValue: real)

  /** The counts, the significance flag and the p-value of a row with the given
      rates: a third of the base impressions scaled by the impression factor,
      then clicks and conversions truncated from the rates. */
  function Measure(baseImpressions: nat, ctr: real, cvr: real, baseCvr: real, d: VariantDraw): (m: Metrics)
    requires baseCvr > 0.0
    ensures m.significant ==> m.conversions > 100
    ensures m.significant <==> Significant(m.conversions, cvr, baseCvr)
    ensures m.pValue == PValue(m.significant, d.pUnit)
  {
    var impressions := Trunc(baseImpressions as real / 3.0 * d.impressionFactor);
    var clicks := Trunc(impressions as real * ctr);
    var conversions := Trunc(clicks as real * cvr);
    var sig := Significant(conversions, cvr, baseCvr);
    Metrics(impressions, clicks, conversions, sig, PValue(sig, d.pUnit))
  }

  /** Row j (0 control, 1 variant_a, 2 variant_b) of the k-th tested campaign,
      with test_id 3k + j + 1. */
  function Row(cs: seq<Campaign>, sample: seq<nat>, testDraw: nat -> TestDraw, variantDraw: (nat, nat) -> VariantDraw,
               k: nat, j: nat): AbTest
    requires SampleInRange(cs, sample) && k < |sample| && j < 3
  {
    var c := cs[sample[k]];
    var td := testDraw(k);
    var rates := Rates(Variants[j], AvgCtr(c.channel), AvgCvr(c.channel), variantDraw(k, j));
    AvgCvrPositive(c.channel);
    var m := Measure(td.baseImpressions, rates.0, rates.1, AvgCvr(c.channel), variantDraw(k, j));
    AbTest(3 * k + j + 1, c.campaignId, "Creative Test - " + c.campaignName, Variants[j], c.startDate, TestEnd(c, td),
           m.impressions, m.clicks, m.conversions, m.significant, m.pValue)
  }

  /** The three rows of the k-th tested campaign. */
  function TestRows(cs: seq<Campaign>, sample: seq<nat>, testDraw: nat -> TestDraw, variantDraw: (nat, nat) -> VariantDraw,
                    k: nat): seq<AbTest>
    requires SampleInRange(cs, sample) && k < |sample|
  {
    [Row(cs, sample, testDraw, variantDraw, k, 0), Row(cs, sample, testDraw, variantDraw, k, 1),
     Row(cs, sample, testDraw, variantDraw, k, 2)]
  }

  /** The rows of the first m tested campaigns. */
  function RowsUpTo(cs: seq<Campaign>, sample: seq<nat>, testDraw: nat -> TestDraw, variantDraw: (nat, nat) -> VariantDraw,
                    m: nat): (rows: seq<AbTest>)
    requires SampleInRange(cs, sample) && m <= |sample|
    ensures |rows| == 3 * m
  {
    if m == 0 then []
    else RowsUpTo(cs, sample, testDraw, variantDraw, m - 1) + TestRows(cs, sample, testDraw, variantDraw, m - 1)
  }

  /** The A/B test table: three rows per sampled campaign. */
  function AbTestTable(cs: seq<Campaign>, sample: seq<nat>, testDraw: nat -> TestDraw, variantDraw: (nat, nat) -> VariantDraw): seq<AbTest>
    requires SampleInRange(cs, sample)
  {
    RowsUpTo(cs, sample, testDraw, variantDraw, |sample|)
  }

  /** Row 3k + j of the rows of the first m tested campaigns is row j of the
      k-th tested campaign. */
  lemma {:induction false} RowsUpToIndex(cs: seq<Campaign>, sample: seq<nat>, testDraw: nat -> TestDraw,
                                         variantDraw: (nat, nat) -> VariantDraw, m: nat, k: nat, j: nat)
    requires SampleInRange(cs, sample) && k < m <= |sample| && j < 3
    ensures RowsUpTo(cs, sample, testDraw, variantDraw, m)[3 * k + j] == Row(cs, sample, testDraw, variantDraw, k, j)
    decreases m
  {
    var prev := RowsUpTo(cs, sample, testDraw, variantDraw, m - 1);
    var last := TestRows(cs, sample, testDraw, variantDraw, m - 1);
    assert RowsUpTo(cs, sample, testDraw, variantDraw, m) == prev + last;
    if k < m - 1 {
      RowsUpToIndex(cs, sample, testDraw, variantDraw, m - 1, k, j);
      assert (prev + last)[3 * k + j] == prev[3 * k + j];
    } else {
      assert (prev + last)[3 * k + j] == last[j];
    }
  }

  /** A row assembled from the k-th tested campaign, its test window and the
      rates of variant j is row j of that campaign. */
  lemma RowStep(cs: seq<Campaign>, sample: seq<nat>, testDraw: nat -> TestDraw, variantDraw: (nat, nat) -> VariantDraw,
                k: nat, j: nat, ctr: real, cvr: real, m: Metrics, row: AbTest)
    requires SampleInRange(cs, sample) && k < |sample| && j < 3
    requires ctr == Rates(Variants[j], AvgCtr(cs[sample[k]].channel), AvgCvr(cs[sample[k]].channel), variantDraw(k, j)).0
    requires cvr == Rates(Variants[j], AvgCtr(cs[sample[k]].channel), AvgCvr(cs[sample[k]].channel), variantDraw(k, j)).1
    requires AvgCvr(cs[sample[k]].channel) > 0.0
    requires m == Measure(testDraw(k).baseImpressions, ctr, cvr, AvgCvr(cs[sample[k]].channel), variantDraw(k, j))
    requires row == AbTest(3 * k + j + 1, cs[sample[k]].campaignId, "Creative Test - " + cs[sample[k]].campaignName,
                           Variants[j], cs[sample[k]].startDate,
                           Min(cs[sample[k]].startDate + testDraw(k).testDuration, cs[sample[k]].endDate),
                           m.impressions, m.clicks, m.conversions, m.significant, m.pValue)
    ensures row == Row(cs, sample, testDraw, variantDraw, k, j)
  {
  }

  lemma TestRowsOf(cs: seq<Campaign>, sample: seq<nat>, testDraw: nat -> TestDraw, variantDraw: (nat, nat) -> VariantDraw,
                   k: nat, rows: seq<AbTest>)
    requires SampleInRange(cs, sample) && k < |sample| && |rows| == 3
    requires forall i :: 0 <= i < 3 ==> rows[i] == Row(cs, sample, testDraw, variantDraw, k, i)
    ensures rows == TestRows(cs, sample, testDraw, variantDraw, k)
  {
  }

  /** The inner loop of generate_ab_tests: the control, variant_a and
      variant_b rows of the k-th tested campaign, numbered from testId. */
  method VariantRows(campaigns: seq<Campaign>, sample: seq<nat>, testDraw: nat -> TestDraw,
                     variantDraw: (nat, nat) -> VariantDraw, k: nat, testId: nat)
    returns (rows: seq<AbTest>)
    requires SampleInRange(campaigns, sample) && k < |sample| && testId == 3 * k + 1
    ensures rows == TestRows(campaigns, sample, testDraw, variantDraw, k)
  {
    var campaign := campaigns[sample[k]];
    var td := testDraw(k);
    var testName := "Creative Test - " + campaign.campaignName;
    var testStart := campaign.startDate;
    var testEnd := Min(testStart + td.testDuration, campaign.endDate);
    var baseCtr := AvgCtr(campaign.channel);
    var baseCvr := AvgCvr(campaign.channel);
    AvgCvrPositive(campaign.channel);
    rows := [];
    for j := 0 to |Variants|
      invariant |rows| == j
      invariant forall i :: 0 <= i < j ==> rows[i] == Row(campaigns, sample, testDraw, variantDraw, k, i)
    {
      var variant := Variants[j];
      var d := variantDraw(k, j);
      var ctr, cvr;
      if variant == Control {
        ctr, cvr := baseCtr, baseCvr;
      } else if variant == VariantA {
        ctr, cvr := baseCtr * d.ctrFactor, baseCvr * d.cvrFactor;
      } else {
        ctr, cvr := baseCtr * d.ctrFactor, baseCvr * d.cvrFactor;
      }
      RatesChosen(variant, baseCtr, baseCvr, d, ctr, cvr);
      var m := Measure(td.baseImpressions, ctr, cvr, baseCvr, d);
      var row := AbTest(testId + j, campaign.campaignId, testName, variant, testStart, testEnd,
                        m.impressions, m.clicks, m.conversions, m.significant, m.pValue);
      RowStep(campaigns, sample, testDraw, variantDraw, k, j, ctr, cvr, m, row);
      rows := rows + [row];
    }
    TestRowsOf(campaigns, sample, testDraw, variantDraw, k, rows);
  }

  /** generate_ab_tests over the sampled campaign positions (the
      `sample(frac=0.4)` draw), `test_id` counting up from 1. */
  method GenerateAbTests(campaigns: seq<Campaign>, sample: seq<nat>, testDraw: nat -> TestDraw,
                         variantDraw: (nat, nat) -> VariantDraw)
    returns (abTests: seq<AbTest>)
    requires SampleInRange(campaigns, sample)
    ensures abTests == AbTestTable(campaigns, sample, testDraw, variantDraw)
  {
    abTests := [];
    var testId := 1;
    for k := 0 to |sample|
      invariant testId == 3 * k + 1
      invariant abTests == RowsUpTo(campaigns, sample, testDraw, variantDraw, k)
    {
      var rows := VariantRows(campaigns, sample, testDraw, variantDraw, k, testId);
      abTests := abTests + rows;
      testId := testId + |rows|;
    }
  }

  // ---------------------------------------------------------------------------
  // Properties of the table

  /** Row j of the k-th tested campaign has test id 3k + j + 1, variant j,
      and the campaign's id, name and clipped test window. */
  lemma RowHeader(cs: seq<Campaign>, sample: seq<nat>, testDraw: nat -> TestDraw, variantDraw: (nat, nat) -> VariantDraw,
                  k: nat, j: nat)
    requires SampleInRange(cs, sample) && k < |sample| && j < 3
    ensures Row(cs, sample, testDraw, variantDraw, k, j).testId == 3 * k + j + 1
    ensures Row(cs, sample, testDraw, variantDraw, k, j).variant == Variants[j]
    ensures Row(cs, sample, testDraw, variantDraw, k, j).campaignId == cs[sample[k]].campaignId
    ensures Row(cs, sample, testDraw, variantDraw, k, j).testName == "Creative Test - " + cs[sample[k]].campaignName
    ensures Row(cs, sample, testDraw, variantDraw, k, j).startDate == cs[sample[k]].startDate
    ensures Row(cs, sample, testDraw, variantDraw, k, j).endDate
         == Min(cs[sample[k]].startDate + testDraw(k).testDuration, cs[sample[k]].endDate)
    ensures Row(cs, sample, testDraw, variantDraw, k, j).endDate <= cs[sample[k]].endDate
  {
  }

  /** Three rows per sampled campaign: row 3k + j of the table is row j
      (control, variant_a, variant_b) of the k-th tested campaign. */
  lemma AbTestTableShape(cs: seq<Campaign>, sample: seq<nat>, testDraw: nat -> TestDraw, variantDraw: (nat, nat) -> VariantDraw)
    requires SampleInRange(cs, sample)
    ensures |AbTestTable(cs, sample, testDraw, variantDraw)| == 3 * |sample|
    ensures forall k, j :: 0 <= k < |sample| && 0 <= j < 3 ==>
      AbTestTable(cs, sample, testDraw, variantDraw)[3 * k + j] == Row(cs, sample, testDraw, variantDraw, k, j)
  {
    forall k, j | 0 <= k < |sample| && 0 <= j < 3
      ensures AbTestTable(cs, sample, testDraw, variantDraw)[3 * k + j] == Row(cs, sample, testDraw, variantDraw, k, j)
    {
      RowsUpToIndex(cs, sample, testDraw, variantDraw, |sample|, k, j);
    }
  }

  /** Every row among the first m tested campaigns' rows is some row j of some
      tested campaign k < m. */
  lemma {:induction false} RowOfRowsUpTo(cs: seq<Campaign>, sample: seq<nat>, testDraw: nat -> TestDraw,
                                         variantDraw: (nat, nat) -> VariantDraw, m: nat, n: nat)
    requires SampleInRange(cs, sample) && m <= |sample| && n < |RowsUpTo(cs, sample, testDraw, variantDraw, m)|
    ensures exists k, j :: 0 <= k < m && 0 <= j < 3 && RowsUpTo(cs, sample, testDraw, variantDraw, m)[n] == Row(cs, sample, testDraw, variantDraw, k, j)
  {
    var prev := RowsUpTo(cs, sample, testDraw, variantDraw, m - 1);
    var last := TestRows(cs, sample, testDraw, variantDraw, m - 1);
    assert RowsUpTo(cs, sample, testDraw, variantDraw, m) == prev + last;
    if n < |prev| {
      RowOfRowsUpTo(cs, sample, testDraw, variantDraw, m - 1, n);
      var k, j :| 0 <= k < m - 1 && 0 <= j < 3 && prev[n] == Row(cs, sample, testDraw, variantDraw, k, j);
      assert RowsUpTo(cs, sample, testDraw, variantDraw, m)[n] == prev[n];
    } else {
      var j := n - |prev|;
      assert RowsUpTo(cs, sample, testDraw, variantDraw, m)[n] == last[j];
    }
  }

  /** Every row of the table is some row j of some tested campaign k. */
  lemma RowOfTable(cs: seq<Campaign>, sample: seq<nat>, testDraw: nat -> TestDraw, variantDraw: (nat, nat) -> VariantDraw, n: nat)
    requires SampleInRange(cs, sample) && n < |AbTestTable(cs, sample, testDraw, variantDraw)|
    ensures exists k, j :: 0 <= k < |sample| && 0 <= j < 3 && AbTestTable(cs, sample, testDraw, variantDraw)[n] == Row(cs, sample, testDraw, variantDraw, k, j)
  {
    RowOfRowsUpTo(cs, sample, testDraw, variantDraw, |sample|, n);
  }

  /** A significant row always has more than 100 conversions, and its p-value
      is drawn from [0.01, 0.15); any other row's from [0.15, 0.90). */
  lemma SignificanceAndPValue(cs: seq<Campaign>, sample: seq<nat>, testDraw: nat -> TestDraw, variantDraw: (nat, nat) -> VariantDraw)
    requires SampleInRange(cs, sample)
    requires forall k: nat, j: nat :: 0.0 <= variantDraw(k, j).pUnit < 1.0
    ensures var t := AbTestTable(cs, sample, testDraw, variantDraw);
      forall n :: 0 <= n < |t| ==>
        && (t[n].significant ==> t[n].conversions > 100 && 0.01 <= t[n].pValue < 0.15)
        && (!t[n].significant ==> 0.15 <= t[n].pValue < 0.90)
  {
    var t := AbTestTable(cs, sample, testDraw, variantDraw);
    forall n | 0 <= n < |t|
      ensures t[n].significant ==> t[n].conversions > 100 && 0.01 <= t[n].pValue < 0.15
      ensures !t[n].significant ==> 0.15 <= t[n].pValue < 0.90
    {
      RowOfTable(cs, sample, testDraw, variantDraw, n);
    }
  }

  /** The control row uses the base rates, so it is never significant. */
  lemma ControlNeverSignificant(cs: seq<Campaign>, sample: seq<nat>, testDraw: nat -> TestDraw, variantDraw: (nat, nat) -> VariantDraw)
    requires SampleInRange(cs, sample)
    ensures var t := AbTestTable(cs, sample, testDraw, variantDraw);
      forall n :: 0 <= n < |t| && t[n].variant == Control ==> !t[n].significant
  {
    var t := AbTestTable(cs, sample, testDraw, variantDraw);
    forall n | 0 <= n < |t| && t[n].variant == Control
      ensures !t[n].significant
    {
      RowOfTable(cs, sample, testDraw, variantDraw, n);
      var k, j :| 0 <= k < |sample| && 0 <= j < 3 && t[n] == Row(cs, sample, testDraw, variantDraw, k, j);
      var c := cs[sample[k]];
      assert Rates(Control, AvgCtr(c.channel), AvgCvr(c.channel), variantDraw(k, j)).1 == AvgCvr(c.channel);
    }
  }

  /** |base * f - base| / base is |f - 1| for a positive base. */
  lemma RelativeChange(base: real, f: real)
    requires base > 0.0
    ensures Abs(base * f - base) / base == Abs(f - 1.0)
  {
    assert base * f - base == base * (f - 1.0);
    if f >= 1.0 {
      assert base * (f - 1.0) >= 0.0;
    } else {
      assert base * (f - 1.0) < 0.0;
      assert -(base * (f - 1.0)) == base * (1.0 - f);
    }
  }

  /** A variant_a row whose cvr factor lies in [0.90, 1.10] is not significant. */
  lemma VariantARowNotSignificant(cs: seq<Campaign>, sample: seq<nat>, testDraw: nat -> TestDraw,
                                  variantDraw: (nat, nat) -> VariantDraw, k: nat)
    requires SampleInRange(cs, sample) && k < |sample|
    requires 0.90 <= variantDraw(k, 1).cvrFactor <= 1.10
    ensures !Row(cs, sample, testDraw, variantDraw, k, 1).significant
  {
    var c := cs[sample[k]];
    var d := variantDraw(k, 1);
    var base := AvgCvr(c.channel);
    AvgCvrPositive(c.channel);
    var rates := Rates(VariantA, AvgCtr(c.channel), base, d);
    assert rates.1 == base * d.cvrFactor;
    RelativeChange(base, d.cvrFactor);
    assert Abs(rates.1 - base) / base <= 0.1;
    var m := Measure(testDraw(k).baseImpressions, rates.0, rates.1, base, d);
    assert !m.significant;
  }

  /** With its cvr factor drawn from [0.90, 1.10], variant_a's cvr is at most
      10% away from the base, so in exact arithmetic it is never significant
      either: only variant_b can be. */
  lemma VariantANeverSignificant(cs: seq<Campaign>, sample: seq<nat>, testDraw: nat -> TestDraw, variantDraw: (nat, nat) -> VariantDraw)
    requires SampleInRange(cs, sample)
    requires forall k: nat :: 0.90 <= variantDraw(k, 1).cvrFactor <= 1.10
    ensures var t := AbTestTable(cs, sample, testDraw, variantDraw);
      forall n :: 0 <= n < |t| && t[n].variant == VariantA ==> !t[n].significant
  {
    var t := AbTestTable(cs, sample, testDraw, variantDraw);
    forall n | 0 <= n < |t| && t[n].variant == VariantA
      ensures !t[n].significant
    {
      RowOfTable(cs, sample, testDraw, variantDraw, n);
      var k, j :| 0 <= k < |sample| && 0 <= j < 3 && t[n] == Row(cs, sample, testDraw, variantDraw, k, j);
      assert Row(cs, sample, testDraw, variantDraw, k, j).variant == Variants[j];
      assert j == 1;
      VariantARowNotSignificant(cs, sample, testDraw, variantDraw, k);
    }
  }
}

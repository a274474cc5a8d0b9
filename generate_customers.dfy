/** The customer and transaction stages of the synthetic marketing data
    generator (scripts/generate_marketing_data.py, generate_customers and
    generate_transactions). Every converting day yields one customer per
    conversion until NUM_CUSTOMERS is reached; every customer then yields a
    first transaction and a run of repeat purchases. */
module Customers {
  import opened Common
  import opened Campaigns

  // ---------------------------------------------------------------------------
  // Segments

  datatype Segment = HighValue | MediumValue | LowValue

  function SegmentKey(s: Segment): string
  {
    match s
    case HighValue => "high_value"
    case MediumValue => "medium_value"
    case LowValue => "low_value"
  }

  /** The segment of a first order: high from 100 up, medium from 50 up, low below. */
  function SegmentOf(firstOrder: real): (s: Segment)
    ensures s == HighValue <==> firstOrder >= 100.0
    ensures s == MediumValue <==> 50.0 <= firstOrder < 100.0
    ensures s == LowValue <==> firstOrder < 50.0
  {
    if firstOrder >= 100.0 then HighValue
    else if firstOrder >= 50.0 then MediumValue
    else LowValue
  }

  // ---------------------------------------------------------------------------
  // Campaign lookup: `campaigns_df[campaigns_df['campaign_id'] == id].iloc[0]`

  /** Position of the first campaign carrying the id, or |cs| when none does. */
  function FirstWithId(cs: seq<Campaign>, id: nat): (k: nat)
    ensures k <= |cs|
    ensures k < |cs| ==> cs[k].campaignId == id
    ensures forall j :: 0 <= j < k ==> cs[j].campaignId != id
  {
    if cs == [] then 0
    else if cs[0].campaignId == id then 0
    else 1 + FirstWithId(cs[1..], id)
  }

  /** The first campaign carrying the id, if any. */
  function FindCampaign(cs: seq<Campaign>, id: nat): (r: Option<Campaign>)
    ensures r.Some? <==> exists i :: 0 <= i < |cs| && cs[i].campaignId == id
    ensures r.Some? ==> r.value.campaignId == id && r.value in cs
    ensures r.Some? ==> exists i :: 0 <= i < |cs| && cs[i] == r.value
                          && forall j :: 0 <= j < i ==> cs[j].campaignId != id
  {
    var k := FirstWithId(cs, id);
    if k < |cs| then Some(cs[k]) else None
  }

  // ---------------------------------------------------------------------------
  // Conversion slots: each daily row stands for one customer per conversion

  function Repeat(r: DailyRecord, n: nat): seq<DailyRecord>
  {
    seq(n, _ => r)
  }

  lemma RepeatSnoc(r: DailyRecord, n: nat)
    ensures Repeat(r, n + 1) == Repeat(r, n) + [r]
  {
  }

  lemma SlotsSnoc(done: seq<DailyRecord>, r: DailyRecord, n: nat)
    ensures done + Repeat(r, n + 1) == (done + Repeat(r, n)) + [r]
  {
    RepeatSnoc(r, n);
  }

  /** The daily rows, each repeated as often as it has conversions. */
  function Slots(daily: seq<DailyRecord>): seq<DailyRecord>
  {
    if daily == [] then []
    else Slots(daily[..|daily| - 1]) + Repeat(daily[|daily| - 1], daily[|daily| - 1].conversions)
  }

  function TotalConversions(daily: seq<DailyRecord>): nat
  {
    if daily == [] then 0
    else TotalConversions(daily[..|daily| - 1]) + daily[|daily| - 1].conversions
  }

  lemma {:induction false} SlotsCount(daily: seq<DailyRecord>)
    ensures |Slots(daily)| == TotalConversions(daily)
    decreases |daily|
  {
    if daily != [] {
      SlotsCount(daily[..|daily| - 1]);
    }
  }

  lemma {:induction false} SlotsAppend(a: seq<DailyRecord>, b: seq<DailyRecord>)
    ensures Slots(a + b) == Slots(a) + Slots(b)
    decreases |b|
  {
    if b == [] {
      assert a + b == a;
    } else {
      assert (a + b)[..|a + b| - 1] == a + b[..|b| - 1];
      SlotsAppend(a, b[..|b| - 1]);
    }
  }

  /** Every slot is a converting daily row. */
  lemma {:induction false} SlotsFromConvertingRows(daily: seq<DailyRecord>)
    ensures forall k :: 0 <= k < |Slots(daily)| ==> Slots(daily)[k] in daily && Slots(daily)[k].conversions > 0
    decreases |daily|
  {
    if daily != [] {
      var init := daily[..|daily| - 1];
      var last := daily[|daily| - 1];
      SlotsFromConvertingRows(init);
      var s := Slots(daily);
      forall k | 0 <= k < |s|
        ensures s[k] in daily && s[k].conversions > 0
      {
        if k < |Slots(init)| {
          assert s[k] == Slots(init)[k];
          assert s[k] in init;
        } else {
          assert s[k] == Repeat(last, last.conversions)[k - |Slots(init)|];
        }
      }
    }
  }

  // ---------------------------------------------------------------------------
  // generate_customers

  /** A customers row. firstOrderValue is the drawn first order from which the
      segment is computed; the source stores it rounded to cents. */
  datatype Customer = Customer(
    customerId: nat,
    acquisitionDate: int,
    campaignId: nat,
    channel: Channel,
    firstOrderValue: real,
    segment: Segment)

  /** Every converting row names a campaign of the table (the lookup's `iloc[0]`
      would fail otherwise). */
  ghost predicate CampaignsKnown(cs: seq<Campaign>, daily: seq<DailyRecord>)
  {
    forall i :: 0 <= i < |daily| && daily[i].conversions > 0 ==> FindCampaign(cs, daily[i].campaignId).Some?
  }

  ghost predicate SlotsKnown(cs: seq<Campaign>, slots: seq<DailyRecord>)
  {
    forall k :: 0 <= k < |slots| ==> FindCampaign(cs, slots[k].campaignId).Some?
  }

  /** The customer with the given id acquired through a conversion slot; the
      first order is the channel's avg_aov times a `uniform(0.5, 1.5)` draw. */
  function CustomerFor(cs: seq<Campaign>, slot: DailyRecord, id: nat, orderDraw: nat -> real): Customer
    requires FindCampaign(cs, slot.campaignId).Some?
  {
    var campaign := FindCampaign(cs, slot.campaignId).value;
    var firstOrder := AvgAov(campaign.channel) * orderDraw(id);
    Customer(id, slot.date, campaign.campaignId, campaign.channel, firstOrder, SegmentOf(firstOrder))
  }

  lemma CustomerForCampaign(cs: seq<Campaign>, slot: DailyRecord, id: nat, orderDraw: nat -> real, campaign: Campaign)
    requires FindCampaign(cs, slot.campaignId) == Some(campaign)
    ensures CustomerFor(cs, slot, id, orderDraw)
         == Customer(id, slot.date, campaign.campaignId, campaign.channel, AvgAov(campaign.channel) * orderDraw(id),
                     SegmentOf(AvgAov(campaign.channel) * orderDraw(id)))
  {
  }

  /** The customers of the given slots, numbered from 1. */
  function CustomersOf(cs: seq<Campaign>, slots: seq<DailyRecord>, orderDraw: nat -> real): seq<Customer>
    requires SlotsKnown(cs, slots)
  {
    seq(|slots|, k requires 0 <= k < |slots| => CustomerFor(cs, slots[k], k + 1, orderDraw))
  }

  lemma SlotsKnownFromDaily(cs: seq<Campaign>, daily: seq<DailyRecord>)
    requires CampaignsKnown(cs, daily)
    ensures SlotsKnown(cs, Slots(daily))
  {
    SlotsFromConvertingRows(daily);
  }

  /** The customer table: the first NUM_CUSTOMERS slots, or all of them when
      there are fewer. */
  function CustomerTable(cs: seq<Campaign>, daily: seq<DailyRecord>, orderDraw: nat -> real): seq<Customer>
    requires CampaignsKnown(cs, daily)
  {
    SlotsKnownFromDaily(cs, daily);
    var slots := Slots(daily);
    CustomersOf(cs, slots[..Min(NumCustomers, |slots|)], orderDraw)
  }

  lemma CustomersOfStep(cs: seq<Campaign>, slots: seq<DailyRecord>, slot: DailyRecord, orderDraw: nat -> real)
    requires SlotsKnown(cs, slots) && FindCampaign(cs, slot.campaignId).Some?
    ensures SlotsKnown(cs, slots + [slot])
    ensures CustomersOf(cs, slots + [slot], orderDraw)
         == CustomersOf(cs, slots, orderDraw) + [CustomerFor(cs, slot, |slots| + 1, orderDraw)]
  {
    assert forall k :: 0 <= k < |slots| ==> (slots + [slot])[k] == slots[k];
    assert (slots + [slot])[|slots|] == slot;
  }

  /** The slots of the first i rows, then j slots of row i, are a prefix of all slots. */
  lemma SlotsPrefix(daily: seq<DailyRecord>, i: nat, j: nat)
    requires i < |daily| && j <= daily[i].conversions
    ensures var p := Slots(daily[..i]) + Repeat(daily[i], j);
      |p| <= |Slots(daily)| && Slots(daily)[..|p|] == p
  {
    assert daily == daily[..i + 1] + daily[i + 1..];
    SlotsAppend(daily[..i + 1], daily[i + 1..]);
    assert daily[..i + 1][..i] == daily[..i];
    var full := Repeat(daily[i], daily[i].conversions);
    assert Slots(daily[..i + 1]) == Slots(daily[..i]) + full;
    assert full[..j] == Repeat(daily[i], j);
  }

  /** One more customer from conversion j of row i. */
  lemma CustomerStep(cs: seq<Campaign>, slots: seq<DailyRecord>, slot: DailyRecord, customers: seq<Customer>,
                     orderDraw: nat -> real, campaign: Campaign, id: nat, firstOrder: real)
    requires SlotsKnown(cs, slots) && customers == CustomersOf(cs, slots, orderDraw)
    requires FindCampaign(cs, slot.campaignId) == Some(campaign)
    requires id == |customers| + 1 && firstOrder == AvgAov(campaign.channel) * orderDraw(id)
    ensures SlotsKnown(cs, slots + [slot])
    ensures customers + [Customer(id, slot.date, campaign.campaignId, campaign.channel, firstOrder, SegmentOf(firstOrder))]
         == CustomersOf(cs, slots + [slot], orderDraw)
  {
    CustomersOfStep(cs, slots, slot, orderDraw);
    assert |customers| == |slots|;
    CustomerForCampaign(cs, slot, id, orderDraw, campaign);
  }


  /** Reaching NUM_CUSTOMERS part-way through row i gives the whole table. */
  lemma CapReached(cs: seq<Campaign>, daily: seq<DailyRecord>, i: nat, j: nat, slots: seq<DailyRecord>,
                   customers: seq<Customer>, orderDraw: nat -> real)
    requires CampaignsKnown(cs, daily) && i < |daily| && j <= daily[i].conversions
    requires slots == Slots(daily[..i]) + Repeat(daily[i], j)
    requires SlotsKnown(cs, slots) && customers == CustomersOf(cs, slots, orderDraw)
    requires |customers| == NumCustomers
    ensures customers == CustomerTable(cs, daily, orderDraw)
  {
    SlotsPrefix(daily, i, j);
  }


  lemma RowDone(daily: seq<DailyRecord>, i: nat)
    requires i < |daily|
    ensures Slots(daily[..i + 1]) == Slots(daily[..i]) + Repeat(daily[i], daily[i].conversions)
  {
    assert daily[..i + 1][..i] == daily[..i];
  }

  /** Running out of rows below the cap gives the whole table. */
  lemma AllRowsDone(cs: seq<Campaign>, daily: seq<DailyRecord>, customers: seq<Customer>, orderDraw: nat -> real)
    requires CampaignsKnown(cs, daily)
    requires SlotsKnown(cs, Slots(daily[..|daily|]))
    requires customers == CustomersOf(cs, Slots(daily[..|daily|]), orderDraw)
    requires |customers| < NumCustomers
    ensures customers == CustomerTable(cs, daily, orderDraw)
  {
    assert daily[..|daily|] == daily;
    var slots := Slots(daily);
    assert slots[..Min(NumCustomers, |slots|)] == slots;
  }

  /** generate_customers: walks the converting rows, numbers the customers from 1
      and returns as soon as NUM_CUSTOMERS have been created. */
  method GenerateCustomers(campaigns: seq<Campaign>, daily: seq<DailyRecord>, orderDraw: nat -> real)
    returns (customers: seq<Customer>)
    requires CampaignsKnown(campaigns, daily)
    ensures customers == CustomerTable(campaigns, daily, orderDraw)
  {
    customers := [];
    var customerId := 1;
    for i := 0 to |daily|
      invariant customerId == |customers| + 1 && |customers| < NumCustomers
      invariant SlotsKnown(campaigns, Slots(daily[..i]))
      invariant customers == CustomersOf(campaigns, Slots(daily[..i]), orderDraw)
    {
      var perf := daily[i];
      RowDone(daily, i);
      if perf.conversions > 0 {
        assert FindCampaign(campaigns, perf.campaignId).Some?;
        var campaign := FindCampaign(campaigns, perf.campaignId).value;
        assert FindCampaign(campaigns, perf.campaignId) == Some(campaign);
        ghost var done := Slots(daily[..i]);
        ghost var slots := done;
        assert slots == done + Repeat(perf, 0);
        for j := 0 to perf.conversions
          invariant customerId == |customers| + 1 && |customers| < NumCustomers
          invariant slots == done + Repeat(perf, j)
          invariant SlotsKnown(campaigns, slots)
          invariant customers == CustomersOf(campaigns, slots, orderDraw)
        {
          var firstOrder := AvgAov(campaign.channel) * orderDraw(customerId);
          var segment;
          if firstOrder >= 100.0 {
            segment := HighValue;
          } else if firstOrder >= 50.0 {
            segment := MediumValue;
          } else {
            segment := LowValue;
          }
          CustomerStep(campaigns, slots, perf, customers, orderDraw, campaign, customerId, firstOrder);
          SlotsSnoc(done, perf, j);
          slots := slots + [perf];
          customers := customers + [Customer(customerId, perf.date, campaign.campaignId, campaign.channel, firstOrder, segment)];
          customerId := customerId + 1;
          if customerId > NumCustomers {
            CapReached(campaigns, daily, i, j + 1, slots, customers, orderDraw);
            return;
          }
        }
      } else {
        assert Repeat(perf, perf.conversions) == [];
      }
    }
    AllRowsDone(campaigns, daily, customers, orderDraw);
  }

  /** The daily table generated from a campaign table names only campaigns of
      that table, so the lookup never comes up empty. */
  lemma DailyCampaignsKnown(cs: seq<Campaign>, metrics: (nat, int) -> DayMetrics)
    ensures CampaignsKnown(cs, DailyPerformance(cs, metrics))
  {
    var daily := DailyPerformance(cs, metrics);
    RowsWithinCampaigns(cs, metrics);
    forall i | 0 <= i < |daily| && daily[i].conversions > 0
      ensures FindCampaign(cs, daily[i].campaignId).Some?
    {
      assert daily[i] in daily;
    }
  }

  // ---------------------------------------------------------------------------
  // Properties of the customer table

  /** Customer k of the table is the customer of slot k, numbered k + 1. */
  lemma CustomerTableAt(cs: seq<Campaign>, daily: seq<DailyRecord>, orderDraw: nat -> real, k: nat)
    requires CampaignsKnown(cs, daily) && k < |CustomerTable(cs, daily, orderDraw)|
    ensures k < |Slots(daily)| && FindCampaign(cs, Slots(daily)[k].campaignId).Some?
    ensures CustomerTable(cs, daily, orderDraw)[k] == CustomerFor(cs, Slots(daily)[k], k + 1, orderDraw)
  {
    SlotsKnownFromDaily(cs, daily);
  }

  /** A slot's customer carries the id, the slot's day and campaign, that
      campaign's channel, and the segment of its first order, which is the
      channel's avg_aov times the draw. */
  lemma CustomerForFacts(cs: seq<Campaign>, slot: DailyRecord, id: nat, orderDraw: nat -> real)
    requires FindCampaign(cs, slot.campaignId).Some?
    ensures CustomerFor(cs, slot, id, orderDraw).customerId == id
    ensures CustomerFor(cs, slot, id, orderDraw).acquisitionDate == slot.date
    ensures CustomerFor(cs, slot, id, orderDraw).campaignId == slot.campaignId
    ensures CustomerFor(cs, slot, id, orderDraw).firstOrderValue == AvgAov(CustomerFor(cs, slot, id, orderDraw).channel) * orderDraw(id)
    ensures CustomerFor(cs, slot, id, orderDraw).segment == SegmentOf(CustomerFor(cs, slot, id, orderDraw).firstOrderValue)
    ensures exists c :: c in cs && c.campaignId == slot.campaignId && c.channel == CustomerFor(cs, slot, id, orderDraw).channel
  {
    var campaign := FindCampaign(cs, slot.campaignId).value;
    assert campaign in cs;
  }

  /** The table holds min(NUM_CUSTOMERS, total conversions) customers numbered
      1, 2, …; each was acquired on a converting day of its campaign, carries
      that campaign's channel and the segment of its first order. */
  lemma CustomerTableShape(cs: seq<Campaign>, daily: seq<DailyRecord>, orderDraw: nat -> real)
    requires CampaignsKnown(cs, daily)
    ensures var t := CustomerTable(cs, daily, orderDraw);
      && |t| == Min(NumCustomers, TotalConversions(daily))
      && (forall k :: 0 <= k < |t| ==> t[k].customerId == k + 1)
      && (forall k :: 0 <= k < |t| ==> t[k].segment == SegmentOf(t[k].firstOrderValue))
      && (forall k :: 0 <= k < |t| ==>
            exists r :: r in daily && r.conversions > 0 && r.date == t[k].acquisitionDate && r.campaignId == t[k].campaignId)
      && (forall k :: 0 <= k < |t| ==>
            exists c :: c in cs && c.campaignId == t[k].campaignId && c.channel == t[k].channel)
  {
    SlotsCount(daily);
    SlotsFromConvertingRows(daily);
    SlotsKnownFromDaily(cs, daily);
    var t := CustomerTable(cs, daily, orderDraw);
    var slots := Slots(daily);
    forall k | 0 <= k < |t|
      ensures t[k].customerId == k + 1
      ensures exists r :: r in daily && r.conversions > 0 && r.date == t[k].acquisitionDate && r.campaignId == t[k].campaignId
      ensures exists c :: c in cs && c.campaignId == t[k].campaignId && c.channel == t[k].channel
      ensures t[k].segment == SegmentOf(t[k].firstOrderValue)
    {
      CustomerTableAt(cs, daily, orderDraw, k);
      CustomerForFacts(cs, slots[k], k + 1, orderDraw);
      assert slots[k] in daily && slots[k].conversions > 0;
    }
  }

  lemma LowAovBelowHighValue(ch: Channel, u: real)
    requires ch in {Display, Social} && 0.5 <= u <= 1.5
    ensures AvgAov(ch) * u < 100.0
  {
    assert AvgAov(ch) <= 65.0;
  }

  /** Display and social first orders stay below 100 (55 and 65 times at most
      1.5), so those channels never acquire a high-value customer. */
  lemma NoHighValueFromDisplayOrSocial(cs: seq<Campaign>, daily: seq<DailyRecord>, orderDraw: nat -> real)
    requires CampaignsKnown(cs, daily)
    requires forall n: nat :: 0.5 <= orderDraw(n) <= 1.5
    ensures var t := CustomerTable(cs, daily, orderDraw);
      forall k :: 0 <= k < |t| && t[k].channel in {Display, Social} ==> t[k].segment != HighValue
  {
    var t := CustomerTable(cs, daily, orderDraw);
    forall k | 0 <= k < |t| && t[k].channel in {Display, Social}
      ensures t[k].segment != HighValue
    {
      CustomerTableAt(cs, daily, orderDraw, k);
      CustomerForFacts(cs, Slots(daily)[k], k + 1, orderDraw);
      LowAovBelowHighValue(t[k].channel, orderDraw(k + 1));
    }
  }

  /** When the conversions do not exceed the cap, every conversion becomes a customer. */
  lemma EveryConversionBelowCap(cs: seq<Campaign>, daily: seq<DailyRecord>, orderDraw: nat -> real)
    requires CampaignsKnown(cs, daily) && TotalConversions(daily) <= NumCustomers
    ensures |CustomerTable(cs, daily, orderDraw)| == TotalConversions(daily)
  {
    SlotsCount(daily);
  }

  // ---------------------------------------------------------------------------
  // generate_transactions

  datatype Transaction = Transaction(
    transactionId: nat,
    customerId: nat,
    transactionDate: int,
    orderValue: real,
    productsPurchased: nat,
    discountApplied: nat)

  /** A transaction before it is numbered. */
  datatype Purchase = Purchase(customerId: nat, date: int, orderValue: real, products: nat, discount: nat)

  /** The per-customer draws: the number of repeat attempts (`randint` over the
      segment's range) and the products of the first order (`randint(1, 5)`). */
  datatype PurchasePlan = PurchasePlan(numPurchases: nat, firstProducts: nat)

  /** The draws of one repeat attempt: `random.random()`, `randint(7, 60)` days,
      a `uniform(0.7, 1.1)` value factor, the position of the discount chosen
      and `randint(1, 4)` products. */
  datatype RepeatDraw = RepeatDraw(roll: real, daysUntilNext: nat, valueFactor: real, discountIndex: nat, products: nat)

  const Discounts: seq<nat> := [0, 0, 0, 5, 10, 15, 20]

  function RepeatProbability(s: Segment): real
  {
    match s
    case HighValue => 0.7
    case MediumValue => 0.5
    case LowValue => 0.3
  }

  /** The inclusive range of num_purchases for a segment. */
  function PurchaseRange(s: Segment): (nat, nat)
  {
    match s
    case HighValue => (2, 8)
    case MediumValue => (1, 4)
    case LowValue => (0, 2)
  }

  ghost predicate ValidRepeatDraws(draw: (nat, nat) -> RepeatDraw)
  {
    forall p: nat, t: nat :: draw(p, t).discountIndex < |Discounts|
  }

  /** Repeat attempts t, t + 1, …, num - 1 of the customer at position p, the
      previous purchase being on day last: an attempt whose roll is below the
      segment's probability buys again after the drawn number of days, and the
      first such date past END_DATE ends the run. */
  function Repeats(c: Customer, p: nat, last: int, t: nat, num: nat, draw: (nat, nat) -> RepeatDraw): seq<Purchase>
    requires ValidRepeatDraws(draw)
    decreases num - t
  {
    if t >= num then []
    else
      var d := draw(p, t);
      if d.roll < RepeatProbability(c.segment) then
        var next := last + d.daysUntilNext;
        if next > EndDate then []
        else [RepeatPurchase(c, next, d)] + Repeats(c, p, next, t + 1, num, draw)
      else Repeats(c, p, last, t + 1, num, draw)
  }

  /** The repeat order placed on day next: the first order value scaled by the
      drawn factor, the drawn products and the chosen discount. */
  function RepeatPurchase(c: Customer, next: int, d: RepeatDraw): Purchase
    requires d.discountIndex < |Discounts|
  {
    Purchase(c.customerId, next, c.firstOrderValue * d.valueFactor, d.products, Discounts[d.discountIndex])
  }

  function FirstPurchase(c: Customer, plan: PurchasePlan): Purchase
  {
    Purchase(c.customerId, c.acquisitionDate, c.firstOrderValue, plan.firstProducts, 0)
  }

  /** The purchases of the customer at position p: the first order, then the repeats. */
  function PurchasesOf(c: Customer, p: nat, plan: nat -> PurchasePlan, draw: (nat, nat) -> RepeatDraw): seq<Purchase>
    requires ValidRepeatDraws(draw)
  {
    [FirstPurchase(c, plan(p))] + Repeats(c, p, c.acquisitionDate, 0, plan(p).numPurchases, draw)
  }

  /** All purchases, customer after customer. */
  function AllPurchases(customers: seq<Customer>, plan: nat -> PurchasePlan, draw: (nat, nat) -> RepeatDraw): seq<Purchase>
    requires ValidRepeatDraws(draw)
  {
    if customers == [] then []
    else AllPurchases(customers[..|customers| - 1], plan, draw)
         + PurchasesOf(customers[|customers| - 1], |customers| - 1, plan, draw)
  }

  function Numbered(ps: seq<Purchase>): seq<Transaction>
  {
    seq(|ps|, j requires 0 <= j < |ps| =>
      Transaction(j + 1, ps[j].customerId, ps[j].date, ps[j].orderValue, ps[j].products, ps[j].discount))
  }

  function TransactionTable(customers: seq<Customer>, plan: nat -> PurchasePlan, draw: (nat, nat) -> RepeatDraw): seq<Transaction>
    requires ValidRepeatDraws(draw)
  {
    Numbered(AllPurchases(customers, plan, draw))
  }

  lemma NumberedStep(ps: seq<Purchase>, p: Purchase)
    ensures Numbered(ps + [p]) == Numbered(ps) + [Transaction(|ps| + 1, p.customerId, p.date, p.orderValue, p.products, p.discount)]
  {
    assert forall j :: 0 <= j < |ps| ==> (ps + [p])[j] == ps[j];
  }

  /** An attempt whose roll fails buys nothing. */
  lemma RepeatsSkip(c: Customer, p: nat, last: int, t: nat, num: nat, draw: (nat, nat) -> RepeatDraw)
    requires ValidRepeatDraws(draw) && t < num
    requires draw(p, t).roll >= RepeatProbability(c.segment)
    ensures Repeats(c, p, last, t, num, draw) == Repeats(c, p, last, t + 1, num, draw)
  {
  }

  /** An attempt that would buy after END_DATE ends the run. */
  lemma RepeatsStop(c: Customer, p: nat, last: int, t: nat, num: nat, draw: (nat, nat) -> RepeatDraw)
    requires ValidRepeatDraws(draw) && t < num
    requires draw(p, t).roll < RepeatProbability(c.segment) && last + draw(p, t).daysUntilNext > EndDate
    ensures Repeats(c, p, last, t, num, draw) == []
  {
  }

  /** An attempt that buys within the year adds one purchase. */
  lemma RepeatsBuy(c: Customer, p: nat, last: int, t: nat, num: nat, draw: (nat, nat) -> RepeatDraw)
    requires ValidRepeatDraws(draw) && t < num
    requires draw(p, t).roll < RepeatProbability(c.segment) && last + draw(p, t).daysUntilNext <= EndDate
    ensures var d := draw(p, t);
      Repeats(c, p, last, t, num, draw) ==
        [RepeatPurchase(c, last + d.daysUntilNext, d)] + Repeats(c, p, last + d.daysUntilNext, t + 1, num, draw)
  {
  }

  /** The first transaction of customer k completes the purchases so far. */
  lemma FirstTransactionStep(customers: seq<Customer>, k: nat, plan: nat -> PurchasePlan, draw: (nat, nat) -> RepeatDraw,
                             transactions: seq<Transaction>)
    requires ValidRepeatDraws(draw) && k < |customers|
    requires transactions == Numbered(AllPurchases(customers[..k], plan, draw))
    ensures var c := customers[k];
      transactions + [Transaction(|transactions| + 1, c.customerId, c.acquisitionDate, c.firstOrderValue, plan(k).firstProducts, 0)]
        == Numbered(AllPurchases(customers[..k], plan, draw) + [FirstPurchase(c, plan(k))])
    ensures AllPurchases(customers[..k + 1], plan, draw)
         == AllPurchases(customers[..k], plan, draw) + [FirstPurchase(customers[k], plan(k))]
            + Repeats(customers[k], k, customers[k].acquisitionDate, 0, plan(k).numPurchases, draw)
  {
    var done := AllPurchases(customers[..k], plan, draw);
    NumberedStep(done, FirstPurchase(customers[k], plan(k)));
    assert customers[..k + 1][..k] == customers[..k];
  }

  /** After a repeat purchase within the year, the purchases still to come
      are the repeats from the next attempt on, counted from its date. */
  lemma RepeatsAfterBuy(c: Customer, k: nat, last: int, t: nat, num: nat, draw: (nat, nat) -> RepeatDraw,
                        d: RepeatDraw, done: seq<Purchase>, all: seq<Purchase>)
    requires ValidRepeatDraws(draw) && t < num && d == draw(k, t)
    requires d.roll < RepeatProbability(c.segment) && last + d.daysUntilNext <= EndDate
    requires all == done + Repeats(c, k, last, t, num, draw)
    ensures all == (done + [RepeatPurchase(c, last + d.daysUntilNext, d)]) + Repeats(c, k, last + d.daysUntilNext, t + 1, num, draw)
  {
    RepeatsBuy(c, k, last, t, num, draw);
    var p := RepeatPurchase(c, last + d.daysUntilNext, d);
    var later := Repeats(c, k, last + d.daysUntilNext, t + 1, num, draw);
    assert done + ([p] + later) == (done + [p]) + later;
  }

  /** Appending a repeat purchase appends its numbered transaction. */
  lemma NumberedRepeat(done: seq<Purchase>, transactions: seq<Transaction>, c: Customer, next: int, d: RepeatDraw)
    requires transactions == Numbered(done) && d.discountIndex < |Discounts|
    ensures transactions + [Transaction(|transactions| + 1, c.customerId, next,
                                        c.firstOrderValue * d.valueFactor, d.products, Discounts[d.discountIndex])]
         == Numbered(done + [RepeatPurchase(c, next, d)])
  {
    var p := RepeatPurchase(c, next, d);
    NumberedStep(done, p);
    assert |transactions| == |done|;
    assert Transaction(|done| + 1, p.customerId, p.date, p.orderValue, p.products, p.discount)
        == Transaction(|transactions| + 1, c.customerId, next, c.firstOrderValue * d.valueFactor, d.products, Discounts[d.discountIndex]);
  }

  /** generate_transactions: a first transaction per customer, then the repeat
      attempts, `transaction_id` counting up from 1. */
  method GenerateTransactions(customers: seq<Customer>, plan: nat -> PurchasePlan, draw: (nat, nat) -> RepeatDraw)
    returns (transactions: seq<Transaction>)
    requires ValidRepeatDraws(draw)
    ensures transactions == TransactionTable(customers, plan, draw)
  {
    transactions := [];
    var transactionId := 1;
    for k := 0 to |customers|
      invariant transactionId == |transactions| + 1
      invariant transactions == Numbered(AllPurchases(customers[..k], plan, draw))
    {
      var customer := customers[k];
      var pl := plan(k);
      FirstTransactionStep(customers, k, plan, draw, transactions);
      ghost var all := AllPurchases(customers[..k + 1], plan, draw);
      ghost var done := AllPurchases(customers[..k], plan, draw) + [FirstPurchase(customer, pl)];
      transactions := transactions + [Transaction(transactionId, customer.customerId, customer.acquisitionDate,
                                                  customer.firstOrderValue, pl.firstProducts, 0)];
      transactionId := transactionId + 1;

      var lastPurchase := customer.acquisitionDate;
      for t := 0 to pl.numPurchases
        invariant transactionId == |transactions| + 1
        invariant transactions == Numbered(done)
        invariant all == done + Repeats(customer, k, lastPurchase, t, pl.numPurchases, draw)
      {
        var d := draw(k, t);
        if d.roll < RepeatProbability(customer.segment) {
          var nextPurchase := lastPurchase + d.daysUntilNext;
          if nextPurchase > EndDate {
            RepeatsStop(customer, k, lastPurchase, t, pl.numPurchases, draw);
            break;
          }
          NumberedRepeat(done, transactions, customer, nextPurchase, d);
          RepeatsAfterBuy(customer, k, lastPurchase, t, pl.numPurchases, draw, d, done, all);
          transactions := transactions + [Transaction(transactionId, customer.customerId, nextPurchase,
                                                      customer.firstOrderValue * d.valueFactor, d.products,
                                                      Discounts[d.discountIndex])];
          transactionId := transactionId + 1;
          done := done + [RepeatPurchase(customer, nextPurchase, d)];
          lastPurchase := nextPurchase;
        } else {
          RepeatsSkip(customer, k, lastPurchase, t, pl.numPurchases, draw);
        }
      }
      assert done == all;
    }
    assert customers[..|customers|] == customers;
  }

  // ---------------------------------------------------------------------------
  // Properties of the transactions

  /** Draws taken from the ranges the source gives them. */
  ghost predicate RepeatDrawsInRange(draw: (nat, nat) -> RepeatDraw)
  {
    forall p: nat, t: nat :: 7 <= draw(p, t).daysUntilNext <= 60 && draw(p, t).discountIndex < |Discounts|
  }

  /** There are at most as many repeats as attempts left. */
  lemma {:induction false} RepeatsLength(c: Customer, p: nat, last: int, t: nat, num: nat, draw: (nat, nat) -> RepeatDraw)
    requires RepeatDrawsInRange(draw)
    ensures |Repeats(c, p, last, t, num, draw)| <= (if t <= num then num - t else 0)
    decreases num - t
  {
    if t < num {
      var d := draw(p, t);
      if d.roll < RepeatProbability(c.segment) {
        if last + d.daysUntilNext <= EndDate {
          RepeatsLength(c, p, last + d.daysUntilNext, t + 1, num, draw);
        }
      } else {
        RepeatsLength(c, p, last, t + 1, num, draw);
      }
    }
  }

  /** Every repeat is the customer's, within the year, at one of the listed discounts. */
  lemma {:induction false} RepeatsWithinYear(c: Customer, p: nat, last: int, t: nat, num: nat, draw: (nat, nat) -> RepeatDraw)
    requires RepeatDrawsInRange(draw)
    ensures forall i :: 0 <= i < |Repeats(c, p, last, t, num, draw)| ==>
      && Repeats(c, p, last, t, num, draw)[i].date <= EndDate
      && Repeats(c, p, last, t, num, draw)[i].customerId == c.customerId
      && Repeats(c, p, last, t, num, draw)[i].discount in {0, 5, 10, 15, 20}
    decreases num - t
  {
    if t < num {
      var d := draw(p, t);
      if d.roll < RepeatProbability(c.segment) {
        var next := last + d.daysUntilNext;
        if next <= EndDate {
          RepeatsWithinYear(c, p, next, t + 1, num, draw);
          var r := Repeats(c, p, last, t, num, draw);
          var rest := Repeats(c, p, next, t + 1, num, draw);
          assert r == [RepeatPurchase(c, next, d)] + rest;
          assert Discounts[d.discountIndex] in {0, 5, 10, 15, 20};
          forall i | 0 <= i < |r|
            ensures r[i].date <= EndDate && r[i].customerId == c.customerId && r[i].discount in {0, 5, 10, 15, 20}
          {
            if i > 0 { assert r[i] == rest[i - 1]; }
          }
        }
      } else {
        RepeatsWithinYear(c, p, last, t + 1, num, draw);
      }
    }
  }

  /** The first repeat comes 7 to 60 days after the previous purchase, and
      each later one 7 to 60 days after the one before. */
  lemma {:induction false} RepeatsGaps(c: Customer, p: nat, last: int, t: nat, num: nat, draw: (nat, nat) -> RepeatDraw)
    requires RepeatDrawsInRange(draw)
    ensures |Repeats(c, p, last, t, num, draw)| > 0 ==> 7 <= Repeats(c, p, last, t, num, draw)[0].date - last <= 60
    ensures forall i :: 0 < i < |Repeats(c, p, last, t, num, draw)| ==>
      7 <= Repeats(c, p, last, t, num, draw)[i].date - Repeats(c, p, last, t, num, draw)[i - 1].date <= 60
    decreases num - t
  {
    if t < num {
      var d := draw(p, t);
      if d.roll < RepeatProbability(c.segment) {
        var next := last + d.daysUntilNext;
        if next <= EndDate {
          RepeatsGaps(c, p, next, t + 1, num, draw);
          var r := Repeats(c, p, last, t, num, draw);
          var rest := Repeats(c, p, next, t + 1, num, draw);
          assert r == [RepeatPurchase(c, next, d)] + rest;
          forall i | 0 < i < |r|
            ensures 7 <= r[i].date - r[i - 1].date <= 60
          {
            assert r[i] == rest[i - 1];
            if i > 1 { assert r[i - 1] == rest[i - 2]; }
          }
        }
      } else {
        RepeatsGaps(c, p, last, t + 1, num, draw);
      }
    }
  }

  /** Repeat dates start 7 to 60 days after the previous purchase, keep
      increasing by 7 to 60 days, never pass END_DATE, and there are at most as
      many repeats as attempts. */
  lemma RepeatDatesIncrease(c: Customer, p: nat, last: int, t: nat, num: nat, draw: (nat, nat) -> RepeatDraw)
    requires RepeatDrawsInRange(draw)
    ensures var r := Repeats(c, p, last, t, num, draw);
      && |r| <= (if t <= num then num - t else 0)
      && (|r| > 0 ==> 7 <= r[0].date - last <= 60)
      && (forall i :: 0 < i < |r| ==> 7 <= r[i].date - r[i - 1].date <= 60)
      && (forall i :: 0 <= i < |r| ==> r[i].date <= EndDate && r[i].customerId == c.customerId
                                       && r[i].discount in {0, 5, 10, 15, 20})
  {
    RepeatsLength(c, p, last, t, num, draw);
    RepeatsWithinYear(c, p, last, t, num, draw);
    RepeatsGaps(c, p, last, t, num, draw);
  }

  /** Each customer's purchases open with the first order (on the acquisition
      date, at the first order value, without discount), and every later one
      falls strictly after it, within the year. */
  lemma PurchasesOfCustomer(c: Customer, p: nat, plan: nat -> PurchasePlan, draw: (nat, nat) -> RepeatDraw)
    requires RepeatDrawsInRange(draw)
    ensures var ps := PurchasesOf(c, p, plan, draw);
      && ps[0] == Purchase(c.customerId, c.acquisitionDate, c.firstOrderValue, plan(p).firstProducts, 0)
      && 1 <= |ps| <= 1 + plan(p).numPurchases
      && (forall i :: 1 <= i < |ps| ==> c.acquisitionDate < ps[i].date <= EndDate && ps[i].customerId == c.customerId)
  {
    var ps := PurchasesOf(c, p, plan, draw);
    var r := Repeats(c, p, c.acquisitionDate, 0, plan(p).numPurchases, draw);
    RepeatDatesIncrease(c, p, c.acquisitionDate, 0, plan(p).numPurchases, draw);
    assert ps[1..] == r;
    RepeatDatesAfter(r, c.acquisitionDate);
  }

  lemma {:induction false} RepeatDatesAfter(r: seq<Purchase>, last: int)
    requires |r| > 0 ==> 7 <= r[0].date - last
    requires forall i :: 0 < i < |r| ==> 7 <= r[i].date - r[i - 1].date
    ensures forall i :: 0 <= i < |r| ==> last < r[i].date
    decreases |r|
  {
    if |r| > 1 {
      var init := r[..|r| - 1];
      RepeatDatesAfter(init, last);
      assert forall i :: 0 <= i < |init| ==> init[i] == r[i];
      assert last < r[|r| - 2].date;
    }
  }

  /** num_purchases is drawn from the customer's segment range, so a customer
      has at least one transaction and at most one more than the segment's
      largest draw: three for low value, five for medium, nine for high. */
  lemma PurchasesPerSegment(c: Customer, p: nat, plan: nat -> PurchasePlan, draw: (nat, nat) -> RepeatDraw)
    requires RepeatDrawsInRange(draw)
    requires PurchaseRange(c.segment).0 <= plan(p).numPurchases <= PurchaseRange(c.segment).1
    ensures 1 <= |PurchasesOf(c, p, plan, draw)| <= 1 + PurchaseRange(c.segment).1
    ensures c.segment == LowValue ==> |PurchasesOf(c, p, plan, draw)| <= 3
    ensures c.segment == MediumValue ==> |PurchasesOf(c, p, plan, draw)| <= 5
    ensures c.segment == HighValue ==> |PurchasesOf(c, p, plan, draw)| <= 9
  {
    PurchasesOfCustomer(c, p, plan, draw);
  }

  /** Every customer contributes exactly one first transaction, in customer
      order, so the table has at least one row per customer and, with
      num_purchases drawn from the segment ranges, at most nine. */
  lemma {:induction false} TransactionCountBounds(customers: seq<Customer>, plan: nat -> PurchasePlan, draw: (nat, nat) -> RepeatDraw)
    requires RepeatDrawsInRange(draw)
    requires forall p: nat :: plan(p).numPurchases <= 8
    ensures |customers| <= |TransactionTable(customers, plan, draw)| <= 9 * |customers|
    decreases |customers|
  {
    if customers != [] {
      var init := customers[..|customers| - 1];
      TransactionCountBounds(init, plan, draw);
      PurchasesOfCustomer(customers[|customers| - 1], |customers| - 1, plan, draw);
    }
  }
}

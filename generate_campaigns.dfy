/** The first two stages of the synthetic marketing data generator
    (scripts/generate_marketing_data.py): the campaign master table and the
    daily performance rows of each campaign.

    Dates are day numbers: 0 is START_DATE (2024-01-01) and 365 is END_DATE
    (2024-12-31). Every random draw is supplied by the caller as a function of
    the loop position that consumes it, together with the range the draw is
    taken from. */
module Campaigns {
  import opened Common

  const StartDate: int := 0
  const EndDate: int := 365
  const NumCampaigns: nat := 25
  const NumCustomers: nat := 5000

  // ---------------------------------------------------------------------------
  // Channel configuration

  datatype Channel = PaidSearch | Social | Display | Email | Affiliate

  /** The keys of CHANNEL_CONFIG, in the order `list(CHANNEL_CONFIG.keys())` gives. */
  const Channels: seq<Channel> := [PaidSearch, Social, Display, Email, Affiliate]

  function ChannelKey(c: Channel): string
  {
    match c
    case PaidSearch => "paid_search"
    case Social => "social"
    case Display => "display"
    case Email => "email"
    case Affiliate => "affiliate"
  }

  /** avg_ctr of the channel. */
  function AvgCtr(c: Channel): real
  {
    match c
    case PaidSearch => 0.035
    case Social => 0.018
    case Display => 0.012
    case Email => 0.025
    case Affiliate => 0.045
  }

  /** avg_cvr of the channel. */
  function AvgCvr(c: Channel): real
  {
    match c
    case PaidSearch => 0.025
    case Social => 0.015
    case Display => 0.008
    case Email => 0.035
    case Affiliate => 0.030
  }

  /** avg_aov of the channel. */
  function AvgAov(c: Channel): real
  {
    match c
    case PaidSearch => 85.0
    case Social => 65.0
    case Display => 55.0
    case Email => 75.0
    case Affiliate => 95.0
  }

  const Audiences: seq<string> := ["18-24", "25-34", "35-44", "45-54", "55+"]

  /** `channel.replace('_', ' ').title()` for each key, as it appears in campaign names. */
  function ChannelTitle(c: Channel): string
  {
    match c
    case PaidSearch => "Paid Search"
    case Social => "Social"
    case Display => "Display"
    case Email => "Email"
    case Affiliate => "Affiliate"
  }

  // ---------------------------------------------------------------------------
  // generate_campaigns

  datatype Campaign = Campaign(
    campaignId: nat,
    campaignName: string,
    channel: Channel,
    startDate: int,
    endDate: int,
    targetAudience: string)

  /** The draws of one loop iteration: `random.choice(channels)`,
      `randint(0, 300)` days after START_DATE, a `randint(30, 90)` day
      duration and `random.choice` of an audience. */
  datatype CampaignDraw = CampaignDraw(channelIndex: nat, startOffset: nat, duration: nat, audienceIndex: nat)

  predicate ValidCampaignDraw(d: CampaignDraw)
  {
    d.channelIndex < |Channels| && d.startOffset <= 300 && 30 <= d.duration <= 90
    && d.audienceIndex < |Audiences|
  }

  ghost predicate ValidCampaignDraws(draw: nat -> CampaignDraw)
  {
    forall i: nat :: ValidCampaignDraw(draw(i))
  }

  function CampaignName(c: Channel, n: nat): string
  {
    ChannelTitle(c) + " Campaign " + NatToString(n)
  }

  /** The campaign built in iteration i. Its end is the start plus the drawn
      duration, clamped to END_DATE, so it never precedes the start. */
  function MakeCampaign(i: nat, d: CampaignDraw): (c: Campaign)
    requires ValidCampaignDraw(d)
    ensures c.campaignId == i + 1
    ensures StartDate <= c.startDate <= c.endDate <= EndDate
    ensures c.endDate == Min(c.startDate + d.duration, EndDate)
    ensures c.endDate == EndDate || 30 <= c.endDate - c.startDate <= 90
  {
    var channel := Channels[d.channelIndex];
    var start := StartDate + d.startOffset;
    var end := start + d.duration;
    Campaign(i + 1, CampaignName(channel, i + 1), channel, start,
             if end > EndDate then EndDate else end, Audiences[d.audienceIndex])
  }

  /** The campaign table after n iterations. */
  function CampaignsUpTo(draw: nat -> CampaignDraw, n: nat): seq<Campaign>
    requires ValidCampaignDraws(draw)
  {
    seq(n, i requires 0 <= i < n => MakeCampaign(i, draw(i)))
  }

  function CampaignTable(draw: nat -> CampaignDraw): seq<Campaign>
    requires ValidCampaignDraws(draw)
  {
    CampaignsUpTo(draw, NumCampaigns)
  }

  /** Ids are unique within a campaign table. */
  predicate DistinctCampaignIds(cs: seq<Campaign>)
  {
    forall i, j :: 0 <= i < j < |cs| ==> cs[i].campaignId != cs[j].campaignId
  }

  /** Every campaign lies within the year. */
  predicate WithinYear(cs: seq<Campaign>)
  {
    forall i :: 0 <= i < |cs| ==> StartDate <= cs[i].startDate <= cs[i].endDate <= EndDate
  }

  /** NUM_CAMPAIGNS campaigns with ids 1, 2, …, NUM_CAMPAIGNS, each within the
      year and numbered in its name. */
  lemma CampaignTableShape(draw: nat -> CampaignDraw)
    requires ValidCampaignDraws(draw)
    ensures var cs := CampaignTable(draw);
      && |cs| == NumCampaigns
      && (forall i :: 0 <= i < |cs| ==> cs[i].campaignId == i + 1)
      && (forall i :: 0 <= i < |cs| ==>
            cs[i].campaignName == ChannelTitle(cs[i].channel) + " Campaign " + NatToString(i + 1))
      && DistinctCampaignIds(cs)
      && WithinYear(cs)
  {
    var cs := CampaignTable(draw);
    forall i | 0 <= i < |cs|
      ensures cs[i] == MakeCampaign(i, draw(i))
    {
    }
  }

  /** Campaigns within the year never end before they start, so the daily
      budget is always divided by at least one day. */
  lemma WithinYearDayCounts(cs: seq<Campaign>)
    requires WithinYear(cs)
    ensures NonZeroDayCounts(cs)
    ensures forall i :: 0 <= i < |cs| ==> CampaignDayCount(cs[i]) >= 1
  {
  }

  lemma CampaignsUpToStep(draw: nat -> CampaignDraw, i: nat)
    requires ValidCampaignDraws(draw)
    ensures CampaignsUpTo(draw, i + 1) == CampaignsUpTo(draw, i) + [MakeCampaign(i, draw(i))]
  {
  }

  /** generate_campaigns: one campaign per iteration, `campaign_id` counting up from 1. */
  method GenerateCampaigns(draw: nat -> CampaignDraw) returns (campaigns: seq<Campaign>)
    requires ValidCampaignDraws(draw)
    ensures campaigns == CampaignTable(draw)
  {
    campaigns := [];
    var campaignId := 1;
    for i := 0 to NumCampaigns
      invariant campaignId == i + 1
      invariant campaigns == CampaignsUpTo(draw, i)
    {
      var d := draw(i);
      var channel := Channels[d.channelIndex];
      var startDate := StartDate + d.startOffset;
      var endDate := startDate + d.duration;
      if endDate > EndDate {
        endDate := EndDate;
      }
      var campaign := Campaign(campaignId, CampaignName(channel, i + 1), channel,
                               startDate, endDate, Audiences[d.audienceIndex]);
      assert campaign == MakeCampaign(i, d);
      CampaignsUpToStep(draw, i);
      campaigns := campaigns + [campaign];
      campaignId := campaignId + 1;
    }
  }

  // ---------------------------------------------------------------------------
  // generate_daily_performance

  /** The counts of one day, which the source derives from float arithmetic on
      the budget and the channel's rates; here they are supplied per campaign
      position and date. */
  datatype DayMetrics = DayMetrics(impressions: nat, clicks: nat, conversions: nat)

  datatype DailyRecord = DailyRecord(date: int, campaignId: nat, impressions: nat, clicks: nat, conversions: nat)

  /** `campaign_days`, the divisor of the daily budget. */
  function CampaignDayCount(c: Campaign): int { c.endDate - c.startDate + 1 }

  function Record(c: Campaign, date: int, m: DayMetrics): DailyRecord
  {
    DailyRecord(date, c.campaignId, m.impressions, m.clicks, m.conversions)
  }

  /** The rows of campaign position k dated lo, lo + 1, …, hi - 1. */
  function DaysBetween(k: nat, c: Campaign, lo: int, hi: int, metrics: (nat, int) -> DayMetrics): seq<DailyRecord>
  {
    seq(if lo <= hi then hi - lo else 0, j => Record(c, lo + j, metrics(k, lo + j)))
  }

  /** The rows the `while current_date <= end_date` loop emits for one campaign. */
  function CampaignDays(k: nat, c: Campaign, metrics: (nat, int) -> DayMetrics): seq<DailyRecord>
  {
    DaysBetween(k, c, c.startDate, c.endDate + 1, metrics)
  }

  /** All rows, campaign after campaign. */
  function DailyPerformance(cs: seq<Campaign>, metrics: (nat, int) -> DayMetrics): seq<DailyRecord>
  {
    if cs == [] then []
    else DailyPerformance(cs[..|cs| - 1], metrics) + CampaignDays(|cs| - 1, cs[|cs| - 1], metrics)
  }

  /** The campaign days never divide the budget by zero. */
  predicate NonZeroDayCounts(cs: seq<Campaign>)
  {
    forall i :: 0 <= i < |cs| ==> CampaignDayCount(cs[i]) != 0
  }

  method GenerateDailyPerformance(campaigns: seq<Campaign>, metrics: (nat, int) -> DayMetrics)
    returns (daily: seq<DailyRecord>)
    requires NonZeroDayCounts(campaigns)
    ensures daily == DailyPerformance(campaigns, metrics)
  {
    daily := [];
    for k := 0 to |campaigns|
      invariant daily == DailyPerformance(campaigns[..k], metrics)
    {
      var c := campaigns[k];
      var current := c.startDate;
      ghost var before := daily;
      while current <= c.endDate
        invariant c.startDate <= current <= c.endDate + 1 || current == c.startDate > c.endDate
        invariant daily == before + DaysBetween(k, c, c.startDate, current, metrics)
        decreases c.endDate + 1 - current
      {
        var m := metrics(k, current);
        daily := daily + [DailyRecord(current, c.campaignId, m.impressions, m.clicks, m.conversions)];
        assert DaysBetween(k, c, c.startDate, current + 1, metrics)
            == DaysBetween(k, c, c.startDate, current, metrics) + [Record(c, current, m)];
        current := current + 1;
      }
      assert campaigns[..k + 1][..k] == campaigns[..k];
    }
    assert campaigns[..|campaigns|] == campaigns;
  }

  // ---------------------------------------------------------------------------
  // Daily rows per campaign

  /** The rows that belong to one campaign id, in order. */
  function RowsOf(rows: seq<DailyRecord>, id: nat): seq<DailyRecord>
  {
    if rows == [] then []
    else RowsOf(rows[..|rows| - 1], id) + (if rows[|rows| - 1].campaignId == id then [rows[|rows| - 1]] else [])
  }

  function Dates(rows: seq<DailyRecord>): seq<int>
  {
    seq(|rows|, i requires 0 <= i < |rows| => rows[i].date)
  }

  /** The days lo, lo + 1, …, hi in order (empty when hi < lo). */
  function DayRange(lo: int, hi: int): seq<int>
  {
    seq(if lo <= hi then hi - lo + 1 else 0, j => lo + j)
  }

  lemma {:induction false} RowsOfAppend(a: seq<DailyRecord>, b: seq<DailyRecord>, id: nat)
    ensures RowsOf(a + b, id) == RowsOf(a, id) + RowsOf(b, id)
    decreases |b|
  {
    if b == [] {
      assert a + b == a;
    } else {
      assert (a + b)[..|a + b| - 1] == a + b[..|b| - 1];
      RowsOfAppend(a, b[..|b| - 1], id);
    }
  }

  /** A block of one campaign's rows keeps exactly the rows asked for. */
  lemma {:induction false} RowsOfBlock(k: nat, c: Campaign, lo: int, hi: int, metrics: (nat, int) -> DayMetrics, id: nat)
    ensures RowsOf(DaysBetween(k, c, lo, hi, metrics), id) == if c.campaignId == id then DaysBetween(k, c, lo, hi, metrics) else []
    decreases if lo <= hi then hi - lo else 0
  {
    var rows := DaysBetween(k, c, lo, hi, metrics);
    if rows != [] {
      assert rows[..|rows| - 1] == DaysBetween(k, c, lo, hi - 1, metrics);
      assert rows[|rows| - 1] == Record(c, hi - 1, metrics(k, hi - 1));
      assert rows == rows[..|rows| - 1] + [rows[|rows| - 1]];
      RowsOfBlock(k, c, lo, hi - 1, metrics, id);
    }
  }

  lemma DatesOfDays(k: nat, c: Campaign, lo: int, hi: int, metrics: (nat, int) -> DayMetrics)
    ensures Dates(DaysBetween(k, c, lo, hi, metrics)) == DayRange(lo, hi - 1)
  {
    var rows := DaysBetween(k, c, lo, hi, metrics);
    forall j | 0 <= j < |rows|
      ensures Dates(rows)[j] == DayRange(lo, hi - 1)[j]
    {
      assert rows[j] == Record(c, lo + j, metrics(k, lo + j));
    }
  }

  /** With distinct ids, the rows of campaign k are exactly one per day of
      its run, from start_date to end_date inclusive and in date order. */
  lemma {:induction false} OneRowPerCampaignDay(cs: seq<Campaign>, metrics: (nat, int) -> DayMetrics, k: nat)
    requires DistinctCampaignIds(cs) && k < |cs|
    ensures Dates(RowsOf(DailyPerformance(cs, metrics), cs[k].campaignId)) == DayRange(cs[k].startDate, cs[k].endDate)
    decreases |cs|
  {
    var id := cs[k].campaignId;
    var init := cs[..|cs| - 1];
    var last := cs[|cs| - 1];
    var block := CampaignDays(|cs| - 1, last, metrics);
    assert DailyPerformance(cs, metrics) == DailyPerformance(init, metrics) + block;
    RowsOfAppend(DailyPerformance(init, metrics), block, id);
    RowsOfBlock(|cs| - 1, last, last.startDate, last.endDate + 1, metrics, id);
    if k == |cs| - 1 {
      NoRowsOfAbsentId(init, metrics, id);
      assert RowsOf(DailyPerformance(cs, metrics), id) == block;
      DatesOfDays(|cs| - 1, last, last.startDate, last.endDate + 1, metrics);
    } else {
      assert last.campaignId != id;
      assert RowsOf(DailyPerformance(cs, metrics), id) == RowsOf(DailyPerformance(init, metrics), id);
      assert DistinctCampaignIds(init);
      assert init[k] == cs[k];
      OneRowPerCampaignDay(init, metrics, k);
    }
  }

  /** An id no campaign carries has no rows. */
  lemma {:induction false} NoRowsOfAbsentId(cs: seq<Campaign>, metrics: (nat, int) -> DayMetrics, id: nat)
    requires forall i :: 0 <= i < |cs| ==> cs[i].campaignId != id
    ensures RowsOf(DailyPerformance(cs, metrics), id) == []
    decreases |cs|
  {
    if cs != [] {
      var init := cs[..|cs| - 1];
      var last := cs[|cs| - 1];
      RowsOfAppend(DailyPerformance(init, metrics), CampaignDays(|cs| - 1, last, metrics), id);
      RowsOfBlock(|cs| - 1, last, last.startDate, last.endDate + 1, metrics, id);
      NoRowsOfAbsentId(init, metrics, id);
    }
  }

  /** Every row belongs to a campaign of the table and lies within its run. */
  lemma {:induction false} RowsWithinCampaigns(cs: seq<Campaign>, metrics: (nat, int) -> DayMetrics)
    ensures forall r :: r in DailyPerformance(cs, metrics) ==>
      exists i :: 0 <= i < |cs| && r.campaignId == cs[i].campaignId && cs[i].startDate <= r.date <= cs[i].endDate
    decreases |cs|
  {
    if cs != [] {
      var init := cs[..|cs| - 1];
      RowsWithinCampaigns(init, metrics);
      forall r | r in DailyPerformance(cs, metrics)
        ensures exists i :: 0 <= i < |cs| && r.campaignId == cs[i].campaignId && cs[i].startDate <= r.date <= cs[i].endDate
      {
        if r in DailyPerformance(init, metrics) {
          var i :| 0 <= i < |init| && r.campaignId == init[i].campaignId && init[i].startDate <= r.date <= init[i].endDate;
          assert cs[i] == init[i];
        } else {
          var last := cs[|cs| - 1];
          var block := CampaignDays(|cs| - 1, last, metrics);
          assert r in block;
          var j :| 0 <= j < |block| && block[j] == r;
          assert block[j] == Record(last, last.startDate + j, metrics(|cs| - 1, last.startDate + j));
          assert r.campaignId == last.campaignId && last.startDate <= r.date <= last.endDate;
        }
      }
    }
  }
}

# Portfolio analytics and marketing-data pipeline, modelled in Dafny

This project models the logic of a personal portfolio site and of the
synthetic marketing data behind its Marketing Mix Modeling project:

- **Client event tracking** (`lib/trackEvent.js`, module `TrackEvent`). A
  browser keeps one analytics session id in session storage. `trackEvent`
  builds an envelope (event type, page path, session id, metadata) and posts
  it without waiting. Failures are logged and never thrown.
  `trackPageView` and `trackClick` are thin wrappers. The browser is the class
  `Browser`: its session storage is a field the methods update, and the posted
  envelopes and error log are ghost fields.
- **The Marketing Mix Modeling page** (module `MmmPage`). It reports
  `page_view` on mount and each scroll milestone (25, 50, 75, 100 %) at most
  once. It keeps the maximum scroll depth and sends an exit beacon carrying the
  stored session id and the time on the page. It also reports CTA clicks. The
  page is the class `ProjectPage`.
- **The reading list on the About page** (module `About`). It covers the
  retailer label derived from a purchase URL, the four book lists, the cards
  rendered from them (keyed by book id) and the conditional "Recently Read"
  section.
- **The synthetic data generator** (`scripts/generate_marketing_data.py`,
  modules `Campaigns`, `Customers`, `AbTests`). It produces campaigns, one
  daily-performance row per campaign day, customers (one per conversion, up to
  5000), transactions (a first purchase plus repeat purchases) and A/B test
  rows (three variants per sampled campaign).
- **The Supabase importer** (`import_to_supabase.py`, module
  `SupabaseImport`). Each table is inserted in fixed-size batches, and an
  exception ends the import. `clear_all_tables` deletes children first and
  carries on past a failing delete. `main` asks for confirmation, then imports
  the tables parent first. The importer is the class `Importer` with the log of
  requests it has sent.

Module `Common` holds the string helpers these need: decimal rendering,
substring search and ASCII lower-casing.

The model's conventions:

- Dates are day numbers, 0 being 2024-01-01 and 365 being 2024-12-31.
- Every random draw of the generator is a function supplied by the caller and
  keyed by loop position. A predicate states the range the source draws from.
- `Date.now()` and the random session suffix are parameters.
- Whether a Supabase request raises is the oracle `fails`, keyed by the
  request's position in the log.
- The answers to `input()` are parameters.

## Model

| member | source | states |
|---|---|---|
| Common.NatToString | scripts/generate_marketing_data.py:87 | the decimal rendering used in campaign names is non-empty, all digits, and has no leading zero |
| Common.ParseNatToString | scripts/generate_marketing_data.py:87 | parsing the rendering gives the number back |
| Common.NatToStringInjective | scripts/generate_marketing_data.py:87 | distinct numbers give distinct renderings, so campaign names differ by number |
| Common.IndexOf | lib/trackEvent.js:22 | the first position of a character, or the length when it does not occur; the session-id parser splits at the first `_` with it |
| Common.ContainsProperties | app/about/page.js:361-365 | `includes` holds for the empty pattern and for a pattern placed anywhere inside a text, and never for a pattern longer than the text |
| Common.Lower | app/projects/mixed-marketing-modeling/src/import_to_supabase.py:125 | `lower()` keeps the length and lower-cases each character |
| TrackEvent.SessionIdFor | lib/trackEvent.js:22 | a new session id starts with `session_` and is longer than the prefix |
| TrackEvent.SessionIdRoundTrip | lib/trackEvent.js:22 | the timestamp and random suffix can be read back from a new session id |
| TrackEvent.LookupOrCreate | lib/trackEvent.js:13-30 | a stored non-empty id is returned with storage untouched; otherwise a new id is created and stored; no other storage key changes |
| TrackEvent.SessionIdIdempotent | lib/trackEvent.js:13-30 | a second lookup returns the same id and storage whatever the new time and suffix |
| TrackEvent.SessionIdSpec | lib/trackEvent.js:5-31 | no `window` gives null with storage untouched; unusable storage throws; otherwise an id is returned |
| TrackEvent.ClickMetadata | lib/trackEvent.js:88-93 | the click metadata has `element` plus the caller's keys, and a caller's `element` overrides the name |
| TrackEvent.TrackEventSpec | lib/trackEvent.js:34-75 | at most one envelope is posted, with the event type, the page path or "", the session id and the metadata or {}; an error is logged exactly when storage throws or the fetch rejects |
| TrackEvent.SameSessionForConsecutiveEvents | lib/trackEvent.js:13-30 | two events in a row carry the same non-null session id |
| TrackEvent.TrackAllSendsEach | lib/trackEvent.js:34-75 | a run of events posts one envelope per event, in order, with each one's type and metadata |
| TrackEvent.Browser.constructor | lib/trackEvent.js:5-31 | a browser starts with the given environment and storage, nothing posted and nothing logged |
| TrackEvent.Browser.GetSessionId | lib/trackEvent.js:5-31 | the result and the new session storage are those of SessionIdSpec |
| TrackEvent.Browser.TrackEvent | lib/trackEvent.js:34-75 | the new browser state is TrackEventSpec of the old one |
| TrackEvent.Browser.TrackPageView | lib/trackEvent.js:80-82 | tracks a `page_view` event with the given metadata |
| TrackEvent.Browser.TrackClick | lib/trackEvent.js:88-93 | tracks a `click` event whose metadata is ClickMetadata |
| MmmPage.MilestonesIncreasing | app/projects/mixed-marketing-modeling/page.js:39 | the milestones 25, 50, 75, 100 are strictly increasing |
| MmmPage.FiredAmongMembers | app/projects/mixed-marketing-modeling/page.js:40-49 | a milestone fires exactly when it is listed, reached and not yet viewed |
| MmmPage.FiredAmongIncreasing | app/projects/mixed-marketing-modeling/page.js:40-49 | milestones fire in increasing order |
| MmmPage.Fired | app/projects/mixed-marketing-modeling/page.js:39-49 | the milestones one scroll reports are exactly those reached and not yet viewed, in increasing order |
| MmmPage.MilestoneCalls | app/projects/mixed-marketing-modeling/page.js:43-47 | one `scroll_milestone` event per fired milestone |
| MmmPage.ScrollRunReportsOnce | app/projects/mixed-marketing-modeling/page.js:16-42 | over any run of scrolls no milestone is reported twice, and none already viewed is reported |
| MmmPage.ScrollRunReportsReached | app/projects/mixed-marketing-modeling/page.js:41-42 | over a run of scrolls a milestone is reported iff it was not viewed and some scroll reached it |
| MmmPage.MaxAfterIsMaximum | app/projects/mixed-marketing-modeling/page.js:35-37 | the tracked depth after a run of scrolls is the maximum of the start and every depth |
| MmmPage.RoundSeconds | app/projects/mixed-marketing-modeling/page.js:59 | `Math.round(ms / 1000)` is the whole number of seconds within half a second of ms |
| MmmPage.ExitEnvelope | app/projects/mixed-marketing-modeling/page.js:61-70 | the exit envelope is a `page_exit` for the current path with metadata projectId, timeOnPage and maxScrollDepth |
| MmmPage.ExitBeaconMatchesTrackedSession | app/projects/mixed-marketing-modeling/page.js:64 | the exit beacon carries the session id of the events tracked before it |
| MmmPage.ReachedAmongStep | app/projects/mixed-marketing-modeling/page.js:41-42 | a milestone considered later was not yet marked by this scroll; the marked set grows by it exactly when reached |
| MmmPage.MilestoneLoopStep | app/projects/mixed-marketing-modeling/page.js:40-49 | one milestone of the loop marks it if reached and tracks it only when also new |
| MmmPage.ProjectPage.constructor | app/projects/mixed-marketing-modeling/page.js:10-16 | a page starts with depth 0, no viewed milestones and no beacon |
| MmmPage.ProjectPage.Mount | app/projects/mixed-marketing-modeling/page.js:19-25 | mounting tracks one `page_view` for `proj_001` |
| MmmPage.ProjectPage.HandleScroll | app/projects/mixed-marketing-modeling/page.js:29-50 | the maximum depth is updated, every reached milestone is marked, and exactly the newly reached ones are tracked in order |
| MmmPage.ProjectPage.ReportMilestones | app/projects/mixed-marketing-modeling/page.js:39-49 | the milestone loop marks the reached milestones and tracks the fired ones in order |
| MmmPage.ProjectPage.ReportMilestone | app/projects/mixed-marketing-modeling/page.js:41-48 | one milestone is marked when reached and tracked only if it was not viewed before |
| MmmPage.ProjectPage.HandleBeforeUnload | app/projects/mixed-marketing-modeling/page.js:57-77 | one exit beacon is queued with the stored session id, the rounded time on page and the max depth; none when storage throws |
| MmmPage.ProjectPage.HandleCtaClick | app/projects/mixed-marketing-modeling/page.js:84-91 | tracks a `cta_click` with the CTA's name and URL and the rounded seconds since entry |
| About.RetailerName | app/about/page.js:360-366 | amazon.com wins, then barnesandnoble.com or bn.com, then nostarch.com, else "Retailer"; each label iff its condition |
| About.FirstMatch | app/about/page.js:360-366 | a first-match label comes from the rules or is the fallback |
| About.RetailerNameIsFirstMatch | app/about/page.js:360-366 | the label is the first matching rule in source order |
| About.AmazonUrlNamed | app/about/page.js:360-361 | every Amazon link is labelled Amazon |
| About.BarnesAndNobleUrlNamed | app/about/page.js:360-363 | every Barnes & Noble link gets a named label |
| About.NoStarchUrlNamed | app/about/page.js:360-365 | every No Starch link gets a named label |
| About.CurrentlyReadingNamed | app/about/page.js:9-42 | no currently-read book falls back to "Retailer" |
| About.UpNextNamed | app/about/page.js:45-189 | no up-next book falls back to "Retailer" |
| About.TenYearReadingNamed | app/about/page.js:192-249 | no ten-year-reading book falls back to "Retailer" |
| About.FinishedBooksNamed | app/about/page.js:252-357 | no finished book falls back to "Retailer" |
| About.DistinctByPosition | app/about/page.js:376 | ids that map back to their own positions are distinct |
| About.CurrentlyReadingIdsDistinct | app/about/page.js:9-42 | the currently-reading ids are distinct |
| About.UpNextIdsDistinct | app/about/page.js:45-189 | the up-next ids are distinct |
| About.TenYearReadingIdsDistinct | app/about/page.js:192-249 | the ten-year-reading ids are distinct |
| About.FinishedBooksIdsDistinct | app/about/page.js:252-357 | the finished-book ids are distinct |
| About.RenderCards | app/about/page.js:369-403 | one card per book, in order, keyed by its id, linking its URL and labelled "View on" plus its retailer |
| About.CardKeysUniqueIffIdsDistinct | app/about/page.js:376 | the rendered keys are unique iff the book ids are distinct |
| About.SectionTitles | app/about/page.js:471-530 | the three fixed sections are always shown, and "Recently Read" iff there are finished books |
| About.AllSectionsShown | app/about/page.js:493 | with the site's finished books all four sections are shown |
| Campaigns.MakeCampaign | scripts/generate_marketing_data.py:61-96 | campaign i has id i + 1 and starts and ends within the year; it ends after its duration, cut at year end |
| Campaigns.CampaignTableShape | scripts/generate_marketing_data.py:61-96 | 25 campaigns with ids 1..25, named by channel and number, distinct ids, all within the year |
| Campaigns.WithinYearDayCounts | scripts/generate_marketing_data.py:109-110 | campaigns within the year have at least one day, so the daily-budget divisor is never zero |
| Campaigns.GenerateCampaigns | scripts/generate_marketing_data.py:61-96 | the loop builds the campaign table |
| Campaigns.GenerateDailyPerformance | scripts/generate_marketing_data.py:98-150 | the loops emit, campaign after campaign, one row per day from start to end date |
| Campaigns.RowsOfAppend | scripts/generate_marketing_data.py:138-146 | the rows of one campaign in concatenated tables are those of each part |
| Campaigns.RowsOfBlock | scripts/generate_marketing_data.py:113-148 | a campaign's block of days holds rows of that campaign only |
| Campaigns.DatesOfDays | scripts/generate_marketing_data.py:113-148 | the dates of a block are consecutive from its first day |
| Campaigns.OneRowPerCampaignDay | scripts/generate_marketing_data.py:113-148 | each campaign has exactly one row per day of its run, in date order |
| Campaigns.NoRowsOfAbsentId | scripts/generate_marketing_data.py:138-146 | an id that is no campaign's has no rows |
| Campaigns.RowsWithinCampaigns | scripts/generate_marketing_data.py:113-148 | every row belongs to a campaign and is dated within its run |
| Customers.SegmentOf | scripts/generate_marketing_data.py:168-173 | high value iff the first order is at least 100; medium iff at least 50 and below 100; low iff below 50 |
| Customers.FirstWithId | scripts/generate_marketing_data.py:160 | the first campaign position holding the id, or the length |
| Customers.FindCampaign | scripts/generate_marketing_data.py:160 | the campaign lookup finds one iff the id exists, and returns the first with that id |
| Customers.SlotsCount | scripts/generate_marketing_data.py:164 | there is one customer slot per conversion |
| Customers.SlotsAppend | scripts/generate_marketing_data.py:156-164 | the slots of concatenated rows are those of each part |
| Customers.SlotsFromConvertingRows | scripts/generate_marketing_data.py:156-164 | every slot comes from a row with conversions |
| Customers.DailyCampaignsKnown | scripts/generate_marketing_data.py:158-160 | every converting row of a generated daily table names a campaign of the table, so the `iloc[0]` lookup always succeeds |
| Customers.CustomerForCampaign | scripts/generate_marketing_data.py:165-186 | a customer takes the row's date and the campaign's id and channel; first order is AOV times the draw; segment from it |
| Customers.CustomerStep | scripts/generate_marketing_data.py:164-187 | appending the next customer with the next id extends the customer table by one slot |
| Customers.CapReached | scripts/generate_marketing_data.py:190-191 | once 5000 customers exist the generator stops with the full table |
| Customers.GenerateCustomers | scripts/generate_marketing_data.py:152-193 | the loops build the customer table |
| Customers.CustomerTableAt | scripts/generate_marketing_data.py:164-187 | customer k is built from slot k with id k + 1 |
| Customers.CustomerForFacts | scripts/generate_marketing_data.py:178-186 | a customer's id, date, campaign, first order, segment and channel come from its slot and campaign |
| Customers.CustomerTableShape | scripts/generate_marketing_data.py:152-193 | min(5000, conversions) customers, ids 1.., segment from first order, each from a converting row and its campaign's channel |
| Customers.LowAovBelowHighValue | scripts/generate_marketing_data.py:23-59 | display and social first orders are below 100 for draws in 0.5..1.5 |
| Customers.NoHighValueFromDisplayOrSocial | scripts/generate_marketing_data.py:165-173 | no display or social customer is high value |
| Customers.EveryConversionBelowCap | scripts/generate_marketing_data.py:190-191 | below the cap every conversion becomes a customer |
| Customers.NumberedStep | scripts/generate_marketing_data.py:213-249 | appending a purchase appends a transaction with the next id |
| Customers.RepeatsSkip | scripts/generate_marketing_data.py:227-228 | a roll at or above the repeat probability skips that purchase |
| Customers.RepeatsStop | scripts/generate_marketing_data.py:229-234 | a next date past year end ends the customer's purchases |
| Customers.RepeatsBuy | scripts/generate_marketing_data.py:226-249 | otherwise a repeat purchase is made on the next date and the loop goes on from it |
| Customers.FirstTransactionStep | scripts/generate_marketing_data.py:213-221 | each customer's first transaction is on the acquisition date with the first order value and no discount |
| Customers.RepeatsAfterBuy | scripts/generate_marketing_data.py:226-251 | a purchase made keeps the transactions so far plus the rest equal to the whole |
| Customers.NumberedRepeat | scripts/generate_marketing_data.py:237-249 | a repeat transaction has the next id, the value scaled by the draw and the drawn discount |
| Customers.GenerateTransactions | scripts/generate_marketing_data.py:195-253 | the loops build the transaction table |
| Customers.RepeatsLength | scripts/generate_marketing_data.py:226 | at most the planned number of repeat purchases |
| Customers.RepeatsWithinYear | scripts/generate_marketing_data.py:229-249 | repeat purchases fall within the year, belong to the customer, and carry a discount of 0, 5, 10, 15 or 20 |
| Customers.RepeatsGaps | scripts/generate_marketing_data.py:229-231 | consecutive purchases are 7 to 60 days apart |
| Customers.RepeatDatesIncrease | scripts/generate_marketing_data.py:226-251 | the repeat purchases together: count bound, 7 to 60 day gaps, within the year, discounts from the list |
| Customers.PurchasesOfCustomer | scripts/generate_marketing_data.py:213-251 | the first purchase is on acquisition with discount 0; at most 1 + planned in all; the rest later and within the year |
| Customers.RepeatDatesAfter | scripts/generate_marketing_data.py:229-231 | purchases with positive gaps all come after the previous date |
| Customers.PurchasesPerSegment | scripts/generate_marketing_data.py:202-251 | with num_purchases in its segment's range a customer has one to three transactions when low value, up to five when medium, up to nine when high |
| Customers.TransactionCountBounds | scripts/generate_marketing_data.py:202-210 | between one and nine transactions per customer |
| AbTests.TruncTowardZero | scripts/generate_marketing_data.py:292-294 | Python `int()` truncates toward zero |
| AbTests.RatesChosen | scripts/generate_marketing_data.py:280-290 | the if-chain's rates are the base rates for control and the base scaled by the draw for the variants |
| AbTests.TestEnd | scripts/generate_marketing_data.py:270 | the test ends at the earlier of start + duration and the campaign end |
| AbTests.Measure | scripts/generate_marketing_data.py:292-311 | significant only with over 100 conversions, iff the relative CVR change exceeds 10 %; p-value per significance |
| AbTests.RowsUpTo | scripts/generate_marketing_data.py:263-313 | three rows per test |
| AbTests.RowsUpToIndex | scripts/generate_marketing_data.py:280-313 | row 3k + j is variant j of test k |
| AbTests.RowStep | scripts/generate_marketing_data.py:292-313 | the row the loop appends is variant j of test k |
| AbTests.VariantRows | scripts/generate_marketing_data.py:280-313 | the variant loop emits the three rows of its test |
| AbTests.GenerateAbTests | scripts/generate_marketing_data.py:255-315 | the loops build the A/B test table |
| AbTests.RowHeader | scripts/generate_marketing_data.py:265-306 | test id 3k + j + 1, variant, campaign, name "Creative Test - " + campaign name, start, end no later than the campaign's |
| AbTests.AbTestTableShape | scripts/generate_marketing_data.py:255-315 | three rows per sampled campaign, row 3k + j being variant j of test k |
| AbTests.RowOfRowsUpTo | scripts/generate_marketing_data.py:263-313 | every row built so far is some variant of some test |
| AbTests.RowOfTable | scripts/generate_marketing_data.py:255-315 | every row is some variant of some sampled test |
| AbTests.SignificanceAndPValue | scripts/generate_marketing_data.py:298-311 | significant rows have over 100 conversions and p in [0.01, 0.15); the others p in [0.15, 0.90) |
| AbTests.ControlNeverSignificant | scripts/generate_marketing_data.py:282-298 | a control row is never significant |
| AbTests.RelativeChange | scripts/generate_marketing_data.py:298 | the relative change of a scaled rate is the distance of the factor from 1 |
| AbTests.VariantARowNotSignificant | scripts/generate_marketing_data.py:285-298 | a variant A row with CVR factor in 0.90..1.10 is not significant |
| AbTests.VariantANeverSignificant | scripts/generate_marketing_data.py:285-298 | no variant A row is significant |
| SupabaseImport.BatchSize | app/projects/mixed-marketing-modeling/src/import_to_supabase.py:25-118 | 100 for campaigns and ab_tests, 500 for the other tables |
| SupabaseImport.FlattenBatches | app/projects/mixed-marketing-modeling/src/import_to_supabase.py:36-38 | the batches concatenate back to the records |
| SupabaseImport.BatchSizes | app/projects/mixed-marketing-modeling/src/import_to_supabase.py:36-38 | every batch is non-empty and at most the batch size, all but the last exactly the batch size |
| SupabaseImport.BatchCount | app/projects/mixed-marketing-modeling/src/import_to_supabase.py:36-38 | the number of batches is the ceiling of records over size; none for no records |
| SupabaseImport.BatchesStep | app/projects/mixed-marketing-modeling/src/import_to_supabase.py:36-37 | one slice of the loop is the next batch |
| SupabaseImport.Inserts | app/projects/mixed-marketing-modeling/src/import_to_supabase.py:38 | one insert into the table per batch, in order |
| SupabaseImport.NoneRaiseSplit | app/projects/mixed-marketing-modeling/src/import_to_supabase.py:36-38 | a run of requests succeeds iff both its parts do |
| SupabaseImport.ImportLog | app/projects/mixed-marketing-modeling/src/import_to_supabase.py:25-41 | an import sends at most one request per batch, and all of them when it goes through |
| SupabaseImport.ImportLogPrefix | app/projects/mixed-marketing-modeling/src/import_to_supabase.py:36-38 | an import sends a prefix of its batches, in order |
| SupabaseImport.ImportLogThrough | app/projects/mixed-marketing-modeling/src/import_to_supabase.py:36-38 | an import goes through iff none of its requests raises |
| SupabaseImport.ImportLogLastRaised | app/projects/mixed-marketing-modeling/src/import_to_supabase.py:36-38 | a failed import's last request is the first that raised |
| SupabaseImport.ImportLogStopsAtFirstRaise | app/projects/mixed-marketing-modeling/src/import_to_supabase.py:36-38 | the import sends its batches in order and stops exactly at the first request that raises |
| SupabaseImport.ImportedBatchesAreRecords | app/projects/mixed-marketing-modeling/src/import_to_supabase.py:25-41 | a successful import inserts every batch, and together they are the records |
| SupabaseImport.Deletes | app/projects/mixed-marketing-modeling/src/import_to_supabase.py:132-135 | one delete per table |
| SupabaseImport.ClearOrderRequests | app/projects/mixed-marketing-modeling/src/import_to_supabase.py:130 | the deletes go ab_tests, transactions, customers, daily_performance, campaigns |
| SupabaseImport.FailedDeletesStep | app/projects/mixed-marketing-modeling/src/import_to_supabase.py:132-138 | one clearing round reports the table iff its delete raised |
| SupabaseImport.DeletesStep | app/projects/mixed-marketing-modeling/src/import_to_supabase.py:132-135 | the deletes from table i are its delete followed by the rest |
| SupabaseImport.FailedDeletesExact | app/projects/mixed-marketing-modeling/src/import_to_supabase.py:132-138 | a table is reported as failed iff its own delete raised |
| SupabaseImport.StepsLogUnfold | app/projects/mixed-marketing-modeling/src/import_to_supabase.py:158-164 | main runs the next step only after the previous one went through |
| SupabaseImport.ImportLogTable | app/projects/mixed-marketing-modeling/src/import_to_supabase.py:36-38 | an import's requests are all inserts into its own table |
| SupabaseImport.ConcatRankOrdered | app/projects/mixed-marketing-modeling/src/import_to_supabase.py:158-164 | inserts into one table, then ordered inserts into later tables, stay ordered |
| SupabaseImport.LaterTables | app/projects/mixed-marketing-modeling/src/import_to_supabase.py:158-164 | inserts of the later steps go to tables after the first |
| SupabaseImport.StepsLogOrdered | app/projects/mixed-marketing-modeling/src/import_to_supabase.py:158-164 | main's requests are inserts into the step tables, table by table in step order |
| SupabaseImport.ImportOrderRespected | app/projects/mixed-marketing-modeling/src/import_to_supabase.py:158-164 | every insert into a table comes after all inserts into the tables it refers to |
| SupabaseImport.StepsLogThrough | app/projects/mixed-marketing-modeling/src/import_to_supabase.py:158-164 | when all steps went through, none of their requests raised |
| SupabaseImport.RaiseAfter | app/projects/mixed-marketing-modeling/src/import_to_supabase.py:158-172 | successful requests followed by a run ending at its first raise end at the first raise |
| SupabaseImport.StepsLogLastRaised | app/projects/mixed-marketing-modeling/src/import_to_supabase.py:158-172 | when a step failed, the last request sent is the first that raised |
| SupabaseImport.StepsLogStopsAtFirstRaise | app/projects/mixed-marketing-modeling/src/import_to_supabase.py:158-172 | an exception in one step skips all later steps |
| SupabaseImport.StepsLogAllThrough | app/projects/mixed-marketing-modeling/src/import_to_supabase.py:158-164 | when every step goes through, each table's batches are inserted in turn |
| SupabaseImport.AdvanceTracked | app/projects/mixed-marketing-modeling/src/import_to_supabase.py:158-164 | one step of main keeps its bookkeeping of what has been sent |
| SupabaseImport.SliceLogIsImportLog | app/projects/mixed-marketing-modeling/src/import_to_supabase.py:36-38 | the `range(0, len, size)` slicing loop sends the same requests as sending the batches |
| SupabaseImport.SliceLogStep | app/projects/mixed-marketing-modeling/src/import_to_supabase.py:36-38 | one round sends the next slice, and either it raised and ends the import or the rest follows |
| SupabaseImport.Importer.constructor | app/projects/mixed-marketing-modeling/src/import_to_supabase.py:22-23 | an importer starts with nothing sent |
| SupabaseImport.Importer.Send | app/projects/mixed-marketing-modeling/src/import_to_supabase.py:38 | a request is appended to the log and raises per the failure oracle |
| SupabaseImport.Importer.ImportTable | app/projects/mixed-marketing-modeling/src/import_to_supabase.py:25-118 | an import function sends exactly ImportLog's requests and reports whether it went through |
| SupabaseImport.Importer.DeleteTables | app/projects/mixed-marketing-modeling/src/import_to_supabase.py:132-138 | every table is deleted in order; the failed ones are reported |
| SupabaseImport.Importer.ClearAllTables | app/projects/mixed-marketing-modeling/src/import_to_supabase.py:120-141 | nothing is sent unless the lower-cased answer is "yes"; otherwise all five tables are deleted children first, failures reported |
| SupabaseImport.Importer.ImportStep | app/projects/mixed-marketing-modeling/src/import_to_supabase.py:158-164 | one step imports its table and keeps main's bookkeeping |
| SupabaseImport.Importer.ImportAll | app/projects/mixed-marketing-modeling/src/import_to_supabase.py:158-172 | the try block sends exactly the requests of the steps in import order, stopping at the first that raises |
| SupabaseImport.Importer.RunImport | app/projects/mixed-marketing-modeling/src/import_to_supabase.py:143-172 | cancelled with nothing sent iff clearing is asked for and not confirmed; otherwise the optional clearing deletes are followed by the import steps |

## Left out

- Floating point is modelled with exact reals. The generator's budget, spend
  and revenue columns, and the weekday, seasonality and noise factors that
  produce the daily counts, are left out. Each day's counts are supplied by
  the caller as `metrics`.
- Rounding is not modelled. The source rounds the p-value with
  `round(..., 4)` and the money columns with `round(..., 2)`; the model keeps
  the unrounded values. So Customer.firstOrderValue is the drawn first order,
  from which the source computes the segment, and not the stored
  `round(first_order, 2)`. Near 50 and 100 the two can disagree: a draw in
  [99.995, 100) is written as 100.0 with segment medium_value. Repeat order
  values, which the source scales from the stored value, are scaled here from
  the drawn one.
- Customers.CustomerTableShape: `segment == SegmentOf(firstOrderValue)` holds
  of the drawn first order. Of the stored `round(first_order, 2)` it can fail
  just below 50 and 100, as the line on rounding says.
- `email_hash` (sha256 of a generated address) and the transaction product
  lists' contents are left out; the products are an opaque draw.
- Writing CSV files, `print` progress output and `main` of the generator are
  left out: they are I/O.
- `campaigns_df.sample(frac=0.4, random_state=42)` is a caller-supplied list
  of campaign positions (`SampleInRange`); pandas' sampling algorithm is not
  modelled.
- Python's `random` and NumPy draws, `Date.now()` and `Math.random()` are
  caller-supplied functions or parameters. Their ranges are preconditions
  (`ValidCampaignDraw`, `RepeatDrawsInRange`, `ValidSuffix`). The base-36
  formatting of the session suffix is replaced by `ValidSuffix`.
- AbTests.VariantANeverSignificant: holds for exact reals; with binary floating
  point a CVR factor drawn at exactly 0.90 or 1.10 could give a relative change
  a rounding error above 0.1. The model does not capture that.
- Customers.TransactionCountBounds: states the table-wide bound for up to
  eight planned repeat purchases, the largest range in the source. The bound
  per segment is stated for one customer by Customers.PurchasesPerSegment.
- Campaigns.GenerateDailyPerformance: requires `NonZeroDayCounts`, because the
  source divides the budget by `campaign_days` and would raise on zero.
  Campaigns.WithinYearDayCounts shows every generated table meets it.
- Customers.GenerateCustomers: requires every converting row to name a
  campaign (`CampaignsKnown`). The source's `iloc[0]` raises IndexError
  otherwise. Customers.DailyCampaignsKnown shows every generated daily table
  meets it.
- Dates are day numbers from 2024-01-01. Converting to and from date strings,
  and the CSV reading in the importer, are left out.
- The filter of the clearing delete, `neq('campaign_id', 0)`, is not
  modelled: a `Delete` request stands for the call, what it removes is not
  tracked, and whether it raises is left to the failure oracle `fails`.
- The Supabase client and environment setup are left out. An exception from
  `execute()` is the oracle `fails` keyed by request position. The messages
  printed in the `except` blocks are not modelled.
- Common.Lower: lower-cases ASCII letters only. Python's `str.lower()` also
  folds non-ASCII letters.
- An empty stored session id counts as absent, as `!sessionId` does. Storage
  holds strings only.
- The scroll-depth arithmetic (`scrollY`, heights, `Math.round` of the
  percentage) is a parameter `depth`.
- React re-rendering is not modelled. This covers the effect re-registered on
  each `maxScrollDepth` change and the stale closure value between renders.
  `HandleScroll` compares against the page's current maximum.
- `navigator.sendBeacon`'s own delivery is not modelled. The queued beacons
  are a ghost list.
- The fetch's delivery and the server route are not modelled. An envelope
  counts as posted when the fetch is issued. A rejected fetch only adds an
  error-log entry (`fetchRejects`).
- The About page's cover images, authors, layout and animations are left out.
  Books keep their id and purchase URL.

/** The Supabase loader of the mixed-marketing-modeling project
    (app/projects/mixed-marketing-modeling/src/import_to_supabase.py): the
    five generated tables are sent in fixed-size insert batches, optionally
    after clearing every table, in an order that respects the foreign keys.
    Each request to the database is appended to a log; whether the n-th
    request raises is a fixed oracle of the importer. */
module SupabaseImport {
  import opened Common

  datatype Table = Campaigns | DailyPerformance | Customers | Transactions | AbTests

  function TableName(t: Table): string
  {
    match t
    case Campaigns => "campaigns"
    case DailyPerformance => "daily_performance"
    case Customers => "customers"
    case Transactions => "transactions"
    case AbTests => "ab_tests"
  }

  /** One CSV row as `to_dict('records')` gives it: column name to value. */
  type Record = map<string, string>

  /** The batch size each import function uses. */
  function BatchSize(t: Table): (size: nat)
    ensures size > 0
    ensures size == 100 <==> t == Campaigns || t == AbTests
    ensures size == 500 <==> t != Campaigns && t != AbTests
  {
    match t
    case Campaigns => 100
    case DailyPerformance => 500
    case Customers => 500
    case Transactions => 500
    case AbTests => 100
  }

  /** The order of the import steps: parents before the tables that refer to them. */
  const ImportOrder: seq<Table> := [Campaigns, DailyPerformance, Customers, Transactions, AbTests]

  /** The order in which the tables are cleared: children first. */
  const ClearOrder: seq<Table> := [AbTests, Transactions, Customers, DailyPerformance, Campaigns]

  // ---------------------------------------------------------------------------
  // Batching

  /** The slices `records[i:i+size]` for i = 0, size, 2·size, … below |records|. */
  function Batches<T>(records: seq<T>, size: nat): seq<seq<T>>
    requires size > 0
    decreases |records|
  {
    if |records| == 0 then []
    else
      var k := Min(size, |records|);
      [records[..k]] + Batches(records[k..], size)
  }

  function Flatten<T>(batches: seq<seq<T>>): seq<T>
  {
    if |batches| == 0 then [] else batches[0] + Flatten(batches[1..])
  }

  /** Concatenating the batches in send order gives back the records. */
  lemma {:induction false} FlattenBatches<T>(records: seq<T>, size: nat)
    requires size > 0
    ensures Flatten(Batches(records, size)) == records
    decreases |records|
  {
    if |records| > 0 {
      var k := Min(size, |records|);
      var bs := Batches(records, size);
      assert bs[0] == records[..k] && bs[1..] == Batches(records[k..], size);
      FlattenBatches(records[k..], size);
      assert records[..k] + records[k..] == records;
    }
  }

  /** Every batch is non-empty and holds at most `size` records; all but the
      last hold exactly `size`. */
  lemma {:induction false} BatchSizes<T>(records: seq<T>, size: nat)
    requires size > 0
    ensures forall i :: 0 <= i < |Batches(records, size)| ==> 0 < |Batches(records, size)[i]| <= size
    ensures forall i :: 0 <= i < |Batches(records, size)| - 1 ==> |Batches(records, size)[i]| == size
    decreases |records|
  {
    if |records| > 0 {
      var k := Min(size, |records|);
      var bs := Batches(records, size);
      var rest := Batches(records[k..], size);
      BatchSizes(records[k..], size);
      assert bs == [records[..k]] + rest;
      assert |bs[0]| == k;
      assert |records| <= size ==> records[k..] == [] && rest == [];
      assert forall i :: 0 <= i < |rest| ==> 0 < |rest[i]| <= size;
      forall i | 0 <= i < |bs| ensures 0 < |bs[i]| <= size {
        if i > 0 { assert bs[i] == rest[i - 1]; assert 0 < |rest[i - 1]| <= size; }
      }
      forall i | 0 <= i < |bs| - 1 ensures |bs[i]| == size {
        if i > 0 { assert bs[i] == rest[i - 1]; assert i - 1 < |rest| - 1; }
      }
    }
  }

  /** The number of batches is the ceiling of |records| / size: size times one
      batch fewer is short of |records|, size times the count covers it. In
      particular no records means no insert at all. */
  lemma {:induction false} BatchCount<T>(records: seq<T>, size: nat)
    requires size > 0
    ensures var n := |Batches(records, size)|;
      (n - 1) * size < |records| <= n * size
    ensures |Batches(records, size)| == 0 <==> |records| == 0
    decreases |records|
  {
    if |records| > 0 {
      var k := Min(size, |records|);
      var m := |Batches(records[k..], size)|;
      BatchCount(records[k..], size);
      assert |Batches(records, size)| == m + 1;
      if |records| <= size {
        assert records[k..] == [];
        assert m == 0;
      } else {
        assert (m + 1) * size == m * size + size;
        assert m * size == (m - 1) * size + size;
      }
    }
  }

  /** One step of the slicing loop: the batches of records[pos..] are the
      slice up to pos + size followed by the batches of the remainder. */
  lemma BatchesStep<T>(records: seq<T>, size: nat, pos: nat)
    requires size > 0 && pos < |records|
    ensures Batches(records[pos..], size)
         == [records[pos..Min(pos + size, |records|)]] + Batches(records[Min(pos + size, |records|)..], size)
  {
    var s := records[pos..];
    var k := Min(size, |s|);
    assert s[..k] == records[pos..Min(pos + size, |records|)];
    assert s[k..] == records[Min(pos + size, |records|)..];
  }

  // ---------------------------------------------------------------------------
  // Requests

  /** A request to the database: an insert of one batch into a table, or the
      clearing delete of a table. The source's delete carries the filter
      `neq('campaign_id', 0)`, which is not modelled: what it removes is not
      part of the log, and whether it raises is left to the failure oracle. */
  datatype Request = Insert(table: Table, batch: seq<Record>) | Delete(table: Table)

  function Inserts(t: Table, batches: seq<seq<Record>>): (rs: seq<Request>)
    ensures |rs| == |batches|
    ensures forall i :: 0 <= i < |rs| ==> rs[i] == Insert(t, batches[i])
  {
    if |batches| == 0 then [] else [Insert(t, batches[0])] + Inserts(t, batches[1..])
  }

  /** The generated tables, one record list per table. */
  datatype Data = Data(campaigns: seq<Record>, dailyPerformance: seq<Record>, customers: seq<Record>,
                       transactions: seq<Record>, abTests: seq<Record>)

  function RecordsOf(data: Data, t: Table): seq<Record>
  {
    match t
    case Campaigns => data.campaigns
    case DailyPerformance => data.dailyPerformance
    case Customers => data.customers
    case Transactions => data.transactions
    case AbTests => data.abTests
  }

  /** What a run of the importer ended with: cancelled at the confirmation,
      stopped by an exception, or every table imported. */
  datatype Outcome = Cancelled | Stopped | Imported

  /** None of the n requests numbered from `start` on raises. */
  predicate NoneRaise(fails: nat -> bool, start: nat, n: nat)
    decreases n
  {
    n == 0 || (!fails(start) && NoneRaise(fails, start + 1, n - 1))
  }

  /** Requests a + b from `start` on go through if and only if the first a do
      and then the next b do. */
  lemma {:induction false} NoneRaiseSplit(fails: nat -> bool, start: nat, a: nat, b: nat)
    ensures NoneRaise(fails, start, a + b) <==> NoneRaise(fails, start, a) && NoneRaise(fails, start + a, b)
    decreases a
  {
    if a > 0 {
      NoneRaiseSplit(fails, start + 1, a - 1, b);
      assert start + 1 + (a - 1) == start + a;
    }
  }

  /** The requests that sending `batches` into `t` in order issues, the first
      of them being request number `start`, and whether they all went through:
      a request that raises ends the import function. */
  function ImportLog(fails: nat -> bool, t: Table, batches: seq<seq<Record>>, start: nat): (r: (seq<Request>, bool))
    ensures |r.0| <= |batches|
    ensures r.1 ==> |r.0| == |batches|
    decreases |batches|
  {
    if |batches| == 0 then ([], true)
    else if fails(start) then ([Insert(t, batches[0])], false)
    else
      var rest := ImportLog(fails, t, batches[1..], start + 1);
      ([Insert(t, batches[0])] + rest.0, rest.1)
  }

  /** The import sends a prefix of the batches, in order, as inserts into its
      table. */
  lemma {:induction false} ImportLogPrefix(fails: nat -> bool, t: Table, batches: seq<seq<Record>>, start: nat)
    ensures ImportLog(fails, t, batches, start).0 == Inserts(t, batches[..|ImportLog(fails, t, batches, start).0|])
    decreases |batches|
  {
    if |batches| == 0 {
      assert batches[..0] == [];
    } else if fails(start) {
      assert batches[..1] == [batches[0]];
    } else {
      var rest := ImportLog(fails, t, batches[1..], start + 1);
      ImportLogPrefix(fails, t, batches[1..], start + 1);
      assert batches[..1 + |rest.0|] == [batches[0]] + batches[1..][..|rest.0|];
    }
  }

  /** The import goes through if and only if none of its requests raises. */
  lemma {:induction false} ImportLogThrough(fails: nat -> bool, t: Table, batches: seq<seq<Record>>, start: nat)
    ensures ImportLog(fails, t, batches, start).1 <==> NoneRaise(fails, start, |batches|)
    decreases |batches|
  {
    if |batches| > 0 && !fails(start) {
      ImportLogThrough(fails, t, batches[1..], start + 1);
    }
  }

  /** When the import does not go through, its last request is the first one
      that raised. */
  lemma {:induction false} ImportLogLastRaised(fails: nat -> bool, t: Table, batches: seq<seq<Record>>, start: nat)
    ensures !ImportLog(fails, t, batches, start).1 ==>
      && |ImportLog(fails, t, batches, start).0| > 0
      && NoneRaise(fails, start, |ImportLog(fails, t, batches, start).0| - 1)
      && fails(start + |ImportLog(fails, t, batches, start).0| - 1)
    decreases |batches|
  {
    if |batches| > 0 && !fails(start) {
      var rest := ImportLog(fails, t, batches[1..], start + 1);
      ImportLogLastRaised(fails, t, batches[1..], start + 1);
      if !rest.1 {
        assert 1 + |rest.0| - 1 == 1 + (|rest.0| - 1);
        assert start + (1 + |rest.0|) - 1 == start + 1 + |rest.0| - 1;
      }
    }
  }

  /** The import sends the batches in order as inserts into its table, and it
      stops exactly at the first request that raises: it went through if and
      only if no request raised, and otherwise its last request is the first
      one that raised. */
  lemma ImportLogStopsAtFirstRaise(fails: nat -> bool, t: Table, batches: seq<seq<Record>>, start: nat)
    ensures ImportLog(fails, t, batches, start).0 == Inserts(t, batches[..|ImportLog(fails, t, batches, start).0|])
    ensures ImportLog(fails, t, batches, start).1 <==> NoneRaise(fails, start, |batches|)
    ensures !ImportLog(fails, t, batches, start).1 ==>
      && |ImportLog(fails, t, batches, start).0| > 0
      && NoneRaise(fails, start, |ImportLog(fails, t, batches, start).0| - 1)
      && fails(start + |ImportLog(fails, t, batches, start).0| - 1)
  {
    ImportLogPrefix(fails, t, batches, start);
    ImportLogThrough(fails, t, batches, start);
    ImportLogLastRaised(fails, t, batches, start);
  }

  /** When every insert of a table goes through, the inserted batches are the
      table's records cut into batches, and together they are the records. */
  lemma ImportedBatchesAreRecords(fails: nat -> bool, t: Table, records: seq<Record>, start: nat)
    requires ImportLog(fails, t, Batches(records, BatchSize(t)), start).1
    ensures ImportLog(fails, t, Batches(records, BatchSize(t)), start).0 == Inserts(t, Batches(records, BatchSize(t)))
    ensures Flatten(Batches(records, BatchSize(t))) == records
  {
    var bs := Batches(records, BatchSize(t));
    ImportLogStopsAtFirstRaise(fails, t, bs, start);
    assert bs[..|bs|] == bs;
    FlattenBatches(records, BatchSize(t));
  }

  /** A delete request for each of `tables`, in order. */
  function Deletes(tables: seq<Table>): (rs: seq<Request>)
    ensures |rs| == |tables|
  {
    if |tables| == 0 then [] else [Delete(tables[0])] + Deletes(tables[1..])
  }

  /** Clearing sends its deletes children first: ab_tests, transactions,
      customers, daily_performance, campaigns. */
  lemma ClearOrderRequests()
    ensures Deletes(ClearOrder)
         == [Delete(AbTests), Delete(Transactions), Delete(Customers), Delete(DailyPerformance), Delete(Campaigns)]
  {
    var order := ClearOrder;
    assert order[1..] == [Transactions, Customers, DailyPerformance, Campaigns];
    assert order[1..][1..] == [Customers, DailyPerformance, Campaigns];
    assert order[1..][1..][1..] == [DailyPerformance, Campaigns];
    assert order[1..][1..][1..][1..] == [Campaigns];
    assert order[1..][1..][1..][1..][1..] == [];
  }

  /** The tables among `tables`, deleted in order with the first delete as
      request number `start`, whose delete raises. */
  function FailedDeletes(fails: nat -> bool, tables: seq<Table>, start: nat): seq<Table>
    decreases |tables|
  {
    if |tables| == 0 then []
    else (if fails(start) then [tables[0]] else []) + FailedDeletes(fails, tables[1..], start + 1)
  }

  /** One table of the clearing loop: the tables reported so far followed by
      those still to fail stay the same when table i is reported exactly if
      its delete raised. */
  lemma FailedDeletesStep(fails: nat -> bool, tables: seq<Table>, i: nat, n: nat, failed: seq<Table>, target: seq<Table>)
    requires i < |tables| && failed + FailedDeletes(fails, tables[i..], n) == target
    ensures fails(n) ==> (failed + [tables[i]]) + FailedDeletes(fails, tables[i + 1..], n + 1) == target
    ensures !fails(n) ==> failed + FailedDeletes(fails, tables[i + 1..], n + 1) == target
  {
    assert tables[i..][0] == tables[i] && tables[i..][1..] == tables[i + 1..];
    var later := FailedDeletes(fails, tables[i + 1..], n + 1);
    if fails(n) {
      assert FailedDeletes(fails, tables[i..], n) == [tables[i]] + later;
      assert failed + ([tables[i]] + later) == (failed + [tables[i]]) + later;
    } else {
      assert FailedDeletes(fails, tables[i..], n) == [] + later;
      assert [] + later == later;
    }
  }

  /** The deletes from table i on are table i's delete, then the rest. */
  lemma DeletesStep(tables: seq<Table>, i: nat)
    requires i < |tables|
    ensures Deletes(tables[i..]) == [Delete(tables[i])] + Deletes(tables[i + 1..])
  {
    assert tables[i..][1..] == tables[i + 1..];
  }

  /** Sending q, the next of the requests still due, keeps "what was sent
      since log0, then what is due, is the whole". */
  lemma AppendRound<T>(log0: seq<T>, before: seq<T>, after: seq<T>, q: T, whole: seq<T>, rest: seq<T>)
    requires |log0| <= |before| && before[..|log0|] == log0
    requires whole == before[|log0|..] + ([q] + rest)
    requires after == before + [q]
    ensures |log0| <= |after| && after[..|log0|] == log0
    ensures whole == after[|log0|..] + rest
  {
    assert after[|log0|..] == before[|log0|..] + [q];
  }

  /** A table is reported as failed exactly when its own delete raised; the
      others were still attempted and are not reported. */
  lemma {:induction false} FailedDeletesExact(fails: nat -> bool, tables: seq<Table>, start: nat)
    requires forall i, j :: 0 <= i < j < |tables| ==> tables[i] != tables[j]
    ensures forall i :: 0 <= i < |tables| ==>
      (tables[i] in FailedDeletes(fails, tables, start) <==> fails(start + i))
    ensures forall x :: x in FailedDeletes(fails, tables, start) ==> x in tables
    decreases |tables|
  {
    if |tables| > 0 {
      var rest := FailedDeletes(fails, tables[1..], start + 1);
      FailedDeletesExact(fails, tables[1..], start + 1);
      forall i | 0 <= i < |tables|
        ensures tables[i] in FailedDeletes(fails, tables, start) <==> fails(start + i)
      {
        if i == 0 {
          assert tables[0] !in tables[1..];
        } else {
          assert tables[i] == tables[1..][i - 1];
          assert start + i == start + 1 + (i - 1);
          assert tables[i] != tables[0];
        }
      }
    }
  }

  /** The requests of the import steps for `tables`, in order, the first
      request being number `start`, stopping after the step that raised; the
      flag says whether every step went through. */
  function StepsLog(fails: nat -> bool, data: Data, tables: seq<Table>, start: nat): (r: (seq<Request>, bool))
    decreases |tables|
  {
    if |tables| == 0 then ([], true)
    else
      var first := ImportLog(fails, tables[0], Batches(RecordsOf(data, tables[0]), BatchSize(tables[0])), start);
      if !first.1 then first
      else
        var rest := StepsLog(fails, data, tables[1..], start + |first.0|);
        (first.0 + rest.0, rest.1)
  }

  /** One import step: the steps' requests are the first step's, followed,
      if it went through, by those of the remaining steps. */
  lemma StepsLogUnfold(fails: nat -> bool, data: Data, tables: seq<Table>, start: nat, first: (seq<Request>, bool))
    requires |tables| > 0
    requires first == ImportLog(fails, tables[0], Batches(RecordsOf(data, tables[0]), BatchSize(tables[0])), start)
    ensures first.1 ==> StepsLog(fails, data, tables, start).0 == first.0 + StepsLog(fails, data, tables[1..], start + |first.0|).0
    ensures first.1 ==> StepsLog(fails, data, tables, start).1 == StepsLog(fails, data, tables[1..], start + |first.0|).1
    ensures !first.1 ==> StepsLog(fails, data, tables, start).0 == first.0 && !StepsLog(fails, data, tables, start).1
  {
  }

  /** Position of a table in the import order. */
  function Rank(t: Table): nat
  {
    match t
    case Campaigns => 0
    case DailyPerformance => 1
    case Customers => 2
    case Transactions => 3
    case AbTests => 4
  }

  /** The requests of one import step are all inserts into its table. */
  lemma ImportLogTable(fails: nat -> bool, t: Table, batches: seq<seq<Record>>, start: nat)
    ensures forall a :: 0 <= a < |ImportLog(fails, t, batches, start).0| ==>
      ImportLog(fails, t, batches, start).0[a].Insert? && ImportLog(fails, t, batches, start).0[a].table == t
  {
    ImportLogStopsAtFirstRaise(fails, t, batches, start);
  }

  /** Every request of rs is an insert into one of `tables`. */
  predicate InsertsInto(rs: seq<Request>, tables: seq<Table>)
  {
    forall a :: 0 <= a < |rs| ==> rs[a].Insert? && rs[a].table in tables
  }

  /** The requests of rs come table by table in import order. */
  predicate RankOrdered(rs: seq<Request>)
  {
    forall a, b :: 0 <= a < b < |rs| ==> Rank(rs[a].table) <= Rank(rs[b].table)
  }

  /** The inserts into a table, followed by ordered inserts into tables that
      come after it, are ordered. */
  lemma ConcatRankOrdered(x: seq<Request>, y: seq<Request>, t: Table, tables: seq<Table>)
    requires forall a :: 0 <= a < |x| ==> x[a].Insert? && x[a].table == t
    requires t in tables
    requires forall c :: 0 <= c < |y| ==> y[c].Insert? && y[c].table in tables && Rank(y[c].table) > Rank(t)
    requires RankOrdered(y)
    ensures InsertsInto(x + y, tables) && RankOrdered(x + y)
  {
    var r := x + y;
    forall a, b | 0 <= a < b < |r| ensures Rank(r[a].table) <= Rank(r[b].table) {
      if b >= |x| {
        assert r[b] == y[b - |x|];
        if a >= |x| { assert r[a] == y[a - |x|]; }
      }
    }
  }

  /** Inserts into the tables after the first come after the first table. */
  lemma LaterTables(rest: seq<Request>, tables: seq<Table>)
    requires |tables| > 0
    requires forall i, j :: 0 <= i < j < |tables| ==> Rank(tables[i]) < Rank(tables[j])
    requires InsertsInto(rest, tables[1..])
    ensures forall c :: 0 <= c < |rest| ==>
      rest[c].Insert? && rest[c].table in tables && Rank(rest[c].table) > Rank(tables[0])
  {
    forall c | 0 <= c < |rest| ensures rest[c].Insert? && rest[c].table in tables && Rank(rest[c].table) > Rank(tables[0]) {
      var j :| 0 <= j < |tables[1..]| && tables[1..][j] == rest[c].table;
      assert rest[c].table == tables[j + 1];
    }
  }

  /** The requests of the import steps are inserts into the given tables, and
      they come table by table in the order of the steps. */
  lemma {:induction false} StepsLogOrdered(fails: nat -> bool, data: Data, tables: seq<Table>, start: nat)
    requires forall i, j :: 0 <= i < j < |tables| ==> Rank(tables[i]) < Rank(tables[j])
    ensures InsertsInto(StepsLog(fails, data, tables, start).0, tables)
    ensures RankOrdered(StepsLog(fails, data, tables, start).0)
    decreases |tables|
  {
    if |tables| > 0 {
      var t := tables[0];
      var bs := Batches(RecordsOf(data, t), BatchSize(t));
      var first := ImportLog(fails, t, bs, start);
      var whole := StepsLog(fails, data, tables, start);
      StepsLogUnfold(fails, data, tables, start, first);
      ImportLogTable(fails, t, bs, start);
      if first.1 {
        var rest := StepsLog(fails, data, tables[1..], start + |first.0|);
        StepsLogOrdered(fails, data, tables[1..], start + |first.0|);
        LaterTables(rest.0, tables);
        ConcatRankOrdered(first.0, rest.0, t, tables);
        assert whole.0 == first.0 + rest.0;
      } else {
        ConcatRankOrdered(first.0, [], t, tables);
        assert whole.0 == first.0 + [];
      }
    } else {
      assert StepsLog(fails, data, tables, start).0 == [];
    }
  }

  /** main's steps send only inserts, and every insert into a table comes
      after all inserts into the tables it refers to: campaigns, then
      daily_performance, customers, transactions and ab_tests. */
  lemma ImportOrderRespected(fails: nat -> bool, data: Data, start: nat)
    ensures forall a :: 0 <= a < |StepsLog(fails, data, ImportOrder, start).0| ==>
      StepsLog(fails, data, ImportOrder, start).0[a].Insert?
    ensures forall a, b :: 0 <= a < b < |StepsLog(fails, data, ImportOrder, start).0| ==>
      Rank(StepsLog(fails, data, ImportOrder, start).0[a].table) <= Rank(StepsLog(fails, data, ImportOrder, start).0[b].table)
  {
    StepsLogOrdered(fails, data, ImportOrder, start);
  }

  /** When all steps went through, none of their requests raised. */
  lemma {:induction false} StepsLogThrough(fails: nat -> bool, data: Data, tables: seq<Table>, start: nat)
    ensures StepsLog(fails, data, tables, start).1 ==> NoneRaise(fails, start, |StepsLog(fails, data, tables, start).0|)
    decreases |tables|
  {
    var whole := StepsLog(fails, data, tables, start);
    if |tables| > 0 {
      var t := tables[0];
      var bs := Batches(RecordsOf(data, t), BatchSize(t));
      var first := ImportLog(fails, t, bs, start);
      StepsLogUnfold(fails, data, tables, start, first);
      if first.1 {
        ImportLogThrough(fails, t, bs, start);
        var n := |first.0|;
        var rest := StepsLog(fails, data, tables[1..], start + n);
        StepsLogThrough(fails, data, tables[1..], start + n);
        if rest.1 {
          NoneRaiseSplit(fails, start, n, |rest.0|);
          assert |whole.0| == n + |rest.0|;
        }
      }
    }
  }

  /** Requests that went through, followed by a run whose last request is
      the first that raised, make a run whose last request is the first that
      raised. */
  lemma RaiseAfter(fails: nat -> bool, start: nat, n: nat, m: nat)
    requires NoneRaise(fails, start, n)
    requires m > 0 && NoneRaise(fails, start + n, m - 1) && fails(start + n + m - 1)
    ensures NoneRaise(fails, start, n + m - 1) && fails(start + (n + m) - 1)
  {
    NoneRaiseSplit(fails, start, n, m - 1);
    assert n + (m - 1) == n + m - 1;
  }

  /** When a step did not go through, the last request sent is the first one
      that raised: the steps after it were skipped. */
  lemma {:induction false} StepsLogLastRaised(fails: nat -> bool, data: Data, tables: seq<Table>, start: nat)
    ensures !StepsLog(fails, data, tables, start).1 ==>
      && |StepsLog(fails, data, tables, start).0| > 0
      && NoneRaise(fails, start, |StepsLog(fails, data, tables, start).0| - 1)
      && fails(start + |StepsLog(fails, data, tables, start).0| - 1)
    decreases |tables|
  {
    var whole := StepsLog(fails, data, tables, start);
    if |tables| > 0 {
      var t := tables[0];
      var bs := Batches(RecordsOf(data, t), BatchSize(t));
      var first := ImportLog(fails, t, bs, start);
      StepsLogUnfold(fails, data, tables, start, first);
      if first.1 {
        ImportLogThrough(fails, t, bs, start);
        var n := |first.0|;
        var rest := StepsLog(fails, data, tables[1..], start + n);
        StepsLogLastRaised(fails, data, tables[1..], start + n);
        if !rest.1 {
          assert whole.0 == first.0 + rest.0 && !whole.1;
          RaiseAfter(fails, start, n, |rest.0|);
        }
      } else {
        ImportLogLastRaised(fails, t, bs, start);
        assert whole.0 == first.0;
      }
    }
  }

  /** An exception in one import step skips every later step: the requests
      stop at the first one that raised, and when all steps went through no
      request raised. */
  lemma StepsLogStopsAtFirstRaise(fails: nat -> bool, data: Data, tables: seq<Table>, start: nat)
    ensures StepsLog(fails, data, tables, start).1 ==> NoneRaise(fails, start, |StepsLog(fails, data, tables, start).0|)
    ensures !StepsLog(fails, data, tables, start).1 ==>
      && |StepsLog(fails, data, tables, start).0| > 0
      && NoneRaise(fails, start, |StepsLog(fails, data, tables, start).0| - 1)
      && fails(start + |StepsLog(fails, data, tables, start).0| - 1)
  {
    StepsLogThrough(fails, data, tables, start);
    StepsLogLastRaised(fails, data, tables, start);
  }

  /** When every step goes through, the requests are the batches of each
      table in turn. */
  function AllInserts(data: Data, tables: seq<Table>): seq<Request>
    decreases |tables|
  {
    if |tables| == 0 then []
    else Inserts(tables[0], Batches(RecordsOf(data, tables[0]), BatchSize(tables[0]))) + AllInserts(data, tables[1..])
  }

  lemma {:induction false} StepsLogAllThrough(fails: nat -> bool, data: Data, tables: seq<Table>, start: nat)
    requires StepsLog(fails, data, tables, start).1
    ensures StepsLog(fails, data, tables, start).0 == AllInserts(data, tables)
    decreases |tables|
  {
    if |tables| > 0 {
      var t := tables[0];
      var bs := Batches(RecordsOf(data, t), BatchSize(t));
      var first := ImportLog(fails, t, bs, start);
      ImportLogStopsAtFirstRaise(fails, t, bs, start);
      assert bs[..|bs|] == bs;
      StepsLogAllThrough(fails, data, tables[1..], start + |first.0|);
    }
  }

  /** The import steps of main sent `done`, from request number `mark` on,
      which is the end of `log`; `pending` are the steps still to run if none
      raised, and `whole` is what all the steps send. */
  ghost predicate Tracked(fails: nat -> bool, data: Data, log: seq<Request>, mark: nat, done: seq<Request>,
                          pending: seq<Table>, ok: bool, whole: (seq<Request>, bool))
  {
    && mark + |done| == |log|
    && log[mark..] == done
    && (ok ==> whole.0 == done + StepsLog(fails, data, pending, |log|).0)
    && (ok ==> whole.1 == StepsLog(fails, data, pending, |log|).1)
    && (!ok ==> whole.0 == done && !whole.1)
  }

  /** Running the next pending step, which sent r.0 and went through when
      r.1, keeps the bookkeeping of main. */
  lemma AdvanceTracked(fails: nat -> bool, data: Data, before: seq<Request>, after: seq<Request>, mark: nat,
                       done: seq<Request>, pending: seq<Table>, r: (seq<Request>, bool), whole: (seq<Request>, bool))
    requires Tracked(fails, data, before, mark, done, pending, true, whole) && |pending| > 0
    requires r.1 ==> StepsLog(fails, data, pending, |before|).0 == r.0 + StepsLog(fails, data, pending[1..], |before| + |r.0|).0
    requires r.1 ==> StepsLog(fails, data, pending, |before|).1 == StepsLog(fails, data, pending[1..], |before| + |r.0|).1
    requires !r.1 ==> StepsLog(fails, data, pending, |before|).0 == r.0 && !StepsLog(fails, data, pending, |before|).1
    requires after == before + r.0
    ensures after[|before|..] == r.0
    ensures Tracked(fails, data, after, mark, done + r.0, pending[1..], r.1, whole)
  {
    assert after[|before|..] == r.0;
    assert after[mark..] == done + r.0 by {
      assert after[mark..] == before[mark..] + r.0;
    }
    if r.1 {
      var rest := StepsLog(fails, data, pending[1..], |before| + |r.0|);
      assert done + (r.0 + rest.0) == (done + r.0) + rest.0;
    }
  }

  /** The requests that the loop of an import function issues from slice
      position pos on, the first being request number n, and whether they
      all went through. */
  function SliceLog(fails: nat -> bool, t: Table, records: seq<Record>, size: nat, pos: nat, n: nat): (r: (seq<Request>, bool))
    requires size > 0
    decreases |records| - pos
  {
    if pos >= |records| then ([], true)
    else
      var q := Insert(t, records[pos..Min(pos + size, |records|)]);
      if fails(n) then ([q], false)
      else
        var rest := SliceLog(fails, t, records, size, pos + size, n + 1);
        ([q] + rest.0, rest.1)
  }

  /** Slicing the records from pos on sends the same requests as sending the
      batches of the remaining records. */
  lemma {:induction false} SliceLogIsImportLog(fails: nat -> bool, t: Table, records: seq<Record>, size: nat, pos: nat, n: nat)
    requires size > 0 && pos <= |records|
    ensures SliceLog(fails, t, records, size, pos, n) == ImportLog(fails, t, Batches(records[pos..], size), n)
    decreases |records| - pos
  {
    if pos < |records| {
      BatchesStep(records, size, pos);
      var bs := Batches(records[pos..], size);
      if !fails(n) {
        if pos + size < |records| {
          SliceLogIsImportLog(fails, t, records, size, pos + size, n + 1);
        } else {
          assert bs[1..] == [];
        }
      }
    } else {
      assert records[pos..] == [];
    }
  }

  /** One round of an import function's loop keeps its bookkeeping: the
      request just sent is the next slice, and either it raised and ends the
      import or the rest of the import is what remains to be sent. */
  lemma SliceLogStep(fails: nat -> bool, t: Table, records: seq<Record>, size: nat, pos: nat,
                     log0: seq<Request>, before: seq<Request>, after: seq<Request>, raised: bool,
                     total: (seq<Request>, bool))
    requires size > 0 && pos < |records|
    requires |log0| <= |before| && before[..|log0|] == log0
    requires total.0 == before[|log0|..] + SliceLog(fails, t, records, size, pos, |before|).0
    requires total.1 == SliceLog(fails, t, records, size, pos, |before|).1
    requires after == before + [Insert(t, records[pos..Min(pos + size, |records|)])]
    requires raised == fails(|before|)
    ensures |log0| <= |after| && after[..|log0|] == log0
    ensures raised ==> total.0 == after[|log0|..] && !total.1
    ensures !raised ==> total.0 == after[|log0|..] + SliceLog(fails, t, records, size, pos + size, |after|).0
    ensures !raised ==> total.1 == SliceLog(fails, t, records, size, pos + size, |after|).1
  {
    assert after[|log0|..] == before[|log0|..] + [after[|before|]];
  }

  lemma SplitAt<T>(s: seq<T>, m: nat, prefix: seq<T>)
    requires m <= |s| && s[..m] == prefix
    ensures s == prefix + s[m..]
  {
  }

  /** The number of delete requests main sends before importing: clearing
      happens only when the first answer, lower-cased, is "yes". */
  function ClearCount(clearAnswer: string): nat
  {
    if Lower(clearAnswer) == "yes" then |ClearOrder| else 0
  }

  class Importer {
    /** The requests sent so far, in order. */
    var log: seq<Request>
    /** Whether the n-th request (counting from 0) raises. */
    const fails: nat -> bool

    constructor (fails: nat -> bool)
      ensures log == [] && this.fails == fails
    {
      log := [];
      this.fails := fails;
    }

    /** One request's `execute()`: the request is sent, and whether it raises
        is the failure oracle's answer for its position. */
    method Send(q: Request) returns (raised: bool)
      modifies this
      ensures log == old(log) + [q]
      ensures raised == fails(|old(log)|)
    {
      raised := fails(|log|);
      log := log + [q];
    }

    /** One import_* function: inserts the table's records `BatchSize(t)` at
        a time; an exception from an insert ends the import (ok is false)
        after that request. */
    method ImportTable(t: Table, records: seq<Record>) returns (ok: bool)
      modifies this
      ensures var r := ImportLog(fails, t, Batches(records, BatchSize(t)), |old(log)|);
        log == old(log) + r.0 && ok == r.1
    {
      var batchSize := BatchSize(t);
      ghost var log0 := log;
      ghost var total := SliceLog(fails, t, records, batchSize, 0, |log0|);
      var pos := 0;
      while pos < |records|
        invariant |log0| <= |log| && log[..|log0|] == log0
        invariant total.0 == log[|log0|..] + SliceLog(fails, t, records, batchSize, pos, |log|).0
        invariant total.1 == SliceLog(fails, t, records, batchSize, pos, |log|).1
        decreases |records| - pos
      {
        var end := Min(pos + batchSize, |records|);
        var batch := records[pos..end];
        ghost var before := log;
        var raised := Send(Insert(t, batch));
        SliceLogStep(fails, t, records, batchSize, pos, log0, before, log, raised, total);
        if raised {
          SliceLogIsImportLog(fails, t, records, batchSize, 0, |log0|);
          assert records[0..] == records;
          SplitAt(log, |log0|, log0);
          return false;
        }
        pos := pos + batchSize;
      }
      SliceLogIsImportLog(fails, t, records, batchSize, 0, |log0|);
      assert records[0..] == records;
      SplitAt(log, |log0|, log0);
      return true;
    }

    /** The loop of clear_all_tables: deletes every table of `tables` in
        order; a delete that raises is reported in `failed` and the loop goes
        on with the next table. */
    method DeleteTables(tables: seq<Table>) returns (failed: seq<Table>)
      modifies this
      ensures log == old(log) + Deletes(tables)
      ensures failed == FailedDeletes(fails, tables, |old(log)|)
    {
      ghost var log0 := log;
      ghost var target := FailedDeletes(fails, tables, |log0|);
      failed := [];
      assert tables[0..] == tables;
      for i := 0 to |tables|
        invariant |log0| <= |log| && log[..|log0|] == log0
        invariant Deletes(tables) == log[|log0|..] + Deletes(tables[i..])
        invariant failed + FailedDeletes(fails, tables[i..], |log|) == target
      {
        ghost var before := log;
        var raised := Send(Delete(tables[i]));
        DeletesStep(tables, i);
        AppendRound(log0, before, log, Delete(tables[i]), Deletes(tables), Deletes(tables[i + 1..]));
        FailedDeletesStep(fails, tables, i, |before|, failed, target);
        if raised {
          failed := failed + [tables[i]];
        }
      }
      assert tables[|tables|..] == [];
      SplitAt(log, |log0|, log0);
      assert failed + [] == failed;
    }

    /** clear_all_tables, given the answer to its confirmation prompt: nothing
        is sent and the result is false unless the lower-cased answer is
        "yes"; otherwise every table is deleted, children first, a failing
        delete being reported in `failed` while the rest are still attempted. */
    method ClearAllTables(answer: string) returns (cleared: bool, failed: seq<Table>)
      modifies this
      ensures cleared <==> Lower(answer) == "yes"
      ensures !cleared ==> log == old(log) && failed == []
      ensures cleared ==> log == old(log) + Deletes(ClearOrder)
      ensures cleared ==> failed == FailedDeletes(fails, ClearOrder, |old(log)|)
    {
      if Lower(answer) != "yes" {
        return false, [];
      }
      failed := DeleteTables(ClearOrder);
      return true, failed;
    }

    /** One import step of main inside its try block: imports table t and
        keeps main's bookkeeping of what the steps sent. */
    method ImportStep(t: Table, records: seq<Record>, ghost data: Data, ghost mark: nat, ghost done: seq<Request>,
                      ghost pending: seq<Table>, ghost whole: (seq<Request>, bool), ghost prefix: seq<Request>)
      returns (ok: bool)
      requires |pending| > 0 && pending[0] == t && records == RecordsOf(data, t)
      requires Tracked(fails, data, log, mark, done, pending, true, whole)
      requires log[..mark] == prefix
      modifies this
      ensures |old(log)| <= |log| && log[..mark] == prefix
      ensures Tracked(fails, data, log, mark, done + log[|old(log)|..], pending[1..], ok, whole)
    {
      ghost var before := log;
      ok := ImportTable(t, records);
      ghost var r := ImportLog(fails, t, Batches(records, BatchSize(t)), |before|);
      StepsLogUnfold(fails, data, pending, |before|, r);
      AdvanceTracked(fails, data, before, log, mark, done, pending, r, whole);
      assert log[..mark] == before[..mark];
    }

    /** The try block of main: the five import steps in order, an exception
        in one of them skipping the rest. */
    method ImportAll(data: Data) returns (ok: bool)
      modifies this
      ensures log == old(log) + StepsLog(fails, data, ImportOrder, |old(log)|).0
      ensures ok == StepsLog(fails, data, ImportOrder, |old(log)|).1
    {
      ghost var mark := |log|;
      ghost var prefix := log;
      assert log[..mark] == prefix;
      ghost var done: seq<Request> := [];
      ghost var pending := ImportOrder;
      ghost var whole := StepsLog(fails, data, pending, mark);
      assert Tracked(fails, data, log, mark, done, pending, true, whole);
      ok := ImportStep(Campaigns, data.campaigns, data, mark, done, pending, whole, prefix);
      done, pending := log[mark..], pending[1..];
      if ok {
        ok := ImportStep(DailyPerformance, data.dailyPerformance, data, mark, done, pending, whole, prefix);
        done, pending := log[mark..], pending[1..];
      }
      if ok {
        ok := ImportStep(Customers, data.customers, data, mark, done, pending, whole, prefix);
        done, pending := log[mark..], pending[1..];
      }
      if ok {
        ok := ImportStep(Transactions, data.transactions, data, mark, done, pending, whole, prefix);
        done, pending := log[mark..], pending[1..];
      }
      if ok {
        ok := ImportStep(AbTests, data.abTests, data, mark, done, pending, whole, prefix);
        done, pending := log[mark..], pending[1..];
      }
      assert ok ==> pending == [] && StepsLog(fails, data, pending, |log|) == ([], true);
      assert log[mark..] == whole.0 && ok == whole.1;
      SplitAt(log, mark, prefix);
    }

    /** main, given the answers to its two prompts: when clearing is asked for
        and not confirmed nothing at all is sent; otherwise, after any
        clearing, the tables are imported campaigns, daily_performance,
        customers, transactions, ab_tests, and an exception in one step skips
        the rest. */
    method RunImport(clearAnswer: string, confirmAnswer: string, data: Data) returns (outcome: Outcome)
      modifies this
      ensures outcome == Cancelled <==> Lower(clearAnswer) == "yes" && Lower(confirmAnswer) != "yes"
      ensures outcome == Cancelled ==> log == old(log)
      ensures outcome != Cancelled ==>
        && |log| >= |old(log)| + ClearCount(clearAnswer)
        && log[..|old(log)|] == old(log)
        && log[|old(log)|..|old(log)| + ClearCount(clearAnswer)] == (if ClearCount(clearAnswer) == 0 then [] else Deletes(ClearOrder))
        && log[|old(log)| + ClearCount(clearAnswer)..] == StepsLog(fails, data, ImportOrder, |old(log)| + ClearCount(clearAnswer)).0
        && (outcome == Imported <==> StepsLog(fails, data, ImportOrder, |old(log)| + ClearCount(clearAnswer)).1)
    {
      if Lower(clearAnswer) == "yes" {
        var cleared, _ := ClearAllTables(confirmAnswer);
        if !cleared {
          return Cancelled;
        }
      }
      ghost var mid := log;
      var ok := ImportAll(data);
      assert log[..|mid|][..|old(log)|] == log[..|old(log)|];
      assert mid[..|old(log)|] == old(log);
      outcome := if ok then Imported else Stopped;
    }
  }
}

/**
 * Day bucketing (src/modules/analytics/application/analytics.service.ts).  An instant is a number of
 * milliseconds since the epoch, before or after it; the printed key of a day is its day number, which
 * `toISOString().slice(0, 10)` prints injectively.
 */
module Analytics {
  import opened Wrappers

  const MS_PER_DAY := 86400000
  const DEFAULT_RANGE_DAYS := 30
  const MAX_RANGE_DAYS := 90

  type Day = int

  /** `toDateOnly`: the UTC day an instant falls on.  Dafny's division floors for a positive divisor. */
  function DayOf(t: int): Day {
    t / MS_PER_DAY
  }

  function StartOfDay(t: int): int {
    DayOf(t) * MS_PER_DAY
  }

  function EndOfDay(t: int): int {
    StartOfDay(t) + MS_PER_DAY - 1
  }

  lemma DayBounds(t: int, d: Day)
    ensures DayOf(t) == d <==> d * MS_PER_DAY <= t < (d + 1) * MS_PER_DAY
  {
  }

  // ----- the day keys -----

  /** `buildDayKeys`: every day from the one `from` falls on to the one `to` falls on. */
  method BuildDayKeys(from: int, to: int) returns (keys: seq<Day>)
    ensures |keys| == if DayOf(from) <= DayOf(to) then DayOf(to) - DayOf(from) + 1 else 0
    ensures forall i | 0 <= i < |keys| :: keys[i] == DayOf(from) + i
  {
    keys := [];
    var cursor := StartOfDay(from);
    var lastDay := StartOfDay(to);
    while cursor <= lastDay
      invariant cursor == (DayOf(from) + |keys|) * MS_PER_DAY
      invariant |keys| <= if DayOf(from) <= DayOf(to) then DayOf(to) - DayOf(from) + 1 else 0
      invariant forall i | 0 <= i < |keys| :: keys[i] == DayOf(from) + i
      decreases lastDay - cursor
    {
      DayBounds(cursor, DayOf(from) + |keys|);
      keys := keys + [DayOf(cursor)];
      cursor := cursor + MS_PER_DAY;
    }
  }

  /** A date parameter: absent (or empty, which JavaScript also treats as absent), unparsable, or an instant. */
  datatype DateInput = Absent | Unparsable | Instant(t: int)

  datatype RangeError = InvalidToDate | InvalidFromDate | FromAfterTo | RangeTooLong(requested: nat)

  datatype Range = Range(from: int, to: int, dayKeys: seq<Day>)

  /** The day the range ends on, and the day it starts on, when both parameters can be read. */
  function LastDay(toInput: DateInput, now: int): Day {
    DayOf(if toInput.Instant? then toInput.t else now)
  }

  function FirstDay(fromInput: DateInput, toInput: DateInput, now: int): Day {
    if fromInput.Instant? then DayOf(fromInput.t) else LastDay(toInput, now) - (DEFAULT_RANGE_DAYS - 1)
  }

  /**
   * `resolveRange`.  It succeeds exactly when both dates can be read and the inclusive number of days
   * between them is from 1 to 90; then the range covers whole days and the keys are those days.
   */
  method ResolveRange(fromInput: DateInput, toInput: DateInput, now: int) returns (r: Result<Range, RangeError>)
    ensures
      var first, last := FirstDay(fromInput, toInput, now), LastDay(toInput, now);
      r == (if toInput.Unparsable? then Err(InvalidToDate)
            else if fromInput.Unparsable? then Err(InvalidFromDate)
            else if last < first then Err(FromAfterTo)
            else if last - first + 1 > MAX_RANGE_DAYS then Err(RangeTooLong(last - first + 1))
            else Ok(Range(first * MS_PER_DAY, (last + 1) * MS_PER_DAY - 1, Days(first, last))))
  {
    if toInput.Unparsable? { return Err(InvalidToDate); }
    var toRaw := if toInput.Instant? then toInput.t else now;
    var to := EndOfDay(toRaw);
    if fromInput.Unparsable? { return Err(InvalidFromDate); }
    var fromRaw :=
      if fromInput.Instant? then fromInput.t else StartOfDay(toRaw) - (DEFAULT_RANGE_DAYS - 1) * MS_PER_DAY;
    var from := StartOfDay(fromRaw);
    DayBounds(to, LastDay(toInput, now));
    DayBounds(fromRaw, FirstDay(fromInput, toInput, now));
    DayBounds(from, FirstDay(fromInput, toInput, now));
    if from > to { return Err(FromAfterTo); }
    var dayKeys := BuildDayKeys(from, to);
    if |dayKeys| > MAX_RANGE_DAYS { return Err(RangeTooLong(|dayKeys|)); }
    assert dayKeys == Days(FirstDay(fromInput, toInput, now), LastDay(toInput, now));
    r := Ok(Range(from, to, dayKeys));
  }

  function Days(first: Day, last: Day): (keys: seq<Day>)
    requires first <= last
    ensures |keys| == last - first + 1 && forall i | 0 <= i < |keys| :: keys[i] == first + i
  {
    seq(last - first + 1, i => first + i)
  }

  /** With no `fromDate` the range is exactly 30 days, whatever `toDate` says. */
  lemma DefaultRange(toInput: DateInput, now: int)
    ensures |Days(FirstDay(Absent, toInput, now), LastDay(toInput, now))| == DEFAULT_RANGE_DAYS
  {
  }

  // ----- the buckets -----

  datatype Row = Row(at: int, amount: int)

  datatype DayCount = DayCount(date: Day, count: nat)

  datatype DayCountAmount = DayCountAmount(date: Day, count: nat, totalAmount: int)

  /** The naive answer for one day: filter the first n rows by day, and count or add. */
  function CountOn(rows: seq<Row>, n: nat, day: Day): nat
    requires n <= |rows|
  {
    if n == 0 then 0 else CountOn(rows, n - 1, day) + if DayOf(rows[n - 1].at) == day then 1 else 0
  }

  function AmountOn(rows: seq<Row>, n: nat, day: Day): int
    requires n <= |rows|
  {
    if n == 0 then 0 else AmountOn(rows, n - 1, day) + if DayOf(rows[n - 1].at) == day then rows[n - 1].amount else 0
  }

  /** `new Map(dayKeys.map((key) => [key, 0]))` */
  function Zeros(dayKeys: seq<Day>): map<Day, int> {
    map key | key in dayKeys :: 0
  }

  /** `bucketCount`: one pass over the rows gives every day its naive count. */
  method BucketCount(dayKeys: seq<Day>, rows: seq<Row>) returns (buckets: seq<DayCount>)
    ensures |buckets| == |dayKeys|
    ensures forall i | 0 <= i < |dayKeys| :: buckets[i] == DayCount(dayKeys[i], CountOn(rows, |rows|, dayKeys[i]))
  {
    var counts := Zeros(dayKeys);
    for n := 0 to |rows|
      invariant forall i | 0 <= i < |dayKeys| :: dayKeys[i] in counts
      invariant forall key | key in counts :: counts[key] == CountOn(rows, n, key)
    {
      var key := DayOf(rows[n].at);
      if key in counts { counts := counts[key := counts[key] + 1]; }
    }
    forall i | 0 <= i < |dayKeys|
      ensures dayKeys[i] in counts && counts[dayKeys[i]] == CountOn(rows, |rows|, dayKeys[i])
    {
      var key := dayKeys[i];
      assert key in counts;
    }
    buckets := seq(|dayKeys|, i requires 0 <= i < |dayKeys| && dayKeys[i] in counts && counts[dayKeys[i]] >= 0 =>
      DayCount(dayKeys[i], counts[dayKeys[i]]));
  }

  /** `bucketCountAmount`: the same with the amounts. */
  method BucketCountAmount(dayKeys: seq<Day>, rows: seq<Row>) returns (buckets: seq<DayCountAmount>)
    ensures |buckets| == |dayKeys|
    ensures forall i | 0 <= i < |dayKeys| ::
              buckets[i] == DayCountAmount(dayKeys[i], CountOn(rows, |rows|, dayKeys[i]),
                                             AmountOn(rows, |rows|, dayKeys[i]))
  {
    var counts := Zeros(dayKeys);
    var amounts := Zeros(dayKeys);
    for n := 0 to |rows|
      invariant forall i | 0 <= i < |dayKeys| :: dayKeys[i] in counts
      invariant amounts.Keys == counts.Keys
      invariant forall key | key in counts :: counts[key] == CountOn(rows, n, key)
      invariant forall key | key in amounts :: amounts[key] == AmountOn(rows, n, key)
    {
      var key := DayOf(rows[n].at);
      if key in counts {
        counts := counts[key := counts[key] + 1];
        amounts := amounts[key := amounts[key] + rows[n].amount];
      }
    }
    forall i | 0 <= i < |dayKeys|
      ensures dayKeys[i] in counts && counts[dayKeys[i]] == CountOn(rows, |rows|, dayKeys[i])
      ensures dayKeys[i] in amounts && amounts[dayKeys[i]] == AmountOn(rows, |rows|, dayKeys[i])
    {
      var key := dayKeys[i];
      assert key in counts;
    }
    buckets := seq(|dayKeys|,
      i requires 0 <= i < |dayKeys| && dayKeys[i] in counts && dayKeys[i] in amounts && counts[dayKeys[i]] >= 0 =>
        DayCountAmount(dayKeys[i], counts[dayKeys[i]], amounts[dayKeys[i]]));
  }

  // ----- conservation -----

  /** The sums of the counts and of the amounts of the first k days from `first`. */
  function TotalCount(rows: seq<Row>, n: nat, first: Day, k: nat): nat
    requires n <= |rows|
  {
    if k == 0 then 0 else TotalCount(rows, n, first, k - 1) + CountOn(rows, n, first + k - 1)
  }

  function TotalAmount(rows: seq<Row>, n: nat, first: Day, k: nat): int
    requires n <= |rows|
  {
    if k == 0 then 0 else TotalAmount(rows, n, first, k - 1) + AmountOn(rows, n, first + k - 1)
  }

  predicate InDays(row: Row, first: Day, k: nat) {
    first <= DayOf(row.at) < first + k
  }

  /** The rows on one of those days, and what they add up to. */
  function RowsIn(rows: seq<Row>, n: nat, first: Day, k: nat): nat
    requires n <= |rows|
  {
    if n == 0 then 0 else RowsIn(rows, n - 1, first, k) + if InDays(rows[n - 1], first, k) then 1 else 0
  }

  function AmountIn(rows: seq<Row>, n: nat, first: Day, k: nat): int
    requires n <= |rows|
  {
    if n == 0 then 0
    else AmountIn(rows, n - 1, first, k) + if InDays(rows[n - 1], first, k) then rows[n - 1].amount else 0
  }

  /** One more row adds one to the buckets together exactly when some bucket is its own. */
  lemma {:induction false} OneMoreRow(rows: seq<Row>, n: nat, first: Day, k: nat)
    requires 0 < n <= |rows|
    ensures TotalCount(rows, n, first, k)
         == TotalCount(rows, n - 1, first, k) + (if InDays(rows[n - 1], first, k) then 1 else 0)
    ensures TotalAmount(rows, n, first, k)
         == TotalAmount(rows, n - 1, first, k) + (if InDays(rows[n - 1], first, k) then rows[n - 1].amount else 0)
  {
    if k > 0 { OneMoreRow(rows, n, first, k - 1); }
  }

  lemma {:induction false} NoRows(rows: seq<Row>, first: Day, k: nat)
    ensures TotalCount(rows, 0, first, k) == 0 && TotalAmount(rows, 0, first, k) == 0
  {
    if k > 0 { NoRows(rows, first, k - 1); }
  }

  /** Every row is counted in exactly one bucket if its day has one, and in none otherwise. */
  lemma {:induction false} BucketsConserve(rows: seq<Row>, n: nat, first: Day, k: nat)
    requires n <= |rows|
    ensures TotalCount(rows, n, first, k) == RowsIn(rows, n, first, k)
    ensures TotalAmount(rows, n, first, k) == AmountIn(rows, n, first, k)
  {
    if n == 0 {
      NoRows(rows, first, k);
    } else {
      BucketsConserve(rows, n - 1, first, k);
      OneMoreRow(rows, n, first, k);
    }
  }

  function SumOfAmounts(rows: seq<Row>, n: nat): int
    requires n <= |rows|
  {
    if n == 0 then 0 else SumOfAmounts(rows, n - 1) + rows[n - 1].amount
  }

  /** The rows the query of `getGrowth` selects all fall in a bucket, so nothing is lost. */
  lemma {:induction false} SelectedRowsConserve(rows: seq<Row>, n: nat, first: Day, last: Day)
    requires n <= |rows| && first <= last
    requires forall i | 0 <= i < n :: first * MS_PER_DAY <= rows[i].at <= (last + 1) * MS_PER_DAY - 1
    ensures TotalCount(rows, n, first, last - first + 1) == n
    ensures TotalAmount(rows, n, first, last - first + 1) == SumOfAmounts(rows, n)
  {
    if n == 0 {
      NoRows(rows, first, last - first + 1);
    } else {
      SelectedRowsConserve(rows, n - 1, first, last);
      OneMoreRow(rows, n, first, last - first + 1);
      DayBounds(rows[n - 1].at, DayOf(rows[n - 1].at));
    }
  }

  // ----- the series of `getGrowth` -----

  /** The rows the query selects: `at` within the range, both ends included. */
  function Selected(table: seq<Row>, from: int, to: int): seq<Row> {
    if table == [] then []
    else Selected(table[..|table| - 1], from, to)
         + (if from <= table[|table| - 1].at <= to then [table[|table| - 1]] else [])
  }

  /** Exactly the rows of the table that lie in the range are selected, each as often as it is there. */
  lemma {:induction false} SelectedExactly(table: seq<Row>, from: int, to: int, r: Row)
    ensures multiset(Selected(table, from, to))[r] == if from <= r.at <= to then multiset(table)[r] else 0
  {
    if table != [] {
      var front, last := table[..|table| - 1], table[|table| - 1];
      SelectedExactly(front, from, to, r);
      assert table == front + [last];
    }
  }

  /** The naive answers do not depend on what comes after the rows counted. */
  lemma {:induction false} FrontAnswers(rows: seq<Row>, more: seq<Row>, n: nat, day: Day)
    requires n <= |rows|
    ensures CountOn(rows + more, n, day) == CountOn(rows, n, day)
    ensures AmountOn(rows + more, n, day) == AmountOn(rows, n, day)
  {
    if n > 0 { FrontAnswers(rows, more, n - 1, day); }
  }

  lemma OneMoreOn(rows: seq<Row>, r: Row, day: Day)
    ensures CountOn(rows + [r], |rows| + 1, day) == CountOn(rows, |rows|, day) + if DayOf(r.at) == day then 1 else 0
    ensures AmountOn(rows + [r], |rows| + 1, day)
         == AmountOn(rows, |rows|, day) + if DayOf(r.at) == day then r.amount else 0
  {
    FrontAnswers(rows, [r], |rows|, day);
  }

  /** For a day of the range, the rows selected give the same answer as the whole table. */
  lemma {:induction false} SelectedAnswers(table: seq<Row>, first: Day, last: Day, day: Day)
    requires first <= day <= last
    ensures var selected := Selected(table, first * MS_PER_DAY, (last + 1) * MS_PER_DAY - 1);
      && CountOn(selected, |selected|, day) == CountOn(table, |table|, day)
      && AmountOn(selected, |selected|, day) == AmountOn(table, |table|, day)
  {
    if table != [] {
      var front, r := table[..|table| - 1], table[|table| - 1];
      SelectedAnswers(front, first, last, day);
      assert table == front + [r];
      OneMoreOn(front, r, day);
      var from, to := first * MS_PER_DAY, (last + 1) * MS_PER_DAY - 1;
      OneMoreOn(Selected(front, from, to), r, day);
      DayBounds(r.at, day);
      assert Selected(table, from, to) == Selected(front, from, to) + if from <= r.at <= to then [r] else [];
      if !(from <= r.at <= to) { assert Selected(table, from, to) == Selected(front, from, to); }
    }
  }

  /** The sums over buckets as they were returned. */
  function SumOfCounts(buckets: seq<DayCountAmount>): nat {
    if buckets == [] then 0 else SumOfCounts(buckets[..|buckets| - 1]) + buckets[|buckets| - 1].count
  }

  function SumOfTotals(buckets: seq<DayCountAmount>): int {
    if buckets == [] then 0 else SumOfTotals(buckets[..|buckets| - 1]) + buckets[|buckets| - 1].totalAmount
  }

  lemma {:induction false} SumsAreTotals(buckets: seq<DayCountAmount>, rows: seq<Row>, first: Day)
    requires forall i | 0 <= i < |buckets| ::
      buckets[i] == DayCountAmount(first + i, CountOn(rows, |rows|, first + i), AmountOn(rows, |rows|, first + i))
    ensures SumOfCounts(buckets) == TotalCount(rows, |rows|, first, |buckets|)
    ensures SumOfTotals(buckets) == TotalAmount(rows, |rows|, first, |buckets|)
  {
    if buckets != [] { SumsAreTotals(buckets[..|buckets| - 1], rows, first); }
  }

  /** Whatever buckets a call returns for the days of a range, they hold every selected row once. */
  lemma SeriesConserves(buckets: seq<DayCountAmount>, rows: seq<Row>, first: Day, last: Day)
    requires first <= last && |buckets| == last - first + 1
    requires forall i | 0 <= i < |buckets| ::
      buckets[i] == DayCountAmount(first + i, CountOn(rows, |rows|, first + i), AmountOn(rows, |rows|, first + i))
    requires forall i | 0 <= i < |rows| :: first * MS_PER_DAY <= rows[i].at <= (last + 1) * MS_PER_DAY - 1
    ensures SumOfCounts(buckets) == |rows| && SumOfTotals(buckets) == SumOfAmounts(rows, |rows|)
  {
    SumsAreTotals(buckets, rows, first);
    SelectedRowsConserve(rows, |rows|, first, last);
  }

  lemma SumsOverTable(buckets: seq<DayCountAmount>, table: seq<Row>, first: Day)
    requires forall i | 0 <= i < |buckets| ::
      buckets[i] == DayCountAmount(first + i, CountOn(table, |table|, first + i), AmountOn(table, |table|, first + i))
    ensures SumOfCounts(buckets) == RowsIn(table, |table|, first, |buckets|)
    ensures SumOfTotals(buckets) == AmountIn(table, |table|, first, |buckets|)
  {
    SumsAreTotals(buckets, table, first);
    BucketsConserve(table, |table|, first, |buckets|);
  }

  /**
   * One series of `getGrowth`: resolve the range, select the rows, bucket them by day.  It fails exactly
   * when the range does; otherwise it has 1 to 90 buckets, one per day in order, each with what the whole
   * table has of that day, and together they have every row of those days and its amount, no more and no
   * less.
   */
  method Series(fromInput: DateInput, toInput: DateInput, now: int, table: seq<Row>)
    returns (r: Result<seq<DayCountAmount>, RangeError>)
    ensures var first, last := FirstDay(fromInput, toInput, now), LastDay(toInput, now);
      && (r.Ok? <==> !toInput.Unparsable? && !fromInput.Unparsable? && first <= last < first + MAX_RANGE_DAYS)
      && (r.Ok? ==>
            && |r.value| == last - first + 1
            && (forall i | 0 <= i < |r.value| ::
                  r.value[i] == DayCountAmount(first + i, CountOn(table, |table|, first + i),
                                               AmountOn(table, |table|, first + i)))
            && SumOfCounts(r.value) == RowsIn(table, |table|, first, |r.value|)
            && SumOfTotals(r.value) == AmountIn(table, |table|, first, |r.value|))
  {
    ghost var first, last := FirstDay(fromInput, toInput, now), LastDay(toInput, now);
    var range := ResolveRange(fromInput, toInput, now);
    if range.Err? { return Err(range.error); }
    var rows := Selected(table, range.value.from, range.value.to);
    var buckets := BucketCountAmount(range.value.dayKeys, rows);
    forall i | 0 <= i < |buckets|
      ensures buckets[i] ==
        DayCountAmount(first + i, CountOn(table, |table|, first + i), AmountOn(table, |table|, first + i))
    {
      SelectedAnswers(table, first, last, first + i);
    }
    SumsOverTable(buckets, table, first);
    r := Ok(buckets);
  }
}

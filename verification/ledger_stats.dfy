/**
 * `getTransactionStats` of app.js: year-to-date totals, the average expense per
 * category label, and income and expenses in twelve monthly buckets ending with
 * the current month.
 */
module LedgerStats {
  import opened Wrappers
  import opened Calendar
  import opened Seqs
  import opened Ledger

  datatype Bucket = Bucket(income: int, expenses: int)
  datatype Tally = Tally(total: int, count: int)
  datatype Stats = Stats(ytdIncome: int, ytdExpenses: int, averages: map<string, real>, trends: seq<Bucket>)

  /** `monthsBetween`: calendar months from `d1` to `d2`, ignoring the day. */
  function MonthsBetween(d1: Date, d2: Date): (r: int)
    ensures ValidDate(d1) && ValidDate(d2) ==>
      (r == 0 <==> d1.year == d2.year && d1.month == d2.month)
    ensures ValidDate(d1) && ValidDate(d2) ==>
      (r > 0 <==> d1.year < d2.year || (d1.year == d2.year && d1.month < d2.month))
  {
    YearsApart(d1.year, d2.year);
    (d2.year - d1.year) * 12 + d2.month - d1.month
  }

  /** Different years lie at least twelve months apart. */
  lemma {:induction false} YearsApart(y1: int, y2: int)
    ensures y1 < y2 ==> (y2 - y1) * 12 >= 12
    ensures y1 > y2 ==> (y2 - y1) * 12 <= -12
  {
  }

  /** A date on or before `now` is never a negative number of months ago; only a later month is. */
  lemma {:induction false} MonthsBetweenPast(d: Date, now: Date)
    requires ValidDate(d) && ValidDate(now)
    ensures OnOrBefore(d, now) ==> MonthsBetween(d, now) >= 0
    ensures MonthsBetween(d, now) < 0 ==> !OnOrBefore(d, now)
    ensures MonthsBetween(d, now) == 0 <==> d.year == now.year && d.month == now.month
  {
    if d.year < now.year {
      assert (now.year - d.year) * 12 >= 12;
    } else if d.year > now.year {
      assert (now.year - d.year) * 12 <= -12;
    }
  }

  /** On or after January 1st of the current year: `date >= startOfYear`. */
  predicate InYearToDate(d: Date, now: Date) {
    OnOrBefore(Date(now.year, 1, 1), d)
  }

  /** For a real date this is "in this year or a later one". */
  lemma {:induction false} InYearToDateByYear(d: Date, now: Date)
    requires ValidDate(d)
    ensures InYearToDate(d, now) <==> d.year >= now.year
  {
  }

  /**
   * The bucket of a date as app.js computes it: the guard only checks
   * `monthsAgo < 12`, so a later month gives an index above 11.
   */
  function TrendSlotAsWritten(d: Date, now: Date): (r: Option<int>)
    ensures r.Some? <==> MonthsBetween(d, now) < 12
    ensures r.Some? ==> r.value + MonthsBetween(d, now) == 11
  {
    var monthsAgo := MonthsBetween(d, now);
    if monthsAgo < 12 then Some(11 - monthsAgo) else None
  }

  /** A transaction dated in a later month than `now` is sent past the last of the twelve buckets. */
  lemma {:induction false} FutureDateOverflowsTrend(d: Date, now: Date)
    requires ValidDate(d) && ValidDate(now) && MonthsBetween(d, now) < 0
    ensures TrendSlotAsWritten(d, now).Some? && TrendSlotAsWritten(d, now).value >= 12
    ensures !OnOrBefore(d, now)
  {
    MonthsBetweenPast(d, now);
  }

  /** A transaction dated next month, seen in June 2025, lands on index 12 of a 12-element array. */
  lemma {:induction false} NextMonthIsIndexTwelve()
    ensures TrendSlotAsWritten(Date(2025, 7, 1), Date(2025, 6, 15)) == Some(12)
  {
  }

  /** The bucket of a date: only the current month and the eleven before it have one. */
  function TrendSlot(d: Date, now: Date): (r: Option<nat>)
    ensures r.Some? <==> 0 <= MonthsBetween(d, now) < 12
    ensures r.Some? ==> r.value < 12 && r.value + MonthsBetween(d, now) == 11
  {
    var monthsAgo := MonthsBetween(d, now);
    if 0 <= monthsAgo < 12 then Some(11 - monthsAgo) else None
  }

  /** Where the written guard does not overflow, both agree. */
  lemma {:induction false} TrendSlotAgrees(d: Date, now: Date)
    requires MonthsBetween(d, now) >= 0
    ensures TrendSlotAsWritten(d, now).Some? <==> TrendSlot(d, now).Some?
    ensures TrendSlot(d, now).Some? ==> TrendSlotAsWritten(d, now).value == TrendSlot(d, now).value
  {
  }

  function YtdIncome(now: Date): Transaction -> int {
    (t: Transaction) => if InYearToDate(t.date, now) && !IsExpense(t) then Magnitude(t) else 0
  }

  function YtdExpense(now: Date): Transaction -> int {
    (t: Transaction) => if InYearToDate(t.date, now) && IsExpense(t) then Magnitude(t) else 0
  }

  function TrendIncome(now: Date, slot: nat): Transaction -> int {
    (t: Transaction) => if TrendSlot(t.date, now) == Some(slot) && !IsExpense(t) then Magnitude(t) else 0
  }

  function TrendExpense(now: Date, slot: nat): Transaction -> int {
    (t: Transaction) => if TrendSlot(t.date, now) == Some(slot) && IsExpense(t) then Magnitude(t) else 0
  }

  function LabelExpense(group: string): Transaction -> int {
    (t: Transaction) => if IsExpense(t) && CategoryLabel(t.category) == group then Magnitude(t) else 0
  }

  function LabelCount(group: string): Transaction -> int {
    (t: Transaction) => if IsExpense(t) && CategoryLabel(t.category) == group then 1 else 0
  }

  function LabelSurplus(group: string): Transaction -> int {
    (t: Transaction) => if IsExpense(t) && CategoryLabel(t.category) == group then Magnitude(t) - 1 else 0
  }

  /** Every expense is at least one cent, so a label's total is at least its count. */
  lemma {:induction false} LabelTotalAtLeastCount(ts: seq<Transaction>, group: string)
    ensures SumBy(ts, LabelExpense(group)) >= SumBy(ts, LabelCount(group)) >= 0
  {
    forall t | t in ts
      ensures LabelSurplus(group)(t) >= 0 && LabelCount(group)(t) >= 0
      ensures LabelCount(group)(t) + LabelSurplus(group)(t) == LabelExpense(group)(t)
    {
      var surplus, count, expense := LabelSurplus(group), LabelCount(group), LabelExpense(group);
      assert surplus(t) == if IsExpense(t) && CategoryLabel(t.category) == group then Magnitude(t) - 1 else 0;
      assert count(t) == if IsExpense(t) && CategoryLabel(t.category) == group then 1 else 0;
      assert expense(t) == if IsExpense(t) && CategoryLabel(t.category) == group then Magnitude(t) else 0;
    }
    SumByNonNegative(ts, LabelSurplus(group));
    SumByNonNegative(ts, LabelCount(group));
    SumByAdd(ts, LabelCount(group), LabelSurplus(group), LabelExpense(group));
  }

  /** A label without expenses has a zero total. */
  lemma {:induction false} UncountedLabelHasNoTotal(s: seq<Transaction>, group: string)
    ensures SumBy(s, LabelCount(group)) == 0 ==> SumBy(s, LabelExpense(group)) == 0
    decreases |s|
  {
    if s != [] {
      var n := |s| - 1;
      var count, expense := LabelCount(group), LabelExpense(group);
      assert count(s[n]) == if IsExpense(s[n]) && CategoryLabel(s[n].category) == group then 1 else 0;
      assert expense(s[n]) == if IsExpense(s[n]) && CategoryLabel(s[n].category) == group then Magnitude(s[n]) else 0;
      LabelTotalAtLeastCount(s[..n], group);
      UncountedLabelHasNoTotal(s[..n], group);
    }
  }

  /** An average of totals of at least one cent per expense is at least one cent. */
  lemma {:induction false} AverageAtLeastOne(total: int, count: int)
    requires total >= count > 0
    ensures total as real / count as real >= 1.0
  {
    var q := total as real / count as real;
    assert q * count as real == total as real;
    if q < 1.0 {
      assert q * count as real < count as real;
    }
  }

  /** The running tallies agree with the sums over the transactions seen so far. */
  ghost predicate TalliesMatch(tallies: map<string, Tally>, seen: seq<Transaction>) {
    && (forall c :: c in tallies <==> SumBy(seen, LabelCount(c)) >= 1)
    && (forall c :: c in tallies ==> tallies[c] == Tally(SumBy(seen, LabelExpense(c)), SumBy(seen, LabelCount(c))))
  }

  /** The twelve buckets agree with the sums over the transactions seen so far. */
  ghost predicate BucketsMatch(trends: seq<Bucket>, seen: seq<Transaction>, now: Date) {
    |trends| == 12 &&
    forall k :: 0 <= k < 12 ==>
      trends[k] == Bucket(SumBy(seen, TrendIncome(now, k)), SumBy(seen, TrendExpense(now, k)))
  }

  /** The tallies after one more transaction: an expense adds to its label's total and count. */
  function Tallied(tallies: map<string, Tally>, t: Transaction): map<string, Tally> {
    if t.amount < 0 then
      var group := CategoryLabel(t.category);
      var current := if group in tallies then tallies[group] else Tally(0, 0);
      tallies[group := Tally(current.total + Abs(t.amount), current.count + 1)]
    else tallies
  }

  /** The buckets after one more transaction: its magnitude goes to the bucket of its month, if any. */
  function Bucketed(trends: seq<Bucket>, t: Transaction, now: Date): seq<Bucket>
    requires |trends| == 12
  {
    match TrendSlot(t.date, now)
    case None => trends
    case Some(k) =>
      if t.amount < 0 then trends[k := trends[k].(expenses := trends[k].expenses + Abs(t.amount))]
      else trends[k := trends[k].(income := trends[k].income + Abs(t.amount))]
  }

  lemma {:induction false} YearToDateStep(ts: seq<Transaction>, i: nat, now: Date)
    requires i < |ts|
    ensures SumBy(ts[..i + 1], YtdIncome(now)) == SumBy(ts[..i], YtdIncome(now))
      + (if InYearToDate(ts[i].date, now) && ts[i].amount >= 0 then Abs(ts[i].amount) else 0)
    ensures SumBy(ts[..i + 1], YtdExpense(now)) == SumBy(ts[..i], YtdExpense(now))
      + (if InYearToDate(ts[i].date, now) && ts[i].amount < 0 then Abs(ts[i].amount) else 0)
  {
    SumByStep(ts, i, YtdIncome(now));
    SumByStep(ts, i, YtdExpense(now));
    var income, expense := YtdIncome(now), YtdExpense(now);
    assert income(ts[i]) == if InYearToDate(ts[i].date, now) && !IsExpense(ts[i]) then Magnitude(ts[i]) else 0;
    assert expense(ts[i]) == if InYearToDate(ts[i].date, now) && IsExpense(ts[i]) then Magnitude(ts[i]) else 0;
  }

  lemma {:induction false} TalliesStep(tallies: map<string, Tally>, ts: seq<Transaction>, i: nat)
    requires i < |ts| && TalliesMatch(tallies, ts[..i])
    ensures TalliesMatch(Tallied(tallies, ts[i]), ts[..i + 1])
  {
    var next := Tallied(tallies, ts[i]);
    var group := CategoryLabel(ts[i].category);
    forall c
      ensures c in next <==> SumBy(ts[..i + 1], LabelCount(c)) >= 1
      ensures c in next ==> next[c] == Tally(SumBy(ts[..i + 1], LabelExpense(c)), SumBy(ts[..i + 1], LabelCount(c)))
    {
      LabelStep(ts, i, c);
      if c != group || !IsExpense(ts[i]) {
        assert c in next <==> c in tallies;
      }
    }
  }

  /** How one more transaction moves the sums of one label. */
  lemma {:induction false} LabelStep(ts: seq<Transaction>, i: nat, c: string)
    requires i < |ts|
    ensures SumBy(ts[..i + 1], LabelCount(c)) == SumBy(ts[..i], LabelCount(c)) + LabelCount(c)(ts[i])
    ensures SumBy(ts[..i + 1], LabelExpense(c)) == SumBy(ts[..i], LabelExpense(c)) + LabelExpense(c)(ts[i])
    ensures SumBy(ts[..i], LabelCount(c)) >= 0
    ensures SumBy(ts[..i], LabelCount(c)) == 0 ==> SumBy(ts[..i], LabelExpense(c)) == 0
    ensures LabelCount(c)(ts[i]) == if IsExpense(ts[i]) && CategoryLabel(ts[i].category) == c then 1 else 0
    ensures LabelExpense(c)(ts[i]) == if IsExpense(ts[i]) && CategoryLabel(ts[i].category) == c then Magnitude(ts[i]) else 0
  {
    var t := ts[i];
    SumByStep(ts, i, LabelCount(c));
    SumByStep(ts, i, LabelExpense(c));
    LabelTotalAtLeastCount(ts[..i], c);
    UncountedLabelHasNoTotal(ts[..i], c);
    var count, expense := LabelCount(c), LabelExpense(c);
    assert count(t) == if IsExpense(t) && CategoryLabel(t.category) == c then 1 else 0;
    assert expense(t) == if IsExpense(t) && CategoryLabel(t.category) == c then Magnitude(t) else 0;
  }

  lemma {:induction false} BucketsStep(trends: seq<Bucket>, ts: seq<Transaction>, i: nat, now: Date)
    requires i < |ts| && BucketsMatch(trends, ts[..i], now)
    ensures BucketsMatch(Bucketed(trends, ts[i], now), ts[..i + 1], now)
  {
    var t := ts[i];
    forall k | 0 <= k < 12
      ensures SumBy(ts[..i + 1], TrendIncome(now, k)) == SumBy(ts[..i], TrendIncome(now, k)) + TrendIncome(now, k)(t)
      ensures SumBy(ts[..i + 1], TrendExpense(now, k)) == SumBy(ts[..i], TrendExpense(now, k)) + TrendExpense(now, k)(t)
    {
      SumByStep(ts, i, TrendIncome(now, k));
      SumByStep(ts, i, TrendExpense(now, k));
    }
    forall k | 0 <= k < 12
      ensures TrendIncome(now, k)(t) == if TrendSlot(t.date, now) == Some(k) && !IsExpense(t) then Magnitude(t) else 0
      ensures TrendExpense(now, k)(t) == if TrendSlot(t.date, now) == Some(k) && IsExpense(t) then Magnitude(t) else 0
    {
      var income, expense := TrendIncome(now, k), TrendExpense(now, k);
      assert income(t) == if TrendSlot(t.date, now) == Some(k) && !IsExpense(t) then Magnitude(t) else 0;
      assert expense(t) == if TrendSlot(t.date, now) == Some(k) && IsExpense(t) then Magnitude(t) else 0;
    }
  }

  /** The closing step of `getTransactionStats`: each tally becomes `total / count`. */
  function Averages(tallies: map<string, Tally>): (r: map<string, real>)
    requires forall c :: c in tallies ==> tallies[c].count >= 1
    ensures r.Keys == tallies.Keys
    ensures forall c :: c in r ==> r[c] * tallies[c].count as real == tallies[c].total as real
  {
    map c | c in tallies :: tallies[c].total as real / tallies[c].count as real
  }

  /** The averages of the tallies of `ts` cover exactly the labels with an expense, each at least one cent. */
  lemma {:induction false} AveragesMatch(tallies: map<string, Tally>, ts: seq<Transaction>)
    requires TalliesMatch(tallies, ts)
    ensures forall c :: c in Averages(tallies) <==> SumBy(ts, LabelCount(c)) >= 1
    ensures forall c :: c in Averages(tallies) ==>
      Averages(tallies)[c] == SumBy(ts, LabelExpense(c)) as real / SumBy(ts, LabelCount(c)) as real
    ensures forall c :: c in Averages(tallies) ==> Averages(tallies)[c] >= 1.0
  {
    forall c | c in tallies ensures tallies[c].total as real / tallies[c].count as real >= 1.0 {
      LabelTotalAtLeastCount(ts, c);
      AverageAtLeastOne(tallies[c].total, tallies[c].count);
    }
  }

  /** The body of the "monthly trends" step: adds the magnitude to the bucket of the transaction's month. */
  method AddToBucket(trends: array<Bucket>, t: Transaction, now: Date)
    requires trends.Length == 12
    modifies trends
    ensures trends[..] == Bucketed(old(trends[..]), t, now)
  {
    var slot := TrendSlot(t.date, now);
    if slot.Some? {
      var b := trends[slot.value];
      if t.amount < 0 {
        trends[slot.value] := b.(expenses := b.expenses + Abs(t.amount));
      } else {
        trends[slot.value] := b.(income := b.income + Abs(t.amount));
      }
    }
  }

  /**
   * `getTransactionStats` for the transactions `ts` at the moment `now`, with the
   * bucket guard corrected to `0 <= monthsAgo < 12`.
   */
  method TransactionStats(ts: seq<Transaction>, now: Date) returns (stats: Stats)
    ensures stats.ytdIncome == SumBy(ts, YtdIncome(now))
    ensures stats.ytdExpenses == SumBy(ts, YtdExpense(now))
    ensures |stats.trends| == 12
    ensures forall k :: 0 <= k < 12 ==>
      stats.trends[k] == Bucket(SumBy(ts, TrendIncome(now, k)), SumBy(ts, TrendExpense(now, k)))
    ensures forall c :: c in stats.averages <==> SumBy(ts, LabelCount(c)) >= 1
    ensures forall c :: c in stats.averages ==>
      stats.averages[c] == SumBy(ts, LabelExpense(c)) as real / SumBy(ts, LabelCount(c)) as real
    ensures forall c :: c in stats.averages ==> stats.averages[c] >= 1.0
  {
    var ytdIncome, ytdExpenses := 0, 0;
    var trends := new Bucket[12](_ => Bucket(0, 0));
    var tallies: map<string, Tally> := map[];
    for i := 0 to |ts|
      invariant ytdIncome == SumBy(ts[..i], YtdIncome(now))
      invariant ytdExpenses == SumBy(ts[..i], YtdExpense(now))
      invariant BucketsMatch(trends[..], ts[..i], now)
      invariant TalliesMatch(tallies, ts[..i])
    {
      var t := ts[i];
      var amount := Abs(t.amount);
      var isExpense := t.amount < 0;
      YearToDateStep(ts, i, now);
      if InYearToDate(t.date, now) {
        if isExpense {
          ytdExpenses := ytdExpenses + amount;
        } else {
          ytdIncome := ytdIncome + amount;
        }
      }
      TalliesStep(tallies, ts, i);
      tallies := Tallied(tallies, t);
      BucketsStep(trends[..], ts, i, now);
      AddToBucket(trends, t, now);
    }
    assert ts[..|ts|] == ts;
    AveragesMatch(tallies, ts);
    stats := Stats(ytdIncome, ytdExpenses, Averages(tallies), trends[..]);
  }
}

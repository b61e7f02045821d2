/**
 * The module-level state of app.js: the `transactions` and `budgets` arrays and
 * the selected currency, the handlers that change them, and the calculations the
 * page shows from them (summary, budget progress, the filtered and sorted table).
 */
module Ledger {
  import opened Wrappers
  import opened Calendar
  import opened Seqs

  /** A transaction as `addTransaction` builds it; `amount` carries the sign (cents). */
  datatype Transaction = Transaction(id: string, name: string, amount: int, date: Date,
                                     category: string, kind: string, notes: string)

  /** A budget as `addBudget` builds it; `spent` is recomputed from the transactions. */
  datatype Budget = Budget(id: string, category: string, amount: int, period: string, spent: int)

  /** The currencies the page can show, with their symbols. */
  const CurrencySymbols: map<string, string> :=
    map["USD" := "$", "EUR" := "\U{20AC}", "GBP" := "\U{A3}", "JPY" := "\U{A5}", "INR" := "\U{20B9}"]

  function Abs(x: int): (r: nat)
    ensures r == x || r == -x
  {
    if x < 0 then -x else x
  }

  // ---------------------------------------------------------------- adding

  /** The amount `addTransaction` stores: the magnitude, positive for income and negative otherwise. */
  function StoredAmount(kind: string, amount: int): (r: int)
    ensures Abs(r) == Abs(amount)
    ensures kind == "income" ==> r >= 0
    ensures kind != "income" ==> r <= 0
  {
    if kind == "income" then Abs(amount) else -(Abs(amount) as int)
  }

  // ---------------------------------------------------------------- deleting

  function IdIsNot(id: string): Transaction -> bool {
    (t: Transaction) => t.id != id
  }

  function BudgetIdIsNot(id: string): Budget -> bool {
    (b: Budget) => b.id != id
  }

  /** Deleting by id keeps every occurrence of a record with another id and none with this one. */
  lemma {:induction false} DeleteKeepsOthers(ts: seq<Transaction>, id: string, t: Transaction)
    ensures multiset(Filter(ts, IdIsNot(id)))[t] == if t.id != id then multiset(ts)[t] else 0
    ensures t in Filter(ts, IdIsNot(id)) <==> t in ts && t.id != id
  {
    FilterCounts(ts, IdIsNot(id), t);
  }

  /** The same for budgets. */
  lemma {:induction false} DeleteBudgetKeepsOthers(bs: seq<Budget>, id: string, b: Budget)
    ensures multiset(Filter(bs, BudgetIdIsNot(id)))[b] == if b.id != id then multiset(bs)[b] else 0
    ensures b in Filter(bs, BudgetIdIsNot(id)) <==> b in bs && b.id != id
  {
    FilterCounts(bs, BudgetIdIsNot(id), b);
  }

  // ---------------------------------------------------------------- summary

  datatype Summary = Summary(income: int, expenses: int, balance: int)

  function Amount(t: Transaction): int { t.amount }
  function Magnitude(t: Transaction): int { Abs(t.amount) }
  predicate IsIncome(t: Transaction) { t.amount > 0 }
  predicate IsExpense(t: Transaction) { t.amount < 0 }

  /**
   * `updateSummary`: income sums the positive amounts, expenses the magnitudes of
   * the negative ones. Both are non-negative and the balance is the signed total.
   */
  function SummaryOf(ts: seq<Transaction>): (r: Summary)
    ensures r.income >= 0 && r.expenses >= 0
    ensures r.balance == SumBy(ts, Amount)
    ensures r.balance == r.income - r.expenses
    ensures ts == [] ==> r == Summary(0, 0, 0)
  {
    var income := SumBy(Filter(ts, IsIncome), Amount);
    var expenses := SumBy(Filter(ts, IsExpense), Magnitude);
    SummaryParts(ts);
    Summary(income, expenses, income - expenses)
  }

  lemma {:induction false} SummaryParts(ts: seq<Transaction>)
    ensures SumBy(Filter(ts, IsIncome), Amount) >= 0
    ensures SumBy(Filter(ts, IsExpense), Magnitude) >= 0
    ensures SumBy(Filter(ts, IsIncome), Amount) - SumBy(Filter(ts, IsExpense), Magnitude) == SumBy(ts, Amount)
  {
    SumByFilter(ts, Amount, IsIncome);
    SumByFilter(ts, Magnitude, IsExpense);
    forall x | x in ts
      ensures Masked(Amount, IsIncome)(x) >= 0 && Masked(Magnitude, IsExpense)(x) >= 0
      ensures Amount(x) + Masked(Magnitude, IsExpense)(x) == Masked(Amount, IsIncome)(x)
    {
      var income, expense := Masked(Amount, IsIncome), Masked(Magnitude, IsExpense);
      assert income(x) == if IsIncome(x) then Amount(x) else 0;
      assert expense(x) == if IsExpense(x) then Magnitude(x) else 0;
    }
    SumByNonNegative(ts, Masked(Amount, IsIncome));
    SumByNonNegative(ts, Masked(Magnitude, IsExpense));
    SumByAdd(ts, Amount, Masked(Magnitude, IsExpense), Masked(Amount, IsIncome));
  }

  /** Each total of two lists together is the sum of the totals. */
  lemma {:induction false} SummaryAppend(a: seq<Transaction>, b: seq<Transaction>)
    ensures SummaryOf(a + b).income == SummaryOf(a).income + SummaryOf(b).income
    ensures SummaryOf(a + b).expenses == SummaryOf(a).expenses + SummaryOf(b).expenses
    ensures SummaryOf(a + b).balance == SummaryOf(a).balance + SummaryOf(b).balance
  {
    FilterAppend(a, b, IsIncome);
    FilterAppend(a, b, IsExpense);
    SumByAppend(Filter(a, IsIncome), Filter(b, IsIncome), Amount);
    SumByAppend(Filter(a, IsExpense), Filter(b, IsExpense), Magnitude);
  }

  /**
   * Adding a transaction moves exactly one total by its magnitude: income for an
   * income, expenses for anything else; a zero amount moves neither.
   */
  lemma {:induction false} SummaryAfterAdd(ts: seq<Transaction>, t: Transaction, kind: string, amount: int)
    requires t.amount == StoredAmount(kind, amount)
    ensures kind == "income" ==>
      SummaryOf([t] + ts) == Summary(SummaryOf(ts).income + Abs(amount), SummaryOf(ts).expenses,
                                     SummaryOf(ts).balance + Abs(amount))
    ensures kind != "income" ==>
      SummaryOf([t] + ts) == Summary(SummaryOf(ts).income, SummaryOf(ts).expenses + Abs(amount),
                                     SummaryOf(ts).balance - Abs(amount))
  {
    SummaryAppend([t], ts);
    SummaryOfOne(t);
  }

  /** The summary of a single transaction. */
  lemma {:induction false} SummaryOfOne(t: Transaction)
    ensures SummaryOf([t]) == Summary(if t.amount > 0 then t.amount else 0,
                                      if t.amount < 0 then -t.amount else 0, t.amount)
  {
    assert [t][..0] == [];
    assert Filter([t], IsIncome) == if IsIncome(t) then [t] else [];
    assert Filter([t], IsExpense) == if IsExpense(t) then [t] else [];
    assert SumBy([t], Amount) == t.amount;
    assert SumBy([t], Magnitude) == Abs(t.amount);
  }

  // ---------------------------------------------------------------- budgets

  /** `budgets.findIndex(b => b.category === category)`, with `None` for -1. */
  function FindBudget(bs: seq<Budget>, category: string): (r: Option<nat>)
    ensures r.Some? ==> r.value < |bs| && bs[r.value].category == category
    ensures r.Some? ==> forall j :: 0 <= j < r.value ==> bs[j].category != category
    ensures r.None? <==> forall j :: 0 <= j < |bs| ==> bs[j].category != category
  {
    if bs == [] then None
    else if bs[0].category == category then Some(0)
    else match FindBudget(bs[1..], category)
      case None =>
        assert forall j :: 1 <= j < |bs| ==> bs[j] == bs[1..][j - 1];
        None
      case Some(k) =>
        assert forall j :: 1 <= j < k + 1 ==> bs[j] == bs[1..][j - 1];
        Some(k + 1)
  }

  ghost predicate SameCategories(a: seq<Budget>, b: seq<Budget>) {
    |a| == |b| && forall j :: 0 <= j < |a| ==> a[j].category == b[j].category
  }

  lemma {:induction false} FindBudgetSameCategories(a: seq<Budget>, b: seq<Budget>, category: string)
    requires SameCategories(a, b)
    ensures FindBudget(a, category) == FindBudget(b, category)
  {
  }

  /** No two budgets share a category. */
  ghost predicate UniqueCategories(bs: seq<Budget>) {
    forall i, j :: 0 <= i < j < |bs| ==> bs[i].category != bs[j].category
  }

  /**
   * The budget list after `addBudget`: the first budget of the category gets the
   * new amount and period, or a budget with nothing spent is appended.
   */
  function Upserted(bs: seq<Budget>, id: string, category: string, amount: int, period: string): (r: seq<Budget>)
    ensures |r| == if FindBudget(bs, category).Some? then |bs| else |bs| + 1
    ensures forall j :: 0 <= j < |bs| ==>
      r[j].id == bs[j].id && r[j].category == bs[j].category && r[j].spent == bs[j].spent
    ensures forall j :: 0 <= j < |bs| && FindBudget(bs, category) != Some(j) ==> r[j] == bs[j]
    ensures FindBudget(r, category).Some?
    ensures r[FindBudget(r, category).value].amount == amount
    ensures r[FindBudget(r, category).value].period == period
    ensures FindBudget(bs, category).None? ==> r[|bs|] == Budget(id, category, amount, period, 0)
    ensures UniqueCategories(bs) ==> UniqueCategories(r)
  {
    match FindBudget(bs, category)
    case Some(i) =>
      var r := bs[i := bs[i].(amount := amount, period := period)];
      FindBudgetSameCategories(r, bs, category);
      r
    case None =>
      var r := bs + [Budget(id, category, amount, period, 0)];
      assert r[|bs|].category == category;
      r
  }

  /** A second upsert for the same category overwrites the first: the last amount and period win. */
  lemma {:induction false} UpsertTwice(bs: seq<Budget>, id1: string, id2: string, category: string,
                    amount1: int, amount2: int, period1: string, period2: string)
    ensures Upserted(Upserted(bs, id1, category, amount1, period1), id2, category, amount2, period2)
         == Upserted(bs, id1, category, amount2, period2)
  {
    var once := Upserted(bs, id1, category, amount1, period1);
    var k := FindBudget(once, category).value;
    match FindBudget(bs, category)
    case Some(i) =>
      FindBudgetSameCategories(once, bs, category);
    case None =>
      assert forall j :: 0 <= j < |bs| ==> once[j] == bs[j];
      assert k == |bs|;
  }

  /** The magnitude of an expense in `category`, and zero for anything else. */
  function ExpenseIn(category: string): Transaction -> int {
    (t: Transaction) => if t.amount < 0 && t.category == category then -t.amount else 0
  }

  /** The total spent in a category: what `updateBudgetProgress` adds up. */
  function CategorySpent(ts: seq<Transaction>, category: string): (r: int)
    ensures r >= 0
  {
    SumByNonNegative(ts, ExpenseIn(category));
    SumBy(ts, ExpenseIn(category))
  }

  /**
   * The `spent` that `updateBudgetProgress` leaves in budget `i`: `find` returns the
   * first budget of a category, so a later duplicate keeps zero.
   */
  function SpentFor(bs: seq<Budget>, i: nat, ts: seq<Transaction>): int
    requires i < |bs|
  {
    if FindBudget(bs, bs[i].category) == Some(i) then CategorySpent(ts, bs[i].category) else 0
  }

  /** The budget list after `updateBudgetProgress`. */
  function Recomputed(bs: seq<Budget>, ts: seq<Transaction>): (r: seq<Budget>)
    ensures |r| == |bs|
    ensures forall i :: 0 <= i < |bs| ==>
      r[i] == bs[i].(spent := r[i].spent) && r[i].spent >= 0
    ensures forall i :: 0 <= i < |bs| && FindBudget(bs, bs[i].category) == Some(i) ==>
      r[i].spent == CategorySpent(ts, bs[i].category)
    ensures forall i :: 0 <= i < |bs| && FindBudget(bs, bs[i].category) != Some(i) ==> r[i].spent == 0
    ensures UniqueCategories(bs) ==> forall i :: 0 <= i < |bs| ==> r[i].spent == CategorySpent(ts, bs[i].category)
  {
    seq(|bs|, i requires 0 <= i < |bs| => bs[i].(spent := SpentFor(bs, i, ts)))
  }

  /** Recomputing twice gives the same budgets as recomputing once. */
  lemma {:induction false} RecomputeIdempotent(bs: seq<Budget>, ts: seq<Transaction>)
    ensures Recomputed(Recomputed(bs, ts), ts) == Recomputed(bs, ts)
  {
    var once := Recomputed(bs, ts);
    forall c {
      FindBudgetSameCategories(once, bs, c);
    }
  }

  /** Income (any non-negative amount) never counts towards a budget. */
  lemma {:induction false} RecomputeIgnoresIncome(bs: seq<Budget>, ts: seq<Transaction>, t: Transaction)
    requires t.amount >= 0
    ensures Recomputed(bs, [t] + ts) == Recomputed(bs, ts)
  {
    forall c ensures CategorySpent([t] + ts, c) == CategorySpent(ts, c) {
      SumByAppend([t], ts, ExpenseIn(c));
      assert [t][..0] == [];
    }
  }

  /**
   * Deleting transactions lowers what a category has spent by exactly the expenses
   * removed from it, so it never raises it.
   */
  lemma {:induction false} DeleteNeverRaisesSpent(ts: seq<Transaction>, id: string, category: string)
    ensures CategorySpent(Filter(ts, IdIsNot(id)), category)
         == CategorySpent(ts, category) - CategorySpent(Filter(ts, Not(IdIsNot(id))), category)
    ensures CategorySpent(Filter(ts, IdIsNot(id)), category) <= CategorySpent(ts, category)
  {
    SumByFilterSplit(ts, ExpenseIn(category), IdIsNot(id));
    var removed := Filter(ts, Not(IdIsNot(id)));
    assert CategorySpent(removed, category) >= 0;
  }

  /** One more transaction of the fold in `updateBudgetProgress`. */
  lemma {:induction false} SpentForStep(bs: seq<Budget>, ts: seq<Transaction>, k: nat, j: nat)
    requires k < |ts| && j < |bs|
    ensures SpentFor(bs, j, ts[..k + 1]) == SpentFor(bs, j, ts[..k])
      + (if ts[k].amount < 0 && FindBudget(bs, ts[k].category) == Some(j) then -ts[k].amount else 0)
  {
    SumByStep(ts, k, ExpenseIn(bs[j].category));
  }

  /** `spent` is overwritten, so two lists that differ only there recompute to the same list. */
  lemma {:induction false} RecomputeIgnoresSpent(a: seq<Budget>, b: seq<Budget>, ts: seq<Transaction>)
    requires |a| == |b| && forall i :: 0 <= i < |a| ==> a[i] == b[i].(spent := 0)
    ensures Recomputed(a, ts) == Recomputed(b, ts)
  {
    assert SameCategories(a, b);
    forall i | 0 <= i < |a| ensures Recomputed(a, ts)[i] == Recomputed(b, ts)[i] {
      FindBudgetSameCategories(a, b, a[i].category);
    }
  }

  /** One expense charged to the first budget of its category, as the `forEach` in `updateBudgetProgress` does. */
  function Charged(bs: seq<Budget>, t: Transaction): seq<Budget> {
    if t.amount < 0 then
      match FindBudget(bs, t.category)
      case Some(i) => bs[i := bs[i].(spent := bs[i].spent + Abs(t.amount))]
      case None => bs
    else bs
  }

  /** The budgets once the first `k` transactions are charged to the zeroed budgets `bs`. */
  ghost predicate ChargedUpTo(budgets: seq<Budget>, bs: seq<Budget>, ts: seq<Transaction>, k: nat)
    requires k <= |ts|
  {
    |budgets| == |bs| && forall j :: 0 <= j < |bs| ==> budgets[j] == bs[j].(spent := SpentFor(bs, j, ts[..k]))
  }

  /** Before any transaction is charged, budgets with nothing spent are as charged as they can be. */
  lemma {:induction false} ChargedFromZero(bs: seq<Budget>, ts: seq<Transaction>)
    requires forall j :: 0 <= j < |bs| ==> bs[j].spent == 0
    ensures ChargedUpTo(bs, bs, ts, 0)
  {
    forall j | 0 <= j < |bs| ensures SpentFor(bs, j, ts[..0]) == 0 {
    }
  }

  /** Once every transaction is charged, the budgets are the recomputed ones. */
  lemma {:induction false} ChargedAll(budgets: seq<Budget>, bs: seq<Budget>, ts: seq<Transaction>)
    requires ChargedUpTo(budgets, bs, ts, |ts|)
    ensures budgets == Recomputed(bs, ts)
  {
    assert ts[..|ts|] == ts;
  }

  lemma {:induction false} ChargeStep(budgets: seq<Budget>, bs: seq<Budget>, ts: seq<Transaction>, k: nat)
    requires k < |ts| && ChargedUpTo(budgets, bs, ts, k)
    ensures ChargedUpTo(Charged(budgets, ts[k]), bs, ts, k + 1)
  {
    forall j | 0 <= j < |bs| {
      SpentForStep(bs, ts, k, j);
    }
    assert SameCategories(budgets, bs);
    FindBudgetSameCategories(budgets, bs, ts[k].category);
  }

  // ---------------------------------------------------------------- progress bar

  /**
   * The percentage `renderBudgets` shows: 100 when overspent, `spent / amount * 100`
   * otherwise. A zero budget that is not overspent divides by zero (NaN or an
   * infinity), shown as `None`.
   */
  function Percentage(spent: int, amount: int): (r: Option<real>)
    ensures spent > amount ==> r == Some(100.0)
    ensures r.None? <==> amount == 0 && spent <= 0
    ensures spent <= amount && amount != 0 ==> r == Some(spent as real / amount as real * 100.0)
    ensures 0 < amount ==> r.Some? && r.value <= 100.0
    ensures 0 <= spent && 0 < amount ==> 0.0 <= r.value
  {
    if spent > amount then Some(100.0)
    else if amount == 0 then None
    else Some(spent as real / amount as real * 100.0)
  }

  datatype Color = Green | Yellow | Red

  /** The bar colour: red from 85, yellow from 70; a comparison with NaN is false, so green. */
  function ProgressColor(p: Option<real>): (r: Color)
    ensures r == Red <==> p.Some? && p.value >= 85.0
    ensures r == Yellow <==> p.Some? && 70.0 <= p.value < 85.0
    ensures r == Green <==> p.None? || p.value < 70.0
  {
    if p.Some? && p.value >= 85.0 then Red
    else if p.Some? && p.value >= 70.0 then Yellow
    else Green
  }

  function Severity(c: Color): nat {
    match c
    case Green => 0
    case Yellow => 1
    case Red => 2
  }

  /** The colour never becomes less severe as the percentage grows. */
  lemma {:induction false} ProgressColorMonotone(p: real, q: real)
    requires p <= q
    ensures Severity(ProgressColor(Some(p))) <= Severity(ProgressColor(Some(q)))
  {
  }

  /** An overspent budget is always red, and a budget with nothing spent is green. */
  lemma {:induction false} OverspentIsRed(spent: int, amount: int)
    ensures spent > amount ==> ProgressColor(Percentage(spent, amount)) == Red
    ensures spent == 0 && amount > 0 ==> ProgressColor(Percentage(spent, amount)) == Green
  {
  }

  // ---------------------------------------------------------------- labels

  const CategoryLabels: map<string, string> := map[
    "salary" := "Salary",
    "freelance" := "Freelance",
    "investment" := "Investment",
    "gift" := "Gift",
    "other-income" := "Other Income",
    "food" := "Food & Dining",
    "transportation" := "Transportation",
    "housing" := "Housing & Rent",
    "utilities" := "Utilities",
    "entertainment" := "Entertainment",
    "shopping" := "Shopping",
    "health" := "Health & Medical",
    "education" := "Education",
    "personal" := "Personal Care",
    "travel" := "Travel",
    "debt" := "Debt Payment",
    "other-expense" := "Other Expense"
  ]

  /** `getCategoryLabel`: the table's label for a known category, the category itself otherwise. */
  function CategoryLabel(category: string): (r: string)
    ensures category in CategoryLabels ==> r == CategoryLabels[category]
    ensures category !in CategoryLabels ==> r == category
  {
    if category in CategoryLabels then CategoryLabels[category] else category
  }

  /** No label is itself a category key, so labelling a label changes nothing. */
  lemma {:induction false} CategoryLabelIdempotent(category: string)
    ensures CategoryLabel(CategoryLabel(category)) == CategoryLabel(category)
  {
    if category in CategoryLabels {
      var shown := CategoryLabels[category];
      LabelsCapitalised(category);
      if shown in CategoryLabels {
        KeysLowerCase(shown);
        assert false;
      }
    }
  }

  /** Every category key starts with a lower-case letter. */
  lemma {:induction false} KeysLowerCase(k: string)
    requires k in CategoryLabels
    ensures |k| > 0 && 'a' <= k[0] <= 'z'
  {
  }

  /** Every label starts with a capital letter. */
  lemma {:induction false} LabelsCapitalised(k: string)
    requires k in CategoryLabels
    ensures |CategoryLabels[k]| > 0 && 'A' <= CategoryLabels[k][0] <= 'Z'
  {
  }

  /** Two different known categories never share a label. */
  lemma {:induction false} CategoryLabelsDistinct(a: string, b: string)
    requires a in CategoryLabels && b in CategoryLabels && a != b
    ensures CategoryLabel(a) != CategoryLabel(b)
  {
  }

  // ---------------------------------------------------------------- table

  /** The rows `renderTransactions` keeps: all, or those of the chosen type. */
  function Shown(ts: seq<Transaction>, filter: string): (r: seq<Transaction>)
    ensures forall t :: multiset(r)[t] == if filter == "all" || t.kind == filter then multiset(ts)[t] else 0
  {
    if filter == "all" then ts
    else
      FilterMultiset(ts, KindIs(filter));
      Filter(ts, KindIs(filter))
  }

  function KindIs(kind: string): Transaction -> bool {
    (t: Transaction) => t.kind == kind
  }

  function DateAscending(t: Transaction): int { DayKey(t.date) }
  function DateDescending(t: Transaction): int { -DayKey(t.date) }
  function AmountAscending(t: Transaction): int { t.amount }
  function AmountDescending(t: Transaction): int { -t.amount }

  /** The comparator `renderTransactions` hands to `sort`: a negative result puts `a` first. */
  function Comparator(sort: string, a: Transaction, b: Transaction): int {
    match sort
    case "date-desc" => DayKey(b.date) - DayKey(a.date)
    case "date-asc" => DayKey(a.date) - DayKey(b.date)
    case "amount-desc" => b.amount - a.amount
    case "amount-asc" => a.amount - b.amount
    case _ => DayKey(b.date) - DayKey(a.date)
  }

  /** The comparator of each sort option as a key; any other option sorts newest first. */
  function SortKey(sort: string): (key: Transaction -> int)
    ensures forall a, b :: key(a) - key(b) == Comparator(sort, a, b)
  {
    if sort == "date-asc" then DateAscending
    else if sort == "amount-desc" then AmountDescending
    else if sort == "amount-asc" then AmountAscending
    else DateDescending
  }

  /**
   * The table `renderTransactions` builds from a copy of the list: exactly the rows
   * of the chosen type (or all), each as often as stored, ordered by the sort key.
   */
  function Visible(ts: seq<Transaction>, filter: string, sort: string): (r: seq<Transaction>)
    ensures multiset(r) == multiset(Shown(ts, filter))
    ensures SortedBy(r, SortKey(sort))
  {
    SortByKey(Shown(ts, filter), SortKey(sort))
  }

  /** A row is shown exactly when it is stored and passes the type filter. */
  lemma {:induction false} VisibleMembers(ts: seq<Transaction>, filter: string, sort: string, t: Transaction)
    ensures t in Visible(ts, filter, sort) <==> t in ts && (filter == "all" || t.kind == filter)
  {
    assert t in Visible(ts, filter, sort) <==> t in multiset(Shown(ts, filter));
    if filter != "all" {
      FilterCounts(ts, KindIs(filter), t);
    }
  }

  /** Rows with equal keys keep the order they have in the list (the sort is stable). */
  lemma {:induction false} VisibleStable(ts: seq<Transaction>, filter: string, sort: string, v: int)
    ensures Filter(Visible(ts, filter, sort), KeyIs(SortKey(sort), v))
         == Filter(Shown(ts, filter), KeyIs(SortKey(sort), v))
  {
    SortStable(Shown(ts, filter), SortKey(sort), v);
  }

  /** With the default order the table runs from the newest date to the oldest. */
  lemma {:induction false} VisibleNewestFirst(ts: seq<Transaction>, filter: string, sort: string)
    requires sort !in {"date-asc", "amount-desc", "amount-asc"}
    requires forall t :: t in ts ==> ValidDate(t.date)
    ensures forall i, j :: 0 <= i < j < |Visible(ts, filter, sort)| ==>
      OnOrBefore(Visible(ts, filter, sort)[j].date, Visible(ts, filter, sort)[i].date)
  {
    var r := Visible(ts, filter, sort);
    forall i, j | 0 <= i < j < |r| ensures OnOrBefore(r[j].date, r[i].date) {
      VisibleMembers(ts, filter, sort, r[i]);
      VisibleMembers(ts, filter, sort, r[j]);
      DayKeyOrder(r[j].date, r[i].date);
    }
  }

  // ---------------------------------------------------------------- import

  /** A parsed import file; `None` stands for a field that is missing or not an array. */
  datatype ImportDoc = ImportDoc(transactions: Option<seq<Transaction>>, budgets: Option<seq<Budget>>,
                                 currency: Option<string>)

  datatype ImportError = InvalidFormat

  // ---------------------------------------------------------------- state

  class BudgetApp {
    var transactions: seq<Transaction>
    var budgets: seq<Budget>
    var currency: string

    /** The selected currency is one the symbol table knows. */
    ghost predicate Valid()
      reads this
    {
      currency in CurrencySymbols
    }

    constructor ()
      ensures Valid()
      ensures transactions == [] && budgets == [] && currency == "USD"
    {
      transactions := [];
      budgets := [];
      currency := "USD";
    }

    /** What `exportData` writes: a document the import check accepts, carrying the whole state. */
    function Exported(): (doc: ImportDoc)
      reads this
      ensures doc.transactions.Some? && doc.budgets.Some? && doc.currency.Some?
      ensures Valid() ==> doc.currency.value in CurrencySymbols
      ensures doc.transactions.value == transactions && doc.budgets.value == budgets
    {
      ImportDoc(Some(transactions), Some(budgets), Some(currency))
    }

    /** `updateBudgetProgress`: zero every `spent`, then add each expense to the first budget of its category. */
    method UpdateBudgetProgress()
      modifies this
      ensures budgets == Recomputed(old(budgets), transactions)
      ensures transactions == old(transactions) && currency == old(currency)
    {
      ResetSpent();
      ghost var zeroed := budgets;
      ChargeExpenses();
      RecomputeIgnoresSpent(zeroed, old(budgets), transactions);
    }

    /** The first pass of `updateBudgetProgress`: every budget's `spent` goes back to zero. */
    method ResetSpent()
      modifies this
      ensures |budgets| == |old(budgets)|
      ensures forall j :: 0 <= j < |budgets| ==> budgets[j] == old(budgets)[j].(spent := 0)
      ensures transactions == old(transactions) && currency == old(currency)
    {
      var i := 0;
      while i < |budgets|
        invariant 0 <= i <= |budgets| == |old(budgets)|
        invariant transactions == old(transactions) && currency == old(currency)
        invariant forall j :: 0 <= j < |budgets| ==>
          budgets[j] == if j < i then old(budgets)[j].(spent := 0) else old(budgets)[j]
      {
        budgets := budgets[i := budgets[i].(spent := 0)];
        i := i + 1;
      }
    }

    /**
     * The second pass of `updateBudgetProgress`: each expense is charged to the first
     * budget of its category, starting from budgets with nothing spent.
     */
    method ChargeExpenses()
      requires forall j :: 0 <= j < |budgets| ==> budgets[j].spent == 0
      modifies this
      ensures budgets == Recomputed(old(budgets), transactions)
      ensures transactions == old(transactions) && currency == old(currency)
    {
      ghost var bs0 := budgets;
      var k := 0;
      ChargedFromZero(bs0, transactions);
      while k < |transactions|
        invariant 0 <= k <= |transactions|
        invariant transactions == old(transactions) && currency == old(currency)
        invariant ChargedUpTo(budgets, bs0, transactions, k)
      {
        ChargeStep(budgets, bs0, transactions, k);
        ChargeOne(transactions[k]);
        k := k + 1;
      }
      ChargedAll(budgets, bs0, transactions);
    }

    /** The callback of that pass: an expense adds its magnitude to the first budget of its category. */
    method ChargeOne(t: Transaction)
      modifies this
      ensures budgets == Charged(old(budgets), t)
      ensures transactions == old(transactions) && currency == old(currency)
    {
      if t.amount < 0 {
        var found := FindBudget(budgets, t.category);
        if found.Some? {
          var b := budgets[found.value];
          budgets := budgets[found.value := b.(spent := b.spent + Abs(t.amount))];
        }
      }
    }

    /** `addTransaction`: puts the new record in front, then recomputes the budgets. */
    method AddTransaction(id: string, name: string, amount: int, date: Date, category: string,
                          kind: string, notes: string)
      modifies this
      ensures transactions == [Transaction(id, name, StoredAmount(kind, amount), date, category, kind, notes)]
                              + old(transactions)
      ensures budgets == Recomputed(old(budgets), transactions)
      ensures currency == old(currency)
    {
      transactions := [Transaction(id, name, StoredAmount(kind, amount), date, category, kind, notes)] + transactions;
      UpdateBudgetProgress();
    }

    /** `deleteTransaction`: after confirmation, keeps the records with another id and recomputes the budgets. */
    method DeleteTransaction(id: string, confirmed: bool)
      modifies this
      ensures confirmed ==> transactions == Filter(old(transactions), IdIsNot(id))
      ensures confirmed ==> budgets == Recomputed(old(budgets), transactions)
      ensures !confirmed ==> transactions == old(transactions) && budgets == old(budgets)
      ensures currency == old(currency)
    {
      if confirmed {
        transactions := Filter(transactions, IdIsNot(id));
        UpdateBudgetProgress();
      }
    }

    /**
     * `addBudget`: overwrites amount and period of the first budget of the category
     * in place, or appends a new one; then recomputes the budgets.
     */
    method AddBudget(id: string, category: string, amount: int, period: string)
      modifies this
      ensures budgets == Recomputed(Upserted(old(budgets), id, category, amount, period), transactions)
      ensures transactions == old(transactions) && currency == old(currency)
    {
      ghost var upserted := Upserted(budgets, id, category, amount, period);
      var existing := FindBudget(budgets, category);
      if existing.Some? {
        var i := existing.value;
        budgets := budgets[i := budgets[i].(amount := amount, period := period)];
      } else {
        budgets := budgets + [Budget(id, category, amount, period, 0)];
      }
      assert budgets == upserted;
      UpdateBudgetProgress();
    }

    /** `deleteBudget`: after confirmation, keeps the budgets with another id. */
    method DeleteBudget(id: string, confirmed: bool)
      modifies this
      ensures confirmed ==> budgets == Filter(old(budgets), BudgetIdIsNot(id))
      ensures !confirmed ==> budgets == old(budgets)
      ensures transactions == old(transactions) && currency == old(currency)
    {
      if confirmed {
        budgets := Filter(budgets, BudgetIdIsNot(id));
      }
    }

    /**
     * The part of `importData` after parsing: a file without both arrays is
     * rejected and nothing changes; otherwise, once confirmed, both lists are
     * replaced and the currency is taken when the symbol table knows it.
     */
    method ImportData(doc: ImportDoc, confirmed: bool) returns (r: Result<bool, ImportError>)
      requires Valid()
      modifies this
      ensures Valid()
      ensures r == Err(InvalidFormat) <==> doc.transactions.None? || doc.budgets.None?
      ensures r != Ok(true) ==>
        transactions == old(transactions) && budgets == old(budgets) && currency == old(currency)
      ensures r == Ok(true) <==> r.Ok? && confirmed
      ensures r == Ok(true) ==>
        && transactions == doc.transactions.value && budgets == doc.budgets.value
        && currency == (if doc.currency.Some? && doc.currency.value in CurrencySymbols
                        then doc.currency.value else old(currency))
      ensures doc == old(Exported()) ==>
        transactions == old(transactions) && budgets == old(budgets) && currency == old(currency)
    {
      if doc.transactions.None? || doc.budgets.None? {
        return Err(InvalidFormat);
      }
      if !confirmed {
        return Ok(false);
      }
      transactions := doc.transactions.value;
      budgets := doc.budgets.value;
      if doc.currency.Some? && doc.currency.value in CurrencySymbols {
        currency := doc.currency.value;
      }
      r := Ok(true);
    }

    /** `confirmClearData`: after confirmation both lists are empty. */
    method ConfirmClearData(confirmed: bool)
      modifies this
      ensures confirmed ==> transactions == [] && budgets == []
      ensures !confirmed ==> transactions == old(transactions) && budgets == old(budgets)
      ensures currency == old(currency)
    {
      if confirmed {
        transactions := [];
        budgets := [];
      }
    }
  }
}

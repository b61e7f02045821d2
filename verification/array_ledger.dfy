/**
 * The ledger of js/app.js: a closure-level `transactions` array with no database,
 * filled from the form, shown filtered and sorted, summarised, and converted
 * between currencies with a fixed rate table.
 */
module ArrayLedger {
  import opened Wrappers
  import opened Calendar
  import opened Seqs

  /** A transaction as the submit handler builds it; `amount` is as entered (cents). */
  datatype Transaction = Transaction(id: int, name: string, amount: int, date: Date,
                                     category: string, kind: string)

  /** The form fields; `None` is an empty amount or date field. */
  datatype Form = Form(name: string, amount: Option<int>, date: Option<Date>, category: string)

  datatype FormError = MissingField

  /** `part` occurs in `s` starting at index `i`. */
  predicate OccursAt(s: string, part: string, i: nat) {
    i + |part| <= |s| && s[i..i + |part|] == part
  }

  /** Whether `part` occurs in `s` (`String.prototype.includes`). */
  function Contains(s: string, part: string): (r: bool)
    ensures r <==> exists i: nat :: OccursAt(s, part, i)
    decreases |s|
  {
    if |s| < |part| then false
    else if s[..|part|] == part then
      assert OccursAt(s, part, 0);
      true
    else
      assert forall i: nat :: OccursAt(s, part, i + 1) <==> OccursAt(s[1..], part, i) by {
        forall i: nat ensures OccursAt(s, part, i + 1) <==> OccursAt(s[1..], part, i) {
          if i + 1 + |part| <= |s| {
            var here, there := s[i + 1..i + 1 + |part|], s[1..][i..i + |part|];
            assert forall j :: 0 <= j < |here| ==> here[j] == there[j];
            assert here == there;
          }
        }
      }
      assert !OccursAt(s, part, 0);
      assert (exists i: nat :: OccursAt(s, part, i)) ==> exists i: nat :: OccursAt(s[1..], part, i) by {
        if exists i: nat :: OccursAt(s, part, i) {
          var i: nat :| OccursAt(s, part, i);
          assert i >= 1 && OccursAt(s[1..], part, i - 1);
        }
      }
      Contains(s[1..], part)
  }

  /** The categories counted as income besides those whose name mentions "income". */
  const IncomeCategories: set<string> := {"salary", "freelance", "investment", "gift"}

  /** The type the submit handler gives a category. */
  function InferKind(category: string): (r: string)
    ensures r == "income" || r == "expense"
    ensures r == "income" <==> Contains(category, "income") || category in IncomeCategories
  {
    if Contains(category, "income") || category in IncomeCategories then "income" else "expense"
  }

  /** Some categories of the page's list and the type they get. */
  lemma {:induction false} InferKindExamples()
    ensures InferKind("other-income") == "income"
    ensures InferKind("salary") == "income"
    ensures InferKind("food") == "expense"
    ensures InferKind("") == "expense"
  {
    assert OccursAt("other-income", "income", 6);
  }

  /** All four required fields are filled in. */
  function Complete(form: Form): (ok: bool)
    ensures !ok <==> form.name == "" || form.amount.None? || form.date.None? || form.category == ""
  {
    form.name != "" && form.amount.Some? && form.date.Some? && form.category != ""
  }

  function IdIsNot(id: int): Transaction -> bool {
    (t: Transaction) => t.id != id
  }

  function KindIs(kind: string): Transaction -> bool {
    (t: Transaction) => t.kind == kind
  }

  /** Deleting by id keeps every occurrence of a record with another id and none with this one. */
  lemma {:induction false} DeleteKeepsOthers(ts: seq<Transaction>, id: int, t: Transaction)
    ensures multiset(Filter(ts, IdIsNot(id)))[t] == if t.id != id then multiset(ts)[t] else 0
    ensures t in Filter(ts, IdIsNot(id)) <==> t in ts && t.id != id
  {
    FilterCounts(ts, IdIsNot(id), t);
  }

  /**
   * When every record is "income" or "expense", the two type filters split the
   * list: together they hold each record exactly as often as the list does.
   */
  lemma {:induction false} TypeViewsSplit(ts: seq<Transaction>)
    requires forall t :: t in ts ==> t.kind == "income" || t.kind == "expense"
    ensures multiset(Filter(ts, KindIs("income"))) + multiset(Filter(ts, KindIs("expense"))) == multiset(ts)
  {
    var income, expense := multiset(Filter(ts, KindIs("income"))), multiset(Filter(ts, KindIs("expense")));
    FilterMultiset(ts, KindIs("income"));
    FilterMultiset(ts, KindIs("expense"));
    forall t ensures (income + expense)[t] == multiset(ts)[t] {
      if t.kind != "income" && t.kind != "expense" {
        assert t !in ts;
      }
    }
  }

  // ---------------------------------------------------------------- sorting

  function DateAscending(t: Transaction): int { DayKey(t.date) }
  function DateDescending(t: Transaction): int { -DayKey(t.date) }
  function AmountAscending(t: Transaction): int { t.amount }
  function AmountDescending(t: Transaction): int { -t.amount }

  /** The comparator `refreshTransactions` hands to `sort`; the `switch` has no default. */
  function Comparator(sort: string, a: Transaction, b: Transaction): Option<int> {
    match sort
    case "date-desc" => Some(DayKey(b.date) - DayKey(a.date))
    case "date-asc" => Some(DayKey(a.date) - DayKey(b.date))
    case "amount-desc" => Some(b.amount - a.amount)
    case "amount-asc" => Some(a.amount - b.amount)
    case _ => None
  }

  /** The comparator of a sort option as a key; an option outside the four sorts nothing. */
  function SortKey(sort: string): (r: Option<Transaction -> int>)
    ensures forall a, b :: r.Some? <==> Comparator(sort, a, b).Some?
    ensures r.Some? ==> forall a, b :: r.value(a) - r.value(b) == Comparator(sort, a, b).value
  {
    if sort == "date-desc" then Some(DateDescending)
    else if sort == "date-asc" then Some(DateAscending)
    else if sort == "amount-desc" then Some(AmountDescending)
    else if sort == "amount-asc" then Some(AmountAscending)
    else None
  }

  /** The list as `refreshTransactions` orders it: a stable sort by the option's key, or untouched. */
  function Ordered(ts: seq<Transaction>, sort: string): (r: seq<Transaction>)
    ensures multiset(r) == multiset(ts)
    ensures SortKey(sort).Some? ==> SortedBy(r, SortKey(sort).value)
    ensures SortKey(sort).None? ==> r == ts
  {
    match SortKey(sort)
    case None => ts
    case Some(key) => SortByKey(ts, key)
  }

  /** Rows with equal keys keep the order they had. */
  lemma {:induction false} OrderedStable(ts: seq<Transaction>, sort: string, v: int)
    requires SortKey(sort).Some?
    ensures Filter(Ordered(ts, sort), KeyIs(SortKey(sort).value, v)) == Filter(ts, KeyIs(SortKey(sort).value, v))
  {
    SortStable(ts, SortKey(sort).value, v);
  }

  // ---------------------------------------------------------------- summary

  datatype Summary = Summary(income: int, expenses: int, balance: int)

  function IncomeAmount(t: Transaction): int {
    if t.kind == "income" then t.amount else 0
  }

  function OtherAmount(t: Transaction): int {
    if t.kind == "income" then 0 else t.amount
  }

  /** The signed amount the exported report adds up for its balance. */
  function SignedAmount(t: Transaction): int {
    if t.kind == "income" then t.amount else -t.amount
  }

  /**
   * `updateFinancialSummary`: amounts of type "income" are income, every other
   * amount is an expense; the balance equals the signed total of the list.
   */
  function FinancialSummary(ts: seq<Transaction>): (r: Summary)
    ensures r.balance == r.income - r.expenses
    ensures r.balance == SumBy(ts, SignedAmount)
    ensures r.income + r.expenses == SumBy(ts, (t: Transaction) => t.amount)
    ensures ts == [] ==> r == Summary(0, 0, 0)
  {
    var income := SumBy(ts, IncomeAmount);
    var expenses := SumBy(ts, OtherAmount);
    SummaryParts(ts);
    Summary(income, expenses, income - expenses)
  }

  function NegatedOther(t: Transaction): int {
    -OtherAmount(t)
  }

  lemma {:induction false} SummaryParts(ts: seq<Transaction>)
    ensures SumBy(ts, IncomeAmount) + SumBy(ts, OtherAmount) == SumBy(ts, (t: Transaction) => t.amount)
    ensures SumBy(ts, IncomeAmount) - SumBy(ts, OtherAmount) == SumBy(ts, SignedAmount)
  {
    SumByAdd(ts, IncomeAmount, OtherAmount, (t: Transaction) => t.amount);
    SumByAdd(ts, OtherAmount, NegatedOther, (t: Transaction) => 0);
    SumByAdd(ts, IncomeAmount, NegatedOther, SignedAmount);
    SumByZero(ts);
  }

  lemma {:induction false} SumByZero(ts: seq<Transaction>)
    ensures SumBy(ts, (t: Transaction) => 0) == 0
    decreases |ts|
  {
    if ts != [] {
      SumByZero(ts[..|ts| - 1]);
    }
  }

  /** The totals of two lists together are the sums of their totals. */
  lemma {:induction false} FinancialSummaryAppend(a: seq<Transaction>, b: seq<Transaction>)
    ensures FinancialSummary(a + b) == Summary(
      FinancialSummary(a).income + FinancialSummary(b).income,
      FinancialSummary(a).expenses + FinancialSummary(b).expenses,
      FinancialSummary(a).balance + FinancialSummary(b).balance)
  {
    SumByAppend(a, b, IncomeAmount);
    SumByAppend(a, b, OtherAmount);
  }

  // ---------------------------------------------------------------- currencies

  /** Units of each currency per US dollar. */
  const ConversionRates: map<string, real> :=
    map["USD" := 1.0, "EUR" := 0.92, "GBP" := 0.80, "JPY" := 134.50, "INR" := 82.50]

  lemma {:induction false} RatesPositive()
    ensures forall c :: c in ConversionRates ==> ConversionRates[c] > 0.0
  {
  }

  /**
   * `convertAmount`: through US dollars. A currency missing from the table makes
   * the result NaN, shown as `None`.
   */
  function ConvertAmount(amount: real, from: string, to: string): (r: Option<real>)
    ensures r.Some? <==> from in ConversionRates && to in ConversionRates
    ensures from == "USD" && to in ConversionRates ==> r == Some(amount * ConversionRates[to])
  {
    RatesPositive();
    if from in ConversionRates && to in ConversionRates then
      Some(amount / ConversionRates[from] * ConversionRates[to])
    else None
  }

  /** Converting into the same currency changes nothing. */
  lemma {:induction false} ConvertIdentity(amount: real, currency: string)
    requires currency in ConversionRates
    ensures ConvertAmount(amount, currency, currency) == Some(amount)
  {
    RatesPositive();
    ScaleRoundTrip(amount, ConversionRates[currency], ConversionRates[currency]);
  }

  /** Converting there and back returns the original amount. */
  lemma {:induction false} ConvertRoundTrip(amount: real, from: string, to: string)
    requires from in ConversionRates && to in ConversionRates
    ensures ConvertAmount(ConvertAmount(amount, from, to).value, to, from) == Some(amount)
  {
    RatesPositive();
    ScaleRoundTrip(amount, ConversionRates[from], ConversionRates[to]);
  }

  /** Dividing by one positive rate and multiplying by another is undone by the reverse. */
  lemma {:induction false} ScaleRoundTrip(x: real, f: real, t: real)
    requires f > 0.0 && t > 0.0
    ensures x / f * t / t * f == x
    ensures x / f * f == x
  {
    var y := x / f;
    assert y * t / t == y;
    assert y * f == x;
  }

  // ---------------------------------------------------------------- state

  class Ledger {
    var transactions: seq<Transaction>

    /** Every stored transaction has one of the two types the form gives. */
    ghost predicate Valid()
      reads this
    {
      forall t :: t in transactions ==> t.kind == "income" || t.kind == "expense"
    }

    constructor ()
      ensures Valid() && transactions == []
    {
      transactions := [];
    }

    /**
     * The submit handler: a form with an empty required field is refused and the
     * list stays as it was; otherwise one transaction is appended at the end.
     */
    method Submit(id: int, form: Form) returns (r: Result<(), FormError>)
      requires Valid()
      modifies this
      ensures Valid()
      ensures r.Ok? <==> Complete(form)
      ensures r.Err? ==> transactions == old(transactions)
      ensures r.Ok? ==> (transactions == old(transactions)
        + [Transaction(id, form.name, form.amount.value, form.date.value, form.category, InferKind(form.category))])
    {
      var kind := InferKind(form.category);
      if !Complete(form) {
        return Err(MissingField);
      }
      transactions := transactions
        + [Transaction(id, form.name, form.amount.value, form.date.value, form.category, kind)];
      r := Ok(());
    }

    /**
     * `refreshTransactions`: with the filter "all" the working list is the stored
     * array itself, so sorting reorders the store; any other filter sorts a copy of
     * the matching rows. Returns the rows shown.
     */
    method Refresh(filter: string, sort: string) returns (shown: seq<Transaction>)
      requires Valid()
      modifies this
      ensures Valid()
      ensures multiset(transactions) == multiset(old(transactions))
      ensures filter == "all" ==> transactions == Ordered(old(transactions), sort) && shown == transactions
      ensures filter != "all" ==>
        transactions == old(transactions) && shown == Ordered(Filter(transactions, KindIs(filter)), sort)
      ensures forall t :: t in shown <==> t in transactions && (filter == "all" || t.kind == filter)
    {
      if filter == "all" {
        transactions := Ordered(transactions, sort);
        shown := transactions;
        forall t | t in transactions ensures t in old(transactions) {
          assert t in multiset(transactions);
        }
      } else {
        shown := Ordered(Filter(transactions, KindIs(filter)), sort);
        forall t ensures t in shown <==> t in transactions && t.kind == filter {
          FilterCounts(transactions, KindIs(filter), t);
          assert t in shown <==> t in multiset(Filter(transactions, KindIs(filter)));
        }
      }
    }

    /** `deleteTransaction`: keeps exactly the records with another id, in order. */
    method DeleteTransaction(id: int)
      requires Valid()
      modifies this
      ensures Valid()
      ensures transactions == Filter(old(transactions), IdIsNot(id))
    {
      transactions := Filter(transactions, IdIsNot(id));
      forall t | t in transactions ensures t in old(transactions) {
        DeleteKeepsOthers(old(transactions), id, t);
      }
    }

    /** `clearData`: after confirmation the list is empty. */
    method ClearData(confirmed: bool)
      requires Valid()
      modifies this
      ensures Valid()
      ensures confirmed ==> transactions == []
      ensures !confirmed ==> transactions == old(transactions)
    {
      if confirmed {
        transactions := [];
      }
    }
  }
}

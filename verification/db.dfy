/**
 * `BudgetDatabase` of js/db.js: the same two object stores as js/database.js,
 * with `async` methods that throw when nobody is logged in, `put` semantics for
 * budgets, and filters for date ranges and categories.
 */
module Db {
  import opened Wrappers
  import opened Calendar
  import opened Seqs
  import opened ObjectStore
  import opened StoreRecords

  /**
   * "User not logged in", "Unauthorized to ...", and the record that is not
   * there: the source reads `.userId` of `undefined`, the callback throws a
   * TypeError, and the returned promise never settles.
   */
  datatype StoreError = Unauthenticated | Forbidden | MissingRecord

  datatype Totals = Totals(totalIncome: int, totalExpenses: int)

  /** A budget as handed to `setBudget`; `id` is present when it replaces a stored budget. */
  datatype BudgetInput = BudgetInput(id: Option<int>, category: string, amount: int)

  /** A record's contribution to the expense total: its amount when its type is "expense". */
  function ExpenseAmount(t: Transaction): int {
    if t.kind == "expense" then t.amount else 0
  }

  /** A record whose type is neither "income" nor "expense". */
  predicate Untyped(t: Transaction) {
    t.kind != "income" && t.kind != "expense"
  }

  /** The records of one type. */
  function TypeIs(kind: string): Transaction -> bool {
    (t: Transaction) => t.kind == kind
  }

  /**
   * The `reduce` of `getTransactionsSummary`: the amounts of the "income" records
   * and of the "expense" records, each added up; zero for no records.
   */
  function SummaryOf(ts: seq<Transaction>): (r: Totals)
    ensures r.totalIncome == SumBy(Filter(ts, TypeIs("income")), AmountOf)
    ensures r.totalExpenses == SumBy(Filter(ts, TypeIs("expense")), AmountOf)
    ensures ts == [] ==> r == Totals(0, 0)
  {
    TypedTotal(ts, IncomeAmount, "income");
    TypedTotal(ts, ExpenseAmount, "expense");
    Totals(SumBy(ts, IncomeAmount), SumBy(ts, ExpenseAmount))
  }

  /** Adding up one type's amounts is adding up the amounts of that type's records. */
  lemma {:induction false} TypedTotal(ts: seq<Transaction>, f: Transaction -> int, kind: string)
    requires forall t :: f(t) == if t.kind == kind then t.amount else 0
    ensures SumBy(ts, f) == SumBy(Filter(ts, TypeIs(kind)), AmountOf)
  {
    SumByFilter(ts, AmountOf, TypeIs(kind));
    SumByPointwise(ts, f, Masked(AmountOf, TypeIs(kind)));
  }

  /**
   * The totals of two lists together are the sums of their totals, and a record of
   * any other type moves neither total.
   */
  lemma {:induction false} SummaryAppend(a: seq<Transaction>, b: seq<Transaction>)
    ensures SummaryOf(a + b) == Totals(SummaryOf(a).totalIncome + SummaryOf(b).totalIncome,
                                       SummaryOf(a).totalExpenses + SummaryOf(b).totalExpenses)
    ensures (forall t :: t in b ==> Untyped(t)) ==> SummaryOf(a + b) == SummaryOf(a)
  {
    SumByAppend(a, b, IncomeAmount);
    SumByAppend(a, b, ExpenseAmount);
    if forall t :: t in b ==> Untyped(t) {
      UntypedSumsToZero(b);
    }
  }

  lemma {:induction false} UntypedSumsToZero(b: seq<Transaction>)
    requires forall t :: t in b ==> Untyped(t)
    ensures SummaryOf(b) == Totals(0, 0)
    decreases |b|
  {
    if b != [] {
      var n := |b| - 1;
      assert forall t :: t in b[..n] ==> t in b;
      assert b[n] in b;
      UntypedSumsToZero(b[..n]);
    }
  }

  /** Every "income" or "expense" amount is counted in exactly one total, and nothing else is. */
  lemma {:induction false} SummaryCountsTypedRecords(ts: seq<Transaction>)
    ensures SummaryOf(ts).totalIncome + SummaryOf(ts).totalExpenses
         == SumBy(Filter(ts, Not(Untyped)), AmountOf)
  {
    var typed := (t: Transaction) => if Untyped(t) then 0 else t.amount;
    SumByAdd(ts, IncomeAmount, ExpenseAmount, typed);
    TypedAmounts(ts);
  }

  lemma {:induction false} TypedAmounts(ts: seq<Transaction>)
    ensures SumBy(ts, (t: Transaction) => if Untyped(t) then 0 else t.amount)
         == SumBy(Filter(ts, Not(Untyped)), AmountOf)
    decreases |ts|
  {
    if ts != [] {
      var n := |ts| - 1;
      TypedAmounts(ts[..n]);
      SumByAppend(Filter(ts[..n], Not(Untyped)), if Not(Untyped)(ts[n]) then [ts[n]] else [], AmountOf);
      assert [ts[n]][..0] == [];
    }
  }

  /** A transaction as `addTransaction` writes it: the input, the owner and a default date. */
  function Stamped(input: NewTransaction, id: int, user: string, today: Date): (r: Transaction)
    ensures r.id == id && r.userId == user && r.timestamp == None
    ensures FromInput(r, input, today)
  {
    Transaction(id, user, input.name, input.amount, input.kind, input.category,
      Pick(input.date, today), input.notes, None)
  }

  /** Both ends of the range are included. */
  predicate InRange(t: Transaction, start: Date, end: Date) {
    OnOrBefore(start, t.date) && OnOrBefore(t.date, end)
  }

  /** The test `getTransactionsByDateRange` filters with. */
  function DatedWithin(start: Date, end: Date): Transaction -> bool {
    (t: Transaction) => InRange(t, start, end)
  }

  /** The test `getTransactionsByCategory` filters with. */
  function InCategory(category: string): Transaction -> bool {
    (t: Transaction) => t.category == category
  }

  class BudgetDatabase {
    var transactions: map<int, Transaction>
    var budgets: map<int, Budget>
    /** The key generators of the two object stores. */
    var nextTransactionKey: int
    var nextBudgetKey: int
    /** `sessionStorage.getItem('loggedInUser')`. */
    var session: Option<string>

    ghost predicate Valid()
      reads this
    {
      && KeysBelow(transactions, nextTransactionKey)
      && KeysBelow(budgets, nextBudgetKey)
      && (forall k :: k in transactions ==> transactions[k].id == k)
      && (forall k :: k in budgets ==> budgets[k].id == k)
    }

    constructor (session: Option<string>)
      ensures Valid()
      ensures transactions == map[] && budgets == map[] && this.session == session
      ensures nextTransactionKey == 1 && nextBudgetKey == 1
    {
      transactions := map[];
      budgets := map[];
      nextTransactionKey := 1;
      nextBudgetKey := 1;
      this.session := session;
    }

    /** Writes the input under a fresh key with the caller as owner, and resolves with the key. */
    method AddTransaction(input: NewTransaction, today: Date) returns (r: Result<int, StoreError>)
      requires Valid()
      modifies this
      ensures Valid()
      ensures session == old(session) && budgets == old(budgets) && nextBudgetKey == old(nextBudgetKey)
      ensures LoggedIn(session).None? ==>
        r == Err(Unauthenticated) && transactions == old(transactions)
        && nextTransactionKey == old(nextTransactionKey)
      ensures LoggedIn(session).Some? ==>
        && r == Ok(old(nextTransactionKey)) && r.value !in old(transactions)
        && nextTransactionKey == old(nextTransactionKey) + 1
        && transactions == old(transactions)[r.value := Stamped(input, r.value, session.value, today)]
        && transactions[r.value].userId == session.value
    {
      var user := LoggedIn(session);
      if user.None? {
        return Err(Unauthenticated);
      }
      var key := nextTransactionKey;
      transactions := transactions[key := Stamped(input, key, user.value, today)];
      nextTransactionKey := nextTransactionKey + 1;
      r := Ok(key);
    }

    /** Resolves with exactly the caller's transactions, each once, in key order. */
    method GetTransactions() returns (r: Result<seq<Transaction>, StoreError>)
      requires Valid()
      ensures LoggedIn(session).None? ==> r == Err(Unauthenticated)
      ensures LoggedIn(session).Some? ==>
        && r == Ok(OwnedTransactions(transactions, session.value))
        && (forall t :: t in r.value <==> t in transactions.Values && t.userId == session.value)
        && StrictlyIncreasing(r.value, TransactionId)
    {
      var user := LoggedIn(session);
      if user.None? {
        return Err(Unauthenticated);
      }
      r := Ok(OwnedTransactions(transactions, user.value));
      forall t ensures t in r.value <==> t in transactions.Values && t.userId == user.value {
        OwnedTransactionsMembers(transactions, user.value, t);
      }
      OwnedTransactionsAscending(transactions, user.value);
    }

    /**
     * Merges the patch over the caller's record and writes it back under the same
     * key. Another user's record is `Forbidden`; a missing one is `MissingRecord`.
     */
    method UpdateTransaction(id: int, patch: TransactionPatch) returns (r: Result<int, StoreError>)
      requires Valid()
      modifies this
      ensures Valid()
      ensures session == old(session) && budgets == old(budgets)
      ensures nextTransactionKey == old(nextTransactionKey) && nextBudgetKey == old(nextBudgetKey)
      ensures LoggedIn(session).None? ==> r == Err(Unauthenticated)
      ensures LoggedIn(session).Some? && id !in old(transactions) ==> r == Err(MissingRecord)
      ensures (LoggedIn(session).Some? && id in old(transactions)
        && old(transactions)[id].userId != session.value) ==> r == Err(Forbidden)
      ensures r.Err? ==> transactions == old(transactions)
      ensures r.Ok? <==> (LoggedIn(session).Some? && id in old(transactions)
        && old(transactions)[id].userId == session.value)
      ensures r.Ok? ==>
        r.value == id && transactions == old(transactions)[id := Merge(old(transactions)[id], patch)]
    {
      var user := LoggedIn(session);
      if user.None? {
        return Err(Unauthenticated);
      }
      if id !in transactions {
        return Err(MissingRecord);
      }
      var t := transactions[id];
      if t.userId != user.value {
        return Err(Forbidden);
      }
      transactions := transactions[id := Merge(t, patch)];
      r := Ok(id);
    }

    /** Removes the caller's record `id`; only that key changes. */
    method DeleteTransaction(id: int) returns (r: Result<(), StoreError>)
      requires Valid()
      modifies this
      ensures Valid()
      ensures session == old(session) && budgets == old(budgets)
      ensures nextTransactionKey == old(nextTransactionKey) && nextBudgetKey == old(nextBudgetKey)
      ensures LoggedIn(session).None? ==> r == Err(Unauthenticated)
      ensures LoggedIn(session).Some? && id !in old(transactions) ==> r == Err(MissingRecord)
      ensures (LoggedIn(session).Some? && id in old(transactions)
        && old(transactions)[id].userId != session.value) ==> r == Err(Forbidden)
      ensures r.Err? ==> transactions == old(transactions)
      ensures r.Ok? <==> (LoggedIn(session).Some? && id in old(transactions)
        && old(transactions)[id].userId == session.value)
      ensures r.Ok? ==> transactions == old(transactions) - {id}
    {
      var user := LoggedIn(session);
      if user.None? {
        return Err(Unauthenticated);
      }
      if id !in transactions {
        return Err(MissingRecord);
      }
      if transactions[id].userId != user.value {
        return Err(Forbidden);
      }
      transactions := transactions - {id};
      r := Ok(());
    }

    /**
     * `store.put({...budget, userId})`: written under the budget's own key when it
     * has one (replacing whatever is stored there, whoever owned it), under a fresh
     * key otherwise; the owner is always the caller.
     */
    method SetBudget(budget: BudgetInput) returns (r: Result<int, StoreError>)
      requires Valid()
      modifies this
      ensures Valid()
      ensures session == old(session) && transactions == old(transactions)
      ensures nextTransactionKey == old(nextTransactionKey)
      ensures LoggedIn(session).None? ==>
        r == Err(Unauthenticated) && budgets == old(budgets) && nextBudgetKey == old(nextBudgetKey)
      ensures LoggedIn(session).Some? ==>
        && r.Ok?
        && (budget.id.Some? ==>
              r.value == budget.id.value && nextBudgetKey == BumpGenerator(old(nextBudgetKey), r.value))
        && (budget.id.None? ==>
              r == Ok(old(nextBudgetKey)) && r.value !in old(budgets)
              && nextBudgetKey == old(nextBudgetKey) + 1)
        && budgets == old(budgets)[r.value := Budget(r.value, session.value, budget.category, budget.amount)]
    {
      var user := LoggedIn(session);
      if user.None? {
        return Err(Unauthenticated);
      }
      var key: int;
      if budget.id.Some? {
        key := budget.id.value;
        nextBudgetKey := BumpGenerator(nextBudgetKey, key);
      } else {
        key := nextBudgetKey;
        nextBudgetKey := nextBudgetKey + 1;
      }
      budgets := budgets[key := Budget(key, user.value, budget.category, budget.amount)];
      r := Ok(key);
    }

    /** Resolves with exactly the caller's budgets, each once, in key order. */
    method GetBudgets() returns (r: Result<seq<Budget>, StoreError>)
      requires Valid()
      ensures LoggedIn(session).None? ==> r == Err(Unauthenticated)
      ensures LoggedIn(session).Some? ==>
        && r == Ok(OwnedBudgets(budgets, session.value))
        && (forall b :: b in r.value <==> b in budgets.Values && b.userId == session.value)
        && StrictlyIncreasing(r.value, BudgetId)
    {
      var user := LoggedIn(session);
      if user.None? {
        return Err(Unauthenticated);
      }
      r := Ok(OwnedBudgets(budgets, user.value));
      forall b ensures b in r.value <==> b in budgets.Values && b.userId == user.value {
        OwnedBudgetsMembers(budgets, user.value, b);
      }
      OwnedBudgetsAscending(budgets, user.value);
    }

    /** The income and expense totals of the caller's transactions. */
    method GetTransactionsSummary() returns (r: Result<Totals, StoreError>)
      requires Valid()
      ensures LoggedIn(session).None? ==> r == Err(Unauthenticated)
      ensures LoggedIn(session).Some? ==> r == Ok(SummaryOf(OwnedTransactions(transactions, session.value)))
    {
      var all := GetTransactions();
      if all.Err? {
        return Err(all.error);
      }
      r := Ok(SummaryOf(all.value));
    }

    /** The caller's transactions dated from `start` to `end`, both included. */
    method GetTransactionsByDateRange(start: Date, end: Date) returns (r: Result<seq<Transaction>, StoreError>)
      requires Valid()
      ensures LoggedIn(session).None? ==> r == Err(Unauthenticated)
      ensures LoggedIn(session).Some? ==>
        && r == Ok(Filter(OwnedTransactions(transactions, session.value), DatedWithin(start, end)))
        && (forall t :: t in r.value <==>
              t in transactions.Values && t.userId == session.value && InRange(t, start, end))
        && StrictlyIncreasing(r.value, TransactionId)
    {
      var all := GetTransactions();
      if all.Err? {
        return Err(all.error);
      }
      var p := DatedWithin(start, end);
      r := Ok(Filter(all.value, p));
      forall t ensures t in r.value <==> t in all.value && InRange(t, start, end) {
        FilterCounts(all.value, p, t);
      }
      FilterKeepsIncreasing(all.value, p, TransactionId);
    }

    /** The caller's transactions whose category equals `category`. */
    method GetTransactionsByCategory(category: string) returns (r: Result<seq<Transaction>, StoreError>)
      requires Valid()
      ensures LoggedIn(session).None? ==> r == Err(Unauthenticated)
      ensures LoggedIn(session).Some? ==>
        && r == Ok(Filter(OwnedTransactions(transactions, session.value), InCategory(category)))
        && (forall t :: t in r.value <==>
              t in transactions.Values && t.userId == session.value && t.category == category)
        && StrictlyIncreasing(r.value, TransactionId)
    {
      var all := GetTransactions();
      if all.Err? {
        return Err(all.error);
      }
      var p := InCategory(category);
      r := Ok(Filter(all.value, p));
      forall t ensures t in r.value <==> t in all.value && t.category == category {
        FilterCounts(all.value, p, t);
      }
      FilterKeepsIncreasing(all.value, p, TransactionId);
    }
  }
}

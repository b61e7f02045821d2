/**
 * `BudgetDatabase` of js/database.js: two IndexedDB object stores (transactions and
 * budgets, each with an auto-incrementing key) scoped to the logged-in user. The
 * promise callbacks become `Result` values, and every call resolves or rejects
 * before the next begins.
 */
module Database {
  import opened Wrappers
  import opened Calendar
  import opened Seqs
  import opened ObjectStore
  import opened StoreRecords

  /** The rejection reasons: "User not logged in", "Transaction not found", "Not authorized ...". */
  datatype StoreError = Unauthenticated | NotFound | Forbidden

  datatype Summary = Summary(income: int, expenses: int, balance: int)

  /** Every type other than "income" counts as an expense here. */
  function NonIncomeAmount(t: Transaction): int {
    if t.kind == "income" then 0 else t.amount
  }

  /** What `getTransactionSummary` accumulates over the caller's transactions. */
  function SummaryOf(ts: seq<Transaction>): (r: Summary)
    ensures r.balance == r.income - r.expenses
    ensures r.income + r.expenses == SumBy(ts, AmountOf)
    ensures ts == [] ==> r == Summary(0, 0, 0)
  {
    SumByAdd(ts, IncomeAmount, NonIncomeAmount, AmountOf);
    var income := SumBy(ts, IncomeAmount);
    var expenses := SumBy(ts, NonIncomeAmount);
    Summary(income, expenses, income - expenses)
  }

  /** The summary of two lists together is the field-wise sum of their summaries. */
  lemma {:induction false} SummaryAppend(a: seq<Transaction>, b: seq<Transaction>)
    ensures SummaryOf(a + b).income == SummaryOf(a).income + SummaryOf(b).income
    ensures SummaryOf(a + b).expenses == SummaryOf(a).expenses + SummaryOf(b).expenses
    ensures SummaryOf(a + b).balance == SummaryOf(a).balance + SummaryOf(b).balance
  {
    SumByAppend(a, b, IncomeAmount);
    SumByAppend(a, b, NonIncomeAmount);
  }

  /**
   * The `forEach` of `getTransactionSummary`: income and every other amount added
   * up one record at a time, then the balance.
   */
  method Accumulate(ts: seq<Transaction>) returns (summary: Summary)
    ensures summary == SummaryOf(ts)
  {
    var income, expenses := 0, 0;
    var i := 0;
    while i < |ts|
      invariant 0 <= i <= |ts|
      invariant income == SumBy(ts[..i], IncomeAmount)
      invariant expenses == SumBy(ts[..i], NonIncomeAmount)
    {
      if ts[i].kind == "income" {
        income := income + ts[i].amount;
      } else {
        expenses := expenses + ts[i].amount;
      }
      assert income == SumBy(ts[..i + 1], IncomeAmount) && expenses == SumBy(ts[..i + 1], NonIncomeAmount) by {
        SumByStep(ts, i, IncomeAmount);
        SumByStep(ts, i, NonIncomeAmount);
      }
      i := i + 1;
    }
    assert Summary(income, expenses, income - expenses) == SummaryOf(ts) by {
      assert ts[..|ts|] == ts;
    }
    summary := Summary(income, expenses, income - expenses);
  }

  /** At most one budget per (user, category): the invariant `setBudget` is meant to keep. */
  ghost predicate OneBudgetPerCategory(m: map<int, Budget>) {
    forall k1, k2 ::
      (k1 in m && k2 in m && m[k1].userId == m[k2].userId && m[k1].category == m[k2].category) ==> k1 == k2
  }

  /**
   * The budget store's invariant: every key lies below the generator, every budget
   * is filed under its own id, and each user has at most one budget per category.
   */
  ghost predicate BudgetStore(m: map<int, Budget>, next: int) {
    && KeysBelow(m, next)
    && (forall k :: k in m ==> m[k].id == k)
    && OneBudgetPerCategory(m)
  }

  /** Changing the amount of a stored budget keeps the store's invariant. */
  lemma {:induction false} AmountChangeKeepsOnePerCategory(m: map<int, Budget>, next: int, k: int, amount: int)
    requires k in m && BudgetStore(m, next)
    ensures BudgetStore(m[k := m[k].(amount := amount)], next)
  {
    var m' := m[k := m[k].(amount := amount)];
    forall k1, k2 | k1 in m' && k2 in m' && m'[k1].userId == m'[k2].userId && m'[k1].category == m'[k2].category
      ensures k1 == k2
    {
      assert m[k1].userId == m'[k1].userId && m[k1].category == m'[k1].category;
      assert m[k2].userId == m'[k2].userId && m[k2].category == m'[k2].category;
    }
  }

  /**
   * Writing a budget under the generator's next key, for a user and category that
   * have no budget yet, keeps the store's invariant once the generator moves on.
   */
  lemma {:induction false} NewBudgetKeepsOnePerCategory(m: map<int, Budget>, next: int, b: Budget)
    requires BudgetStore(m, next) && b.id == next
    requires forall k :: k in m ==> m[k].userId != b.userId || m[k].category != b.category
    ensures BudgetStore(m[next := b], next + 1)
  {
    var m' := m[next := b];
    forall k | k in m' ensures k < next + 1 && m'[k].id == k {
      if k != next {
        assert k in m;
      }
    }
  }

  /** The first of `keys` whose budget belongs to `user` and has `category`. */
  function FirstBudgetIn(keys: seq<int>, m: map<int, Budget>, user: string, category: string): (r: Option<int>)
    requires forall i :: 0 <= i < |keys| ==> keys[i] in m
    ensures r.Some? ==> r.value in keys && r.value in m && m[r.value].userId == user && m[r.value].category == category
    ensures r.None? ==> forall k :: k in keys ==> m[k].userId != user || m[k].category != category
  {
    if keys == [] then None
    else if m[keys[0]].userId == user && m[keys[0]].category == category then Some(keys[0])
    else FirstBudgetIn(keys[1..], m, user, category)
  }

  /** The caller's budget for `category`, if there is one (the lowest key, as an index lookup returns). */
  function BudgetFor(m: map<int, Budget>, user: string, category: string): (r: Option<int>)
    ensures r.Some? ==> r.value in m && m[r.value].userId == user && m[r.value].category == category
    ensures r.None? ==> forall k :: k in m ==> m[k].userId != user || m[k].category != category
  {
    FirstBudgetIn(AscendingKeys(m.Keys), m, user, category)
  }

  /** A transaction as `addTransaction` writes it: the input, the owner, a default date and the time stamp. */
  function Stamped(input: NewTransaction, id: int, user: string, today: Date, now: int): (r: Transaction)
    ensures r.id == id && r.userId == user && r.timestamp == Some(now)
    ensures FromInput(r, input, today)
  {
    Transaction(id, user, input.name, input.amount, input.kind, input.category,
      Pick(input.date, today), input.notes, Some(now))
  }

  /**
   * The corrected `setBudget` on the budget store: the user's budget for the
   * category gets the new amount under its own key, or, when there is none, a new
   * budget is written under the generator's next key.
   */
  function SavedBudget(m: map<int, Budget>, next: int, user: string, category: string, amount: int)
    : (r: SetBudgetOutcome)
    requires BudgetStore(m, next)
    ensures BudgetStore(r.budgets, r.nextKey)
    ensures r.key in r.budgets && r.budgets[r.key] == Budget(r.key, user, category, amount)
    ensures BudgetFor(m, user, category).Some? ==>
      && r.key == BudgetFor(m, user, category).value && r.nextKey == next
      && r.budgets == m[r.key := m[r.key].(amount := amount)]
    ensures BudgetFor(m, user, category).None? ==>
      && r.key == next && r.key !in m && r.nextKey == next + 1
      && r.budgets == m[r.key := Budget(r.key, user, category, amount)]
  {
    match BudgetFor(m, user, category)
    case Some(k) =>
      AmountChangeKeepsOnePerCategory(m, next, k, amount);
      SetBudgetOutcome(m[k := m[k].(amount := amount)], next, k)
    case None =>
      NewBudgetKeepsOnePerCategory(m, next, Budget(next, user, category, amount));
      SetBudgetOutcome(m[next := Budget(next, user, category, amount)], next + 1, next)
  }

  class BudgetDatabase {
    var transactions: map<int, Transaction>
    var budgets: map<int, Budget>
    /** The key generators of the two object stores. */
    var nextTransactionKey: int
    var nextBudgetKey: int
    /** `sessionStorage.getItem("loggedInUser")`. */
    var session: Option<string>

    ghost predicate Valid()
      reads this
    {
      && KeysBelow(transactions, nextTransactionKey)
      && (forall k :: k in transactions ==> transactions[k].id == k)
      && BudgetStore(budgets, nextBudgetKey)
    }

    /** Two empty stores whose generators start at 1, as a freshly created database has. */
    constructor (session: Option<string>)
      ensures Valid()
      ensures transactions == map[] && budgets == map[] && this.session == session
      ensures nextTransactionKey == 1 && nextBudgetKey == 1
    {
      transactions := map[];
      budgets := map[];
      nextTransactionKey := 1;
      nextBudgetKey := 1;
      this.session := session;
    }

    /** Writes the input under a fresh key, stamped with the caller, and resolves with the key. */
    method AddTransaction(input: NewTransaction, today: Date, now: int) returns (r: Result<int, StoreError>)
      requires Valid()
      modifies this
      ensures Valid()
      ensures session == old(session) && budgets == old(budgets) && nextBudgetKey == old(nextBudgetKey)
      ensures LoggedIn(session).None? ==>
        r == Err(Unauthenticated) && transactions == old(transactions)
        && nextTransactionKey == old(nextTransactionKey)
      ensures LoggedIn(session).Some? ==>
        && r == Ok(old(nextTransactionKey)) && r.value !in old(transactions)
        && nextTransactionKey == old(nextTransactionKey) + 1
        && transactions == old(transactions)[r.value := Stamped(input, r.value, session.value, today, now)]
        && transactions[r.value] in OwnedTransactions(transactions, session.value)
    {
      var user := LoggedIn(session);
      if user.None? {
        return Err(Unauthenticated);
      }
      var key := nextTransactionKey;
      var t := Stamped(input, key, user.value, today, now);
      FreshKeyWrite(transactions, key, t);
      transactions := transactions[key := t];
      nextTransactionKey := nextTransactionKey + 1;
      r := Ok(key);
      assert transactions[key] == t && t in transactions.Values;
      OwnedTransactionsMembers(transactions, user.value, t);
    }

    /** Resolves with exactly the caller's transactions, each once, in key order. */
    method GetTransactions() returns (r: Result<seq<Transaction>, StoreError>)
      requires Valid()
      ensures LoggedIn(session).None? ==> r == Err(Unauthenticated)
      ensures LoggedIn(session).Some? ==>
        && r == Ok(OwnedTransactions(transactions, session.value))
        && (forall t :: t in r.value <==> t in transactions.Values && t.userId == session.value)
        && StrictlyIncreasing(r.value, TransactionId)
    {
      var user := LoggedIn(session);
      if user.None? {
        return Err(Unauthenticated);
      }
      r := Ok(OwnedTransactions(transactions, user.value));
      forall t ensures t in r.value <==> t in transactions.Values && t.userId == user.value {
        OwnedTransactionsMembers(transactions, user.value, t);
      }
      OwnedTransactionsAscending(transactions, user.value);
    }

    /**
     * Merges the patch over the caller's own record `id`. A missing record is
     * `NotFound` and another user's record is `Forbidden`; neither changes anything.
     */
    method UpdateTransaction(id: int, patch: TransactionPatch) returns (r: Result<int, StoreError>)
      requires Valid()
      modifies this
      ensures Valid()
      ensures session == old(session) && budgets == old(budgets)
      ensures nextTransactionKey == old(nextTransactionKey) && nextBudgetKey == old(nextBudgetKey)
      ensures LoggedIn(session).None? ==> r == Err(Unauthenticated)
      ensures LoggedIn(session).Some? && id !in old(transactions) ==> r == Err(NotFound)
      ensures (LoggedIn(session).Some? && id in old(transactions)
        && old(transactions)[id].userId != session.value) ==> r == Err(Forbidden)
      ensures r.Err? ==> transactions == old(transactions)
      ensures r.Ok? <==> (LoggedIn(session).Some? && id in old(transactions)
        && old(transactions)[id].userId == session.value)
      ensures r.Ok? ==>
        r.value == id && transactions == old(transactions)[id := Merge(old(transactions)[id], patch)]
    {
      var user := LoggedIn(session);
      if user.None? {
        return Err(Unauthenticated);
      }
      if id !in transactions {
        return Err(NotFound);
      }
      var t := transactions[id];
      if t.userId != user.value {
        return Err(Forbidden);
      }
      transactions := transactions[id := Merge(t, patch)];
      r := Ok(id);
    }

    /** Removes the caller's own record `id`, with the same checks as an update. */
    method DeleteTransaction(id: int) returns (r: Result<(), StoreError>)
      requires Valid()
      modifies this
      ensures Valid()
      ensures session == old(session) && budgets == old(budgets)
      ensures nextTransactionKey == old(nextTransactionKey) && nextBudgetKey == old(nextBudgetKey)
      ensures LoggedIn(session).None? ==> r == Err(Unauthenticated)
      ensures LoggedIn(session).Some? && id !in old(transactions) ==> r == Err(NotFound)
      ensures (LoggedIn(session).Some? && id in old(transactions)
        && old(transactions)[id].userId != session.value) ==> r == Err(Forbidden)
      ensures r.Err? ==> transactions == old(transactions)
      ensures r.Ok? <==> (LoggedIn(session).Some? && id in old(transactions)
        && old(transactions)[id].userId == session.value)
      ensures r.Ok? ==> transactions == old(transactions) - {id}
    {
      var user := LoggedIn(session);
      if user.None? {
        return Err(Unauthenticated);
      }
      if id !in transactions {
        return Err(NotFound);
      }
      if transactions[id].userId != user.value {
        return Err(Forbidden);
      }
      transactions := transactions - {id};
      r := Ok(());
    }

    /** Income is the "income"-typed total, expenses everything else, balance their difference. */
    method GetTransactionSummary() returns (r: Result<Summary, StoreError>)
      ensures LoggedIn(session).None? ==> r == Err(Unauthenticated)
      ensures LoggedIn(session).Some? ==> r == Ok(SummaryOf(OwnedTransactions(transactions, session.value)))
    {
      var user := LoggedIn(session);
      if user.None? {
        return Err(Unauthenticated);
      }
      var summary := Accumulate(OwnedTransactions(transactions, user.value));
      r := Ok(summary);
    }

    /**
     * Sets the caller's budget for `category`: an existing one gets the new amount
     * and keeps its key, otherwise a new budget is written under a fresh key.
     */
    method SetBudget(category: string, amount: int) returns (r: Result<int, StoreError>)
      requires Valid()
      modifies this
      ensures Valid()
      ensures session == old(session) && transactions == old(transactions)
      ensures nextTransactionKey == old(nextTransactionKey)
      ensures LoggedIn(session).None? ==>
        r == Err(Unauthenticated) && budgets == old(budgets) && nextBudgetKey == old(nextBudgetKey)
      ensures LoggedIn(session).Some? && BudgetFor(old(budgets), session.value, category).Some? ==>
        var k := BudgetFor(old(budgets), session.value, category).value;
        && r == Ok(k) && budgets == old(budgets)[k := old(budgets)[k].(amount := amount)]
        && nextBudgetKey == old(nextBudgetKey)
      ensures LoggedIn(session).Some? && BudgetFor(old(budgets), session.value, category).None? ==>
        && r == Ok(old(nextBudgetKey)) && r.value !in old(budgets)
        && nextBudgetKey == old(nextBudgetKey) + 1
        && budgets == old(budgets)[r.value := Budget(r.value, session.value, category, amount)]
    {
      var user := LoggedIn(session);
      if user.None? {
        return Err(Unauthenticated);
      }
      var saved := SavedBudget(budgets, nextBudgetKey, user.value, category, amount);
      budgets, nextBudgetKey := saved.budgets, saved.nextKey;
      r := Ok(saved.key);
    }

    /** Resolves with exactly the caller's budgets, each once, in key order. */
    method GetBudgets() returns (r: Result<seq<Budget>, StoreError>)
      requires Valid()
      ensures LoggedIn(session).None? ==> r == Err(Unauthenticated)
      ensures LoggedIn(session).Some? ==>
        && r == Ok(OwnedBudgets(budgets, session.value))
        && (forall b :: b in r.value <==> b in budgets.Values && b.userId == session.value)
        && StrictlyIncreasing(r.value, BudgetId)
    {
      var user := LoggedIn(session);
      if user.None? {
        return Err(Unauthenticated);
      }
      r := Ok(OwnedBudgets(budgets, user.value));
      forall b ensures b in r.value <==> b in budgets.Values && b.userId == user.value {
        OwnedBudgetsMembers(budgets, user.value, b);
      }
      OwnedBudgetsAscending(budgets, user.value);
    }
  }

  // ---------------------------------------------------------------------------
  // The code as written, where it differs from the class above.

  /** A key handed to the `category` index: a string, or an array such as `[userId, category]`. */
  datatype IndexKey = StringKey(s: string) | ArrayKey(parts: seq<string>)

  function FirstWithKey(keys: seq<int>, m: map<int, Budget>, key: IndexKey): (r: Option<int>)
    requires forall i :: 0 <= i < |keys| ==> keys[i] in m
    ensures r.Some? ==> r.value in keys && r.value in m && key == StringKey(m[r.value].category)
    ensures r.None? ==> forall k :: k in keys ==> key != StringKey(m[k].category)
  {
    if keys == [] then None
    else if key == StringKey(m[keys[0]].category) then Some(keys[0])
    else FirstWithKey(keys[1..], m, key)
  }

  /** `store.index("category").get(key)`: the first budget, in key order, whose category equals `key`. */
  function CategoryIndexGet(m: map<int, Budget>, key: IndexKey): (r: Option<int>)
    ensures r.Some? ==> r.value in m && key == StringKey(m[r.value].category)
    ensures r.None? ==> forall k :: k in m ==> key != StringKey(m[k].category)
  {
    FirstWithKey(AscendingKeys(m.Keys), m, key)
  }

  datatype SetBudgetOutcome = SetBudgetOutcome(budgets: map<int, Budget>, nextKey: int, key: int)

  /**
   * `setBudget` as written: the lookup passes the array key `[userId, category]`
   * to an index whose keys are category strings, so it never finds a budget and
   * every call writes a new one.
   */
  function SetBudgetAsWritten(m: map<int, Budget>, next: int, user: string, category: string, amount: int)
    : (r: SetBudgetOutcome)
    requires KeysBelow(m, next)
    ensures KeysBelow(r.budgets, r.nextKey)
    ensures r.key !in m && r.budgets == m[r.key := Budget(r.key, user, category, amount)]
  {
    match CategoryIndexGet(m, ArrayKey([user, category]))
    // The lookup cannot succeed (see the contract of CategoryIndexGet), so the
    // source's update branch is dead.
    case Some(k) => assert false; SetBudgetOutcome(m, next, k)
    case None =>
      FreshKeyWrite(m, next, Budget(next, user, category, amount));
      SetBudgetOutcome(m[next := Budget(next, user, category, amount)], next + 1, next)
  }

  /** Two calls for the same user and category leave two budgets for it. */
  lemma {:induction false} SetBudgetAsWrittenDuplicates(m: map<int, Budget>, next: int, user: string, category: string, a1: int, a2: int)
    requires KeysBelow(m, next)
    ensures var first := SetBudgetAsWritten(m, next, user, category, a1);
            var second := SetBudgetAsWritten(first.budgets, first.nextKey, user, category, a2);
            && first.key != second.key
            && first.key in second.budgets && second.key in second.budgets
            && second.budgets[first.key].category == second.budgets[second.key].category == category
            && second.budgets[first.key].userId == second.budgets[second.key].userId == user
            && !OneBudgetPerCategory(second.budgets)
  {
    var first := SetBudgetAsWritten(m, next, user, category, a1);
    var second := SetBudgetAsWritten(first.budgets, first.nextKey, user, category, a2);
    assert first.key in first.budgets;
  }

  /**
   * `{...transaction, ...updatedData}` as written: an `id` in the patch replaces
   * the key, so `store.put` writes under the patch's key, not the one that was checked.
   */
  function MergeAsWritten(t: Transaction, patch: TransactionPatch): (r: Transaction)
    ensures patch.id.Some? ==> r.id == patch.id.value
    ensures r.(id := t.id) == Merge(t, patch)
  {
    Merge(t, patch).(id := Pick(patch.id, t.id))
  }

  /**
   * "alice" updates her own record 1 with a patch naming id 2; the ownership check
   * passes on record 1, and the put replaces record 2, which belongs to "bob".
   */
  lemma {:induction false} PatchIdOverwritesAnotherUsersRecord()
    ensures
      var day := Date(2024, 1, 10);
      var mine := Transaction(1, "alice", "Coffee", 450, "expense", "food", day, "", Some(0));
      var theirs := Transaction(2, "bob", "Rent", 90000, "expense", "housing", day, "", Some(0));
      var m := map[1 := mine, 2 := theirs];
      var patch := TransactionPatch(Some(2), None, None, Some(500), None, None, None, None, None);
      var written := MergeAsWritten(m[1], patch);
      var after := m[written.id := written];
      && m[1].userId == "alice"
      && after[2].userId == "alice" && after[2].amount == 500
      && theirs !in after.Values
  {
  }
}

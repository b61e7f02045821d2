/** The record shapes that both IndexedDB-backed `BudgetDatabase` classes keep. */
module StoreRecords {
  import opened Wrappers
  import opened Calendar
  import opened Seqs
  import ObjectStore

  /**
   * A transaction as written to the `transactions` store: the caller's fields,
   * plus the owner stamped from the session and the key the store assigned.
   * `timestamp` is present only where the class stamps one.
   */
  datatype Transaction = Transaction(
    id: int, userId: string, name: string, amount: int, kind: string,
    category: string, date: Date, notes: string, timestamp: Option<int>)

  /** The object a caller hands to `addTransaction`: form fields, no key and no owner. */
  datatype NewTransaction = NewTransaction(
    name: string, amount: int, kind: string, category: string, date: Option<Date>, notes: string)

  /** `r` keeps the caller's fields as given, with `today` standing in for a missing date. */
  ghost predicate FromInput(r: Transaction, input: NewTransaction, today: Date) {
    && r.name == input.name && r.amount == input.amount && r.kind == input.kind
    && r.category == input.category && r.notes == input.notes
    && r.date == (if input.date.Some? then input.date.value else today)
  }

  /** The fields an `updateTransaction` call carries; `None` leaves the stored field as it is. */
  datatype TransactionPatch = TransactionPatch(
    id: Option<int>, userId: Option<string>, name: Option<string>, amount: Option<int>,
    kind: Option<string>, category: Option<string>, date: Option<Date>, notes: Option<string>,
    timestamp: Option<int>)

  /** The patch that carries no field at all. */
  const EmptyPatch := TransactionPatch(None, None, None, None, None, None, None, None, None)

  /** A budget as written to the `budgets` store. */
  datatype Budget = Budget(id: int, userId: string, category: string, amount: int)

  /**
   * The user a call runs as: `sessionStorage.getItem("loggedInUser")`, where a
   * missing or empty value is nobody (the `!userId` test).
   */
  function LoggedIn(session: Option<string>): (r: Option<string>)
    ensures r.Some? <==> session.Some? && session.value != ""
    ensures r.Some? ==> r == session
  {
    if session.Some? && session.value != "" then session else None
  }

  /** A record's contribution to the income total: its amount when its type is "income". */
  function IncomeAmount(t: Transaction): int {
    if t.kind == "income" then t.amount else 0
  }

  /** A record's amount, whatever its type. */
  function AmountOf(t: Transaction): int {
    t.amount
  }

  function Pick<T>(o: Option<T>, current: T): T {
    if o.Some? then o.value else current
  }

  /** Every field other than the key that the patch carries has the patch's value in `r`. */
  ghost predicate TakesPatch(r: Transaction, patch: TransactionPatch) {
    && (patch.userId.Some? ==> r.userId == patch.userId.value)
    && (patch.name.Some? ==> r.name == patch.name.value)
    && (patch.amount.Some? ==> r.amount == patch.amount.value)
    && (patch.kind.Some? ==> r.kind == patch.kind.value)
    && (patch.category.Some? ==> r.category == patch.category.value)
    && (patch.date.Some? ==> r.date == patch.date.value)
    && (patch.notes.Some? ==> r.notes == patch.notes.value)
    && (patch.timestamp.Some? ==> r.timestamp == patch.timestamp)
  }

  /** Every field the patch does not carry has its stored value `t` in `r`. */
  ghost predicate KeepsUnpatched(r: Transaction, t: Transaction, patch: TransactionPatch) {
    && (patch.userId.None? ==> r.userId == t.userId)
    && (patch.name.None? ==> r.name == t.name)
    && (patch.amount.None? ==> r.amount == t.amount)
    && (patch.kind.None? ==> r.kind == t.kind)
    && (patch.category.None? ==> r.category == t.category)
    && (patch.date.None? ==> r.date == t.date)
    && (patch.notes.None? ==> r.notes == t.notes)
    && (patch.timestamp.None? ==> r.timestamp == t.timestamp)
  }

  /**
   * `{...t, ...patch, id: t.id}`: every field the patch carries replaces the stored
   * one, except the primary key, which stays the key the record was read under.
   */
  function Merge(t: Transaction, patch: TransactionPatch): (r: Transaction)
    ensures r.id == t.id
    ensures TakesPatch(r, patch) && KeepsUnpatched(r, t, patch)
  {
    Transaction(t.id, Pick(patch.userId, t.userId), Pick(patch.name, t.name),
      Pick(patch.amount, t.amount), Pick(patch.kind, t.kind), Pick(patch.category, t.category),
      Pick(patch.date, t.date), Pick(patch.notes, t.notes),
      if patch.timestamp.Some? then patch.timestamp else t.timestamp)
  }

  /** Merging a patch twice is merging it once, and an empty patch changes nothing. */
  lemma {:induction false} MergeIdempotent(t: Transaction, patch: TransactionPatch)
    ensures Merge(Merge(t, patch), patch) == Merge(t, patch)
    ensures patch == EmptyPatch ==> Merge(t, patch) == t
  {
  }

  /** The caller's transactions, in key order: `getAll()` filtered on `userId`. */
  function OwnedTransactions(m: map<int, Transaction>, user: string): seq<Transaction> {
    Filter(ObjectStore.GetAll(m), (t: Transaction) => t.userId == user)
  }

  /** `OwnedTransactions` holds exactly the records stored for `user`. */
  lemma {:induction false} OwnedTransactionsMembers(m: map<int, Transaction>, user: string, t: Transaction)
    ensures t in OwnedTransactions(m, user) <==> t in m.Values && t.userId == user
  {
    FilterCounts(ObjectStore.GetAll(m), (t: Transaction) => t.userId == user, t);
    ObjectStore.GetAllMembers(m, t);
  }

  /** The key a transaction record carries. */
  function TransactionId(t: Transaction): int {
    t.id
  }

  /** The key a budget record carries. */
  function BudgetId(b: Budget): int {
    b.id
  }

  /** In a store whose records carry their own keys, the caller's records are listed once each, in key order. */
  lemma {:induction false} OwnedTransactionsAscending(m: map<int, Transaction>, user: string)
    requires forall k :: k in m ==> m[k].id == k
    ensures StrictlyIncreasing(OwnedTransactions(m, user), TransactionId)
  {
    ObjectStore.GetAllAscending(m, TransactionId);
    FilterKeepsIncreasing(ObjectStore.GetAll(m), (t: Transaction) => t.userId == user, TransactionId);
  }

  /** The caller's budgets, in key order. */
  function OwnedBudgets(m: map<int, Budget>, user: string): seq<Budget> {
    Filter(ObjectStore.GetAll(m), (b: Budget) => b.userId == user)
  }

  /** `OwnedBudgets` holds exactly the budgets stored for `user`. */
  lemma {:induction false} OwnedBudgetsMembers(m: map<int, Budget>, user: string, b: Budget)
    ensures b in OwnedBudgets(m, user) <==> b in m.Values && b.userId == user
  {
    FilterCounts(ObjectStore.GetAll(m), (b: Budget) => b.userId == user, b);
    ObjectStore.GetAllMembers(m, b);
  }

  /** In a store whose budgets carry their own keys, the caller's budgets are listed once each, in key order. */
  lemma {:induction false} OwnedBudgetsAscending(m: map<int, Budget>, user: string)
    requires forall k :: k in m ==> m[k].id == k
    ensures StrictlyIncreasing(OwnedBudgets(m, user), BudgetId)
  {
    ObjectStore.GetAllAscending(m, BudgetId);
    FilterKeepsIncreasing(ObjectStore.GetAll(m), (b: Budget) => b.userId == user, BudgetId);
  }
}

/** What the in-memory service promises about a single call or a pair of
    calls: the seeds, the flag, and which list object a caller ends up
    holding. A latching variant sets its flag when it seeds; a reseeding
    variant never does. */
module MockProperties {
  import opened Expenses
  import opened ListHeap
  import opened MockDataService

  /** The first call on a SeedsOnce service seeds Walmart, Apple and Amazon,
      in that order, with their fixed descriptions and amounts. */
  lemma SeedsOnceFirstCall(now: Date)
    ensures var f := GetExpenses(SeedsOnce, Fresh, now);
      && f.service.isInitialized
      && Entries(Returned(f)) ==
         [ Entry(Some("Walmart"), Some("Always low prices."), Some("$14.99")),
           Entry(Some("Apple"), Some("New iPhone came out - irresistable."), Some("$999")),
           Entry(Some("Amazon"), Some("Case to protect my new iPhone."), Some("$50")) ]
      && Returned(f)[0].date == now
      && Returned(f)[1].date == AddDays(now, -7)
      && Returned(f)[2].date == AddDays(now, -2)
      && (forall i :: 0 <= i < 3 ==> Returned(f)[i].receipt == None)
  {
  }

  /** Latching: once the flag is set it stays set, and a later Initialize
      returns at once, leaving the state, and so the list, as it was. */
  lemma LatchingInitializeIdempotent(v: Variant, s: Service, t1: Date, t2: Date)
    requires Valid(s) && v.setsFlag
    ensures var s1 := Initialize(v, s, t1);
      s1.isInitialized && Initialize(v, s1, t2) == s1
  {
  }

  /** Latching: `GetExpensesAsync` hands out the stored list object itself,
      so an expense added later shows up through the list returned earlier. */
  lemma LatchingLaterAddVisible(v: Variant, s: Service, t1: Date, e: Expense, t2: Date)
    requires Valid(s) && v.setsFlag
    ensures var f := GetExpenses(v, s, t1);
      var s2 := AddExpense(v, f.service, e, t2);
      && s2.expenses == Some(f.list)
      && s2.heap.lists[f.list] == Returned(f) + [e]
  {
  }

  /** Reseeding: no call ever sets the flag. */
  lemma ReseedingFlagNeverSet(v: Variant, s: Service, e: Expense, now: Date)
    requires Valid(s) && !v.setsFlag && !s.isInitialized
    ensures !Initialize(v, s, now).isInitialized
    ensures !AddExpense(v, s, e, now).isInitialized
    ensures !GetExpenses(v, s, now).service.isInitialized
  {
  }

  /** ReseedsEveryCall: every seeding points the field at a newly allocated
      list holding exactly Walmart then Amazon. */
  lemma ReseedsSeedsFreshList(s: Service, now: Date)
    requires Valid(s) && !s.isInitialized
    ensures var s1 := Initialize(ReseedsEveryCall, s, now);
      && s1.expenses.value !in s.heap.lists
      && Entries(Stored(s1)) ==
         [ Entry(Some("Walmart"), Some("Dongles for presenting at Microsoft Ignite"), Some("$14.99")),
           Entry(Some("Amazon"), Some("iPhone headphone jack adapter"), Some("$49.99")) ]
      && Stored(s1)[0].date == now
      && Stored(s1)[1].date == AddDays(now, -3)
      && Stored(s1)[0].receipt == None && Stored(s1)[1].receipt == None
  {
  }

  /** Reseeding: right after `AddExpenseAsync(e)` the stored list is the
      seeds followed by `e`, whatever happened before; for ReseedsEveryCall
      that is always three records. */
  lemma ReseedingAddForgetsHistory(v: Variant, s: Service, e: Expense, now: Date)
    requires Valid(s) && !v.setsFlag && !s.isInitialized
    ensures var s1 := AddExpense(v, s, e, now);
      && Stored(s1) == Seeds(v, now) + [e]
      && (v == ReseedsEveryCall ==> |Stored(s1)| == 3)
  {
  }

  /** Reseeding: `GetExpensesAsync` returns exactly the seeds; whatever was
      added before is gone. */
  lemma ReseedingGetReturnsSeeds(v: Variant, s: Service, now: Date)
    requires Valid(s) && !v.setsFlag && !s.isInitialized
    ensures Returned(GetExpenses(v, s, now)) == Seeds(v, now)
  {
  }

  /** Reseeding: a list returned earlier is not changed by a later add,
      because the field is pointed at a new list before the append. */
  lemma ReseedingEarlierListUntouched(v: Variant, s: Service, t1: Date, e: Expense, t2: Date)
    requires Valid(s) && !v.setsFlag && !s.isInitialized
    ensures var f := GetExpenses(v, s, t1);
      var s2 := AddExpense(v, f.service, e, t2);
      && s2.expenses != Some(f.list)
      && f.list in s2.heap.lists
      && s2.heap.lists[f.list] == Returned(f)
  {
  }

  /** Reseeding: two successive `GetExpensesAsync` calls return two distinct
      list objects with the same records (the same dates too when the clock
      has not moved); the first list survives unchanged. */
  lemma ReseedingSuccessiveGetsDistinct(v: Variant, s: Service, t1: Date, t2: Date)
    requires Valid(s) && !v.setsFlag && !s.isInitialized
    ensures var f1 := GetExpenses(v, s, t1);
      var f2 := GetExpenses(v, f1.service, t2);
      && f1.list != f2.list
      && Entries(Returned(f1)) == Entries(Returned(f2))
      && (t1 == t2 ==> Returned(f1) == Returned(f2))
      && f1.list in f2.service.heap.lists
      && f2.service.heap.lists[f1.list] == Returned(f1)
  {
  }
}

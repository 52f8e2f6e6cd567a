/** The same service as heap objects: a service object whose `expenses`
    field refers to a list object. Here Dafny's own heap carries the aliasing
    that the functional model spells out with `ListHeap`. */
module MockObject {
  import opened Expenses
  import MockDataService

  /** A `List<Expense>` object. */
  class ExpenseList {
    var items: seq<Expense>

    constructor(items: seq<Expense>)
      ensures this.items == items
    {
      this.items := items;
    }

    /** `List<T>.Add`. */
    method Add(e: Expense)
      modifies this
      ensures items == old(items) + [e]
    {
      items := items + [e];
    }
  }

  class MockService {
    const variant: MockDataService.Variant
    var isInitialized: bool
    var expenses: ExpenseList?

    constructor(variant: MockDataService.Variant)
      ensures this.variant == variant && !isInitialized && expenses == null
      ensures Valid()
    {
      this.variant := variant;
      isInitialized := false;
      expenses := null;
    }

    ghost predicate Valid()
      reads this
    {
      isInitialized ==> expenses != null
    }

    /** Lazy seeding: a no-op once the flag is set; otherwise a new list of
        seeds, with the flag set only in a variant that sets it. */
    method Initialize(now: Date)
      requires Valid()
      modifies this
      ensures Valid() && expenses != null
      ensures old(isInitialized) ==> isInitialized && expenses == old(expenses)
      ensures !old(isInitialized) ==>
        fresh(expenses) && expenses.items == MockDataService.Seeds(variant, now)
      ensures isInitialized <==> old(isInitialized) || variant.setsFlag
    {
      if isInitialized {
        return;
      }
      expenses := new ExpenseList(MockDataService.Seeds(variant, now));
      if variant.setsFlag {
        isInitialized := true;
      }
    }

    /** `AddExpenseAsync`: seed if needed, then append to the current list. */
    method AddExpense(e: Expense, now: Date)
      requires Valid()
      modifies this, if isInitialized then {expenses} else {}
      ensures Valid() && expenses != null
      ensures isInitialized <==> old(isInitialized) || variant.setsFlag
      ensures old(isInitialized) ==>
        expenses == old(expenses) && expenses.items == old(expenses.items) + [e]
      ensures !old(isInitialized) ==>
        fresh(expenses) && expenses.items == MockDataService.Seeds(variant, now) + [e]
    {
      Initialize(now);
      expenses.Add(e);
    }

    /** `GetExpensesAsync`: seed if needed, then return the list object itself. */
    method GetExpenses(now: Date) returns (list: ExpenseList)
      requires Valid()
      modifies this
      ensures Valid() && list == expenses
      ensures isInitialized <==> old(isInitialized) || variant.setsFlag
      ensures old(isInitialized) ==> list == old(expenses) && list.items == old(list.items)
      ensures !old(isInitialized) ==>
        fresh(list) && list.items == MockDataService.Seeds(variant, now)
    {
      Initialize(now);
      list := expenses;
    }
  }

  /** Reseeding: two successive reads return distinct objects, and a later
      add leaves the first one as it was. Latching: both reads return the same
      object, and the add shows through it. */
  method AliasingScenario(variant: MockDataService.Variant, e: Expense, now: Date)
    returns (first: ExpenseList, second: ExpenseList)
    ensures !variant.setsFlag ==>
      first != second && first.items == MockDataService.Seeds(variant, now)
    ensures variant.setsFlag ==>
      first == second && first.items == MockDataService.Seeds(variant, now) + [e]
  {
    var service := new MockService(variant);
    first := service.GetExpenses(now);
    service.AddExpense(e, now);
    second := service.GetExpenses(now);
  }
}

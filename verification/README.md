# Spent: the in-memory expense data service

Spent is an expense-tracking sample app. Its data service offers two calls:
`AddExpenseAsync` stores an expense and `GetExpensesAsync` lists the stored
ones. This project models the in-memory implementation, `MockDataService`.
It keeps a `bool isInitialized` flag and a `List<Expense>` field. Each public
call first runs a lazy `Initialize()`, which seeds the list with fixed sample
records unless the flag is set.

Two copies of the service exist, and the model covers both:

- `modules/module-3/finish-code/Spent/Services/MockDataService.cs` sets the flag after seeding three samples (Walmart, Apple, Amazon).
  It seeds once, and every added expense is kept.
- `XamarinSpent/modules/module-5/code/Spent/Services/MockDataService.cs` seeds two samples (Walmart, Amazon) and never sets the flag. Every
  call therefore allocates a new seeded list, and added expenses are lost.

Files:

- `expense.dfy` (`Expenses`): the `Expense` record, a `Date` tick count, and
  `Entry`, the clock-independent part of a record (company, description,
  amount).
- `list_heap.dfy` (`ListHeap`): a heap of list objects. It maps references to
  contents, so the model can say whether two callers hold the same `List`
  object or different ones.
- `mock_data_service.dfy` (`MockDataService`): the service as pure functions
  over its state (flag, field, heap). `Variant` selects the sample set and
  whether `Initialize` sets the flag. `SeedsOnce` and `ReseedsEveryCall` are
  the two copies. `ReseedsCorrected` is the second copy with the flag
  assignment restored (see Findings).
- `properties.dfy` (`MockProperties`): facts about one call or a pair of calls.
- `traces.dfy` (`Traces`): what the list holds after any sequence of calls.
- `mock_object.dfy` (`MockObject`): the same service written as Dafny
  classes. Here Dafny's own heap and `fresh` express the aliasing.

The calls are `async` in the source but contain no `await`. They run to
completion synchronously and are modelled as plain calls. The clock
(`DateTime.Now`) is a `now: Date` parameter of each call.

## Model

| member | source | states |
|---|---|---|
| Expenses.AddDays | modules/module-3/finish-code/Spent/Services/MockDataService.cs:22-23 | shifting a date by a negative number of days gives an earlier date, by zero the same date, by a positive number a later one |
| Expenses.NewExpense | modules/module-3/finish-code/Spent/Services/MockDataService.cs:21-23 | an object initialiser that sets company, description, amount and date leaves the receipt at its default, null |
| Expenses.EntriesAppend | modules/module-5/code/Spent/Models/Expense.cs:7-9 | the company, description and amount of a concatenation of lists are those of the first list followed by those of the second |
| ListHeap.Alloc | modules/module-3/finish-code/Spent/Services/MockDataService.cs:19-24 | `new List<Expense>` yields a reference not allocated before, holding exactly the given records; every earlier list keeps its contents |
| ListHeap.Append | modules/module-3/finish-code/Spent/Services/MockDataService.cs:33 | `List.Add` grows that list by one with the new record last, leaves its earlier entries in place, and changes no other list |
| MockDataService.FreshIsValid | modules/module-3/finish-code/Spent/Services/MockDataService.cs:11-12 | a new service is well formed, its flag false, its list field null, and no list allocated |
| MockDataService.Seeds | modules/module-3/finish-code/Spent/Services/MockDataService.cs:19-24 | the seeds are three records for the copy with the flag and two for the other; Walmart first, Amazon last; the first dated now and the rest in the past; none with a receipt |
| MockDataService.Initialize | modules/module-3/finish-code/Spent/Services/MockDataService.cs:14-27 | with the flag set, nothing changes; otherwise the field points at a fresh list holding exactly the seeds, older lists are untouched, and the flag ends set exactly when it was set or the copy sets it |
| MockDataService.AddExpense | modules/module-3/finish-code/Spent/Services/MockDataService.cs:29-34 | after initialising, the stored list grows by exactly one with the expense last, earlier entries unchanged and in place, and no other list changes |
| MockDataService.GetExpenses | modules/module-3/finish-code/Spent/Services/MockDataService.cs:36-41 | the state after the call is the initialised state, and the returned reference is the stored list object itself, not a copy |
| MockProperties.SeedsOnceFirstCall | modules/module-3/finish-code/Spent/Services/MockDataService.cs:19-24 | the first call on a new service yields Walmart, Apple, Amazon in that order, with their descriptions and amounts, dated now, 7 days and 2 days ago, with no receipt |
| MockProperties.LatchingInitializeIdempotent | modules/module-3/finish-code/Spent/Services/MockDataService.cs:16-17 | once initialised the flag is set, and a second `Initialize` leaves the state exactly as it was |
| MockProperties.LatchingLaterAddVisible | modules/module-3/finish-code/Spent/Services/MockDataService.cs:29-41 | a later add appends to the very list an earlier `GetExpensesAsync` returned, so the earlier caller sees it |
| Traces.Run | modules/module-3/finish-code/Spent/Services/MockDataService.cs:14-41 | any sequence of calls keeps the service well formed: the field points into the heap, and the flag is set only while the field is non-null |
| Traces.LatchingRunAppends | modules/module-3/finish-code/Spent/Services/MockDataService.cs:29-41 | once seeded, any sequence of calls keeps the flag set and the same list object, and only appends the added expenses in call order |
| Traces.LatchingFirstCall | modules/module-3/finish-code/Spent/Services/MockDataService.cs:14-38 | on a new service the first call, add or get, leaves the flag set and the list holding the seeds followed by the added expense, if any |
| Traces.LatchingGetAfterCalls | modules/module-3/finish-code/Spent/Services/MockDataService.cs:19-40 | on a new service, after any calls, `GetExpensesAsync` returns the seeds (dated by the first call) followed by every added expense in call order |
| Traces.LatchingEntriesAfterCalls | modules/module-3/finish-code/Spent/Services/MockDataService.cs:19-40 | on a new service, after any calls, the company, description and amount of the listed records are those of the seeds followed by those of the added expenses, whatever the clock read |
| Traces.ListAfterAdds | modules/module-3/finish-code/Spent/Services/MockDataService.cs:29-41 | adding a list of expenses to a new service and then listing yields the seeds followed by those expenses for a copy that sets its flag, and the seeds alone for one that does not |
| MockProperties.ReseedingFlagNeverSet | XamarinSpent/modules/module-5/code/Spent/Services/MockDataService.cs:11-24 | in the copy that never assigns it, no call sets the flag |
| MockProperties.ReseedsSeedsFreshList | XamarinSpent/modules/module-5/code/Spent/Services/MockDataService.cs:19-23 | every seeding points the field at a newly allocated list holding exactly Walmart then Amazon, with their descriptions, amounts and dates |
| MockProperties.ReseedingAddForgetsHistory | XamarinSpent/modules/module-5/code/Spent/Services/MockDataService.cs:26-31 | right after an add the stored list is the seeds followed by the added expense, whatever came before; for this copy that is always three records |
| MockProperties.ReseedingGetReturnsSeeds | XamarinSpent/modules/module-5/code/Spent/Services/MockDataService.cs:33-38 | `GetExpensesAsync` returns exactly the seeds, whatever was added before |
| MockProperties.ReseedingEarlierListUntouched | XamarinSpent/modules/module-5/code/Spent/Services/MockDataService.cs:19-30 | a list returned earlier is not changed by a later add, because the field is rebound to a new list before the append |
| MockProperties.ReseedingSuccessiveGetsDistinct | XamarinSpent/modules/module-5/code/Spent/Services/MockDataService.cs:19-37 | two successive reads return distinct list objects with equal records (equal dates too if the clock has not moved), and the first survives unchanged |
| Traces.ReseedingRunForgets | XamarinSpent/modules/module-5/code/Spent/Services/MockDataService.cs:14-38 | from any unseeded state the flag stays false through every sequence of calls, and the stored list depends only on the last call |
| Traces.ReseedingGetAfterCalls | XamarinSpent/modules/module-5/code/Spent/Services/MockDataService.cs:14-38 | on a new service, after any calls, `GetExpensesAsync` returns the seeds and nothing else |
| Traces.ReseedsEveryCallLosesAdd | XamarinSpent/modules/module-5/code/Spent/Services/MockDataService.cs:26-38 | as written: add one expense to a new service, then list, and only the two seeds come back |
| Traces.ReseedsCorrectedKeepsAdd | XamarinSpent/modules/module-5/code/Spent/Services/MockDataService.cs:14-38 | with the flag assignment restored, the same calls return the two seeds followed by the added expense |
| MockObject.ExpenseList.Add | modules/module-3/finish-code/Spent/Services/MockDataService.cs:33 | object form: `List.Add` leaves the list's contents as before followed by the new expense |
| MockObject.MockService.Initialize | XamarinSpent/modules/module-5/code/Spent/Services/MockDataService.cs:14-24 | object form: with the flag set the field keeps the same object; otherwise the field holds a freshly allocated list of seeds |
| MockObject.MockService.AddExpense | XamarinSpent/modules/module-5/code/Spent/Services/MockDataService.cs:26-31 | object form: either the same list object grows by the expense, or a fresh list holds the seeds followed by it; an unseeded service can change no pre-existing list |
| MockObject.MockService.GetExpenses | XamarinSpent/modules/module-5/code/Spent/Services/MockDataService.cs:33-38 | object form: the returned object is the field's object; it is the old one unchanged when the flag was set, a fresh one of seeds otherwise |
| MockObject.AliasingScenario | XamarinSpent/modules/module-5/code/Spent/Services/MockDataService.cs:19-37 | object form: read, add, read returns one shared object that shows the add when the flag gets set, and two distinct objects when it does not, the first still holding only the seeds |

## Left out

- `AzureDataService`, the other implementation of the data service, is not part of this model. Its insert, push, pull and offline queue live in a vendor SDK whose code is not available. In prose: it initialises lazily behind its own flag, and it pushes then pulls, swallowing any exception.
- The views, the view models and the publish/subscribe messaging are not part of this model. They are user-interface wiring around the two service calls.
- `EntityData` identity (a `Guid.NewGuid()` id, plus server-assigned timestamps and version) is not part of this model. The `Expense` type modelled here is the plain record with company, description, amount, date and receipt.
- `async`/`Task`: the mock methods never await, so they are modelled as synchronous calls. Interleaving of concurrent callers is not modelled.
- Seed dates: each seed record reads `DateTime.Now` separately; the model takes a single clock reading per call, so all seeds of one call share one `now`.
- Expenses.AddDays: does not model `DateTime`'s range limits (an out-of-range result throws in .NET), because the clock is an unbounded tick count here.
- Expense is a reference type in C#, and the list stores the caller's object. The model stores values, so a caller mutating an `Expense` after adding it is not modelled.
- Null strings: every text field of `Expense` is an `Option<string>`, so a null company, description, amount or receipt is `None`. The seeds set all but the receipt.
- A null expense: `AddExpenseAsync(null)` is accepted by `List.Add` in C#, but the model's lists hold only `Expense` values. The service never reads an expense it stores, so every list property above would hold with null as one more element value.

## Findings

| source | as written | input that shows it | evidently intended | confidence | as-written member | corrected member |
|---|---|---|---|---|---|---|
| XamarinSpent/modules/module-5/code/Spent/Services/MockDataService.cs:14-24 | `Initialize` tests `isInitialized` but never assigns it, so every call replaces the list with new seeds | on a new service, `AddExpenseAsync(e)` then `GetExpensesAsync()` returns only the two seeds; `e` is lost | set `isInitialized = true` after seeding, as the other copy does, so the list becomes the two seeds followed by `e` | high; not executed | Traces.ReseedsEveryCallLosesAdd | Traces.ReseedsCorrectedKeepsAdd |

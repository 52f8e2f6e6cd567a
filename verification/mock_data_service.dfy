/** The in-memory data service. Two copies of it exist. They seed different
    sample records, and they differ in one line: the first sets its
    `isInitialized` flag once it has seeded the list, the second never does,
    so it seeds a new list on every call. One model covers both,
    parameterised by `Variant`. */
module MockDataService {
  import opened Expenses
  import opened ListHeap

  /** Which sample records a copy seeds. */
  datatype SampleSet = ThreeSamples | TwoSamples

  /** A copy of the service: its samples, and whether `Initialize` sets the flag. */
  datatype Variant = Variant(samples: SampleSet, setsFlag: bool)

  /** The copy that sets the flag: it seeds once and keeps every added expense. */
  const SeedsOnce: Variant := Variant(ThreeSamples, true)

  /** The copy that never sets the flag: each call starts from a new seeded list. */
  const ReseedsEveryCall: Variant := Variant(TwoSamples, false)

  /** ReseedsEveryCall with the missing assignment to the flag put back. */
  const ReseedsCorrected: Variant := Variant(TwoSamples, true)

  /** The object's two fields, plus the heap their list lives in. `expenses`
      is `None` while the field is still null. */
  datatype Service = Service(isInitialized: bool, expenses: Option<Ref>, heap: Heap)

  /** A newly constructed service: both fields hold their defaults. */
  const Fresh: Service := Service(false, None, ListHeap.Empty)

  /** A new service is well formed, unseeded, its list field null, and no
      list has been allocated yet. */
  lemma FreshIsValid()
    ensures Valid(Fresh)
    ensures !Fresh.isInitialized && Fresh.expenses == None && Fresh.heap.lists == map[]
  {
  }

  /** The heap is well formed, a non-null field points into it, and the flag
      is only ever set once the field is non-null. */
  ghost predicate Valid(s: Service)
  {
    && ListHeap.WellFormed(s.heap)
    && (s.expenses.Some? ==> s.expenses.value in s.heap.lists)
    && (s.isInitialized ==> s.expenses.Some?)
  }

  /** The contents of the list the `expenses` field points to. */
  function Stored(s: Service): seq<Expense>
    requires Valid(s) && s.expenses.Some?
  {
    s.heap.lists[s.expenses.value]
  }

  /** The sample records each variant seeds, dated from the clock reading
      `now`: three or two of them, Walmart first and Amazon last, the first
      dated now and the rest in the past, none with a receipt. */
  function Seeds(v: Variant, now: Date): (r: seq<Expense>)
    ensures |r| == (if v.samples == ThreeSamples then 3 else 2)
    ensures r[0].company == Some("Walmart") && r[|r| - 1].company == Some("Amazon")
    ensures r[0].date == now
    ensures forall i :: 1 <= i < |r| ==> r[i].date.ticks < now.ticks
    ensures forall i :: 0 <= i < |r| ==> r[i].receipt == None
  {
    match v.samples
    case ThreeSamples =>
      [ NewExpense("Walmart", "Always low prices.", "$14.99", now),
        NewExpense("Apple", "New iPhone came out - irresistable.", "$999", AddDays(now, -7)),
        NewExpense("Amazon", "Case to protect my new iPhone.", "$50", AddDays(now, -2)) ]
    case TwoSamples =>
      [ NewExpense("Walmart", "Dongles for presenting at Microsoft Ignite", "$14.99", now),
        NewExpense("Amazon", "iPhone headphone jack adapter", "$49.99", AddDays(now, -3)) ]
  }

  /** The lazy initialiser. With the flag set it changes nothing; otherwise it
      points the field at a newly allocated list holding the seeds, leaving every
      list allocated before untouched, and sets the flag only in a variant
      that does so. */
  function Initialize(v: Variant, s: Service, now: Date): (s': Service)
    requires Valid(s)
    ensures Valid(s') && s'.expenses.Some?
    ensures s.isInitialized ==> s' == s
    ensures !s.isInitialized ==>
      && s'.expenses.value !in s.heap.lists
      && Stored(s') == Seeds(v, now)
      && (forall r :: r in s.heap.lists ==> r in s'.heap.lists && s'.heap.lists[r] == s.heap.lists[r])
    ensures s'.isInitialized <==> s.isInitialized || v.setsFlag
  {
    if s.isInitialized then
      s
    else
      var a := Alloc(s.heap, Seeds(v, now));
      Service(v.setsFlag, Some(a.ref), a.heap)
  }

  /** `AddExpenseAsync`: initialise, then append to the list the field points
      to. That list grows by exactly one with `e` last, nothing before it moves,
      and no other list changes. */
  function AddExpense(v: Variant, s: Service, e: Expense, now: Date): (s': Service)
    requires Valid(s)
    ensures Valid(s') && s'.expenses.Some?
    ensures var before := Initialize(v, s, now);
      && s'.isInitialized == before.isInitialized
      && s'.expenses == before.expenses
      && |Stored(s')| == |Stored(before)| + 1
      && Stored(s')[|Stored(before)|] == e
      && (forall i :: 0 <= i < |Stored(before)| ==> Stored(s')[i] == Stored(before)[i])
      && (forall r :: r in before.heap.lists && r != before.expenses.value ==>
            r in s'.heap.lists && s'.heap.lists[r] == before.heap.lists[r])
  {
    var s1 := Initialize(v, s, now);
    Service(s1.isInitialized, s1.expenses, Append(s1.heap, s1.expenses.value, e))
  }

  /** What `GetExpensesAsync` leaves behind and hands back. */
  datatype Fetched = Fetched(service: Service, list: Ref)

  /** `GetExpensesAsync`: initialise, then return the stored list object
      itself, not a copy. Beyond initialising, the state does not change. */
  function GetExpenses(v: Variant, s: Service, now: Date): (f: Fetched)
    requires Valid(s)
    ensures Valid(f.service)
    ensures f.service == Initialize(v, s, now)
    ensures f.service.expenses == Some(f.list)
    ensures s.isInitialized ==> f.service == s
  {
    var s1 := Initialize(v, s, now);
    Fetched(s1, s1.expenses.value)
  }

  /** The contents of the list a `GetExpenses` call returned, as the heap
      holds them at that moment. */
  function Returned(f: Fetched): seq<Expense>
    requires Valid(f.service) && f.service.expenses == Some(f.list)
  {
    f.service.heap.lists[f.list]
  }
}
